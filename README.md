# Brewtarget unit catalogue and tree type mask, in Dafny

This project models two small parts of Brewtarget, a desktop application for
writing beer recipes. Both parts are written inline in C++ headers.

- **The unit catalogue** (`src/unit.h`). It declares three enums: the quantity a
  unit measures (`UnitType`), the measurement system (`iUnitSystem`) and the
  temperature scale (`TempScale`). It has two functions that name systems and
  scales. It has a base class `Unit` with default virtual members, and 23
  concrete unit classes. Each concrete class reports its quantity and its
  system, or its scale for a temperature unit. The class `Units` declares one
  static pointer per concrete class. The model reads it as a roster holding one
  instance of each class, because `Units()`, which sets the pointers, is not
  part of this model.
- **The type mask of the tree model** (`src/BrewTargetTreeModel.h`). The enum
  `TypeMasks` gives one flag bit to each of the seven kinds of item a tree can
  show (recipes, equipment, fermentables, hops, miscs, yeasts, brew notes), plus
  `ALLMASK`. The header declares a constructor whose type-mask argument defaults
  to `ALLMASK`, a `treeMask` field and `getMask()`. The model assumes that the
  constructor stores its argument in `treeMask`, that nothing else assigns it,
  and that `getMask()` returns it. The bodies that would show this are not part
  of this model.

Files:

- `wrappers.dfy`: module `Wrappers`, the `Option` type. `None` stands for the
  null `QString` that the naming functions return from their default branch.
- `bits.dfy`: module `Bits`. It defines C++ `&` and `|` on non-negative
  integers, bit by bit, and proves what they do to each bit.
- `unit.dfy`: module `Units`, the unit catalogue.
- `brew_target_tree_model.dfy`: module `TreeModel`, the kind flags, the tree
  model class, and the correspondence between a mask and the set of kinds it
  shows.

How the model is built:

- Each enum is a datatype. A code function gives each enumerator's integer
  value. A `...FromCode` function reads an integer back into an enumerator.
- The concrete unit classes are the constructors of `UnitId`. Each constructor
  has its C++ class's name. `Unit = BaseUnit | Concrete(id)` stands for the
  dynamic class of a `Unit` object, so `GetUnitType` and `GetUnitOrTempSystem`
  act as the virtual accessors.
- The "system" accessor of a temperature unit returns a `TempScale`, not an
  `iUnitSystem`. The model keeps the two apart as `Affiliation = System(..) |
  Scale(..)`. It also proves where their integers collide.
- The header gives the base class defaults of 0 for type and system. The model
  keeps those values as written, although they make a base `Unit` look like an
  SI mass unit (`BaseUnitLooksLikeSIMass`).
- A `TypeMasks` value is a `nat` from 0 to 127. That is the range of values the
  C++ enum can hold, because its largest enumerator is 127.
- A kind is shown under a mask when `mask & flag` is not 0. The header states
  only that the mask "describes what items this tree will show"; the test
  itself is the model's reading of that comment.
- `treeMask` is a `const` field, so under the assumption above the mask
  cannot change; the model makes it constant by construction rather than
  proving it.

## Model

| member | source | states |
|---|---|---|
| `Units.UnitTypeCode` | src/unit.h:51-57 | Each UnitType enumerator has an integer value from 0 to 3. |
| `Units.UnitSystemCode` | src/unit.h:59-66 | Each iUnitSystem enumerator has an integer value from 0 to 4. |
| `Units.TempScaleCode` | src/unit.h:68-73 | Each TempScale enumerator has an integer value from 0 to 2. |
| `Units.UnitTypeFromCode` | src/unit.h:51-57 | An integer names a UnitType exactly when it is 0 to 3, and then that enumerator's value is the integer. |
| `Units.UnitSystemFromCode` | src/unit.h:59-66 | An integer names an iUnitSystem exactly when it is 0 to 4, and then that enumerator's value is the integer. |
| `Units.TempScaleFromCode` | src/unit.h:68-73 | An integer names a TempScale exactly when it is 0 to 2, and then that enumerator's value is the integer. |
| `Units.EnumCodesRoundTrip` | src/unit.h:51-73 | Within each enum the values are distinct: reading back an enumerator's value gives that enumerator. |
| `Units.UnitSystemToString` | src/unit.h:75-84 | A system gets a name exactly when it is SI, USCustomary or Imperial. The default branch gives the null string. |
| `Units.UnitSystemNames` | src/unit.h:75-84 | The names are "SI", "USCustomary" and "Imperial". ImperialAndUS and Any get the null string. |
| `Units.UnitSystemToStringInjective` | src/unit.h:75-84 | Two systems that get the same non-null name are the same system. |
| `Units.TempScaleToString` | src/unit.h:86-94 | A scale gets a name exactly when it is not Kelvin. |
| `Units.TempScaleNames` | src/unit.h:86-94 | The names are "Celsius" and "Fahrenheit". Kelvin gets the null string. |
| `Units.TempScaleToStringInjective` | src/unit.h:86-94 | Two scales that get the same non-null name are the same scale. |
| `Units.BaseFromSI` | src/unit.h:102 | The base class's fromSI returns the amount unchanged. |
| `Units.BaseToSI` | src/unit.h:101-102 | The base class's toSI returns the amount unchanged, so the base fromSI takes its result back to the amount. |
| `Units.BaseConversionRoundTrip` | src/unit.h:101-102 | The base class's toSI and fromSI undo each other, in both orders. |
| `Units.BaseUnitLooksLikeSIMass` | src/unit.h:107-108 | The base class reports type 0 and system 0. These are the values of Mass and SI, the same pair a kilogram reports. |
| `Units.GetUnitType` | src/unit.h:107-533 | As an integer, getUnitType is Mass for the base class and the class's quantity for every concrete class. |
| `Units.GetUnitOrTempSystem` | src/unit.h:108-534 | As an integer, getUnitOrTempSystem is SI for the base class. It is the class's iUnitSystem for a mass, volume or time unit, and its TempScale for a temperature unit. |
| `Units.QuantityOf` | src/unit.h:133-533 | The quantity each concrete class's getUnitType names. The time units are exactly second, minute and hour; the temperature units are exactly Celsius, Fahrenheit and Kelvin. |
| `Units.AffiliationOf` | src/unit.h:123-539 | A unit's system accessor stands for a temperature scale exactly when the unit measures temperature. |
| `Units.AffiliationCode` | src/unit.h:59-73 | The integer the system accessor returns is 0 to 4. |
| `Units.MassUnits` | src/unit.h:123-211 | Kilogram, gram, milligram, pound and ounce are exactly the mass units. The first three are SI; pound and ounce are ImperialAndUS. |
| `Units.VolumeUnits` | src/unit.h:214-428 | The twelve volume units are exactly the liter, milliliter, US and Imperial ones. Liter and milliliter are SI, the five US units are USCustomary, and the five Imperial units are Imperial. |
| `Units.TimeUnitsAreTheAnySystem` | src/unit.h:431-483 | Second, minute and hour are exactly the time units. A unit's system is Any exactly when it is a time unit. |
| `Units.OnlyPoundAndOunceAreImperialAndUS` | src/unit.h:123-539 | A concrete unit reports ImperialAndUS exactly when it is a pound or an ounce. |
| `Units.TemperatureUnits` | src/unit.h:487-539 | Celsius, Fahrenheit and Kelvin are exactly the temperature units, and each one's "system" is its own scale. |
| `Units.ScaleCodesCollideWithSystemCodes` | src/unit.h:59-73 | As integers, Celsius equals SI, Fahrenheit equals USCustomary and Kelvin equals Imperial. So a Celsius unit reports the same system integer as a kilogram, though their affiliations differ. |
| `Units.SystemCodeAloneIsAmbiguous` | src/unit.h:487-503 | The system integer alone does not tell two units' affiliations apart. |
| `Units.ReadAffiliation` | src/unit.h:107-534 | Reading a (getUnitType, getUnitOrTempSystem) pair succeeds exactly when the type is 0 to 3 and the system is 0 to 2 for Temp or 0 to 4 otherwise. It then gives an affiliation whose integer is the system value, and that affiliation is a scale exactly when the type is Temp. |
| `Units.PairIdentifiesAffiliation` | src/unit.h:123-539 | For every concrete unit, reading its (getUnitType, getUnitOrTempSystem) pair gives back its exact system or scale. |
| `Units.SamePairSameAffiliation` | src/unit.h:123-539 | Two concrete units that report the same pair measure the same quantity and have the same system or scale. |
| `Units.RosterSlot` | src/unit.h:547-572 | Every concrete unit class has a slot in the Units roster, the static pointer declared for it. |
| `Units.RosterSlotOfEntry` | src/unit.h:547-572 | The slot of the unit held in slot i is i. |
| `Units.RosterHoldsEachUnitOnce` | src/unit.h:547-572 | The roster has 23 instances, one of each concrete class, and no class twice. |
| `Units.RosterGroupedByQuantity` | src/unit.h:546-572 | The roster lists mass units first, then volume, time and temperature units. |
| `TreeModel.Position` | src/BrewTargetTreeModel.h:62-77 | Each kind has one bit position from 0 to 6, in declaration order. |
| `TreeModel.Mask` | src/BrewTargetTreeModel.h:65-77 | RECIPEMASK through BREWNOTEMASK are 1, 2, 4, 8, 16, 32 and 64. Each is the single bit 2^position. |
| `TreeModel.PositionInjective` | src/BrewTargetTreeModel.h:65-77 | Two kinds share a bit position exactly when they are the same kind. |
| `TreeModel.ShownKinds` | src/BrewTargetTreeModel.h:61-77 | The kinds a mask shows are exactly those whose flag ANDed with the mask is not 0. |
| `TreeModel.Shows` | src/BrewTargetTreeModel.h:61-77 | A kind is shown under a mask exactly when its bit is set in the mask. The rule "shown when `mask & flag` is not 0" is the model's reading of "what items this tree will show" (line 61), because the test's body is not in the header. |
| `TreeModel.MasksDisjoint` | src/BrewTargetTreeModel.h:65-77 | The AND of two different kind flags is 0. The AND of a flag with itself is that flag. |
| `TreeModel.SingleKindMask` | src/BrewTargetTreeModel.h:65-77 | A single kind's flag, used as a mask, shows that kind and no other. |
| `TreeModel.OrAllBit` | src/BrewTargetTreeModel.h:65-77 | The OR of a list of flags has bit i set exactly when the kind at position i is in the list. |
| `TreeModel.OrAllIsSumAll` | src/BrewTargetTreeModel.h:65-77 | For distinct kinds, the OR of their flags equals the sum of their flags. |
| `TreeModel.AllMaskIsSumOfFlags` | src/BrewTargetTreeModel.h:65-80 | ALLMASK (127) is the sum of the seven kind flags. |
| `TreeModel.AllMaskIsOrOfFlags` | src/BrewTargetTreeModel.h:65-80 | ALLMASK (127) is the OR of the seven kind flags. |
| `TreeModel.AllMaskShowsEverything` | src/BrewTargetTreeModel.h:78-80 | Every kind is shown under ALLMASK. |
| `TreeModel.EmptyMaskShowsNothing` | src/BrewTargetTreeModel.h:61-77 | No kind is shown under the mask 0. |
| `TreeModel.ShownKindsOfMaskOf` | src/BrewTargetTreeModel.h:61-80 | OR-ing the flags of any set of kinds gives a TypeMasks value (at most 127) that shows exactly that set. |
| `TreeModel.MaskOfShownKinds` | src/BrewTargetTreeModel.h:61-80 | Every TypeMasks value from 0 to 127 is the OR of the flags of the kinds it shows, so a mask and its set of kinds determine each other. |
| `TreeModel.BrewTargetTreeModel.constructor` | src/BrewTargetTreeModel.h:83 | The mask parameter defaults to ALLMASK, as the signature declares. Storing it in `treeMask` is assumed (see Left out). |
| `TreeModel.BrewTargetTreeModel.GetMask` | src/BrewTargetTreeModel.h:128 | getMask returns the stored treeMask, and that value is the OR of the flags of the kinds the tree shows. |
| `TreeModel.NewDefaultTree` | src/BrewTargetTreeModel.h:83 | A tree built with default arguments has mask ALLMASK and shows every kind. |

## Left out

- `Unit::convert` (both overloads), `Unit::qstringToSI`, `Unit::getUnit` and `Unit::setupMap` are not modelled. The header only declares them; their bodies are in `unit.cpp`, which is not part of this model.
- The conversions of the concrete classes (`toSI` and `fromSI` of kilogram through Kelvin) are not modelled. Their factors and offsets are in `unit.cpp`, which is not part of this model. Only the base class's identity conversions are modelled, on `real`. The identity is exact on `double` as well.
- The name-to-unit registry (`nameToUnit`) and its `isMapSetup` flag are not modelled. They are filled in by `setupMap`, whose body is not part of this model.
- `getUnitName` and `getSIUnitName` are not modelled. The concrete classes return fields that their constructors set in `unit.cpp`. The base class returns a reference bound to a temporary string built from 0, which has no value a model could state.
- The forward-declared classes `TablespoonUnit` and `TeaspoonUnit` are not modelled. The header never defines them, and `Units` holds no instance of them.
- The constructors of the unit classes are not modelled. Their bodies are not part of this model.
- The tree model's Qt plumbing is not modelled: `data`, `headerData`, `flags`, `rowCount`, `columnCount`, `index`, `parent`, `insertRow`, `removeRows`, `getFirst`, the `is*`, `get*` and `find*` accessors, the `*Added`, `*Changed` and `*Removed` slots, the `observe*` members, `loadTreeModel`, `unloadTreeModel`, the `*Header` helpers and the destructor. The header only declares them. Their bodies and `BrewTargetTreeItem` are not part of this model.
- TreeModel.BrewTargetTreeModel.constructor: the model assumes that the constructor stores its type-mask argument in `treeMask` and that no other member assigns `treeMask`. The header declares only the constructor's signature (line 83) and a plain non-const field (line 249); the member bodies are not part of this model. The `const` field makes the mask constant by construction, not by proof.
- `Units()`, which sets the 23 static pointers of `Units`, is not part of this model. The roster `Units.Roster` assumes that each pointer is set to an instance of the class it is declared with.
- `TypeMask` and `AllMask` are a type and a constant, not members with contracts. `AllMask` (ALLMASK, 127) is stated by `AllMaskIsSumOfFlags`, `AllMaskIsOrOfFlags` and `AllMaskShowsEverything`. The range 0 to 127 of `TypeMask` is used by `MaskOfShownKinds` and `ShownKindsOfMaskOf`.
- The constructor's `parent` argument (the view, a `BrewTargetTreeView*`) and the `rootItem` and `parentTree` fields are not modelled. They are only used by the Qt plumbing above.
- The commented-out `trees` hash in the tree model is not modelled, because it is not compiled.
