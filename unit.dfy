/**
 * The unit catalogue of Brewtarget (src/unit.h): the quantity, system and
 * temperature-scale enums with their integer values, the functions that
 * name systems and scales, the base class Unit's defaults, what each
 * concrete unit class reports for its quantity and system, and the roster
 * of unit instances held by Units.
 */
module Units {
  import opened Wrappers

  // ---------------------------------------------------------------- enums

  /** enum UnitType. */
  datatype UnitType = Mass | Volume | Time | Temp

  /** enum iUnitSystem. */
  datatype UnitSystem = SI | USCustomary | Imperial | ImperialAndUS | Any

  /** enum TempScale. */
  datatype TempScale = Celsius | Fahrenheit | Kelvin

  /** The integer value of a UnitType enumerator (declaration order from 0). */
  function UnitTypeCode(t: UnitType): (c: int)
    ensures 0 <= c < 4
  {
    match t
    case Mass => 0
    case Volume => 1
    case Time => 2
    case Temp => 3
  }

  /** The integer value of an iUnitSystem enumerator. */
  function UnitSystemCode(s: UnitSystem): (c: int)
    ensures 0 <= c < 5
  {
    match s
    case SI => 0
    case USCustomary => 1
    case Imperial => 2
    case ImperialAndUS => 3
    case Any => 4
  }

  /** The integer value of a TempScale enumerator. */
  function TempScaleCode(ts: TempScale): (c: int)
    ensures 0 <= c < 3
  {
    match ts
    case Celsius => 0
    case Fahrenheit => 1
    case Kelvin => 2
  }

  /** The UnitType enumerator with value c, if there is one. */
  function UnitTypeFromCode(c: int): (r: Option<UnitType>)
    ensures r.Some? <==> 0 <= c < 4
    ensures r.Some? ==> UnitTypeCode(r.value) == c
  {
    if c == 0 then Some(Mass)
    else if c == 1 then Some(Volume)
    else if c == 2 then Some(Time)
    else if c == 3 then Some(Temp)
    else None
  }

  /** The iUnitSystem enumerator with value c, if there is one. */
  function UnitSystemFromCode(c: int): (r: Option<UnitSystem>)
    ensures r.Some? <==> 0 <= c < 5
    ensures r.Some? ==> UnitSystemCode(r.value) == c
  {
    if c == 0 then Some(SI)
    else if c == 1 then Some(USCustomary)
    else if c == 2 then Some(Imperial)
    else if c == 3 then Some(ImperialAndUS)
    else if c == 4 then Some(Any)
    else None
  }

  /** The TempScale enumerator with value c, if there is one. */
  function TempScaleFromCode(c: int): (r: Option<TempScale>)
    ensures r.Some? <==> 0 <= c < 3
    ensures r.Some? ==> TempScaleCode(r.value) == c
  {
    if c == 0 then Some(Celsius)
    else if c == 1 then Some(Fahrenheit)
    else if c == 2 then Some(Kelvin)
    else None
  }

  /** Each enum's values are distinct, so reading a value back gives the enumerator. */
  lemma EnumCodesRoundTrip(t: UnitType, s: UnitSystem, ts: TempScale)
    ensures UnitTypeFromCode(UnitTypeCode(t)) == Some(t)
    ensures UnitSystemFromCode(UnitSystemCode(s)) == Some(s)
    ensures TempScaleFromCode(TempScaleCode(ts)) == Some(ts)
  {
  }

  // ---------------------------------------------------------------- names

  /**
   * unitSystemToString: the name of SI, USCustomary and Imperial; the
   * default branch (ImperialAndUS, Any) gives the null string, None here.
   */
  function UnitSystemToString(us: UnitSystem): (r: Option<string>)
    ensures r.Some? <==> us in {SI, USCustomary, Imperial}
  {
    match us
    case SI => Some("SI")
    case USCustomary => Some("USCustomary")
    case Imperial => Some("Imperial")
    case _ => None
  }

  /**
   * tempScaleToString: the name of Celsius and Fahrenheit; the default
   * branch (Kelvin) gives the null string, None here.
   */
  function TempScaleToString(ts: TempScale): (r: Option<string>)
    ensures r.Some? <==> ts != Kelvin
  {
    match ts
    case Celsius => Some("Celsius")
    case Fahrenheit => Some("Fahrenheit")
    case _ => None
  }

  /** The names unitSystemToString gives, and the two systems it gives none for. */
  lemma UnitSystemNames()
    ensures UnitSystemToString(SI) == Some("SI")
    ensures UnitSystemToString(USCustomary) == Some("USCustomary")
    ensures UnitSystemToString(Imperial) == Some("Imperial")
    ensures UnitSystemToString(ImperialAndUS) == None
    ensures UnitSystemToString(Any) == None
  {
  }

  /** The names tempScaleToString gives, and the scale it gives none for. */
  lemma TempScaleNames()
    ensures TempScaleToString(Celsius) == Some("Celsius")
    ensures TempScaleToString(Fahrenheit) == Some("Fahrenheit")
    ensures TempScaleToString(Kelvin) == None
  {
  }

  /** Different systems never get the same name. */
  lemma UnitSystemToStringInjective(a: UnitSystem, b: UnitSystem)
    requires UnitSystemToString(a).Some?
    requires UnitSystemToString(a) == UnitSystemToString(b)
    ensures a == b
  {
  }

  /** Different scales never get the same name. */
  lemma TempScaleToStringInjective(a: TempScale, b: TempScale)
    requires TempScaleToString(a).Some?
    requires TempScaleToString(a) == TempScaleToString(b)
    ensures a == b
  {
  }

  // ---------------------------------------------------------------- units

  /** The concrete subclasses of Unit, in the order the header defines them. */
  datatype UnitId =
    | KilogramUnit | GramUnit | MilligramUnit | PoundUnit | OunceUnit
    | LiterUnit | MilliliterUnit
    | USGallonUnit | USQuartUnit | USCupUnit
    | ImperialGallonUnit | ImperialQuartUnit | ImperialCupUnit
    | ImperialTablespoonUnit | ImperialTeaspoonUnit
    | USTablespoonUnit | USTeaspoonUnit
    | SecondUnit | MinuteUnit | HourUnit
    | CelsiusUnit | KelvinUnit | FahrenheitUnit

  /** The dynamic class of a Unit object: the base class itself, or a concrete one. */
  datatype Unit = BaseUnit | Concrete(id: UnitId)

  /** What a unit's "system" accessor stands for: a measurement system, or (for temperatures) a scale. */
  datatype Affiliation = System(system: UnitSystem) | Scale(scale: TempScale)

  /** The UnitType enumerator a concrete class's getUnitType returns. */
  function QuantityOf(id: UnitId): (t: UnitType)
    ensures t == Time <==> id in {SecondUnit, MinuteUnit, HourUnit}
    ensures t == Temp <==> id in {CelsiusUnit, FahrenheitUnit, KelvinUnit}
  {
    match id
    case KilogramUnit => Mass
    case GramUnit => Mass
    case MilligramUnit => Mass
    case PoundUnit => Mass
    case OunceUnit => Mass
    case LiterUnit => Volume
    case MilliliterUnit => Volume
    case USGallonUnit => Volume
    case USQuartUnit => Volume
    case USCupUnit => Volume
    case ImperialGallonUnit => Volume
    case ImperialQuartUnit => Volume
    case ImperialCupUnit => Volume
    case ImperialTablespoonUnit => Volume
    case ImperialTeaspoonUnit => Volume
    case USTablespoonUnit => Volume
    case USTeaspoonUnit => Volume
    case SecondUnit => Time
    case MinuteUnit => Time
    case HourUnit => Time
    case CelsiusUnit => Temp
    case KelvinUnit => Temp
    case FahrenheitUnit => Temp
  }

  /**
   * The enumerator a concrete class's getUnitOrTempSystem returns: an
   * iUnitSystem for mass, volume and time, a TempScale for temperature.
   */
  function AffiliationOf(id: UnitId): (a: Affiliation)
    ensures a.Scale? <==> QuantityOf(id) == Temp
  {
    match id
    case KilogramUnit => System(SI)
    case GramUnit => System(SI)
    case MilligramUnit => System(SI)
    case PoundUnit => System(ImperialAndUS)
    case OunceUnit => System(ImperialAndUS)
    case LiterUnit => System(SI)
    case MilliliterUnit => System(SI)
    case USGallonUnit => System(USCustomary)
    case USQuartUnit => System(USCustomary)
    case USCupUnit => System(USCustomary)
    case ImperialGallonUnit => System(Imperial)
    case ImperialQuartUnit => System(Imperial)
    case ImperialCupUnit => System(Imperial)
    case ImperialTablespoonUnit => System(Imperial)
    case ImperialTeaspoonUnit => System(Imperial)
    case USTablespoonUnit => System(USCustomary)
    case USTeaspoonUnit => System(USCustomary)
    case SecondUnit => System(Any)
    case MinuteUnit => System(Any)
    case HourUnit => System(Any)
    case CelsiusUnit => Scale(Celsius)
    case KelvinUnit => Scale(Kelvin)
    case FahrenheitUnit => Scale(Fahrenheit)
  }

  /** The integer value of an affiliation, as the accessor's `int` result carries it. */
  function AffiliationCode(a: Affiliation): (c: int)
    ensures 0 <= c < 5
  {
    match a
    case System(s) => UnitSystemCode(s)
    case Scale(ts) => TempScaleCode(ts)
  }

  /** Unit::getUnitType, dispatched on the object's class: the base class returns 0. */
  function GetUnitType(u: Unit): (c: int)
    ensures UnitTypeFromCode(c) == Some(if u.BaseUnit? then Mass else QuantityOf(u.id))
  {
    match u
    case BaseUnit => 0
    case Concrete(id) => UnitTypeCode(QuantityOf(id))
  }

  /** Unit::getUnitOrTempSystem, dispatched on the object's class: the base class returns 0. */
  function GetUnitOrTempSystem(u: Unit): (c: int)
    ensures u.BaseUnit? ==> UnitSystemFromCode(c) == Some(SI)
    ensures u.Concrete? && QuantityOf(u.id) != Temp ==>
      UnitSystemFromCode(c) == Some(AffiliationOf(u.id).system)
    ensures u.Concrete? && QuantityOf(u.id) == Temp ==>
      TempScaleFromCode(c) == Some(AffiliationOf(u.id).scale)
  {
    match u
    case BaseUnit => 0
    case Concrete(id) => AffiliationCode(AffiliationOf(id))
  }

  /** The base class's fromSI: the amount unchanged. */
  function BaseFromSI(amt: real): (r: real)
    ensures r == amt
  {
    amt
  }

  /** The base class's toSI: the amount unchanged, so fromSI takes it back. */
  function BaseToSI(amt: real): (r: real)
    ensures r == amt && BaseFromSI(r) == amt
  {
    amt
  }

  /** The base class's two conversions undo each other, in both orders. */
  lemma BaseConversionRoundTrip(amt: real)
    ensures BaseFromSI(BaseToSI(amt)) == amt
    ensures BaseToSI(BaseFromSI(amt)) == amt
  {
  }

  /**
   * The base class reports type 0 and system 0, which are the values of
   * Mass and SI: by these accessors alone it looks like an SI mass unit.
   */
  lemma BaseUnitLooksLikeSIMass()
    ensures GetUnitType(BaseUnit) == UnitTypeCode(Mass)
    ensures GetUnitOrTempSystem(BaseUnit) == UnitSystemCode(SI)
    ensures GetUnitType(BaseUnit) == GetUnitType(Concrete(KilogramUnit))
    ensures GetUnitOrTempSystem(BaseUnit) == GetUnitOrTempSystem(Concrete(KilogramUnit))
  {
  }

  /** Mass units: kilogram, gram and milligram are SI; pound and ounce are Imperial-and-US. */
  lemma MassUnits(id: UnitId)
    ensures QuantityOf(id) == Mass <==> id in {KilogramUnit, GramUnit, MilligramUnit, PoundUnit, OunceUnit}
    ensures id in {KilogramUnit, GramUnit, MilligramUnit} ==> AffiliationOf(id) == System(SI)
    ensures id in {PoundUnit, OunceUnit} ==> AffiliationOf(id) == System(ImperialAndUS)
  {
  }

  /** Volume units: liter and milliliter are SI, the US ones US customary, the Imperial ones Imperial. */
  lemma VolumeUnits(id: UnitId)
    ensures QuantityOf(id) == Volume <==>
      id in {LiterUnit, MilliliterUnit, USGallonUnit, USQuartUnit, USCupUnit,
             USTablespoonUnit, USTeaspoonUnit, ImperialGallonUnit, ImperialQuartUnit,
             ImperialCupUnit, ImperialTablespoonUnit, ImperialTeaspoonUnit}
    ensures id in {LiterUnit, MilliliterUnit} ==> AffiliationOf(id) == System(SI)
    ensures id in {USGallonUnit, USQuartUnit, USCupUnit, USTablespoonUnit, USTeaspoonUnit} ==>
      AffiliationOf(id) == System(USCustomary)
    ensures id in {ImperialGallonUnit, ImperialQuartUnit, ImperialCupUnit,
                   ImperialTablespoonUnit, ImperialTeaspoonUnit} ==>
      AffiliationOf(id) == System(Imperial)
  {
  }

  /** Second, minute and hour are the time units, and the only units whose system is Any. */
  lemma TimeUnitsAreTheAnySystem(id: UnitId)
    ensures QuantityOf(id) == Time <==> id in {SecondUnit, MinuteUnit, HourUnit}
    ensures GetUnitOrTempSystem(Concrete(id)) == UnitSystemCode(Any) <==> QuantityOf(id) == Time
  {
  }

  /** Pound and ounce are the only units whose system is Imperial-and-US. */
  lemma OnlyPoundAndOunceAreImperialAndUS(id: UnitId)
    ensures GetUnitOrTempSystem(Concrete(id)) == UnitSystemCode(ImperialAndUS) <==>
      id in {PoundUnit, OunceUnit}
  {
  }

  /** Celsius, Fahrenheit and Kelvin are the temperature units; their "system" is their scale. */
  lemma TemperatureUnits(id: UnitId)
    ensures QuantityOf(id) == Temp <==> id in {CelsiusUnit, FahrenheitUnit, KelvinUnit}
    ensures id == CelsiusUnit ==> AffiliationOf(id) == Scale(Celsius)
    ensures id == FahrenheitUnit ==> AffiliationOf(id) == Scale(Fahrenheit)
    ensures id == KelvinUnit ==> AffiliationOf(id) == Scale(Kelvin)
  {
  }

  /**
   * As integers, the temperature scales collide with the first three
   * systems: Celsius is SI, Fahrenheit is USCustomary, Kelvin is Imperial.
   */
  lemma ScaleCodesCollideWithSystemCodes()
    ensures TempScaleCode(Celsius) == UnitSystemCode(SI)
    ensures TempScaleCode(Fahrenheit) == UnitSystemCode(USCustomary)
    ensures TempScaleCode(Kelvin) == UnitSystemCode(Imperial)
    ensures GetUnitOrTempSystem(Concrete(CelsiusUnit)) == GetUnitOrTempSystem(Concrete(KilogramUnit))
    ensures AffiliationOf(CelsiusUnit) != AffiliationOf(KilogramUnit)
  {
  }

  /** The system value alone does not tell two units' affiliations apart. */
  lemma SystemCodeAloneIsAmbiguous()
    ensures exists a: UnitId, b: UnitId ::
      GetUnitOrTempSystem(Concrete(a)) == GetUnitOrTempSystem(Concrete(b)) &&
      AffiliationOf(a) != AffiliationOf(b)
  {
    ScaleCodesCollideWithSystemCodes();
  }

  /**
   * How a caller reads the pair (getUnitType, getUnitOrTempSystem): the
   * second value is a TempScale when the first is Temp, an iUnitSystem
   * otherwise.
   */
  function ReadAffiliation(typeCode: int, systemCode: int): (r: Option<Affiliation>)
    ensures r.Some? <==>
      0 <= typeCode < 4 && 0 <= systemCode < (if typeCode == UnitTypeCode(Temp) then 3 else 5)
    ensures r.Some? ==> AffiliationCode(r.value) == systemCode
    ensures r.Some? ==> (r.value.Scale? <==> typeCode == UnitTypeCode(Temp))
  {
    match UnitTypeFromCode(typeCode)
    case None => None
    case Some(t) =>
      if t == Temp then
        match TempScaleFromCode(systemCode)
        case None => None
        case Some(ts) => Some(Scale(ts))
      else
        match UnitSystemFromCode(systemCode)
        case None => None
        case Some(s) => Some(System(s))
  }

  /** Together with the type, the system value does identify every concrete unit's affiliation. */
  lemma PairIdentifiesAffiliation(id: UnitId)
    ensures ReadAffiliation(GetUnitType(Concrete(id)), GetUnitOrTempSystem(Concrete(id)))
      == Some(AffiliationOf(id))
  {
  }

  /** Two concrete units that report the same pair have the same affiliation. */
  lemma SamePairSameAffiliation(a: UnitId, b: UnitId)
    requires GetUnitType(Concrete(a)) == GetUnitType(Concrete(b))
    requires GetUnitOrTempSystem(Concrete(a)) == GetUnitOrTempSystem(Concrete(b))
    ensures QuantityOf(a) == QuantityOf(b)
    ensures AffiliationOf(a) == AffiliationOf(b)
  {
  }

  // ---------------------------------------------------------------- roster

  /** The instances the class Units holds, in the order it declares them. */
  const Roster: seq<UnitId> := [
    KilogramUnit, GramUnit, MilligramUnit, PoundUnit, OunceUnit,
    LiterUnit, MilliliterUnit, USGallonUnit, USQuartUnit, USCupUnit,
    ImperialGallonUnit, ImperialQuartUnit, ImperialCupUnit,
    USTablespoonUnit, USTeaspoonUnit, ImperialTablespoonUnit, ImperialTeaspoonUnit,
    SecondUnit, MinuteUnit, HourUnit,
    CelsiusUnit, FahrenheitUnit, KelvinUnit]

  /** Where a unit's instance sits in the roster. */
  function RosterSlot(id: UnitId): (i: nat)
    ensures i < |Roster| && Roster[i] == id
  {
    match id
    case KilogramUnit => 0
    case GramUnit => 1
    case MilligramUnit => 2
    case PoundUnit => 3
    case OunceUnit => 4
    case LiterUnit => 5
    case MilliliterUnit => 6
    case USGallonUnit => 7
    case USQuartUnit => 8
    case USCupUnit => 9
    case ImperialGallonUnit => 10
    case ImperialQuartUnit => 11
    case ImperialCupUnit => 12
    case USTablespoonUnit => 13
    case USTeaspoonUnit => 14
    case ImperialTablespoonUnit => 15
    case ImperialTeaspoonUnit => 16
    case SecondUnit => 17
    case MinuteUnit => 18
    case HourUnit => 19
    case CelsiusUnit => 20
    case FahrenheitUnit => 21
    case KelvinUnit => 22
  }

  /** The roster holds exactly one instance of each of the 23 concrete unit classes. */
  lemma RosterHoldsEachUnitOnce()
    ensures |Roster| == 23
    ensures forall id: UnitId :: id in Roster
    ensures forall i, j :: 0 <= i < j < |Roster| ==> Roster[i] != Roster[j]
  {
    forall id: UnitId
      ensures id in Roster
    {
      var _ := RosterSlot(id);
    }
    forall i, j | 0 <= i < j < |Roster|
      ensures Roster[i] != Roster[j]
    {
      RosterSlotOfEntry(i);
      RosterSlotOfEntry(j);
    }
  }

  /** Looking up the slot of the unit in slot i gives i back. */
  lemma RosterSlotOfEntry(i: nat)
    requires i < |Roster|
    ensures RosterSlot(Roster[i]) == i
  {
  }

  /** The roster lists mass units first, then volume, time and temperature. */
  lemma RosterGroupedByQuantity(i: nat, j: nat)
    requires i <= j < |Roster|
    ensures UnitTypeCode(QuantityOf(Roster[i])) <= UnitTypeCode(QuantityOf(Roster[j]))
  {
  }
}
