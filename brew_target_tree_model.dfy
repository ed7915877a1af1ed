/**
 * The type mask of a Brewtarget tree model (src/BrewTargetTreeModel.h):
 * one flag bit per kind of item a tree can show, the mask that shows
 * them all, and the tree object that stores its mask.
 */
module TreeModel {
  import opened Bits

  /** The seven kinds of item a tree can show, in the order of their flags. */
  datatype Kind = Recipe | Equipment | Fermentable | Hop | Misc | Yeast | BrewNote

  const AllKinds: seq<Kind> := [Recipe, Equipment, Fermentable, Hop, Misc, Yeast, BrewNote]

  /** ALLMASK: every kind flag at once. */
  const AllMask: nat := 127

  /**
   * A value of the enum TypeMasks. The enum's largest enumerator is 127,
   * so the values it can hold are 0 through 127.
   */
  type TypeMask = m: nat | m <= AllMask

  /** The bit position of a kind's flag. */
  function Position(k: Kind): (p: nat)
    ensures p < |AllKinds| && AllKinds[p] == k
  {
    match k
    case Recipe => 0
    case Equipment => 1
    case Fermentable => 2
    case Hop => 3
    case Misc => 4
    case Yeast => 5
    case BrewNote => 6
  }

  /** The enumerators RECIPEMASK .. BREWNOTEMASK: each one a single bit. */
  function Mask(k: Kind): (m: TypeMask)
    ensures m == Pow2(Position(k))
  {
    match k
    case Recipe => 1
    case Equipment => 2
    case Fermentable => 4
    case Hop => 8
    case Misc => 16
    case Yeast => 32
    case BrewNote => assert Pow2(6) == 64; 64
  }

  /**
   * A tree with mask `mask` shows items of kind k: `mask & Mask(k)` is not 0.
   * That is, exactly when the kind's bit is set in the mask.
   */
  predicate Shows(mask: nat, k: Kind)
    ensures Shows(mask, k) <==> Bit(mask, Position(k))
  {
    AndPow2(mask, Position(k));
    And(mask, Mask(k)) != 0
  }

  /** The kinds a mask shows. */
  function ShownKinds(mask: nat): (s: set<Kind>)
    ensures forall k :: k in s <==> Shows(mask, k)
  {
    set k | k in AllKinds && Shows(mask, k)
  }

  /** The OR of the flags of a list of kinds. */
  function OrAll(ks: seq<Kind>): (m: nat)
  {
    if ks == [] then 0 else Or(Mask(ks[0]), OrAll(ks[1..]))
  }

  /** The sum of the flags of a list of kinds. */
  function SumAll(ks: seq<Kind>): (m: nat)
  {
    if ks == [] then 0 else Mask(ks[0]) + SumAll(ks[1..])
  }

  /** The kinds of ks that are in s, in the order of ks. */
  function Selected(s: set<Kind>, ks: seq<Kind>): (r: seq<Kind>)
    ensures forall k :: k in r <==> k in ks && k in s
  {
    if ks == [] then []
    else if ks[0] in s then [ks[0]] + Selected(s, ks[1..])
    else Selected(s, ks[1..])
  }

  /** The mask a caller builds by OR-ing the flags of the kinds in s. */
  function MaskOf(s: set<Kind>): (m: nat)
  {
    OrAll(Selected(s, AllKinds))
  }

  /** Kinds with different positions are different, and vice versa. */
  lemma PositionInjective(k1: Kind, k2: Kind)
    ensures Position(k1) == Position(k2) <==> k1 == k2
  {
  }

  /** Each flag is a single bit, so two flags share a bit only when they are the same flag. */
  lemma MasksDisjoint(k1: Kind, k2: Kind)
    ensures And(Mask(k1), Mask(k2)) == if k1 == k2 then Mask(k1) else 0
  {
    AndPow2(Mask(k1), Position(k2));
    Pow2Bit(Position(k1), Position(k2));
    PositionInjective(k1, k2);
  }

  /** Flag k is shown under exactly one single-kind mask: its own. */
  lemma SingleKindMask(k: Kind, other: Kind)
    ensures Shows(Mask(k), other) <==> other == k
  {
    MasksDisjoint(other, k);
    AndCommutes(Mask(k), Mask(other));
  }

  /** Bit i of the OR of a list of flags is set exactly when the kind at position i is listed. */
  lemma {:induction false} OrAllBit(ks: seq<Kind>, i: nat)
    ensures Bit(OrAll(ks), i) <==> i < |AllKinds| && AllKinds[i] in ks
  {
    if ks == [] {
      ZeroHasNoBits(i);
    } else {
      OrBit(Mask(ks[0]), OrAll(ks[1..]), i);
      Pow2Bit(Position(ks[0]), i);
      OrAllBit(ks[1..], i);
      assert ks == [ks[0]] + ks[1..];
    }
  }

  /** ALLMASK is the sum of the seven kind flags. */
  lemma AllMaskIsSumOfFlags()
    ensures SumAll(AllKinds) == AllMask
  {
  }

  /** The OR of the flags of distinct kinds is their sum, since no two flags share a bit. */
  lemma {:induction false} OrAllIsSumAll(ks: seq<Kind>)
    requires forall i, j :: 0 <= i < j < |ks| ==> ks[i] != ks[j]
    ensures OrAll(ks) == SumAll(ks)
  {
    if ks != [] {
      var rest := ks[1..];
      forall i: nat
        ensures Bit(And(Mask(ks[0]), OrAll(rest)), i) == Bit(0, i)
      {
        AndBit(Mask(ks[0]), OrAll(rest), i);
        Pow2Bit(Position(ks[0]), i);
        OrAllBit(rest, i);
        ZeroHasNoBits(i);
      }
      SameBitsSameNumber(And(Mask(ks[0]), OrAll(rest)), 0);
      OrDisjointIsSum(Mask(ks[0]), OrAll(rest));
      OrAllIsSumAll(rest);
    }
  }

  /** ALLMASK is the OR of the seven kind flags. */
  lemma AllMaskIsOrOfFlags()
    ensures OrAll(AllKinds) == AllMask
  {
    OrAllIsSumAll(AllKinds);
    AllMaskIsSumOfFlags();
  }

  /** ALLMASK shows every kind. */
  lemma AllMaskShowsEverything(k: Kind)
    ensures Shows(AllMask, k)
  {
  }

  /** The mask 0 shows nothing. */
  lemma EmptyMaskShowsNothing(k: Kind)
    ensures !Shows(0, k)
  {
  }

  /** Building a mask from a set of kinds and reading it back gives the same set. */
  lemma ShownKindsOfMaskOf(s: set<Kind>)
    ensures MaskOf(s) <= AllMask
    ensures ShownKinds(MaskOf(s)) == s
  {
    forall k
      ensures Shows(MaskOf(s), k) <==> k in s
    {
      OrAllBit(Selected(s, AllKinds), Position(k));
    }
    forall i: nat | 7 <= i
      ensures !Bit(MaskOf(s), i)
    {
      OrAllBit(Selected(s, AllKinds), i);
    }
    NoHighBitsBelow(MaskOf(s), 7);
  }

  /** Every TypeMasks value is the OR of the flags of the kinds it shows. */
  lemma MaskOfShownKinds(m: TypeMask)
    ensures MaskOf(ShownKinds(m)) == m
  {
    var shown := ShownKinds(m);
    forall i: nat
      ensures Bit(MaskOf(shown), i) == Bit(m, i)
    {
      OrAllBit(Selected(shown, AllKinds), i);
      if |AllKinds| <= i {
        HighBitsClear(m, 7, i);
      }
    }
    SameBitsSameNumber(MaskOf(shown), m);
  }

  /**
   * A tree model. Its mask is given to the constructor (ALLMASK when the
   * caller gives none). The model takes the mask to be set once there and
   * never assigned again, so it is a constant field.
   */
  class BrewTargetTreeModel {
    const treeMask: TypeMask

    constructor (mask: TypeMask := AllMask)
      ensures treeMask == mask
    {
      treeMask := mask;
    }

    /** getMask(): the tree's mask, which is the OR of the flags of the kinds the tree shows. */
    function GetMask(): (m: int)
      ensures m == treeMask
      ensures m >= 0 && MaskOf(ShownKinds(m)) == m
    {
      MaskOfShownKinds(treeMask);
      treeMask
    }
  }

  /** A tree built with the default arguments shows every kind. */
  method NewDefaultTree() returns (t: BrewTargetTreeModel)
    ensures t.GetMask() == AllMask
    ensures forall k :: Shows(t.GetMask(), k)
  {
    t := new BrewTargetTreeModel();
    forall k
      ensures Shows(t.GetMask(), k)
    {
      AllMaskShowsEverything(k);
    }
  }
}
