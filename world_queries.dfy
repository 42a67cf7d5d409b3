/**
 The four world queries an entity-awareness component caches, and the 32-bit mask in
 which bit `1 << q` records that query `q` already holds a result for the current frame.
 */
module WorldQueries {

  /** The cached queries, declared in the order that gives each its bit. */
  datatype WorldQuery = Raycast | Proximity | CloseBy | InFrontOf

  const AllQueries: set<WorldQuery> := {Raycast, Proximity, CloseBy, InFrontOf}

  /** The bits a query can ever occupy: the low four. */
  const QueryBits: bv32 := 0xF

  /** The enumerator's value (`eWQ_Raycast = 0` and the next three in order). */
  function Index(q: WorldQuery): (i: nat)
    ensures i < 4
  {
    match q
    case Raycast => 0
    case Proximity => 1
    case CloseBy => 2
    case InFrontOf => 3
  }

  /** The enumerator's value as a 32-bit operand, as it enters an integer expression such as `eWQ_Proximity | eWQ_InFrontOf`. */
  function Enumerator(q: WorldQuery): (e: bv32)
    ensures e == Index(q) as bv32
  {
    match q
    case Raycast => 0
    case Proximity => 1
    case CloseBy => 2
    case InFrontOf => 3
  }

  /** `1u << query`: the single bit that marks query `q` valid. */
  function Mask(q: WorldQuery): bv32 {
    match q
    case Raycast => 1
    case Proximity => 2
    case CloseBy => 4
    case InFrontOf => 8
  }

  /** The mask is the enumerator's value used as a shift of 1. */
  lemma {:induction false} MaskIsShift(q: WorldQuery)
    ensures Mask(q) == (1 as bv32) << Index(q)
  {
    match q
    case Raycast =>
    case Proximity =>
    case CloseBy =>
    case InFrontOf =>
  }

  /** One query's mask selects that query and no other. */
  lemma {:induction false} MaskSelects(q: WorldQuery, p: WorldQuery)
    ensures IsValid(Mask(q), p) <==> p == q
  {
  }

  /** Bit `q` of the mask is set: `m_validQueries & queryMask`. */
  predicate IsValid(mask: bv32, q: WorldQuery) {
    mask & Mask(q) != 0
  }

  /** No bit outside the four query bits is set. */
  predicate OnlyQueryBits(mask: bv32) {
    mask & !QueryBits == 0
  }

  /** The queries whose bits are set. */
  function ValidSet(mask: bv32): set<WorldQuery> {
    set q | q in AllQueries && IsValid(mask, q)
  }

  lemma InValidSet(mask: bv32, p: WorldQuery)
    ensures p in ValidSet(mask) <==> IsValid(mask, p)
  {
    assert p in AllQueries;
  }

  /** The queries of a set, as a mask. */
  function MaskOf(qs: set<WorldQuery>): bv32 {
    (if Raycast in qs then Mask(Raycast) else 0) |
    (if Proximity in qs then Mask(Proximity) else 0) |
    (if CloseBy in qs then Mask(CloseBy) else 0) |
    (if InFrontOf in qs then Mask(InFrontOf) else 0)
  }

  /** A one-hot query bit. */
  predicate IsQueryBit(b: bv32) {
    b == 1 || b == 2 || b == 4 || b == 8
  }

  lemma {:induction false} MaskIsQueryBit(q: WorldQuery)
    ensures IsQueryBit(Mask(q))
  {
  }

  // Or-ing in one query's bit, with that query fixed: a case split on the other query decides it.
  // Each helper keeps `q` as a parameter pinned by its requires, so that its ensures mention
  // `Mask(q)` exactly as SetBit's does; stated over `Mask(Raycast)` and the like, SetBit's proof
  // stalls the solver.

  lemma {:induction false} SetRaycast(mask: bv32, q: WorldQuery, p: WorldQuery)
    requires q == Raycast
    ensures IsValid(mask | Mask(q), p) <==> IsValid(mask, p) || p == q
  {
    match p {
      case Raycast =>
      case Proximity =>
      case CloseBy =>
      case InFrontOf =>
    }
  }

  lemma {:induction false} SetProximity(mask: bv32, q: WorldQuery, p: WorldQuery)
    requires q == Proximity
    ensures IsValid(mask | Mask(q), p) <==> IsValid(mask, p) || p == q
  {
    match p {
      case Raycast =>
      case Proximity =>
      case CloseBy =>
      case InFrontOf =>
    }
  }

  lemma {:induction false} SetCloseBy(mask: bv32, q: WorldQuery, p: WorldQuery)
    requires q == CloseBy
    ensures IsValid(mask | Mask(q), p) <==> IsValid(mask, p) || p == q
  {
    match p {
      case Raycast =>
      case Proximity =>
      case CloseBy =>
      case InFrontOf =>
    }
  }

  lemma {:induction false} SetInFrontOf(mask: bv32, q: WorldQuery, p: WorldQuery)
    requires q == InFrontOf
    ensures IsValid(mask | Mask(q), p) <==> IsValid(mask, p) || p == q
  {
    match p {
      case Raycast =>
      case Proximity =>
      case CloseBy =>
      case InFrontOf =>
    }
  }

  /** Or-ing in a query's bit sets that query's bit and leaves every other bit as it was. */
  lemma {:induction false} SetBit(mask: bv32, q: WorldQuery, p: WorldQuery)
    ensures IsValid(mask | Mask(q), p) <==> IsValid(mask, p) || p == q
  {
    match q
    case Raycast => SetRaycast(mask, q, p);
    case Proximity => SetProximity(mask, q, p);
    case CloseBy => SetCloseBy(mask, q, p);
    case InFrontOf => SetInFrontOf(mask, q, p);
  }

  lemma OrKeepsQueryBits(m: bv32, c: bv32)
    requires c & !QueryBits == 0
    ensures m & !QueryBits == 0 ==> (m | c) & !QueryBits == 0
  {
  }

  /** Or-ing a query's bit into the empty mask gives that bit alone. */
  lemma {:induction false} ZeroOrMask(q: WorldQuery)
    ensures 0 | Mask(q) == Mask(q)
  {
    match q {
      case Raycast =>
      case Proximity =>
      case CloseBy =>
      case InFrontOf =>
    }
  }

  /** Or-ing in a query's bit sets no bit outside the four query bits. */
  lemma {:induction false} SetKeepsQueryBits(mask: bv32, q: WorldQuery)
    ensures OnlyQueryBits(mask) ==> OnlyQueryBits(mask | Mask(q))
  {
    match q
    case Raycast => OrKeepsQueryBits(mask, 1);
    case Proximity => OrKeepsQueryBits(mask, 2);
    case CloseBy => OrKeepsQueryBits(mask, 4);
    case InFrontOf => OrKeepsQueryBits(mask, 8);
  }

  lemma OrPresentBit(m: bv32, c: bv32)
    requires IsQueryBit(c) && m & c != 0
    ensures m | c == m
  {
  }

  lemma {:induction false} OrValidBitAt(mask: bv32, q: WorldQuery)
    requires IsValid(mask, q)
    ensures mask | Mask(q) == mask
  {
    MaskIsQueryBit(q);
    OrPresentBit(mask, Mask(q));
  }

  /** SetBit for every query at once. */
  lemma {:induction false} SetBitEverywhere(mask: bv32, q: WorldQuery)
    ensures forall p :: IsValid(mask | Mask(q), p) <==> IsValid(mask, p) || p == q
    ensures OnlyQueryBits(mask) ==> OnlyQueryBits(mask | Mask(q))
  {
    forall p ensures IsValid(mask | Mask(q), p) <==> IsValid(mask, p) || p == q {
      SetBit(mask, q, p);
    }
    SetKeepsQueryBits(mask, q);
  }

  /** ClearRadiusBits for every query at once. */
  lemma {:induction false} ClearRadiusBitsEverywhere(mask: bv32)
    ensures forall p :: IsValid(mask & !(Mask(Proximity) | Mask(InFrontOf)), p) <==>
                        IsValid(mask, p) && p != Proximity && p != InFrontOf
  {
    forall p ensures IsValid(mask & !(Mask(Proximity) | Mask(InFrontOf)), p) <==>
                     IsValid(mask, p) && p != Proximity && p != InFrontOf {
      ClearRadiusBits(mask, p);
    }
  }

  /** And-ing with the complement of the Proximity and InFrontOf bits clears those two and keeps the rest. */
  lemma {:induction false} ClearRadiusBits(mask: bv32, p: WorldQuery)
    ensures IsValid(mask & !(Mask(Proximity) | Mask(InFrontOf)), p) <==> IsValid(mask, p) && p != Proximity && p != InFrontOf
  {
    match p
    case Raycast => KeepsRaycast(mask);
    case Proximity => ClearsProximity(mask);
    case CloseBy => KeepsCloseBy(mask);
    case InFrontOf => ClearsInFrontOf(mask);
  }

  /** Clearing the Proximity and InFrontOf bits never sets a bit outside the query bits. */
  lemma ClearKeepsQueryBits(mask: bv32)
    ensures OnlyQueryBits(mask) ==> OnlyQueryBits(mask & !(Mask(Proximity) | Mask(InFrontOf)))
  {
  }

  lemma KeepsRaycast(mask: bv32)
    ensures IsValid(mask & !(Mask(Proximity) | Mask(InFrontOf)), Raycast) <==> IsValid(mask, Raycast)
  {
  }

  lemma ClearsProximity(mask: bv32)
    ensures !IsValid(mask & !(Mask(Proximity) | Mask(InFrontOf)), Proximity)
  {
  }

  lemma KeepsCloseBy(mask: bv32)
    ensures IsValid(mask & !(Mask(Proximity) | Mask(InFrontOf)), CloseBy) <==> IsValid(mask, CloseBy)
  {
  }

  lemma ClearsInFrontOf(mask: bv32)
    ensures !IsValid(mask & !(Mask(Proximity) | Mask(InFrontOf)), InFrontOf)
  {
  }

  /**
   The operand `eWQ_Proximity | eWQ_InFrontOf` or-s the enumerator values 1 and 3, not the two
   queries' masks: it comes out as the mask of Raycast and Proximity.
   */
  lemma EnumValuesOperand()
    ensures Enumerator(Proximity) | Enumerator(InFrontOf) == Mask(Raycast) | Mask(Proximity)
  {
  }

  /**
   And-ing with the complement of the or-ed enumerator values clears the Raycast and Proximity
   bits and keeps CloseBy and InFrontOf.
   */
  lemma {:induction false} ClearEnumValueBits(mask: bv32, p: WorldQuery)
    ensures IsValid(mask & !(Enumerator(Proximity) | Enumerator(InFrontOf)), p) <==> IsValid(mask, p) && p != Raycast && p != Proximity
  {
    if p == Raycast || p == Proximity {
      ClearsLowAsWritten(mask, p);
    } else {
      KeepsHighAsWritten(mask, p);
    }
  }

  lemma ClearsLowAsWritten(mask: bv32, p: WorldQuery)
    requires p == Raycast || p == Proximity
    ensures !IsValid(mask & !(Enumerator(Proximity) | Enumerator(InFrontOf)), p)
  {
    if p == Raycast {
      ClearsRaycastAsWritten(mask, p);
    } else {
      ClearsProximityAsWritten(mask, p);
    }
  }

  lemma KeepsHighAsWritten(mask: bv32, p: WorldQuery)
    requires p == CloseBy || p == InFrontOf
    ensures IsValid(mask & !(Enumerator(Proximity) | Enumerator(InFrontOf)), p) <==> IsValid(mask, p)
  {
    if p == CloseBy {
      KeepsCloseByAsWritten(mask, p);
    } else {
      KeepsInFrontOfAsWritten(mask, p);
    }
  }

  /** ClearEnumValueBits for every query at once. */
  lemma {:induction false} ClearEnumValueBitsEverywhere(mask: bv32)
    ensures forall p :: IsValid(mask & !(Enumerator(Proximity) | Enumerator(InFrontOf)), p) <==>
                        IsValid(mask, p) && p != Raycast && p != Proximity
  {
    forall p ensures IsValid(mask & !(Enumerator(Proximity) | Enumerator(InFrontOf)), p) <==>
                     IsValid(mask, p) && p != Raycast && p != Proximity {
      ClearEnumValueBits(mask, p);
    }
  }

  /** Clearing the or-ed enumerator values never sets a bit outside the query bits. */
  lemma ClearEnumValuesKeepsQueryBits(mask: bv32)
    ensures OnlyQueryBits(mask) ==> OnlyQueryBits(mask & !(Enumerator(Proximity) | Enumerator(InFrontOf)))
  {
    EnumValuesOperand();
  }

  lemma ClearsRaycastAsWritten(mask: bv32, p: WorldQuery)
    requires p == Raycast
    ensures !IsValid(mask & !(Enumerator(Proximity) | Enumerator(InFrontOf)), p)
  {
    EnumValuesOperand();
  }

  lemma ClearsProximityAsWritten(mask: bv32, p: WorldQuery)
    requires p == Proximity
    ensures !IsValid(mask & !(Enumerator(Proximity) | Enumerator(InFrontOf)), p)
  {
    EnumValuesOperand();
  }

  lemma KeepsCloseByAsWritten(mask: bv32, p: WorldQuery)
    requires p == CloseBy
    ensures IsValid(mask & !(Enumerator(Proximity) | Enumerator(InFrontOf)), p) <==> IsValid(mask, p)
  {
    EnumValuesOperand();
  }

  lemma KeepsInFrontOfAsWritten(mask: bv32, p: WorldQuery)
    requires p == InFrontOf
    ensures IsValid(mask & !(Enumerator(Proximity) | Enumerator(InFrontOf)), p) <==> IsValid(mask, p)
  {
    EnumValuesOperand();
  }

  /** A mask that uses only the query bits is exactly the mask of its valid set. */
  lemma {:induction false} MaskOfValidSet(mask: bv32)
    requires OnlyQueryBits(mask)
    ensures MaskOf(ValidSet(mask)) == mask
  {
    var s := ValidSet(mask);
    assert Raycast in s <==> mask & 1 != 0;
    assert Proximity in s <==> mask & 2 != 0;
    assert CloseBy in s <==> mask & 4 != 0;
    assert InFrontOf in s <==> mask & 8 != 0;
  }

  /** Two masks over the query bits agree exactly when they mark the same queries valid. */
  lemma {:induction false} MaskDeterminedByValidSet(m1: bv32, m2: bv32)
    requires OnlyQueryBits(m1) && OnlyQueryBits(m2)
    ensures m1 == m2 <==> ValidSet(m1) == ValidSet(m2)
  {
    if ValidSet(m1) == ValidSet(m2) {
      MaskOfValidSet(m1);
      MaskOfValidSet(m2);
    }
  }

  /** The valid set of a single query's bit is that query alone. */
  lemma {:induction false} ValidSetOfMask(q: WorldQuery)
    ensures ValidSet(Mask(q)) == {q}
  {
    forall p ensures p in ValidSet(Mask(q)) <==> p == q {
      MaskSelects(q, p);
    }
  }
}
