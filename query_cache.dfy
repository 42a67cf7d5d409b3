/**
 The per-frame query cache of the entity-awareness component as a value: the render frame
 the cached results belong to and the mask of queries that hold a result for that frame.
 A refresh on a new frame forgets every result; on the same frame it runs a query only when
 its bit is clear. A new proximity radius makes the Proximity and InFrontOf results stale.
 */
module QueryCache {
  import opened WorldQueries

  datatype CacheState = CacheState(frameId: int, valid: bv32)

  /** The component's starting cache: frame -1, nothing valid. */
  const Initial: CacheState := CacheState(-1, 0)

  /** A refresh of `q` on frame `frameId` misses, and so dispatches q's update routine. */
  predicate Misses(s: CacheState, q: WorldQuery, frameId: int) {
    s.frameId != frameId || !IsValid(s.valid, q)
  }

  /** The cache after `RefreshQueryCache(q)` on frame `frameId`. */
  function Refreshed(s: CacheState, q: WorldQuery, frameId: int): (r: CacheState)
    ensures r.frameId == frameId
    ensures !Misses(s, q, frameId) ==> r == s
    ensures forall p :: IsValid(r.valid, p) <==> p == q || (s.frameId == frameId && IsValid(s.valid, p))
  {
    // A new frame starts from `m_validQueries = 0`; a miss then or-s in `queryMask`.
    var start: bv32 := if s.frameId != frameId then 0 else s.valid;
    if !Misses(s, q, frameId) then s
    else
      SetBitEverywhere(start, q);
      CacheState(frameId, start | Mask(q))
  }

  /** On the same frame the refresh only or-s in q's bit (`m_validQueries |= queryMask`). */
  lemma {:induction false} SameFrameOrsInBit(s: CacheState, q: WorldQuery, frameId: int)
    requires s.frameId == frameId
    ensures Refreshed(s, q, frameId).valid == s.valid | Mask(q)
  {
    if !Misses(s, q, frameId) {
      OrValidBitAt(s.valid, q);
    }
  }

  /**
   The cache after `SetProximityRadius` as its mask update is written: the complement of the
   or-ed enumerator values clears the Raycast and Proximity bits, not the InFrontOf bit.
   */
  function InvalidatedAsWritten(s: CacheState): (r: CacheState)
    ensures r.frameId == s.frameId
    ensures forall p :: IsValid(r.valid, p) <==> IsValid(s.valid, p) && p != Raycast && p != Proximity
    ensures OnlyQueryBits(s.valid) ==> OnlyQueryBits(r.valid)
  {
    ClearEnumValueBitsEverywhere(s.valid);
    ClearEnumValuesKeepsQueryBits(s.valid);
    CacheState(s.frameId, s.valid & !(Enumerator(Proximity) | Enumerator(InFrontOf)))
  }

  /**
   The cache after `SetProximityRadius` as its authors meant it: the Proximity and InFrontOf
   bits, the two results that depend on the radius, are cleared.
   */
  function Invalidated(s: CacheState): (r: CacheState)
    ensures r.frameId == s.frameId
    ensures forall p :: IsValid(r.valid, p) <==> IsValid(s.valid, p) && p != Proximity && p != InFrontOf
    ensures OnlyQueryBits(s.valid) ==> OnlyQueryBits(r.valid)
  {
    ClearRadiusBitsEverywhere(s.valid);
    ClearKeepsQueryBits(s.valid);
    CacheState(s.frameId, s.valid & !(Mask(Proximity) | Mask(InFrontOf)))
  }

  /**
   After a radius change as written, a same-frame in-front-of query refreshes Proximity but finds
   its InFrontOf bit still set: the in-front-of routine does not run, and the list computed for
   the old radius is returned.
   */
  lemma InFrontOfKeptAsWritten(s: CacheState, frameId: int)
    requires s.frameId == frameId && IsValid(s.valid, InFrontOf)
    ensures Misses(InvalidatedAsWritten(s), Proximity, frameId)
    ensures !Misses(Refreshed(InvalidatedAsWritten(s), Proximity, frameId), InFrontOf, frameId)
  {
  }

  /** After the intended radius change, both halves of the in-front-of query run again. */
  lemma InFrontOfRefreshedAsIntended(s: CacheState, frameId: int)
    requires s.frameId == frameId
    ensures Misses(Invalidated(s), Proximity, frameId)
    ensures Misses(Refreshed(Invalidated(s), Proximity, frameId), InFrontOf, frameId)
  {
  }

  /** On a frame change the mask becomes q's bit alone, `1 << q`. */
  lemma {:induction false} NewFrameMask(s: CacheState, q: WorldQuery, frameId: int)
    requires s.frameId != frameId
    ensures Refreshed(s, q, frameId).valid == Mask(q)
  {
    ZeroOrMask(q);
  }

  /** A frame change leaves exactly one query valid: the one just refreshed. */
  lemma {:induction false} NewFrameLeavesOnlyQuery(s: CacheState, q: WorldQuery, frameId: int)
    requires s.frameId != frameId
    ensures ValidSet(Refreshed(s, q, frameId).valid) == {q}
  {
    NewFrameMask(s, q, frameId);
    ValidSetOfMask(q);
  }

  /** A refresh never sets a bit outside the four query bits. */
  lemma {:induction false} RefreshKeepsQueryBits(s: CacheState, q: WorldQuery, frameId: int)
    requires OnlyQueryBits(s.valid)
    ensures OnlyQueryBits(Refreshed(s, q, frameId).valid)
  {
    if s.frameId != frameId {
      NewFrameMask(s, q, frameId);
      ZeroOrMask(q);
      SetKeepsQueryBits(0, q);
    } else {
      SameFrameOrsInBit(s, q, frameId);
      SetKeepsQueryBits(s.valid, q);
    }
  }

  /** On the same frame a refresh adds q to the valid queries and removes none. */
  lemma {:induction false} SameFrameAddsQuery(s: CacheState, q: WorldQuery, frameId: int)
    requires s.frameId == frameId
    ensures ValidSet(Refreshed(s, q, frameId).valid) == ValidSet(s.valid) + {q}
  {
    var r := Refreshed(s, q, frameId);
    forall p ensures p in ValidSet(r.valid) <==> p in ValidSet(s.valid) + {q} {
      InValidSet(r.valid, p);
      InValidSet(s.valid, p);
    }
  }

  /** A second refresh of the same query in the same frame changes nothing and runs nothing. */
  lemma {:induction false} RefreshIdempotent(s: CacheState, q: WorldQuery, frameId: int)
    ensures !Misses(Refreshed(s, q, frameId), q, frameId)
    ensures Refreshed(Refreshed(s, q, frameId), q, frameId) == Refreshed(s, q, frameId)
  {
  }

  /**
   Refreshing one query decides nothing for another: after a refresh of p on the frame, q misses
   exactly when it missed before. So the second refresh of a composite query runs its routine
   exactly when that query was stale when the composite was called.
   */
  lemma RefreshKeepsOtherMisses(s: CacheState, p: WorldQuery, q: WorldQuery, frameId: int)
    requires p != q
    ensures Misses(Refreshed(s, p, frameId), q, frameId) == Misses(s, q, frameId)
  {
  }

  /** After refreshing p then q on a frame, x is valid when it is one of them or was valid on that frame. */
  lemma TwoRefreshes(s: CacheState, p: WorldQuery, q: WorldQuery, frameId: int, x: WorldQuery)
    ensures x in ValidSet(Refreshed(Refreshed(s, p, frameId), q, frameId).valid) <==>
              x == p || x == q || (s.frameId == frameId && IsValid(s.valid, x))
  {
    InValidSet(Refreshed(Refreshed(s, p, frameId), q, frameId).valid, x);
  }

  /**
   Within one frame two refreshes commute: refreshing p then q leaves the same cache as q then p,
   because a mask over the query bits is determined by the queries it marks valid.
   */
  lemma {:induction false} RefreshOrderIrrelevant(s: CacheState, p: WorldQuery, q: WorldQuery, frameId: int)
    requires OnlyQueryBits(s.valid)
    ensures Refreshed(Refreshed(s, p, frameId), q, frameId) == Refreshed(Refreshed(s, q, frameId), p, frameId)
  {
    var sp, sq := Refreshed(s, p, frameId), Refreshed(s, q, frameId);
    var a, b := Refreshed(sp, q, frameId), Refreshed(sq, p, frameId);
    RefreshKeepsQueryBits(s, p, frameId);
    RefreshKeepsQueryBits(sp, q, frameId);
    RefreshKeepsQueryBits(s, q, frameId);
    RefreshKeepsQueryBits(sq, p, frameId);
    forall x ensures x in ValidSet(a.valid) <==> x in ValidSet(b.valid) {
      TwoRefreshes(s, p, q, frameId, x);
      TwoRefreshes(s, q, p, frameId, x);
    }
    MaskDeterminedByValidSet(a.valid, b.valid);
  }

  /** Which bits a radius change clears: line 60 of the component as written, or as intended. */
  datatype Clearing = AsWritten | Intended

  /** The queries a radius change makes stale under each reading. */
  predicate ClearedBy(c: Clearing, q: WorldQuery) {
    match c
    case AsWritten => q == Raycast || q == Proximity
    case Intended => q == Proximity || q == InFrontOf
  }

  /** The cache after a radius change under reading `c`. */
  function RadiusChanged(s: CacheState, c: Clearing): (r: CacheState)
    ensures r.frameId == s.frameId
    ensures forall p :: IsValid(r.valid, p) <==> IsValid(s.valid, p) && !ClearedBy(c, p)
  {
    match c
    case AsWritten => InvalidatedAsWritten(s)
    case Intended => Invalidated(s)
  }

  /** One call the component receives within a frame. */
  datatype Step = Refresh(query: WorldQuery) | SetRadius

  function Next(s: CacheState, frameId: int, step: Step, c: Clearing): CacheState {
    match step
    case Refresh(q) => Refreshed(s, q, frameId)
    case SetRadius => RadiusChanged(s, c)
  }

  /** How many times q's update routine is dispatched while `steps` run on frame `frameId`. */
  function Runs(s: CacheState, frameId: int, steps: seq<Step>, q: WorldQuery, c: Clearing): (n: nat)
    ensures Refresh(q) !in steps ==> n == 0
    decreases |steps|
  {
    if steps == [] then 0
    else
      (if steps[0] == Refresh(q) && Misses(s, q, frameId) then 1 else 0)
      + Runs(Next(s, frameId, steps[0], c), frameId, steps[1..], q, c)
  }

  /** The cache after `steps` run on frame `frameId`. */
  function After(s: CacheState, frameId: int, steps: seq<Step>, c: Clearing): CacheState
    decreases |steps|
  {
    if steps == [] then s else After(Next(s, frameId, steps[0], c), frameId, steps[1..], c)
  }

  /** How many of the steps make q's result stale: the radius changes, if they clear q. */
  function Invalidations(steps: seq<Step>, q: WorldQuery, c: Clearing): (n: nat)
    ensures !ClearedBy(c, q) ==> n == 0
    ensures ClearedBy(c, q) ==> n == multiset(steps)[SetRadius]
  {
    if steps == [] || !ClearedBy(c, q) then 0
    else
      assert steps == [steps[0]] + steps[1..];
      (if steps[0] == SetRadius then 1 else 0) + Invalidations(steps[1..], q, c)
  }

  /** One step on the frame keeps a valid result valid, unless it is a radius change that clears it. */
  lemma StepKeepsValid(s: CacheState, frameId: int, step: Step, q: WorldQuery, c: Clearing)
    requires s.frameId == frameId && IsValid(s.valid, q)
    ensures Next(s, frameId, step, c).frameId == frameId
    ensures IsValid(Next(s, frameId, step, c).valid, q) <==> !(step == SetRadius && ClearedBy(c, q))
  {
  }

  /** Once q holds a result for the frame, it runs again only after something makes it stale. */
  lemma {:induction false} NoRerunWhileValid(s: CacheState, frameId: int, steps: seq<Step>, q: WorldQuery, c: Clearing)
    requires s.frameId == frameId && IsValid(s.valid, q)
    ensures Runs(s, frameId, steps, q, c) <= Invalidations(steps, q, c)
    decreases |steps|
  {
    if steps != [] {
      var next := Next(s, frameId, steps[0], c);
      StepKeepsValid(s, frameId, steps[0], q, c);
      if IsValid(next.valid, q) {
        NoRerunWhileValid(next, frameId, steps[1..], q, c);
      } else {
        AtMostOncePerInvalidation(next, frameId, steps[1..], q, c);
      }
    }
  }

  /**
   Within one frame, q's update routine runs at most once, plus once more for each radius change
   that made its result stale in between.
   */
  lemma {:induction false} AtMostOncePerInvalidation(s: CacheState, frameId: int, steps: seq<Step>, q: WorldQuery, c: Clearing)
    ensures Runs(s, frameId, steps, q, c) <= 1 + Invalidations(steps, q, c)
    decreases |steps|
  {
    if steps != [] {
      var next := Next(s, frameId, steps[0], c);
      if steps[0] == Refresh(q) {
        NoRerunWhileValid(next, frameId, steps[1..], q, c);
      } else {
        AtMostOncePerInvalidation(next, frameId, steps[1..], q, c);
      }
    }
  }

  /**
   A result that radius changes do not clear is computed at most once per frame. As written that
   holds for CloseBy and InFrontOf; as intended, for Raycast and CloseBy.
   */
  lemma {:induction false} AtMostOncePerFrame(s: CacheState, frameId: int, steps: seq<Step>, q: WorldQuery, c: Clearing)
    requires !ClearedBy(c, q)
    ensures Runs(s, frameId, steps, q, c) <= 1
  {
    AtMostOncePerInvalidation(s, frameId, steps, q, c);
  }

  /** Under either reading, a radius change in mid-frame makes Proximity run twice in that frame. */
  lemma ProximityRerunsAfterRadiusChange(frameId: int, c: Clearing)
    ensures Runs(CacheState(frameId, 0), frameId, [Refresh(Proximity), SetRadius, Refresh(Proximity)], Proximity, c) == 2
  {
  }

  /** As written, a radius change in mid-frame makes the ray-cast routine run twice in that frame. */
  lemma RaycastRerunsAsWritten(frameId: int)
    ensures Runs(CacheState(frameId, 0), frameId, [Refresh(Raycast), SetRadius, Refresh(Raycast)], Raycast, AsWritten) == 2
  {
  }

  /** As written, a radius change in mid-frame does not make the in-front-of routine run again. */
  lemma InFrontOfNotRerunAsWritten(frameId: int)
    ensures Runs(CacheState(frameId, 0), frameId, [Refresh(InFrontOf), SetRadius, Refresh(InFrontOf)], InFrontOf, AsWritten) == 1
  {
  }

  /** As intended, it does. */
  lemma InFrontOfRerunsAsIntended(frameId: int)
    ensures Runs(CacheState(frameId, 0), frameId, [Refresh(InFrontOf), SetRadius, Refresh(InFrontOf)], InFrontOf, Intended) == 2
  {
  }
}
