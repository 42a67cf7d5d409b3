/**
 The entity-awareness component: it caches, per render frame, the results of four world
 queries around an actor and answers look-at and in-front-of questions from those results.

 The engine's services become parameters: `frameId` is the renderer's current frame id,
 `found` is what the engine's spatial queries would report if run now, and `cast` is what the
 ray-cast routine leaves in the cached ray fields. The four update routines are opaque; a ghost
 counter per query records how often each has run.
 */
module EntityAwareness {
  import opened Wrappers
  import opened WorldQueries
  import opened QueryCache
  import opened LookAt

  /** The entity lists the component keeps, one per entity query. */
  datatype EntityLists = EntityLists(inProximity: seq<EntityId>, near: seq<EntityId>, inFrontOf: seq<EntityId>)

  /**
   The effect of q's update routine on the entity lists. The proximity, near and in-front-of
   routines replace their own list by what the engine reports; the ray-cast routine touches no
   entity list.
   */
  function AfterUpdate(lists: EntityLists, q: WorldQuery, found: EntityLists): EntityLists {
    match q
    case Raycast => lists
    case Proximity => lists.(inProximity := found.inProximity)
    case CloseBy => lists.(near := found.near)
    case InFrontOf => lists.(inFrontOf := found.inFrontOf)
  }

  /** The ghost run counters after one dispatch of q's routine, if `ran`. */
  function Counted(runs: map<WorldQuery, nat>, q: WorldQuery, ran: bool): map<WorldQuery, nat>
    requires q in runs
  {
    if ran then runs[q := runs[q] + 1] else runs
  }

  const DefaultProximityRadius: real := 6.0

  /** Every query has a run counter. */
  lemma EveryQueryListed(q: WorldQuery)
    ensures q in AllQueries
  {
  }

  /** One slot of the in-flight ray table: a queued ray id and a counter. */
  class RayInfo {
    var rayId: nat
    var counter: nat
    /** How often the engine's ray caster has been told to reset. */
    ghost var casterResets: nat

    constructor ()
      ensures rayId == 0 && counter == 0 && casterResets == 0
    {
      rayId := 0;
      counter := 0;
      casterResets := 0;
    }

    /** Clears the slot; the ray caster is reset only when a ray was queued in it. */
    method Reset()
      modifies this
      ensures rayId == 0 && counter == 0
      ensures casterResets == old(casterResets) + (if old(rayId) != 0 then 1 else 0)
    {
      if rayId != 0 {
        casterResets := casterResets + 1;
        rayId := 0;
      }
      counter := 0;
    }
  }

  class EntityAwarenessComponent {
    /** How far from the actor entities are searched for. */
    var proximityRadius: real
    /** Bit `1 << q` is set when query q holds a result for `renderFrameId`. */
    var validQueries: bv32
    /** The render frame the valid results belong to. */
    var renderFrameId: int

    // The forward ray's cached result.
    var rayHitAny: bool
    var rayHitSolid: RayHit
    var rayHitPierceable: RayHit
    var lookAtEntityId: EntityId

    // The entity queries' cached results.
    var entitiesInProximity: seq<EntityId>
    var entitiesNear: seq<EntityId>
    var entitiesInFrontOf: seq<EntityId>

    /** How many times each query's update routine has run. */
    ghost var runs: map<WorldQuery, nat>

    ghost predicate Valid()
      reads this
    {
      OnlyQueryBits(validQueries) && forall q :: q in runs
    }

    function Cache(): CacheState
      reads this
    {
      CacheState(renderFrameId, validQueries)
    }

    function Ray(): RayCache
      reads this
    {
      RayCache(rayHitAny, rayHitSolid, rayHitPierceable, lookAtEntityId)
    }

    function Lists(): EntityLists
      reads this
    {
      EntityLists(entitiesInProximity, entitiesNear, entitiesInFrontOf)
    }

    /** The member initialisers: radius 6, no valid query, frame -1, no ray hit, no entities. */
    constructor ()
      ensures Valid()
      ensures proximityRadius == DefaultProximityRadius && Cache() == Initial
      ensures !rayHitAny && lookAtEntityId == InvalidEntityId
      ensures Lists() == EntityLists([], [], [])
      ensures runs == map q | q in AllQueries :: 0
    {
      proximityRadius := DefaultProximityRadius;
      validQueries := 0;
      renderFrameId := -1;
      rayHitAny := false;
      lookAtEntityId := InvalidEntityId;
      entitiesInProximity, entitiesNear, entitiesInFrontOf := [], [], [];
      runs := map q | q in AllQueries :: 0;
      new;
      forall q ensures q in runs {
        EveryQueryListed(q);
      }
    }

    /**
     Dispatches q's update routine (the `m_updateQueryFunctions` table, in enumerator order). The
     ray-cast routine's effect on the ray fields is opaque: they end up as `cast`, as if that result
     had been delivered. When it only queues a deferred ray, `cast` is the fields as they were.
     */
    method RunUpdateQuery(q: WorldQuery, found: EntityLists, cast: RayCache)
      requires Valid()
      modifies this
      ensures Valid()
      ensures Lists() == AfterUpdate(old(Lists()), q, found)
      ensures Ray() == if q == Raycast then cast else old(Ray())
      ensures runs == Counted(old(runs), q, true)
      ensures Cache() == old(Cache()) && proximityRadius == old(proximityRadius)
    {
      match q {
        case Raycast => OnRayCastDataReceived(cast);
        case Proximity => entitiesInProximity := found.inProximity;
        case CloseBy => entitiesNear := found.near;
        case InFrontOf => entitiesInFrontOf := found.inFrontOf;
      }
      runs := Counted(runs, q, true);
    }

    /**
     Makes sure query q holds a result for frame `frameId`: a new frame forgets every result,
     a valid result on the same frame is kept, and otherwise q's update routine runs.
     */
    method RefreshQueryCache(q: WorldQuery, frameId: int, found: EntityLists, cast: RayCache)
      requires Valid()
      modifies this
      ensures Valid()
      ensures Cache() == Refreshed(old(Cache()), q, frameId)
      ensures renderFrameId == frameId && IsValid(validQueries, q)
      ensures old(renderFrameId) != frameId ==> validQueries == Mask(q) && runs[q] == old(runs[q]) + 1
      ensures old(renderFrameId) == frameId ==> validQueries == old(validQueries) | Mask(q)
      ensures !Misses(old(Cache()), q, frameId) ==> unchanged(this)
      ensures Lists() == (if Misses(old(Cache()), q, frameId) then AfterUpdate(old(Lists()), q, found) else old(Lists()))
      ensures Ray() == if Misses(old(Cache()), q, frameId) && q == Raycast then cast else old(Ray())
      ensures runs == Counted(old(runs), q, Misses(old(Cache()), q, frameId))
      ensures proximityRadius == old(proximityRadius)
    {
      if renderFrameId == frameId {
        SameFrameOrsInBit(Cache(), q, frameId);
      } else {
        NewFrameMask(Cache(), q, frameId);
      }
      var queryMask := Mask(q);
      if renderFrameId != frameId {
        // A new frame: every cached result is stale.
        renderFrameId := frameId;
        validQueries := 0;
      } else if validQueries & queryMask != 0 {
        return;
      }
      RunUpdateQuery(q, found, cast);
      validQueries := validQueries | queryMask;
    }

    /**
     Stores the radius and and-s the mask with the complement of `eWQ_Proximity | eWQ_InFrontOf`.
     Those operands are enumerator values, not masks: the Raycast and Proximity results go stale,
     and the InFrontOf result computed for the old radius stays valid.
     */
    method SetProximityRadius(radius: real)
      requires Valid()
      modifies this
      ensures Valid()
      ensures proximityRadius == radius
      ensures Cache() == InvalidatedAsWritten(old(Cache()))
      ensures !IsValid(validQueries, Raycast) && !IsValid(validQueries, Proximity)
      ensures IsValid(validQueries, CloseBy) == IsValid(old(validQueries), CloseBy)
      ensures IsValid(validQueries, InFrontOf) == IsValid(old(validQueries), InFrontOf)
      ensures renderFrameId == old(renderFrameId) && runs == old(runs)
      ensures Lists() == old(Lists()) && Ray() == old(Ray())
    {
      ClearEnumValuesKeepsQueryBits(validQueries);
      proximityRadius := radius;
      validQueries := validQueries & !(Enumerator(Proximity) | Enumerator(InFrontOf));
    }

    /** The entities in the box around the actor, refreshed for this frame if needed. */
    method ProximityQuery(frameId: int, found: EntityLists) returns (entities: seq<EntityId>)
      requires Valid()
      modifies this
      ensures Valid()
      ensures Cache() == Refreshed(old(Cache()), Proximity, frameId)
      ensures entities == entitiesInProximity
      ensures entities == if Misses(old(Cache()), Proximity, frameId) then found.inProximity else old(entitiesInProximity)
      ensures runs == Counted(old(runs), Proximity, Misses(old(Cache()), Proximity, frameId))
      ensures entitiesNear == old(entitiesNear) && entitiesInFrontOf == old(entitiesInFrontOf)
      ensures Ray() == old(Ray()) && proximityRadius == old(proximityRadius)
    {
      RefreshQueryCache(Proximity, frameId, found, Ray());
      entities := entitiesInProximity;
    }

    /** The entities close by: the proximity query first, then the close-by query. */
    method NearQuery(frameId: int, found: EntityLists) returns (entities: seq<EntityId>)
      requires Valid()
      modifies this
      ensures Valid()
      ensures Cache() == Refreshed(Refreshed(old(Cache()), Proximity, frameId), CloseBy, frameId)
      ensures renderFrameId == frameId && IsValid(validQueries, Proximity) && IsValid(validQueries, CloseBy)
      ensures entities == entitiesNear
      ensures entities == if Misses(old(Cache()), CloseBy, frameId) then found.near else old(entitiesNear)
      ensures entitiesInProximity ==
                if Misses(old(Cache()), Proximity, frameId) then found.inProximity else old(entitiesInProximity)
      ensures runs == Counted(Counted(old(runs), Proximity, Misses(old(Cache()), Proximity, frameId)),
                              CloseBy, Misses(old(Cache()), CloseBy, frameId))
      ensures entitiesInFrontOf == old(entitiesInFrontOf)
      ensures Ray() == old(Ray()) && proximityRadius == old(proximityRadius)
    {
      RefreshKeepsOtherMisses(Cache(), Proximity, CloseBy, frameId);
      RefreshQueryCache(Proximity, frameId, found, Ray());
      RefreshQueryCache(CloseBy, frameId, found, Ray());
      entities := entitiesNear;
    }

    /** The entities in front of the actor: the proximity query first, then the in-front-of query. */
    method InFrontOfQuery(frameId: int, found: EntityLists) returns (entities: seq<EntityId>)
      requires Valid()
      modifies this
      ensures Valid()
      ensures Cache() == Refreshed(Refreshed(old(Cache()), Proximity, frameId), InFrontOf, frameId)
      ensures renderFrameId == frameId && IsValid(validQueries, Proximity) && IsValid(validQueries, InFrontOf)
      ensures entities == entitiesInFrontOf
      ensures entities == if Misses(old(Cache()), InFrontOf, frameId) then found.inFrontOf else old(entitiesInFrontOf)
      ensures entitiesInProximity ==
                if Misses(old(Cache()), Proximity, frameId) then found.inProximity else old(entitiesInProximity)
      ensures runs == Counted(Counted(old(runs), Proximity, Misses(old(Cache()), Proximity, frameId)),
                              InFrontOf, Misses(old(Cache()), InFrontOf, frameId))
      ensures entitiesNear == old(entitiesNear)
      ensures Ray() == old(Ray()) && proximityRadius == old(proximityRadius)
    {
      RefreshKeepsOtherMisses(Cache(), Proximity, InFrontOf, frameId);
      RefreshQueryCache(Proximity, frameId, found, Ray());
      RefreshQueryCache(InFrontOf, frameId, found, Ray());
      entities := entitiesInFrontOf;
    }

    /** The public name of the in-front-of query. */
    method GetEntitiesInFrontOf(frameId: int, found: EntityLists) returns (entities: seq<EntityId>)
      requires Valid()
      modifies this
      ensures Valid()
      ensures entities == entitiesInFrontOf
      ensures Cache() == Refreshed(Refreshed(old(Cache()), Proximity, frameId), InFrontOf, frameId)
      ensures renderFrameId == frameId && IsValid(validQueries, Proximity) && IsValid(validQueries, InFrontOf)
      ensures entitiesInFrontOf == if Misses(old(Cache()), InFrontOf, frameId) then found.inFrontOf else old(entitiesInFrontOf)
      ensures entitiesInProximity ==
                if Misses(old(Cache()), Proximity, frameId) then found.inProximity else old(entitiesInProximity)
      ensures runs == Counted(Counted(old(runs), Proximity, Misses(old(Cache()), Proximity, frameId)),
                              InFrontOf, Misses(old(Cache()), InFrontOf, frameId))
      ensures entitiesNear == old(entitiesNear)
      ensures Ray() == old(Ray()) && proximityRadius == old(proximityRadius)
    {
      entities := InFrontOfQuery(frameId, found);
    }

    /**
     The id of the first entity in front of the actor, or nothing when none is. Looking the
     entity up in the engine's registry is not part of this model.
     */
    method GetEntityInFrontOf(frameId: int, found: EntityLists) returns (entity: Option<EntityId>)
      requires Valid()
      modifies this
      ensures Valid()
      ensures entity == FirstInFrontOf(entitiesInFrontOf)
      ensures entity == FirstInFrontOf(if Misses(old(Cache()), InFrontOf, frameId) then found.inFrontOf else old(entitiesInFrontOf))
      ensures Cache() == Refreshed(Refreshed(old(Cache()), Proximity, frameId), InFrontOf, frameId)
      ensures renderFrameId == frameId && IsValid(validQueries, Proximity) && IsValid(validQueries, InFrontOf)
      ensures entitiesInFrontOf == if Misses(old(Cache()), InFrontOf, frameId) then found.inFrontOf else old(entitiesInFrontOf)
      ensures entitiesInProximity ==
                if Misses(old(Cache()), Proximity, frameId) then found.inProximity else old(entitiesInProximity)
      ensures runs == Counted(Counted(old(runs), Proximity, Misses(old(Cache()), Proximity, frameId)),
                              InFrontOf, Misses(old(Cache()), InFrontOf, frameId))
      ensures entitiesNear == old(entitiesNear)
      ensures Ray() == old(Ray()) && proximityRadius == old(proximityRadius)
    {
      var entities := InFrontOfQuery(frameId, found);
      entity := FirstInFrontOf(entities);
    }

    /**
     The hit the actor looks at, within `maxDistance` (none when it is zero or less), chosen from
     the ray fields as the refresh of the ray-cast query leaves them.
     */
    method GetLookAtPoint(frameId: int, maxDistance: real, ignoreGlass: bool, cast: RayCache) returns (hit: Option<HitKind>)
      requires Valid()
      modifies this
      ensures Valid()
      ensures hit == LookAtPoint(Ray(), maxDistance, ignoreGlass)
      ensures Ray() == if Misses(old(Cache()), Raycast, frameId) then cast else old(Ray())
      ensures Cache() == Refreshed(old(Cache()), Raycast, frameId)
      ensures runs == Counted(old(runs), Raycast, Misses(old(Cache()), Raycast, frameId))
      ensures Lists() == old(Lists()) && proximityRadius == old(proximityRadius)
    {
      RefreshQueryCache(Raycast, frameId, Lists(), cast);
      hit := LookAtPoint(Ray(), maxDistance, ignoreGlass);
    }

    /** The entity the actor looks at; none while a glass-like hit is in front of it. */
    method GetLookAtEntityId(frameId: int, ignoreGlass: bool, cast: RayCache) returns (id: EntityId)
      requires Valid()
      modifies this
      ensures Valid()
      ensures id == LookAtEntityId(Ray(), ignoreGlass)
      ensures Ray() == if Misses(old(Cache()), Raycast, frameId) then cast else old(Ray())
      ensures Cache() == Refreshed(old(Cache()), Raycast, frameId)
      ensures runs == Counted(old(runs), Raycast, Misses(old(Cache()), Raycast, frameId))
      ensures Lists() == old(Lists()) && proximityRadius == old(proximityRadius)
    {
      RefreshQueryCache(Raycast, frameId, Lists(), cast);
      id := LookAtEntityId(Ray(), ignoreGlass);
    }

    /** The look-at hit, cut off at the proximity radius and never ignoring glass. */
    method RaycastQuery(frameId: int, cast: RayCache) returns (hit: Option<HitKind>)
      requires Valid()
      modifies this
      ensures Valid()
      ensures hit == LookAtPoint(Ray(), proximityRadius, false)
      ensures Ray() == if Misses(old(Cache()), Raycast, frameId) then cast else old(Ray())
      ensures Cache() == Refreshed(old(Cache()), Raycast, frameId)
      ensures runs == Counted(old(runs), Raycast, Misses(old(Cache()), Raycast, frameId))
      ensures Lists() == old(Lists()) && proximityRadius == old(proximityRadius)
    {
      hit := GetLookAtPoint(frameId, proximityRadius, false, cast);
    }

    /**
     The deferred ray's result arriving: the cached ray fields take the delivered values.
     How the engine's result is turned into these values is not part of this model.
     */
    method OnRayCastDataReceived(result: RayCache)
      requires Valid()
      modifies this
      ensures Valid()
      ensures Ray() == result
      ensures Cache() == old(Cache()) && Lists() == old(Lists()) && runs == old(runs)
      ensures proximityRadius == old(proximityRadius)
    {
      rayHitAny := result.hitAny;
      rayHitSolid := result.solid;
      rayHitPierceable := result.pierceable;
      lookAtEntityId := result.lookAtEntityId;
    }

    /**
     One call within frame `frameId`: a refresh as a query method makes it, or a call of
     `SetProximityRadius(radius)`. The cache moves as `Next` says for line 60 as written, and
     only the refreshed query's counter may grow, by one on a miss.
     */
    method ReplayStep(frameId: int, step: Step, radius: real, found: EntityLists, cast: RayCache)
      requires Valid()
      modifies this
      ensures Valid()
      ensures Cache() == Next(old(Cache()), frameId, step, AsWritten)
      ensures forall q :: runs[q] == old(runs[q]) + (if step == Refresh(q) && Misses(old(Cache()), q, frameId) then 1 else 0)
    {
      match step {
        case Refresh(q) => RefreshQueryCache(q, frameId, found, cast);
        case SetRadius => SetProximityRadius(radius);
      }
    }

    /**
     A run of calls within frame `frameId`. The cache ends where the value model says, every run
     counter grows by the dispatch count `Runs` predicts for line 60 as written, and so CloseBy and
     InFrontOf run at most once however the calls interleave.
     */
    method Replay(frameId: int, steps: seq<Step>, radius: real, found: EntityLists, cast: RayCache)
      requires Valid()
      modifies this
      ensures Valid()
      ensures Cache() == After(old(Cache()), frameId, steps, AsWritten)
      ensures forall q :: runs[q] == old(runs[q]) + Runs(old(Cache()), frameId, steps, q, AsWritten)
      ensures runs[CloseBy] <= old(runs[CloseBy]) + 1 && runs[InFrontOf] <= old(runs[InFrontOf]) + 1
      decreases |steps|
    {
      ghost var start := Cache();
      if steps != [] {
        ReplayStep(frameId, steps[0], radius, found, cast);
        Replay(frameId, steps[1..], radius, found, cast);
      }
      AtMostOncePerFrame(start, frameId, steps, CloseBy, AsWritten);
      AtMostOncePerFrame(start, frameId, steps, InFrontOf, AsWritten);
    }
  }
}