# Entity awareness query cache

A Dafny model of the per-frame query cache of `CEntityAwarenessComponent`, the component that
gives an actor spatial awareness of nearby entities. It remembers which of four world queries
(Raycast, Proximity, CloseBy, InFrontOf) already hold a result for the current render frame.
It does this with the frame id and a 32-bit validity mask in which query `q` owns bit `1 << q`.
The model also covers the selections the component makes from its cached results: the look-at
hit (pierceable or solid, with a distance cut-off), the look-at entity and the first entity in
front of the actor.

Modules:

- `WorldQueries` (world_queries.dfy): the `EWorldQuery` enumeration, the masks as `bv32`, and
  lemmas about or-ing in one bit and about the two ways of clearing bits on a radius change.
- `QueryCache` (query_cache.dfy): the cache state (frame id, mask) as a value. It holds the
  transitions of `RefreshQueryCache` and of `SetProximityRadius` (as written and as intended,
  see "Findings") as functions, and a count of how often each update routine runs during a
  sequence of calls within one frame.
- `LookAt` (look_at.dfy): the pure hit and entity selections over the cached ray fields.
- `EntityAwareness` (entity_awareness.dfy): the component as a class with the source's fields,
  and `SRayInfo` as the class `RayInfo`. Each method's contract ties the new state to the
  `QueryCache` and `LookAt` functions.
- `Wrappers` (wrappers.dfy): `Option`, standing for a pointer that may be null.

Engine services are inputs:

- The renderer's frame id is the `frameId` parameter.
- The four update routines have no bodies in the source. They are opaque effects:
  - the proximity, near and in-front-of routines replace their own entity list with the list
    in the `found` parameter, which is what the engine's query would report now;
  - the ray-cast routine's effect on the cached ray fields is the `cast` parameter: the fields end
    up as `cast` (its doc comment says it only queues a deferred ray whose result arrives through
    `OnRayCastDataReceived`; a caller then passes the fields as they were).
- A ghost map `runs` counts how often each routine has run.
- `OnRayCastDataReceived` replaces the four cached ray fields with the values it is given.
- Distances and the radius are `real`; a `ray_hit` is reduced to its distance.

## Model

| member | source | states |
|---|---|---|
| WorldQueries.Index | Entities/Interaction/EntityAwarenessComponent.h:203-209 | The enumerators are 0 to 3 in declaration order, so each query's bit lies within the low four bits of the 32-bit mask. |
| WorldQueries.Enumerator | Entities/Interaction/EntityAwarenessComponent.h:203-209 | The enumerator values as 32-bit operands, the form they take inside `eWQ_Proximity | eWQ_InFrontOf`; each equals `Index` converted to 32 bits. |
| WorldQueries.Mask | Entities/Interaction/EntityAwarenessComponent.h:240 | `queryMask`, the single bit `1u << query` of each query. |
| WorldQueries.MaskIsShift | Entities/Interaction/EntityAwarenessComponent.h:240 | A query's mask is `1 << q` for its enumerator value `q`. |
| WorldQueries.IsValid | Entities/Interaction/EntityAwarenessComponent.h:252 | The test `m_validQueries & queryMask`: the query's bit is set. |
| WorldQueries.MaskSelects | Entities/Interaction/EntityAwarenessComponent.h:240 | The mask of `q` tests valid for `q` and for no other query. |
| WorldQueries.SetBit | Entities/Interaction/EntityAwarenessComponent.h:261 | Or-ing in `queryMask` sets bit `q` and keeps every other query's bit as it was. |
| WorldQueries.SetKeepsQueryBits | Entities/Interaction/EntityAwarenessComponent.h:261 | Or-ing in `queryMask` sets no bit outside the four query bits. |
| WorldQueries.EnumValuesOperand | Entities/Interaction/EntityAwarenessComponent.h:60 | `eWQ_Proximity | eWQ_InFrontOf` is `1 | 3`, which equals the masks of Raycast and Proximity or-ed together, not those of the two queries named. |
| WorldQueries.ClearEnumValueBits | Entities/Interaction/EntityAwarenessComponent.h:60 | And-ing with `~(eWQ_Proximity | eWQ_InFrontOf)` as written clears the Raycast and Proximity bits and keeps CloseBy and InFrontOf. |
| WorldQueries.ClearRadiusBits | Entities/Interaction/EntityAwarenessComponent.h:60 | The intended clearing, of the Proximity and InFrontOf masks, clears exactly those two bits and keeps Raycast and CloseBy. |
| WorldQueries.MaskDeterminedByValidSet | Entities/Interaction/EntityAwarenessComponent.h:275-276 | A mask over the query bits is determined by the set of queries it marks valid. |
| WorldQueries.ValidSetOfMask | Entities/Interaction/EntityAwarenessComponent.h:240 | A single query's mask marks exactly that query valid. |
| QueryCache.Misses | Entities/Interaction/EntityAwarenessComponent.h:243-253 | A refresh dispatches the routine exactly when the frame has changed or the query's bit is clear. |
| QueryCache.Refreshed | Entities/Interaction/EntityAwarenessComponent.h:238-262 | After a refresh of `q` the frame id is the current one. A hit (same frame, bit already set) changes nothing. Afterwards `q` is valid, and another query is valid exactly when it was valid before on the same frame: a new frame forgets every other result. |
| QueryCache.SameFrameOrsInBit | Entities/Interaction/EntityAwarenessComponent.h:250-261 | On an unchanged frame the new mask is the old mask or-ed with `q`'s bit, whether or not the query ran. |
| QueryCache.NewFrameMask | Entities/Interaction/EntityAwarenessComponent.h:243-261 | On a frame change the mask becomes exactly `1 << q`. |
| QueryCache.RefreshKeepsQueryBits | Entities/Interaction/EntityAwarenessComponent.h:238-262 | A refresh never sets a bit outside the four query bits. |
| QueryCache.NewFrameLeavesOnlyQuery | Entities/Interaction/EntityAwarenessComponent.h:243-261 | On a frame change every previously valid query is dropped, and only `q` is valid afterwards. |
| QueryCache.SameFrameAddsQuery | Entities/Interaction/EntityAwarenessComponent.h:250-261 | On the same frame the valid set grows by exactly `q`. |
| QueryCache.RefreshIdempotent | Entities/Interaction/EntityAwarenessComponent.h:250-254 | A second refresh of `q` on the same frame is a hit and changes nothing. |
| QueryCache.InvalidatedAsWritten | Entities/Interaction/EntityAwarenessComponent.h:57-61 | A radius change as written keeps the frame id, makes Raycast and Proximity invalid, and keeps the validity of CloseBy and InFrontOf. |
| QueryCache.Invalidated | Entities/Interaction/EntityAwarenessComponent.h:57-61 | The intended radius change keeps the frame id, makes Proximity and InFrontOf invalid, and keeps the validity of Raycast and CloseBy. |
| QueryCache.InFrontOfKeptAsWritten | Entities/Interaction/EntityAwarenessComponent.h:57-61 | After a same-frame radius change as written, the in-front-of query re-runs the proximity routine but finds InFrontOf still valid, so its routine does not run and the list for the old radius is returned. |
| QueryCache.InFrontOfRefreshedAsIntended | Entities/Interaction/EntityAwarenessComponent.h:57-61 | After the intended radius change, both refreshes of the in-front-of query miss. |
| QueryCache.RefreshKeepsOtherMisses | Entities/Interaction/EntityAwarenessComponent.h:72-78 | After refreshing one query, another query misses exactly when it missed before. So the second refresh of a composite query runs exactly when that query was stale at the call. |
| QueryCache.RefreshOrderIrrelevant | Entities/Interaction/EntityAwarenessComponent.h:72-78 | Within one frame two refreshes commute: refreshing Proximity then CloseBy, as `NearQuery` does, leaves the same frame id and mask as the other order. This holds for every mask that uses only the four query bits, which `Valid()` keeps for the component. |
| QueryCache.RadiusChanged | Entities/Interaction/EntityAwarenessComponent.h:57-61 | Under either reading of the radius change, the frame id is kept and a query stays valid exactly when it was valid and that reading does not clear it. |
| QueryCache.Runs | Entities/Interaction/EntityAwarenessComponent.h:250-258 | Counts the dispatches of `q`'s routine over a sequence of calls within one frame; it is zero when `q` is never refreshed. |
| QueryCache.Invalidations | Entities/Interaction/EntityAwarenessComponent.h:57-61 | The number of radius changes among the steps when the reading clears `q`, and zero otherwise. |
| QueryCache.StepKeepsValid | Entities/Interaction/EntityAwarenessComponent.h:57-61 | One call on the frame keeps a valid `q` valid unless it is a radius change that clears `q`. |
| QueryCache.NoRerunWhileValid | Entities/Interaction/EntityAwarenessComponent.h:250-254 | Once `q` is valid for the frame, later calls in that frame run `q`'s routine at most once per radius change that clears `q`. |
| QueryCache.AtMostOncePerInvalidation | Entities/Interaction/EntityAwarenessComponent.h:238-262 | Within one frame, `q`'s routine runs at most once, plus once for each radius change that clears `q`. |
| QueryCache.AtMostOncePerFrame | Entities/Interaction/EntityAwarenessComponent.h:238-262 | A query that radius changes do not clear runs at most once per frame: CloseBy and InFrontOf as written, Raycast and CloseBy as intended. |
| QueryCache.ProximityRerunsAfterRadiusChange | Entities/Interaction/EntityAwarenessComponent.h:57-61 | Under either reading, a radius change in mid-frame makes the proximity routine run a second time in that frame. |
| QueryCache.RaycastRerunsAsWritten | Entities/Interaction/EntityAwarenessComponent.h:57-61 | As written, a radius change in mid-frame makes the ray-cast routine run a second time in that frame. |
| QueryCache.InFrontOfNotRerunAsWritten | Entities/Interaction/EntityAwarenessComponent.h:57-61 | As written, a radius change in mid-frame does not make the in-front-of routine run again. |
| QueryCache.InFrontOfRerunsAsIntended | Entities/Interaction/EntityAwarenessComponent.h:57-61 | As intended, a radius change in mid-frame makes the in-front-of routine run a second time. |
| LookAt.PrefersPierceable | Entities/Interaction/EntityAwarenessComponent.h:96 | The glass-like hit is chosen when glass is not ignored and its distance is non-negative; the same test picks the entity at line 110. |
| LookAt.LookAtPoint | Entities/Interaction/EntityAwarenessComponent.h:90-103 | The pierceable hit is returned exactly when there was a hit, glass is not ignored, the pierceable distance is non-negative and within the cut-off. The solid hit is returned exactly when there was a hit, glass is ignored or absent, and the solid distance is within the cut-off. Otherwise the result is null. |
| LookAt.WithinMaxDistance | Entities/Interaction/EntityAwarenessComponent.h:98 | Every returned hit lies within a positive cut-off. |
| LookAt.NoHitNoPoint | Entities/Interaction/EntityAwarenessComponent.h:94-102 | Without any ray hit the result is null. |
| LookAt.IgnoreGlassNeverPierceable | Entities/Interaction/EntityAwarenessComponent.h:96 | When glass is ignored the pierceable hit is never returned. |
| LookAt.NoFallBackToSolid | Entities/Interaction/EntityAwarenessComponent.h:96-99 | When the pierceable hit is chosen but lies beyond the cut-off, the result is null, not the solid hit. |
| LookAt.NoCutOff | Entities/Interaction/EntityAwarenessComponent.h:98 | A cut-off of zero or less is no cut-off: some hit is returned exactly when the ray hit anything. |
| LookAt.CutOffMonotone | Entities/Interaction/EntityAwarenessComponent.h:98 | Raising a positive cut-off keeps any non-null result unchanged. |
| LookAt.LookAtEntityId | Entities/Interaction/EntityAwarenessComponent.h:106-111 | The look-at entity is the cached one, or the invalid id when a non-ignored pierceable hit exists. Ignoring glass always gives the cached one. |
| LookAt.PointAndEntityAgree | Entities/Interaction/EntityAwarenessComponent.h:96-110 | When the look-at point is the pierceable hit, no entity is reported. When it is the solid hit, the cached entity is reported. |
| LookAt.FirstInFrontOf | Entities/Interaction/EntityAwarenessComponent.h:144-150 | Nothing for an empty in-front list, otherwise its first element. |
| EntityAwareness.AfterUpdate | Entities/Interaction/EntityAwarenessComponent.h:258 | The effect of a dispatched routine on the entity lists: each entity routine replaces only its own list, and the ray-cast routine touches none. |
| EntityAwareness.RayInfo.constructor | Entities/Interaction/EntityAwarenessComponent.h:224-225 | A new slot has ray id 0 and counter 0. |
| EntityAwareness.RayInfo.Reset | Entities/Interaction/EntityAwarenessComponent.h:214-222 | Reset always ends with ray id 0 and counter 0. The ray caster is reset exactly when a ray id was set. |
| EntityAwareness.EntityAwarenessComponent.constructor | Entities/Interaction/EntityAwarenessComponent.h:273-327 | The member initialisers: radius 6, mask 0, frame -1, no ray hit, invalid look-at entity, empty lists, no routine run yet. |
| EntityAwareness.EntityAwarenessComponent.RunUpdateQuery | Entities/Interaction/EntityAwarenessComponent.h:258 | Dispatches `q`'s routine: only `q`'s own result (its list, or the ray fields for Raycast) changes, and `q`'s run counter goes up by one. |
| EntityAwareness.EntityAwarenessComponent.RefreshQueryCache | Entities/Interaction/EntityAwarenessComponent.h:238-262 | The new frame id and mask are `Refreshed` of the old ones. Bit `q` is set. A new frame leaves the mask exactly `1 << q` and `q` has run once more. On the same frame the mask is the old one or-ed with `q`'s bit. A hit changes no state at all. The routine runs, and `q`'s own result changes, exactly on a miss. |
| EntityAwareness.EntityAwarenessComponent.SetProximityRadius | Entities/Interaction/EntityAwarenessComponent.h:57-61 | Stores the radius and applies line 60 as written: the Raycast and Proximity bits are cleared, the CloseBy and InFrontOf bits keep their values, and the frame id, run counters and all cached results are unchanged. |
| EntityAwareness.EntityAwarenessComponent.ProximityQuery | Entities/Interaction/EntityAwarenessComponent.h:64-69 | Refreshes Proximity and returns its list: the engine's list on a miss, the cached one on a hit. |
| EntityAwareness.EntityAwarenessComponent.NearQuery | Entities/Interaction/EntityAwarenessComponent.h:72-78 | Refreshes Proximity then CloseBy, leaving both valid for the current frame. Each routine runs exactly when its query was stale at the call. It returns the near list. |
| EntityAwareness.EntityAwarenessComponent.InFrontOfQuery | Entities/Interaction/EntityAwarenessComponent.h:370-376 | Refreshes Proximity then InFrontOf, leaving both valid for the current frame. Each routine runs exactly when its query was stale at the call. It returns the in-front list. |
| EntityAwareness.EntityAwarenessComponent.GetEntitiesInFrontOf | Entities/Interaction/EntityAwarenessComponent.h:132-135 | The in-front-of query under its public name, with its whole new state: both refreshes, both lists, the run counters, and the near list and ray fields unchanged. |
| EntityAwareness.EntityAwarenessComponent.GetEntityInFrontOf | Entities/Interaction/EntityAwarenessComponent.h:144-150 | After the in-front-of query, nothing when the list is empty, otherwise its first entity: the first of the engine's list when InFrontOf was stale, else of the cached list. The rest of the new state is that of the in-front-of query. |
| EntityAwareness.EntityAwarenessComponent.GetLookAtPoint | Entities/Interaction/EntityAwarenessComponent.h:90-103 | Refreshes Raycast, then selects by `LookAtPoint` from the ray fields as the refresh leaves them: the ray-cast routine's result on a miss, the cached fields on a hit. |
| EntityAwareness.EntityAwarenessComponent.GetLookAtEntityId | Entities/Interaction/EntityAwarenessComponent.h:106-111 | Refreshes Raycast, then selects by `LookAtEntityId` from the ray fields as the refresh leaves them. |
| EntityAwareness.EntityAwarenessComponent.RaycastQuery | Entities/Interaction/EntityAwarenessComponent.h:120-123 | The look-at point with the proximity radius as cut-off and glass not ignored, with the refresh's effect on the cache, the ray fields and the run counters. |
| EntityAwareness.EntityAwarenessComponent.OnRayCastDataReceived | Entities/Interaction/EntityAwarenessComponent.h:192-198 | The delivered result becomes the cached ray fields. The cache mask, frame id, lists and run counters are untouched. |
| EntityAwareness.EntityAwarenessComponent.ReplayStep | Entities/Interaction/EntityAwarenessComponent.h:57-61 | One call within a frame, a refresh or a radius change, moves the component's cache as `Next` says for line 60 as written. Only the refreshed query's run counter may grow, by one exactly on a miss. |
| EntityAwareness.EntityAwarenessComponent.Replay | Entities/Interaction/EntityAwarenessComponent.h:238-262 | Any run of refreshes and radius changes within one frame leaves the cache at `After` of the old cache. Each run counter grows by exactly `Runs` for line 60 as written, so on the component itself the CloseBy and InFrontOf routines run at most once in the frame. |

## Left out

- The bodies of `UpdateRaycastQuery`, `UpdateProximityQuery`, `UpdateNearQuery`, `UpdateInFrontOfQuery`, `OnRayCastDataReceived`, `GetRaySlot`, `GetSlotForRay` and `GetNearDotFiltered`: the source only declares them. Their work (physics ray casts, AABB and OBB tests, registry lookups) belongs to the engine. The update routines and the callback are opaque effects, as described above. `GetNearDotFiltered` and the slot lookups are not modelled.
- The in-flight ray table `m_queuedRays`, `maxQueuedRays`, `m_requestCounter` and `m_timeLastDeferredResult`: their use is in code that is not shown. Only `SRayInfo` and its `Reset` are modelled.
- The engine ray caster's reset (inside `SRayInfo::Reset`) is counted by a ghost counter; what it does is not modelled.
- `GetEntityInFrontOf` returns the entity id it would look up; the lookup itself, `gEnv->pEntitySystem->GetEntity`, is an engine service.
- `GetPos`, `GetDir`, the eye position and direction: floating-point geometry that no modelled operation reads.
- Floating point: distances, the cut-off and the radius are exact reals. IEEE rounding, NaN and infinities are not modelled. A `ray_hit` is reduced to its `dist`.
- `m_renderFrameId` is a C++ `int`; the model compares frame ids only for equality, so no wrap-around arises.
- `Init`, `PostInit`, `FullSerialize`, `Update`, `GetMemoryUsage`, `GetCVars`, the destructor and the debug bits: engine extension plumbing with no bodies shown.
- The other repository files (actor character glue, first-person and camera-manager components, mount stubs, controlled-animation and examine-camera declarations): delegation to the engine, with no cache or selection logic.
- Concurrency: the deferred ray's result arrives on a worker thread and is posted to the main thread by the engine. The model treats the callback as one more sequential call.
- `ProximityQuery` and `NearQuery` return the list as a value. The source returns a non-const `Entities&` alias of the component's own field (lines 64 and 72), so a caller may edit the cached list in place and the next cache hit would return the edited list; that aliasing is not modelled. `InFrontOfQuery` and `GetEntitiesInFrontOf` return a `const` reference (lines 132 and 370). A value models what the caller reads before the next refresh. A caller that keeps the reference would see later refreshes change the list, which is not modelled.
- EntityAwareness.EntityAwarenessComponent.GetLookAtPoint: the default arguments `maxDistance = 0.0f` and `ignoreGlass = false` (line 90) are ordinary parameters; a caller that omits them is modelled by passing `0.0` and `false`.
- EntityAwareness.EntityAwarenessComponent.GetLookAtEntityId: the default argument `ignoreGlass = false` (line 106) is an ordinary parameter; a caller that omits it passes `false`.
- The dispatch table `m_updateQueryFunctions` (used at line 258, declared at line 292) has no contents in the source. The model takes it to map Raycast, Proximity, CloseBy and InFrontOf to `UpdateRaycastQuery`, `UpdateProximityQuery`, `UpdateNearQuery` and `UpdateInFrontOfQuery`, in enumerator order, as the comment at line 202 asks.
- The ray-cast routine's effect on the ray fields is the opaque `cast` parameter. Whether the result arrives during the call or later through `OnRayCastDataReceived` is up to the caller of the model.

## Findings

| source | as written | input that shows it | evidently intended | confidence | as-written member | corrected member |
|---|---|---|---|---|---|---|
| Entities/Interaction/EntityAwarenessComponent.h:60 | `m_validQueries &= ~(eWQ_Proximity | eWQ_InFrontOf)` or-s the enumerator values `1 | 3`, giving `3`, so it clears the Raycast and Proximity bits (`1 << 0`, `1 << 1`) and leaves InFrontOf valid. | All four queries valid on the current frame (mask `0xF`), then `SetProximityRadius`: the mask becomes `0xC`. The in-front-of list therefore keeps the result for the old radius: `[Refresh(InFrontOf), SetRadius, Refresh(InFrontOf)]` runs the in-front-of routine once. And `[Refresh(Raycast), SetRadius, Refresh(Raycast)]` runs the ray-cast routine twice, although that routine casts a fixed `forwardCastDistance` (line 331) and the radius is applied only when selecting the hit (lines 115 and 122). | `m_validQueries &= ~((1u << eWQ_Proximity) | (1u << eWQ_InFrontOf))`: clear the two radius-dependent queries, as for `queryMask` at line 240. | not executed | QueryCache.InvalidatedAsWritten (with WorldQueries.EnumValuesOperand, QueryCache.InFrontOfKeptAsWritten, QueryCache.RaycastRerunsAsWritten, QueryCache.InFrontOfNotRerunAsWritten) | QueryCache.Invalidated (with WorldQueries.ClearRadiusBits, QueryCache.InFrontOfRefreshedAsIntended, QueryCache.InFrontOfRerunsAsIntended) |

The class method `SetProximityRadius` follows the code as written. The run-count lemmas in `QueryCache` take the reading (`Clearing.AsWritten` or `Clearing.Intended`) as a parameter, so each property is proved for both.
