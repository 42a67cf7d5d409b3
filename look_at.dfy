/**
 Choosing what the actor is looking at from the cached result of the forward ray: the
 first pierceable (glass-like) hit or the solid hit, and a distance cut-off.
 */
module LookAt {
  import opened Wrappers

  /** A 32-bit engine entity id. */
  newtype EntityId = x: int | 0 <= x < 0x1_0000_0000

  /** The id no entity carries. */
  const InvalidEntityId: EntityId := 0

  /** A ray hit, reduced to its distance along the ray; a negative pierceable distance stands for no glass-like hit. */
  datatype RayHit = RayHit(dist: real)

  /** Which of the two cached hits a look-at result designates. */
  datatype HitKind = SolidHit | PierceableHit

  /** The fields the forward ray's results are cached in. */
  datatype RayCache = RayCache(hitAny: bool, solid: RayHit, pierceable: RayHit, lookAtEntityId: EntityId)
  {
    function Hit(kind: HitKind): RayHit {
      match kind
      case SolidHit => solid
      case PierceableHit => pierceable
    }
  }

  /** The glass-like hit is preferred when it is not ignored and is a real hit. */
  predicate PrefersPierceable(ray: RayCache, ignoreGlass: bool) {
    !ignoreGlass && ray.pierceable.dist >= 0.0
  }

  /** `GetLookAtPoint`'s choice: the designated hit, or nothing (a null pointer). */
  function LookAtPoint(ray: RayCache, maxDistance: real, ignoreGlass: bool): (r: Option<HitKind>)
    ensures r == Some(PierceableHit) <==>
              ray.hitAny && !ignoreGlass && ray.pierceable.dist >= 0.0
              && (maxDistance <= 0.0 || ray.pierceable.dist <= maxDistance)
    ensures r == Some(SolidHit) <==>
              ray.hitAny && (ignoreGlass || ray.pierceable.dist < 0.0)
              && (maxDistance <= 0.0 || ray.solid.dist <= maxDistance)
  {
    if ray.hitAny then
      var hit := if PrefersPierceable(ray, ignoreGlass) then PierceableHit else SolidHit;
      if maxDistance <= 0.0 || ray.Hit(hit).dist <= maxDistance then Some(hit) else None
    else
      None
  }

  /** `GetLookAtEntityId`: no entity while a glass-like hit stands in front of it. */
  function LookAtEntityId(ray: RayCache, ignoreGlass: bool): (id: EntityId)
    ensures ignoreGlass ==> id == ray.lookAtEntityId
    ensures id == ray.lookAtEntityId || id == InvalidEntityId
    ensures id == InvalidEntityId <==> PrefersPierceable(ray, ignoreGlass) || ray.lookAtEntityId == InvalidEntityId
  {
    if PrefersPierceable(ray, ignoreGlass) then InvalidEntityId else ray.lookAtEntityId
  }

  /** A designated hit lies within the cut-off whenever there is one. */
  lemma WithinMaxDistance(ray: RayCache, maxDistance: real, ignoreGlass: bool)
    requires LookAtPoint(ray, maxDistance, ignoreGlass).Some?
    ensures maxDistance > 0.0 ==> ray.Hit(LookAtPoint(ray, maxDistance, ignoreGlass).value).dist <= maxDistance
  {
  }

  /** Nothing is designated before the ray has hit anything. */
  lemma NoHitNoPoint(ray: RayCache, maxDistance: real, ignoreGlass: bool)
    requires !ray.hitAny
    ensures LookAtPoint(ray, maxDistance, ignoreGlass) == None
  {
  }

  /** Ignoring glass never designates the pierceable hit. */
  lemma IgnoreGlassNeverPierceable(ray: RayCache, maxDistance: real)
    ensures LookAtPoint(ray, maxDistance, true) != Some(PierceableHit)
  {
  }

  /**
   A glass-like hit beyond the cut-off is not replaced by the solid hit behind it: the result is
   then nothing at all.
   */
  lemma NoFallBackToSolid(ray: RayCache, maxDistance: real, ignoreGlass: bool)
    requires PrefersPierceable(ray, ignoreGlass)
    ensures LookAtPoint(ray, maxDistance, ignoreGlass) != Some(SolidHit)
  {
  }

  /** A cut-off of zero or less means no cut-off: some hit is designated exactly when the ray hit. */
  lemma NoCutOff(ray: RayCache, maxDistance: real, ignoreGlass: bool)
    requires maxDistance <= 0.0
    ensures LookAtPoint(ray, maxDistance, ignoreGlass).Some? <==> ray.hitAny
  {
  }

  /** Raising a positive cut-off keeps every result it already gave. */
  lemma CutOffMonotone(ray: RayCache, d1: real, d2: real, ignoreGlass: bool)
    requires 0.0 < d1 <= d2
    ensures LookAtPoint(ray, d1, ignoreGlass).Some? ==>
              LookAtPoint(ray, d2, ignoreGlass) == LookAtPoint(ray, d1, ignoreGlass)
  {
  }

  /** Point and entity agree: when the glass-like hit is the look-at point, no entity is reported. */
  lemma PointAndEntityAgree(ray: RayCache, maxDistance: real, ignoreGlass: bool)
    ensures LookAtPoint(ray, maxDistance, ignoreGlass) == Some(PierceableHit) ==>
              LookAtEntityId(ray, ignoreGlass) == InvalidEntityId
    ensures LookAtPoint(ray, maxDistance, ignoreGlass) == Some(SolidHit) ==>
              LookAtEntityId(ray, ignoreGlass) == ray.lookAtEntityId
  {
  }

  /** `GetEntityInFrontOf`'s rule: the first entity in front, or nothing for an empty list. */
  function FirstInFrontOf(entities: seq<EntityId>): (r: Option<EntityId>)
    ensures r.None? <==> |entities| == 0
    ensures r.Some? ==> r.value in entities && r.value == entities[0]
  {
    if |entities| == 0 then None else Some(entities[0])
  }
}
