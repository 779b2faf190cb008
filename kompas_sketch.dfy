/// The sketch primitive: a sketch on an explicit plane or on one of the
/// part's three datum planes, created through a chain of guarded engine
/// steps, each failure of which records its own error code.
module Sketches {
  import opened ErrorCodes
  import opened KompasEngine

  /** The three datum planes a sketch may be placed on by axis. */
  predicate IsCanonicalPlane(axis: Obj3dType) {
    axis == PlaneXOY || axis == PlaneXOZ || axis == PlaneYOZ
  }

  /** What a sketch ends up with: its code (OK when no failure was
      recorded), its entity and its recorded definition. */
  datatype Creation = Creation(code: ErrorCode, entity: Entity?, definition: SketchDefinition?)

  /** Whether CreateEntity gets as far as setting the plane of the new
      sketch's definition. */
  predicate PlaneReached(part: Part, plane: Entity?) {
    part.newSketch != null && part.newSketch.sketchDefinition != null && plane != null
  }

  /** The objects of the part's new sketch that creating a sketch may
      change: the entity and its definition. */
  function SketchFootprint(part: Part?): set<object> {
    if part == null || part.newSketch == null then {}
    else if part.newSketch.sketchDefinition == null then {part.newSketch}
    else {part.newSketch, part.newSketch.sketchDefinition}
  }

  /** What CreateEntity leaves, given the plane GetBasePlane chose: a null
      sketch, definition or plane is ArgumentNull, a refused Create is
      EntityCreateError, and only success yields an entity and a
      definition. */
  function CreationOutcome(part: Part, plane: Entity?): (c: Creation)
    ensures c.code == OK <==> PlaneReached(part, plane) && part.newSketch.createSucceeds
    ensures c.code == EntityCreateError <==> PlaneReached(part, plane) && !part.newSketch.createSucceeds
    ensures c.code == OK || c.code == ArgumentNull || c.code == EntityCreateError
    ensures c.code == OK ==> c.entity == part.newSketch && c.definition == part.newSketch.sketchDefinition
    ensures c.code != OK ==> c.entity == null && c.definition == null
  {
    var sketch := part.newSketch;
    if sketch == null then Creation(ArgumentNull, null, null)
    else if sketch.sketchDefinition == null then Creation(ArgumentNull, null, null)
    else if plane == null then Creation(ArgumentNull, null, null)
    else if !sketch.createSucceeds then Creation(EntityCreateError, null, null)
    else Creation(OK, sketch, sketch.sketchDefinition)
  }

  /** A sketch on an explicit plane: a null part or plane is ArgumentNull
      before any engine call. */
  function SketchOnPlane(part: Part?, plane: Entity?): (c: Creation)
    ensures part == null || plane == null ==> c == Creation(ArgumentNull, null, null)
    ensures c.code == OK <==> c.entity != null
    ensures c.entity != null <==> c.definition != null
    ensures c.code == OK ==> part != null && c.entity == part.newSketch && c.entity.sketchDefinition == c.definition
  {
    if part == null || plane == null then Creation(ArgumentNull, null, null)
    else CreationOutcome(part, plane)
  }

  /** A sketch on a datum plane named by its axis: a null part is
      ArgumentNull, any kind but the three datum planes ArgumentInvalid,
      both before any engine call; otherwise the part's default entity for
      that kind is the plane. */
  function SketchOnAxis(part: Part?, axis: Obj3dType): (c: Creation)
    ensures part == null ==> c == Creation(ArgumentNull, null, null)
    ensures part != null && !IsCanonicalPlane(axis) ==> c == Creation(ArgumentInvalid, null, null)
    ensures c.code == OK <==> c.entity != null
    ensures c.entity != null <==> c.definition != null
    ensures c.code == OK ==> IsCanonicalPlane(axis) && part.defaultEntity(axis) != null
    ensures c.code == OK ==> c.entity == part.newSketch && c.entity.sketchDefinition == c.definition
  {
    if part == null then Creation(ArgumentNull, null, null)
    else if !IsCanonicalPlane(axis) then Creation(ArgumentInvalid, null, null)
    else CreationOutcome(part, part.defaultEntity(axis))
  }

  /** An explicit plane takes precedence: the part's default entities are
      never consulted, so two parts that hand out the same new sketch give
      the same outcome whatever their datum planes. */
  lemma ExplicitPlaneIgnoresDefaults(part: Part, other: Part, plane: Entity)
    requires other.newSketch == part.newSketch
    ensures SketchOnPlane(part, plane) == SketchOnPlane(other, plane)
  {
  }

  /** A sketch on a datum plane is the sketch on the part's default entity
      for that kind, taken as an explicit plane; with no such entity it
      fails with ArgumentNull. */
  lemma AxisUsesDefaultEntity(part: Part, axis: Obj3dType)
    requires IsCanonicalPlane(axis)
    ensures part.defaultEntity(axis) != null ==> SketchOnAxis(part, axis) == SketchOnPlane(part, part.defaultEntity(axis))
    ensures part.defaultEntity(axis) == null ==> SketchOnAxis(part, axis) == Creation(ArgumentNull, null, null)
  {
  }

  /** KompasSketch: the last error code, the plane or axis it was asked
      for, and the entity and definition recorded on success. */
  class KompasSketch {
    var lastErrorCode: ErrorCode
    var basePlane: Entity?
    var basePlaneAxis: Obj3dType
    var sketchDef: SketchDefinition?
    var entity: Entity?

    /** An entity exists iff a definition was recorded iff no failure was
        recorded, and the definition is the entity's own. */
    ghost predicate Valid()
      reads this
    {
      && (entity != null <==> sketchDef != null)
      && (sketchDef != null <==> lastErrorCode == OK)
      && (entity != null ==> entity.sketchDefinition == sketchDef)
    }

    /** The sketch on an explicit plane. */
    constructor FromPlane(part: Part?, plane: Entity?)
      modifies SketchFootprint(part)
      ensures Valid()
      ensures lastErrorCode == SketchOnPlane(part, plane).code
      ensures entity == SketchOnPlane(part, plane).entity
      ensures sketchDef == SketchOnPlane(part, plane).definition
      ensures basePlane == if part == null then null else plane
      ensures part != null && PlaneReached(part, plane) ==> part.newSketch.sketchDefinition.plane == plane
      ensures part != null && PlaneReached(part, plane) ==>
                part.newSketch.sketchDefinition.editing == old(part.newSketch.sketchDefinition.editing)
                && part.newSketch.created == (old(part.newSketch.created) || part.newSketch.createSucceeds)
      ensures part == null || !PlaneReached(part, plane) ==> unchanged(SketchFootprint(part))
      ensures entity != null ==> entity.created
    {
      lastErrorCode := OK;
      basePlane := null;
      basePlaneAxis := Unknown;
      sketchDef := null;
      entity := null;
      new;
      if part == null || plane == null {
        lastErrorCode := ArgumentNull;
        return;
      }
      basePlane := plane;
      entity := CreateEntity(part);
    }

    /** The sketch on the datum plane of the given kind. */
    constructor FromAxis(part: Part?, axis: Obj3dType)
      modifies SketchFootprint(part)
      ensures Valid()
      ensures lastErrorCode == SketchOnAxis(part, axis).code
      ensures entity == SketchOnAxis(part, axis).entity
      ensures sketchDef == SketchOnAxis(part, axis).definition
      ensures basePlane == null
      ensures basePlaneAxis == if part != null && IsCanonicalPlane(axis) then axis else Unknown
      ensures part != null && IsCanonicalPlane(axis) && PlaneReached(part, part.defaultEntity(axis)) ==>
                part.newSketch.sketchDefinition.plane == part.defaultEntity(axis)
      ensures part != null && IsCanonicalPlane(axis) && PlaneReached(part, part.defaultEntity(axis)) ==>
                part.newSketch.sketchDefinition.editing == old(part.newSketch.sketchDefinition.editing)
                && part.newSketch.created == (old(part.newSketch.created) || part.newSketch.createSucceeds)
      ensures part == null || !IsCanonicalPlane(axis) ==> unchanged(SketchFootprint(part))
      ensures part != null && IsCanonicalPlane(axis) && !PlaneReached(part, part.defaultEntity(axis)) ==>
                unchanged(SketchFootprint(part))
      ensures entity != null ==> entity.created
    {
      lastErrorCode := OK;
      basePlane := null;
      basePlaneAxis := Unknown;
      sketchDef := null;
      entity := null;
      new;
      if part == null {
        lastErrorCode := ArgumentNull;
        return;
      }
      if !IsCanonicalPlane(axis) {
        lastErrorCode := ArgumentInvalid;
        return;
      }
      basePlaneAxis := axis;
      entity := CreateEntity(part);
    }

    /** Opens the recorded definition for editing; without one, records
        EntityDefinitionNull and hands out nothing. */
    method BeginEntityEdit() returns (doc: Document2D?)
      requires Valid()
      modifies this`lastErrorCode, sketchDef
      ensures Valid()
      ensures sketchDef == null ==> doc == null && lastErrorCode == EntityDefinitionNull
      ensures sketchDef != null ==> doc == sketchDef.document && sketchDef.editing
      ensures sketchDef != null ==> lastErrorCode == old(lastErrorCode)
      ensures sketchDef != null ==> sketchDef.plane == old(sketchDef.plane)
    {
      if sketchDef == null {
        lastErrorCode := EntityDefinitionNull;
        return null;
      }
      doc := sketchDef.BeginEdit();
    }

    /** Closes the recorded definition; the source does not guard this, so
        a definition must have been recorded. */
    method EndEntityEdit()
      requires sketchDef != null
      modifies sketchDef`editing
      ensures !sketchDef.editing
    {
      sketchDef.EndEdit();
    }

    /** The engine steps: a new sketch entity, its definition, the base
        plane, SetPlane, Create. The first failure records its code and
        yields null; success records the definition and yields the
        entity. */
    method CreateEntity(part: Part) returns (sketch: Entity?)
      modifies this`lastErrorCode, this`sketchDef, SketchFootprint(part)
      ensures sketch == CreationOutcome(part, GetBasePlane(part)).entity
      ensures CreationOutcome(part, GetBasePlane(part)).code == OK ==>
                lastErrorCode == old(lastErrorCode) && sketchDef == part.newSketch.sketchDefinition
      ensures CreationOutcome(part, GetBasePlane(part)).code != OK ==>
                lastErrorCode == CreationOutcome(part, GetBasePlane(part)).code && sketchDef == old(sketchDef)
      ensures PlaneReached(part, GetBasePlane(part)) ==> part.newSketch.sketchDefinition.plane == GetBasePlane(part)
      ensures PlaneReached(part, GetBasePlane(part)) ==>
                part.newSketch.sketchDefinition.editing == old(part.newSketch.sketchDefinition.editing)
                && part.newSketch.created == (old(part.newSketch.created) || part.newSketch.createSucceeds)
      ensures !PlaneReached(part, GetBasePlane(part)) ==> unchanged(SketchFootprint(part))
      ensures sketch != null ==> sketch.created
    {
      var newSketch := part.NewEntity(Obj3dType.Sketch);
      if newSketch == null {
        lastErrorCode := ArgumentNull;
        return null;
      }
      var definition := newSketch.sketchDefinition;
      if definition == null {
        lastErrorCode := ArgumentNull;
        return null;
      }
      var plane := GetBasePlane(part);
      if plane == null {
        lastErrorCode := ArgumentNull;
        return null;
      }
      definition.SetPlane(plane);
      var created := newSketch.Create();
      if !created {
        lastErrorCode := EntityCreateError;
        return null;
      }
      sketchDef := definition;
      return newSketch;
    }

    /** The plane the sketch goes on: the explicit plane when one was given,
        otherwise the part's default entity for the recorded axis. */
    function GetBasePlane(part: Part): Entity?
      reads this
    {
      if basePlane != null then basePlane else part.defaultEntity(basePlaneAxis)
    }
  }
}
