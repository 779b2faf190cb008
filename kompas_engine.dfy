/// The part of the KOMPAS engine the screw builder talks to, reduced to an
/// oracle: each engine object carries, as constants, the answers the engine
/// gives (which entity NewEntity hands out, which definition an entity has,
/// whether Create and SetLocation succeed). The definitions are objects whose
/// settings the builder writes field by field.
module KompasEngine {
  import opened ErrorCodes

  /** The engine's object kinds the builder names. */
  datatype Obj3dType =
    | Unknown
    | PlaneXOY
    | PlaneXOZ
    | PlaneYOZ
    | AxisOX
    | AxisOY
    | AxisOZ
    | Face
    | Edge
    | Sketch
    | CylindricSpiral

  /** The editable 2D document of a sketch. */
  class Document2D {
    constructor ()
    {
    }
  }

  /** A sketch definition: the plane the sketch lies on and whether it is
      open for editing. */
  class SketchDefinition {
    var plane: Entity?
    var editing: bool
    const document: Document2D

    constructor (document: Document2D)
      ensures this.document == document
      ensures plane == null && !editing
    {
      this.document := document;
      plane := null;
      editing := false;
    }

    method SetPlane(p: Entity)
      modifies this`plane
      ensures plane == p
    {
      plane := p;
    }

    /** Opens the sketch and hands out its 2D document. */
    method BeginEdit() returns (doc: Document2D)
      modifies this`editing
      ensures editing && doc == document
    {
      editing := true;
      doc := document;
    }

    method EndEdit()
      modifies this`editing
      ensures !editing
    {
      editing := false;
    }
  }

  /** A cylindrical spiral definition with the settings the builder writes.
      acceptsLocation is the engine's answer to SetLocation; resolveStep is
      how the engine turns the step written into the step it reports. */
  class SpiralDefinition {
    var plane: Entity?
    var buildDir: bool
    var buildMode: int
    var diamType: int
    var diam: real
    var heightType: int
    var heightObject: Entity?
    var turnDir: bool
    var step: real   // the step last written
    var location: Option<(real, real)>
    const acceptsLocation: bool
    const resolveStep: real -> real

    constructor (acceptsLocation: bool, resolveStep: real -> real)
      ensures this.acceptsLocation == acceptsLocation && this.resolveStep == resolveStep
      ensures plane == null && heightObject == null && location == None
    {
      this.acceptsLocation := acceptsLocation;
      this.resolveStep := resolveStep;
      plane := null;
      heightObject := null;
      location := None;
    }

    method SetPlane(p: Entity)
      modifies this`plane
      ensures plane == p
    {
      plane := p;
    }

    /** The step the engine reports when it is read. */
    function ReadStep(): real
      reads this
    {
      resolveStep(step)
    }

    method SetHeightObject(e: Entity)
      modifies this`heightObject
      ensures heightObject == e
    {
      heightObject := e;
    }

    /** Places the spiral's axis; the engine may refuse. */
    method SetLocation(x: real, y: real) returns (ok: bool)
      modifies this`location
      ensures ok == acceptsLocation
      ensures location == if ok then Some((x, y)) else old(location)
    {
      ok := acceptsLocation;
      if ok {
        location := Some((x, y));
      }
    }
  }

  /** An engine entity (plane, face, sketch, spiral). Its definitions are
      what GetDefinition answers for the sketch and the spiral kind;
      createSucceeds is what Create answers. */
  class Entity {
    const sketchDefinition: SketchDefinition?
    const spiralDefinition: SpiralDefinition?
    const createSucceeds: bool
    var created: bool

    constructor (sketchDefinition: SketchDefinition?, spiralDefinition: SpiralDefinition?, createSucceeds: bool)
      ensures this.sketchDefinition == sketchDefinition
      ensures this.spiralDefinition == spiralDefinition
      ensures this.createSucceeds == createSucceeds
      ensures !created
    {
      this.sketchDefinition := sketchDefinition;
      this.spiralDefinition := spiralDefinition;
      this.createSucceeds := createSucceeds;
      created := false;
    }

    /** Builds the entity in the part; the engine may refuse. */
    method Create() returns (ok: bool)
      modifies this`created
      ensures ok == createSucceeds
      ensures created == (old(created) || ok)
    {
      ok := createSucceeds;
      created := created || ok;
    }
  }

  /** A 3D part: which new entity it hands out for a sketch and for a
      spiral, and its default entity (the datum planes) for each kind. */
  class Part {
    const newSketch: Entity?
    const newSpiral: Entity?
    const defaultEntity: Obj3dType -> Entity?

    constructor (newSketch: Entity?, newSpiral: Entity?, defaultEntity: Obj3dType -> Entity?)
      ensures this.newSketch == newSketch && this.newSpiral == newSpiral
      ensures this.defaultEntity == defaultEntity
    {
      this.newSketch := newSketch;
      this.newSpiral := newSpiral;
      this.defaultEntity := defaultEntity;
    }

    /** The new entity of the given kind; null for kinds the builder does
        not create. */
    method NewEntity(kind: Obj3dType) returns (e: Entity?)
      ensures kind == Sketch ==> e == newSketch
      ensures kind == CylindricSpiral ==> e == newSpiral
      ensures kind != Sketch && kind != CylindricSpiral ==> e == null
    {
      e := if kind == Sketch then newSketch
           else if kind == CylindricSpiral then newSpiral
           else null;
    }
  }
}
