/// The helical-sweep primitive: a cylindrical spiral between a begin face
/// and an end face. Two ordered argument gates come first, then guarded
/// engine steps that write the spiral's fixed settings.
module Spins {
  import opened ErrorCodes
  import opened KompasEngine

  /** A point in the sketch plane together with the error code of its own
      construction. */
  datatype LocationPoint = LocationPoint(x: real, y: real, lastErrorCode: ErrorCode)

  /** What a spiral is built from. The part is dereferenced without a check,
      so it is never null. */
  datatype SpinParameters = SpinParameters(
    document3DPart: Part,
    beginSpinFace: Entity?,
    endSpinFace: Entity?,
    spinLocationPoint: LocationPoint,
    diameterSize: real,
    spinStep: real)

  /** The first gate: a missing face, a failed location point, or a zero or
      refused diameter or step. */
  predicate MissingArgument(p: SpinParameters, valid: real -> bool) {
    || p.beginSpinFace == null
    || p.endSpinFace == null
    || p.spinLocationPoint.lastErrorCode != OK
    || p.diameterSize == 0.0
    || !valid(p.diameterSize)
    || p.spinStep == 0.0
    || !valid(p.spinStep)
  }

  /** The second gate: a non-positive or refused diameter, or a refused
      location coordinate. */
  predicate BadValue(p: SpinParameters, valid: real -> bool) {
    || p.diameterSize <= 0.0
    || !valid(p.diameterSize)
    || !valid(p.spinLocationPoint.x)
    || !valid(p.spinLocationPoint.y)
  }

  /** The code the two argument gates record, ArgumentNull first; OK when
      both let the parameters through. */
  function ArgumentCode(p: SpinParameters, valid: real -> bool): (code: ErrorCode)
    ensures code == OK <==>
              && p.beginSpinFace != null && p.endSpinFace != null
              && p.spinLocationPoint.lastErrorCode == OK
              && p.diameterSize > 0.0 && p.spinStep != 0.0
              && valid(p.diameterSize) && valid(p.spinStep)
              && valid(p.spinLocationPoint.x) && valid(p.spinLocationPoint.y)
    ensures code == DoubleValueValidationError <==>
              !MissingArgument(p, valid)
              && (p.diameterSize < 0.0 || !valid(p.spinLocationPoint.x) || !valid(p.spinLocationPoint.y))
    ensures code == OK || code == ArgumentNull || code == DoubleValueValidationError
  {
    if MissingArgument(p, valid) then ArgumentNull
    else if BadValue(p, valid) then DoubleValueValidationError
    else OK
  }

  /** Whether CreateSpin gets as far as writing the spiral's settings: the
      part hands out a spiral entity with a definition. */
  predicate SettingsReached(part: Part) {
    part.newSpiral != null && part.newSpiral.spiralDefinition != null
  }

  /** The code a Spin ends with: the gates' code, then ArgumentNull for a
      missing spiral or definition, then EntityCreateError when the engine
      refuses the location or the creation. */
  function SpinCode(p: SpinParameters, valid: real -> bool): (code: ErrorCode)
    ensures ArgumentCode(p, valid) != OK ==> code == ArgumentCode(p, valid)
    ensures code == OK <==>
              && ArgumentCode(p, valid) == OK && SettingsReached(p.document3DPart)
              && p.document3DPart.newSpiral.spiralDefinition.acceptsLocation
              && p.document3DPart.newSpiral.createSucceeds
    ensures code == EntityCreateError <==>
              && ArgumentCode(p, valid) == OK && SettingsReached(p.document3DPart)
              && !(p.document3DPart.newSpiral.spiralDefinition.acceptsLocation
                   && p.document3DPart.newSpiral.createSucceeds)
  {
    var part := p.document3DPart;
    if ArgumentCode(p, valid) != OK then ArgumentCode(p, valid)
    else if part.newSpiral == null || part.newSpiral.spiralDefinition == null then ArgumentNull
    else if !part.newSpiral.spiralDefinition.acceptsLocation then EntityCreateError
    else if !part.newSpiral.createSucceeds then EntityCreateError
    else OK
  }

  /** The step need only be non-zero and valid: a negative step passes both
      gates, while a negative diameter does not. */
  lemma NegativeStepPasses(p: SpinParameters, valid: real -> bool)
    requires p.beginSpinFace != null && p.endSpinFace != null
    requires p.spinLocationPoint.lastErrorCode == OK
    requires p.diameterSize > 0.0 && p.spinStep < 0.0
    requires valid(p.diameterSize) && valid(p.spinStep)
    requires valid(p.spinLocationPoint.x) && valid(p.spinLocationPoint.y)
    ensures ArgumentCode(p, valid) == OK
    ensures ArgumentCode(p.(diameterSize := -p.diameterSize), valid) != OK
  {
  }

  /** The objects of the part's new spiral that building a Spin may
      change: the entity and its definition. */
  function SpiralFootprint(part: Part): set<object> {
    if part.newSpiral == null then {}
    else if part.newSpiral.spiralDefinition == null then {part.newSpiral}
    else {part.newSpiral, part.newSpiral.spiralDefinition}
  }

  /** The fixed settings CreateSpin writes into a spiral definition. */
  ghost predicate HasSpinSettings(d: SpiralDefinition, p: SpinParameters)
    reads d
  {
    && d.plane == p.beginSpinFace
    && d.buildDir == true
    && d.buildMode == 1
    && d.diamType == 0
    && d.diam == p.diameterSize
    && d.heightType == 1
    && d.heightObject == p.endSpinFace
    && d.turnDir == true
    && d.step == p.spinStep
  }

  /** Spin: the last error code, the created spiral and its step as read
      back from the definition. */
  class Spin {
    var lastErrorCode: ErrorCode
    var entity: Entity?
    var spinStep: real

    /** The code, entity and step follow SpinCode; the settings are written
        exactly when both gates pass and the part hands out a spiral with a
        definition, and nothing of the spiral changes otherwise. */
    constructor (parameters: SpinParameters, valid: real -> bool)
      modifies SpiralFootprint(parameters.document3DPart)
      ensures lastErrorCode == SpinCode(parameters, valid)
      ensures lastErrorCode == OK ==> entity == parameters.document3DPart.newSpiral
      ensures lastErrorCode == OK ==> spinStep == parameters.document3DPart.newSpiral.spiralDefinition.resolveStep(parameters.spinStep)
      ensures lastErrorCode == OK ==> entity.created
      ensures lastErrorCode == OK ==>
                parameters.document3DPart.newSpiral.spiralDefinition.location == Some((parameters.spinLocationPoint.x, parameters.spinLocationPoint.y))
      ensures lastErrorCode != OK ==> entity == null && spinStep == 0.0
      ensures ArgumentCode(parameters, valid) == OK && SettingsReached(parameters.document3DPart) ==>
                HasSpinSettings(parameters.document3DPart.newSpiral.spiralDefinition, parameters)
      ensures ArgumentCode(parameters, valid) == OK && SettingsReached(parameters.document3DPart) ==>
                var spiral := parameters.document3DPart.newSpiral;
                spiral.spiralDefinition.location
                  == if spiral.spiralDefinition.acceptsLocation
                     then Some((parameters.spinLocationPoint.x, parameters.spinLocationPoint.y))
                     else old(spiral.spiralDefinition.location)
      ensures ArgumentCode(parameters, valid) == OK && SettingsReached(parameters.document3DPart) ==>
                var spiral := parameters.document3DPart.newSpiral;
                spiral.created == (old(spiral.created) || (spiral.spiralDefinition.acceptsLocation && spiral.createSucceeds))
      ensures ArgumentCode(parameters, valid) != OK || !SettingsReached(parameters.document3DPart) ==>
                unchanged(SpiralFootprint(parameters.document3DPart))
      ensures ArgumentCode(parameters, valid) == OK && SettingsReached(parameters.document3DPart)
              && !parameters.document3DPart.newSpiral.spiralDefinition.acceptsLocation ==>
                unchanged(parameters.document3DPart.newSpiral)
    {
      lastErrorCode := OK;
      entity := null;
      spinStep := 0.0;
      new;
      if MissingArgument(parameters, valid) {
        lastErrorCode := ArgumentNull;
        return;
      }
      if BadValue(parameters, valid) {
        lastErrorCode := DoubleValueValidationError;
        return;
      }
      var ok := CreateSpin(parameters);
    }

    /** The engine steps: a new spiral entity, its definition, the fixed
        settings, SetLocation and Create (the latter only when SetLocation
        succeeds). The first failure records its code; success records the
        entity and the step read back from the definition, and leaves the
        code as it was. */
    method CreateSpin(parameters: SpinParameters) returns (ok: bool)
      requires parameters.beginSpinFace != null && parameters.endSpinFace != null
      modifies this`lastErrorCode, this`entity, this`spinStep, SpiralFootprint(parameters.document3DPart)
      ensures var part := parameters.document3DPart;
              ok <==> SettingsReached(part) && part.newSpiral.spiralDefinition.acceptsLocation
                      && part.newSpiral.createSucceeds
      ensures !SettingsReached(parameters.document3DPart) ==>
                !ok && lastErrorCode == ArgumentNull && unchanged(SpiralFootprint(parameters.document3DPart))
      ensures SettingsReached(parameters.document3DPart) ==>
                HasSpinSettings(parameters.document3DPart.newSpiral.spiralDefinition, parameters)
      ensures SettingsReached(parameters.document3DPart) && !ok ==> lastErrorCode == EntityCreateError
      ensures SettingsReached(parameters.document3DPart) ==>
                var spiral := parameters.document3DPart.newSpiral;
                spiral.spiralDefinition.location
                  == if spiral.spiralDefinition.acceptsLocation
                     then Some((parameters.spinLocationPoint.x, parameters.spinLocationPoint.y))
                     else old(spiral.spiralDefinition.location)
      ensures SettingsReached(parameters.document3DPart) ==>
                var spiral := parameters.document3DPart.newSpiral;
                spiral.created == (old(spiral.created) || (spiral.spiralDefinition.acceptsLocation && spiral.createSucceeds))
      ensures SettingsReached(parameters.document3DPart)
              && !parameters.document3DPart.newSpiral.spiralDefinition.acceptsLocation ==>
                unchanged(parameters.document3DPart.newSpiral)
      ensures ok ==> lastErrorCode == old(lastErrorCode) && entity == parameters.document3DPart.newSpiral
      ensures ok ==> entity.created && spinStep == parameters.document3DPart.newSpiral.spiralDefinition.resolveStep(parameters.spinStep)
      ensures ok ==>
                parameters.document3DPart.newSpiral.spiralDefinition.location == Some((parameters.spinLocationPoint.x, parameters.spinLocationPoint.y))
      ensures !ok ==> entity == old(entity) && spinStep == old(spinStep)
    {
      var spin := parameters.document3DPart.NewEntity(CylindricSpiral);
      if spin == null {
        lastErrorCode := ArgumentNull;
        return false;
      }
      var spinDefinition := spin.spiralDefinition;
      if spinDefinition == null {
        lastErrorCode := ArgumentNull;
        return false;
      }

      spinDefinition.SetPlane(parameters.beginSpinFace);
      spinDefinition.buildDir := true;
      spinDefinition.buildMode := 1;
      spinDefinition.diamType := 0;
      spinDefinition.diam := parameters.diameterSize;
      spinDefinition.heightType := 1;
      spinDefinition.SetHeightObject(parameters.endSpinFace);
      spinDefinition.turnDir := true;
      spinDefinition.step := parameters.spinStep;
      assert HasSpinSettings(spinDefinition, parameters);

      var located := spinDefinition.SetLocation(parameters.spinLocationPoint.x, parameters.spinLocationPoint.y);
      if !located {
        lastErrorCode := EntityCreateError;
        return false;
      }
      var created := spin.Create();
      if !created {
        lastErrorCode := EntityCreateError;
        return false;
      }

      entity := spin;
      spinStep := spinDefinition.ReadStep();
      return true;
    }
  }
}
