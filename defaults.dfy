/// The default dimension set of the screw builder and the form's path from
/// it to the validator.
module Defaults {
  import opened ErrorCodes
  import opened FigureParameters

  /** Default: the six dimensions, in the validator's order. */
  class Default {
    var diameter: real
    var slotDepth: real
    var smoothPart: real
    var threadPart: real
    var hatHeight: real
    var slotWidth: real

    /** Stores each argument in the field of the same position. */
    constructor (diam: real, slotD: real, smoothP: real, threadP: real, hatH: real, slotW: real)
      ensures diameter == diam && slotDepth == slotD && smoothPart == smoothP
      ensures threadPart == threadP && hatHeight == hatH && slotWidth == slotW
    {
      diameter := diam;
      slotDepth := slotD;
      smoothPart := smoothP;
      threadPart := threadP;
      hatHeight := hatH;
      slotWidth := slotW;
    }

    /** The standard screw: D = 27, m = 5, l = 15, b = 64, H = 10, n = 5.4. */
    constructor Standard()
      ensures diameter == 27.0 && slotDepth == 5.0 && smoothPart == 15.0
      ensures threadPart == 64.0 && hatHeight == 10.0 && slotWidth == 5.4
    {
      diameter := 27.0;
      slotDepth := 5.0;
      smoothPart := 15.0;
      threadPart := 64.0;
      hatHeight := 10.0;
      slotWidth := 5.4;
    }
  }

  /** The standard set in the validator's order D, m, l, b, H, n. */
  const StandardParameters: seq<real> := [27.0, 5.0, 15.0, 64.0, 10.0, 5.4]

  /** The standard set with another slot width. */
  function WithSlotWidth(n: real): seq<real>
  {
    StandardParameters[SlotWidth := n]
  }

  /** Every value of the standard set passes the gate, given that the
      double validator accepts these six ordinary numbers. */
  predicate AcceptsStandardValues(valid: real -> bool) {
    valid(27.0) && valid(5.0) && valid(15.0) && valid(64.0) && valid(10.0) && valid(5.4)
  }

  /** The standard set passes every check of the validator. */
  lemma StandardAccepted(valid: real -> bool)
    requires AcceptsStandardValues(valid)
    ensures ValidationMessages(StandardParameters, valid) == []
  {
    var ps := StandardParameters;
    AcceptedIff(ps, valid);
    assert forall i :: 0 <= i < |ps| ==> Admissible(ps[i], valid);
  }

  /** Slot width 5.4 sits exactly on the bound D / 5 of the standard set:
      with any slot width from 2 up to (but not including) 1000, the only
      check that can fail is the upper slot-width bound, and it fails
      exactly above 5.4. */
  lemma StandardSlotWidthIsTight(n: real, valid: real -> bool)
    requires AcceptsStandardValues(valid) && valid(n)
    requires 2.0 <= n < 1000.0
    ensures ValidationMessages(WithSlotWidth(n), valid) == if n > 5.4 then [SlotWidthAboveFifth(5.4)] else []
  {
    var ps := WithSlotWidth(n);
    assert ps == [27.0, 5.0, 15.0, 64.0, 10.0, n];
    assert forall i :: 0 <= i < |ps| ==> Admissible(ps[i], valid);
    GatePassing(ps, valid);
    assert forall r :: 0 <= r < RuleCount - 1 ==> !RuleBroken(ps, r);
    RulesUpToSilent(ps, RuleCount - 1);
    assert RuleMessages(ps) == RulesUpTo(ps, RuleCount - 1) + Report(n > 5.4, SlotWidthAboveFifth(5.4));
  }

  /** The form's six dimension inputs, holding the numbers their texts
      stand for. */
  class DimensionInputs {
    var screwHatWidth: real
    var screwHatInnerDiameter: real
    var screwBaseSmoothWidth: real
    var screwBaseThreadWidth: real
    var nutHeight: real
    var nutThreadDiameter: real

    constructor ()
    {
    }

    /** The list the form hands to the validator, read from the inputs in
        this order. */
    function ReadBack(): seq<real>
      reads this
    {
      [screwHatWidth, screwHatInnerDiameter, screwBaseSmoothWidth,
       screwBaseThreadWidth, nutHeight, nutThreadDiameter]
    }

    /** The Defaults button: a standard Default, each of its fields copied
        into one input. Read back, the inputs give the standard set, so each
        field reaches the validator's index of its own dimension. */
    method DefaultsClick()
      modifies this
      ensures ReadBack() == StandardParameters
    {
      var parametrs := new Default.Standard();
      screwHatWidth := parametrs.diameter;
      screwHatInnerDiameter := parametrs.slotDepth;
      screwBaseSmoothWidth := parametrs.smoothPart;
      screwBaseThreadWidth := parametrs.threadPart;
      nutHeight := parametrs.hatHeight;
      nutThreadDiameter := parametrs.slotWidth;
    }
  }

  /** The form's Defaults button followed by its Build button: the default
      fields go into the inputs, are read back, and the validator accepts
      them. */
  method ApplyDefaults(valid: real -> bool) returns (accepted: bool)
    requires AcceptsStandardValues(valid)
    ensures accepted
  {
    var form := new DimensionInputs();
    form.DefaultsClick();
    var validator := new FigureParametersValidator(form.ReadBack());
    if validator.lastErrorCode != OK {
      return false;
    }
    accepted := validator.Validate(valid);
    StandardAccepted(valid);
  }
}
