/// The parameter validator of the screw builder: a numeric gate over the six
/// dimensions, then fifteen independent range and cross-field rules, each of
/// which appends one message to the validator's error list.
module FigureParameters {
  import opened ErrorCodes

  // Positions of the six dimensions in the parameter list.
  const HatDiameter := 0   // D
  const SlotDepth := 1     // m
  const SmoothPart := 2    // l
  const ThreadPart := 3    // b
  const HatHeight := 4     // H
  const SlotWidth := 5     // n
  const ParameterCount := 6

  /** The messages the validator appends. The first four come from the
      numeric gate; the rest are the rules, in the order they are checked. */
  datatype Message =
    | ParameterNotPositive          // a value <= 0
    | ParameterBelowMinimum         // a value in (0, 0.1)
    | ParameterTooLarge             // a value >= 1000; the scan goes on
    | IncorrectParameterValue       // a value the double validator refuses
    | SlotDepthNotBelowHatHeight    // rule 0: m < H
    | HatHeightNotBelowShank        // rule 1: l + b > H
    | SmoothPartExceedsThreadPart   // rule 2: l <= b
    | HatDiameterBelow15            // rule 3
    | HatDiameterAbove45            // rule 4
    | SlotDepthBelow4               // rule 5
    | SlotDepthAbove8               // rule 6
    | SmoothPartBelow5              // rule 7
    | SmoothPartAbove35             // rule 8
    | ThreadPartBelow5              // rule 9
    | ThreadPartAbove80             // rule 10
    | HatHeightBelow6               // rule 11
    | HatHeightAbove20              // rule 12
    | SlotWidthBelow2               // rule 13
    | SlotWidthAboveFifth(bound: real)  // rule 14: n <= D / 5; carries D / 5

  // ---------------------------------------------------------------------
  // The numeric gate
  // ---------------------------------------------------------------------

  /** The messages the gate appended so far and whether the scan goes on. */
  datatype GateOutcome = GateOutcome(messages: seq<Message>, passed: bool)

  /** A value after which the gate's scan goes on (it may still be reported
      as too large). */
  predicate ScanContinues(p: real, valid: real -> bool) {
    0.1 <= p && valid(p)
  }

  /** A value the gate lets through without any message. */
  predicate Admissible(p: real, valid: real -> bool) {
    0.1 <= p < 1000.0 && valid(p)
  }

  /** The gate's verdict on one value, tests in source order: <= 0 and < 0.1
      stop the scan; >= 1000 is reported and the scan goes on; a value the
      double validator refuses stops the scan. */
  function CheckParameter(p: real, valid: real -> bool): (g: GateOutcome)
    ensures g.passed <==> ScanContinues(p, valid)
    ensures g.messages == [] <==> Admissible(p, valid)
    ensures 0.0 < p < 0.1 ==> g.messages == [ParameterBelowMinimum]
  {
    if p <= 0.0 then GateOutcome([ParameterNotPositive], false)
    else if p < 0.1 then GateOutcome([ParameterBelowMinimum], false)
    else
      var large := if p >= 1000.0 then [ParameterTooLarge] else [];
      if !valid(p) then GateOutcome(large + [IncorrectParameterValue], false)
      else GateOutcome(large, true)
  }

  /** The gate run over a list in index order: once a value stops the scan,
      nothing after it is looked at. */
  function Gate(ps: seq<real>, valid: real -> bool): GateOutcome
    decreases |ps|
  {
    if ps == [] then GateOutcome([], true)
    else
      var before := Gate(ps[..|ps| - 1], valid);
      if !before.passed then before
      else
        var last := CheckParameter(ps[|ps| - 1], valid);
        GateOutcome(before.messages + last.messages, last.passed)
  }

  /** One "too large" message per value of at least 1000, in list order. */
  function TooLargeMessages(ps: seq<real>): (r: seq<Message>)
    ensures forall k :: 0 <= k < |r| ==> r[k] == ParameterTooLarge
    ensures r == [] <==> forall i :: 0 <= i < |ps| ==> ps[i] < 1000.0
    decreases |ps|
  {
    if ps == [] then []
    else TooLargeMessages(ps[..|ps| - 1]) + (if ps[|ps| - 1] >= 1000.0 then [ParameterTooLarge] else [])
  }

  /** The gate lets a list through exactly when every value lets the scan go
      on, and says nothing exactly when every value lies in [0.1, 1000) and
      passes the double validator. */
  lemma {:induction false} GateVerdict(ps: seq<real>, valid: real -> bool)
    ensures Gate(ps, valid).passed <==> forall i :: 0 <= i < |ps| ==> ScanContinues(ps[i], valid)
    ensures Gate(ps, valid).messages == [] <==> forall i :: 0 <= i < |ps| ==> Admissible(ps[i], valid)
    decreases |ps|
  {
    if ps != [] {
      var init := ps[..|ps| - 1];
      GateVerdict(init, valid);
      assert forall i :: 0 <= i < |init| ==> init[i] == ps[i];
    }
  }

  /** After the scan has stopped, extending the list changes nothing. */
  lemma {:induction false} GateAfterFailure(ps: seq<real>, k: nat, valid: real -> bool)
    requires k <= |ps|
    requires !Gate(ps[..k], valid).passed
    ensures Gate(ps, valid) == Gate(ps[..k], valid)
    decreases |ps|
  {
    if k < |ps| {
      var init := ps[..|ps| - 1];
      assert init[..k] == ps[..k];
      GateAfterFailure(init, k, valid);
    } else {
      assert ps[..k] == ps;
    }
  }

  /** When no value stops the scan, the gate reports exactly one message per
      value of at least 1000, and nothing else. */
  lemma {:induction false} GatePassing(ps: seq<real>, valid: real -> bool)
    requires forall i :: 0 <= i < |ps| ==> ScanContinues(ps[i], valid)
    ensures Gate(ps, valid) == GateOutcome(TooLargeMessages(ps), true)
    decreases |ps|
  {
    if ps != [] {
      GatePassing(ps[..|ps| - 1], valid);
    }
  }

  /** The first value that stops the scan ends it: the messages are the
      "too large" reports of the values before it, then that value's own. */
  lemma GateStopsAt(ps: seq<real>, k: nat, valid: real -> bool)
    requires k < |ps|
    requires forall j :: 0 <= j < k ==> ScanContinues(ps[j], valid)
    requires !ScanContinues(ps[k], valid)
    ensures Gate(ps, valid) == GateOutcome(TooLargeMessages(ps[..k]) + CheckParameter(ps[k], valid).messages, false)
  {
    var upto := ps[..k + 1];
    assert upto[..k] == ps[..k];
    GatePassing(ps[..k], valid);
    GateAfterFailure(ps, k + 1, valid);
  }

  // ---------------------------------------------------------------------
  // The fifteen rules
  // ---------------------------------------------------------------------

  /** The nine constraints on an accepted dimension set, stated as limits. */
  predicate WithinLimits(ps: seq<real>)
    requires |ps| == ParameterCount
  {
    var d, m, l, b, h, n := ps[HatDiameter], ps[SlotDepth], ps[SmoothPart], ps[ThreadPart], ps[HatHeight], ps[SlotWidth];
    && m < h
    && l + b > h
    && l <= b
    && 15.0 <= d <= 45.0
    && 4.0 <= m <= 8.0
    && 5.0 <= l <= 35.0
    && 5.0 <= b <= 80.0
    && 6.0 <= h <= 20.0
    && 2.0 <= n <= d / 5.0
  }

  const RuleCount := 15

  /** Whether rule r, numbered in source order, is broken by ps. */
  predicate RuleBroken(ps: seq<real>, r: nat)
    requires |ps| == ParameterCount && r < RuleCount
  {
    var d, m, l, b, h, n := ps[HatDiameter], ps[SlotDepth], ps[SmoothPart], ps[ThreadPart], ps[HatHeight], ps[SlotWidth];
    match r
    case 0 => !(m < h)
    case 1 => l + b <= h
    case 2 => !(l <= b)
    case 3 => d < 15.0
    case 4 => d > 45.0
    case 5 => m < 4.0
    case 6 => m > 8.0
    case 7 => l < 5.0
    case 8 => l > 35.0
    case 9 => b < 5.0
    case 10 => b > 80.0
    case 11 => h < 6.0
    case 12 => h > 20.0
    case 13 => n < 2.0
    case _ => n > d / 5.0
  }

  /** The message rule r appends when it is broken. */
  function RuleMessage(ps: seq<real>, r: nat): (msg: Message)
    requires |ps| == ParameterCount && r < RuleCount
    ensures RuleIndex(msg) == r
  {
    match r
    case 0 => SlotDepthNotBelowHatHeight
    case 1 => HatHeightNotBelowShank
    case 2 => SmoothPartExceedsThreadPart
    case 3 => HatDiameterBelow15
    case 4 => HatDiameterAbove45
    case 5 => SlotDepthBelow4
    case 6 => SlotDepthAbove8
    case 7 => SmoothPartBelow5
    case 8 => SmoothPartAbove35
    case 9 => ThreadPartBelow5
    case 10 => ThreadPartAbove80
    case 11 => HatHeightBelow6
    case 12 => HatHeightAbove20
    case 13 => SlotWidthBelow2
    case _ => SlotWidthAboveFifth(ps[HatDiameter] / 5.0)
  }

  /** The position of a message's rule in source order; gate messages belong
      to no rule. */
  function RuleIndex(msg: Message): int {
    match msg
    case SlotDepthNotBelowHatHeight => 0
    case HatHeightNotBelowShank => 1
    case SmoothPartExceedsThreadPart => 2
    case HatDiameterBelow15 => 3
    case HatDiameterAbove45 => 4
    case SlotDepthBelow4 => 5
    case SlotDepthAbove8 => 6
    case SmoothPartBelow5 => 7
    case SmoothPartAbove35 => 8
    case ThreadPartBelow5 => 9
    case ThreadPartAbove80 => 10
    case HatHeightBelow6 => 11
    case HatHeightAbove20 => 12
    case SlotWidthBelow2 => 13
    case SlotWidthAboveFifth(_) => 14
    case _ => -1
  }

  /** A rule's message if the rule is broken, nothing otherwise. */
  function Report(broken: bool, msg: Message): seq<Message> {
    if broken then [msg] else []
  }

  /** The messages of the first k rules, each checked on its own, in source
      order. */
  function RulesUpTo(ps: seq<real>, k: nat): seq<Message>
    requires |ps| == ParameterCount && k <= RuleCount
  {
    if k == 0 then []
    else RulesUpTo(ps, k - 1) + Report(RuleBroken(ps, k - 1), RuleMessage(ps, k - 1))
  }

  /** The messages of all fifteen rules, each checked on its own, in source
      order. */
  function RuleMessages(ps: seq<real>): seq<Message>
    requires |ps| == ParameterCount
  {
    RulesUpTo(ps, RuleCount)
  }

  /** The same fifteen rules written out one after another, as Validate
      checks them. */
  function RulesListed(ps: seq<real>): seq<Message>
    requires |ps| == ParameterCount
  {
    Report(RuleBroken(ps, 0), RuleMessage(ps, 0))
    + Report(RuleBroken(ps, 1), RuleMessage(ps, 1))
    + Report(RuleBroken(ps, 2), RuleMessage(ps, 2))
    + Report(RuleBroken(ps, 3), RuleMessage(ps, 3))
    + Report(RuleBroken(ps, 4), RuleMessage(ps, 4))
    + Report(RuleBroken(ps, 5), RuleMessage(ps, 5))
    + Report(RuleBroken(ps, 6), RuleMessage(ps, 6))
    + Report(RuleBroken(ps, 7), RuleMessage(ps, 7))
    + Report(RuleBroken(ps, 8), RuleMessage(ps, 8))
    + Report(RuleBroken(ps, 9), RuleMessage(ps, 9))
    + Report(RuleBroken(ps, 10), RuleMessage(ps, 10))
    + Report(RuleBroken(ps, 11), RuleMessage(ps, 11))
    + Report(RuleBroken(ps, 12), RuleMessage(ps, 12))
    + Report(RuleBroken(ps, 13), RuleMessage(ps, 13))
    + Report(RuleBroken(ps, 14), RuleMessage(ps, 14))
  }

  /** Listing the fifteen rules one after another gives the rule messages. */
  lemma RulesListedInOrder(ps: seq<real>)
    requires |ps| == ParameterCount
    ensures RulesListed(ps) == RuleMessages(ps)
  {
    ghost var acc := Report(RuleBroken(ps, 0), RuleMessage(ps, 0));
    assert RulesUpTo(ps, 1) == acc;
    acc := acc + Report(RuleBroken(ps, 1), RuleMessage(ps, 1));
    assert RulesUpTo(ps, 2) == acc;
    acc := acc + Report(RuleBroken(ps, 2), RuleMessage(ps, 2));
    assert RulesUpTo(ps, 3) == acc;
    acc := acc + Report(RuleBroken(ps, 3), RuleMessage(ps, 3));
    assert RulesUpTo(ps, 4) == acc;
    acc := acc + Report(RuleBroken(ps, 4), RuleMessage(ps, 4));
    assert RulesUpTo(ps, 5) == acc;
    acc := acc + Report(RuleBroken(ps, 5), RuleMessage(ps, 5));
    assert RulesUpTo(ps, 6) == acc;
    acc := acc + Report(RuleBroken(ps, 6), RuleMessage(ps, 6));
    assert RulesUpTo(ps, 7) == acc;
    acc := acc + Report(RuleBroken(ps, 7), RuleMessage(ps, 7));
    assert RulesUpTo(ps, 8) == acc;
    acc := acc + Report(RuleBroken(ps, 8), RuleMessage(ps, 8));
    assert RulesUpTo(ps, 9) == acc;
    acc := acc + Report(RuleBroken(ps, 9), RuleMessage(ps, 9));
    assert RulesUpTo(ps, 10) == acc;
    acc := acc + Report(RuleBroken(ps, 10), RuleMessage(ps, 10));
    assert RulesUpTo(ps, 11) == acc;
    acc := acc + Report(RuleBroken(ps, 11), RuleMessage(ps, 11));
    assert RulesUpTo(ps, 12) == acc;
    acc := acc + Report(RuleBroken(ps, 12), RuleMessage(ps, 12));
    assert RulesUpTo(ps, 13) == acc;
    acc := acc + Report(RuleBroken(ps, 13), RuleMessage(ps, 13));
    assert RulesUpTo(ps, 14) == acc;
    acc := acc + Report(RuleBroken(ps, 14), RuleMessage(ps, 14));
    assert RulesUpTo(ps, 15) == acc;
  }

  /** Concatenation regroups freely. */
  lemma Assoc<T>(a: seq<T>, b: seq<T>, c: seq<T>)
    ensures (a + b) + c == a + (b + c)
  {
  }

  /** Whether msg is the message of a rule that ps breaks. */
  predicate Violated(ps: seq<real>, msg: Message)
    requires |ps| == ParameterCount
  {
    0 <= RuleIndex(msg) < RuleCount && RuleBroken(ps, RuleIndex(msg)) && msg == RuleMessage(ps, RuleIndex(msg))
  }

  /** Messages listed in strictly increasing rule order. */
  predicate InRuleOrder(ms: seq<Message>) {
    forall i, j :: 0 <= i < j < |ms| ==> RuleIndex(ms[i]) < RuleIndex(ms[j])
  }

  /** The first k rules report exactly their broken rules, in rule order. */
  lemma {:induction false} RulesUpToReport(ps: seq<real>, k: nat)
    requires |ps| == ParameterCount && k <= RuleCount
    ensures forall msg :: msg in RulesUpTo(ps, k) <==> Violated(ps, msg) && RuleIndex(msg) < k
    ensures forall i :: 0 <= i < |RulesUpTo(ps, k)| ==> 0 <= RuleIndex(RulesUpTo(ps, k)[i]) < k
    ensures InRuleOrder(RulesUpTo(ps, k))
  {
    if k > 0 {
      RulesUpToReport(ps, k - 1);
    }
  }

  /** Every rule is checked on its own: a message is present exactly when its
      rule is broken, and the messages follow source order, so none appears
      twice. */
  lemma RulesReportEachViolation(ps: seq<real>)
    requires |ps| == ParameterCount
    ensures forall msg :: msg in RuleMessages(ps) <==> Violated(ps, msg)
    ensures InRuleOrder(RuleMessages(ps))
    ensures forall i, j :: 0 <= i < j < |RuleMessages(ps)| ==> RuleMessages(ps)[i] != RuleMessages(ps)[j]
  {
    RulesUpToReport(ps, RuleCount);
  }

  /** The first k rules stay silent exactly when none of them is broken. */
  lemma {:induction false} RulesUpToSilent(ps: seq<real>, k: nat)
    requires |ps| == ParameterCount && k <= RuleCount
    ensures RulesUpTo(ps, k) == [] <==> forall r :: 0 <= r < k ==> !RuleBroken(ps, r)
  {
    if k > 0 {
      RulesUpToSilent(ps, k - 1);
    }
  }

  /** The rules stay silent exactly when the nine limits hold. */
  lemma RulesSilentIff(ps: seq<real>)
    requires |ps| == ParameterCount
    ensures RuleMessages(ps) == [] <==> WithinLimits(ps)
  {
    RulesUpToSilent(ps, RuleCount);
    if WithinLimits(ps) {
      forall r | 0 <= r < RuleCount
        ensures !RuleBroken(ps, r)
      {
      }
    } else {
      assert RuleBroken(ps, 0) || RuleBroken(ps, 1) || RuleBroken(ps, 2) || RuleBroken(ps, 3)
        || RuleBroken(ps, 4) || RuleBroken(ps, 5) || RuleBroken(ps, 6) || RuleBroken(ps, 7)
        || RuleBroken(ps, 8) || RuleBroken(ps, 9) || RuleBroken(ps, 10) || RuleBroken(ps, 11)
        || RuleBroken(ps, 12) || RuleBroken(ps, 13) || RuleBroken(ps, 14);
    }
  }

  // ---------------------------------------------------------------------
  // A whole validation
  // ---------------------------------------------------------------------

  /** The messages one call of Validate appends: the gate's, and the rules'
      only when the gate let every value through. */
  function ValidationMessages(ps: seq<real>, valid: real -> bool): (r: seq<Message>)
    requires |ps| == ParameterCount
  {
    var g := Gate(ps, valid);
    if g.passed then g.messages + RuleMessages(ps) else g.messages
  }

  /** Validation accepts exactly the lists whose six values lie in [0.1, 1000)
      and pass the double validator, and which meet all nine limits. */
  lemma AcceptedIff(ps: seq<real>, valid: real -> bool)
    requires |ps| == ParameterCount
    ensures ValidationMessages(ps, valid) == [] <==>
            (forall i :: 0 <= i < |ps| ==> Admissible(ps[i], valid)) && WithinLimits(ps)
  {
    GateVerdict(ps, valid);
    RulesSilentIff(ps);
  }

  /** The first value that stops the scan: the call appends the "too large"
      reports of the values before it, then that value's message, and no rule
      message. Exactly 0.1 does not stop it. */
  lemma FirstFailureStopsValidation(ps: seq<real>, k: nat, valid: real -> bool)
    requires |ps| == ParameterCount && k < |ps|
    requires forall j :: 0 <= j < k ==> ScanContinues(ps[j], valid)
    requires !ScanContinues(ps[k], valid)
    ensures ps[k] <= 0.0 ==> ValidationMessages(ps, valid) == TooLargeMessages(ps[..k]) + [ParameterNotPositive]
    ensures 0.0 < ps[k] < 0.1 ==> ValidationMessages(ps, valid) == TooLargeMessages(ps[..k]) + [ParameterBelowMinimum]
    ensures 0.1 <= ps[k] ==> !valid(ps[k])
    ensures 0.1 <= ps[k] ==> ValidationMessages(ps, valid) == TooLargeMessages(ps[..k + 1]) + [IncorrectParameterValue]
  {
    GateStopsAt(ps, k, valid);
    assert ps[..k + 1][..k] == ps[..k];
  }

  /** A value of at least 1000 does not stop the scan: it is reported once,
      the rules still run, and the call still rejects. */
  lemma TooLargeDoesNotStop(ps: seq<real>, valid: real -> bool)
    requires |ps| == ParameterCount
    requires forall i :: 0 <= i < |ps| ==> ScanContinues(ps[i], valid)
    ensures ValidationMessages(ps, valid) == TooLargeMessages(ps) + RuleMessages(ps)
    ensures (exists i :: 0 <= i < |ps| && ps[i] >= 1000.0) ==> ValidationMessages(ps, valid) != []
  {
    GatePassing(ps, valid);
  }

  /** The list of the rejected-input test: rejected whatever the double
      validator says. */
  lemma OutOfBoundsTestSetRejected(valid: real -> bool)
    ensures ValidationMessages([100500.0, 33375.0, 128325.0, 37135.0, 52340.0, 60.0], valid) != []
  {
    var ps := [100500.0, 33375.0, 128325.0, 37135.0, 52340.0, 60.0];
    AcceptedIff(ps, valid);
    assert !Admissible(ps[0], valid);
  }

  // ---------------------------------------------------------------------
  // The validator object
  // ---------------------------------------------------------------------

  /** FigureParametersValidator: the parameter list (unset when its length is
      wrong), the error list that Validate appends to, and the last error
      code. */
  class FigureParametersValidator {
    var figureParameters: Option<seq<real>>
    var errorList: seq<Message>
    var lastErrorCode: ErrorCode

    ghost predicate Valid()
      reads this
    {
      && (figureParameters.Some? <==> lastErrorCode == OK)
      && (figureParameters.Some? ==> |figureParameters.value| == ParameterCount)
    }

    /** A list of another length than six sets ArgumentInvalid and leaves the
        parameters unset; the error list starts empty either way. */
    constructor (parameters: seq<real>)
      ensures Valid() && errorList == []
      ensures |parameters| != ParameterCount ==> lastErrorCode == ArgumentInvalid && figureParameters == None
      ensures |parameters| == ParameterCount ==> lastErrorCode == OK && figureParameters == Some(parameters)
    {
      errorList := [];
      if |parameters| != ParameterCount {
        lastErrorCode := ArgumentInvalid;
        figureParameters := None;
      } else {
        lastErrorCode := OK;
        figureParameters := Some(parameters);
      }
    }

    /** Runs the gate and, if it passes, the fifteen rules; appends their
        messages and accepts iff the whole error list is empty. The caller
        checks lastErrorCode first, so the parameters are set. */
    method Validate(valid: real -> bool) returns (accepted: bool)
      requires Valid() && lastErrorCode == OK
      modifies this`errorList
      ensures Valid()
      ensures errorList == old(errorList) + ValidationMessages(figureParameters.value, valid)
      ensures accepted <==> errorList == []
    {
      var ps := figureParameters.value;
      var doublesOk := ValidateDoubles(valid);
      if !doublesOk {
        GateVerdict(ps, valid);
        return false;
      }

      ReportRuleViolations(ps);

      accepted := errorList == [];
    }

    /** The fifteen rules of Validate, in source order, each appending its
        message when it is broken. */
    method ReportRuleViolations(ps: seq<real>)
      requires |ps| == ParameterCount
      modifies this`errorList
      ensures errorList == old(errorList) + RuleMessages(ps)
    {
      ghost var base := errorList;
      var screwHatHeight := ps[HatHeight];
      var screwBaseWidth := ps[SmoothPart] + ps[ThreadPart];
      ReportIf(!(ps[SlotDepth] < screwHatHeight), SlotDepthNotBelowHatHeight);
      ghost var acc := Report(RuleBroken(ps, 0), RuleMessage(ps, 0));
      ReportIf(screwBaseWidth <= screwHatHeight, HatHeightNotBelowShank);
      Assoc(base, acc, Report(RuleBroken(ps, 1), RuleMessage(ps, 1)));
      acc := acc + Report(RuleBroken(ps, 1), RuleMessage(ps, 1));
      ReportIf(!(ps[SmoothPart] <= ps[ThreadPart]), SmoothPartExceedsThreadPart);
      Assoc(base, acc, Report(RuleBroken(ps, 2), RuleMessage(ps, 2)));
      acc := acc + Report(RuleBroken(ps, 2), RuleMessage(ps, 2));
      ReportIf(ps[HatDiameter] < 15.0, HatDiameterBelow15);
      Assoc(base, acc, Report(RuleBroken(ps, 3), RuleMessage(ps, 3)));
      acc := acc + Report(RuleBroken(ps, 3), RuleMessage(ps, 3));
      ReportIf(ps[HatDiameter] > 45.0, HatDiameterAbove45);
      Assoc(base, acc, Report(RuleBroken(ps, 4), RuleMessage(ps, 4)));
      acc := acc + Report(RuleBroken(ps, 4), RuleMessage(ps, 4));
      ReportIf(ps[SlotDepth] < 4.0, SlotDepthBelow4);
      Assoc(base, acc, Report(RuleBroken(ps, 5), RuleMessage(ps, 5)));
      acc := acc + Report(RuleBroken(ps, 5), RuleMessage(ps, 5));
      ReportIf(ps[SlotDepth] > 8.0, SlotDepthAbove8);
      Assoc(base, acc, Report(RuleBroken(ps, 6), RuleMessage(ps, 6)));
      acc := acc + Report(RuleBroken(ps, 6), RuleMessage(ps, 6));
      ReportIf(ps[SmoothPart] < 5.0, SmoothPartBelow5);
      Assoc(base, acc, Report(RuleBroken(ps, 7), RuleMessage(ps, 7)));
      acc := acc + Report(RuleBroken(ps, 7), RuleMessage(ps, 7));
      ReportIf(ps[SmoothPart] > 35.0, SmoothPartAbove35);
      Assoc(base, acc, Report(RuleBroken(ps, 8), RuleMessage(ps, 8)));
      acc := acc + Report(RuleBroken(ps, 8), RuleMessage(ps, 8));
      ReportIf(ps[ThreadPart] < 5.0, ThreadPartBelow5);
      Assoc(base, acc, Report(RuleBroken(ps, 9), RuleMessage(ps, 9)));
      acc := acc + Report(RuleBroken(ps, 9), RuleMessage(ps, 9));
      ReportIf(ps[ThreadPart] > 80.0, ThreadPartAbove80);
      Assoc(base, acc, Report(RuleBroken(ps, 10), RuleMessage(ps, 10)));
      acc := acc + Report(RuleBroken(ps, 10), RuleMessage(ps, 10));
      ReportIf(ps[HatHeight] < 6.0, HatHeightBelow6);
      Assoc(base, acc, Report(RuleBroken(ps, 11), RuleMessage(ps, 11)));
      acc := acc + Report(RuleBroken(ps, 11), RuleMessage(ps, 11));
      ReportIf(ps[HatHeight] > 20.0, HatHeightAbove20);
      Assoc(base, acc, Report(RuleBroken(ps, 12), RuleMessage(ps, 12)));
      acc := acc + Report(RuleBroken(ps, 12), RuleMessage(ps, 12));
      ReportIf(ps[SlotWidth] < 2.0, SlotWidthBelow2);
      Assoc(base, acc, Report(RuleBroken(ps, 13), RuleMessage(ps, 13)));
      acc := acc + Report(RuleBroken(ps, 13), RuleMessage(ps, 13));
      ReportIf(ps[SlotWidth] > ps[HatDiameter] / 5.0, SlotWidthAboveFifth(ps[HatDiameter] / 5.0));
      Assoc(base, acc, Report(RuleBroken(ps, 14), RuleMessage(ps, 14)));
      acc := acc + Report(RuleBroken(ps, 14), RuleMessage(ps, 14));
      RulesListedInOrder(ps);
    }

    /** One rule of Validate: append its message when the rule is broken. */
    method ReportIf(broken: bool, msg: Message)
      modifies this`errorList
      ensures errorList == old(errorList) + Report(broken, msg)
    {
      if broken {
        errorList := errorList + [msg];
      }
    }

    /** The numeric gate: scans the values in index order and stops at the
        first that is non-positive, below 0.1 or refused by the double
        validator. */
    method ValidateDoubles(valid: real -> bool) returns (ok: bool)
      requires figureParameters.Some?
      modifies this`errorList
      ensures errorList == old(errorList) + Gate(figureParameters.value, valid).messages
      ensures ok == Gate(figureParameters.value, valid).passed
    {
      var ps := figureParameters.value;
      var i := 0;
      while i < |ps|
        invariant 0 <= i <= |ps|
        invariant Gate(ps[..i], valid).passed
        invariant errorList == old(errorList) + Gate(ps[..i], valid).messages
      {
        var parameter := ps[i];
        assert ps[..i + 1][..i] == ps[..i];
        ghost var step := CheckParameter(parameter, valid);
        assert Gate(ps[..i + 1], valid) == GateOutcome(Gate(ps[..i], valid).messages + step.messages, step.passed);
        if parameter <= 0.0 {
          errorList := errorList + [ParameterNotPositive];
          GateAfterFailure(ps, i + 1, valid);
          return false;
        }
        if parameter < 0.1 {
          errorList := errorList + [ParameterBelowMinimum];
          GateAfterFailure(ps, i + 1, valid);
          return false;
        }
        if parameter >= 1000.0 {
          errorList := errorList + [ParameterTooLarge];
        }
        if !valid(parameter) {
          errorList := errorList + [IncorrectParameterValue];
          GateAfterFailure(ps, i + 1, valid);
          return false;
        }
        i := i + 1;
      }
      assert ps[..i] == ps;
      return true;
    }
  }

  /** Validate called twice on one validator: the same verdict both times,
      and the second call appends its messages again. */
  method ValidateTwice(parameters: seq<real>, valid: real -> bool) returns (first: bool, second: bool, errors: seq<Message>)
    requires |parameters| == ParameterCount
    ensures first == second
    ensures first <==> ValidationMessages(parameters, valid) == []
    ensures errors == ValidationMessages(parameters, valid) + ValidationMessages(parameters, valid)
  {
    var validator := new FigureParametersValidator(parameters);
    first := validator.Validate(valid);
    second := validator.Validate(valid);
    errors := validator.errorList;
  }
}
