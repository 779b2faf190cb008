# Screw builder core, modelled in Dafny

This project models the logic of a screw-fastener builder that drives the KOMPAS-3D CAD engine. Six source files are covered:

- **Parameter validator** (`FigureParametersValidator`).
  - It takes six dimensions: hat diameter D, slot depth m, smooth part l, thread part b, hat height H and slot width n.
  - It refuses a list of the wrong length.
  - A fail-fast numeric gate comes first. A value of 1000 or more is reported but does not stop the scan.
  - Fifteen independent range and cross-field rules follow, each appending its own message.
  - `Validate` accepts iff the error list is empty.
- **Default dimension set** (`Default`): D = 27, m = 5, l = 15, b = 64, H = 10, n = 5.4. It is accepted by the validator, and n sits exactly on the bound D / 5.
- **Sketch primitive** (`KompasSketch`).
  - Arguments are gated first: a null part or plane is refused, and only the three datum planes are accepted.
  - Then comes a chain of guarded engine steps, each failure of which records its own error code.
  - Begin/end editing depends on a definition having been recorded.
- **Helical-sweep primitive** (`Spin`).
  - Two ordered argument gates come first: `ArgumentNull` takes precedence over `DoubleValueValidationError`.
  - Then come guarded engine steps that write fixed spiral settings.
  - On success, the step is read back from the definition.
- **Keystroke filter** (`UserInputValidation.CheckNumberKeyPressed`).
- **Error-message builder** (`UserInputErrorCatcher.CatchError`).

The KOMPAS engine is an oracle (module `KompasEngine`). A `Part` holds as constants:
- the entity `NewEntity` hands out for a sketch and for a spiral;
- the default entity for each object kind.

An `Entity` holds:
- its sketch or spiral definition;
- whether `Create` succeeds.

A spiral definition says whether `SetLocation` succeeds. Definitions are objects whose fields the builder writes, so the model checks the error-code logic and the settings written, not the geometry.

`DoubleValidator.Validate`, `Char.IsControl` and `Char.IsDigit` are not part of this model. They are parameters: `valid: real -> bool`, `isControl` and `isDigit: char -> bool`.

Modules:
- `ErrorCodes`: error codes and `Option`.
- `KompasEngine`: the engine oracle.
- `FigureParameters`: the validator.
- `Defaults`: the default set.
- `Sketches`: `KompasSketch`.
- `Spins`: `Spin`.
- `UserInput`: the keystroke filter.
- `InputErrors`: the message builder.

Design decisions:
- **Validator.** The imperative code stays imperative. `ValidateDoubles` is a `while` loop proved against the recursive specification `Gate`. `Validate` appends through the fifteen guarded appends and is proved to append exactly `ValidationMessages`.
- **Rules.** The rules are also numbered (`RuleBroken`, `RuleMessage`), so that their properties are proved once by induction (`RulesUpTo`). `RulesListed` is the same fifteen checks written one after another as the code performs them, and `RulesListedInOrder` proves that the two agree.
- **Starting codes.** The `ErrorCodes` enumeration is not part of this model, and the model names only the six codes the core assigns. It assumes that a fresh object's `LastErrorCode` is `OK`. This is how the sketch tests read: Screw/UnitTests/Model/Entity/KompasSketchTest.cs:26-31 expects OK after a successful creation, a path on which no code is ever assigned.
- **Fifteen checks.** After the gate the source performs fifteen checks (lines 69-193). Four relate dimensions to one another (m < H, l + b > H, l <= b, n <= D/5), and eleven compare one dimension with a constant.

## Model

| member | source | states |
|---|---|---|
| FigureParameters.FigureParametersValidator.constructor | Screw/Validator/FigureParametersValidator.cs:42-52 | A list whose length is not six records ArgumentInvalid and leaves the parameters unset. A six-value list is stored and the code stays OK. The error list starts empty either way. |
| FigureParameters.CheckParameter | Screw/Validator/FigureParametersValidator.cs:206-224 | Verdict on one value. The scan continues iff the value is at least 0.1 and accepted by the double validator. No message is added iff the value also lies below 1000. A value in (0, 0.1) adds exactly the "greater than 0.1" message. Exactly 0.1 passes. |
| FigureParameters.TooLargeMessages | Screw/Validator/FigureParametersValidator.cs:216-219 | Only "less than 1000" messages, one per offending value. The list is empty iff every value is below 1000. |
| FigureParameters.GateVerdict | Screw/Validator/FigureParametersValidator.cs:204-227 | The gate passes iff every value lets the scan continue. It adds no message iff every value lies in [0.1, 1000) and is accepted by the double validator. |
| FigureParameters.GateAfterFailure | Screw/Validator/FigureParametersValidator.cs:204-224 | Once a value stops the scan, the values after it change nothing. |
| FigureParameters.GatePassing | Screw/Validator/FigureParametersValidator.cs:216-219 | When no value stops the scan, the gate's messages are exactly one "less than 1000" report per offending value, and the gate passes. |
| FigureParameters.GateStopsAt | Screw/Validator/FigureParametersValidator.cs:204-224 | At the first value that stops the scan, the messages are the "too large" reports of the earlier values followed by that value's own messages, and the gate fails. |
| FigureParameters.FigureParametersValidator.ValidateDoubles | Screw/Validator/FigureParametersValidator.cs:202-228 | The loop appends exactly the gate's messages to the error list and returns whether the gate passed. |
| FigureParameters.RulesUpToReport | Screw/Validator/FigureParametersValidator.cs:69-193 | The first k rules report a message iff its rule is broken. They report only rules below k, in strictly increasing rule order. |
| FigureParameters.RulesReportEachViolation | Screw/Validator/FigureParametersValidator.cs:69-193 | Each rule message is present iff its rule is broken. Messages come in source order and none appears twice. |
| FigureParameters.RulesUpToSilent | Screw/Validator/FigureParametersValidator.cs:69-193 | The first k rules add nothing iff none of them is broken. |
| FigureParameters.RulesSilentIff | Screw/Validator/FigureParametersValidator.cs:69-193 | The rules add nothing iff all nine limits hold: m < H, l + b > H, l <= b, 15 <= D <= 45, 4 <= m <= 8, 5 <= l <= 35, 5 <= b <= 80, 6 <= H <= 20 and 2 <= n <= D/5. |
| FigureParameters.RulesListedInOrder | Screw/Validator/FigureParametersValidator.cs:69-193 | The fifteen checks, performed one after another as written, produce exactly the numbered rules' messages in rule order. |
| FigureParameters.FigureParametersValidator.ReportRuleViolations | Screw/Validator/FigureParametersValidator.cs:69-193 | The fifteen guarded appends add exactly the rule messages to the error list and change nothing else. |
| FigureParameters.FigureParametersValidator.Validate | Screw/Validator/FigureParametersValidator.cs:58-196 | The error list becomes its old contents plus exactly this call's messages. Those are the gate's messages, plus the rules' messages only when the gate passed. The result is true iff the whole error list is empty. Only the error list changes. |
| FigureParameters.AcceptedIff | Screw/Validator/FigureParametersValidator.cs:58-227 | A call adds no message iff all six values lie in [0.1, 1000), all are accepted by the double validator, and all nine limits hold. |
| FigureParameters.FirstFailureStopsValidation | Screw/Validator/FigureParametersValidator.cs:204-224 | The call stops at the first value <= 0, in (0, 0.1), or refused by the double validator. It adds the earlier "too large" reports and then that value's own messages, with no rule message. |
| FigureParameters.TooLargeDoesNotStop | Screw/Validator/FigureParametersValidator.cs:216-219 | Values of 1000 or more are reported once each, the rules still run, and the call rejects. |
| FigureParameters.OutOfBoundsTestSetRejected | Screw/UnitTests/Manager/BuildManagerTest.cs:77-91 | The list {100500, 33375, 128325, 37135, 52340, 60} is rejected, whatever the double validator says. |
| FigureParameters.ValidateTwice | Screw/Validator/FigureParametersValidator.cs:44-195 | A second Validate call returns the same verdict as the first and appends its messages again. The list is never cleared. |
| Defaults.Default.constructor | Screw/Manager/Default.cs:52-61 | Each argument is stored in the field of the same position. |
| Defaults.Default.Standard | Screw/Manager/Default.cs:66 | The parameterless constructor yields 27, 5, 15, 64, 10, 5.4. |
| Defaults.DimensionInputs.DefaultsClick | Screw/View/ScrewView.cs:269-279 | The button copies a standard Default's fields into the six inputs. Read back in the form's order (ScrewView.cs:80-90), the inputs give exactly 27, 5, 15, 64, 10, 5.4, so each field reaches the validator's index of its own dimension. |
| Defaults.StandardAccepted | Screw/Manager/Default.cs:66 | The default set passes the gate and every rule, so validation adds no message. |
| Defaults.StandardSlotWidthIsTight | Screw/Validator/FigureParametersValidator.cs:187-193 | With the other defaults fixed, any slot width in [2, 1000) is accepted iff it is at most 5.4 = 27/5. Above 5.4 the only message is the D/5 bound. |
| Defaults.ApplyDefaults | Screw/View/ScrewView.cs:80-104 | The default set is copied into the inputs, read back, and passed through the constructor check and Validate as the form does. It is accepted. |
| Sketches.CreationOutcome | Screw/Model/Entity/KompasSketch.cs:118-151 | Sketch creation steps. A null new sketch, null definition or null base plane gives ArgumentNull. A refused Create gives EntityCreateError. Only success yields the entity and its definition. |
| Sketches.SketchOnPlane | Screw/Model/Entity/KompasSketch.cs:51-62 | A null part or plane gives ArgumentNull with no entity. The entity exists iff the definition exists iff the code is OK. |
| Sketches.SketchOnAxis | Screw/Model/Entity/KompasSketch.cs:69-89 | A null part gives ArgumentNull. A kind other than the three datum planes gives ArgumentInvalid, whatever the engine would answer. Success implies a datum plane and the entity's own definition. |
| Sketches.KompasSketch.FromPlane | Screw/Model/Entity/KompasSketch.cs:51-62 | The code, entity and definition follow SketchOnPlane. The definition's plane is the given plane whenever SetPlane is reached. Otherwise the engine objects are unchanged. Once SetPlane is reached, the definition's editing flag stays as it was, and the sketch is created iff it was already or Create succeeds. |
| Sketches.KompasSketch.FromAxis | Screw/Model/Entity/KompasSketch.cs:69-89 | The code, entity and definition follow SketchOnAxis. The part's default entity for the axis becomes the plane whenever SetPlane is reached. Otherwise the engine objects are unchanged, including for a null part or a non-datum kind. Once SetPlane is reached, the definition's editing flag stays as it was, and the sketch is created iff it was already or Create succeeds. |
| Sketches.KompasSketch.BeginEntityEdit | Screw/Model/Entity/KompasSketch.cs:95-103 | Without a recorded definition it returns null and records EntityDefinitionNull. Otherwise it returns the editable document, opens the definition, and leaves the code and the definition's plane unchanged. |
| Sketches.KompasSketch.EndEntityEdit | Screw/Model/Entity/KompasSketch.cs:108-111 | It closes the recorded definition. Because the source does not guard this call, the model requires that a definition has been recorded. |
| Sketches.KompasSketch.CreateEntity | Screw/Model/Entity/KompasSketch.cs:118-151 | The steps follow CreationOutcome. The first failing step records its code and returns null. Success records the definition, keeps the code and returns the created entity. Once SetPlane is reached, the definition's editing flag stays as it was, and a refused Create leaves the sketch's created flag as it was. |
| Sketches.ExplicitPlaneIgnoresDefaults | Screw/Model/Entity/KompasSketch.cs:158-165 | An explicit plane takes precedence: the sketch on it does not depend on the part's default entities. |
| Sketches.AxisUsesDefaultEntity | Screw/Model/Entity/KompasSketch.cs:166-169 | With no explicit plane, a sketch on a datum plane is the sketch on the part's default entity for that kind. With no such entity it fails with ArgumentNull. |
| Spins.ArgumentCode | Screw/Model/FigureParam/Spin.cs:49-70 | The gates give OK iff both faces are present, the point's code is OK, the diameter is > 0, the step is non-zero, and all four values are accepted by the validator. DoubleValueValidationError appears only when the ArgumentNull gate passed. |
| Spins.SpinCode | Screw/Model/FigureParam/Spin.cs:49-118 | A gate failure keeps the gate's code. The final code is OK iff the gates pass, the spiral and its definition exist, SetLocation succeeds and Create succeeds. A refused SetLocation or Create gives EntityCreateError. |
| Spins.NegativeStepPasses | Screw/Model/FigureParam/Spin.cs:49-70 | Only the diameter must be positive: a negative step passes both gates, and a negative diameter does not. |
| Spins.Spin.constructor | Screw/Model/FigureParam/Spin.cs:47-76 | The code follows SpinCode. On success the entity is the new spiral, the definition is located at the point's (x, y), and the step is the one the definition reports, not the input step. On failure the entity is null and the step is 0. The settings are written iff the gates pass and the spiral and definition exist. Otherwise the spiral is unchanged. Once the settings are written, the definition is located at the point's (x, y) iff SetLocation succeeds (otherwise its location is kept), and the spiral is created only when both SetLocation and Create succeed. |
| Spins.Spin.CreateSpin | Screw/Model/FigureParam/Spin.cs:83-124 | A null spiral or definition gives ArgumentNull before anything is written. The fixed settings are buildDir, buildMode 1, diamType 0, heightType 1 and turnDir; the begin face is the plane, the end face the height object, and diam and step come from the input. A refused SetLocation gives EntityCreateError without a Create attempt; a refused Create gives EntityCreateError. Success leaves the definition located at the point's (x, y), keeps the code, and records the entity and the step the definition reports for the step written. Once the settings are written, the location is the point's (x, y) iff SetLocation succeeds, even when Create is then refused (otherwise the location is kept), and the spiral is created only when both succeed. |
| UserInput.IndexOf | Screw/Validator/UserInputValidation.cs:22 | The result is -1 iff the character is absent. Otherwise it is the position of its first occurrence. |
| UserInput.CheckNumberKeyPressed | Screw/Validator/UserInputValidation.cs:18-27 | Handled is never reset. Control characters and digits leave it as it was. A '.' is blocked iff the text already has one. Every other character, ',' included, is blocked. |
| UserInput.AcceptedKeyKeepsOneDot | Screw/Validator/UserInputValidation.cs:14-22 | A text with at most one '.' still has at most one after inserting any key the filter lets through, anywhere. |
| InputErrors.CatchError | Screw/Error/UserInputErrorCatcher.cs:14-22 | The message is the fixed header followed by each error and "\n\n" in list order. It begins with the header, and its length is the header's length plus the sum of (length + 2) over the errors. An empty list gives exactly the header. |
| InputErrors.ListingAppend | Screw/Error/UserInputErrorCatcher.cs:19-22 | The listing of two lists, one after the other, is their two listings concatenated. |
| InputErrors.ListingLength | Screw/Error/UserInputErrorCatcher.cs:19-22 | Each error contributes its own length plus 2. |
| InputErrors.EmptyListIsHeader | Screw/Error/UserInputErrorCatcher.cs:16-22 | An empty error list yields exactly the header. |
| InputErrors.ErrorPlacement | Screw/Error/UserInputErrorCatcher.cs:19-22 | Error i appears verbatim right after the header and the errors before it, and is followed by "\n\n". |

## Left out

- Screw/View/ScrewView.cs (the WinForms form) is not part of this model. This covers control enabling, labels, `MessageBox`, and the culture-dependent `ToString`/`Convert.ToDouble` round trip of the inputs, which are modelled as numbers. Only three things are modelled: the copy of the defaults into the inputs (lines 273-278), the order the inputs are read back (lines 80-90), and the length check before `Validate` (lines 92-104).
- `MessageBox.Show` in `CatchError` is left out, and so is the mapping from `Message` values to their English texts. The "Slot width (n) must be less " + D/5 text is modelled as `SlotWidthAboveFifth(D / 5)`, without number formatting.
- FlatheadScrewdriver.cs and the classes exercised only by tests (`KompasExtrusion`, `RegularPolygonParameter`, `RectangleParameter`, `BuildManager`, `KompasApplication`) are not part of this model, because their logic is not shown.
- The KOMPAS COM engine is an oracle:
  - each `Part` always hands out the same new entity of a kind;
  - `GetDefinition` is a constant of the entity;
  - geometry, documents and the engine's own validation are not modelled;
  - the step a spiral definition reports is an uninterpreted function (`resolveStep`) of the step written. How the engine normalises it is not modelled.
- IEEE doubles are modelled as `real`. NaN, infinities and rounding are left out, and the double validator is an uninterpreted parameter.
- `Char.IsControl` and `Char.IsDigit` are uninterpreted parameters. `String.IndexOf` is modelled as ordinal search, without culture-sensitive comparison.
- Spins.Spin.constructor: `SpinParameters.Document3DPart` is typed non-null. The source first dereferences it at Spin.cs:85, after both gates. So the model leaves out a null part whose gate failure the source reports normally (ArgumentNull or DoubleValueValidationError), as well as the exception a null part raises once the gates pass.
- Spins.Spin.constructor: `SpinParameters.SpinLocationPoint` is a value that cannot be null. The source dereferences it unchecked at Spin.cs:51 and 64-65. A null point would raise an exception unless an earlier null face cuts the first gate short, and the model does not represent this.
- Sketches.KompasSketch.EndEntityEdit: calling it with no recorded definition dereferences null in the source. The model requires a recorded definition instead of modelling the exception.
- The unused public `BasePlane` property of `KompasSketch`, which is never assigned, is not modelled.
- `ErrorObjCreation`, the base class of `KompasSketch`, is not part of this model beyond its `LastErrorCode` field, which is assumed to start at `OK`.
