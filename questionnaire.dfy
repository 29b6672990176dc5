/**
 * The four-step questionnaire (components/AuditForm.tsx).
 *
 * The form holds a step counter in 1..4, a record of nullable answers and a
 * flag saying whether the current step is complete. Next advances only from
 * a complete step and, at step 4, hands the record to the caller; Back
 * steps back down to 1; each control on screen writes one field of the
 * record. The invariant worth having is that every step below the current
 * one is complete, which is what makes the cast of the record to a
 * completed questionnaire at step 4 sound.
 */
module Questionnaire {
  import opened Types

  // ---------------------------------------------------------------------
  // JavaScript's String.prototype.trim
  // ---------------------------------------------------------------------

  /**
   * The characters `trim` removes: ECMAScript WhiteSpace (tab, vertical
   * tab, form feed, the byte-order mark and every Unicode space separator)
   * and LineTerminator (line feed, carriage return, U+2028, U+2029).
   */
  predicate IsSpace(c: char) {
    || c == '\t' || c == '\n' || c == '\U{B}' || c == '\U{C}' || c == '\r'
    || c == ' ' || c == '\U{A0}' || c == '\U{1680}' || ('\U{2000}' <= c <= '\U{200A}')
    || c == '\U{2028}' || c == '\U{2029}' || c == '\U{202F}' || c == '\U{205F}'
    || c == '\U{3000}' || c == '\U{FEFF}'
  }

  /** `s` without its leading spaces. */
  function TrimStart(s: string): string {
    if s != [] && IsSpace(s[0]) then TrimStart(s[1..]) else s
  }

  /** `s` without its trailing spaces. */
  function TrimEnd(s: string): string {
    if s != [] && IsSpace(s[|s| - 1]) then TrimEnd(s[..|s| - 1]) else s
  }

  /** `s.trim()`: no longer than `s`, and neither end of a non-empty result is a space. */
  function Trim(s: string): (t: string)
    ensures |t| <= |s|
    ensures t != [] ==> !IsSpace(t[0]) && !IsSpace(t[|t| - 1])
  {
    TrimStartSpec(s);
    TrimEndSpec(TrimStart(s));
    TrimEnd(TrimStart(s))
  }

  /** TrimStart drops a prefix of spaces and stops at the first other character. */
  lemma {:induction false} TrimStartSpec(s: string)
    ensures var r := TrimStart(s);
            && |r| <= |s| && r == s[|s| - |r|..]
            && (forall i :: 0 <= i < |s| - |r| ==> IsSpace(s[i]))
            && (r != [] ==> !IsSpace(r[0]))
  {
    if s != [] && IsSpace(s[0]) {
      var tail := s[1..];
      TrimStartSpec(tail);
      var r := TrimStart(tail);
      assert TrimStart(s) == r;
      assert tail[|tail| - |r|..] == s[|s| - |r|..];
      forall i | 1 <= i < |s| - |r| ensures IsSpace(s[i]) {
        assert s[i] == tail[i - 1];
      }
    }
  }

  /** TrimEnd drops a suffix of spaces and stops at the last other character. */
  lemma {:induction false} TrimEndSpec(s: string)
    ensures var r := TrimEnd(s);
            && |r| <= |s| && r == s[..|r|]
            && (forall i :: |r| <= i < |s| ==> IsSpace(s[i]))
            && (r != [] ==> !IsSpace(r[|r| - 1]))
  {
    if s != [] && IsSpace(s[|s| - 1]) {
      var init := s[..|s| - 1];
      TrimEndSpec(init);
      var r := TrimEnd(init);
      assert TrimEnd(s) == r;
      assert init[..|r|] == s[..|r|];
      forall i | |r| <= i < |s| - 1 ensures IsSpace(s[i]) {
        assert s[i] == init[i];
      }
    }
  }

  /** A trimmed string is empty exactly when every character is a space. */
  lemma TrimEmptyIffBlank(s: string)
    ensures Trim(s) == [] <==> forall i :: 0 <= i < |s| ==> IsSpace(s[i])
  {
    var t := TrimStart(s);
    TrimStartSpec(s);
    TrimEndSpec(t);
    if Trim(s) == [] {
      // a non-empty t starts with a non-space, which TrimEnd cannot remove
      assert t == [];
    } else {
      var k := |s| - |t|;
      assert t != [];
      assert !IsSpace(s[k]);
    }
  }

  /** `text?.trim()` is truthy: the field is set and not blank. */
  predicate NotBlank(text: Option<string>) {
    text.Some? && Trim(text.value) != []
  }

  // ---------------------------------------------------------------------
  // The record of answers while the form is being filled in
  // ---------------------------------------------------------------------

  /** Every field of a questionnaire, each of which may still be null. */
  datatype FormState = FormState(
    name: Option<string>,
    email: Option<string>,
    phone: Option<string>,
    role: Option<Role>,
    teamSize: Option<TeamSize>,
    mainFocus: Option<MainFocus>,
    losingMoneyOnRepetitiveTasks: Option<bool>,
    trackingSeniorTeamHours: Option<bool>,
    clarityOnAiTasks: Option<bool>,
    teamDeliveringLessOutput: Option<bool>,
    investedInAutomationButUnderutilized: Option<bool>,
    workedMoreThan50Hours: Option<bool>,
    isBottleneck: Option<bool>,
    canScaleWithoutHiring: Option<bool>,
    confidenceInCapturingCosts: Option<int>,
    biggestObstacle: Option<Obstacle>,
    investmentTimeline: Option<Timeline>)

  /**
   * The initial record (components/AuditForm.tsx:19-36): name and email are
   * empty strings and every other field is null; `phone` is not in the
   * initial object at all, which reads as undefined.
   */
  const InitialForm: FormState :=
    FormState(Some(""), Some(""), None, None, None, None, None, None, None, None,
              None, None, None, None, None, None, None)

  /** The keys of the record, which `updateField` takes as its first argument. */
  datatype Field =
    | Name | Email | Phone | RoleField | TeamSizeField | MainFocusField
    | LosingMoneyOnRepetitiveTasks | TrackingSeniorTeamHours | ClarityOnAiTasks
    | TeamDeliveringLessOutput | InvestedInAutomationButUnderutilized
    | WorkedMoreThan50Hours | IsBottleneck | CanScaleWithoutHiring
    | ConfidenceInCapturingCosts | BiggestObstacle | InvestmentTimeline

  /** A field's value, or null. */
  datatype Value =
    | Null
    | Text(text: string)
    | Flag(flag: bool)
    | Number(number: int)
    | RoleValue(role: Role)
    | TeamSizeValue(teamSize: TeamSize)
    | MainFocusValue(mainFocus: MainFocus)
    | ObstacleValue(obstacle: Obstacle)
    | TimelineValue(timeline: Timeline)

  /** `value` has the type of `field` (`AuditInputs[K] | null`). */
  predicate Fits(field: Field, value: Value) {
    value.Null? ||
    match field
    case Name | Email | Phone => value.Text?
    case RoleField => value.RoleValue?
    case TeamSizeField => value.TeamSizeValue?
    case MainFocusField => value.MainFocusValue?
    case ConfidenceInCapturingCosts => value.Number?
    case BiggestObstacle => value.ObstacleValue?
    case InvestmentTimeline => value.TimelineValue?
    case _ => value.Flag?
  }

  function TextOf(o: Option<string>): Value { if o.Some? then Text(o.value) else Null }
  function FlagOf(o: Option<bool>): Value { if o.Some? then Flag(o.value) else Null }

  /** `formData[field]`. */
  function Get(form: FormState, field: Field): (value: Value)
    ensures Fits(field, value)
  {
    match field
    case Name => TextOf(form.name)
    case Email => TextOf(form.email)
    case Phone => TextOf(form.phone)
    case RoleField => if form.role.Some? then RoleValue(form.role.value) else Null
    case TeamSizeField => if form.teamSize.Some? then TeamSizeValue(form.teamSize.value) else Null
    case MainFocusField => if form.mainFocus.Some? then MainFocusValue(form.mainFocus.value) else Null
    case LosingMoneyOnRepetitiveTasks => FlagOf(form.losingMoneyOnRepetitiveTasks)
    case TrackingSeniorTeamHours => FlagOf(form.trackingSeniorTeamHours)
    case ClarityOnAiTasks => FlagOf(form.clarityOnAiTasks)
    case TeamDeliveringLessOutput => FlagOf(form.teamDeliveringLessOutput)
    case InvestedInAutomationButUnderutilized => FlagOf(form.investedInAutomationButUnderutilized)
    case WorkedMoreThan50Hours => FlagOf(form.workedMoreThan50Hours)
    case IsBottleneck => FlagOf(form.isBottleneck)
    case CanScaleWithoutHiring => FlagOf(form.canScaleWithoutHiring)
    case ConfidenceInCapturingCosts =>
      if form.confidenceInCapturingCosts.Some? then Number(form.confidenceInCapturingCosts.value) else Null
    case BiggestObstacle => if form.biggestObstacle.Some? then ObstacleValue(form.biggestObstacle.value) else Null
    case InvestmentTimeline => if form.investmentTimeline.Some? then TimelineValue(form.investmentTimeline.value) else Null
  }

  function TextIn(value: Value): Option<string> requires value.Null? || value.Text? {
    if value.Text? then Some(value.text) else None
  }

  function FlagIn(value: Value): Option<bool> requires value.Null? || value.Flag? {
    if value.Flag? then Some(value.flag) else None
  }

  /** `{ ...form, [field]: value }`: exactly the named field changes. */
  function Put(form: FormState, field: Field, value: Value): (updated: FormState)
    requires Fits(field, value)
    ensures Get(updated, field) == value
    ensures forall other :: other != field ==> Get(updated, other) == Get(form, other)
  {
    match field
    case Name => form.(name := TextIn(value))
    case Email => form.(email := TextIn(value))
    case Phone => form.(phone := TextIn(value))
    case RoleField => form.(role := if value.RoleValue? then Some(value.role) else None)
    case TeamSizeField => form.(teamSize := if value.TeamSizeValue? then Some(value.teamSize) else None)
    case MainFocusField => form.(mainFocus := if value.MainFocusValue? then Some(value.mainFocus) else None)
    case LosingMoneyOnRepetitiveTasks => form.(losingMoneyOnRepetitiveTasks := FlagIn(value))
    case TrackingSeniorTeamHours => form.(trackingSeniorTeamHours := FlagIn(value))
    case ClarityOnAiTasks => form.(clarityOnAiTasks := FlagIn(value))
    case TeamDeliveringLessOutput => form.(teamDeliveringLessOutput := FlagIn(value))
    case InvestedInAutomationButUnderutilized => form.(investedInAutomationButUnderutilized := FlagIn(value))
    case WorkedMoreThan50Hours => form.(workedMoreThan50Hours := FlagIn(value))
    case IsBottleneck => form.(isBottleneck := FlagIn(value))
    case CanScaleWithoutHiring => form.(canScaleWithoutHiring := FlagIn(value))
    case ConfidenceInCapturingCosts =>
      form.(confidenceInCapturingCosts := if value.Number? then Some(value.number) else None)
    case BiggestObstacle => form.(biggestObstacle := if value.ObstacleValue? then Some(value.obstacle) else None)
    case InvestmentTimeline => form.(investmentTimeline := if value.TimelineValue? then Some(value.timeline) else None)
  }

  // ---------------------------------------------------------------------
  // Steps and their validity
  // ---------------------------------------------------------------------

  const TotalSteps := 4

  /** The step on which a field's control is shown; `phone` is on none. */
  function StepOf(field: Field): (step: int)
    ensures field == Phone <==> step == 0
    ensures 0 <= step <= TotalSteps
  {
    match field
    case Name | Email | RoleField | TeamSizeField | MainFocusField => 1
    case LosingMoneyOnRepetitiveTasks | TrackingSeniorTeamHours | ClarityOnAiTasks
       | TeamDeliveringLessOutput | InvestedInAutomationButUnderutilized => 2
    case WorkedMoreThan50Hours | IsBottleneck | CanScaleWithoutHiring
       | ConfidenceInCapturingCosts | BiggestObstacle => 3
    case InvestmentTimeline => 4
    case Phone => 0
  }

  /** The validation switch run after every change (components/AuditForm.tsx:42-74). */
  predicate StepValid(step: int, form: FormState): (valid: bool)
    ensures valid ==> 1 <= step <= TotalSteps
  {
    if step == 1 then
      NotBlank(form.name) && NotBlank(form.email)
      && form.role.Some? && form.teamSize.Some? && form.mainFocus.Some?
    else if step == 2 then
      form.losingMoneyOnRepetitiveTasks.Some? && form.trackingSeniorTeamHours.Some?
      && form.clarityOnAiTasks.Some? && form.teamDeliveringLessOutput.Some?
      && form.investedInAutomationButUnderutilized.Some?
    else if step == 3 then
      form.workedMoreThan50Hours.Some? && form.isBottleneck.Some?
      && form.canScaleWithoutHiring.Some? && form.confidenceInCapturingCosts.Some?
      && form.biggestObstacle.Some?
    else if step == 4 then
      form.investmentTimeline.Some?
    else
      false
  }

  /** A field counts as answered: text that is not blank, anything else not null. */
  predicate Answered(form: FormState, field: Field) {
    var value := Get(form, field);
    if field == Name || field == Email then value.Text? && Trim(value.text) != []
    else !value.Null?
  }

  /**
   * The switch checks precisely the fields shown on its step: a step is
   * valid iff every field on it is answered.
   */
  lemma StepValidIffAnswered(step: int, form: FormState)
    requires 1 <= step <= TotalSteps
    ensures StepValid(step, form) <==> forall field :: StepOf(field) == step ==> Answered(form, field)
  {
    if StepValid(step, form) {
      forall field | StepOf(field) == step ensures Answered(form, field) {
        ValidStepAnswers(step, form, field);
      }
    } else {
      var missing := UnansweredOn(step, form);
    }
  }

  /** Every field on a valid step is answered. */
  lemma ValidStepAnswers(step: int, form: FormState, field: Field)
    requires StepValid(step, form) && StepOf(field) == step
    ensures Answered(form, field)
  {
  }

  /** An invalid step has a field on it that is not answered. */
  lemma UnansweredOn(step: int, form: FormState) returns (missing: Field)
    requires 1 <= step <= TotalSteps && !StepValid(step, form)
    ensures StepOf(missing) == step && !Answered(form, missing)
  {
    if step == 1 {
      missing := UnansweredOnFirst(form);
    } else if step == 2 {
      if form.losingMoneyOnRepetitiveTasks.None? { missing := LosingMoneyOnRepetitiveTasks; }
      else if form.trackingSeniorTeamHours.None? { missing := TrackingSeniorTeamHours; }
      else if form.clarityOnAiTasks.None? { missing := ClarityOnAiTasks; }
      else if form.teamDeliveringLessOutput.None? { missing := TeamDeliveringLessOutput; }
      else { missing := InvestedInAutomationButUnderutilized; }
    } else if step == 3 {
      if form.workedMoreThan50Hours.None? { missing := WorkedMoreThan50Hours; }
      else if form.isBottleneck.None? { missing := IsBottleneck; }
      else if form.canScaleWithoutHiring.None? { missing := CanScaleWithoutHiring; }
      else if form.confidenceInCapturingCosts.None? { missing := ConfidenceInCapturingCosts; }
      else { missing := BiggestObstacle; }
    } else {
      missing := InvestmentTimeline;
    }
  }

  lemma UnansweredOnFirst(form: FormState) returns (missing: Field)
    requires !StepValid(1, form)
    ensures StepOf(missing) == 1 && !Answered(form, missing)
  {
    if !NotBlank(form.name) {
      missing := Name;
      assert Get(form, Name) == TextOf(form.name);
    } else if !NotBlank(form.email) {
      missing := Email;
      assert Get(form, Email) == TextOf(form.email);
    } else if form.role.None? { missing := RoleField; }
    else if form.teamSize.None? { missing := TeamSizeField; }
    else { missing := MainFocusField; }
  }

  /** A step's validity depends only on the fields shown on that step. */
  lemma StepValidFrame(step: int, form: FormState, field: Field, value: Value)
    requires Fits(field, value) && StepOf(field) != step
    ensures StepValid(step, Put(form, field, value)) == StepValid(step, form)
  {
  }

  /** Every step is complete: nothing the cast relies on is null. */
  predicate Complete(form: FormState) {
    forall step :: 1 <= step <= TotalSteps ==> StepValid(step, form)
  }

  /** `formData as AuditInputs` on a complete record. */
  function AsInputs(form: FormState): (inputs: AuditInputs)
    requires Complete(form)
    ensures Trim(inputs.name) != [] && Trim(inputs.email) != []
    ensures inputs.phone == form.phone
    ensures ConfidenceOk(form) ==> ValidInputs(inputs)
  {
    assert StepValid(1, form) && StepValid(2, form) && StepValid(3, form) && StepValid(4, form);
    AuditInputs(
      form.name.value, form.email.value, form.phone,
      form.role.value, form.teamSize.value, form.mainFocus.value,
      form.losingMoneyOnRepetitiveTasks.value, form.trackingSeniorTeamHours.value,
      form.clarityOnAiTasks.value, form.teamDeliveringLessOutput.value,
      form.investedInAutomationButUnderutilized.value,
      form.workedMoreThan50Hours.value, form.isBottleneck.value, form.canScaleWithoutHiring.value,
      form.confidenceInCapturingCosts.value, form.biggestObstacle.value,
      form.investmentTimeline.value)
  }

  /**
   * What a control on screen can write: the name and email inputs write
   * the text typed, every choice button a non-null value of its field's
   * type, and the confidence buttons one of 1..5
   * (components/AuditForm.tsx:174, 185, 197, 215, 233, 115, 125, 308, 326, 353).
   */
  predicate ControlWrites(field: Field, value: Value) {
    match field
    case Name | Email => value.Text?
    case Phone => false
    case ConfidenceInCapturingCosts => value.Number? && ConfidenceInRange(value.number)
    case _ => Fits(field, value) && !value.Null?
  }

  /** Every confidence rating in the record is one the buttons offer. */
  predicate ConfidenceOk(form: FormState) {
    form.confidenceInCapturingCosts.Some? ==> ConfidenceInRange(form.confidenceInCapturingCosts.value)
  }

  // ---------------------------------------------------------------------
  // The component
  // ---------------------------------------------------------------------

  class AuditForm {
    var step: int
    var formData: FormState
    var isStepValid: bool

    /**
     * The component's invariant: the step is in range, the validity flag
     * is up to date (the effect is modelled as running synchronously), every
     * step below the current one is complete, and what the buttons can write
     * has kept the confidence rating in range and the phone unset.
     */
    ghost predicate Valid()
      reads this
    {
      && 1 <= step <= TotalSteps
      && isStepValid == StepValid(step, formData)
      && (forall k :: 1 <= k < step ==> StepValid(k, formData))
      && ConfidenceOk(formData)
      && formData.phone.None?
    }

    /** components/AuditForm.tsx:15-38. */
    constructor ()
      ensures Valid()
      ensures step == 1 && formData == InitialForm && !isStepValid
    {
      step := 1;
      formData := InitialForm;
      isStepValid := false;
      assert !NotBlank(InitialForm.name) by {
        assert Trim("") == [];
      }
    }

    /** The validation effect (components/AuditForm.tsx:41-76). */
    method Revalidate()
      modifies this`isStepValid
      ensures isStepValid == StepValid(step, formData)
    {
      isStepValid := StepValid(step, formData);
    }

    /** handleNext (components/AuditForm.tsx:80-90): the emitted record is onComplete's argument. */
    method HandleNext() returns (completed: Option<AuditInputs>)
      requires Valid()
      modifies this
      ensures Valid()
      ensures formData == old(formData)
      ensures !old(isStepValid) ==> step == old(step) && completed.None?
      ensures old(isStepValid) && old(step) < TotalSteps ==> step == old(step) + 1 && completed.None?
      ensures old(isStepValid) && old(step) == TotalSteps ==>
                && step == old(step)
                && Complete(formData)
                && completed == Some(AsInputs(formData))
                && ValidInputs(completed.value)
                && completed.value.phone.None?
    {
      completed := None;
      if isStepValid {
        if step < TotalSteps {
          step := step + 1;
        } else {
          // every step is complete, so the cast is sound
          assert StepValid(3, formData);
          completed := Some(AsInputs(formData));
          assert completed.value.confidenceInCapturingCosts == formData.confidenceInCapturingCosts.value;
        }
      }
      Revalidate();
    }

    /** handleBack (components/AuditForm.tsx:92-97). */
    method HandleBack()
      requires Valid()
      modifies this
      ensures Valid()
      ensures formData == old(formData)
      ensures step == if old(step) > 1 then old(step) - 1 else old(step)
    {
      if step > 1 {
        step := step - 1;
      }
      Revalidate();
    }

    /** updateField (components/AuditForm.tsx:99-101). */
    method UpdateField(field: Field, value: Value)
      requires Fits(field, value)
      modifies this`formData
      ensures formData == Put(old(formData), field, value)
    {
      formData := Put(formData, field, value);
    }

    /**
     * A control on the current step writes its field: fields are shown only
     * on their own step (components/AuditForm.tsx:165-366).
     */
    method Edit(field: Field, value: Value)
      requires Valid()
      requires StepOf(field) == step && ControlWrites(field, value)
      modifies this
      ensures Valid()
      ensures step == old(step)
      ensures formData == Put(old(formData), field, value)
    {
      ghost var before := formData;
      UpdateField(field, value);
      forall k | 1 <= k < step ensures StepValid(k, formData) {
        StepValidFrame(k, before, field, value);
      }
      Revalidate();
    }
  }
}
