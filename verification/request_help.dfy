/**
 * The Request Help block: a four-step form (Type, Service, Details, Submit).
 * The state is the current step and the three pieces of form data; the
 * transitions are the option clicks and the Previous/Next buttons, and the
 * step indicator and navigation buttons are derived from the state.
 */
module RequestHelp {
  import opened Outcomes

  /** The step-1 cards. */
  datatype HelpType = Parts | Projects

  /** The step-2 options. */
  datatype Service = ProductInformation | ProductSelection | ApplicationConsulting | DesignServices

  /** A step-3 form control (input, textarea or select): its name and current value. */
  datatype Control = Control(name: string, value: string)

  /**
   * `currentStep` and `formData`, plus the reference number shown on the
   * confirmation step (None until a submission has written one).
   */
  datatype Form = Form(
    currentStep: int,
    step1: Option<HelpType>,
    step2: Option<Service>,
    step3: map<string, string>,
    reference: Option<string>)

  /** The step-3 fields that must be non-blank before Next is allowed; `canProceed`'s `requiredFields` is empty. */
  const RequiredFields: seq<string> := []

  /** Steps outside 1..4 cannot be reached, and step-3 data exists only once a submission happened. */
  predicate Valid(f: Form) {
    && 1 <= f.currentStep <= 4
    && (f.reference.None? ==> f.step3 == map[])
  }

  /** The constructor: step 1, nothing selected, no step-3 data. */
  function Initial(): (f: Form)
    ensures Valid(f)
    ensures f.currentStep == 1 && f.step1 == None && f.step2 == None && f.step3 == map[]
  {
    Form(1, None, None, map[], None)
  }

  // ---------------------------------------------------------------------
  // Step gates

  /** A character `String.prototype.trim` removes (the ASCII and Latin-1 white space and the byte-order mark). */
  predicate IsSpace(c: char) {
    c == ' ' || c == '\t' || c == '\n' || c == '\r' || c == '\U{000B}' || c == '\U{000C}' || c == '\U{00A0}' || c == '\U{FEFF}'
  }

  /** `value.trim() !== ''` */
  predicate NotBlank(value: string) {
    exists i :: 0 <= i < |value| && !IsSpace(value[i])
  }

  /** `querySelector('[name="..."]')`: the first control with that name, if any. */
  function FirstNamed(controls: seq<Control>, name: string): (r: Option<Control>)
    ensures r.Some? ==> r.value in controls && r.value.name == name
    ensures r.Some? ==> exists k ::
      && 0 <= k < |controls|
      && controls[k] == r.value
      && forall l :: 0 <= l < k ==> controls[l].name != name
    ensures r.None? ==> forall k :: 0 <= k < |controls| ==> controls[k].name != name
  {
    if |controls| == 0 then None
    else if controls[0].name == name then Some(controls[0])
    else FirstNamed(controls[1..], name)
  }

  /** A required field is present and not blank. */
  predicate Filled(controls: seq<Control>, name: string) {
    var c := FirstNamed(controls, name);
    c.Some? && NotBlank(c.value.value)
  }

  /**
   * `canProceed`: step 1 needs a type, step 2 a service; step 3 checks the
   * required fields, of which there are none, so steps 3 and 4 always pass;
   * any other step never does.
   */
  function CanProceed(f: Form, controls: seq<Control>): (ok: bool)
    ensures ok <==>
      || (f.currentStep == 1 && f.step1.Some?)
      || (f.currentStep == 2 && f.step2.Some?)
      || f.currentStep == 3
      || f.currentStep == 4
  {
    if f.currentStep == 1 then f.step1.Some?
    else if f.currentStep == 2 then f.step2.Some?
    else if f.currentStep == 3 then forall name :: name in RequiredFields ==> Filled(controls, name)
    else f.currentStep == 4
  }

  // ---------------------------------------------------------------------
  // Transitions

  /** Clicking a step-1 card: records the choice and nothing else. */
  function SelectHelpType(f: Form, choice: HelpType): (r: Form)
    ensures r.step1 == Some(choice)
    ensures r.currentStep == f.currentStep && r.step2 == f.step2 && r.step3 == f.step3 && r.reference == f.reference
  {
    f.(step1 := Some(choice))
  }

  /** Clicking a step-2 option: records the choice and nothing else. */
  function SelectService(f: Form, choice: Service): (r: Form)
    ensures r.step2 == Some(choice)
    ensures r.currentStep == f.currentStep && r.step1 == f.step1 && r.step3 == f.step3 && r.reference == f.reference
  {
    f.(step2 := Some(choice))
  }

  /** `showStep(n)`: moves to step n. */
  function ShowStep(f: Form, n: int): Form {
    f.(currentStep := n)
  }

  /** `previousStep`: one step back, with no gate; nothing happens on step 1. */
  function PreviousStep(f: Form): (r: Form)
    ensures f.currentStep > 1 ==> r.currentStep == f.currentStep - 1
    ensures f.currentStep <= 1 ==> r == f
    ensures r.step1 == f.step1 && r.step2 == f.step2 && r.step3 == f.step3 && r.reference == f.reference
  {
    if f.currentStep > 1 then ShowStep(f, f.currentStep - 1) else f
  }

  /**
   * `collectStep3Data`: every control's value under its name, assigned in
   * document order. The keys are exactly the controls' names.
   */
  function CollectStep3(controls: seq<Control>): (r: map<string, string>)
    ensures forall k :: 0 <= k < |controls| ==> controls[k].name in r
    ensures forall name :: name in r ==> exists k :: 0 <= k < |controls| && controls[k].name == name
  {
    if |controls| == 0 then map[]
    else
      var init := controls[..|controls| - 1];
      var last := controls[|controls| - 1];
      assert forall k :: 0 <= k < |init| ==> init[k] == controls[k];
      CollectStep3(init)[last.name := last.value]
  }

  /** When controls share a name, the value of the last of them is the one collected. */
  lemma {:induction false} LaterControlWins(controls: seq<Control>, k: int)
    requires 0 <= k < |controls| && IsLastNamed(controls, k)
    ensures controls[k].name in CollectStep3(controls)
    ensures CollectStep3(controls)[controls[k].name] == controls[k].value
  {
    if k < |controls| - 1 {
      var init := controls[..|controls| - 1];
      assert init[k] == controls[k];
      assert IsLastNamed(init, k);
      LaterControlWins(init, k);
    }
  }

  /** No control after position k shares its name. */
  predicate IsLastNamed(controls: seq<Control>, k: int)
    requires 0 <= k < |controls|
  {
    forall l :: k < l < |controls| ==> controls[l].name != controls[k].name
  }

  /**
   * `submitForm`: collects the step-3 data, replacing whatever was there,
   * shows the given reference number and stays on (or moves to) step 4. The
   * reference number is produced from the clock and a random source and is
   * taken here as an input.
   */
  function SubmitForm(f: Form, controls: seq<Control>, reference: string): (r: Form)
    ensures r.currentStep == 4
    ensures r.step3 == CollectStep3(controls)
    ensures r.reference == Some(reference)
    ensures r.step1 == f.step1 && r.step2 == f.step2
  {
    ShowStep(f.(step3 := CollectStep3(controls), reference := Some(reference)), 4)
  }

  /**
   * `nextStep`: nothing happens unless the current step's gate passes; on
   * steps 1 to 3 it then moves exactly one step on, whatever type was chosen;
   * on step 4 it submits.
   */
  function NextStep(f: Form, controls: seq<Control>, reference: string): (r: Form)
    ensures !CanProceed(f, controls) ==> r == f
    ensures CanProceed(f, controls) && 1 <= f.currentStep <= 3 ==> r == f.(currentStep := f.currentStep + 1)
    ensures CanProceed(f, controls) && f.currentStep == 4 ==> r == SubmitForm(f, controls, reference)
  {
    if CanProceed(f, controls) then
      if f.currentStep == 4 then SubmitForm(f, controls, reference)
      else ShowStep(f, f.currentStep + 1)
    else f
  }

  /** A user interaction with the form. */
  datatype Event =
    | PickType(helpType: HelpType)
    | PickService(service: Service)
    | Previous
    | Next(controls: seq<Control>, reference: string)

  function Apply(f: Form, e: Event): Form {
    match e
    case PickType(t) => SelectHelpType(f, t)
    case PickService(s) => SelectService(f, s)
    case Previous => PreviousStep(f)
    case Next(controls, reference) => NextStep(f, controls, reference)
  }

  /** The form after a sequence of interactions. */
  function Run(f: Form, events: seq<Event>): Form
    decreases |events|
  {
    if |events| == 0 then f else Run(Apply(f, events[0]), events[1..])
  }

  /** Every interaction keeps the step in 1..4 and step-3 data absent until a submission. */
  lemma ApplyPreservesValid(f: Form, e: Event)
    requires Valid(f)
    ensures Valid(Apply(f, e))
  {
  }

  /** Every form reachable from the constructor is valid. */
  lemma {:induction false} ReachableFormsValid(f: Form, events: seq<Event>)
    requires Valid(f)
    ensures Valid(Run(f, events))
    decreases |events|
  {
    if |events| > 0 {
      ApplyPreservesValid(f, events[0]);
      ReachableFormsValid(Apply(f, events[0]), events[1..]);
    }
  }

  /**
   * Next on step 3 shows the submission panel without submitting: no
   * reference number is generated and no step-3 data is collected; only the
   * Submit click on step 4 does that.
   */
  lemma StepThreeShowsSubmissionUnsubmitted(f: Form, controls: seq<Control>, reference: string)
    requires Valid(f) && f.currentStep == 3 && f.reference.None?
    ensures NextStep(f, controls, reference).currentStep == 4
    ensures View(NextStep(f, controls, reference), controls).visiblePanel == 4
    ensures NextStep(f, controls, reference).reference.None?
    ensures NextStep(f, controls, reference).step3 == map[]
  {
  }

  /** Next on step 1 does nothing until a type has been picked. */
  lemma NextNeedsType(f: Form, controls: seq<Control>, reference: string)
    requires f.currentStep == 1 && f.step1.None?
    ensures NextStep(f, controls, reference) == f
  {
  }

  /** Once a type is picked, Next on step 1 moves to step 2. */
  lemma PickThenNext(f: Form, t: HelpType, controls: seq<Control>, reference: string)
    requires f.currentStep == 1
    ensures NextStep(SelectHelpType(f, t), controls, reference).currentStep == 2
  {
  }

  /** Submitting twice stays on step 4 and shows the second reference. */
  lemma SubmitTwice(f: Form, c1: seq<Control>, r1: string, c2: seq<Control>, r2: string)
    requires f.currentStep == 4
    ensures NextStep(NextStep(f, c1, r1), c2, r2).currentStep == 4
    ensures NextStep(NextStep(f, c1, r1), c2, r2).reference == Some(r2)
    ensures NextStep(NextStep(f, c1, r1), c2, r2).step3 == CollectStep3(c2)
  {
  }

  // ---------------------------------------------------------------------
  // Derived view

  /** The highlighting of one step-indicator entry. */
  datatype Mark = Pending | Active | Completed

  /** The navigation buttons. */
  datatype Navigation = Navigation(previousVisible: bool, nextLabel: string, nextDisabled: bool)

  /** What the block shows for a form state. */
  datatype Screen = Screen(indicator: seq<Mark>, visiblePanel: int, navigation: Navigation)

  /** `updateStepIndicator`: step n is active when current, completed when earlier. */
  function StepIndicator(current: int): (marks: seq<Mark>)
    ensures |marks| == 4
    ensures forall i :: 0 <= i < 4 ==> (marks[i] == Active <==> i + 1 == current)
    ensures forall i :: 0 <= i < 4 ==> (marks[i] == Completed <==> i + 1 < current)
    ensures forall i :: 0 <= i < 4 ==> (marks[i] == Pending <==> i + 1 > current)
  {
    seq(4, i requires 0 <= i < 4 => if i + 1 == current then Active else if i + 1 < current then Completed else Pending)
  }

  /**
   * `updateNavigation`: Previous shows after step 1, the label reads
   * "Submit" only on step 4, and Next is disabled exactly when the gate
   * fails.
   */
  function UpdateNavigation(f: Form, controls: seq<Control>): (nav: Navigation)
    ensures nav.previousVisible <==> f.currentStep > 1
    ensures nav.nextLabel == "Submit" <==> f.currentStep == 4
    ensures f.currentStep != 4 ==> nav.nextLabel == "Next"
    ensures nav.nextDisabled <==> !CanProceed(f, controls)
    ensures f.currentStep == 1 ==> (nav.nextDisabled <==> f.step1.None?)
    ensures f.currentStep == 2 ==> (nav.nextDisabled <==> f.step2.None?)
  {
    Navigation(f.currentStep > 1, if f.currentStep == 4 then "Submit" else "Next", !CanProceed(f, controls))
  }

  /** `showStep`'s rendering: the panel of the current step, the indicator and the navigation. */
  function View(f: Form, controls: seq<Control>): (s: Screen)
    ensures s.visiblePanel == f.currentStep
    ensures s.indicator == StepIndicator(f.currentStep)
    ensures s.navigation == UpdateNavigation(f, controls)
    ensures s.navigation.nextDisabled ==> f.currentStep != 3 && f.currentStep != 4
  {
    Screen(StepIndicator(f.currentStep), f.currentStep, UpdateNavigation(f, controls))
  }
}
