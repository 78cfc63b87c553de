/**
 * The tool-creation wizard: five ordered steps, a validator per step that
 * records its message in an error map, and the navigation handlers that
 * move between steps (forward only after validation, backward freely,
 * by click only to the current step or an earlier one).
 *
 * The tool being edited belongs to the host; the wizard only reads its
 * `type` and `name` and the host's preview text, so those are parameters
 * here. The asynchronous `onPreview` call is a success/failure outcome
 * supplied by the caller.
 */
module ToolCreationWizard {
  import opened Wrappers
  import opened Text

  datatype Step = TypeStep | Basic | Config | Preview | Review

  /** The step list, in display order. */
  const Steps: seq<Step> := [TypeStep, Basic, Config, Preview, Review]

  /** The tool type whose code the user writes by hand; it needs no generated preview. */
  const CustomCode: string := "custom_code"

  const TypeMessage: string := "Please select a tool type"
  const NameMessage: string := "Tool name is required"
  const PreviewMessage: string := "Please generate preview code first"

  /** The two fields of the tool draft that the wizard inspects. */
  datatype Draft = Draft(toolType: string, name: string)

  /** `steps.findIndex(s => s.key === step)`. */
  function IndexOf(step: Step): (i: nat)
    ensures i < |Steps| && Steps[i] == step
  {
    match step
    case TypeStep => 0
    case Basic => 1
    case Config => 2
    case Preview => 3
    case Review => 4
  }

  lemma IndexOfInjective(a: Step, b: Step)
    ensures IndexOf(a) == IndexOf(b) ==> a == b
  {
  }

  /** Editing an existing tool starts on the basic step, since its type is locked. */
  function InitialStep(editingTool: bool): (s: Step)
    ensures editingTool ==> s == Basic
    ensures !editingTool ==> s == TypeStep
  {
    if editingTool then Basic else TypeStep
  }

  /** A blank text in JavaScript's sense: empty, or empty once trimmed. */
  predicate Blank(s: string) {
    s == "" || JsTrim(s) == ""
  }

  /** The message `validateStep(step)` records; `None` means the step is valid. */
  function StepError(step: Step, draft: Draft, previewCode: string): Option<string> {
    match step
    case TypeStep => if draft.toolType == "" then Some(TypeMessage) else None
    case Basic => if Blank(draft.name) then Some(NameMessage) else None
    case Config => None
    case Preview =>
      if draft.toolType != CustomCode && Blank(previewCode) then Some(PreviewMessage) else None
    case Review => None
  }

  predicate StepValid(step: Step, draft: Draft, previewCode: string) {
    StepError(step, draft, previewCode).None?
  }

  /** A text is blank exactly when every character of it is whitespace. */
  lemma BlankIffAllWhitespace(s: string)
    ensures Blank(s) <==> forall i :: 0 <= i < |s| ==> IsJsWhitespace(s[i])
  {
    TrimEmptyIffAllWhitespace(s, IsJsWhitespace);
  }

  /** What each validator accepts, stated without trimming: the type step needs a type,
      the basic step a name holding a character that is not whitespace, the preview step
      such a preview text unless the tool is custom code; the other two always pass. */
  lemma ValidationRules(draft: Draft, previewCode: string)
    ensures StepValid(TypeStep, draft, previewCode) <==> draft.toolType != ""
    ensures StepValid(Basic, draft, previewCode)
        <==> exists i :: 0 <= i < |draft.name| && !IsJsWhitespace(draft.name[i])
    ensures StepValid(Config, draft, previewCode) && StepValid(Review, draft, previewCode)
    ensures StepValid(Preview, draft, previewCode)
        <==> draft.toolType == CustomCode
             || exists i :: 0 <= i < |previewCode| && !IsJsWhitespace(previewCode[i])
  {
    BlankIffAllWhitespace(draft.name);
    BlankIffAllWhitespace(previewCode);
  }

  /** A failing validator records the message of its step. */
  lemma ErrorMessages(draft: Draft, previewCode: string)
    ensures !StepValid(TypeStep, draft, previewCode) ==> StepError(TypeStep, draft, previewCode) == Some(TypeMessage)
    ensures !StepValid(Basic, draft, previewCode) ==> StepError(Basic, draft, previewCode) == Some(NameMessage)
    ensures !StepValid(Preview, draft, previewCode) ==> StepError(Preview, draft, previewCode) == Some(PreviewMessage)
  {
  }

  /** Whether `handleNext` has to generate the preview before leaving the current step:
      only from the configuration step, for a generated tool, with no preview text at all. */
  predicate NeedsPreview(step: Step, draft: Draft, previewCode: string) {
    step == Config && draft.toolType != CustomCode && previewCode == ""
  }

  /** The step after `step`, or `step` itself at the end of the list. */
  function Advance(step: Step): (s: Step)
    ensures IndexOf(step) < |Steps| - 1 ==> IndexOf(s) == IndexOf(step) + 1
    ensures IndexOf(step) == |Steps| - 1 ==> s == step
  {
    var i := IndexOf(step) + 1;
    if i < |Steps| then Steps[i] else step
  }

  /** The outcome of one `handleNext`: the new step and how many times `onPreview` ran. */
  datatype NextOutcome = NextOutcome(step: Step, previewCalls: nat)

  function NextTransition(step: Step, draft: Draft, previewCode: string, previewSucceeds: bool): NextOutcome {
    if !StepValid(step, draft, previewCode) then NextOutcome(step, 0)
    else if NeedsPreview(step, draft, previewCode) then
      NextOutcome(if previewSucceeds then Advance(step) else step, 1)
    else NextOutcome(Advance(step), 0)
  }

  /** `handlePrevious`: one step back, nothing at the first step. */
  function Retreat(step: Step): (s: Step)
    ensures IndexOf(step) > 0 ==> IndexOf(s) == IndexOf(step) - 1
    ensures IndexOf(step) == 0 ==> s == step
  {
    var i := IndexOf(step);
    if i > 0 then Steps[i - 1] else step
  }

  /** `handleStepClick(target, index)`: the target is taken when its index is at most the current one. */
  function Click(step: Step, target: Step, index: int): Step {
    if index <= IndexOf(step) then target else step
  }

  /** The effect on `editingTool`: leaving edit mode sends the wizard back to the type step. */
  function AfterEditingChange(step: Step, editingTool: bool): Step {
    if !editingTool && step != TypeStep then TypeStep else step
  }

  /** The submit button is disabled while submitting, or when a generated tool has no preview text. */
  function SubmitDisabled(isSubmitting: bool, draft: Draft, previewCode: string): bool {
    isSubmitting || (draft.toolType != CustomCode && previewCode == "")
  }

  /** Next is offered before the last step, submit on it, Previous after the first. */
  predicate ShowsNext(step: Step) { IndexOf(step) < |Steps| - 1 }
  predicate ShowsPrevious(step: Step) { IndexOf(step) > 0 }

  /** `stepErrors`: one optional message per step. */
  datatype StepErrors = StepErrors(
    typeError: Option<string>, basicError: Option<string>, configError: Option<string>,
    previewError: Option<string>, reviewError: Option<string>)
  {
    function Get(step: Step): Option<string> {
      match step
      case TypeStep => typeError
      case Basic => basicError
      case Config => configError
      case Preview => previewError
      case Review => reviewError
    }

    /** `{ ...errors, [step]: message }`. */
    function With(step: Step, message: Option<string>): (r: StepErrors)
      ensures r.Get(step) == message
      ensures forall s: Step :: s != step ==> r.Get(s) == Get(s)
    {
      match step
      case TypeStep => this.(typeError := message)
      case Basic => this.(basicError := message)
      case Config => this.(configError := message)
      case Preview => this.(previewError := message)
      case Review => this.(reviewError := message)
    }
  }

  const NoErrors: StepErrors := StepErrors(None, None, None, None, None)

  class Wizard {
    var currentStep: Step
    var stepErrors: StepErrors

    /** Mounting the wizard. */
    constructor (editingTool: bool)
      ensures currentStep == InitialStep(editingTool)
      ensures forall s: Step :: stepErrors.Get(s) == None
    {
      currentStep := InitialStep(editingTool);
      stepErrors := NoErrors;
    }

    /** The effect that runs when `editingTool` changes. */
    method OnEditingToolChange(editingTool: bool)
      modifies this
      ensures !editingTool ==> currentStep == TypeStep
      ensures editingTool ==> currentStep == old(currentStep)
      ensures stepErrors == old(stepErrors)
    {
      if !editingTool && currentStep != TypeStep {
        currentStep := TypeStep;
      }
    }

    /** `validateStep(step)`: rewrites the error entry of `step` and no other. */
    method ValidateStep(step: Step, draft: Draft, previewCode: string) returns (ok: bool)
      modifies this
      ensures ok == StepValid(step, draft, previewCode)
      ensures stepErrors.Get(step) == StepError(step, draft, previewCode)
      ensures forall s: Step :: s != step ==> stepErrors.Get(s) == old(stepErrors.Get(s))
      ensures currentStep == old(currentStep)
    {
      var error := StepError(step, draft, previewCode);
      ok := error.None?;
      stepErrors := stepErrors.With(step, error);
    }

    /** `handleNext`, with the outcome of `onPreview` given as `previewSucceeds`. */
    method HandleNext(draft: Draft, previewCode: string, previewSucceeds: bool) returns (previewCalls: nat)
      modifies this
      ensures currentStep == NextTransition(old(currentStep), draft, previewCode, previewSucceeds).step
      ensures previewCalls == NextTransition(old(currentStep), draft, previewCode, previewSucceeds).previewCalls
      ensures stepErrors.Get(old(currentStep)) == StepError(old(currentStep), draft, previewCode)
      ensures forall s: Step :: s != old(currentStep) ==> stepErrors.Get(s) == old(stepErrors.Get(s))
    {
      previewCalls := 0;
      var ok := ValidateStep(currentStep, draft, previewCode);
      if !ok {
        return;
      }
      if currentStep == Config && draft.toolType != CustomCode && previewCode == "" {
        previewCalls := 1;
        if previewSucceeds {
          var next := IndexOf(currentStep) + 1;
          if next < |Steps| {
            currentStep := Steps[next];
          }
        }
      } else {
        var next := IndexOf(currentStep) + 1;
        if next < |Steps| {
          currentStep := Steps[next];
        }
      }
    }

    /** `handlePrevious`: no validation. */
    method HandlePrevious()
      modifies this
      ensures currentStep == Retreat(old(currentStep))
      ensures stepErrors == old(stepErrors)
    {
      var i := IndexOf(currentStep);
      if i > 0 {
        currentStep := Steps[i - 1];
      }
    }

    /** `handleStepClick(step, index)`. */
    method HandleStepClick(step: Step, index: int)
      modifies this
      ensures index <= IndexOf(old(currentStep)) ==> currentStep == step
      ensures index > IndexOf(old(currentStep)) ==> currentStep == old(currentStep)
      ensures stepErrors == old(stepErrors)
    {
      if index <= IndexOf(currentStep) {
        currentStep := step;
      }
    }
  }

  /** `handleNext` stays put when validation fails, moves exactly one step forward when it
      passes and no preview has to be generated, and never leaves the last step. */
  lemma NextMovesAtMostOne(step: Step, draft: Draft, previewCode: string, previewSucceeds: bool)
    ensures var r := NextTransition(step, draft, previewCode, previewSucceeds);
      && (!StepValid(step, draft, previewCode) ==> r.step == step && r.previewCalls == 0)
      && (IndexOf(r.step) == IndexOf(step) || IndexOf(r.step) == IndexOf(step) + 1)
      && (r.step != step ==> StepValid(step, draft, previewCode))
      && (step == Review ==> r.step == Review)
      && (StepValid(step, draft, previewCode) && !NeedsPreview(step, draft, previewCode) && step != Review
          ==> IndexOf(r.step) == IndexOf(step) + 1)
  {
  }

  /** The navigation buttons are offered exactly where they move: Previous everywhere but the
      first step, Next everywhere but the last, where the submit button takes its place. */
  lemma NavigationButtons(step: Step)
    ensures ShowsPrevious(step) <==> Retreat(step) != step
    ensures ShowsPrevious(step) <==> step != TypeStep
    ensures ShowsNext(step) <==> Advance(step) != step
    ensures ShowsNext(step) <==> step != Review
  {
  }

  /** `onPreview` runs exactly once when leaving the configuration step of a generated tool
      that has no preview text, and never otherwise; its failure keeps the wizard on
      the configuration step, its success moves to the preview step. */
  lemma NextCallsPreviewOnlyWhenNeeded(step: Step, draft: Draft, previewCode: string, previewSucceeds: bool)
    ensures var r := NextTransition(step, draft, previewCode, previewSucceeds);
      && (r.previewCalls == 1 <==> NeedsPreview(step, draft, previewCode))
      && (r.previewCalls == 0 <==> !NeedsPreview(step, draft, previewCode))
      && (NeedsPreview(step, draft, previewCode) ==> r.step == (if previewSucceeds then Preview else Config))
  {
  }

  /** With a custom-code tool the configuration step never asks for a preview. */
  lemma CustomCodeNeverGeneratesPreview(draft: Draft, previewCode: string, previewSucceeds: bool)
    requires draft.toolType == CustomCode
    ensures NextTransition(Config, draft, previewCode, previewSucceeds) == NextOutcome(Preview, 0)
  {
  }

  /** The generation and submit rules test for empty preview text, the preview validator for
      blank text: a preview made only of whitespace skips generation and enables submit, yet
      fails the preview step's validation. */
  lemma WhitespacePreviewAsymmetry(draft: Draft, previewCode: string, previewSucceeds: bool)
    requires draft.toolType != CustomCode
    requires previewCode != ""
    requires forall i :: 0 <= i < |previewCode| ==> IsJsWhitespace(previewCode[i])
    ensures NextTransition(Config, draft, previewCode, previewSucceeds) == NextOutcome(Preview, 0)
    ensures !SubmitDisabled(false, draft, previewCode)
    ensures StepError(Preview, draft, previewCode) == Some(PreviewMessage)
    ensures NextTransition(Preview, draft, previewCode, previewSucceeds) == NextOutcome(Preview, 0)
  {
    BlankIffAllWhitespace(previewCode);
  }

  /** Submit is enabled exactly when not submitting and the tool is custom code or has
      preview text; enabled submit with a valid preview step needs non-blank text. */
  lemma SubmitRule(isSubmitting: bool, draft: Draft, previewCode: string)
    ensures !SubmitDisabled(isSubmitting, draft, previewCode)
        <==> !isSubmitting && (draft.toolType == CustomCode || |previewCode| > 0)
    ensures StepValid(Preview, draft, previewCode) ==> (SubmitDisabled(isSubmitting, draft, previewCode) <==> isSubmitting)
  {
  }

  /** The user actions that move the wizard. */
  datatype Event =
    | NextEvent(draft: Draft, previewCode: string, previewSucceeds: bool)
    | PreviousEvent
    | ClickEvent(target: Step, index: int)
    | EditingEvent(editingTool: bool)

  function Apply(step: Step, e: Event): Step {
    match e
    case NextEvent(d, p, ok) => NextTransition(step, d, p, ok).step
    case PreviousEvent => Retreat(step)
    case ClickEvent(t, i) => Click(step, t, i)
    case EditingEvent(editing) => AfterEditingChange(step, editing)
  }

  function Run(step: Step, events: seq<Event>): Step
    decreases events
  {
    if events == [] then step else Run(Apply(step, events[0]), events[1..])
  }

  function CountNext(events: seq<Event>): nat {
    if events == [] then 0
    else (if events[0].NextEvent? then 1 else 0) + CountNext(events[1..])
  }

  /** A click as the step indicator issues it: the index is the target's own. */
  predicate ConsistentClick(e: Event) {
    e.ClickEvent? ==> e.index == IndexOf(e.target)
  }

  /** Only `handleNext` gains ground: after any run of events whose clicks come from the step
      indicator, the step index exceeds the starting one by at most the number of Next events. */
  lemma {:induction false} OnlyNextGainsGround(step: Step, events: seq<Event>)
    requires forall k :: 0 <= k < |events| ==> ConsistentClick(events[k])
    ensures IndexOf(Run(step, events)) <= IndexOf(step) + CountNext(events)
    decreases events
  {
    if events != [] {
      var e := events[0];
      assert ConsistentClick(e);
      var next := Apply(step, e);
      if e.NextEvent? {
        NextMovesAtMostOne(step, e.draft, e.previewCode, e.previewSucceeds);
      } else {
        assert IndexOf(next) <= IndexOf(step);
      }
      OnlyNextGainsGround(next, events[1..]);
    }
  }

  /** Hence a new tool reaches the review step only through at least four Next events. */
  lemma ReviewNeedsFourNexts(events: seq<Event>)
    requires forall k :: 0 <= k < |events| ==> ConsistentClick(events[k])
    ensures Run(InitialStep(false), events) == Review ==> CountNext(events) >= 4
  {
    OnlyNextGainsGround(TypeStep, events);
  }

  /** The click handler itself trusts its index: an index that is not the target's own
      can jump forward, which the step indicator never does. */
  lemma ClickTrustsIndex()
    ensures Click(TypeStep, Review, 0) == Review
  {
  }
}
