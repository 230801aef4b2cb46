/** The new-order wizard: a form of ten fields filled in over five steps, a step
    counter bounded by 1..6 (6 is the "Order Submitted!" view), the add-on price
    total, and the submission flag. */
module NewOrder {
  import opened Wrappers
  import opened Schema
  import opened Seqs
  import opened AddOnPricing

  /** The form's values. A string field no default value covers is missing
      (`None`) until its input is mounted (`Mount`) or a button sets it. */
  datatype OrderForm = OrderForm(
    projectName: Option<string>,
    productUrl: Option<string>,
    platforms: seq<string>,
    goal: Option<string>,
    targetAudience: Option<string>,
    keyBenefits: Option<string>,
    tone: Option<string>,
    hooks: seq<string>,
    aspectRatios: seq<string>,
    addOns: seq<string>)

  /** `defaultValues`: only the four arrays are given, all empty. */
  const DefaultForm := OrderForm(None, None, [], None, None, None, None, [], [], [])

  /** The string fields: typed into an input or set by a button. */
  datatype TextField = ProjectName | ProductUrl | Goal | TargetAudience | KeyBenefits | Tone

  /** The schema's field paths. */
  datatype Field = ProjectNameField | ProductUrlField | PlatformsField | GoalField
                 | TargetAudienceField | KeyBenefitsField | ToneField | HooksField
                 | AspectRatiosField | AddOnsField

  /** The multi-select fields, each updated by the toggle-membership rule. */
  datatype ChoiceField = Platforms | AspectRatios | AddOns

  function Choices(f: OrderForm, field: ChoiceField): seq<string> {
    match field
    case Platforms => f.platforms
    case AspectRatios => f.aspectRatios
    case AddOns => f.addOns
  }

  function WithChoices(f: OrderForm, field: ChoiceField, vs: seq<string>): (r: OrderForm)
    ensures Choices(r, field) == vs
    ensures forall g :: g != field ==> Choices(r, g) == Choices(f, g)
  {
    match field
    case Platforms => f.(platforms := vs)
    case AspectRatios => f.(aspectRatios := vs)
    case AddOns => f.(addOns := vs)
  }

  function WithText(f: OrderForm, field: TextField, value: string): OrderForm {
    match field
    case ProjectName => f.(projectName := Some(value))
    case ProductUrl => f.(productUrl := Some(value))
    case Goal => f.(goal := Some(value))
    case TargetAudience => f.(targetAudience := Some(value))
    case KeyBenefits => f.(keyBenefits := Some(value))
    case Tone => f.(tone := Some(value))
  }

  /** Rendering step `step` registers its inputs: the name and URL inputs on
      step 1, the audience and benefits textareas on step 3. Registering a
      mounted input whose value is still missing stores the element's value,
      `""`; a value already held is kept. The goal and the tone are set by
      buttons only and stay missing until one is clicked. */
  function Mount(f: OrderForm, step: int): (r: OrderForm)
    ensures step == 1 ==> r.projectName == Some(f.projectName.GetOr("")) && r.productUrl == Some(f.productUrl.GetOr(""))
    ensures step != 1 ==> r.projectName == f.projectName && r.productUrl == f.productUrl
    ensures step == 3 ==> r.targetAudience == Some(f.targetAudience.GetOr("")) && r.keyBenefits == Some(f.keyBenefits.GetOr(""))
    ensures step != 3 ==> r.targetAudience == f.targetAudience && r.keyBenefits == f.keyBenefits
    ensures r.goal == f.goal && r.tone == f.tone && r.hooks == f.hooks
    ensures forall g :: Choices(r, g) == Choices(f, g)
  {
    if step == 1 then f.(projectName := Some(f.projectName.GetOr("")), productUrl := Some(f.productUrl.GetOr("")))
    else if step == 3 then f.(targetAudience := Some(f.targetAudience.GetOr("")), keyBenefits := Some(f.keyBenefits.GetOr("")))
    else f
  }

  // ---------------------------------------------------------------------------
  // The schema

  /** `z.string().url(...).optional().or(z.literal(''))`: missing, empty, or a URL. */
  predicate OptionalUrl(value: Option<string>, isUrl: string -> bool) {
    value.None? || value.value == "" || isUrl(value.value)
  }

  /** A present string of at least `n` characters. */
  predicate AtLeast(value: Option<string>, n: nat) {
    value.Some? && |value.value| >= n
  }

  /** Every rule of `orderSchema`, stated field by field. */
  predicate SchemaAccepts(f: OrderForm, isUrl: string -> bool) {
    && AtLeast(f.projectName, 2)
    && OptionalUrl(f.productUrl, isUrl)
    && |f.platforms| >= 1
    && AtLeast(f.goal, 1)
    && AtLeast(f.targetAudience, 10)
    && AtLeast(f.keyBenefits, 10)
    && AtLeast(f.tone, 1)
    && |f.hooks| >= 1
    && |f.aspectRatios| >= 1
  }

  /** Whether the rule on `field` holds; the add-ons carry no rule. */
  predicate Passes(f: OrderForm, isUrl: string -> bool, field: Field) {
    match field
    case ProjectNameField => AtLeast(f.projectName, 2)
    case ProductUrlField => OptionalUrl(f.productUrl, isUrl)
    case PlatformsField => |f.platforms| >= 1
    case GoalField => AtLeast(f.goal, 1)
    case TargetAudienceField => AtLeast(f.targetAudience, 10)
    case KeyBenefitsField => AtLeast(f.keyBenefits, 10)
    case ToneField => AtLeast(f.tone, 1)
    case HooksField => |f.hooks| >= 1
    case AspectRatiosField => |f.aspectRatios| >= 1
    case AddOnsField => true
  }

  /** The issues of the fields in `group`, in order: one per field whose rule
      fails. */
  function GroupIssues(f: OrderForm, isUrl: string -> bool, group: seq<Field>): (issues: seq<Issue<Field>>)
    ensures forall field :: field in Fields(issues) <==> field in group && !Passes(f, isUrl, field)
    ensures forall i :: i in issues ==> i in FieldIssues(f, isUrl, i.field)
  {
    if group == [] then []
    else
      var first := FieldIssues(f, isUrl, group[0]);
      var rest := GroupIssues(f, isUrl, group[1..]);
      FieldsAppend(first, rest);
      first + rest
  }

  /** The schema's check of one field, with the source's message. */
  function FieldIssues(f: OrderForm, isUrl: string -> bool, field: Field): (issues: seq<Issue<Field>>)
    ensures Fields(issues) == if Passes(f, isUrl, field) then {} else {field}
    ensures forall i :: i in issues ==> i.field == field
  {
    match field
    case ProjectNameField => MinLength(f.projectName, 2, field, "Project name is required")
    case ProductUrlField => Rule(OptionalUrl(f.productUrl, isUrl), field, "Please enter a valid URL")
    case PlatformsField => Rule(|f.platforms| >= 1, field, "Select at least one platform")
    case GoalField => MinLength(f.goal, 1, field, "Please select a goal")
    case TargetAudienceField => MinLength(f.targetAudience, 10, field, "Please describe your target audience")
    case KeyBenefitsField => MinLength(f.keyBenefits, 10, field, "Please describe key benefits")
    case ToneField => MinLength(f.tone, 1, field, "Please select a tone")
    case HooksField => Rule(|f.hooks| >= 1, field, "At least one hook is required")
    case AspectRatiosField => Rule(|f.aspectRatios| >= 1, field, "Select at least one aspect ratio")
    case AddOnsField => []
  }

  /** The schema's fields in declaration order. */
  const SchemaFields := [ProjectNameField, ProductUrlField, PlatformsField, GoalField,
                         TargetAudienceField, KeyBenefitsField, ToneField, HooksField,
                         AspectRatiosField, AddOnsField]

  /** The list names every field of the form. */
  lemma SchemaFieldsComplete()
    ensures forall field :: field in SchemaFields
  {
    forall field ensures field in SchemaFields {
      match field
      case ProjectNameField => assert SchemaFields[0] == field;
      case ProductUrlField => assert SchemaFields[1] == field;
      case PlatformsField => assert SchemaFields[2] == field;
      case GoalField => assert SchemaFields[3] == field;
      case TargetAudienceField => assert SchemaFields[4] == field;
      case KeyBenefitsField => assert SchemaFields[5] == field;
      case ToneField => assert SchemaFields[6] == field;
      case HooksField => assert SchemaFields[7] == field;
      case AspectRatiosField => assert SchemaFields[8] == field;
      case AddOnsField => assert SchemaFields[9] == field;
    }
  }

  /** The schema accepts exactly when the rule of every field holds. */
  lemma AcceptsWhenAllPass(f: OrderForm, isUrl: string -> bool)
    ensures SchemaAccepts(f, isUrl) <==> forall field :: Passes(f, isUrl, field)
  {
    if SchemaAccepts(f, isUrl) {
      forall field ensures Passes(f, isUrl, field) {
        match field
        case _ =>
      }
    } else {
      assert !Passes(f, isUrl, ProjectNameField) || !Passes(f, isUrl, ProductUrlField)
          || !Passes(f, isUrl, PlatformsField) || !Passes(f, isUrl, GoalField)
          || !Passes(f, isUrl, TargetAudienceField) || !Passes(f, isUrl, KeyBenefitsField)
          || !Passes(f, isUrl, ToneField) || !Passes(f, isUrl, HooksField)
          || !Passes(f, isUrl, AspectRatiosField);
    }
  }

  /** The issues `orderSchema` reports, in field order. `isUrl` stands for zod's
      URL check. */
  function ValidateOrder(f: OrderForm, isUrl: string -> bool): (issues: seq<Issue<Field>>)
    ensures forall field :: field in Fields(issues) <==> !Passes(f, isUrl, field)
    ensures issues == [] <==> SchemaAccepts(f, isUrl)
    ensures forall i :: i in issues ==> i in FieldIssues(f, isUrl, i.field)
  {
    var issues := GroupIssues(f, isUrl, SchemaFields);
    FieldsEmpty(issues);
    SchemaFieldsComplete();
    AcceptsWhenAllPass(f, isUrl);
    issues
  }

  /** The target-audience rule sits between 9 and 10 characters. */
  lemma TargetAudienceBoundary(f: OrderForm, isUrl: string -> bool)
    ensures f.targetAudience.Some? && |f.targetAudience.value| == 9 ==>
              TargetAudienceField in Fields(ValidateOrder(f, isUrl))
    ensures f.targetAudience.Some? && |f.targetAudience.value| == 10 ==>
              TargetAudienceField !in Fields(ValidateOrder(f, isUrl))
  {
  }

  /** An empty product URL is accepted whatever the URL check says, and so is a
      missing one; the rule never rejects an absent add-on list either. */
  lemma ProductUrlMayBeEmpty(f: OrderForm, isUrl: string -> bool)
    requires f.productUrl == Some("") || f.productUrl == None
    ensures ProductUrlField !in Fields(ValidateOrder(f, isUrl))
  {
  }

  /** A form with nothing entered fails every rule except the optional URL's. */
  lemma NothingEnteredRejected(f: OrderForm, isUrl: string -> bool)
    requires f.projectName.None? && f.productUrl.None? && f.platforms == [] && f.goal.None?
    requires f.targetAudience.None? && f.keyBenefits.None? && f.tone.None?
    requires f.hooks == [] && f.aspectRatios == []
    ensures Fields(ValidateOrder(f, isUrl)) ==
              {ProjectNameField, PlatformsField, GoalField, TargetAudienceField, KeyBenefitsField, ToneField, HooksField, AspectRatiosField}
  {
    var fs := Fields(ValidateOrder(f, isUrl));
    forall field ensures field in fs <==> field in {ProjectNameField, PlatformsField, GoalField, TargetAudienceField, KeyBenefitsField, ToneField, HooksField, AspectRatiosField} {
      assert field in fs <==> !Passes(f, isUrl, field);
    }
  }

  /** Once the name input and both textareas have been mounted, zod's
      "Required" can only come from the goal or the tone: every other field
      reports its own message. */
  lemma MountedRequiredOnlyForButtons(f: OrderForm, isUrl: string -> bool)
    requires f.projectName.Some? && f.targetAudience.Some? && f.keyBenefits.Some?
    ensures forall i :: i in ValidateOrder(f, isUrl) && i.message == RequiredMessage ==>
              i.field == GoalField || i.field == ToneField
  {
    forall i | i in ValidateOrder(f, isUrl) && i.message == RequiredMessage
      ensures i.field == GoalField || i.field == ToneField
    {
      RequiredMeansMissing(f, isUrl, i.field, i);
    }
  }

  /** "Required" comes only from a string field whose value is missing. */
  lemma RequiredMeansMissing(f: OrderForm, isUrl: string -> bool, field: Field, i: Issue<Field>)
    requires i in FieldIssues(f, isUrl, field) && i.message == RequiredMessage
    ensures field == ProjectNameField ==> f.projectName.None?
    ensures field == TargetAudienceField ==> f.targetAudience.None?
    ensures field == KeyBenefitsField ==> f.keyBenefits.None?
    ensures field in {ProjectNameField, GoalField, TargetAudienceField, KeyBenefitsField, ToneField}
  {
    match field
    case ProjectNameField =>
    case ProductUrlField =>
    case PlatformsField =>
    case GoalField =>
    case TargetAudienceField =>
    case KeyBenefitsField =>
    case ToneField =>
    case HooksField =>
    case AspectRatiosField =>
    case AddOnsField =>
  }

  /** Pressing "Next" straight through to step 5 without entering anything
      leaves the name and URL inputs and both textareas holding "", and the four
      button-set or toggled fields as they started. */
  lemma UntouchedAtStepFive()
    ensures Mount(Mount(DefaultForm, 1), 3)
              == DefaultForm.(projectName := Some(""), productUrl := Some(""),
                              targetAudience := Some(""), keyBenefits := Some(""))
    ensures UntouchedInputs(Mount(Mount(DefaultForm, 1), 3))
  {
  }

  /** A form whose name input and textareas hold "", whose URL input holds ""
      and whose goal is missing: what a user who only pressed "Next" submits. */
  predicate UntouchedInputs(f: OrderForm) {
    f.projectName == Some("") && f.productUrl == Some("") && f.goal == None
    && f.targetAudience == Some("") && f.keyBenefits == Some("")
  }

  /** On such a form the untouched inputs fail on their own messages. */
  lemma EmptyNameMessage(f: OrderForm, isUrl: string -> bool)
    requires UntouchedInputs(f)
    ensures Issue(ProjectNameField, "Project name is required") in ValidateOrder(f, isUrl)
  {
    ReportedIssue(f, isUrl, ProjectNameField, "Project name is required");
  }

  lemma EmptyAudienceMessage(f: OrderForm, isUrl: string -> bool)
    requires UntouchedInputs(f)
    ensures Issue(TargetAudienceField, "Please describe your target audience") in ValidateOrder(f, isUrl)
  {
    ReportedIssue(f, isUrl, TargetAudienceField, "Please describe your target audience");
  }

  lemma EmptyBenefitsMessage(f: OrderForm, isUrl: string -> bool)
    requires UntouchedInputs(f)
    ensures Issue(KeyBenefitsField, "Please describe key benefits") in ValidateOrder(f, isUrl)
  {
    ReportedIssue(f, isUrl, KeyBenefitsField, "Please describe key benefits");
  }

  /** The goal, set only by a button, is the one that draws "Required"; the
      empty URL passes. */
  lemma MissingGoalMessage(f: OrderForm, isUrl: string -> bool)
    requires UntouchedInputs(f)
    ensures Issue(GoalField, RequiredMessage) in ValidateOrder(f, isUrl)
    ensures ProductUrlField !in Fields(ValidateOrder(f, isUrl))
  {
    ReportedIssue(f, isUrl, GoalField, RequiredMessage);
  }

  /** A field whose rule gives exactly one issue has that issue reported. */
  lemma ReportedIssue(f: OrderForm, isUrl: string -> bool, field: Field, message: string)
    requires FieldIssues(f, isUrl, field) == [Issue(field, message)]
    ensures Issue(field, message) in ValidateOrder(f, isUrl)
  {
    var issues := ValidateOrder(f, isUrl);
    FieldsSingle(Issue(field, message));
    assert field in Fields(issues);
    var k :| 0 <= k < |issues| && issues[k].field == field;
    assert issues[k] in issues;
    assert issues[k] in FieldIssues(f, isUrl, field);
  }

  /** The initial form is rejected: nothing a step needs has been entered. */
  lemma DefaultFormRejected(isUrl: string -> bool)
    ensures Fields(ValidateOrder(DefaultForm, isUrl)) ==
              {ProjectNameField, PlatformsField, GoalField, TargetAudienceField, KeyBenefitsField, ToneField, HooksField, AspectRatiosField}
  {
    NothingEnteredRejected(DefaultForm, isUrl);
  }

  // ---------------------------------------------------------------------------
  // Pricing

  const BasePrice: nat := 97

  /** The wizard's add-on catalogue. */
  const Catalogue := [
    AddOn("rush", "Rush Delivery (24-48hrs)", 97),
    AddOn("extra-hooks", "Extra Hook Variations", 47),
    AddOn("subtitles", "Subtitles & SRT Files", 27),
    AddOn("multiple-ratios", "Multiple Aspect Ratios", 37)]

  /** `calculateTotal`: the base price plus the fold over the selected ids. */
  function CalculateTotal(addOns: seq<string>): (total: nat)
    ensures total >= BasePrice
  {
    BasePrice + AddOnSum(Catalogue, addOns)
  }

  /** The total with nothing selected is the base price; an id outside the
      catalogue adds nothing; rush plus subtitles comes to 221. */
  lemma TotalExamples(unknown: string)
    requires unknown !in Ids(Catalogue)
    ensures CalculateTotal([]) == 97
    ensures CalculateTotal([unknown]) == 97
    ensures CalculateTotal(["rush", "subtitles"]) == 221
  {
    assert ["rush", "subtitles"][..1] == ["rush"];
    assert CalculateTotal([unknown]) == BasePrice + AddOnSum(Catalogue, []) + PriceOf(Catalogue, unknown);
  }

  /** Every selection is priced at the base plus each selected id's catalogue
      price, once per occurrence. */
  lemma {:induction false} TotalIsPriceSum(addOns: seq<string>, id: string)
    ensures CalculateTotal(addOns + [id]) == CalculateTotal(addOns) + PriceOf(Catalogue, id)
  {
    assert (addOns + [id])[..|addOns + [id]| - 1] == addOns;
  }

  /** Toggling on an absent catalogue id raises the total by that id's price;
      toggling it back off restores the prior total. */
  lemma ToggleAddOnTotal(addOns: seq<string>, id: string)
    requires id !in addOns
    ensures CalculateTotal(Toggle(addOns, id)) == CalculateTotal(addOns) + PriceOf(Catalogue, id)
    ensures CalculateTotal(Toggle(Toggle(addOns, id), id)) == CalculateTotal(addOns)
  {
    ToggleOnAddsPrice(Catalogue, addOns, id);
    ToggleTwiceAbsent(addOns, id);
  }

  // ---------------------------------------------------------------------------
  // Steps

  const TotalSteps := 6

  /** `nextStep`: advance unless already at the last step. No validation. */
  function NextStep(step: int): (r: int)
    ensures step <= r <= step + 1
    ensures r == step <==> step >= TotalSteps
    ensures step <= TotalSteps ==> r <= TotalSteps
  {
    if step < TotalSteps then step + 1 else step
  }

  /** `prevStep`: go back unless already at the first step. */
  function PrevStep(step: int): (r: int)
    ensures step - 1 <= r <= step
    ensures r == step <==> step <= 1
    ensures step >= 1 ==> r >= 1
  {
    if step > 1 then step - 1 else step
  }

  /** Both moves keep the step in 1..6; each is a no-op at its end of the range,
      and going back then forward returns to where it started. */
  lemma StepMoves(n: int)
    requires 1 <= n <= TotalSteps
    ensures 1 <= NextStep(n) <= TotalSteps && 1 <= PrevStep(n) <= TotalSteps
    ensures n == TotalSteps <==> NextStep(n) == n
    ensures n == 1 <==> PrevStep(n) == n
    ensures n >= 2 ==> NextStep(PrevStep(n)) == n
    ensures n < TotalSteps ==> PrevStep(NextStep(n)) == n
  {
  }

  /** The three sample hooks that "AI Generate" writes. */
  const SampleHooks := [
    "Stop scrolling if you want to...",
    "This changed everything for me...",
    "Nobody talks about this but..."]

  /** The wizard component's state. */
  class Wizard {
    var currentStep: int
    var isSubmitting: bool
    var form: OrderForm

    /** The step stays in range, the toggled lists never repeat a value, the
        step 1 inputs have been mounted, and so have the step 3 textareas once
        step 3 has been reached or a submission is under way. */
    ghost predicate Valid()
      reads this
    {
      && 1 <= currentStep <= TotalSteps
      && form.projectName.Some? && form.productUrl.Some?
      && (currentStep >= 3 || isSubmitting ==> form.targetAudience.Some? && form.keyBenefits.Some?)
      && NoDuplicates(form.platforms)
      && NoDuplicates(form.aspectRatios)
      && NoDuplicates(form.addOns)
    }

    constructor ()
      ensures Valid()
      ensures currentStep == 1 && !isSubmitting && form == Mount(DefaultForm, 1)
    {
      currentStep := 1;
      isSubmitting := false;
      form := Mount(DefaultForm, 1);
    }

    /** The "Next" button. */
    method Next()
      requires Valid()
      modifies this
      ensures Valid()
      ensures currentStep == NextStep(old(currentStep))
      ensures form == Mount(old(form), currentStep) && isSubmitting == old(isSubmitting)
    {
      if currentStep < TotalSteps {
        currentStep := currentStep + 1;
      }
      form := Mount(form, currentStep);
    }

    /** The "Previous" button. */
    method Prev()
      requires Valid()
      modifies this
      ensures Valid()
      ensures currentStep == PrevStep(old(currentStep))
      ensures form == Mount(old(form), currentStep) && form == old(form)
      ensures isSubmitting == old(isSubmitting)
    {
      if currentStep > 1 {
        currentStep := currentStep - 1;
      }
      form := Mount(form, currentStep);
    }

    /** `toggleArrayValue` on a multi-select field. */
    method ToggleChoice(field: ChoiceField, value: string)
      requires Valid()
      modifies this
      ensures Valid()
      ensures form == WithChoices(old(form), field, Toggle(Choices(old(form), field), value))
      ensures currentStep == old(currentStep) && isSubmitting == old(isSubmitting)
    {
      ToggleKeepsNoDuplicates(Choices(form, field), value);
      form := WithChoices(form, field, Toggle(Choices(form, field), value));
    }

    /** Typing into an input (`register`) or picking a goal or tone (`setValue`). */
    method SetText(field: TextField, value: string)
      requires Valid()
      modifies this
      ensures Valid()
      ensures form == WithText(old(form), field, value)
      ensures currentStep == old(currentStep) && isSubmitting == old(isSubmitting)
    {
      form := WithText(form, field, value);
    }

    /** "AI Generate": the hooks become exactly the three samples. */
    method GenerateHooks()
      requires Valid()
      modifies this
      ensures Valid()
      ensures form == old(form).(hooks := SampleHooks)
      ensures currentStep == old(currentStep) && isSubmitting == old(isSubmitting)
    {
      form := form.(hooks := SampleHooks);
    }

    /** Editing the input of hook `index`, which is one of the rendered hooks. */
    method EditHook(index: nat, value: string)
      requires Valid() && index < |form.hooks|
      modifies this
      ensures Valid()
      ensures form == old(form).(hooks := old(form.hooks)[index := value])
      ensures currentStep == old(currentStep) && isSubmitting == old(isSubmitting)
    {
      var newHooks := form.hooks[index := value];
      form := form.(hooks := newHooks);
    }

    /** "+ Add Hook": an empty hook at the end. */
    method AddHook()
      requires Valid()
      modifies this
      ensures Valid()
      ensures form == old(form).(hooks := old(form.hooks) + [""])
      ensures currentStep == old(currentStep) && isSubmitting == old(isSubmitting)
    {
      form := form.(hooks := form.hooks + [""]);
    }

    /** Pressing "Submit Order": `handleSubmit` validates the whole form and, only
        if no rule fails, runs `onSubmit` up to its await, which sets
        `isSubmitting`. */
    method BeginSubmit(isUrl: string -> bool) returns (issues: seq<Issue<Field>>)
      requires Valid()
      modifies this
      ensures Valid()
      ensures issues == ValidateOrder(form, isUrl)
      ensures isSubmitting == (issues == [] || old(isSubmitting))
      ensures form == old(form) && currentStep == old(currentStep)
      ensures currentStep >= 3 ==> forall i :: i in issues && i.message == RequiredMessage ==>
                i.field == GoalField || i.field == ToneField
    {
      issues := ValidateOrder(form, isUrl);
      if currentStep >= 3 {
        MountedRequiredOnlyForButtons(form, isUrl);
      }
      if issues == [] {
        isSubmitting := true;
      }
    }

    /** The rest of `onSubmit` once the awaited call settles: on success the step
        becomes 6; either way `finally` clears `isSubmitting`. It follows a
        `BeginSubmit` that raised the flag. */
    method CompleteSubmit(succeeded: bool)
      requires Valid() && isSubmitting
      modifies this
      ensures Valid()
      ensures currentStep == if succeeded then TotalSteps else old(currentStep)
      ensures !isSubmitting && form == old(form)
    {
      if succeeded {
        currentStep := TotalSteps;
      }
      isSubmitting := false;
    }

    /** The running total shown beside the buttons and in the summary. */
    function Total(): nat
      reads this
    {
      CalculateTotal(form.addOns)
    }

    /** At step 5 the "Submit Order" button replaces "Next". */
    predicate ShowsSubmit()
      reads this
    {
      currentStep == TotalSteps - 1
    }

    /** The "Submit Order" button is disabled while a submission is in flight. */
    predicate SubmitDisabled()
      reads this
    {
      isSubmitting
    }

    /** Steps 1 to 4 show "Next". */
    predicate ShowsNext()
      reads this
    {
      currentStep < TotalSteps - 1
    }

    /** Step 6 shows the submitted view, with neither button. */
    predicate ShowsSummary()
      reads this
    {
      currentStep == TotalSteps
    }

    /** "Previous" is disabled at step 1. */
    predicate PreviousDisabled()
      reads this
    {
      currentStep == 1
    }
  }

  /** In every valid state exactly one of the "Next" button, the "Submit Order"
      button and the submitted view is shown. */
  lemma OneControlShown(w: Wizard)
    requires w.Valid()
    ensures w.ShowsNext() || w.ShowsSubmit() || w.ShowsSummary()
    ensures !(w.ShowsNext() && w.ShowsSubmit()) && !(w.ShowsNext() && w.ShowsSummary())
    ensures !(w.ShowsSubmit() && w.ShowsSummary())
  {
  }
}
