/** The contact page: its schema, the budget choices, and the switch between the
    form and the thank-you view. */
module Contact {
  import opened Schema

  /** The registered inputs always hold text; an untouched one holds "". */
  datatype ContactForm = ContactForm(name: string, email: string, website: string, budget: string, message: string)

  const EmptyForm := ContactForm("", "", "", "", "")

  datatype Field = NameField | EmailField | WebsiteField | BudgetField | MessageField

  /** `budgetOptions`: the placeholder first, then the five ranges. Each has a
      value and the label shown for it. */
  datatype BudgetOption = BudgetOption(value: string, text: string)

  const BudgetOptions := [
    BudgetOption("", "Select budget range"),
    BudgetOption("under-500", "Under $500/month"),
    BudgetOption("500-1000", "$500 - $1,000/month"),
    BudgetOption("1000-2500", "$1,000 - $2,500/month"),
    BudgetOption("2500-5000", "$2,500 - $5,000/month"),
    BudgetOption("over-5000", "Over $5,000/month")]

  /** Whether the rule on `field` holds. `isEmail` and `isUrl` stand for zod's
      checks; a website of "" is accepted whatever the URL check says. */
  predicate Passes(form: ContactForm, isEmail: string -> bool, isUrl: string -> bool, field: Field) {
    match field
    case NameField => |form.name| >= 2
    case EmailField => isEmail(form.email)
    case WebsiteField => form.website == "" || isUrl(form.website)
    case BudgetField => form.budget != ""
    case MessageField => |form.message| >= 10
  }

  /** The check of one field, with the schema's message. */
  function FieldIssues(form: ContactForm, isEmail: string -> bool, isUrl: string -> bool, field: Field): (issues: seq<Issue<Field>>)
    ensures Fields(issues) == if Passes(form, isEmail, isUrl, field) then {} else {field}
  {
    match field
    case NameField => Rule(|form.name| >= 2, field, "Name must be at least 2 characters")
    case EmailField => Rule(isEmail(form.email), field, "Please enter a valid email address")
    case WebsiteField => Rule(form.website == "" || isUrl(form.website), field, "Please enter a valid website URL")
    case BudgetField => Rule(|form.budget| >= 1, field, "Please select a budget range")
    case MessageField => Rule(|form.message| >= 10, field, "Message must be at least 10 characters")
  }

  /** The issues of the fields in `group`, in order. */
  function GroupIssues(form: ContactForm, isEmail: string -> bool, isUrl: string -> bool, group: seq<Field>): (issues: seq<Issue<Field>>)
    ensures forall field :: field in Fields(issues) <==> field in group && !Passes(form, isEmail, isUrl, field)
  {
    if group == [] then []
    else
      var first := FieldIssues(form, isEmail, isUrl, group[0]);
      var rest := GroupIssues(form, isEmail, isUrl, group[1..]);
      FieldsAppend(first, rest);
      first + rest
  }

  const SchemaFields := [NameField, EmailField, WebsiteField, BudgetField, MessageField]

  /** The list names every field of the form. */
  lemma SchemaFieldsComplete()
    ensures forall field :: field in SchemaFields
  {
    forall field ensures field in SchemaFields {
      match field
      case NameField => assert SchemaFields[0] == field;
      case EmailField => assert SchemaFields[1] == field;
      case WebsiteField => assert SchemaFields[2] == field;
      case BudgetField => assert SchemaFields[3] == field;
      case MessageField => assert SchemaFields[4] == field;
    }
  }

  /** `contactSchema`: one issue per failing rule, in field order. */
  function ValidateContact(form: ContactForm, isEmail: string -> bool, isUrl: string -> bool): (issues: seq<Issue<Field>>)
    ensures forall field :: field in Fields(issues) <==> !Passes(form, isEmail, isUrl, field)
    ensures issues == [] <==> forall field :: Passes(form, isEmail, isUrl, field)
  {
    var issues := GroupIssues(form, isEmail, isUrl, SchemaFields);
    SchemaFieldsComplete();
    FieldsEmpty(issues);
    issues
  }

  /** The placeholder budget is rejected and every real range is accepted. */
  lemma BudgetChoices(form: ContactForm, isEmail: string -> bool, isUrl: string -> bool, k: nat)
    requires k < |BudgetOptions| && form.budget == BudgetOptions[k].value
    ensures BudgetField in Fields(ValidateContact(form, isEmail, isUrl)) <==> k == 0
  {
  }

  /** The page's state. */
  class ContactPage {
    var isSubmitted: bool
    var values: ContactForm

    constructor ()
      ensures !isSubmitted && values == EmptyForm
    {
      isSubmitted := false;
      values := EmptyForm;
    }

    /** Typing into the inputs. */
    method Edit(form: ContactForm)
      modifies this
      ensures values == form && isSubmitted == old(isSubmitted)
    {
      values := form;
    }

    /** "Send Message": `handleSubmit` validates and, only if no rule fails, runs
        `onSubmit`. When its body completes, the thank-you view is shown and the
        form is reset; when it throws, the error is only logged. `threw` says
        which happened. */
    method Submit(isEmail: string -> bool, isUrl: string -> bool, threw: bool) returns (issues: seq<Issue<Field>>)
      modifies this
      ensures issues == ValidateContact(old(values), isEmail, isUrl)
      ensures issues == [] && !threw ==> isSubmitted && values == EmptyForm
      ensures issues != [] || threw ==> isSubmitted == old(isSubmitted) && values == old(values)
    {
      issues := ValidateContact(values, isEmail, isUrl);
      if issues == [] && !threw {
        isSubmitted := true;
        values := EmptyForm;
      }
    }

    /** "Send Another Message" on the thank-you view. */
    method SendAnother()
      modifies this
      ensures !isSubmitted && values == old(values)
    {
      isSubmitted := false;
    }

    /** The thank-you view replaces the form while `isSubmitted` holds. */
    predicate ShowsThankYou()
      reads this
    {
      isSubmitted
    }
  }

  /** The reset form fails validation, so a thank-you view never follows an
      immediate resubmission of it. */
  lemma EmptyFormRejected(isEmail: string -> bool, isUrl: string -> bool)
    ensures Fields(ValidateContact(EmptyForm, isEmail, isUrl)) >= {NameField, BudgetField, MessageField}
    ensures WebsiteField !in Fields(ValidateContact(EmptyForm, isEmail, isUrl))
  {
  }
}
