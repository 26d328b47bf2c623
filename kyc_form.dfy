/** The KYC information form: default names taken from the signed-in user's
    display name, the form schema, the mapping to the KYC mutation's input,
    and the `isSubmitting` flag around a submission. */
module KycForm {
  import opened JsValues

  // ---------------------------------------------------------------------------
  // Default values.
  // ---------------------------------------------------------------------------

  datatype NameDefaults = NameDefaults(firstName: string, lastName: string)

  /** `name.split(' ')`: the first piece, and the other pieces re-joined.
      Without a name both are empty; a name without a space is all first
      name; otherwise the first name is the text before the first space and
      the last name all the text after it. */
  function DefaultNames(name: Option<string>): (d: NameDefaults)
    ensures !Truthy(name) ==> d == NameDefaults("", "")
    ensures Truthy(name) && ' ' !in name.value ==> d == NameDefaults(name.value, "")
    ensures Truthy(name) && ' ' in name.value ==>
              var i := IndexOf(name.value, ' ');
              d.firstName == name.value[..i] && d.lastName == name.value[i + 1..]
  {
    if Truthy(name) then
      var parts := Split(name.value, ' ');
      var d := NameDefaults(parts[0], Join(parts[1..], ' '));
      if ' ' in name.value then SplitAtFirstSeparator(name.value, ' '); d
      else SplitWithoutSeparator(name.value, ' '); d
    else NameDefaults("", "")
  }

  /** First name, a space and last name give back a name that has a space,
      and the first name has none. */
  lemma NameSplitAtFirstSpace(name: string)
    requires ' ' in name
    ensures var d := DefaultNames(Some(name));
            d.firstName + " " + d.lastName == name && ' ' !in d.firstName
  {
    var i := IndexOf(name, ' ');
    assert name == name[..i] + [name[i]] + name[i + 1..];
  }

  /** The values the form starts with. */
  function DefaultValues(name: Option<string>): (f: FormInput)
    ensures f.businessName == Some("") && f.accountType == Some("individual")
    ensures f.firstName == DefaultNames(name).firstName && f.lastName == DefaultNames(name).lastName
  {
    var d := DefaultNames(name);
    FormInput(d.firstName, d.lastName, Some(""), Some("individual"))
  }

  /** Where the first space of a name stands; ` ` must occur in it. */
  ghost predicate FirstSpaceAt(name: string, i: int)
  {
    0 <= i < |name| && name[i] == ' ' && ' ' !in name[..i]
  }

  /** The defaults pass the schema exactly when the name has a first space
      that is neither its first nor its last character. */
  lemma DefaultsAcceptedIff(name: Option<string>)
    ensures SchemaAccepts(DefaultValues(name)) <==>
              Truthy(name) && exists i :: FirstSpaceAt(name.value, i) && 0 < i < |name.value| - 1
  {
    if Truthy(name) {
      var n := name.value;
      if ' ' in n {
        NameSplitAtFirstSpace(n);
        var d := DefaultNames(name);
        var i := IndexOf(n, ' ');
        forall j | FirstSpaceAt(n, j) ensures j == i {
          assert forall k :: 0 <= k < i ==> n[..i][k] == n[k];
          assert forall k :: 0 <= k < j ==> n[..j][k] == n[k];
        }
        assert FirstSpaceAt(n, i);
        assert |d.firstName| == i && |d.lastName| == |n| - i - 1;
      }
    }
  }

  // ---------------------------------------------------------------------------
  // Validation.
  // ---------------------------------------------------------------------------

  datatype AccountType = Individual | Corporate

  function AccountTypeName(a: AccountType): string
  {
    match a
    case Individual => "individual"
    case Corporate => "corporate"
  }

  /** The form's raw values, before the schema has checked them. */
  datatype FormInput = FormInput(firstName: string, lastName: string,
                                 businessName: Option<string>, accountType: Option<string>)

  /** The values the schema lets through. */
  datatype KycFormValues = KycFormValues(firstName: string, lastName: string,
                                         businessName: Option<string>, accountType: AccountType)

  /** The schema's complaints, in field order. */
  datatype Issue =
    | FirstNameRequired
    | LastNameRequired
    | AccountTypeRequired
    | AccountTypeNotInEnum(received: string)

  /** The message the schema declares for an issue; the library words the
      out-of-enum one itself. */
  function IssueMessage(i: Issue): Option<string>
  {
    match i
    case FirstNameRequired => Some("First name is required")
    case LastNameRequired => Some("Last name is required")
    case AccountTypeRequired => Some("Please select an account type")
    case AccountTypeNotInEnum(_) => None
  }

  /** The messages the form shows under its fields for a rejected form: each
      required-field message appears exactly when its field is missing, and
      only the out-of-enum issue has no declared message. */
  lemma IssueMessagesShown(f: FormInput)
    requires !SchemaAccepts(f)
    ensures var issues := Validate(f).issues;
            forall i :: i in issues ==> (IssueMessage(i).None? <==> i.AccountTypeNotInEnum?)
    ensures var issues := Validate(f).issues;
            && ((exists i :: i in issues && IssueMessage(i) == Some("First name is required")) <==> f.firstName == "")
            && ((exists i :: i in issues && IssueMessage(i) == Some("Last name is required")) <==> f.lastName == "")
            && ((exists i :: i in issues && IssueMessage(i) == Some("Please select an account type"))
                  <==> f.accountType.None?)
  {
    var issues := Validate(f).issues;
    if f.firstName == "" {
      assert IssueMessage(FirstNameRequired) == Some("First name is required");
    }
    if f.lastName == "" {
      assert IssueMessage(LastNameRequired) == Some("Last name is required");
    }
    if f.accountType.None? {
      assert IssueMessage(AccountTypeRequired) == Some("Please select an account type");
    }
  }

  function ParseAccountType(s: string): (a: Option<AccountType>)
    ensures a.Some? <==> (s == "individual" || s == "corporate")
    ensures a.Some? ==> AccountTypeName(a.value) == s
  {
    if s == "individual" then Some(Individual)
    else if s == "corporate" then Some(Corporate)
    else None
  }

  /** The declarative schema. */
  predicate SchemaAccepts(f: FormInput)
  {
    && |f.firstName| >= 1
    && |f.lastName| >= 1
    && f.accountType.Some? && (f.accountType.value == "individual" || f.accountType.value == "corporate")
  }

  datatype Validation = Valid(values: KycFormValues) | Invalid(issues: seq<Issue>)

  /** `kycFormSchema.safeParse`: the parsed values, or every issue found. */
  function Validate(f: FormInput): (r: Validation)
    ensures r.Valid? <==> SchemaAccepts(f)
    ensures r.Valid? ==>
              && r.values.firstName == f.firstName && r.values.lastName == f.lastName
              && r.values.businessName == f.businessName
              && Some(AccountTypeName(r.values.accountType)) == f.accountType
    ensures r.Invalid? ==>
              && |r.issues| >= 1
              && (FirstNameRequired in r.issues <==> f.firstName == "")
              && (LastNameRequired in r.issues <==> f.lastName == "")
              && (AccountTypeRequired in r.issues <==> f.accountType.None?)
  {
    var accountIssues :=
      match f.accountType
      case None => [AccountTypeRequired]
      case Some(a) => if ParseAccountType(a).Some? then [] else [AccountTypeNotInEnum(a)];
    var issues := (if f.firstName == "" then [FirstNameRequired] else [])
                + (if f.lastName == "" then [LastNameRequired] else [])
                + accountIssues;
    if issues == [] then
      Valid(KycFormValues(f.firstName, f.lastName, f.businessName, ParseAccountType(f.accountType.value).value))
    else Invalid(issues)
  }

  /** An absent business name passes the schema like any other. */
  lemma BusinessNameOptional(f: FormInput, b: Option<string>)
    ensures SchemaAccepts(f) <==> SchemaAccepts(f.(businessName := b))
  {
  }

  // ---------------------------------------------------------------------------
  // Submission.
  // ---------------------------------------------------------------------------

  /** The input of the `initiateKyc` mutation. */
  datatype InitiateKycInput = InitiateKycInput(firstName: string, lastName: string,
                                               businessName: Option<string>, accountType: AccountType)

  function ToMutationInput(v: KycFormValues): (m: InitiateKycInput)
    ensures m.firstName == v.firstName && m.lastName == v.lastName && m.accountType == v.accountType
    ensures m.businessName.Some? <==> Truthy(v.businessName)
    ensures m.businessName.Some? ==> m.businessName == v.businessName
  {
    InitiateKycInput(v.firstName, v.lastName, if Truthy(v.businessName) then v.businessName else None, v.accountType)
  }

  /** A validated form's mutation input is the form's own values with an empty
      business name dropped. */
  lemma MutationInputOfForm(f: FormInput)
    requires SchemaAccepts(f)
    ensures var m := ToMutationInput(Validate(f).values);
            && m.firstName == f.firstName && m.lastName == f.lastName
            && AccountTypeName(m.accountType) == f.accountType.value
            && m.businessName == (if Truthy(f.businessName) then f.businessName else None)
  {
  }

  /** How the `initiateKyc` mutation ends. */
  datatype MutationOutcome = Succeeded | Failed(message: string)

  /** The values `isSubmitting` is set to during one submission, in order: set
      at the start, reset by `onSettled` on success; on failure reset by
      `onError`, by `onSettled` and by the `catch` around `mutateAsync`. */
  function SubmitFlags(outcome: MutationOutcome): seq<bool>
  {
    match outcome
    case Succeeded => [true, false]
    case Failed(_) => [true, false, false, false]
  }

  /** The flag is raised once, at the start, and every later write lowers it. */
  lemma SubmitFlagsLifecycle(outcome: MutationOutcome)
    ensures var f := SubmitFlags(outcome);
            |f| >= 2 && f[0] && !f[|f| - 1] && forall k :: 0 < k < |f| ==> !f[k]
  {
  }

  class KycSubmission {
    var isSubmitting: bool
    /** The inputs handed to the KYC mutation, in order. */
    var submitted: seq<InitiateKycInput>
    /** How often the parent was told the form was submitted. */
    var completions: nat
    /** Every value `isSubmitting` was set to. */
    ghost var flagHistory: seq<bool>

    constructor ()
      ensures !isSubmitting && submitted == [] && completions == 0 && flagHistory == []
    {
      isSubmitting, submitted, completions := false, [], 0;
      flagHistory := [];
    }

    method SetSubmitting(b: bool)
      modifies this`isSubmitting, this`flagHistory
      ensures isSubmitting == b && flagHistory == old(flagHistory) + [b]
    {
      isSubmitting := b;
      flagHistory := flagHistory + [b];
    }

    /** `onSubmit` with the mutation's outcome. */
    method OnSubmit(data: KycFormValues, outcome: MutationOutcome)
      modifies this
      ensures !isSubmitting
      ensures submitted == old(submitted) + [ToMutationInput(data)]
      ensures completions == old(completions) + (if outcome.Succeeded? then 1 else 0)
      ensures flagHistory == old(flagHistory) + SubmitFlags(outcome)
    {
      SetSubmitting(true);
      submitted := submitted + [ToMutationInput(data)];
      match outcome
      case Succeeded =>
        completions := completions + 1;   // onSuccess
        SetSubmitting(false);             // onSettled
      case Failed(_) =>
        SetSubmitting(false);             // onError
        SetSubmitting(false);             // onSettled
        SetSubmitting(false);             // catch around mutateAsync
    }

    /** The submit button: disabled while submitting; the form validates
      before it calls `onSubmit`. */
    method Submit(input: FormInput, outcome: MutationOutcome)
      modifies this
      ensures old(isSubmitting) || !SchemaAccepts(input) ==>
                && isSubmitting == old(isSubmitting) && submitted == old(submitted)
                && completions == old(completions) && flagHistory == old(flagHistory)
      ensures !old(isSubmitting) && SchemaAccepts(input) ==>
                && !isSubmitting
                && submitted == old(submitted) + [ToMutationInput(Validate(input).values)]
                && completions == old(completions) + (if outcome.Succeeded? then 1 else 0)
                && flagHistory == old(flagHistory) + SubmitFlags(outcome)
    {
      if !isSubmitting {
        match Validate(input)
        case Valid(values) => OnSubmit(values, outcome);
        case Invalid(_) =>
      }
    }
  }
}
