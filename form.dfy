/** The add/edit form (client/src/components/TransactionForm.jsx): the
    `formData` and `errors` state, the advisory checks of `validateForm`,
    and the change, submit and cancel handlers. */
module Form {
  import opened Wrappers
  import opened Text
  import opened Numerals
  import Schema
  import V = Validation

  /** The six inputs, by their `name` attribute; `TypeInput` is `type`. */
  datatype InputName = TitleInput | AmountInput | CategoryInput | TypeInput | DateInput | DescriptionInput

  /** The text of each input, as the browser reports it. */
  datatype FormData = FormData(title: string, amount: string, category: string, kind: string, date: string, description: string)

  function Get(f: FormData, name: InputName): string {
    match name
    case TitleInput => f.title
    case AmountInput => f.amount
    case CategoryInput => f.category
    case TypeInput => f.kind
    case DateInput => f.date
    case DescriptionInput => f.description
  }

  /** `{...prev, [name]: value}`. */
  function Set(f: FormData, name: InputName, value: string): (r: FormData)
    ensures Get(r, name) == value
    ensures forall other :: other != name ==> Get(r, other) == Get(f, other)
  {
    match name
    case TitleInput => f.(title := value)
    case AmountInput => f.(amount := value)
    case CategoryInput => f.(category := value)
    case TypeInput => f.(kind := value)
    case DateInput => f.(date := value)
    case DescriptionInput => f.(description := value)
  }

  /** The state of a fresh or cancelled form; `today` is the current date
      as the date input writes it. */
  function EmptyForm(today: string): FormData {
    FormData("", "", "", "expense", today, "")
  }

  const TitleRequired := "Title is required"
  const TitleTooLong := "Title must be less than 50 characters"
  const AmountRequired := "Amount is required"
  const AmountNotPositive := "Amount must be a positive number"
  const CategoryRequired := "Category is required"
  const DateRequired := "Date is required"
  const DescriptionTooLong := "Description must be less than 200 characters"

  /** The amount text reads as a number above zero. */
  predicate PositiveAmount(s: string) {
    ParseCents(s).Some? && ParseCents(s).value > 0
  }

  /** The check `validateForm` makes on one input: the message it records,
      or None. Lengths are JavaScript lengths, in UTF-16 units. */
  function Problem(f: FormData, name: InputName): Option<string> {
    match name
    case TitleInput => TitleProblem(f.title)
    case AmountInput => AmountProblem(f.amount)
    case CategoryInput => RequiredProblem(f.category, CategoryRequired)
    case TypeInput => None
    case DateInput => RequiredProblem(f.date, DateRequired)
    case DescriptionInput => DescriptionProblem(f.description)
  }

  function TitleProblem(title: string): Option<string> {
    if IsBlank(title) then Some(TitleRequired)
    else if Utf16Length(title) > Schema.MaxTitleLength then Some(TitleTooLong)
    else None
  }

  function AmountProblem(amount: string): Option<string> {
    if amount == "" then Some(AmountRequired)
    else if !PositiveAmount(amount) then Some(AmountNotPositive)
    else None
  }

  /** The check of an input that must not be empty. */
  function RequiredProblem(value: string, message: string): Option<string> {
    if value == "" then Some(message) else None
  }

  function DescriptionProblem(description: string): Option<string> {
    if description != "" && Utf16Length(description) > Schema.MaxDescriptionLength
    then Some(DescriptionTooLong) else None
  }

  /** The error object with the check on `name` recorded: its message is
      set when the check fails. */
  function Record(errors: map<InputName, string>, name: InputName, problem: Option<string>): map<InputName, string> {
    if problem.Some? then errors[name := problem.value] else errors
  }

  /** The error object `validateForm` builds, input by input in the order of
      the source; the type select has no check. */
  function FormErrors(f: FormData): map<InputName, string> {
    Build(TitleProblem(f.title), AmountProblem(f.amount), RequiredProblem(f.category, CategoryRequired),
          RequiredProblem(f.date, DateRequired), DescriptionProblem(f.description))
  }

  /** The error object for the outcomes of the five checks. */
  function Build(title: Option<string>, amount: Option<string>, category: Option<string>,
                 date: Option<string>, description: Option<string>): map<InputName, string>
  {
    var e := Record(map[], TitleInput, title);
    var e := Record(e, AmountInput, amount);
    var e := Record(e, CategoryInput, category);
    var e := Record(e, DateInput, date);
    Record(e, DescriptionInput, description)
  }

  /** The outcome a built error object holds for an input. */
  function Outcome(title: Option<string>, amount: Option<string>, category: Option<string>,
                   date: Option<string>, description: Option<string>, name: InputName): Option<string>
  {
    match name
    case TitleInput => title
    case AmountInput => amount
    case CategoryInput => category
    case TypeInput => None
    case DateInput => date
    case DescriptionInput => description
  }

  lemma BuildAt(title: Option<string>, amount: Option<string>, category: Option<string>,
                date: Option<string>, description: Option<string>, name: InputName)
    ensures var e := Build(title, amount, category, date, description);
      var o := Outcome(title, amount, category, date, description, name);
      && (name in e <==> o.Some?)
      && (name in e ==> e[name] == o.value)
  {
  }

  /** An input has an entry exactly when its check fails, and the entry is
      that check's message: each failing check yields one error, on its own
      input. */
  lemma FormErrorsAt(f: FormData, name: InputName)
    ensures name in FormErrors(f) <==> Problem(f, name).Some?
    ensures name in FormErrors(f) ==> FormErrors(f)[name] == Problem(f, name).value
  {
    var title, amount, category, date, description :=
      Problem(f, TitleInput), Problem(f, AmountInput), Problem(f, CategoryInput),
      Problem(f, DateInput), Problem(f, DescriptionInput);
    BuildAt(title, amount, category, date, description, name);
    assert Outcome(title, amount, category, date, description, name) == Problem(f, name) by {
      match name
      case TitleInput =>
      case AmountInput =>
      case CategoryInput =>
      case TypeInput =>
      case DateInput =>
      case DescriptionInput =>
    }
  }

  /** The form is clean exactly when no input has a problem; the type select
      never has one. */
  lemma FormErrorsEmpty(f: FormData)
    ensures FormErrors(f) == map[] <==> forall name :: Problem(f, name).None?
    ensures TypeInput !in FormErrors(f)
  {
    if forall name :: Problem(f, name).None? {
      assert Problem(f, TitleInput).None? && Problem(f, AmountInput).None? && Problem(f, CategoryInput).None?;
      assert Problem(f, DateInput).None? && Problem(f, DescriptionInput).None?;
      assert FormErrors(f) == Build(None, None, None, None, None);
    }
    if FormErrors(f) == map[] {
      forall name ensures Problem(f, name).None? {
        FormErrorsAt(f, name);
      }
    }
    FormErrorsAt(f, TypeInput);
  }

  /** What `onSubmit` receives: the form data with the amount converted to
      a number (here in cents). */
  datatype Submission = Submission(title: string, amount: int, category: string, kind: string, date: string, description: string)

  function Submitted(f: FormData): (s: Submission)
    requires FormErrors(f) == map[]
    ensures s.amount > 0 && Some(s.amount) == ParseCents(f.amount)
    ensures s.title == f.title && s.category == f.category && s.kind == f.kind
    ensures s.date == f.date && s.description == f.description
  {
    FormErrorsEmpty(f);
    assert Problem(f, AmountInput).None?;
    Submission(f.title, ParseCents(f.amount).value, f.category, f.kind, f.date, f.description)
  }

  /** The JSON body the API call sends for a submission. */
  function ToPayload(s: Submission): V.Payload {
    V.Payload(Some(s.title), V.Number(s.amount), Some(s.category), Some(s.kind), Some(s.date), Some(s.description))
  }

  /** The client is stricter than the server on the amount: the form rejects
      "0", which the server's rule accepts as text and as a number. */
  lemma ClientStricterOnAmount(f: FormData, p: V.Payload, q: V.Payload)
    requires f.amount == "0"
    requires p.amount == V.Literal("0") && q.amount == V.Number(0)
    ensures AmountInput in FormErrors(f) && FormErrors(f)[AmountInput] == AmountNotPositive
    ensures V.AmountRule(p) && V.AmountRule(q)
  {
    FormErrorsAt(f, AmountInput);
    assert DigitsValue("0") == 0 by {
      assert "0"[..0] == [];
    }
    V.NumberAmountRule(q, 0);
  }

  /** A form the client accepts, with a category and a type taken from the
      selects, a date the server reads as ISO 8601 and a title that is not
      made only of variation selectors, passes every server rule once
      submitted, the length rules as written included. */
  lemma ClientAcceptedIsServerAccepted(f: FormData, iso: V.DateParser)
    requires FormErrors(f) == map[]
    requires Schema.ParseCategory(f.category).Some? && Schema.ParseKind(f.kind).Some?
    requires iso(f.date).Some?
    requires V.HasCountedChar(Trim(f.title))
    ensures V.Accepted(ToPayload(Submitted(f)), iso)
    ensures V.TitleRuleAsWritten(ToPayload(Submitted(f))) && V.DescriptionRuleAsWritten(ToPayload(Submitted(f)))
  {
    CleanForm(f);
    SubmissionPasses(Submitted(f), iso);
  }

  /** The client lets through a title the server refuses: U+FE0F alone is
      not blank, so the form accepts it, but `isLength` does not count it,
      so the trimmed title is shorter than 1 for the server's rule. */
  lemma VariationSelectorTitle(f: FormData, p: V.Payload)
    requires f.title == "\U{FE0F}" && p.title == Some(f.title)
    ensures TitleInput !in FormErrors(f)
    ensures !V.TitleRuleAsWritten(p) && !V.TitleRule(p)
  {
    var t := f.title;
    assert t[1..] == [];
    assert !IsWhitespace(t[0]);
    TrimmedIsFixedPoint(t);
    assert V.SanitizedTitle(p) == t;
    assert V.ValidatorLength(t) == 0;
    assert Utf16Length(t) == 1;
    assert TitleProblem(t).None?;
    FormErrorsAt(f, TitleInput);
  }

  /** What a clean form guarantees about its title and description. */
  lemma CleanForm(f: FormData)
    requires FormErrors(f) == map[]
    ensures !IsBlank(f.title) && Utf16Length(f.title) <= Schema.MaxTitleLength
    ensures f.description == "" || Utf16Length(f.description) <= Schema.MaxDescriptionLength
  {
    FormErrorsAt(f, TitleInput);
    FormErrorsAt(f, DescriptionInput);
  }

  /** A submission with these properties passes every server rule. */
  lemma SubmissionPasses(s: Submission, iso: V.DateParser)
    requires !IsBlank(s.title) && Utf16Length(s.title) <= Schema.MaxTitleLength
    requires V.HasCountedChar(Trim(s.title))
    requires s.amount > 0
    requires Schema.ParseCategory(s.category).Some? && Schema.ParseKind(s.kind).Some?
    requires iso(s.date).Some?
    requires s.description == "" || Utf16Length(s.description) <= Schema.MaxDescriptionLength
    ensures V.Accepted(ToPayload(s), iso)
    ensures V.TitleRuleAsWritten(ToPayload(s)) && V.DescriptionRuleAsWritten(ToPayload(s))
  {
    var p := ToPayload(s);
    ClientTitlePasses(s.title, p);
    ClientDescriptionPasses(s.description, p);
    V.NumberAmountRule(p, s.amount);
  }

  /** A title the client accepts passes the server's title rule, as
      written and corrected, unless it is made only of variation
      selectors. */
  lemma ClientTitlePasses(title: string, p: V.Payload)
    requires !IsBlank(title) && Utf16Length(title) <= Schema.MaxTitleLength
    requires V.HasCountedChar(Trim(title))
    requires p.title == Some(title)
    ensures V.TitleRule(p) && V.TitleRuleAsWritten(p)
  {
    TrimShortensUtf16(title);
    V.CorrectedRulesAreStricter(p);
  }

  /** A description the client accepts passes the server's description
      rule, as written and corrected. */
  lemma ClientDescriptionPasses(description: string, p: V.Payload)
    requires description == "" || Utf16Length(description) <= Schema.MaxDescriptionLength
    requires p.description == Some(description)
    ensures V.DescriptionRule(p) && V.DescriptionRuleAsWritten(p)
  {
    V.CorrectedRulesAreStricter(p);
  }

  // The five blocks of `validateForm`, each adding its input's message to
  // the error object when the check fails.

  method CheckTitle(f: FormData, errors: map<InputName, string>) returns (r: map<InputName, string>)
    ensures r == Record(errors, TitleInput, TitleProblem(f.title))
  {
    r := errors;
    if IsBlank(f.title) {
      r := r[TitleInput := TitleRequired];
    } else if Utf16Length(f.title) > Schema.MaxTitleLength {
      r := r[TitleInput := TitleTooLong];
    }
  }

  method CheckAmount(f: FormData, errors: map<InputName, string>) returns (r: map<InputName, string>)
    ensures r == Record(errors, AmountInput, AmountProblem(f.amount))
  {
    r := errors;
    if f.amount == "" {
      r := r[AmountInput := AmountRequired];
    } else if !PositiveAmount(f.amount) {
      r := r[AmountInput := AmountNotPositive];
    }
  }

  method CheckCategory(f: FormData, errors: map<InputName, string>) returns (r: map<InputName, string>)
    ensures r == Record(errors, CategoryInput, RequiredProblem(f.category, CategoryRequired))
  {
    r := errors;
    if f.category == "" {
      r := r[CategoryInput := CategoryRequired];
    }
  }

  method CheckDate(f: FormData, errors: map<InputName, string>) returns (r: map<InputName, string>)
    ensures r == Record(errors, DateInput, RequiredProblem(f.date, DateRequired))
  {
    r := errors;
    if f.date == "" {
      r := r[DateInput := DateRequired];
    }
  }

  method CheckDescription(f: FormData, errors: map<InputName, string>) returns (r: map<InputName, string>)
    ensures r == Record(errors, DescriptionInput, DescriptionProblem(f.description))
  {
    r := errors;
    if f.description != "" && Utf16Length(f.description) > Schema.MaxDescriptionLength {
      r := r[DescriptionInput := DescriptionTooLong];
    }
  }

  /** The form component's state. */
  class TransactionForm {
    var formData: FormData
    var errors: map<InputName, string>

    constructor (today: string)
      ensures formData == EmptyForm(today) && errors == map[]
    {
      formData := EmptyForm(today);
      errors := map[];
    }

    /** `handleChange`: the named input takes the value; that input's error,
        when it has a non-empty one, is cleared to the empty string. */
    method HandleChange(name: InputName, value: string)
      modifies this
      ensures formData == Set(old(formData), name, value)
      ensures errors == if name in old(errors) && old(errors)[name] != "" then old(errors)[name := ""] else old(errors)
    {
      formData := Set(formData, name, value);
      if name in errors && errors[name] != "" {
        errors := errors[name := ""];
      }
    }

    /** `validateForm`: fills a fresh error object input by input, stores
        it, and reports whether it has no key. */
    method ValidateForm() returns (ok: bool)
      modifies this`errors
      ensures errors == FormErrors(formData)
      ensures ok <==> errors == map[]
    {
      var fd := formData;
      var newErrors: map<InputName, string> := map[];
      newErrors := CheckTitle(fd, newErrors);
      newErrors := CheckAmount(fd, newErrors);
      newErrors := CheckCategory(fd, newErrors);
      newErrors := CheckDate(fd, newErrors);
      newErrors := CheckDescription(fd, newErrors);
      errors := newErrors;
      ok := |newErrors.Keys| == 0;
    }

    /** `handleSubmit`: validates, and only a clean form is handed to
        `onSubmit` (the returned submission). */
    method HandleSubmit() returns (submitted: Option<Submission>)
      modifies this`errors
      ensures errors == FormErrors(formData)
      ensures submitted.Some? <==> FormErrors(formData) == map[]
      ensures submitted.Some? ==> submitted.value == Submitted(formData)
    {
      var ok := ValidateForm();
      if !ok {
        return None;
      }
      submitted := Some(Submitted(formData));
    }

    /** `handleCancel`: back to the empty form with no errors. */
    method HandleCancel(today: string)
      modifies this
      ensures formData == EmptyForm(today) && errors == map[]
    {
      formData := EmptyForm(today);
      errors := map[];
    }
  }
}
