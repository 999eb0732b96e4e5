/** The request-body rules of the create and update endpoints
    (`validateTransaction`, server/routes/transactions.js): every rule is
    checked, every failing rule contributes one `{field, message}` entry. */
module Validation {
  import opened Wrappers
  import opened Text
  import opened Numerals
  import Schema

  /** The `amount` member of a JSON body: absent, a JSON number (in cents) or
      a string. */
  datatype AmountValue = Missing | Number(cents: int) | Literal(text: string)

  /** A request body. Text members are strings or absent; `kind` is the
      member `type`. */
  datatype Payload = Payload(
    title: Option<string>,
    amount: AmountValue,
    category: Option<string>,
    kind: Option<string>,
    date: Option<string>,
    description: Option<string>)

  /** The ISO 8601 recogniser and `Date` constructor of the server's
      libraries: the timestamp a date string denotes, or None when it is not
      an ISO 8601 date. */
  type DateParser = string -> Option<int>

  /** The body members the rules check; `Name` is the `path` reported. */
  datatype Field = Title | Amount | Category | Type | Date | Description

  function Name(f: Field): string {
    match f
    case Title => "title"
    case Amount => "amount"
    case Category => "category"
    case Type => "type"
    case Date => "date"
    case Description => "description"
  }

  datatype FieldError = FieldError(field: Field, message: string)

  const TitleMessage := "Title must be between 1 and 50 characters"
  const AmountMessage := "Amount must be a positive number"
  const CategoryMessage := "Please select a valid category"
  const TypeMessage := "Type must be either income or expense"
  const DateMessage := "Date must be a valid date"
  const DescriptionMessage := "Description cannot be more than 200 characters"

  /** The string a validator sees for a body member; an absent member reads
      as the empty string. */
  function BodyString(v: Option<string>): string {
    if v.Some? then v.value else ""
  }

  /** The string a validator sees for the amount: a JSON number goes
      through `toString`. */
  function AmountString(a: AmountValue): string {
    match a
    case Missing => ""
    case Number(c) => ShowNumber(c)
    case Literal(s) => s
  }

  /** The amount in cents, when the body's amount is a number. */
  function AmountCents(a: AmountValue): Option<int> {
    ParseCents(AmountString(a))
  }

  /** The title after the `trim()` sanitizer, which also rewrites the body. */
  function SanitizedTitle(p: Payload): string {
    Trim(BodyString(p.title))
  }

  /** Length as express-validator's `isLength` counts it: code points, not
      counting the variation selectors U+FE0E and U+FE0F. */
  function ValidatorLength(s: string): nat {
    if s == [] then 0
    else (if IsVariationSelector(s[0]) then 0 else 1) + ValidatorLength(s[1..])
  }

  predicate IsVariationSelector(c: char) {
    c == '\U{FE0E}' || c == '\U{FE0F}'
  }

  /** Some character of `s` counts for `isLength`. */
  predicate HasCountedChar(s: string) {
    exists k :: 0 <= k < |s| && !IsVariationSelector(s[k])
  }

  /** `isLength` counts at least one character exactly when one is not a
      variation selector. */
  lemma {:induction false} CountedIff(s: string)
    ensures ValidatorLength(s) >= 1 <==> HasCountedChar(s)
  {
    if s != [] {
      CountedIff(s[1..]);
      if HasCountedChar(s[1..]) {
        var k :| 0 <= k < |s[1..]| && !IsVariationSelector(s[1..][k]);
        assert s[k + 1] == s[1..][k];
      }
      if HasCountedChar(s) && IsVariationSelector(s[0]) {
        var k :| 0 <= k < |s| && !IsVariationSelector(s[k]);
        assert s[1..][k - 1] == s[k];
      }
    }
  }

  /** The title rule as written: `isLength({min: 1, max: 50})` on the trimmed
      title, in validator units. */
  predicate TitleRuleAsWritten(p: Payload) {
    1 <= ValidatorLength(SanitizedTitle(p)) <= Schema.MaxTitleLength
  }

  /** The title rule with its upper bound counted in the UTF-16 units the
      schema's `maxlength` uses (see the findings on the length units); the
      lower bound is `isLength`'s, as written (`CountedIff`). */
  predicate TitleRule(p: Payload) {
    HasCountedChar(SanitizedTitle(p)) && Utf16Length(SanitizedTitle(p)) <= Schema.MaxTitleLength
  }

  /** `isFloat({min: 0})`: a number, and not negative. */
  predicate AmountRule(p: Payload) {
    var v := AmountCents(p.amount);
    v.Some? && v.value >= 0
  }

  predicate CategoryRule(p: Payload) {
    Schema.ParseCategory(BodyString(p.category)).Some?
  }

  predicate TypeRule(p: Payload) {
    Schema.ParseKind(BodyString(p.kind)).Some?
  }

  /** `optional().isISO8601()`: an absent date passes. */
  predicate DateRule(p: Payload, iso: DateParser) {
    p.date.None? || iso(p.date.value).Some?
  }

  /** The description rule as written: `optional().isLength({max: 200})` in
      validator units, on the untrimmed text. */
  predicate DescriptionRuleAsWritten(p: Payload) {
    p.description.None? || ValidatorLength(p.description.value) <= Schema.MaxDescriptionLength
  }

  /** The description rule, counting in UTF-16 units. */
  predicate DescriptionRule(p: Payload) {
    p.description.None? || Utf16Length(p.description.value) <= Schema.MaxDescriptionLength
  }

  /** Every rule passes. */
  predicate Accepted(p: Payload, iso: DateParser) {
    && TitleRule(p) && AmountRule(p) && CategoryRule(p)
    && TypeRule(p) && DateRule(p, iso) && DescriptionRule(p)
  }

  /** How many rules fail. */
  function FailedRules(p: Payload, iso: DateParser): nat {
    (if TitleRule(p) then 0 else 1) + (if AmountRule(p) then 0 else 1)
    + (if CategoryRule(p) then 0 else 1) + (if TypeRule(p) then 0 else 1)
    + (if DateRule(p, iso) then 0 else 1) + (if DescriptionRule(p) then 0 else 1)
  }

  /** The message the rule for a field reports. */
  function MessageFor(field: Field): string {
    match field
    case Title => TitleMessage
    case Amount => AmountMessage
    case Category => CategoryMessage
    case Type => TypeMessage
    case Date => DateMessage
    case Description => DescriptionMessage
  }

  /** The list holds the entry for the field. */
  predicate Reports(errors: seq<FieldError>, field: Field) {
    FieldError(field, MessageFor(field)) in errors
  }

  function Check(ok: bool, field: Field): seq<FieldError> {
    if ok then [] else [FieldError(field, MessageFor(field))]
  }

  /** The entries the six chains leave, given which rules pass. */
  function Collect(title: bool, amount: bool, category: bool, kind: bool, date: bool, description: bool)
    : seq<FieldError>
  {
    Check(title, Title) + (Check(amount, Amount) + (Check(category, Category)
    + (Check(kind, Type) + (Check(date, Date) + Check(description, Description)))))
  }

  /** `validationResult(req).array()` after the six chains: one entry per
      failing rule, in the order the chains are declared. */
  function Validate(p: Payload, iso: DateParser): (errors: seq<FieldError>)
    ensures errors == [] <==> Accepted(p, iso)
    ensures |errors| == FailedRules(p, iso)
  {
    CollectSize(TitleRule(p), AmountRule(p), CategoryRule(p), TypeRule(p), DateRule(p, iso), DescriptionRule(p));
    Collect(TitleRule(p), AmountRule(p), CategoryRule(p), TypeRule(p), DateRule(p, iso), DescriptionRule(p))
  }

  /** One entry per failing check. */
  lemma CollectSize(title: bool, amount: bool, category: bool, kind: bool, date: bool, description: bool)
    ensures var errors := Collect(title, amount, category, kind, date, description);
      && |errors| == (if title then 0 else 1) + (if amount then 0 else 1) + (if category then 0 else 1)
                     + (if kind then 0 else 1) + (if date then 0 else 1) + (if description then 0 else 1)
      && (errors == [] <==> title && amount && category && kind && date && description)
  {
  }

  /** A single check holds an entry for `g` exactly when it failed and is
      `g`'s check. */
  lemma CheckReports(ok: bool, field: Field, g: Field)
    ensures FieldError(g, MessageFor(g)) in Check(ok, field) <==> !ok && field == g
  {
  }

  lemma CollectReports(title: bool, amount: bool, category: bool, kind: bool, date: bool, description: bool)
    ensures var errors := Collect(title, amount, category, kind, date, description);
      && (Reports(errors, Title) <==> !title)
      && (Reports(errors, Amount) <==> !amount)
      && (Reports(errors, Category) <==> !category)
      && (Reports(errors, Type) <==> !kind)
      && (Reports(errors, Date) <==> !date)
      && (Reports(errors, Description) <==> !description)
  {
    forall g: Field
      ensures Reports(Collect(title, amount, category, kind, date, description), g) <==>
        (!title && g == Title) || (!amount && g == Amount) || (!category && g == Category)
        || (!kind && g == Type) || (!date && g == Date) || (!description && g == Description)
    {
      CheckReports(title, Title, g);
      CheckReports(amount, Amount, g);
      CheckReports(category, Category, g);
      CheckReports(kind, Type, g);
      CheckReports(date, Date, g);
      CheckReports(description, Description, g);
    }
  }

  /** Each rule is reported exactly when it fails. */
  lemma ValidateReportsEachRule(p: Payload, iso: DateParser)
    ensures var errors := Validate(p, iso);
      && (Reports(errors, Title) <==> !TitleRule(p))
      && (Reports(errors, Amount) <==> !AmountRule(p))
      && (Reports(errors, Category) <==> !CategoryRule(p))
      && (Reports(errors, Type) <==> !TypeRule(p))
      && (Reports(errors, Date) <==> !DateRule(p, iso))
      && (Reports(errors, Description) <==> !DescriptionRule(p))
  {
    CollectReports(TitleRule(p), AmountRule(p), CategoryRule(p), TypeRule(p), DateRule(p, iso), DescriptionRule(p));
  }

  /** Every entry carries its field's message, and the entries follow the
      declaration order of the chains, so no field is reported twice. */
  lemma ValidateEntriesAreDistinct(p: Payload, iso: DateParser)
    ensures var errors := Validate(p, iso);
      && (forall i :: 0 <= i < |errors| ==> errors[i].message == MessageFor(errors[i].field))
      && (forall i, j :: 0 <= i < j < |errors| ==> errors[i].field != errors[j].field)
      && Increasing(errors)
  {
    CollectOrdered(TitleRule(p), AmountRule(p), CategoryRule(p), TypeRule(p), DateRule(p, iso), DescriptionRule(p));
  }

  /** The position of each field in the declaration order of the chains. */
  function Rank(field: Field): nat {
    match field
    case Title => 0
    case Amount => 1
    case Category => 2
    case Type => 3
    case Date => 4
    case Description => 5
  }

  /** Every entry carries its field's message. */
  predicate WellFormed(errors: seq<FieldError>) {
    forall i :: 0 <= i < |errors| ==> errors[i].message == MessageFor(errors[i].field)
  }

  /** The fields strictly follow the declaration order. */
  predicate Increasing(errors: seq<FieldError>) {
    forall i, j :: 0 <= i < j < |errors| ==> Rank(errors[i].field) < Rank(errors[j].field)
  }

  /** Every entry comes after the field of rank `r`. */
  predicate After(errors: seq<FieldError>, r: nat) {
    forall i :: 0 <= i < |errors| ==> Rank(errors[i].field) > r
  }

  /** One more chain in front of later ones keeps the order. */
  lemma PrependCheck(ok: bool, field: Field, rest: seq<FieldError>)
    requires WellFormed(rest) && Increasing(rest) && After(rest, Rank(field))
    ensures var errors := Check(ok, field) + rest;
      WellFormed(errors) && Increasing(errors)
      && (Rank(field) > 0 ==> After(errors, Rank(field) - 1))
  {
  }

  lemma CollectOrdered(title: bool, amount: bool, category: bool, kind: bool, date: bool, description: bool)
    ensures var errors := Collect(title, amount, category, kind, date, description);
      WellFormed(errors) && Increasing(errors)
  {
    var e := Check(description, Description);
    var d := Check(date, Date) + e;
    PrependCheck(date, Date, e);
    var c := Check(kind, Type) + d;
    PrependCheck(kind, Type, d);
    var b := Check(category, Category) + c;
    PrependCheck(category, Category, c);
    var a := Check(amount, Amount) + b;
    PrependCheck(amount, Amount, b);
    PrependCheck(title, Title, a);
  }

  /** A JSON number passes the amount rule exactly when it is not negative;
      in particular 0 passes. */
  lemma NumberAmountRule(p: Payload, c: int)
    requires p.amount == Number(c)
    ensures AmountRule(p) <==> c >= 0
  {
    ShowNumberRoundTrip(c);
  }

  /** A body that breaks exactly one rule gets exactly one entry, naming
      that field. */
  lemma SingleViolation(p: Payload, iso: DateParser)
    requires FailedRules(p, iso) == 1
    ensures var errors := Validate(p, iso);
      |errors| == 1 && errors[0].message == MessageFor(errors[0].field)
      && (errors[0].field == Title <==> !TitleRule(p))
      && (errors[0].field == Amount <==> !AmountRule(p))
      && (errors[0].field == Category <==> !CategoryRule(p))
      && (errors[0].field == Type <==> !TypeRule(p))
      && (errors[0].field == Date <==> !DateRule(p, iso))
      && (errors[0].field == Description <==> !DescriptionRule(p))
  {
    var errors := Validate(p, iso);
    ValidateReportsEachRule(p, iso);
    ValidateEntriesAreDistinct(p, iso);
    assert errors[0] in errors;
  }

  /** `isLength` never counts more than the characters. */
  lemma {:induction false} ValidatorLengthBound(s: string)
    ensures ValidatorLength(s) <= |s|
  {
    if s != [] {
      ValidatorLengthBound(s[1..]);
    }
  }

  /** A title that passes the rule fits the schema once trimmed. */
  lemma AcceptedTitleFitsSchema(p: Payload)
    requires TitleRule(p)
    ensures var t := SanitizedTitle(p);
      t != [] && IsTrimmed(t) && Utf16Length(t) <= Schema.MaxTitleLength
  {
  }

  /** The corrected rules only refuse more: whatever they accept, the rules
      as written accept too. */
  lemma CorrectedRulesAreStricter(p: Payload)
    ensures TitleRule(p) ==> TitleRuleAsWritten(p)
    ensures DescriptionRule(p) ==> DescriptionRuleAsWritten(p)
  {
    ValidatorLengthBound(SanitizedTitle(p));
    CountedIff(SanitizedTitle(p));
    if p.description.Some? {
      ValidatorLengthBound(p.description.value);
    }
  }

  /** A description that passes the rule fits the schema once Mongoose has
      trimmed it. */
  lemma AcceptedDescriptionFitsSchema(p: Payload)
    requires DescriptionRule(p)
    ensures p.description.Some? ==>
      var d := Trim(p.description.value);
      IsTrimmed(d) && Utf16Length(d) <= Schema.MaxDescriptionLength
  {
    if p.description.Some? {
      TrimShortensUtf16(p.description.value);
    }
  }

  /** Text made only of one character above U+FFFF. */
  function Repeat(c: char, n: nat): (s: string)
    ensures |s| == n && forall i :: 0 <= i < n ==> s[i] == c
  {
    seq(n, _ => c)
  }

  lemma {:induction false} AstralLengths(s: string)
    requires forall i :: 0 <= i < |s| ==> s[i] == '\U{1F600}'
    ensures ValidatorLength(s) == |s| && Utf16Length(s) == 2 * |s|
  {
    if s != [] {
      AstralLengths(s[1..]);
    }
  }

  lemma AstralTextIsTrimmed(s: string)
    requires forall i :: 0 <= i < |s| ==> s[i] == '\U{1F600}'
    ensures Trim(s) == s
  {
    TrimmedIsFixedPoint(s);
  }

  /** The title rule as written lets through a title the schema refuses: 26
      emoji are 26 characters to `isLength` but 52 UTF-16 units to
      `maxlength`, so `save()` fails and the request ends in a 500. */
  lemma EmojiTitleSlipsThrough(p: Payload)
    requires p.title == Some(Repeat('\U{1F600}', 26))
    ensures TitleRuleAsWritten(p)
    ensures Utf16Length(SanitizedTitle(p)) > Schema.MaxTitleLength
    ensures !TitleRule(p)
  {
    var s := Repeat('\U{1F600}', 26);
    AstralTextIsTrimmed(s);
    AstralLengths(s);
  }

  /** The description rule as written lets through 101 emoji: 101 characters
      to `isLength`, 202 UTF-16 units to `maxlength`. */
  lemma EmojiDescriptionSlipsThrough(p: Payload)
    requires p.description == Some(Repeat('\U{1F600}', 101))
    ensures DescriptionRuleAsWritten(p)
    ensures Utf16Length(Trim(p.description.value)) > Schema.MaxDescriptionLength
    ensures !DescriptionRule(p)
  {
    var s := Repeat('\U{1F600}', 101);
    AstralTextIsTrimmed(s);
    AstralLengths(s);
  }
}
