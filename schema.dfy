/** The stored transaction record and the constraints the document schema
    places on it (server/models/Transaction.js). */
module Schema {
  import opened Wrappers
  import opened Text

  const MaxTitleLength := 50
  const MaxDescriptionLength := 200

  /** The closed enumeration of categories. */
  datatype Category = Food | Transport | Entertainment | Shopping | Bills | Healthcare | Education | Other

  function CategoryName(c: Category): string {
    match c
    case Food => "Food"
    case Transport => "Transport"
    case Entertainment => "Entertainment"
    case Shopping => "Shopping"
    case Bills => "Bills"
    case Healthcare => "Healthcare"
    case Education => "Education"
    case Other => "Other"
  }

  /** Membership test of the enumeration: the category a string names, if any. */
  function ParseCategory(s: string): (r: Option<Category>)
    ensures r.Some? ==> CategoryName(r.value) == s
  {
    if s == "Food" then Some(Food)
    else if s == "Transport" then Some(Transport)
    else if s == "Entertainment" then Some(Entertainment)
    else if s == "Shopping" then Some(Shopping)
    else if s == "Bills" then Some(Bills)
    else if s == "Healthcare" then Some(Healthcare)
    else if s == "Education" then Some(Education)
    else if s == "Other" then Some(Other)
    else None
  }

  lemma CategoryNameRoundTrip(c: Category)
    ensures ParseCategory(CategoryName(c)) == Some(c)
  {
  }

  /** A string is accepted exactly when it is the name of a category. */
  lemma ParseCategoryIff(s: string, c: Category)
    ensures ParseCategory(s) == Some(c) <==> CategoryName(c) == s
  {
    CategoryNameRoundTrip(c);
  }

  /** The transaction type, stored in the field `type`. */
  datatype Kind = Income | Expense

  function KindName(k: Kind): string {
    match k
    case Income => "income"
    case Expense => "expense"
  }

  function ParseKind(s: string): (r: Option<Kind>)
    ensures r.Some? ==> KindName(r.value) == s
  {
    if s == "income" then Some(Income)
    else if s == "expense" then Some(Expense)
    else None
  }

  lemma ParseKindIff(s: string, k: Kind)
    ensures ParseKind(s) == Some(k) <==> KindName(k) == s
  {
  }

  /** Document identifiers, generated by the store. */
  type Id = nat

  /** A stored transaction. Amounts are in cents; `date`, `createdAt` and
      `updatedAt` are timestamps in milliseconds; `description` is absent
      when the document has none. */
  datatype Transaction = Transaction(
    id: Id,
    title: string,
    amount: int,
    category: Category,
    kind: Kind,
    date: int,
    description: Option<string>,
    createdAt: int,
    updatedAt: int)

  /** The schema's constraints on a document that `save()` accepts: a
      required, trimmed title of at most 50 characters; a required amount
      that is not negative; an optional, trimmed description of at most 200
      characters. Category and type are drawn from their enumerations by
      construction, and a date is always present. Lengths are counted the
      way `maxlength` counts them, in UTF-16 code units. */
  predicate Valid(t: Transaction) {
    && t.title != []
    && IsTrimmed(t.title)
    && Utf16Length(t.title) <= MaxTitleLength
    && t.amount >= 0
    && (t.description.Some? ==>
          IsTrimmed(t.description.value) && Utf16Length(t.description.value) <= MaxDescriptionLength)
  }
}
