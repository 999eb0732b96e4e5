/** The transaction endpoints (server/routes/transactions.js) over an
    abstract store: creation with its defaults, listing with the filter and
    pagination arithmetic, the summary, lookup, field replacement on update,
    and deletion. The store is a map from id to record. */
module Router {
  import opened Wrappers
  import opened Text
  import opened Schema
  import V = Validation
  import Summary

  /** The `pagination` member of a list response. `totalPages` is None where
      JavaScript computes `Infinity` or `NaN`, which JSON writes as null. */
  datatype Pagination = Pagination(currentPage: int, totalPages: Option<int>, totalItems: nat, itemsPerPage: int)

  datatype Response =
    | Created(record: Transaction)
    | Found(record: Transaction)
    | Listed(records: seq<Transaction>, pagination: Pagination)
    | Summarized(report: Summary.Report)
    | Updated(record: Transaction)
    | Deleted
    | Invalid(errors: seq<V.FieldError>)
    | InvalidId
    | NotFound
    | ServerError

  function Status(r: Response): int {
    match r
    case Created(_) => 201
    case Invalid(_) => 400
    case InvalidId => 400
    case NotFound => 404
    case ServerError => 500
    case _ => 200
  }

  /** `handleValidationErrors`: a 400 carrying every entry when the rules
      left any, otherwise None, for the handler to run. */
  function HandleValidationErrors(errors: seq<V.FieldError>): (r: Option<Response>)
    ensures r.None? <==> errors == []
    ensures r.Some? ==> r.value == Invalid(errors) && Status(r.value) == 400
  {
    if errors != [] then Some(Invalid(errors)) else None
  }

  // ---------------------------------------------------------------------
  // Building and replacing records
  // ---------------------------------------------------------------------

  /** `date || fallback`: the date the body gives, or the fallback when the
      body has none or an empty string. */
  function DateOr(p: V.Payload, iso: V.DateParser, fallback: int): (d: int)
    requires V.DateRule(p, iso)
    ensures p.date.None? || p.date.value == "" ==> d == fallback
    ensures p.date.Some? && p.date.value != "" ==> Some(d) == iso(p.date.value)
  {
    if p.date.None? || p.date.value == "" then fallback else iso(p.date.value).value
  }

  /** The description as stored: absent stays absent, a string is trimmed
      by the schema. */
  function StoredDescription(p: V.Payload): (d: Option<string>)
    ensures d.None? <==> p.description.None?
    ensures d.Some? ==> d.value == Trim(p.description.value)
  {
    if p.description.Some? then Some(Trim(p.description.value)) else None
  }

  /** The document `POST /` saves for an accepted body: the sanitized title,
      the amount cast to a number, the named category and type, the body's
      date or the current time, the trimmed description, and both
      timestamps set to the current time. */
  function NewRecord(p: V.Payload, iso: V.DateParser, id: Id, now: int): (t: Transaction)
    requires V.Accepted(p, iso)
    ensures Valid(t)
    ensures t.id == id && t.title == V.SanitizedTitle(p)
    ensures V.AmountCents(p.amount) == Some(t.amount)
    ensures CategoryName(t.category) == V.BodyString(p.category)
    ensures KindName(t.kind) == V.BodyString(p.kind)
    ensures t.date == DateOr(p, iso, now)
    ensures t.description == StoredDescription(p)
    ensures t.createdAt == now && t.updatedAt == now
  {
    V.AcceptedTitleFitsSchema(p);
    V.AcceptedDescriptionFitsSchema(p);
    Transaction(
      id,
      V.SanitizedTitle(p),
      V.AmountCents(p.amount).value,
      ParseCategory(V.BodyString(p.category)).value,
      ParseKind(V.BodyString(p.kind)).value,
      DateOr(p, iso, now),
      StoredDescription(p),
      now,
      now)
  }

  /** The document `PUT /:id` saves: title, amount, category, type and
      description replaced from the body, the date replaced only when the
      body gives one, and `updatedAt` set to the current time only when some
      field actually changed. */
  function Replace(stored: Transaction, p: V.Payload, iso: V.DateParser, now: int): (t: Transaction)
    requires V.Accepted(p, iso)
    ensures Valid(t)
    ensures t.id == stored.id && t.createdAt == stored.createdAt
    ensures t.date == DateOr(p, iso, stored.date)
    ensures var n := NewRecord(p, iso, stored.id, now);
      t.title == n.title && t.amount == n.amount && t.category == n.category
      && t.kind == n.kind && t.description == n.description
    ensures t.updatedAt == (if t.(updatedAt := stored.updatedAt) == stored then stored.updatedAt else now)
  {
    Overwrite(stored, NewRecord(p, iso, stored.id, now), DateOr(p, iso, stored.date), now)
  }

  /** The loaded document with the fields of `incoming` and the given date,
      saved: timestamps enabled, `save()` keeps `createdAt` and moves
      `updatedAt` to now only when some field changed. */
  function Overwrite(stored: Transaction, incoming: Transaction, date: int, now: int): (t: Transaction)
    requires Valid(incoming)
    ensures Valid(t)
    ensures t.id == incoming.id && t.createdAt == stored.createdAt && t.date == date
    ensures t.title == incoming.title && t.amount == incoming.amount && t.category == incoming.category
      && t.kind == incoming.kind && t.description == incoming.description
    ensures t.updatedAt == (if t.(updatedAt := stored.updatedAt) == stored then stored.updatedAt else now)
  {
    var replaced := incoming.(date := date, createdAt := stored.createdAt, updatedAt := stored.updatedAt);
    replaced.(updatedAt := if replaced == stored then stored.updatedAt else now)
  }

  /** The handler's assignments to the loaded document, one field at a time,
      followed by `save()`, which stamps `updatedAt` only when a field
      changed: the result is `Replace`. */
  method AssignFields(loaded: Transaction, p: V.Payload, iso: V.DateParser, now: int) returns (t: Transaction)
    requires V.Accepted(p, iso)
    ensures t == Replace(loaded, p, iso, now)
  {
    t := loaded;
    t := t.(title := V.SanitizedTitle(p));
    t := t.(amount := V.AmountCents(p.amount).value);
    t := t.(category := ParseCategory(V.BodyString(p.category)).value);
    t := t.(kind := ParseKind(V.BodyString(p.kind)).value);
    t := t.(date := DateOr(p, iso, t.date));
    t := t.(description := StoredDescription(p));
    if t != loaded {
      t := t.(updatedAt := now);
    }
  }

  /** Sending the same update twice changes nothing the second time, not even
      `updatedAt`. */
  lemma ReplaceIdempotent(stored: Transaction, p: V.Payload, iso: V.DateParser, now: int, later: int)
    requires V.Accepted(p, iso)
    ensures Replace(Replace(stored, p, iso, now), p, iso, later) == Replace(stored, p, iso, now)
  {
  }

  /** An update whose body repeats the stored fields leaves the document as
      it was. */
  lemma ReplaceWithSameFields(stored: Transaction, p: V.Payload, iso: V.DateParser, now: int)
    requires V.Accepted(p, iso)
    requires NewRecord(p, iso, stored.id, now).(date := stored.date, createdAt := stored.createdAt, updatedAt := stored.updatedAt) == stored
    requires p.date.None?
    ensures Replace(stored, p, iso, now) == stored
  {
  }

  // ---------------------------------------------------------------------
  // Listing: filter and pagination
  // ---------------------------------------------------------------------

  /** The query string of `GET /`, with `page` and `limit` already numbers
      (defaults 1 and 10). */
  datatype ListQuery = ListQuery(page: int, limit: int, category: Option<string>, kind: Option<string>)

  /** The query when `page` and `limit` are not given. */
  function DefaultQuery(category: Option<string>, kind: Option<string>): ListQuery {
    ListQuery(1, 10, category, kind)
  }

  /** The conditions of the `find` filter; None is no condition. */
  datatype Filter = Filter(category: Option<string>, kind: Option<string>)

  /** Only a non-empty parameter becomes a condition (`if (category)`). */
  function BuildFilter(q: ListQuery): (f: Filter)
    ensures f.category.Some? <==> q.category.Some? && q.category.value != ""
    ensures f.kind.Some? <==> q.kind.Some? && q.kind.value != ""
    ensures f.category.Some? ==> f.category == q.category
    ensures f.kind.Some? ==> f.kind == q.kind
  {
    Filter(
      if q.category.Some? && q.category.value != "" then q.category else None,
      if q.kind.Some? && q.kind.value != "" then q.kind else None)
  }

  predicate Matches(f: Filter, t: Transaction) {
    && (f.category.None? || CategoryName(t.category) == f.category.value)
    && (f.kind.None? || KindName(t.kind) == f.kind.value)
  }

  /** The documents the filter selects, in store order. */
  function Select(docs: seq<Transaction>, f: Filter): (r: seq<Transaction>)
    ensures |r| <= |docs|
    ensures forall i :: 0 <= i < |r| ==> Matches(f, r[i]) && r[i] in docs
    ensures forall t :: t in docs && Matches(f, t) ==> t in r
  {
    if docs == [] then []
    else
      var rest := Select(docs[..|docs| - 1], f);
      var last := docs[|docs| - 1];
      assert docs == docs[..|docs| - 1] + [last];
      if Matches(f, last) then rest + [last] else rest
  }

  /** Each matching document is selected as often as it is stored, any
      other document never, so the selection's length counts the matches. */
  lemma {:induction false} SelectCounts(docs: seq<Transaction>, f: Filter)
    ensures forall t :: multiset(Select(docs, f))[t] == if Matches(f, t) then multiset(docs)[t] else 0
  {
    if docs != [] {
      var init, last := docs[..|docs| - 1], docs[|docs| - 1];
      SelectCounts(init, f);
      assert docs == init + [last];
      assert multiset(docs) == multiset(init) + multiset{last};
    }
  }

  /** `r` is `docs` read at the strictly increasing positions `idx`. */
  predicate PicksInOrder(r: seq<Transaction>, docs: seq<Transaction>, idx: seq<nat>) {
    && |idx| == |r|
    && (forall i :: 0 <= i < |idx| ==> idx[i] < |docs| && docs[idx[i]] == r[i])
    && (forall i, j :: 0 <= i < j < |idx| ==> idx[i] < idx[j])
  }

  /** Positions picked from `docs` stay valid, and stay in order, when a
      document is appended; picking the appended one too extends them. */
  lemma PicksExtend(r: seq<Transaction>, docs: seq<Transaction>, idx: seq<nat>, last: Transaction)
    requires PicksInOrder(r, docs, idx)
    ensures PicksInOrder(r, docs + [last], idx)
    ensures PicksInOrder(r + [last], docs + [last], idx + [|docs|])
  {
    var idx' := idx + [|docs|];
    assert forall i :: 0 <= i < |idx| ==> idx'[i] == idx[i] && (docs + [last])[idx[i]] == docs[idx[i]];
  }

  /** The selection keeps the store's order: it is a subsequence of the
      documents. */
  lemma {:induction false} SelectKeepsOrder(docs: seq<Transaction>, f: Filter)
    ensures exists idx :: PicksInOrder(Select(docs, f), docs, idx)
  {
    if docs == [] {
      var none: seq<nat> := [];
      assert PicksInOrder(Select(docs, f), docs, none);
    } else {
      var init, last := docs[..|docs| - 1], docs[|docs| - 1];
      var rest := Select(init, f);
      assert docs == init + [last];
      SelectKeepsOrder(init, f);
      var idx: seq<nat> :| PicksInOrder(rest, init, idx);
      PicksExtend(rest, init, idx, last);
      if Matches(f, last) {
        assert PicksInOrder(Select(docs, f), docs, idx + [|init|]);
      } else {
        assert PicksInOrder(Select(docs, f), docs, idx);
      }
    }
  }

  /** Empty parameters select every document. */
  lemma {:induction false} NoFilterSelectsAll(docs: seq<Transaction>, q: ListQuery)
    requires q.category.None? || q.category.value == ""
    requires q.kind.None? || q.kind.value == ""
    ensures Select(docs, BuildFilter(q)) == docs
  {
    if docs != [] {
      NoFilterSelectsAll(docs[..|docs| - 1], q);
      assert docs == docs[..|docs| - 1] + [docs[|docs| - 1]];
    }
  }

  /** A category parameter that names no category selects nothing. */
  lemma {:induction false} UnknownCategorySelectsNothing(docs: seq<Transaction>, q: ListQuery)
    requires q.category.Some? && ParseCategory(q.category.value).None?
    requires q.category.value != ""
    ensures Select(docs, BuildFilter(q)) == []
  {
    if docs != [] {
      CategoryNameRoundTrip(docs[|docs| - 1].category);
      UnknownCategorySelectsNothing(docs[..|docs| - 1], q);
    }
  }

  function Abs(n: int): nat {
    if n < 0 then -n else n
  }

  function Min(a: int, b: int): int {
    if a < b then a else b
  }

  /** `.limit(limit).skip(skip)`: the documents after the first `skip`; at
      most `|limit|` of them, or all of them when `limit` is 0. */
  function Window(docs: seq<Transaction>, skip: nat, limit: int): (r: seq<Transaction>)
    ensures skip >= |docs| ==> r == []
    ensures skip < |docs| ==> |r| == (if limit == 0 then |docs| - skip else Min(|docs| - skip, Abs(limit)))
    ensures forall i :: 0 <= i < |r| ==> skip + i < |docs| && r[i] == docs[skip + i]
  {
    if skip >= |docs| then []
    else docs[skip..if limit == 0 then |docs| else Min(|docs|, skip + Abs(limit))]
  }

  /** `Math.ceil(total / limit)`, or None for a limit of 0. */
  function TotalPages(total: nat, limit: int): (r: Option<int>)
    ensures r.None? <==> limit == 0
    ensures limit > 0 ==> r.value >= 0 && (r.value - 1) * limit < total <= r.value * limit
    ensures limit < 0 ==> r.value <= 0 && r.value * limit <= total < (r.value - 1) * limit
  {
    if limit == 0 then None
    else if limit > 0 then Some((total + limit - 1) / limit)
    else Some(-(total / -limit))
  }

  /** The list response for the stored documents: a 500 when the page and
      limit make the skip negative, which the database refuses; otherwise
      the window of the matching documents and the pagination block. */
  function ListResponse(docs: seq<Transaction>, q: ListQuery): (r: Response)
    ensures r.ServerError? <==> (q.page - 1) * q.limit < 0
    ensures r.Listed? <==> (q.page - 1) * q.limit >= 0
    ensures r.Listed? ==>
      && (forall i :: 0 <= i < |r.records| ==> r.records[i] in docs && Matches(BuildFilter(q), r.records[i]))
      && r.records == Window(Select(docs, BuildFilter(q)), (q.page - 1) * q.limit, q.limit)
      && (var n, skip := |Select(docs, BuildFilter(q))|, (q.page - 1) * q.limit;
          |r.records| == if skip >= n then 0 else if q.limit == 0 then n - skip else Min(n - skip, Abs(q.limit)))
      && r.pagination == Pagination(q.page, TotalPages(|Select(docs, BuildFilter(q))|, q.limit),
                                    |Select(docs, BuildFilter(q))|, q.limit)
  {
    var selected := Select(docs, BuildFilter(q));
    var skip := (q.page - 1) * q.limit;
    if skip < 0 then ServerError
    else
      var page := Window(selected, skip, q.limit);
      Listed(page, Pagination(q.page, TotalPages(|selected|, q.limit), |selected|, q.limit))
  }

  /** Without any query parameter the response is the first ten stored
      documents and reports one page per ten of them. */
  lemma DefaultListIsFirstPage(docs: seq<Transaction>)
    ensures var r := ListResponse(docs, DefaultQuery(None, None));
      && r.Listed?
      && r.records == docs[..Min(|docs|, 10)]
      && r.pagination == Pagination(1, Some((|docs| + 9) / 10), |docs|, 10)
  {
    NoFilterSelectsAll(docs, DefaultQuery(None, None));
  }

  /** With a positive limit every document appears on exactly one page: the
      document at position `i` is entry `i % limit` of page `i / limit + 1`,
      and that page is within `totalPages`. */
  lemma PageOf(docs: seq<Transaction>, limit: int, i: nat)
    requires limit > 0 && i < |docs|
    ensures var page := i / limit + 1;
      && 1 <= page <= TotalPages(|docs|, limit).value
      && i % limit < |Window(docs, (page - 1) * limit, limit)|
      && Window(docs, (page - 1) * limit, limit)[i % limit] == docs[i]
  {
    var q, tp := i / limit, TotalPages(|docs|, limit).value;
    assert q * limit + i % limit == i;
    MulLessCancel(q, tp, limit);
  }

  /** A positive factor can be cancelled from a strict inequality. */
  lemma MulLessCancel(a: int, b: int, c: int)
    requires c > 0 && a * c < b * c
    ensures a < b
  {
  }

  /** Consecutive pages continue where the previous one stopped. */
  lemma NextPageContinues(docs: seq<Transaction>, limit: int, page: int)
    requires limit > 0 && page >= 1 && page * limit < |docs|
    ensures var w := Window(docs, (page - 1) * limit, limit);
      |w| == limit && Window(docs, page * limit, limit) == docs[page * limit..Min(|docs|, (page + 1) * limit)]
  {
  }

  // ---------------------------------------------------------------------
  // The store
  // ---------------------------------------------------------------------

  /** The stored documents in ascending id order. */
  function InOrder(m: map<Id, Transaction>, n: nat): (r: seq<Transaction>)
    ensures |r| <= n
  {
    if n == 0 then [] else InOrder(m, n - 1) + (if n - 1 in m then [m[n - 1]] else [])
  }

  /** The listing holds exactly the documents stored under ids below `n`. */
  lemma {:induction false} InOrderContents(m: map<Id, Transaction>, n: nat)
    ensures forall t :: t in InOrder(m, n) <==> exists id :: id in m && id < n && m[id] == t
  {
    if n > 0 {
      InOrderContents(m, n - 1);
    }
  }

  /** Documents stored under their own ids are listed in ascending id order. */
  lemma {:induction false} InOrderSorted(m: map<Id, Transaction>, n: nat)
    requires forall id | id in m :: m[id].id == id
    ensures forall i :: 0 <= i < |InOrder(m, n)| ==> InOrder(m, n)[i].id < n
    ensures forall i, j :: 0 <= i < j < |InOrder(m, n)| ==> InOrder(m, n)[i].id < InOrder(m, n)[j].id
  {
    if n > 0 {
      InOrderSorted(m, n - 1);
      var r := InOrder(m, n);
      var init := InOrder(m, n - 1);
      assert forall i :: 0 <= i < |init| ==> init[i].id < n - 1;
      if n - 1 in m {
        assert r == init + [m[n - 1]] && m[n - 1].id == n - 1;
        forall i, j | 0 <= i < j < |r| ensures r[i].id < r[j].id {
          if j < |init| {
            assert r[i] == init[i] && r[j] == init[j];
          } else {
            assert r[i] == init[i] && r[j] == m[n - 1];
          }
        }
      } else {
        assert r == init;
      }
    }
  }

  /** Maps that agree on the ids below `n` list the same documents. */
  lemma {:induction false} InOrderFrame(m1: map<Id, Transaction>, m2: map<Id, Transaction>, n: nat)
    requires forall id :: id < n ==> (id in m1 <==> id in m2)
    requires forall id | id in m1 && id < n :: m1[id] == m2[id]
    ensures InOrder(m1, n) == InOrder(m2, n)
  {
    if n > 0 {
      InOrderFrame(m1, m2, n - 1);
    }
  }

  /** A document stored under the next id is listed last. */
  lemma InOrderAppend(m: map<Id, Transaction>, n: nat, t: Transaction)
    requires n !in m
    ensures InOrder(m[n := t], n + 1) == InOrder(m, n) + [t]
  {
    InOrderFrame(m, m[n := t], n);
  }

  /** The transactions collection: the stored documents by id and the next
      id to hand out. */
  class Collection {
    var records: map<Id, Transaction>
    var nextId: Id

    /** Ids are below `nextId`, each document carries its own id, and every
        stored document satisfies the schema. */
    ghost predicate Valid()
      reads this
    {
      forall id | id in records :: id < nextId && records[id].id == id && Schema.Valid(records[id])
    }

    /** What an unsorted `find()` returns. */
    function Documents(): seq<Transaction>
      reads this
    {
      InOrder(records, nextId)
    }

    constructor ()
      ensures Valid() && records == map[] && nextId == 0
    {
      records := map[];
      nextId := 0;
    }

    /** `save()` of a new document: it is stored under the next id, which
        it carries, and is listed last. */
    method Insert(t: Transaction)
      requires Valid() && t.id == nextId && Schema.Valid(t)
      modifies this
      ensures Valid()
      ensures old(nextId) !in old(records)
      ensures records == old(records)[old(nextId) := t] && nextId == old(nextId) + 1
      ensures Documents() == old(Documents()) + [t]
    {
      InOrderAppend(records, nextId, t);
      records := records[nextId := t];
      nextId := nextId + 1;
    }

    /** `save()` of a loaded document: it replaces the stored one under its
        id. */
    method Save(t: Transaction)
      requires Valid() && t.id in records && Schema.Valid(t)
      modifies this
      ensures Valid() && nextId == old(nextId)
      ensures records == old(records)[t.id := t]
    {
      records := records[t.id := t];
    }

    /** `POST /`: a 400 with the entries when the rules fail, and nothing is
        saved; otherwise the new document is stored under a fresh id, at the
        end of the listing, and returned with a 201. */
    method Create(p: V.Payload, iso: V.DateParser, now: int) returns (resp: Response)
      requires Valid()
      modifies this
      ensures Valid()
      ensures V.Validate(p, iso) != [] ==>
        resp == Invalid(V.Validate(p, iso)) && records == old(records) && nextId == old(nextId)
      ensures V.Validate(p, iso) == [] ==>
        && old(nextId) !in old(records)
        && resp == Created(NewRecord(p, iso, old(nextId), now))
        && records == old(records)[old(nextId) := resp.record]
        && nextId == old(nextId) + 1
        && Documents() == old(Documents()) + [resp.record]
    {
      var errors := V.Validate(p, iso);
      var rejected := HandleValidationErrors(errors);
      if rejected.Some? {
        return rejected.value;
      }
      var t := NewRecord(p, iso, nextId, now);
      Insert(t);
      resp := Created(t);
    }

    /** `GET /`: the list response over the stored documents. */
    method List(q: ListQuery) returns (resp: Response)
      requires Valid()
      ensures resp == ListResponse(Documents(), q)
      ensures resp.Listed? ==> forall i :: 0 <= i < |resp.records| ==> resp.records[i] in records.Values
    {
      resp := ListResponse(Documents(), q);
      InOrderContents(records, nextId);
    }

    /** `GET /summary`: the totals and the breakdown over every document. */
    method GetSummary() returns (resp: Response)
      requires Valid()
      ensures resp.Summarized?
      ensures resp.report.summary.income == Summary.Income(Documents())
      ensures resp.report.summary.expenses == Summary.Expenses(Documents())
      ensures resp.report.summary.balance == Summary.Income(Documents()) - Summary.Expenses(Documents())
      ensures resp.report.categoryBreakdown == Summary.Breakdown(Documents())
    {
      var report := Summary.GetSummary(Documents());
      resp := Summarized(report);
    }

    /** `GET /:id`: the document, a 404 when there is none, a 400 when the
        id does not cast to an id (`key` is None). */
    method Get(key: Option<Id>) returns (resp: Response)
      requires Valid()
      ensures key.None? ==> resp == InvalidId
      ensures key.Some? && key.value !in records ==> resp == NotFound
      ensures key.Some? && key.value in records ==> resp == Found(records[key.value])
    {
      if key.None? {
        return InvalidId;
      }
      if key.value !in records {
        return NotFound;
      }
      resp := Found(records[key.value]);
    }

    /** `PUT /:id`: the rules first (400), then the id (400 when malformed,
        404 when unknown, and nothing changes); then the loaded document's
        fields are replaced one by one and saved. */
    method Update(key: Option<Id>, p: V.Payload, iso: V.DateParser, now: int) returns (resp: Response)
      requires Valid()
      modifies this
      ensures Valid() && nextId == old(nextId)
      ensures V.Validate(p, iso) != [] ==> resp == Invalid(V.Validate(p, iso)) && records == old(records)
      ensures V.Validate(p, iso) == [] && key.None? ==> resp == InvalidId && records == old(records)
      ensures V.Validate(p, iso) == [] && key.Some? && key.value !in old(records) ==>
        resp == NotFound && records == old(records)
      ensures V.Validate(p, iso) == [] && key.Some? && key.value in old(records) ==>
        && resp == Updated(Replace(old(records)[key.value], p, iso, now))
        && records == old(records)[key.value := resp.record]
    {
      var errors := V.Validate(p, iso);
      var rejected := HandleValidationErrors(errors);
      if rejected.Some? {
        return rejected.value;
      }
      if key.None? {
        return InvalidId;
      }
      var id := key.value;
      if id !in records {
        return NotFound;
      }
      var t := AssignFields(records[id], p, iso, now);
      Save(t);
      resp := Updated(t);
    }

    /** `DELETE /:id`: removes the document; 404 or 400 change nothing. */
    method Delete(key: Option<Id>) returns (resp: Response)
      requires Valid()
      modifies this
      ensures Valid() && nextId == old(nextId)
      ensures key.None? ==> resp == InvalidId && records == old(records)
      ensures key.Some? && key.value !in old(records) ==> resp == NotFound && records == old(records)
      ensures key.Some? && key.value in old(records) ==>
        resp == Deleted && records == old(records) - {key.value}
    {
      if key.None? {
        return InvalidId;
      }
      if key.value !in records {
        return NotFound;
      }
      records := records - {key.value};
      resp := Deleted;
    }
  }
}
