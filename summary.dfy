/** The summary endpoint (server/routes/transactions.js, `GET /summary`):
    income, expense and balance totals from a reduce over every record, and
    the per-category breakdown of the aggregation pipeline. */
module Summary {
  import opened Schema

  /** The sum of the amounts of the income records. */
  function Income(ts: seq<Transaction>): int {
    if ts == [] then 0
    else Income(ts[..|ts| - 1]) + (if ts[|ts| - 1].kind == Schema.Income then ts[|ts| - 1].amount else 0)
  }

  /** The sum of the amounts of every other record. */
  function Expenses(ts: seq<Transaction>): int {
    if ts == [] then 0
    else Expenses(ts[..|ts| - 1]) + (if ts[|ts| - 1].kind == Schema.Income then 0 else ts[|ts| - 1].amount)
  }

  /** The sum of all amounts. */
  function AmountSum(ts: seq<Transaction>): int {
    if ts == [] then 0 else AmountSum(ts[..|ts| - 1]) + ts[|ts| - 1].amount
  }

  datatype Totals = Totals(income: int, expenses: int, balance: int)

  /** The reduce: one pass adding each amount to `income` or to `expenses`,
      then `balance` as their difference. */
  method Summarize(ts: seq<Transaction>) returns (s: Totals)
    ensures s.income == Income(ts) && s.expenses == Expenses(ts)
    ensures s.balance == s.income - s.expenses
  {
    var income, expenses := 0, 0;
    var i := 0;
    while i < |ts|
      invariant 0 <= i <= |ts|
      invariant income == Income(ts[..i]) && expenses == Expenses(ts[..i])
    {
      assert ts[..i + 1][..i] == ts[..i];
      if ts[i].kind == Schema.Income {
        income := income + ts[i].amount;
      } else {
        expenses := expenses + ts[i].amount;
      }
      i := i + 1;
    }
    assert ts[..i] == ts;
    s := Totals(income, expenses, income - expenses);
  }

  /** Every record adds to exactly one of the two totals. */
  lemma {:induction false} IncomePlusExpenses(ts: seq<Transaction>)
    ensures Income(ts) + Expenses(ts) == AmountSum(ts)
  {
    if ts != [] {
      IncomePlusExpenses(ts[..|ts| - 1]);
    }
  }

  /** The totals of a concatenation are the sums of the totals. */
  lemma {:induction false} TotalsAppend(a: seq<Transaction>, b: seq<Transaction>)
    ensures Income(a + b) == Income(a) + Income(b)
    ensures Expenses(a + b) == Expenses(a) + Expenses(b)
  {
    if b != [] {
      var ab := a + b;
      assert ab[..|ab| - 1] == a + b[..|b| - 1];
      assert ab[|ab| - 1] == b[|b| - 1];
      TotalsAppend(a, b[..|b| - 1]);
    } else {
      assert a + b == a;
    }
  }

  /** Over records the schema accepts, both totals are non-negative, so the
      balance lies between minus the expenses and the income. */
  lemma {:induction false} TotalsNonNegative(ts: seq<Transaction>)
    requires forall i :: 0 <= i < |ts| ==> Valid(ts[i])
    ensures Income(ts) >= 0 && Expenses(ts) >= 0
    ensures -Expenses(ts) <= Income(ts) - Expenses(ts) <= Income(ts)
  {
    if ts != [] {
      TotalsNonNegative(ts[..|ts| - 1]);
    }
  }

  // ---------------------------------------------------------------------
  // Category breakdown
  // ---------------------------------------------------------------------

  /** One `$group` output document: `_id` is the category. */
  datatype CategoryTotal = CategoryTotal(category: Category, total: int, count: nat)

  /** The sum of the amounts of the records in category `c`. */
  function TotalIn(ts: seq<Transaction>, c: Category): int {
    if ts == [] then 0
    else TotalIn(ts[..|ts| - 1], c) + (if ts[|ts| - 1].category == c then ts[|ts| - 1].amount else 0)
  }

  /** The number of records in category `c`. */
  function CountIn(ts: seq<Transaction>, c: Category): nat {
    if ts == [] then 0
    else CountIn(ts[..|ts| - 1], c) + (if ts[|ts| - 1].category == c then 1 else 0)
  }

  /** The sum of the totals of the entries for category `c`. */
  function TotalOf(gs: seq<CategoryTotal>, c: Category): int {
    if gs == [] then 0 else (if gs[0].category == c then gs[0].total else 0) + TotalOf(gs[1..], c)
  }

  /** The sum of the counts of the entries for category `c`. */
  function CountOf(gs: seq<CategoryTotal>, c: Category): nat {
    if gs == [] then 0 else (if gs[0].category == c then gs[0].count else 0) + CountOf(gs[1..], c)
  }

  function SumTotals(gs: seq<CategoryTotal>): int {
    if gs == [] then 0 else gs[0].total + SumTotals(gs[1..])
  }

  function SumCounts(gs: seq<CategoryTotal>): nat {
    if gs == [] then 0 else gs[0].count + SumCounts(gs[1..])
  }

  /** The categories that have an entry. */
  function CategoriesOf(gs: seq<CategoryTotal>): set<Category> {
    if gs == [] then {} else {gs[0].category} + CategoriesOf(gs[1..])
  }

  /** The categories that occur among the records. */
  function CategoriesIn(ts: seq<Transaction>): set<Category> {
    if ts == [] then {} else CategoriesIn(ts[..|ts| - 1]) + {ts[|ts| - 1].category}
  }

  /** No category has two entries. */
  predicate Distinct(gs: seq<CategoryTotal>) {
    gs == [] || (gs[0].category !in CategoriesOf(gs[1..]) && Distinct(gs[1..]))
  }

  /** Every entry stands for at least one record. */
  predicate Occupied(gs: seq<CategoryTotal>) {
    forall i :: 0 <= i < |gs| ==> gs[i].count > 0
  }

  /** One step of `$group`: the record's amount and a count of one go to
      the entry of its category, which is created when missing. */
  function AddTo(gs: seq<CategoryTotal>, t: Transaction): (r: seq<CategoryTotal>)
    ensures SumTotals(r) == SumTotals(gs) + t.amount
    ensures SumCounts(r) == SumCounts(gs) + 1
  {
    if gs == [] then
      [CategoryTotal(t.category, t.amount, 1)]
    else if gs[0].category == t.category then
      [gs[0].(total := gs[0].total + t.amount, count := gs[0].count + 1)] + gs[1..]
    else
      [gs[0]] + AddTo(gs[1..], t)
  }

  /** The step changes only the record's category, by its amount and one. */
  lemma {:induction false} AddToEntries(gs: seq<CategoryTotal>, t: Transaction, c: Category)
    ensures TotalOf(AddTo(gs, t), c) == TotalOf(gs, c) + (if t.category == c then t.amount else 0)
    ensures CountOf(AddTo(gs, t), c) == CountOf(gs, c) + (if t.category == c then 1 else 0)
  {
    if gs != [] && gs[0].category != t.category {
      AddToEntries(gs[1..], t, c);
      assert AddTo(gs, t)[1..] == AddTo(gs[1..], t);
    }
  }

  /** The step adds the record's category to the categories listed, and
      keeps them without repetition and each entry occupied. */
  lemma {:induction false} AddToShape(gs: seq<CategoryTotal>, t: Transaction)
    ensures CategoriesOf(AddTo(gs, t)) == CategoriesOf(gs) + {t.category}
    ensures Distinct(gs) ==> Distinct(AddTo(gs, t))
    ensures Occupied(gs) ==> Occupied(AddTo(gs, t))
  {
    if gs != [] {
      var r := AddTo(gs, t);
      if gs[0].category == t.category {
        assert r[1..] == gs[1..];
      } else {
        AddToShape(gs[1..], t);
        assert r[1..] == AddTo(gs[1..], t);
      }
    }
  }

  /** `$group` by category over the records, in the order they are read. */
  function Group(ts: seq<Transaction>): (r: seq<CategoryTotal>)
    ensures SumCounts(r) == |ts|
    ensures SumTotals(r) == AmountSum(ts)
  {
    if ts == [] then [] else AddTo(Group(ts[..|ts| - 1]), ts[|ts| - 1])
  }

  /** The grouping holds each category's sum and count. */
  lemma {:induction false} GroupEntries(ts: seq<Transaction>, c: Category)
    ensures TotalOf(Group(ts), c) == TotalIn(ts, c) && CountOf(Group(ts), c) == CountIn(ts, c)
  {
    if ts != [] {
      GroupEntries(ts[..|ts| - 1], c);
      AddToEntries(Group(ts[..|ts| - 1]), ts[|ts| - 1], c);
    }
  }

  /** The grouping lists each category that occurs, once, with a count of at
      least one. */
  lemma {:induction false} GroupShape(ts: seq<Transaction>)
    ensures Distinct(Group(ts)) && Occupied(Group(ts))
    ensures CategoriesOf(Group(ts)) == CategoriesIn(ts)
  {
    if ts != [] {
      GroupShape(ts[..|ts| - 1]);
      AddToShape(Group(ts[..|ts| - 1]), ts[|ts| - 1]);
    }
  }

  lemma {:induction false} InCategories(gs: seq<CategoryTotal>, i: nat)
    requires i < |gs|
    ensures gs[i].category in CategoriesOf(gs)
  {
    if i > 0 {
      InCategories(gs[1..], i - 1);
    }
  }

  /** Without repetition, no two positions share a category. */
  lemma {:induction false} DistinctPositions(gs: seq<CategoryTotal>)
    requires Distinct(gs)
    ensures forall i, j :: 0 <= i < j < |gs| ==> gs[i].category != gs[j].category
  {
    if gs != [] {
      DistinctPositions(gs[1..]);
      forall j | 0 < j < |gs| ensures gs[0].category != gs[j].category {
        InCategories(gs[1..], j - 1);
      }
    }
  }

  /** In a list without repeated categories, an entry holds everything
      counted for its category. */
  lemma {:induction false} DistinctEntry(gs: seq<CategoryTotal>, i: nat)
    requires Distinct(gs) && i < |gs|
    ensures TotalOf(gs, gs[i].category) == gs[i].total
    ensures CountOf(gs, gs[i].category) == gs[i].count
  {
    if i == 0 {
      DistinctAbsent(gs[1..], gs[0].category);
    } else {
      InCategories(gs[1..], i - 1);
      DistinctEntry(gs[1..], i - 1);
    }
  }

  lemma {:induction false} DistinctAbsent(gs: seq<CategoryTotal>, c: Category)
    requires c !in CategoriesOf(gs)
    ensures TotalOf(gs, c) == 0 && CountOf(gs, c) == 0
  {
    if gs != [] {
      DistinctAbsent(gs[1..], c);
    }
  }

  /** Totals never increase along the list. */
  predicate SortedByTotal(s: seq<CategoryTotal>) {
    forall i, j :: 0 <= i < j < |s| ==> s[i].total >= s[j].total
  }

  /** `$sort: {total: -1}` by insertion: `x` goes before the first entry
      whose total is not above its own. */
  function Insert(x: CategoryTotal, s: seq<CategoryTotal>): (r: seq<CategoryTotal>)
    requires SortedByTotal(s)
    ensures |r| == |s| + 1 && (r[0] == x || (s != [] && r[0] == s[0]))
    ensures multiset(r) == multiset(s) + multiset{x}
    ensures SortedByTotal(r)
  {
    if s == [] || s[0].total <= x.total then
      [x] + s
    else
      var rest := Insert(x, s[1..]);
      assert s == [s[0]] + s[1..];
      assert forall j :: 0 <= j < |rest| ==> rest[0].total >= rest[j].total;
      [s[0]] + rest
  }

  /** Insertion adds the entry's category and sums, and keeps the list free
      of repetition when the category is new. */
  lemma {:induction false} InsertKeeps(x: CategoryTotal, s: seq<CategoryTotal>)
    requires SortedByTotal(s)
    ensures CategoriesOf(Insert(x, s)) == {x.category} + CategoriesOf(s)
    ensures SumTotals(Insert(x, s)) == x.total + SumTotals(s)
    ensures SumCounts(Insert(x, s)) == x.count + SumCounts(s)
    ensures Distinct(s) && x.category !in CategoriesOf(s) ==> Distinct(Insert(x, s))
  {
    var r := Insert(x, s);
    if s == [] || s[0].total <= x.total {
      assert r[1..] == s;
    } else {
      InsertKeeps(x, s[1..]);
      assert r[1..] == Insert(x, s[1..]);
    }
  }

  function SortByTotalDesc(s: seq<CategoryTotal>): (r: seq<CategoryTotal>)
    ensures multiset(r) == multiset(s)
    ensures SortedByTotal(r)
  {
    if s == [] then []
    else
      assert s == [s[0]] + s[1..];
      Insert(s[0], SortByTotalDesc(s[1..]))
  }

  /** Sorting keeps the categories, the sums and the absence of repetition. */
  lemma {:induction false} SortKeeps(s: seq<CategoryTotal>)
    ensures CategoriesOf(SortByTotalDesc(s)) == CategoriesOf(s)
    ensures SumTotals(SortByTotalDesc(s)) == SumTotals(s)
    ensures SumCounts(SortByTotalDesc(s)) == SumCounts(s)
    ensures Distinct(s) ==> Distinct(SortByTotalDesc(s))
  {
    if s != [] {
      SortKeeps(s[1..]);
      InsertKeeps(s[0], SortByTotalDesc(s[1..]));
    }
  }

  /** The category breakdown the endpoint returns. */
  function Breakdown(ts: seq<Transaction>): (r: seq<CategoryTotal>)
    ensures SortedByTotal(r)
    ensures multiset(r) == multiset(Group(ts))
  {
    SortByTotalDesc(Group(ts))
  }

  /** The breakdown has one entry per category that occurs, each with the
      sum and count of that category's records; the counts add up to the
      number of records, the totals to income plus expenses, and the totals
      never increase along the list. */
  lemma BreakdownCorrect(ts: seq<Transaction>)
    ensures var r := Breakdown(ts);
      && (forall i, j :: 0 <= i < j < |r| ==> r[i].category != r[j].category)
      && CategoriesOf(r) == CategoriesIn(ts)
      && (forall i :: 0 <= i < |r| ==>
            r[i].total == TotalIn(ts, r[i].category) && r[i].count == CountIn(ts, r[i].category) && r[i].count > 0)
      && SumCounts(r) == |ts|
      && SumTotals(r) == Income(ts) + Expenses(ts)
      && SortedByTotal(r)
  {
    var g := Group(ts);
    var r := Breakdown(ts);
    GroupShape(ts);
    SortKeeps(g);
    DistinctPositions(r);
    forall i | 0 <= i < |r|
      ensures r[i].total == TotalIn(ts, r[i].category) && r[i].count == CountIn(ts, r[i].category) && r[i].count > 0
    {
      assert r[i] in multiset(g);
      var k :| 0 <= k < |g| && g[k] == r[i];
      GroupEntries(ts, g[k].category);
      DistinctEntry(g, k);
    }
    IncomePlusExpenses(ts);
  }

  /** The response body: the totals and the breakdown. */
  datatype Report = Report(summary: Totals, categoryBreakdown: seq<CategoryTotal>)

  method GetSummary(ts: seq<Transaction>) returns (r: Report)
    ensures r.summary == Totals(Income(ts), Expenses(ts), Income(ts) - Expenses(ts))
    ensures r.categoryBreakdown == Breakdown(ts)
  {
    var totals := Summarize(ts);
    r := Report(totals, Breakdown(ts));
  }
}
