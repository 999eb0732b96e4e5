/** The transaction table (client/src/components/TransactionList.jsx): the
    sort column and direction, the set of expanded rows, and the sorted copy
    of the list the table renders. */
module ListView {
  import opened Text
  import opened Schema

  /** The columns with a sort button. */
  datatype SortField = TitleColumn | AmountColumn | CategoryColumn | TypeColumn | DateColumn

  datatype Direction = Asc | Desc

  function Flip(d: Direction): (r: Direction)
    ensures r != d
  {
    if d == Asc then Desc else Asc
  }

  lemma FlipTwice(d: Direction)
    ensures Flip(Flip(d)) == d
  {
  }

  /** The value the comparator reads: text columns compare as strings, the
      amount as a number and the date as a `Date`, that is by timestamp. */
  datatype Key = TextKey(text: string) | NumberKey(number: int)

  function KeyOf(t: Transaction, field: SortField): (k: Key)
    ensures (field == AmountColumn || field == DateColumn) <==> k.NumberKey?
  {
    match field
    case TitleColumn => TextKey(t.title)
    case AmountColumn => NumberKey(t.amount)
    case CategoryColumn => TextKey(CategoryName(t.category))
    case TypeColumn => TextKey(KindName(t.kind))
    case DateColumn => NumberKey(t.date)
  }

  /** `<` on two keys of one column. */
  predicate KeyLess(a: Key, b: Key) {
    match (a, b)
    case (TextKey(x), TextKey(y)) => Less(x, y)
    case (NumberKey(x), NumberKey(y)) => x < y
    case _ => false
  }

  /** The comparator returns -1, placing `a` first: in ascending order when
      `a`'s key is not above `b`'s, in descending order when it is not
      below. */
  predicate Precedes(a: Transaction, b: Transaction, field: SortField, dir: Direction) {
    if dir == Asc then !KeyLess(KeyOf(b, field), KeyOf(a, field))
    else !KeyLess(KeyOf(a, field), KeyOf(b, field))
  }

  lemma KeyLessAsymmetric(a: Key, b: Key)
    requires KeyLess(a, b)
    ensures !KeyLess(b, a)
  {
    if a.TextKey? {
      LessAsymmetric(a.text, b.text);
    }
  }

  /** Of two rows, one may always go first. */
  lemma PrecedesTotal(a: Transaction, b: Transaction, field: SortField, dir: Direction)
    ensures Precedes(a, b, field, dir) || Precedes(b, a, field, dir)
  {
    if KeyLess(KeyOf(a, field), KeyOf(b, field)) {
      KeyLessAsymmetric(KeyOf(a, field), KeyOf(b, field));
    }
  }

  lemma PrecedesTransitive(a: Transaction, b: Transaction, c: Transaction, field: SortField, dir: Direction)
    requires Precedes(a, b, field, dir) && Precedes(b, c, field, dir)
    ensures Precedes(a, c, field, dir)
  {
    var ka, kb, kc := KeyOf(a, field), KeyOf(b, field), KeyOf(c, field);
    if ka.TextKey? {
      LessTotal(ka.text, kb.text);
      LessTotal(kb.text, kc.text);
      if dir == Asc && Less(kc.text, ka.text) {
        if Less(ka.text, kb.text) {
          LessTransitive(kc.text, ka.text, kb.text);
        }
      } else if dir == Desc && Less(ka.text, kc.text) {
        if Less(kb.text, ka.text) {
          LessTransitive(kb.text, ka.text, kc.text);
        }
      }
    }
  }

  /** Each row may go before the next. */
  predicate Sorted(s: seq<Transaction>, field: SortField, dir: Direction) {
    forall i :: 0 <= i < |s| - 1 ==> Precedes(s[i], s[i + 1], field, dir)
  }

  /** One insertion of the sort: `x` goes before the first row it may
      precede. */
  function Insert(x: Transaction, s: seq<Transaction>, field: SortField, dir: Direction): (r: seq<Transaction>)
    requires Sorted(s, field, dir)
    ensures multiset(r) == multiset(s) + multiset{x}
    ensures |r| == |s| + 1 && (r[0] == x || (s != [] && r[0] == s[0]))
    ensures Sorted(r, field, dir)
  {
    if s == [] || Precedes(x, s[0], field, dir) then
      [x] + s
    else
      PrecedesTotal(x, s[0], field, dir);
      assert s == [s[0]] + s[1..];
      [s[0]] + Insert(x, s[1..], field, dir)
  }

  /** `[...transactions].sort(comparator)`: a sorted copy; the input is a
      value and is left as it was. Rows with equal keys may come in any
      order, and the insertion order is one of them. */
  function SortTransactions(ts: seq<Transaction>, field: SortField, dir: Direction): (r: seq<Transaction>)
    ensures multiset(r) == multiset(ts)
    ensures Sorted(r, field, dir)
  {
    if ts == [] then []
    else
      assert ts == [ts[0]] + ts[1..];
      Insert(ts[0], SortTransactions(ts[1..], field, dir), field, dir)
  }

  /** In a sorted list every row may go before every later row: in
      ascending order no key is above a later one, in descending order no
      key is below a later one. */
  lemma {:induction false} SortedAllPairs(s: seq<Transaction>, field: SortField, dir: Direction)
    requires Sorted(s, field, dir)
    ensures forall i, j :: 0 <= i < j < |s| ==> Precedes(s[i], s[j], field, dir)
  {
    if |s| > 1 {
      SortedAllPairs(s[1..], field, dir);
      forall j | 1 < j < |s| ensures Precedes(s[0], s[j], field, dir) {
        assert Precedes(s[1..][0], s[1..][j - 1], field, dir);
        PrecedesTransitive(s[0], s[1], s[j], field, dir);
      }
    }
  }

  /** With the amount column ascending, amounts never decrease; descending,
      they never increase. */
  lemma AmountOrder(ts: seq<Transaction>, dir: Direction)
    ensures var r := SortTransactions(ts, AmountColumn, dir);
      forall i, j :: 0 <= i < j < |r| ==>
        if dir == Asc then r[i].amount <= r[j].amount else r[i].amount >= r[j].amount
  {
    SortedAllPairs(SortTransactions(ts, AmountColumn, dir), AmountColumn, dir);
  }

  /** `new Set(rows)` with `id` deleted when present and added otherwise. */
  function Toggled(rows: set<Id>, id: Id): (r: set<Id>)
    ensures id in r <==> id !in rows
    ensures forall other :: other != id ==> (other in r <==> other in rows)
  {
    if id in rows then rows - {id} else rows + {id}
  }

  /** Expanding and collapsing a row restores the set. */
  lemma ToggleTwice(rows: set<Id>, id: Id)
    ensures Toggled(Toggled(rows, id), id) == rows
  {
  }

  /** The table's view state. */
  class TransactionList {
    var sortField: SortField
    var sortDirection: Direction
    var expandedRows: set<Id>

    constructor ()
      ensures sortField == DateColumn && sortDirection == Desc && expandedRows == {}
    {
      sortField := DateColumn;
      sortDirection := Desc;
      expandedRows := {};
    }

    /** `handleSort`: the current column flips its direction; another column
        becomes current, descending. */
    method HandleSort(field: SortField)
      modifies this
      ensures old(sortField) == field ==> sortField == field && sortDirection == Flip(old(sortDirection))
      ensures old(sortField) != field ==> sortField == field && sortDirection == Desc
      ensures expandedRows == old(expandedRows)
    {
      if sortField == field {
        sortDirection := if sortDirection == Asc then Desc else Asc;
      } else {
        sortField := field;
        sortDirection := Desc;
      }
    }

    /** `toggleRowExpansion`: flips the membership of `id` in a copy of the
        set and stores the copy. */
    method ToggleRowExpansion(id: Id)
      modifies this
      ensures expandedRows == Toggled(old(expandedRows), id)
      ensures sortField == old(sortField) && sortDirection == old(sortDirection)
    {
      var newExpandedRows := expandedRows;
      if id in newExpandedRows {
        newExpandedRows := newExpandedRows - {id};
      } else {
        newExpandedRows := newExpandedRows + {id};
      }
      expandedRows := newExpandedRows;
    }

    /** The rows the table renders. */
    function SortedTransactions(ts: seq<Transaction>): (r: seq<Transaction>)
      reads this
      ensures multiset(r) == multiset(ts) && Sorted(r, sortField, sortDirection)
    {
      SortTransactions(ts, sortField, sortDirection)
    }
  }
}
