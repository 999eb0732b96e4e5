/** The top-level client state (client/src/App.jsx): the transaction list,
    the summary shown beside it, and the form/editing state machine. The
    outcomes of API calls are parameters: each is a success with its
    response or a failure, after which the handler stops. */
module App {
  import opened Wrappers
  import opened Schema
  import Summary

  /** The outcome of an awaited API call. */
  datatype ApiResult<T> = Ok(value: T) | Failed

  // ---------------------------------------------------------------------
  // List transforms
  // ---------------------------------------------------------------------

  /** `[created, ...prev]`. */
  function Prepend(list: seq<Transaction>, created: Transaction): (r: seq<Transaction>)
    ensures |r| == |list| + 1 && r[0] == created && r[1..] == list
  {
    [created] + list
  }

  /** `prev.map(t => t._id === id ? updated : t)`. */
  function ReplaceById(list: seq<Transaction>, id: Id, updated: Transaction): (r: seq<Transaction>)
    ensures |r| == |list|
    ensures forall i :: 0 <= i < |r| ==> r[i] == if list[i].id == id then updated else list[i]
  {
    if list == [] then []
    else [if list[0].id == id then updated else list[0]] + ReplaceById(list[1..], id, updated)
  }

  /** `prev.filter(t => t._id !== id)`. */
  function RemoveById(list: seq<Transaction>, id: Id): (r: seq<Transaction>)
    ensures |r| <= |list|
    ensures forall t :: t in r <==> t in list && t.id != id
  {
    if list == [] then []
    else (if list[0].id == id then [] else [list[0]]) + RemoveById(list[1..], id)
  }

  /** Replacing twice is replacing once. */
  lemma ReplaceIdempotent(list: seq<Transaction>, id: Id, updated: Transaction)
    ensures ReplaceById(ReplaceById(list, id, updated), id, updated) == ReplaceById(list, id, updated)
  {
  }

  /** Removing twice is removing once. */
  lemma {:induction false} RemoveIdempotent(list: seq<Transaction>, id: Id)
    ensures RemoveById(RemoveById(list, id), id) == RemoveById(list, id)
  {
    if list != [] {
      RemoveIdempotent(list[1..], id);
      RemoveAppend((if list[0].id == id then [] else [list[0]]), RemoveById(list[1..], id), id);
    }
  }

  /** Filtering distributes over concatenation, so the kept rows keep their
      relative order. */
  lemma {:induction false} RemoveAppend(a: seq<Transaction>, b: seq<Transaction>, id: Id)
    ensures RemoveById(a + b, id) == RemoveById(a, id) + RemoveById(b, id)
  {
    if a == [] {
      assert a + b == b;
    } else {
      assert (a + b)[0] == a[0] && (a + b)[1..] == a[1..] + b;
      RemoveAppend(a[1..], b, id);
    }
  }

  /** A row's own id removes exactly what was there before it was added. */
  lemma RemoveAfterPrepend(list: seq<Transaction>, created: Transaction)
    ensures RemoveById(Prepend(list, created), created.id) == RemoveById(list, created.id)
  {
    assert Prepend(list, created)[1..] == list;
  }

  /** The number of rows with the id. */
  function CountId(list: seq<Transaction>, id: Id): nat {
    if list == [] then 0 else (if list[0].id == id then 1 else 0) + CountId(list[1..], id)
  }

  /** Removing shortens the list by the number of rows with the id. */
  lemma {:induction false} RemoveLength(list: seq<Transaction>, id: Id)
    ensures |RemoveById(list, id)| == |list| - CountId(list, id)
  {
    if list != [] {
      RemoveLength(list[1..], id);
    }
  }

  /** A replacement that keeps the id leaves the rows under other ids as
      they were once removed by that id. */
  lemma {:induction false} RemoveAfterReplace(list: seq<Transaction>, id: Id, updated: Transaction)
    requires updated.id == id
    ensures RemoveById(ReplaceById(list, id, updated), id) == RemoveById(list, id)
  {
    if list != [] {
      RemoveAfterReplace(list[1..], id, updated);
      assert ReplaceById(list, id, updated)[1..] == ReplaceById(list[1..], id, updated);
    }
  }

  // ---------------------------------------------------------------------
  // The component state
  // ---------------------------------------------------------------------

  /** Which handler a form submission reached. */
  datatype Dispatch = ToAdd | ToUpdate

  class AppState {
    var transactions: seq<Transaction>
    /** None until a summary has been received (`{}` in the source). */
    var summary: Option<Summary.Totals>
    var categoryBreakdown: seq<Summary.CategoryTotal>
    var showForm: bool
    var editingTransaction: Option<Transaction>
    var isSubmitting: bool

    constructor ()
      ensures transactions == [] && summary.None? && categoryBreakdown == []
      ensures !showForm && editingTransaction.None? && !isSubmitting
    {
      transactions := [];
      summary := None;
      categoryBreakdown := [];
      showForm := false;
      editingTransaction := None;
      isSubmitting := false;
    }

    /** Stores a fresh summary response. */
    method SetSummary(report: Summary.Report)
      modifies this`summary, this`categoryBreakdown
      ensures summary == Some(report.summary) && categoryBreakdown == report.categoryBreakdown
    {
      summary := Some(report.summary);
      categoryBreakdown := report.categoryBreakdown;
    }

    /** `handleAddTransaction`: a created row goes first; the form closes
        only once the summary has been refreshed too. */
    method HandleAddTransaction(created: ApiResult<Transaction>, refreshed: ApiResult<Summary.Report>)
      modifies this
      ensures transactions == if created.Ok? then Prepend(old(transactions), created.value) else old(transactions)
      ensures created.Ok? && refreshed.Ok? ==>
        !showForm && summary == Some(refreshed.value.summary)
        && categoryBreakdown == refreshed.value.categoryBreakdown
      ensures !(created.Ok? && refreshed.Ok?) ==>
        showForm == old(showForm) && summary == old(summary) && categoryBreakdown == old(categoryBreakdown)
      ensures editingTransaction == old(editingTransaction) && !isSubmitting
    {
      isSubmitting := true;
      if created.Failed? {
        isSubmitting := false;
        return;
      }
      transactions := Prepend(transactions, created.value);
      if refreshed.Failed? {
        isSubmitting := false;
        return;
      }
      SetSummary(refreshed.value);
      showForm := false;
      isSubmitting := false;
    }

    /** `handleUpdateTransaction`: the rows with the edited id take the
        response; editing ends and the form closes once the summary has been
        refreshed. Without an edited row the call fails before any request
        and nothing changes. */
    method HandleUpdateTransaction(updated: ApiResult<Transaction>, refreshed: ApiResult<Summary.Report>)
      modifies this
      ensures old(editingTransaction).Some? && updated.Ok? ==>
        transactions == ReplaceById(old(transactions), old(editingTransaction).value.id, updated.value)
      ensures old(editingTransaction).None? || updated.Failed? ==> transactions == old(transactions)
      ensures old(editingTransaction).Some? && updated.Ok? && refreshed.Ok? ==>
        editingTransaction.None? && !showForm && summary == Some(refreshed.value.summary)
        && categoryBreakdown == refreshed.value.categoryBreakdown
      ensures !(old(editingTransaction).Some? && updated.Ok? && refreshed.Ok?) ==>
        editingTransaction == old(editingTransaction) && showForm == old(showForm)
        && summary == old(summary) && categoryBreakdown == old(categoryBreakdown)
      ensures !isSubmitting
    {
      isSubmitting := true;
      if editingTransaction.None? || updated.Failed? {
        isSubmitting := false;
        return;
      }
      transactions := ReplaceById(transactions, editingTransaction.value.id, updated.value);
      if refreshed.Failed? {
        isSubmitting := false;
        return;
      }
      SetSummary(refreshed.value);
      editingTransaction := None;
      showForm := false;
      isSubmitting := false;
    }

    /** `handleDeleteTransaction`: nothing happens unless the user confirms
        and the request succeeds; then every row with the id goes. */
    method HandleDeleteTransaction(id: Id, confirmed: bool, deleted: bool, refreshed: ApiResult<Summary.Report>)
      modifies this
      ensures transactions == if confirmed && deleted then RemoveById(old(transactions), id) else old(transactions)
      ensures confirmed && deleted && refreshed.Ok? ==>
        summary == Some(refreshed.value.summary) && categoryBreakdown == refreshed.value.categoryBreakdown
      ensures !(confirmed && deleted && refreshed.Ok?) ==>
        summary == old(summary) && categoryBreakdown == old(categoryBreakdown)
      ensures showForm == old(showForm) && editingTransaction == old(editingTransaction)
      ensures isSubmitting == old(isSubmitting)
    {
      if !confirmed {
        return;
      }
      if !deleted {
        return;
      }
      transactions := RemoveById(transactions, id);
      if refreshed.Failed? {
        return;
      }
      SetSummary(refreshed.value);
    }

    /** `handleEditTransaction`: the row becomes the edited one and the form
        opens. */
    method HandleEditTransaction(t: Transaction)
      modifies this
      ensures editingTransaction == Some(t) && showForm
      ensures transactions == old(transactions) && summary == old(summary)
      ensures categoryBreakdown == old(categoryBreakdown) && isSubmitting == old(isSubmitting)
    {
      editingTransaction := Some(t);
      showForm := true;
    }

    /** `handleFormSubmit`: an update exactly when a row is being edited,
        otherwise an add. */
    method HandleFormSubmit(created: ApiResult<Transaction>, updated: ApiResult<Transaction>,
                            refreshed: ApiResult<Summary.Report>) returns (via: Dispatch)
      modifies this
      ensures via == ToUpdate <==> old(editingTransaction).Some?
      ensures !isSubmitting
      // the add path: HandleAddTransaction's outcome
      ensures via == ToAdd ==>
        transactions == if created.Ok? then Prepend(old(transactions), created.value) else old(transactions)
      ensures via == ToAdd && created.Ok? && refreshed.Ok? ==>
        !showForm && summary == Some(refreshed.value.summary)
        && categoryBreakdown == refreshed.value.categoryBreakdown
      ensures via == ToAdd && !(created.Ok? && refreshed.Ok?) ==>
        showForm == old(showForm) && summary == old(summary) && categoryBreakdown == old(categoryBreakdown)
      ensures via == ToAdd ==> editingTransaction == old(editingTransaction)
      // the update path: HandleUpdateTransaction's outcome
      ensures via == ToUpdate ==>
        transactions == if updated.Ok? then ReplaceById(old(transactions), old(editingTransaction).value.id, updated.value)
                        else old(transactions)
      ensures via == ToUpdate && updated.Ok? && refreshed.Ok? ==>
        editingTransaction.None? && !showForm && summary == Some(refreshed.value.summary)
        && categoryBreakdown == refreshed.value.categoryBreakdown
      ensures via == ToUpdate && !(updated.Ok? && refreshed.Ok?) ==>
        editingTransaction == old(editingTransaction) && showForm == old(showForm)
        && summary == old(summary) && categoryBreakdown == old(categoryBreakdown)
    {
      if editingTransaction.Some? {
        via := ToUpdate;
        HandleUpdateTransaction(updated, refreshed);
      } else {
        via := ToAdd;
        HandleAddTransaction(created, refreshed);
      }
    }

    /** `handleFormCancel`: the form closes and editing ends. */
    method HandleFormCancel()
      modifies this
      ensures !showForm && editingTransaction.None?
      ensures transactions == old(transactions) && summary == old(summary)
      ensures categoryBreakdown == old(categoryBreakdown) && isSubmitting == old(isSubmitting)
    {
      showForm := false;
      editingTransaction := None;
    }
  }
}
