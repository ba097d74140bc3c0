/** The loan slice of the Redux store (store/loansSlice.ts): the cached
    loans, the selected loan, the loading flag and error, the registry
    filter, the reducers that update them and the selector that derives the
    filtered list. */
module LoansSlice {
  import opened Common
  import opened Lists
  import opened Domain
  import Api

  /** `filter`: a status and an optional student id. */
  datatype LoanFilter = LoanFilter(status: StatusFilter, studentId: Option<int>)

  /** `Partial<filter>`: each field may be absent. */
  datatype FilterPatch = FilterPatch(status: Option<StatusFilter>, studentId: Option<Option<int>>)

  const DefaultFilter: LoanFilter := LoanFilter(All, None)

  /** `{ ...filter, ...patch }`: a field present in the patch replaces the
      current one, an absent field is kept. */
  function MergeFilter(f: LoanFilter, patch: FilterPatch): (r: LoanFilter)
    ensures patch.status.Some? ==> r.status == patch.status.value
    ensures patch.status.None? ==> r.status == f.status
    ensures patch.studentId.Some? ==> r.studentId == patch.studentId.value
    ensures patch.studentId.None? ==> r.studentId == f.studentId
  {
    LoanFilter(
      if patch.status.Some? then patch.status.value else f.status,
      if patch.studentId.Some? then patch.studentId.value else f.studentId)
  }

  /** One patch applied after another: the later one wins field by field. */
  function ComposePatch(first: FilterPatch, second: FilterPatch): FilterPatch
  {
    FilterPatch(
      if second.status.Some? then second.status else first.status,
      if second.studentId.Some? then second.studentId else first.studentId)
  }

  /** Merging is idempotent, the empty patch changes nothing, and two
      successive `setFilter`s are one `setFilter` of the composed patch. */
  lemma MergeLaws(f: LoanFilter, p: FilterPatch, q: FilterPatch)
    ensures MergeFilter(MergeFilter(f, p), p) == MergeFilter(f, p)
    ensures MergeFilter(f, FilterPatch(None, None)) == f
    ensures MergeFilter(MergeFilter(f, p), q) == MergeFilter(f, ComposePatch(p, q))
  {
  }

  // ---------------------------------------------------------------- findIndex

  /** `loans.findIndex(loan => loan.id === id)`. */
  function IndexOfId(loans: seq<Loan>, id: int): (r: int)
    ensures -1 <= r < |loans|
    ensures r == -1 <==> forall i :: 0 <= i < |loans| ==> loans[i].id != id
    ensures r >= 0 ==> loans[r].id == id && forall j :: 0 <= j < r ==> loans[j].id != id
  {
    if loans == [] then -1
    else if loans[0].id == id then 0
    else
      var k := IndexOfId(loans[1..], id);
      if k == -1 then -1 else k + 1
  }

  /** The cache after `returnLoan` succeeds: the first loan with the
      payload's id is replaced by the payload, or nothing changes when no
      cached loan has that id. */
  function ReplaceFirstById(loans: seq<Loan>, payload: Loan): (r: seq<Loan>)
    ensures |r| == |loans|
    ensures (forall i :: 0 <= i < |loans| ==> loans[i].id != payload.id) ==> r == loans
    ensures forall i :: 0 <= i < |loans| ==> r[i].id == loans[i].id
    ensures forall i :: 0 <= i < |loans| && i != IndexOfId(loans, payload.id) ==> r[i] == loans[i]
    ensures IndexOfId(loans, payload.id) >= 0 ==> r[IndexOfId(loans, payload.id)] == payload
  {
    var k := IndexOfId(loans, payload.id);
    if k != -1 then loans[k := payload] else loans
  }

  /** The payload is in the cache afterwards exactly when some cached loan
      had its id; replacing again with the same payload changes nothing. */
  lemma ReplaceLaws(loans: seq<Loan>, payload: Loan)
    ensures payload in ReplaceFirstById(loans, payload) <==> exists i :: 0 <= i < |loans| && loans[i].id == payload.id
    ensures ReplaceFirstById(ReplaceFirstById(loans, payload), payload) == ReplaceFirstById(loans, payload)
  {
    var r := ReplaceFirstById(loans, payload);
    var k := IndexOfId(loans, payload.id);
    if payload in r {
      var i :| 0 <= i < |r| && r[i] == payload;
      assert loans[i].id == payload.id;
    }
    IndexSameIds(loans, r, payload.id);
  }

  /** `findIndex` by id depends only on the ids. */
  lemma {:induction false} IndexSameIds(a: seq<Loan>, b: seq<Loan>, id: int)
    requires |a| == |b|
    requires forall i :: 0 <= i < |a| ==> a[i].id == b[i].id
    ensures IndexOfId(a, id) == IndexOfId(b, id)
  {
    if a != [] {
      IndexSameIds(a[1..], b[1..], id);
    }
  }

  // ---------------------------------------------------------------- selector

  /** The student constraint of `selectFilteredLoans`: applied only when the
      filter's student id is truthy (present and non-zero). */
  predicate StudentAdmits(f: LoanFilter, loan: Loan)
  {
    !(f.studentId.Some? && f.studentId.value != 0) || loan.student.id == f.studentId.value
  }

  /** `selectFilteredLoans`: the status filter, then the student filter. */
  function SelectFilteredLoans(loans: seq<Loan>, f: LoanFilter): (r: seq<Loan>)
    ensures IsSubsequence(r, loans)
    ensures forall l :: l in r <==> l in loans && StatusAdmits(f.status, l) && StudentAdmits(f, l)
    ensures forall i :: 0 <= i < |r| ==> StatusAdmits(f.status, r[i]) && StudentAdmits(f, r[i])
  {
    var byStatus := ByStatus(loans, f.status);
    if f.studentId.Some? && f.studentId.value != 0 then
      var id := f.studentId.value;
      var r := Filter(byStatus, (l: Loan) => l.student.id == id);
      SubsequenceTransitive(r, byStatus, loans);
      r
    else
      byStatus
  }

  /** The selection is exactly one filter by both conditions, so it keeps
      every passing loan, duplicates included, in cache order. */
  lemma SelectIsFilter(loans: seq<Loan>, f: LoanFilter)
    ensures SelectFilteredLoans(loans, f) ==
      Filter(loans, (l: Loan) => StatusAdmits(f.status, l) && StudentAdmits(f, l))
  {
    ByStatusIsFilter(loans, f.status);
    if f.studentId.Some? && f.studentId.value != 0 {
      var id := f.studentId.value;
      FilterFilter(loans, (l: Loan) => StatusAdmits(f.status, l), (l: Loan) => l.student.id == id,
        (l: Loan) => StatusAdmits(f.status, l) && StudentAdmits(f, l));
    } else {
      FilterCongruent(loans, (l: Loan) => StatusAdmits(f.status, l),
        (l: Loan) => StatusAdmits(f.status, l) && StudentAdmits(f, l));
    }
  }

  /** The default filter selects the whole cache; selecting is idempotent. */
  lemma SelectLaws(loans: seq<Loan>, f: LoanFilter)
    ensures SelectFilteredLoans(loans, DefaultFilter) == loans
    ensures SelectFilteredLoans(SelectFilteredLoans(loans, f), f) == SelectFilteredLoans(loans, f)
  {
    var r := SelectFilteredLoans(loans, f);
    SelectKeepsAll(r, f);
  }

  /** A list all of whose loans pass the filter is selected whole. */
  lemma SelectKeepsAll(loans: seq<Loan>, f: LoanFilter)
    requires forall i :: 0 <= i < |loans| ==> StatusAdmits(f.status, loans[i]) && StudentAdmits(f, loans[i])
    ensures SelectFilteredLoans(loans, f) == loans
  {
    var byStatus := ByStatus(loans, f.status);
    match f.status {
      case All =>
      case Active => FilterKeepsAll(loans, (l: Loan) => !l.isReturned);
      case Returned => FilterKeepsAll(loans, (l: Loan) => l.isReturned);
    }
    if f.studentId.Some? && f.studentId.value != 0 {
      var id := f.studentId.value;
      FilterKeepsAll(byStatus, (l: Loan) => l.student.id == id);
    }
  }

  // ---------------------------------------------------------------- the slice

  const LoadLoansFallback := "Error al cargar préstamos"
  const LoadLoanFallback := "Error al cargar préstamo"
  const ReturnFallback := "Error al devolver libro"

  /** `LoansState` together with its reducers. */
  class LoanStore {
    var loans: seq<Loan>
    var selectedLoan: Option<Loan>
    var loading: bool
    var error: Option<string>
    var filter: LoanFilter

    /** `initialState` */
    constructor ()
      ensures loans == [] && selectedLoan == None && !loading && error == None
      ensures filter == DefaultFilter
    {
      loans := [];
      selectedLoan := None;
      loading := false;
      error := None;
      filter := DefaultFilter;
    }

    /** `selectFilteredLoans` on the current state. */
    function FilteredLoans(): (r: seq<Loan>)
      reads this
      ensures IsSubsequence(r, loans)
    {
      SelectFilteredLoans(loans, filter)
    }

    /** `setSelectedLoan` */
    method SetSelectedLoan(l: Option<Loan>)
      modifies this`selectedLoan
      ensures selectedLoan == l
    {
      selectedLoan := l;
    }

    /** `setFilter` */
    method SetFilter(patch: FilterPatch)
      modifies this`filter
      ensures filter == MergeFilter(old(filter), patch)
    {
      filter := MergeFilter(filter, patch);
    }

    /** `clearError` */
    method ClearError()
      modifies this`error
      ensures error == None
    {
      error := None;
    }

    /** The `pending` case shared by the three thunks. */
    method Pending()
      modifies this`loading, this`error
      ensures loading && error == None
    {
      loading := true;
      error := None;
    }

    /** The `rejected` case shared by the three thunks: the message passed to
        `rejectWithValue` becomes the error. */
    method Rejected(message: string)
      modifies this`loading, this`error
      ensures !loading && error == Some(message)
    {
      loading := false;
      error := Some(message);
    }

    /** `fetchLoans.fulfilled`: the payload replaces the cache. */
    method FetchLoansFulfilled(payload: seq<Loan>)
      modifies this`loading, this`loans
      ensures !loading && loans == payload
    {
      loading := false;
      loans := payload;
    }

    /** `fetchLoanById.fulfilled`: the payload becomes the selected loan. */
    method FetchLoanByIdFulfilled(payload: Loan)
      modifies this`loading, this`selectedLoan
      ensures !loading && selectedLoan == Some(payload)
    {
      loading := false;
      selectedLoan := Some(payload);
    }

    /** `returnLoan.fulfilled`: the returned loan replaces its cached copy and
        the selected loan when that is the same loan. */
    method ReturnLoanFulfilled(payload: Loan)
      modifies this`loading, this`loans, this`selectedLoan
      ensures !loading
      ensures loans == ReplaceFirstById(old(loans), payload)
      ensures old(selectedLoan).Some? && old(selectedLoan).value.id == payload.id ==> selectedLoan == Some(payload)
      ensures !(old(selectedLoan).Some? && old(selectedLoan).value.id == payload.id) ==> selectedLoan == old(selectedLoan)
    {
      loading := false;
      var k := IndexOfId(loans, payload.id);
      if k != -1 {
        loans := loans[k := payload];
      }
      if selectedLoan.Some? && selectedLoan.value.id == payload.id {
        selectedLoan := Some(payload);
      }
    }

    /** `dispatch(fetchLoans())` once the call has produced `outcome`. */
    method FetchLoans(outcome: Result<seq<Loan>, Thrown>) returns (issued: Api.Operation)
      modifies this`loading, this`error, this`loans
      ensures issued == Api.GetLoans(None) && !loading
      ensures outcome.Ok? ==> loans == outcome.value && error == None
      ensures outcome.Err? ==> loans == old(loans) && error == Some(MessageOr(outcome.error, LoadLoansFallback))
    {
      issued := Api.GetLoans(None);
      Pending();
      match outcome {
        case Ok(payload) => FetchLoansFulfilled(payload);
        case Err(e) => Rejected(MessageOr(e, LoadLoansFallback));
      }
    }

    /** `dispatch(fetchLoanById(loanId))` once the call has produced `outcome`. */
    method FetchLoanById(loanId: int, outcome: Result<Loan, Thrown>) returns (issued: Api.Operation)
      modifies this`loading, this`error, this`selectedLoan
      ensures issued == Api.GetLoan(loanId) && !loading
      ensures outcome.Ok? ==> selectedLoan == Some(outcome.value) && error == None
      ensures outcome.Err? ==>
        selectedLoan == old(selectedLoan) && error == Some(MessageOr(outcome.error, LoadLoanFallback))
    {
      issued := Api.GetLoan(loanId);
      Pending();
      match outcome {
        case Ok(payload) => FetchLoanByIdFulfilled(payload);
        case Err(e) => Rejected(MessageOr(e, LoadLoanFallback));
      }
    }

    /** `dispatch(returnLoan(loanId))` once the call has produced `outcome`. */
    method ReturnLoan(loanId: int, outcome: Result<Loan, Thrown>) returns (issued: Api.Operation)
      modifies this`loading, this`error, this`loans, this`selectedLoan
      ensures issued == Api.ReturnLoan(loanId) && !loading
      ensures outcome.Ok? ==> error == None && loans == ReplaceFirstById(old(loans), outcome.value)
      ensures outcome.Ok? && old(selectedLoan).Some? && old(selectedLoan).value.id == outcome.value.id ==>
        selectedLoan == Some(outcome.value)
      ensures outcome.Ok? && !(old(selectedLoan).Some? && old(selectedLoan).value.id == outcome.value.id) ==>
        selectedLoan == old(selectedLoan)
      ensures outcome.Err? ==> loans == old(loans) && selectedLoan == old(selectedLoan)
      ensures outcome.Err? ==> error == Some(MessageOr(outcome.error, ReturnFallback))
    {
      issued := Api.ReturnLoan(loanId);
      Pending();
      match outcome {
        case Ok(payload) => ReturnLoanFulfilled(payload);
        case Err(e) => Rejected(MessageOr(e, ReturnFallback));
      }
    }
  }
}
