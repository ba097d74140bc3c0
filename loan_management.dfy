/** The librarian's loan registry screen (components/LoanManagement.tsx):
    it reads the shared loan store, dispatches filter and selection changes
    to it, keeps its own list of students, and chooses what to render. */
module LoanManagement {
  import opened Common
  import opened Lists
  import opened Text
  import opened Domain
  import opened LoansSlice
  import Api

  /** `users.filter(user => user.role === 'student')` */
  function StudentsOf(users: seq<User>): (r: seq<User>)
    ensures IsSubsequence(r, users)
    ensures forall u :: u in r <==> u in users && u.role == Student
  {
    Filter(users, (u: User) => u.role == Student)
  }

  /** `loans.find(l => l.id === loanId)` */
  function FindById(loans: seq<Loan>, id: int): (r: Option<Loan>)
    ensures r.None? <==> forall i :: 0 <= i < |loans| ==> loans[i].id != id
    ensures r.Some? ==> r.value in loans && r.value.id == id
    ensures r.Some? ==> r.value == loans[IndexOfId(loans, id)]
  {
    var k := IndexOfId(loans, id);
    if k == -1 then None else Some(loans[k])
  }

  /** `Number(value)` for the values of the student select: a decimal
      integer literal gives its number; other text gives `NaN`, which the
      store and the select treat exactly as `null`, so it is `None` here. */
  function NumberOf(value: string): Option<int>
  {
    if IsIntLiteral(value) then Some(ParseIntOrZero(value)) else None
  }

  /** `e.target.value ? Number(e.target.value) : null` */
  function StudentIdFromSelect(value: string): Option<int>
  {
    if value != "" then NumberOf(value) else None
  }

  /** `filter.studentId || ''`: the value the student select shows. */
  function SelectValue(studentId: Option<int>): string
  {
    if studentId.Some? && studentId.value != 0 then ShowInt(studentId.value) else ""
  }

  /** The select round-trips: choosing a student's option stores that
      student's id and then shows that option again; the empty option
      stores `null`. */
  lemma SelectRoundTrip(id: int)
    ensures StudentIdFromSelect(ShowInt(id)) == Some(id)
    ensures id != 0 ==> SelectValue(StudentIdFromSelect(ShowInt(id))) == ShowInt(id)
    ensures StudentIdFromSelect("") == None && SelectValue(None) == ""
  {
    ShowIntIsLiteral(id);
    ParseShowInt(id);
  }

  /** The three numbers of the stats bar over the filtered list. */
  datatype Stats = Stats(total: nat, active: nat, returned: nat)

  /** The stats bar: total, active and returned loans of the filtered
      list; active and returned add up to the total. */
  function StatsOf(loans: seq<Loan>): (s: Stats)
    ensures s.total == |loans| && s.active + s.returned == s.total
  {
    ActivePlusReturned(loans);
    Stats(|loans|, ActiveCount(loans), ReturnedCount(loans))
  }

  /** What the screen renders. */
  datatype Screen = ErrorScreen(message: string) | DetailScreen(loan: Loan) | ListScreen

  /** An error takes precedence over the selected loan, which takes
      precedence over the list. */
  function ScreenFor(error: Option<string>, selected: Option<Loan>): (s: Screen)
    ensures s.ErrorScreen? <==> Truthy(error)
    ensures s.ErrorScreen? ==> s.message == error.value
    ensures s.DetailScreen? <==> !Truthy(error) && selected.Some?
    ensures s.DetailScreen? ==> s.loan == selected.value
    ensures s.ListScreen? <==> !Truthy(error) && selected.None?
  {
    if Truthy(error) then ErrorScreen(error.value)
    else if selected.Some? then DetailScreen(selected.value)
    else ListScreen
  }

  /** The list area of the list screen. */
  datatype ListBody = Loading | NoLoans(hint: string) | Rows(shown: seq<Loan>)

  function EmptyHint(status: StatusFilter): string
  {
    match status
    case Active => "No hay préstamos activos en este momento."
    case Returned => "No hay préstamos devueltos."
    case All => "No se encontraron préstamos que coincidan con los filtros."
  }

  function ListBodyFor(loading: bool, filtered: seq<Loan>, status: StatusFilter): (b: ListBody)
    ensures b.Loading? <==> loading
    ensures b.NoLoans? <==> !loading && filtered == []
    ensures b.NoLoans? ==> b.hint == EmptyHint(status)
    ensures b.Rows? ==> b.shown == filtered && filtered != []
  {
    if loading then Loading
    else if filtered == [] then NoLoans(EmptyHint(status))
    else Rows(filtered)
  }

  class LoanManagementView {
    const store: LoanStore
    var students: seq<User>
    var studentsLoading: bool

    constructor (store: LoanStore)
      ensures this.store == store && students == [] && !studentsLoading
    {
      this.store := store;
      students := [];
      studentsLoading := false;
    }

    /** `loadStudents` once `getUsers()` has produced `outcome`: a failure
        is only logged. */
    method LoadStudents(outcome: Result<seq<User>, Thrown>) returns (issued: Api.Operation)
      modifies this`students, this`studentsLoading
      ensures issued == Api.GetUsers(None) && !studentsLoading
      ensures outcome.Ok? ==> students == StudentsOf(outcome.value)
      ensures outcome.Err? ==> students == old(students)
    {
      issued := Api.GetUsers(None);
      studentsLoading := true;
      if outcome.Ok? {
        students := StudentsOf(outcome.value);
      }
      studentsLoading := false;
    }

    /** `handleStatusFilterChange` */
    method HandleStatusFilterChange(status: StatusFilter)
      modifies store`filter
      ensures store.filter == old(store.filter).(status := status)
    {
      store.SetFilter(FilterPatch(Some(status), None));
    }

    /** The student select's `onChange`, then `handleStudentFilterChange`. */
    method HandleStudentFilterChange(value: string)
      modifies store`filter
      ensures store.filter == old(store.filter).(studentId := StudentIdFromSelect(value))
    {
      store.SetFilter(FilterPatch(None, Some(StudentIdFromSelect(value))));
    }

    /** `handleLoanClick`: select the loan with that id if the filtered list
        shows one, otherwise do nothing. */
    method HandleLoanClick(loanId: int)
      modifies store`selectedLoan
      ensures FindById(old(store.FilteredLoans()), loanId).Some? ==>
        store.selectedLoan == FindById(old(store.FilteredLoans()), loanId)
      ensures FindById(old(store.FilteredLoans()), loanId).None? ==>
        store.selectedLoan == old(store.selectedLoan)
    {
      var found := FindById(store.FilteredLoans(), loanId);
      if found.Some? {
        store.SetSelectedLoan(found);
      }
    }

    /** `handleCloseDetail` */
    method HandleCloseDetail()
      modifies store`selectedLoan
      ensures store.selectedLoan == None
    {
      store.SetSelectedLoan(None);
    }

    /** The retry button of the error screen. */
    method Retry()
      modifies store`error
      ensures store.error == None
    {
      store.ClearError();
    }

    function Render(): Screen
      reads this, store
    {
      ScreenFor(store.error, store.selectedLoan)
    }
  }

  /** A click selects only loans that the filtered list shows and that carry
      the clicked id. */
  lemma ClickSelectsShownLoan(loans: seq<Loan>, f: LoanFilter, id: int)
    ensures FindById(SelectFilteredLoans(loans, f), id).Some? ==>
      var l := FindById(SelectFilteredLoans(loans, f), id).value;
      l in loans && StatusAdmits(f.status, l) && StudentAdmits(f, l) && l.id == id
  {
  }

  /** After the retry button clears the error, the screen falls back to the
      selected loan's detail or to the list. */
  lemma RetryShowsDetailOrList(selected: Option<Loan>)
    ensures ScreenFor(None, selected) == (if selected.Some? then DetailScreen(selected.value) else ListScreen)
  {
  }
}
