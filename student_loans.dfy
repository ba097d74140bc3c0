/** The student's own loans (components/StudentLoans.tsx): loading the list,
    the status tabs and their counts, the list area and the classification
    of the due notice. */
module StudentLoans {
  import opened Common
  import opened Lists
  import opened Domain
  import Api

  /** The three tab counts: all, active and returned. */
  datatype TabCounts = TabCounts(total: nat, active: nat, returned: int)

  /** `Todos (n)`, `Activos (a)`, `Devueltos (n - a)` */
  function Tabs(loans: seq<Loan>): (t: TabCounts)
    ensures t.returned == ReturnedCount(loans)
  {
    ActivePlusReturned(loans);
    TabCounts(|loans|, ActiveCount(loans), |loans| - ActiveCount(loans))
  }

  /** Each tab's count is the length of the list the tab shows, and the
      active and returned counts add up to the total. */
  lemma TabsCountTheirLists(loans: seq<Loan>)
    ensures Tabs(loans).total == |ByStatus(loans, All)|
    ensures Tabs(loans).active == |ByStatus(loans, Active)|
    ensures Tabs(loans).returned == |ByStatus(loans, Returned)| == ReturnedCount(loans)
    ensures Tabs(loans).active + Tabs(loans).returned == Tabs(loans).total
  {
    ActivePlusReturned(loans);
  }

  /** The empty-state wording of a tab is true of the student's loans: an
      empty "active" tab means every loan was returned, an empty "returned"
      tab means none was. */
  lemma EmptyTabsAreTruthful(loans: seq<Loan>)
    ensures ByStatus(loans, Active) == [] ==> forall i :: 0 <= i < |loans| ==> loans[i].isReturned
    ensures ByStatus(loans, Returned) == [] ==> forall i :: 0 <= i < |loans| ==> !loans[i].isReturned
  {
    if ByStatus(loans, Active) == [] {
      forall i | 0 <= i < |loans|
        ensures loans[i].isReturned
      {
        assert loans[i] in loans;
      }
    }
    if ByStatus(loans, Returned) == [] {
      forall i | 0 <= i < |loans|
        ensures !loans[i].isReturned
      {
        assert loans[i] in loans;
      }
    }
  }

  /** The headline of the empty state for each tab. */
  function EmptyTitle(tab: StatusFilter): string
  {
    match tab
    case All => "No tienes préstamos"
    case Active => "No tienes préstamos activos"
    case Returned => "No tienes préstamos devueltos"
  }

  /** What the list area shows. */
  datatype ListContent = LoadingState | EmptyState(title: string) | LoanCards(shown: seq<Loan>)

  /** Spinner while the first load runs, then the tab's empty state or its
      cards. */
  function ListFor(loading: bool, loans: seq<Loan>, tab: StatusFilter): (c: ListContent)
    ensures c.LoadingState? <==> loading && loans == []
    ensures c.EmptyState? <==> !(loading && loans == []) && ByStatus(loans, tab) == []
    ensures c.EmptyState? ==> c.title == EmptyTitle(tab)
    ensures c.LoanCards? ==> c.shown == ByStatus(loans, tab) && c.shown != []
  {
    if loading && loans == [] then LoadingState
    else if ByStatus(loans, tab) == [] then EmptyState(EmptyTitle(tab))
    else LoanCards(ByStatus(loans, tab))
  }

  // ---------------------------------------------------------------- due notice

  /** The three styles of the notice of an open loan. */
  datatype DueNotice = Overdue | Warning | Normal

  /** `isOverdue ? 'overdue' : daysRemaining <= 3 ? 'warning' : 'normal'`,
      with `isOverdue` being `daysRemaining < 0`. */
  function Notice(daysRemaining: int): (n: DueNotice)
    ensures n == Overdue <==> daysRemaining < 0
    ensures n == Warning <==> 0 <= daysRemaining <= 3
    ensures n == Normal <==> daysRemaining > 3
  {
    var isOverdue := daysRemaining < 0;
    if isOverdue then Overdue else if daysRemaining <= 3 then Warning else Normal
  }

  function Severity(n: DueNotice): nat
  {
    match n
    case Normal => 0
    case Warning => 1
    case Overdue => 2
  }

  /** Fewer days left never gives a milder notice. */
  lemma NoticeMonotone(d1: int, d2: int)
    requires d1 <= d2
    ensures Severity(Notice(d1)) >= Severity(Notice(d2))
  {
  }

  // ---------------------------------------------------------------- the view

  const LoadFallback := "Error al cargar préstamos"

  class StudentLoansView {
    var loans: seq<Loan>
    var loading: bool
    var error: string
    var filter: StatusFilter

    constructor ()
      ensures loans == [] && !loading && error == "" && filter == All
    {
      loans := [];
      loading := false;
      error := "";
      filter := All;
    }

    /** `getFilteredLoans()` */
    function FilteredLoans(): (r: seq<Loan>)
      reads this
      ensures IsSubsequence(r, loans)
      ensures forall l :: l in r <==> l in loans && StatusAdmits(filter, l)
    {
      ByStatus(loans, filter)
    }

    /** `loadLoans` once `getLoans()` has produced `outcome`; `reported` is
        the count handed to `onActiveLoansChange`, absent on failure. */
    method LoadLoans(outcome: Result<seq<Loan>, Thrown>) returns (issued: Api.Operation, reported: Option<nat>)
      modifies this`loans, this`loading, this`error
      ensures issued == Api.GetLoans(None) && !loading
      ensures loans == Reloaded(old(loans), outcome)
      ensures error == LoadError(outcome, LoadFallback)
      ensures outcome.Ok? ==> reported == Some(ActiveCount(outcome.value))
      ensures outcome.Err? ==> reported == None
    {
      issued := Api.GetLoans(None);
      loading := true;
      error := "";
      reported := None;
      if outcome.Ok? {
        loans := outcome.value;
        reported := Some(|Filter(outcome.value, (l: Loan) => !l.isReturned)|);
      } else {
        error := MessageOr(outcome.error, LoadFallback);
      }
      loading := false;
    }

    /** A click on a tab. */
    method SelectTab(tab: StatusFilter)
      modifies this`filter
      ensures filter == tab
    {
      filter := tab;
    }

    function List(): ListContent
      reads this
    {
      ListFor(loading, loans, filter)
    }
  }
}
