/** The book detail dialog (components/BookDetail.tsx): who may borrow, the
    loan request with its guard and outcome messages, the action area, and
    the text on the placeholder cover. */
module BookDetail {
  import opened Common
  import opened Text
  import opened Domain
  import Api

  const UnavailableError := "Este libro no está disponible para préstamo"
  const LoanCreated := "¡Préstamo creado exitosamente! Puedes ver tus préstamos en \"Mis Préstamos\"."
  const CreateFallback := "No se pudo crear el préstamo"
  const NoCopiesText := "No hay copias disponibles en este momento."
  const NotLendableText := "Este libro no está disponible para préstamo."

  /** The signed-in user is a student. */
  predicate IsStudent(user: Option<User>)
  {
    user.Some? && user.value.role == Student
  }

  /** The book can be lent at all: available with copies in stock. */
  predicate Lendable(book: Book)
  {
    book.isAvailable && book.stock > 0
  }

  /** `canCreateLoan` */
  predicate CanCreateLoan(user: Option<User>, book: Book)
  {
    IsStudent(user) && Lendable(book)
  }

  /** What the action area offers. */
  datatype ActionArea = LoanButton(busy: bool) | NotAvailable(reason: string) | LibrarianNotice

  /** The action area: a student sees the loan button when the book can be
      lent and the reason otherwise; everyone else, including a visitor with
      no user, sees the librarian notice. */
  function ActionsFor(user: Option<User>, book: Book, loading: bool): (a: ActionArea)
    ensures a.LoanButton? <==> CanCreateLoan(user, book)
    ensures a.LoanButton? ==> a.busy == loading
    ensures a.LibrarianNotice? <==> !IsStudent(user)
    ensures a.NotAvailable? <==> IsStudent(user) && !Lendable(book)
    ensures a.NotAvailable? ==> (a.reason == NoCopiesText <==> book.stock == 0)
  {
    if IsStudent(user) then
      if CanCreateLoan(user, book) then LoanButton(loading)
      else NotAvailable(if book.stock == 0 then NoCopiesText else NotLendableText)
    else LibrarianNotice
  }

  // ---------------------------------------------------------------- cover text

  /** `title.split(' ').slice(0, 3).join(' ')` */
  function CoverText(title: string): string
  {
    var words := SplitOn(title, ' ');
    JoinOn(words[..if |words| < 3 then |words| else 3], ' ')
  }

  /** The cover shows a prefix of the title holding at most two spaces: the
      whole title when it has at most two spaces, otherwise the title up to
      its third space. */
  lemma {:induction false} CoverTextShape(title: string)
    ensures CoverText(title) <= title
    ensures CountOf(CoverText(title), ' ') <= 2
    ensures CountOf(title, ' ') <= 2 ==> CoverText(title) == title
    ensures CountOf(title, ' ') > 2 ==>
      |CoverText(title)| < |title| && title[|CoverText(title)|] == ' ' && CountOf(CoverText(title), ' ') == 2
  {
    var words := SplitOn(title, ' ');
    var k := if |words| < 3 then |words| else 3;
    JoinSplit(title, ' ');
    JoinPrefix(words, ' ', k);
    JoinCount(words, ' ');
    assert forall i :: 0 <= i < k ==> words[..k][i] == words[i];
    JoinCount(words[..k], ' ');
    if k == |words| {
      assert words[..k] == words;
    }
  }

  // ---------------------------------------------------------------- the dialog

  class BookDetailView {
    var loading: bool
    var error: string
    var success: string

    constructor ()
      ensures !loading && error == "" && success == ""
    {
      loading := false;
      error := "";
      success := "";
    }

    /** `handleCreateLoan` for `book`, given what `createLoan` produces;
        `notify` says whether `onLoanCreated` is scheduled. */
    method HandleCreateLoan(book: Book, outcome: Result<Loan, Thrown>)
      returns (issued: seq<Api.Operation>, notify: bool)
      modifies this`loading, this`error, this`success
      ensures !Lendable(book) ==>
        issued == [] && !notify && error == UnavailableError &&
        loading == old(loading) && success == old(success)
      ensures Lendable(book) ==> issued == [Api.CreateLoan(book.id, None)] && !loading
      ensures Lendable(book) && outcome.Ok? ==> notify && success == LoanCreated && error == ""
      ensures Lendable(book) && outcome.Err? ==>
        !notify && success == "" && error == MessageOr(outcome.error, CreateFallback)
    {
      if !book.isAvailable || book.stock <= 0 {
        error := UnavailableError;
        return [], false;
      }
      loading := true;
      error := "";
      success := "";
      issued := [Api.CreateLoan(book.id, None)];
      notify := false;
      if outcome.Ok? {
        success := LoanCreated;
        notify := true;
      } else {
        error := MessageOr(outcome.error, CreateFallback);
      }
      loading := false;
    }
  }
}
