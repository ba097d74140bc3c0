/** The records exchanged with the library API (types/api.ts): users, books,
    loans and the request bodies the forms build. */
module Domain {
  import opened Common
  import opened Lists

  datatype Role = Student | Librarian

  datatype User = User(
    id: int,
    username: string,
    email: string,
    firstName: string,
    lastName: string,
    role: Role)

  datatype Book = Book(
    id: int,
    title: string,
    authorName: string,
    publishedYear: int,
    genreName: string,
    stock: int,
    isAvailable: bool)

  /** A loan embeds snapshots of its student and book as the server sent
      them; `returnedAt` is `null` while the loan is open. */
  datatype Loan = Loan(
    id: int,
    student: User,
    book: Book,
    borrowedAt: string,
    returnedAt: Option<string>,
    isReturned: bool)

  /** `CreateBookRequest` as the book form holds it. */
  datatype BookDraft = BookDraft(
    title: string,
    authorName: string,
    genreName: string,
    publishedYear: int,
    stock: int)

  /** `CreateUserRequest` as the user form holds it; the role is the raw
      value of the role select. */
  datatype UserDraft = UserDraft(
    username: string,
    email: string,
    password: string,
    firstName: string,
    lastName: string,
    role: string)

  /** The tabs and the registry filter over loan status. */
  datatype StatusFilter = All | Active | Returned

  /** The status constraint a filter value imposes on one loan. */
  predicate StatusAdmits(status: StatusFilter, loan: Loan)
  {
    match status
    case All => true
    case Active => !loan.isReturned
    case Returned => loan.isReturned
  }

  /** The `switch` over the status filter shared by the loan registry's
      selector and the student's loan tabs: `active` keeps the open loans,
      `returned` the returned ones, anything else keeps the list as it is. */
  function ByStatus(loans: seq<Loan>, status: StatusFilter): (r: seq<Loan>)
    ensures IsSubsequence(r, loans)
    ensures forall l :: l in r <==> l in loans && StatusAdmits(status, l)
    ensures status == All ==> r == loans
  {
    match status
    case Active => Filter(loans, (l: Loan) => !l.isReturned)
    case Returned => Filter(loans, (l: Loan) => l.isReturned)
    case All => SubsequenceReflexive(loans); loans
  }

  /** Each tab's list is exactly the filter of the loans by its status. */
  lemma ByStatusIsFilter(loans: seq<Loan>, status: StatusFilter)
    ensures ByStatus(loans, status) == Filter(loans, (l: Loan) => StatusAdmits(status, l))
  {
    match status
    case Active => FilterCongruent(loans, (l: Loan) => !l.isReturned, (l: Loan) => StatusAdmits(status, l));
    case Returned => FilterCongruent(loans, (l: Loan) => l.isReturned, (l: Loan) => StatusAdmits(status, l));
    case All => FilterKeepsAll(loans, (l: Loan) => StatusAdmits(status, l));
  }

  /** Number of loans not yet returned. */
  function ActiveCount(loans: seq<Loan>): (n: nat)
    ensures n <= |loans|
    ensures n == 0 <==> forall i :: 0 <= i < |loans| ==> loans[i].isReturned
  {
    assert forall i :: 0 <= i < |loans| ==> loans[i] in loans;
    |Filter(loans, (l: Loan) => !l.isReturned)|
  }

  /** Number of loans already returned. */
  function ReturnedCount(loans: seq<Loan>): (n: nat)
    ensures n <= |loans|
    ensures n == 0 <==> forall i :: 0 <= i < |loans| ==> !loans[i].isReturned
  {
    assert forall i :: 0 <= i < |loans| ==> loans[i] in loans;
    |Filter(loans, (l: Loan) => l.isReturned)|
  }

  /** Every loan is either active or returned, never both. */
  lemma ActivePlusReturned(loans: seq<Loan>)
    ensures ActiveCount(loans) + ReturnedCount(loans) == |loans|
  {
    FilterPartition(loans, (l: Loan) => !l.isReturned, (l: Loan) => l.isReturned);
  }

  /** The label of a user's role in role badges and the unauthorized page:
      'Estudiante' for students, 'Bibliotecario' otherwise. */
  function RoleName(role: Role): (name: string)
    ensures name == "Estudiante" <==> role == Student
    ensures name == "Bibliotecario" <==> role == Librarian
  {
    match role
    case Student => "Estudiante"
    case Librarian => "Bibliotecario"
  }
}
