/** The librarian's book administration (components/BookManagement.tsx):
    the creation form with its ordered checks, the numeric coercion of its
    inputs, creation, deletion behind a confirmation, and reloading. */
module BookManagement {
  import opened Common
  import opened Text
  import opened Domain
  import Api

  const TitleRequired := "El título es requerido"
  const AuthorRequired := "El nombre del autor es requerido"
  const GenreRequired := "El nombre del género es requerido"
  const YearInvalid := "El año de publicación debe ser válido"

  const LoadFallback := "Error al cargar libros"
  const CreateFallback := "Error al crear libro"
  const DeleteFallback := "Error al eliminar libro"

  /** `1 <= published_year <= currentYear` */
  predicate YearValid(year: int, currentYear: int)
  {
    1 <= year <= currentYear
  }

  /** The checks of `handleSubmit`, in order: title, author, genre, year.
      The result is the message of the first check that fails, if any. */
  function ValidateBook(d: BookDraft, currentYear: int): (r: Option<string>)
    ensures r == None <==>
      !IsBlank(d.title) && !IsBlank(d.authorName) && !IsBlank(d.genreName) && YearValid(d.publishedYear, currentYear)
    ensures r == Some(TitleRequired) <==> IsBlank(d.title)
    ensures r == Some(AuthorRequired) <==> !IsBlank(d.title) && IsBlank(d.authorName)
    ensures r == Some(GenreRequired) <==> !IsBlank(d.title) && !IsBlank(d.authorName) && IsBlank(d.genreName)
    ensures r == Some(YearInvalid) <==>
      !IsBlank(d.title) && !IsBlank(d.authorName) && !IsBlank(d.genreName) && !YearValid(d.publishedYear, currentYear)
  {
    if IsBlank(d.title) then Some(TitleRequired)
    else if IsBlank(d.authorName) then Some(AuthorRequired)
    else if IsBlank(d.genreName) then Some(GenreRequired)
    else if !YearValid(d.publishedYear, currentYear) then Some(YearInvalid)
    else None
  }

  /** The form as it starts and as a successful creation leaves it. */
  function EmptyDraft(currentYear: int): BookDraft
  {
    BookDraft("", "", "", currentYear, 1)
  }

  /** A freshly reset form is rejected only for its empty title. */
  lemma EmptyDraftRejected(currentYear: int)
    ensures ValidateBook(EmptyDraft(currentYear), currentYear) == Some(TitleRequired)
  {
    assert IsBlank("");
  }

  /** The names of the form's inputs. */
  datatype BookInput = TitleInput | AuthorInput | GenreInput | YearInput | StockInput

  /** `handleInputChange`: the named field takes the input; the year and the
      stock take `parseInt(value) || 0`. */
  function ChangeDraft(d: BookDraft, name: BookInput, value: string): (r: BookDraft)
    ensures name == TitleInput ==> r == d.(title := value)
    ensures name == AuthorInput ==> r == d.(authorName := value)
    ensures name == GenreInput ==> r == d.(genreName := value)
    ensures name == YearInput ==> r == d.(publishedYear := ParseIntOrZero(value))
    ensures name == StockInput ==> r == d.(stock := ParseIntOrZero(value))
  {
    match name
    case TitleInput => d.(title := value)
    case AuthorInput => d.(authorName := value)
    case GenreInput => d.(genreName := value)
    case YearInput => d.(publishedYear := ParseIntOrZero(value))
    case StockInput => d.(stock := ParseIntOrZero(value))
  }

  /** A number typed in decimal is stored as that number; text that does
      not start with a number is stored as 0. */
  lemma NumericInput(d: BookDraft, n: int, junk: string)
    requires junk == [] || (!IsDigit(junk[0]) && !IsSpace(junk[0]) && junk[0] != '-' && junk[0] != '+')
    ensures ChangeDraft(d, YearInput, ShowInt(n)).publishedYear == n
    ensures ChangeDraft(d, StockInput, ShowInt(n)).stock == n
    ensures ChangeDraft(d, YearInput, junk).publishedYear == 0
    ensures ChangeDraft(d, StockInput, junk).stock == 0
  {
    ParseShowInt(n);
    ParseNoDigits(junk);
  }

  /** The component state of the book administration. */
  class BookManagementView {
    var books: seq<Book>
    var loading: bool
    var error: string
    var showCreateForm: bool
    var formData: BookDraft

    constructor (currentYear: int)
      ensures books == [] && !loading && error == "" && !showCreateForm
      ensures formData == EmptyDraft(currentYear)
    {
      books := [];
      loading := false;
      error := "";
      showCreateForm := false;
      formData := EmptyDraft(currentYear);
    }

    /** `loadData` once `getBooks()` has produced `outcome`. */
    method LoadData(outcome: Result<seq<Book>, Thrown>) returns (issued: Api.Operation)
      modifies this`books, this`loading, this`error
      ensures issued == Api.GetBooks(None) && !loading
      ensures books == Reloaded(old(books), outcome)
      ensures error == LoadError(outcome, LoadFallback)
    {
      issued := Api.GetBooks(None);
      loading := true;
      error := "";
      if outcome.Ok? {
        books := outcome.value;
      } else {
        error := MessageOr(outcome.error, LoadFallback);
      }
      loading := false;
    }

    /** `handleSubmit`, given what `createBook` and the reload that follows
        it produce; `issued` lists the remote calls made, in order. */
    method HandleSubmit(currentYear: int, created: Result<Book, Thrown>, reload: Result<seq<Book>, Thrown>)
      returns (issued: seq<Api.Operation>)
      modifies this`books, this`loading, this`error, this`showCreateForm, this`formData
      ensures ValidateBook(old(formData), currentYear).Some? ==>
        issued == [] && error == ValidateBook(old(formData), currentYear).value &&
        books == old(books) && loading == old(loading) &&
        showCreateForm == old(showCreateForm) && formData == old(formData)
      ensures ValidateBook(old(formData), currentYear).None? && created.Err? ==>
        issued == [Api.CreateBook(old(formData))] && error == MessageOr(created.error, CreateFallback) &&
        books == old(books) && !loading &&
        showCreateForm == old(showCreateForm) && formData == old(formData)
      ensures ValidateBook(old(formData), currentYear).None? && created.Ok? ==>
        issued == [Api.CreateBook(old(formData)), Api.GetBooks(None)] &&
        books == Reloaded(old(books), reload) && error == LoadError(reload, LoadFallback) && !loading &&
        !showCreateForm && formData == EmptyDraft(currentYear)
    {
      error := "";
      if IsBlank(formData.title) {
        error := TitleRequired;
        return [];
      }
      if IsBlank(formData.authorName) {
        error := AuthorRequired;
        return [];
      }
      if IsBlank(formData.genreName) {
        error := GenreRequired;
        return [];
      }
      if formData.publishedYear < 1 || formData.publishedYear > currentYear {
        error := YearInvalid;
        return [];
      }
      loading := true;
      issued := [Api.CreateBook(formData)];
      if created.Err? {
        error := MessageOr(created.error, CreateFallback);
        loading := false;
        return;
      }
      formData := EmptyDraft(currentYear);
      showCreateForm := false;
      var again := LoadData(reload);
      issued := issued + [again];
      loading := false;
    }

    /** `handleInputChange` */
    method HandleInputChange(name: BookInput, value: string)
      modifies this`formData
      ensures formData == ChangeDraft(old(formData), name, value)
    {
      formData := ChangeDraft(formData, name, value);
    }

    /** `handleDelete`, given the answer to the confirmation and what
        `deleteBook` and the reload produce. */
    method HandleDelete(bookId: int, confirmed: bool, deleted: Result<(), Thrown>, reload: Result<seq<Book>, Thrown>)
      returns (issued: seq<Api.Operation>)
      modifies this`books, this`loading, this`error
      ensures !confirmed ==>
        issued == [] && books == old(books) && loading == old(loading) && error == old(error)
      ensures confirmed && deleted.Err? ==>
        issued == [Api.DeleteBook(bookId)] && books == old(books) && !loading &&
        error == MessageOr(deleted.error, DeleteFallback)
      ensures confirmed && deleted.Ok? ==>
        issued == [Api.DeleteBook(bookId), Api.GetBooks(None)] && !loading &&
        books == Reloaded(old(books), reload) && error == LoadError(reload, LoadFallback)
    {
      if !confirmed {
        return [];
      }
      loading := true;
      issued := [Api.DeleteBook(bookId)];
      if deleted.Err? {
        error := MessageOr(deleted.error, DeleteFallback);
        loading := false;
        return;
      }
      var again := LoadData(reload);
      issued := issued + [again];
      loading := false;
    }
  }
}
