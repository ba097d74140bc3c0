/** The student's book catalog (components/BookCatalog.tsx): the loaded
    books, the four local filters, the filtered list the filter effect keeps
    in step with them, and the choice of what the grid area shows. */
module BookCatalog {
  import opened Common
  import opened Lists
  import opened Text
  import opened Domain
  import Api

  /** `BookFilters`: three text fields and an optional availability. */
  datatype BookFilters = BookFilters(title: string, authorName: string, genreName: string, available: Option<bool>)

  const NoFilters: BookFilters := BookFilters("", "", "", None)

  /** `field.toLowerCase().includes(query.toLowerCase())` */
  predicate TextMatches(field: string, query: string)
  {
    Contains(Lower(field), Lower(query))
  }

  /** The constraint a text filter imposes: none while the query is blank,
      otherwise a case-insensitive substring match of the untrimmed query. */
  predicate TextAdmits(query: string, field: string)
  {
    IsBlank(query) || TextMatches(field, query)
  }

  /** One book passes all four filters. */
  predicate Matches(f: BookFilters, b: Book)
  {
    TextAdmits(f.title, b.title) &&
    TextAdmits(f.authorName, b.authorName) &&
    TextAdmits(f.genreName, b.genreName) &&
    (f.available.None? || b.isAvailable == f.available.value)
  }

  function ByTitle(books: seq<Book>, q: string): (r: seq<Book>)
    ensures IsSubsequence(r, books)
    ensures forall b :: b in r <==> b in books && TextAdmits(q, b.title)
  {
    if IsBlank(q) then SubsequenceReflexive(books); books
    else Filter(books, (b: Book) => TextMatches(b.title, q))
  }

  function ByAuthor(books: seq<Book>, q: string): (r: seq<Book>)
    ensures IsSubsequence(r, books)
    ensures forall b :: b in r <==> b in books && TextAdmits(q, b.authorName)
  {
    if IsBlank(q) then SubsequenceReflexive(books); books
    else Filter(books, (b: Book) => TextMatches(b.authorName, q))
  }

  function ByGenre(books: seq<Book>, q: string): (r: seq<Book>)
    ensures IsSubsequence(r, books)
    ensures forall b :: b in r <==> b in books && TextAdmits(q, b.genreName)
  {
    if IsBlank(q) then SubsequenceReflexive(books); books
    else Filter(books, (b: Book) => TextMatches(b.genreName, q))
  }

  function ByAvailability(books: seq<Book>, a: Option<bool>): (r: seq<Book>)
    ensures IsSubsequence(r, books)
    ensures forall b :: b in r <==> b in books && (a.None? || b.isAvailable == a.value)
  {
    if a.None? then SubsequenceReflexive(books); books
    else Filter(books, (b: Book) => b.isAvailable == a.value)
  }

  /** The filter effect: title, author, genre, then availability. The
      result keeps the loaded order and holds exactly the books that pass
      every filter. */
  function ApplyFilters(books: seq<Book>, f: BookFilters): (r: seq<Book>)
    ensures IsSubsequence(r, books)
  {
    var s1 := ByTitle(books, f.title);
    var s2 := ByAuthor(s1, f.authorName);
    var s3 := ByGenre(s2, f.genreName);
    var s4 := ByAvailability(s3, f.available);
    SubsequenceTransitive(s2, s1, books);
    SubsequenceTransitive(s3, s2, books);
    SubsequenceTransitive(s4, s3, books);
    s4
  }

  /** Exactly the books that pass every filter remain. */
  lemma ApplyFiltersMembers(books: seq<Book>, f: BookFilters)
    ensures forall b :: b in ApplyFilters(books, f) <==> b in books && Matches(f, b)
  {
    var s1 := ByTitle(books, f.title);
    var s2 := ByAuthor(s1, f.authorName);
    var s3 := ByGenre(s2, f.genreName);
    var s4 := ByAvailability(s3, f.available);
    assert ApplyFilters(books, f) == s4;
  }

  /** Each of the four filters is exactly one filter by the constraint its
      field imposes. */
  lemma FieldFiltersAreFilters(books: seq<Book>, f: BookFilters)
    ensures ByTitle(books, f.title) == Filter(books, (b: Book) => TextAdmits(f.title, b.title))
    ensures ByAuthor(books, f.authorName) == Filter(books, (b: Book) => TextAdmits(f.authorName, b.authorName))
    ensures ByGenre(books, f.genreName) == Filter(books, (b: Book) => TextAdmits(f.genreName, b.genreName))
    ensures ByAvailability(books, f.available) ==
      Filter(books, (b: Book) => f.available.None? || b.isAvailable == f.available.value)
  {
    var pt := (b: Book) => TextAdmits(f.title, b.title);
    var pa := (b: Book) => TextAdmits(f.authorName, b.authorName);
    var pg := (b: Book) => TextAdmits(f.genreName, b.genreName);
    var pv := (b: Book) => f.available.None? || b.isAvailable == f.available.value;
    assert ByTitle(books, f.title) == Filter(books, pt) by {
      if IsBlank(f.title) { FilterKeepsAll(books, pt); }
      else { FilterCongruent(books, (b: Book) => TextMatches(b.title, f.title), pt); }
    }
    assert ByAuthor(books, f.authorName) == Filter(books, pa) by {
      if IsBlank(f.authorName) { FilterKeepsAll(books, pa); }
      else { FilterCongruent(books, (b: Book) => TextMatches(b.authorName, f.authorName), pa); }
    }
    assert ByGenre(books, f.genreName) == Filter(books, pg) by {
      if IsBlank(f.genreName) { FilterKeepsAll(books, pg); }
      else { FilterCongruent(books, (b: Book) => TextMatches(b.genreName, f.genreName), pg); }
    }
    assert ByAvailability(books, f.available) == Filter(books, pv) by {
      if f.available.None? { FilterKeepsAll(books, pv); }
      else { FilterCongruent(books, (b: Book) => b.isAvailable == f.available.value, pv); }
    }
  }

  /** The filtered list is exactly one filter of the loaded books by
      `Matches`, so it keeps every passing book, duplicates included, in
      loaded order. */
  lemma ApplyFiltersIsFilter(books: seq<Book>, f: BookFilters)
    ensures ApplyFilters(books, f) == Filter(books, (b: Book) => Matches(f, b))
  {
    var pt := (b: Book) => TextAdmits(f.title, b.title);
    var pa := (b: Book) => TextAdmits(f.authorName, b.authorName);
    var pg := (b: Book) => TextAdmits(f.genreName, b.genreName);
    var pv := (b: Book) => f.available.None? || b.isAvailable == f.available.value;
    var s1 := ByTitle(books, f.title);
    var s2 := ByAuthor(s1, f.authorName);
    var s3 := ByGenre(s2, f.genreName);
    var p2 := (b: Book) => pt(b) && pa(b);
    var p3 := (b: Book) => p2(b) && pg(b);
    assert s1 == Filter(books, pt) by { FieldFiltersAreFilters(books, f); }
    assert s2 == Filter(books, p2) by {
      FieldFiltersAreFilters(s1, f);
      FilterFilter(books, pt, pa, p2);
    }
    assert s3 == Filter(books, p3) by {
      FieldFiltersAreFilters(s2, f);
      FilterFilter(books, p2, pg, p3);
    }
    assert ApplyFilters(books, f) == ByAvailability(s3, f.available);
    FieldFiltersAreFilters(s3, f);
    FilterFilter(books, p3, pv, (b: Book) => Matches(f, b));
  }

  /** The "Filtros activos" indicator: some text filter is non-empty (before
      trimming) or availability is chosen. */
  predicate ActiveFiltersShown(f: BookFilters)
  {
    f.title != "" || f.authorName != "" || f.genreName != "" || f.available.Some?
  }

  /** Without the indicator nothing is filtered out; the indicator can show
      while nothing is filtered out, when every text filter is white space. */
  lemma IndicatorSound(books: seq<Book>, f: BookFilters)
    ensures !ActiveFiltersShown(f) ==> ApplyFilters(books, f) == books
    ensures f == BookFilters(" ", "", "", None) ==> ActiveFiltersShown(f) && ApplyFilters(books, f) == books
  {
    if f.available.None? && IsBlank(f.title) && IsBlank(f.authorName) && IsBlank(f.genreName) {
      var s1 := ByTitle(books, f.title);
      var s2 := ByAuthor(s1, f.authorName);
      var s3 := ByGenre(s2, f.genreName);
    }
  }

  /** The filters ignore the letter case of the query. */
  lemma CaseInsensitive(books: seq<Book>, f: BookFilters)
    ensures ApplyFilters(books, f.(title := Upper(f.title))) == ApplyFilters(books, f)
  {
    CaseFolding(f.title);
    UpperKeepsBlank(f.title);
    var g := f.(title := Upper(f.title));
    if !IsBlank(f.title) {
      FilterCongruent(books, (b: Book) => TextMatches(b.title, g.title), (b: Book) => TextMatches(b.title, f.title));
    }
  }

  lemma UpperKeepsBlank(s: string)
    ensures IsBlank(Upper(s)) <==> IsBlank(s)
  {
    BlankIffAllSpace(s);
    BlankIffAllSpace(Upper(s));
    assert forall i :: 0 <= i < |s| ==> (IsSpace(Upper(s)[i]) <==> IsSpace(s[i]));
  }

  /** Filtering the filtered list again changes nothing. */
  lemma {:induction false} ApplyFiltersKeepsAll(books: seq<Book>, f: BookFilters)
    requires forall i :: 0 <= i < |books| ==> Matches(f, books[i])
    ensures ApplyFilters(books, f) == books
  {
    if !IsBlank(f.title) {
      FilterKeepsAll(books, (b: Book) => TextMatches(b.title, f.title));
    }
    if !IsBlank(f.authorName) {
      FilterKeepsAll(books, (b: Book) => TextMatches(b.authorName, f.authorName));
    }
    if !IsBlank(f.genreName) {
      FilterKeepsAll(books, (b: Book) => TextMatches(b.genreName, f.genreName));
    }
    if f.available.Some? {
      FilterKeepsAll(books, (b: Book) => b.isAvailable == f.available.value);
    }
  }

  /** The names of the filter controls. */
  datatype FilterField = TitleField | AuthorField | GenreField | AvailableField

  /** `handleFilterChange`: the named field takes the control's value; for
      availability `''` means no choice and any other value is compared with
      `'true'`. */
  function ChangeFilter(f: BookFilters, name: FilterField, value: string): (r: BookFilters)
    ensures name == TitleField ==> r == f.(title := value)
    ensures name == AuthorField ==> r == f.(authorName := value)
    ensures name == GenreField ==> r == f.(genreName := value)
    ensures name == AvailableField ==>
      r == f.(available := if value == "" then None else Some(value == "true"))
  {
    match name
    case TitleField => f.(title := value)
    case AuthorField => f.(authorName := value)
    case GenreField => f.(genreName := value)
    case AvailableField => f.(available := if value == "" then None else Some(value == "true"))
  }

  /** Choosing "all" in the availability select lifts that filter, any
      other choice keeps exactly the books whose availability is that. */
  lemma AvailabilityChoice(books: seq<Book>, value: string)
    ensures ApplyFilters(books, ChangeFilter(NoFilters, AvailableField, "")) == books
    ensures forall b :: b in ApplyFilters(books, ChangeFilter(NoFilters, AvailableField, value)) <==>
      b in books && (value == "" || b.isAvailable == (value == "true"))
  {
    IndicatorSound(books, NoFilters);
  }

  // ---------------------------------------------------------------- the grid

  const NoBooksText := "No hay libros en el catálogo aún."
  const TryFiltersText := "Intenta modificar los filtros de búsqueda."

  /** What the books grid shows. */
  datatype GridContent =
    | LoadingState
    | EmptyState(hint: string, offerClear: bool)
    | Cards(shown: seq<Book>)

  /** The choice between spinner, empty state and cards. */
  function GridFor(loading: bool, books: seq<Book>, filtered: seq<Book>): (g: GridContent)
    ensures g.LoadingState? <==> loading && books == []
    ensures g.EmptyState? <==> !loading && filtered == []
    ensures g.EmptyState? ==> (g.offerClear <==> books != [])
    ensures g.EmptyState? ==> g.hint == (if books == [] then NoBooksText else TryFiltersText)
    ensures g.Cards? ==> g.shown == filtered && (filtered != [] || (loading && books != []))
  {
    if loading && books == [] then LoadingState
    else if filtered == [] && !loading then
      EmptyState(if books == [] then NoBooksText else TryFiltersText, books != [])
    else Cards(filtered)
  }

  /** `libro`/`libros encontrado(s)`: plural unless exactly one. */
  function ResultsLabel(n: nat): (caption: string)
    ensures n == 1 <==> caption == "libro encontrado"
  {
    if n != 1 then "libros encontrados" else "libro encontrado"
  }

  const LoadFallback := "Error al cargar libros"

  /** The catalog's component state. */
  class CatalogView {
    var books: seq<Book>
    var filteredBooks: seq<Book>
    var loading: bool
    var error: string
    var selectedBook: Option<Book>
    var filters: BookFilters

    /** The filter effect has run: the shown list is the filtered cache. */
    predicate Valid()
      reads this
    {
      filteredBooks == ApplyFilters(books, filters)
    }

    constructor ()
      ensures Valid()
      ensures books == [] && filteredBooks == [] && !loading && error == ""
      ensures selectedBook == None && filters == NoFilters
    {
      books := [];
      filteredBooks := [];
      loading := false;
      error := "";
      selectedBook := None;
      filters := NoFilters;
    }

    /** Re-run the filter effect. */
    method Refilter()
      modifies this`filteredBooks
      ensures Valid()
    {
      filteredBooks := ApplyFilters(books, filters);
    }

    /** `loadBooks` once `getBooks()` has produced `outcome`. */
    method LoadBooks(outcome: Result<seq<Book>, Thrown>) returns (issued: Api.Operation)
      modifies this`books, this`filteredBooks, this`loading, this`error
      ensures Valid() && !loading
      ensures issued == Api.GetBooks(None)
      ensures books == Reloaded(old(books), outcome)
      ensures error == LoadError(outcome, LoadFallback)
    {
      issued := Api.GetBooks(None);
      loading := true;
      error := "";
      books := Reloaded(books, outcome);
      error := LoadError(outcome, LoadFallback);
      loading := false;
      Refilter();
    }

    /** `handleFilterChange` */
    method HandleFilterChange(name: FilterField, value: string)
      modifies this`filters, this`filteredBooks
      ensures Valid()
      ensures filters == ChangeFilter(old(filters), name, value)
    {
      filters := ChangeFilter(filters, name, value);
      Refilter();
    }

    /** `clearFilters` */
    method ClearFilters()
      modifies this`filters, this`filteredBooks
      ensures Valid() && filters == NoFilters && filteredBooks == books
    {
      filters := NoFilters;
      Refilter();
      IndicatorSound(books, filters);
    }

    /** `handleBookSelect` */
    method SelectBook(b: Book)
      modifies this`selectedBook
      ensures selectedBook == Some(b)
    {
      selectedBook := Some(b);
    }

    /** `handleCloseDetail`: close the detail and reload the catalog. */
    method CloseDetail(outcome: Result<seq<Book>, Thrown>) returns (issued: Api.Operation)
      modifies this`selectedBook, this`books, this`filteredBooks, this`loading, this`error
      ensures Valid() && selectedBook == None && !loading
      ensures issued == Api.GetBooks(None)
      ensures books == Reloaded(old(books), outcome)
      ensures error == LoadError(outcome, LoadFallback)
    {
      selectedBook := None;
      issued := LoadBooks(outcome);
    }

    /** What the grid shows now. */
    function Grid(): GridContent
      reads this
    {
      GridFor(loading, books, filteredBooks)
    }
  }

  /** With the effect applied, the empty state's "Limpiar filtros" button
      leads to cards of the whole catalog: clearing the filters of a
      non-empty catalog never leaves it empty. */
  lemma ClearLeadsToCards(loading: bool, books: seq<Book>, f: BookFilters)
    requires GridFor(loading, books, ApplyFilters(books, f)).EmptyState?
    requires GridFor(loading, books, ApplyFilters(books, f)).offerClear
    ensures GridFor(loading, books, ApplyFilters(books, NoFilters)) == Cards(books)
  {
    IndicatorSound(books, NoFilters);
  }
}
