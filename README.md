# Library front end — a Dafny model

This project models the browser front end of a library system. Students
browse the book catalog, borrow books and follow their own loans.
Librarians administer books, users and the loan registry.

The model covers these parts of the front end:

- **API gateway** (`ApiService`). It holds the bearer token, assembles the
  headers and URL of every call, and builds the query strings of the list
  calls. It also turns a response into a result or an error.
- **Loans store** (the Redux slice). This covers its reducers, the three
  asynchronous thunks and the filtered-loans selector.
- **Session provider**. It restores a session from the stored token, and
  handles sign-in and sign-out.
- **Route guards and the route table.**
- **The screens themselves**: catalog, book detail, student loans, book
  administration, user administration, loan registry and header badge.
  For each screen the model covers its form checks, its handlers and what
  it chooses to render.

### How the model is built

- **Stateful parts are classes.** The API service, the loans store, browser
  storage, the session provider and each screen's component state are each
  a class. Their handlers are methods whose `modifies` clauses name the
  fields they may change, so "nothing else changes" is part of every
  handler's contract.
- **Remote calls are parameters.** A handler receives the outcome of each
  call it makes, as a `Result`: a payload, or the `Thrown` error the call
  rejects with. It returns the list of API operations it issued, in order.
  The current year and the answers to confirmation dialogs are parameters
  too.
- **Pure computations are functions.** This covers filters, validation,
  display strings and routing, each with lemmas about it.
- **String built-ins are shared.** `trim`, `toLowerCase`/`toUpperCase`,
  `includes`, `split`/`join`, `parseInt`, `Number` and `String(n)` are
  modelled once, in `Text`, over ASCII.

### Notes on what the code does

- **After sign-in.** There is no redirect straight to a role's area. The
  catch-all route redirects to `/`. That path renders the librarian
  dashboard in place for a librarian, and redirects everyone else to
  `/student` (`App.RedirectsSettle`).
- **A failed user lookup at sign-in.** When the login call succeeds but the
  following user lookup fails, the code has already stored both tokens and
  set the state token and the API token. It rethrows the error with the
  user still unset (`AuthContext.AuthProvider.Login`).

## Model

| member | source | states |
|---|---|---|
| Common.MessageOr | src/store/loansSlice.ts:36 | an `Error`'s own message is kept; anything thrown that is not an `Error` gives the fallback text |
| Common.Reloaded | src/components/BookCatalog.tsx:64-65 | a load replaces the list by the payload on success and keeps the old list on failure |
| Common.LoadError | src/components/BookCatalog.tsx:63-68 | a load clears the error on success and sets the thrown message (or the fallback) on failure |
| Lists.Filter | src/store/loansSlice.ts:147-159 | `Array.filter`: the result is a subsequence of the input, holds exactly the elements satisfying the predicate, and only such elements |
| Lists.FilterFilter | src/store/loansSlice.ts:145-160 | filtering by one predicate and then by another equals filtering once by any predicate that agrees with their conjunction on the list |
| Lists.FilterIdempotent | src/store/loansSlice.ts:145-160 | filtering by the same predicate twice changes nothing |
| Lists.FilterPartition | src/components/LoanManagement.tsx:143-150 | filtering by a predicate and by its negation splits the list: the two lengths add up to the input length |
| Lists.FilterKeepsAll | src/store/loansSlice.ts:145-160 | a filter whose predicate holds for every element returns the list unchanged |
| Lists.FilterCongruent | src/store/loansSlice.ts:145-160 | predicates that agree on the list's elements give the same result |
| Lists.FilterAppend | src/utils/api.ts:129-133 | filtering a list extended by one element gives the filtered list, extended by that element exactly when it satisfies the predicate |
| Lists.SubsequenceTransitive | src/components/BookCatalog.tsx:33-57 | a chain of filters keeps the result a subsequence of the original list |
| Text.TrimStartShape | src/components/BookManagement.tsx:44-57 | the start of `trim` drops exactly the leading white space: a suffix is left, and it does not start with white space |
| Text.TrimEndShape | src/components/BookManagement.tsx:44-57 | the end of `trim` drops exactly the trailing white space: a prefix is left, and it does not end with white space |
| Text.TrimShape | src/components/UserManagement.tsx:251-253 | `trim()` returns a contiguous slice of the input with no white space at either end |
| Text.Trim | src/components/UserManagement.tsx:251-253 | `trim()`: the leading white space is removed first and then the trailing white space (`Text.TrimShape` states what is left) |
| Text.IsBlank | src/components/BookManagement.tsx:44-57 | `!s.trim()`: the trimmed text is empty (`Text.BlankIffAllSpace` gives the equivalent condition on the characters) |
| Text.BlankIffAllSpace | src/components/BookManagement.tsx:44-57 | `!s.trim()` holds exactly when every character of `s` is white space |
| Text.Lower | src/components/BookCatalog.tsx:37 | `toLowerCase` keeps the length and lower-cases each ASCII letter in place |
| Text.Upper | src/components/Header.tsx:20 | `toUpperCase` keeps the length and upper-cases each ASCII letter in place |
| Text.CaseFolding | src/components/BookCatalog.tsx:37 | upper-casing leaves no lower-case letter; lower-casing forgets the original case |
| Text.Contains | src/components/BookCatalog.tsx:37 | `includes`: the empty needle is contained in every text (`Text.ContainsIff` gives the exact condition) |
| Text.ContainsIff | src/components/BookCatalog.tsx:37 | `includes` holds exactly when the needle occurs at some index of the text |
| Text.SplitOn | src/components/BookDetail.tsx:71 | `split(' ')` yields at least one piece, and no piece holds the separator |
| Text.JoinSplit | src/components/BookDetail.tsx:71 | joining the pieces of a split with the same separator gives back the text |
| Text.SplitJoin | src/components/BookDetail.tsx:71 | splitting a join of separator-free pieces gives back the pieces |
| Text.JoinCount | src/components/BookDetail.tsx:71 | a join of n separator-free pieces holds n - 1 separators |
| Text.JoinOn | src/components/BookDetail.tsx:71 | `join(sep)`: the pieces with one separator between neighbours (`Text.JoinSplit`, `Text.SplitJoin` and `Text.JoinCount` relate it to `split`) |
| Text.ShowNat | src/utils/api.ts:108 | the decimal text of a natural number is a non-empty string of digits |
| Text.ShowInt | src/utils/api.ts:108 | `String(n)` for an integer: never empty (`Text.ParseShowInt` reads it back) |
| Text.ParseShowInt | src/components/BookManagement.tsx:91 | `parseInt(String(i)) == i` for every integer |
| Text.ParseNoDigits | src/components/BookManagement.tsx:91 | text that does not start with a number parses to `NaN`, so `parseInt(value) \|\| 0` gives 0 |
| Text.ParseInt | src/components/BookManagement.tsx:91 | `parseInt(s)`: optional leading white space and sign, then the longest run of decimal digits; no digit gives no number (`Text.ParseShowInt`, `Text.ParseNoDigits`) |
| Text.ParseIntOrZero | src/components/BookManagement.tsx:91 | `parseInt(value) \|\| 0` for an integer field: the parsed number, or 0 when there is none |
| Text.ShowIntIsLiteral | src/components/LoanManagement.tsx:127-128 | the text of an integer is an optional minus sign followed by digits |
| Domain.ByStatus | src/components/StudentLoans.tsx:39-48 | the status switch keeps a subsequence holding exactly the loans whose status the filter admits; `all` keeps the list |
| Domain.ByStatusIsFilter | src/components/StudentLoans.tsx:39-48 | the tab filter is one `Array.filter` by the tab's status predicate: all loans, the unreturned ones or the returned ones |
| Domain.ActivePlusReturned | src/components/StudentLoans.tsx:87-130 | open and returned loans together are all loans |
| Domain.ActiveCount | src/components/StudentLoans.tsx:87-130 | the number of active loans is at most the number of loans, and is zero exactly when every loan is returned |
| Domain.ReturnedCount | src/components/StudentLoans.tsx:87-130 | the number of returned loans is at most the number of loans, and is zero exactly when no loan is returned |
| Domain.RoleName | src/components/UserManagement.tsx:257-258 | the role label is 'Estudiante' exactly for students and 'Bibliotecario' exactly for librarians |
| Api.ApiService.constructor | src/utils/api.ts:15 | a new service has no token |
| Api.ApiService.SetToken | src/utils/api.ts:17-19 | the stored token becomes the given value |
| Api.ApiService.Call | src/utils/api.ts:21-80 | the request goes to base + path with the operation's method and the service's headers; the caller receives the classified outcome |
| Api.BaseUrl | src/utils/api.ts:12 | the configured base URL if it is non-empty, else the empty string |
| Api.Headers | src/utils/api.ts:29-37 | JSON defaults that caller headers override; `Authorization: Bearer <token>` exactly when the token is non-empty, winning over any caller value; no other keys |
| Api.DefinedParams | src/utils/api.ts:129-133 | the `forEach` appends at most one parameter per entry (`Api.DefinedParamsAreDefinedEntries` gives the exact list) |
| Api.PairTexts | src/utils/api.ts:131 | each defined parameter is rendered as `key=value` |
| Api.BuildQueryString | src/utils/api.ts:127-135 | the `forEach` loop yields `?` + the `&`-joined defined parameters, or the empty string |
| Api.QueryEmptyIff | src/utils/api.ts:135 | the query suffix is empty exactly when no filters are given or no value is defined; otherwise it starts with `?` |
| Api.QueryString | src/utils/api.ts:135 | the query string is `?` and the serialized defined parameters, or empty when there are none (`Api.QueryEmptyIff`) |
| Api.DefinedParamsEmpty | src/utils/api.ts:128-134 | nothing is appended exactly when every value is `undefined` |
| Api.ParsePairs | src/utils/api.ts:131 | reading `&`-separated pieces back gives one parameter per piece |
| Api.QueryRoundTrip | src/utils/api.ts:127-135 | with keys free of `=` and `&` and values free of `&`, reading the query back gives exactly the defined parameters, in order |
| Api.DefinedParamsClean | src/utils/api.ts:129-133 | keys free of `=` and `&` and values free of `&` stay so in every appended parameter |
| Api.DefinedParamsAreDefinedEntries | src/utils/api.ts:127-135 | the appended parameters are exactly the entries whose value is not `undefined`, in their order, each as its key and its value's text |
| Api.ParsePairText | src/utils/api.ts:131 | a `key=value` piece reads back as its key and value when the key holds no `=` |
| Api.ParsePairTexts | src/utils/api.ts:131 | every piece of a rendered parameter list reads back as that parameter |
| Api.VerbOf | src/utils/api.ts:83-196 | each operation's HTTP method: GET exactly for reads, DELETE exactly for deletions, PATCH exactly for updates and returns |
| Api.EndpointOf | src/utils/api.ts:83-196 | each operation's method and path: GET exactly for reads, DELETE exactly for deletions, PATCH exactly for updates and returns; every path lies under `/api/` |
| Api.PathOf | src/utils/api.ts:95-177 | the path the method bodies build, including the query suffix of the list calls, equals the operation's endpoint path |
| Api.EndpointDeterminesRecord | src/utils/api.ts:107-196 | two record operations with the same method and path are the same operation on the same id |
| Api.Rewrite | src/utils/api.ts:73-78 | only the browser's `TypeError('Failed to fetch')` is replaced, by the fixed CORS message; every other error propagates unchanged |
| Api.ErrorMessage | src/utils/api.ts:48-54 | the message of a failed response is never empty: the body's `error`, else its `detail`, else `Error <status>`; an unparsable body gives 'Error del servidor' |
| Api.Classify | src/utils/api.ts:47-79 | the result of `request`: a rejection, a non-2xx status, a 204 or a 2xx body (`Api.ClassifySuccess` and `Api.ClassifyFailure` state which result each gives) |
| Api.ClassifySuccess | src/utils/api.ts:48-66 | a call succeeds only on a 2xx status; it yields an empty result exactly on 204, else the decoded body |
| Api.ClassifyFailure | src/utils/api.ts:48-79 | a non-2xx status fails with the chosen non-empty message; a rejected fetch fails with the rewritten error |
| LoansSlice.MergeFilter | src/store/loansSlice.ts:72-74 | `setFilter` replaces exactly the fields the patch names and keeps the others |
| LoansSlice.MergeLaws | src/store/loansSlice.ts:72-74 | repeating a patch changes nothing, the empty patch is the identity, and two patches in a row act as their composition |
| LoansSlice.StudentAdmits | src/store/loansSlice.ts:145-160 | a loan passes the student filter when no student (or student 0) is chosen, or when it belongs to the chosen student |
| LoansSlice.IndexOfId | src/store/loansSlice.ts:115 | `findIndex` is -1 exactly when no loan has the id; otherwise it is the first index with the id |
| LoansSlice.ReplaceFirstById | src/store/loansSlice.ts:115-118 | the first loan with the payload's id is replaced by the payload; the length, every id and every other loan are unchanged; with no match the list is unchanged |
| LoansSlice.ReplaceLaws | src/store/loansSlice.ts:115-118 | the payload is in the result exactly when some loan had its id, and replacing twice equals replacing once |
| LoansSlice.SelectFilteredLoans | src/store/loansSlice.ts:140-163 | the selector keeps a subsequence holding exactly the loans admitted by the status filter and, when `studentId` is truthy, by the student id |
| LoansSlice.SelectLaws | src/store/loansSlice.ts:140-163 | the default filter keeps every loan, and selecting the selection again changes nothing |
| LoansSlice.SelectKeepsAll | src/store/loansSlice.ts:140-163 | a list whose every loan passes the filter is returned unchanged |
| LoansSlice.SelectIsFilter | src/store/loansSlice.ts:140-163 | the selector is one `Array.filter` by the conjunction of the status and student conditions |
| LoansSlice.LoanStore.constructor | src/store/loansSlice.ts:17-26 | the initial state: no loans, none selected, not loading, no error, filter `all` with no student |
| LoansSlice.LoanStore.FilteredLoans | src/store/loansSlice.ts:140-163 | the selector over the store's state is a subsequence of its loans |
| LoansSlice.LoanStore.SetSelectedLoan | src/store/loansSlice.ts:69-71 | the selected loan becomes the payload, and nothing else changes |
| LoansSlice.LoanStore.SetFilter | src/store/loansSlice.ts:72-74 | the filter becomes the merge of the old filter with the patch |
| LoansSlice.LoanStore.ClearError | src/store/loansSlice.ts:75-77 | the error becomes `null` |
| LoansSlice.LoanStore.Pending | src/store/loansSlice.ts:82-85 | a pending thunk sets loading and clears the error |
| LoansSlice.LoanStore.Rejected | src/store/loansSlice.ts:90-93 | a rejected thunk stops loading and stores the message |
| LoansSlice.LoanStore.FetchLoansFulfilled | src/store/loansSlice.ts:86-89 | the loans become the payload and loading stops |
| LoansSlice.LoanStore.FetchLoanByIdFulfilled | src/store/loansSlice.ts:99-102 | the payload becomes the selected loan and loading stops |
| LoansSlice.LoanStore.ReturnLoanFulfilled | src/store/loansSlice.ts:112-123 | the returned loan replaces the first loan with its id, and the selection when that has its id; loading stops |
| LoansSlice.LoanStore.FetchLoans | src/store/loansSlice.ts:29-39 | `fetchLoans` issues `getLoans()`; it stores the list on success, and on failure keeps the list and stores the message or 'Error al cargar préstamos' |
| LoansSlice.LoanStore.FetchLoanById | src/store/loansSlice.ts:41-51 | `fetchLoanById` issues `getLoan(id)`; it selects the loan on success, or stores the message or 'Error al cargar préstamo' |
| LoansSlice.LoanStore.ReturnLoan | src/store/loansSlice.ts:53-63 | `returnLoan` issues the return call; on success it replaces the loan in the list and in the selection; on failure it changes nothing but the error, which becomes the message or 'Error al devolver libro' |
| AuthContext.LocalStorage.GetItem | src/contexts/AuthContext.tsx:22 | `getItem` gives the stored value, or `null` for a missing key |
| AuthContext.LocalStorage.SetItem | src/contexts/AuthContext.tsx:53-54 | `setItem` stores the value under the key |
| AuthContext.LocalStorage.RemoveItem | src/contexts/AuthContext.tsx:35-36 | `removeItem` removes the key and nothing else |
| AuthContext.AuthProvider.constructor | src/contexts/AuthContext.tsx:21-23 | initially there is no user, the token is read from `access_token`, and the provider is loading |
| AuthContext.AuthProvider.InitializeAuth | src/contexts/AuthContext.tsx:26-42 | with a non-empty token: sets the API token and issues `getCurrentUser`; success sets the user; failure removes both stored tokens and clears the state and API tokens. Without a token no call is made and nothing changes. Loading ends false on every path, and the state token keeps matching storage |
| AuthContext.AuthProvider.Login | src/contexts/AuthContext.tsx:47-69 | issues the login call. A failure is rethrown unchanged with nothing else changed. On success both tokens are stored, the API token and state token become the access token, `getCurrentUser` follows, and its user is set or its error rethrown. Loading ends false |
| AuthContext.AuthProvider.Logout | src/contexts/AuthContext.tsx:71-77 | both stored tokens are removed, and the API token, the state token and the user are cleared |
| AuthContext.UseAuth | src/contexts/AuthContext.tsx:8-14 | the context value inside a provider; outside one, the error 'useAuth must be used within an AuthProvider' |
| AuthContext.ClearedStaysCleared | src/contexts/AuthContext.tsx:35-36 | after the tokens are removed neither key is stored, removing them again changes nothing, and every other key is kept |
| App.Protected | src/App.tsx:13-42 | the loading screen while loading whatever the user; else a redirect to `/login` without a user; else the unauthorized screen naming the user's role when a required role differs; the page only when all checks pass |
| App.Route | src/App.tsx:45-93 | a pathname reaching `/login` (ignoring letter case and trailing slashes, as the router matches) redirects to `/` when signed in and shows the sign-in page otherwise; a pathname reaching no declared route redirects to `/`; a dashboard is rendered only to a signed-in user of its role once loading is over |
| App.MatchesRouteLaws | src/App.tsx:50-90 | appending a slash to a pathname, or upper-casing it, does not change whether it reaches a route |
| App.RoutesExclusive | src/App.tsx:50-90 | no pathname reaches two of the declared routes |
| App.RouteTable | src/App.tsx:52-87 | a pathname reaching `/`, `/librarian` or `/student` renders that route's guarded element |
| App.StudentMeetsRoleCheck | src/App.tsx:67-76 | a student who reaches `/librarian`, also with a trailing slash or in capitals, gets the unauthorized screen |
| App.TargetsSettle | src/App.tsx:50-65 | the redirect targets `/`, `/student` and `/login` settle after at most one more redirect, on the view the session calls for |
| App.RootByRole | src/App.tsx:52-65 | on `/` a librarian gets the librarian dashboard, and any other user is redirected to `/student` |
| App.RedirectsSettle | src/App.tsx:50-90 | from any pathname, at most two redirects lead to a final view: the loading screen while loading, the sign-in page when signed out, and otherwise the user's own dashboard, or the unauthorized screen when the pathname reaches the other role's area |
| Header.FirstTwo | src/components/Header.tsx:23 | `slice(0, 2)` is a prefix of length min(2, length) |
| Header.Initials | src/components/Header.tsx:18-29 | one or two characters with no lower-case letter: the initials of the first and last names, else the first two characters of the first name, else of the user name, else 'U' |
| Header.DisplayName | src/components/Header.tsx:31-39 | never empty: 'first last', else the first name, else the user name, else 'Usuario' |
| Header.AvatarMatchesGreeting | src/components/Header.tsx:18-39 | the avatar starts with the greeting's first character upper-cased, and shows the last name's initial when the greeting shows both names |
| Header.RoleLabel | src/components/Header.tsx:41-50 | 'Bibliotecario' exactly for librarians, 'Estudiante' exactly for students, 'Usuario' exactly when nobody is signed in |
| BookCatalog.ByTitle | src/components/BookCatalog.tsx:35-39 | the title filter keeps a subsequence holding exactly the books whose title includes the query, ignoring case, when the query is not blank |
| BookCatalog.ByAuthor | src/components/BookCatalog.tsx:41-45 | as the title filter, on the author name |
| BookCatalog.ByGenre | src/components/BookCatalog.tsx:47-51 | as the title filter, on the genre name |
| BookCatalog.ByAvailability | src/components/BookCatalog.tsx:53-55 | with an availability chosen, exactly the books with that availability remain |
| BookCatalog.Matches | src/components/BookCatalog.tsx:31-58 | a book passes the catalog filters when each text filter that is not blank after trimming occurs in its field, ignoring case, and its availability matches the chosen one |
| BookCatalog.FieldFiltersAreFilters | src/components/BookCatalog.tsx:35-55 | each of the four steps equals one `Array.filter` by its field condition, which a blank or unset filter satisfies for every book |
| BookCatalog.ApplyFilters | src/components/BookCatalog.tsx:31-58 | the filter effect keeps a subsequence of the books |
| BookCatalog.ApplyFiltersMembers | src/components/BookCatalog.tsx:31-58 | exactly the books that pass all four filters remain |
| BookCatalog.IndicatorSound | src/components/BookCatalog.tsx:193-197 | without the 'Filtros activos' indicator nothing is filtered out; a title of one space shows the indicator yet filters nothing |
| BookCatalog.ActiveFiltersShown | src/components/BookCatalog.tsx:193 | the active-filter indicator shows when some filter is set (`BookCatalog.IndicatorSound` relates it to the filtered list) |
| BookCatalog.CaseInsensitive | src/components/BookCatalog.tsx:35-39 | upper-casing the title query does not change the result |
| BookCatalog.UpperKeepsBlank | src/components/BookCatalog.tsx:35 | upper-casing keeps a blank query blank and a non-blank one non-blank |
| BookCatalog.ApplyFiltersKeepsAll | src/components/BookCatalog.tsx:31-58 | books that all pass the filters are kept as they are, so filtering the filtered list again changes nothing |
| BookCatalog.ApplyFiltersIsFilter | src/components/BookCatalog.tsx:31-58 | the four filter steps together equal one `Array.filter` by `Matches` |
| BookCatalog.ChangeFilter | src/components/BookCatalog.tsx:74-80 | the named field takes the value; for availability the empty value means no filter, and otherwise the choice is `value === 'true'` |
| BookCatalog.AvailabilityChoice | src/components/BookCatalog.tsx:78 | choosing 'Todos' lifts the availability filter; any other choice keeps exactly the books whose availability equals `value === 'true'` |
| BookCatalog.GridFor | src/components/BookCatalog.tsx:204-262 | the spinner only while the first load runs; the empty state when nothing is shown after loading, with the 'clear filters' button exactly when the catalog has books; the cards otherwise |
| BookCatalog.ResultsLabel | src/components/BookCatalog.tsx:190-191 | the singular caption exactly when one book is shown |
| BookCatalog.CatalogView.constructor | src/components/BookCatalog.tsx:15-25 | the initial state, with no filters set |
| BookCatalog.CatalogView.Refilter | src/components/BookCatalog.tsx:31-58 | re-running the effect makes the shown list the filtered books |
| BookCatalog.CatalogView.LoadBooks | src/components/BookCatalog.tsx:60-72 | issues `getBooks()`; replaces the books on success, or keeps them and sets the message or 'Error al cargar libros'; loading ends false and the shown list follows |
| BookCatalog.CatalogView.HandleFilterChange | src/components/BookCatalog.tsx:74-80 | the filters change as the control says and the shown list follows |
| BookCatalog.CatalogView.ClearFilters | src/components/BookCatalog.tsx:82-89 | all filters are cleared and every book is shown |
| BookCatalog.CatalogView.SelectBook | src/components/BookCatalog.tsx:91-93 | the clicked book is opened in the detail |
| BookCatalog.CatalogView.CloseDetail | src/components/BookCatalog.tsx:95-99 | the detail closes and the catalog is reloaded |
| BookCatalog.CatalogView.Grid | src/components/BookCatalog.tsx:204-262 | the grid shows what `BookCatalog.GridFor` chooses for the component's current state |
| BookCatalog.ClearLeadsToCards | src/components/BookCatalog.tsx:219-223 | whenever the empty state offers 'Limpiar filtros', clearing shows every book as cards |
| StudentLoans.TabsCountTheirLists | src/components/StudentLoans.tsx:114-131 | each tab's count is the length of the list it shows, and active plus returned equals the total |
| StudentLoans.EmptyTabsAreTruthful | src/components/StudentLoans.tsx:146-159 | an empty 'active' tab means every loan is returned; an empty 'returned' tab means none is |
| StudentLoans.ListFor | src/components/StudentLoans.tsx:138-163 | the spinner only while the first load runs, then the tab's empty state or its cards |
| StudentLoans.Notice | src/components/StudentLoans.tsx:216-234 | overdue exactly when the days remaining are negative, warning for 0 to 3 days, normal beyond that |
| StudentLoans.NoticeMonotone | src/components/StudentLoans.tsx:216-234 | fewer days left never gives a milder notice |
| StudentLoans.StudentLoansView.constructor | src/components/StudentLoans.tsx:11-14 | the initial state, on the 'all' tab |
| StudentLoans.StudentLoansView.FilteredLoans | src/components/StudentLoans.tsx:39-48 | `getFilteredLoans` keeps exactly the loans the tab admits |
| StudentLoans.StudentLoansView.LoadLoans | src/components/StudentLoans.tsx:20-37 | issues `getLoans()`; on success stores the loans and reports the number of open ones to `onActiveLoansChange`; on failure keeps them, reports nothing and sets the message or 'Error al cargar préstamos' |
| StudentLoans.StudentLoansView.SelectTab | src/components/StudentLoans.tsx:114-131 | a tab click selects that tab |
| StudentLoans.Tabs | src/components/StudentLoans.tsx:114-131 | the tab counts: the returned count is the number of returned loans (`StudentLoans.TabsCountTheirLists` ties each to its list) |
| StudentLoans.EmptyTitle | src/components/StudentLoans.tsx:146-159 | the title shown when a tab has no loans (`StudentLoans.EmptyTabsAreTruthful`) |
| StudentLoans.Severity | src/components/StudentLoans.tsx:216-234 | the order of the due-date notices, from normal to overdue (`StudentLoans.NoticeMonotone`) |
| BookManagement.ValidateBook | src/components/BookManagement.tsx:44-62 | the checks run in the order title, author, genre, year; each message is reported exactly when its check is the first to fail, and none when all pass |
| BookManagement.EmptyDraftRejected | src/components/BookManagement.tsx:11-17 | a freshly reset form fails only for its empty title |
| BookManagement.ChangeDraft | src/components/BookManagement.tsx:85-94 | the named field takes the value; year and stock take `parseInt(value) \|\| 0` |
| BookManagement.NumericInput | src/components/BookManagement.tsx:90-91 | a typed decimal number is stored as that number; text not starting with a number is stored as 0 |
| BookManagement.BookManagementView.constructor | src/components/BookManagement.tsx:7-17 | the initial state, with the form reset to the current year and one copy |
| BookManagement.BookManagementView.LoadData | src/components/BookManagement.tsx:23-38 | issues `getBooks()`; replaces the books, or keeps them and sets the message or 'Error al cargar libros' |
| BookManagement.BookManagementView.HandleSubmit | src/components/BookManagement.tsx:40-83 | a failing check sets its message and makes no call; otherwise `createBook` is issued. On failure the form is kept and the message set; on success the form is reset and hidden, then the books are reloaded |
| BookManagement.BookManagementView.HandleInputChange | src/components/BookManagement.tsx:85-94 | the form changes as `ChangeDraft` says |
| BookManagement.BookManagementView.HandleDelete | src/components/BookManagement.tsx:96-110 | no call and no change unless confirmed; then `deleteBook` is issued, and its failure sets the message, while success reloads the books |
| UserManagement.ValidateUser | src/components/UserManagement.tsx:41-54 | the checks run in the order username/email, password present, length at least 6; each message is reported exactly when its check is the first to fail |
| UserManagement.PasswordChecksOrder | src/components/UserManagement.tsx:46-54 | six spaces count as a missing password, while a short password padded with spaces to six characters passes |
| UserManagement.ChangeUserDraft | src/components/UserManagement.tsx:78-84 | the named field takes the raw value |
| UserManagement.FullNameCellShapes | src/components/UserManagement.tsx:251-253 | for names without outer white space the cell shows 'first last', or the one name given, or '-' |
| UserManagement.FullNameCell | src/components/UserManagement.tsx:251-253 | the name cell: the trimmed full name, or `-` when both names are empty (`UserManagement.FullNameCellShapes`) |
| UserManagement.UserManagementView.constructor | src/components/UserManagement.tsx:7-18 | the initial state, with the role preset to 'student' |
| UserManagement.UserManagementView.LoadUsers | src/components/UserManagement.tsx:24-35 | issues `getUsers()`; replaces the users, or keeps them and sets the message or 'No se pudieron cargar los usuarios' |
| UserManagement.UserManagementView.HandleSubmit | src/components/UserManagement.tsx:37-76 | a failing check sets its message and makes no call; otherwise `createUser` is issued. On failure the form is kept; on success the form is reset and hidden, then the users are reloaded |
| UserManagement.UserManagementView.HandleInputChange | src/components/UserManagement.tsx:78-84 | the form changes as `ChangeUserDraft` says |
| UserManagement.UserManagementView.HandleDelete | src/components/UserManagement.tsx:86-100 | no call and no change unless confirmed; then `deleteUser` is issued, and its failure sets the message, while success reloads the users |
| BookDetail.ActionsFor | src/components/BookDetail.tsx:55-170 | the loan button exactly when a student views a lendable book, busy while loading; the reason ('no copies' exactly when stock is 0) when a student views a book that cannot be lent; the librarian notice for everyone else |
| BookDetail.CanCreateLoan | src/components/BookDetail.tsx:55 | a loan can be requested only by a signed-in student, for a book marked available with stock above zero |
| BookDetail.CoverTextShape | src/components/BookDetail.tsx:71 | the cover shows a prefix of the title with at most two spaces: the whole title when it has at most two, otherwise the title up to its third space |
| BookDetail.CoverText | src/components/BookDetail.tsx:71 | the cover text: the first three words of the title (`BookDetail.CoverTextShape`) |
| BookDetail.BookDetailView.constructor | src/components/BookDetail.tsx:19-21 | no loading, error or success message |
| BookDetail.BookDetailView.HandleCreateLoan | src/components/BookDetail.tsx:23-53 | an unavailable or out-of-stock book sets the error and makes no call; otherwise `createLoan` is issued for the book. Success sets the success message and schedules `onLoanCreated`; failure sets the message or 'No se pudo crear el préstamo'. Loading ends false |
| LoanManagement.StudentsOf | src/components/LoanManagement.tsx:38 | exactly the users with the student role, in order |
| LoanManagement.FindById | src/components/LoanManagement.tsx:56 | `find` fails exactly when no loan has the id; otherwise it gives the first loan with the id |
| LoanManagement.NumberOf | src/components/LoanManagement.tsx:51-53 | `Number(value)` on the select's value: a decimal integer literal gives its number, anything else gives none |
| LoanManagement.StudentIdFromSelect | src/components/LoanManagement.tsx:51-53 | the empty option chooses no student; any other option chooses the number it holds (`LoanManagement.SelectRoundTrip`) |
| LoanManagement.SelectValue | src/components/LoanManagement.tsx:127-128 | the select shows the chosen student's id, or the empty option for none or 0 (`LoanManagement.SelectRoundTrip`) |
| LoanManagement.SelectRoundTrip | src/components/LoanManagement.tsx:127-128 | choosing a student's option stores that id and shows the same option again; the empty option stores `null` |
| LoanManagement.StatsOf | src/components/LoanManagement.tsx:141-150 | the stats bar: the total is the number of filtered loans, and the active and returned counts add up to it |
| LoanManagement.ScreenFor | src/components/LoanManagement.tsx:82-97 | the error screen exactly when there is a non-empty error; else the detail exactly when a loan is selected; else the list |
| LoanManagement.ListBodyFor | src/components/LoanManagement.tsx:154-172 | the spinner exactly while loading; the empty message of the chosen status exactly when the filtered list is empty; the rows otherwise |
| LoanManagement.EmptyHint | src/components/LoanManagement.tsx:154-172 | the hint of an empty list, one per status filter (`LoanManagement.ListBodyFor`) |
| LoanManagement.LoanManagementView.constructor | src/components/LoanManagement.tsx:26-27 | no students and not loading them |
| LoanManagement.LoanManagementView.LoadStudents | src/components/LoanManagement.tsx:34-45 | issues `getUsers()`; keeps only the students on success and the old list on failure; loading ends false |
| LoanManagement.LoanManagementView.HandleStatusFilterChange | src/components/LoanManagement.tsx:47-49 | only the status of the store's filter changes |
| LoanManagement.LoanManagementView.HandleStudentFilterChange | src/components/LoanManagement.tsx:51-53 | only the student id of the store's filter changes, to the id the select names or `null` |
| LoanManagement.LoanManagementView.HandleLoanClick | src/components/LoanManagement.tsx:55-60 | the first shown loan with the id becomes the selection; with no such loan nothing changes |
| LoanManagement.LoanManagementView.HandleCloseDetail | src/components/LoanManagement.tsx:62-64 | the selection is cleared |
| LoanManagement.LoanManagementView.Retry | src/components/LoanManagement.tsx:87 | the store's error is cleared |
| LoanManagement.LoanManagementView.Render | src/components/LoanManagement.tsx:82-97 | the screen shows what `LoanManagement.ScreenFor` chooses for the store's error and selected loan |
| LoanManagement.ClickSelectsShownLoan | src/components/LoanManagement.tsx:55-60 | a click selects only a loan from the store's list that passes the filter and carries the clicked id |
| LoanManagement.RetryShowsDetailOrList | src/components/LoanManagement.tsx:82-97 | with the error cleared the screen shows the selected loan's detail or the list |

## Left out

- Network and JSON are outside the model. A call is its `Api.Operation` value together with the outcome the handler receives. Request bodies appear only as the operation's payload fields. `fetch` options and JSON encoding are not modelled.
- Browser storage is modelled as a string-to-string map. Its persistence across page loads is out of scope.
- `URLSearchParams` percent-encoding is not modelled. This is why `Api.QueryRoundTrip` requires keys free of `=` and `&`, and values free of `&`.
- Case mapping, `trim` white space and string lengths are over ASCII characters, not full Unicode and UTF-16 code units.
- `parseInt` and `Number` are modelled as decimal integers only. Hexadecimal, exponent and fractional forms are not modelled.
- LoanManagement.StudentIdFromSelect: the `NaN` that `Number` gives for non-numeric text becomes `null`. The store and the select already treat `NaN` as `null`.
- StudentLoans.Notice: takes the number of days remaining as a parameter. Date arithmetic and the clock (`getDaysRemaining`, `formatDate`) are not modelled, nor is the wording of the notice.
- BookDetail.BookDetailView.HandleCreateLoan: the two-second `setTimeout` before `onLoanCreated` is the `notify` result. Timers are not modelled.
- Effects are not modelled as re-running on their own. Each effect is modelled by the handler it calls, and the catalog's filter effect is the `Valid()` invariant that every catalog method restores. Because the session effect re-runs whenever the token changes, `initializeAuth` runs again after a sign-in. This is `AuthProvider.InitializeAuth` called after `AuthProvider.Login`. Races between overlapping requests are not modelled.
- App.Route: the router's case-insensitive match folds only ASCII letters. Its percent-decoding of the pathname and a `basename` are not modelled; the application sets no `basename`.
- Confirmation dialogs are modelled as the boolean answer the handler receives.
- The current year is a parameter of the book form.
- UI-only state is not modelled: the dashboard tab toggles, the header menu toggle and `handleLogout`'s menu close, and the create-form toggle buttons.
- The rest of the rendered markup, with its plural wording of copies and its date formatting, is not modelled.
- Console logging is not part of the model.
- The loan detail dialog, the login form, the layout and the dashboards are not part of this model.
