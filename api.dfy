/** The gateway to the library API (utils/api.ts): the bearer token it
    holds, the URL, method and headers of every call, the query strings of
    the list calls, and how a response or a transport failure becomes a
    result or an error. The network itself is the `FetchOutcome` a call is
    given. */
module Api {
  import opened Common
  import opened Text
  import opened Domain
  import opened Lists

  // ---------------------------------------------------------------- token

  /** `ApiService`: the only state is the bearer token. */
  class ApiService {
    var token: Option<string>

    constructor ()
      ensures token == None
    {
      token := None;
    }

    /** `setToken(token)` */
    method SetToken(t: Option<string>)
      modifies this`token
      ensures token == t
    {
      token := t;
    }

    /** `request(endpoint, options)` for one operation: the request put on
        the wire, and what the caller receives once the network has
        produced `outcome`. */
    method Call<T>(base: string, op: Operation, outcome: FetchOutcome<T>)
      returns (sent: HttpRequest, result: Result<Payload<T>, Thrown>)
      ensures sent == HttpRequest(EndpointOf(op).verb, base + EndpointOf(op).path, Headers(token, map[]))
      ensures result == Classify(outcome)
    {
      var path := PathOf(op);
      sent := HttpRequest(EndpointOf(op).verb, base + path, Headers(token, map[]));
      result := Classify(outcome);
    }
  }

  /** `import.meta.env.VITE_API_BASE_URL || ''` */
  function BaseUrl(env: Option<string>): (base: string)
    ensures Truthy(env) ==> base == env.value
    ensures !Truthy(env) ==> base == ""
  {
    if Truthy(env) then env.value else ""
  }

  // ---------------------------------------------------------------- headers

  const JsonHeaders: map<string, string> :=
    map["Content-Type" := "application/json", "Accept" := "application/json"]

  /** The headers of a request: the JSON defaults, overridden by the
      caller's headers, then `Authorization: Bearer <token>` when a
      non-empty token is held. */
  function Headers(token: Option<string>, extra: map<string, string>): (h: map<string, string>)
    ensures Truthy(token) ==> "Authorization" in h && h["Authorization"] == "Bearer " + token.value
    ensures !Truthy(token) ==> ("Authorization" in h <==> "Authorization" in extra)
    ensures forall k :: k in extra && k != "Authorization" ==> k in h && h[k] == extra[k]
    ensures forall k :: k in JsonHeaders && k !in extra ==> k in h && h[k] == JsonHeaders[k]
    ensures h.Keys == JsonHeaders.Keys + extra.Keys + (if Truthy(token) then {"Authorization"} else {})
  {
    var merged := JsonHeaders + extra;
    if Truthy(token) then merged["Authorization" := "Bearer " + token.value] else merged
  }

  // ---------------------------------------------------------------- query strings

  /** A value of a filter object handed to `getBooks`/`getLoans`. */
  datatype QueryValue = Str(s: string) | Flag(b: bool) | Undefined

  type Entry = (string, QueryValue)
  type Param = (string, string)

  /** `value.toString()` */
  function ValueString(v: QueryValue): string
    requires !v.Undefined?
  {
    match v
    case Str(s) => s
    case Flag(b) => if b then "true" else "false"
  }

  /** The parameters `forEach` appends: the defined entries, in order. */
  function DefinedParams(entries: seq<Entry>): (ps: seq<Param>)
    ensures |ps| <= |entries|
  {
    if entries == [] then []
    else
      var last := entries[|entries| - 1];
      DefinedParams(entries[..|entries| - 1]) +
        (if last.1.Undefined? then [] else [(last.0, ValueString(last.1))])
  }

  function PairText(p: Param): string
  {
    p.0 + "=" + p.1
  }

  function PairTexts(ps: seq<Param>): (r: seq<string>)
    ensures |r| == |ps|
    ensures forall i :: 0 <= i < |ps| ==> r[i] == PairText(ps[i])
  {
    if ps == [] then [] else [PairText(ps[0])] + PairTexts(ps[1..])
  }

  /** `URLSearchParams.toString()` (without percent-encoding). */
  function Serialize(ps: seq<Param>): string
  {
    JoinOn(PairTexts(ps), '&')
  }

  /** The query suffix of a list call: `?` and the parameters, or nothing. */
  function QueryString(filters: Option<seq<Entry>>): string
  {
    var text := Serialize(if filters.Some? then DefinedParams(filters.value) else []);
    if text != "" then "?" + text else ""
  }

  /** The body of `getBooks`/`getLoans` before the call: the `forEach` over
      the filter object fills a `URLSearchParams`, whose text, if any,
      becomes the query. */
  method BuildQueryString(filters: Option<seq<Entry>>) returns (qs: string)
    ensures qs == QueryString(filters)
  {
    var params: seq<Param> := [];
    if filters.Some? {
      var entries := filters.value;
      var i := 0;
      while i < |entries|
        invariant 0 <= i <= |entries|
        invariant params == DefinedParams(entries[..i])
      {
        assert entries[..i + 1][..i] == entries[..i];
        var entry := entries[i];
        if !entry.1.Undefined? {
          params := params + [(entry.0, ValueString(entry.1))];
        }
        i := i + 1;
      }
      assert entries[..|entries|] == entries;
    }
    var text := Serialize(params);
    qs := if text != "" then "?" + text else "";
  }

  /** The query is empty exactly when no entry has a defined value. */
  lemma QueryEmptyIff(filters: Option<seq<Entry>>)
    ensures QueryString(filters) == "" <==>
      (filters.None? || forall i :: 0 <= i < |filters.value| ==> filters.value[i].1.Undefined?)
    ensures QueryString(filters) != "" ==> QueryString(filters)[0] == '?'
  {
    if filters.Some? {
      DefinedParamsEmpty(filters.value);
      var ps := DefinedParams(filters.value);
      if ps != [] {
        var t := PairTexts(ps);
        JoinPrefix(t, '&', 1);
        assert t[..1] == [t[0]];
        assert |t[0]| >= 1;
      }
    }
  }

  lemma {:induction false} DefinedParamsEmpty(entries: seq<Entry>)
    ensures DefinedParams(entries) == [] <==> forall i :: 0 <= i < |entries| ==> entries[i].1.Undefined?
  {
    if entries != [] {
      var init := entries[..|entries| - 1];
      DefinedParamsEmpty(init);
      assert forall i :: 0 <= i < |init| ==> init[i] == entries[i];
    }
  }

  /** How the server reads one `key=value` piece: the key runs up to the
      first `=`. */
  function ParsePair(s: string): Param
  {
    if s == [] then ("", "")
    else if s[0] == '=' then ("", s[1..])
    else ([s[0]] + ParsePair(s[1..]).0, ParsePair(s[1..]).1)
  }

  function ParsePairs(pieces: seq<string>): (ps: seq<Param>)
    ensures |ps| == |pieces|
  {
    if pieces == [] then [] else [ParsePair(pieces[0])] + ParsePairs(pieces[1..])
  }

  /** How the server reads a query string back into parameters. */
  function ParseQuery(qs: string): seq<Param>
  {
    var body := if qs != [] && qs[0] == '?' then qs[1..] else qs;
    if body == [] then [] else ParsePairs(SplitOn(body, '&'))
  }

  /** The server reads back exactly the defined parameters, in order,
      provided no key holds `=` or `&` and no value holds `&`. */
  lemma QueryRoundTrip(entries: seq<Entry>)
    requires forall i :: 0 <= i < |entries| ==> '=' !in entries[i].0 && '&' !in entries[i].0
    requires forall i :: 0 <= i < |entries| ==>
      !entries[i].1.Undefined? ==> '&' !in ValueString(entries[i].1)
    ensures ParseQuery(QueryString(Some(entries))) == DefinedParams(entries)
  {
    var ps := DefinedParams(entries);
    DefinedParamsClean(entries);
    QueryEmptyIff(Some(entries));
    if ps != [] {
      var t := PairTexts(ps);
      forall i | 0 <= i < |t|
        ensures '&' !in t[i]
      {
        NoCharConcat(ps[i].0, "=", ps[i].1, '&');
      }
      SplitJoin(t, '&');
      var qs := QueryString(Some(entries));
      assert qs == "?" + JoinOn(t, '&');
      assert qs[1..] == JoinOn(t, '&');
      ParsePairTexts(ps);
    } else {
      DefinedParamsEmpty(entries);
    }
  }

  lemma NoCharConcat(a: string, b: string, c: string, x: char)
    requires x !in a && x !in b && x !in c
    ensures x !in a + b + c
  {
    assert forall y :: y in a + b + c ==> y in a || y in b || y in c;
  }

  /** An entry `forEach` appends: its value is not `undefined`. */
  predicate IsDefined(e: Entry)
  {
    !e.1.Undefined?
  }

  /** The appended parameters are exactly the defined entries, in their
      order, each as its key and its value's text. */
  lemma {:induction false} DefinedParamsAreDefinedEntries(entries: seq<Entry>)
    ensures |DefinedParams(entries)| == |Filter(entries, IsDefined)|
    ensures forall j :: 0 <= j < |DefinedParams(entries)| ==>
      DefinedParams(entries)[j] ==
        (Filter(entries, IsDefined)[j].0, ValueString(Filter(entries, IsDefined)[j].1))
  {
    if entries != [] {
      var init := entries[..|entries| - 1];
      var last := entries[|entries| - 1];
      assert entries == init + [last];
      FilterAppend(init, last, IsDefined);
      DefinedParamsAreDefinedEntries(init);
    }
  }
  /** Keys free of `=` and `&` and values free of `&` stay so in every
      appended parameter. */
  lemma {:induction false} DefinedParamsClean(entries: seq<Entry>)
    requires forall i :: 0 <= i < |entries| ==> '=' !in entries[i].0 && '&' !in entries[i].0
    requires forall i :: 0 <= i < |entries| ==>
      !entries[i].1.Undefined? ==> '&' !in ValueString(entries[i].1)
    ensures forall j :: 0 <= j < |DefinedParams(entries)| ==>
      '=' !in DefinedParams(entries)[j].0 && '&' !in DefinedParams(entries)[j].0 &&
      '&' !in DefinedParams(entries)[j].1
  {
    if entries != [] {
      var init := entries[..|entries| - 1];
      assert forall i :: 0 <= i < |init| ==> init[i] == entries[i];
      DefinedParamsClean(init);
    }
  }

  lemma {:induction false} ParsePairText(k: string, v: string)
    requires '=' !in k
    ensures ParsePair(PairText((k, v))) == (k, v)
  {
    if k == [] {
      assert PairText((k, v)) == "=" + v;
    } else {
      ParsePairText(k[1..], v);
      var s := PairText((k, v));
      assert s[0] == k[0];
      assert s[1..] == PairText((k[1..], v));
      assert [k[0]] + k[1..] == k;
    }
  }

  lemma {:induction false} ParsePairTexts(ps: seq<Param>)
    requires forall j :: 0 <= j < |ps| ==> '=' !in ps[j].0
    ensures ParsePairs(PairTexts(ps)) == ps
  {
    if ps != [] {
      ParsePairText(ps[0].0, ps[0].1);
      ParsePairTexts(ps[1..]);
      assert PairTexts(ps)[1..] == PairTexts(ps[1..]);
    }
  }

  // ---------------------------------------------------------------- endpoints

  datatype HttpMethod = GET | POST | PATCH | DELETE

  /** The calls `ApiService` offers; request bodies are the payloads carried
      by the constructors. */
  datatype Operation =
    | Login(username: string, password: string)
    | GetCurrentUser
    | GetUsers(role: Option<Role>)
    | CreateUser(user: UserDraft)
    | UpdateUser(id: int)
    | DeleteUser(id: int)
    | GetBooks(bookFilters: Option<seq<Entry>>)
    | CreateBook(book: BookDraft)
    | UpdateBook(id: int)
    | DeleteBook(id: int)
    | GetLoans(loanFilters: Option<seq<Entry>>)
    | GetLoan(id: int)
    | CreateLoan(bookId: int, studentId: Option<int>)
    | ReturnLoan(id: int)
    | DeleteLoan(id: int)

  datatype Endpoint = Endpoint(verb: HttpMethod, path: string)

  datatype HttpRequest = HttpRequest(verb: HttpMethod, url: string, headers: map<string, string>)

  predicate IsRead(op: Operation)
  {
    op.GetCurrentUser? || op.GetUsers? || op.GetBooks? || op.GetLoans? || op.GetLoan?
  }

  predicate IsDelete(op: Operation)
  {
    op.DeleteUser? || op.DeleteBook? || op.DeleteLoan?
  }

  /** The operations that name one record by its id. */
  predicate HasId(op: Operation)
  {
    op.UpdateUser? || op.DeleteUser? || op.UpdateBook? || op.DeleteBook? ||
    op.GetLoan? || op.ReturnLoan? || op.DeleteLoan?
  }

  function RoleParam(role: Role): string
  {
    match role
    case Student => "student"
    case Librarian => "librarian"
  }

  /** Every endpoint lives under this path. */
  const ApiRoot := "/api/"

  /** The method of each operation. */
  function VerbOf(op: Operation): (v: HttpMethod)
    ensures v == GET <==> IsRead(op)
    ensures v == DELETE <==> IsDelete(op)
    ensures v == PATCH <==> op.UpdateUser? || op.UpdateBook? || op.ReturnLoan?
  {
    match op
    case Login(_, _) => POST
    case GetCurrentUser => GET
    case GetUsers(_) => GET
    case CreateUser(_) => POST
    case UpdateUser(_) => PATCH
    case DeleteUser(_) => DELETE
    case GetBooks(_) => GET
    case CreateBook(_) => POST
    case UpdateBook(_) => PATCH
    case DeleteBook(_) => DELETE
    case GetLoans(_) => GET
    case GetLoan(_) => GET
    case CreateLoan(_, _) => POST
    case ReturnLoan(_) => PATCH
    case DeleteLoan(_) => DELETE
  }

  /** The path of each operation below the API root. */
  function ResourceOf(op: Operation): string
  {
    match op
    case Login(_, _) => "token/"
    case GetCurrentUser => "users/me/"
    case GetUsers(role) => "users/" + (if role.Some? then "?role=" + RoleParam(role.value) else "")
    case CreateUser(_) => "users/"
    case UpdateUser(id) => "users/" + ShowInt(id) + "/"
    case DeleteUser(id) => "users/" + ShowInt(id) + "/"
    case GetBooks(f) => "books/" + QueryString(f)
    case CreateBook(_) => "books/"
    case UpdateBook(id) => "books/" + ShowInt(id) + "/"
    case DeleteBook(id) => "books/" + ShowInt(id) + "/"
    case GetLoans(f) => "loans/" + QueryString(f)
    case GetLoan(id) => "loans/" + ShowInt(id) + "/"
    case CreateLoan(_, _) => "loans/"
    case ReturnLoan(id) => "loans/" + ShowInt(id) + "/return/"
    case DeleteLoan(id) => "loans/" + ShowInt(id) + "/"
  }

  /** The method and path of each operation: every path lies under the API
      root. */
  function EndpointOf(op: Operation): (e: Endpoint)
    ensures e.verb == GET <==> IsRead(op)
    ensures e.verb == DELETE <==> IsDelete(op)
    ensures e.verb == PATCH <==> op.UpdateUser? || op.UpdateBook? || op.ReturnLoan?
    ensures ApiRoot <= e.path && e.path[|ApiRoot|..] == ResourceOf(op)
  {
    Endpoint(VerbOf(op), ApiRoot + ResourceOf(op))
  }

  /** The path as the method bodies build it, the list calls through the
      `forEach` query builder. */
  method PathOf(op: Operation) returns (path: string)
    ensures path == EndpointOf(op).path
  {
    match op {
      case GetBooks(f) =>
        var qs := BuildQueryString(f);
        path := ApiRoot + ("books/" + qs);
      case GetLoans(f) =>
        var qs := BuildQueryString(f);
        path := ApiRoot + ("loans/" + qs);
      case _ =>
        path := EndpointOf(op).path;
    }
  }

  /** No two operations on records address the same method and path: the
      endpoint determines the kind of operation and the id. */
  lemma EndpointDeterminesRecord(op1: Operation, op2: Operation)
    requires HasId(op1) && HasId(op2)
    requires EndpointOf(op1) == EndpointOf(op2)
    ensures op1 == op2
  {
    IdPathShape(op1);
    IdPathShape(op2);
    var r1 := IdPrefix(op1) + ShowInt(op1.id) + IdTail(op1);
    var r2 := IdPrefix(op2) + ShowInt(op2.id) + IdTail(op2);
    assert r1 == EndpointOf(op1).path[|ApiRoot|..] == r2;
    assert IdPrefix(op1) == r1[..6] == IdPrefix(op2);
    SameKind(op1, op2);
    IdPathInjective(IdPrefix(op1), op1.id, op2.id, IdTail(op1));
  }

  /** The collection of a record operation, as its path under the API root. */
  function IdPrefix(op: Operation): (prefix: string)
    requires HasId(op)
    ensures |prefix| == 6
  {
    if op.UpdateUser? || op.DeleteUser? then "users/"
    else if op.UpdateBook? || op.DeleteBook? then "books/"
    else "loans/"
  }

  /** What follows the id in a record path. */
  function IdTail(op: Operation): string
  {
    if op.ReturnLoan? then "/return/" else "/"
  }

  /** A numbered constructor, to compare the kinds of two operations. */
  function KindIndex(op: Operation): nat
  {
    match op
    case UpdateUser(_) => 0
    case DeleteUser(_) => 1
    case UpdateBook(_) => 2
    case DeleteBook(_) => 3
    case GetLoan(_) => 4
    case ReturnLoan(_) => 5
    case DeleteLoan(_) => 6
    case _ => 7
  }

  lemma IdPathShape(op: Operation)
    requires HasId(op)
    ensures ResourceOf(op) == IdPrefix(op) + ShowInt(op.id) + IdTail(op)
  {
  }

  /** Within one collection, the HTTP method tells the record operations apart. */
  lemma SameKind(op1: Operation, op2: Operation)
    requires HasId(op1) && HasId(op2)
    requires IdPrefix(op1) == IdPrefix(op2)
    requires EndpointOf(op1).verb == EndpointOf(op2).verb
    ensures KindIndex(op1) == KindIndex(op2)
    ensures IdTail(op1) == IdTail(op2)
  {
    assert IdPrefix(op1)[0] == IdPrefix(op2)[0];
  }

  lemma IdPathInjective(prefix: string, a: int, b: int, tail: string)
    requires prefix + ShowInt(a) + tail == prefix + ShowInt(b) + tail
    ensures a == b
  {
    var p := prefix + ShowInt(a) + tail;
    assert ShowInt(a) == p[|prefix|..|p| - |tail|];
    assert ShowInt(b) == p[|prefix|..|p| - |tail|];
    ParseShowInt(a);
    ParseShowInt(b);
  }

  // ---------------------------------------------------------------- responses

  /** What `response.json()` yields: a parse failure, or an object whose
      `error` and `detail` fields are given as text (`""` when absent or
      falsy) along with the payload it decodes to. */
  datatype Body<T> = Unparsable(failure: Thrown) | Json(error: string, detail: string, data: T)

  /** What `fetch` produced: a rejection, or a response with its status. */
  datatype FetchOutcome<T> = Rejected(failure: Thrown) | Response(status: int, body: Body<T>)

  /** A successful call yields the decoded data or, for 204, an empty result. */
  datatype Payload<T> = Data(value: T) | NoContent

  const FailedToFetch: Thrown := Error(TypeError, "Failed to fetch")

  const CorsMessage: string :=
    "Error CORS: El backend no permite requests desde localhost:3000. Contactar al administrador del backend para configurar CORS."

  /** `response.ok` */
  predicate IsOk(status: int)
  {
    200 <= status <= 299
  }

  /** The `catch` of `request`: the browser's `TypeError('Failed to fetch')`
      becomes the CORS diagnostic, any other error is rethrown as it is. */
  function Rewrite(e: Thrown): (r: Thrown)
    ensures r != e <==> e == FailedToFetch
    ensures e == FailedToFetch ==> r == Error(PlainError, CorsMessage)
  {
    if e == FailedToFetch then Error(PlainError, CorsMessage) else e
  }

  /** `errorData.error || errorData.detail || 'Error ' + status`, where an
      unparsable body reads as `{ error: 'Error del servidor' }`. */
  function ErrorMessage<T>(status: int, body: Body<T>): (m: string)
    ensures m != ""
    ensures body.Unparsable? ==> m == "Error del servidor"
    ensures body.Json? && body.error != "" ==> m == body.error
    ensures body.Json? && body.error == "" && body.detail != "" ==> m == body.detail
    ensures body.Json? && body.error == "" && body.detail == "" ==> m == "Error " + ShowInt(status)
  {
    match body
    case Unparsable(_) => "Error del servidor"
    case Json(err, detail, _) =>
      if err != "" then err else if detail != "" then detail else "Error " + ShowInt(status)
  }

  /** The result of `request` once `fetch` has produced `outcome`. */
  function Classify<T>(outcome: FetchOutcome<T>): Result<Payload<T>, Thrown>
  {
    match outcome
    case Rejected(e) => Err(Rewrite(e))
    case Response(status, body) =>
      if !IsOk(status) then Err(Error(PlainError, ErrorMessage(status, body)))
      else if status == 204 then Ok(NoContent)
      else match body
        case Unparsable(e) => Err(Rewrite(e))
        case Json(_, _, data) => Ok(Data(data))
  }

  /** A call succeeds only on a 2xx status; it yields an empty result exactly
      on 204, and the decoded body on any other 2xx with a readable body. */
  lemma ClassifySuccess<T>(outcome: FetchOutcome<T>)
    ensures Classify(outcome).Ok? ==> outcome.Response? && IsOk(outcome.status)
    ensures Classify(outcome) == Ok(NoContent) <==> outcome.Response? && outcome.status == 204
    ensures outcome.Response? && IsOk(outcome.status) && outcome.status != 204 && outcome.body.Json? ==>
      Classify(outcome) == Ok(Data(outcome.body.data))
  {
  }

  /** A non-2xx response fails with an `Error` whose message is never empty
      and is not rewritten; only the transport failure becomes the CORS
      message. */
  lemma ClassifyFailure<T>(outcome: FetchOutcome<T>)
    ensures outcome.Response? && !IsOk(outcome.status) ==>
      Classify(outcome) == Err(Error(PlainError, ErrorMessage(outcome.status, outcome.body))) &&
      Classify(outcome).error.message != ""
    ensures outcome.Rejected? ==>
      Classify(outcome) == Err(if outcome.failure == FailedToFetch then Error(PlainError, CorsMessage)
                               else outcome.failure)
  {
  }
}
