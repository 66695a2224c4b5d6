/**
 * The route handlers of api/app.js over the in-memory movie collection.
 *
 * Each handler is a pure function from the collection and a request to a
 * response and the next collection. Express plumbing, JSON parsing and response
 * I/O are not modelled; a response is a status and an abstract body. The fresh
 * id that the create route draws from `crypto.randomUUID()` and the URL check of
 * the schema are parameters.
 */
module MovieApi {
  import opened Wrappers
  import opened Text
  import opened MovieSchema

  /** A stored movie record: a server-assigned id and the seven schema fields. */
  datatype Movie = Movie(
    id: string,
    title: string,
    year: int,
    direction: string,
    duration: int,
    rate: real,
    poster: string,
    genre: seq<string>)

  datatype Body =
    | Movies(items: seq<Movie>)
    | One(movie: Movie)
    | Invalid(error: ValidationError)
    | NotFound
    | Deleted
    | ErrorPage

  datatype Response = Response(status: int, body: Body)

  const Ok: int := 200
  const Created: int := 201
  const BadRequest: int := 400
  const NotFoundStatus: int := 404
  const InternalError: int := 500

  /** The framework's default error handler answers an error passed on by
      middleware or thrown by a handler with its error page. The status is the
      one the handler had already set if that lies in 400-599, else 500. */
  const ErrorResponse: Response := Response(InternalError, ErrorPage)

  // ---------------------------------------------------------------------------
  // CORS origin policy

  const AcceptedOrigins: seq<string> :=
    ["http://localhost:8000", "http://localhost:8080", "http://web.com", "http://web2.com", "http://google.com"]

  /** `Array.prototype.includes` on a list of strings; an absent value is never included. */
  function Includes(list: seq<string>, x: Option<string>): (r: bool)
    ensures r <==> x.Some? && x.value in list
  {
    if list == [] then false
    else x == Some(list[0]) || Includes(list[1..], x)
  }

  /** The origin callback of the CORS middleware: a listed origin is accepted,
      and so is a request without an origin header (or with an empty one). */
  function OriginAllowed(origin: Option<string>): (r: bool)
    ensures r <==>
      || origin == None
      || origin == Some("")
      || origin.value in {"http://localhost:8000", "http://localhost:8080", "http://web.com",
                          "http://web2.com", "http://google.com"}
  {
    if Includes(AcceptedOrigins, origin) then true
    else if origin.None? || origin.value == "" then true
    else false
  }

  // ---------------------------------------------------------------------------
  // Queries over the collection

  /** Whether some genre of `m` equals `query` ignoring ASCII case. */
  predicate HasGenre(m: Movie, query: string)
  {
    exists i :: 0 <= i < |m.genre| && ToLower(m.genre[i]) == ToLower(query)
  }

  /** The genre filter of the list route. */
  function FilterByGenre(movies: seq<Movie>, query: string): (r: seq<Movie>)
    ensures |r| <= |movies|
    ensures forall m :: m in r <==> m in movies && HasGenre(m, query)
  {
    if movies == [] then []
    else
      var rest := FilterByGenre(movies[1..], query);
      if HasGenre(movies[0], query) then [movies[0]] + rest else rest
  }

  function Min(a: int, b: int): int
  {
    if a <= b then a else b
  }

  /** `Array.prototype.slice` for non-negative bounds: the run of `s` from index
      `start` up to `end`, cut off at the end of `s`. */
  function Slice(s: seq<Movie>, start: nat, end: nat): (r: seq<Movie>)
    ensures |r| == if start < end && start < |s| then Min(end, |s|) - start else 0
    ensures forall i :: 0 <= i < |r| ==> r[i] == s[start + i]
  {
    var from := Min(start, |s|);
    var to := Min(end, |s|);
    if to <= from then [] else s[from..to]
  }

  /** A page number of the list route. The source reads it from the query string;
      the model admits only positive integers. */
  type PageNumber = p: int | p >= 1 witness 1

  const PageSize: nat := 5

  /** The page window of the list route. The source tests `page === 1`, which
      compares the query string with a number; that special case is kept here and
      gives the same window as the general arithmetic. */
  function Page(movies: seq<Movie>, p: PageNumber): (r: seq<Movie>)
    ensures r == movies[Min((p - 1) * PageSize, |movies|)..Min(p * PageSize, |movies|)]
  {
    var start := if p == 1 then 0 else p * PageSize - PageSize;
    var end := if p == 1 then PageSize else p * PageSize;
    Slice(movies, start, end)
  }

  /** `i` is the index of the first record with this id. */
  predicate FirstMatch(movies: seq<Movie>, id: string, i: int)
  {
    && 0 <= i < |movies|
    && movies[i].id == id
    && forall j :: 0 <= j < i ==> movies[j].id != id
  }

  predicate HasId(movies: seq<Movie>, id: string)
  {
    exists i :: 0 <= i < |movies| && movies[i].id == id
  }

  /** No two records share an id. */
  predicate UniqueIds(movies: seq<Movie>)
  {
    forall i, j :: 0 <= i < j < |movies| ==> movies[i].id != movies[j].id
  }

  /** `Array.prototype.findIndex` on the id, with None for -1. */
  function FindIndex(movies: seq<Movie>, id: string): (r: Option<nat>)
    ensures r.Some? ==> FirstMatch(movies, id, r.value)
    ensures r.None? <==> !HasId(movies, id)
  {
    if movies == [] then None
    else if movies[0].id == id then Some(0)
    else
      match FindIndex(movies[1..], id)
      case None => None
      case Some(k) => Some(k + 1)
  }

  // ---------------------------------------------------------------------------
  // Records and partial updates

  function FromDraft(id: string, d: Draft): Movie
  {
    Movie(id, d.title, d.year, d.direction, d.duration, d.rate, d.poster, d.genre)
  }

  /** The seven schema fields of a record, without its id. */
  function DraftOf(m: Movie): Draft
  {
    Draft(m.title, m.year, m.direction, m.duration, m.rate, m.poster, m.genre)
  }

  /** The shallow merge `{...m, ...changes}`. The changes carry schema fields
      only, so the id can never be overwritten. */
  function Apply(m: Movie, c: Changes): (r: Movie)
    ensures r.id == m.id
    ensures forall f :: f in AllFields ==>
      FieldJson(DraftOf(r), f) == if ChangeJson(c, f).Some? then ChangeJson(c, f).value else FieldJson(DraftOf(m), f)
  {
    Movie(m.id,
      c.title.GetOr(m.title),
      c.year.GetOr(m.year),
      c.direction.GetOr(m.direction),
      c.duration.GetOr(m.duration),
      c.rate.GetOr(m.rate),
      c.poster.GetOr(m.poster),
      c.genre.GetOr(m.genre))
  }

  // ---------------------------------------------------------------------------
  // Route handlers: each returns the response and the next collection

  /** GET /movies: a non-empty genre query wins over a page query. */
  function List(movies: seq<Movie>, genre: Option<string>, page: Option<PageNumber>): (r: (Response, seq<Movie>))
    ensures r.1 == movies
    ensures r.0.status == Ok && r.0.body.Movies?
    ensures forall m :: m in r.0.body.items ==> m in movies
    ensures genre.Some? && genre.value != "" ==> r.0.body.items == FilterByGenre(movies, genre.value)
    ensures (genre.None? || genre.value == "") && page.Some? ==> r.0.body.items == Page(movies, page.value)
    ensures (genre.None? || genre.value == "") && page.None? ==> r.0.body.items == movies
  {
    var items :=
      if genre.Some? && genre.value != "" then FilterByGenre(movies, genre.value)
      else if page.Some? then Page(movies, page.value)
      else movies;
    (Response(Ok, Movies(items)), movies)
  }

  /** GET /movies/:id */
  function GetById(movies: seq<Movie>, id: string): (r: (Response, seq<Movie>))
    ensures r.1 == movies
    ensures r.0.status == Ok <==> HasId(movies, id)
    ensures r.0.status == Ok ==> exists i :: FirstMatch(movies, id, i) && r.0.body == One(movies[i])
    ensures r.0.status != Ok ==> r.0 == Response(NotFoundStatus, NotFound)
  {
    match FindIndex(movies, id)
    case Some(i) => (Response(Ok, One(movies[i])), movies)
    case None => (Response(NotFoundStatus, NotFound), movies)
  }

  /** POST /movies: full validation, then append a record under the fresh id. */
  function Create(movies: seq<Movie>, body: Json, freshId: string, isUrl: string -> bool): (r: (Response, seq<Movie>))
    ensures ValidateFull(body, isUrl).Failure? ==>
      r == (Response(BadRequest, Invalid(ValidateFull(body, isUrl).error)), movies)
    ensures ValidateFull(body, isUrl).Success? ==>
      && r.0.status == Created
      && |r.1| == |movies| + 1
      && r.1[..|movies|] == movies
      && r.0.body == One(r.1[|movies|])
      && r.1[|movies|].id == freshId
      && DraftOf(r.1[|movies|]) == ValidateFull(body, isUrl).value
  {
    match ValidateFull(body, isUrl)
    case Failure(e) => (Response(BadRequest, Invalid(e)), movies)
    case Success(d) =>
      var created := FromDraft(freshId, d);
      (Response(Created, One(created)), movies + [created])
  }

  /** PATCH /movies/:id: partial validation comes before the id lookup. */
  function Update(movies: seq<Movie>, id: string, body: Json, isUrl: string -> bool): (r: (Response, seq<Movie>))
    ensures ValidatePartial(body, isUrl).Failure? ==>
      r == (Response(BadRequest, Invalid(ValidatePartial(body, isUrl).error)), movies)
    ensures ValidatePartial(body, isUrl).Success? && !HasId(movies, id) ==>
      r == (Response(NotFoundStatus, NotFound), movies)
    ensures ValidatePartial(body, isUrl).Success? && HasId(movies, id) ==>
      exists i :: FirstMatch(movies, id, i)
        && |r.1| == |movies|
        && r.1[i] == Apply(movies[i], ValidatePartial(body, isUrl).value)
        && (forall j :: 0 <= j < |movies| && j != i ==> r.1[j] == movies[j])
        && r.0 == Response(Ok, One(r.1[i]))
  {
    match ValidatePartial(body, isUrl)
    case Failure(e) => (Response(BadRequest, Invalid(e)), movies)
    case Success(c) =>
      match FindIndex(movies, id)
      case None => (Response(NotFoundStatus, NotFound), movies)
      case Some(i) =>
        var updated := Apply(movies[i], c);
        (Response(Ok, One(updated)), movies[i := updated])
  }

  /**
   * PATCH /movies/:id as written. The rejection branch sets status 400 and then
   * calls `JSON.parce`, which is not a function, so an invalid body throws a
   * TypeError. The framework's error handler keeps the 400 already set but sends
   * its error page instead of the validation error. Valid bodies behave as in
   * `Update`.
   */
  function UpdateAsWritten(movies: seq<Movie>, id: string, body: Json, isUrl: string -> bool)
    : (r: (Response, seq<Movie>))
    ensures r.1 == Update(movies, id, body, isUrl).1
    ensures ValidatePartial(body, isUrl).Failure? ==> r.0 == Response(BadRequest, ErrorPage)
    ensures ValidatePartial(body, isUrl).Success? ==> r.0 == Update(movies, id, body, isUrl).0
  {
    if ValidatePartial(body, isUrl).Failure? then (Response(BadRequest, ErrorPage), movies)
    else Update(movies, id, body, isUrl)
  }

  /** DELETE /movies/:id, as the removal at api/app.js:110-119 intends it. */
  function Delete(movies: seq<Movie>, id: string): (r: (Response, seq<Movie>))
    ensures !HasId(movies, id) ==> r == (Response(NotFoundStatus, NotFound), movies)
    ensures HasId(movies, id) ==>
      && r.0 == Response(Ok, Deleted)
      && |r.1| == |movies| - 1
      && exists i :: FirstMatch(movies, id, i)
           && (forall k :: 0 <= k < i ==> r.1[k] == movies[k])
           && (forall k :: i <= k < |r.1| ==> r.1[k] == movies[k + 1])
  {
    match FindIndex(movies, id)
    case None => (Response(NotFoundStatus, NotFound), movies)
    case Some(i) => (Response(Ok, Deleted), movies[..i] + movies[i + 1..])
  }

  /**
   * DELETE /movies/:id as written. Before the removal, the handler evaluates the
   * origin allow-list, but that list is a local of the CORS callback and is not in
   * scope here, so the expression throws a ReferenceError. The framework answers
   * with its default 500 response, and nothing is ever removed.
   */
  function DeleteAsWritten(movies: seq<Movie>, id: string): (r: (Response, seq<Movie>))
    ensures r.1 == movies
    ensures r.0.status == InternalError
  {
    (ErrorResponse, movies)
  }

  // ---------------------------------------------------------------------------
  // The application: CORS middleware in front of the routes

  datatype Request =
    | ListMovies(genre: Option<string>, page: Option<PageNumber>)
    | GetMovie(id: string)
    | CreateMovie(body: Json)
    | UpdateMovie(id: string, body: Json)
    | DeleteMovie(id: string)

  /** One request through the app: a rejected origin never reaches a route. */
  function Handle(movies: seq<Movie>, origin: Option<string>, req: Request, freshId: string, isUrl: string -> bool)
    : (r: (Response, seq<Movie>))
    ensures !OriginAllowed(origin) ==> r == (ErrorResponse, movies)
    ensures req.ListMovies? || req.GetMovie? ==> r.1 == movies
    ensures OriginAllowed(origin) && req.ListMovies? ==> r == List(movies, req.genre, req.page)
    ensures OriginAllowed(origin) && req.GetMovie? ==> r == GetById(movies, req.id)
    ensures OriginAllowed(origin) && req.CreateMovie? ==> r == Create(movies, req.body, freshId, isUrl)
    ensures OriginAllowed(origin) && req.UpdateMovie? ==> r == Update(movies, req.id, req.body, isUrl)
    ensures OriginAllowed(origin) && req.DeleteMovie? ==> r == Delete(movies, req.id)
  {
    if !OriginAllowed(origin) then (ErrorResponse, movies)
    else
      match req
      case ListMovies(genre, page) => List(movies, genre, page)
      case GetMovie(id) => GetById(movies, id)
      case CreateMovie(body) => Create(movies, body, freshId, isUrl)
      case UpdateMovie(id, body) => Update(movies, id, body, isUrl)
      case DeleteMovie(id) => Delete(movies, id)
  }
}
