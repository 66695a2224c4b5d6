/** Properties relating the route handlers of api/app.js to one another. */
module MovieApiProperties {
  import opened Wrappers
  import opened Text
  import opened MovieSchema
  import opened MovieApi

  // ---------------------------------------------------------------------------
  // Genre filter

  /** The filter keeps every record with a matching genre as often as it occurs,
      and nothing else. */
  lemma {:induction false} FilterByGenreCounts(movies: seq<Movie>, query: string, m: Movie)
    ensures multiset(FilterByGenre(movies, query))[m] == if HasGenre(m, query) then multiset(movies)[m] else 0
  {
    if movies != [] {
      FilterByGenreCounts(movies[1..], query, m);
      assert movies == [movies[0]] + movies[1..];
    }
  }

  /** The filter keeps the original order: filtering a concatenation concatenates
      the filtered parts. */
  lemma {:induction false} FilterByGenreAppend(a: seq<Movie>, b: seq<Movie>, query: string)
    ensures FilterByGenre(a + b, query) == FilterByGenre(a, query) + FilterByGenre(b, query)
  {
    if a == [] {
      assert a + b == b;
    } else {
      assert (a + b)[1..] == a[1..] + b;
      FilterByGenreAppend(a[1..], b, query);
    }
  }

  /** Two queries that lower-case alike select the same records. */
  lemma {:induction false} FilterByGenreCaseInsensitive(movies: seq<Movie>, q1: string, q2: string)
    requires ToLower(q1) == ToLower(q2)
    ensures FilterByGenre(movies, q1) == FilterByGenre(movies, q2)
  {
    if movies != [] {
      FilterByGenreCaseInsensitive(movies[1..], q1, q2);
      assert HasGenre(movies[0], q1) == HasGenre(movies[0], q2);
    }
  }

  /** Upper- or lower-casing the query does not change the result. */
  lemma GenreQueryCaseIrrelevant(movies: seq<Movie>, query: string)
    ensures FilterByGenre(movies, ToUpper(query)) == FilterByGenre(movies, query)
    ensures FilterByGenre(movies, ToLower(query)) == FilterByGenre(movies, query)
  {
    ToLowerOfToUpper(query);
    FilterByGenreCaseInsensitive(movies, ToUpper(query), query);
    ToLowerIdempotent(query);
    FilterByGenreCaseInsensitive(movies, ToLower(query), query);
  }

  // ---------------------------------------------------------------------------
  // Pagination

  /** A page holds at most five records; page 1 is the first five; a page that
      starts past the end is empty; consecutive pages are adjacent windows. */
  lemma PageWindows(movies: seq<Movie>, p: PageNumber)
    ensures |Page(movies, p)| <= PageSize
    ensures Page(movies, 1) == movies[..Min(PageSize, |movies|)]
    ensures (p - 1) * PageSize >= |movies| ==> Page(movies, p) == []
    ensures Page(movies, p) + Page(movies, p + 1)
         == movies[Min((p - 1) * PageSize, |movies|)..Min((p + 1) * PageSize, |movies|)]
  {
  }

  // ---------------------------------------------------------------------------
  // List route

  /** A non-empty genre query takes precedence over the page; an empty one counts
      as absent; with neither, the whole collection is returned in order. */
  lemma ListPrecedence(movies: seq<Movie>, query: string, page: Option<PageNumber>)
    ensures query != "" ==> List(movies, Some(query), page).0.body.items == FilterByGenre(movies, query)
    ensures List(movies, Some(""), page) == List(movies, None, page)
    ensures List(movies, None, None).0.body.items == movies
  {
  }

  /** `?genre=drama` and `?genre=Drama` answer alike. */
  lemma GenreQueryExample(movies: seq<Movie>)
    ensures List(movies, Some("drama"), None) == List(movies, Some("Drama"), None)
  {
    var lower, upper := ToLower("drama"), ToLower("Drama");
    assert forall i :: 0 <= i < 5 ==> lower[i] == upper[i];
    FilterByGenreCaseInsensitive(movies, "drama", "Drama");
  }

  /** `?page=1` lists the first five records of the unfiltered listing. */
  lemma FirstPageExample(movies: seq<Movie>)
    ensures List(movies, None, Some(1)).0.body.items
         == List(movies, None, None).0.body.items[..Min(5, |movies|)]
  {
  }

  // ---------------------------------------------------------------------------
  // Id uniqueness is an invariant of the writing routes

  lemma CreatePreservesUniqueIds(movies: seq<Movie>, body: Json, freshId: string, isUrl: string -> bool)
    requires UniqueIds(movies) && !HasId(movies, freshId)
    ensures UniqueIds(Create(movies, body, freshId, isUrl).1)
  {
  }

  lemma UpdatePreservesUniqueIds(movies: seq<Movie>, id: string, body: Json, isUrl: string -> bool)
    requires UniqueIds(movies)
    ensures UniqueIds(Update(movies, id, body, isUrl).1)
  {
  }

  lemma DeletePreservesUniqueIds(movies: seq<Movie>, id: string)
    requires UniqueIds(movies)
    ensures UniqueIds(Delete(movies, id).1)
  {
  }

  /** Every request the app serves keeps the ids unique, given a fresh id for a create. */
  lemma HandlePreservesUniqueIds(movies: seq<Movie>, origin: Option<string>, req: Request, freshId: string,
                                 isUrl: string -> bool)
    requires UniqueIds(movies)
    requires req.CreateMovie? ==> !HasId(movies, freshId)
    ensures UniqueIds(Handle(movies, origin, req, freshId, isUrl).1)
  {
  }

  // ---------------------------------------------------------------------------
  // Round trips between routes

  /** After a successful create, fetching the fresh id returns the created record:
      the validated payload under that id. */
  lemma CreateThenGet(movies: seq<Movie>, body: Json, freshId: string, isUrl: string -> bool)
    requires !HasId(movies, freshId)
    requires ValidateFull(body, isUrl).Success?
    ensures
      var (created, after) := Create(movies, body, freshId, isUrl);
      GetById(after, freshId).0 == Response(Ok, created.body)
        && created.body.movie == FromDraft(freshId, ValidateFull(body, isUrl).value)
  {
  }

  /** A client-supplied `id` in a create body is dropped: the result is as if it
      had not been sent. */
  lemma CreateIgnoresClientId(movies: seq<Movie>, obj: map<string, Json>, clientId: Json, freshId: string,
                              isUrl: string -> bool)
    ensures Create(movies, JObj(obj["id" := clientId]), freshId, isUrl) == Create(movies, JObj(obj), freshId, isUrl)
  {
    assert !IsSchemaKey("id");
    UnknownKeysIgnored(obj, "id", clientId, isUrl);
  }

  /** Deleting an id from a collection with unique ids leaves nothing to fetch under it. */
  lemma DeleteThenGetNotFound(movies: seq<Movie>, id: string)
    requires UniqueIds(movies)
    ensures GetById(Delete(movies, id).1, id).0 == Response(NotFoundStatus, NotFound)
  {
  }

  /** Deleting removes exactly one occurrence of the first matching record. */
  lemma DeleteRemovesFirstMatch(movies: seq<Movie>, id: string)
    requires HasId(movies, id)
    ensures
      var i := FindIndex(movies, id).value;
      multiset(Delete(movies, id).1) + multiset{movies[i]} == multiset(movies)
  {
    var i := FindIndex(movies, id).value;
    assert Delete(movies, id).1 == movies[..i] + movies[i + 1..];
    SpliceMultiset(movies, i);
  }

  /** Splicing out one index removes one occurrence of its element. */
  lemma SpliceMultiset(s: seq<Movie>, i: nat)
    requires i < |s|
    ensures multiset(s[..i] + s[i + 1..]) + multiset{s[i]} == multiset(s)
  {
    assert s == s[..i] + [s[i]] + s[i + 1..];
  }

  /** A successful patch sets every field the body supplies to the body's value
      and keeps every other field of the stored record. */
  lemma UpdateFields(movies: seq<Movie>, id: string, body: Json, isUrl: string -> bool)
    requires HasId(movies, id) && ValidatePartial(body, isUrl).Success?
    ensures
      var i := FindIndex(movies, id).value;
      var after := Update(movies, id, body, isUrl).1;
      forall f :: f in AllFields ==>
        FieldJson(DraftOf(after[i]), f) ==
          if Key(f) in body.fields then body.fields[Key(f)] else FieldJson(DraftOf(movies[i]), f)
  {
    var i := FindIndex(movies, id).value;
    var c := ValidatePartial(body, isUrl).value;
    var after := Update(movies, id, body, isUrl).1;
    assert after[i] == Apply(movies[i], c);
    forall f | f in AllFields
      ensures FieldJson(DraftOf(after[i]), f) ==
        if Key(f) in body.fields then body.fields[Key(f)] else FieldJson(DraftOf(movies[i]), f)
    {
      assert ChangeJson(c, f) == Lookup(body.fields, Key(f));
    }
  }

  /** Patching `{"rate": 9}` onto an existing record changes its rate and nothing else. */
  lemma UpdateRateOnly(movies: seq<Movie>, id: string, isUrl: string -> bool)
    requires HasId(movies, id)
    ensures
      var i := FindIndex(movies, id).value;
      var after := Update(movies, id, JObj(map[Key(Rate) := JNum(9.0)]), isUrl).1;
      after == movies[i := movies[i].(rate := 9.0)]
  {
  }

  /** Patching with a body that passes full validation and carries a rate replaces
      every field but the id, giving the record a create with that body would make. */
  lemma UpdateWithFullBody(movies: seq<Movie>, id: string, body: Json, isUrl: string -> bool)
    requires HasId(movies, id)
    requires ValidateFull(body, isUrl).Success? && Key(Rate) in body.fields
    ensures
      var i := FindIndex(movies, id).value;
      Update(movies, id, body, isUrl).1[i] == FromDraft(movies[i].id, ValidateFull(body, isUrl).value)
  {
  }

  // ---------------------------------------------------------------------------
  // CORS

  /** The five listed origins and a missing origin pass; any other origin is
      answered with an error and leaves the collection alone. */
  lemma OriginPolicy(movies: seq<Movie>, req: Request, freshId: string, isUrl: string -> bool)
    ensures OriginAllowed(None) && OriginAllowed(Some("http://web2.com"))
    ensures !OriginAllowed(Some("http://evil.com"))
    ensures Handle(movies, Some("http://evil.com"), req, freshId, isUrl) == (ErrorResponse, movies)
  {
  }

  // ---------------------------------------------------------------------------
  // The delete route as written

  /** As written, deleting an existing id answers 500 and keeps the record, where
      the intended removal shrinks the collection by one. */
  lemma DeleteAsWrittenNeverRemoves(movies: seq<Movie>, id: string)
    requires HasId(movies, id)
    ensures DeleteAsWritten(movies, id).1 == movies
    ensures DeleteAsWritten(movies, id).0.status == InternalError
    ensures |Delete(movies, id).1| == |movies| - 1 && Delete(movies, id).0.status == Ok
  {
  }

  /** As written, an invalid patch body keeps status 400 but gets the framework's
      error page where the intended answer carries the validation error; the
      collection is unchanged either way. */
  lemma UpdateAsWrittenLosesError(movies: seq<Movie>, id: string, body: Json, isUrl: string -> bool)
    requires ValidatePartial(body, isUrl).Failure?
    ensures UpdateAsWritten(movies, id, body, isUrl) == (Response(BadRequest, ErrorPage), movies)
    ensures Update(movies, id, body, isUrl) ==
      (Response(BadRequest, Invalid(ValidatePartial(body, isUrl).error)), movies)
  {
  }

  /** A concrete input for the patch defect: a body whose `year` is a string. */
  lemma UpdateAsWrittenCounterexample(movies: seq<Movie>, id: string, isUrl: string -> bool)
    ensures UpdateAsWritten(movies, id, JObj(map[Key(Year) := JStr("1999")]), isUrl).0
         == Response(BadRequest, ErrorPage)
    ensures Update(movies, id, JObj(map[Key(Year) := JStr("1999")]), isUrl).0
         == Response(BadRequest, Invalid(FieldErrors({Year})))
  {
    var body := JObj(map[Key(Year) := JStr("1999")]);
    var e := ValidatePartial(body, isUrl).error;
    assert Year in e.fields;
    forall f | f in e.fields ensures f == Year {
      assert f in AllFields && Key(f) in body.fields;
    }
    assert e.fields == {Year};
  }
}
