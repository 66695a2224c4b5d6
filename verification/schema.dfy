/**
 * The movie schema and its two validators (schemas/movies.js).
 *
 * The schema library's object parser is modelled by its observable behaviour on a
 * parsed JSON body: every schema field is checked and every failing field is
 * reported (failure is a returned value, never a thrown exception), keys outside
 * the schema are stripped from the output, and `rate` receives its default only
 * when it is absent under full validation. The library's URL check is a callee
 * we cannot see, so it is passed in as `isUrl`.
 */
module MovieSchema {
  import opened Wrappers

  /** A parsed JSON value. JSON has no NaN or infinities, so a real stands for a number. */
  datatype Json =
    | JNull
    | JBool(b: bool)
    | JNum(n: real)
    | JStr(s: string)
    | JArr(items: seq<Json>)
    | JObj(fields: map<string, Json>)

  /** The seven keys of the movie schema. */
  datatype Field = Title | Year | Direction | Duration | Rate | Poster | Genre

  const AllFields: set<Field> := {Title, Year, Direction, Duration, Rate, Poster, Genre}

  function Key(f: Field): string
  {
    match f
    case Title => "title"
    case Year => "year"
    case Direction => "direction"
    case Duration => "duration"
    case Rate => "rate"
    case Poster => "poster"
    case Genre => "genre"
  }

  predicate IsSchemaKey(k: string)
  {
    exists f :: f in AllFields && Key(f) == k
  }

  /** The closed genre enumeration; membership is case-sensitive. */
  const Genres: seq<string> :=
    ["Action", "Adventure", "Comedy", "Crime", "Drama",
     "Fantasy", "Horror", "Thriller", "Romance", "Sci-fi"]

  const MinYear: int := 1900
  const MaxYear: int := 2026
  const MinRate: real := 0.0
  const MaxRate: real := 10.0
  const DefaultRate: real := 5.0

  predicate IsInteger(n: real)
  {
    n.Floor as real == n
  }

  /** The rule a present value of field `f` must satisfy. */
  predicate Conforms(f: Field, v: Json, isUrl: string -> bool)
  {
    match f
    case Title => v.JStr?
    case Year => v.JNum? && IsInteger(v.n) && MinYear as real <= v.n <= MaxYear as real
    case Direction => v.JStr?
    case Duration => v.JNum? && IsInteger(v.n) && v.n > 0.0
    case Rate => v.JNum? && MinRate <= v.n <= MaxRate
    case Poster => v.JStr? && isUrl(v.s)
    case Genre => v.JArr? && forall i :: 0 <= i < |v.items| ==> v.items[i].JStr? && v.items[i].s in Genres
  }

  /** Whether field `f` of a body object draws an issue. Under `allOptional` (the
      partial schema) an absent field never does; otherwise every field but `rate`,
      which has a default, is required. */
  predicate Violates(obj: map<string, Json>, f: Field, isUrl: string -> bool, allOptional: bool)
  {
    if Key(f) in obj then !Conforms(f, obj[Key(f)], isUrl)
    else !allOptional && f != Rate
  }

  function Violations(obj: map<string, Json>, isUrl: string -> bool, allOptional: bool): set<Field>
  {
    set f | f in AllFields && Violates(obj, f, isUrl, allOptional)
  }

  /** A failed parse: the body is not an object at all, or these fields are missing or invalid. */
  datatype ValidationError = NotAnObject | FieldErrors(fields: set<Field>)

  /** The output of full validation: all seven schema fields. */
  datatype Draft = Draft(
    title: string,
    year: int,
    direction: string,
    duration: int,
    rate: real,
    poster: string,
    genre: seq<string>)

  /** The output of partial validation: only the schema fields the body supplied. */
  datatype Changes = Changes(
    title: Option<string>,
    year: Option<int>,
    direction: Option<string>,
    duration: Option<int>,
    rate: Option<real>,
    poster: Option<string>,
    genre: Option<seq<string>>)

  const NoChanges: Changes := Changes(None, None, None, None, None, None, None)

  /** The schema's field rules stated on typed values. */
  predicate WellFormed(d: Draft, isUrl: string -> bool)
  {
    && MinYear <= d.year <= MaxYear
    && d.duration > 0
    && MinRate <= d.rate <= MaxRate
    && isUrl(d.poster)
    && forall g :: g in d.genre ==> g in Genres
  }

  function Lookup(obj: map<string, Json>, k: string): Option<Json>
  {
    if k in obj then Some(obj[k]) else None
  }

  function StringValue(v: Json): string
  {
    if v.JStr? then v.s else ""
  }

  function GenreNames(items: seq<Json>): seq<string>
  {
    seq(|items|, i requires 0 <= i < |items| => StringValue(items[i]))
  }

  function GenreJson(genre: seq<string>): seq<Json>
  {
    seq(|genre|, i requires 0 <= i < |genre| => JStr(genre[i]))
  }

  /** The JSON form of one field of a validated record. */
  function FieldJson(d: Draft, f: Field): Json
  {
    match f
    case Title => JStr(d.title)
    case Year => JNum(d.year as real)
    case Direction => JStr(d.direction)
    case Duration => JNum(d.duration as real)
    case Rate => JNum(d.rate)
    case Poster => JStr(d.poster)
    case Genre => JArr(GenreJson(d.genre))
  }

  /** The JSON form of one field of a partial update, when it is supplied. */
  function ChangeJson(c: Changes, f: Field): Option<Json>
  {
    match f
    case Title => if c.title.Some? then Some(JStr(c.title.value)) else None
    case Year => if c.year.Some? then Some(JNum(c.year.value as real)) else None
    case Direction => if c.direction.Some? then Some(JStr(c.direction.value)) else None
    case Duration => if c.duration.Some? then Some(JNum(c.duration.value as real)) else None
    case Rate => if c.rate.Some? then Some(JNum(c.rate.value)) else None
    case Poster => if c.poster.Some? then Some(JStr(c.poster.value)) else None
    case Genre => if c.genre.Some? then Some(JArr(GenreJson(c.genre.value))) else None
  }

  /** The JSON body a client would send for a validated record. */
  function ToJson(d: Draft): Json
  {
    JObj(map[
      Key(Title) := FieldJson(d, Title),
      Key(Year) := FieldJson(d, Year),
      Key(Direction) := FieldJson(d, Direction),
      Key(Duration) := FieldJson(d, Duration),
      Key(Rate) := FieldJson(d, Rate),
      Key(Poster) := FieldJson(d, Poster),
      Key(Genre) := FieldJson(d, Genre)])
  }

  /** Full validation (`validateMovie`): every field but `rate` is required. */
  function ValidateFull(body: Json, isUrl: string -> bool): (r: Result<Draft, ValidationError>)
    ensures r == Failure(NotAnObject) <==> !body.JObj?
    ensures r.Success? <==> body.JObj? && forall f :: f in AllFields ==> !Violates(body.fields, f, isUrl, false)
    ensures body.JObj? && r.Failure? ==>
      && r.error.FieldErrors?
      && r.error.fields != {}
      && forall f :: f in AllFields ==>
           (f in r.error.fields <==>
              if Key(f) in body.fields then !Conforms(f, body.fields[Key(f)], isUrl) else f != Rate)
    ensures r.Success? ==> WellFormed(r.value, isUrl)
    ensures r.Success? ==>
      forall f :: f in AllFields && f != Rate ==> Lookup(body.fields, Key(f)) == Some(FieldJson(r.value, f))
    ensures r.Success? ==>
      if Key(Rate) in body.fields then body.fields[Key(Rate)] == JNum(r.value.rate)
      else r.value.rate == DefaultRate
  {
    if !body.JObj? then Failure(NotAnObject)
    else
      var obj := body.fields;
      var bad := Violations(obj, isUrl, false);
      if bad != {} then Failure(FieldErrors(bad))
      else
        assert forall f :: f in AllFields ==> !Violates(obj, f, isUrl, false) by {
          forall f | f in AllFields ensures !Violates(obj, f, isUrl, false) {
            assert f !in bad;
          }
        }
        assert Title in AllFields && Year in AllFields && Direction in AllFields && Duration in AllFields;
        assert Rate in AllFields && Poster in AllFields && Genre in AllFields;
        var d := Draft(
          obj[Key(Title)].s,
          obj[Key(Year)].n.Floor,
          obj[Key(Direction)].s,
          obj[Key(Duration)].n.Floor,
          if Key(Rate) in obj then obj[Key(Rate)].n else DefaultRate,
          obj[Key(Poster)].s,
          GenreNames(obj[Key(Genre)].items));
        assert obj[Key(Genre)].items == GenreJson(d.genre);
        Success(d)
  }

  /** Partial validation (`validatePartialMovie`): every field is optional, but a
      field that is present must satisfy the same rule as under full validation. */
  function ValidatePartial(body: Json, isUrl: string -> bool): (r: Result<Changes, ValidationError>)
    ensures r == Failure(NotAnObject) <==> !body.JObj?
    ensures r.Success? <==>
      body.JObj? && forall f :: f in AllFields && Key(f) in body.fields ==> Conforms(f, body.fields[Key(f)], isUrl)
    ensures body.JObj? && r.Failure? ==>
      && r.error.FieldErrors?
      && r.error.fields != {}
      && forall f :: f in AllFields ==>
           (f in r.error.fields <==> Key(f) in body.fields && !Conforms(f, body.fields[Key(f)], isUrl))
    ensures r.Success? ==> forall f :: f in AllFields ==> ChangeJson(r.value, f) == Lookup(body.fields, Key(f))
  {
    if !body.JObj? then Failure(NotAnObject)
    else
      var obj := body.fields;
      var bad := Violations(obj, isUrl, true);
      if bad != {} then Failure(FieldErrors(bad))
      else
        assert forall f :: f in AllFields ==> !Violates(obj, f, isUrl, true) by {
          forall f | f in AllFields ensures !Violates(obj, f, isUrl, true) {
            assert f !in bad;
          }
        }
        assert Title in AllFields && Year in AllFields && Direction in AllFields && Duration in AllFields;
        assert Rate in AllFields && Poster in AllFields && Genre in AllFields;
        var c := Changes(
          if Key(Title) in obj then Some(obj[Key(Title)].s) else None,
          if Key(Year) in obj then Some(obj[Key(Year)].n.Floor) else None,
          if Key(Direction) in obj then Some(obj[Key(Direction)].s) else None,
          if Key(Duration) in obj then Some(obj[Key(Duration)].n.Floor) else None,
          if Key(Rate) in obj then Some(obj[Key(Rate)].n) else None,
          if Key(Poster) in obj then Some(obj[Key(Poster)].s) else None,
          if Key(Genre) in obj then Some(GenreNames(obj[Key(Genre)].items)) else None);
        assert Key(Genre) in obj ==> obj[Key(Genre)].items == GenreJson(c.genre.value);
        Success(c)
  }

  /** Every well-formed record, sent as JSON, passes full validation unchanged. */
  lemma ValidateFullRoundTrip(d: Draft, isUrl: string -> bool)
    requires WellFormed(d, isUrl)
    ensures ValidateFull(ToJson(d), isUrl) == Success(d)
  {
    var obj := ToJson(d).fields;
    forall f | f in AllFields
      ensures !Violates(obj, f, isUrl, false)
    {
      assert Key(f) in obj && obj[Key(f)] == FieldJson(d, f);
    }
    var r := ValidateFull(ToJson(d), isUrl);
    assert r.Success?;
    assert Title in AllFields && Year in AllFields && Direction in AllFields && Duration in AllFields;
    assert Poster in AllFields && Genre in AllFields;
    assert GenreNames(GenreJson(d.genre)) == d.genre;
  }

  /** An empty genre list is accepted: the schema asks only that each element be
      a listed genre, not that there be one. */
  lemma EmptyGenreListAccepted(d: Draft, isUrl: string -> bool)
    requires WellFormed(d, isUrl)
    ensures ValidateFull(ToJson(d.(genre := [])), isUrl) == Success(d.(genre := []))
  {
  }

  /** A body without `rate` validates with the default rate. */
  lemma MissingRateDefaults(d: Draft, isUrl: string -> bool)
    requires WellFormed(d, isUrl)
    ensures ValidateFull(JObj(ToJson(d).fields - {Key(Rate)}), isUrl) == Success(d.(rate := DefaultRate))
  {
    var body := JObj(ToJson(d).fields - {Key(Rate)});
    forall f | f in AllFields
      ensures !Violates(body.fields, f, isUrl, false)
    {
      if f != Rate {
        assert Key(f) in body.fields && body.fields[Key(f)] == FieldJson(d, f);
      }
    }
    var r := ValidateFull(body, isUrl);
    assert r.Success?;
    assert Title in AllFields && Year in AllFields && Direction in AllFields && Duration in AllFields;
    assert Poster in AllFields && Genre in AllFields;
    assert GenreNames(GenreJson(d.genre)) == d.genre;
  }

  /** A body missing any field other than `rate` fails full validation, and the
      error names that field. */
  lemma MissingRequiredFieldFails(body: Json, f: Field, isUrl: string -> bool)
    requires body.JObj? && f in AllFields && f != Rate && Key(f) !in body.fields
    ensures ValidateFull(body, isUrl).Failure?
    ensures f in ValidateFull(body, isUrl).error.fields
  {
  }

  /** Partial validation accepts the empty object and reports no changes. */
  lemma ValidatePartialEmpty(isUrl: string -> bool)
    ensures ValidatePartial(JObj(map[]), isUrl) == Success(NoChanges)
  {
  }

  /** A body that passes full validation passes partial validation too, which
      yields the same fields; `rate` is supplied only if the body had it, since
      the default does not apply to a partial update. */
  lemma FullImpliesPartial(body: Json, isUrl: string -> bool)
    requires ValidateFull(body, isUrl).Success?
    ensures ValidatePartial(body, isUrl).Success?
    ensures
      var d := ValidateFull(body, isUrl).value;
      ValidatePartial(body, isUrl).value ==
        Changes(Some(d.title), Some(d.year), Some(d.direction), Some(d.duration),
                if Key(Rate) in body.fields then Some(d.rate) else None,
                Some(d.poster), Some(d.genre))
  {
  }

  /** Keys outside the schema, a client-supplied `id` among them, are stripped:
      adding one to a body changes neither validator's verdict nor its output. */
  lemma UnknownKeysIgnored(obj: map<string, Json>, k: string, v: Json, isUrl: string -> bool)
    requires !IsSchemaKey(k)
    ensures ValidateFull(JObj(obj[k := v]), isUrl) == ValidateFull(JObj(obj), isUrl)
    ensures ValidatePartial(JObj(obj[k := v]), isUrl) == ValidatePartial(JObj(obj), isUrl)
  {
    var obj' := obj[k := v];
    forall f | f in AllFields
      ensures Lookup(obj', Key(f)) == Lookup(obj, Key(f))
    {
      assert Key(f) != k;
    }
    assert Title in AllFields && Year in AllFields && Direction in AllFields && Duration in AllFields;
    assert Rate in AllFields && Poster in AllFields && Genre in AllFields;
    forall allOptional: bool
      ensures Violations(obj', isUrl, allOptional) == Violations(obj, isUrl, allOptional)
    {
    }
  }
}
