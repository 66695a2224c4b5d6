# Movie REST API — a Dafny model

This project models the core of a small Express application that serves CRUD
routes over an in-memory collection of movie records, gated by a zod schema.

- `wrappers.dfy` — `Option` and `Result`, for missing keys, failed lookups and
  validation failures reported as values.
- `text.dfy` — ASCII case mapping, standing in for `toLowerCase`.
- `schema.dfy` (module `MovieSchema`) — the movie schema of `schemas/movies.js`.
  A request body is a parsed JSON value (`Json`). `ValidateFull` and
  `ValidatePartial` return `Success` with the validated fields, or `Failure` with
  `NotAnObject` or the set of fields that are missing or break their rule.
  The field rules are:
  - `title` and `direction` are strings;
  - `year` is an integer in [1900, 2026];
  - `duration` is a positive integer;
  - `rate` is a number in [0, 10], with default 5;
  - `poster` is a string that passes the URL check;
  - `genre` is an array of names from the ten-genre enumeration.
- `app.dfy` (module `MovieApi`) — the route handlers of `api/app.js`. Each is a
  pure function from the collection (`seq<Movie>`) and a request to a
  `(Response, seq<Movie>)` pair. `Handle` puts the CORS origin check in front of
  the routes.
- `app_properties.dfy` (module `MovieApiProperties`) — lemmas that relate the
  routes to one another:
  - the genre filter's exactness, order and case-insensitivity;
  - the page windows;
  - create-then-get and delete-then-get;
  - id uniqueness as an invariant of every request.

Parameters standing for code outside the model:
- `freshId` is the value of `crypto.randomUUID()` at api/app.js:71.
- `isUrl` is zod's URL check at schemas/movies.js:12.

The model follows the code in these places:
- An empty `genre` array is accepted. The schema checks only each element, not the length.
- A rejected origin becomes an error passed to the framework. Its default
  handler answers 500 with its error page (`ErrorResponse`).
- Under partial validation an absent `rate` stays absent. In zod 3, which the
  schema's `invalid_type_error`/`required_error` parameters belong to,
  `.partial()` wraps the field's default in an optional that returns early on
  a missing value, so a patch never resets `rate` to 5. (Zod 4 would apply the
  default there.)

## Model

| member | source | states |
|---|---|---|
| MovieSchema.ValidateFull | schemas/movies.js:3-37 | fails with NotAnObject exactly for a non-object body; succeeds iff every field but `rate` is present and every present field meets its rule; on failure names exactly the missing or invalid fields; on success the record meets the year/duration/rate/URL/genre rules, carries the body's values for the six required fields, and carries the body's `rate` or 5 |
| MovieSchema.ValidatePartial | schemas/movies.js:39-41 | fails with NotAnObject exactly for a non-object body; succeeds iff every present schema field meets the same rule as under full validation; on failure names exactly the invalid present fields; on success supplies exactly the fields the body has, with the body's values |
| MovieSchema.Conforms | schemas/movies.js:4-32 | the rule a present field value must meet: strings for title and direction; an integer year in [1900, 2026]; a positive integer duration; a rate in [0, 10]; a poster string passing the URL check; an array of listed genre names |
| MovieSchema.ValidateFullRoundTrip | schemas/movies.js:3-33 | every record meeting the field rules, sent as JSON, validates back to itself |
| MovieSchema.EmptyGenreListAccepted | schemas/movies.js:15-32 | a record with an empty genre list passes full validation |
| MovieSchema.MissingRateDefaults | schemas/movies.js:11 | a valid body without `rate` validates with rate 5 |
| MovieSchema.MissingRequiredFieldFails | schemas/movies.js:4-32 | a body missing any field other than `rate` fails, and the error names that field |
| MovieSchema.ValidatePartialEmpty | schemas/movies.js:39-41 | partial validation accepts `{}` and supplies no field |
| MovieSchema.FullImpliesPartial | schemas/movies.js:35-41 | a body that passes full validation passes partial validation with the same values; `rate` is supplied only if the body had it |
| MovieSchema.UnknownKeysIgnored | schemas/movies.js:3-33 | adding a non-schema key such as `id` to a body changes neither validator's result |
| Text.ToLower | api/app.js:39 | lower-cases each ASCII capital and keeps every other character, preserving length |
| Text.ToLowerNormalizes | api/app.js:39 | the lower-cased string has no ASCII capital and differs only at capitals |
| Text.ToLowerIdempotent | api/app.js:39 | lower-casing twice equals lower-casing once |
| Text.ToLowerOfToUpper | api/app.js:39 | a string and its upper-cased form lower-case alike |
| MovieApi.Includes | api/app.js:21 | the list includes the origin iff the origin is present and is one of the list's elements |
| MovieApi.OriginAllowed | api/app.js:12-30 | an origin is accepted iff it is absent, empty, or one of the five listed origins |
| MovieApi.HasGenre | api/app.js:39 | a record matches a query when one of its genres equals the query after ASCII lower-casing of both |
| MovieApi.FilterByGenre | api/app.js:37-41 | keeps exactly the stored records having a genre equal to the query ignoring case, and never more records than stored |
| MovieApi.Slice | api/app.js:48 | the result is the run of the collection from `start`, cut at `end` and at the end of the collection |
| MovieApi.Page | api/app.js:44-49 | page p is `movies[min((p-1)*5, n) .. min(p*5, n)]`; the `page === 1` case gives the same window |
| MovieApi.FindIndex | api/app.js:88 | returns the index of the first record with the id, or None iff no record has it |
| MovieApi.Apply | api/app.js:94-97 | the merged record keeps the stored id; every supplied field replaces the stored one and every field not supplied is kept |
| MovieApi.List | api/app.js:35-52 | answers 200 and leaves the collection unchanged; a non-empty genre query gives the genre filter; otherwise a page gives that page's window; with neither, the whole collection |
| MovieApi.GetById | api/app.js:54-61 | answers 200 with the first record having the id iff one exists, else 404; never changes the collection |
| MovieApi.Create | api/app.js:63-78 | an invalid body gives 400 with the validation error and an unchanged collection; otherwise 201, and the collection grows by one record appended at the end; the earlier records are unchanged; the new record has the fresh id and the validated fields, and it is the record returned |
| MovieApi.Update | api/app.js:80-102 | an invalid body gives 400 whatever the id; an unknown id gives 404; in both cases the collection is unchanged; otherwise only the first matching index changes, to the stored record merged with the supplied fields, and that record is returned with 200 |
| MovieApi.UpdateAsWritten | api/app.js:83-85 | as written, an invalid body answers 400 with the framework's error page instead of the validation error; otherwise the answer is the same as `Update`; the collection is the same as after `Update` |
| MovieApi.Delete | api/app.js:110-119 | an unknown id gives 404 with the collection unchanged; otherwise 200, the length drops by one and the first matching record is cut out with the others kept in order |
| MovieApi.DeleteAsWritten | api/app.js:104-109 | as written, every delete answers 500 and leaves the collection unchanged |
| MovieApi.Handle | api/app.js:10-32 | a rejected origin gets the error response and never reaches a route; an accepted origin gets exactly the answer of the route its request names; list and get never change the collection |
| MovieApiProperties.FilterByGenreCounts | api/app.js:37-41 | each record occurs in the filtered list as often as in the collection if it matches the query, else not at all |
| MovieApiProperties.FilterByGenreAppend | api/app.js:37-41 | filtering a concatenation concatenates the filtered parts, so the original order is kept |
| MovieApiProperties.FilterByGenreCaseInsensitive | api/app.js:39 | two queries that lower-case alike select the same records |
| MovieApiProperties.GenreQueryCaseIrrelevant | api/app.js:39 | upper- or lower-casing the query leaves the result unchanged |
| MovieApiProperties.GenreQueryExample | api/app.js:37-41 | `?genre=drama` and `?genre=Drama` answer alike |
| MovieApiProperties.PageWindows | api/app.js:44-49 | a page has at most 5 records; page 1 is the first min(5, n); a page starting at or past n is empty; pages p and p+1 together are the adjacent window `[(p-1)*5, (p+1)*5)` |
| MovieApiProperties.FirstPageExample | api/app.js:44-51 | `?page=1` equals the first five records of the unfiltered listing |
| MovieApiProperties.ListPrecedence | api/app.js:37-51 | a non-empty genre query wins over the page; an empty genre counts as absent; with neither the whole collection is returned |
| MovieApiProperties.CreatePreservesUniqueIds | api/app.js:70-75 | with a fresh id, create keeps all ids distinct |
| MovieApiProperties.UpdatePreservesUniqueIds | api/app.js:94-99 | patching keeps all ids distinct |
| MovieApiProperties.DeletePreservesUniqueIds | api/app.js:110-117 | deleting keeps all ids distinct |
| MovieApiProperties.HandlePreservesUniqueIds | api/app.js:35-120 | every request keeps all ids distinct, given a fresh id for a create |
| MovieApiProperties.CreateThenGet | api/app.js:54-77 | after a successful create, get by the fresh id answers 200 with the created record, which is the validated payload under that id |
| MovieApiProperties.CreateIgnoresClientId | api/app.js:70-73 | a client-supplied `id` in a create body changes nothing |
| MovieApiProperties.DeleteThenGetNotFound | api/app.js:110-119 | with distinct ids, after a delete the id is no longer found |
| MovieApiProperties.DeleteRemovesFirstMatch | api/app.js:111-117 | the collection after a delete is the old one minus exactly one copy of the first matching record |
| MovieApiProperties.SpliceMultiset | api/app.js:117 | splicing out index i leaves the old collection minus one copy of its element at i |
| MovieApiProperties.UpdateFields | api/app.js:94-99 | after a successful patch, each field the body supplies holds the body's value and every other field keeps the stored value |
| MovieApiProperties.UpdateRateOnly | api/app.js:94-99 | patching `{"rate": 9}` onto an existing record changes its rate only |
| MovieApiProperties.UpdateWithFullBody | api/app.js:80-99 | patching with a fully valid body that has a rate replaces every field but the id |
| MovieApiProperties.OriginPolicy | api/app.js:12-29 | no origin and a listed origin pass; an unlisted origin gets the error response and the collection is untouched |
| MovieApiProperties.DeleteAsWrittenNeverRemoves | api/app.js:104-119 | as written, deleting an existing id answers 500 and keeps it; the intended removal shrinks the collection by one |
| MovieApiProperties.UpdateAsWrittenLosesError | api/app.js:80-85 | as written, an invalid patch body gets 400 with the error page, where the intended answer is 400 with the validation error; the collection is unchanged either way |
| MovieApiProperties.UpdateAsWrittenCounterexample | api/app.js:83-85 | a patch body `{"year": "1999"}` gets the error page as written, and the validation error naming `year` as intended, both with 400 |

## Findings

| source | as written | input that shows it | evidently intended | confidence | as-written member | corrected member |
|---|---|---|---|---|---|---|
| api/app.js:107 | the delete handler reads `ACCEPTED_ORIGINS`. That name is a local of the CORS callback at line 13, so reading it throws a ReferenceError before any removal | `DELETE /movies/:id` with the id of a stored record | remove the first matching record and answer 200 | high; not executed | MovieApi.DeleteAsWritten, MovieApiProperties.DeleteAsWrittenNeverRemoves | MovieApi.Delete, MovieApiProperties.DeleteThenGetNotFound |
| api/app.js:84 | the rejection branch sets 400, then calls `JSON.parce`, which is not a function. The TypeError reaches the framework's error handler, which keeps the 400 but sends its error page, so the client never sees the validation error | `PATCH /movies/:id` with body `{"year": "1999"}` | answer 400 with the validation error | high; not executed | MovieApi.UpdateAsWritten, MovieApiProperties.UpdateAsWrittenCounterexample | MovieApi.Update, MovieApiProperties.UpdateAsWrittenLosesError |

`Handle` routes to the corrected `Update` and `Delete`.

## Left out

- Express plumbing: JSON body parsing, header access, `res.json`/`res.status`, the `PORT` read and server start. A response is a status and an abstract body.
- Error message texts. A 400 carries the validation error value, not zod's message.
- `crypto.randomUUID()`: the fresh id is a parameter. Create does not need it to be fresh. The lemmas about id uniqueness and create-then-get require it.
- zod's URL check: a parameter `isUrl`, because its definition is library code.
- Unicode case mapping: `toLowerCase` is modelled on ASCII letters only.
- MovieSchema.Conforms: a JSON number is modelled as the exact real it denotes, not with JavaScript number semantics. `JSON.parse` instead rounds it to a double, so the model differs at the edges: `1e400` parses to Infinity, which fails the integer check, but the model accepts it as a duration; `10.00000000000000001` rounds to 10, which passes the rate bound, but the model rejects it. No float arithmetic is modelled.
- The seed file `movies.json`: the initial collection is arbitrary.
- Query-string coercion: `page` is a positive integer (`PageNumber`). Non-numeric, zero or negative pages, which hit `slice`'s NaN and negative-index behaviour, are not modelled, and neither is a repeated (array-valued) query parameter.
- The CORS response headers set inside the delete and OPTIONS handlers (api/app.js:105-109, 122-131). The OPTIONS route is answered by the CORS middleware's own preflight handling before it is reached. The delete handler's header code is modelled only as the failure it causes (see Findings).
- Extra fields a seed record may carry beyond the eight of `Movie`.
