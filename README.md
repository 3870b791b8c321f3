# Casting Agency: authorization gate and request handlers in Dafny

This project models the Casting Agency backend, a Flask service that keeps
movies and actors behind role-scoped JWT authorization, and proves
properties of that model.

- `auth.dfy` (module `Auth`) models `auth.py`. It parses the bearer
  header, checks the `permissions` claim, scans the JWKS `keys` list for the
  token's `kid` (the last match wins), maps the decode outcome to an
  `AuthError`, and composes extract, verify and check into the route guard.
- `app.dfy` (module `App`) models `app.py`. It covers field validation of
  POST bodies, the PATCH guards and field merge, DELETE, the two GET list
  loops, the error-handler table, `auth_error` rendering, and the dispatch
  of a request through the guard with each route's permission.
- `py_values.dfy` (module `PyValues`) models the Python behaviour the code
  relies on. That is decoded JSON values, truthiness, `==`, `in`,
  `str.split(' ')` and `str.lower()`.

Python exceptions are the `Raise` case of `Auth.Result`. These are
`AuthError`, `abort(status)`, `KeyError`, `TypeError` and python-jose's
header error. Flask's handling turns them into responses (`App.Respond`).
The database is the class `App.Store`, with one map from id to record per
table. The handlers reassign those maps. A failing commit (the blanket
`except: abort(422)`) is the `commitFails` parameter. The order of
`query.all()` is the `order` parameter of the GET handlers.

Some paths are modelled as the code is written, not as its comments intend:

- PATCH on a missing id evaluates `'Movie #' + id` with an integer `id`.
  That raises `TypeError`, so the result is not a 404.
- The second PATCH guard indexes `body['title']` (or `body['name']`)
  without checking for that key. A body that has `release-date` but no
  `title` (or `age` or `gender` but no `name`) raises `KeyError`, and once
  the guards pass, that field is always overwritten.
- POST bodies are indexed before validation. A missing field raises
  `KeyError` rather than reaching the 422 check.

## Model

| member | source | states |
|---|---|---|
| `PyValues.Contains` | auth.py:83 | `permission in claim`: list membership, substring for a string, key membership for a dict, TypeError for a number, a boolean or None |
| `PyValues.Split` | auth.py:42 | `split(' ')` always yields at least one piece |
| `PyValues.SplitJoin` | auth.py:42 | joining the pieces with the separator gives back the header |
| `PyValues.SplitPiecesSepFree` | auth.py:42 | no piece contains a space, so empty pieces mark doubled spaces |
| `PyValues.SplitCount` | auth.py:42 | the number of pieces is the number of spaces plus one |
| `PyValues.LowerSpaces` | auth.py:45 | lower-casing keeps the length and neither adds nor removes spaces |
| `PyValues.FalsyValues` | app.py:105 | `not x` holds exactly for None, False, 0, '', [] and {}, which is what the POST checks at app.py:105 and app.py:160 reject |
| `PyValues.PyEqReflexive` | auth.py:109 | the `kid` comparison `==` holds between a value and itself |
| `PyValues.PyEqSymmetric` | auth.py:109 | the `kid` comparison `==` gives the same answer with its sides swapped |
| `PyValues.PyEqStr` | auth.py:109 | a string `kid` equals exactly the identical string |
| `Auth.GetTokenAuthHeader` | auth.py:25-67 | no header gives `authorization_header_missing`/401; every failure is a 401 AuthError; a returned token has no space |
| `Auth.BearerHeaderExactly` | auth.py:42-67 | success with token t holds exactly when the header is a casing of "Bearer", one space and the space-free t |
| `Auth.RoundTrip` | auth.py:42-67 | for any casing of the scheme and any space-free t, `scheme + " " + t` yields t |
| `Auth.OutcomeBySpaceCount` | auth.py:52-67 | with a bearer first piece, zero spaces give "Token not found.", one gives the second piece, two or more give "must be bearer token" |
| `Auth.SchemeCheckedFirst` | auth.py:45-50 | a first piece that is not a casing of bearer fails `invalid_header`/401 "must start with Bearer", whatever the length |
| `Auth.EmptyHeaderIsNotBearer` | auth.py:42-50 | the empty header fails the scheme check, not a length check |
| `Auth.SchemeOnlyHasNoToken` | auth.py:52-57 | a header that is only the scheme fails "Token not found." |
| `Auth.TrailingSpaceGivesEmptyToken` | auth.py:42-67 | "Bearer " yields the empty token |
| `Auth.TwoSpacesRejected` | auth.py:59-64 | "Bearer a b" and "Bearer  t" fail `invalid_header`/401 |
| `Auth.CheckPermissions` | auth.py:69-91 | no claim gives `invalid_claims`/400; for a list claim, success holds exactly when the string is an element, else `unauthorized`/403; success returns true |
| `Auth.DefaultPermissionNeedsClaim` | auth.py:76-88 | the default permission `''` still fails with 400 without the claim; every list claim without `''` refuses it with 403; every string claim grants it |
| `Auth.Project` | auth.py:111-117 | the key built from a match has exactly kty, kid, use, n, e, copied from the entry; a missing field raises KeyError on that field |
| `Auth.SelectedKey` | auth.py:109-117 | the scan raises only a KeyError on a JWK field; a non-empty result has exactly the five JWK fields |
| `Auth.SelectedKeyOk` | auth.py:109-117 | the scan completes exactly when every entry has a kid and every matching entry has all five fields |
| `Auth.SelectedKeyEmpty` | auth.py:102-118 | after a complete scan, the key stays empty exactly when no entry's kid equals the token's |
| `Auth.SelectedKeyLastMatch` | auth.py:109-117 | the selected key is the projection of the last matching entry |
| `Auth.SelectedKeyFailureStays` | auth.py:109-117 | an exception on an entry ends the scan; later entries do not matter |
| `Auth.SelectedKeyFirstFault` | auth.py:109-117 | the first entry that raises decides the KeyError |
| `Auth.ScanKeys` | auth.py:102-117 | the `for` loop that reassigns `rsa_key` computes the selected key, or raises as the scan does |
| `Auth.DecodeResult` | auth.py:119-145 | a decoded payload is returned unchanged; every decode failure becomes an AuthError |
| `Auth.VerifyDecodeJwt` | auth.py:93-149 | an unparsable header raises the jose error; every AuthError it raises is 400 or 401 |
| `Auth.VerifyNeedsKid` | auth.py:103-107 | a header without kid fails `invalid_header`/401 |
| `Auth.VerifyUnknownKid` | auth.py:118-149 | no entry with the token's kid fails `invalid_header`/400 "Unable to find the appropriate key." |
| `Auth.VerifyDecodesWithLastMatch` | auth.py:109-145 | the token is decoded with the last match's key: expired is `token_expired`/401, a claims error is `invalid_claims`/401, any other failure is `invalid_header`/400 |
| `Auth.VerifiedPayloadComesFromProviderKey` | auth.py:101-128 | a verified payload is what the decoder returned under a JWKS entry with the token's kid |
| `Auth.Authorize` | auth.py:154-157 | extract, verify and check run in order; the first stage that raises gives the result, its exception unchanged; success holds exactly when the check grants, and returns the decoded payload |
| `Auth.RequiresAuth` | auth.py:151-161 | the handler runs only when all three stages succeed, and it gets the decoded payload; otherwise the stage's error is the result |
| `Auth.GuardWithoutHeader` | auth.py:155 | a request without the header fails 401 `authorization_header_missing`, and the handler does not run |
| `Auth.GuardRunsHandlerOnPayload` | auth.py:151-158 | a well-formed bearer request, decoded under the last matching key, whose claim lists the permission, runs the handler on exactly the decoded payload |
| `Auth.GuardRefusesMissingPermission` | auth.py:157 | a verified token whose list claim lacks the permission fails 403 "Permission not found." |
| `App.MovieEntryInjective` | app.py:44 | a movie's list entry has exactly the keys `id`, `title` and `release_date`, and two entries are equal exactly when their movies are |
| `App.ActorEntryInjective` | app.py:65 | an actor's list entry has exactly the keys `id`, `name`, `age` and `gender`, and two entries are equal exactly when their actors are |
| `App.RoutePermission` | app.py:36 | only the index route has no permission; every guarded route needs `method:table`, its lower-case HTTP method and its table (app.py:36, 57, 87, 140, 185, 239, 297, 331) |
| `App.PermissionIdentifiesRoute` | app.py:36-331 | two guarded routes need the same permission exactly when they share method and table |
| `App.ErrorHandler` | app.py:364-406 | handlers exist exactly for 400, 404, 405, 422, 500; each body has success false and error equal to the status |
| `App.ErrorMessages` | app.py:364-406 | the messages are "Not Processable", "Resource Not Found", "Bad Request", "Internal Server Error", "Method Not Allowed" |
| `App.HttpError` | app.py:364-406 | an abort's response carries its status and the body of the handler registered for it, which is an error body with that status; an unhandled status has no body of ours |
| `App.RenderAuthError` | app.py:408-414 | an AuthError renders with HTTP status equal to its status code and message equal to its description |
| `App.Respond` | app.py:364-414 | a returned body is 200; an AuthError goes to `auth_error`; `abort(status)` goes to that status's handler; other unhandled exceptions go to the 500 handler; every failure body is an error body |
| `App.NewMovieFields` | app.py:90-108 | validation passes exactly when `title` and `release-date` are present and truthy; present but falsy gives 422; a missing `title`, or else a missing `release-date`, raises KeyError on that key |
| `App.NewActorFields` | app.py:143-163 | validation passes exactly when `name`, `age` and `gender` are present and truthy; present but falsy gives 422; the first missing key, in the order name, age, gender, raises KeyError on that key |
| `App.CheckMoviePatch` | app.py:200-210 | neither key gives 422; both None gives 422; `release-date` alone raises KeyError on `title`; a None `title` alone raises KeyError on `release-date`; passing needs `title` plus one non-None value |
| `App.CheckActorPatch` | app.py:254-264 | none of the keys gives 422; all None gives 422; no `name` raises KeyError; a None `name` without `age`, or None `name` and `age` without `gender`, raises KeyError on the missing key; passing follows the short-circuit `and` |
| `App.Store.GetMovies` | app.py:38-50 | one `{id,title,release_date}` entry per stored movie, in query order, under `movies` with `success` true |
| `App.Store.GetActors` | app.py:59-71 | one `{id,name,age,gender}` entry per stored actor, in query order, wrapped in a one-element list under `actors` |
| `App.Store.AddMovie` | app.py:89-125 | a failed validation or commit inserts nothing; on success exactly one new movie is added under a fresh id and returned |
| `App.Store.AddActor` | app.py:142-180 | a failed validation or commit inserts nothing; on success exactly one new actor is added under a fresh id and returned |
| `App.Store.UpdateMovie` | app.py:187-234 | a missing id raises TypeError; a failed guard or commit changes nothing; on success only the fields whose keys are present are overwritten, and the id and all other records are unchanged |
| `App.Store.UpdateActor` | app.py:241-292 | a missing id raises TypeError; a failed guard or commit changes nothing; on success only the fields whose keys are present are overwritten, and the id and all other records are unchanged |
| `App.Store.DeleteMovie` | app.py:299-326 | a missing id aborts 404 with the store unchanged; on success `deleted` is the id and the id is gone |
| `App.Store.DeleteActor` | app.py:333-360 | a missing id aborts 404 with the store unchanged; on success `deleted` is the id and the id is gone |
| `App.Store.Serve` | app.py:26-360 | the index route answers 200 without the guard; any other route runs the guard with its permission first, and a guard failure is rendered as the AuthError with the store unchanged; the GET routes never change the store and answer 200 with success true once authorized; an authorized POST with falsy fields answers the 422 body, and an authorized DELETE of a missing id answers the 404 body, with the store unchanged |

## Left out

- The JWKS fetch (`urlopen` and `json.loads`). The model takes the `keys` list as input. A document without `keys`, or with entries that are not objects, is not modelled.
- `jwt.get_unverified_header` and `jwt.decode` (JWS signature verification and the `aud`, `iss` and `exp` checks of RFC 7519 section 4.1). Both are oracles in `Auth.Provider`. The configured algorithms, audience and issuer are folded into the decode oracle.
- Reading `AUTH0_DOMAIN`, `ALGORITHMS` and `API_AUDIENCE` from the environment. These are read-only configuration and reach the model only through the oracles.
- Header lookup. Werkzeug matches header names case-insensitively. The model takes the Authorization value as an `Option<string>`.
- `str.lower()` is modelled on ASCII letters only. No non-ASCII character lower-cases to a letter of "bearer", so the scheme comparison is unaffected.
- JSON floats. Numbers are integers, and Python's `True == 1` is modelled in `PyValues.PyEq`.
- Non-object request bodies (`request.get_json()` returning None or a list). Bodies are maps.
- `movie.format()` and `actor.format()`. models.py is not part of this model, so the records are rendered as the same dicts the GET loops build.
- SQLAlchemy. `query.get` is map lookup, `insert` adds under the next id, `update` and `delete` reassign the map. A failed commit leaves the store unchanged. Session state after a failed commit is not modelled.
- Flask routing. The 405 for unrouted methods, integer URL conversion, CORS headers (`after_request`) and the debug-mode propagation of unhandled exceptions are not modelled. `App.Respond` sends unhandled exceptions to the 500 handler, as Flask does outside debug mode.
- `App.Store.Serve`: once the guard lets a request through, its contract states only the GET, falsy-POST and missing-id DELETE outcomes. The other outcomes are stated by each handler's own contract and are not repeated.
- `test_app.py` is not modelled: it needs a live database and real tokens.
