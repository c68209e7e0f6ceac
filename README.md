# Pawsitive: a verified model of its request gate and page state machines

Pawsitive is a pet-adoption web application. Shelters list pets, and adopters
describe their lifestyle and then swipe through ranked matches, applying for the
pets they like. Identity, storage, embeddings, similarity ranking and text
generation all live in hosted services. This model covers the decision rules
and page state that the repository's own code contributes:

- **Backend request gate** (`backend.dfy`, module `Backend`). This is the
  `get_current_user` dependency. It checks the bearer header, then the token's
  issuer, then its email confirmation, and returns the payload or a fixed
  status and detail. On top of the gate sit three more rules:
  - the shelter-only rule of `POST /pets` and the row it inserts;
  - the "Set lifestyle first" precondition of `GET /matches`, with its default
    limit of 10;
  - the 1536-zero embedding for blank text.
- **Swipe page** (`swipe.dfy`, module `Swipe`). The class `SwipePage` holds
  `pets`, `currentIndex`, `loading` and `error`. Its transitions are:
  - the guarded fetch on mount (`Load`);
  - skip (`NextPet`);
  - apply (`Apply`).

  `SelectScreen` is the render priority. It chooses loading, then error, then
  the empty state, then the card, and it only shows a card that is in bounds.
- **Shelter page** (`shelter.dfy`, module `Shelter`). The class `ShelterPage`
  holds the four-field form and the message line. It has per-field edits and
  `AddPet`. The message's colour is decided by whether it mentions "Error".
- **Login page** (`login.dfy`, module `Login`). It covers the role-to-route
  choice, the redirect of an already-confirmed user, and the signup/login
  handler with the mode toggle.
- **Dashboard layout** (`dashboard.dfy`, module `Dashboard`). A pure map from
  `(user, loading)` to the effect's alerts and redirects and to what is
  rendered.

Shared pieces:

- `text.dfy` (`Text`): Python's `str.split(" ")`, substring search, decimal
  rendering of a status code and Python's `str.strip()`, each with its
  inverse or characterisation.
- `values.dfy` (`Values`): JSON values, with Python's and JavaScript's
  truthiness and Python's `in`.
- `api.dfy` (`Api`): the request bodies, requests and fetch outcomes shared by
  pages and backend.
- `session.dfy` (`Session`): the user record and the page effects (alerts and
  route changes).
- `wrappers.dfy` (`Wrappers`): `Option`.

The outside world is modelled as inputs:

- The decoding of the token (`jwt.decode`) is a function
  `decode: string -> Decoding`. A `Decoding` is a payload, JWTError, or any
  other exception the library raises.
- The embedding provider is a function `provider: string -> seq<real>`.
- The database tables are fields of a `Database` object.
- Every page's `fetch` is given its outcome: `Ok(body)`, `HttpError(status, text)`,
  or `Thrown(message)` when `fetch` or `res.json()` threw.
- The session's `user` is an input of each page.
- The access `token` is a separate `Option<string>` input. The auth context in
  `frontend/src/app/layout.tsx:9-10` provides only `user`, `loading` and
  `logout`, so the pages' `token` is never derived from the session.

Uncaught Python exceptions in the backend are modelled as `Crash(name)`, which
FastAPI answers with 500. The model raises these from the backend's own code
(calls to the embedding provider and the database are assumed to return; see
"Left out"):

- `in` on an issuer that is not a container (TypeError);
- `.get` on an `app_metadata` that is not a dict (AttributeError);
- a missing `sub` (KeyError);
- `.single()` with no profile row (APIError).

## Model

| member | source | states |
|---|---|---|
| Backend.BearerToken | backend/main.py:67 | The token is the text after "Bearer " up to the next space or the end: it has no space, the header continues with it, and a space or the end follows it, so "Bearer " alone gives the empty token. |
| Backend.BearerRoundTrip | backend/main.py:64-67 | A header built as "Bearer " + token with a space-free token passes the prefix check and yields exactly that token. |
| Backend.CheckClaims | backend/main.py:74-81 | Accepts iff the issuer is truthy and contains "supabase" and `email_confirmed_at` is truthy, and then returns the payload unchanged. A bad issuer gives 401 "Invalid token issuer" whatever the email. A valid issuer with an unconfirmed email gives 403 "Email not verified". A truthy non-container issuer crashes, and the exception is TypeError. |
| Backend.GetCurrentUser | backend/main.py:63-84 | A missing header, an empty header or one without the "Bearer " prefix gives 401 "Not authenticated", independent of the decoder. Only JWTError gives 401 "Invalid token". Any other exception from the decoder escapes unchanged as a crash (a 500). A decoded payload gives exactly the claim checks' outcome, so the 401 "Invalid token issuer", the 403 and the TypeError crash pass through the narrow `except`. Acceptance holds iff the decoded payload passes both claim checks, and the result is the decoded payload. Raised statuses are only 401 or 403, and 403 only with "Email not verified" after a valid issuer. |
| Backend.KeylessGateAcceptsNobody | backend/main.py:64-72 | With `jwt.decode` called without its required key, every request past the prefix check crashes with TypeError, and no request is ever accepted. |
| Backend.GenerateEmbedding | backend/main.py:87-94 | Blank text (empty or whitespace only) gives exactly 1536 zeros, independent of the provider. Other text gives the provider's vector. |
| Backend.IsShelter | backend/main.py:109 | True iff `app_metadata` is a dict whose `user_type` is "shelter". A missing `app_metadata` is not a shelter. A non-dict `app_metadata` raises AttributeError. |
| Backend.Database.CreatePet | backend/main.py:107-122 | A gate refusal or crash propagates unchanged. A non-shelter gets 403 "Only shelters can add pets". A non-dict `app_metadata` crashes with AttributeError, and a shelter token without `sub` crashes with KeyError. Success holds iff the gate accepts, the caller is a shelter and `sub` exists. The new row has `shelter_id = sub`, the four form fields, the traits embedding and status "available", and it is appended. On every failure the table is unchanged. |
| Backend.Database.GetMatches | backend/main.py:124-134 | A gate refusal or crash propagates unchanged. A missing `sub` crashes with KeyError, and a missing profile row with APIError. 400 "Set lifestyle first" is returned iff the stored vector is falsy. Success holds iff the gate accepts, `sub` exists, its profile row exists and the stored vector is truthy. The query then carries that vector and the limit, 10 by default. |
| Text.Split | backend/main.py:67 | `str.split(sep)`: always at least one piece, and no piece contains the separator. |
| Text.JoinSplit | backend/main.py:67 | Joining the pieces of a split with the separator gives back the original string. |
| Text.SplitJoin | backend/main.py:67 | Splitting a join of separator-free pieces gives back the pieces. |
| Text.FirstPiece | backend/main.py:67 | The first piece is a prefix of the string, followed by the separator or by the end. |
| Text.Contains | backend/main.py:75 | Substring search is true iff the needle occurs at some position of the text. |
| Text.AbsentFirstChar | frontend/src/app/shelter/page.tsx:52 | A text that lacks the needle's first character does not contain the needle. |
| Text.Decimal | frontend/src/app/swipe/page.tsx:38 | `${status}` renders a non-empty string of decimal digits without a leading zero. |
| Text.DecimalRoundTrip | frontend/src/app/swipe/page.tsx:38 | The rendered status reads back as the same number. |
| Text.BlankIffAllSpace | backend/main.py:88 | `not text.strip()` holds iff every character is Python whitespace. |
| Values.PyContains | backend/main.py:75 | Python `in` is substring search on a string, element equality on a list and key lookup on a dict. It raises TypeError exactly for None, booleans and numbers. |
| Swipe.BackendError | frontend/src/app/swipe/page.tsx:36-39 | The message is "Backend error {status}: {text}". It starts with "Backend error " and contains the decimal status and the body text. |
| Swipe.FetchErrorMessage | frontend/src/app/swipe/page.tsx:44-46 | A failed fetch always gives a non-empty error. A non-2xx response gives the backend-error text, A thrown Error gives its own message when that is non-empty, and "Failed to fetch matches — check console" when it is empty. |
| Swipe.SelectScreen | frontend/src/app/swipe/page.tsx:75-102 | Loading is shown iff loading. The error is shown iff not loading and the error is non-empty. The empty state is shown iff neither holds and the index is at least the number of pets. A card shows `pets[index]` with the index in bounds. |
| Swipe.SwipePage.constructor | frontend/src/app/swipe/page.tsx:11-14 | The page starts with no pets, index 0, loading and no error. |
| Swipe.SwipePage.Render | frontend/src/app/swipe/page.tsx:102 | The card shown is the pet at `currentIndex`, which is in bounds. |
| Swipe.SwipePage.Load | frontend/src/app/swipe/page.tsx:16-53 | No user gives "Not logged in — please log in again" and nothing is sent; the user is checked first. A user without a token gives "Missing access token — try logging out and back in" and nothing is sent. Otherwise one GET /matches is sent with the token. Success sets the pets and leaves the error alone. Failure keeps the pets and sets the fetch error. Loading ends false on every path, and a set error is never cleared. |
| Swipe.SwipePage.Apply | frontend/src/app/swipe/page.tsx:55-71 | With no pet at the index or no token, nothing is sent and nothing changes. Otherwise it POSTs the current pet's id and advances the index by exactly one, whatever the outcome. Only a thrown Error is announced as "Failed to apply", so a non-2xx answer is announced as submitted. |
| Swipe.SwipePage.NextPet | frontend/src/app/swipe/page.tsx:73 | Skip advances the index by exactly one and changes nothing else. |
| Shelter.FailureMessage | frontend/src/app/shelter/page.tsx:34-42 | The failure message is "Error: " + body text, or "Error: Error {status}" for an empty body, or "Error: " + the thrown message. It is always shown, in red. |
| Shelter.SuccessNoticeColour | frontend/src/app/shelter/page.tsx:39 | "Pet added successfully! 🐾" does not mention "Error", so its line is shown in green. |
| Shelter.MissingTokenNoticeColour | frontend/src/app/shelter/page.tsx:20 | The missing-token notice does not mention "Error", so its line is shown in green, the success colour. |
| Shelter.ShelterPage.constructor | frontend/src/app/shelter/page.tsx:10-16 | The form starts with four empty fields and an empty message. |
| Shelter.Line | frontend/src/app/shelter/page.tsx:51-55 | The message line is hidden iff the message is empty. A shown line carries the message, and it is red iff "Error" occurs somewhere in the message. |
| Shelter.ShelterPage.EditName | frontend/src/app/shelter/page.tsx:61 | Only `name` changes; the other fields are carried over. |
| Shelter.ShelterPage.EditSpecies | frontend/src/app/shelter/page.tsx:67 | Only `species` changes; the other fields are carried over. |
| Shelter.ShelterPage.EditDescription | frontend/src/app/shelter/page.tsx:73 | Only `description` changes; the other fields are carried over. |
| Shelter.ShelterPage.EditTraits | frontend/src/app/shelter/page.tsx:81 | Only `traits_description` changes; the other fields are carried over. |
| Shelter.ShelterPage.AddPet | frontend/src/app/shelter/page.tsx:18-45 | Without a token the message is "Not authenticated — please log out and back in", nothing is sent and the form is kept. Otherwise the request body is exactly the current form. Success shows "Pet added successfully! 🐾" and clears all four fields. Any failure shows the failure message and keeps the form. |
| Login.RouteFor | frontend/src/app/login/page.tsx:38-39 | The route is "/shelter" iff `user_type` is the string "shelter"; otherwise it is "/adopter", including for a falsy value. |
| Login.UserRoute | frontend/src/app/login/page.tsx:48-49 | A user's landing page is "/shelter" or "/adopter", and it is "/shelter" iff their metadata's `user_type` is "shelter". |
| Login.RoleName | frontend/src/app/login/page.tsx:82-83 | The `user_type` sent at signup is "adopter" or "shelter", and it routes a user of that role to the role's own page. |
| Login.PageView | frontend/src/app/login/page.tsx:47-51 | The page redirects iff a user is present and confirmed, and then to that user's landing page, rendering nothing. |
| Login.LoginPage.constructor | frontend/src/app/login/page.tsx:9-12 | The form starts empty, in signup mode, with the adopter role. |
| Login.LoginPage.SetEmail | frontend/src/app/login/page.tsx:65 | Sets the email field. |
| Login.LoginPage.SetPassword | frontend/src/app/login/page.tsx:73 | Sets the password field. |
| Login.LoginPage.SetUserType | frontend/src/app/login/page.tsx:79 | Sets the selected role. |
| Login.LoginPage.ToggleMode | frontend/src/app/login/page.tsx:95 | Flips between signup and login mode. |
| Login.LoginPage.HandleSubmit | frontend/src/app/login/page.tsx:16-44 | Signup sends the chosen role as `user_type`. A provider error is alerted verbatim in both modes. It navigates iff in login mode, successful, and the returned user is confirmed, and then by the user's role. Signup success alerts the confirmation notice. A login without a confirmed user alerts "Please confirm your email first!". |
| Dashboard.Guard | frontend/src/app/dashboard/layout.tsx:10-20 | While loading: the placeholder and no effect. Otherwise children are always rendered. There are effects iff no confirmed user is present, and they always end with a redirect to /login. The "Please verify your email first" alert appears iff a user is present but unconfirmed. There are at most two effects, each that alert or that redirect. A missing user gets exactly one redirect to /login. An unconfirmed user gets exactly the alert and then that redirect. |

## Left out

- Backend.Database.CreatePet: a failure of the embedding call or of the
  `pets` insert (`execute()` raising, which FastAPI answers with 500) is not
  modelled. `provider` always returns a vector and the insert always
  succeeds, so the success condition assumes both calls return.
- Backend.Database.GetMatches: a database error from the profile select,
  other than the missing row (`Crash("APIError")`), is not modelled. The
  success condition assumes the select returns.
- Backend.GenerateEmbedding: an exception from the OpenAI call (network,
  quota, bad key) is not modelled. `provider` is a total function.

- The `profile/lifestyle` and `applications` endpoints, and the prompt-building
  endpoints `compatibility-report`, `chat`, `care-roadmap` and
  `shelter/analytics`. They store a row or build a prompt for a hosted language
  model with no decision of their own besides the shared gate.
  `shelter/analytics` returns a constant floating-point match rate.
- `match_pets` itself (similarity ranking in the database) and what
  `GET /matches` returns. `Backend.Database.GetMatches` stops at the query it
  would run.
- The JWKS download and its one-hour cache, `backend/deps.py`,
  `backend/embeddings.py` and the constant routers under `backend/routers/`.
  These are network calls, an environment check at import, or constant
  responses.
- The decoding library. `jwt.decode` is an input. Line 72 of `backend/main.py`
  calls it without the `key` argument, which python-jose's `jwt.decode`
  requires. That call raises TypeError, which `except JWTError` does not
  catch. So as written, every request past the prefix check gets a 500 and the
  claim checks are never reached (`Backend.KeylessGateAcceptsNobody`).
  `Backend.GetCurrentUser` takes any decoder, so that the claim checks are
  modelled as they would run with a decoder that returns a payload. Signature
  and expiry checks belong to the decoder.
- FastAPI's own request validation, that is the 422 answers for a malformed
  body or query parameter. The model takes well-formed `PetCreate` bodies and
  an optional integer `limit`.
- JSON numbers are reals, so NaN and the distinction between integers and
  floats are not modelled.
- The client sends `pet_id` to `/applications` in a JSON body. The
  `apply_to_pet` endpoint reads `pet_id` as a query parameter. That endpoint is
  not part of this model. `Swipe.SwipePage.Apply` models only what the page
  sends and announces.
- The session lifecycle in `frontend/src/app/layout.tsx` (the subscription and
  the initial session fetch racing to set `user`/`loading`, and logout).
  `frontend/src/lib/useAuthGuard.ts`, `frontend/src/app/dashboard/page.tsx` and
  `frontend/src/app/adopter/page.tsx` are not part of this model either. The
  session is an input, and the guard predicate appears in `Dashboard.Guard`.
- Rendering details: JSX, CSS, the similarity percentage
  (floating-point formatting) and console logging.
- Asynchrony: state updates after unmount, effects re-running when `user` or
  `token` change, and double clicks while a request is in flight. Each model
  method takes the outcome of its single request as an input and settles
  at once.
- `Swipe.SwipePage.Load`: a 2xx body that parses but is not an array of pets
  is not modelled. `Ok` carries the pets, and a body that fails to parse is a
  `Thrown` outcome.
- `Login.LoginPage.HandleSubmit`: the browser's `required` and `type="email"`
  validation that gates submission is not modelled. A user record without a
  `user_metadata` object is not modelled either (the login branch would throw
  there); metadata is always a map.
- The model follows the code as written in these points, where a reader might
  expect otherwise:
  - the auth context supplies no `token`;
  - a successful fetch does not reset the index;
  - the application body field is `pet_id`;
  - the missing-token notice on the shelter page does not contain "Error" and
    so is shown in the success colour.
