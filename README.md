# Lunch recommendation backend, modelled in Dafny

This project models the core of a lunch-recommendation web backend. A
signed-in user submits a location, a mood, a food category, companions, a
budget and an atmosphere. The backend then runs a pipeline:

1. It geocodes the location through a language model.
2. It reads the current weather at those coordinates.
3. It finds one restaurant and one cafe through Google Places, with a
   model-written summary of each.
4. It stores the search, the resulting recommendation and an audit entry.

Users register and log in with a password and receive a signed token.
Admins can list every search and delete one, which also deletes its
recommendation.

The model has two parts.

- **The recommendation rules**, in `recommend.dfy`, are pure functions:
  - the WMO weather-code table and its fallback;
  - the category and budget tables, and the Places price-level tiers with
    their fallbacks;
  - the greedy `{ … }` extraction of JSON from a model reply;
  - the coordinate guard and the pick-reason template;
  - `realRecommend`, a sequential pipeline returning `Success` or
    `Failure(message)`.

  Every outside call is a field of `Services`: geocoding, parsing the
  coordinates, the weather, Places text search, Places details and the
  summarizer. Each is an uninterpreted function, so the contracts hold
  whatever those services answer.
- **The persistence and authorization state machine** has these parts:
  - `store.dfy` holds a `Database` class with the Users, Searches,
    Recommendations and AuditLog collections as sequences in insertion
    order, and one method per Mongoose write. Its invariant `Valid()`
    says three things: ids are unique and increase with insertion,
    emails are unique, and every Recommendation refers to a stored
    Search, with at most one per Search. It also says that a Search is
    `done` exactly when its Recommendation is stored.
  - `gate.dfy` holds the bearer-token middleware and the admin role gate.
  - The route handlers are in `auth_routes.dfy`, `search_routes.dfy` and
    `admin_routes.dfy`. Each state-changing route is a method that keeps
    `Valid()` and states the exact new state. Each read-only route is a
    function over the collections with lemmas about what it returns, except
    `SearchRoutes.ListSearches`, a method whose loops build the reply and
    are proved equal to the function `SearchRoutes.History`.

  Ids come from one counter, so "sort by `createdAt` descending" is
  reverse insertion order (`Models.Recent`).

bcrypt and JWT are the `Crypto` record of uninterpreted functions. The
only thing assumed of them is `Gate.Sound`: a password checks against its
own hash, and a freshly signed token is non-empty and verifies to its payload.

## Model

| member | source | states |
|---|---|---|
| Recommend.WeatherDescription | backend/src/services/recommendService.js:67-82 | every listed WMO code gets its fixed label; the result is '알 수 없음' exactly when the code is not listed; the result is never empty |
| Recommend.CategoryQuery | backend/src/services/recommendService.js:92-99 | the five listed categories get their fixed Places keywords; the result is 'restaurant' exactly when the category is not listed |
| Recommend.BudgetTier | backend/src/services/recommendService.js:102 | the budget tier is one to four won signs and nothing else |
| Recommend.BudgetTierMonotone | backend/src/services/recommendService.js:102 | a larger budget never gives a shorter tier |
| Recommend.LevelLabel | backend/src/services/recommendService.js:134-135 | the lookup is non-empty exactly for levels 0..4, and is then level+1 won signs |
| Recommend.RestaurantPrice | backend/src/services/recommendService.js:133-135 | a known level gives level+1 signs, otherwise the budget tier; always one to five signs |
| Recommend.RestaurantPriceIgnoresBudget | backend/src/services/recommendService.js:135 | with a known level the budget cannot change the price: the API value takes precedence |
| Recommend.CafePrice | backend/src/services/recommendService.js:226-227 | a known level gives level+1 signs, otherwise exactly '₩₩'; the budget is not an input |
| Recommend.LevelTiersDistinct | backend/src/services/recommendService.js:134 | the five levels give five distinct tiers, the same for restaurants and cafes |
| Recommend.FirstIndexOf | backend/src/services/recommendService.js:35 | the index found holds the character and none occurs before it; None means it does not occur |
| Recommend.LastIndexOf | backend/src/services/recommendService.js:35 | the index found holds the character and none occurs after it; None means it does not occur |
| Recommend.JsonSpan | backend/src/services/recommendService.js:35 | there is no span exactly when no '{' has a later '}'; the span found is a brace pair containing every other brace pair (leftmost start, greedy end) |
| Recommend.ExtractJson | backend/src/services/recommendService.js:35-39 | no match exactly when no '{' has a later '}'; a match starts with '{', ends with '}', is a substring of the reply, and has no '{' before it and no '}' after it |
| Recommend.GeoCoords | backend/src/services/recommendService.js:8-41 | a geocoding reply with a JSON span gives exactly `parseCoords` of that span; coordinates come from nowhere else |
| Recommend.GetWeather | backend/src/services/recommendService.js:6-64 | never fails; the text is the failure text exactly when geocoding or the weather call failed, and the coordinates are then null; otherwise the coordinates are the geocoded ones and the text starts with the code's label |
| Recommend.SearchRestaurant | backend/src/services/recommendService.js:85-189 | no Maps key, a non-ok search and an empty result each give their own error; a non-ok details reply gives 'Google Places details failed'; an error thrown by a Places call or the summarizer is passed through with its message; with details and a summary the step succeeds, and then the name, rating and review count come from the first result's details, the price is RestaurantPrice of its level and budget, both links point at the place, and the summary is the summarizer's answer to that prompt |
| Recommend.SearchCafe | backend/src/services/recommendService.js:192-277 | the same error cases and pass-through of thrown messages, using the cafe keyword; with details and an analysis the step succeeds, and then the name and rating come from the details, the price is CafePrice, the distance is always '도보 5분', and the analysis is the summarizer's answer to the cafe prompt |
| Recommend.RestaurantIgnoresBudgetWithLevel | backend/src/services/recommendService.js:102-135 | when every details reply lists a price level, the restaurant step's outcome is the same for every budget |
| Recommend.DigitChar | backend/src/services/recommendService.js:301 | the character is the decimal digit for the value |
| Recommend.NatToDecimal | backend/src/services/recommendService.js:301 | the string is all digits, non-empty, with no leading zero |
| Recommend.DecimalRoundTrip | backend/src/services/recommendService.js:301 | reading back the printed budget gives the budget |
| Recommend.IntToDecimal | backend/src/services/recommendService.js:301 | a non-negative budget prints as non-empty canonical digits that read back as the budget; a negative one as '-' followed by canonical digits of its magnitude |
| Recommend.ConcatSlice | backend/src/services/recommendService.js:301 | each piece of a concatenation can be read back verbatim at its offset |
| Recommend.ConcatSlices | backend/src/services/recommendService.js:301 | the same for every piece at once |
| Recommend.ReasonParts | backend/src/services/recommendService.js:301 | the template has twelve pieces, six labels alternating with the six choices |
| Recommend.PickReason | backend/src/services/recommendService.js:301 | the location, mood, category, companions, budget and atmosphere each appear verbatim at their offset, in the template's order, and nothing follows the last piece |
| Recommend.RealRecommend | backend/src/services/recommendService.js:280-315 | a missing OpenAI key, then a missing Maps key, fails with its message; with both keys and truthy coordinates, a failing restaurant step, then a failing cafe step, fails with that step's message, and two successful steps give the weather text and pick reason as the summary with both places; success implies truthy coordinates and the fixed cafe distance |
| Recommend.MissingKeyPrecedesCalls | backend/src/services/recommendService.js:281-286 | with a key missing the outcome is a failure that no service answer can change |
| Recommend.FalsyCoordinateAborts | backend/src/services/recommendService.js:290-294 | a failed weather step, or a latitude or longitude that is missing or exactly 0, aborts with 'Failed to get location coordinates' |
| Models.RoleName | backend/src/routes/auth.js:49 | the role string is "admin" exactly for the admin role |
| Models.IndexWhere | backend/src/routes/search.js:90 | the index found is the first element satisfying the filter; None means no element does |
| Models.IndexWhereUnique | backend/src/routes/search.js:90 | when one element at most satisfies the filter, the lookup finds that element |
| Models.FindSearch | backend/src/routes/search.js:93 | the Search found is stored and has the id; None exactly when no Search has it |
| Models.FindRecommendation | backend/src/routes/search.js:90 | the Recommendation found is stored and has the id; None exactly when none has it |
| Models.RecIdOf | backend/src/routes/search.js:75-81 | the id found belongs to a Recommendation of that Search; None exactly when there is none |
| Models.FindUserByEmail | backend/src/routes/auth.js:44 | the User found is stored and has the email; None exactly when no User has it |
| Models.WithStatus | backend/src/routes/search.js:56-57 | only the Search with the id gets the new status; everything else is unchanged |
| Models.RemoveAt | backend/src/routes/admin.js:37 | removing one position keeps the others in order |
| Models.RemoveSearch | backend/src/routes/admin.js:37 | exactly one Search fewer when one had the id, otherwise unchanged |
| Models.RemoveRecFor | backend/src/routes/admin.js:36 | exactly one Recommendation fewer when one referred to the Search, otherwise unchanged |
| Models.RemoveAtMembers | backend/src/routes/admin.js:36-37 | removal keeps every other element and adds none |
| Models.RemoveAtSearchesOrdered | backend/src/routes/admin.js:37 | removal keeps Search ids increasing |
| Models.RemoveSearchSpec | backend/src/routes/admin.js:37 | after the delete no Search has the id, the rest are kept and still ordered, and none is added |
| Models.RemoveSearchIdempotent | backend/src/routes/admin.js:37 | a second delete of the same id changes nothing |
| Models.RemoveAtRecsPreserved | backend/src/routes/admin.js:36 | removal keeps Recommendation ids increasing and search references unique |
| Models.RemoveRecForSpec | backend/src/routes/admin.js:36 | after the delete no Recommendation refers to the Search, the others are kept, and the unique index still holds |
| Models.RemoveAtDropsRef | backend/src/models/Recommendation.js:26 | with the unique searchId index, removing a Search's one Recommendation leaves none for it |
| Models.RemoveRecForOthers | backend/src/routes/admin.js:36 | every other Search keeps or lacks its Recommendation as before, and a second delete changes nothing |
| Models.Recent | backend/src/routes/search.js:69-70 | the result has min(limit, matching count) elements, each stored and passing the filter |
| Models.RecentNewestFirst | backend/src/routes/search.js:69-70 | the result is strictly newest first |
| Models.RecentComplete | backend/src/routes/search.js:69-70 | a matching Search left out means the limit was reached and it is older than every one returned |
| Gate.BearerToken | backend/src/routes/search.js:14-15 | a token exists exactly when the header is 'Bearer ' followed by at least one character, and the header is then the prefix plus the token |
| Gate.BearerRoundTrip | backend/src/routes/search.js:14-15 | parsing 'Bearer ' + token gives back the token |
| Gate.Authenticate | backend/src/routes/search.js:13-23 | a malformed header gives 401 'Unauthorized', and a token that does not verify gives 401 'Invalid token'; success exactly when a token is present and verifies, and the claims are what the token verifies to |
| Gate.MalformedHeaderSkipsVerify | backend/src/routes/search.js:15-16 | with a malformed header the verifier cannot affect the answer |
| Gate.RequireAdmin | backend/src/routes/search.js:25-28 | passes exactly when the role is "admin", otherwise 403 'Forbidden' |
| Gate.AdminGate | backend/src/routes/admin.js:11-25 | an authentication failure is returned unchanged, a non-admin gets 403, and it passes exactly for a verified admin |
| Store.Database.constructor | backend/src/models/Recommendation.js:25-34 | an empty store is valid |
| Store.Database.CreateUser | backend/src/routes/auth.js:33 | appends the User under a fresh id and keeps the store well formed |
| Store.Database.AppendAudit | backend/src/models/AuditLog.js:3-8 | the audit log only grows by the one entry |
| Store.Database.CreateSearch | backend/src/routes/search.js:35-46 | appends a pending Search under a fresh id for the user and keeps the store valid |
| Store.Database.SaveStatus | backend/src/routes/search.js:56-57 | the Search with the id gets the status, and nothing else changes |
| Store.Database.CreateRecommendation | backend/src/routes/search.js:51-55 | appends one Recommendation for a stored Search that has none, flagged as from OpenAI, keeping the unique index |
| Store.Database.DeleteRecommendationFor | backend/src/routes/admin.js:36 | removes the Recommendation of the Search, if any; reports how many went |
| Store.Database.DeleteSearch | backend/src/routes/admin.js:37 | removes the Search with the id, if any, once no Recommendation refers to it; reports how many went |
| AuthRoutes.Seeded | backend/src/routes/auth.js:13-22 | unchanged when either setting is empty or the email exists, otherwise exactly one admin appended |
| AuthRoutes.SeedIdempotent | backend/src/routes/auth.js:13-22 | seeding twice equals seeding once, and after seeding the email is registered exactly when both settings were set or it already was |
| AuthRoutes.EnsureAdminSeed | backend/src/routes/auth.js:13-22 | the users become Seeded of the old users; the other collections and the audit log are unchanged |
| AuthRoutes.RegisterCheck | backend/src/routes/auth.js:27-30 | 400 exactly when email or password is empty; 409 exactly when both are given and the email exists; passes exactly otherwise |
| AuthRoutes.Register | backend/src/routes/auth.js:25-39 | a refused register leaves the store unchanged; otherwise exactly one user is added, with role user and the password's hash, plus a REGISTER audit entry, and the reply is 201 |
| AuthRoutes.RegisterKeepsEmailsUnique | backend/src/routes/auth.js:29-33 | a register keeps emails unique, and registering the same email again gives 409 |
| AuthRoutes.Payload | backend/src/routes/auth.js:49 | the token payload carries the user's id and email, and the role "admin" exactly for admins |
| AuthRoutes.LoginCheck | backend/src/routes/auth.js:43-47 | '계정이 없습니다' exactly when no user has the email; with unique emails '비밀번호 오류' exactly when the password does not match that user's hash; success gives that stored user |
| AuthRoutes.Login | backend/src/routes/auth.js:41-55 | a failed login changes nothing; a successful one replies with the signed payload, email and role, and appends a LOGIN audit entry |
| AuthRoutes.LoginTokenAuthenticates | backend/src/routes/auth.js:49 | the token a login issues passes requireAuth with the stored user's id, role and email |
| AuthRoutes.RegisteredUserCanLogIn | backend/src/routes/auth.js:25-49 | right after a register, login with the same password returns that new user, and its payload has role "user" |
| SearchRoutes.SettledSearchValid | backend/src/routes/search.js:49-64 | a new Search settled as done with its one Recommendation, or as failed with none, keeps "done exactly when recommended" |
| SearchRoutes.SettleNewest | backend/src/routes/search.js:56-57 | saving the newest Search's status changes only that Search |
| SearchRoutes.CreateSearch | backend/src/routes/search.js:30-65 | 401 or 400 leave the store unchanged. Otherwise one Search is added for the caller. On success it is done, exactly one Recommendation for it is stored, a SEARCH_CREATE entry is appended and the reply is 201 with the Recommendation's id. On failure it is failed, nothing else is stored and the reply is 500 with the message. The store stays valid |
| SearchRoutes.SettleDone | backend/src/routes/search.js:51-57 | stores the Recommendation, then marks the newest Search done, keeping the store valid |
| SearchRoutes.SettleFailed | backend/src/routes/search.js:60-62 | marks the newest Search failed with nothing else stored, keeping the store valid |
| SearchRoutes.Join | backend/src/routes/search.js:79-83 | each history row is the Search with its Recommendation's id or null |
| SearchRoutes.HistoryScope | backend/src/routes/search.js:69-70 | the history has only the caller's searches, newest first, at most 50; a left-out own Search means 50 newer ones were returned |
| SearchRoutes.RecIdOfStored | backend/src/routes/search.js:76 | with the unique searchId index, a stored Recommendation is the one its Search resolves to |
| SearchRoutes.HistoryRecIds | backend/src/routes/search.js:75-83 | a row's recId is set exactly when its Search is done, and it names that Search's Recommendation |
| SearchRoutes.RecIdsBySearch | backend/src/routes/search.js:75-76 | the map has a key exactly for each requested Search that has a Recommendation, mapped to that Recommendation's id |
| SearchRoutes.Annotate | backend/src/routes/search.js:79-83 | the rows built are exactly the joined history rows, one per Search in order |
| SearchRoutes.ListSearches | backend/src/routes/search.js:67-86 | 401 without a valid token; otherwise 200 with exactly the History of the caller |
| SearchRoutes.ResultDetail | backend/src/routes/search.js:88-99 | 404 '결과 없음' exactly when no Recommendation has the id, and 404 '검색 없음' when its Search is missing; a 200 reply holds that stored Recommendation and its stored Search, and the caller is admin or the Search's owner |
| SearchRoutes.ResultAccess | backend/src/routes/search.js:92-97 | in a well-formed store, a stored Recommendation is returned with its Search when the caller is its owner or an admin, and is 403 otherwise |
| SearchRoutes.AdminLogs | backend/src/routes/search.js:101-105 | 401/403 unless a verified admin; otherwise the 100 newest searches of all users |
| AdminRoutes.Logs | backend/src/routes/admin.js:27-31 | 401/403 unless a verified admin; otherwise the 200 newest searches of all users |
| AdminRoutes.LogsCoverAllUsers | backend/src/routes/admin.js:29 | the listing is newest first, has min(200, all) entries, and any Search left out is older than every one listed |
| AdminRoutes.CountAll | backend/src/routes/admin.js:29 | with no owner filter every Search matches |
| AdminRoutes.CascadeDelete | backend/src/routes/admin.js:33-39 | after the cascade the Search and its Recommendation are gone; every other record is kept; no orphan appears; "done exactly when recommended" still holds; repeating it changes nothing |
| AdminRoutes.Cascade | backend/src/routes/admin.js:36-38 | removes the Recommendation, then the Search, keeps the store valid, and counts 1 exactly when the Search existed |
| AdminRoutes.DeleteLog | backend/src/routes/admin.js:33-39 | 401/403 leave the store unchanged. Otherwise the Recommendation, then the Search, are removed, nothing else changes, the reply is 200 and deleted is 1 when the Search existed and 0 otherwise, and the store stays valid |

## Left out

- The HTTP calls to OpenAI, Open-Meteo and Google Places are not modelled as requests. Each is an uninterpreted field of `Recommend.Services`, so the wording of the model's replies and the request URLs are not modelled.
- `JSON.parse` of the extracted text is the abstract `parseCoords`, and the full parse of the weather and Places replies is folded into `weather`, `textSearch` and `placeDetails`. An error thrown inside a Places step (a rejected `fetch`, a body that is not JSON, a details reply without `result`) is kept only as its message, `Recommend.Call.Threw`; its text is not modelled.
- Temperatures and coordinates are floating point. The temperature stays opaque text, and coordinates are reals whose only examined property is JavaScript truthiness (null or 0).
- `encodeURIComponent` of the location, the `language=ko` and `fields` parameters, and the text of the two summary prompts are not modelled. The prompts are modelled only as the values they embed (`Recommend.Prompt`).
- Recommend.GetWeather: states that the text starts with the weather code's label, not the rest of `label + ' ' + temperature + '℃'`, because the temperature is opaque.
- Recommend.CategoryQuery: does not model keys inherited from `Object.prototype` (a category such as "toString" makes `categoryMap[category]` truthy). Categories are plain strings here.
- Recommend.IntToDecimal: models `${budget}` for integer budgets only. It omits JavaScript's exponent form for magnitudes of 1e21 and above, and non-integer or non-numeric budgets.
- SearchRoutes.CreateSearch: the body fields are strings with "" for absent, and the budget is an integer. This drops the coercions `Number(budget || 0)` for the stored query and the raw `budget` passed to the pipeline. The form posts the budget as a string, so the pick-reason text differs from the model's whenever that string is not the canonical decimal of an integer: a blank budget is stored as 0 but printed as '예산: 원', and '015000' or '1e4' are printed as typed.
- bcrypt and JWT are abstract (`Gate.Crypto`). The random salt is a parameter, and token expiry and the clock are not modelled: `Gate.Sound` assumes a signed token is non-empty and verifies to its payload.
- Failures of database writes are not modelled. One example is `Audit.create` throwing after the Search was marked done: the handler's catch would then mark it failed while its Recommendation stays stored. Likewise, the 500 replies for unexpected exceptions in register and login are not modelled.
- Malformed ObjectId strings in `:id` and `:searchId` are not modelled. Mongoose would throw a cast error there; ids here are naturals.
- Concurrency between requests is not modelled. Each route runs to completion, so the pending Search that another request could observe mid-pipeline is not modelled.
- Mongo timestamps are not modelled. "Newest first" is reverse insertion order, with ids drawn from one increasing counter.
- The AuditLog `meta` field is not modelled; the routes never write it.
- `console` logging is not modelled.
- frontend/src/server.js, backend/src/server.js and backend/src/routes/user.js are not part of this model. The first two are page rendering and server wiring; user.js is another copy of `requireAuth` with a single lookup.
