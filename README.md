# AgroShakti core, modelled in Dafny

AgroShakti is a farming assistant. A React front end talks to an Express
back end. The back end keeps users, schemes, feedback, reports, surveys and
chat history in PostgreSQL. It forwards questions to a language-model
service, images to a disease classifier, and speech and translation to
external providers. A Python script answers questions from agricultural
documents by retrieval-augmented generation.

This project models the decision logic of that system and proves what it
promises. Each core source file is one Dafny module:

- **Middleware and constants.**
  - `AuthMiddleware`: Bearer-token authentication.
  - `IsAdmin`: the admin gate.
  - `ErrorHandler`: the error-to-status mapping.
  - `Constants`: roles, hook types, report statuses and endpoint paths.
- **Controllers.** `AdminController`, `SchemeController`,
  `FeedbackController`, `HistoryController`, `SurveyController`,
  `AuthController` and `HooksController`.
  - Each handler returns the reply it sends together with the ordered trace of
    its effects: queries, inserts, service calls, uploads, and temporary files
    written and released.
  - The outcomes of those effects are parameters.
  - List queries are modelled by their text. `Sql.Placeholders` reads the `$n`
    markers back out of that text, so the numbering of the parameters is
    proved about the query itself.
- **Services.**
  - `FlaskService`: the language-model and classifier calls, their timeouts,
    and the disease-cure prompt.
  - `TtsService`: the paid-cloud-then-free speech fallback.
  - `R2Service`: the image store's folders, its URL helpers and public-id
    extraction.
- **Browser client.**
  - Service clients: `TranslationService`, `ChatbotService`,
    `DiseaseService`, `SpeechRecognition`.
  - Classes for the stateful parts:
    - `TtsPlayer.Player`: the single current audio element, with object URLs
      that are set and revoked.
    - `MessageBubble.Bubble`: the read-aloud button.
    - `ChatInterface.ChatView`: the chat screen and its history sidebar.
- **Python services.**
  - `Rag`: sentence chunking, number de-duplication, query expansion,
    reranking, answer extraction and answer shaping.
  - `DiseaseDetection`: the upload whitelist, the class table, the
    healthy/diseased decision and the detection endpoint.
- **Shared models of the languages.**
  - `JsValues`: JavaScript values, truthiness, `||`, `??`, property access,
    `String()`, `JSON.stringify` and `parseInt`.
  - `JsNumbers`: IEEE numbers as exact reals plus NaN and the infinities.
  - `Strings`: trimming, splitting, joining, lower-casing and Python's
    `strip`.
  - `Http`, `Sql`, `Pagination` and `Wrappers`.
- **External systems are inputs.** bcrypt and JWT, axios replies,
  PostgreSQL rows, the image store, text-to-speech providers, the language
  model, the classifier, the vector store, the cross-encoder, the QA
  pipeline, the tokenizer and the browser APIs all enter as parameters.
  Clocks enter as plain numbers, and the database's `CURRENT_TIMESTAMP` as a
  value `now` that an UPDATE writes to `updated_at`.

Two behaviours of the code are worth stating plainly:

- `ttsService.js` has one fallback: Google Cloud, then free Google
  Translate. The language-model calls have no backup provider.
- A failed chat-history INSERT makes the chatbot hook answer 500.

## Model

| member | source | states |
|---|---|---|
| AuthMiddleware.BearerToken | agroshakti-backend/src/middleware/auth.js:5-14 | a token exists exactly when the header starts with `Bearer ` (case-sensitive), and the header is the scheme followed by the token |
| AuthMiddleware.Authenticate | agroshakti-backend/src/middleware/auth.js:3-32 | a missing or non-Bearer header is 401 `Access token is required`; `next` is reached exactly when the verifier returns a truthy payload for the bearer token, and then `req.user` is that payload; every other outcome is a 401 |
| AuthMiddleware.TokenAfterScheme | agroshakti-backend/src/middleware/auth.js:14 | the verifier is handed exactly the text after `Bearer `, whatever it is |
| AuthMiddleware.LowerCaseSchemeRefused | agroshakti-backend/src/middleware/auth.js:7-12 | a `bearer ` header in lower case is refused with the missing-token reply before any verification |
| AuthMiddleware.VerificationFailures | agroshakti-backend/src/middleware/auth.js:15-31 | a throwing verifier gives 401 `Authentication failed`; a falsy payload gives 401 `Invalid or expired access token`; neither reaches `next` |
| IsAdmin.Check | agroshakti-backend/src/middleware/isAdmin.js:3-11 | reading the role throws exactly when there is no user; the request passes exactly when the role is the string `admin` (strict equality); otherwise it is the 403 reply |
| IsAdmin.OnlyRoleInspected | agroshakti-backend/src/middleware/isAdmin.js:4 | two users with the same role always get the same verdict |
| IsAdmin.NonAdminsRefused | agroshakti-backend/src/middleware/isAdmin.js:4-9 | a farmer, and a user with no role, are denied |
| ErrorHandler.Handle | agroshakti-backend/src/middleware/errorHandler.js:1-37 | the reply always has `success: false`; a `ValidationError` is a 400 carrying `errors`; otherwise code 23505 is a 409 and code 23503 is a 400, with their fixed messages |
| ErrorHandler.FormatRejectionEchoed | agroshakti-backend/src/middleware/errorHandler.js:26-31 | any other error whose message contains `format allowed` is a 400 echoing that message |
| ErrorHandler.FallbackStatusAndMessage | agroshakti-backend/src/middleware/errorHandler.js:33-36 | an error matching no rule keeps its own status (500 when absent or 0) and its own message (`Internal server error` when empty) |
| ErrorHandler.ValidationFirst | agroshakti-backend/src/middleware/errorHandler.js:4-10 | a validation error gets the same 400 reply whatever database code it also carries |
| Constants.ParseRole | agroshakti-backend/src/config/constants.js:2-5 | a parsed role stores the given string, and an unparsed string is no role's value |
| Constants.RolesExactly | agroshakti-backend/src/config/constants.js:2-5 | the role strings are exactly `farmer` and `admin`, and each role parses back from its string |
| Constants.ValidRoleExactly | agroshakti-backend/src/config/constants.js:2-5 | a value is a valid role exactly when it is one of the two role strings |
| Constants.HookTypesDistinct | agroshakti-backend/src/config/constants.js:7-14 | there are six hook types, all listed, with pairwise distinct stored values |
| Constants.ParseReportStatus | agroshakti-backend/src/config/constants.js:22-26 | a parsed status stores the given string, and an unparsed string is no status's value |
| Constants.ReportStatusExactly | agroshakti-backend/src/config/constants.js:22-26 | the status strings are exactly `pending`, `resolved` and `rejected`, and each parses back |
| Constants.EndpointPathsDistinct | agroshakti-backend/src/config/constants.js:28-36 | the seven Flask endpoint paths begin with `/`, have more than one character and are pairwise distinct |
| Pagination.PageList | agroshakti-backend/src/controllers/scheme.controller.js:71-101 | the page query runs first and the client is released last; the reply is 200 exactly when both queries succeed and the count row can be read (a non-numeric count gives NaN totals, not an error), else the handler's 500; a failed page query skips the count query |
| Pagination.PageListData | agroshakti-backend/src/controllers/scheme.controller.js:81-92 | about `Pagination.Info`, `Pagination.Total`: a successful list reply has `success: true`, the page rows under the handler's key, and the pagination built from the parsed count |
| Pagination.OffsetSkipsEarlierPages | agroshakti-backend/src/controllers/scheme.controller.js:44 | about `Pagination.Offset`: for a page and limit written in decimal, the offset is `(page - 1) * limit`, the rows of the earlier pages |
| Pagination.TotalPagesCoversRows | agroshakti-backend/src/controllers/scheme.controller.js:89 | about `Pagination.TotalPages`: with a positive limit, `totalPages` is the least page count holding every row, and it is 0 exactly when there are no rows |
| Pagination.TotalPagesZeroLimit | agroshakti-backend/src/controllers/scheme.controller.js:89 | a zero limit gives Infinity pages when there are rows and NaN when there are none |
| Pagination.NonNumericLimit | agroshakti-backend/src/controllers/scheme.controller.js:44-89 | a non-numeric limit makes both the offset and the page count NaN |
| Sql.ClausesPlaceholders | agroshakti-backend/src/controllers/scheme.controller.js:50-66 | the filter clauses carry the consecutive markers `$first` .. `$(first + k - 1)` |
| Sql.TailPlaceholders | agroshakti-backend/src/controllers/scheme.controller.js:68 | after k bound parameters the tail carries exactly the markers `$(k+1)` and `$(k+2)` |
| Sql.PageSqlPlaceholders | agroshakti-backend/src/controllers/scheme.controller.js:46-68 | a page query's markers are exactly `$1` .. `$(b + k + 2)` in order: the base's, then the filters', then LIMIT and OFFSET |
| Sql.PlainPage | agroshakti-backend/src/controllers/scheme.controller.js:47-69 | over a base and columns without markers, the page query's markers are `$1` .. `$(k + 2)` and parameter i is the one marker `$(i + 1)` refers to: the filter values in order, then limit and offset |
| Sql.PlaceholdersConcat | agroshakti-backend/src/controllers/scheme.controller.js:52 | markers read from two pieces of query text add up when the cut is not followed by a digit |
| Sql.AddFilter | agroshakti-backend/src/controllers/scheme.controller.js:50-54 | one active filter (`paramCount++`, append its clause, push its value) moves the builder to the state for the longer filter list |
| Sql.AddTail | agroshakti-backend/src/controllers/scheme.controller.js:68-69 | the builder's last step yields exactly the page query and its parameter list |
| Sql.OneFilterPage | agroshakti-backend/src/controllers/admin.controller.js:65-76 | the single-filter builder yields the page query and parameters of the filter list that is active exactly when its value is truthy |
| Sql.OneFilter | agroshakti-backend/src/controllers/admin.controller.js:69-73 | a single optional filter is active exactly when its value is truthy, and then binds that value |
| Sql.OnePagePlaceholders | agroshakti-backend/src/controllers/admin.controller.js:69-75 | with one optional filter the markers are `$1 $2 $3` when its value is truthy and `$1 $2` otherwise |
| Sql.OneFilterCountAgrees | agroshakti-backend/src/controllers/admin.controller.js:80-82 | the count query filters exactly when the page query does, quoting the same value the page query binds to `$1` |
| Sql.LiteralClauses | agroshakti-backend/src/controllers/scheme.controller.js:73-76 | the count query appends a clause exactly when some filter is active |
| Sql.CoalesceRowValue | agroshakti-backend/src/controllers/scheme.controller.js:143-152 | `SET c = COALESCE($i, c)` stores the bound value in a listed column unless it is null, and keeps the old value otherwise |
| Sql.CoalesceRowKeeps | agroshakti-backend/src/controllers/scheme.controller.js:143-155 | a column the update does not list keeps its value |
| AdminController.GetAllUsers | agroshakti-backend/src/controllers/admin.controller.js:59-108 | the handler is the shared page list over page 1 and limit 20 by default, with the optional role filter in both the page query and the count query |
| AdminController.UsersPlaceholders | agroshakti-backend/src/controllers/admin.controller.js:62-82 | a role takes `$1`, then LIMIT `$2` and OFFSET `$3`; with no role they are `$1` and `$2`; the count query filters exactly when a role is given |
| AdminController.ChangeUserRole | agroshakti-backend/src/controllers/admin.controller.js:110-152 | a role other than `farmer` or `admin` is 400 before any query; otherwise one UPDATE binds (role, id); 404 exactly when no row matched, 200 exactly when one did |
| AdminController.RolePlaceholders | agroshakti-backend/src/controllers/admin.controller.js:123-128 | the role update's markers are `$1` then `$2` |
| AdminController.DeleteUser | agroshakti-backend/src/controllers/admin.controller.js:154-191 | deleting the signed-in user (`parseInt(id) === userId`) is 400 before any query; otherwise one DELETE; 404 exactly when nothing was deleted |
| AdminController.SelfDeleteGuard | agroshakti-backend/src/controllers/admin.controller.js:159-169 | the decimal id of the signed-in user issues no query, and the same id under another user goes to the database |
| AdminController.NonNumericUserIdNeverSelf | agroshakti-backend/src/controllers/admin.controller.js:159 | a token whose user id is not a number never counts as the same user |
| SchemeController.CreateGuard | agroshakti-backend/src/controllers/scheme.controller.js:5-38 | about `SchemeController.CreateScheme`: 400 exactly when title, description, eligibility or how_to_apply is falsy, with no query; otherwise one INSERT whose seventh value is the acting user's id; 201 exactly when it succeeds |
| SchemeController.SchemePage | agroshakti-backend/src/controllers/scheme.controller.js:46-69 | the builder yields the page query and parameters of the active filters in the order category, state, is_active |
| SchemeController.GetSchemes | agroshakti-backend/src/controllers/scheme.controller.js:40-102 | the handler is the shared page list over page 1 and limit 10 by default, and the count query interpolates the same filters |
| SchemeController.SchemePlaceholders | agroshakti-backend/src/controllers/scheme.controller.js:46-69 | with k active filters the markers are `$1` .. `$(k+2)`, and the k+2 parameters are the filter values, then limit, then offset |
| SchemeController.SchemeFilterValues | agroshakti-backend/src/controllers/scheme.controller.js:50-66 | each filter is active under its own condition; is_active binds `is_active === 'true'`, so any other text filters for inactive schemes |
| SchemeController.NoFilters | agroshakti-backend/src/controllers/scheme.controller.js:62-76 | with no filter the count query is the plain count and only limit and offset are bound |
| SchemeController.GetSchemeById | agroshakti-backend/src/controllers/scheme.controller.js:104-134 | one lookup bound to the id; 404 exactly when no row comes back |
| SchemeController.UpdateValues | agroshakti-backend/src/controllers/scheme.controller.js:140-156 | the update binds the body's nine fields in column order |
| SchemeController.UpdateScheme | agroshakti-backend/src/controllers/scheme.controller.js:136-180 | one UPDATE binding the nine fields then the id; 404 exactly when no row matched |
| SchemeController.UpdateReplacesGivenFields | agroshakti-backend/src/controllers/scheme.controller.js:143-155 | about `SchemeController.UpdatedScheme`: a listed column takes the body's value exactly when it is not null, `updated_at` takes the update's current timestamp, and every other column, such as the uploader, is unchanged |
| SchemeController.DeleteScheme | agroshakti-backend/src/controllers/scheme.controller.js:182-212 | one DELETE bound to the id; 404 exactly when nothing was deleted, 200 exactly when a row was |
| SchemeController.SearchGuard | agroshakti-backend/src/controllers/scheme.controller.js:214-237 | about `SchemeController.SearchSchemes`: a falsy query is 400 with no query issued; otherwise the one parameter is `%query%` |
| SchemeController.SearchPlaceholders | agroshakti-backend/src/controllers/scheme.controller.js:227-236 | all four markers of the search are `$1`, the one pattern tested against title, description, category and state |
| SchemeController.SearchActiveOnly | agroshakti-backend/src/controllers/scheme.controller.js:228 | only active schemes are searched |
| FeedbackController.SubmitFeedback | agroshakti-backend/src/controllers/feedback.controller.js:6-39 | a rejected rating is 400 with no query; an accepted one makes one INSERT of (user, feature type, rating, comment); 201 exactly when it succeeds; no other status occurs but 500 |
| FeedbackController.NumericRating | agroshakti-backend/src/controllers/feedback.controller.js:11 | about `FeedbackController.RatingAccepted`: a numeric rating passes exactly when it lies in 1..5 |
| FeedbackController.DecimalRating | agroshakti-backend/src/controllers/feedback.controller.js:11 | a rating given as a number or as its decimal text passes exactly when it lies in 1..5 |
| FeedbackController.NonNumericRatingPasses | agroshakti-backend/src/controllers/feedback.controller.js:11 | a truthy rating that coerces to NaN, such as `"abc"`, passes the guard because both comparisons with NaN are false |
| FeedbackController.RatingCoercions | agroshakti-backend/src/controllers/feedback.controller.js:11 | `true` passes as 1; 0, `false`, null, the empty text and 6 are refused |
| FeedbackController.ArrayRating | agroshakti-backend/src/controllers/feedback.controller.js:11 | an array rating is compared through its text: `[n]` passes exactly when n is in 1..5, and `[]` (which coerces to 0) is refused |
| FeedbackController.GetAllFeedback | agroshakti-backend/src/controllers/feedback.controller.js:41-93 | the handler is the shared page list over page 1 and limit 20 by default, with the optional feature-type filter in the page query and the count query |
| FeedbackController.FeedbackPlaceholders | agroshakti-backend/src/controllers/feedback.controller.js:47-67 | the feature type is `$1` when present with LIMIT `$2` and OFFSET `$3`, else LIMIT `$1` and OFFSET `$2`; parameters in the same order |
| FeedbackController.SubmitReport | agroshakti-backend/src/controllers/feedback.controller.js:95-128 | a falsy description is 400 with no query; otherwise one INSERT of (user, type, description); 201 exactly when it succeeds |
| FeedbackController.GetAllReports | agroshakti-backend/src/controllers/feedback.controller.js:130-184 | the handler is the shared page list over page 1 and limit 20 by default, with the optional status filter |
| FeedbackController.ReportPlaceholders | agroshakti-backend/src/controllers/feedback.controller.js:136-158 | the status takes `$1` when present, and LIMIT and OFFSET are numbered after it |
| FeedbackController.ResolveReport | agroshakti-backend/src/controllers/feedback.controller.js:186-228 | a status other than `resolved` or `rejected` is 400 with no query; otherwise one UPDATE; 404 exactly when no report matched, 200 exactly when one did |
| FeedbackController.ResolvableExactly | agroshakti-backend/src/controllers/feedback.controller.js:192 | exactly the texts `resolved` and `rejected` pass; `pending` is refused |
| FeedbackController.ResolvedByActingUser | agroshakti-backend/src/controllers/feedback.controller.js:199-205 | the update binds the status, then the acting user as `resolved_by`, then the report id |
| FeedbackController.ResolveSqlPlaceholders | agroshakti-backend/src/controllers/feedback.controller.js:200-203 | the update's markers are `$1`, `$2`, `$3` in order |
| HistoryController.ChatPage | agroshakti-backend/src/controllers/history.controller.js:11-20 | the builder yields the page query with the user bound first, the optional session after it, then limit and offset |
| HistoryController.ChatCount | agroshakti-backend/src/controllers/history.controller.js:24-29 | the count is a parameterised query |
| HistoryController.GetChatHistory | agroshakti-backend/src/controllers/history.controller.js:5-53 | the handler is the shared page list over page 1 and limit 20 by default, scoped to the signed-in user and the optional session |
| HistoryController.ChatPlaceholders | agroshakti-backend/src/controllers/history.controller.js:11-29 | with a session the markers are `$1`..`$4` and without one `$1`..`$3`; the count query applies the same user and session filter, with the page query's parameters minus limit and offset |
| HistoryController.ChatPagePlaceholders | agroshakti-backend/src/controllers/history.controller.js:11-19 | the page query's markers are `$1 $2 $3 $4` with a session and `$1 $2 $3` without |
| HistoryController.ScopedPlaceholders | agroshakti-backend/src/controllers/history.controller.js:11-26 | the scoped select and the scoped count carry the user as their only marker `$1` |
| HistoryController.TableHistoryScoped | agroshakti-backend/src/controllers/history.controller.js:55-96 | about `HistoryController.TableHistory`: a per-feature history binds the user to `$1` and LIMIT and OFFSET to `$2` and `$3`, counts the same user's rows, and fails only with its own 500 |
| HistoryController.FixedPagePlaceholders | agroshakti-backend/src/controllers/history.controller.js:61-66 | a per-feature page query's markers are `$1 $2 $3` |
| HistoryController.FeatureHistories | agroshakti-backend/src/controllers/history.controller.js:98-227 | about `HistoryController.GetDiseaseHistory`, `HistoryController.GetSoilHistory`, `HistoryController.GetWeatherHistory`, `HistoryController.GetResourceHistory`: soil readings are ordered by `recorded_at`, and each of the four handlers fails with its own 500 message |
| SurveyController.CreateSurvey | agroshakti-backend/src/controllers/survey.controller.js:6-41 | a missing title, week, year or end date is 400 with no query; otherwise one INSERT of the generated id and the fields; 201 exactly when it succeeds |
| SurveyController.DescriptionOptional | agroshakti-backend/src/controllers/survey.controller.js:9-24 | a survey without a description passes the guard and is inserted |
| SurveyController.SurveyIdParts | agroshakti-backend/src/controllers/survey.controller.js:18 | the survey id splits on `_` into exactly `SURVEY`, `W` plus the week, the year and the creation time, so the parts can be read back |
| SurveyController.GetActiveSurvey | agroshakti-backend/src/controllers/survey.controller.js:43-74 | one fixed query; 404 exactly when no survey is active and unexpired, otherwise the first row |
| SurveyController.AllSurveysPlaceholders | agroshakti-backend/src/controllers/survey.controller.js:82-85 | the survey list binds LIMIT to `$1` and OFFSET to `$2` |
| SurveyController.SurveyListDefaults | agroshakti-backend/src/controllers/survey.controller.js:76-105 | about `SurveyController.GetAllSurveys`: without `page` and `limit` the list binds LIMIT 10 and OFFSET 0 to `$1` and `$2`, and releases its client last |
| SurveyController.ResponseGuardOrder | agroshakti-backend/src/controllers/survey.controller.js:113-153 | about `SurveyController.SubmitResponse`: the text fields are checked first, then the image, then the survey being open; something is uploaded exactly when all three pass; a stored response carries the URL the media store returned |
| SurveyController.UploadFailureStoresNothing | agroshakti-backend/src/controllers/survey.controller.js:146-165 | a failed upload after the survey was found is the handler's 500, with no response inserted |
| SurveyController.ResponsesPlaceholders | agroshakti-backend/src/controllers/survey.controller.js:178-186 | the response list's markers are `$1 $2 $3`: survey, limit, offset |
| SurveyController.ResponsesScoped | agroshakti-backend/src/controllers/survey.controller.js:178-191 | about `SurveyController.GetSurveyResponses`: both queries of the response list are bound to the survey of the path |
| R2Service.UploadFolder | agroshakti-backend/src/services/r2Service.js:12-16 | the upload folder starts with the configured root (`agroshakti` when unset or empty) and a `/`, and ends with `/` and the given folder (`agroshakti` by default) |
| R2Service.DefaultUploadFolder | agroshakti-backend/src/services/r2Service.js:12-16 | with no configuration, images go to `agroshakti/agroshakti`, and disease images to `agroshakti/disease-detection` |
| R2Service.UploadImage | agroshakti-backend/src/services/r2Service.js:24-37 | a store error rejects with the fixed message `Failed to upload image to Cloudinary`; a stored image resolves to an object whose `url` is the store's `secure_url` |
| R2Service.DeleteImage | agroshakti-backend/src/services/r2Service.js:82-90 | the result is `true` exactly when the store reports `ok`; every failure, including a missing result, is the fixed delete error |
| R2Service.MatchHere | agroshakti-backend/src/services/r2Service.js:100 | a match of `/([^/]+/[^/]+/[^/.]+)` captures three non-empty segments without `/`, the last also without `.` |
| R2Service.NoMatchAnywhere | agroshakti-backend/src/services/r2Service.js:100 | the search finds nothing exactly when the pattern matches at no position |
| R2Service.ExtractPublicId | agroshakti-backend/src/services/r2Service.js:97-102 | the result is null exactly when the pattern matches nowhere, and otherwise the capture of the first match |
| R2Service.Leftmost | agroshakti-backend/src/services/r2Service.js:100-101 | a non-null result is the capture at the leftmost position where the pattern matches |
| R2Service.HostIsExtracted | agroshakti-backend/src/services/r2Service.js:97-102 | for every `https://` URL with a host and two more path segments, the result starts with the host, not with the public id |
| R2Service.DocExampleMismatch | agroshakti-backend/src/services/r2Service.js:98-100 | the URL of the function's own comment yields `res.cloudinary.com/demo/image`, not `agroshakti/surveys/image` |
| R2Service.StripKnownExtension | agroshakti-backend/src/services/r2Service.js:99 | removing the extension from `name.ext` gives back `name` |
| R2Service.PublicIdRoundTrip | agroshakti-backend/src/services/r2Service.js:92-99 | for every delivery URL `.../upload/v<digits>/<folders>/<name>.<ext>`, the corrected extraction gives back `<folders>/<name>` |
| R2Service.DocExampleIntended | agroshakti-backend/src/services/r2Service.js:98-99 | the corrected extraction gives `agroshakti/surveys/image` for the comment's URL |
| R2Service.TransformationDefaults | agroshakti-backend/src/services/r2Service.js:110-141 | about `R2Service.OptimizedTransformation`, `R2Service.ThumbnailTransformation`: without options the optimized URL is 800 by 800 `limit` with automatic quality and format; a thumbnail is a 150 square `fill` with automatic gravity |
| R2Service.OptionOverrides | agroshakti-backend/src/services/r2Service.js:111-116 | a given width replaces only the width default |
| AuthController.RequestedRole | agroshakti-backend/src/controllers/auth.controller.js:20 | a falsy role becomes `farmer`; a truthy role is kept as given |
| AuthController.Register | agroshakti-backend/src/controllers/auth.controller.js:8-59 | a missing name, email, phone or password is 400 with no query; an invalid role is 400 `Invalid role`; a password bcrypt cannot hash (not a text) is 500 with no query; exactly the remaining requests make one INSERT; 201 exactly when it succeeds and 409 exactly when it hits the unique-violation code |
| AuthController.NumericPasswordRefused | agroshakti-backend/src/controllers/auth.controller.js:28 | a truthy numeric password passes the 400 guards but bcrypt refuses it: 500 `Failed to register user` and no INSERT |
| AuthController.RegisterRole | agroshakti-backend/src/controllers/auth.controller.js:20-34 | a registration without a role and with a text password stores `farmer`; one with a role is inserted exactly when the role is `farmer` or `admin` and the password is a text |
| AuthController.ExpiresAt | agroshakti-backend/src/controllers/auth.controller.js:105 | a refresh token expires 604800000 ms (seven days) after login |
| AuthController.Login | agroshakti-backend/src/controllers/auth.controller.js:61-137 | a missing email or password is 400 with no query; a refresh token is stored exactly when the user is found, password and stored hash are texts and bcrypt says they match; 200 exactly when that INSERT succeeds; only 200, 400, 401 and 500 occur |
| AuthController.LoginRefusesNonTextPassword | agroshakti-backend/src/controllers/auth.controller.js:86 | a password that is not a text makes bcrypt's comparison reject: 500 `Failed to login` after the lookup, and no token is stored |
| AuthController.LoginIndistinguishable | agroshakti-backend/src/controllers/auth.controller.js:73-93 | an unknown email and a wrong password give the same 401 `Invalid credentials` reply after the same single lookup |
| AuthController.LoginIssuesTokens | agroshakti-backend/src/controllers/auth.controller.js:95-127 | a successful login stores the user's refresh token with a seven-day expiry, and replies with it, an access token over the user's id, email and role, and the user without its password hash |
| AuthController.PublicUserHidesHash | agroshakti-backend/src/controllers/auth.controller.js:115-123 | the user shown after login has no `password_hash` field |
| AuthController.Refresh | agroshakti-backend/src/controllers/auth.controller.js:139-198 | a missing token is 400 with no query; a token the verifier rejects is 401 with no query; a 200 happens only when the token is stored for its user and the user exists, and carries the access token signed over that user |
| AuthController.RefreshGuards | agroshakti-backend/src/controllers/auth.controller.js:159-181 | a token that is not stored (or expired) is 401 `Invalid refresh token` after the one lookup; a user deleted since is the handler's 500 |
| AuthController.Logout | agroshakti-backend/src/controllers/auth.controller.js:200-225 | with no token the reply is 200 with no query; with one, one DELETE of that token; 200 unless that query fails |
| AuthController.LogoutAlwaysSucceeds | agroshakti-backend/src/controllers/auth.controller.js:205-215 | logging out an unknown token succeeds exactly like logging out a stored one |
| AuthController.GetMe | agroshakti-backend/src/controllers/auth.controller.js:227-278 | the lookup is retried without the avatar column exactly when the first fails on an undefined column; 500, 404 and 200 follow the rows it ends with; the profile's avatar is truthy: the stored one, else `farmer1`; every other field is the row's |
| AuthController.UpdateProfile | agroshakti-backend/src/controllers/auth.controller.js:280-339 | the UPDATE is retried after adding the avatar column exactly when it fails on an undefined column and the column is added; 200 exactly when an attempt succeeds, with its first row; otherwise the handler's 500 |
| AuthController.UpdatedColumns | agroshakti-backend/src/controllers/auth.controller.js:291-296 | each listed column takes its bound value unless it is null, and keeps the stored value then; other columns are untouched |
| AuthController.ProfileUpdateKeepsNulls | agroshakti-backend/src/controllers/auth.controller.js:283-300 | about `AuthController.ProfileRow`: a profile update keeps every field the body leaves out or sends as null, takes every other sent value, sets `updated_at` to the update's current timestamp, and touches no other column (email, role, ...) |
| AuthController.UpdatePlaceholders | agroshakti-backend/src/controllers/auth.controller.js:290-300 | the update's markers are `$1`..`$6`: `$i` is the body's i-th profile field and `$6` the signed-in user's id |
| AuthController.AssignmentsPlaceholders | agroshakti-backend/src/controllers/auth.controller.js:292-296 | the COALESCE assignments carry consecutive markers starting at the first one |
| AuthController.DeleteAccount | agroshakti-backend/src/controllers/auth.controller.js:341-359 | one DELETE of the signed-in user; 200 whether or not a row was deleted, 500 only when the query fails |
| FlaskService.Invoke | agroshakti-backend/src/services/flaskService.js:14-102 | a successful call returns the response body; a failed chatbot call returns `undefined`; any other failed call throws its method's fixed message |
| FlaskService.Timeouts | agroshakti-backend/src/services/flaskService.js:19-94 | the timeout is 60000 ms for the chatbot, 30000 ms for disease detection and 15000 ms for the four other calls |
| FlaskService.OnlyChatbotSwallowsErrors | agroshakti-backend/src/services/flaskService.js:22-101 | a failed call throws exactly when the method is not the chatbot, and then with that method's fixed message |
| FlaskService.TemplateNoNewline | agroshakti-backend/src/services/flaskService.js:113-126 | none of the template's fixed lines holds a line break |
| FlaskService.PromptIsTrimmedJoin | agroshakti-backend/src/services/flaskService.js:113-126 | trimming removes exactly the template's opening and closing line breaks, leaving its lines joined by `\n` |
| FlaskService.CurePromptLines | agroshakti-backend/src/services/flaskService.js:113-126 | the prompt has twelve lines; the second names the disease, or `Unknown` when the name is falsy; the fourth is the image-URL line exactly when an image URL is given, and empty otherwise |
| FlaskService.CureSessionIdShape | agroshakti-backend/src/services/flaskService.js:128 | the cure session id is `disease_cure_` followed by the timestamp, which reads back as that number |
| FlaskService.CureNormalisation | agroshakti-backend/src/services/flaskService.js:130-136 | about `FlaskService.Recommendation`: the recommendation is the chatbot's truthy `response`, else the whole reply; when the chatbot fails it is `undefined`, so the returned object serialises to `{}` |
| FlaskService.CureSessionFresh | agroshakti-backend/src/services/flaskService.js:128-131 | about `FlaskService.GetDiseaseCure`: the cure request is a call to the chatbot path whose payload carries the session id `disease_cure_<now>` built from the clock |
| HooksController.SessionId | agroshakti-backend/src/controllers/hooks.controller.js:25 | a truthy supplied session id is kept; otherwise the id is generated and starts with `session_` |
| HooksController.TranslationFallback | agroshakti-backend/src/controllers/hooks.controller.js:34-52 | for language `en`, a failed translation, or an empty translated text, the English response is returned; otherwise the translator's text |
| HooksController.Chatbot | agroshakti-backend/src/controllers/hooks.controller.js:13-77 | a falsy message is 400 with no call; a failed chatbot call is a 500 with the `undefined.response` TypeError message and no history row; 200 exactly when the chatbot answers and the history INSERT succeeds, storing `original_message \|\| message` and the same response that is returned; the translator is called exactly when the language is not `en`; the client is released last |
| HooksController.SoilReadingsRequired | agroshakti-backend/src/controllers/hooks.controller.js:85-90 | about `HooksController.SoilAnalysis`: a pH, nitrogen, phosphorus or potassium reading that is 0, empty or missing is 400 before any call |
| HooksController.SoilRecommendationStored | agroshakti-backend/src/controllers/hooks.controller.js:101-113 | the stored recommendation is the service's `recommendation`, or the whole reply as JSON when it has none; the service's reply is returned |
| HooksController.LandUnitDefault | agroshakti-backend/src/controllers/hooks.controller.js:138-153 | a missing land unit is sent and stored as `acres`; a given one is sent and stored as given |
| HooksController.WeatherDefaultsStored | agroshakti-backend/src/controllers/hooks.controller.js:190-197 | missing weather or market data is stored as the text `{}` |
| HooksController.GuardsBeforeEffects | agroshakti-backend/src/controllers/hooks.controller.js:131-224 | about `HooksController.SchemeSearch`: a missing location, crop name, land area or search query is a 400 with no call and no insert |
| HooksController.SoilReleases | agroshakti-backend/src/controllers/hooks.controller.js:120-122 | soil analysis releases its client last on every path |
| HooksController.ResourceReleases | agroshakti-backend/src/controllers/hooks.controller.js:165-167 | about `HooksController.ResourceEstimation`: resource estimation releases its client last on every path |
| HooksController.WeatherReleases | agroshakti-backend/src/controllers/hooks.controller.js:209-211 | about `HooksController.WeatherAdvisory`: the weather advisory releases its client last on every path |
| HooksController.FailedCureIsEmptyObjectText | agroshakti-backend/src/controllers/hooks.controller.js:285-286 | when the chatbot fails, the cure stored and returned is the text `{}` |
| HooksController.AnsweredCureStored | agroshakti-backend/src/controllers/hooks.controller.js:285-286 | a chatbot reply with a truthy `response` is stored as that response |
| HooksController.DetectionReplyCure | agroshakti-backend/src/controllers/hooks.controller.js:301-311 | the success reply carries the cure only for a successful detection and `null` otherwise, and the uploaded image's URL |
| HooksController.DiseaseDetection | agroshakti-backend/src/controllers/hooks.controller.js:247-325 | no file is 400 with no effect; otherwise the temporary file is written first and removed before the release; a failed detection is a 500; the image is uploaded whatever the detection says; the cure is asked for only when `detected && disease`; the stored row and the reply carry the same cure; 200 exactly when detection, upload and INSERT succeed |
| HooksController.RecordDetection | agroshakti-backend/src/controllers/hooks.controller.js:267-311 | the cure request comes before the INSERT and only when `detected && disease`; the stored row carries that cure (null otherwise) and the success flag; the reply is 200 exactly when the INSERT succeeds and then carries the detection, the cure and the image URL |
| HooksController.TranslateTotal | agroshakti-backend/src/controllers/hooks.controller.js:371-434 | about `HooksController.Translate`: 400 exactly when text, source or target is missing; otherwise always 200 with `success: true`: equal languages echo the text with no call, and a failed translator returns the original text |
| HooksController.TextToSpeechOutcomes | agroshakti-backend/src/controllers/hooks.controller.js:328-368 | about `HooksController.TextToSpeech`: the language defaults to `en-US`; every synthesis failure is the same 500 with `fallback: 'browser'`; a success is 200 in `mp3` |
| TtsService.LangCode | agroshakti-backend/src/services/ttsService.js:46 | the language prefix holds no `-` and starts the language tag |
| TtsService.FreeTts | agroshakti-backend/src/services/ttsService.js:92-153 | a free-path success is `mp3` tagged `google-translate-free`; every free-path failure is the fixed `TTS service unavailable...` message |
| TtsService.FallbackOrder | agroshakti-backend/src/services/ttsService.js:26-40 | about `TtsService.SynthesizeSpeech`: with a client the cloud is asked first and answers alone when it succeeds; after a cloud failure the result is the free path's; without a client only the free endpoint is asked |
| TtsService.OmittedArguments | agroshakti-backend/src/services/ttsService.js:26 | an omitted language is synthesised as `en-US` and an omitted voice name as `null`, by the parameter defaults |
| TtsService.OutcomeShape | agroshakti-backend/src/services/ttsService.js:81-101 | every success is `mp3` tagged with the path that produced it (`google-cloud` only when the client exists and the cloud succeeded); every failure is the fixed message |
| TtsService.EmptyAudioFails | agroshakti-backend/src/services/ttsService.js:139-151 | an empty body from the free endpoint is a failure, never a silent success |
| TtsService.VoiceSelection | agroshakti-backend/src/services/ttsService.js:46-61 | about `TtsService.CloudRequestFor`, `TtsService.VoiceFor`: the eight mapped prefixes get their own voice and any other prefix the English one, always female; an explicit voice name overrides the mapped one |
| TtsService.MappedCodesHaveVoices | agroshakti-backend/src/services/ttsService.js:49-60 | every mapped prefix has a voice, and a language tag `prefix-rest` selects that prefix's voice |
| TtsService.FreeTruncation | agroshakti-backend/src/services/ttsService.js:124-129 | about `TtsService.FreeRequestFor`: the free endpoint gets a prefix of the text of at most 200 characters, the whole text when it is shorter, and `textlen` is that prefix's length |
| TranslationService.Translate | frontend/src/Services/Translation.jsx:13-36 | the same language or blank text gives the text back with no request; otherwise exactly one translate request is made, and the result is the reply's translation when it has one and the original text in every other case |
| TranslationService.TranslateFallsBack | frontend/src/Services/Translation.jsx:30-35 | a failed request, or a reply without a translation, resolves to the original text |
| TranslationService.TranslateNeverEmpty | frontend/src/Services/Translation.jsx:15-35 | a non-empty text never translates to an empty (falsy) value |
| TranslationService.ToEnglish | frontend/src/Services/Translation.jsx:44-49 | an English user's text is returned untouched with no request |
| TranslationService.FromEnglish | frontend/src/Services/Translation.jsx:57-62 | an English user's text is returned untouched with no request |
| TranslationService.EnglishHelpersAgree | frontend/src/Services/Translation.jsx:44-62 | each helper equals a plain translate into or out of English for every language, so the English short-cut changes no outcome |
| ChatbotService.ReplyData | frontend/src/Services/Chatbot.jsx:23-31 | the call resolves exactly when the chatbot request is answered |
| ChatbotService.SendQuery | frontend/src/Services/Chatbot.jsx:6-31 | the language defaults to English and the session to null; a translation request precedes the chatbot request exactly when the language is not English and the query is not blank; the last request is always the chatbot one with the payload, and the result is the reply's data |
| ChatbotService.EnglishSendsQuery | frontend/src/Services/Chatbot.jsx:6-20 | for English or a missing language the only request is the chatbot one and the model gets the query itself |
| ChatbotService.OriginalKept | frontend/src/Services/Chatbot.jsx:8-25 | the payload always carries the untranslated query as `original_message`, and a failed translation sends the query itself |
| ChatbotService.NoSessionSendsNull | frontend/src/Services/Chatbot.jsx:6-26 | without a session id the request carries `session_id: null` |
| DiseaseService.Payload | frontend/src/Services/Disease.jsx:15 | the payload is always a truthy value |
| DiseaseService.DetectDisease | frontend/src/Services/Disease.jsx:15-24 | `raw` is the payload; `diseaseDetected` is the truthiness of `detected`; a falsy name becomes null; the confidence survives unless it is nullish; the cure is either null or the payload's truthy cure |
| DiseaseService.NormalisationEdges | frontend/src/Services/Disease.jsx:20-23 | a confidence of 0 is kept while an empty name becomes null, and an empty reply is "not detected" with an empty raw payload and no cure |
| DiseaseService.InfoMessage | frontend/src/Services/Disease.jsx:29 | the question starts with the fixed lead and contains the disease name as JavaScript prints it |
| DiseaseService.DiseaseInfoRequest | frontend/src/Services/Disease.jsx:27-33 | one request to the chatbot hook whose message names the disease and whose language defaults to English |
| SpeechRecognition.LanguageMap | frontend/src/Utils/SpeechRecognition.jsx:1-10 | exactly the eight application codes are mapped, English to `en-US` and every other code to its `-IN` tag |
| SpeechRecognition.SpeechLanguageCode | frontend/src/Utils/SpeechRecognition.jsx:12-14 | a mapped code gives its tag and anything else gives `en-US` |
| SpeechRecognition.EachCodeTagged | frontend/src/Utils/SpeechRecognition.jsx:1-14 | each Indian language gets `xx-IN`, English, undefined and null get `en-US`, and every result is a five-character `xx-YY` tag |
| SpeechRecognition.InitializeSpeechRecognition | frontend/src/Utils/SpeechRecognition.jsx:16-29 | a recognizer exists exactly when the browser provides the API, and it is one-shot with final results only |
| TtsPlayer.SynthesizeSpeech | frontend/src/Services/TTS.jsx:11-31 | audio is returned exactly when the request is answered, reports success and carries audio; the format is the reply's or `mp3`; every other outcome, a failed request included, is `null` |
| TtsPlayer.CopyBytes | frontend/src/Services/TTS.jsx:118-124 | a fresh byte array as long as the decoded text whose every element is that character's code modulo 256, the code itself when it fits a byte |
| TtsPlayer.Audio.constructor | frontend/src/Services/TTS.jsx:129 | a new element plays from its URL, starts paused at position 0 |
| TtsPlayer.Player.constructor | frontend/src/Services/TTS.jsx:4-5 | no audio and no URL are current and nothing is revoked |
| TtsPlayer.Player.Stop | frontend/src/Services/TTS.jsx:37-73 | both globals end cleared whichever guarded call throws; the old audio is paused, rewound and detached unless its call threw; the URL is revoked unless revoking threw |
| TtsPlayer.Player.Pause | frontend/src/Services/TTS.jsx:78-86 | the current audio, if any, ends paused at the same position, with the same source, and stays current |
| TtsPlayer.Player.Resume | frontend/src/Services/TTS.jsx:91-106 | a paused current audio plays when `play()` succeeds and stays paused when it fails; one that was playing keeps playing; its source and position are unchanged |
| TtsPlayer.Player.Play | frontend/src/Services/TTS.jsx:111-131 | the previous audio is stopped and its URL revoked; after a successful decode a fresh paused audio with a fresh URL and a fresh byte copy becomes current, after a failed decode nothing is current |
| TtsPlayer.Player.CanPlayThrough | frontend/src/Services/TTS.jsx:156-173 | a successful `play()` starts the audio and changes nothing else; a rejected one revokes its URL and clears the globals only if the audio is still current |
| TtsPlayer.Player.Release | frontend/src/Services/TTS.jsx:133-154 | the audio's URL is revoked; the globals are cleared when it is the current audio and untouched otherwise |
| TtsPlayer.StalePlaybackEnds | frontend/src/Services/TTS.jsx:111-154 | after two playbacks, the end of the first one revokes its URL and leaves the second one current |
| MessageBubble.LanguageMapsAgree | frontend/src/components/chat/Messagebubble..jsx:67-77 | the bubble's language table gives every language the same tag as the speech-input table, and `en-US` for every unknown language |
| MessageBubble.Find | frontend/src/components/chat/Messagebubble..jsx:148-153 | `find` returns the first voice that satisfies the test, and nothing only when no voice does |
| MessageBubble.SelectVoice | frontend/src/components/chat/Messagebubble..jsx:141-154 | no voice only for an empty list; otherwise the first voice with the exact tag when one exists, else the first whose tag starts with the language code, else the first English one, else the first voice of the list |
| MessageBubble.FallbackVoice | frontend/src/components/chat/Messagebubble..jsx:284-292 | no voice only for an empty list; otherwise the first English voice whose `localService` is not `false` when one exists, else the first English voice, else the first voice of the list |
| MessageBubble.PunctSpaceRewrite | frontend/src/components/chat/Messagebubble..jsx:162 | about `MessageBubble.PunctSpace`: the rewrite changes whitespace only (the text without its whitespace is unchanged), and afterwards every stop followed by whitespace is followed by exactly one space and then a visible character |
| MessageBubble.PunctSpaceIdentity | frontend/src/components/chat/Messagebubble..jsx:162 | a text in which no `.`, `!` or `?` is followed by whitespace is left unchanged |
| MessageBubble.CollapseRunsCollapsed | frontend/src/components/chat/Messagebubble..jsx:163 | about `MessageBubble.CollapseRuns`: after collapsing, every whitespace character is a plain space and no two are adjacent |
| MessageBubble.CollapseRunsVisible | frontend/src/components/chat/Messagebubble..jsx:163 | collapsing keeps every non-whitespace character, in order, and adds none |
| MessageBubble.CollapseRunsWords | frontend/src/components/chat/Messagebubble..jsx:163-164 | collapsing then trimming gives the text's words (maximal runs of non-whitespace, `MessageBubble.Words`) joined by single spaces |
| MessageBubble.WordsAreWords | frontend/src/components/chat/Messagebubble..jsx:163 | about `MessageBubble.Words`: every word is non-empty and holds no whitespace |
| MessageBubble.CollapseRunsBlank | frontend/src/components/chat/Messagebubble..jsx:163 | collapsing makes a text blank exactly when it was blank |
| MessageBubble.PunctAbsorbed | frontend/src/components/chat/Messagebubble..jsx:161-163 | the punctuation rewrite followed by the whitespace rewrite equals the whitespace rewrite alone |
| MessageBubble.SpokenTextShape | frontend/src/components/chat/Messagebubble..jsx:161-169 | about `MessageBubble.SpokenText`: the spoken text is the message's words joined by single spaces, keeps every visible character of the message in order, has no space at either end, and is empty, and nothing is spoken, exactly when the message is blank |
| MessageBubble.EnglishUtterance | frontend/src/components/chat/Messagebubble..jsx:284-299 | no retry without voices; otherwise an `en-US` utterance of the same text with the fallback voice |
| MessageBubble.Bubble.constructor | frontend/src/components/chat/Messagebubble..jsx:9-10 | a new bubble is not speaking and holds no utterance |
| MessageBubble.Bubble.Click | frontend/src/components/chat/Messagebubble..jsx:46-127 | a click while speaking stops; played backend audio ends the click; the browser speaks exactly when the backend did not play, synthesis is supported, some voices are known and the spoken text is not empty, and it then speaks the utterance built from those voices; with no voices known yet, or nothing to say, the click ends with `isSpeaking` still true and the utterance unchanged |
| MessageBubble.Bubble.Started | frontend/src/components/chat/Messagebubble..jsx:192-197 | speaking starts and the utterance is kept |
| MessageBubble.Bubble.Ended | frontend/src/components/chat/Messagebubble..jsx:199-203 | speaking stops and the utterance is dropped |
| MessageBubble.Bubble.Failed | frontend/src/components/chat/Messagebubble..jsx:205-231 | speaking stops; only a `synthesis-failed` error retries, with the English utterance |
| ChatInterface.HistoryList | frontend/src/components/chat/chatinterface.jsx:33 | a missing or falsy history is the empty list; an array of non-null rows is returned as it is; a truthy history that is not an array makes the reducer fail; a list the reducer walks holds no null rows |
| ChatInterface.GroupHistory | frontend/src/components/chat/chatinterface.jsx:35-51 | one group per distinct session key, in the order the keys first occur, every row in its key's group with the first row's timestamp as `lastMessage`; the groups hold exactly as many entries as there are rows |
| ChatInterface.FlattenSession | frontend/src/components/chat/chatinterface.jsx:67-85 | the loop's messages are the session's turns in order: each entry's user message, then its bot message when it has a response |
| ChatInterface.TextsByConcat | frontend/src/components/chat/chatinterface.jsx:69-84 | the texts sent by one side distribute over appended message lists |
| ChatInterface.FlattenedShape | frontend/src/components/chat/chatinterface.jsx:67-85 | a flattened session has one user message per entry and one bot message per answered entry; the user texts are the questions and the bot texts the responses, both in order |
| ChatInterface.RemoveSession | frontend/src/components/chat/chatinterface.jsx:101 | the remaining sessions are exactly those whose id differs strictly from the deleted one |
| ChatInterface.RemoveSessionConcat | frontend/src/components/chat/chatinterface.jsx:101 | removal distributes over concatenation, so it is `filter` itself: the kept sessions keep their order |
| ChatInterface.SessionOfIdParts | frontend/src/components/chat/chatinterface.jsx:71 | a history id gives back the text between `history-` and its last two fields when those hold no `-` |
| ChatInterface.SessionOfHistoryId | frontend/src/components/chat/chatinterface.jsx:71-78 | every id a loaded session carries gives back that session's id, whatever its characters |
| ChatInterface.FlattenedIds | frontend/src/components/chat/chatinterface.jsx:67-85 | every message of a flattened session carries a history id of that session |
| ChatInterface.LoadedSessionRecognised | frontend/src/components/chat/chatinterface.jsx:102-115 | with the intended test, a loaded non-empty session is recognised for its own id and for no id that prints differently |
| ChatInterface.AsWrittenField | frontend/src/components/chat/chatinterface.jsx:107-108 | for a session id containing `-`, the field the source compares is only the part before its first `-`, which differs from the id |
| ChatInterface.FlattenedMissedAsWritten | frontend/src/components/chat/chatinterface.jsx:104-111 | for such a session no message of its flattened view passes the test as written |
| ChatInterface.DashedSessionMissed | frontend/src/components/chat/chatinterface.jsx:104-115 | a loaded session whose id contains `-` is not recognised as written, and is recognised by the intended test |
| ChatInterface.UserLanguage | frontend/src/components/chat/chatinterface.jsx:23 | always truthy: the user's preference when set, else the current language, else `en` |
| ChatInterface.BotText | frontend/src/components/chat/chatinterface.jsx:142 | always truthy: the reply's `response` when truthy, else its `message` when truthy, else `No response received` |
| ChatInterface.ChatView.constructor | frontend/src/components/chat/chatinterface.jsx:13-17 | the screen starts with no messages, no history, nothing loading and the sidebar closed |
| ChatInterface.ChatView.LoadChatHistory | frontend/src/components/chat/chatinterface.jsx:29-58 | loading ends in every case; a usable reply replaces the sidebar list with its grouping and any other outcome leaves the list as it was |
| ChatInterface.ChatView.HistoryClick | frontend/src/components/chat/chatinterface.jsx:60-65 | the sidebar toggles; the history is fetched only when an empty sidebar is opened, and a failed or unusable fetch leaves the list as it was |
| ChatInterface.ChatView.LoadSession | frontend/src/components/chat/chatinterface.jsx:67-88 | the view shows exactly the flattened session and the sidebar closes |
| ChatInterface.ChatView.DeleteHistory | frontend/src/components/chat/chatinterface.jsx:90-120 | nothing changes unless the user confirms and the delete succeeds; then the session leaves the sidebar, and the view is cleared exactly when it shows that session |
| ChatInterface.ChatView.SendMessage | frontend/src/components/chat/chatinterface.jsx:126-154 | the user's message is appended, then the bot's text when the query succeeded; loading ends in every case |
| ChatInterface.ChatView.ClearChat | frontend/src/components/chat/chatinterface.jsx:156-159 | the view is emptied and the sidebar list kept |
| Rag.Take | source_code_for_reference/Rag.py:199 | a Python slice `s[:n]` is the prefix of length `min(len(s), n)` |
| Rag.SumTokensConcat | source_code_for_reference/Rag.py:94-96 | the token count of a buffer adds up over concatenation, so appending a sentence adds its count |
| Rag.KeptStripped | source_code_for_reference/Rag.py:85-88 | every buffered sentence is stripped and not blank |
| Rag.KeptConcat | source_code_for_reference/Rag.py:85-95 | the sentences kept from two stretches of input are those of the first followed by those of the second, so kept sentences stay in input order |
| Rag.KeptSingle | source_code_for_reference/Rag.py:86-88 | one sentence is kept, stripped, exactly when it is not blank |
| Rag.LastTwo | source_code_for_reference/Rag.py:93 | `buf[-2:]` holds the last `min(len(buf), 2)` sentences |
| Rag.Absorb | source_code_for_reference/Rag.py:89-96 | the buffer stays the kept sentences from its start with `buf_tok` its token sum; when the sentence does not fit, the buffer is emitted only with at least `MIN_CHUNK` tokens and cut to its last two sentences either way, then the sentence is appended |
| Rag.FinalEmission | source_code_for_reference/Rag.py:97-98 | the closing flush emits a last buffer only when it is non-empty with at least `MIN_CHUNK` tokens, and keeps the chunks well formed |
| Rag.ChunkText | source_code_for_reference/Rag.py:82-99 | every chunk joins a non-empty run of kept sentences with at least `MIN_CHUNK` tokens; runs advance and overlap the previous one by at most two sentences; a text under `MIN_CHUNK` tokens gives no chunk and one of at most `CHUNK_SIZE` tokens gives exactly one |
| Rag.DedupKeep | source_code_for_reference/Rag.py:263-265 | an item with an unseen `raw` is appended as that value's first occurrence |
| Rag.DedupSkip | source_code_for_reference/Rag.py:263 | an item whose `raw` was seen is skipped without breaking the invariant |
| Rag.Dedup | source_code_for_reference/Rag.py:260-266 | the kept items are the first occurrences of their `raw` values in input order, their `raw` values are distinct, and every `raw` of the input is kept |
| Rag.LessTotal | source_code_for_reference/Rag.py:188 | Python's string order is total on distinct strings |
| Rag.LessTransitive | source_code_for_reference/Rag.py:188 | Python's string order is transitive |
| Rag.LessAsymmetric | source_code_for_reference/Rag.py:188 | Python's string order is asymmetric |
| Rag.LessIrreflexive | source_code_for_reference/Rag.py:188 | no string sorts before itself |
| Rag.Insert | source_code_for_reference/Rag.py:188 | adding a string to a strictly sorted list keeps it strictly sorted with exactly one more element |
| Rag.SortedSet | source_code_for_reference/Rag.py:188 | `sorted(set(xs))` is strictly sorted and holds exactly the elements of `xs` |
| Rag.StrictlySortedUnique | source_code_for_reference/Rag.py:188 | two strictly sorted lists with the same elements are equal |
| Rag.ExpandQuery | source_code_for_reference/Rag.py:176-188 | the expansion starts with the query and a space |
| Rag.ExpandQueryTerms | source_code_for_reference/Rag.py:176-188 | the expansion is the query, a space and the space-join of the sorted distinct extras, whichever way that listing is obtained |
| Rag.RegionAdded | source_code_for_reference/Rag.py:186-187 | `Uttarakhand` is among the extras exactly when the lower-cased query does not mention the region |
| Rag.ExpandQueryBare | source_code_for_reference/Rag.py:176-188 | with no flag set and the region named, the expansion is the query followed by one space |
| Rag.AtLeastTransitive | source_code_for_reference/Rag.py:288 | the descending order on tuple keys is transitive |
| Rag.InsertDesc | source_code_for_reference/Rag.py:203 | inserting into a descending list keeps it descending and adds exactly that element |
| Rag.SortDesc | source_code_for_reference/Rag.py:203 | the sort is descending by key and a permutation of its input |
| Rag.SortDescUniform | source_code_for_reference/Rag.py:203 | with every key equal the sort keeps the input order, as Python's stable sort does |
| Rag.TakeSplit | source_code_for_reference/Rag.py:204 | a list is the multiset union of its first `n` elements and the rest |
| Rag.Rerank | source_code_for_reference/Rag.py:196-204 | at most `RERANK_TOP` results, and none without candidates; without a reranker the first six candidates with score 1.0 in order; with one, results in descending score drawn from the scored candidates |
| Rag.RerankKeepsBest | source_code_for_reference/Rag.py:201-204 | a scored candidate the reranker leaves out scores no higher than any candidate it keeps |
| Rag.RetrieveAndRerank | source_code_for_reference/Rag.py:190-204 | the expanded query is searched first and its candidates reranked; only if that search raises is the plain query searched, and the call fails only when both raise; at most `RERANK_TOP` results |
| Rag.QaExtract | source_code_for_reference/Rag.py:269-279 | an extraction exists exactly when the pipeline answered with a non-blank stripped answer and either a score above 0.05 or some scanned number; it carries that answer, the passage and its source |
| Rag.Extractions | source_code_for_reference/Rag.py:283-287 | at most one extraction per candidate, each with a clean answer |
| Rag.ExtractionsStep | source_code_for_reference/Rag.py:283-287 | each candidate appends its extraction, if any, after those of the earlier candidates |
| Rag.AnsweredReordered | source_code_for_reference/Rag.py:288 | reordering keeps every extraction's answer clean |
| Rag.ExtractFromCandidates | source_code_for_reference/Rag.py:281-289 | the result is the stable descending sort of the candidates' extractions by the (answered, score, rerank score) key: a sorted permutation of them, each with a clean answer |
| Rag.PyStripNoop | source_code_for_reference/Rag.py:430 | stripping a text that neither starts nor ends with whitespace changes nothing |
| Rag.Respond | source_code_for_reference/Rag.py:425-432 | no candidates give the fixed `No relevant documents found.` with no sources; otherwise `extracted` is the first six of the sorted extractions, so every extraction left out ranks no higher than any kept one; the answer is the synthesis of all sorted extractions; and there is one source per kept extraction whose snippet is its answer |
| Rag.TopKept | source_code_for_reference/Rag.py:429-432 | the first six of a sorted permutation of the extractions are sorted, drawn from them, and outrank every extraction left out |
| Rag.GenerateAnswer | source_code_for_reference/Rag.py:422-432 | fails only when both searches raise; otherwise the answer `Respond` describes for the reranked candidates |
| DiseaseDetection.Extension | flask_disease_detection/app.py:160 | the extension exists exactly when the name holds a dot, and it is the dot-free text after the last dot |
| DiseaseDetection.AllowedFileExtension | flask_disease_detection/app.py:23-160 | about `DiseaseDetection.AllowedFile`: a name, a dot and a dot-free extension is allowed exactly when the lower-cased extension is `png`, `jpg`, `jpeg` or `webp` |
| DiseaseDetection.NoDotRejected | flask_disease_detection/app.py:160 | a name without a dot is never allowed |
| DiseaseDetection.UpperCaseAccepted | flask_disease_detection/app.py:160 | the extension is compared lower-cased, so `leaf.JPG` is allowed |
| DiseaseDetection.LastDotDecides | flask_disease_detection/app.py:160 | only the text after the last dot counts, so `scan.tar.webp` is allowed |
| DiseaseDetection.OtherTypesRejected | flask_disease_detection/app.py:23-160 | `photo.gif` and `png.` are refused |
| DiseaseDetection.ClassTable | flask_disease_detection/app.py:28-125 | about `DiseaseDetection.ClassName`: the class table has a name for exactly the indexes 0 to 93, so every output of the 94-way classifier is named |
| DiseaseDetection.LowerConcat | flask_disease_detection/app.py:245 | lower-casing distributes over concatenation |
| DiseaseDetection.HealthyAnywhere | flask_disease_detection/app.py:245-246 | about `DiseaseDetection.IsHealthy`: a name containing `healthy` in any letter case counts as healthy |
| DiseaseDetection.HealthyEntries | flask_disease_detection/app.py:31-61 | table entries carrying `Healthy` count as healthy |
| DiseaseDetection.NormalEntry | flask_disease_detection/app.py:97 | the rice class `normal` counts as healthy too |
| DiseaseDetection.DiseasedEntries | flask_disease_detection/app.py:42-101 | named disease classes are reported as detected |
| DiseaseDetection.DetectDisease | flask_disease_detection/app.py:202-270 | the guards answer 400 in order (no image part, empty name, bad type) before anything is saved; 200 exactly when the file is saved, the prediction succeeds with a named class and the cleanup succeeds; `detected` is true exactly on a 200 whose class is not healthy; a 200 carries the class name, the confidence and the matching message; every other failure is a 500 with `Failed to process image`; the file is removed exactly when it was saved and removal succeeded |

## Left out

- Floating point:
  - `JsNumbers` reads finite numbers as exact reals, without IEEE rounding.
  - `ToNumber` reads only a signed decimal literal or `Infinity`. An exponent (`1e3`) or a `0x`/`0b`/`0o` literal becomes NaN here, whereas JavaScript reads it as a number.
- Numbers inside JSON values are integers (`JsValue.Num(n: int)`). A fractional rating (4.5), land area (2.5) or detection `confidence` (0.93) has no representation. Members that only test such a value for truthiness or pass it on (`HooksController.ResourceEstimation`, `DiseaseService.DetectDisease`, `FlaskService.ConfidenceText`, `HooksController.RecordDetection`) would treat a fraction like any other non-zero number; `FeedbackController.RatingAccepted` is proved for integer ratings and their decimal text only (`FeedbackController.DecimalRating`), so the model says nothing about a rating of 4.5.
- TtsService.FreeTruncation: `substring(0, 200)` and `length` are modelled on characters. JavaScript counts UTF-16 code units, so a text holding characters outside the Basic Multilingual Plane (emoji, some scripts) is cut at another place and reports another `textlen`. Every other `.length` in the model (`TtsService.FreeRequestFor`, the empty-text tests) counts characters in the same way.
- Confidence rounding is an input: `round(confidence, 4)` in the classifier service and `toFixed(3)` in the cure prompt.
- `getStats` in admin.controller.js is not modelled. It is a fixed set of aggregate queries plus `toFixed(2)` of an average, of which only the float formatting would be logic.
- SQL semantics are not modelled:
  - Query texts are modelled with each whitespace run collapsed to one space.
  - The rows a query returns are inputs.
  - The count queries that interpolate values are modelled by the placeholders they carry, not by what the database would do with them.
- The connection pool, bcrypt, JWT signing and verification, multer, the image-store upload stream, axios, LibreTranslate, the Google text-to-speech APIs, the Web Speech API, `HTMLAudioElement`, `atob` and `Date.now` are foreign calls. Their outcomes are parameters.
- `JsValues.Get` reads own properties only. Properties inherited from `Object.prototype` (`constructor`, `toString`, …) are not part of this model.
- Date values: `new Date(..)` timestamps are kept as the raw value they were built from, and `toLocaleString` is rendering.
- Timers and asynchronous UI timing are not modelled:
  - the bubble's 100, 200, 300 and 500 ms retries;
  - the voice list arriving later (`WaitingForVoices` ends the click);
  - the `setTimeout` start checks that retry in English.
- Toasts, scrolling, `alert`, `console` logging and rendering are out of scope: they carry no data logic.
- TtsPlayer.Player.Play: the Blob's MIME type `audio/${format}` is not modelled; the model keeps the bytes and the object URL, not the type the browser decodes them as.
- TtsPlayer.Player.Play: the `stopAudio` it starts with is modelled with no failing browser call. `Player.Stop` covers the failing calls on its own.
- ChatInterface.GroupHistory: lists groups in the order their keys first occur. JavaScript lists integer-like keys (a session id `"42"`) first, in numeric order, and that is not modelled.
- ChatInterface.ChatView.DeleteHistory: uses the corrected current-session test (see Findings).
- `uploadImageFromPath` in r2Service.js is not modelled. It is a single foreign upload call with no logic of its own.
- Rag's inputs:
  - `sent_tokenize` and the GPT-2 `token_len`;
  - the vector store's `similarity_search` (its `k = TOP_K` is left to the store);
  - the cross-encoder and the QA pipeline;
  - `safe_source`, `classify_query`, the nine number regexes with `sentence_containing`, and `synthesize_answer`.
- Python's `lower()` is modelled as ASCII lower-casing. That is exact for file extensions and approximate for the `uttarakhand` test on non-ASCII queries.
- Scores are reals. A missing QA answer or score counts as `""` or `0.0`, as `or` makes it in the source.
- Rag.SortDesc: stability is proved only for inputs whose keys are all equal. The general stable order of Python's `sort` is not stated.
- Rag.ExtractFromCandidates: the in-place `out.sort` is modelled on a sequence value.
- DiseaseDetection.DetectDisease:
  - `secure_filename`, the path join and `os.path.exists` are left out.
  - The iteration order of the extension set, used in the invalid-type message, is the input `order`. It is required to list each allowed extension exactly once (`ListsExtensions`), as iterating the set does.
  - Logging, the `/health` route and model loading are out of scope.
- The rating guard `!rating || rating < 1 || rating > 5` lets a truthy rating through whose numeric value is NaN (the text "abc", the array `["abc"]`, an object), because comparisons with NaN are false. This is proved as `FeedbackController.NonNumericRatingPasses`, and the model keeps that behaviour rather than claiming it as a finding. An array is compared through its text, so `[]` and `[9]` are refused (`FeedbackController.ArrayRating`).
- Concurrency: each handler is one sequential run. Overlapping React state updates and `Promise.all` are out of scope.

## Findings

| source | as written | input that shows it | evidently intended | confidence | as-written member | corrected member |
|---|---|---|---|---|---|---|
| agroshakti-backend/src/services/r2Service.js:97-102 | the pattern `/([^/]+/[^/]+/[^/.]+)` matches at the first `/` of the URL, so the result is host/cloud/resource type | `https://res.cloudinary.com/demo/image/upload/v1234567890/agroshakti/surveys/image.jpg` gives `res.cloudinary.com/demo/image` | the path after `upload/v<version>/` without its extension, `agroshakti/surveys/image`, as the function's comment shows | not executed | R2Service.DocExampleMismatch | R2Service.PublicIdRoundTrip |
| frontend/src/components/chat/chatinterface.jsx:104-111 | the current-session test compares `parts[1]` of `id.split('-')` with the session id | after loading session `a-b`, its message ids are `history-a-b-0-user`, whose `parts[1]` is `a`, so deleting `a-b` leaves its messages on screen | recognise a message as belonging to the session when its id is `history-<sessionId>-<idx>-<sender>` | not executed | ChatInterface.DashedSessionMissed | ChatInterface.LoadedSessionRecognised |
