# Movie Watchlist — a Dafny model of its search, enrichment and list logic

Movie Watchlist is a small movie/TV tracker. Users sign in, search a movie
database provider through a gateway edge function, and keep two lists of
titles: *watched* and *watchlist*. This project models the deterministic
part of it and proves properties of that model.

- **Gateway** (`SearchMedia`, from `supabase/functions/search-media/index.ts`).
  The request handler is the pure function `Handle`. It answers the preflight
  first, then checks the server key, then takes the detail path when both `id`
  and `type` are given, then checks the query, then searches. Search results
  keep only movies and shows, in the provider's order, each reshaped to a
  stable record. A detail answer is a tagged union on the kind.
- **Search dialog** (`SearchModal`, from `src/components/SearchModal.tsx`).
  `Enriched` is the record `addMedia` inserts. The method `BuildRecord` builds
  it step by step, as the source does. The class `Modal` holds the dialog's
  state: `SearchMedia` searches and `AddMedia` adds.
- **Hosted tables** (`Store`). The two tables are modelled as the client sees
  them. An insert gets a database-assigned id and time stamp. A delete removes
  by id. A select returns rows latest first. A unique constraint on
  (`user_id`, `tmdb_id`) rejects a second copy of a title with code `23505`.
  The database schema is not part of this model. The constraint is inferred
  from the client's handling of `23505`.
- **Dashboard** (`Dashboard`, from `src/components/Dashboard.tsx`). The class
  `Board` holds the two loaded lists. It reloads, deletes by id and moves a
  title from the watchlist to the watched list. `TotalEpisodes` is the
  episode total.
- **Sign-in form** (`AuthForm`, from `src/components/Auth.tsx`). The class
  `Form` holds the form's fields. Its three submit handlers are specified by
  the transition functions `Submitted`, `ForgotSubmitted` and
  `ResetSubmitted`. `ResetProblem` is the reset-password validator.
- `Js` and `Text` model the JavaScript behaviour these rely on: truthiness
  and `a || b`, `join`, ASCII `toUpperCase`, `trim`, and number-to-string.

Calls to the provider, the gateway, the tables and the authentication
service are parameters. Each is either an outcome (a reply, a fault code,
whether the call got through) or, for the provider, a function from request
to reply.

Reading the model shows that the client falls back from `release_date` to
`first_air_date`, but the gateway never forwards `first_air_date`. So a show's
release-date column is always empty (`ShowReleaseDateEmpty`).

## Model

| member | source | states |
|---|---|---|
| `SearchMedia.Handle` | supabase/functions/search-media/index.ts:51-186 | OPTIONS gets 200, the CORS headers and no body, before any other check. A missing or empty key gives 500 with the configuration message, whatever the parameters. 400 "Query parameter is required" happens exactly when `id`/`type` are not both given and `query` is absent or empty. Statuses are only 200, 400 and 500, and 500 always has an error body. Every response carries the CORS headers. |
| `SearchMedia.DetailPath` | supabase/functions/search-media/index.ts:79-131 | When `id` and `type` are both non-empty, the detail path is taken even if a query is present. Exactly `tv` asks the tv endpoint; any other type asks the movie endpoint. A non-ok reply gives 500 with that endpoint's message. A call that throws gives 500 with the exception's message. Otherwise the answer is 200 with the detail object of the endpoint's kind. |
| `SearchMedia.SearchPath` | supabase/functions/search-media/index.ts:134-176 | With no detail parameters and a non-empty query, the answer is 200 with the reshaped results, or 500 "Failed to search TMDB" when the provider's reply is not ok, or 500 with the exception's message when the call throws. |
| `SearchMedia.TvDetails` | supabase/functions/search-media/index.ts:91-100 | The tv detail object renames `number_of_episodes`/`number_of_seasons` to `total_episodes`/`total_seasons` and keeps status, genres, rating, language and credits. It has no runtime, budget, revenue or release date. |
| `SearchMedia.MovieDetails` | supabase/functions/search-media/index.ts:116-126 | The movie detail object has runtime, budget, revenue and release_date, plus the shared fields. It has no episode, season or status field. |
| `SearchMedia.Reshape` | supabase/functions/search-media/index.ts:156-169 | The title is the provider's title if truthy, else its name. The year comes from the release date if truthy, else from the first-air date if truthy, else it is null. The poster is the w500 image base followed by the path exactly when a path is present, else null. The kind string round-trips. |
| `SearchMedia.SearchResults` | supabase/functions/search-media/index.ts:154-155 | The output is never longer than the provider's list. |
| `SearchMedia.SearchResultsAppend` | supabase/functions/search-media/index.ts:154-169 | Filtering and mapping distribute over concatenation, so the provider's order is kept. |
| `SearchMedia.SearchResultsExact` | supabase/functions/search-media/index.ts:154-169 | The output is exactly the `movie`/`tv` entries, one for each, each reshaped, in increasing provider position. |
| `SearchModal.Modal.constructor` | src/components/SearchModal.tsx:22-26 | The dialog starts with an empty query, no results, no message, `loading` off and no title being added. |
| `SearchModal.Modal.SearchMedia` | src/components/SearchModal.tsx:29-61 | A blank or whitespace-only query sends nothing and changes nothing. Any other query is sent to the search path. Afterwards `loading` is off. Success clears the error and sets the results, or an empty list when the answer has none. Failure sets the search message and keeps the results. |
| `SearchModal.SearchRequestReachesSearch` | src/components/SearchModal.tsx:30-47 | A search the dialog sends always takes the gateway's search path. |
| `SearchModal.BuildRecord` | src/components/SearchModal.tsx:67-148 | The step-by-step fold of a dozen locals yields exactly the record `Enriched` describes. |
| `SearchModal.Enriched` | src/components/SearchModal.tsx:67-148 | The record `addMedia` inserts. Owner, provider id, title, kind, year, poster and description come from the search result, whatever the detail answer. The enrichment columns are stated by the lemmas below. |
| `SearchModal.DefaultsWithoutDetails` | src/components/SearchModal.tsx:67-78 | With no ok detail answer: episodes and seasons are 0; genres, director, language, release date, cast and status are empty; rating, runtime, budget and revenue are null. |
| `SearchModal.DetailColumns` | src/components/SearchModal.tsx:94-125 | For an ok detail answer, the rating is `vote_average` when non-zero, else null. The language is the code upper-cased, or empty. A missing genre, crew or cast list gives an empty column. For a movie, runtime, budget and revenue are the detail values when non-zero, else null, and the release date is `release_date`, or empty. |
| `SearchModal.KindSpecificColumns` | src/components/SearchModal.tsx:96-104 | A show never gets runtime, budget or revenue. A movie keeps 0 episodes and seasons and an empty status. A movie's runtime is set exactly when the detail runtime is present and non-zero. A non-zero episode count comes only from a show's detail answer. |
| `SearchModal.ShowReleaseDateEmpty` | src/components/SearchModal.tsx:109 | For a show, the release-date column is always empty. |
| `SearchModal.MainCast` | src/components/SearchModal.tsx:120-125 | The names of the first min(5, cast size) cast members, in order. |
| `SearchModal.DirectorsIn` | src/components/SearchModal.tsx:112-114 | A name is listed exactly when some crew entry with job exactly `Director` has it. The list is never longer than the crew. |
| `SearchModal.DirectorsInAppend` | src/components/SearchModal.tsx:112-114 | Director extraction distributes over concatenation, so crew order is kept. |
| `SearchModal.DirectorNames` | src/components/SearchModal.tsx:111-118 | At most the first two directors, in crew order: a prefix of all directors, of length min(2, count). |
| `SearchModal.GenreNames` | src/components/SearchModal.tsx:106 | One genre name per genre, in order. |
| `SearchModal.GenresColumn` | src/components/SearchModal.tsx:106 | When no genre name contains a comma, the genres column splits back into exactly the genre names, in order. No genres give an empty column. |
| `SearchModal.DirectorColumn` | src/components/SearchModal.tsx:111-118 | When no crew name contains a comma, the director column splits back into exactly the first two directors, in crew order. No director gives an empty column. |
| `SearchModal.CastColumn` | src/components/SearchModal.tsx:120-125 | When no cast name contains a comma, the cast column splits back into exactly the first five cast members, in order. No cast gives an empty column. |
| `SearchModal.DetailRequest` | src/components/SearchModal.tsx:83-91 | The detail request is a GET with a non-empty `id` and `type`, so the gateway takes its detail path. The endpoint the type selects is the tv endpoint exactly for a show. |
| `SearchModal.AsDetailReply` | src/components/SearchModal.tsx:93-94 | A gateway answer reads as a detail object only when its status is 2xx and its body is that object. A non-2xx answer reads as not ok. A `fetch` that got an answer never counts as a throw. |
| `SearchModal.DetailRequestMatchesKind` | src/components/SearchModal.tsx:83-96 | The detail request for a result always reaches the detail path of the result's own kind. An ok answer is a tv object exactly for a show. It is ok exactly when the provider answered. |
| `SearchModal.ShowCountsEndToEnd` | src/components/SearchModal.tsx:96-99 | For a show, the provider's episode and season counts reach the inserted record (0 when missing or zero), and so does the status (empty when missing). |
| `SearchModal.Modal.AddMedia` | src/components/SearchModal.tsx:63-168 | A detail fetch that throws inserts nothing and sets the generic message. Otherwise the record is `Enriched` (with defaults if the answer was not ok). It goes into `watched_items` exactly when the dialog is for the watched list. Code `23505` sets "already in your list" and does not call `onAdd`. Any other error sets the generic message. Success calls `onAdd` and leaves the message. `addingId` is null afterwards. |
| `Store.InsertError` | src/components/SearchModal.tsx:151-157 | An insert fails exactly on a service fault or a clash with a stored title of the same user. Without a fault, the failure is `23505`. |
| `Store.InsertKeepsKeysUnique` | src/components/SearchModal.tsx:151-157 | An insert the constraint admits keeps the table free of duplicate (user, title) pairs. |
| `Store.SecondInsertRejected` | src/components/SearchModal.tsx:154-155 | A second insert of a stored title fails with `23505`, and exactly one row of that title is left. |
| `Store.Without` | src/components/Dashboard.tsx:51 | Delete by id keeps exactly the rows whose id differs, and never adds rows. |
| `Store.WithoutAppend` | src/components/Dashboard.tsx:51 | Deletion distributes over concatenation, so the remaining rows keep their order. |
| `Store.WithoutNoop` | src/components/Dashboard.tsx:51 | Deleting an id no row has leaves the table exactly as it was. |
| `Store.WithoutIdempotent` | src/components/Dashboard.tsx:51 | Deleting an id a second time changes nothing. |
| `Store.WithoutKeepsKeysUnique` | src/components/Dashboard.tsx:51 | Deletion keeps the table free of duplicate titles. |
| `Store.InsertDescSorted` | src/components/Dashboard.tsx:29-32 | Inserting into a latest-first list keeps it latest first. |
| `Store.OrderByDesc` | src/components/Dashboard.tsx:29-32 | The selected rows are a reordering of the table, latest first. |
| `Store.Tables.Select` | src/components/Dashboard.tsx:29-32 | `select('*').order(column, descending)`: every row of the table, each exactly as often as stored, latest first. |
| `Store.Tables.Insert` | src/components/SearchModal.tsx:150-151 | A successful insert appends the new row to the named table only. A failed insert changes nothing. The constraint invariant is kept. |
| `Store.Tables.Delete` | src/components/Dashboard.tsx:50-58 | A delete that gets through removes the rows with that id from the named table only. |
| `Dashboard.Board.constructor` | src/components/Dashboard.tsx:12-14 | Both lists start empty, and `loading` starts on. |
| `Dashboard.Board.LoadWatchedItems` | src/components/Dashboard.tsx:28-37 | A load that gets through holds the watched rows ordered by `watched_at`, latest first. A failed load keeps the list already held. |
| `Dashboard.Board.LoadWatchlistItems` | src/components/Dashboard.tsx:39-48 | The same for the watchlist, ordered by `created_at`. |
| `Dashboard.Board.LoadData` | src/components/Dashboard.tsx:22-26 | Both lists are loaded, and then `loading` is off. |
| `Dashboard.Board.DeleteWatchedItem` | src/components/Dashboard.tsx:50-53 | Only watched rows with that id are removed. The watchlist table and the watchlist held are untouched. Only the watched list is reloaded. |
| `Dashboard.Board.DeleteWatchlistItem` | src/components/Dashboard.tsx:55-58 | The mirror image for the watchlist. |
| `Dashboard.Board.MoveToWatched` | src/components/Dashboard.tsx:60-73 | The watchlist row is deleted first. The insert of the reduced copy is attempted whatever the delete did. Then both lists are reloaded. |
| `Dashboard.Moved` | src/components/Dashboard.tsx:62-71 | The moved row carries the signed-in user and only title, kind, year, poster, episodes, seasons and provider id. Every enrichment column is left out. |
| `Dashboard.MoveOutcomes` | src/components/Dashboard.tsx:60-71 | If the delete succeeds and the insert hits a fault, the title is in neither table. If the constraint rejects the insert, the watched table already held the title. |
| `Dashboard.Reduce` | src/components/Dashboard.tsx:85 | Folding the reducer `acc + (total_episodes \|\| 0)` from an accumulator adds the episode sum of the list to it. |
| `Dashboard.TotalEpisodes` | src/components/Dashboard.tsx:85 | `totalEpisodes` is the sum of the list's episode counts, a missing or zero count counting 0. |
| `Dashboard.EpisodeSumAppend` | src/components/Dashboard.tsx:85 | The episode sum distributes over concatenation. |
| `Dashboard.EpisodeSumReorder` | src/components/Dashboard.tsx:85 | The episode sum does not depend on the order of the list. |
| `Dashboard.TotalOfLoadedList` | src/components/Dashboard.tsx:28-37 | The total over the loaded watched list equals the sum over the watched table, whatever the load order. |
| `AuthForm.ResetProblem` | src/components/Auth.tsx:78-86 | No problem exactly when the passwords match and have at least 6 characters. The mismatch message appears exactly when they differ, so it is checked first. The length message appears exactly when they match and are too short. |
| `AuthForm.Submitted` | src/components/Auth.tsx:25-49 | A successful sign-up sets the success message, clears e-mail and password and returns to sign-in mode. A successful sign-in changes nothing but the cleared messages. A failure sets the service's message, or the unexpected-error message when the call threw. `loading` ends off. |
| `AuthForm.ForgotSubmitted` | src/components/Auth.tsx:51-71 | Success reports the sent link and clears the e-mail. Failure sets its message. Only error, success, e-mail and loading change, and `loading` ends off. |
| `AuthForm.ResetSubmitted` | src/components/Auth.tsx:73-106 | A validation problem sets its message, with no other change (`loading` untouched). Otherwise a successful update clears both password fields and leaves reset mode. A failure sets its message. `loading` ends off. |
| `AuthForm.ResetCall` | src/components/Auth.tsx:78-91 | `updatePassword` is called exactly when validation passes. |
| `AuthForm.MessagesCleared` | src/components/Auth.tsx:27-28 | What each handler leaves never depends on the error and success messages held before it. |
| `AuthForm.Form.constructor` | src/components/Auth.tsx:6-23 | Every field starts empty or off, except reset mode, which is on exactly when the page was opened with `reset=true`. |
| `AuthForm.Form.HandleSubmit` | src/components/Auth.tsx:25-49 | Calls sign-up or sign-in with the current credentials, and the fields change as `Submitted` says. |
| `AuthForm.Form.HandleForgotPassword` | src/components/Auth.tsx:51-71 | Calls the reset-link service with the current e-mail, and the fields change as `ForgotSubmitted` says. |
| `AuthForm.Form.HandleResetPassword` | src/components/Auth.tsx:73-106 | Makes the call `ResetCall` names, and the fields change as `ResetSubmitted` says. |
| `Text.Join` | src/components/SearchModal.tsx:106-124 | Joining no entries gives the empty string. Otherwise the result is as long as the entries plus one separator between each two. |
| `Text.SplitJoin` | src/components/SearchModal.tsx:116 | Splitting a joined list gives back its entries when none contains the separator's first character. |
| `Text.Trim` | src/components/SearchModal.tsx:30 | `trim()` is never longer than its input and has no white space at either end. |
| `Text.TrimEmptyIffBlank` | src/components/SearchModal.tsx:30 | `trim()` gives the empty string exactly for text made only of ECMAScript white space. |
| `Text.UpperIsUpper` | src/components/SearchModal.tsx:108 | An upper-cased string has no lower-case ASCII letter, and upper-casing it again changes nothing. |
| `Text.Upper` | src/components/SearchModal.tsx:108 | Upper-casing keeps the length and maps each character to its upper case. |

## Left out

- The network itself. Provider, gateway, table and authentication calls are parameters (replies, fault codes, whether a call got through). So are URL building, `encodeURIComponent` and the API key in the provider URL.
- `SearchMedia.Reshape`: the year of a date string is the parameter `yearOf`. The JavaScript `Date` parsing and its time-zone dependence are not modelled.
- A provider call that throws (a failed `fetch` or unparsable JSON) is the outcome `Threw` with the exception's message. Which exceptions arise is not modelled. Well-formed JSON that lacks `results` (a throw in `.filter`) is not modelled either. On the client side, unparsable gateway JSON is folded into `Threw` for `addMedia` and into a failed reply for `searchMedia`.
- `vote_average` is a real number. Only its falsy-to-null rule is modelled. Floating-point arithmetic is not (none is done).
- `Text.Upper`: only ASCII letters change. `toUpperCase` on other scripts is not modelled.
- `AuthForm.ResetProblem`: password length is counted in Unicode scalar values, whereas JavaScript counts UTF-16 code units. The two differ only for characters outside the Basic Multilingual Plane.
- Concurrency: `Promise.all` in `loadData`, overlapping clicks and interleaved async handlers. Each handler runs to completion, one after the other. The `loading`/`addingId` values held while a call is outstanding are not observable in the model; only the final values are stated.
- `Store.OrderByDesc`: rows with equal time stamps keep their table order, whereas the database leaves their order unspecified. Time stamps are integers.
- Row-level security: the tables hold only the signed-in user's rows.
- The rendering, `MediaCard`, the mode toggles bound to buttons, `console.error` logging, and `src/lib/supabase.ts` (client construction).
- `user!.id` on a missing user: the dialog and the dashboard are given the signed-in user's id.
- A gateway answer with status 2xx but no detail object maps to a non-ok detail reply in `SearchModal.AsDetailReply`. That case cannot arise on the detail path (`SearchModal.DetailRequestMatchesKind`).
