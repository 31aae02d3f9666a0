# janus backend — a Dafny model

janus is a personal "time machine" assistant. Its backend has two halves:

- **Past mode**: the user captures URLs, text or voice notes. A nightly batch summarises every unprocessed capture of the last day. The morning digest lists the user's processed captures, newest first.
- **Future mode**: the backend reads the user's calendar, generates a pre-meeting briefing for one event with the Gemini model, and stores it. The user can list their stored briefings, newest first.

The model covers the five core files of the backend:

| module | file | form |
|---|---|---|
| `Firestore` (+ `Ranking`) | `backend/services/firestore_service.py` | class `FirestoreService` over an in-memory `users` map |
| `Calendar` | `backend/services/calendar_service.py` | event shaping as functions; the two loops as methods |
| `Gemini` | `backend/services/gemini_service.py` | pure functions of the model and the page fetcher |
| `PastMode` | `backend/api/past_mode.py` | endpoint methods on the store; the batch as a loop |
| `FutureMode` | `backend/api/future_mode.py` | endpoint methods on the store and the calendar |

`Common` holds `Option`, `Result`, the time constants and `Distinct`.

Conventions used throughout:

- **Store.** The database is a map from user id to that user's two sub-collections, `captures` and `briefings`. Each sub-collection maps a document id to its document. A store without a configured project has no database. In that case it returns `"mock-capture-id"` or `"mock-briefing-id"`, or an empty list, and writes nothing.
- **Queries.** An `order_by(..., DESCENDING).limit(n)` query is specified by `Ranking.IsTopByRank`: the first `min(n, pool size)` documents by rank, with no document left out that outranks one that was picked. It is implemented by `Ranking.TopByRank`.
- **Batch scan.** The scan for unprocessed captures is specified by `Firestore.IsPending`. The store also records which user documents `users/{uid}` exist. Nothing in the backend creates one, and the scan as written visits only those users, so it misses every capture the backend saved (see "## Findings"). The batch uses the intended scan, which visits every user that owns captures.
- **Update calls.** `update_capture_summary` stores nothing. Its calls are recorded in a ghost log, `summaryUpdates`, so the batch's contract can say which calls it made.
- **Clocks and ids.** Clocks (`datetime.now()`, `utcnow()`) are `Instant` parameters, in microseconds. Fresh `uuid4` ids are a `newId` parameter.
- **External services.** The calendar provider, the Gemini model and the page fetcher are function-typed parameters. Each returns a value or an error: an `HttpError` for the calendar, the raised exception's message for the others.

## Model

| member | source | states |
|---|---|---|
| Ranking.TopByRank | backend/services/firestore_service.py:33-40 | the query result holds distinct documents of the pool, ordered by rank with the largest first. It holds exactly min(limit, pool size) of them, and no document left out outranks a picked one |
| Firestore.PutCapture | backend/services/firestore_service.py:20-24 | writing a capture adds exactly `newId` to its owner's captures, holding the data with `id` set to `newId`. Every other capture, the owner's briefings and every other user are unchanged |
| Firestore.PutBriefing | backend/services/firestore_service.py:99-108 | the same for a briefing: exactly one briefing is added or replaced, and nothing else changes |
| Firestore.ToDigestEntry | backend/services/firestore_service.py:46-54 | the digest record keeps the document's id, type, content, timestamp and processed flag. A missing summary becomes "" |
| Firestore.PendingIsUnprocessedAndRecent | backend/services/firestore_service.py:69-80 | every record of the scan is an unprocessed document of its user, stamped at or after the cutoff, with the same content |
| Firestore.SavedCaptureIsPending | backend/services/firestore_service.py:15-26 | a capture saved unprocessed is pending for every later scan whose cutoff is at or before its timestamp, and it is not among the processed captures. The intended scan finds it; the scan as written finds it only if its owner's user document exists |
| Firestore.BriefingEntriesOrdered | backend/services/firestore_service.py:121-137 | briefing records read in query order have non-increasing `created_at` |
| Firestore.FirestoreService.constructor | backend/services/firestore_service.py:8-13 | a service starts with the given configuration, user documents and contents, and an empty update log |
| Firestore.FirestoreService.SaveCapture | backend/services/firestore_service.py:15-26 | without a database, it returns the mock id and writes nothing. Otherwise it returns `newId`, and the store becomes `PutCapture` of the old store |
| Firestore.FirestoreService.GetProcessedCaptures | backend/services/firestore_service.py:28-56 | without a database, the result is empty. Otherwise the ids are the top `limit` processed captures by timestamp, and each record is the digest record of its document. Every record is processed, with timestamps non-increasing |
| Firestore.FirestoreService.ScanOwners | backend/services/firestore_service.py:66-80 | the nested loops over the given users and their captures collect, each exactly once, every unprocessed capture of those users stamped at or after the cutoff, tagged with its document id and owner, and nothing else |
| Firestore.FirestoreService.GetUnprocessedCapturesAsWritten | backend/services/firestore_service.py:58-82 | without a database, the result is empty. Otherwise it holds exactly the pending captures of the last day whose owner's user document exists |
| Firestore.FirestoreService.GetUnprocessedCaptures | backend/services/firestore_service.py:58-82 | the intended scan. Without a database, the result is empty. Otherwise it holds, each exactly once, every unprocessed capture of every user stamped at or after one day before `now`, tagged with its document id and owner, and nothing else |
| Firestore.FreshCaptureScans | backend/services/firestore_service.py:69 | on an empty database, after one recent capture is saved, the scan as written returns nothing while the intended scan returns exactly that capture |
| Firestore.FirestoreService.UpdateCaptureSummary | backend/services/firestore_service.py:84-92 | the store is unchanged; the call is appended to the update log |
| Firestore.FirestoreService.SaveBriefing | backend/services/firestore_service.py:94-110 | without a database, it returns the mock id and writes nothing. Otherwise it returns `newId`, and the store becomes `PutBriefing` of the old store |
| Firestore.FirestoreService.GetUserBriefings | backend/services/firestore_service.py:112-139 | without a database, the result is empty. Otherwise the ids are the top `limit` briefings by `created_at`, each record carries its document's fields, and `created_at` is non-increasing |
| Calendar.When | backend/services/calendar_service.py:51 | an event time is its `dateTime`, or its `date` when it has none. It is absent only when both are absent |
| Calendar.FormatUpcoming | backend/services/calendar_service.py:53-63 | the upcoming record keeps the id. Title, description, attendees, location, created and updated keep the item's value when present; otherwise the title is "No title", the attendees none and the others "". Start and end are `When` of the item's times |
| Calendar.ToDetails | backend/services/calendar_service.py:83-93 | the single-event record keeps id, start and end whole. Title, description, attendees, location, created and updated keep the item's value when present; otherwise the title is "No title", the attendees none and the others "" |
| Calendar.ToCandidate | backend/services/calendar_service.py:125-133 | the briefing candidate keeps id, start and end. Title, description, attendees and location keep the item's value when present; otherwise the title is "No title", the attendees none and the others "" |
| Calendar.Candidates | backend/services/calendar_service.py:121-135 | filtering never adds events |
| Calendar.ProviderItems | backend/services/calendar_service.py:29-46 | no service or an HTTP error yields no items. Otherwise the reply's `items` are used, or none when the key is missing |
| Calendar.GetUpcomingEvents | backend/services/calendar_service.py:27-70 | the result has one formatted record per provider item of the next `daysAhead` days, in the provider's order. It is empty without a service |
| Calendar.GetEvent | backend/services/calendar_service.py:72-97 | there is an event exactly when a service exists and the provider found it. The event is the details record of the provider's item |
| Calendar.GetEventsForBriefing | backend/services/calendar_service.py:99-139 | the result is the candidates of the provider items of the next `hoursAhead` hours, in order. It is empty without a service |
| Calendar.CandidatesAppend | backend/services/calendar_service.py:121-133 | the filter distributes over concatenation: each item is judged on its own |
| Calendar.CandidatesExact | backend/services/calendar_service.py:122-133 | an item is kept if and only if it has attendees or a non-empty description, in both directions |
| Calendar.NothingWorthBriefing | backend/services/calendar_service.py:124 | items without attendees and without a description yield no candidates |
| Gemini.SplitWordsVisible | backend/services/gemini_service.py:32 | `split()` keeps every non-whitespace character in order |
| Gemini.JoinWordsVisible | backend/services/gemini_service.py:32 | `' '.join` of words without whitespace adds only the separators |
| Gemini.JoinWordsCollapsed | backend/services/gemini_service.py:32 | joining words without whitespace gives text whose only whitespace is single spaces between words. It is empty only for no words |
| Gemini.SplitJoinRoundTrip | backend/services/gemini_service.py:32 | splitting the join of non-empty whitespace-free words gives back the same words |
| Gemini.CollapseWhitespaceSpec | backend/services/gemini_service.py:32 | collapsing keeps the visible characters. The result has no leading, trailing or repeated whitespace, and is empty only for all-whitespace text |
| Gemini.CollapseWhitespaceIdempotent | backend/services/gemini_service.py:32 | collapsing twice is collapsing once |
| Gemini.TruncateText | backend/services/gemini_service.py:34-35 | text of at most 5000 characters is kept whole. Longer text becomes its first 5000 characters followed by "..." |
| Gemini.PreparePageText | backend/services/gemini_service.py:31-35 | the page text sent to the model is at most 5003 characters |
| Gemini.ShortPageTextIsCollapsedWhole | backend/services/gemini_service.py:31-35 | a page whose collapsed text fits the budget is sent collapsed and whole |
| Gemini.AttendeeEmails | backend/services/gemini_service.py:87 | no more emails than attendees, and none of them empty |
| Gemini.AttendeeEmailsAppend | backend/services/gemini_service.py:87 | the email list distributes over concatenation of attendee lists |
| Gemini.AttendeeEmailsExact | backend/services/gemini_service.py:87 | a string is listed if and only if some attendee has it as a non-empty email |
| Gemini.SummarizeUrl | backend/services/gemini_service.py:19-56 | the model's answer when the fetch and the model succeed. Otherwise the result starts with "URL: " and the url: the error text for a failed fetch or a failed model call, or the no-model notice when there is no model |
| Gemini.SummarizeText | backend/services/gemini_service.py:58-78 | the model's answer when it answers, and the error message when the call fails. Without a model, the notice followed by the first 200 characters of the text and "..." |
| Gemini.BriefingPromptFor | backend/services/gemini_service.py:83-87 | a missing title or description reads as "". The prompt's emails are `AttendeeEmails` of the event's attendees, or none when it has no attendees |
| Gemini.GenerateBriefing | backend/services/gemini_service.py:80-112 | the model's answer when it answers, and the error message when the call fails. Without a model, the result starts with "イベント: " and the title |
| PastMode.NewCapture | backend/api/past_mode.py:36-43 | the new document belongs to the caller and has the request's type and content. It is stamped `now`, unprocessed and without a summary, and its metadata is `{}` when the request has none |
| PastMode.CaptureContent | backend/api/past_mode.py:28-53 | the store receives exactly `NewCapture` under `newId`, or nothing without a database. The response echoes the request with the returned id and is unprocessed |
| PastMode.GetDigest | backend/api/past_mode.py:55-65 | the digest is the top 20 processed captures of the caller, newest first, each with its summary, stamped `now` |
| PastMode.Dispatch | backend/api/past_mode.py:78-83 | a capture is skipped if and only if its type is neither "url" nor "text". Otherwise the matching summariser's answer, or failure, decides the outcome |
| PastMode.UpdatesFor | backend/api/past_mode.py:76-90 | at most one update call per scanned capture |
| PastMode.ProcessBatch | backend/api/past_mode.py:67-92 | the store is unchanged. The scan, which is the intended one, is exactly the pending captures, each once. The update calls are those `UpdatesFor` gives for the scan, and the count is their number |
| PastMode.SummarizeScan | backend/api/past_mode.py:75-90 | the loop leaves the store unchanged, makes exactly the update calls `UpdatesFor` gives for the scan, in order, and counts them |
| PastMode.SummarizeOne | backend/api/past_mode.py:77-90 | one capture: the store is unchanged, and exactly the update `UpdateFor` gives is called. The capture is counted if and only if that update exists |
| PastMode.UpdatesForAppend | backend/api/past_mode.py:76-90 | each capture's outcome is independent: the calls for a scan are those for each part, in order |
| PastMode.UpdatesForExact | backend/api/past_mode.py:76-90 | every update call carries the id and summary of a summarised capture, and every summarised capture gets its call |
| PastMode.AllSummarizedAllCounted | backend/api/past_mode.py:75-86 | when every capture is summarised, every capture is counted |
| PastMode.SingleFailureIsolated | backend/api/past_mode.py:88-90 | one capture whose summariser raises lowers the count by exactly one |
| PastMode.CountIsSummarizedSetSize | backend/api/past_mode.py:75-86 | for a scan without repeats, the count is the number of distinct summarised captures |
| PastMode.CountIgnoresScanOrder | backend/api/past_mode.py:73-86 | two scans holding the same captures give the same count, whatever their order |
| PastMode.GeminiBatchCountsEverySummarizable | backend/api/past_mode.py:78-86 | with the Gemini summarisers, which never raise, the count is the number of url and text captures |
| PastMode.SameScanInWindow | backend/services/firestore_service.py:64-74 | while no pending capture leaves the window, a later cutoff selects the same captures |
| PastMode.BatchRerunCountsAgain | backend/api/past_mode.py:67-92 | the update stores nothing. So a second run at any later instant, before a pending capture leaves the 24-hour window, scans the same captures. It summarises again every capture the first run summarised, and gives the same count |
| FutureMode.GetUpcomingEvents | backend/api/future_mode.py:28-44 | the response holds one formatted record per provider item of the next `daysAhead` days, stamped `now` |
| FutureMode.BriefingRecord | backend/api/future_mode.py:65-72 | the briefing document carries the caller, the requested event id, the event's title, its start `dateTime`, the content and `now` |
| FutureMode.GenerateBriefing | backend/api/future_mode.py:46-83 | a missing event gives 404 and no write. An event without a start `dateTime` gives a server error and no write. Otherwise exactly the briefing record is stored under the returned id and echoed in the response |
| FutureMode.BriefingWriteIsSingle | backend/api/future_mode.py:64-74 | a stored briefing adds exactly one briefing to its owner, holding the record with the new id. The owner's captures are unchanged |
| FutureMode.BriefingResponses | backend/api/future_mode.py:92-102 | one response per stored briefing, in order, with every field copied |
| FutureMode.ResponseOf | backend/api/future_mode.py:93-100 | a response carries all six fields of its briefing document |
| FutureMode.GetBriefings | backend/api/future_mode.py:85-102 | the responses are the caller's top 20 briefings by creation time, newest first. Each is the `ResponseOf` of its document, with all six fields |

## Left out

- **Authentication.** The `get_current_user` dependency and its 401 responses are not modelled. The caller's uid is a parameter.
- **HTTP, HTML and models.** The HTTP fetch and the HTML parsing in `summarize_url` are out of scope. Script, style, nav, header and footer removal, and `get_text`, are folded into an abstract fetcher that returns the page's text or an error. The prompt wording is left out: a prompt is the data it embeds. The Gemini model is an abstract function.
- **Logging and configuration.** `print` logging is not modelled. The environment lookups that decide whether a database, calendar service or model exists become a flag or an `Option`.
- **Other exceptions.** The calendar methods catch only `HttpError`. Other exceptions would propagate as server errors and are not modelled. Neither are `KeyError`s on malformed provider items or stored documents (a missing `id`, `start`, `type` and so on), except the missing `dateTime` in `generate_briefing`.
- **Response datetime parsing.** `BriefingResponse` parses `event_time` with `datetime.fromisoformat` and pydantic validation. That parsing is left out: the event time stays the provider's text.
- **FutureMode.GenerateBriefing:** in the source, `datetime.fromisoformat` runs after `save_briefing` (backend/api/future_mode.py:74-82). An `event_time` it rejects produces a 500 after the briefing is already stored. The model's `Success` response does not show that case.
- **Metadata.** Capture `metadata` is simplified to a string-to-string map.
- **Mutated arguments.** `save_capture` and `save_briefing` also write the new id into the caller's dictionary. The model returns the id and writes it into the stored document instead.
- **Ties and scan order.** Query tie order among equal timestamps or creation times is left open. The cross-user scan visits users, and the captures of each user, in an unspecified order; the source's order (users by document id, each user's captures by `timestamp`, then by document name) is not modelled. So the order of the batch's update calls is left open too. Only the count is proved independent of it (`PastMode.CountIgnoresScanOrder`).
- **Unused parameters.** `hours_before` is accepted and never used. `user_id` is never used by the calendar service, which reads the service account's primary calendar.
- **Calendar defaults.** `get_events_for_briefing` has no caller in the core. It and `get_upcoming_events` take their window as a parameter. The source's defaults, 24 hours and 7 days, are not modelled separately.
- **Firestore.FirestoreService.UpdateCaptureSummary:** the summary update stores nothing, because that is what the code does. The source's own comment calls it a simplified placeholder (backend/services/firestore_service.py:89-91). So `processed` never becomes true, and the batch does not skip captures it already summarised. The model proves, in `PastMode.BatchRerunCountsAgain`, that a rerun inside the window counts the same captures again.
- **PastMode.ProcessBatch:** the summarisers are abstract functions of the capture content that return a summary or raise. A summariser that answers differently on a second call (a flaky network, a changed page) is not modelled. The awaits are sequential, so the model has no concurrency. The batch uses the intended scan (see "## Findings").
- **Calendar.Candidates:** its own contract states only that filtering never adds events. The filter's meaning is stated by `Calendar.CandidatesExact` and `Calendar.CandidatesAppend`.
- **PastMode.UpdatesFor:** its own contract states only the length bound. Its meaning is stated by `PastMode.UpdatesForExact` and `PastMode.UpdatesForAppend`.

## Findings

| source | as written | input that shows it | evidently intended | confidence | as-written member | corrected member |
|---|---|---|---|---|---|---|
| backend/services/firestore_service.py:69 | The scan lists users with `users.stream()`, which returns only user documents that exist. `save_capture` (:23-24) writes `users/{uid}/captures/{id}` without creating `users/{uid}`, and nothing in the backend creates one. | An empty database, one capture saved at `now`, then the scan at `now`: the scan as written returns nothing, so `process_batch` counts 0 (`Firestore.FreshCaptureScans`). | The nightly scan finds every recent unprocessed capture of every user. | not executed; rests on Firestore's documented rule that writing a sub-collection document does not create its parent | Firestore.FirestoreService.GetUnprocessedCapturesAsWritten | Firestore.FirestoreService.GetUnprocessedCaptures |
