# Prompt queue: job lifecycle model

This project is a Dafny model of the job queue in `ollama_proxy`. A producer
(the HTTP handler in `src/proxy.py`) inserts prompts into the SQLite `prompts`
table. A worker (`src/worker.py`) claims the oldest queued prompt, sends it
to a generation service and writes the outcome back as the job's result.
Clients poll the handler for the job's status and result.

How the model is built:

- The `prompts` table is a `map<string, Job>` keyed by the job id. Because
  it is a map, one id can never hold two rows. A `Job` holds the prompt, a
  status (`queued`, `processing` or `completed`), an optional result, and
  `created_at`/`updated_at` as readings of an abstract clock (`nat`).
- Each SQL statement gets a meaning: `Storage.SetProcessing`,
  `Storage.SetCompleted` and `Storage.InsertRow`. The class
  `Storage.PromptTable` holds the table and performs these statements in
  place. The worker's and the handler's methods call it.
- The `SELECT ... ORDER BY created_at LIMIT 1` becomes a loop over the table
  (`Worker.SelectOldestQueued`). It may return any queued row with the
  smallest creation time, because SQL leaves the order of ties open.
- Each claim is one atomic step, as the `BEGIN IMMEDIATE` transaction makes
  it.
- `Lifecycle` treats the three statements as operations on the table.
  Across any sequence of them it proves:
  - statuses only move forward;
  - no record disappears;
  - prompts and creation times never change;
  - the record invariants hold: a result exists exactly when the job is
    completed, and `updated_at` is never earlier than `created_at`;
  - an id that was never submitted is never found.
- `Text` models Python's `str.strip`, `str.rstrip` and `str.split`.
  `Proxy` uses them to route request paths and check prompts.
- `Scenarios` runs whole request/worker sequences on a fresh table.

The model follows the code, including where one might expect it to behave
otherwise:

- `complete_prompt` is unconditional (`src/worker.py:57-60`). It does not
  refuse a job that is already completed. Completing such a job replaces its
  result; the status stays `completed`. `Lifecycle.RecompleteReplacesResult` states this. In the worker
  loop each job is completed only by the iteration that claimed it.
- The worker converts only `URLError` into a `"Worker error: ..."` result.
  Any other failure of the service call escapes `run_worker`, for example a
  timeout while reading the reply or a reply that is not JSON. The job then
  stays `processing`. See "## Findings".
- There is no operation that lists jobs page by page. `src/` has no such
  query, so the model has none either.

## Model

| member | source | states |
|---|---|---|
| Storage.PromptTable.constructor | src/storage.py:28-39 | A freshly created table holds no rows. |
| Storage.SetProcessing | src/worker.py:24-27 | The claim's UPDATE keeps the same ids. On a queued row it sets `processing` and the new `updated_at`, and keeps prompt, result and creation time. On any other row it changes nothing. Every other row is untouched. |
| Storage.SetCompleted | src/worker.py:57-60 | The completion UPDATE keeps the same ids. On a known row, whatever its status, it sets `completed`, the result and `updated_at`, and keeps prompt and creation time. An unknown id changes nothing. Every other row is untouched. |
| Storage.InsertRow | src/proxy.py:86-90 | The INSERT fails exactly when the id is already present. Otherwise it adds that one id with the given row and keeps every existing row. |
| Storage.PromptTable.UpdateToProcessing | src/worker.py:24-30 | The compare-and-set applies only to a row that is still queued. It then sets status `processing` and `updated_at`, keeps prompt, result and creation time, and leaves every other row alone. Otherwise the row count is 0 and the table is unchanged. |
| Storage.PromptTable.UpdateToCompleted | src/worker.py:54-61 | Sets status `completed`, the result and `updated_at` on the row, whatever its prior status. Changes no other row. An unknown id changes nothing. |
| Storage.PromptTable.Insert | src/proxy.py:86-91 | Adds the row under a new id. An id already present is refused and nothing is overwritten (the primary key). |
| Worker.ResultText | src/worker.py:51 | A reply gives its `response` field, or `""` when the field is absent. A URL error or any other exception gives `"Worker error: "` followed by its description. |
| Worker.SelectOldestQueued | src/worker.py:17-19 | Returns nothing exactly when no row is queued. Otherwise returns a queued row that no queued row predates. |
| Worker.ClaimPrompt | src/worker.py:14-32 | No queued row: returns nothing and leaves the table unchanged. Otherwise moves an oldest queued row to `processing` at `now`, changes only that row, and returns its stored id and prompt. |
| Worker.CompletePrompt | src/worker.py:54-61 | The table after completion: that row is `completed` with the result and the new `updated_at`, every other row is unchanged, and an unknown id is a no-op. |
| Worker.RunWorkerIteration | src/worker.py:67-76 | No work: the table is untouched. A reply stores its `response` field (empty if absent). A URL error stores `"Worker error: " + description`. Either way the claimed job ends `completed`. Any other failure leaves the job `processing`. |
| Worker.RunWorkerIterationCatchingAll | src/worker.py:72-76 | Corrected iteration: every claimed job ends `completed`, with the reply or the error described, whatever the service call does. |
| Lifecycle.ApplyAdvances | src/worker.py:24-27 | One statement never removes a record, never changes its prompt or creation time, and never moves its status backwards. |
| Lifecycle.RunAdvances | src/worker.py:14-61 | Status monotonicity over any sequence of inserts, claims and completions: each record's status sequence is a subsequence of queued, processing, completed. |
| Lifecycle.CompletedStaysCompleted | src/worker.py:57-60 | Once completed, a job stays completed whatever runs afterwards. |
| Lifecycle.ApplyKeepsConsistent | src/proxy.py:87-89 | One statement issued at a clock reading no earlier than the table's timestamps keeps the record invariants, and no `updated_at` moves back. |
| Lifecycle.RunKeepsConsistent | src/worker.py:23-27 | A run with a clock that never goes backwards keeps the record invariants (result present exactly when completed, `updated_at` >= `created_at`) and never moves an `updated_at` back. |
| Lifecycle.UnissuedIdAbsent | src/proxy.py:84-90 | An id that no submission used is never in the table. |
| Lifecycle.StrandedStaysProcessing | src/worker.py:24-27 | Only a completion of its own id changes a `processing` job. Inserts and claims leave it exactly as it is, and so do completions of other ids. |
| Lifecycle.SecondClaimLoses | src/worker.py:24-30 | At most one winner: after a claim has applied, a second claim of the same id does not apply and changes nothing. |
| Lifecycle.RecompleteReplacesResult | src/worker.py:57-60 | Completion is unconditional: completing a completed job replaces its result. |
| Text.LStrip | src/proxy.py:95 | Removes exactly the longest run of dropped characters at the front. |
| Text.RStrip | src/proxy.py:45 | Removes exactly the longest run of dropped characters at the end. |
| Text.StripEmptyIff | src/proxy.py:80-81 | A stripped value is empty exactly when every character of the input was whitespace. |
| Text.Split | src/proxy.py:95 | The parts are never an empty list, no part holds the separator, and joining the parts with it gives the input back. |
| Text.SplitJoin | src/proxy.py:95 | Splitting a join of separator-free parts gives those parts back (with `Split`: a round trip). |
| Proxy.CheckPrompt | src/proxy.py:80-83 | A missing or blank prompt is refused. A true-valued non-string makes the handler raise. Otherwise the accepted prompt is the input with surrounding whitespace removed, non-empty, with no whitespace at either end. |
| Proxy.PaddedPromptAccepted | src/proxy.py:80 | A prompt padded with any whitespace is accepted as the text inside the padding. |
| Proxy.HandlePromptSubmit | src/proxy.py:74-92 | Invalid JSON and a blank prompt give 400 and store nothing. A valid prompt under a fresh id gives 200 with the id and adds exactly one record: the stripped prompt, `queued`, no result, `created_at = updated_at = now`. A reused id raises and stores nothing. |
| Proxy.HandlePost | src/proxy.py:43-48 | POST is handled as a submission only when the path without trailing slashes is `/api/v1/prompt`. Any other path gives 404 and leaves the table unchanged. |
| Proxy.PostReachesSubmit | src/proxy.py:45 | A POST path that reaches submission is `/api/v1/prompt` followed only by slashes. |
| Proxy.PostRouteIff | src/proxy.py:45 | POST reaches submission exactly for `/api/v1/prompt` followed by zero or more slashes. |
| Proxy.ParseQuery | src/proxy.py:94-106 | A query never leads to the front page. An id it routes to contains no slash, because `split("/")` leaves none in a segment. |
| Proxy.GetRoute | src/proxy.py:50-58 | The front page is served exactly for `/`. A status or result handler is reached only from a path under `/api/v1/prompt/`, and only with a slash-free id. |
| Proxy.HandleGet | src/proxy.py:50-58 | The front page is served exactly for `/`. Unrouted paths get the 404 error page. A JSON 404 is "Prompt not found". Every other JSON answer reports a stored job's stored status under its id. |
| Proxy.PromptStatus | src/proxy.py:108-117 | A status query answers 404 "Prompt not found" exactly for an unknown id. Otherwise it answers 200 with the stored id and status. |
| Proxy.PromptResult | src/proxy.py:119-139 | A result query answers 404 exactly for an unknown id, and 202 with id and status but no result exactly while the job is not completed. It answers 200 exactly for a completed job, with its stored result. |
| Proxy.GetRouteIff | src/proxy.py:94-106 | GET reaches the status (result) handler for `id` exactly when the path is `/api/v1/prompt/<id>/status` (`/result`), possibly followed by slashes, and `id` holds no slash. Every other path under the prefix gives 404. |
| Proxy.GetRouteOnlyFor | src/proxy.py:94-106 | A path routed to status or result for `id` is the query path for `id`, padded only with slashes, and `id` has no slash. |
| Proxy.GetRouteReaches | src/proxy.py:94-106 | The query path for a slash-free `id`, padded with any slashes, splits into exactly five segments and reaches its handler with that id. |
| Proxy.QueryRouteShape | src/proxy.py:55-56 | For a path under the query prefix, only the text after the prefix decides the route. |
| Proxy.CompletedResultPresent | src/proxy.py:135-139 | In a table that keeps the record invariants, a 200 result answer always carries a result. |
| Proxy.QueuedAfterSubmit | src/proxy.py:87-89 | Right after a submission the job reads as `queued` (status 200) and its result query answers 202. |
| Proxy.StrandedResultPending | src/proxy.py:128-133 | A job left `processing` answers 202 `processing` to the result query after any run that does not complete it. |
| Proxy.ResultAfterComplete | src/proxy.py:135-139 | After completion with `r`, the result query answers 200 with `completed` and `r`. |
| Proxy.NeverIssuedNotFound | src/proxy.py:114-115 | An id never submitted gets 404 from both queries, whatever ran before. |
| Scenarios.HelloRoundTrip | src/worker.py:67-76 | Submit "hello", see `queued`, the service answers "hi there", and the result query gives 200 `completed` "hi there". |
| Scenarios.FailedCallCompletes | src/worker.py:72-76 | With every failure caught, a timed-out call still ends `completed` with "Worker error: timed out". |
| Scenarios.UrlErrorCompletes | src/worker.py:74-76 | As written, a URL error ends `completed` with "Worker error: " and its description. |
| Scenarios.UncaughtErrorStrands | src/worker.py:72-75 | As written, a read timeout escapes the worker and leaves the job `processing`. The result query answers 202 `processing` right after the crash. It still does after any later operations that do not complete that job. |
| Scenarios.OldestFirst | src/worker.py:17-19 | Of two queued jobs the earlier one is claimed first, then the later one, and then there is no work. |
| Scenarios.SingleWinner | src/worker.py:24-30 | Two claims against one queued job: exactly one gets it. |
| Scenarios.RefusedSubmissions | src/proxy.py:80-91 | A blank prompt gets 400 and stores nothing. A reused id is refused and the existing record is kept. |

## Left out

- HTTP transport is not modelled: `read_json_body`, `write_json`, `send_error` pages, `do_OPTIONS` and the CORS headers, `log_message`, `main` and the threading server. The handler returns a `Response` value instead of writing to a socket.
- JSON decoding and `urlparse` are inputs. The request body arrives already decoded as `Proxy.Body`, and the path arrives already parsed. A body that is not UTF-8 is not modelled.
- `serve_index` reads a static file. The model only routes to it (`IndexPage`).
- `uuid.uuid4()` is replaced by a `freshId` parameter. A clash with an existing id is modelled as the INSERT raising (`Aborted`), not excluded by a precondition.
- `utc_now` and ISO-8601 text timestamps are replaced by an abstract clock reading (`nat`) passed to each operation.
- Lifecycle.RunKeepsConsistent: assumes the clock never goes backwards between statements, because the real clock is outside the model.
- `BEGIN IMMEDIATE`, the connection timeout and cross-process concurrency are left out: a sequential model cannot express them. Each claim is one atomic step. So the `rowcount == 0` branch of `claim_prompt` cannot be reached in the model. `UpdateToProcessing` still states what that branch sees.
- Worker.ResultText: a `response` field that is present is taken to be a string, as the generation service documents it. Python's `data.get("response", "")` returns the value whatever its JSON type, so two cases are not modelled. `{"response": null}` would complete the job with a NULL result, and the result query would answer 200 with `"result": null`. `Lifecycle.Consistent`, `Lifecycle.RunKeepsConsistent` and `Proxy.CompletedResultPresent` rely on this narrowing. A `response` that is an object or a list makes the UPDATE in `complete_prompt` raise after the claim, so the job stays `processing`.
- Proxy.CheckPrompt: Dafny's `char` cannot hold a lone surrogate, but Python's `str` can. So the UTF-8 body `{"prompt": "\ud800"}` is not modelled. Python accepts that prompt at `src/proxy.py:80-81`. The INSERT then raises `UnicodeEncodeError`, so the request ends with no reply and nothing is stored.
- `call_ollama` is a network call. It is replaced by a function from prompt to `CallOutcome` (a reply with or without a `response` field, a URL error, or any other exception). The request payload it builds is not modelled. The text Python gives a `URLError` (`str(exc)`) is the outcome's `description`; its exact wording is not modelled.
- `run_worker` is modelled as a single iteration. The endless loop, `time.sleep`, the float poll interval, `init_db` and the start-up print are left out.
- `src/storage.py` is used only for the table's columns and the primary key. The database path, environment lookup and directory creation are left out.

## Findings

| source | as written | input that shows it | evidently intended | confidence | as-written member | corrected member |
|---|---|---|---|---|---|---|
| src/worker.py:72-76 | Only `urllib.error.URLError` is caught around the service call. Any other exception ends `run_worker` after the job was claimed, so the job stays `processing`. | The generation service accepts the connection but does not finish the reply within 120 s: `response.read()` raises `TimeoutError`, which is not a `URLError`. A reply body that is not JSON raises `json.JSONDecodeError` in the same way. | Every external-call failure is turned into a `"Worker error: ..."` result and the job still reaches `completed`. | medium, not executed | Scenarios.UncaughtErrorStrands | Worker.RunWorkerIterationCatchingAll |
