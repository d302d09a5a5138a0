/**
 * Whole request/worker sequences run against a fresh table, each showing
 * what callers observe from the contracts of the operations alone.
 */
module Scenarios {
  import opened Options
  import opened Storage
  import opened Lifecycle
  import opened Worker
  import opened Proxy

  /** Submit a prompt that needs no stripping, through the POST handler. */
  method SubmitPlain(db: PromptTable, prompt: string, id: string, now: nat) returns (resp: Response)
    requires prompt != [] && !Text.IsPythonSpace(prompt[0]) && !Text.IsPythonSpace(prompt[|prompt| - 1])
    modifies db
    ensures id !in old(db.rows) ==> resp == Json(OK, IdOnly(id)) && db.rows == old(db.rows)[id := NewJob(prompt, now)]
    ensures id in old(db.rows) ==> resp == Aborted && db.rows == old(db.rows)
  {
    SubmitPathServed();
    PlainPromptAccepted(prompt);
    resp := HandlePost(db, PromptPath, Object(Str(prompt)), id, now);
  }

  /** Submit a prompt made only of whitespace, through the POST handler. */
  method SubmitBlank(db: PromptTable, prompt: string) returns (resp: Response)
    requires forall k :: 0 <= k < |prompt| ==> Text.IsPythonSpace(prompt[k])
    modifies db
    ensures resp == Json(BAD_REQUEST, ErrorMessage("Prompt is required"))
    ensures db.rows == old(db.rows)
  {
    SubmitPathServed();
    resp := HandlePost(db, PromptPath, Object(Str(prompt)), "unused", 0);
  }

  /** GET the status path of job `id`. */
  method GetStatus(db: PromptTable, id: string) returns (resp: Response)
    requires '/' !in id
    ensures resp == PromptStatus(db.rows, id)
  {
    GetRouteReaches(QueryPath(id, "status"), id, "status");
    resp := HandleGet(db.rows, QueryPath(id, "status"));
  }

  /** GET the result path of job `id`. */
  method GetResult(db: PromptTable, id: string) returns (resp: Response)
    requires '/' !in id
    ensures resp == PromptResult(db.rows, id)
  {
    GetRouteReaches(QueryPath(id, "result"), id, "result");
    resp := HandleGet(db.rows, QueryPath(id, "result"));
  }

  /** Submit "hello", see it queued, let the service answer "hi there", read the result. */
  method HelloRoundTrip() returns (submitted: Response, queued: Response, finished: Response)
    ensures submitted == Json(OK, IdOnly("X"))
    ensures queued == Json(OK, IdStatus("X", "queued"))
    ensures finished == Json(OK, IdStatusResult("X", "completed", Some("hi there")))
  {
    var db := new PromptTable();
    submitted := SubmitPlain(db, "hello", "X", 1);
    queued := GetStatus(db, "X");
    var step := RunWorkerIterationCatchingAll(db, prompt => Replied(Some("hi there")), 2, 3);
    assert step.Done? && step.item.id == "X" && step.result == "hi there";
    finished := GetResult(db, "X");
  }

  /** A failed service call still completes the job, with the error text as its result. */
  method FailedCallCompletes() returns (finished: Response)
    ensures finished == Json(OK, IdStatusResult("X", "completed", Some("Worker error: timed out")))
  {
    var db := new PromptTable();
    var _ := SubmitPlain(db, "hello", "X", 1);
    var step := RunWorkerIterationCatchingAll(db, prompt => OtherError("timed out"), 2, 3);
    assert step.Done? && step.item.id == "X";
    assert step.result == "Worker error: timed out";
    finished := GetResult(db, "X");
  }

  /** As written, a URL error from the service is caught and the job completes with its description. */
  method UrlErrorCompletes() returns (finished: Response)
    ensures finished == Json(OK, IdStatusResult("X", "completed", Some("Worker error: refused")))
  {
    var db := new PromptTable();
    var _ := SubmitPlain(db, "hello", "X", 1);
    var step := RunWorkerIteration(db, prompt => UrlError("refused"), 2, 3);
    assert step.Done? && step.item.id == "X";
    assert step.result == "Worker error: refused";
    finished := GetResult(db, "X");
  }

  /**
   * As written, a failure other than a URL error (here a read timeout)
   * escapes the worker and leaves the job processing: the result query
   * answers 202 now, and still after any `later` operations that do not
   * complete the job.
   */
  method UncaughtErrorStrands(later: seq<Op>) returns (step: Iteration, polled: Response, polledLater: Response)
    requires forall i :: 0 <= i < |later| ==> !(later[i].Complete? && later[i].id == "X")
    ensures step == Crashed(ClaimedItem("X", "hello"))
    ensures polled == Json(ACCEPTED, IdStatus("X", "processing"))
    ensures polledLater == Json(ACCEPTED, IdStatus("X", "processing"))
  {
    var db := new PromptTable();
    var _ := SubmitPlain(db, "hello", "X", 1);
    step := RunWorkerIteration(db, prompt => OtherError("timed out"), 2, 3);
    polled := GetResult(db, "X");
    StrandedResultPending(db.rows, later, "X");
    polledLater := PromptResult(Run(db.rows, later), "X");
  }

  /** Jobs are claimed oldest first; once both are taken there is no work. */
  method OldestFirst() returns (first: Option<ClaimedItem>, second: Option<ClaimedItem>, third: Option<ClaimedItem>)
    ensures first == Some(ClaimedItem("A", "first"))
    ensures second == Some(ClaimedItem("B", "second"))
    ensures third == None
  {
    var db := new PromptTable();
    var _ := SubmitPlain(db, "first", "A", 1);
    var _ := SubmitPlain(db, "second", "B", 2);
    assert !IsOldestQueued(db.rows, "B") by {
      assert IsQueued(db.rows, "A") && db.rows["A"].createdAt < db.rows["B"].createdAt;
    }
    first := ClaimPrompt(db, 3);
    assert first.value.id == "A";
    second := ClaimPrompt(db, 4);
    assert second.value.id == "B" by {
      assert !IsQueued(db.rows, "A");
    }
    third := ClaimPrompt(db, 5);
  }

  /** Two claims against one queued job: exactly one of them gets it. */
  method SingleWinner() returns (first: Option<ClaimedItem>, second: Option<ClaimedItem>)
    ensures first == Some(ClaimedItem("X", "hello"))
    ensures second == None
  {
    var db := new PromptTable();
    var _ := SubmitPlain(db, "hello", "X", 1);
    first := ClaimPrompt(db, 2);
    second := ClaimPrompt(db, 3);
  }

  /** A blank prompt is refused and stores nothing; a reused id is refused and overwrites nothing. */
  method RefusedSubmissions() returns (blank: Response, reused: Response, status: Response)
    ensures blank == Json(BAD_REQUEST, ErrorMessage("Prompt is required"))
    ensures reused == Aborted
    ensures status == Json(OK, IdStatus("X", "completed"))
  {
    var db := new PromptTable();
    blank := SubmitBlank(db, " \t\n");
    var _ := SubmitPlain(db, "hello", "X", 2);
    var _ := RunWorkerIterationCatchingAll(db, prompt => Replied(None), 3, 4);
    reused := SubmitPlain(db, "again", "X", 5);
    status := GetStatus(db, "X");
  }
}
