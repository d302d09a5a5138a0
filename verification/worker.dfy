/**
 * The worker: claim the oldest queued job, hand its prompt to the
 * generation service, and record the outcome as the job's result.
 */
module Worker {
  import opened Options
  import opened Storage
  import opened Lifecycle

  /** What a successful claim hands back: the job's id and prompt. */
  datatype ClaimedItem = ClaimedItem(id: string, prompt: string)

  /** How the call to the generation service ends for one prompt. */
  datatype CallOutcome =
    | Replied(response: Option<string>)  // a JSON reply, with or without its "response" field
    | UrlError(description: string)      // a URL error (HTTP error statuses included)
    | OtherError(description: string)    // any other exception: a read timeout, a reply that is not JSON, ...

  /** The result text for an outcome: the reply's "response" field (empty if absent), or the error described. */
  function ResultText(o: CallOutcome): (r: string)
    ensures o.Replied? ==> r == o.response.GetOr("")
    ensures !o.Replied? ==> |r| >= 14 && r[..14] == "Worker error: " && r[14..] == o.description
  {
    match o
    case Replied(response) => response.GetOr("")
    case UrlError(description) => "Worker error: " + description
    case OtherError(description) => "Worker error: " + description
  }

  /** What one pass of the worker loop did. */
  datatype Iteration =
    | Idle                                         // nothing queued: the worker sleeps and polls again
    | Done(item: ClaimedItem, result: string)      // claimed, called, completed
    | Crashed(item: ClaimedItem)                   // the exception escaped; the job stays processing

  /**
   * SELECT id, prompt FROM prompts WHERE status = 'queued'
   * ORDER BY created_at LIMIT 1: some queued row with the smallest
   * creation time, or none when nothing is queued.
   */
  method SelectOldestQueued(t: Table) returns (found: Option<string>)
    ensures found.None? <==> NoneQueued(t)
    ensures found.Some? ==> IsOldestQueued(t, found.value)
  {
    found := None;
    var pending := t.Keys;
    while pending != {}
      invariant pending <= t.Keys
      invariant found.None? ==> forall id :: id in t.Keys - pending ==> t[id].status != Queued
      invariant found.Some? ==> IsQueued(t, found.value)
      invariant found.Some? ==> forall id :: id in t.Keys - pending && t[id].status == Queued ==>
        t[found.value].createdAt <= t[id].createdAt
      decreases pending
    {
      var id :| id in pending;
      if t[id].status == Queued && (found.None? || t[id].createdAt < t[found.value].createdAt) {
        found := Some(id);
      }
      pending := pending - {id};
    }
  }

  /**
   * Claim one job as a single atomic step: pick an oldest queued row and
   * move it to `processing` with a compare-and-set on its status.
   */
  method ClaimPrompt(db: PromptTable, now: nat) returns (item: Option<ClaimedItem>)
    modifies db
    ensures item.None? <==> NoneQueued(old(db.rows))
    ensures item.None? ==> db.rows == old(db.rows)
    ensures item.Some? ==>
      var id := item.value.id;
      && IsOldestQueued(old(db.rows), id)
      && item.value.prompt == old(db.rows)[id].prompt
      && db.rows == Apply(old(db.rows), Claim(id, now))
      && db.rows.Keys == old(db.rows).Keys
      && db.rows[id] == old(db.rows)[id].(status := Processing, updatedAt := now)
      && forall other :: other in db.rows && other != id ==> db.rows[other] == old(db.rows)[other]
  {
    var found := SelectOldestQueued(db.rows);
    if found.None? {
      item := None;
      return;
    }
    var id := found.value;
    var prompt := db.rows[id].prompt;
    var rowcount := db.UpdateToProcessing(id, now);
    if rowcount == 0 {
      item := None;
    } else {
      item := Some(ClaimedItem(id, prompt));
    }
  }

  /**
   * Mark a job completed with `result`, whatever its status was; an
   * unknown id changes nothing.
   */
  method CompletePrompt(db: PromptTable, id: string, result: string, now: nat)
    modifies db
    ensures db.rows == Apply(old(db.rows), Complete(id, result, now))
    ensures id !in old(db.rows) ==> db.rows == old(db.rows)
    ensures id in old(db.rows) ==>
      && db.rows.Keys == old(db.rows).Keys
      && db.rows[id] == old(db.rows)[id].(status := Completed, result := Some(result), updatedAt := now)
      && forall other :: other in db.rows && other != id ==> db.rows[other] == old(db.rows)[other]
  {
    var _ := db.UpdateToCompleted(id, result, now);
  }

  /**
   * One pass of the worker loop. `generate` stands for the call to the
   * generation service; the clock reads `claimAt` when claiming and
   * `completeAt` when completing.
   */
  method RunWorkerIteration(db: PromptTable, generate: string -> CallOutcome, claimAt: nat, completeAt: nat)
    returns (step: Iteration)
    modifies db
    ensures step.Idle? <==> NoneQueued(old(db.rows))
    ensures step.Idle? ==> db.rows == old(db.rows)
    ensures !step.Idle? ==>
      && IsOldestQueued(old(db.rows), step.item.id)
      && step.item.prompt == old(db.rows)[step.item.id].prompt
      && (step.Crashed? <==> generate(step.item.prompt).OtherError?)
    ensures step.Crashed? ==> db.rows == Apply(old(db.rows), Claim(step.item.id, claimAt))
    ensures step.Done? ==>
      var id := step.item.id;
      var outcome := generate(step.item.prompt);
      && (outcome.Replied? ==> step.result == outcome.response.GetOr(""))
      && (outcome.UrlError? ==> step.result == "Worker error: " + outcome.description)
      && db.rows == Run(old(db.rows), [Claim(id, claimAt), Complete(id, step.result, completeAt)])
      && db.rows.Keys == old(db.rows).Keys
      && db.rows[id] == old(db.rows)[id].(status := Completed, result := Some(step.result), updatedAt := completeAt)
      && forall other :: other in db.rows && other != id ==> db.rows[other] == old(db.rows)[other]
  {
    var item := ClaimPrompt(db, claimAt);
    if item.None? {
      return Idle;
    }
    ghost var claimed := db.rows;
    var outcome := generate(item.value.prompt);
    if outcome.OtherError? {
      return Crashed(item.value);
    }
    var result := ResultText(outcome);
    CompletePrompt(db, item.value.id, result, completeAt);
    assert Run(old(db.rows), [Claim(item.value.id, claimAt), Complete(item.value.id, result, completeAt)])
        == Run(claimed, [Complete(item.value.id, result, completeAt)]);
    return Done(item.value, result);
  }

  /**
   * One pass of the worker loop with every failure of the service call
   * caught, not only URL errors: the claimed job always ends completed.
   */
  method RunWorkerIterationCatchingAll(db: PromptTable, generate: string -> CallOutcome, claimAt: nat, completeAt: nat)
    returns (step: Iteration)
    modifies db
    ensures step.Idle? <==> NoneQueued(old(db.rows))
    ensures step.Idle? ==> db.rows == old(db.rows)
    ensures !step.Idle? ==>
      var id := step.item.id;
      && step.Done?
      && IsOldestQueued(old(db.rows), id)
      && step.item.prompt == old(db.rows)[id].prompt
      && step.result == ResultText(generate(step.item.prompt))
      && db.rows == Run(old(db.rows), [Claim(id, claimAt), Complete(id, step.result, completeAt)])
      && db.rows.Keys == old(db.rows).Keys
      && db.rows[id] == old(db.rows)[id].(status := Completed, result := Some(step.result), updatedAt := completeAt)
      && forall other :: other in db.rows && other != id ==> db.rows[other] == old(db.rows)[other]
  {
    var item := ClaimPrompt(db, claimAt);
    if item.None? {
      return Idle;
    }
    ghost var claimed := db.rows;
    var result := ResultText(generate(item.value.prompt));
    CompletePrompt(db, item.value.id, result, completeAt);
    assert Run(old(db.rows), [Claim(item.value.id, claimAt), Complete(item.value.id, result, completeAt)])
        == Run(claimed, [Complete(item.value.id, result, completeAt)]);
    return Done(item.value, result);
  }
}
