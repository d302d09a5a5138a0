/**
 * The job lifecycle as a sequence of table operations: the producer's
 * INSERT and the worker's two UPDATEs, applied one after another. Each
 * operation is one atomic step; whichever process issues it, the table only
 * ever changes through these three statements.
 */
module Lifecycle {
  import opened Options
  import opened Storage

  /** One state change, with the clock reading it was issued at. */
  datatype Op =
    | Submit(id: string, prompt: string, at: nat)
    | Claim(id: string, at: nat)
    | Complete(id: string, result: string, at: nat)

  /** The table after one operation; a refused INSERT leaves it as it was. */
  function Apply(t: Table, op: Op): Table {
    match op
    case Submit(id, prompt, at) => InsertRow(t, id, NewJob(prompt, at)).GetOr(t)
    case Claim(id, at) => SetProcessing(t, id, at)
    case Complete(id, result, at) => SetCompleted(t, id, result, at)
  }

  /** The table after a whole sequence of operations. */
  function Run(t: Table, ops: seq<Op>): Table
    decreases |ops|
  {
    if ops == [] then t else Run(Apply(t, ops[0]), ops[1..])
  }

  /**
   * No record disappears, its prompt and creation time never change, and
   * its status never moves backwards along queued -> processing -> completed.
   */
  ghost predicate Advances(t: Table, t': Table) {
    forall id :: id in t ==>
      && id in t'
      && t'[id].prompt == t[id].prompt
      && t'[id].createdAt == t[id].createdAt
      && t[id].status.Rank() <= t'[id].status.Rank()
  }

  /** Every record's `updated_at` is no earlier than before. */
  ghost predicate StampsForward(t: Table, t': Table) {
    forall id :: id in t ==> id in t' && t[id].updatedAt <= t'[id].updatedAt
  }

  /**
   * The record invariants: a result exists exactly when the job is
   * completed, and `updated_at` is never before `created_at`.
   */
  ghost predicate Consistent(t: Table) {
    forall id :: id in t ==>
      && (t[id].status == Completed <==> t[id].result.Some?)
      && t[id].createdAt <= t[id].updatedAt
  }

  /** The clock reading `at` is no earlier than any timestamp in the table. */
  ghost predicate NotBefore(t: Table, at: nat) {
    forall id :: id in t ==> t[id].updatedAt <= at
  }

  /** Each operation is issued at a clock reading no earlier than the table's timestamps. */
  ghost predicate Timely(t: Table, ops: seq<Op>)
    decreases |ops|
  {
    ops == [] || (NotBefore(t, ops[0].at) && Timely(Apply(t, ops[0]), ops[1..]))
  }

  lemma AdvancesTransitive(t0: Table, t1: Table, t2: Table)
    requires Advances(t0, t1) && Advances(t1, t2)
    ensures Advances(t0, t2)
  {
  }

  lemma ApplyAdvances(t: Table, op: Op)
    ensures Advances(t, Apply(t, op))
  {
  }

  /** Status monotonicity: over any run, every status only moves forward. */
  lemma {:induction false} RunAdvances(t: Table, ops: seq<Op>)
    ensures Advances(t, Run(t, ops))
    decreases |ops|
  {
    if ops != [] {
      ApplyAdvances(t, ops[0]);
      RunAdvances(Apply(t, ops[0]), ops[1..]);
      AdvancesTransitive(t, Apply(t, ops[0]), Run(t, ops));
    }
  }

  /** `completed` is terminal: no later operation moves a completed job elsewhere. */
  lemma CompletedStaysCompleted(t: Table, ops: seq<Op>, id: string)
    requires id in t && t[id].status == Completed
    ensures id in Run(t, ops) && Run(t, ops)[id].status == Completed
  {
    RunAdvances(t, ops);
  }

  lemma ApplyKeepsConsistent(t: Table, op: Op)
    requires Consistent(t) && NotBefore(t, op.at)
    ensures Consistent(Apply(t, op)) && StampsForward(t, Apply(t, op))
  {
  }

  /** A timely run keeps the record invariants and never moves a timestamp back. */
  lemma {:induction false} RunKeepsConsistent(t: Table, ops: seq<Op>)
    requires Consistent(t) && Timely(t, ops)
    ensures Consistent(Run(t, ops)) && StampsForward(t, Run(t, ops))
    decreases |ops|
  {
    if ops != [] {
      ApplyKeepsConsistent(t, ops[0]);
      RunKeepsConsistent(Apply(t, ops[0]), ops[1..]);
    }
  }

  /** An id no operation ever submitted is never in the table. */
  lemma {:induction false} UnissuedIdAbsent(t: Table, ops: seq<Op>, id: string)
    requires id !in t
    requires forall i :: 0 <= i < |ops| ==> !(ops[i].Submit? && ops[i].id == id)
    ensures id !in Run(t, ops)
    decreases |ops|
  {
    if ops != [] {
      assert !(ops[0].Submit? && ops[0].id == id);
      forall i | 0 <= i < |ops[1..]|
        ensures !(ops[1..][i].Submit? && ops[1..][i].id == id)
      {
        assert ops[1..][i] == ops[i + 1];
      }
      UnissuedIdAbsent(Apply(t, ops[0]), ops[1..], id);
    }
  }

  /**
   * A job left processing stays exactly as it is through any run that never
   * completes it: nothing but a completion of its own id moves it on.
   */
  lemma {:induction false} StrandedStaysProcessing(t: Table, ops: seq<Op>, id: string)
    requires id in t && t[id].status == Processing
    requires forall i :: 0 <= i < |ops| ==> !(ops[i].Complete? && ops[i].id == id)
    ensures id in Run(t, ops) && Run(t, ops)[id] == t[id]
    decreases |ops|
  {
    if ops != [] {
      assert !(ops[0].Complete? && ops[0].id == id);
      forall i | 0 <= i < |ops[1..]|
        ensures !(ops[1..][i].Complete? && ops[1..][i].id == id)
      {
        assert ops[1..][i] == ops[i + 1];
      }
      StrandedStaysProcessing(Apply(t, ops[0]), ops[1..], id);
    }
  }

  /**
   * At most one winner: once a claim has applied, a second claim of the same
   * id finds it no longer queued, changes nothing and reports no row.
   */
  lemma SecondClaimLoses(t: Table, id: string, first: nat, second: nat)
    requires IsQueued(t, id)
    ensures !IsQueued(SetProcessing(t, id, first), id)
    ensures SetProcessing(SetProcessing(t, id, first), id, second) == SetProcessing(t, id, first)
  {
  }

  /**
   * Completion is unconditional: completing an already completed job
   * replaces its result.
   */
  lemma RecompleteReplacesResult(t: Table, id: string, r1: string, r2: string, n1: nat, n2: nat)
    requires id in t
    ensures SetCompleted(SetCompleted(t, id, r1, n1), id, r2, n2)[id].result == Some(r2)
  {
  }
}
