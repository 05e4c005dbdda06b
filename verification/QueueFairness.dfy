/** Direct work cannot starve agent work: a pending agent task is overtaken at most three times. */
module QueueFairness {
  import opened Basics
  import opened TaskTable
  import opened ClaimOrder
  import opened QueueEvents
  import opened QueueRuns
  import opened QueueOrigins

  /** The row has been pending at every position from `from` on. */
  ghost predicate PendingSince(s: State, log: seq<Event>, from: nat, id: Id) {
    && from <= |log|
    && forall k :: from <= k <= |log| ==> id in At(s, log, k).tasks && At(s, log, k).tasks[id].status.Pending?
  }

  lemma AttemptsOverAMove(e: Event, x: Id, t: Task, u: Task)
    requires Moves(e, x, t, u)
    ensures u.job == t.job && u.attempts <= t.attempts + (if e.Claim? && e.id == x then 1 else 0)
  {
  }

  lemma NewerDirectOverAStep(s: State, e: Event, n: State, id: Id)
    requires RowsMove(s, e, n) && RowsOk(s) && id in s.tasks
    ensures NewerDirect(s.tasks, id) <= NewerDirect(n.tasks, id)
    ensures forall x :: x in NewerDirect(n.tasks, id) && x !in NewerDirect(s.tasks, id) ==> n.tasks[x].attempts == 0
    ensures forall x :: x in NewerDirect(s.tasks, id) ==>
      n.tasks[x].attempts <= s.tasks[x].attempts + (if e.Claim? && e.id == x then 1 else 0)
  {
    hide Moves;
    forall x | x in s.tasks
      ensures n.tasks[x].job == s.tasks[x].job
      ensures n.tasks[x].attempts <= s.tasks[x].attempts + (if e.Claim? && e.id == x then 1 else 0)
    {
      AttemptsOverAMove(e, x, s.tasks[x], n.tasks[x]);
    }
  }

  lemma OneStepOfBypass(s: State, e: Event, n: State, id: Id)
    requires RowsMove(s, e, n) && RowsOk(s) && (e.Claim? ==> IsFirst(s, e.agent, e.id))
    requires id in s.tasks && s.tasks[id].job.source.Peer? && s.tasks[id].status.Pending?
    requires Overtakes(s.tasks, id) <= MAX_DIRECT_CLAIMS_BEFORE_DELEGATION
    ensures Overtakes(n.tasks, id) <= MAX_DIRECT_CLAIMS_BEFORE_DELEGATION
  {
    NewerDirectOverAStep(s, e, n, id);
    SumOverAStep(s, e, n, NewerDirect(s.tasks, id), NewerDirect(n.tasks, id));
    if e.Claim? && e.id in NewerDirect(s.tasks, id) {
      OverdueBeatsDirect(s, e.agent, e.id, id);
    }
  }

  lemma SumOverAStep(s: State, e: Event, n: State, before: set<Id>, after: set<Id>)
    requires before <= s.tasks.Keys && after <= n.tasks.Keys && before <= after
    requires forall x :: x in after && x !in before ==> n.tasks[x].attempts == 0
    requires forall x :: x in before ==>
      n.tasks[x].attempts <= s.tasks[x].attempts + (if e.Claim? && e.id == x then 1 else 0)
    ensures SumAttempts(n.tasks, after) <= SumAttempts(s.tasks, before) + (if e.Claim? && e.id in before then 1 else 0)
  {
    if e.Claim? && e.id in before {
      SumSplit(s.tasks, before, e.id);
      SumSplit(n.tasks, after, e.id);
      SumMonotone(s.tasks, before - {e.id}, n.tasks, after - {e.id});
    } else {
      SumMonotone(s.tasks, before, n.tasks, after);
    }
  }

  lemma ClaimNeedsFirst(s: State, e: Event)
    ensures e.Claim? && Enabled(s, e) ==> IsFirst(s, e.agent, e.id)
  {
  }

  /** At its creation nothing newer exists, so nothing has overtaken the row yet. */
  lemma NothingOvertakesAFreshRow(s: State, e: Event, n: State, id: Id)
    requires RowsMove(s, e, n) && RowsOk(s) && id !in s.tasks && id in n.tasks
    requires forall o :: o in n.tasks && o !in s.tasks ==> o == id
    ensures Overtakes(n.tasks, id) == 0
  {
  }

  /**
  Bounded bypass: while an agent-sourced task has stayed pending since it was created, the attempts
  charged to newer direct tasks of the same agent (claims less refunds) never sum to more than three.
  */
  lemma {:induction false} BypassIsBounded(s: State, log: seq<Event>, born: nat, id: Id)
    requires s.tasks == map[] && born < |log|
    requires id !in At(s, log, born).tasks && PendingSince(s, log, born + 1, id)
    requires At(s, log, born + 1).tasks[id].job.source.Peer?
    ensures id in Replay(s, log).tasks
    ensures Overtakes(Replay(s, log).tasks, id) <= MAX_DIRECT_CLAIMS_BEFORE_DELEGATION
  {
    hide Effect, Moves, Enabled, Overtakes;
    var prefix, e := log[..|log| - 1], log[|log| - 1];
    assert forall k :: 0 <= k <= |prefix| ==> prefix[..k] == log[..k];
    assert log[..|log|] == log;
    StepMovesRows(s, log, |log| - 1);
    var before := Replay(s, prefix);
    assert id in At(s, log, |log|).tasks;
    if born == |log| - 1 {
      forall o | o in Next(before, e).tasks && o !in before.tasks
        ensures o == id
      {
        AtMostOneRowIsNew(before, e, id, o);
      }
      NothingOvertakesAFreshRow(before, e, Next(before, e), id);
    } else {
      assert forall k :: 0 <= k <= |prefix| ==> At(s, prefix, k) == At(s, log, k);
      BypassIsBounded(s, prefix, born, id);
      JobIsForever(s, log, born + 1, |log| - 1, id);
      assert id in At(s, log, |log| - 1).tasks;
      if Enabled(before, e) {
        assert e.Claim? ==> IsFirst(before, e.agent, e.id) by { ClaimNeedsFirst(before, e); }
        OneStepOfBypass(before, e, Next(before, e), id);
      }
    }
  }

  /** In every run agent work without an operator-priority note is claimed first in, first out. */
  lemma AgentWorkIsFifo(s: State, log: seq<Event>, e: Event, older: Id)
    requires s.tasks == map[]
    requires e.Claim? && Enabled(Replay(s, log), e)
    requires Replay(s, log).tasks[e.id].job.source.Peer? && !HasPriorityNote(Replay(s, log), e.id)
    requires older in Replay(s, log).tasks && older != e.id && Replay(s, log).tasks[older].job.source.Peer?
    requires Older(Replay(s, log).tasks, older, e.id)
    ensures !Claimable(Replay(s, log), e.agent, older)
  {
    RunsKeepRowsOk(s, log);
    PeerWorkIsFifo(Replay(s, log), e.agent, e.id, older);
  }
}
