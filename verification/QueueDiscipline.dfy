/**
The discipline of the workers: what their transactions promise about the assignment they are made
under, and what every run keeps as long as they do.
*/
module QueueDiscipline {
  import opened Basics
  import opened TaskTable
  import opened QueueEvents
  import opened QueueRuns
  import opened QueueTree
  import opened QueueFoundation

  /**
  Completions and success verdicts use the assignment a claim issued, success verdicts are only given to
  generators, and a wait is only entered under a token that is not current, hence for a row that waits
  already. What happens outside the workers, failing orphans and cancelling, strands no waiting row.
  */
  ghost predicate MayAppend(s: State, log: seq<Event>, e: Event) {
    match e
    case FailOrphans(_) => KeepsFoundation(Replay(s, log), e)
    case CancelTree(_, _) => KeepsFoundation(Replay(s, log), e)
    case Complete(a, _, _) => WasIssued(s, log, a)
    case Finish(a, verdict, _, _) => verdict.Succeeded? ==> WasIssued(s, log, a) && a.job.kind.Generator?
    case AwaitChildren(a) => !Current(Replay(s, log).tasks, a)
    case _ => true
  }

  ghost predicate IsDisciplined(s: State, log: seq<Event>, k: nat)
    requires k < |log|
  {
    MayAppend(s, log[..k], log[k])
  }

  lemma IssuedJobIsTheRows(s: State, log: seq<Event>, a: Assignment)
    requires RowsOk(s) && WasIssued(s, log, a)
    ensures a.id in Replay(s, log).tasks && Replay(s, log).tasks[a.id].job == a.job
  {
    hide Next;
    var k :| 0 <= k < |log| && IsClaimOf(log[k], a.id) && Enabled(At(s, log, k), log[k])
      && a.id in At(s, log, k + 1).tasks && AssignmentOf(a.id, At(s, log, k + 1).tasks[a.id]) == a;
    assert log[..|log|] == log;
    JobIsForever(s, log, k + 1, |log|, a.id);
  }

  /** A verdict under the row's own job wakes the parent of the row, and nothing else closes rows. */
  lemma VerdictsStrandNothing(q: State, e: Event, p: Id)
    requires TreeOk(q) && !e.FailOrphans? && !e.CancelTree?
    requires p in q.tasks && HasOpenChild(q.tasks, p)
    requires e.Complete? || (e.Finish? && e.verdict.Succeeded?) ==>
      e.a.id in q.tasks && q.tasks[e.a.id].job == e.a.job && (e.Finish? ==> e.a.job.kind.Generator?)
    ensures !Strands(q, e, p)
  {
    hide RowsOk, ParentsWait;
    var c :| c in q.tasks && IsChildOf(q.tasks, c, p) && IsOpen(q.tasks[c].status);
  }

  lemma DisciplineKeepsFoundation(s: State, log: seq<Event>, e: Event)
    requires s.tasks == map[] && MayAppend(s, log, e) && WaitsAreFounded(Replay(s, log))
    ensures KeepsFoundation(Replay(s, log), e)
  {
    hide Next, ClaimEffect, InsertEffect, EditEffect, SweepEffect, SettingEffect, InsertEnabled, EditEnabled;
    hide TreeOk, HasOpenChild, WasIssued;
    RunsKeepTreesSound(s, log) by { EmptyTreeIsSound(s); }
    if e.Complete? || (e.Finish? && e.verdict.Succeeded?) {
      IssuedJobIsTheRows(s, log, e.a) by { NothingIsWrongYet(s); }
    }
    var q := Replay(s, log);
    if Enabled(q, e) && !e.FailOrphans? && !e.CancelTree? {
      forall p
        ensures !Strands(q, e, p)
      {
        if p in q.tasks && q.tasks[p].status.Waiting? {
          VerdictsStrandNothing(q, e, p);
        }
      }
    }
  }

  /** Once every waiting row has an open child, that stays so under the discipline. */
  lemma {:induction false} FoundationLasts(s: State, log: seq<Event>, i: nat, j: nat)
    requires s.tasks == map[] && i <= j <= |log| && WaitsAreFounded(At(s, log, i))
    requires forall k :: i <= k < j ==> IsDisciplined(s, log, k)
    ensures WaitsAreFounded(At(s, log, j))
    decreases j
  {
    hide Next, KeepsFoundation, TreeOk, WaitsAreFounded, MayAppend;
    if i < j {
      StepAt(s, log, j - 1);
      assert TreeOk(At(s, log, j - 1)) by {
        EmptyTreeIsSound(s);
        RunsKeepTreesSound(s, log[..j - 1]);
      }
      FoundationLasts(s, log, i, j - 1);
      assert IsDisciplined(s, log, j - 1);
      DisciplineKeepsFoundation(s, log[..j - 1], log[j - 1]);
      FoundationIsKept(At(s, log, j - 1), log[j - 1]);
    }
  }

  /**
  While the workers keep their discipline every waiting task has an open child at every step, from the
  empty queue on, until failing orphans or cancelling a tree strands one; and again from the next
  recovery sweep on.
  */
  lemma WaitingWorkStaysFounded(s: State, log: seq<Event>, i: nat, j: nat)
    requires s.tasks == map[] && i <= j <= |log|
    requires i == 0 || log[i - 1] == WakeParents
    requires forall k :: i <= k < j ==> IsDisciplined(s, log, k)
    ensures WaitsAreFounded(At(s, log, j))
  {
    hide IsDisciplined;
    if i == 0 {
      assert At(s, log, 0) == s;
    } else {
      StepAt(s, log, i - 1);
      RunsKeepTreesSound(s, log[..i - 1]);
      WakingParentsRestoresFoundation(At(s, log, i - 1));
    }
    FoundationLasts(s, log, i, j);
  }

  // ---- The part of one worker in a history ----

  /** The events marked as the worker's own are disciplined, and its retries follow `handle_failure`. */
  ghost predicate DisciplinedWhere(s: State, log: seq<Event>, own: seq<bool>, maxAttempts: int) {
    && |own| == |log|
    && forall k :: 0 <= k < |log| && own[k] ==> IsDisciplined(s, log, k) && RetryFollowsPolicy(s, log, k, maxAttempts)
  }

  function Marks(n: nat, mine: bool): seq<bool> {
    seq(n, _ => mine)
  }

  /** What others do leaves the worker's own events as they are. */
  lemma DisciplineStays(s: State, log: seq<Event>, others: seq<Event>, own: seq<bool>, maxAttempts: int)
    requires DisciplinedWhere(s, log, own, maxAttempts)
    ensures DisciplinedWhere(s, log + others, own + Marks(|others|, false), maxAttempts)
  {
    hide MayAppend;
    var more, marks := log + others, own + Marks(|others|, false);
    forall k | 0 <= k < |more| && marks[k]
      ensures IsDisciplined(s, more, k) && RetryFollowsPolicy(s, more, k, maxAttempts)
    {
      assert own[k] && log[..k] == more[..k] && log[k] == more[k];
      assert IsDisciplined(s, log, k) && RetryFollowsPolicy(s, log, k, maxAttempts);
    }
  }

  /** One disciplined event of the worker, and its refills among what others do after it. */
  lemma OneMoreTransaction(s: State, before: seq<Event>, e: Event, log: seq<Event>, mine: seq<bool>, own: seq<bool>,
                           maxAttempts: int)
    requires before + [e] <= log && OwnRefills(|before| + 1, log, mine)
    requires MayAppend(s, before, e) && DisciplinedWhere(s, before, own, maxAttempts)
    requires e.Retry? ==> e.a.attempts < maxAttempts && WasIssued(s, before, e.a)
    ensures DisciplinedWhere(s, log, own + [true] + mine, maxAttempts)
  {
    hide WasIssued;
    var more := own + [true] + mine;
    assert log[..|before|] == before && log[|before|] == e;
    forall k | 0 <= k < |log| && more[k]
      ensures IsDisciplined(s, log, k) && RetryFollowsPolicy(s, log, k, maxAttempts)
    {
      if k < |before| {
        assert own[k] && log[..k] == before[..k] && log[k] == before[k];
        assert IsDisciplined(s, before, k) && RetryFollowsPolicy(s, before, k, maxAttempts);
      } else if k > |before| {
        assert mine[k - (|before| + 1)] && Refills(log[k]);
      }
    }
  }

  lemma IssuedWasHeld(s: State, log: seq<Event>, a: Assignment) returns (k: nat)
    requires WasIssued(s, log, a)
    ensures k < |log| && Holds(At(s, log, k + 1), a.id, a.generation)
  {
    k :| 0 <= k < |log| && IsClaimOf(log[k], a.id) && Enabled(At(s, log, k), log[k])
      && a.id in At(s, log, k + 1).tasks && AssignmentOf(a.id, At(s, log, k + 1).tasks[a.id]) == a;
    StepAt(s, log, k);
    ClaimTakes(At(s, log, k), log[k]);
  }

  /** A token that was issued and is no longer current never will be again. */
  lemma GoneForGood(s: State, log: seq<Event>, more: seq<Event>, a: Assignment)
    requires RowsOk(s) && WasIssued(s, log, a) && log <= more && !Current(Replay(s, log).tasks, a)
    ensures !Current(Replay(s, more).tasks, a)
  {
    hide Next, WasIssued;
    IssuedJobIsTheRows(s, log, a);
    StaysIssued(s, log, more, a);
    IssuedJobIsTheRows(s, more, a);
    var k := IssuedWasHeld(s, log, a);
    assert more[..k + 1] == log[..k + 1] && more[..|log|] == log && more[..|more|] == more;
    HeldOrSpent(s, more, k + 1, |log|, a.id, a.generation);
    SpentForever(s, more, |log|, |more|, a.id, a.generation);
  }
}
