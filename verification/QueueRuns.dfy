/**
What no interleaving of transactions can break: rows only move along a few edges, a claim token is
good for one stretch of time, and the attempts column is an exact account of the claims.
*/
module QueueRuns {
  import opened Basics
  import opened TaskTable
  import opened QueueEvents

  /** The row keeps its token and its account; only open, unclaimed statuses may still change. */
  predicate Rests(t: Task, u: Task) {
    && u.generation == t.generation && u.attempts == t.attempts && u.result == t.result
    && (u.status == t.status || (IsOpen(t.status) && !t.status.Claimed? && !u.status.Claimed? && !u.status.Completed?))
    && (u.status.Claimed? <==> t.status.Claimed?)
    && (!u.status.Claimed? && t.claimedAt.None? ==> u.claimedAt.None?)
    && (!IsOpen(t.status) ==> u.completedAt == t.completedAt)
    && (IsOpen(t.status) && !IsOpen(u.status) ==> t.job.kind.Delegation? || u.completedAt.Some?)
  }

  /** The row is claimed: a new token and one more attempt. */
  predicate Taken(t: Task, u: Task) {
    && t.status.Pending? && u.status.Claimed?
    && u.generation == t.generation + 1 && u.attempts == t.attempts + 1 && u.result == t.result
  }

  predicate Refunded(t: Task, u: Task) {
    t.status.Claimed? && !u.status.Claimed? && u.attempts == t.attempts - 1 && t.attempts > 0
  }

  /** The claim ends, with or without giving the attempt back. */
  predicate Ended(t: Task, u: Task) {
    && t.status.Claimed? && !u.status.Claimed? && u.claimedAt.None?
    && t.generation <= u.generation <= t.generation + 1
    && (u.attempts == t.attempts || Refunded(t, u))
    && (u.result == t.result || u.status.Completed?)
    && (!IsOpen(u.status) ==> u.completedAt.Some?)
  }

  predicate Moves(e: Event, i: Id, t: Task, u: Task) {
    u.job == t.job && (Rests(t, u) || (e.Claim? && e.id == i && Taken(t, u)) || Ended(t, u))
  }

  /** A row as it is first inserted. */
  predicate IsFresh(s: State, u: Task) {
    && u.job.created > s.clock && u.attempts == 0 && u.generation == 0 && u.claimedAt.None? && u.result.None?
    && IsOpen(u.status) && !u.status.Claimed? && !u.status.Waiting? && u.completedAt.None?
  }

  ghost predicate RowsMove(s: State, e: Event, n: State) {
    && s.tasks.Keys <= n.tasks.Keys
    && s.clock <= n.clock
    && (forall i :: i in s.tasks ==> Moves(e, i, s.tasks[i], n.tasks[i]))
    && (forall i :: i in n.tasks && i !in s.tasks ==> IsFresh(s, n.tasks[i]) && n.tasks[i].job.created <= n.clock)
  }

  /** Facts about single rows that every run keeps. */
  predicate WellFormed(t: Task) {
    && t.attempts >= (if t.status.Claimed? then 1 else 0)
    && (t.claimedAt.Some? ==> t.status.Claimed?)
    && (t.result.Some? ==> t.status.Completed?)
    && (!IsOpen(t.status) ==> t.job.kind.Delegation? || t.completedAt.Some?)
  }

  ghost predicate RowsOk(s: State) {
    forall i :: i in s.tasks ==> WellFormed(s.tasks[i]) && s.tasks[i].job.created <= s.clock
  }

  /** Rewriting one row and then waking one parent. */
  lemma OneRowMoves(s: State, e: Event, n: State, id: Id, u: Task, p: Option<Id>)
    requires id in s.tasks && Moves(e, id, s.tasks[id], u) && !u.status.Waiting? && n.clock == s.clock
    requires n.tasks == s.tasks[id := u] || n.tasks == Wake(s.tasks[id := u], p)
    ensures RowsMove(s, e, n)
  {
  }

  lemma VerdictsMoveRows(s: State, e: Event)
    requires RowsOk(s) && (e.Complete? || e.Finish?) && ClaimEnabled(s, e)
    ensures RowsMove(s, e, ClaimEffect(s, e))
  {
    var t := s.tasks[e.a.id];
    var n := ClaimEffect(s, e);
    if e.Complete? {
      OneRowMoves(s, e, n, e.a.id, Done(t, Completed, Some(Trim(e.text)), t.error, e.now), e.a.job.parent);
    } else {
      OneRowMoves(s, e, n, e.a.id, Done(t, VerdictStatus(e.verdict), t.result, e.detail, e.now), t.job.parent);
    }
  }

  lemma ClaimEventsMoveRows(s: State, e: Event)
    requires RowsOk(s) && UsesClaim(e) && !e.Complete? && !e.Finish? && ClaimEnabled(s, e)
    ensures RowsMove(s, e, ClaimEffect(s, e))
  {
    var id := if e.Claim? then e.id else e.a.id;
    assert ClaimEffect(s, e).tasks == s.tasks[id := ClaimEffect(s, e).tasks[id]];
    assert Moves(e, id, s.tasks[id], ClaimEffect(s, e).tasks[id]);
  }

  lemma InsertionsMoveRows(s: State, e: Event)
    requires RowsOk(s) && AddsRow(e) && InsertEnabled(s, e)
    ensures RowsMove(s, e, InsertEffect(s, e))
  {
    var n := InsertEffect(s, e);
    assert IsFresh(s, n.tasks[NewRowId(e)]) && n.tasks[NewRowId(e)].job.created <= n.clock;
    forall i | i in s.tasks
      ensures Moves(e, i, s.tasks[i], n.tasks[i])
    {
      if e.Delegate? && i == e.parent {
        assert WellFormed(s.tasks[i]);
      } else {
        UnchangedRowsMove(e, i, s.tasks[i]);
      }
    }
  }

  lemma UnchangedRowsMove(e: Event, i: Id, t: Task)
    ensures Moves(e, i, t, t)
  {
  }

  lemma RowIsSwept(s: State, e: Event, i: Id)
    requires i in s.tasks && WellFormed(s.tasks[i])
    ensures Moves(e, i, s.tasks[i], Swept(s, e, i))
  {
  }

  lemma SweepsMoveRows(s: State, e: Event)
    requires RowsOk(s)
    ensures RowsMove(s, e, SweepEffect(s, e))
  {
    hide Moves, Swept;
    forall i | i in s.tasks
      ensures Moves(e, i, s.tasks[i], SweepEffect(s, e).tasks[i])
    {
      RowIsSwept(s, e, i);
    }
  }

  lemma StatusEditsMoveRows(s: State, e: Event)
    requires RowsOk(s) && (e.PromoteBuffered? || e.AdmitRoot? || e.DemoteRoot?) && EditEnabled(s, e)
    ensures RowsMove(s, e, EditEffect(s, e))
  {
    var n := EditEffect(s, e);
    OneRowMoves(s, e, n, e.id, n.tasks[e.id], None);
  }

  lemma NotesMoveRows(s: State, e: Event)
    requires RowsOk(s) && e.PeerNote? && EditEnabled(s, e)
    ensures RowsMove(s, e, EditEffect(s, e))
  {
    var n := EditEffect(s, e);
    if n.tasks != s.tasks {
      OneRowMoves(s, e, n, e.task, n.tasks[e.task], None);
    }
  }

  /** Every transaction is a set of row moves plus fresh rows. */
  lemma EveryEventMovesRows(s: State, e: Event)
    requires RowsOk(s)
    ensures RowsMove(s, e, Next(s, e))
  {
    hide ClaimEnabled, InsertEnabled, EditEnabled, OtherEnabled;
    hide ClaimEffect, InsertEffect, EditEffect, SweepEffect, SettingEffect;
    if Enabled(s, e) {
      if e.Complete? || e.Finish? {
        VerdictsMoveRows(s, e);
      } else if UsesClaim(e) {
        ClaimEventsMoveRows(s, e);
      } else if AddsRow(e) {
        InsertionsMoveRows(s, e);
      } else if Sweeps(e) {
        SweepsMoveRows(s, e);
      } else if e.PeerNote? {
        NotesMoveRows(s, e);
      } else if EditsOneRow(e) {
        StatusEditsMoveRows(s, e);
      }
    }
  }

  lemma RowsOkIsKept(s: State, e: Event, n: State)
    requires RowsOk(s) && RowsMove(s, e, n)
    ensures RowsOk(n)
  {
  }

  /** In every run a claimed row has an attempt on the books, and only completed rows have a result. */
  lemma {:induction false} RunsKeepRowsOk(s: State, log: seq<Event>)
    requires RowsOk(s)
    ensures RowsOk(Replay(s, log))
  {
    hide Next;
    if log != [] {
      RunsKeepRowsOk(s, log[..|log| - 1]);
      EveryEventMovesRows(Replay(s, log[..|log| - 1]), log[|log| - 1]);
      RowsOkIsKept(Replay(s, log[..|log| - 1]), log[|log| - 1], Replay(s, log));
    }
  }

  /** The move of every row between positions `i` and `i + 1` of a run. */
  lemma StepMovesRows(s: State, log: seq<Event>, i: nat)
    requires RowsOk(s) && i < |log|
    ensures RowsOk(At(s, log, i)) && At(s, log, i + 1) == Next(At(s, log, i), log[i])
    ensures RowsMove(At(s, log, i), log[i], At(s, log, i + 1))
  {
    hide Next;
    RunsKeepRowsOk(s, log[..i]);
    StepAt(s, log, i);
    EveryEventMovesRows(At(s, log, i), log[i]);
  }

  // ---- Fencing ----

  predicate Holds(s: State, id: Id, generation: int) {
    id in s.tasks && s.tasks[id].status.Claimed? && s.tasks[id].generation == generation
  }

  /** The token has been used up: it is not the held one and never will be again. */
  predicate Spent(s: State, id: Id, generation: int) {
    id in s.tasks
    && (s.tasks[id].generation > generation || (s.tasks[id].generation == generation && !s.tasks[id].status.Claimed?))
  }

  lemma {:induction false} SpentForever(s: State, log: seq<Event>, i: nat, j: nat, id: Id, generation: int)
    requires RowsOk(s) && i <= j <= |log| && Spent(At(s, log, i), id, generation)
    ensures Spent(At(s, log, j), id, generation)
    decreases j - i
  {
    hide Next;
    if i < j {
      StepMovesRows(s, log, i);
      SpentForever(s, log, i + 1, j, id, generation);
    }
  }

  lemma {:induction false} HeldOrSpent(s: State, log: seq<Event>, i: nat, j: nat, id: Id, generation: int)
    requires RowsOk(s) && i <= j <= |log| && Holds(At(s, log, i), id, generation)
    ensures Holds(At(s, log, j), id, generation) || Spent(At(s, log, j), id, generation)
    decreases j - i
  {
    hide Next;
    if i < j {
      StepMovesRows(s, log, i);
      if Holds(At(s, log, i + 1), id, generation) {
        HeldOrSpent(s, log, i + 1, j, id, generation);
      } else {
        SpentForever(s, log, i + 1, j, id, generation);
      }
    }
  }

  /** The positions at which a row is held under one generation form one contiguous stretch. */
  lemma ClaimIsOneStretch(s: State, log: seq<Event>, i: nat, j: nat, k: nat, id: Id, generation: int)
    requires RowsOk(s) && i <= j <= k <= |log|
    requires Holds(At(s, log, i), id, generation) && Holds(At(s, log, k), id, generation)
    ensures Holds(At(s, log, j), id, generation)
  {
    HeldOrSpent(s, log, i, j, id, generation);
    if Spent(At(s, log, j), id, generation) {
      SpentForever(s, log, j, k, id, generation);
    }
  }

  predicate Settles(e: Event, a: Assignment) {
    (e.Complete? || e.Finish? || e.Retry? || e.RetryUnstarted? || e.DeferUnstarted?)
    && e.a.id == a.id && e.a.generation == a.generation
  }

  lemma SettlingSpendsTheToken(s: State, log: seq<Event>, i: nat, a: Assignment)
    requires RowsOk(s) && i < |log| && Settles(log[i], a) && Enabled(At(s, log, i), log[i])
    ensures Spent(At(s, log, i + 1), a.id, a.generation)
  {
    hide ClaimEffect, InsertEffect, EditEffect, SweepEffect, SettingEffect;
    StepMovesRows(s, log, i);
    var before, after := At(s, log, i), At(s, log, i + 1);
    assert after == Effect(before, log[i]);
    assert Moves(log[i], a.id, before.tasks[a.id], after.tasks[a.id]);
    SettledRowIsReleased(before, log[i]);
  }

  lemma SettledRowIsReleased(s: State, e: Event)
    requires UsesClaim(e) && !e.Claim? && Settles(e, e.a) && ClaimEnabled(s, e)
    ensures e.a.id in ClaimEffect(s, e).tasks && !ClaimEffect(s, e).tasks[e.a.id].status.Claimed?
  {
  }

  /**
  Fencing: once one of complete, finish, retry, unstarted retry or defer has been applied under a
  token, each of them and every renewal under that token is stale at every later point of the run.
  */
  lemma SettledTokenIsStale(s: State, log: seq<Event>, i: nat, j: nat, a: Assignment, e: Event)
    requires RowsOk(s) && i < j <= |log|
    requires Settles(log[i], a) && Enabled(At(s, log, i), log[i])
    requires Settles(e, a) || (e.Renew? && e.a.id == a.id && e.a.generation == a.generation)
    ensures !Enabled(At(s, log, j), e)
  {
    hide Next, InsertEnabled, EditEnabled, OtherEnabled;
    hide ClaimEffect, InsertEffect, EditEffect, SweepEffect, SettingEffect;
    SettlingSpendsTheToken(s, log, i, a);
    SpentForever(s, log, i + 1, j, a.id, a.generation);
    SpentTokenSettlesNothing(At(s, log, j), a, e);
  }

  lemma SpentTokenSettlesNothing(s: State, a: Assignment, e: Event)
    requires Spent(s, a.id, a.generation)
    requires Settles(e, a) || (e.Renew? && e.a.id == a.id && e.a.generation == a.generation)
    ensures !Enabled(s, e)
  {
  }

  /** Waiting for children under one token any number of times is the same as once. */
  lemma AwaitingIsIdempotent(s: State, log: seq<Event>, i: nat, j: nat, a: Assignment)
    requires RowsOk(s) && i < j <= |log|
    requires log[i] == AwaitChildren(a) && Enabled(At(s, log, i), log[i])
    ensures Next(At(s, log, j), AwaitChildren(a)) == At(s, log, j)
  {
    StepMovesRows(s, log, i);
    SpentForever(s, log, i + 1, j, a.id, a.generation);
    RunsKeepRowsOk(s, log[..j]);
    var n := At(s, log, j);
    if Enabled(n, AwaitChildren(a)) {
      assert WellFormed(n.tasks[a.id]);
      assert n.tasks[a.id := n.tasks[a.id]] == n.tasks;
    }
  }

  /** completed, failed and cancelled are final. */
  lemma {:induction false} TerminalIsFinal(s: State, log: seq<Event>, i: nat, j: nat, id: Id)
    requires RowsOk(s) && i <= j <= |log|
    requires id in At(s, log, i).tasks && !IsOpen(At(s, log, i).tasks[id].status)
    ensures id in At(s, log, j).tasks
    ensures At(s, log, j).tasks[id].status == At(s, log, i).tasks[id].status
    ensures At(s, log, j).tasks[id].result == At(s, log, i).tasks[id].result
    ensures At(s, log, j).tasks[id].completedAt == At(s, log, i).tasks[id].completedAt
    decreases j - i
  {
    hide Next;
    if i < j {
      StepMovesRows(s, log, i);
      TerminalIsFinal(s, log, i + 1, j, id);
    }
  }

  // ---- The account of attempts ----

  predicate IsClaimOf(e: Event, id: Id) {
    e.Claim? && e.id == id
  }

  /** How often the row was claimed in the run. */
  ghost function Claims(s: State, log: seq<Event>, id: Id): nat {
    if log == [] then 0 else
      var before, e := Replay(s, log[..|log| - 1]), log[|log| - 1];
      Claims(s, log[..|log| - 1], id) + (if IsClaimOf(e, id) && Enabled(before, e) then 1 else 0)
  }

  ghost predicate Refunds(s: State, n: State, id: Id) {
    id in s.tasks && id in n.tasks && Refunded(s.tasks[id], n.tasks[id])
  }

  /** How often a claim of the row was taken back unused. */
  ghost function RefundCount(s: State, log: seq<Event>, id: Id): nat {
    if log == [] then 0 else
      var before, e := Replay(s, log[..|log| - 1]), log[|log| - 1];
      RefundCount(s, log[..|log| - 1], id) + (if Refunds(before, Next(before, e), id) then 1 else 0)
  }

  /** `attempts` is exactly the number of claims of the row less those refunded. */
  lemma {:induction false} AttemptsAreClaimsLessRefunds(s: State, log: seq<Event>, id: Id)
    requires s.tasks == map[]
    ensures (if id in Replay(s, log).tasks then Replay(s, log).tasks[id].attempts else 0)
            == Claims(s, log, id) - RefundCount(s, log, id)
  {
    hide ClaimEnabled, InsertEnabled, EditEnabled, OtherEnabled;
    hide ClaimEffect, InsertEffect, EditEffect, SweepEffect, SettingEffect;
    if log != [] {
      var before, e := Replay(s, log[..|log| - 1]), log[|log| - 1];
      AttemptsAreClaimsLessRefunds(s, log[..|log| - 1], id);
      RunsKeepRowsOk(s, log[..|log| - 1]);
      EveryEventMovesRows(before, e);
      ClaimTakes(before, e);
    }
  }

  lemma ClaimTakes(s: State, e: Event)
    ensures e.Claim? && Enabled(s, e) ==>
      e.id in s.tasks && e.id in Next(s, e).tasks && Taken(s.tasks[e.id], Next(s, e).tasks[e.id])
  {
  }

  /** No claim is refunded twice: two refunds in a run never return the same token. */
  lemma EachClaimIsRefundedOnce(s: State, log: seq<Event>, i: nat, j: nat, id: Id)
    requires RowsOk(s) && i < j < |log|
    requires Refunds(At(s, log, i), At(s, log, i + 1), id) && Refunds(At(s, log, j), At(s, log, j + 1), id)
    ensures At(s, log, i).tasks[id].generation < At(s, log, j).tasks[id].generation
  {
    hide Next;
    StepMovesRows(s, log, i);
    SpentForever(s, log, i + 1, j, id, At(s, log, i).tasks[id].generation);
  }

  /** The assignment a worker got from a claim in this run. */
  ghost predicate WasIssued(s: State, log: seq<Event>, a: Assignment) {
    exists k :: 0 <= k < |log| && IsClaimOf(log[k], a.id) && Enabled(At(s, log, k), log[k])
      && a.id in At(s, log, k + 1).tasks && AssignmentOf(a.id, At(s, log, k + 1).tasks[a.id]) == a
  }

  lemma ClaimIssues(s: State, log: seq<Event>, e: Event)
    requires e.Claim? && Enabled(Replay(s, log), e)
    ensures e.id in Replay(s, log + [e]).tasks
    ensures WasIssued(s, log + [e], AssignmentOf(e.id, Replay(s, log + [e]).tasks[e.id]))
  {
    ReplayOneMore(s, log, e);
    ClaimTakes(Replay(s, log), e);
    hide Next, Enabled;
    var more, k := log + [e], |log|;
    assert more[..k] == log && more[..k + 1] == more && more[k] == e;
    assert At(s, more, k) == Replay(s, log) && At(s, more, k + 1) == Replay(s, more);
    var a := AssignmentOf(e.id, Replay(s, more).tasks[e.id]);
    assert IsClaimOf(more[k], a.id);
  }

  /** Whoever reads an assignment off a claimed row, like `current_assignment`, has the one its claim issued. */
  lemma {:induction false} ReadCopyWasIssued(s: State, log: seq<Event>, id: Id)
    requires s.tasks == map[] && id in Replay(s, log).tasks && Replay(s, log).tasks[id].status.Claimed?
    ensures WasIssued(s, log, AssignmentOf(id, Replay(s, log).tasks[id]))
  {
    hide Next, WasIssued;
    var prefix, e := log[..|log| - 1], log[|log| - 1];
    var before := Replay(s, prefix);
    assert log == prefix + [e];
    NothingIsWrongYet(s);
    RunsKeepRowsOk(s, prefix);
    EveryEventMovesRows(before, e);
    if IsClaimOf(e, id) && Enabled(before, e) {
      ClaimIssues(s, prefix, e);
    } else {
      NotTaken(before, e, id);
      ReadCopyWasIssued(s, prefix, id);
      StaysIssued(s, prefix, log, AssignmentOf(id, before.tasks[id]));
    }
  }

  /** Without a claim of the row in between, a claimed row was claimed before, under the same token. */
  lemma NotTaken(s: State, e: Event, id: Id)
    requires RowsOk(s) && !(IsClaimOf(e, id) && Enabled(s, e))
    requires id in Next(s, e).tasks && Next(s, e).tasks[id].status.Claimed?
    ensures id in s.tasks && s.tasks[id].status.Claimed?
    ensures AssignmentOf(id, s.tasks[id]) == AssignmentOf(id, Next(s, e).tasks[id])
  {
    hide ClaimEnabled, InsertEnabled, EditEnabled, OtherEnabled;
    hide ClaimEffect, InsertEffect, EditEffect, SweepEffect, SettingEffect;
    EveryEventMovesRows(s, e);
    if id in s.tasks {
      assert Moves(e, id, s.tasks[id], Next(s, e).tasks[id]);
    }
  }

  lemma StaysIssued(s: State, log: seq<Event>, more: seq<Event>, a: Assignment)
    requires WasIssued(s, log, a) && log <= more
    ensures WasIssued(s, more, a)
  {
    var k :| 0 <= k < |log| && IsClaimOf(log[k], a.id) && Enabled(At(s, log, k), log[k])
      && a.id in At(s, log, k + 1).tasks && AssignmentOf(a.id, At(s, log, k + 1).tasks[a.id]) == a;
    hide Next, Enabled;
    assert more[..k] == log[..k] && more[..k + 1] == log[..k + 1] && more[k] == log[k];
    assert At(s, more, k) == At(s, log, k) && At(s, more, k + 1) == At(s, log, k + 1);
    assert IsClaimOf(more[k], a.id);
  }

  lemma {:induction false} CopyStaysTrue(s: State, log: seq<Event>, k: nat, j: nat, a: Assignment)
    requires RowsOk(s) && k <= j <= |log|
    requires a.id in At(s, log, k).tasks && a.job == At(s, log, k).tasks[a.id].job
    requires Holds(At(s, log, k), a.id, a.generation) && At(s, log, k).tasks[a.id].attempts == a.attempts
    ensures a.id in At(s, log, j).tasks && At(s, log, j).tasks[a.id].job == a.job
    ensures Holds(At(s, log, j), a.id, a.generation) ==> At(s, log, j).tasks[a.id].attempts == a.attempts
    decreases j - k
  {
    hide Next;
    if k < j {
      StepMovesRows(s, log, k);
      if Holds(At(s, log, k + 1), a.id, a.generation) {
        CopyStaysTrue(s, log, k + 1, j, a);
      } else {
        JobIsForever(s, log, k + 1, j, a.id);
        SpentForever(s, log, k + 1, j, a.id, a.generation);
      }
    }
  }

  lemma {:induction false} JobIsForever(s: State, log: seq<Event>, i: nat, j: nat, id: Id)
    requires RowsOk(s) && i <= j <= |log| && id in At(s, log, i).tasks
    ensures id in At(s, log, j).tasks && At(s, log, j).tasks[id].job == At(s, log, i).tasks[id].job
    decreases j - i
  {
    hide Next;
    if i < j {
      StepMovesRows(s, log, i);
      JobIsForever(s, log, i + 1, j, id);
    }
  }

  /** While a token is current, the worker's copy of the row agrees with the row itself. */
  lemma IssuedCopyIsAccurate(s: State, log: seq<Event>, a: Assignment)
    requires RowsOk(s) && WasIssued(s, log, a) && Current(Replay(s, log).tasks, a)
    ensures AssignmentOf(a.id, Replay(s, log).tasks[a.id]) == a
  {
    hide ClaimEnabled, InsertEnabled, EditEnabled, OtherEnabled;
    hide ClaimEffect, InsertEffect, EditEffect, SweepEffect, SettingEffect, Next;
    var k :| 0 <= k < |log| && IsClaimOf(log[k], a.id) && Enabled(At(s, log, k), log[k])
      && a.id in At(s, log, k + 1).tasks && AssignmentOf(a.id, At(s, log, k + 1).tasks[a.id]) == a;
    StepAt(s, log, k);
    ClaimTakes(At(s, log, k), log[k]);
    assert log[..|log|] == log;
    CopyStaysTrue(s, log, k + 1, |log|, a);
  }

  ghost function RetryCount(s: State, log: seq<Event>, id: Id): nat {
    if log == [] then 0 else
      var before, e := Replay(s, log[..|log| - 1]), log[|log| - 1];
      RetryCount(s, log[..|log| - 1], id) + (if e.Retry? && e.a.id == id && Enabled(before, e) then 1 else 0)
  }

  /** `handle_failure` only retries a claim it was issued, and only below the attempt limit. */
  ghost predicate RetryFollowsPolicy(s: State, log: seq<Event>, i: nat, maxAttempts: int)
    requires i < |log|
  {
    log[i].Retry? ==> log[i].a.attempts < maxAttempts && WasIssued(s, log[..i], log[i].a)
  }

  ghost predicate RetriesFollowPolicy(s: State, log: seq<Event>, maxAttempts: int) {
    forall i :: 0 <= i < |log| ==> RetryFollowsPolicy(s, log, i, maxAttempts)
  }

  /** Attempts that are used up for good: all but the one currently running. */
  function Charged(s: State, id: Id): int {
    if id !in s.tasks then 0 else s.tasks[id].attempts - (if s.tasks[id].status.Claimed? then 1 else 0)
  }

  lemma ChargesNeverFall(s: State, e: Event, n: State, id: Id)
    requires RowsOk(s) && RowsMove(s, e, n)
    ensures Charged(s, id) <= Charged(n, id)
  {
  }

  lemma RetryCharges(s: State, e: Event)
    requires e.Retry? && ClaimEnabled(s, e)
    ensures Charged(Next(s, e), e.a.id) == Charged(s, e.a.id) + 1 == s.tasks[e.a.id].attempts
  {
  }

  /** A task is retried after a failure at most `maxAttempts - 1` times. */
  lemma {:induction false} RetriesAreBounded(s: State, log: seq<Event>, id: Id, maxAttempts: int)
    requires s.tasks == map[] && maxAttempts > 0 && RetriesFollowPolicy(s, log, maxAttempts)
    ensures RetryCount(s, log, id) <= Charged(Replay(s, log), id)
    ensures RetryCount(s, log, id) <= maxAttempts - 1
  {
    hide Next, ClaimEnabled, Charged, RowsMove, RowsOk;
    if log == [] {
      NothingCharged(s, id);
    } else {
      var prefix, e := log[..|log| - 1], log[|log| - 1];
      forall i | 0 <= i < |prefix|
        ensures RetryFollowsPolicy(s, prefix, i, maxAttempts)
      {
        assert prefix[..i] == log[..i] && RetryFollowsPolicy(s, log, i, maxAttempts);
      }
      assert RetryFollowsPolicy(s, log, |prefix|, maxAttempts);
      RetriesAreBounded(s, prefix, id, maxAttempts);
      assert RowsOk(s) by { NothingIsWrongYet(s); }
      RunsKeepRowsOk(s, prefix);
      EveryEventMovesRows(Replay(s, prefix), e);
      ChargesNeverFall(Replay(s, prefix), e, Replay(s, log), id);
      if e.Retry? && e.a.id == id && Enabled(Replay(s, prefix), e) {
        IssuedCopyIsAccurate(s, prefix, e.a) by { RetriedClaimIsCurrent(Replay(s, prefix), e); }
        RetryCharges(Replay(s, prefix), e);
      }
    }
  }

  lemma NothingCharged(s: State, id: Id)
    requires s.tasks == map[]
    ensures Charged(s, id) == 0
  {
  }

  lemma NothingIsWrongYet(s: State)
    requires s.tasks == map[]
    ensures RowsOk(s)
  {
  }

  lemma RetriedClaimIsCurrent(s: State, e: Event)
    requires e.Retry? && ClaimEnabled(s, e)
    ensures Current(s.tasks, e.a)
  {
  }
}
