/**
Delegation trees: a parent waits for exactly as long as it has open children, finished work has no
open children, and after a recovery sweep open delegations can never freeze the team.
*/
module QueueTree {
  import opened Basics
  import opened TaskTable
  import opened ClaimOrder
  import opened Routing
  import opened QueueEvents
  import opened QueueRuns

  /** Only delegations have parents, parents are older and never generators. */
  ghost predicate LineageOk(s: State) {
    && (forall c :: c in s.tasks && s.tasks[c].job.kind.Delegation? ==>
          s.tasks[c].job.parent.Some? && s.tasks[c].job.source.Peer?)
    && (forall c :: c in s.tasks && s.tasks[c].job.parent.Some? ==> HasSoundParent(s.tasks, c))
  }

  predicate HasSoundParent(tasks: Tasks, c: Id)
    requires c in tasks && tasks[c].job.parent.Some?
  {
    var p := tasks[c].job.parent.value;
    && tasks[c].job.kind.Delegation?
    && p in tasks && !tasks[p].job.kind.Generator? && tasks[p].job.created < tasks[c].job.created
  }

  /** The parent of every open child is waiting. */
  ghost predicate ParentsWait(s: State) {
    forall c :: c in s.tasks && s.tasks[c].job.parent.Some? && IsOpen(s.tasks[c].status) ==>
      s.tasks[c].job.parent.value in s.tasks && s.tasks[s.tasks[c].job.parent.value].status.Waiting?
  }

  ghost predicate TreeOk(s: State) {
    RowsOk(s) && LineageOk(s) && ParentsWait(s)
  }

  /** Every waiting row has an open child to wait for. */
  ghost predicate WaitsAreFounded(s: State) {
    forall p :: p in s.tasks && s.tasks[p].status.Waiting? ==> HasOpenChild(s.tasks, p)
  }

  ghost predicate NewRowsSound(s: State, n: State) {
    forall c :: c in n.tasks && c !in s.tasks ==>
      && (n.tasks[c].job.parent.None? ==> !n.tasks[c].job.kind.Delegation?)
      && (n.tasks[c].job.parent.Some? ==>
            && n.tasks[c].job.source.Peer? && HasSoundParent(n.tasks, c)
            && n.tasks[n.tasks[c].job.parent.value].status.Waiting?)
  }

  lemma LineageIsKept(s: State, e: Event, n: State)
    requires LineageOk(s) && RowsMove(s, e, n) && NewRowsSound(s, n)
    ensures LineageOk(n)
  {
  }

  lemma NewRowsHaveSoundParents(s: State, e: Event)
    requires RowsOk(s)
    ensures NewRowsSound(s, Next(s, e))
  {
    hide ClaimEnabled, InsertEnabled, EditEnabled, OtherEnabled;
    hide ClaimEffect, InsertEffect, EditEffect, SweepEffect, SettingEffect, NewRowsSound;
    if !AddsRow(e) || !Enabled(s, e) {
      AddsNothing(s, e);
      NothingNewIsSound(s, Next(s, e));
    } else if e.Delegate? {
      DelegatedRowIsSound(s, e);
    } else {
      InsertedRowIsSound(s, e);
    }
  }

  lemma NothingNewIsSound(s: State, n: State)
    requires n.tasks.Keys == s.tasks.Keys
    ensures NewRowsSound(s, n)
  {
  }

  lemma DelegatedRowIsSound(s: State, e: Event)
    requires RowsOk(s) && e.Delegate? && InsertEnabled(s, e)
    ensures NewRowsSound(s, InsertEffect(s, e))
  {
    hide IsRoute, SameTopicChild, SameWorkChild, WellFormed;
  }

  lemma InsertedRowIsSound(s: State, e: Event)
    requires (e.Insert? || e.InsertAutomatic?) && InsertEnabled(s, e)
    ensures NewRowsSound(s, InsertEffect(s, e))
  {
    hide IsRoute, BlocksAutomatic, AdmissionStatus;
  }

  lemma AddsNothing(s: State, e: Event)
    requires !AddsRow(e) || !Enabled(s, e)
    ensures Next(s, e).tasks.Keys == s.tasks.Keys
  {
  }

  /** A parent is only ever taken out of 'waiting' when nothing below it is open any more. */
  lemma ParentsLeaveWaitingDone(s: State, e: Event, p: Id)
    requires TreeOk(s) && Enabled(s, e) && p in s.tasks && s.tasks[p].status.Waiting?
    requires p in Effect(s, e).tasks && !Effect(s, e).tasks[p].status.Waiting?
    ensures !HasOpenChild(Effect(s, e).tasks, p)
  {
    hide ClaimEnabled, InsertEnabled, EditEnabled, OtherEnabled;
    hide ClaimEffect, InsertEffect, EditEffect, SweepEffect, SettingEffect, TreeOk, HasOpenChild;
    if e.Complete? || e.Finish? {
      VerdictWakesOnlyDoneParents(s, e, p);
    } else if Sweeps(e) {
      SweepsReleaseOnlyDoneParents(s, e, p);
    } else {
      KeepsWaiting(s, e, p);
    }
  }

  lemma KeepsWaiting(s: State, e: Event, p: Id)
    requires Enabled(s, e) && !e.Complete? && !e.Finish? && !Sweeps(e)
    requires p in s.tasks && s.tasks[p].status.Waiting?
    ensures p in Effect(s, e).tasks && Effect(s, e).tasks[p].status.Waiting?
  {
    hide ClaimEnabled, InsertEnabled, EditEnabled, OtherEnabled;
    hide ClaimEffect, InsertEffect, EditEffect, SweepEffect, SettingEffect;
    if UsesClaim(e) {
      ClaimsKeepWaiting(s, e, p);
    } else if AddsRow(e) {
      InsertionsKeepWaiting(s, e, p);
    } else if EditsOneRow(e) {
      EditsKeepWaiting(s, e, p);
    }
  }

  lemma ClaimsKeepWaiting(s: State, e: Event, p: Id)
    requires UsesClaim(e) && !e.Complete? && !e.Finish? && ClaimEnabled(s, e)
    requires p in s.tasks && s.tasks[p].status.Waiting?
    ensures p in ClaimEffect(s, e).tasks && ClaimEffect(s, e).tasks[p].status.Waiting?
  {
  }

  lemma InsertionsKeepWaiting(s: State, e: Event, p: Id)
    requires AddsRow(e) && InsertEnabled(s, e)
    requires p in s.tasks && s.tasks[p].status.Waiting?
    ensures p in InsertEffect(s, e).tasks && InsertEffect(s, e).tasks[p].status.Waiting?
  {
    hide IsRoute, MustBuffer;
  }

  lemma EditsKeepWaiting(s: State, e: Event, p: Id)
    requires EditsOneRow(e) && EditEnabled(s, e)
    requires p in s.tasks && s.tasks[p].status.Waiting?
    ensures p in EditEffect(s, e).tasks && EditEffect(s, e).tasks[p].status.Waiting?
  {
    hide PutIdle;
  }

  lemma VerdictWakesOnlyDoneParents(s: State, e: Event, p: Id)
    requires TreeOk(s) && (e.Complete? || e.Finish?) && ClaimEnabled(s, e)
    requires p in s.tasks && s.tasks[p].status.Waiting? && !ClaimEffect(s, e).tasks[p].status.Waiting?
    ensures !HasOpenChild(ClaimEffect(s, e).tasks, p)
  {
    hide Trim, Enqueued, RowsOk, LineageOk;
    var done := s.tasks[e.a.id := ClaimEffect(s, e).tasks[e.a.id]];
    assert !HasOpenChild(done, p);
    forall c | IsChildOf(ClaimEffect(s, e).tasks, c, p)
      ensures !IsOpen(ClaimEffect(s, e).tasks[c].status)
    {
      assert IsChildOf(done, c, p);
      assert c != p;
    }
  }

  lemma WaitingRowIsSwept(s: State, e: Event, p: Id)
    requires p in s.tasks
    ensures s.tasks[p].status.Waiting? && !Swept(s, e, p).status.Waiting? ==>
      (e.WakeParents? && !HasOpenChild(s.tasks, p)) || (e.CancelTree? && p in e.ids)
    ensures Swept(s, e, p).status.Waiting? ==> s.tasks[p].status.Waiting?
  {
  }

  lemma SweepsReleaseOnlyDoneParents(s: State, e: Event, p: Id)
    requires Enabled(s, e) && Sweeps(e)
    requires p in s.tasks && s.tasks[p].status.Waiting? && !SweepEffect(s, e).tasks[p].status.Waiting?
    ensures !HasOpenChild(SweepEffect(s, e).tasks, p)
  {
  }

  lemma TreeIsKept(s: State, e: Event)
    requires TreeOk(s)
    ensures TreeOk(Next(s, e))
  {
    hide ClaimEnabled, InsertEnabled, EditEnabled, OtherEnabled;
    hide ClaimEffect, InsertEffect, EditEffect, SweepEffect, SettingEffect;
    var n := Next(s, e);
    EveryEventMovesRows(s, e);
    RowsOkIsKept(s, e, n);
    NewRowsHaveSoundParents(s, e);
    LineageIsKept(s, e, n);
    forall c | c in n.tasks && n.tasks[c].job.parent.Some? && IsOpen(n.tasks[c].status)
      ensures n.tasks[c].job.parent.value in n.tasks && n.tasks[n.tasks[c].job.parent.value].status.Waiting?
    {
      var p := n.tasks[c].job.parent.value;
      if c in s.tasks {
        assert Moves(e, c, s.tasks[c], n.tasks[c]);
        assert IsChildOf(n.tasks, c, p);
        if n != s && !n.tasks[p].status.Waiting? {
          ParentsLeaveWaitingDone(s, e, p);
        }
      }
    }
  }

  /** In every run the parent of every open child is waiting, and parents are older non-generators. */
  lemma {:induction false} RunsKeepTreesSound(s: State, log: seq<Event>)
    requires TreeOk(s)
    ensures TreeOk(Replay(s, log))
  {
    hide Next;
    if log != [] {
      RunsKeepTreesSound(s, log[..|log| - 1]);
      TreeIsKept(Replay(s, log[..|log| - 1]), log[|log| - 1]);
    }
  }

  /** Finished, pending or running work never has an open child, and generators never have children. */
  lemma OnlyWaitingWorkHasOpenChildren(s: State, log: seq<Event>, id: Id)
    requires s.tasks == map[] && id in Replay(s, log).tasks
    ensures HasOpenChild(Replay(s, log).tasks, id) ==> Replay(s, log).tasks[id].status.Waiting?
    ensures Replay(s, log).tasks[id].job.kind.Generator? ==> !HasChild(Replay(s, log).tasks, id)
  {
    RunsKeepTreesSound(s, log);
  }

  lemma EmptyTreeIsSound(s: State)
    requires s.tasks == map[]
    ensures TreeOk(s)
  {
  }

  // ---- Deadlock freedom ----

  /** What holds right after a recovery sweep. */
  ghost predicate Recovered(s: State) {
    && WaitsAreFounded(s)
    && (forall i :: i in s.tasks ==> !s.tasks[i].status.Deferred?)
    && (forall i :: i in s.tasks && s.tasks[i].job.kind.Delegation? ==> !s.tasks[i].status.Backlog?)
    && (forall i :: i in s.tasks && s.tasks[i].job.kind.Delegation? && s.tasks[i].status.Buffered? ==>
          AgentBusy(s.tasks, s.tasks[i].job.assignee))
  }

  /** A task that waits for its children, or an open delegation. */
  predicate IsDelegatedWork(t: Task) {
    IsOpen(t.status) && (t.status.Waiting? || t.job.kind.Delegation?)
  }

  predicate Runnable(t: Task) {
    t.status.Pending? || t.status.Claimed?
  }

  /** A chain of open tasks, each a child of the one before. */
  predicate IsOpenChain(tasks: Tasks, chain: seq<Id>) {
    && chain != []
    && (forall k :: 0 <= k < |chain| ==> chain[k] in tasks && IsOpen(tasks[chain[k]].status))
    && forall k :: 0 <= k < |chain| - 1 ==> IsChildOf(tasks, chain[k + 1], chain[k])
  }

  /** The runnable row stands at the end of the chain, or keeps the agent busy for which that end is buffered. */
  predicate Unblocks(tasks: Tasks, chain: seq<Id>, r: Id)
    requires IsOpenChain(tasks, chain)
  {
    var last := chain[|chain| - 1];
    && r in tasks && Runnable(tasks[r])
    && (r == last || (tasks[last].status.Buffered? && tasks[r].job.assignee == tasks[last].job.assignee))
  }

  /**
  Deadlock freedom: from any waiting task and any open delegation of a recovered queue open children lead
  down to work that is pending or claimed, or to a delegation buffered behind such work of its agent.
  Children are younger than their parents, so the search ends; agents that delegated to each other are
  both waiting, and neither blocks the other's buffered child.
  */
  lemma {:induction false} OpenWorkLeadsToRunnableWork(s: State, id: Id) returns (r: Id, chain: seq<Id>)
    requires TreeOk(s) && Recovered(s)
    requires id in s.tasks && IsDelegatedWork(s.tasks[id])
    ensures IsOpenChain(s.tasks, chain) && chain[0] == id && Unblocks(s.tasks, chain, r)
    decreases s.clock - s.tasks[id].job.created
  {
    if Runnable(s.tasks[id]) {
      r, chain := id, [id];
    } else if s.tasks[id].status.Buffered? {
      r :| r in s.tasks && s.tasks[r].job.assignee == s.tasks[id].job.assignee && IsBusy(s.tasks[r].status);
      chain := [id];
    } else {
      var c :| c in s.tasks && IsChildOf(s.tasks, c, id) && IsOpen(s.tasks[c].status);
      assert HasSoundParent(s.tasks, c);
      var below;
      r, below := OpenWorkLeadsToRunnableWork(s, c);
      chain := [id] + below;
    }
  }

  /** No run can reach a state in which a recovery sweep leaves open delegated work with nothing to run. */
  lemma RecoveredQueuesAreNotDeadlocked(s: State, log: seq<Event>)
    requires s.tasks == map[] && Recovered(Replay(s, log))
    requires exists id :: id in Replay(s, log).tasks && IsDelegatedWork(Replay(s, log).tasks[id])
    ensures exists r :: r in Replay(s, log).tasks && Runnable(Replay(s, log).tasks[r])
  {
    var q := Replay(s, log);
    RunsKeepTreesSound(s, log);
    var id :| id in q.tasks && IsDelegatedWork(q.tasks[id]);
    var r, chain := OpenWorkLeadsToRunnableWork(q, id);
  }
}
