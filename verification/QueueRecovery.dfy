/** The recovery sweep as a whole: its statements put the rows in order, its promotions finish the job. */
module QueueRecovery {
  import opened Basics
  import opened TaskTable
  import opened QueueEvents
  import opened QueueRuns
  import opened QueueTree
  import opened QueueFoundation

  /** The outcome of promoting one agent's oldest buffered delegation. */
  ghost predicate PromotesOne(s: State, agent: Name, n: State) {
    || (n == s && forall id :: !IsNextBuffered(s.tasks, agent, id))
    || exists id ::
         IsNextBuffered(s.tasks, agent, id) && n == s.(tasks := s.tasks[id := s.tasks[id].(status := Pending)])
  }

  /** The outcome of doing so for every agent. */
  ghost predicate PromotesEach(s: State, n: State) {
    && n == s.(tasks := n.tasks) && n.tasks.Keys == s.tasks.Keys
    && forall i :: i in s.tasks ==>
      n.tasks[i] ==
        if IsNextBuffered(s.tasks, s.tasks[i].job.assignee, i) then s.tasks[i].(status := Pending) else s.tasks[i]
  }

  /** The four sweeping statements of `recover`, in order. */
  ghost function Sweep(s: State, before: int): State {
    Next(Next(Next(Next(s, ExpireClaims(before)), ResumeDeferred), RestoreDelegations), WakeParents)
  }

  /** Agents marked working whose row is older than the lease are set idle. */
  function Idled(agents: map<Name, Agent>, before: int): map<Name, Agent> {
    map g | g in agents :: if agents[g].status.Working? && agents[g].updated < before
                           then agents[g].(status := Idle, topic := None) else agents[g]
  }

  /** The agents in `done` have had their promotion, the others not yet. */
  ghost predicate PromotedAmong(rows: Tasks, done: set<Name>, now: Tasks) {
    && now.Keys == rows.Keys
    && forall i :: i in rows ==>
      now[i] == if rows[i].job.assignee in done && IsNextBuffered(rows, rows[i].job.assignee, i)
                then rows[i].(status := Pending) else rows[i]
  }

  lemma OneMoreAgentPromoted(rows: Tasks, done: set<Name>, mid: Tasks, agent: Name, now: Tasks)
    requires PromotedAmong(rows, done, mid) && agent !in done
    requires (now == mid && forall id :: !IsNextBuffered(mid, agent, id))
      || exists id :: IsNextBuffered(mid, agent, id) && now == mid[id := mid[id].(status := Pending)]
    ensures PromotedAmong(rows, done + {agent}, now)
  {
    assert forall i :: i in rows && rows[i].job.assignee == agent ==> mid[i] == rows[i];
    assert AgentBusy(mid, agent) <==> AgentBusy(rows, agent);
    assert forall id :: IsNextBuffered(mid, agent, id) <==> IsNextBuffered(rows, agent, id);
  }

  lemma NoAgentServedYet(rows: Tasks)
    ensures PromotedAmong(rows, {}, rows)
  {
  }

  lemma EveryAgentServed(s: State, all: set<Name>, n: State)
    requires PromotedAmong(s.tasks, all, n.tasks) && n == s.(tasks := n.tasks)
    requires all == set i | i in s.tasks && s.tasks[i].status.Buffered? :: s.tasks[i].job.assignee
    ensures PromotesEach(s, n)
  {
  }

  predicate NoneDeferred(rows: Tasks) {
    forall i :: i in rows ==> !rows[i].status.Deferred?
  }

  predicate NoDelegationBacklogged(rows: Tasks) {
    forall i :: i in rows && rows[i].job.kind.Delegation? ==> !rows[i].status.Backlog?
  }

  lemma SweepLeavesOrder(s: State, before: int)
    requires TreeOk(s)
    ensures WaitsAreFounded(Sweep(s, before))
    ensures NoneDeferred(Sweep(s, before).tasks) && NoDelegationBacklogged(Sweep(s, before).tasks)
  {
    hide TreeOk, WaitsAreFounded, Swept, Next;
    var a := Next(s, ExpireClaims(before));
    var b := Next(a, ResumeDeferred);
    var c := Next(b, RestoreDelegations);
    TreeIsKept(s, ExpireClaims(before));
    TreeIsKept(a, ResumeDeferred);
    TreeIsKept(b, RestoreDelegations);
    WakingParentsRestoresFoundation(c);
    assert NoneDeferred(b.tasks) by { ResumingLeavesNoneDeferred(a); }
    assert NoneDeferred(c.tasks) && NoDelegationBacklogged(c.tasks) by { RestoringLeavesNoneBacklogged(b); }
    WakingKeepsOrder(c);
  }

  lemma ResumingLeavesNoneDeferred(s: State)
    ensures NoneDeferred(Next(s, ResumeDeferred).tasks)
  {
  }

  lemma RestoringLeavesNoneBacklogged(s: State)
    requires TreeOk(s) && NoneDeferred(s.tasks)
    ensures NoneDeferred(Next(s, RestoreDelegations).tasks) && NoDelegationBacklogged(Next(s, RestoreDelegations).tasks)
  {
    hide Next, RowsOk, ParentsWait;
    SweepIsNext(s, RestoreDelegations);
    var n := Next(s, RestoreDelegations).tasks;
    forall i | i in n
      ensures !n[i].status.Deferred? && !(n[i].job.kind.Delegation? && n[i].status.Backlog?)
    {
      assert n[i] == Swept(s, RestoreDelegations, i);
      hide SweepEffect, Swept;
      RestoredRow(s, i);
    }
  }

  lemma RestoredRow(s: State, i: Id)
    requires TreeOk(s) && NoneDeferred(s.tasks) && i in s.tasks
    ensures var t := Swept(s, RestoreDelegations, i);
      !t.status.Deferred? && !(t.job.kind.Delegation? && t.status.Backlog?)
  {
    hide RowsOk, ParentsWait;
  }

  lemma WakingKeepsOrder(s: State)
    requires NoneDeferred(s.tasks) && NoDelegationBacklogged(s.tasks)
    ensures NoneDeferred(Next(s, WakeParents).tasks) && NoDelegationBacklogged(Next(s, WakeParents).tasks)
  {
    hide Next;
    SweepIsNext(s, WakeParents);
    var n := Next(s, WakeParents).tasks;
    forall i | i in n
      ensures n[i].job == s.tasks[i].job && (n[i].status == s.tasks[i].status || n[i].status.Pending?)
    {
      assert n[i] == Swept(s, WakeParents, i);
    }
  }

  /** The only change a promotion makes to a row is from buffered to pending. */
  lemma PromotionMoves(swept: State, n: State)
    requires PromotesEach(swept, n)
    ensures n.tasks.Keys == swept.tasks.Keys && forall i :: i in n.tasks ==> PromotedOrKept(swept.tasks[i], n.tasks[i])
  {
    hide IsNextBuffered;
    forall i | i in n.tasks
      ensures PromotedOrKept(swept.tasks[i], n.tasks[i])
    {
      if IsNextBuffered(swept.tasks, swept.tasks[i].job.assignee, i) {
        NextIsBuffered(swept.tasks, i);
      }
    }
  }

  predicate PromotedOrKept(t: Task, u: Task) {
    u.job == t.job && (u.status == t.status || (t.status.Buffered? && u.status.Pending?))
  }

  lemma NextIsBuffered(rows: Tasks, i: Id)
    requires i in rows && IsNextBuffered(rows, rows[i].job.assignee, i)
    ensures rows[i].status.Buffered?
  {
  }

  lemma PromotionKeepsOrder(rows: Tasks, n: Tasks)
    requires NoneDeferred(rows) && NoDelegationBacklogged(rows)
    requires n.Keys == rows.Keys && forall i :: i in n ==> PromotedOrKept(rows[i], n[i])
    ensures NoneDeferred(n) && NoDelegationBacklogged(n)
  {
  }

  /** Once the statements have put the rows in order, promoting each agent's oldest delegation completes recovery. */
  lemma PromotionCompletesRecovery(w: State, swept: State, n: State)
    requires WaitsAreFounded(w) && NoneDeferred(w.tasks) && NoDelegationBacklogged(w.tasks)
    requires swept.tasks == w.tasks && PromotesEach(swept, n) && TreeOk(n)
    ensures Recovered(n)
  {
    hide RowsOk, ParentsWait, LineageOk, PromotesEach, WaitsAreFounded, PromotedOrKept, AgentBusy;
    PromotionMoves(swept, n);
    PromotionKeepsFoundation(w, n);
    PromotionKeepsOrder(w.tasks, n.tasks);
    forall i | i in n.tasks && n.tasks[i].job.kind.Delegation? && n.tasks[i].status.Buffered?
      ensures AgentBusy(n.tasks, n.tasks[i].job.assignee)
    {
      BufferedMeansBusy(swept, n, i);
    }
  }

  lemma PromotionKeepsFoundation(w: State, n: State)
    requires WaitsAreFounded(w) && n.tasks.Keys == w.tasks.Keys
    requires forall i :: i in n.tasks ==> PromotedOrKept(w.tasks[i], n.tasks[i])
    ensures WaitsAreFounded(n)
  {
  }

  lemma BufferedMeansBusy(swept: State, n: State, i: Id)
    requires PromotesEach(swept, n) && LineageOk(n)
    requires i in n.tasks && n.tasks[i].job.kind.Delegation? && n.tasks[i].status.Buffered?
    ensures AgentBusy(n.tasks, n.tasks[i].job.assignee)
  {
    var agent := n.tasks[i].job.assignee;
    if AgentBusy(swept.tasks, agent) {
      var o :| o in swept.tasks && swept.tasks[o].job.assignee == agent && IsBusy(swept.tasks[o].status);
      assert n.tasks[o].job.assignee == agent && IsBusy(n.tasks[o].status);
    } else {
      var rows := set o | o in swept.tasks && BufferedDelegation(swept.tasks[o], agent);
      var first := OldestExists(swept.tasks, rows, i);
      assert IsNextBuffered(swept.tasks, agent, first);
      assert n.tasks[first].job.assignee == agent && IsBusy(n.tasks[first].status);
    }
  }

  lemma {:induction false} OldestExists(rows: Tasks, ids: set<Id>, i: Id) returns (first: Id)
    requires ids <= rows.Keys && i in ids
    ensures IsOldest(rows, ids, first)
    decreases |ids|
  {
    if ids == {i} {
      first := i;
    } else {
      var rest := ids - {i};
      assert ids == rest + {i};
      var j :| j in rest;
      first := OldestExists(rows, rest, j);
      if Older(rows, i, first) {
        first := i;
      }
    }
  }
}
