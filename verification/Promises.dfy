/**
What the queue's main operations promise, column by column. These are second definitions, made from the
tables before and after alone: they use none of the predicates by which the transactions are defined, and
the lemmas below connect the two.
*/
module Promises {
  import opened Basics
  import opened TaskTable
  import opened ClaimOrder
  import opened Routing
  import opened QueueEvents
  import opened QueueRuns
  import opened QueueTree
  import opened QueueCapacity
  import opened QueueRecovery

  /** ORDER BY created_at,id */
  predicate FiledBefore(t: Task, a: Id, u: Task, b: Id) {
    t.job.created < u.job.created || (t.job.created == u.job.created && a < b)
  }

  // ---- Claiming ----

  predicate IsQueued(tasks: Tasks, agent: Name, id: Id) {
    id in tasks && tasks[id].job.assignee == agent && tasks[id].status.Pending?
  }

  predicate FromOperator(t: Task) {
    t.job.source.Chat? || t.job.source.Manual?
  }

  function NewerFromOperator(tasks: Tasks, id: Id): set<Id>
    requires id in tasks
  {
    set n | n in tasks && tasks[n].job.assignee == tasks[id].job.assignee && FromOperator(tasks[n])
            && tasks[n].job.created > tasks[id].job.created
  }

  /** Agent work that three attempts at newer operator work have overtaken. */
  ghost predicate WaitedTooLong(tasks: Tasks, id: Id)
    requires id in tasks
  {
    tasks[id].job.source.Peer? && SumAttempts(tasks, NewerFromOperator(tasks, id)) >= 3
  }

  /** A turn interrupted for an operator's message that is still queued. */
  predicate GaveWay(s: State, id: Id)
    requires id in s.tasks
  {
    && (exists n :: n in s.notes && s.notes[n].task == id && s.notes[n].topic == "operator-priority")
    && (exists m :: m in s.tasks && m != id && s.tasks[m].job.assignee == s.tasks[id].job.assignee
          && s.tasks[m].status.Pending? && s.tasks[m].job.topic == "dashboard-message")
  }

  /** Operator work that has not given way. */
  predicate IsDueNext(s: State, id: Id)
    requires id in s.tasks
  {
    FromOperator(s.tasks[id]) && !GaveWay(s, id)
  }

  /** The row `id` may be claimed before the row `o`. */
  ghost predicate MayGoFirst(s: State, id: Id, o: Id)
    requires id in s.tasks && o in s.tasks
  {
    && (WaitedTooLong(s.tasks, o) ==> WaitedTooLong(s.tasks, id))
    && (IsDueNext(s, o) ==> WaitedTooLong(s.tasks, id) || IsDueNext(s, id))
    && (GaveWay(s, o) ==> WaitedTooLong(s.tasks, id) || GaveWay(s, id) || FromOperator(s.tasks[id]))
    && (s.tasks[o].job.source.Peer? ==>
          WaitedTooLong(s.tasks, id) || GaveWay(s, id) || FromOperator(s.tasks[id]) || s.tasks[id].job.source.Peer?)
    && (SameTurn(s, id, o) ==> FiledBefore(s.tasks[id], id, s.tasks[o], o))
  }

  ghost predicate SameTurn(s: State, a: Id, b: Id)
    requires a in s.tasks && b in s.tasks
  {
    if WaitedTooLong(s.tasks, a) || WaitedTooLong(s.tasks, b)
    then WaitedTooLong(s.tasks, a) && WaitedTooLong(s.tasks, b)
    else if GaveWay(s, a) || GaveWay(s, b) then GaveWay(s, a) && GaveWay(s, b)
    else
      && (FromOperator(s.tasks[a]) <==> FromOperator(s.tasks[b]))
      && (s.tasks[a].job.source.Peer? <==> s.tasks[b].job.source.Peer?)
  }

  /** The row is the agent's to claim, and no queued row of the agent had to go before it. */
  ghost predicate IsInTurn(s: State, agent: Name, id: Id) {
    && IsQueued(s.tasks, agent, id) && agent in s.agents && !s.agents[agent].status.Paused?
    && forall o :: IsQueued(s.tasks, agent, o) && o != id ==> MayGoFirst(s, id, o)
  }

  lemma FirstIsInTurn(s: State, agent: Name, id: Id)
    requires IsFirst(s, agent, id)
    ensures IsInTurn(s, agent, id)
  {
    forall o | IsQueued(s.tasks, agent, o) && o != id
      ensures MayGoFirst(s, id, o)
    {
      assert Claimable(s, agent, o) && Precedes(s, id, o);
      RankInWords(s, id);
      RankInWords(s, o);
      hide Rank, GaveWay, WaitedTooLong;
    }
  }

  lemma RankInWords(s: State, id: Id)
    requires id in s.tasks
    ensures Rank(s, id) ==
      if WaitedTooLong(s.tasks, id) then 0
      else if GaveWay(s, id) then 2
      else if FromOperator(s.tasks[id]) then 1
      else if s.tasks[id].job.source.Peer? then 3
      else 4
  {
    assert NewerDirect(s.tasks, id) == NewerFromOperator(s.tasks, id);
    assert HasPriorityNote(s, id) && OperatorMessageQueued(s, id) <==> GaveWay(s, id);
  }

  /**
  What the order is for: an operator's work is not kept waiting by other work but overdue agent work, a turn
  that gave way is not claimed again before the message it gave way to, and agent work goes before automatic.
  */
  lemma OperatorsGoFirst(s: State, agent: Name, id: Id, o: Id)
    requires IsFirst(s, agent, id) && IsQueued(s.tasks, agent, o) && o != id
    ensures IsDueNext(s, o) ==>
      WaitedTooLong(s.tasks, id) || (IsDueNext(s, id) && FiledBefore(s.tasks[id], id, s.tasks[o], o))
    ensures GaveWay(s, id) && IsDueNext(s, o) ==> WaitedTooLong(s.tasks, id)
    ensures s.tasks[o].job.source.Peer? && !GaveWay(s, id) ==>
      FromOperator(s.tasks[id]) || s.tasks[id].job.source.Peer?
  {
    FirstIsInTurn(s, agent, id);
    assert MayGoFirst(s, id, o);
    hide GaveWay, WaitedTooLong;
  }

  // ---- Recovery ----

  predicate IsFinished(t: Task) {
    t.status.Completed? || t.status.Failed? || t.status.Cancelled?
  }

  predicate NothingBelow(tasks: Tasks, id: Id) {
    forall c :: c in tasks && tasks[c].job.parent == Some(id) ==> IsFinished(tasks[c])
  }

  predicate IsHandedTask(t: Task) {
    t.job.kind.Delegation? && t.job.source.Peer?
  }

  /** The row is set back to pending by the sweep. */
  predicate IsSetBack(tasks: Tasks, i: Id, before: int)
    requires i in tasks
  {
    var t := tasks[i];
    || (t.status.Claimed? && t.claimedAt.Some? && t.claimedAt.value < before)
    || t.status.Deferred?
    || (t.status.Backlog? && IsHandedTask(t))
    || (t.status.Waiting? && NothingBelow(tasks, i))
  }

  /** The agent will have something pending, claimed or deferred of its own. */
  predicate HasWork(tasks: Tasks, agent: Name, before: int) {
    exists o :: o in tasks && tasks[o].job.assignee == agent
      && (tasks[o].status.Pending? || tasks[o].status.Claimed? || IsSetBack(tasks, o, before))
  }

  /** The oldest buffered task handed to an agent that will have nothing else to do. */
  predicate IsReleased(tasks: Tasks, i: Id, before: int)
    requires i in tasks
  {
    var t := tasks[i];
    && t.status.Buffered? && IsHandedTask(t) && !HasWork(tasks, t.job.assignee, before)
    && forall o :: (o in tasks && o != i && tasks[o].job.assignee == t.job.assignee
                    && tasks[o].status.Buffered? && IsHandedTask(tasks[o])) ==> FiledBefore(t, i, tasks[o], o)
  }

  /**
  `recover`, row by row: a claim made before the lease began is taken away and its token spent, later claims
  stay, and of the rest exactly what was deferred, left behind or done waiting becomes pending.
  */
  predicate IsRecovered(tasks: Tasks, now: Tasks, before: int) {
    now.Keys == tasks.Keys && forall i :: i in tasks ==> RowRecovers(tasks, i, now[i], before)
  }

  predicate RowRecovers(tasks: Tasks, i: Id, u: Task, before: int)
    requires i in tasks
  {
    var t := tasks[i];
    if t.status.Claimed? then
      u == if t.claimedAt.Some? && t.claimedAt.value < before
           then t.(status := Pending, claimedAt := None, generation := t.generation + 1) else t
    else if t.status.Waiting? && IsSetBack(tasks, i, before) then u == t.(status := Pending, claimedAt := None)
    else if IsSetBack(tasks, i, before) || IsReleased(tasks, i, before) then u == t.(status := Pending)
    else u == t
  }

  /** The row after the four statements. */
  function RowSetBack(tasks: Tasks, i: Id, before: int): Task
    requires i in tasks
  {
    var t := tasks[i];
    if !IsSetBack(tasks, i, before) then t
    else if t.status.Claimed? then t.(status := Pending, claimedAt := None, generation := t.generation + 1)
    else if t.status.Waiting? then t.(status := Pending, claimedAt := None)
    else t.(status := Pending)
  }

  lemma SweepRowByRow(s: State, before: int)
    ensures var n := Sweep(s, before).tasks;
      n.Keys == s.tasks.Keys && forall i :: i in s.tasks ==> n[i] == RowSetBack(s.tasks, i, before)
  {
    hide Next, Swept;
    var a := Next(s, ExpireClaims(before));
    var b := Next(a, ResumeDeferred);
    var c := Next(b, RestoreDelegations);
    SweepIsNext(s, ExpireClaims(before));
    SweepIsNext(a, ResumeDeferred);
    SweepIsNext(b, RestoreDelegations);
    SweepIsNext(c, WakeParents);
    forall i | i in s.tasks
      ensures Swept(c, WakeParents, i) == RowSetBack(s.tasks, i, before)
    {
      FirstThree(s, a, b, c, before);
      Fourth(s, c, i, before);
    }
  }

  function AfterThree(t: Task, before: int): Task {
    if t.status.Claimed? && t.claimedAt.Some? && t.claimedAt.value < before
    then t.(status := Pending, claimedAt := None, generation := t.generation + 1)
    else if t.status.Deferred? || (t.status.Backlog? && IsHandedTask(t)) then t.(status := Pending)
    else t
  }

  lemma FirstThree(s: State, a: State, b: State, c: State, before: int)
    requires a == SweepEffect(s, ExpireClaims(before)) && b == SweepEffect(a, ResumeDeferred)
    requires c == SweepEffect(b, RestoreDelegations)
    ensures c.tasks.Keys == s.tasks.Keys && forall i :: i in s.tasks ==> c.tasks[i] == AfterThree(s.tasks[i], before)
  {
    forall i | i in s.tasks
      ensures c.tasks[i] == AfterThree(s.tasks[i], before)
    {
      hide HasOpenChild, NothingBelow;
      assert a.tasks[i] == Swept(s, ExpireClaims(before), i);
      ExpiredRow(s, i, before);
      ResumedRow(a, i);
      RestoredDelegation(b, i);
      hide Swept;
      assert b.tasks[i] == Swept(a, ResumeDeferred, i);
      assert c.tasks[i] == Swept(b, RestoreDelegations, i);
    }
  }

  lemma ExpiredRow(s: State, i: Id, before: int)
    requires i in s.tasks
    ensures var t := s.tasks[i];
      Swept(s, ExpireClaims(before), i) ==
        if t.status.Claimed? && t.claimedAt.Some? && t.claimedAt.value < before
        then t.(status := Pending, claimedAt := None, generation := t.generation + 1) else t
  {
    hide HasOpenChild;
  }

  lemma ResumedRow(s: State, i: Id)
    requires i in s.tasks
    ensures Swept(s, ResumeDeferred, i) ==
      if s.tasks[i].status.Deferred? then s.tasks[i].(status := Pending) else s.tasks[i]
  {
    hide HasOpenChild;
  }

  lemma RestoredDelegation(s: State, i: Id)
    requires i in s.tasks
    ensures Swept(s, RestoreDelegations, i) ==
      if IsHandedTask(s.tasks[i]) && s.tasks[i].status.Backlog? then s.tasks[i].(status := Pending) else s.tasks[i]
  {
    hide HasOpenChild;
  }

  lemma Fourth(s: State, c: State, i: Id, before: int)
    requires c.tasks.Keys == s.tasks.Keys
    requires forall o :: o in s.tasks ==> c.tasks[o] == AfterThree(s.tasks[o], before)
    requires i in s.tasks
    ensures Swept(c, WakeParents, i) == RowSetBack(s.tasks, i, before)
  {
    OpenBelow(s, c, i, before);
    hide HasOpenChild, NothingBelow;
    assert c.tasks[i] == AfterThree(s.tasks[i], before);
  }

  lemma OpenBelow(s: State, c: State, i: Id, before: int)
    requires c.tasks.Keys == s.tasks.Keys
    requires forall o :: o in s.tasks ==> c.tasks[o] == AfterThree(s.tasks[o], before)
    ensures HasOpenChild(c.tasks, i) <==> !NothingBelow(s.tasks, i)
  {
    forall o | o in s.tasks
      ensures IsChildOf(c.tasks, o, i) <==> s.tasks[o].job.parent == Some(i)
      ensures IsOpen(c.tasks[o].status) <==> !IsFinished(s.tasks[o])
    {
      StaysOpen(s.tasks[o], before);
    }
    hide AfterThree, IsFinished, IsOpen;
  }

  lemma StaysOpen(t: Task, before: int)
    ensures IsOpen(AfterThree(t, before).status) <==> !IsFinished(t)
    ensures AfterThree(t, before).job == t.job
  {
  }

  /** Statements and promotions together. */
  lemma RecoveryRowByRow(tasks: Tasks, w: State, swept: State, n: State, before: int)
    requires w.tasks.Keys == tasks.Keys && forall i :: i in tasks ==> w.tasks[i] == RowSetBack(tasks, i, before)
    requires swept.tasks == w.tasks && PromotesEach(swept, n)
    ensures IsRecovered(tasks, n.tasks, before)
  {
    hide NothingBelow;
    forall i | i in tasks
      ensures RowRecovers(tasks, i, n.tasks[i], before)
    {
      NextIsReleased(tasks, w.tasks, i, before);
      hide IsNextBuffered, IsReleased;
    }
  }

  lemma NextIsReleased(tasks: Tasks, rows: Tasks, i: Id, before: int)
    requires rows.Keys == tasks.Keys && forall o :: o in tasks ==> rows[o] == RowSetBack(tasks, o, before)
    requires i in tasks
    ensures IsNextBuffered(rows, rows[i].job.assignee, i) <==> IsReleased(tasks, i, before)
  {
    hide NothingBelow;
    var agent := tasks[i].job.assignee;
    assert AgentBusy(rows, agent) <==> HasWork(tasks, agent, before) by {
      BusyMeansWork(tasks, rows, agent, before);
    }
    hide AgentBusy, HasWork, IsSetBack;
    assert forall o :: o in tasks ==>
      (rows[o].status.Buffered? <==> tasks[o].status.Buffered?) && rows[o].job == tasks[o].job;
  }

  lemma BusyMeansWork(tasks: Tasks, rows: Tasks, agent: Name, before: int)
    requires rows.Keys == tasks.Keys && forall o :: o in tasks ==> rows[o] == RowSetBack(tasks, o, before)
    ensures AgentBusy(rows, agent) <==> HasWork(tasks, agent, before)
  {
    hide NothingBelow;
    if AgentBusy(rows, agent) {
      var o :| o in rows && rows[o].job.assignee == agent && IsBusy(rows[o].status);
      assert tasks[o].job.assignee == agent;
    }
    if HasWork(tasks, agent, before) {
      var o :| o in tasks && tasks[o].job.assignee == agent
        && (tasks[o].status.Pending? || tasks[o].status.Claimed? || IsSetBack(tasks, o, before));
      assert rows[o].job.assignee == agent && IsBusy(rows[o].status);
    }
  }

  lemma ClaimedRowsRecover(tasks: Tasks, now: Tasks, before: int)
    requires IsRecovered(tasks, now, before)
    ensures forall i :: i in tasks && tasks[i].status.Claimed? ==>
      i in now && now[i] ==
        if tasks[i].claimedAt.Some? && tasks[i].claimedAt.value < before
        then tasks[i].(status := Pending, claimedAt := None, generation := tasks[i].generation + 1) else tasks[i]
  {
    hide IsSetBack, IsReleased;
  }

  lemma PromotionLeavesAgents(s: State, n: State)
    requires PromotesEach(s, n)
    ensures n.agents == s.agents
  {
    hide IsNextBuffered;
  }

  lemma RecoveryInColumns(s: State, before: int, swept: State, n: State)
    requires swept == Sweep(s, before).(agents := Idled(s.agents, before)) && PromotesEach(swept, n)
    ensures IsRecovered(s.tasks, n.tasks, before)
    ensures forall i :: i in s.tasks && s.tasks[i].status.Claimed? ==>
      var t := s.tasks[i];
      i in n.tasks && n.tasks[i] == if t.claimedAt.Some? && t.claimedAt.value < before
                                    then t.(status := Pending, claimedAt := None, generation := t.generation + 1) else t
    ensures n.agents == map g | g in s.agents ::
      if s.agents[g].status.Working? && s.agents[g].updated < before
      then s.agents[g].(status := Idle, topic := None) else s.agents[g]
  {
    hide Sweep, PromotesEach, IsRecovered, RowSetBack;
    SweepRowByRow(s, before);
    RecoveryRowByRow(s.tasks, Sweep(s, before), swept, n, before);
    ClaimedRowsRecover(s.tasks, n.tasks, before);
    PromotionLeavesAgents(swept, n);
  }

  // ---- Delegation ----

  /** An eligible replica of the template that has the capability, is registered and not paused. */
  predicate IsAble(s: State, template: Name, need: Option<string>, p: Name) {
    && p in s.profiles && s.profiles[p].template == template && s.profiles[p].eligible
    && (need.Some? ==> (p, need.value) in s.capabilities)
    && p in s.agents && !s.agents[p].status.Paused?
  }

  predicate IsFree(s: State, p: Name) {
    && p in s.agents && s.agents[p].status.Idle?
    && forall o :: o in s.tasks && s.tasks[o].job.assignee == p ==>
         var st := s.tasks[o].status; !st.Pending? && !st.Claimed? && !st.Waiting? && !st.Deferred?
  }

  /** Everything open of the agent but backlogged roots. */
  function WorkOf(s: State, p: Name): set<Id> {
    set o | o in s.tasks && s.tasks[o].job.assignee == p
            && (s.tasks[o].status.Pending? || s.tasks[o].status.Claimed? || s.tasks[o].status.Waiting?
                || s.tasks[o].status.Deferred? || s.tasks[o].status.Buffered?)
  }

  /** A free replica before a busy one, then the one with less work, then the one named first. */
  predicate IsIdler(s: State, a: Name, b: Name) {
    if IsFree(s, a) && !IsFree(s, b) then true
    else if IsFree(s, b) && !IsFree(s, a) then false
    else |WorkOf(s, a)| < |WorkOf(s, b)| || (|WorkOf(s, a)| == |WorkOf(s, b)| && a < b)
  }

  /** Where a request goes: to the agent named, unless the name is a template's; then to its idlest able replica. */
  ghost predicate GoesTo(s: State, requested: Name, need: Option<string>, r: Route) {
    if requested in s.agents
       && !exists p :: p in s.profiles && s.profiles[p].template == requested && s.profiles[p].eligible then
      r == if s.agents[requested].status.Paused? then Unroutable(AssigneePaused)
           else if need.Some? && (requested, need.value) !in s.capabilities then Unroutable(LacksCapability)
           else Routed(requested, false)
    else if exists p :: IsAble(s, requested, need, p) then
      r.Routed? && r.viaTemplate && IsAble(s, requested, need, r.agent)
      && forall p :: IsAble(s, requested, need, p) && p != r.agent ==> IsIdler(s, r.agent, p)
    else r == Unroutable(NoEligibleReplica)
  }

  lemma RouteInColumns(s: State, requested: Name, need: Option<string>, r: Route)
    requires IsRoute(s, requested, need, r)
    ensures GoesTo(s, requested, need, r)
  {
    forall p
      ensures IsAble(s, requested, need, p) <==> Candidate(s, requested, need, p)
    {
    }
    forall a, b
      ensures IsIdler(s, a, b) <==> Preferred(s, a, b)
    {
      assert IsFree(s, a) <==> IdleAndFree(s, a);
      assert IsFree(s, b) <==> IdleAndFree(s, b);
      assert WorkOf(s, a) == Load(s, a) && WorkOf(s, b) == Load(s, b);
    }
    assert HasTemplate(s, requested) <==>
      exists p :: p in s.profiles && s.profiles[p].template == requested && s.profiles[p].eligible;
    hide IsAble, Candidate, IsIdler, Preferred;
  }

  /** The agent has something pending, claimed or deferred, or is registered and not idle. */
  predicate IsTakenUp(s: State, agent: Name) {
    || (exists o :: o in s.tasks && s.tasks[o].job.assignee == agent
          && (s.tasks[o].status.Pending? || s.tasks[o].status.Claimed? || s.tasks[o].status.Deferred?))
    || (agent in s.agents && !s.agents[agent].status.Idle?)
  }

  /** A child is filed for the target, held back exactly when the target is taken up, and the parent waits for it. */
  predicate HandsOn(s: State, n: State, agent: Name, parent: Id, child: Id, target: Name, topic: string, body: string,
                    now: int)
  {
    && parent in s.tasks && child !in s.tasks
    && var t := s.tasks[parent];
       var status := if IsTakenUp(s, target) then Buffered else Pending;
       n == s.(clock := now, tasks := s.tasks[
         child := Task(Job(Some(parent), None, Delegation, Peer, agent, target, topic, body, now), status, 0, 0,
                       None, None, None, None)][
         parent := t.(status := Waiting, claimedAt := None,
                      attempts := if t.status.Claimed? && t.attempts > 0 then t.attempts - 1 else t.attempts)])
  }

  lemma DelegationInColumns(s: State, e: Event)
    requires e.Delegate? && Enabled(s, e)
    ensures e.route.Routed? && HandsOn(s, Next(s, e), e.agent, e.parent, e.child, e.route.agent, e.topic, e.body, e.now)
  {
    hide IsRoute, SameTopicChild, SameWorkChild, AgentBusy;
    assert IsTakenUp(s, e.route.agent) <==> MustBuffer(s, e.route.agent) by { TakenUpInColumns(s, e.route.agent); }
    hide IsTakenUp, MustBuffer;
  }

  lemma TakenUpInColumns(s: State, agent: Name)
    ensures IsTakenUp(s, agent) <==> MustBuffer(s, agent)
  {
  }

  /** A child filed pending is the only row of its agent that is pending, claimed or deferred at that point. */
  lemma PendingChildIsAlone(s: State, log: seq<Event>, i: nat, o: Id)
    requires i < |log| && log[i].Delegate? && Enabled(At(s, log, i), log[i])
    requires var n := At(s, log, i + 1); log[i].child in n.tasks && n.tasks[log[i].child].status.Pending?
    requires o in At(s, log, i + 1).tasks && o != log[i].child
    requires At(s, log, i + 1).tasks[o].job.assignee == At(s, log, i + 1).tasks[log[i].child].job.assignee
    ensures var st := At(s, log, i + 1).tasks[o].status; !st.Pending? && !st.Claimed? && !st.Deferred?
  {
    hide Next, Enabled;
    StepAt(s, log, i);
    DelegationInColumns(At(s, log, i), log[i]);
  }

  // ---- The policy ----

  predicate IsItem(t: Task) {
    t.job.kind.Root? && t.job.source.Manual? && t.job.parent.None? && t.job.topic == "work-item"
  }

  /** A work item of the leader or of an eligible replica of it. */
  predicate IsGoverned(s: State, t: Task) {
    var agent := t.job.assignee;
    IsItem(t)
    && (agent == s.leader
        || (agent in s.profiles && s.profiles[agent].eligible && s.profiles[agent].template == s.leader))
  }

  /** The slots taken: governed work that is pending, claimed, waiting or deferred. */
  function Slots(s: State): set<Id> {
    set i | i in s.tasks && IsGoverned(s, s.tasks[i])
            && (s.tasks[i].status.Pending? || s.tasks[i].status.Claimed? || s.tasks[i].status.Waiting?
                || s.tasks[i].status.Deferred?)
  }

  /** The status a rebalance may give a row. */
  predicate MayBecome(s: State, t: Task, u: Task) {
    u == t.(status := u.status)
    && if IsItem(t) && !IsGoverned(s, t) then u.status == if t.status.Backlog? then Pending else t.status
       else if IsItem(t) then
         || u.status == t.status
         || (t.status.Pending? && u.status.Backlog?) || (t.status.Backlog? && u.status.Pending?)
       else u == t
  }

  predicate IsHeldBack(s: State, n: State, i: Id) {
    && i in s.tasks && i in n.tasks && IsGoverned(n, s.tasks[i])
    && s.tasks[i].status.Pending? && n.tasks[i].status.Backlog?
  }

  predicate IsLetIn(s: State, n: State, i: Id) {
    && i in s.tasks && i in n.tasks && IsGoverned(n, s.tasks[i])
    && s.tasks[i].status.Backlog? && n.tasks[i].status.Pending?
  }

  /**
  `set_max_active_tasks`: under the new limit and leader, pending work is held back newest first while there is
  too much of it, backlogged work is let in oldest first while there is room, and work that is not governed
  leaves the backlog.
  */
  ghost predicate IsRebalanced(s: State, limit: nat, leader: Name, n: State) {
    && n == s.(limit := limit, leader := leader, tasks := n.tasks) && n.tasks.Keys == s.tasks.Keys
    && (forall i :: i in s.tasks ==> MayBecome(n, s.tasks[i], n.tasks[i]))
    && (limit > 0 ==> |Slots(n)| <= limit || forall i :: i in Slots(n) ==> !n.tasks[i].status.Pending?)
    && ((limit > 0 && |Slots(n)| >= limit)
        || forall i :: i in n.tasks && IsGoverned(n, n.tasks[i]) ==> !n.tasks[i].status.Backlog?)
    && InOrder(s, n)
  }

  lemma SlotsInColumns(s: State)
    ensures Slots(s) == ActiveRoots(s)
    ensures forall t: Task :: IsGoverned(s, t) <==> IsCounted(s, t.job)
  {
  }

  /** A rebalance either only demotes or only admits. */
  lemma OneWay(q: State, n: State)
    requires SettlesAt(q, n)
    ensures AdmitsOldestFirst(q, n) || (q.limit > 0 && DemotesNewestFirst(q, n))
  {
    if q.limit > 0 {
      var m :| DemotesNewestFirst(q, m) && AdmitsOldestFirst(m, n);
      hide ActiveRoots, BacklogRoots, PendingRoots, IsCounted, Demoted, Admitted, Older;
      if m.tasks != q.tasks {
        SettledStaysPut(m, n);
      }
    }
  }

  lemma PolicyRows(s: State, limit: nat, leader: Name, i: Id)
    requires i in s.tasks
    ensures var q := Repoliced(s, limit, leader);
      q == s.(limit := limit, leader := leader, tasks := q.tasks) && q.tasks.Keys == s.tasks.Keys
      && q.tasks[i] == if IsItem(s.tasks[i]) && !IsGoverned(q, s.tasks[i]) && s.tasks[i].status.Backlog?
                       then s.tasks[i].(status := Pending) else s.tasks[i]
  {
    var p := s.(limit := limit, leader := leader);
    assert Repoliced(s, limit, leader).tasks[i] == Swept(p, ReleaseUncounted, i);
  }

  lemma RebalancedRows(s: State, q: State, n: State, i: Id)
    requires i in s.tasks && i in q.tasks && OnlyQueueOrderChanges(q, n)
    requires q.tasks[i] == if IsItem(s.tasks[i]) && !IsGoverned(q, s.tasks[i]) && s.tasks[i].status.Backlog?
                           then s.tasks[i].(status := Pending) else s.tasks[i]
    ensures MayBecome(n, s.tasks[i], n.tasks[i])
    ensures IsHeldBack(s, n, i) <==> Demoted(q, n, i)
    ensures IsLetIn(s, n, i) <==> Admitted(q, n, i)
  {
    SlotsInColumns(q);
    SlotsInColumns(n);
    hide IsCounted, IsManualWorkItem;
  }

  /** The order and the extent of what was held back and let in. */
  ghost predicate InOrder(s: State, n: State) {
    && (forall i, k :: IsHeldBack(s, n, i) && k in Slots(n) && n.tasks[k].status.Pending? ==>
          FiledBefore(n.tasks[k], k, n.tasks[i], i))
    && (forall i, k :: IsLetIn(s, n, i) && k in n.tasks && IsGoverned(n, n.tasks[k]) && n.tasks[k].status.Backlog? ==>
          FiledBefore(n.tasks[i], i, n.tasks[k], k))
    && (forall i :: IsHeldBack(s, n, i) ==> n.limit > 0 && |Slots(n)| >= n.limit)
    && (forall i :: IsLetIn(s, n, i) && n.limit > 0 ==> |Slots(n)| <= n.limit)
  }

  lemma RootsInColumns(n: State)
    ensures forall k :: k in Slots(n) && n.tasks[k].status.Pending? ==> k in PendingRoots(n) && k in n.tasks
    ensures forall k :: k in n.tasks && IsGoverned(n, n.tasks[k]) && n.tasks[k].status.Backlog? ==> k in BacklogRoots(n)
  {
    SlotsInColumns(n);
  }

  lemma DemotedPair(q: State, n: State, i: Id)
    requires DemotesNewestFirst(q, n) && Demoted(q, n, i)
    ensures i in n.tasks && |ActiveRoots(n)| >= n.limit == q.limit
    ensures forall k :: k in PendingRoots(n) ==> FiledBefore(n.tasks[k], k, n.tasks[i], i)
  {
    hide ActiveRoots, IsCounted;
    assert n.tasks[i] != q.tasks[i];
  }

  lemma DemotedInOrder(s: State, q: State, n: State)
    requires q.limit > 0 && DemotesNewestFirst(q, n)
    requires forall i :: IsHeldBack(s, n, i) <==> Demoted(q, n, i)
    requires forall i :: !IsLetIn(s, n, i)
    ensures InOrder(s, n)
  {
    hide DemotesNewestFirst, ActiveRoots, PendingRoots, IsGoverned, IsHeldBack, IsLetIn, Demoted, Slots, FiledBefore;
    SlotsInColumns(n);
    RootsInColumns(n);
    forall i | IsHeldBack(s, n, i)
      ensures i in n.tasks && n.limit > 0 && |Slots(n)| >= n.limit
      ensures forall k :: k in PendingRoots(n) && k in n.tasks ==> FiledBefore(n.tasks[k], k, n.tasks[i], i)
    {
      DemotedPair(q, n, i);
    }
  }

  lemma AdmittedPair(q: State, n: State, i: Id)
    requires AdmitsOldestFirst(q, n) && Admitted(q, n, i)
    ensures i in n.tasks && (n.limit > 0 ==> |ActiveRoots(n)| <= n.limit)
    ensures forall k :: k in BacklogRoots(n) ==> FiledBefore(n.tasks[i], i, n.tasks[k], k)
  {
    hide ActiveRoots, IsCounted, BacklogSettled;
    assert n.tasks[i] != q.tasks[i];
  }

  lemma AdmittedInOrder(s: State, q: State, n: State)
    requires AdmitsOldestFirst(q, n)
    requires forall i :: !IsHeldBack(s, n, i)
    requires forall i :: IsLetIn(s, n, i) <==> Admitted(q, n, i)
    ensures InOrder(s, n)
  {
    hide AdmitsOldestFirst, ActiveRoots, BacklogRoots, IsGoverned, IsHeldBack, IsLetIn, Admitted, Slots, FiledBefore;
    SlotsInColumns(n);
    RootsInColumns(n);
    forall i | IsLetIn(s, n, i)
      ensures i in n.tasks && (n.limit > 0 ==> |Slots(n)| <= n.limit)
      ensures forall k :: k in BacklogRoots(n) && k in n.tasks ==> FiledBefore(n.tasks[i], i, n.tasks[k], k)
    {
      AdmittedPair(q, n, i);
    }
  }

  lemma NoneTheOtherWay(q: State, n: State)
    ensures AdmitsOldestFirst(q, n) ==> forall i :: !Demoted(q, n, i)
    ensures DemotesNewestFirst(q, n) ==> forall i :: !Admitted(q, n, i)
  {
  }

  lemma InOrderEitherWay(s: State, q: State, n: State)
    requires AdmitsOldestFirst(q, n) || (q.limit > 0 && DemotesNewestFirst(q, n))
    requires forall i :: IsHeldBack(s, n, i) <==> Demoted(q, n, i)
    requires forall i :: IsLetIn(s, n, i) <==> Admitted(q, n, i)
    ensures InOrder(s, n)
  {
    hide AdmitsOldestFirst, DemotesNewestFirst, IsHeldBack, IsLetIn, Demoted, Admitted, InOrder;
    NoneTheOtherWay(q, n);
    if AdmitsOldestFirst(q, n) {
      AdmittedInOrder(s, q, n);
    } else {
      DemotedInOrder(s, q, n);
    }
  }

  lemma RowsOfRebalance(s: State, limit: nat, leader: Name, n: State)
    requires OnlyQueueOrderChanges(Repoliced(s, limit, leader), n)
    ensures var q := Repoliced(s, limit, leader);
      && n == s.(limit := limit, leader := leader, tasks := n.tasks) && n.tasks.Keys == s.tasks.Keys
      && (forall i :: i in s.tasks ==> MayBecome(n, s.tasks[i], n.tasks[i]))
      && (forall i :: IsHeldBack(s, n, i) <==> Demoted(q, n, i))
      && (forall i :: IsLetIn(s, n, i) <==> Admitted(q, n, i))
  {
    var q := Repoliced(s, limit, leader);
    PolicyKeys(s, limit, leader);
    forall i | i in s.tasks
      ensures MayBecome(n, s.tasks[i], n.tasks[i])
      ensures IsHeldBack(s, n, i) <==> Demoted(q, n, i)
      ensures IsLetIn(s, n, i) <==> Admitted(q, n, i)
    {
      PolicyRows(s, limit, leader, i);
      RebalancedRows(s, q, n, i);
    }
    hide MayBecome, Repoliced, IsGoverned, IsCounted;
  }

  lemma RebalanceInColumns(s: State, limit: nat, leader: Name, n: State)
    requires Rebalances(s, limit, leader, n)
    ensures IsRebalanced(s, limit, leader, n)
  {
    var q := Repoliced(s, limit, leader);
    OneWay(q, n);
    RebalanceSettles(q, n);
    SettlingChangesOnlyQueueOrder(q, n);
    RowsOfRebalance(s, limit, leader, n);
    InOrderEitherWay(s, q, n);
    SlotsInColumns(n);
    SettledInWords(n);
    hide SettlesAt, AdmitsOldestFirst, DemotesNewestFirst, Repoliced, Slots, ActiveRoots, PendingRoots, BacklogRoots;
    hide MayBecome, IsHeldBack, IsLetIn, Demoted, Admitted, IsGoverned, OnlyQueueOrderChanges, InOrder, BacklogSettled;
  }

  lemma PolicyKeys(s: State, limit: nat, leader: Name)
    ensures var q := Repoliced(s, limit, leader);
      q == s.(limit := limit, leader := leader, tasks := q.tasks) && q.tasks.Keys == s.tasks.Keys
  {
  }

  lemma SettledInWords(n: State)
    ensures BacklogSettled(n) ==>
      || (n.limit > 0 && |Slots(n)| >= n.limit)
      || forall i :: i in n.tasks && IsGoverned(n, n.tasks[i]) ==> !n.tasks[i].status.Backlog?
    ensures PendingRoots(n) == {} ==> forall i :: i in Slots(n) ==> !n.tasks[i].status.Pending?
  {
    SlotsInColumns(n);
    if BacklogRoots(n) == {} {
      forall i | i in n.tasks && IsGoverned(n, n.tasks[i])
        ensures !n.tasks[i].status.Backlog?
      {
        assert i !in BacklogRoots(n);
      }
    }
    if PendingRoots(n) == {} {
      forall i | i in Slots(n)
        ensures !n.tasks[i].status.Pending?
      {
        assert i !in PendingRoots(n);
      }
    }
  }

  /** `promote_backlog_roots`: governed backlogged work is let in oldest first, up to the limit and to the end. */
  ghost predicate LetsIn(s: State, n: State) {
    && n == s.(tasks := n.tasks) && n.tasks.Keys == s.tasks.Keys && InOrder(s, n)
    && (forall i :: i in s.tasks ==>
          n.tasks[i] == s.tasks[i] || (IsLetIn(s, n, i) && n.tasks[i] == s.tasks[i].(status := Pending)))
    && ((n.limit > 0 && |Slots(n)| >= n.limit)
        || forall i :: i in n.tasks && IsGoverned(n, n.tasks[i]) ==> !n.tasks[i].status.Backlog?)
  }

  /** The demotion: governed pending work is held back newest first until it fits or none is left. */
  ghost predicate HoldsBack(s: State, n: State) {
    && n == s.(tasks := n.tasks) && n.tasks.Keys == s.tasks.Keys && InOrder(s, n)
    && (forall i :: i in s.tasks ==>
          n.tasks[i] == s.tasks[i] || (IsHeldBack(s, n, i) && n.tasks[i] == s.tasks[i].(status := Backlog)))
    && (|Slots(n)| <= n.limit || forall i :: i in Slots(n) ==> !n.tasks[i].status.Pending?)
  }

  lemma OrderInColumns(s: State, n: State)
    requires OnlyQueueOrderChanges(s, n)
    ensures forall i :: IsHeldBack(s, n, i) <==> Demoted(s, n, i)
    ensures forall i :: IsLetIn(s, n, i) <==> Admitted(s, n, i)
  {
    forall i
      ensures IsHeldBack(s, n, i) <==> Demoted(s, n, i)
      ensures IsLetIn(s, n, i) <==> Admitted(s, n, i)
    {
      if i in s.tasks && i in n.tasks {
        SlotsInColumns(s);
        SlotsInColumns(n);
        hide IsCounted, IsManualWorkItem;
      }
    }
  }

  lemma AdmissionInColumns(s: State, n: State)
    requires AdmitsOldestFirst(s, n)
    ensures LetsIn(s, n)
  {
    OrderInColumns(s, n);
    InOrderEitherWay(s, s, n);
    SettledInWords(n);
    hide IsLetIn, IsHeldBack, Admitted, Demoted, InOrder, Slots, IsGoverned, BacklogSettled;
    assert forall i :: Admitted(s, n, i) ==> n.tasks[i] == s.tasks[i].(status := Pending) by { EditsInColumns(s, n); }
  }

  lemma DemotionInColumns(s: State, n: State)
    requires DemotesNewestFirst(s, n) && s.limit > 0
    ensures HoldsBack(s, n)
  {
    OrderInColumns(s, n);
    InOrderEitherWay(s, s, n);
    SettledInWords(n);
    SlotsInColumns(n);
    hide IsLetIn, IsHeldBack, Admitted, Demoted, InOrder, Slots, IsGoverned, PendingRoots, ActiveRoots;
    assert forall i :: Demoted(s, n, i) ==> n.tasks[i] == s.tasks[i].(status := Backlog) by { EditsInColumns(s, n); }
  }

  lemma EditsInColumns(s: State, n: State)
    ensures forall i :: Admitted(s, n, i) ==>
      i in s.tasks && i in n.tasks && n.tasks[i] == s.tasks[i].(status := Pending)
    ensures forall i :: Demoted(s, n, i) ==>
      i in s.tasks && i in n.tasks && n.tasks[i] == s.tasks[i].(status := Backlog)
  {
  }

  // ---- The end of a claim ----

  /** A waiting task with nothing unfinished below it any more is pending again. */
  function Woken(tasks: Tasks, p: Option<Id>): Tasks {
    if p.Some? && p.value in tasks && tasks[p.value].status.Waiting? && NothingBelow(tasks, p.value)
    then tasks[p.value := tasks[p.value].(status := Pending, claimedAt := None)]
    else tasks
  }

  lemma WakingInColumns(tasks: Tasks, p: Option<Id>)
    ensures Wake(tasks, p) == Woken(tasks, p)
  {
    if p.Some? {
      forall c | c in tasks
        ensures IsOpen(tasks[c].status) <==> !IsFinished(tasks[c])
      {
      }
      hide IsOpen, IsFinished;
      assert HasOpenChild(tasks, p.value) <==> !NothingBelow(tasks, p.value);
    }
  }

  /** `complete_claim`: the row and its text, its parent, and the release to be published, in one transaction. */
  ghost predicate IsCompletion(s: State, n: State, a: Assignment, text: string, now: int) {
    && a.id in s.tasks
    && var done := s.tasks[a.id := s.tasks[a.id].(status := Completed, result := Some(Trim(text)),
                                                  completedAt := Some(now), claimedAt := None)];
       n == s.(tasks := Woken(done, a.job.parent),
               finalizations :=
                 if s.publishing && a.job.kind.Root? && !a.job.source.Chat? && Trim(text) != ""
                    && a.id !in s.published && a.id !in s.finalizations
                 then s.finalizations[a.id := Finalization(Blake3(Trim(text)), 0, now, now)] else s.finalizations)
  }

  lemma CompletionInColumns(s: State, a: Assignment, text: string, now: int)
    requires ClaimEnabled(s, Complete(a, text, now))
    ensures IsCompletion(s, Next(s, Complete(a, text, now)), a, text, now)
  {
    hide Trim, Wake, Woken, HasOpenChild;
    var t := s.tasks[a.id];
    WakingInColumns(s.tasks[a.id := Done(t, Completed, Some(Trim(text)), t.error, now)], a.job.parent);
  }

  /** `finish_claim`: the verdict, and the parent of a failed task. */
  ghost predicate IsFinish(s: State, n: State, a: Assignment, verdict: Verdict, detail: Option<string>, now: int) {
    && a.id in s.tasks
    && var t := s.tasks[a.id];
       var done := s.tasks[a.id := t.(status := if verdict.Succeeded? then Completed else Failed, error := detail,
                                      completedAt := Some(now), claimedAt := None)];
       n == s.(tasks := if verdict.GaveUp? then Woken(done, t.job.parent) else done)
  }

  lemma FinishInColumns(s: State, a: Assignment, verdict: Verdict, detail: Option<string>, now: int)
    requires ClaimEnabled(s, Finish(a, verdict, detail, now))
    ensures IsFinish(s, Next(s, Finish(a, verdict, detail, now)), a, verdict, detail, now)
  {
    hide Wake, Woken, HasOpenChild;
    var t := s.tasks[a.id];
    WakingInColumns(s.tasks[a.id := Done(t, VerdictStatus(verdict), t.result, detail, now)], t.job.parent);
  }

  // ---- Single statements ----

  /** The oldest buffered task handed to an agent that has nothing pending, claimed or deferred. */
  predicate IsNextToDo(tasks: Tasks, agent: Name, id: Id) {
    && id in tasks && tasks[id].job.assignee == agent && tasks[id].status.Buffered? && IsHandedTask(tasks[id])
    && (forall o :: o in tasks && tasks[o].job.assignee == agent ==>
          !tasks[o].status.Pending? && !tasks[o].status.Claimed? && !tasks[o].status.Deferred?)
    && (forall o :: o in tasks && o != id && tasks[o].job.assignee == agent && tasks[o].status.Buffered? ==>
          IsHandedTask(tasks[o]) ==> FiledBefore(tasks[id], id, tasks[o], o))
  }

  lemma NextToDoInColumns(tasks: Tasks, agent: Name, id: Id)
    ensures IsNextToDo(tasks, agent, id) <==> IsNextBuffered(tasks, agent, id)
  {
  }

  /** Pending and buffered delegations to agents off the roster fail; an empty roster fails none. */
  lemma OrphansInColumns(s: State, roster: set<Name>)
    ensures var n := if roster == {} then s else Next(s, FailOrphans(roster));
      n == s.(tasks := map i | i in s.tasks ::
        var t := s.tasks[i];
        if roster != {} && t.job.kind.Delegation? && (t.status.Pending? || t.status.Buffered?)
           && t.job.assignee !in roster
        then t.(status := Failed, error := Some("assignee is no longer a configured agent")) else t)
  {
    hide Next, Swept;
    if roster == {} {
      assert s.tasks == map i | i in s.tasks :: s.tasks[i];
    } else {
      SweepIsNext(s, FailOrphans(roster));
      forall i | i in s.tasks
        ensures Swept(s, FailOrphans(roster), i) ==
          var t := s.tasks[i];
          if t.job.kind.Delegation? && (t.status.Pending? || t.status.Buffered?) && t.job.assignee !in roster
          then t.(status := Failed, error := Some("assignee is no longer a configured agent")) else t
      {
        OrphanRow(s, roster, i);
      }
    }
  }

  lemma OrphanRow(s: State, roster: set<Name>, i: Id)
    requires i in s.tasks
    ensures Swept(s, FailOrphans(roster), i) ==
      var t := s.tasks[i];
      if t.job.kind.Delegation? && (t.status.Pending? || t.status.Buffered?) && t.job.assignee !in roster
      then t.(status := Failed, error := Some("assignee is no longer a configured agent")) else t
  {
    hide HasOpenChild;
  }

  lemma PromotionEvent(s: State, id: Id)
    requires id in s.tasks && IsNextBuffered(s.tasks, s.tasks[id].job.assignee, id)
    ensures Next(s, PromoteBuffered(id)) == s.(tasks := s.tasks[id := s.tasks[id].(status := Pending)])
  {
    hide ClaimEnabled, InsertEnabled, OtherEnabled, ClaimEffect, InsertEffect, SweepEffect, SettingEffect;
    hide IsNextBuffered;
  }

  // ---- Which task an agent is on ----

  predicate IsHeld(tasks: Tasks, agent: Name, id: Id) {
    id in tasks && tasks[id].job.assignee == agent && tasks[id].status.Claimed?
  }

  /** Work of an agent in its turn that it has handed on, in whole or in part. */
  predicate IsHandedOn(s: State, agent: Name, id: Id) {
    && id in s.tasks && s.tasks[id].job.assignee == agent
    && (s.tasks[id].status.Waiting? || s.tasks[id].status.Pending?)
    && agent in s.agents && s.agents[agent].status.Working?
    && exists c :: c in s.tasks && s.tasks[c].job.parent == Some(id)
  }

  /** Some child of `a` was filed after all of `b`, or as late as the last of them, and `a` is no older than `b`. */
  predicate IsFresher(tasks: Tasks, a: Id, b: Id)
    requires a in tasks && b in tasks
  {
    exists c :: c in tasks && tasks[c].job.parent == Some(a)
      && forall d :: d in tasks && tasks[d].job.parent == Some(b) ==>
           || tasks[c].job.created > tasks[d].job.created
           || (tasks[c].job.created == tasks[d].job.created && tasks[a].job.created >= tasks[b].job.created)
  }

  /** The task an agent acts for: its latest claim, or without one what it handed on most recently. */
  predicate IsActingFor(s: State, agent: Name, id: Id) {
    if exists o :: o in s.tasks && IsHeld(s.tasks, agent, o) then
      && IsHeld(s.tasks, agent, id)
      && forall o :: o in s.tasks && IsHeld(s.tasks, agent, o) && s.tasks[o].claimedAt.Some? ==>
           s.tasks[id].claimedAt.Some? && s.tasks[id].claimedAt.value >= s.tasks[o].claimedAt.value
    else
      IsHandedOn(s, agent, id) && forall o :: o in s.tasks && IsHandedOn(s, agent, o) ==> IsFresher(s.tasks, id, o)
  }

  lemma ParentInColumns(s: State, agent: Name, id: Id)
    requires IsDelegationParent(s, agent, id)
    ensures IsActingFor(s, agent, id)
  {
    assert forall o :: HeldBy(s.tasks, agent, o) <==> IsHeld(s.tasks, agent, o);
    if exists o :: HeldBy(s.tasks, agent, o) {
      assert IsHeld(s.tasks, agent, id);
    } else {
      CoordinationInColumns(s, agent, id);
    }
  }

  lemma CoordinationInColumns(s: State, agent: Name, id: Id)
    requires IsCoordination(s, agent, id)
    ensures IsHandedOn(s, agent, id)
    ensures forall o :: o in s.tasks && IsHandedOn(s, agent, o) ==> IsFresher(s.tasks, id, o)
  {
    HandedOnInColumns(s, agent, id);
    forall o | o in s.tasks && IsHandedOn(s, agent, o)
      ensures IsFresher(s.tasks, id, o)
    {
      HandedOnInColumns(s, agent, o);
      FresherInColumns(s.tasks, id, o);
    }
  }

  lemma HandedOnInColumns(s: State, agent: Name, id: Id)
    ensures IsHandedOn(s, agent, id) <==> Coordinates(s, agent, id)
  {
    assert HasChild(s.tasks, id) <==> exists c :: c in s.tasks && s.tasks[c].job.parent == Some(id) by {
      if c :| c in s.tasks && s.tasks[c].job.parent == Some(id) {
        assert IsChildOf(s.tasks, c, id);
      }
    }
  }

  lemma FresherInColumns(tasks: Tasks, a: Id, b: Id)
    requires a in tasks && b in tasks && HasChild(tasks, a) && HasChild(tasks, b) && FresherCoordination(tasks, a, b)
    ensures IsFresher(tasks, a, b)
  {
    var c := NewestChild(tasks, a);
    var d := NewestChild(tasks, b);
    assert IsNewestChildTime(tasks, a, tasks[c].job.created) && IsNewestChildTime(tasks, b, tasks[d].job.created);
    forall x | x in tasks && tasks[x].job.parent == Some(b)
      ensures tasks[x].job.created <= tasks[d].job.created
    {
      assert IsChildOf(tasks, x, b);
    }
  }

  lemma NewestChild(tasks: Tasks, p: Id) returns (c: Id)
    requires HasChild(tasks, p)
    ensures IsChildOf(tasks, c, p)
    ensures forall o :: IsChildOf(tasks, o, p) ==> tasks[o].job.created <= tasks[c].job.created
  {
    var children := set o | o in tasks && IsChildOf(tasks, o, p);
    var any :| any in tasks && IsChildOf(tasks, any, p);
    c := NewestOf(tasks, children, any);
    assert forall o :: IsChildOf(tasks, o, p) ==> o in children;
  }

  lemma {:induction false} NewestOf(tasks: Tasks, ids: set<Id>, any: Id) returns (c: Id)
    requires ids <= tasks.Keys && any in ids
    ensures c in ids && forall o :: o in ids ==> tasks[o].job.created <= tasks[c].job.created
    decreases |ids|
  {
    if ids == {any} {
      c := any;
    } else {
      var rest := ids - {any};
      assert ids == rest + {any};
      var other :| other in rest;
      c := NewestOf(tasks, rest, other);
      if tasks[c].job.created < tasks[any].job.created {
        c := any;
      }
    }
  }

  // ---- New rows ----

  /** A work item for the leader's pool goes to its idlest member, into the backlog when no slot is free. */
  ghost predicate IsFiled(s: State, n: State, id: Id, requested: Name, row: NewRow, now: int) {
    var forPool := row.kind.Root? && row.source.Manual? && row.topic == "work-item" && requested == s.leader;
    && id !in s.tasks && id in n.tasks
    && var u := n.tasks[id];
       && n == s.(clock := now, tasks := s.tasks[id := u])
       && u == Task(Job(None, row.origin, row.kind, row.source, row.creator, u.job.assignee, row.topic, row.body,
                        now), u.status, 0, 0, None, None, None, None)
       && if forPool then
            && (exists via :: GoesTo(s, s.leader, None, Routed(u.job.assignee, via)))
            && u.status == if s.limit > 0 && |Slots(s)| >= s.limit then Backlog else Pending
          else u.job.assignee == requested && u.status.Pending?
  }

  lemma FilingInColumns(s: State, e: Event)
    requires e.Insert? && Enabled(s, e)
    ensures IsFiled(s, Next(s, e), e.id, e.requested, e.row, e.now)
  {
    hide IsRoute, GoesTo, ActiveRoots, Slots;
    if IsLeaderWorkItem(s, e.row.kind, e.row.source, e.row.topic, e.requested) {
      var via :| IsRoute(s, s.leader, None, Routed(e.row.assignee, via));
      RouteInColumns(s, s.leader, None, Routed(e.row.assignee, via));
      SlotsInColumns(s);
    }
  }

  /** Work like the given is under way, or ended too recently in a failure of automatic work. */
  predicate StandsInTheWay(s: State, t: Task, topic: string, body: string, now: int) {
    && t.job.kind.Root? && t.job.topic == topic && t.job.body == body
    && (!IsFinished(t)
        || (t.job.source.Automatic? && (t.status.Failed? || t.status.Cancelled?)
            && t.completedAt.Some? && t.completedAt.value > now - s.cooldown))
  }

  predicate IsNewestInTheWay(s: State, o: Id, topic: string, body: string, now: int) {
    && o in s.tasks && StandsInTheWay(s, s.tasks[o], topic, body, now)
    && forall k :: k in s.tasks && StandsInTheWay(s, s.tasks[k], topic, body, now) ==>
         s.tasks[k].job.created <= s.tasks[o].job.created
  }

  lemma NewestInColumns(s: State, ids: set<Id>, o: Id, topic: string, body: string, now: int)
    requires ids == set k | k in s.tasks && BlocksAutomatic(s, s.tasks[k], topic, body, now)
    requires IsNewest(s.tasks, ids, o)
    ensures IsNewestInTheWay(s, o, topic, body, now)
  {
    BlockersInColumns(s, topic, body, now);
    hide BlocksAutomatic, StandsInTheWay;
    assert forall k :: k in ids ==> k == o || Older(s.tasks, k, o);
    forall k | k in s.tasks && StandsInTheWay(s, s.tasks[k], topic, body, now)
      ensures s.tasks[k].job.created <= s.tasks[o].job.created
    {
      assert BlocksAutomatic(s, s.tasks[k], topic, body, now);
      assert k in ids;
    }
  }

  lemma BlockersInColumns(s: State, topic: string, body: string, now: int)
    ensures forall t: Task :: BlocksAutomatic(s, t, topic, body, now) <==> StandsInTheWay(s, t, topic, body, now)
  {
  }

  lemma AutomaticEvent(s: State, e: Event)
    requires e.InsertAutomatic? && InsertEnabled(s, e)
    ensures Next(s, e) == s.(clock := e.now, tasks := s.tasks[e.id :=
      Task(Job(None, Some(e.origin), Root, Automatic, e.creator, e.assignee, e.topic, e.body, e.now),
           if e.buffered then Buffered else Pending, 0, 0, None, None, None, None)])
  {
    hide BlocksAutomatic;
  }

  // ---- Notes ----

  /** A new note on a running task interrupts it: the attempt is given back, the token spent, the agent idle. */
  predicate IsNoted(s: State, n: State, note: Id, task: Id, creator: Name, topic: string, body: string, now: int)
    requires task in s.tasks
  {
    if note in s.notes then n == s
    else
      var t := s.tasks[task];
      var g := t.job.assignee;
      var noted := s.(notes := s.notes[note := Note(task, creator, topic, body, now)]);
      if !(t.status.Claimed? && t.attempts > 0) then n == noted
      else
        var othersHeld :=
          exists o :: o in s.tasks && o != task && s.tasks[o].job.assignee == g && s.tasks[o].status.Claimed?;
        n == noted.(
          tasks := s.tasks[task := t.(status := Pending, claimedAt := None, attempts := t.attempts - 1,
                                      generation := t.generation + 1)],
          agents := if g in s.agents && !s.agents[g].status.Paused? && !othersHeld
                    then s.agents[g := Agent(Idle, None, now)] else s.agents)
  }

  lemma NoteInColumns(s: State, note: Id, task: Id, creator: Name, topic: string, body: string, now: int)
    requires task in s.tasks
    ensures IsNoted(s, Next(s, PeerNote(note, task, creator, topic, body, now)), note, task, creator, topic, body, now)
  {
    hide ClaimEnabled, InsertEnabled, OtherEnabled, ClaimEffect, InsertEffect, SweepEffect, SettingEffect;
    var t := s.tasks[task];
    var after := s.tasks[task := t.(status := Pending, claimedAt := None, attempts := t.attempts - 1,
                                    generation := t.generation + 1)];
    assert (exists o :: o in after && after[o].job.assignee == t.job.assignee && after[o].status.Claimed?)
      <==> exists o :: o in s.tasks && o != task && s.tasks[o].job.assignee == t.job.assignee
                       && s.tasks[o].status.Claimed? by {
      assert forall o :: o in s.tasks && o != task ==> after[o] == s.tasks[o];
    }
  }
}
