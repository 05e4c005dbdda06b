/**
A worker's handling of one claim: from the budget check, through the agent's run, to the decision what
becomes of the task. Anyone else may touch the queue between any two of its statements. No branch
forgets to give the claim up.
*/
module Worker {
  import opened Basics
  import opened TaskTable
  import opened ClaimOrder
  import opened QueueEvents
  import opened QueueRuns
  import opened QueueTree
  import opened QueueDiscipline
  import opened QueueCapacity
  import opened QueueRecovery
  import opened Store
  import opened AgentStates

  /** What the agent's run returned: `text` is the deliverable, or else the summary. */
  datatype RunResult = Finished(complete: bool, text: string) | Crashed(detail: string)

  /** How the leased run came to its end. */
  datatype LeaseEnd = RunEnded | PauseInterrupted | ContextInterrupted

  const UNCOMMITTED: string := "agent returned without a committed task transition"

  predicate IsMessageJob(j: Job) {
    j.kind.Message? || j.source.Chat?
  }

  /** A generator that has created the root it was asked for. */
  predicate HasGenerated(tasks: Tasks, a: Assignment) {
    a.job.kind.Generator?
    && exists o :: o in tasks && tasks[o].job.kind.Root? && tasks[o].job.origin == Some(a.id)
  }

  predicate ShouldInterruptForContext(s: State, id: Id, agent: Name) {
    && id in s.tasks && s.tasks[id].job.assignee == agent
    && s.tasks[id].status.Pending? && s.tasks[id].claimedAt.None?
    && agent in s.agents && s.agents[agent].status.Working?
    && exists n :: n in s.notes && s.notes[n].task == id
  }

  predicate ShouldInterruptForPause(s: State, id: Id, agent: Name, operatorPaused: bool) {
    && id in s.tasks && s.tasks[id].job.assignee == agent && agent in s.agents
    && (|| (s.agents[agent].status.Paused? && operatorPaused)
        || (s.agents[agent].status.Idle? && s.tasks[id].status.Pending? && s.tasks[id].claimedAt.None?))
  }

  function FailureDetail(result: RunResult): string {
    if result.Crashed? then result.detail else UNCOMMITTED
  }

  /** The row after one failed attempt: pending again while the policy allows another, else failed. */
  function RowAfterFailure(t: Task, a: Assignment, detail: string, maxAttempts: int, now: int): Task {
    if a.attempts < maxAttempts then Released(t, Pending, false).(error := Some(detail))
    else Done(t, Failed, t.result, Some(detail), now)
  }

  /** The row a run must leave of a task it still holds. */
  function Settled(s: State, a: Assignment, result: RunResult, maxAttempts: int, now: int): Task
    requires a.id in s.tasks
  {
    var t := s.tasks[a.id];
    if result.Finished? && HasGenerated(s.tasks, a) then Done(t, Completed, t.result, None, now)
    else if result.Finished? && (IsMessageJob(a.job) || result.complete)
    then Done(t, Completed, Some(Trim(result.text)), t.error, now)
    else RowAfterFailure(t, a, FailureDetail(result), maxAttempts, now)
  }

  predicate RowIs(tasks: Tasks, id: Id, row: Task) {
    id in tasks && tasks[id] == row
  }

  /** An agent left without any claim has been told what its last turn came to. */
  predicate AgentTold(s: State, agent: Name, status: AgentStatus, now: int) {
    agent in s.agents && !HoldsAnything(s.tasks, agent) ==> s.agents[agent] == Agent(status, None, now)
  }

  function AgentAfter(row: Task): AgentStatus {
    if row.status.Failed? then Broken else Idle
  }

  lemma CurrentHasNoOpenChild(s: State, a: Assignment)
    requires TreeOk(s) && Current(s.tasks, a)
    ensures !HasOpenChild(s.tasks, a.id)
  {
  }

  /** Refilling the freed slots does not touch a finished row. */
  lemma PromotionsLeaveFinishedRows(s: State, admitted: State, n: State, agent: Name, id: Id)
    requires AdmitsOldestFirst(s, admitted) && PromotesOne(admitted, agent, n)
    requires id in s.tasks && !IsOpen(s.tasks[id].status)
    ensures id in n.tasks && n.tasks[id] == s.tasks[id] && n.agents == s.agents
  {
  }

  lemma RefillsLeaveFinishedRows(s: State, log: seq<Event>, since: nat, refill: Refill, agent: Name, id: Id)
    requires since <= |log| && IsRefilled(s, log, since, refill, agent)
    requires refill.from == since && refill.promotion == refill.admission
    requires id in At(s, log, since).tasks && !IsOpen(At(s, log, since).tasks[id].status)
    ensures id in Replay(s, log).tasks && Replay(s, log).tasks[id] == At(s, log, since).tasks[id]
    ensures Replay(s, log).agents == At(s, log, since).agents
  {
    hide Replay, AdmitsOldestFirst, PromotesOne;
    PromotionsLeaveFinishedRows(At(s, log, since), At(s, log, refill.admission), Replay(s, log), agent, id);
  }

  /** A token given up by an event is gone whatever follows. */
  lemma GivenUpForGood(s: State, before: seq<Event>, e: Event, log: seq<Event>, a: Assignment)
    requires IsStart(s) && before + [e] <= log && WasIssued(s, before, a)
    requires !Current(Next(Replay(s, before), e).tasks, a)
    ensures !Current(Replay(s, log).tasks, a)
  {
    hide Next, WasIssued, Current, IsStart;
    ReplayOneMore(s, before, e);
    StaysIssued(s, before, before + [e], a);
    GoneForGood(s, before + [e], log, a) by { StartIsSound(s); }
  }

  lemma CompletedRow(s: State, a: Assignment, text: string, now: int)
    requires Current(s.tasks, a) && !HasOpenChild(s.tasks, a.id)
    ensures RowIs(Next(s, Complete(a, text, now)).tasks, a.id,
                  Done(s.tasks[a.id], Completed, Some(Trim(text)), s.tasks[a.id].error, now))
    ensures Next(s, Complete(a, text, now)).agents == s.agents
  {
  }

  lemma FinishedRow(s: State, a: Assignment, verdict: Verdict, detail: Option<string>, now: int)
    requires Current(s.tasks, a)
    ensures RowIs(Next(s, Finish(a, verdict, detail, now)).tasks, a.id,
                  Done(s.tasks[a.id], VerdictStatus(verdict), s.tasks[a.id].result, detail, now))
    ensures Next(s, Finish(a, verdict, detail, now)).agents == s.agents
  {
  }

  lemma RetriedRow(s: State, a: Assignment, detail: Option<string>)
    ensures Current(s.tasks, a) ==>
      RowIs(Next(s, Retry(a, detail)).tasks, a.id, Released(s.tasks[a.id], Pending, false).(error := detail))
    ensures Next(s, Retry(a, detail)).agents == s.agents
    ensures !Current(s.tasks, a) ==> Next(s, Retry(a, detail)) == s
  {
  }

  lemma DeferredRow(s: State, a: Assignment)
    requires RowsOk(s)
    ensures Current(s.tasks, a) ==>
      RowIs(Next(s, DeferUnstarted(a)).tasks, a.id,
            s.tasks[a.id].(status := Deferred, claimedAt := None, attempts := s.tasks[a.id].attempts - 1))
    ensures !Current(s.tasks, a) ==> Next(s, DeferUnstarted(a)) == s
  {
  }

  lemma AwaitingRow(s: State, a: Assignment)
    requires RowsOk(s) && !Current(s.tasks, a)
    ensures Next(s, AwaitChildren(a)).tasks == s.tasks
  {
  }

  /** The queue once the agent has been marked working on its claim. */
  function Started(s: State, a: Assignment, now: int): State {
    s.(agents := MarkedWorking(s, a, now))
  }

  /** The row waits for children, or is pending again after they are done. */
  predicate WasHandedOn(tasks: Tasks, id: Id)
    requires id in tasks
  {
    HasOpenChild(tasks, id) || (tasks[id].status.Pending? && HasChild(tasks, id))
  }

  /** By the columns: some child is unfinished, or the row is pending and has a child at all. */
  predicate HasChildToAwait(tasks: Tasks, id: Id)
    requires id in tasks
  {
    exists c :: c in tasks && tasks[c].job.parent == Some(id)
      && (tasks[id].status.Pending?
          || !(tasks[c].status.Completed? || tasks[c].status.Failed? || tasks[c].status.Cancelled?))
  }

  lemma AwaitedInColumns(tasks: Tasks, id: Id)
    requires id in tasks
    ensures HasChildToAwait(tasks, id) <==> WasHandedOn(tasks, id)
  {
    forall c | c in tasks
      ensures IsChildOf(tasks, c, id) <==> tasks[c].job.parent == Some(id)
      ensures !IsOpen(tasks[c].status) <==>
        tasks[c].status.Completed? || tasks[c].status.Failed? || tasks[c].status.Cancelled?
    {
    }
    hide IsOpen;
    if HasChildToAwait(tasks, id) {
      var c :| c in tasks && tasks[c].job.parent == Some(id) && (tasks[id].status.Pending? || IsOpen(tasks[c].status));
      assert IsChildOf(tasks, c, id);
    }
  }

  /** What makes the lease loop report a context interruption: a stale renewal, or a note on the released row. */
  predicate Interrupted(s: State, a: Assignment) {
    !Current(s.tasks, a) || ShouldInterruptForContext(s, a.id, a.job.assignee)
  }

  /** Fencing makes the early return after an interruption safe: the token can never be current again. */
  lemma InterruptedClaimIsGone(s: State, others: seq<Event>, k: nat, a: Assignment)
    requires RowsOk(s) && Current(s.tasks, a) && k <= |others| && Interrupted(At(s, others, k), a)
    ensures !Current(Replay(s, others).tasks, a)
  {
    hide Next, RowsOk;
    assert others[..|others|] == others;
    HeldOrSpent(s, others, 0, k, a.id, a.generation);
    JobIsForever(s, others, 0, k, a.id);
    SpentForever(s, others, k, |others|, a.id, a.generation);
  }

  /** The agent cannot work: it is paused, or no longer in the agent table. */
  predicate IsAway(agents: map<Name, Agent>, agent: Name) {
    agent in agents ==> agents[agent].status.Paused?
  }

  /** The agent was away at some point of the history from `since` on. */
  ghost predicate AwaySince(s: State, log: seq<Event>, since: nat, agent: Name) {
    exists k :: since <= k <= |log| && IsAway(At(s, log, k).agents, agent)
  }

  lemma AwayStays(s: State, log: seq<Event>, more: seq<Event>, since: nat, agent: Name)
    requires AwaySince(s, log, since, agent) && log <= more
    ensures AwaySince(s, more, since, agent)
  {
    hide Next;
    var k :| since <= k <= |log| && IsAway(At(s, log, k).agents, agent);
    assert more[..k] == log[..k];
    assert IsAway(At(s, more, k).agents, agent);
  }

  lemma AwayNow(s: State, log: seq<Event>, since: nat, agent: Name)
    requires IsAway(Replay(s, log).agents, agent) && since <= |log|
    ensures AwaySince(s, log, since, agent)
  {
    hide Next;
    assert log[..|log|] == log;
    assert IsAway(At(s, log, |log|).agents, agent);
  }

  lemma AwayLonger(s: State, log: seq<Event>, since: nat, later: nat, agent: Name)
    requires AwaySince(s, log, later, agent) && since <= later
    ensures AwaySince(s, log, since, agent)
  {
  }

  /** A pause reported during a run: the agent was away, or the token is gone. */
  lemma PauseReportMeans(s: State, log: seq<Event>, others: seq<Event>, k: nat, a: Assignment)
    requires RowsOk(Replay(s, log)) && Current(Replay(s, log).tasks, a) && k <= |others|
    requires ShouldInterruptForPause(At(Replay(s, log), others, k), a.id, a.job.assignee, true)
    ensures AwaySince(s, log + others, |log|, a.job.assignee) || !Current(Replay(s, log + others).tasks, a)
  {
    hide Next, RowsOk;
    var q := Replay(s, log);
    ReplayOnward(s, log, others);
    if IsAway(At(q, others, k).agents, a.job.assignee) {
      assert (log + others)[..|log| + k] == log + others[..k];
      ReplayOnward(s, log, others[..k]);
      assert IsAway(At(s, log + others, |log| + k).agents, a.job.assignee);
    } else {
      InterruptedClaimIsGone(q, others, k, a);
    }
  }

  lemma StartIsSound(s: State)
    requires IsStart(s)
    ensures RowsOk(s)
  {
  }

  /** What the lease loop reports has happened at some point of the run. */
  ghost predicate IsTruthful(lease: LeaseEnd, s: State, others: seq<Event>, a: Assignment) {
    && (lease.ContextInterrupted? ==> exists k :: 0 <= k <= |others| && Interrupted(At(s, others, k), a))
    && (lease.PauseInterrupted? ==>
          exists k :: 0 <= k <= |others| && ShouldInterruptForPause(At(s, others, k), a.id, a.job.assignee, true))
  }

  /** A report by the lease loop means that the token is gone, or that the agent was away during the run. */
  lemma LeaseReportMeans(lease: LeaseEnd, s: State, log: seq<Event>, others: seq<Event>, a: Assignment)
    requires RowsOk(s) && Current(Replay(s, log).tasks, a) && IsTruthful(lease, Replay(s, log), others, a)
    ensures lease.ContextInterrupted? ==> !Current(Replay(s, log + others).tasks, a)
    ensures lease.PauseInterrupted? ==>
      AwaySince(s, log + others, |log|, a.job.assignee) || !Current(Replay(s, log + others).tasks, a)
  {
    hide Replay, RowsOk, Current, AwaySince, Interrupted, ShouldInterruptForPause;
    var q := Replay(s, log);
    RunsKeepRowsOk(s, log);
    ReplayOnward(s, log, others);
    if lease.ContextInterrupted? {
      var k: nat :| k <= |others| && Interrupted(At(q, others, k), a);
      InterruptedClaimIsGone(q, others, k, a);
    } else if lease.PauseInterrupted? {
      var k: nat :| k <= |others| && ShouldInterruptForPause(At(q, others, k), a.id, a.job.assignee, true);
      PauseReportMeans(s, log, others, k, a);
    }
  }

  /**
  What must become of a task still held after its run, column by column. A message is answered by any run that
  finishes; a generator is done when it has created its root; other work when its output says so, and so is
  a generator then. What is not completed is retried below the attempt limit, and fails at it.
  */
  predicate IsVerdict(s: State, a: Assignment, result: RunResult, maxAttempts: int, now: int, row: Task)
    requires a.id in s.tasks
  {
    var t := s.tasks[a.id];
    var generated := a.job.kind.Generator?
      && exists o :: o in s.tasks && s.tasks[o].job.kind.Root? && s.tasks[o].job.origin == Some(a.id);
    var message := a.job.kind.Message? || a.job.source.Chat?;
    && (row.status.Completed? <==> result.Finished? && (generated || message || result.complete))
    && (row.status.Pending? <==> !row.status.Completed? && a.attempts < maxAttempts)
    && (row.status.Failed? <==> !row.status.Completed? && a.attempts >= maxAttempts)
    && row.result == (if row.status.Completed? && !generated then Some(Trim(result.text)) else t.result)
    && row.error == (if row.status.Completed? then if generated then None else t.error
                     else Some(if result.Crashed? then result.detail
                               else "agent returned without a committed task transition"))
    && row.completedAt == (if row.status.Pending? then t.completedAt else Some(now))
    && row.job == t.job && row.claimedAt.None? && row.generation == t.generation && row.attempts == t.attempts
  }

  lemma SettledIsAVerdict(s: State, a: Assignment, result: RunResult, maxAttempts: int, now: int)
    requires a.id in s.tasks
    ensures IsVerdict(s, a, result, maxAttempts, now, Settled(s, a, result, maxAttempts, now))
  {
    hide Trim;
  }

  /** The row is the verdict on the run, and an agent left without a claim has been told of it. */
  predicate IsSettled(s: State, a: Assignment, result: RunResult, maxAttempts: int, now: int, n: State)
    requires a.id in s.tasks
  {
    && a.id in n.tasks && IsVerdict(s, a, result, maxAttempts, now, n.tasks[a.id])
    && (a.job.assignee in n.agents
        && (forall o :: o in n.tasks && n.tasks[o].job.assignee == a.job.assignee ==> !n.tasks[o].status.Claimed?) ==>
          n.agents[a.job.assignee] ==
            Agent(if n.tasks[a.id].status.Failed? then Broken else Idle, None, now))
  }

  lemma SettledInColumns(s: State, a: Assignment, result: RunResult, maxAttempts: int, now: int, n: State)
    requires a.id in s.tasks && RowIs(n.tasks, a.id, Settled(s, a, result, maxAttempts, now))
    requires AgentTold(n, a.job.assignee, AgentAfter(n.tasks[a.id]), now)
    ensures IsSettled(s, a, result, maxAttempts, now, n)
  {
    SettledIsAVerdict(s, a, result, maxAttempts, now);
    hide Settled, IsVerdict;
  }

  lemma ClaimsAreDisciplined(s: State, log: seq<Event>, id: Id, agent: Name, now: int)
    ensures MayAppend(s, log, Claim(id, agent, now))
  {
  }

  /** The turn a worker is in: where in the history it began, what was claimed, and what the run returns. */
  datatype Handling = NotHandling | Handling(since: nat, a: Assignment, result: RunResult)

  /** What a worker may make of its claim, given what the run returns. */
  predicate IsAllowed(e: Event, a: Assignment, result: RunResult, maxAttempts: int) {
    match e
    case Complete(b, text, _) =>
      b == a && result.Finished? && text == result.text && (IsMessageJob(a.job) || result.complete)
    case Finish(b, verdict, _, _) =>
      b == a && if verdict.Succeeded? then result.Finished? && a.job.kind.Generator? else a.attempts >= maxAttempts
    case Retry(b, _) => b == a && a.attempts < maxAttempts
    case DeferUnstarted(b) => b == a
    case AwaitChildren(b) => b == a
    case AgentsChange(_) => true
    case _ => Refills(e)
  }

  /** The worker's own transactions since the turn began are all allowed. */
  ghost predicate OwnEventsAllowed(log: seq<Event>, own: seq<bool>, handling: Handling, maxAttempts: int) {
    && |own| == |log|
    && (handling.Handling? ==>
          forall k :: handling.since <= k < |log| && own[k] ==>
            IsAllowed(log[k], handling.a, handling.result, maxAttempts))
  }

  lemma OthersAreNotOwn(log: seq<Event>, others: seq<Event>, own: seq<bool>, handling: Handling,
                        maxAttempts: int)
    requires OwnEventsAllowed(log, own, handling, maxAttempts)
    ensures OwnEventsAllowed(log + others, own + Marks(|others|, false), handling, maxAttempts)
  {
    hide IsAllowed;
  }

  lemma OneMoreAllowed(before: seq<Event>, e: Event, log: seq<Event>, mine: seq<bool>, own: seq<bool>,
                       handling: Handling, maxAttempts: int)
    requires before + [e] <= log && OwnRefills(|before| + 1, log, mine)
    requires OwnEventsAllowed(before, own, handling, maxAttempts)
    requires handling.Handling? ==> IsAllowed(e, handling.a, handling.result, maxAttempts)
    ensures OwnEventsAllowed(log, own + [true] + mine, handling, maxAttempts)
  {
    if handling.Handling? {
      var more := own + [true] + mine;
      forall k | handling.since <= k < |log| && more[k]
        ensures IsAllowed(log[k], handling.a, handling.result, maxAttempts)
      {
        if k < |before| {
          assert own[k] && log[k] == before[k];
        } else if k > |before| {
          assert mine[k - (|before| + 1)] && Refills(log[k]);
        }
      }
    }
  }

  class WorkerContext {
    const store: Store
    const agent: Name
    const maxAttempts: int
    var budget: nat
    /** What others do to the queue before each of this worker's statements, and the events that do it. */
    const meanwhile: (nat, State) -> State
    ghost const happens: (nat, State) -> seq<Event>
    var steps: nat
    /** Which events of the store's history are this worker's own. */
    ghost var own: seq<bool>
    ghost var handling: Handling

    ghost predicate Valid()
      reads this, store
    {
      && store.Valid()
      && (forall n: nat, q: State :: meanwhile(n, q) == Replay(q, happens(n, q)))
      && DisciplinedWhere(store.start, store.log, own, maxAttempts)
      && OwnEventsAllowed(store.log, own, handling, maxAttempts)
    }

    /** The assignment came out of a claim. */
    ghost predicate Issued(a: Assignment)
      reads this, store
    {
      WasIssued(store.start, store.log, a)
    }

    /** The assignment is the one of this turn. */
    ghost predicate Handles(a: Assignment)
      reads this, store
    {
      handling.Handling? && handling.a == a && Issued(a)
    }

    /** Nobody else touches the queue from here on. */
    ghost predicate Quiet()
      reads this`steps
    {
      forall n: nat, q: State :: n >= steps ==> happens(n, q) == []
    }

    constructor (store: Store, agent: Name, maxAttempts: int, budget: nat, meanwhile: (nat, State) -> State,
                 ghost happens: (nat, State) -> seq<Event>)
      requires store.Valid() && forall n: nat, q: State :: meanwhile(n, q) == Replay(q, happens(n, q))
      ensures Valid() && this.store == store && this.agent == agent && this.maxAttempts == maxAttempts
      ensures this.budget == budget && this.happens == happens && steps == 0
    {
      this.store, this.agent, this.maxAttempts, this.budget := store, agent, maxAttempts, budget;
      this.meanwhile, this.happens, this.steps := meanwhile, happens, 0;
      this.own, this.handling := Marks(|store.log|, false), NotHandling;
    }

    method TakeBudget() returns (ok: bool)
      modifies this`budget
      ensures ok <==> old(budget) > 0
      ensures budget == if old(budget) > 0 then old(budget) - 1 else 0
    {
      ok := budget > 0;
      if ok {
        budget := budget - 1;
      }
    }

    /** Lets the others act. A token that is gone stays gone. */
    method Meanwhile(ghost a: Assignment)
      requires Valid() && Handles(a)
      modifies this`steps, this`own, store
      ensures Valid() && Handles(a) && old(store.log) <= store.log && old(own) <= own
      ensures !Current(old(store.tasks), a) ==> !Current(store.tasks, a)
      ensures old(Quiet()) ==> Quiet() && store.View() == old(store.View()) && store.log == old(store.log)
    {
      hide Replay, Current, WasIssued, DisciplinedWhere, OwnEventsAllowed, RowsOk;
      ghost var others := happens(steps, store.View());
      RunsKeepRowsOk(store.start, store.log) by { StartIsSound(store.start); }
      DisciplineStays(store.start, store.log, others, own, maxAttempts);
      OthersAreNotOwn(store.log, others, own, handling, maxAttempts);
      store.Adopt(meanwhile(steps, store.View()), others);
      StaysIssued(store.start, old(store.log), store.log, a);
      if !Current(old(store.tasks), a) {
        GoneForGood(store.start, old(store.log), store.log, a) by { StartIsSound(store.start); }
      }
      own := own + Marks(|others|, false);
      NothingHappens(old(store.View()));
      steps := steps + 1;
    }

    /** Marks the transaction just made, and its refills, as the worker's own. */
    ghost method Mark(a: Assignment, e: Event, before: seq<Event>, mine: seq<bool>)
      requires store.Valid() && before + [e] <= store.log && OwnRefills(|before| + 1, store.log, mine)
      requires MayAppend(store.start, before, e) && DisciplinedWhere(store.start, before, own, maxAttempts)
      requires e.Retry? ==> e.a.attempts < maxAttempts && WasIssued(store.start, before, e.a)
      requires forall n: nat, q: State :: meanwhile(n, q) == Replay(q, happens(n, q))
      requires WasIssued(store.start, before, a) && handling.Handling? && handling.a == a
      requires OwnEventsAllowed(before, own, handling, maxAttempts) && IsAllowed(e, a, handling.result, maxAttempts)
      modifies this`own
      ensures Valid() && Handles(a) && old(own) <= own
    {
      hide WasIssued, DisciplinedWhere, OwnEventsAllowed, MayAppend;
      OneMoreTransaction(store.start, before, e, store.log, mine, own, maxAttempts);
      OneMoreAllowed(before, e, store.log, mine, own, handling, maxAttempts);
      StaysIssued(store.start, before, store.log, a);
      own := own + [true] + mine;
    }

    /** `set_state_after_claim`, as a step in handling a claim. */
    method TellAgent(a: Assignment, status: AgentStatus, now: int)
      requires Valid() && Handles(a)
      modifies this`steps, this`own, store
      ensures Valid() && Handles(a) && old(store.log) <= store.log && old(own) <= own
      ensures !Current(old(store.tasks), a) ==> !Current(store.tasks, a)
      ensures old(Quiet()) ==>
        Quiet() && store.View() == old(store.View()).(agents := MarkedAfter(old(store.View()), a, status, now))
      ensures old(Quiet()) && GenerationIsCurrent(store.tasks, a) ==>
        AgentTold(store.View(), a.job.assignee, status, now)
    {
      hide Current, WasIssued, DisciplinedWhere, OwnEventsAllowed, Replay;
      Meanwhile(a);
      ghost var before := store.log;
      var _ := SetStateAfterClaim(store, a, status, now);
      Mark(a, AgentsChange(store.agents), before, []);
    }

    /**
    Completes the claim under its token; refused with open children, and under a stale token no row changes.
    Others may act before each of the two refills.
    */
    method CompleteOrGiveWay(a: Assignment, text: string, now: int) returns (applied: bool, refused: bool)
      requires Valid() && Handles(a) && IsAllowed(Complete(a, text, now), a, handling.result, maxAttempts)
      modifies this`steps, this`own, store
      ensures Valid() && Handles(a) && old(store.log) <= store.log && old(own) <= own
      ensures !Current(store.tasks, a) && (refused <==> HasOpenChild(old(store.tasks), a.id))
      ensures refused ==> HasOpenChild(store.tasks, a.id) && !applied
      ensures applied <==> Current(old(store.tasks), a)
      ensures !applied ==> store.View() == old(store.View())
      ensures old(Quiet()) ==> Quiet() && store.agents == old(store.agents)
      ensures old(Quiet()) && applied ==>
        var t := old(store.tasks)[a.id];
        RowIs(store.tasks, a.id, Done(t, Completed, Some(Trim(text)), t.error, now))
    {
      hide IsRefilled, TreeOk, Next, WasIssued, DisciplinedWhere, OwnEventsAllowed, Trim, Replay;
      hide HasOpenChild, BacklogSettled, RowsOk, HoldsAnything, MarkedAfter;
      store.AlwaysSound();
      if Current(store.tasks, a) {
        CurrentHasNoOpenChild(store.View(), a);
        CompletedRow(store.View(), a, text, now);
      }
      var at := steps;
      var others := (n: nat, q: State) => meanwhile(at + n, q);
      ghost var happened := (n: nat, q: State) => happens(at + n, q);
      var r;
      ghost var refill;
      r, refill := store.CompleteClaim(a, text, now, others, happened);
      steps := steps + 2;
      applied, refused := r.Committed?, r.OpenChildren?;
      Mark(a, Complete(a, text, now), old(store.log), refill.mine);
      if applied {
        GivenUpForGood(store.start, old(store.log), Complete(a, text, now), store.log, a);
      }
      if applied && NobodyActs(happened) {
        RefillsLeaveFinishedRows(store.start, store.log, |old(store.log)| + 1, refill, a.job.assignee, a.id);
      }
    }

    method FinishOrGiveWay(a: Assignment, verdict: Verdict, detail: Option<string>, now: int) returns (applied: bool)
      requires Valid() && Handles(a) && IsAllowed(Finish(a, verdict, detail, now), a, handling.result, maxAttempts)
      modifies this`steps, this`own, store
      ensures Valid() && Handles(a) && old(store.log) <= store.log && old(own) <= own
      ensures !Current(store.tasks, a) && (applied <==> Current(old(store.tasks), a))
      ensures !applied ==> store.View() == old(store.View())
      ensures old(Quiet()) ==> Quiet() && store.agents == old(store.agents)
      ensures old(Quiet()) && applied ==>
        var t := old(store.tasks)[a.id];
        RowIs(store.tasks, a.id, Done(t, VerdictStatus(verdict), t.result, detail, now))
    {
      hide IsRefilled, Next, WasIssued, DisciplinedWhere, OwnEventsAllowed, Replay;
      hide HasOpenChild, BacklogSettled, RowsOk, HoldsAnything, MarkedAfter;
      if Current(store.tasks, a) {
        FinishedRow(store.View(), a, verdict, detail, now);
      }
      var at := steps;
      var others := (n: nat, q: State) => meanwhile(at + n, q);
      ghost var happened := (n: nat, q: State) => happens(at + n, q);
      var r;
      ghost var refill;
      r, refill := store.FinishClaim(a, verdict, detail, now, others, happened);
      steps := steps + 2;
      applied := r.Applied?;
      Mark(a, Finish(a, verdict, detail, now), old(store.log), refill.mine);
      if applied {
        GivenUpForGood(store.start, old(store.log), Finish(a, verdict, detail, now), store.log, a);
      }
      if applied && NobodyActs(happened) {
        RefillsLeaveFinishedRows(store.start, store.log, |old(store.log)| + 1, refill, a.job.assignee, a.id);
      }
    }

    method RetryOrGiveWay(a: Assignment, error: string) returns (applied: bool)
      requires Valid() && Handles(a) && a.attempts < maxAttempts
      modifies this`own, store
      ensures Valid() && Handles(a) && old(store.log) <= store.log && old(own) <= own
      ensures store.agents == old(store.agents) && !Current(store.tasks, a)
      ensures Current(old(store.tasks), a) ==>
        applied && RowIs(store.tasks, a.id, Released(old(store.tasks)[a.id], Pending, false).(error := Some(error)))
      ensures !Current(old(store.tasks), a) ==> !applied && store.View() == old(store.View())
    {
      hide Next, WasIssued, DisciplinedWhere, OwnEventsAllowed;
      RetriedRow(store.View(), a, Some(error));
      var r := store.RetryClaim(a, Some(error));
      applied := r.Applied?;
      Mark(a, Retry(a, Some(error)), old(store.log), []);
    }

    method DeferUnstarted(a: Assignment) returns (applied: bool)
      requires Valid() && Handles(a)
      modifies this`own, store
      ensures Valid() && Handles(a) && old(store.log) <= store.log && old(own) <= own
      ensures !Current(store.tasks, a) && (applied <==> Current(old(store.tasks), a))
      ensures applied ==>
        var t := old(store.tasks)[a.id];
        RowIs(store.tasks, a.id, t.(status := Deferred, claimedAt := None, attempts := t.attempts - 1))
      ensures !applied ==> store.tasks == old(store.tasks)
    {
      hide Next, WasIssued, DisciplinedWhere, OwnEventsAllowed;
      RunsKeepRowsOk(store.start, store.log);
      DeferredRow(store.View(), a);
      var r := store.DeferUnstartedClaim(a);
      applied := r.Applied?;
      Mark(a, QueueEvents.DeferUnstarted(a), old(store.log), []);
    }

    /** Waits for children, once the token is known not to be current: the row waits already, or is not ours. */
    method WaitOrGiveWay(a: Assignment) returns (applied: bool)
      requires Valid() && Handles(a) && !Current(store.tasks, a)
      modifies this`own, store
      ensures Valid() && Handles(a) && old(store.log) <= store.log && old(own) <= own
      ensures store.tasks == old(store.tasks)
    {
      hide Next, WasIssued, DisciplinedWhere, OwnEventsAllowed;
      RunsKeepRowsOk(store.start, store.log);
      AwaitingRow(store.View(), a);
      var r := store.WaitForChildrenClaim(a);
      applied := r.Applied?;
      Mark(a, AwaitChildren(a), old(store.log), []);
    }

    /** `handle_failure`: another attempt while the policy allows one, else the task fails. */
    method HandleFailure(a: Assignment, error: string, now: int)
      requires Valid() && Handles(a)
      modifies this`steps, this`own, store
      ensures Valid() && Handles(a) && old(store.log) <= store.log && old(own) <= own
      ensures !Current(store.tasks, a)
      ensures old(Quiet()) && Current(old(store.tasks), a) ==>
        && RowIs(store.tasks, a.id, RowAfterFailure(old(store.tasks)[a.id], a, error, maxAttempts, now))
        && AgentTold(store.View(), a.job.assignee, AgentAfter(store.tasks[a.id]), now)
      ensures old(Quiet()) && !Current(old(store.tasks), a) ==> store.tasks == old(store.tasks)
    {
      hide WasIssued, DisciplinedWhere, OwnEventsAllowed, Replay;
      Meanwhile(a);
      var applied;
      if a.attempts < maxAttempts {
        applied := RetryOrGiveWay(a, error);
      } else {
        applied := FinishOrGiveWay(a, GaveUp, Some(error), now);
      }
      if applied {
        TellAgent(a, if a.attempts < maxAttempts then Idle else Broken, now);
      }
    }

    /** Reads whether a child is open; if so the row waits, so the token is not current. */
    method ReadOpenChildren(a: Assignment) returns (open: bool)
      requires Valid() && Handles(a)
      modifies this`steps, this`own, store
      ensures Valid() && Handles(a) && old(store.log) <= store.log && old(own) <= own
      ensures open <==> HasOpenChild(store.tasks, a.id)
      ensures open || !Current(old(store.tasks), a) ==> !Current(store.tasks, a)
      ensures old(Quiet()) ==> Quiet() && store.View() == old(store.View()) && store.log == old(store.log)
    {
      hide WasIssued, DisciplinedWhere, OwnEventsAllowed, Replay, TreeOk;
      Meanwhile(a);
      store.AlwaysSound();
      if Current(store.tasks, a) {
        CurrentHasNoOpenChild(store.View(), a);
      }
      open := HasOpenChild(store.tasks, a.id);
    }

    /** Reads the row's status; only 'claimed' leaves the token a chance. */
    method ReadStatus(a: Assignment) returns (status: Status)
      requires Valid() && Handles(a)
      modifies this`steps, this`own, store
      ensures Valid() && Handles(a) && old(store.log) <= store.log && old(own) <= own
      ensures a.id in store.tasks && status == store.tasks[a.id].status
      ensures !status.Claimed? || !Current(old(store.tasks), a) ==> !Current(store.tasks, a)
      ensures old(Quiet()) ==> Quiet() && store.View() == old(store.View()) && store.log == old(store.log)
    {
      hide WasIssued, DisciplinedWhere, OwnEventsAllowed, Replay;
      Meanwhile(a);
      IssuedJobIsTheRows(store.start, store.log, a);
      status := store.tasks[a.id].status;
    }

    /** `generation_is_current` */
    method ReadGeneration(a: Assignment) returns (same: bool)
      requires Valid() && Handles(a)
      modifies this`steps, this`own, store
      ensures Valid() && Handles(a) && old(store.log) <= store.log && old(own) <= own
      ensures !same || !Current(old(store.tasks), a) ==> !Current(store.tasks, a)
      ensures old(Quiet()) ==>
        && Quiet() && store.View() == old(store.View()) && store.log == old(store.log)
        && (same <==> GenerationIsCurrent(store.tasks, a))
    {
      hide WasIssued, DisciplinedWhere, OwnEventsAllowed, Replay, Quiet;
      Meanwhile(a);
      same := GenerationIsCurrent(store.tasks, a);
    }

    /** The reads by which `finish_result` decides: open children, or a row handed on, mean the token is gone. */
    method ReadOutcome(a: Assignment) returns (completed: bool, generated: bool, open: bool, delegated: bool)
      requires Valid() && Handles(a)
      modifies this`steps, this`own, store
      ensures Valid() && Handles(a) && old(store.log) <= store.log && old(own) <= own
      ensures completed || open || delegated || !Current(old(store.tasks), a) ==> !Current(store.tasks, a)
      ensures (generated ==> a.job.kind.Generator?) && (open ==> delegated)
      ensures old(Quiet()) ==>
        && Quiet() && store.View() == old(store.View())
        && (generated <==> HasGenerated(store.tasks, a)) && (open <==> HasOpenChild(store.tasks, a.id))
        && (Current(store.tasks, a) ==> !completed && !delegated)
    {
      hide WasIssued, DisciplinedWhere, OwnEventsAllowed, Replay, Quiet, HasOpenChild, HasChild;
      var status := ReadStatus(a);
      completed := status.Completed?;
      Meanwhile(a);
      generated := HasGenerated(store.tasks, a);
      open := ReadOpenChildren(a);
      Meanwhile(a);
      delegated := open || (status.Pending? && HasChild(store.tasks, a.id));
    }

    /** `finish_result`. It fails when the completion is refused because a child was opened since it looked. */
    method FinishResult(a: Assignment, result: RunResult, now: int) returns (failed: bool)
      requires Valid() && Handles(a) && handling.result == result
      modifies this`steps, this`own, store
      ensures Valid() && Handles(a) && old(store.log) <= store.log && old(own) <= own
      ensures !Current(store.tasks, a) && (failed ==> HasOpenChild(store.tasks, a.id))
      ensures old(Quiet()) ==> !failed
      ensures old(Quiet()) && Current(old(store.tasks), a) ==>
        IsSettled(old(store.View()), a, result, maxAttempts, now, store.View())
      ensures old(Quiet()) && !Current(old(store.tasks), a) ==> store.tasks == old(store.tasks)
    {
      hide WasIssued, DisciplinedWhere, OwnEventsAllowed, Replay, Quiet, HasOpenChild, Valid, Issued;
      hide IsSettled, Settled, AgentTold, AgentAfter;
      failed := Settle(a, result, now);
      if old(Quiet()) && Current(old(store.tasks), a) {
        SettledInColumns(old(store.View()), a, result, maxAttempts, now, store.View());
      }
    }

    /** The decision table of `finish_result`. */
    method Settle(a: Assignment, result: RunResult, now: int) returns (failed: bool)
      requires Valid() && Handles(a) && handling.result == result
      modifies this`steps, this`own, store
      ensures Valid() && Handles(a) && old(store.log) <= store.log && old(own) <= own
      ensures !Current(store.tasks, a) && (failed ==> HasOpenChild(store.tasks, a.id))
      ensures old(Quiet()) ==> !failed
      ensures old(Quiet()) && Current(old(store.tasks), a) ==>
        && RowIs(store.tasks, a.id, Settled(old(store.View()), a, result, maxAttempts, now))
        && AgentTold(store.View(), a.job.assignee, AgentAfter(store.tasks[a.id]), now)
      ensures old(Quiet()) && !Current(old(store.tasks), a) ==> store.tasks == old(store.tasks)
    {
      hide WasIssued, DisciplinedWhere, OwnEventsAllowed, Replay, Quiet, HasGenerated, HasOpenChild, Trim;
      hide MarkedAfter, AgentTold, RowAfterFailure, WasHandedOn, IsMessageJob, HoldsAnything, Valid, Issued;
      failed := false;
      if result.Crashed? {
        HandleFailure(a, result.detail, now);
      } else {
        var completed, generated, open, delegated := ReadOutcome(a);
        var message := IsMessageJob(a.job);
        var hostCompleted := !completed && !generated && !message && !delegated && result.complete;
        Meanwhile(a);
        var settled := true;
        if generated {
          settled := FinishOrGiveWay(a, Succeeded, None, now);
        } else if open {
          settled := WaitOrGiveWay(a);
        } else if message || hostCompleted {
          settled, failed := CompleteOrGiveWay(a, result.text, now);
        } else if !completed && !delegated {
          HandleFailure(a, UNCOMMITTED, now);
          settled := false;
        }
        if settled {
          TellAgent(a, Idle, now);
        }
      }
    }

    /** `accept_committed`: the agent completed the task itself during the run. */
    method AcceptCommitted(a: Assignment, now: int) returns (accepted: bool)
      requires Valid() && Handles(a)
      modifies this`steps, this`own, store
      ensures Valid() && Handles(a) && old(store.log) <= store.log && old(own) <= own
      ensures accepted || !Current(old(store.tasks), a) ==> !Current(store.tasks, a)
      ensures old(Quiet()) ==>
        && Quiet() && store.tasks == old(store.tasks)
        && (accepted <==>
              && a.id in store.tasks && store.tasks[a.id].generation == a.generation
              && store.tasks[a.id].status.Completed?)
        && (!accepted ==> store.View() == old(store.View()))
        && (accepted ==>
              store.agents == if IsPaused(old(store.agents), agent) then old(store.agents)
                              else MarkedAfter(old(store.View()), a, Idle, now))
    {
      hide WasIssued, DisciplinedWhere, OwnEventsAllowed, Replay, Quiet, MarkedAfter, HoldsAnything;
      var same := ReadGeneration(a);
      if !same {
        return false;
      }
      var status := ReadStatus(a);
      if !status.Completed? {
        return false;
      }
      Meanwhile(a);
      if !IsPaused(store.agents, agent) {
        TellAgent(a, Idle, now);
      }
      accepted := true;
    }

    /** `accept_delegated_failure`: the run failed, but only after handing its work on. */
    method AcceptDelegatedFailure(a: Assignment, result: RunResult, now: int) returns (accepted: bool)
      requires Valid() && Handles(a)
      modifies this`steps, this`own, store
      ensures Valid() && Handles(a) && old(store.log) <= store.log && old(own) <= own
      ensures accepted || !Current(old(store.tasks), a) ==> !Current(store.tasks, a)
      ensures old(Quiet()) ==>
        && Quiet() && store.tasks == old(store.tasks) && a.id in store.tasks
        && (accepted <==> result.Crashed? && WasHandedOn(store.tasks, a.id))
        && (accepted <==> result.Crashed? && HasChildToAwait(store.tasks, a.id))
        && (!accepted ==> store.View() == old(store.View()))
    {
      hide WasIssued, DisciplinedWhere, OwnEventsAllowed, Replay, Quiet;
      IssuedJobIsTheRows(store.start, store.log, a);
      AwaitedInColumns(store.tasks, a.id);
      hide HasChildToAwait;
      if result.Finished? {
        return false;
      }
      var status := ReadStatus(a);
      var open := ReadOpenChildren(a);
      Meanwhile(a);
      if !open && !(status.Pending? && HasChild(store.tasks, a.id)) {
        return false;
      }
      accepted := true;
      if open {
        Meanwhile(a);
        var applied := WaitOrGiveWay(a);
        if !applied {
          return;
        }
      }
      TellAgent(a, Idle, now);
    }

    /** `should_interrupt_for_pause`: the agent is paused, or its row is pending. */
    method ReadPauseReport(a: Assignment, operatorPaused: bool, ghost since: nat) returns (report: bool)
      requires Valid() && Handles(a) && a.job.assignee == agent && since <= |store.log|
      modifies this`steps, this`own, store
      ensures Valid() && Handles(a) && old(store.log) <= store.log && old(own) <= own
      ensures !Current(old(store.tasks), a) ==> !Current(store.tasks, a)
      ensures report && Current(store.tasks, a) ==>
        IsPaused(store.agents, agent) && AwaySince(store.start, store.log, since, agent)
      ensures old(Quiet()) ==>
        && Quiet() && store.View() == old(store.View()) && store.log == old(store.log)
        && (report <==> ShouldInterruptForPause(store.View(), a.id, agent, operatorPaused))
        && (report <==>
              && a.id in store.tasks && store.tasks[a.id].job.assignee == agent && agent in store.agents
              && ((store.agents[agent].status.Paused? && operatorPaused)
                  || (store.agents[agent].status.Idle? && store.tasks[a.id].status.Pending?
                      && store.tasks[a.id].claimedAt.None?)))
    {
      hide WasIssued, DisciplinedWhere, OwnEventsAllowed, Replay, AwaySince, Quiet;
      Meanwhile(a);
      report := ShouldInterruptForPause(store.View(), a.id, agent, operatorPaused);
      if IsPaused(store.agents, agent) {
        AwayNow(store.start, store.log, since, agent);
      }
    }

    /** `should_interrupt_for_context`: a note waits for the row, which is pending again. */
    method ReadContextReport(a: Assignment) returns (report: bool)
      requires Valid() && Handles(a)
      modifies this`steps, this`own, store
      ensures Valid() && Handles(a) && old(store.log) <= store.log && old(own) <= own
      ensures report || !Current(old(store.tasks), a) ==> !Current(store.tasks, a)
      ensures old(Quiet()) ==>
        && Quiet() && store.View() == old(store.View()) && store.log == old(store.log)
        && (report <==> ShouldInterruptForContext(store.View(), a.id, agent))
        && (report <==>
              && a.id in store.tasks && store.tasks[a.id].job.assignee == agent
              && store.tasks[a.id].status.Pending? && store.tasks[a.id].claimedAt.None?
              && agent in store.agents && store.agents[agent].status.Working?
              && exists n :: n in store.notes && store.notes[n].task == a.id)
    {
      hide WasIssued, DisciplinedWhere, OwnEventsAllowed, Replay, Quiet;
      Meanwhile(a);
      report := ShouldInterruptForContext(store.View(), a.id, agent);
    }

    /** `is_agent_paused` */
    method ReadPaused(a: Assignment, ghost since: nat) returns (paused: bool)
      requires Valid() && Handles(a) && since <= |store.log|
      modifies this`steps, this`own, store
      ensures Valid() && Handles(a) && old(store.log) <= store.log && old(own) <= own
      ensures !Current(old(store.tasks), a) ==> !Current(store.tasks, a)
      ensures paused ==> AwaySince(store.start, store.log, since, agent)
      ensures old(Quiet()) ==>
        && Quiet() && store.View() == old(store.View()) && store.log == old(store.log)
        && (paused <==> IsPaused(store.agents, agent))
    {
      hide WasIssued, DisciplinedWhere, OwnEventsAllowed, Replay, AwaySince, Quiet;
      Meanwhile(a);
      paused := IsPaused(store.agents, agent);
      if paused {
        AwayNow(store.start, store.log, since, agent);
      }
    }

    /** `set_working_for_claim`: not applied to a current claim only when the agent's row is gone. */
    method MarkWorking(a: Assignment, now: int, ghost since: nat) returns (working: bool)
      requires Valid() && Handles(a) && a.job.assignee == agent && since <= |store.log|
      modifies this`steps, this`own, store
      ensures Valid() && Handles(a) && old(store.log) <= store.log && old(own) <= own
      ensures working ==> Current(store.tasks, a)
      ensures !working && Current(store.tasks, a) ==> AwaySince(store.start, store.log, since, agent)
      ensures old(Quiet()) ==>
        && Quiet() && store.View() == Started(old(store.View()), a, now)
        && (working <==> agent in old(store.agents) && Current(old(store.tasks), a))
    {
      hide Replay, WasIssued, DisciplinedWhere, OwnEventsAllowed, Quiet, AwaySince;
      Meanwhile(a);
      ghost var before := store.log;
      var r := SetWorkingForClaim(store, a, now);
      working := r.Applied?;
      Mark(a, AgentsChange(store.agents), before, []);
      if agent !in store.agents {
        AwayNow(store.start, store.log, since, agent);
      }
    }

    /** `run_with_lease`: the run takes place, and the lease loop says how it ended. */
    method Run(a: Assignment, run: State -> State, ghost happened: State -> seq<Event>, lease: State -> LeaseEnd,
               ghost since: nat)
      returns (end: LeaseEnd)
      requires Valid() && Handles(a) && a.job.assignee == agent && Current(store.tasks, a) && since <= |store.log|
      requires forall q: State :: run(q) == Replay(q, happened(q)) && IsTruthful(lease(q), q, happened(q), a)
      modifies this`own, store
      ensures Valid() && Handles(a) && old(store.log) <= store.log && old(own) <= own
      ensures store.View() == run(old(store.View())) && end == lease(old(store.View()))
      ensures end.ContextInterrupted? ==> !Current(store.tasks, a)
      ensures end.PauseInterrupted? ==> !Current(store.tasks, a) || AwaySince(store.start, store.log, since, agent)
    {
      hide Replay, WasIssued, DisciplinedWhere, OwnEventsAllowed, AwaySince, IsTruthful, Current;
      ghost var others := happened(store.View());
      end := lease(store.View());
      StartIsSound(store.start);
      DisciplineStays(store.start, store.log, others, own, maxAttempts);
      OthersAreNotOwn(store.log, others, own, handling, maxAttempts);
      LeaseReportMeans(end, store.start, store.log, others, a);
      store.Adopt(run(store.View()), others);
      StaysIssued(store.start, old(store.log), store.log, a);
      own := own + Marks(|others|, false);
      if AwaySince(store.start, store.log, |old(store.log)|, agent) {
        AwayLonger(store.start, store.log, since, |old(store.log)|, agent);
      }
    }

    /** The last checks of `process`: cancelled, paused, handed on by a failed run, or a result to act on. */
    method Conclude(a: Assignment, result: RunResult, pauseInterrupted: bool, now: int, ghost since: nat)
      returns (failed: bool)
      requires Valid() && Handles(a) && handling.result == result && a.job.assignee == agent && since <= |store.log|
      requires pauseInterrupted ==> !Current(store.tasks, a) || AwaySince(store.start, store.log, since, agent)
      modifies this`steps, this`own, store
      ensures Valid() && Handles(a) && old(store.log) <= store.log && old(own) <= own
      ensures Current(store.tasks, a) ==> AwaySince(store.start, store.log, since, agent)
      ensures failed ==> !Current(store.tasks, a) && HasOpenChild(store.tasks, a.id)
      ensures old(Quiet()) ==> !failed
      ensures old(Quiet()) && Current(old(store.tasks), a) ==>
        if pauseInterrupted || IsPaused(old(store.agents), agent) then store.tasks == old(store.tasks)
        else IsSettled(old(store.View()), a, result, maxAttempts, now, store.View())
      ensures old(Quiet()) && !Current(old(store.tasks), a) ==> store.tasks == old(store.tasks)
    {
      hide IsSettled, WasIssued, DisciplinedWhere, OwnEventsAllowed, Replay, Quiet, AwaySince;
      hide Current, Valid, Issued, HasOpenChild;
      hide IsPaused, WasHandedOn, MarkedAfter;
      failed := false;
      var status := ReadStatus(a);
      if status.Cancelled? {
        TellAgent(a, Idle, now);
        return;
      }
      var paused := ReadPaused(a, since);
      if pauseInterrupted || paused {
        ghost var reported := if paused then store.log else old(store.log);
        if paused {
          TellAgent(a, Paused, now);
        }
        if Current(store.tasks, a) {
          AwayStays(store.start, reported, store.log, since, agent);
        }
        return;
      }
      var accepted := AcceptDelegatedFailure(a, result, now);
      if !accepted {
        failed := FinishResult(a, result, now);
      }
    }

    /**
    Everything `process` does after the run. Whatever others do in between, the claim is not current any
    more at the end unless the agent was away. Left alone, a current claim becomes exactly the row the
    decision table prescribes, and a stale one changes no row.
    */
    method AfterRun(a: Assignment, result: RunResult, lease: LeaseEnd, operatorPaused: bool, now: int, ghost since: nat)
      returns (failed: bool)
      requires Valid() && Handles(a) && handling.result == result && a.job.assignee == agent && since <= |store.log|
      requires lease.ContextInterrupted? ==> !Current(store.tasks, a)
      requires lease.PauseInterrupted? ==> !Current(store.tasks, a) || AwaySince(store.start, store.log, since, agent)
      modifies this`steps, this`own, store
      ensures Valid() && Handles(a) && old(store.log) <= store.log && old(own) <= own
      ensures Current(store.tasks, a) ==> AwaySince(store.start, store.log, since, agent)
      ensures failed ==> !Current(store.tasks, a) && HasOpenChild(store.tasks, a.id)
      ensures old(Quiet()) ==> !failed
      ensures old(Quiet()) && Current(old(store.tasks), a) ==>
        if lease.PauseInterrupted? || IsPaused(old(store.agents), agent) then store.tasks == old(store.tasks)
        else IsSettled(old(store.View()), a, result, maxAttempts, now, store.View())
      ensures old(Quiet()) && !Current(old(store.tasks), a) ==> store.tasks == old(store.tasks)
    {
      hide IsSettled, WasIssued, DisciplinedWhere, OwnEventsAllowed, Replay, Quiet, AwaySince;
      hide Current, Valid, Issued, HasOpenChild;
      hide ShouldInterruptForPause, ShouldInterruptForContext, IsPaused, GenerationIsCurrent, WasHandedOn, MarkedAfter;
      failed := false;
      if lease.ContextInterrupted? {
        TellAgent(a, Idle, now);
        return;
      }
      var pauseInterrupted := lease.PauseInterrupted?;
      if !pauseInterrupted {
        pauseInterrupted := ReadPauseReport(a, operatorPaused, since);
      }
      ghost var reported := store.log;
      var contextInterrupted := ReadContextReport(a);
      if contextInterrupted {
        TellAgent(a, Idle, now);
        return;
      }
      var same := ReadGeneration(a);
      if !same {
        return;
      }
      var accepted := AcceptCommitted(a, now);
      if accepted {
        return;
      }
      if pauseInterrupted && Current(store.tasks, a) {
        AwayStays(store.start, reported, store.log, since, agent);
      }
      failed := Conclude(a, result, pauseInterrupted, now, since);
    }

    /** The claim is deferred unstarted: for want of budget, which the agent is told, or of a configuration. */
    method GiveBack(a: Assignment, exhausted: bool, now: int) returns (failed: bool)
      requires Valid() && Handles(a)
      modifies this`steps, this`own, store
      ensures Valid() && Handles(a) && old(store.log) <= store.log && old(own) <= own
      ensures !Current(store.tasks, a) && (failed <==> !exhausted && Current(old(store.tasks), a))
      ensures old(Quiet()) && Current(old(store.tasks), a) ==>
        var t := old(store.tasks)[a.id];
        RowIs(store.tasks, a.id, t.(status := Deferred, claimedAt := None, attempts := t.attempts - 1))
      ensures old(Quiet()) && !Current(old(store.tasks), a) ==> store.tasks == old(store.tasks)
      ensures old(Quiet()) && Current(old(store.tasks), a) && exhausted ==>
        AgentTold(store.View(), a.job.assignee, BudgetExhausted, now)
    {
      hide Replay, WasIssued, DisciplinedWhere, OwnEventsAllowed, Quiet;
      failed := DeferUnstarted(a);
      if exhausted {
        if failed {
          TellAgent(a, BudgetExhausted, now);
        }
        failed := false;
      }
    }

    /**
    `process`. Others may act before every statement, and `happened` tells what happens during the run.
    In every case the claim is given up, unless the agent was paused or removed at some point since. Left
    alone but for the run, a claim without budget or configuration is deferred and its attempt refunded,
    and any other ends in exactly the row the decision table prescribes. In no case does the worker complete,
    fail or retry the task but as the run's result and the attempt limit allow. It fails itself without a
    configuration, or when its completion is refused for a child opened at the last moment.
    */
    method Process(a: Assignment, configOk: bool, result: RunResult, run: State -> State,
                   ghost happened: State -> seq<Event>, lease: State -> LeaseEnd, operatorPaused: bool, now: int)
      returns (failed: bool)
      requires Valid() && Issued(a) && a.job.assignee == agent
      requires forall q: State :: run(q) == Replay(q, happened(q)) && IsTruthful(lease(q), q, happened(q), a)
      modifies this`budget, this`steps, this`own, this`handling, store
      ensures Valid() && Handles(a) && old(store.log) <= store.log && old(own) <= own
      ensures Current(store.tasks, a) ==> AwaySince(store.start, store.log, |old(store.log)|, agent)
      ensures budget == if old(budget) > 0 then old(budget) - 1 else 0
      ensures forall k :: |old(store.log)| <= k < |store.log| && own[k] ==>
        IsAllowed(store.log[k], a, result, maxAttempts)
      ensures failed ==> old(budget) > 0 && !Current(store.tasks, a) && (configOk ==> HasOpenChild(store.tasks, a.id))
      ensures old(Quiet()) ==> (failed <==> old(budget) > 0 && !configOk && Current(old(store.tasks), a))
      ensures old(Quiet()) && (old(budget) == 0 || !configOk) && Current(old(store.tasks), a) ==>
        var t := old(store.tasks)[a.id];
        RowIs(store.tasks, a.id, t.(status := Deferred, claimedAt := None, attempts := t.attempts - 1))
      ensures old(Quiet()) && !Current(old(store.tasks), a) ==> store.tasks == old(store.tasks)
      ensures old(Quiet()) && old(budget) > 0 && configOk && Current(old(store.tasks), a) ==>
        var started := Started(old(store.View()), a, now);
        var after := run(started);
        if agent !in old(store.agents) then store.tasks == old(store.tasks)
        else if !Current(after.tasks, a) || lease(started).PauseInterrupted? || IsPaused(after.agents, agent)
        then store.tasks == after.tasks
        else IsSettled(after, a, result, maxAttempts, now, store.View())
    {
      hide Replay, WasIssued, DisciplinedWhere, Quiet, AwaySince, IsTruthful, IsSettled, IsAllowed;
      hide HasOpenChild, HoldsAnything, MarkedAfter, MarkedWorking;
      failed := false;
      handling := Handling(|store.log|, a, result);
      var ok := TakeBudget();
      Meanwhile(a);
      if !ok || !configOk {
        failed := GiveBack(a, !ok, now);
        return;
      }
      var working := MarkWorking(a, now, |old(store.log)|);
      if !working {
        return;
      }
      var end := Run(a, run, happened, lease, |old(store.log)|);
      failed := AfterRun(a, result, end, operatorPaused, now, |old(store.log)|);
    }

    /** The claim of one turn. */
    method TakeClaim(now: int) returns (claimed: Option<Assignment>)
      requires Valid()
      modifies this`own, this`handling, store
      ensures Valid() && old(store.log) <= store.log && old(own) <= own
      ensures claimed.None? ==> store.View() == old(store.View()) && forall o :: !Claimable(store.View(), agent, o)
      ensures claimed.Some? ==>
        && IsFirst(old(store.View()), agent, claimed.value.id) && Current(store.tasks, claimed.value)
        && Issued(claimed.value) && claimed.value.job.assignee == agent && |store.log| == |old(store.log)| + 1
    {
      hide Replay, WasIssued, DisciplinedWhere, MayAppend, Precedes;
      handling := NotHandling;
      claimed := store.Claim(agent, now);
      if claimed.Some? {
        ghost var e := Claim(claimed.value.id, agent, now);
        ClaimsAreDisciplined(store.start, old(store.log), claimed.value.id, agent, now);
        OneMoreTransaction(store.start, old(store.log), e, store.log, [], own, maxAttempts);
        own := own + [true] + [];
      }
    }

    /**
    One turn of the worker's loop: a task is claimed and given up again, unless the agent was away meanwhile,
    and nothing is made of it but what the result allows. A failed turn ends the loop.
    */
    method Turn(configOk: bool, result: RunResult, run: State -> State, ghost happened: State -> seq<Event>,
                lease: (Assignment, State) -> LeaseEnd, operatorPaused: bool, now: int)
      returns (claimed: Option<Assignment>, failed: bool)
      requires Valid()
      requires forall a: Assignment, q: State ::
        run(q) == Replay(q, happened(q)) && IsTruthful(lease(a, q), q, happened(q), a)
      modifies this`budget, this`steps, this`own, this`handling, store
      ensures Valid() && old(store.log) <= store.log && old(own) <= own
      ensures claimed.None? ==> store.View() == old(store.View()) && forall o :: !Claimable(store.View(), agent, o)
      ensures claimed.Some? ==>
        && IsFirst(old(store.View()), agent, claimed.value.id) && Issued(claimed.value)
        && (Current(store.tasks, claimed.value) ==> AwaySince(store.start, store.log, |old(store.log)|, agent))
        && forall k :: |old(store.log)| < k < |store.log| && own[k] ==>
             IsAllowed(store.log[k], claimed.value, result, maxAttempts)
    {
      hide Replay, WasIssued, DisciplinedWhere, OwnEventsAllowed, AwaySince, IsTruthful, IsFirst, Claimable, Current;
      hide IsAllowed;
      failed := false;
      claimed := TakeClaim(now);
      if claimed.Some? {
        ghost var since := |store.log|;
        var a := claimed.value;
        var end := (q: State) => lease(a, q);
        forall q: State
          ensures run(q) == Replay(q, happened(q)) && IsTruthful(end(q), q, happened(q), a)
        {
          assert IsTruthful(lease(a, q), q, happened(q), a);
        }
        failed := Process(a, configOk, result, run, happened, end, operatorPaused, now);
        if Current(store.tasks, a) {
          AwayLonger(store.start, store.log, |old(store.log)|, since, agent);
        }
      }
    }
  }
}
