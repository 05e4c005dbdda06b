/**
The queue as a transition system: one event per transaction (or per row, where a transaction
admits or demotes several roots). An event whose guard fails is a transaction that matched no row,
so `Next` leaves the state alone; every sequence of events is therefore a possible run.
*/
module QueueEvents {
  import opened Basics
  import opened TaskTable
  import opened ClaimOrder
  import opened Routing

  /** The two statuses `finish_claim` is called with. */
  datatype Verdict = Succeeded | GaveUp

  datatype NewRow = NewRow(
    origin: Option<Id>, kind: Kind, source: Source, creator: Name,
    assignee: Name, topic: string, body: string, status: Status)

  datatype Event =
    // a worker and its claim
    | Claim(id: Id, agent: Name, now: int)
    | Renew(a: Assignment, now: int)
    | Complete(a: Assignment, text: string, now: int)
    | Finish(a: Assignment, verdict: Verdict, detail: Option<string>, now: int)
    | Retry(a: Assignment, detail: Option<string>)
    | RetryUnstarted(a: Assignment, detail: Option<string>)
    | DeferUnstarted(a: Assignment)
    | AwaitChildren(a: Assignment)
    // new rows
    | Delegate(agent: Name, requested: Name, need: Option<string>, parent: Id, child: Id,
               route: Route, topic: string, body: string, now: int)
    | Insert(id: Id, requested: Name, row: NewRow, now: int)
    | InsertAutomatic(id: Id, origin: Id, creator: Name, assignee: Name, topic: string, body: string,
                      buffered: bool, now: int)
    | PeerNote(note: Id, task: Id, creator: Name, topic: string, body: string, now: int)
    // admission
    | PromoteBuffered(id: Id)
    | SetPolicy(limit: nat, leader: Name)
    | ReleaseUncounted
    | AdmitRoot(id: Id)
    | DemoteRoot(id: Id)
    // the recovery sweep
    | FailOrphans(roster: set<Name>)
    | ExpireClaims(before: int)
    | ResumeDeferred
    | RestoreDelegations
    | WakeParents
    // the surroundings
    | AgentsChange(agents: map<Name, Agent>)
    | RosterChange(profiles: map<Name, Profile>, capabilities: set<(Name, string)>)
    | SetCooldown(seconds: nat)
    | SetPublishing(enabled: bool)
    | Backfill(id: Id, now: int)
    | Postpone(id: Id, until: int)
    | Acknowledge(id: Id, hash: Hash)
    | OperatorHold(ids: set<Id>, deferred: bool)
    | CancelTree(ids: set<Id>, now: int)

  /** A waiting row goes back to pending once none of its children is open. */
  function Wake(tasks: Tasks, p: Option<Id>): Tasks {
    if p.Some? && p.value in tasks && tasks[p.value].status.Waiting? && !HasOpenChild(tasks, p.value)
    then tasks[p.value := tasks[p.value].(status := Pending, claimedAt := None)]
    else tasks
  }

  function FreshRow(parent: Option<Id>, row: NewRow, now: int): Task {
    Task(Job(parent, row.origin, row.kind, row.source, row.creator, row.assignee, row.topic, row.body, now),
         row.status, 0, 0, None, None, None, None)
  }

  function DelegationRow(agent: Name, assignee: Name, topic: string, body: string, status: Status): NewRow {
    NewRow(None, Delegation, Peer, agent, assignee, topic, body, status)
  }

  predicate IsLeaderWorkItem(s: State, kind: Kind, source: Source, topic: string, requested: Name) {
    kind.Root? && source.Manual? && topic == WORK_ITEM && requested == s.leader
  }

  function AdmissionStatus(s: State): Status {
    if s.limit > 0 && |ActiveRoots(s)| >= s.limit then Backlog else Pending
  }

  predicate BlocksAutomatic(s: State, t: Task, topic: string, body: string, now: int) {
    && t.job.kind.Root? && t.job.topic == topic && t.job.body == body
    && (IsOpen(t.status)
        || (t.job.source.Automatic? && (t.status.Failed? || t.status.Cancelled?)
            && t.completedAt.Some? && t.completedAt.value > now - s.cooldown))
  }

  predicate BufferedDelegation(t: Task, agent: Name) {
    t.job.assignee == agent && t.job.kind.Delegation? && t.job.source.Peer? && t.status.Buffered?
  }

  /** The row `promote_buffered_for_agent` moves. */
  ghost predicate IsNextBuffered(tasks: Tasks, agent: Name, id: Id) {
    && id in tasks && BufferedDelegation(tasks[id], agent) && !AgentBusy(tasks, agent)
    && forall o :: o in tasks && BufferedDelegation(tasks[o], agent) && o != id ==> Older(tasks, id, o)
  }

  ghost predicate IsOldest(tasks: Tasks, ids: set<Id>, id: Id)
    requires ids <= tasks.Keys
  {
    id in ids && forall o :: o in ids && o != id ==> Older(tasks, id, o)
  }

  ghost predicate IsNewest(tasks: Tasks, ids: set<Id>, id: Id)
    requires ids <= tasks.Keys
  {
    id in ids && forall o :: o in ids && o != id ==> Older(tasks, o, id)
  }

  predicate DueForRelease(s: State, id: Id) {
    id in s.tasks && IsPublishable(s.tasks[id]) && id !in s.published && id !in s.finalizations
  }

  predicate UsesClaim(e: Event) {
    e.Claim? || e.Renew? || e.Complete? || e.Finish? || e.Retry? || e.RetryUnstarted? || e.DeferUnstarted?
    || e.AwaitChildren?
  }

  predicate AddsRow(e: Event) {
    e.Delegate? || e.Insert? || e.InsertAutomatic?
  }

  predicate EditsOneRow(e: Event) {
    e.PeerNote? || e.PromoteBuffered? || e.AdmitRoot? || e.DemoteRoot?
  }

  predicate Sweeps(e: Event) {
    e.ReleaseUncounted? || e.FailOrphans? || e.ExpireClaims? || e.ResumeDeferred? || e.RestoreDelegations?
    || e.WakeParents? || e.OperatorHold? || e.CancelTree?
  }

  /** What refilling freed slots adds to the history. */
  predicate Refills(e: Event) {
    e.AdmitRoot? || e.PromoteBuffered?
  }

  predicate OnlyRefills(from: nat, log: seq<Event>) {
    forall k :: from <= k < |log| ==> Refills(log[k])
  }

  /** Of what `log` holds from a position on, what is marked as one's own refills freed slots. */
  predicate OwnRefills(from: nat, log: seq<Event>, mine: seq<bool>) {
    from + |mine| == |log| && forall k :: from <= k < |log| && mine[k - from] ==> Refills(log[k])
  }

  ghost predicate ClaimEnabled(s: State, e: Event)
    requires UsesClaim(e)
  {
    match e
    case Claim(id, agent, _) => IsFirst(s, agent, id)
    case Renew(a, _) => Current(s.tasks, a)
    case Complete(a, _, _) => Current(s.tasks, a) && !HasOpenChild(s.tasks, a.id)
    case Finish(a, _, _, _) => Current(s.tasks, a)
    case Retry(a, _) => Current(s.tasks, a)
    case RetryUnstarted(a, _) => Current(s.tasks, a) && s.tasks[a.id].attempts > 0
    case DeferUnstarted(a) => Current(s.tasks, a) && s.tasks[a.id].attempts > 0
    case AwaitChildren(a) =>
      && a.id in s.tasks && s.tasks[a.id].job.assignee == a.job.assignee && s.tasks[a.id].generation == a.generation
      && (s.tasks[a.id].status.Claimed? || s.tasks[a.id].status.Waiting?)
  }

  ghost predicate InsertEnabled(s: State, e: Event)
    requires AddsRow(e)
  {
    match e
    case Delegate(agent, requested, need, parent, child, route, topic, body, now) =>
      && IsDelegationParent(s, agent, parent) && !s.tasks[parent].job.kind.Generator?
      && route.Routed? && IsRoute(s, requested, need, route)
      && (route.viaTemplate ==> forall c :: !SameTopicChild(s.tasks, parent, topic, c))
      && (forall c :: !SameWorkChild(s.tasks, parent, route.agent, topic, c))
      && child !in s.tasks && now > s.clock
    case Insert(id, requested, row, now) =>
      && id !in s.tasks && now > s.clock && !row.kind.Delegation?
      && (if IsLeaderWorkItem(s, row.kind, row.source, row.topic, requested)
          then (exists via :: IsRoute(s, s.leader, None, Routed(row.assignee, via))) && row.status == AdmissionStatus(s)
          else row.assignee == requested && row.status.Pending?)
    case InsertAutomatic(id, origin, _, _, topic, body, _, now) =>
      && id !in s.tasks && now > s.clock
      && (forall o :: o in s.tasks && s.tasks[o].job.kind.Root? ==> s.tasks[o].job.origin != Some(origin))
      && (forall o :: o in s.tasks ==> !BlocksAutomatic(s, s.tasks[o], topic, body, now))
  }

  ghost predicate EditEnabled(s: State, e: Event)
    requires EditsOneRow(e)
  {
    match e
    case PeerNote(note, task, _, _, _, _) => note !in s.notes && task in s.tasks
    case PromoteBuffered(id) => id in s.tasks && IsNextBuffered(s.tasks, s.tasks[id].job.assignee, id)
    case AdmitRoot(id) => IsOldest(s.tasks, BacklogRoots(s), id) && (s.limit == 0 || |ActiveRoots(s)| < s.limit)
    case DemoteRoot(id) => IsNewest(s.tasks, PendingRoots(s), id) && 0 < s.limit < |ActiveRoots(s)|
  }

  ghost predicate OtherEnabled(s: State, e: Event) {
    match e
    case FailOrphans(roster) => roster != {}
    case Backfill(id, _) => id in s.tasks && IsPublishable(s.tasks[id]) && id !in s.finalizations
    case Postpone(id, _) => id in s.finalizations
    case CancelTree(ids, _) =>
      forall c :: c in s.tasks && s.tasks[c].job.parent.Some? && s.tasks[c].job.parent.value in ids ==> c in ids
    case _ => true
  }

  ghost predicate Enabled(s: State, e: Event) {
    if UsesClaim(e) then ClaimEnabled(s, e)
    else if AddsRow(e) then InsertEnabled(s, e)
    else if EditsOneRow(e) then EditEnabled(s, e)
    else OtherEnabled(s, e)
  }

  /** One row taken out of 'claimed' without a verdict. */
  function Released(t: Task, status: Status, refund: bool): Task {
    t.(status := status, claimedAt := None, attempts := if refund && t.attempts > 0 then t.attempts - 1 else t.attempts)
  }

  function VerdictStatus(verdict: Verdict): Status {
    if verdict.Succeeded? then Completed else Failed
  }

  /** One row given its verdict. */
  function Done(t: Task, status: Status, result: Option<string>, error: Option<string>, now: int): Task {
    t.(status := status, result := result, error := error, completedAt := Some(now), claimedAt := None)
  }

  function Enqueued(s: State, a: Assignment, text: string, now: int): map<Id, Finalization> {
    if s.publishing && a.job.kind.Root? && !a.job.source.Chat? && Trim(text) != ""
       && a.id !in s.published && a.id !in s.finalizations
    then s.finalizations[a.id := Finalization(Blake3(Trim(text)), 0, now, now)]
    else s.finalizations
  }

  const ORPHANED: string := "assignee is no longer a configured agent"

  predicate IsOrphan(t: Task, roster: set<Name>) {
    t.job.kind.Delegation? && (t.status.Pending? || t.status.Buffered?) && t.job.assignee !in roster
  }

  function PutIdle(agents: map<Name, Agent>, tasks: Tasks, agent: Name, now: int): map<Name, Agent> {
    if agent in agents && !agents[agent].status.Paused?
       && !(exists o :: o in tasks && tasks[o].job.assignee == agent && tasks[o].status.Claimed?)
    then agents[agent := Agent(Idle, None, now)]
    else agents
  }

  /** One row of a bulk UPDATE; its WHERE clause is the test of each case. */
  function Swept(s: State, e: Event, i: Id): Task
    requires i in s.tasks
  {
    var t := s.tasks[i];
    match e
    case ReleaseUncounted =>
      if IsManualWorkItem(t.job) && t.status.Backlog? && !IsCounted(s, t.job) then t.(status := Pending) else t
    case FailOrphans(roster) =>
      if IsOrphan(t, roster) then t.(status := Failed, error := Some(ORPHANED)) else t
    case ExpireClaims(before) =>
      if t.status.Claimed? && t.claimedAt.Some? && t.claimedAt.value < before
      then t.(status := Pending, claimedAt := None, generation := t.generation + 1) else t
    case ResumeDeferred =>
      if t.status.Deferred? then t.(status := Pending) else t
    case RestoreDelegations =>
      if t.job.kind.Delegation? && t.job.source.Peer? && t.status.Backlog? then t.(status := Pending) else t
    case WakeParents =>
      if t.status.Waiting? && !HasOpenChild(s.tasks, i) then t.(status := Pending, claimedAt := None) else t
    case OperatorHold(ids, deferred) =>
      if i in ids && t.status.Claimed? then Released(t, if deferred then Deferred else Pending, false) else t
    case CancelTree(ids, now) =>
      if i in ids && IsOpen(t.status) then t.(status := Cancelled, claimedAt := None, completedAt := Some(now)) else t
    case _ => t
  }

  /** What only configuration events change. */
  predicate SamePolicy(s: State, n: State) {
    n.limit == s.limit && n.leader == s.leader && n.profiles == s.profiles
  }

  predicate SameOutbox(s: State, n: State) {
    n.finalizations == s.finalizations && n.published == s.published
  }

  predicate TouchesOutbox(e: Event) {
    e.Backfill? || e.Postpone? || e.Acknowledge?
  }

  ghost function ClaimEffect(s: State, e: Event): (n: State)
    requires UsesClaim(e) && ClaimEnabled(s, e)
    ensures n.tasks.Keys == s.tasks.Keys && n.notes == s.notes && SamePolicy(s, n)
    ensures !e.Complete? ==> SameOutbox(s, n)
  {
    match e
    case Claim(id, _, now) =>
      var t := s.tasks[id];
      s.(tasks := s.tasks[id := t.(status := Claimed, claimedAt := Some(now), attempts := t.attempts + 1,
                                   generation := t.generation + 1, error := None)])
    case Renew(a, now) =>
      s.(tasks := s.tasks[a.id := s.tasks[a.id].(claimedAt := Some(now))],
         agents := if a.job.assignee !in s.agents then s.agents
                   else s.agents[a.job.assignee := s.agents[a.job.assignee].(updated := now)])
    case Complete(a, text, now) =>
      var t := s.tasks[a.id];
      s.(tasks := Wake(s.tasks[a.id := Done(t, Completed, Some(Trim(text)), t.error, now)], a.job.parent),
         finalizations := Enqueued(s, a, text, now))
    case Finish(a, verdict, detail, now) =>
      var t := s.tasks[a.id];
      var tasks := s.tasks[a.id := Done(t, VerdictStatus(verdict), t.result, detail, now)];
      s.(tasks := if verdict.GaveUp? then Wake(tasks, t.job.parent) else tasks)
    case Retry(a, detail) =>
      s.(tasks := s.tasks[a.id := Released(s.tasks[a.id], Pending, false).(error := detail)])
    case RetryUnstarted(a, detail) =>
      s.(tasks := s.tasks[a.id := Released(s.tasks[a.id], Pending, true).(error := detail)])
    case DeferUnstarted(a) =>
      s.(tasks := s.tasks[a.id := Released(s.tasks[a.id], Deferred, true)])
    case AwaitChildren(a) =>
      s.(tasks := s.tasks[a.id := Released(s.tasks[a.id], Waiting, s.tasks[a.id].status.Claimed?)])
  }

  function NewRowId(e: Event): Id
    requires AddsRow(e)
  {
    if e.Delegate? then e.child else e.id
  }

  ghost function InsertEffect(s: State, e: Event): (n: State)
    requires AddsRow(e) && InsertEnabled(s, e)
    ensures n.tasks.Keys == s.tasks.Keys + {NewRowId(e)} && n.notes == s.notes && SamePolicy(s, n) && SameOutbox(s, n)
  {
    match e
    case Delegate(agent, _, _, parent, child, route, topic, body, now) =>
      var status := if MustBuffer(s, route.agent) then Buffered else Pending;
      var row := FreshRow(Some(parent), DelegationRow(agent, route.agent, topic, body, status), now);
      var t := s.tasks[parent];
      s.(tasks := s.tasks[child := row][parent := Released(t, Waiting, t.status.Claimed?)], clock := now)
    case Insert(id, _, row, now) =>
      s.(tasks := s.tasks[id := FreshRow(None, row, now)], clock := now)
    case InsertAutomatic(id, origin, creator, assignee, topic, body, buffered, now) =>
      var status := if buffered then Buffered else Pending;
      var row := NewRow(Some(origin), Root, Automatic, creator, assignee, topic, body, status);
      s.(tasks := s.tasks[id := FreshRow(None, row, now)], clock := now)
  }

  ghost function EditEffect(s: State, e: Event): (n: State)
    requires EditsOneRow(e) && EditEnabled(s, e)
    ensures n.tasks.Keys == s.tasks.Keys && s.notes.Keys <= n.notes.Keys && SamePolicy(s, n) && SameOutbox(s, n)
  {
    match e
    case PeerNote(note, task, creator, topic, body, now) =>
      var t := s.tasks[task];
      var noted := s.(notes := s.notes[note := Note(task, creator, topic, body, now)]);
      if t.status.Claimed? && t.attempts > 0 then
        var tasks := s.tasks[task := Released(t, Pending, true).(generation := t.generation + 1)];
        noted.(tasks := tasks, agents := PutIdle(s.agents, tasks, t.job.assignee, now))
      else noted
    case PromoteBuffered(id) =>
      s.(tasks := s.tasks[id := s.tasks[id].(status := Pending)])
    case AdmitRoot(id) => s.(tasks := s.tasks[id := s.tasks[id].(status := Pending)])
    case DemoteRoot(id) => s.(tasks := s.tasks[id := s.tasks[id].(status := Backlog)])
  }

  function SweepEffect(s: State, e: Event): (n: State)
    ensures n.tasks.Keys == s.tasks.Keys && n.notes == s.notes && SamePolicy(s, n) && SameOutbox(s, n)
  {
    s.(tasks := map i | i in s.tasks :: Swept(s, e, i))
  }

  ghost function SettingEffect(s: State, e: Event): (n: State)
    requires !UsesClaim(e) && !AddsRow(e) && !EditsOneRow(e) && OtherEnabled(s, e)
    ensures n.tasks == s.tasks && n.notes == s.notes && n.clock == s.clock
    ensures !e.SetPolicy? && !e.RosterChange? ==> SamePolicy(s, n)
    ensures !TouchesOutbox(e) ==> SameOutbox(s, n)
  {
    match e
    case SetPolicy(limit, leader) => s.(limit := limit, leader := leader)
    case AgentsChange(agents) => s.(agents := agents)
    case RosterChange(profiles, capabilities) => s.(profiles := profiles, capabilities := capabilities)
    case SetCooldown(seconds) => s.(cooldown := seconds)
    case SetPublishing(enabled) => s.(publishing := enabled)
    case Backfill(id, now) =>
      s.(finalizations := s.finalizations[id := Finalization(Blake3(s.tasks[id].result.value), 0, now, now)])
    case Postpone(id, until) =>
      var f := s.finalizations[id];
      s.(finalizations := s.finalizations[id := f.(attempts := f.attempts + 1, nextAttempt := until)])
    case Acknowledge(id, hash) =>
      s.(published := if id in s.published then s.published else s.published[id := hash],
         finalizations := if id in s.finalizations && s.finalizations[id].hash == hash then s.finalizations - {id}
                          else s.finalizations)
    case _ => s
  }

  ghost function Effect(s: State, e: Event): State
    requires Enabled(s, e)
  {
    if UsesClaim(e) then ClaimEffect(s, e)
    else if AddsRow(e) then InsertEffect(s, e)
    else if EditsOneRow(e) then EditEffect(s, e)
    else if Sweeps(e) then SweepEffect(s, e)
    else SettingEffect(s, e)
  }

  ghost function Next(s: State, e: Event): State {
    if Enabled(s, e) then Effect(s, e) else s
  }

  /** The effects of single events, for proofs that need not see the whole of `Next`. */
  lemma SweepIsNext(s: State, e: Event)
    requires Sweeps(e) && Enabled(s, e)
    ensures Next(s, e) == SweepEffect(s, e)
  {
    hide ClaimEnabled, InsertEnabled, EditEnabled, OtherEnabled;
    hide ClaimEffect, InsertEffect, EditEffect, SweepEffect, SettingEffect;
  }

  lemma BackfillEvent(s: State, id: Id, now: int)
    requires id in s.tasks && IsPublishable(s.tasks[id]) && id !in s.finalizations
    ensures Next(s, Backfill(id, now)) ==
      s.(finalizations := s.finalizations[id := Finalization(Blake3(s.tasks[id].result.value), 0, now, now)])
  {
    hide ClaimEnabled, InsertEnabled, EditEnabled, ClaimEffect, InsertEffect, EditEffect, SweepEffect;
  }

  lemma PostponementEvent(s: State, id: Id, until: int)
    ensures Next(s, Postpone(id, until)) ==
      if id !in s.finalizations then s
      else s.(finalizations := s.finalizations[id :=
                s.finalizations[id].(attempts := s.finalizations[id].attempts + 1, nextAttempt := until)])
  {
    hide ClaimEnabled, InsertEnabled, EditEnabled, ClaimEffect, InsertEffect, EditEffect, SweepEffect;
  }

  lemma AcknowledgementEvent(s: State, id: Id, hash: Hash)
    ensures Next(s, Acknowledge(id, hash)) ==
      s.(published := if id in s.published then s.published else s.published[id := hash],
         finalizations := if id in s.finalizations && s.finalizations[id].hash == hash then s.finalizations - {id}
                          else s.finalizations)
  {
    hide ClaimEnabled, InsertEnabled, EditEnabled, ClaimEffect, InsertEffect, EditEffect, SweepEffect;
  }

  ghost function Replay(s: State, log: seq<Event>): State {
    if log == [] then s else Next(Replay(s, log[..|log| - 1]), log[|log| - 1])
  }

  /** The state before the event at position `i`. */
  ghost function At(s: State, log: seq<Event>, i: nat): State
    requires i <= |log|
  {
    Replay(s, log[..i])
  }

  lemma StepAt(s: State, log: seq<Event>, i: nat)
    requires i < |log|
    ensures At(s, log, i + 1) == Next(At(s, log, i), log[i])
  {
    assert log[..i + 1][..i] == log[..i];
  }

  lemma ReplayOneMore(s: State, log: seq<Event>, e: Event)
    ensures Replay(s, log + [e]) == Next(Replay(s, log), e)
  {
  }

  lemma {:induction false} ReplayOnward(s: State, log: seq<Event>, more: seq<Event>)
    ensures Replay(s, log + more) == Replay(Replay(s, log), more)
  {
    if more == [] {
      assert log + more == log;
    } else {
      var prefix := more[..|more| - 1];
      assert log + more == log + prefix + [more[|more| - 1]];
      ReplayOnward(s, log, prefix);
      ReplayOneMore(s, log + prefix, more[|more| - 1]);
    }
  }

  /** The queue before its first task. */
  ghost predicate IsStart(s: State) {
    s.tasks == map[] && s.notes == map[] && s.finalizations == map[] && s.published == map[]
  }
}
