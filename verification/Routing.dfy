/**
Which agent a delegation or a new work item goes to, and which assignment a delegation hangs under.
*/
module Routing {
  import opened Basics
  import opened TaskTable

  datatype RouteError = AssigneePaused | LacksCapability | NoEligibleReplica

  datatype Route = Routed(agent: Name, viaTemplate: bool) | Unroutable(why: RouteError)

  predicate HasTemplate(s: State, requested: Name) {
    exists p :: p in s.profiles && s.profiles[p].template == requested && s.profiles[p].eligible
  }

  predicate Meets(s: State, p: Name, need: Option<string>) {
    need.None? || (p, need.value) in s.capabilities
  }

  predicate Compatible(s: State, requested: Name, need: Option<string>, p: Name) {
    p in s.profiles && s.profiles[p].template == requested && s.profiles[p].eligible && Meets(s, p, need)
  }

  predicate Candidate(s: State, requested: Name, need: Option<string>, p: Name) {
    Compatible(s, requested, need, p) && p in s.agents && !s.agents[p].status.Paused?
  }

  predicate IdleAndFree(s: State, p: Name) {
    && p in s.agents && s.agents[p].status.Idle?
    && forall o :: o in s.tasks && s.tasks[o].job.assignee == p ==> !IsActive(s.tasks[o].status)
  }

  /** Open rows of an agent other than backlogged roots. */
  function Load(s: State, p: Name): set<Id> {
    set o | o in s.tasks && s.tasks[o].job.assignee == p
            && (IsActive(s.tasks[o].status) || s.tasks[o].status.Buffered?)
  }

  /** ORDER BY idle and free first, load, agent_id */
  predicate Preferred(s: State, a: Name, b: Name) {
    if IdleAndFree(s, a) != IdleAndFree(s, b) then IdleAndFree(s, a)
    else if |Load(s, a)| != |Load(s, b)| then |Load(s, a)| < |Load(s, b)|
    else a < b
  }

  /** The outcome `resolve_delegation_target` must produce. */
  ghost predicate IsRoute(s: State, requested: Name, need: Option<string>, r: Route) {
    if !HasTemplate(s, requested) && requested in s.agents then
      if s.agents[requested].status.Paused? then r == Unroutable(AssigneePaused)
      else if !Meets(s, requested, need) then r == Unroutable(LacksCapability)
      else r == Routed(requested, false)
    else if r.Routed? then
      && r.viaTemplate
      && Candidate(s, requested, need, r.agent)
      && forall p :: Candidate(s, requested, need, p) && p != r.agent ==> Preferred(s, r.agent, p)
    else
      && r.why.NoEligibleReplica?
      && forall p :: !Candidate(s, requested, need, p)
  }

  lemma RouteIsUnique(s: State, requested: Name, need: Option<string>, r: Route, q: Route)
    requires IsRoute(s, requested, need, r) && IsRoute(s, requested, need, q)
    ensures r == q
  {
  }

  /** The busy test of `delegate_current_compatible`. */
  predicate MustBuffer(s: State, p: Name) {
    AgentBusy(s.tasks, p) || (p in s.agents && !s.agents[p].status.Idle?)
  }

  /**
  Routing and buffering agree: the chosen replica is unpaused, eligible and able, and work sent
  through a template is only buffered when no able replica is idle with nothing active.
  */
  lemma RoutedWorkBuffersOnlyUnderLoad(s: State, requested: Name, need: Option<string>, chosen: Name)
    requires IsRoute(s, requested, need, Routed(chosen, true))
    ensures Candidate(s, requested, need, chosen)
    ensures MustBuffer(s, chosen) ==> forall p :: Candidate(s, requested, need, p) ==> !IdleAndFree(s, p)
  {
  }

  predicate HeldBy(tasks: Tasks, agent: Name, id: Id) {
    id in tasks && tasks[id].job.assignee == agent && tasks[id].status.Claimed?
  }

  /** ORDER BY claimed_at DESC: SQL orders a missing time last. */
  predicate ClaimedNoEarlier(a: Option<int>, b: Option<int>) {
    b.None? || (a.Some? && a.value >= b.value)
  }

  /** `claimed_assignment`: the most recently claimed row the agent holds. */
  ghost predicate IsLatestClaim(tasks: Tasks, agent: Name, id: Id) {
    && HeldBy(tasks, agent, id)
    && forall o :: HeldBy(tasks, agent, o) ==> ClaimedNoEarlier(tasks[id].claimedAt, tasks[o].claimedAt)
  }

  /** Rows `active_coordination_assignment` considers: handed-on work of an agent still in its turn. */
  predicate Coordinates(s: State, agent: Name, id: Id) {
    && id in s.tasks && s.tasks[id].job.assignee == agent
    && (s.tasks[id].status.Waiting? || s.tasks[id].status.Pending?)
    && agent in s.agents && s.agents[agent].status.Working?
    && HasChild(s.tasks, id)
  }

  /** `t` is MAX(child.created_at) over the children of `p`. */
  ghost predicate IsNewestChildTime(tasks: Tasks, p: Id, t: int) {
    && (exists c :: IsChildOf(tasks, c, p) && tasks[c].job.created == t)
    && (forall c :: IsChildOf(tasks, c, p) ==> tasks[c].job.created <= t)
  }

  ghost predicate FresherCoordination(tasks: Tasks, a: Id, b: Id)
    requires a in tasks && b in tasks
  {
    forall x, y | IsNewestChildTime(tasks, a, x) && IsNewestChildTime(tasks, b, y) ::
      x > y || (x == y && tasks[a].job.created >= tasks[b].job.created)
  }

  ghost predicate IsCoordination(s: State, agent: Name, id: Id) {
    && Coordinates(s, agent, id)
    && forall o :: Coordinates(s, agent, o) ==> FresherCoordination(s.tasks, id, o)
  }

  /** `current_assignment`, falling back to `active_coordination_assignment`. */
  ghost predicate IsDelegationParent(s: State, agent: Name, id: Id) {
    if exists o :: HeldBy(s.tasks, agent, o) then IsLatestClaim(s.tasks, agent, id)
    else IsCoordination(s, agent, id)
  }

  predicate SameTopicChild(tasks: Tasks, parent: Id, topic: string, c: Id) {
    IsChildOf(tasks, c, parent) && NormalTopic(tasks[c].job.topic) == NormalTopic(topic)
  }

  predicate SameWorkChild(tasks: Tasks, parent: Id, assignee: Name, topic: string, c: Id) {
    SameTopicChild(tasks, parent, topic, c) && tasks[c].job.assignee == assignee
  }
}
