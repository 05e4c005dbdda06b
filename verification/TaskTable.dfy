/**
The rows of the durable queue and the conditions its SQL statements test.

Identifiers and agent names are natural numbers: the code only compares them for equality and by
collation order, so each stands for its position in that order.
*/
module TaskTable {
  import opened Basics

  type Id = nat
  type Name = nat

  const WORK_ITEM: string := "work-item"
  const DASHBOARD_MESSAGE: string := "dashboard-message"
  const OPERATOR_PRIORITY: string := "operator-priority"
  const MAX_DIRECT_CLAIMS_BEFORE_DELEGATION := 3

  datatype Status = Pending | Claimed | Waiting | Deferred | Buffered | Backlog | Completed | Failed | Cancelled

  datatype Kind = Root | Delegation | Generator | Message

  /** `Chat` is source 'message', `Peer` is source 'agent', `Imported` any other source string. */
  datatype Source = Manual | Chat | Peer | Automatic | AutomaticBuffer | Imported

  /**
  The columns of a row that no statement of the harness updates. Only the dashboard's context reset does:
  it deletes an agent's finished rows and takes the parent off their children.
  */
  datatype Job = Job(
    parent: Option<Id>,
    origin: Option<Id>,
    kind: Kind,
    source: Source,
    creator: Name,
    assignee: Name,
    topic: string,
    body: string,
    created: int)

  datatype Task = Task(
    job: Job,
    status: Status,
    attempts: int,
    generation: int,
    claimedAt: Option<int>,
    completedAt: Option<int>,
    result: Option<string>,
    error: Option<string>)

  datatype AgentStatus = Idle | Working | Paused | Broken | BudgetExhausted

  datatype Agent = Agent(status: AgentStatus, topic: Option<string>, updated: int)

  datatype Profile = Profile(template: Name, eligible: bool)

  /** A `task_context` row. */
  datatype Note = Note(task: Id, creator: Name, topic: string, body: string, created: int)

  /** blake3 is collision free here: a hash is the free constructor over the hashed text. */
  datatype Hash = Blake3(content: string)

  /** A `release_finalizations` row: a completed root whose release is still to be published. */
  datatype Finalization = Finalization(hash: Hash, attempts: nat, nextAttempt: int, created: int)

  type Tasks = map<Id, Task>

  datatype State = State(
    tasks: Tasks,
    agents: map<Name, Agent>,
    profiles: map<Name, Profile>,
    capabilities: set<(Name, string)>,
    notes: map<Id, Note>,
    limit: nat,
    leader: Name,
    cooldown: nat,
    publishing: bool,
    finalizations: map<Id, Finalization>,
    published: map<Id, Hash>,
    clock: int)

  /** What a worker holds after claiming: a copy of the row, with the generation as fencing token. */
  datatype Assignment = Assignment(id: Id, job: Job, attempts: int, generation: int)

  function AssignmentOf(id: Id, t: Task): Assignment {
    Assignment(id, t.job, t.attempts, t.generation)
  }

  predicate IsOpen(st: Status) {
    st.Pending? || st.Claimed? || st.Waiting? || st.Deferred? || st.Buffered? || st.Backlog?
  }

  /** The statuses that make an agent or a counted root "active": open and already admitted. */
  predicate IsActive(st: Status) {
    st.Pending? || st.Claimed? || st.Waiting? || st.Deferred?
  }

  /** 'waiting' does not count as busy: the agent has handed its work on and is otherwise free. */
  predicate IsBusy(st: Status) {
    st.Pending? || st.Claimed? || st.Deferred?
  }

  predicate IsChildOf(tasks: Tasks, c: Id, p: Id) {
    c in tasks && tasks[c].job.parent == Some(p)
  }

  predicate HasOpenChild(tasks: Tasks, p: Id) {
    exists c :: c in tasks && IsChildOf(tasks, c, p) && IsOpen(tasks[c].status)
  }

  predicate HasChild(tasks: Tasks, p: Id) {
    exists c :: c in tasks && IsChildOf(tasks, c, p)
  }

  predicate AgentBusy(tasks: Tasks, agent: Name) {
    exists o :: o in tasks && tasks[o].job.assignee == agent && IsBusy(tasks[o].status)
  }

  /** `claim_is_current`: the row is still held under exactly this token. */
  predicate Current(tasks: Tasks, a: Assignment) {
    a.id in tasks && tasks[a.id].job.assignee == a.job.assignee
    && tasks[a.id].status.Claimed? && tasks[a.id].generation == a.generation
  }

  /** ORDER BY created_at,id */
  predicate Older(tasks: Tasks, a: Id, b: Id)
    requires a in tasks && b in tasks
  {
    tasks[a].job.created < tasks[b].job.created || (tasks[a].job.created == tasks[b].job.created && a < b)
  }

  predicate IsMember(s: State, agent: Name) {
    agent == s.leader
    || (agent in s.profiles && s.profiles[agent].eligible && s.profiles[agent].template == s.leader)
  }

  /** MANUAL_LEADER_WORK_ITEM_ROOT without its assignee test. */
  predicate IsManualWorkItem(j: Job) {
    j.kind.Root? && j.source.Manual? && j.parent.None? && j.topic == WORK_ITEM
  }

  /** MANUAL_LEADER_WORK_ITEM_ROOT: the roots the project capacity limit counts. */
  predicate IsCounted(s: State, j: Job) {
    IsManualWorkItem(j) && IsMember(s, j.assignee)
  }

  function ActiveRoots(s: State): set<Id> {
    set id | id in s.tasks && IsCounted(s, s.tasks[id].job) && IsActive(s.tasks[id].status)
  }

  function BacklogRoots(s: State): set<Id> {
    set id | id in s.tasks && IsCounted(s, s.tasks[id].job) && s.tasks[id].status.Backlog?
  }

  function PendingRoots(s: State): set<Id> {
    set id | id in s.tasks && IsCounted(s, s.tasks[id].job) && s.tasks[id].status.Pending?
  }

  predicate IsPublishable(t: Task) {
    t.status.Completed? && t.job.kind.Root? && !t.job.source.Chat? && t.result.Some? && SqlTrim(t.result.value) != ""
  }
}
