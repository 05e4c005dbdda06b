/** The agent rows a worker keeps up to date around a claim. */
module AgentStates {
  import opened Basics
  import opened TaskTable
  import opened QueueEvents
  import opened Store

  predicate HoldsAnything(tasks: Tasks, agent: Name) {
    exists o :: o in tasks && tasks[o].job.assignee == agent && tasks[o].status.Claimed?
  }

  predicate GenerationIsCurrent(tasks: Tasks, a: Assignment) {
    a.id in tasks && tasks[a.id].generation == a.generation
  }

  predicate IsPaused(agents: map<Name, Agent>, agent: Name) {
    agent in agents && agents[agent].status.Paused?
  }

  /** The agent table after `set_working_for_claim`. */
  function MarkedWorking(s: State, a: Assignment, now: int): map<Name, Agent> {
    if a.job.assignee in s.agents && Current(s.tasks, a)
    then s.agents[a.job.assignee := Agent(Working, Some(a.job.topic), now)]
    else s.agents
  }

  /** The agent table after `set_state_after_claim`: only an agent that holds nothing is touched. */
  function MarkedAfter(s: State, a: Assignment, status: AgentStatus, now: int): map<Name, Agent> {
    if a.job.assignee in s.agents && GenerationIsCurrent(s.tasks, a) && !HoldsAnything(s.tasks, a.job.assignee)
    then s.agents[a.job.assignee := Agent(status, None, now)]
    else s.agents
  }

  lemma AgentsChangeOnlyAgents(s: State, agents: map<Name, Agent>)
    ensures Next(s, AgentsChange(agents)) == s.(agents := agents)
  {
  }

  method SetWorkingForClaim(store: Store, a: Assignment, now: int) returns (r: ClaimMutation)
    requires store.Valid()
    modifies store
    ensures store.Valid() && store.log == old(store.log) + [AgentsChange(store.agents)]
    ensures store.View() == old(store.View()).(agents := MarkedWorking(old(store.View()), a, now))
    ensures store.agents ==
      var g := a.job.assignee;
      if r.Applied? then old(store.agents)[g := Agent(Working, Some(a.job.topic), now)] else old(store.agents)
    ensures r.Applied? <==> a.job.assignee in old(store.agents) && Current(old(store.tasks), a)
  {
    hide Next;
    r := Stale;
    if a.job.assignee in store.agents && Current(store.tasks, a) {
      store.agents := store.agents[a.job.assignee := Agent(Working, Some(a.job.topic), now)];
      r := Applied;
    }
    AgentsChangeOnlyAgents(old(store.View()), store.agents);
    store.Commit(AgentsChange(store.agents));
  }

  method SetStateAfterClaim(store: Store, a: Assignment, status: AgentStatus, now: int) returns (r: ClaimMutation)
    requires store.Valid()
    modifies store
    ensures store.Valid() && store.log == old(store.log) + [AgentsChange(store.agents)]
    ensures store.View() == old(store.View()).(agents := MarkedAfter(old(store.View()), a, status, now))
    ensures r.Applied? <==>
      && a.job.assignee in old(store.agents)
      && a.id in old(store.tasks) && old(store.tasks)[a.id].generation == a.generation
      && forall o :: o in old(store.tasks) && old(store.tasks)[o].job.assignee == a.job.assignee ==>
           !old(store.tasks)[o].status.Claimed?
    ensures store.agents ==
      if r.Applied? then old(store.agents)[a.job.assignee := Agent(status, None, now)] else old(store.agents)
    ensures r.Applied? <==>
      && a.job.assignee in old(store.agents) && GenerationIsCurrent(old(store.tasks), a)
      && !HoldsAnything(old(store.tasks), a.job.assignee)
  {
    hide Next;
    r := Stale;
    if a.job.assignee in store.agents && GenerationIsCurrent(store.tasks, a)
       && !HoldsAnything(store.tasks, a.job.assignee) {
      store.agents := store.agents[a.job.assignee := Agent(status, None, now)];
      r := Applied;
    }
    AgentsChangeOnlyAgents(old(store.View()), store.agents);
    store.Commit(AgentsChange(store.agents));
  }
}
