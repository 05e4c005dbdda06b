/** The decision table of `delegate_current_compatible`, and what repeating a call does. */
module QueueDelegation {
  import opened Basics
  import opened TaskTable
  import opened Routing
  import opened QueueEvents
  import opened QueueRuns
  import opened QueueOrigins

  datatype Refusal = NoAssignment | GeneratorCannotDelegate | NoRoute(why: RouteError)
    | ConflictingTopic | EquivalentFinished | IdenticalFinished

  datatype Delegating = Delegated(id: Id) | Existing(id: Id) | Refused(why: Refusal)

  /** Everything a `task_delegate` call says. */
  datatype Request = Request(agent: Name, requested: Name, need: Option<string>, topic: string, body: string)

  /** The blake3 key of (parent, assignee, topic, body). */
  type KeyFunction = (Id, Name, string, string) -> Id

  /** ORDER BY created_at LIMIT 1 among the children on a topic. */
  ghost predicate IsFirstOnTopic(tasks: Tasks, parent: Id, topic: string, c: Id) {
    SameTopicChild(tasks, parent, topic, c)
    && forall o :: SameTopicChild(tasks, parent, topic, o) ==> tasks[c].job.created <= tasks[o].job.created
  }

  ghost predicate IsFirstSameWork(tasks: Tasks, parent: Id, assignee: Name, topic: string, c: Id) {
    SameWorkChild(tasks, parent, assignee, topic, c)
    && forall o :: SameWorkChild(tasks, parent, assignee, topic, o) ==> tasks[c].job.created <= tasks[o].job.created
  }

  ghost predicate DecidesOnRoute(s: State, key: KeyFunction, q: Request, parent: Id, route: Route, r: Delegating)
    requires route.Routed?
  {
    if route.viaTemplate && exists c :: SameTopicChild(s.tasks, parent, q.topic, c) then
      exists c :: IsFirstOnTopic(s.tasks, parent, q.topic, c) && r ==
        if s.tasks[c].job.body == q.body && IsOpen(s.tasks[c].status)
           && Compatible(s, q.requested, q.need, s.tasks[c].job.assignee)
        then Existing(c) else Refused(ConflictingTopic)
    else if exists c :: SameWorkChild(s.tasks, parent, route.agent, q.topic, c) then
      exists c :: IsFirstSameWork(s.tasks, parent, route.agent, q.topic, c) && r ==
        if IsOpen(s.tasks[c].status) then Existing(c) else Refused(EquivalentFinished)
    else
      var id := key(parent, route.agent, q.topic, q.body);
      r == if id !in s.tasks then Delegated(id)
           else if IsOpen(s.tasks[id].status) then Existing(id)
           else Refused(IdenticalFinished)
  }

  ghost predicate DecidesVia(s: State, key: KeyFunction, q: Request, parent: Id, route: Route, r: Delegating) {
    if route.Unroutable? then r == Refused(NoRoute(route.why)) else DecidesOnRoute(s, key, q, parent, route, r)
  }

  /** The decision once the parent assignment is known. */
  ghost predicate DecidesUnder(s: State, key: KeyFunction, q: Request, parent: Id, r: Delegating)
    requires parent in s.tasks
  {
    if s.tasks[parent].job.kind.Generator? then r == Refused(GeneratorCannotDelegate)
    else exists route :: IsRoute(s, q.requested, q.need, route) && DecidesVia(s, key, q, parent, route, r)
  }

  /** A child of one of the agent's own open assignments that carries exactly this request. */
  predicate SameRequest(s: State, q: Request, c: Id) {
    && c in s.tasks && s.tasks[c].job.parent.Some? && s.tasks[c].job.parent.value in s.tasks
    && s.tasks[c].job.creator == q.agent && s.tasks[c].job.assignee == q.requested
    && s.tasks[c].job.topic == q.topic && s.tasks[c].job.body == q.body
    && var p := s.tasks[s.tasks[c].job.parent.value];
       p.job.assignee == q.agent && (p.status.Waiting? || p.status.Pending?)
  }

  /** The decision for an agent that holds no assignment and coordinates none. */
  ghost predicate DecidesWithoutParent(s: State, q: Request, r: Delegating) {
    if exists c :: SameRequest(s, q, c) then
      exists c :: SameRequest(s, q, c)
        && (forall o :: SameRequest(s, q, o) ==> s.tasks[o].job.created <= s.tasks[c].job.created)
        && r == if IsOpen(s.tasks[c].status) then Existing(c) else Refused(IdenticalFinished)
    else r == Refused(NoAssignment)
  }

  ghost predicate Decides(s: State, key: KeyFunction, q: Request, r: Delegating) {
    if exists p :: IsDelegationParent(s, q.agent, p)
    then exists p :: IsDelegationParent(s, q.agent, p) && DecidesUnder(s, key, q, p, r)
    else DecidesWithoutParent(s, q, r)
  }

  /** Following the route leads back to the child: by topic through a template, by name otherwise. */
  ghost predicate RouteReaches(s: State, q: Request, parent: Id, child: Id, route: Route)
    requires child in s.tasks
  {
    && route.Routed?
    && if route.viaTemplate then
         && Compatible(s, q.requested, q.need, s.tasks[child].job.assignee)
         && LeadsTopic(s.tasks, parent, q.topic, child)
       else route.agent == s.tasks[child].job.assignee
  }

  /**
  Repeating a call under the same parent while its child is open answers with that child: by topic
  if the call goes through a template (the child must be the parent's first on that topic and its
  agent still able), by assignee and topic if it names the agent.
  */
  lemma RepeatedRequestFindsItsChild(s: State, key: KeyFunction, q: Request, parent: Id, child: Id, r: Delegating)
    requires RowsOk(s) && DelegationsAreUnique(s.tasks) && parent in s.tasks && DecidesUnder(s, key, q, parent, r)
    requires SameTopicChild(s.tasks, parent, q.topic, child) && s.tasks[child].job.body == q.body
    requires IsOpen(s.tasks[child].status) && !s.tasks[parent].job.kind.Generator?
    requires forall route :: IsRoute(s, q.requested, q.need, route) ==> RouteReaches(s, q, parent, child, route)
    ensures r == Existing(child)
  {
    var route :| IsRoute(s, q.requested, q.need, route) && DecidesVia(s, key, q, parent, route, r);
    if !route.viaTemplate {
      assert SameWorkChild(s.tasks, parent, route.agent, q.topic, child);
      assert forall c :: SameWorkChild(s.tasks, parent, route.agent, q.topic, c) ==>
        IsChildOf(s.tasks, c, parent) && IsChildOf(s.tasks, child, parent) && c == child;
    }
  }

  /** The child is older than every other child of the parent on the topic. */
  ghost predicate LeadsTopic(tasks: Tasks, parent: Id, topic: string, child: Id) {
    && child in tasks
    && forall o :: SameTopicChild(tasks, parent, topic, o) && o != child ==>
         tasks[child].job.created < tasks[o].job.created
  }

  lemma LeadIsKept(s: State, e: Event, n: State, parent: Id, topic: string, child: Id)
    requires RowsOk(s) && RowsMove(s, e, n) && LeadsTopic(s.tasks, parent, topic, child)
    ensures LeadsTopic(n.tasks, parent, topic, child)
  {
    hide NormalTopic;
    forall o | SameTopicChild(n.tasks, parent, topic, o) && o != child
      ensures n.tasks[child].job.created < n.tasks[o].job.created
    {
      if o in s.tasks {
        assert Moves(e, o, s.tasks[o], n.tasks[o]);
        assert SameTopicChild(s.tasks, parent, topic, o);
      }
      assert Moves(e, child, s.tasks[child], n.tasks[child]);
    }
  }

  lemma FilingTakesTheLead(s: State, e: Event, n: State)
    requires RowsOk(s) && RowsMove(s, e, n) && e.Delegate? && Enabled(s, e) && n == Next(s, e) && e.route.viaTemplate
    ensures LeadsTopic(n.tasks, e.parent, e.topic, e.child)
  {
    hide NormalTopic, Next, IsRoute, IsDelegationParent, RowsOk;
    FiledChild(s, e);
    forall o | o in s.tasks
      ensures !SameTopicChild(n.tasks, e.parent, e.topic, o)
    {
      assert Moves(e, o, s.tasks[o], n.tasks[o]);
      assert !SameTopicChild(s.tasks, e.parent, e.topic, o);
    }
    forall o | o in n.tasks && o !in s.tasks
      ensures o == e.child
    {
      AtMostOneRowIsNew(s, e, e.child, o);
    }
  }

  /** A child created through a template is the parent's first on its topic, now and ever after. */
  lemma {:induction false} TemplateChildStaysFirst(s: State, log: seq<Event>, i: nat, j: nat)
    requires RowsOk(s) && i < j <= |log| && log[i].Delegate? && Enabled(At(s, log, i), log[i])
    requires log[i].route.viaTemplate
    ensures LeadsTopic(At(s, log, j).tasks, log[i].parent, log[i].topic, log[i].child)
    decreases j
  {
    hide Next, Enabled, LeadsTopic, RowsMove;
    StepMovesRows(s, log, j - 1);
    if i < j - 1 {
      TemplateChildStaysFirst(s, log, i, j - 1);
      LeadIsKept(At(s, log, j - 1), log[j - 1], At(s, log, j), log[i].parent, log[i].topic, log[i].child);
    } else {
      FilingTakesTheLead(At(s, log, i), log[i], At(s, log, j));
    }
  }

  /** The row created last makes its parent the assignment the agent goes on delegating under. */
  lemma NextDelegationHasTheSameParent(s: State, e: Event)
    requires RowsOk(s) && e.Delegate? && Enabled(s, e)
    requires e.agent in s.agents && s.agents[e.agent].status.Working?
    requires forall o :: HeldBy(s.tasks, e.agent, o) ==> o == e.parent
    ensures IsDelegationParent(Next(s, e), e.agent, e.parent)
  {
    var n := Next(s, e);
    assert n.tasks[e.parent].job.assignee == e.agent;
    assert IsChildOf(n.tasks, e.child, e.parent);
    assert n.tasks[e.parent].status.Waiting?;
    assert forall o :: HeldBy(n.tasks, e.agent, o) ==> HeldBy(s.tasks, e.agent, o);
    assert Coordinates(n, e.agent, e.parent);
    forall o | Coordinates(n, e.agent, o)
      ensures FresherCoordination(n.tasks, e.parent, o)
    {
      NewestChildWins(n.tasks, s.tasks.Keys, e.parent, e.child, o);
    }
  }

  /** The one row that is new, and younger than all others, makes its parent the freshest. */
  lemma NewestChildWins(tasks: Tasks, earlier: set<Id>, parent: Id, child: Id, o: Id)
    requires tasks.Keys == earlier + {child} && IsChildOf(tasks, child, parent) && parent in tasks && o in tasks
    requires forall c :: c in earlier ==> c in tasks && tasks[c].job.created < tasks[child].job.created
    ensures FresherCoordination(tasks, parent, o)
  {
    forall x, y | IsNewestChildTime(tasks, parent, x) && IsNewestChildTime(tasks, o, y)
      ensures x > y || (x == y && tasks[parent].job.created >= tasks[o].job.created)
    {
      assert x >= tasks[child].job.created;
      var c :| IsChildOf(tasks, c, o) && tasks[c].job.created == y;
      if o != parent {
        assert c != child;
      }
    }
  }

  /** The call a delegation was filed by. */
  function RequestOf(e: Event): Request
    requires e.Delegate?
  {
    Request(e.agent, e.requested, e.need, e.topic, e.body)
  }

  lemma FiledChild(s: State, e: Event)
    requires e.Delegate? && Enabled(s, e)
    ensures e.parent in s.tasks && !s.tasks[e.parent].job.kind.Generator?
    ensures e.child in Next(s, e).tasks && IsRoute(s, e.requested, e.need, e.route) && e.route.Routed?
    ensures var j := Next(s, e).tasks[e.child].job;
      j.parent == Some(e.parent) && j.assignee == e.route.agent && j.topic == e.topic && j.body == e.body
  {
  }

  /** The key of the call is the child's id for no agent but the child's own. */
  ghost predicate NamesOnlyItsChild(key: KeyFunction, e: Event)
    requires e.Delegate?
  {
    e.route.Routed? ==>
      forall agent :: key(e.parent, agent, e.topic, e.body) == e.child ==> agent == e.route.agent
  }

  /** Rows of one run differ in their creation time. */
  ghost predicate CreationTimesDiffer(tasks: Tasks) {
    forall a, b :: a in tasks && b in tasks && a != b ==> tasks[a].job.created != tasks[b].job.created
  }

  lemma {:induction false} RunsKeepCreationTimesApart(s: State, log: seq<Event>)
    requires s.tasks == map[]
    ensures CreationTimesDiffer(Replay(s, log).tasks)
  {
    hide Next;
    if log != [] {
      var before, e := Replay(s, log[..|log| - 1]), log[|log| - 1];
      RunsKeepCreationTimesApart(s, log[..|log| - 1]);
      NothingIsWrongYet(s);
      RunsKeepRowsOk(s, log[..|log| - 1]);
      EveryEventMovesRows(before, e);
      CreationTimesStayApart(before, e);
    }
  }

  lemma CreationTimesStayApart(s: State, e: Event)
    requires RowsOk(s) && RowsMove(s, e, Next(s, e)) && CreationTimesDiffer(s.tasks)
    ensures CreationTimesDiffer(Next(s, e).tasks)
  {
    hide Next;
    var n := Next(s, e).tasks;
    forall a, b | a in n && b in n && a != b
      ensures n[a].job.created != n[b].job.created
    {
      if a !in s.tasks && b !in s.tasks {
        AtMostOneRowIsNew(s, e, a, b);
      }
    }
  }

  /** An answer that is the child itself was reached by the route. */
  lemma ExistingChildWasReached(s: State, key: KeyFunction, q: Request, parent: Id, child: Id, route: Route)
    requires child in s.tasks && route.Routed? && DecidesOnRoute(s, key, q, parent, route, Existing(child))
    requires SameTopicChild(s.tasks, parent, q.topic, child) && CreationTimesDiffer(s.tasks)
    requires key(parent, route.agent, q.topic, q.body) == child ==> route.agent == s.tasks[child].job.assignee
    ensures IsOpen(s.tasks[child].status) && RouteReaches(s, q, parent, child, route)
  {
    hide NormalTopic, Compatible;
  }

  /**
  Repeating a call, at any later point of the run and under the same parent: it is answered with its child
  if and only if the child is open and the request still resolves to it, through a template to a list that
  has the child's agent and a topic the child was the first on, or by name to the child's agent.
  */
  lemma RepeatedCallReturnsItsChild(s: State, log: seq<Event>, i: nat, j: nat, key: KeyFunction, route: Route,
                                    r: Delegating)
    requires s.tasks == map[] && i < j <= |log| && log[i].Delegate? && Enabled(At(s, log, i), log[i])
    requires NamesOnlyItsChild(key, log[i])
    requires log[i].parent in At(s, log, j).tasks
    requires IsRoute(At(s, log, j), log[i].requested, log[i].need, route)
    requires DecidesUnder(At(s, log, j), key, RequestOf(log[i]), log[i].parent, r)
    ensures log[i].child in At(s, log, j).tasks
    ensures r == Existing(log[i].child) <==>
      && IsOpen(At(s, log, j).tasks[log[i].child].status)
      && RouteReaches(At(s, log, j), RequestOf(log[i]), log[i].parent, log[i].child, route)
  {
    hide IsRoute, Next, Enabled, Compatible, NormalTopic, DecidesOnRoute, RouteReaches;
    var e, now := log[i], At(s, log, j);
    var q := RequestOf(e);
    NothingIsWrongYet(s);
    ChildStaysOnTopic(s, log, i, j);
    RunsKeepRowsOk(s, log[..j]);
    RunsKeepDelegationsUnique(s, log[..j]);
    RunsKeepCreationTimesApart(s, log[..j]);
    forall other | IsRoute(now, q.requested, q.need, other)
      ensures other == route
    {
      RouteIsUnique(now, q.requested, q.need, other, route);
    }
    if IsOpen(now.tasks[e.child].status) && RouteReaches(now, q, e.parent, e.child, route) {
      RepeatedRequestFindsItsChild(now, key, q, e.parent, e.child, r);
    } else if r == Existing(e.child) {
      ExistingChildWasReached(now, key, q, e.parent, e.child, route);
    }
  }

  lemma ChildStaysOnTopic(s: State, log: seq<Event>, i: nat, j: nat)
    requires RowsOk(s) && i < j <= |log| && log[i].Delegate? && Enabled(At(s, log, i), log[i])
    ensures SameTopicChild(At(s, log, j).tasks, log[i].parent, log[i].topic, log[i].child)
    ensures log[i].parent in At(s, log, j).tasks && !At(s, log, j).tasks[log[i].parent].job.kind.Generator?
    ensures log[i].route.Routed?
    ensures At(s, log, j).tasks[log[i].child].job.assignee == log[i].route.agent
    ensures At(s, log, j).tasks[log[i].child].job.body == log[i].body
  {
    hide IsRoute, Next, Enabled, NormalTopic;
    StepMovesRows(s, log, i);
    FiledChild(At(s, log, i), log[i]);
    JobIsForever(s, log, i + 1, j, log[i].child);
    JobIsForever(s, log, i, j, log[i].parent);
  }

  /**
  So it is when the request still resolves the same way: through the template, whose list still has the
  child's agent, or to the named agent.
  */
  lemma SameRouteReturnsItsChild(s: State, log: seq<Event>, i: nat, j: nat, route: Route)
    requires s.tasks == map[] && i < j <= |log| && log[i].Delegate? && Enabled(At(s, log, i), log[i])
    requires log[i].child in At(s, log, j).tasks
    requires IsRoute(At(s, log, j), log[i].requested, log[i].need, route) && route.Routed?
    requires route.viaTemplate == log[i].route.viaTemplate
    requires route.viaTemplate ==> Compatible(At(s, log, j), log[i].requested, log[i].need, log[i].route.agent)
    ensures RouteReaches(At(s, log, j), RequestOf(log[i]), log[i].parent, log[i].child, route)
  {
    hide IsRoute, Next, Enabled, Compatible, NormalTopic, DecidesOnRoute, LeadsTopic;
    var e, now := log[i], At(s, log, j);
    NothingIsWrongYet(s);
    ChildStaysOnTopic(s, log, i, j);
    FiledChild(At(s, log, i), e) by { StepMovesRows(s, log, i); }
    if route.viaTemplate {
      TemplateChildStaysFirst(s, log, i, j);
    } else {
      NamedRouteIsTheName(At(s, log, i), e.requested, e.need, e.route);
      NamedRouteIsTheName(now, e.requested, e.need, route);
    }
  }

  lemma NamedRouteIsTheName(s: State, requested: Name, need: Option<string>, route: Route)
    requires IsRoute(s, requested, need, route) && route.Routed? && !route.viaTemplate
    ensures route.agent == requested
  {
  }

  // ---- The call that is not answered with its child ----

  const LEAD: Name := 1
  const FIRST: Name := 2
  const SECOND: Name := 3
  const WRITER: Name := 4

  /** Two replicas of one template; the lead has handed a part of its root to the first. */
  function HandedOn(firstIsEligible: bool): State {
    var root := Task(Job(None, None, Root, Manual, 0, LEAD, "root", "Lead.", 1), Waiting, 0, 1, None, None, None, None);
    var part := Task(Job(Some(0), None, Delegation, Peer, LEAD, FIRST, "part", "Do a part.", 2), Pending, 0, 0, None,
                     None, None, None);
    State(map[0 := root, 1 := part],
          map[LEAD := Agent(Working, None, 0), FIRST := Agent(Idle, None, 0), SECOND := Agent(Idle, None, 0)],
          map[FIRST := Profile(WRITER, firstIsEligible), SECOND := Profile(WRITER, true)],
          {}, map[], 0, LEAD, 0, false, map[], map[], 2)
  }

  const PART: Request := Request(LEAD, WRITER, None, "part", "Do a part.")

  /**
  Once the child's replica loses its eligibility the same request, which now resolves to the other replica,
  is refused as a conflict with its own open child.
  */
  lemma RetiredReplicaMakesAConflict(key: KeyFunction)
    ensures var before, now := HandedOn(true), HandedOn(false);
      && now == Next(before, RosterChange(now.profiles, {}))
      && (exists route :: IsRoute(now, WRITER, None, route) && route.Routed?)
      && IsOpen(now.tasks[1].status) && DecidesUnder(before, key, PART, 0, Existing(1))
      && DecidesUnder(now, key, PART, 0, Refused(ConflictingTopic))
  {
    RosterChanges();
    OnlyPartIsOnTopic(true);
    OnlyPartIsOnTopic(false);
    RouteOfPart(true);
    RouteOfPart(false);
  }

  lemma RosterChanges()
    ensures HandedOn(false) == Next(HandedOn(true), RosterChange(HandedOn(false).profiles, {}))
  {
  }

  lemma OnlyPartIsOnTopic(eligible: bool)
    ensures IsFirstOnTopic(HandedOn(eligible).tasks, 0, "part", 1)
    ensures forall c :: SameTopicChild(HandedOn(eligible).tasks, 0, "part", c) <==> c == 1
  {
  }

  lemma RouteOfPart(eligible: bool)
    ensures IsRoute(HandedOn(eligible), WRITER, None, Routed(SECOND, true))
  {
    var s := HandedOn(eligible);
    assert s.profiles[SECOND] == Profile(WRITER, true);
    assert !IdleAndFree(s, FIRST) by { assert s.tasks[1].job.assignee == FIRST && IsActive(s.tasks[1].status); }
    assert IdleAndFree(s, SECOND);
    assert forall p :: Candidate(s, WRITER, None, p) ==> p == FIRST || p == SECOND;
  }
}
