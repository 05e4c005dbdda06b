/** Delegation transactions of the store: routing, finding the parent assignment, filing the child. */
module StoreDelegation {
  import opened Basics
  import opened TaskTable
  import opened Routing
  import opened QueueEvents
  import opened QueueDelegation
  import opened Store
  import opened Promises

  lemma PreferredIsTransitive(s: State, a: Name, b: Name, c: Name)
    requires Preferred(s, a, b) && Preferred(s, b, c)
    ensures Preferred(s, a, c)
  {
  }

  /** Picks the idlest compatible replica, or the named agent itself when no template has that name. */
  method ResolveDelegationTarget(store: Store, requested: Name, need: Option<string>) returns (r: Route)
    ensures IsRoute(store.View(), requested, need, r) && GoesTo(store.View(), requested, need, r)
  {
    r := FindRoute(store, requested, need);
    RouteInColumns(store.View(), requested, need, r);
  }

  method FindRoute(store: Store, requested: Name, need: Option<string>) returns (r: Route)
    ensures IsRoute(store.View(), requested, need, r)
  {
    var s := store.View();
    if !HasTemplate(s, requested) && requested in s.agents {
      if s.agents[requested].status.Paused? {
        return Unroutable(AssigneePaused);
      }
      if !Meets(s, requested, need) {
        return Unroutable(LacksCapability);
      }
      return Routed(requested, false);
    }
    var candidates := set p | p in s.profiles && Candidate(s, requested, need, p);
    assert forall p :: Candidate(s, requested, need, p) <==> p in candidates;
    if candidates == {} {
      return Unroutable(NoEligibleReplica);
    }
    var best := FirstPreferred(s, candidates);
    r := Routed(best, true);
  }

  /** ORDER BY … LIMIT 1 over the candidates. */
  method FirstPreferred(s: State, candidates: set<Name>) returns (best: Name)
    requires candidates != {}
    ensures best in candidates && forall p :: p in candidates && p != best ==> Preferred(s, best, p)
  {
    hide Preferred;
    best :| best in candidates;
    var todo, seen := candidates - {best}, {best};
    while todo != {}
      invariant seen + todo == candidates && seen !! todo && best in seen
      invariant forall p :: p in seen && p != best ==> Preferred(s, best, p)
    {
      var p :| p in todo;
      if Preferred(s, p, best) {
        forall q | q in seen && q != best
          ensures Preferred(s, p, q)
        {
          PreferredIsTransitive(s, p, best, q);
        }
        best := p;
      } else {
        PreferredIsTotal(s, p, best);
      }
      todo, seen := todo - {p}, seen + {p};
    }
  }

  lemma PreferredIsTotal(s: State, a: Name, b: Name)
    requires a != b
    ensures Preferred(s, a, b) || Preferred(s, b, a)
  {
  }

  /** `claimed_assignment` */
  method LatestClaim(store: Store, agent: Name) returns (latest: Option<Id>)
    ensures latest.None? ==> forall o :: !HeldBy(store.tasks, agent, o)
    ensures latest.Some? ==> IsLatestClaim(store.tasks, agent, latest.value)
    ensures latest.Some? ==>
      && IsHeld(store.tasks, agent, latest.value)
      && forall o :: o in store.tasks && IsHeld(store.tasks, agent, o) && store.tasks[o].claimedAt.Some? ==>
           && store.tasks[latest.value].claimedAt.Some?
           && store.tasks[latest.value].claimedAt.value >= store.tasks[o].claimedAt.value
  {
    var rows := set o | o in store.tasks && HeldBy(store.tasks, agent, o);
    latest := None;
    var todo, seen := rows, {};
    while todo != {}
      invariant seen + todo == rows && seen !! todo
      invariant latest.None? <==> seen == {}
      invariant latest.Some? ==> latest.value in seen
      invariant latest.Some? ==> forall o :: o in seen ==>
        ClaimedNoEarlier(store.tasks[latest.value].claimedAt, store.tasks[o].claimedAt)
    {
      var o :| o in todo;
      if latest.None? || ClaimedNoEarlier(store.tasks[o].claimedAt, store.tasks[latest.value].claimedAt) {
        latest := Some(o);
      }
      todo, seen := todo - {o}, seen + {o};
    }
    assert forall o :: HeldBy(store.tasks, agent, o) <==> o in rows;
  }

  /** SELECT MAX(created_at) over the children of a row. */
  method NewestChildTime(tasks: Tasks, p: Id) returns (t: int)
    requires HasChild(tasks, p)
    ensures IsNewestChildTime(tasks, p, t)
  {
    var children := set c | c in tasks && IsChildOf(tasks, c, p);
    var c0 :| c0 in tasks && IsChildOf(tasks, c0, p);
    t := tasks[c0].job.created;
    var todo, seen := children - {c0}, {c0};
    while todo != {}
      invariant seen + todo == children && seen !! todo
      invariant exists c :: c in seen && tasks[c].job.created == t
      invariant forall c :: c in seen ==> tasks[c].job.created <= t
    {
      var c :| c in todo;
      if tasks[c].job.created > t {
        t := tasks[c].job.created;
      }
      todo, seen := todo - {c}, seen + {c};
    }
    assert forall c :: IsChildOf(tasks, c, p) <==> c in children;
  }

  lemma FresherByTimes(tasks: Tasks, a: Id, x: int, b: Id, y: int)
    requires a in tasks && b in tasks && IsNewestChildTime(tasks, a, x) && IsNewestChildTime(tasks, b, y)
    ensures FresherCoordination(tasks, a, b) <==> x > y || (x == y && tasks[a].job.created >= tasks[b].job.created)
  {
  }

  ghost predicate FreshestOf(tasks: Tasks, seen: set<Id>, best: Id, x: int) {
    && best in tasks && best in seen && IsNewestChildTime(tasks, best, x)
    && forall o :: o in seen && o in tasks ==> FresherCoordination(tasks, best, o)
  }

  lemma OneMoreCoordination(tasks: Tasks, seen: set<Id>, best: Id, x: int, o: Id, y: int)
    requires seen <= tasks.Keys && FreshestOf(tasks, seen, best, x) && o in tasks && IsNewestChildTime(tasks, o, y)
    requires forall c :: c in seen ==> HasChild(tasks, c)
    ensures FresherCoordination(tasks, best, o) ==> FreshestOf(tasks, seen + {o}, best, x)
    ensures !FresherCoordination(tasks, best, o) ==> FreshestOf(tasks, seen + {o}, o, y)
  {
  }

  /** `active_coordination_assignment` */
  method FreshestCoordination(store: Store, agent: Name) returns (best: Option<Id>)
    ensures best.None? ==> forall o :: !Coordinates(store.View(), agent, o)
    ensures best.Some? ==> IsCoordination(store.View(), agent, best.value)
    ensures best.Some? ==>
      && IsHandedOn(store.View(), agent, best.value)
      && forall o :: o in store.tasks && IsHandedOn(store.View(), agent, o) ==> IsFresher(store.tasks, best.value, o)
  {
    best := FindCoordination(store, agent);
    if best.Some? {
      CoordinationInColumns(store.View(), agent, best.value);
    }
  }

  method FindCoordination(store: Store, agent: Name) returns (best: Option<Id>)
    ensures best.None? ==> forall o :: !Coordinates(store.View(), agent, o)
    ensures best.Some? ==> IsCoordination(store.View(), agent, best.value)
  {
    var s := store.View();
    var rows := set o | o in s.tasks && Coordinates(s, agent, o);
    best := None;
    var bestTime := 0;
    var todo, seen := rows, {};
    while todo != {}
      invariant seen + todo == rows && seen !! todo
      invariant best.None? <==> seen == {}
      invariant best.Some? ==> FreshestOf(s.tasks, seen, best.value, bestTime)
    {
      hide FreshestOf, FresherCoordination, IsNewestChildTime;
      var o :| o in todo;
      var time := NewestChildTime(s.tasks, o);
      if best.None? {
        best, bestTime := Some(o), time;
        SingleCoordination(s.tasks, o, time);
        assert seen + {o} == {o};
      } else {
        FreshestIsARow(s.tasks, seen, best.value, bestTime);
        FresherByTimes(s.tasks, best.value, bestTime, o, time);
        OneMoreCoordination(s.tasks, seen, best.value, bestTime, o, time);
        if time > bestTime || (time == bestTime && s.tasks[o].job.created > s.tasks[best.value].job.created) {
          best, bestTime := Some(o), time;
        }
      }
      todo, seen := todo - {o}, seen + {o};
    }
    assert forall o :: Coordinates(s, agent, o) <==> o in rows;
  }

  lemma SingleCoordination(tasks: Tasks, o: Id, time: int)
    requires o in tasks && IsNewestChildTime(tasks, o, time)
    ensures FreshestOf(tasks, {o}, o, time)
  {
  }

  lemma FreshestIsARow(tasks: Tasks, seen: set<Id>, best: Id, x: int)
    requires FreshestOf(tasks, seen, best, x)
    ensures best in tasks && best in seen && IsNewestChildTime(tasks, best, x)
  {
  }

  /** `coordination_assignment`: what the agent holds, else what it is still coordinating. */
  method CoordinationAssignment(store: Store, agent: Name) returns (p: Option<Id>)
    ensures p.None? ==> forall o :: !IsDelegationParent(store.View(), agent, o)
    ensures p.Some? ==> IsDelegationParent(store.View(), agent, p.value) && IsActingFor(store.View(), agent, p.value)
  {
    p := FindParent(store, agent);
    if p.Some? {
      ParentInColumns(store.View(), agent, p.value);
    }
  }

  method FindParent(store: Store, agent: Name) returns (p: Option<Id>)
    ensures p.None? ==> forall o :: !IsDelegationParent(store.View(), agent, o)
    ensures p.Some? ==> IsDelegationParent(store.View(), agent, p.value)
  {
    p := LatestClaim(store, agent);
    if p.None? {
      p := FreshestCoordination(store, agent);
    }
  }

  /** The answer of a call from an agent with no assignment: a repeat of an earlier request, or a refusal. */
  method AnswerWithoutParent(store: Store, q: Request) returns (r: Delegating)
    ensures DecidesWithoutParent(store.View(), q, r)
  {
    var s := store.View();
    var same := set c | c in s.tasks && SameRequest(s, q, c);
    var found := store.Newest(same);
    assert forall c :: SameRequest(s, q, c) <==> c in same;
    if found.None? {
      return Refused(NoAssignment);
    }
    r := if IsOpen(s.tasks[found.value].status) then Existing(found.value) else Refused(IdenticalFinished);
  }

  /** Every check of a delegation on a known route; `None` means that a new child is to be filed. */
  method FindExistingChild(store: Store, key: KeyFunction, q: Request, parent: Id, route: Route)
    returns (found: Option<Delegating>)
    requires route.Routed?
    ensures found.Some? ==> DecidesOnRoute(store.View(), key, q, parent, route, found.value) && !found.value.Delegated?
    ensures found.None? ==>
      && DecidesOnRoute(store.View(), key, q, parent, route, Delegated(key(parent, route.agent, q.topic, q.body)))
      && key(parent, route.agent, q.topic, q.body) !in store.tasks
      && (route.viaTemplate ==> forall c :: !SameTopicChild(store.tasks, parent, q.topic, c))
      && (forall c :: !SameWorkChild(store.tasks, parent, route.agent, q.topic, c))
  {
    var s := store.View();
    if route.viaTemplate {
      var onTopic := set c | c in s.tasks && SameTopicChild(s.tasks, parent, q.topic, c);
      assert forall c :: SameTopicChild(s.tasks, parent, q.topic, c) <==> c in onTopic;
      var first := store.Oldest(onTopic);
      if first.Some? {
        var c := first.value;
        assert IsFirstOnTopic(s.tasks, parent, q.topic, c);
        return Some(if s.tasks[c].job.body == q.body && IsOpen(s.tasks[c].status)
                       && Compatible(s, q.requested, q.need, s.tasks[c].job.assignee)
                    then Existing(c) else Refused(ConflictingTopic));
      }
    }
    var sameWork := set c | c in s.tasks && SameWorkChild(s.tasks, parent, route.agent, q.topic, c);
    assert forall c :: SameWorkChild(s.tasks, parent, route.agent, q.topic, c) <==> c in sameWork;
    var first := store.Oldest(sameWork);
    if first.Some? {
      var c := first.value;
      assert IsFirstSameWork(s.tasks, parent, route.agent, q.topic, c);
      return Some(if IsOpen(s.tasks[c].status) then Existing(c) else Refused(EquivalentFinished));
    }
    var id := key(parent, route.agent, q.topic, q.body);
    if id in s.tasks {
      return Some(if IsOpen(s.tasks[id].status) then Existing(id) else Refused(IdenticalFinished));
    }
    found := None;
  }

  /** The INSERT of the child and the UPDATE of its parent. */
  method FileDelegation(store: Store, q: Request, parent: Id, route: Route, child: Id, now: int)
    requires store.Valid()
    requires Enabled(store.View(), Delegate(q.agent, q.requested, q.need, parent, child, route, q.topic, q.body, now))
    modifies store
    ensures store.Valid()
    ensures store.View() ==
      Next(old(store.View()), Delegate(q.agent, q.requested, q.need, parent, child, route, q.topic, q.body, now))
    ensures store.log ==
      old(store.log) + [Delegate(q.agent, q.requested, q.need, parent, child, route, q.topic, q.body, now)]
  {
    hide IsRoute, IsDelegationParent, SameTopicChild, SameWorkChild, NormalTopic;
    ParentIsARow(store.View(), q.agent, parent);
    var status := if MustBuffer(store.View(), route.agent) then Buffered else Pending;
    var t := store.tasks[parent];
    var row := DelegationRow(q.agent, route.agent, q.topic, q.body, status);
    store.tasks := store.tasks[child := FreshRow(Some(parent), row, now)];
    var attempts := if t.status.Claimed? && t.attempts > 0 then t.attempts - 1 else t.attempts;
    store.tasks := store.tasks[parent := t.(status := Waiting, claimedAt := None, attempts := attempts)];
    store.clock := now;
    store.Commit(Delegate(q.agent, q.requested, q.need, parent, child, route, q.topic, q.body, now));
  }

  /**
  `delegate_current_compatible`. Every answer is the one the decision table prescribes; only a new
  child changes the store, and it is filed exactly once.
  */
  method DelegateCurrent(store: Store, key: KeyFunction, agent: Name, requested: Name, capability: Option<string>,
                         topic: string, body: string, now: int)
    returns (r: Delegating, ghost e: Event)
    requires store.Valid() && now > store.clock
    modifies store
    ensures store.Valid()
    ensures Decides(old(store.View()), key, Request(agent, requested, Requirement(capability), topic, body), r)
    ensures !r.Delegated? ==> store.View() == old(store.View()) && store.log == old(store.log)
    ensures r.Delegated? ==>
      && e.Delegate? && e.child == r.id && e.agent == agent && e.topic == topic && e.body == body && e.now == now
      && IsRoute(old(store.View()), requested, Requirement(capability), e.route)
      && e.route.Routed? && GoesTo(old(store.View()), requested, Requirement(capability), e.route)
      && HandsOn(old(store.View()), store.View(), agent, e.parent, r.id, e.route.agent, topic, body, now)
      && IsActingFor(old(store.View()), agent, e.parent)
      && Enabled(old(store.View()), e) && store.log == old(store.log) + [e]
  {
    hide IsRoute, IsDelegationParent, SameTopicChild, SameWorkChild, NormalTopic, DecidesOnRoute, DecidesWithoutParent;
    hide GoesTo, HandsOn, Next, IsActingFor;
    var q := Request(agent, requested, Requirement(capability), topic, body);
    e := AwaitChildren(Assignment(0, Job(None, None, Root, Manual, agent, agent, topic, body, now), 0, 0));
    var parent := CoordinationAssignment(store, agent);
    if parent.None? {
      r := AnswerWithoutParent(store, q);
      WithoutParentNothingIsFiled(store.View(), q, r);
      return;
    }
    ParentIsARow(store.View(), agent, parent.value);
    if store.tasks[parent.value].job.kind.Generator? {
      return Refused(GeneratorCannotDelegate), e;
    }
    var route := ResolveDelegationTarget(store, requested, q.need);
    if route.Unroutable? {
      assert DecidesVia(store.View(), key, q, parent.value, route, Refused(NoRoute(route.why)));
      return Refused(NoRoute(route.why)), e;
    }
    var found := FindExistingChild(store, key, q, parent.value, route);
    if found.Some? {
      assert DecidesVia(store.View(), key, q, parent.value, route, found.value);
      return found.value, e;
    }
    var child := key(parent.value, route.agent, topic, body);
    assert DecidesVia(store.View(), key, q, parent.value, route, Delegated(child));
    e := Delegate(agent, requested, q.need, parent.value, child, route, topic, body, now);
    DelegationInColumns(store.View(), e);
    FileDelegation(store, q, parent.value, route, child, now);
    r := Delegated(child);
  }

  lemma WithoutParentNothingIsFiled(s: State, q: Request, r: Delegating)
    requires DecidesWithoutParent(s, q, r)
    ensures !r.Delegated?
  {
  }

  lemma ParentIsARow(s: State, agent: Name, p: Id)
    requires IsDelegationParent(s, agent, p)
    ensures p in s.tasks && s.tasks[p].job.assignee == agent
  {
  }
}
