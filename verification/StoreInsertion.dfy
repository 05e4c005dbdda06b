/** New rows other than delegations: work items, messages, generators, automatic roots, peer notes. */
module StoreInsertion {
  import opened Basics
  import opened TaskTable
  import opened Routing
  import opened QueueEvents
  import opened Store
  import opened StoreDelegation
  import opened Promises

  datatype Filing = Filed | AlreadyThere | NotRouted(why: RouteError)

  /**
  `insert_task`. A manual work item for the leader goes to the idlest member of the leader's pool and
  waits in the backlog when the project is at its limit; anything else is pending at once.
  */
  method InsertTask(store: Store, id: Id, requested: Name, row: NewRow, now: int) returns (r: Filing, ghost e: Event)
    requires store.Valid() && now > store.clock && !row.kind.Delegation?
    modifies store
    ensures store.Valid()
    ensures r.Filed? ==>
      && e.Insert? && e.id == id && e.requested == requested && e.now == now
      && e.row == row.(assignee := e.row.assignee, status := e.row.status)
      && Enabled(old(store.View()), e) && store.log == old(store.log) + [e]
      && store.tasks == old(store.tasks)[id := FreshRow(None, e.row, now)]
      && (!IsLeaderWorkItem(old(store.View()), row.kind, row.source, row.topic, requested) ==>
            e.row == row.(assignee := requested, status := Pending))
      && IsFiled(old(store.View()), store.View(), id, requested, row, now)
    ensures !r.Filed? ==> store.View() == old(store.View()) && store.log == old(store.log)
    ensures r.NotRouted? ==>
      && IsLeaderWorkItem(old(store.View()), row.kind, row.source, row.topic, requested)
      && IsRoute(old(store.View()), requested, None, Unroutable(r.why))
    ensures r.AlreadyThere? ==> id in old(store.tasks)
  {
    hide IsRoute, ActiveRoots, GoesTo, Slots;
    e := Insert(id, requested, row.(assignee := requested, status := Pending), now);
    if IsLeaderWorkItem(store.View(), row.kind, row.source, row.topic, requested) {
      var route := ResolveDelegationTarget(store, store.leader, None);
      if route.Unroutable? {
        return NotRouted(route.why), e;
      }
      var status := AdmissionStatus(store.View());
      e := Insert(id, requested, row.(assignee := route.agent, status := status), now);
      if id in store.tasks {
        return AlreadyThere, e;
      }
      assert IsRoute(store.View(), store.leader, None, Routed(route.agent, route.viaTemplate));
      store.tasks := store.tasks[id := FreshRow(None, row.(assignee := route.agent, status := status), now)];
    } else if id in store.tasks {
      return AlreadyThere, e;
    } else {
      store.tasks := store.tasks[id := FreshRow(None, row.(assignee := requested, status := Pending), now)];
    }
    store.clock := now;
    FilingInColumns(old(store.View()), e);
    store.Commit(e);
    r := Filed;
  }

  datatype AutomaticFiling = Created(id: Id) | GeneratorUsed | InCooldown | AlreadyActive | IdTaken

  /** Rows equivalent to automatic work about to be filed: open, or too recently failed or cancelled. */
  function Blockers(s: State, topic: string, body: string, now: int): set<Id> {
    set o | o in s.tasks && BlocksAutomatic(s, s.tasks[o], topic, body, now)
  }

  predicate HasRootOf(tasks: Tasks, origin: Id) {
    exists o :: o in tasks && tasks[o].job.kind.Root? && tasks[o].job.origin == Some(origin)
  }

  /** `create_automatic_root_once_at` */
  method CreateAutomaticRootOnce(store: Store, key: (Id, Name, string, string) -> Id, creator: Name, assignee: Name,
                                 topic: string, body: string, origin: Id, buffered: bool, now: int)
    returns (r: AutomaticFiling)
    requires store.Valid() && now > store.clock
    modifies store
    ensures store.Valid()
    ensures r.Created? <==>
      && !HasRootOf(old(store.tasks), origin)
      && Blockers(old(store.View()), topic, body, now) == {}
      && (forall o :: o in old(store.tasks) ==>
            !StandsInTheWay(old(store.View()), old(store.tasks)[o], topic, body, now))
      && key(origin, assignee, topic, body) !in old(store.tasks)
    ensures r.Created? ==>
      && r.id == key(origin, assignee, topic, body)
      && store.log == old(store.log) + [InsertAutomatic(r.id, origin, creator, assignee, topic, body, buffered, now)]
      && store.View() == old(store.View()).(clock := now, tasks := old(store.tasks)[r.id :=
           Task(Job(None, Some(origin), Root, Automatic, creator, assignee, topic, body, now),
                if buffered then Buffered else Pending, 0, 0, None, None, None, None)])
    ensures !r.Created? ==> store.View() == old(store.View()) && store.log == old(store.log)
    ensures r.GeneratorUsed? <==> HasRootOf(old(store.tasks), origin)
    ensures r.GeneratorUsed? <==>
      exists o :: o in old(store.tasks) && old(store.tasks)[o].job.kind.Root?
                  && old(store.tasks)[o].job.origin == Some(origin)
    ensures r.InCooldown? || r.AlreadyActive? ==>
      exists o :: IsNewestInTheWay(old(store.View()), o, topic, body, now)
        && (r.InCooldown? <==>
              && old(store.tasks)[o].job.source.Automatic?
              && (old(store.tasks)[o].status.Failed? || old(store.tasks)[o].status.Cancelled?))
    ensures r.InCooldown? ==>
      exists o :: o in Blockers(old(store.View()), topic, body, now)
                  && old(store.tasks)[o].job.source.Automatic? && !IsOpen(old(store.tasks)[o].status)
  {
    var s := store.View();
    BlockersInColumns(s, topic, body, now);
    hide StandsInTheWay, BlocksAutomatic, Next, Replay;
    if HasRootOf(s.tasks, origin) {
      return GeneratorUsed;
    }
    var newest := store.Newest(Blockers(s, topic, body, now));
    if newest.Some? {
      var o := newest.value;
      NewestInColumns(s, Blockers(s, topic, body, now), o, topic, body, now);
      var automatic := s.tasks[o].job.source.Automatic? && (s.tasks[o].status.Failed? || s.tasks[o].status.Cancelled?);
      return if automatic then InCooldown else AlreadyActive;
    }
    forall o | o in s.tasks
      ensures !BlocksAutomatic(s, s.tasks[o], topic, body, now)
    {
      assert o !in Blockers(s, topic, body, now);
    }
    var id := key(origin, assignee, topic, body);
    if id in store.tasks {
      return IdTaken;
    }
    var status := if buffered then Buffered else Pending;
    var row := NewRow(Some(origin), Root, Automatic, creator, assignee, topic, body, status);
    store.tasks := store.tasks[id := FreshRow(None, row, now)];
    store.clock := now;
    AutomaticEvent(s, InsertAutomatic(id, origin, creator, assignee, topic, body, buffered, now));
    store.Commit(InsertAutomatic(id, origin, creator, assignee, topic, body, buffered, now));
    r := Created(id);
  }

  // ---- Work filed by a generator or from a dashboard conversation ----

  /** The agent a call names, checked, or the idlest member of the leader's pool when it names none. */
  datatype Target = Assignee(agent: Name) | UnknownAssignee | PausedAssignee | NoPool(why: RouteError)

  ghost predicate IsTarget(s: State, leader: Name, to: Option<Name>, t: Target) {
    match to
    case Some(agent) =>
      t == if agent !in s.agents then UnknownAssignee
           else if s.agents[agent].status.Paused? then PausedAssignee
           else Assignee(agent)
    case None =>
      exists route ::
        IsRoute(s, leader, None, route) && t == if route.Routed? then Assignee(route.agent) else NoPool(route.why)
  }

  method ChooseTarget(store: Store, leader: Name, to: Option<Name>) returns (t: Target)
    ensures IsTarget(store.View(), leader, to, t)
    ensures to.Some? ==>
      t == if to.value !in store.agents then UnknownAssignee
           else if store.agents[to.value].status.Paused? then PausedAssignee
           else Assignee(to.value)
    ensures to.None? ==>
      (t.Assignee? && exists via :: GoesTo(store.View(), leader, None, Routed(t.agent, via)))
      || (t.NoPool? && GoesTo(store.View(), leader, None, Unroutable(t.why)))
  {
    hide GoesTo;
    if to.Some? {
      return if to.value !in store.agents then UnknownAssignee
             else if store.agents[to.value].status.Paused? then PausedAssignee else Assignee(to.value);
    }
    var route := ResolveDelegationTarget(store, leader, None);
    t := if route.Routed? then Assignee(route.agent) else NoPool(route.why);
  }

  datatype Creation =
    | NoClaim
    | UnknownLeader
    | NoTarget(t: Target)
    | NeitherGeneratorNorConversation
    | FromConversation(id: Id)
    | FromGenerator(filing: AutomaticFiling)

  /** A direct dashboard conversation: `dashboard` is the name under which the operator writes. */
  predicate IsDashboardMessage(j: Job, dashboard: Name) {
    j.kind.Message? && j.source.Chat? && j.creator == dashboard
  }

  /**
  `create_from_generator`. A generator's claim yields one automatic root, under all the guards above; a
  conversation of the leader yields one root per assignee and text, and saying it again finds that root.
  */
  method CreateFromGenerator(store: Store, key: (Id, Name, string, string) -> Id, agent: Name, leader: Name,
                             dashboard: Name, to: Option<Name>, topic: string, body: string, now: int)
    returns (r: Creation, ghost current: Id, ghost target: Target)
    requires store.Valid() && now > store.clock
    modifies store
    ensures store.Valid()
    ensures r.NoClaim? <==> forall o :: !HeldBy(old(store.tasks), agent, o)
    ensures !r.NoClaim? ==> IsLatestClaim(old(store.tasks), agent, current) && current in old(store.tasks)
    ensures !r.NoClaim? ==> (r.UnknownLeader? <==> leader !in old(store.agents))
    ensures !r.NoClaim? && !r.UnknownLeader? ==>
      && IsTarget(old(store.View()), leader, to, target)
      && (r.NoTarget? <==> !target.Assignee?) && (r.NoTarget? ==> r.t == target)
    ensures r.FromConversation? ==>
      && IsDashboardMessage(old(store.tasks)[current].job, dashboard) && agent == leader
      && old(store.tasks)[current].job.kind.Message? && old(store.tasks)[current].job.source.Chat?
      && old(store.tasks)[current].job.creator == dashboard
      && r.id == key(current, target.agent, topic, body)
      && (r.id in old(store.tasks) ==> store.View() == old(store.View()))
      && (r.id !in old(store.tasks) ==> store.tasks == old(store.tasks)[r.id :=
            FreshRow(None, NewRow(Some(current), Root, Peer, agent, target.agent, topic, body, Pending), now)])
    ensures r.FromGenerator? ==>
      && old(store.tasks)[current].job.kind.Generator?
      && (r.filing.Created? ==>
            && r.filing.id == key(current, target.agent, topic, body)
            && var buffered := old(store.tasks)[current].job.source.AutomaticBuffer?;
               store.log == old(store.log) +
                 [InsertAutomatic(r.filing.id, current, agent, target.agent, topic, body, buffered, now)])
      && (r.filing.GeneratorUsed? <==> HasRootOf(old(store.tasks), current))
    ensures r.NeitherGeneratorNorConversation? ==>
      && !old(store.tasks)[current].job.kind.Generator?
      && !(IsDashboardMessage(old(store.tasks)[current].job, dashboard) && agent == leader)
      && !(old(store.tasks)[current].job.kind.Message? && old(store.tasks)[current].job.source.Chat?
           && old(store.tasks)[current].job.creator == dashboard && agent == leader)
    ensures !r.FromConversation? && !(r.FromGenerator? && r.filing.Created?) ==> store.View() == old(store.View())
  {
    hide IsTarget, IsLatestClaim, BlocksAutomatic;
    current, target := 0, UnknownAssignee;
    var held := LatestClaim(store, agent);
    if held.None? {
      return NoClaim, current, target;
    }
    current := held.value;
    LatestClaimIsHeld(store.tasks, agent, current);
    var job := store.tasks[held.value].job;
    if leader !in store.agents {
      return UnknownLeader, current, target;
    }
    var chosen := ChooseTarget(store, leader, to);
    target := chosen;
    if !chosen.Assignee? {
      return NoTarget(chosen), current, target;
    }
    if IsDashboardMessage(job, dashboard) && agent == leader {
      var id := key(held.value, chosen.agent, topic, body);
      var row := NewRow(Some(held.value), Root, Peer, agent, chosen.agent, topic, body, Pending);
      ghost var e;
      var filing;
      filing, e := InsertTask(store, id, chosen.agent, row, now);
      return FromConversation(id), current, target;
    }
    if !job.kind.Generator? {
      return NeitherGeneratorNorConversation, current, target;
    }
    var filing := CreateAutomaticRootOnce(store, key, agent, chosen.agent, topic, body, held.value,
                                          job.source.AutomaticBuffer?, now);
    r := FromGenerator(filing);
  }

  lemma LatestClaimIsHeld(tasks: Tasks, agent: Name, id: Id)
    requires IsLatestClaim(tasks, agent, id)
    ensures HeldBy(tasks, agent, id)
  {
  }

  // ---- Peer messages ----

  /** The blake3 keys of a queued message and of a note: injective, so each names its own row. */
  datatype MessageKeys = MessageKeys(
    queued: (Id, Name, string, string) -> Id,
    note: (Id, Id, Name, string, string) -> Id)

  datatype Sending = UnknownAgent | NoCoordination | Queued(id: Id) | Noted(id: Id)

  predicate ReceivesNotes(tasks: Tasks, assignee: Name, id: Id) {
    && id in tasks && tasks[id].job.assignee == assignee
    && (tasks[id].status.Claimed? || tasks[id].status.Waiting? || tasks[id].status.Pending?)
  }

  /** CASE status WHEN 'claimed' THEN 0 WHEN 'waiting' THEN 1 ELSE 2 END */
  function Readiness(st: Status): nat {
    if st.Claimed? then 0 else if st.Waiting? then 1 else 2
  }

  predicate ReachedBefore(tasks: Tasks, a: Id, b: Id)
    requires a in tasks && b in tasks
  {
    Readiness(tasks[a].status) < Readiness(tasks[b].status)
    || (Readiness(tasks[a].status) == Readiness(tasks[b].status) && tasks[a].job.created >= tasks[b].job.created)
  }

  /** The assignment a note for `assignee` lands on: the sender's parent, else its origin, else the liveliest. */
  ghost predicate IsMessageTarget(tasks: Tasks, sender: Id, assignee: Name, target: Option<Id>)
    requires sender in tasks
  {
    var parent, origin := tasks[sender].job.parent, tasks[sender].job.origin;
    if parent.Some? && ReceivesNotes(tasks, assignee, parent.value) then target == parent
    else if origin.Some? && ReceivesNotes(tasks, assignee, origin.value) then target == origin
    else if target.None? then forall o :: !ReceivesNotes(tasks, assignee, o)
    else
      && ReceivesNotes(tasks, assignee, target.value)
      && forall o :: ReceivesNotes(tasks, assignee, o) ==> ReachedBefore(tasks, target.value, o)
  }

  predicate TakesNotes(tasks: Tasks, assignee: Name, id: Id) {
    id in tasks && tasks[id].job.assignee == assignee
    && (tasks[id].status.Claimed? || tasks[id].status.Waiting? || tasks[id].status.Pending?)
  }

  /** Running before waiting before pending work of the agent, and the newest of a kind. */
  predicate LandsOn(tasks: Tasks, sender: Id, assignee: Name, target: Option<Id>)
    requires sender in tasks
  {
    var parent, origin := tasks[sender].job.parent, tasks[sender].job.origin;
    if parent.Some? && TakesNotes(tasks, assignee, parent.value) then target == parent
    else if origin.Some? && TakesNotes(tasks, assignee, origin.value) then target == origin
    else if forall o :: o in tasks ==> !TakesNotes(tasks, assignee, o) then target.None?
    else
      && target.Some? && TakesNotes(tasks, assignee, target.value)
      && var u := tasks[target.value];
         forall o :: o in tasks && TakesNotes(tasks, assignee, o) ==>
           var t := tasks[o];
           && (t.status.Claimed? ==> u.status.Claimed?)
           && (t.status.Waiting? ==> u.status.Claimed? || u.status.Waiting?)
           && (u.status == t.status ==> u.job.created >= t.job.created)
  }

  lemma TargetInColumns(tasks: Tasks, sender: Id, assignee: Name, target: Option<Id>)
    requires sender in tasks && IsMessageTarget(tasks, sender, assignee, target)
    ensures LandsOn(tasks, sender, assignee, target)
  {
    assert forall o :: ReceivesNotes(tasks, assignee, o) <==> TakesNotes(tasks, assignee, o);
  }

  method MessageTarget(store: Store, sender: Id, assignee: Name) returns (target: Option<Id>)
    requires sender in store.tasks
    ensures IsMessageTarget(store.tasks, sender, assignee, target)
    ensures LandsOn(store.tasks, sender, assignee, target)
  {
    target := FindTarget(store, sender, assignee);
    TargetInColumns(store.tasks, sender, assignee, target);
  }

  method FindTarget(store: Store, sender: Id, assignee: Name) returns (target: Option<Id>)
    requires sender in store.tasks
    ensures IsMessageTarget(store.tasks, sender, assignee, target)
  {
    var parent, origin := store.tasks[sender].job.parent, store.tasks[sender].job.origin;
    if parent.Some? && ReceivesNotes(store.tasks, assignee, parent.value) {
      return parent;
    }
    if origin.Some? && ReceivesNotes(store.tasks, assignee, origin.value) {
      return origin;
    }
    var rows := set o | o in store.tasks && ReceivesNotes(store.tasks, assignee, o);
    target := None;
    var todo, seen := rows, {};
    while todo != {}
      invariant seen + todo == rows && seen !! todo
      invariant target.None? <==> seen == {}
      invariant target.Some? ==> target.value in seen
      invariant target.Some? ==> forall o :: o in seen ==> ReachedBefore(store.tasks, target.value, o)
    {
      var o :| o in todo;
      if target.None? || ReachedBefore(store.tasks, o, target.value) {
        target := Some(o);
      }
      todo, seen := todo - {o}, seen + {o};
    }
    assert forall o :: ReceivesNotes(store.tasks, assignee, o) <==> o in rows;
  }

  lemma PeerNoteIsNext(s: State, e: Event)
    requires e.PeerNote?
    ensures Next(s, e) == if EditEnabled(s, e) then EditEffect(s, e) else s
  {
  }

  /** The note transaction: a new note on a claimed row interrupts its turn and gives the attempt back. */
  method AddNote(store: Store, note: Id, target: Id, creator: Name, topic: string, body: string, now: int)
    requires store.Valid() && target in store.tasks
    modifies store
    ensures store.Valid()
    ensures store.View() == Next(old(store.View()), PeerNote(note, target, creator, topic, body, now))
    ensures IsNoted(old(store.View()), store.View(), note, target, creator, topic, body, now)
    ensures store.log == old(store.log) + [PeerNote(note, target, creator, topic, body, now)]
  {
    hide Replay, Next;
    PeerNoteIsNext(store.View(), PeerNote(note, target, creator, topic, body, now));
    NoteInColumns(store.View(), note, target, creator, topic, body, now);
    hide IsNoted;
    if note !in store.notes {
      store.notes := store.notes[note := Note(target, creator, topic, body, now)];
      var t := store.tasks[target];
      if t.status.Claimed? && t.attempts > 0 {
        store.tasks := store.tasks[target := t.(status := Pending, claimedAt := None, attempts := t.attempts - 1,
                                                generation := t.generation + 1)];
        store.agents := PutIdle(store.agents, store.tasks, t.job.assignee, now);
      }
    }
    store.Commit(PeerNote(note, target, creator, topic, body, now));
  }

  /** The row of a message queued for an agent that has nothing to note it on. */
  function MessageRow(origin: Id, creator: Name, assignee: Name, topic: string, body: string): NewRow {
    NewRow(Some(origin), Message, Peer, creator, assignee, topic, body, Pending)
  }

  /** `send_peer_message` */
  method SendPeerMessage(store: Store, keys: MessageKeys, creator: Name, assignee: Name, topic: string, body: string,
                         now: int)
    returns (r: Sending, ghost sender: Id, ghost target: Id)
    requires store.Valid() && now > store.clock
    modifies store
    ensures store.Valid()
    ensures r.UnknownAgent? <==> assignee !in old(store.agents)
    ensures r.NoCoordination? <==>
      assignee in old(store.agents) && forall o :: !IsDelegationParent(old(store.View()), creator, o)
    ensures r.Queued? || r.Noted? ==>
      && IsDelegationParent(old(store.View()), creator, sender) && sender in old(store.tasks)
      && IsActingFor(old(store.View()), creator, sender)
    ensures r.Queued? ==>
      && r.id == keys.queued(sender, assignee, topic, body) && r.id in store.tasks
      && (r.id in old(store.tasks) ==> store.View() == old(store.View()))
      && (r.id !in old(store.tasks) ==>
            && IsMessageTarget(old(store.tasks), sender, assignee, None)
            && LandsOn(old(store.tasks), sender, assignee, None)
            && store.tasks == old(store.tasks)[
                 r.id := FreshRow(None, MessageRow(sender, creator, assignee, topic, body), now)])
    ensures r.Noted? ==>
      && keys.queued(sender, assignee, topic, body) !in old(store.tasks)
      && IsMessageTarget(old(store.tasks), sender, assignee, Some(target)) && target in old(store.tasks)
      && r.id == keys.note(sender, target, assignee, topic, body)
      && LandsOn(old(store.tasks), sender, assignee, Some(target))
      && store.View() == Next(old(store.View()), PeerNote(r.id, target, creator, topic, body, now))
      && IsNoted(old(store.View()), store.View(), r.id, target, creator, topic, body, now)
    ensures r.UnknownAgent? || r.NoCoordination? ==> store.View() == old(store.View())
  {
    hide IsDelegationParent, IsMessageTarget, LandsOn, IsActingFor, IsNoted, Next;
    sender, target := 0, 0;
    if assignee !in store.agents {
      return UnknownAgent, sender, target;
    }
    var found := CoordinationAssignment(store, creator);
    if found.None? {
      return NoCoordination, sender, target;
    }
    sender := found.value;
    ParentIsARow(store.View(), creator, sender);
    var queued := keys.queued(found.value, assignee, topic, body);
    if queued in store.tasks {
      return Queued(queued), sender, target;
    }
    var to := MessageTarget(store, found.value, assignee);
    if to.None? {
      var row := MessageRow(found.value, creator, assignee, topic, body);
      ghost var e;
      var filing;
      filing, e := InsertTask(store, queued, assignee, row, now);
      return Queued(queued), sender, target;
    }
    target := to.value;
    TargetIsARow(store.tasks, sender, assignee, target);
    var note := keys.note(found.value, to.value, assignee, topic, body);
    AddNote(store, note, to.value, creator, topic, body, now);
    r := Noted(note);
  }

  lemma TargetIsARow(tasks: Tasks, sender: Id, assignee: Name, target: Id)
    requires sender in tasks && IsMessageTarget(tasks, sender, assignee, Some(target))
    ensures target in tasks
  {
  }
}
