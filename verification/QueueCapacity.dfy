/** The project capacity limit: admission never exceeds it, and rebalancing settles in one pass. */
module QueueCapacity {
  import opened Basics
  import opened TaskTable
  import opened Routing
  import opened QueueEvents
  import opened QueueRuns

  /** A manual work item filed on a leader replica by name: counted, but not put through admission. */
  predicate BypassesAdmission(s: State, e: Event) {
    e.Insert? && e.requested != s.leader && IsMember(s, e.requested)
    && e.row.kind.Root? && e.row.source.Manual? && e.row.topic == WORK_ITEM
  }

  predicate ChangesPolicy(e: Event) {
    e.SetPolicy? || e.RosterChange?
  }

  lemma PolicyIsFixed(s: State, e: Event)
    requires !ChangesPolicy(e)
    ensures Next(s, e).limit == s.limit && Next(s, e).leader == s.leader && Next(s, e).profiles == s.profiles
  {
    hide ClaimEnabled, InsertEnabled, EditEnabled, OtherEnabled;
    hide ClaimEffect, InsertEffect, EditEffect, SweepEffect, SettingEffect;
  }

  /** Apart from admission no step makes an inactive counted root active. */
  lemma OnlyAdmissionActivates(s: State, e: Event, i: Id)
    requires Enabled(s, e) && i in s.tasks && i in Effect(s, e).tasks
    requires IsCounted(s, s.tasks[i].job) && !IsActive(s.tasks[i].status) && IsActive(Effect(s, e).tasks[i].status)
    ensures e == AdmitRoot(i)
  {
    hide ClaimEnabled, InsertEnabled, EditEnabled, OtherEnabled;
    hide ClaimEffect, InsertEffect, EditEffect, SweepEffect, SettingEffect;
    if UsesClaim(e) {
      ClaimsActivateNothing(s, e, i);
    } else if AddsRow(e) {
      InsertionsActivateNothing(s, e, i);
    } else if EditsOneRow(e) {
      EditsActivateByAdmission(s, e, i);
    } else if Sweeps(e) {
      SweepActivatesNothing(s, e, i);
    }
  }

  lemma ClaimsActivateNothing(s: State, e: Event, i: Id)
    requires UsesClaim(e) && ClaimEnabled(s, e) && i in s.tasks
    ensures IsActive(ClaimEffect(s, e).tasks[i].status) ==> IsActive(s.tasks[i].status)
  {
    hide Trim, Enqueued, HasOpenChild;
  }

  lemma InsertionsActivateNothing(s: State, e: Event, i: Id)
    requires AddsRow(e) && InsertEnabled(s, e) && i in s.tasks
    ensures IsActive(InsertEffect(s, e).tasks[i].status) ==> IsActive(s.tasks[i].status)
  {
    hide IsRoute, MustBuffer;
  }

  lemma EditsActivateByAdmission(s: State, e: Event, i: Id)
    requires EditsOneRow(e) && EditEnabled(s, e) && i in s.tasks && IsCounted(s, s.tasks[i].job)
    ensures IsActive(EditEffect(s, e).tasks[i].status) ==> IsActive(s.tasks[i].status) || e == AdmitRoot(i)
  {
    hide PutIdle;
  }

  lemma SweepActivatesNothing(s: State, e: Event, i: Id)
    requires i in s.tasks && IsCounted(s, s.tasks[i].job)
    ensures IsActive(SweepEffect(s, e).tasks[i].status) ==> IsActive(s.tasks[i].status)
  {
    assert SweepEffect(s, e).tasks[i] == Swept(s, e, i);
  }

  /** A new counted root is active only if there was room for it. */
  lemma NewRootsFit(s: State, e: Event, i: Id)
    requires Enabled(s, e) && i !in s.tasks && i in Effect(s, e).tasks && s.limit > 0
    requires !ChangesPolicy(e) && !BypassesAdmission(s, e)
    requires IsCounted(s, Effect(s, e).tasks[i].job) && IsActive(Effect(s, e).tasks[i].status)
    ensures e.Insert? && e.id == i && |ActiveRoots(s)| < s.limit
  {
  }

  lemma SubsetSize<T>(a: set<T>, b: set<T>)
    requires a <= b
    ensures |a| <= |b|
    ensures |a| == |b| ==> a == b
  {
    var rest := b - a;
    assert b == a + rest;
  }

  /** No transaction but such a filing takes the number of active counted roots above the limit. */
  lemma CapacityOverAStep(s: State, e: Event)
    requires RowsOk(s) && s.limit > 0 && !ChangesPolicy(e) && !BypassesAdmission(s, e)
    ensures |ActiveRoots(Next(s, e))| <= (if |ActiveRoots(s)| > s.limit then |ActiveRoots(s)| else s.limit)
  {
    hide ClaimEnabled, InsertEnabled, EditEnabled, OtherEnabled;
    hide ClaimEffect, InsertEffect, EditEffect, SweepEffect, SettingEffect;
    if Enabled(s, e) {
      var n := Effect(s, e);
      PolicyIsFixed(s, e);
      EveryEventMovesRows(s, e);
      var extra: set<Id> := if e.AdmitRoot? || e.Insert? then {e.id} else {};
      forall i | i in ActiveRoots(n)
        ensures i in ActiveRoots(s) || (i in extra && |ActiveRoots(s)| < s.limit)
      {
        RootGetsActive(s, e, n, i);
      }
      SubsetSize(ActiveRoots(n), ActiveRoots(s) + extra);
      if !(ActiveRoots(n) <= ActiveRoots(s)) {
        assert |ActiveRoots(s) + extra| <= |ActiveRoots(s)| + 1;
      } else {
        SubsetSize(ActiveRoots(n), ActiveRoots(s));
      }
    }
  }

  lemma RootGetsActive(s: State, e: Event, n: State, i: Id)
    requires Enabled(s, e) && n == Effect(s, e) && s.limit > 0 && !ChangesPolicy(e) && !BypassesAdmission(s, e)
    requires RowsMove(s, e, n) && n.leader == s.leader && n.profiles == s.profiles
    requires i in ActiveRoots(n)
    ensures i in ActiveRoots(s) || ((e.AdmitRoot? || e.Insert?) && e.id == i && |ActiveRoots(s)| < s.limit)
  {
    if i in s.tasks {
      assert n.tasks[i].job == s.tasks[i].job;
      if !IsActive(s.tasks[i].status) {
        OnlyAdmissionActivates(s, e, i);
      }
    } else {
      NewRootsFit(s, e, i);
    }
  }

  lemma BypassingRow(s: State, e: Event)
    requires BypassesAdmission(s, e) && InsertEnabled(s, e)
    ensures e.id !in s.tasks && InsertEffect(s, e).tasks == s.tasks[e.id := FreshRow(None, e.row, e.now)]
    ensures IsCounted(s, FreshRow(None, e.row, e.now).job) && e.row.status.Pending?
  {
  }

  /** One more active counted root. */
  lemma ActiveRootsGrow(s: State, n: State, id: Id, t: Task)
    requires id !in s.tasks && n.tasks == s.tasks[id := t] && n.leader == s.leader && n.profiles == s.profiles
    requires IsCounted(s, t.job) && IsActive(t.status)
    ensures |ActiveRoots(n)| == |ActiveRoots(s)| + 1
  {
    assert ActiveRoots(n) == ActiveRoots(s) + {id};
  }

  /** A work item filed on a replica by name is active at once, whatever the limit. */
  lemma DirectReplicaWorkIsAdmitted(s: State, e: Event)
    requires Enabled(s, e) && BypassesAdmission(s, e)
    ensures |ActiveRoots(Next(s, e))| == |ActiveRoots(s)| + 1
  {
    hide ClaimEnabled, InsertEnabled, EditEnabled, OtherEnabled;
    hide ClaimEffect, InsertEffect, EditEffect, SweepEffect, SettingEffect;
    BypassingRow(s, e);
    ActiveRootsGrow(s, InsertEffect(s, e), e.id, FreshRow(None, e.row, e.now));
  }

  // ---- When exactly the limit is kept ----

  /** A limit of 0 is none. */
  predicate KeepsLimit(s: State) {
    s.limit == 0 || |ActiveRoots(s)| <= s.limit
  }

  /** A work item is filed on a replica by name while no slot is free. */
  ghost predicate Overfills(s: State, e: Event) {
    Enabled(s, e) && BypassesAdmission(s, e) && 0 < s.limit <= |ActiveRoots(s)|
  }

  /**
  Over a single transaction, from any state: the active counted roots rise above the limit, or further
  above it, if and only if a work item is filed on a replica by name while no slot is free.
  */
  lemma CapacityIsExceededExactlyWhen(s: State, e: Event)
    requires RowsOk(s) && s.limit > 0 && !ChangesPolicy(e)
    ensures |ActiveRoots(Next(s, e))| > (if |ActiveRoots(s)| > s.limit then |ActiveRoots(s)| else s.limit)
      <==> Overfills(s, e)
  {
    hide Next, Enabled, ActiveRoots;
    if !BypassesAdmission(s, e) {
      CapacityOverAStep(s, e);
    } else if Enabled(s, e) {
      DirectReplicaWorkIsAdmitted(s, e);
    } else {
      DisabledChangesNothing(s, e);
    }
  }

  lemma DisabledChangesNothing(s: State, e: Event)
    requires !Enabled(s, e)
    ensures Next(s, e) == s
  {
  }

  lemma LimitIsKeptExactlyWhen(s: State, e: Event)
    requires RowsOk(s) && !ChangesPolicy(e) && KeepsLimit(s)
    ensures KeepsLimit(Next(s, e)) <==> !Overfills(s, e)
  {
    hide Next, Enabled, ActiveRoots;
    PolicyIsFixed(s, e);
    if s.limit > 0 {
      CapacityIsExceededExactlyWhen(s, e);
    }
  }

  /**
  Capacity over runs: through any stretch without a policy or roster change that starts within the limit,
  every position keeps the limit if and only if at none of them a work item is filed on a replica by name
  while no slot is free.
  */
  lemma {:induction false} CapacityHoldsExactlyWhen(s: State, log: seq<Event>, i: nat, j: nat)
    requires RowsOk(s) && i <= j <= |log| && KeepsLimit(At(s, log, i))
    requires forall k :: i <= k < j ==> !ChangesPolicy(log[k])
    ensures (forall k :: i <= k <= j ==> KeepsLimit(At(s, log, k)))
      <==> (forall k :: i <= k < j ==> !Overfills(At(s, log, k), log[k]))
    decreases j
  {
    hide Next, Enabled, KeepsLimit, Overfills, RowsOk;
    if i < j {
      CapacityHoldsExactlyWhen(s, log, i, j - 1);
      StepAt(s, log, j - 1);
      RunsKeepRowsOk(s, log[..j - 1]);
      if KeepsLimit(At(s, log, j - 1)) {
        LimitIsKeptExactlyWhen(At(s, log, j - 1), log[j - 1]);
      }
    }
  }

  /** In particular when nothing is filed on a replica by name: from the empty queue on, under a fixed policy. */
  lemma CapacityHolds(s: State, log: seq<Event>)
    requires s.tasks == map[] && s.limit > 0
    requires forall k :: 0 <= k < |log| ==> !ChangesPolicy(log[k]) && !BypassesAdmission(At(s, log, k), log[k])
    ensures |ActiveRoots(Replay(s, log))| <= s.limit == Replay(s, log).limit
  {
    hide Next, Enabled;
    NothingIsWrongYet(s);
    assert ActiveRoots(s) == {};
    assert At(s, log, 0) == s;
    CapacityHoldsExactlyWhen(s, log, 0, |log|);
    PolicyStaysFixed(s, log);
    assert log[..|log|] == log && KeepsLimit(At(s, log, |log|));
  }

  lemma {:induction false} PolicyStaysFixed(s: State, log: seq<Event>)
    requires forall k :: 0 <= k < |log| ==> !ChangesPolicy(log[k])
    ensures Replay(s, log).limit == s.limit
  {
    hide Next;
    if log != [] {
      PolicyStaysFixed(s, log[..|log| - 1]);
      PolicyIsFixed(Replay(s, log[..|log| - 1]), log[|log| - 1]);
    }
  }

  const LEADER: Name := 1
  const REPLICA: Name := 2

  /** A new queue with a limit of one and an eligible replica of the leader. */
  function OneSlot(): State {
    State(map[], map[REPLICA := Agent(Idle, None, 0)], map[REPLICA := Profile(LEADER, true)], {}, map[], 1, LEADER, 0,
          false, map[], map[], 0)
  }

  function FiledByName(id: Id, now: int): Event {
    Insert(id, REPLICA, NewRow(None, Root, Manual, 0, REPLICA, WORK_ITEM, "Build it.", Pending), now)
  }

  lemma FilingByName(s: State, id: Id, now: int)
    requires s.leader == LEADER && REPLICA in s.profiles && s.profiles[REPLICA] == Profile(LEADER, true)
    requires id !in s.tasks && now > s.clock
    ensures Enabled(s, FiledByName(id, now)) && BypassesAdmission(s, FiledByName(id, now))
    ensures var n := Next(s, FiledByName(id, now));
      n.leader == s.leader && n.profiles == s.profiles && n.limit == s.limit && n.clock == now
      && n.tasks.Keys == s.tasks.Keys + {id}
  {
  }

  /** Two work items filed on the replica by name: both are active although the limit is one. */
  lemma DirectReplicaWorkExceedsTheLimit()
    ensures IsStart(OneSlot()) && OneSlot().limit == 1
    ensures var log := [FiledByName(0, 1), FiledByName(1, 2)];
      |ActiveRoots(Replay(OneSlot(), log))| == 2 && Overfills(At(OneSlot(), log, 1), log[1])
  {
    hide Next, Enabled, ActiveRoots;
    var s, first, second := OneSlot(), FiledByName(0, 1), FiledByName(1, 2);
    var log := [first, second];
    assert log[..1] == [] + [first] && log == [first] + [second];
    FilingByName(s, 0, 1);
    DirectReplicaWorkIsAdmitted(s, first);
    ReplayOneMore(s, [], first);
    var n := Next(s, first);
    FilingByName(n, 1, 2);
    DirectReplicaWorkIsAdmitted(n, second);
    ReplayOneMore(s, [first], second);
    assert ActiveRoots(s) == {} by { NothingIsActive(s); }
  }

  lemma NothingIsActive(s: State)
    requires s.tasks == map[]
    ensures ActiveRoots(s) == {}
  {
  }

  // ---- Rebalancing ----

  /** Nothing backlogged could still be admitted. */
  predicate BacklogSettled(s: State) {
    BacklogRoots(s) == {} || (s.limit > 0 && |ActiveRoots(s)| >= s.limit)
  }

  predicate Demoted(s: State, n: State, i: Id) {
    i in s.tasks && i in n.tasks && IsCounted(s, s.tasks[i].job)
    && s.tasks[i].status.Pending? && n.tasks[i] == s.tasks[i].(status := Backlog)
  }

  predicate Admitted(s: State, n: State, i: Id) {
    i in s.tasks && i in n.tasks && IsCounted(s, s.tasks[i].job)
    && s.tasks[i].status.Backlog? && n.tasks[i] == s.tasks[i].(status := Pending)
  }

  /** The tables differ only in which counted roots are pending and which are backlogged. */
  ghost predicate OnlyQueueOrderChanges(s: State, n: State) {
    && n == s.(tasks := n.tasks) && n.tasks.Keys == s.tasks.Keys
    && forall i :: i in s.tasks ==> n.tasks[i] == s.tasks[i] || Demoted(s, n, i) || Admitted(s, n, i)
  }

  /** Some backlogged roots have been admitted, oldest first and no more than fit. */
  ghost predicate Admitting(s: State, n: State) {
    && OnlyQueueOrderChanges(s, n)
    && (forall i :: !Demoted(s, n, i))
    && (forall i, k :: Admitted(s, n, i) && k in BacklogRoots(n) ==> Older(n.tasks, i, k))
    && (n.tasks != s.tasks && n.limit > 0 ==> |ActiveRoots(n)| <= n.limit)
  }

  /** What `promote_backlog_roots` must do: admit oldest first, up to the limit, and stop only there. */
  ghost predicate AdmitsOldestFirst(s: State, n: State) {
    Admitting(s, n) && BacklogSettled(n)
  }

  /** Some pending roots have been demoted, newest first and no more than are over the limit. */
  ghost predicate Demoting(s: State, n: State) {
    && OnlyQueueOrderChanges(s, n)
    && (forall i :: !Admitted(s, n, i))
    && (forall i, k :: Demoted(s, n, i) && k in PendingRoots(n) ==> Older(n.tasks, k, i))
    && (n.tasks != s.tasks ==> |ActiveRoots(n)| >= n.limit)
  }

  /** What the demotion statement must do: newest first until the limit is kept or none is pending. */
  ghost predicate DemotesNewestFirst(s: State, n: State) {
    Demoting(s, n) && (|ActiveRoots(n)| <= n.limit || PendingRoots(n) == {})
  }

  lemma NothingAdmittedYet(s: State)
    ensures Admitting(s, s) && Demoting(s, s)
  {
  }

  /** Setting one counted root to a new status moves it in or out of the sets of roots. */
  lemma RootsAfterOneEdit(m: State, id: Id, n: State, status: Status)
    requires id in m.tasks && IsCounted(m, m.tasks[id].job)
    requires n == m.(tasks := m.tasks[id := m.tasks[id].(status := status)])
    ensures ActiveRoots(n) == if IsActive(status) then ActiveRoots(m) + {id} else ActiveRoots(m) - {id}
    ensures BacklogRoots(n) == if status.Backlog? then BacklogRoots(m) + {id} else BacklogRoots(m) - {id}
    ensures PendingRoots(n) == if status.Pending? then PendingRoots(m) + {id} else PendingRoots(m) - {id}
  {
    hide IsManualWorkItem;
    assert forall i :: i in m.tasks ==> (IsCounted(n, n.tasks[i].job) <==> IsCounted(m, m.tasks[i].job));
  }

  lemma OneMoreAdmitted(s: State, m: State, id: Id, n: State)
    requires OnlyQueueOrderChanges(s, m) && (forall i :: !Demoted(s, m, i)) && id in BacklogRoots(m)
    requires n == m.(tasks := m.tasks[id := m.tasks[id].(status := Pending)])
    ensures OnlyQueueOrderChanges(s, n)
    ensures forall i :: !Demoted(s, n, i) && (Admitted(s, n, i) ==> i == id || Admitted(s, m, i))
  {
    SameRoots(s, m);
    hide IsCounted;
    assert s.tasks[id] == m.tasks[id];
    forall i | i in s.tasks
      ensures n.tasks[i] == s.tasks[i] || Admitted(s, n, i)
      ensures !Demoted(s, n, i)
    {
      if i != id {
        assert n.tasks[i] == m.tasks[i];
        assert !Demoted(s, m, i);
        assert Admitted(s, m, i) ==> Admitted(s, n, i);
      }
    }
  }

  lemma AdmittingOneMore(s: State, m: State, id: Id, n: State)
    requires Admitting(s, m) && IsOldest(m.tasks, BacklogRoots(m), id)
    requires m.limit == 0 || |ActiveRoots(m)| < m.limit
    requires n == m.(tasks := m.tasks[id := m.tasks[id].(status := Pending)])
    ensures ActiveRoots(n) == ActiveRoots(m) + {id} && BacklogRoots(n) == BacklogRoots(m) - {id}
    ensures Admitting(s, n)
  {
    RootsAfterOneEdit(m, id, n, Pending);
    OneMoreAdmitted(s, m, id, n);
    hide IsCounted, Older, OnlyQueueOrderChanges, Admitted, Demoted;
    forall i, k | Admitted(s, n, i) && k in BacklogRoots(n)
      ensures Older(n.tasks, i, k)
    {
      AdmittedIsARow(s, n, i);
      AgeIsKept(m, id, n, i, k);
    }
  }

  lemma AdmittedIsARow(s: State, n: State, i: Id)
    requires Admitted(s, n, i)
    ensures i in n.tasks
  {
  }

  lemma AgeIsKept(m: State, id: Id, n: State, i: Id, k: Id)
    requires id in m.tasks && id in n.tasks && i in m.tasks && k in m.tasks
    requires n.tasks == m.tasks[id := n.tasks[id]] && n.tasks[id].job == m.tasks[id].job
    ensures Older(n.tasks, i, k) <==> Older(m.tasks, i, k)
  {
  }

  lemma DemotingOneMore(s: State, m: State, id: Id, n: State)
    requires Demoting(s, m) && IsNewest(m.tasks, PendingRoots(m), id) && |ActiveRoots(m)| > m.limit
    requires n == m.(tasks := m.tasks[id := m.tasks[id].(status := Backlog)])
    ensures ActiveRoots(n) == ActiveRoots(m) - {id} && PendingRoots(n) == PendingRoots(m) - {id}
    ensures Demoting(s, n)
  {
    hide IsCounted, Older;
    RootsAfterOneEdit(m, id, n, Backlog);
    SameRoots(s, m);
    assert s.tasks[id] == m.tasks[id];
    forall i | i in s.tasks
      ensures n.tasks[i] == s.tasks[i] || Demoted(s, n, i)
      ensures !Admitted(s, n, i)
    {
      if i != id {
        assert n.tasks[i] == m.tasks[i];
        assert !Admitted(s, m, i);
        assert Demoted(s, m, i) ==> Demoted(s, n, i);
      }
    }
    hide OnlyQueueOrderChanges;
    forall i, k | Demoted(s, n, i) && k in PendingRoots(n)
      ensures Older(n.tasks, k, i)
    {
      AgeIsKept(m, id, n, k, i);
      if i != id {
        assert Demoted(s, m, i);
      }
    }
  }

  /** The table once the policy row is written and roots that no longer count have left the backlog. */
  function Repoliced(s: State, limit: nat, leader: Name): State {
    var p := s.(limit := limit, leader := leader);
    p.(tasks := map i | i in p.tasks :: Swept(p, ReleaseUncounted, i))
  }

  lemma RepolicedLimit(s: State, limit: nat, leader: Name)
    ensures Repoliced(s, limit, leader).limit == limit
  {
  }

  /** `set_max_active_tasks`, statement by statement. */
  ghost predicate Rebalances(s: State, limit: nat, leader: Name, n: State) {
    SettlesAt(Repoliced(s, limit, leader), n)
  }

  ghost predicate SettlesAt(q: State, n: State) {
    if q.limit == 0 then AdmitsOldestFirst(q, n)
    else exists m :: DemotesNewestFirst(q, m) && AdmitsOldestFirst(m, n)
  }

  lemma SettlingChangesOnlyQueueOrder(q: State, n: State)
    requires SettlesAt(q, n)
    ensures OnlyQueueOrderChanges(q, n)
  {
  }

  lemma SameRoots(s: State, n: State)
    requires OnlyQueueOrderChanges(s, n)
    ensures forall i :: i in s.tasks ==>
      n.tasks[i].job == s.tasks[i].job && (IsCounted(n, n.tasks[i].job) <==> IsCounted(s, s.tasks[i].job))
  {
  }

  /** If nothing may be admitted, the admission pass changes nothing. */
  lemma SettledStaysPut(s: State, n: State)
    requires AdmitsOldestFirst(s, n) && BacklogSettled(s)
    ensures n == s
  {
    if n.tasks != s.tasks {
      var i :| i in s.tasks && n.tasks[i] != s.tasks[i];
      SameRoots(s, n);
      assert Admitted(s, n, i);
      assert i in BacklogRoots(s);
      assert ActiveRoots(s) <= ActiveRoots(n) && i in ActiveRoots(n) && i !in ActiveRoots(s);
      SubsetSize(ActiveRoots(s), ActiveRoots(n));
    }
  }

  /** If the limit is kept or nothing can be demoted, the demotion pass changes nothing. */
  lemma BalancedStaysPut(s: State, n: State)
    requires DemotesNewestFirst(s, n) && (|ActiveRoots(s)| <= s.limit || PendingRoots(s) == {})
    ensures n == s
  {
    if n.tasks != s.tasks {
      var i :| i in s.tasks && n.tasks[i] != s.tasks[i];
      SameRoots(s, n);
      assert Demoted(s, n, i);
      assert i in PendingRoots(s);
      assert ActiveRoots(n) <= ActiveRoots(s) && i in ActiveRoots(s) && i !in ActiveRoots(n);
      SubsetSize(ActiveRoots(n), ActiveRoots(s));
    }
  }

  /** Admitting roots never pushes the pending set over the limit again. */
  lemma AdmissionKeepsBalance(m: State, n: State)
    requires AdmitsOldestFirst(m, n) && m.limit > 0
    requires |ActiveRoots(m)| <= m.limit || PendingRoots(m) == {}
    ensures |ActiveRoots(n)| <= n.limit || PendingRoots(n) == {}
  {
  }

  /** No statement of the rebalance touches a row other than a backlogged or pending manual work item. */
  lemma StartedWorkIsUntouched(s: State, limit: nat, leader: Name, n: State, i: Id)
    requires Rebalances(s, limit, leader, n) && i in s.tasks
    ensures n.tasks.Keys == s.tasks.Keys
    ensures !s.tasks[i].status.Pending? && !s.tasks[i].status.Backlog? ==> n.tasks[i] == s.tasks[i]
    ensures n.tasks[i] == s.tasks[i].(status := n.tasks[i].status)
  {
    SettlingChangesOnlyQueueOrder(Repoliced(s, limit, leader), n);
  }

  /** After a rebalance the limit is kept as far as unstarted work allows, and no slot is left unused. */
  lemma RebalanceSettles(q: State, n: State)
    requires SettlesAt(q, n)
    ensures BacklogSettled(n)
    ensures q.limit > 0 ==> |ActiveRoots(n)| <= q.limit || PendingRoots(n) == {}
  {
    if q.limit > 0 {
      var m :| DemotesNewestFirst(q, m) && AdmitsOldestFirst(m, n);
      AdmissionKeepsBalance(m, n);
    }
  }

  /** The counted roots that are active and no longer unstarted. */
  function StartedRoots(s: State): set<Id> {
    ActiveRoots(s) - PendingRoots(s)
  }

  lemma StartedRootsStay(q: State, n: State)
    requires OnlyQueueOrderChanges(q, n)
    ensures StartedRoots(n) == StartedRoots(q)
  {
    SameRoots(q, n);
    forall i: Id
      ensures i in StartedRoots(n) <==> i in StartedRoots(q)
    {
    }
  }

  /** A rebalance gets below the limit if and only if the work already started leaves it room to. */
  lemma RebalanceKeepsLimitExactlyWhen(s: State, limit: nat, leader: Name, n: State)
    requires Rebalances(s, limit, leader, n) && limit > 0
    ensures |ActiveRoots(n)| <= limit <==> |StartedRoots(Repoliced(s, limit, leader))| <= limit
  {
    var q := Repoliced(s, limit, leader);
    SettlingChangesOnlyQueueOrder(q, n);
    RebalanceSettles(q, n);
    StartedRootsStay(q, n);
    hide Repoliced, SettlesAt;
    SubsetSize(StartedRoots(n), ActiveRoots(n));
  }

  lemma UncountedAreReleasedOnce(s: State, limit: nat, leader: Name, n: State)
    requires OnlyQueueOrderChanges(Repoliced(s, limit, leader), n)
    ensures Repoliced(n, limit, leader) == n
  {
  }

  lemma SettledIsStable(n: State, again: State)
    requires SettlesAt(n, again) && BacklogSettled(n)
    requires n.limit > 0 ==> |ActiveRoots(n)| <= n.limit || PendingRoots(n) == {}
    ensures again == n
  {
    if n.limit == 0 {
      SettledStaysPut(n, again);
    } else {
      var m :| DemotesNewestFirst(n, m) && AdmitsOldestFirst(m, again);
      BalancedStaysPut(n, m);
      SettledStaysPut(n, again);
    }
  }

  /** Rebalancing twice with the same limit and leader is rebalancing once. */
  lemma RebalanceIsIdempotent(s: State, limit: nat, leader: Name, n: State, again: State)
    requires Rebalances(s, limit, leader, n) && Rebalances(n, limit, leader, again)
    ensures again == n
  {
    var q := Repoliced(s, limit, leader);
    SettlingChangesOnlyQueueOrder(q, n);
    RebalanceSettles(q, n);
    UncountedAreReleasedOnce(s, limit, leader, n);
    SettledIsStable(n, again);
  }
}
