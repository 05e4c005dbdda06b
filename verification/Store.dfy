/**
The store: the queue's tables as mutable fields and one method per transaction. Every method
records its transaction in the ghost `log`, and `Valid` says the fields are exactly what replaying
that log yields; so whatever is proved about every run holds of the store at every moment.
*/
module Store {
  import opened Basics
  import opened TaskTable
  import opened ClaimOrder
  import opened Routing
  import opened QueueEvents
  import opened QueueRuns
  import opened QueueTree
  import opened QueueCapacity
  import opened QueueRecovery
  import opened Promises

  datatype ClaimMutation = Applied | Stale

  datatype Completion = Committed | StaleClaim | OpenChildren

  /** Nobody else touches the queue. */
  ghost predicate NobodyActs(happens: (nat, State) -> seq<Event>) {
    forall n: nat, q: State :: happens(n, q) == []
  }

  lemma NothingHappens(s: State)
    ensures Replay(s, []) == s
  {
  }

  /** How the slots were refilled: which events were one's own, and the positions of the two transactions. */
  datatype Refill = Refill(mine: seq<bool>, from: nat, admission: nat, promotion: nat)

  /**
  Between `from` and `admission` backlogged roots were admitted, so that nothing is left to admit then; and
  from `promotion` on one buffered delegation of the agent was promoted.
  */
  ghost predicate IsRefilled(s: State, log: seq<Event>, since: nat, refill: Refill, agent: Name) {
    && since <= refill.from <= refill.admission <= refill.promotion <= |log|
    && AdmitsOldestFirst(At(s, log, refill.from), At(s, log, refill.admission))
    && BacklogSettled(At(s, log, refill.admission))
    && PromotesOne(At(s, log, refill.promotion), agent, Replay(s, log))
  }

  /** Promoting a delegation does not open or take a slot of the project limit. */
  lemma PromotionKeepsBacklogSettled(s: State, agent: Name, n: State)
    requires BacklogSettled(s) && PromotesOne(s, agent, n)
    ensures BacklogSettled(n)
  {
    assert BacklogRoots(n) == BacklogRoots(s) && ActiveRoots(n) == ActiveRoots(s);
  }

  /** One's own are the events of the two refills. */
  function RefillMarks(since: nat, from: seq<Event>, admission: seq<Event>, promotion: seq<Event>,
                       log: seq<Event>): seq<bool>
    requires since <= |log|
  {
    seq(|log| - since, k => |from| <= since + k < |admission| || |promotion| <= since + k)
  }

  lemma RefillsAreOwn(since: nat, from: seq<Event>, admission: seq<Event>, promotion: seq<Event>, log: seq<Event>)
    requires since <= |log| && admission <= log && OnlyRefills(|from|, admission) && OnlyRefills(|promotion|, log)
    ensures OwnRefills(since, log, RefillMarks(since, from, admission, promotion, log))
  {
    hide Refills;
    forall k | |from| <= k < |admission|
      ensures Refills(log[k])
    {
      assert log[k] == admission[k];
    }
  }

  lemma AdmissionSettles(s: State, n: State)
    requires AdmitsOldestFirst(s, n)
    ensures BacklogSettled(n)
  {
  }

  lemma DisabledDoesNothing(s: State, e: Event)
    requires !Enabled(s, e)
    ensures Next(s, e) == s
  {
  }

  class Store {
    var tasks: Tasks
    var agents: map<Name, Agent>
    var profiles: map<Name, Profile>
    var capabilities: set<(Name, string)>
    var notes: map<Id, Note>
    var limit: nat
    var leader: Name
    var cooldown: nat
    var publishing: bool
    var finalizations: map<Id, Finalization>
    var published: map<Id, Hash>
    /** The creation time of the newest row; a new row is always created later than this. */
    var clock: int
    ghost const start: State
    ghost var log: seq<Event>

    function View(): State
      reads this
    {
      State(tasks, agents, profiles, capabilities, notes, limit, leader, cooldown,
            publishing, finalizations, published, clock)
    }

    ghost predicate Valid()
      reads this
    {
      IsStart(start) && View() == Replay(start, log)
    }

    /** A fresh database: no tasks yet, unlimited capacity, publication off until bootstrap. */
    constructor (leader: Name, cooldown: nat)
      ensures Valid() && log == [] && tasks == map[]
    {
      this.tasks, this.agents, this.profiles, this.capabilities := map[], map[], map[], {};
      this.notes, this.limit, this.leader, this.cooldown := map[], 0, leader, cooldown;
      this.publishing, this.finalizations, this.published := false, map[], map[];
      this.clock, this.log := 0, [];
      this.start := State(map[], map[], map[], {}, map[], 0, leader, cooldown, false, map[], map[], 0);
    }

    /** Appends the transaction just performed to the history. */
    ghost method Commit(e: Event)
      requires IsStart(start) && View() == Next(Replay(start, log), e)
      modifies this`log
      ensures Valid() && log == old(log) + [e]
    {
      ReplayOneMore(start, log, e);
      log := log + [e];
    }

    method SetQueue(n: State)
      modifies this`tasks, this`agents, this`profiles, this`capabilities, this`notes, this`clock
      ensures tasks == n.tasks && agents == n.agents && profiles == n.profiles && capabilities == n.capabilities
      ensures notes == n.notes && clock == n.clock
    {
      tasks, agents, profiles, capabilities, notes := n.tasks, n.agents, n.profiles, n.capabilities, n.notes;
      clock := n.clock;
    }

    method SetSettings(n: State)
      modifies this`limit, this`leader, this`cooldown, this`publishing, this`finalizations, this`published
      ensures limit == n.limit && leader == n.leader && cooldown == n.cooldown && publishing == n.publishing
      ensures finalizations == n.finalizations && published == n.published
    {
      limit, leader, cooldown, publishing := n.limit, n.leader, n.cooldown, n.publishing;
      finalizations, published := n.finalizations, n.published;
    }

    method SetTables(n: State)
      modifies this
      ensures View() == n && log == old(log)
    {
      SetQueue(n);
      SetSettings(n);
    }

    /** What other workers and processes did to the database while this one was away. */
    method Adopt(n: State, ghost others: seq<Event>)
      requires Valid() && n == Replay(View(), others)
      modifies this
      ensures Valid() && View() == n && log == old(log) + others
    {
      hide Replay;
      ReplayOnward(start, log, others);
      log := log + others;
      SetTables(n);
    }

    /** At every moment the invariants of all runs hold of the tables. */
    lemma AlwaysSound()
      requires Valid()
      ensures TreeOk(View())
    {
      RunsKeepTreesSound(start, log);
    }

    lemma ClaimsAreCharged(a: Assignment)
      requires Valid()
      ensures Current(tasks, a) ==> tasks[a.id].attempts > 0
    {
      RunsKeepRowsOk(start, log);
      if Current(tasks, a) {
        assert WellFormed(tasks[a.id]);
      }
    }

    // ---- SQL ----

    /** UPDATE tasks SET … : visits every row once. */
    method UpdateEach(edit: (Id, Task) -> Task)
      modifies this`tasks
      ensures tasks == map i | i in old(tasks) :: edit(i, old(tasks)[i])
    {
      var todo := tasks.Keys;
      while todo != {}
        invariant todo <= tasks.Keys == old(tasks).Keys
        invariant forall i :: i in tasks ==> tasks[i] == if i in todo then old(tasks)[i] else edit(i, old(tasks)[i])
      {
        var i :| i in todo;
        tasks := tasks[i := edit(i, tasks[i])];
        todo := todo - {i};
      }
    }

    /** ORDER BY created_at,id LIMIT 1 */
    method Oldest(ids: set<Id>) returns (first: Option<Id>)
      requires ids <= tasks.Keys
      ensures first.None? <==> ids == {}
      ensures first.Some? ==> IsOldest(tasks, ids, first.value)
    {
      first := None;
      var todo, seen := ids, {};
      while todo != {}
        invariant seen + todo == ids && seen !! todo
        invariant first.None? <==> seen == {}
        invariant first.Some? ==> IsOldest(tasks, seen, first.value)
      {
        var i :| i in todo;
        if first.None? || Older(tasks, i, first.value) {
          first := Some(i);
        }
        todo, seen := todo - {i}, seen + {i};
      }
    }

    /** ORDER BY created_at DESC,id DESC LIMIT 1 */
    method Newest(ids: set<Id>) returns (last: Option<Id>)
      requires ids <= tasks.Keys
      ensures last.None? <==> ids == {}
      ensures last.Some? ==> IsNewest(tasks, ids, last.value)
    {
      last := None;
      var todo, seen := ids, {};
      while todo != {}
        invariant seen + todo == ids && seen !! todo
        invariant last.None? <==> seen == {}
        invariant last.Some? ==> IsNewest(tasks, seen, last.value)
      {
        var i :| i in todo;
        if last.None? || Older(tasks, last.value, i) {
          last := Some(i);
        }
        todo, seen := todo - {i}, seen + {i};
      }
    }

    /** SELECT SUM(attempts) */
    method TotalAttempts(ids: set<Id>) returns (sum: int)
      requires ids <= tasks.Keys
      ensures sum == SumAttempts(tasks, ids)
    {
      sum := 0;
      var todo := ids;
      while todo != {}
        invariant todo <= ids
        invariant sum + SumAttempts(tasks, todo) == SumAttempts(tasks, ids)
      {
        var i :| i in todo;
        SumSplit(tasks, todo, i);
        sum := sum + tasks[i].attempts;
        todo := todo - {i};
      }
    }

    // ---- Claiming ----

    method ClaimRank(id: Id) returns (rank: nat)
      requires id in tasks
      ensures rank == Rank(View(), id)
    {
      var overtakes := TotalAttempts(NewerDirect(tasks, id));
      rank := RankOf(tasks[id].job.source, overtakes, HasPriorityNote(View(), id) && OperatorMessageQueued(View(), id));
    }

    /** The SELECT of `claim`: the agent's pending row with the least rank, then age, then id. */
    method SelectClaim(agent: Name) returns (first: Option<Id>)
      ensures first.None? ==> forall o :: !Claimable(View(), agent, o)
      ensures first.None? <==>
        agent !in agents || agents[agent].status.Paused? || forall o :: !IsQueued(tasks, agent, o)
      ensures first.Some? ==> IsFirst(View(), agent, first.value) && IsInTurn(View(), agent, first.value)
    {
      first := None;
      if agent !in agents || agents[agent].status.Paused? {
        return;
      }
      var rows := set i | i in tasks && tasks[i].job.assignee == agent && tasks[i].status.Pending?;
      var todo, seen := rows, {};
      var best := 0;
      while todo != {}
        invariant seen + todo == rows && seen !! todo
        invariant first.None? <==> seen == {}
        invariant first.Some? ==> first.value in seen && best == Rank(View(), first.value)
        invariant first.Some? ==> forall o :: o in seen && o != first.value ==> Precedes(View(), first.value, o)
      {
        var i :| i in todo;
        var rank := ClaimRank(i);
        if first.None? || rank < best || (rank == best && Older(tasks, i, first.value)) {
          first, best := Some(i), rank;
        }
        todo, seen := todo - {i}, seen + {i};
      }
      assert forall o :: Claimable(View(), agent, o) <==> o in rows;
      assert forall o :: IsQueued(tasks, agent, o) <==> o in rows;
      if first.Some? {
        FirstIsInTurn(View(), agent, first.value);
      }
    }

    method Claim(agent: Name, now: int) returns (r: Option<Assignment>)
      requires Valid()
      modifies this
      ensures Valid()
      ensures r.None? ==> View() == old(View()) && log == old(log) && forall o :: !Claimable(old(View()), agent, o)
      ensures r.None? <==>
        agent !in old(agents) || old(agents)[agent].status.Paused? || forall o :: !IsQueued(old(tasks), agent, o)
      ensures r.Some? ==> IsInTurn(old(View()), agent, r.value.id)
      ensures r.Some? ==>
        var t := old(tasks)[r.value.id];
        View() == old(View()).(tasks := old(tasks)[r.value.id := t.(status := Claimed, claimedAt := Some(now),
          attempts := t.attempts + 1, generation := t.generation + 1, error := None)])
      ensures r.Some? ==>
        && IsFirst(old(View()), agent, r.value.id) && log == old(log) + [QueueEvents.Claim(r.value.id, agent, now)]
        && Current(tasks, r.value) && r.value == AssignmentOf(r.value.id, tasks[r.value.id])
        && r.value.generation == old(tasks)[r.value.id].generation + 1 && r.value.job == old(tasks)[r.value.id].job
        && WasIssued(start, log, r.value)
    {
      hide IsInTurn;
      var first := SelectClaim(agent);
      if first.None? {
        return None;
      }
      var id := first.value;
      var t := tasks[id];
      tasks := tasks[id := t.(status := Claimed, claimedAt := Some(now), attempts := t.attempts + 1,
                              generation := t.generation + 1, error := None)];
      Commit(QueueEvents.Claim(id, agent, now));
      ClaimIssues(start, old(log), QueueEvents.Claim(id, agent, now));
      r := Some(AssignmentOf(id, tasks[id]));
    }

    method RenewClaim(a: Assignment, now: int) returns (r: ClaimMutation)
      requires Valid()
      modifies this
      ensures Valid() && log == old(log) + [Renew(a, now)]
      ensures r.Applied? <==> old(Current(tasks, a))
      ensures r.Stale? ==> View() == old(View())
      ensures r.Applied? ==>
        var g := a.job.assignee;
        View() == old(View()).(tasks := old(tasks)[a.id := old(tasks)[a.id].(claimedAt := Some(now))],
          agents := if g in old(agents) then old(agents)[g := old(agents)[g].(updated := now)] else old(agents))
    {
      if Current(tasks, a) {
        tasks := tasks[a.id := tasks[a.id].(claimedAt := Some(now))];
        if a.job.assignee in agents {
          agents := agents[a.job.assignee := agents[a.job.assignee].(updated := now)];
        }
        r := Applied;
      } else {
        r := Stale;
      }
      Commit(Renew(a, now));
    }

    /** Sets a waiting parent with no open child left back to pending. */
    method WakeParent(parent: Option<Id>)
      modifies this`tasks
      ensures tasks == Wake(old(tasks), parent)
    {
      if parent.Some? && parent.value in tasks && tasks[parent.value].status.Waiting?
         && !HasOpenChild(tasks, parent.value) {
        tasks := tasks[parent.value := tasks[parent.value].(status := Pending, claimedAt := None)];
      }
    }

    /** Frees the slot of a finished row: admits backlogged roots and the agent's next buffered delegation. */
    method PromoteAfter(agent: Name, others: (nat, State) -> State, ghost happens: (nat, State) -> seq<Event>)
      returns (ghost refill: Refill)
      requires Valid() && forall n: nat, q: State :: others(n, q) == Replay(q, happens(n, q))
      modifies this
      ensures Valid() && old(log) <= log && OwnRefills(|old(log)|, log, refill.mine)
      ensures IsRefilled(start, log, |old(log)|, refill, agent)
      ensures NobodyActs(happens) ==>
        refill.from == |old(log)| && refill.promotion == refill.admission && BacklogSettled(View())
    {
      hide Replay, AdmitsOldestFirst, PromotesOne, BacklogSettled, Next, RefillMarks, OwnRefills, LetsIn, IsNextToDo;
      NothingHappens(View());
      Adopt(others(0, View()), happens(0, View()));
      ghost var from := log;
      PromoteBacklogRoots();
      ghost var admission := log;
      assert BacklogSettled(View()) by { AdmissionSettles(Replay(start, from), View()); }
      NothingHappens(View());
      Adopt(others(1, View()), happens(1, View()));
      ghost var promotion := log;
      var _ := PromoteBufferedForAgent(agent);
      refill := Refill(RefillMarks(|old(log)|, from, admission, promotion, log), |from|, |admission|, |promotion|);
      RefillsAreOwn(|old(log)|, from, admission, promotion, log);
      assert log[..|from|] == from && log[..|admission|] == admission && log[..|promotion|] == promotion;
      if NobodyActs(happens) {
        PromotionKeepsBacklogSettled(Replay(start, promotion), agent, View());
      }
    }

    /**
    Returns with the row completed, its release recorded, its parent woken and the freed slots refilled. The
    refills are transactions of their own, and others may act before each of them.
    */
    method CompleteClaim(a: Assignment, text: string, now: int, others: (nat, State) -> State,
                         ghost happens: (nat, State) -> seq<Event>)
      returns (r: Completion, ghost refill: Refill)
      requires Valid() && forall n: nat, q: State :: others(n, q) == Replay(q, happens(n, q))
      modifies this
      ensures Valid() && old(log) + [Complete(a, text, now)] <= log && OwnRefills(|old(log)| + 1, log, refill.mine)
      ensures r == (if HasOpenChild(old(tasks), a.id) then OpenChildren
                    else if !Current(old(tasks), a) then StaleClaim else Committed)
      ensures !r.Committed? ==> View() == old(View())
      ensures r.Committed? ==>
        && At(start, log, |old(log)| + 1) == Next(old(View()), Complete(a, text, now))
        && IsCompletion(old(View()), At(start, log, |old(log)| + 1), a, text, now)
        && IsRefilled(start, log, |old(log)| + 1, refill, a.job.assignee)
      ensures r.Committed? && NobodyActs(happens) ==>
        refill.from == |old(log)| + 1 && refill.promotion == refill.admission && BacklogSettled(View())
    {
      hide BacklogSettled, Replay, IsRefilled, Next, NobodyActs, IsCompletion, IsFinish;
      refill := Refill([], 0, 0, 0);
      if HasOpenChild(tasks, a.id) {
        DisabledDoesNothing(View(), Complete(a, text, now));
        Commit(Complete(a, text, now));
        return OpenChildren, refill;
      }
      if !Current(tasks, a) {
        DisabledDoesNothing(View(), Complete(a, text, now));
        Commit(Complete(a, text, now));
        return StaleClaim, refill;
      }
      CompletionInColumns(View(), a, text, now);
      CommitCompletion(a, text, now);
      ghost var committed := log;
      refill := PromoteAfter(a.job.assignee, others, happens);
      assert log[..|committed|] == committed;
      r := Committed;
    }

    /** The transaction of a completion: the row, its release and its parent. */
    method CommitCompletion(a: Assignment, text: string, now: int)
      requires Valid() && Current(tasks, a) && !HasOpenChild(tasks, a.id)
      modifies this
      ensures Valid() && log == old(log) + [Complete(a, text, now)]
      ensures View() == Next(old(View()), Complete(a, text, now))
    {
      hide Replay, Trim;
      tasks := tasks[a.id := Done(tasks[a.id], Completed, Some(Trim(text)), tasks[a.id].error, now)];
      if publishing && a.job.kind.Root? && !a.job.source.Chat? && Trim(text) != ""
         && a.id !in published && a.id !in finalizations {
        finalizations := finalizations[a.id := Finalization(Blake3(Trim(text)), 0, now, now)];
      }
      WakeParent(a.job.parent);
      Commit(Complete(a, text, now));
    }

    method FinishClaim(a: Assignment, verdict: Verdict, detail: Option<string>, now: int,
                       others: (nat, State) -> State, ghost happens: (nat, State) -> seq<Event>)
      returns (r: ClaimMutation, ghost refill: Refill)
      requires Valid() && forall n: nat, q: State :: others(n, q) == Replay(q, happens(n, q))
      modifies this
      ensures Valid() && old(log) + [Finish(a, verdict, detail, now)] <= log
      ensures OwnRefills(|old(log)| + 1, log, refill.mine)
      ensures r.Applied? <==> Current(old(tasks), a)
      ensures r.Stale? ==> View() == old(View())
      ensures r.Applied? ==>
        && At(start, log, |old(log)| + 1) == Next(old(View()), Finish(a, verdict, detail, now))
        && IsFinish(old(View()), At(start, log, |old(log)| + 1), a, verdict, detail, now)
        && IsRefilled(start, log, |old(log)| + 1, refill, a.job.assignee)
      ensures r.Applied? && NobodyActs(happens) ==>
        refill.from == |old(log)| + 1 && refill.promotion == refill.admission && BacklogSettled(View())
    {
      hide BacklogSettled, Replay, IsRefilled, Next, NobodyActs, IsCompletion, IsFinish;
      refill := Refill([], 0, 0, 0);
      if !Current(tasks, a) {
        DisabledDoesNothing(View(), Finish(a, verdict, detail, now));
        Commit(Finish(a, verdict, detail, now));
        return Stale, refill;
      }
      FinishInColumns(View(), a, verdict, detail, now);
      CommitVerdict(a, verdict, detail, now);
      ghost var committed := log;
      refill := PromoteAfter(a.job.assignee, others, happens);
      assert log[..|committed|] == committed;
      r := Applied;
    }

    /** The transaction of a verdict: the row, and its parent when the task failed. */
    method CommitVerdict(a: Assignment, verdict: Verdict, detail: Option<string>, now: int)
      requires Valid() && Current(tasks, a)
      modifies this
      ensures Valid() && log == old(log) + [Finish(a, verdict, detail, now)]
      ensures View() == Next(old(View()), Finish(a, verdict, detail, now))
    {
      hide Replay;
      var t := tasks[a.id];
      tasks := tasks[a.id := Done(t, VerdictStatus(verdict), t.result, detail, now)];
      if verdict.GaveUp? {
        WakeParent(t.job.parent);
      }
      Commit(Finish(a, verdict, detail, now));
    }

    method RetryClaim(a: Assignment, detail: Option<string>) returns (r: ClaimMutation)
      requires Valid()
      modifies this
      ensures Valid() && log == old(log) + [Retry(a, detail)]
      ensures r.Applied? <==> Current(old(tasks), a)
      ensures View() == old(View()).(tasks :=
        if r.Stale? then old(tasks)
        else old(tasks)[a.id := old(tasks)[a.id].(status := Pending, claimedAt := None, error := detail)])
    {
      r := Stale;
      if Current(tasks, a) {
        tasks := tasks[a.id := tasks[a.id].(status := Pending, claimedAt := None, error := detail)];
        r := Applied;
      }
      Commit(Retry(a, detail));
    }

    method RetryUnstartedClaim(a: Assignment, detail: Option<string>) returns (r: ClaimMutation)
      requires Valid()
      modifies this
      ensures Valid() && log == old(log) + [RetryUnstarted(a, detail)]
      ensures r.Applied? <==> Current(old(tasks), a)
      ensures View() == old(View()).(tasks :=
        if r.Stale? then old(tasks)
        else old(tasks)[a.id := old(tasks)[a.id].(status := Pending, claimedAt := None, error := detail,
                                                  attempts := old(tasks)[a.id].attempts - 1)])
    {
      hide Replay, RowsOk;
      r := Stale;
      ClaimsAreCharged(a);
      if Current(tasks, a) && tasks[a.id].attempts > 0 {
        var t := tasks[a.id];
        tasks := tasks[a.id := t.(status := Pending, claimedAt := None, attempts := t.attempts - 1, error := detail)];
        r := Applied;
      }
      Commit(RetryUnstarted(a, detail));
    }

    method DeferUnstartedClaim(a: Assignment) returns (r: ClaimMutation)
      requires Valid()
      modifies this
      ensures Valid() && log == old(log) + [DeferUnstarted(a)]
      ensures r.Applied? <==> Current(old(tasks), a)
      ensures View() == old(View()).(tasks :=
        if r.Stale? then old(tasks)
        else old(tasks)[a.id := old(tasks)[a.id].(status := Deferred, claimedAt := None,
                                                  attempts := old(tasks)[a.id].attempts - 1)])
    {
      hide Replay, RowsOk;
      r := Stale;
      ClaimsAreCharged(a);
      if Current(tasks, a) && tasks[a.id].attempts > 0 {
        var t := tasks[a.id];
        tasks := tasks[a.id := t.(status := Deferred, claimedAt := None, attempts := t.attempts - 1)];
        r := Applied;
      }
      Commit(DeferUnstarted(a));
    }

    method WaitForChildrenClaim(a: Assignment) returns (r: ClaimMutation)
      requires Valid()
      modifies this
      ensures Valid() && log == old(log) + [AwaitChildren(a)]
      ensures r.Applied? <==> Enabled(old(View()), AwaitChildren(a))
      ensures r.Applied? <==>
        && a.id in old(tasks) && old(tasks)[a.id].job.assignee == a.job.assignee
        && old(tasks)[a.id].generation == a.generation
        && (old(tasks)[a.id].status.Claimed? || old(tasks)[a.id].status.Waiting?)
      ensures r.Stale? ==> View() == old(View())
      ensures r.Applied? ==>
        var t := old(tasks)[a.id];
        View() == old(View()).(tasks := old(tasks)[a.id := t.(status := Waiting, claimedAt := None,
          attempts := if t.status.Claimed? && t.attempts > 0 then t.attempts - 1 else t.attempts)])
    {
      r := Stale;
      if a.id in tasks && tasks[a.id].job.assignee == a.job.assignee && tasks[a.id].generation == a.generation
         && (tasks[a.id].status.Claimed? || tasks[a.id].status.Waiting?) {
        var t := tasks[a.id];
        var attempts := if t.status.Claimed? && t.attempts > 0 then t.attempts - 1 else t.attempts;
        tasks := tasks[a.id := t.(status := Waiting, claimedAt := None, attempts := attempts)];
        r := Applied;
      }
      Commit(AwaitChildren(a));
    }

    // ---- Admission ----

    method PromoteBufferedForAgent(agent: Name) returns (promoted: bool)
      requires Valid()
      modifies this
      ensures Valid() && old(log) <= log && OnlyRefills(|old(log)|, log)
      ensures PromotesOne(old(View()), agent, View())
      ensures promoted <==> exists id :: IsNextBuffered(old(tasks), agent, id)
      ensures if promoted
              then exists id :: IsNextToDo(old(tasks), agent, id)
                     && View() == old(View()).(tasks := old(tasks)[id := old(tasks)[id].(status := Pending)])
              else View() == old(View()) && forall id :: !IsNextToDo(old(tasks), agent, id)
    {
      forall id
        ensures IsNextToDo(tasks, agent, id) <==> IsNextBuffered(tasks, agent, id)
      {
        NextToDoInColumns(tasks, agent, id);
      }
      hide IsNextToDo, Replay, Next;
      var rows := set i | i in tasks && BufferedDelegation(tasks[i], agent);
      var first := Oldest(rows);
      assert forall o :: IsNextBuffered(tasks, agent, o) ==> o in rows;
      if first.None? || AgentBusy(tasks, agent) {
        return false;
      }
      var id := first.value;
      assert IsNextBuffered(tasks, agent, id);
      PromotionEvent(View(), id);
      tasks := tasks[id := tasks[id].(status := Pending)];
      Commit(PromoteBuffered(id));
      promoted := true;
    }

    method AdmitRow(id: Id)
      requires Valid() && IsOldest(tasks, BacklogRoots(View()), id) && (limit == 0 || |ActiveRoots(View())| < limit)
      modifies this`tasks, this`log
      ensures Valid() && log == old(log) + [AdmitRoot(id)]
      ensures tasks == old(tasks)[id := old(tasks)[id].(status := Pending)]
    {
      tasks := tasks[id := tasks[id].(status := Pending)];
      Commit(AdmitRoot(id));
    }

    method DemoteRow(id: Id)
      requires Valid() && IsNewest(tasks, PendingRoots(View()), id) && 0 < limit < |ActiveRoots(View())|
      modifies this`tasks, this`log
      ensures Valid() && log == old(log) + [DemoteRoot(id)]
      ensures tasks == old(tasks)[id := old(tasks)[id].(status := Backlog)]
    {
      tasks := tasks[id := tasks[id].(status := Backlog)];
      Commit(DemoteRoot(id));
    }

    /** One pass of the loop below. */
    method AdmitOldest(ghost before: State, backlog: set<Id>) returns (id: Id)
      requires Valid() && Admitting(before, View()) && backlog == BacklogRoots(View()) && backlog != {}
      requires View() == before.(tasks := tasks) && (limit == 0 || |ActiveRoots(View())| < limit)
      modifies this`tasks, this`log
      ensures Valid() && log == old(log) + [AdmitRoot(id)] && id in backlog
      ensures View() == before.(tasks := tasks) && Admitting(before, View())
      ensures ActiveRoots(View()) == old(ActiveRoots(View())) + {id}
      ensures BacklogRoots(View()) == backlog - {id}
    {
      hide Admitting, Valid, IsCounted, Older;
      var first := Oldest(backlog);
      id := first.value;
      ghost var mid := View();
      AdmitRow(id);
      AdmittingOneMore(before, mid, id, View());
    }

    /** Admits backlogged roots oldest first while there is room (without limit: all of them). */
    method PromoteBacklogRoots()
      requires Valid()
      modifies this`tasks, this`log
      ensures Valid() && old(log) <= log && OnlyRefills(|old(log)|, log)
      ensures AdmitsOldestFirst(old(View()), View()) && LetsIn(old(View()), View())
    {
      hide Admitting, Valid, IsCounted, Older, LetsIn;
      ghost var before := View();
      NothingAdmittedYet(before);
      var active, backlog := ActiveRoots(View()), BacklogRoots(View());
      while backlog != {} && (limit == 0 || |active| < limit)
        invariant Valid() && old(log) <= log && OnlyRefills(|old(log)|, log)
        invariant View() == before.(tasks := tasks)
        invariant active == ActiveRoots(View()) && backlog == BacklogRoots(View())
        invariant Admitting(before, View())
        decreases backlog
      {
        var id := AdmitOldest(before, backlog);
        active, backlog := active + {id}, backlog - {id};
      }
      AdmissionInColumns(before, View());
    }

    /** Demotes pending roots newest first until the limit is kept or none is left. */
    method DemoteExcessRoots()
      requires Valid() && limit > 0
      modifies this`tasks, this`log
      ensures Valid() && old(log) <= log
      ensures DemotesNewestFirst(old(View()), View()) && HoldsBack(old(View()), View())
    {
      hide Demoting, Valid, IsCounted, Older, HoldsBack;
      ghost var before := View();
      NothingAdmittedYet(before);
      var active, pending := ActiveRoots(View()), PendingRoots(View());
      while pending != {} && |active| > limit
        invariant Valid() && old(log) <= log
        invariant View() == before.(tasks := tasks)
        invariant active == ActiveRoots(View()) && pending == PendingRoots(View())
        invariant Demoting(before, View())
        decreases pending
      {
        var last := Newest(pending);
        var id := last.value;
        ghost var mid := View();
        DemoteRow(id);
        DemotingOneMore(before, mid, id, View());
        active, pending := active - {id}, pending - {id};
      }
      DemotionInColumns(before, View());
    }

    method WritePolicy(newLimit: nat, newLeader: Name)
      requires Valid()
      modifies this
      ensures Valid() && log == old(log) + [SetPolicy(newLimit, newLeader)]
      ensures View() == old(View()).(limit := newLimit, leader := newLeader)
    {
      hide Replay;
      limit, leader := newLimit, newLeader;
      Commit(SetPolicy(limit, leader));
    }

    method ReleaseUncountedRows()
      requires Valid()
      modifies this`tasks, this`log
      ensures Valid() && log == old(log) + [ReleaseUncounted] && View() == SweepEffect(old(View()), ReleaseUncounted)
    {
      hide Valid, Next;
      var s := View();
      SweepIsNext(s, ReleaseUncounted);
      SweepRows(ReleaseUncounted, (i: Id, t: Task) =>
        if IsManualWorkItem(t.job) && t.status.Backlog? && !IsCounted(s, t.job) then t.(status := Pending) else t);
    }

    /** Writes the policy row and releases backlogged work items it no longer governs. */
    method RewritePolicy(newLimit: nat, newLeader: Name)
      requires Valid()
      modifies this
      ensures Valid() && old(log) <= log
      ensures View() == Repoliced(old(View()), newLimit, newLeader)
    {
      hide Valid, Swept;
      WritePolicy(newLimit, newLeader);
      ReleaseUncountedRows();
    }

    /** Rewrites the policy row and rebalances the roots it governs. */
    method SetMaxActiveTasks(requested: Option<nat>, newLeader: Name)
      requires Valid()
      modifies this
      ensures Valid() && old(log) <= log
      ensures Rebalances(old(View()), if requested.Some? then requested.value else 0, newLeader, View())
      ensures IsRebalanced(old(View()), if requested.Some? then requested.value else 0, newLeader, View())
      ensures BacklogSettled(View())
      ensures limit > 0 ==> |ActiveRoots(View())| <= limit || PendingRoots(View()) == {}
    {
      hide Valid, Repoliced, AdmitsOldestFirst, DemotesNewestFirst, BacklogSettled, IsRebalanced;
      var newLimit := if requested.Some? then requested.value else 0;
      RewritePolicy(newLimit, newLeader);
      assert limit == newLimit by { RepolicedLimit(old(View()), newLimit, newLeader); }
      if limit > 0 {
        DemoteExcessRoots();
      }
      PromoteBacklogRoots();
      RebalanceSettles(Repoliced(old(View()), newLimit, newLeader), View());
      RebalanceInColumns(old(View()), newLimit, newLeader, View());
    }

    // ---- Recovery ----

    /** Fails pending and buffered delegations to agents that are no longer configured. */
    method FailOrphanedDelegations(roster: set<Name>)
      requires Valid()
      modifies this
      ensures Valid()
      ensures View() == if roster == {} then old(View()) else Next(old(View()), FailOrphans(roster))
      ensures View() == old(View()).(tasks := map i | i in old(tasks) ::
        var t := old(tasks)[i];
        if roster != {} && t.job.kind.Delegation? && (t.status.Pending? || t.status.Buffered?)
           && t.job.assignee !in roster
        then t.(status := Failed, error := Some("assignee is no longer a configured agent")) else t)
    {
      OrphansInColumns(View(), roster);
      hide Next;
      if roster == {} {
        return;
      }
      SweepRows(FailOrphans(roster), (i: Id, t: Task) =>
        if IsOrphan(t, roster) then t.(status := Failed, error := Some(ORPHANED)) else t);
    }

    /** One bulk UPDATE on its own transaction; `edit` is its WHERE and SET clauses. */
    method SweepRows(ghost e: Event, edit: (Id, Task) -> Task)
      requires Valid() && Sweeps(e) && Enabled(View(), e)
      requires forall i :: i in tasks ==> edit(i, tasks[i]) == Swept(View(), e, i)
      modifies this`tasks, this`log
      ensures Valid() && log == old(log) + [e]
      ensures View() == Next(old(View()), e)
    {
      hide Replay, Next, Swept, Enabled;
      ghost var s := View();
      UpdateEach(edit);
      SweepIsNext(s, e);
      assert tasks == SweepEffect(s, e).tasks;
      Commit(e);
    }

    method ExpireClaimedRows(before: int)
      requires Valid()
      modifies this`tasks, this`log
      ensures Valid() && log == old(log) + [ExpireClaims(before)] && View() == Next(old(View()), ExpireClaims(before))
    {
      hide Valid, Next;
      SweepRows(ExpireClaims(before), (i: Id, t: Task) =>
        if t.status.Claimed? && t.claimedAt.Some? && t.claimedAt.value < before
        then t.(status := Pending, claimedAt := None, generation := t.generation + 1) else t);
    }

    method ResumeDeferredRows()
      requires Valid()
      modifies this`tasks, this`log
      ensures Valid() && log == old(log) + [ResumeDeferred] && View() == Next(old(View()), ResumeDeferred)
    {
      hide Valid, Next;
      SweepRows(ResumeDeferred, (i: Id, t: Task) => if t.status.Deferred? then t.(status := Pending) else t);
    }

    method RestoreDelegationRows()
      requires Valid()
      modifies this`tasks, this`log
      ensures Valid() && log == old(log) + [RestoreDelegations] && View() == Next(old(View()), RestoreDelegations)
    {
      hide Valid, Next;
      SweepRows(RestoreDelegations, (i: Id, t: Task) =>
        if t.job.kind.Delegation? && t.job.source.Peer? && t.status.Backlog? then t.(status := Pending) else t);
    }

    method WakeParentRows()
      requires Valid()
      modifies this`tasks, this`log
      ensures Valid() && log == old(log) + [WakeParents] && View() == Next(old(View()), WakeParents)
    {
      hide Valid, Next;
      var rows := tasks;
      SweepRows(WakeParents, (i: Id, t: Task) =>
        if t.status.Waiting? && !HasOpenChild(rows, i) then t.(status := Pending, claimedAt := None) else t);
    }

    /** The four UPDATE statements of the sweep. */
    method SweepStatements(before: int)
      requires Valid()
      modifies this`tasks, this`log
      ensures Valid() && old(log) <= log
      ensures View() == Sweep(old(View()), before)
    {
      hide Valid, Next;
      ExpireClaimedRows(before);
      ResumeDeferredRows();
      RestoreDelegationRows();
      WakeParentRows();
    }

    /** Agents still marked working after the lease ran out are set idle. */
    method IdleStaleAgents(before: int)
      requires Valid()
      modifies this`agents, this`log
      ensures Valid() && log == old(log) + [AgentsChange(agents)] && agents == Idled(old(agents), before)
      ensures agents == map g | g in old(agents) ::
        if old(agents)[g].status.Working? && old(agents)[g].updated < before
        then old(agents)[g].(status := Idle, topic := None) else old(agents)[g]
    {
      hide Replay;
      agents := map g | g in agents :: if agents[g].status.Working? && agents[g].updated < before
                                       then agents[g].(status := Idle, topic := None) else agents[g];
      Commit(AgentsChange(agents));
    }

    method CountExpired(before: int) returns (expired: nat)
      ensures expired == |set i | i in tasks && tasks[i].status.Claimed? && tasks[i].claimedAt.Some?
                                  && tasks[i].claimedAt.value < before|
    {
      expired := |set i | i in tasks && tasks[i].status.Claimed? && tasks[i].claimedAt.Some?
                          && tasks[i].claimedAt.value < before|;
    }

    /**
    The recovery sweep. Exactly the oldest buffered delegation of each agent left without pending,
    claimed or deferred work is promoted, and the resulting queue is not deadlocked.
    */
    method Recover(before: int) returns (expired: nat, ghost swept: State)
      requires Valid()
      modifies this
      ensures Valid() && old(log) <= log
      ensures expired == |set i | i in old(tasks) && old(tasks)[i].status.Claimed? && old(tasks)[i].claimedAt.Some?
                                  && old(tasks)[i].claimedAt.value < before|
      ensures IsRecovered(old(tasks), tasks, before)
      ensures forall i :: i in old(tasks) && old(tasks)[i].status.Claimed? ==>
        var t := old(tasks)[i];
        i in tasks && tasks[i] == if t.claimedAt.Some? && t.claimedAt.value < before
                                  then t.(status := Pending, claimedAt := None, generation := t.generation + 1) else t
      ensures agents == map g | g in old(agents) ::
        if old(agents)[g].status.Working? && old(agents)[g].updated < before
        then old(agents)[g].(status := Idle, topic := None) else old(agents)[g]
      ensures swept == Sweep(old(View()), before).(agents := Idled(old(agents), before))
      ensures PromotesEach(swept, View())
      ensures Recovered(View())
    {
      hide Valid, TreeOk, Recovered, PromotesEach, Sweep, WaitsAreFounded, NoneDeferred, NoDelegationBacklogged;
      hide IsRecovered, Idled, Current;
      expired := CountExpired(before);
      AlwaysSound();
      SweepStatements(before);
      SweepLeavesOrder(old(View()), before);
      IdleStaleAgents(before);
      swept := View();
      PromoteEveryAgent();
      AlwaysSound();
      RecoveryInColumns(old(View()), before, swept, View());
      PromotionCompletesRecovery(Sweep(old(View()), before), swept, View());
    }

    /** One pass of the loop below: `done` are the agents already served. */
    method PromoteNextAgent(ghost rows: Tasks, ghost done: set<Name>, agent: Name)
      requires Valid() && PromotedAmong(rows, done, tasks) && agent !in done
      modifies this
      ensures Valid() && old(log) <= log
      ensures View() == old(View()).(tasks := tasks) && PromotedAmong(rows, done + {agent}, tasks)
    {
      hide Valid, PromotedAmong;
      ghost var mid := tasks;
      var _ := PromoteBufferedForAgent(agent);
      OneMoreAgentPromoted(rows, done, mid, agent, tasks);
    }

    /** The loop of `recover` over every agent with something buffered. */
    method PromoteEveryAgent()
      requires Valid()
      modifies this
      ensures Valid() && old(log) <= log
      ensures PromotesEach(old(View()), View())
    {
      hide Valid, PromotedAmong, IsNextBuffered, PromotesEach;
      ghost var swept := View();
      var todo := set i | i in tasks && tasks[i].status.Buffered? :: tasks[i].job.assignee;
      ghost var all, done := todo, {};
      NoAgentServedYet(tasks);
      while todo != {}
        invariant Valid() && old(log) <= log
        invariant View() == swept.(tasks := tasks)
        invariant done !! todo && done + todo == all && PromotedAmong(swept.tasks, done, tasks)
      {
        var agent :| agent in todo;
        PromoteNextAgent(swept.tasks, done, agent);
        todo, done := todo - {agent}, done + {agent};
      }
      EveryAgentServed(swept, all, View());
    }
  }
}
