/** Work is not filed twice: delegations are unique per parent, automatic roots are unique and cooled down. */
module QueueOrigins {
  import opened Basics
  import opened TaskTable
  import opened Routing
  import opened QueueEvents
  import opened QueueRuns

  lemma AtMostOneRowIsNew(s: State, e: Event, id: Id, o: Id)
    requires id in Next(s, e).tasks && id !in s.tasks && o in Next(s, e).tasks && o !in s.tasks
    ensures o == id
  {
  }

  /** No parent has two children with the same assignee and the same normalised topic. */
  ghost predicate DelegationsAreUnique(tasks: Tasks) {
    forall p, c, d | IsChildOf(tasks, c, p) && IsChildOf(tasks, d, p) ::
      (tasks[c].job.assignee == tasks[d].job.assignee
       && NormalTopic(tasks[c].job.topic) == NormalTopic(tasks[d].job.topic)) ==> c == d
  }

  lemma NewDelegationIsUnique(s: State, e: Event, c: Id, p: Id, d: Id)
    requires Enabled(s, e) && c !in s.tasks && d in s.tasks
    requires IsChildOf(Effect(s, e).tasks, c, p) && IsChildOf(s.tasks, d, p)
    ensures Effect(s, e).tasks[c].job.assignee != s.tasks[d].job.assignee
      || NormalTopic(Effect(s, e).tasks[c].job.topic) != NormalTopic(s.tasks[d].job.topic)
  {
    ChildComesFromDelegation(s, e, c);
    assert !SameWorkChild(s.tasks, p, e.route.agent, e.topic, d);
  }

  lemma ChildComesFromDelegation(s: State, e: Event, c: Id)
    requires Enabled(s, e) && c !in s.tasks && c in Effect(s, e).tasks && Effect(s, e).tasks[c].job.parent.Some?
    ensures e.Delegate? && c == e.child
    ensures Effect(s, e).tasks[c].job.parent == Some(e.parent)
    ensures Effect(s, e).tasks[c].job.assignee == e.route.agent && Effect(s, e).tasks[c].job.topic == e.topic
  {
  }

  lemma UniquenessIsKept(s: State, e: Event)
    requires RowsOk(s) && DelegationsAreUnique(s.tasks)
    ensures DelegationsAreUnique(Next(s, e).tasks)
  {
    hide ClaimEnabled, InsertEnabled, EditEnabled, OtherEnabled;
    hide ClaimEffect, InsertEffect, EditEffect, SweepEffect, SettingEffect;
    EveryEventMovesRows(s, e);
    var n := Next(s, e).tasks;
    forall p, c, d | IsChildOf(n, c, p) && IsChildOf(n, d, p) && n[c].job.assignee == n[d].job.assignee
      && NormalTopic(n[c].job.topic) == NormalTopic(n[d].job.topic)
      ensures c == d
    {
      if c in s.tasks && d in s.tasks {
        assert IsChildOf(s.tasks, c, p) && IsChildOf(s.tasks, d, p);
      } else if c !in s.tasks && d !in s.tasks {
        AtMostOneRowIsNew(s, e, c, d);
      } else if c in s.tasks {
        assert IsChildOf(s.tasks, c, p);
        NewDelegationIsUnique(s, e, d, p, c);
      } else {
        assert IsChildOf(s.tasks, d, p);
        NewDelegationIsUnique(s, e, c, p, d);
      }
    }
  }

  lemma {:induction false} RunsKeepDelegationsUnique(s: State, log: seq<Event>)
    requires s.tasks == map[]
    ensures DelegationsAreUnique(Replay(s, log).tasks)
  {
    if log != [] {
      RunsKeepDelegationsUnique(s, log[..|log| - 1]);
      RunsKeepRowsOk(s, log[..|log| - 1]);
      UniquenessIsKept(Replay(s, log[..|log| - 1]), log[|log| - 1]);
    }
  }

  // ---- Automatic work ----

  predicate IsAutomaticRoot(t: Task) {
    t.job.kind.Root? && t.job.source.Automatic?
  }

  /** A caller of the plain insert passing source 'automatic' for a root; the runtime has none. */
  predicate FilesAutomaticDirectly(e: Event) {
    e.Insert? && e.row.kind.Root? && e.row.source.Automatic?
  }

  /** No two open automatic roots share topic and body, and no two share their generator. */
  ghost predicate AutomaticWorkIsUnique(tasks: Tasks) {
    forall a, b :: a in tasks && b in tasks && a != b && IsAutomaticRoot(tasks[a]) && IsAutomaticRoot(tasks[b]) ==>
      AreApart(tasks[a], tasks[b])
  }

  lemma NewAutomaticRootIsUnique(s: State, e: Event, a: Id, b: Id)
    requires Enabled(s, e) && !FilesAutomaticDirectly(e)
    requires a !in s.tasks && a in Effect(s, e).tasks && IsAutomaticRoot(Effect(s, e).tasks[a])
    requires b in s.tasks && IsAutomaticRoot(s.tasks[b])
    ensures Effect(s, e).tasks[a].job.origin != s.tasks[b].job.origin
    ensures IsOpen(s.tasks[b].status) ==> !(Effect(s, e).tasks[a].job.topic == s.tasks[b].job.topic
                                            && Effect(s, e).tasks[a].job.body == s.tasks[b].job.body)
  {
  }

  /** What uniqueness asks of two automatic roots. */
  predicate AreApart(t: Task, u: Task) {
    && t.job.origin != u.job.origin
    && !(IsOpen(t.status) && IsOpen(u.status) && t.job.topic == u.job.topic && t.job.body == u.job.body)
  }

  lemma StayApart(e: Event, a: Id, t: Task, t1: Task, b: Id, u: Task, u1: Task)
    requires Moves(e, a, t, t1) && Moves(e, b, u, u1) && AreApart(t, u)
    ensures AreApart(t1, u1)
  {
  }

  lemma AutomaticStepStaysUnique(s: State, e: Event)
    requires RowsOk(s) && AutomaticWorkIsUnique(s.tasks) && !FilesAutomaticDirectly(e)
    ensures AutomaticWorkIsUnique(Next(s, e).tasks)
  {
    hide ClaimEnabled, InsertEnabled, EditEnabled, OtherEnabled;
    hide ClaimEffect, InsertEffect, EditEffect, SweepEffect, SettingEffect, Moves;
    EveryEventMovesRows(s, e);
    var n := Next(s, e).tasks;
    forall a, b | a in n && b in n && a != b && IsAutomaticRoot(n[a]) && IsAutomaticRoot(n[b])
      ensures AreApart(n[a], n[b])
    {
      if a !in s.tasks && b !in s.tasks {
        AtMostOneRowIsNew(s, e, a, b);
      } else if a !in s.tasks {
        KindIsKept(e, b, s.tasks[b], n[b]);
        NewAutomaticRootIsUnique(s, e, a, b);
      } else if b !in s.tasks {
        KindIsKept(e, a, s.tasks[a], n[a]);
        NewAutomaticRootIsUnique(s, e, b, a);
      } else {
        KindIsKept(e, a, s.tasks[a], n[a]);
        KindIsKept(e, b, s.tasks[b], n[b]);
        StayApart(e, a, s.tasks[a], n[a], b, s.tasks[b], n[b]);
      }
    }
  }

  lemma KindIsKept(e: Event, i: Id, t: Task, u: Task)
    requires Moves(e, i, t, u)
    ensures u.job == t.job && (IsOpen(u.status) ==> IsOpen(t.status))
  {
  }

  /** Over every run: open automatic roots differ in topic or body, and each generator has at most one. */
  lemma {:induction false} RunsKeepAutomaticWorkUnique(s: State, log: seq<Event>)
    requires s.tasks == map[]
    requires forall k :: 0 <= k < |log| ==> !FilesAutomaticDirectly(log[k])
    ensures AutomaticWorkIsUnique(Replay(s, log).tasks)
  {
    if log != [] {
      RunsKeepAutomaticWorkUnique(s, log[..|log| - 1]);
      RunsKeepRowsOk(s, log[..|log| - 1]);
      AutomaticStepStaysUnique(Replay(s, log[..|log| - 1]), log[|log| - 1]);
    }
  }

  /**
  Retry cooldown: once an automatic root has failed or been cancelled at time `t`, no automatic root
  with the same topic and body is created before `t` plus the cooldown then in force.
  */
  lemma RetryCooldownIsKept(s: State, log: seq<Event>, i: nat, j: nat, gone: Id)
    requires s.tasks == map[] && i <= j < |log|
    requires gone in At(s, log, i).tasks && IsAutomaticRoot(At(s, log, i).tasks[gone])
    requires At(s, log, i).tasks[gone].status.Failed? || At(s, log, i).tasks[gone].status.Cancelled?
    requires log[j].InsertAutomatic? && Enabled(At(s, log, j), log[j])
    requires At(s, log, i).tasks[gone].job.topic == log[j].topic && At(s, log, i).tasks[gone].job.body == log[j].body
    ensures At(s, log, i).tasks[gone].completedAt.Some?
    ensures log[j].now >= At(s, log, i).tasks[gone].completedAt.value + At(s, log, j).cooldown
  {
    RunsKeepRowsOk(s, log[..i]);
    TerminalIsFinal(s, log, i, j, gone);
    JobIsForever(s, log, i, j, gone);
    assert !BlocksAutomatic(At(s, log, j), At(s, log, j).tasks[gone], log[j].topic, log[j].body, log[j].now);
  }
}
