/** A waiting task has something to wait for: when exactly a transaction leaves one waiting for nothing. */
module QueueFoundation {
  import opened Basics
  import opened TaskTable
  import opened ClaimOrder
  import opened Routing
  import opened QueueEvents
  import opened QueueRuns
  import opened QueueTree

  /** The open rows an event closes. */
  predicate ClosedBy(s: State, e: Event, c: Id)
    requires c in s.tasks
  {
    match e
    case Complete(a, _, _) => c == a.id
    case Finish(a, _, _, _) => c == a.id
    case FailOrphans(roster) => IsOrphan(s.tasks[c], roster)
    case CancelTree(ids, _) => c in ids
    case _ => false
  }

  /** The waiting rows an event wakes once nothing below them is open, or takes out of the tree itself. */
  predicate LooksAfter(s: State, e: Event, p: Id) {
    match e
    case Complete(a, _, _) => a.job.parent == Some(p)
    case Finish(a, verdict, _, _) => verdict.GaveUp? && a.id in s.tasks && s.tasks[a.id].job.parent == Some(p)
    case CancelTree(ids, _) => p in ids
    case _ => false
  }

  /** The row stays waiting while the event closes all its open children. */
  ghost predicate Strands(s: State, e: Event, p: Id) {
    && p in s.tasks && s.tasks[p].status.Waiting? && !LooksAfter(s, e, p)
    && forall c :: c in s.tasks && IsChildOf(s.tasks, c, p) && IsOpen(s.tasks[c].status) ==> ClosedBy(s, e, c)
  }

  /** The event strands no waiting row, and starts no wait other than by delegating. */
  ghost predicate KeepsFoundation(s: State, e: Event) {
    Enabled(s, e) ==>
      && (forall p :: !Strands(s, e, p))
      && (e.AwaitChildren? ==> s.tasks[e.a.id].status.Waiting?)
  }

  // ---- What an event closes ----

  lemma OpenRowsClose(s: State, e: Event, c: Id)
    requires RowsOk(s) && Enabled(s, e) && c in s.tasks && IsOpen(s.tasks[c].status)
    ensures c in Effect(s, e).tasks
    ensures IsOpen(Effect(s, e).tasks[c].status) <==> !ClosedBy(s, e, c)
  {
    hide ClaimEnabled, InsertEnabled, EditEnabled, OtherEnabled;
    hide ClaimEffect, InsertEffect, EditEffect, SweepEffect, SettingEffect;
    if UsesClaim(e) {
      ClaimsClose(s, e, c);
    } else if AddsRow(e) {
      InsertionsCloseNothing(s, e, c);
    } else if EditsOneRow(e) {
      EditsCloseNothing(s, e, c);
    } else if Sweeps(e) {
      SweptRow(s, e, c);
      SweepsClose(s, e, c);
    }
  }

  lemma ClaimsClose(s: State, e: Event, c: Id)
    requires UsesClaim(e) && ClaimEnabled(s, e) && c in s.tasks && IsOpen(s.tasks[c].status)
    ensures IsOpen(ClaimEffect(s, e).tasks[c].status) <==> !ClosedBy(s, e, c)
  {
    hide Trim, Enqueued, HasOpenChild, IsFirst;
  }

  lemma InsertionsCloseNothing(s: State, e: Event, c: Id)
    requires AddsRow(e) && InsertEnabled(s, e) && c in s.tasks && IsOpen(s.tasks[c].status)
    ensures IsOpen(InsertEffect(s, e).tasks[c].status)
  {
    hide IsRoute, MustBuffer;
  }

  lemma EditsCloseNothing(s: State, e: Event, c: Id)
    requires EditsOneRow(e) && EditEnabled(s, e) && c in s.tasks && IsOpen(s.tasks[c].status)
    ensures IsOpen(EditEffect(s, e).tasks[c].status)
  {
    hide PutIdle;
  }

  lemma SweepsClose(s: State, e: Event, c: Id)
    requires c in s.tasks && IsOpen(s.tasks[c].status) && Sweeps(e)
    ensures IsOpen(Swept(s, e, c).status) <==> !ClosedBy(s, e, c)
  {
  }

  lemma SweptRow(s: State, e: Event, p: Id)
    requires p in SweepEffect(s, e).tasks
    ensures p in s.tasks && SweepEffect(s, e).tasks[p] == Swept(s, e, p)
  {
  }

  // ---- What an event leaves waiting ----

  /** A row that nothing looks after stays waiting through every event that closes rows. */
  lemma StaysWaiting(s: State, e: Event, p: Id)
    requires Enabled(s, e) && (e.Complete? || e.Finish? || e.FailOrphans? || e.CancelTree?)
    requires p in s.tasks && s.tasks[p].status.Waiting? && !LooksAfter(s, e, p)
    ensures p in Effect(s, e).tasks && Effect(s, e).tasks[p].status.Waiting?
  {
    hide InsertEnabled, EditEnabled, OtherEnabled, InsertEffect, EditEffect, SettingEffect, Trim, Enqueued;
    if Sweeps(e) {
      hide Swept;
      assert SweepEffect(s, e).tasks[p] == Swept(s, e, p);
      SweptWaiting(s, e, p);
    }
  }

  lemma SweptWaiting(s: State, e: Event, p: Id)
    requires p in s.tasks && s.tasks[p].status.Waiting? && !LooksAfter(s, e, p) && (e.FailOrphans? || e.CancelTree?)
    ensures Swept(s, e, p).status.Waiting?
  {
  }

  lemma WaitingWasWaiting(s: State, e: Event, p: Id)
    requires Enabled(s, e) && !(e.Delegate? && p == e.parent)
    requires e.AwaitChildren? ==> s.tasks[e.a.id].status.Waiting?
    requires p in Effect(s, e).tasks && Effect(s, e).tasks[p].status.Waiting?
    ensures p in s.tasks && s.tasks[p].status.Waiting?
  {
    hide ClaimEnabled, InsertEnabled, EditEnabled, OtherEnabled;
    hide ClaimEffect, InsertEffect, EditEffect, SweepEffect, SettingEffect;
    if Sweeps(e) {
      SweptRow(s, e, p);
      WaitingRowIsSwept(s, e, p);
    } else if e.AwaitChildren? {
      OnlyTheRowItself(s, e.a, p);
    } else {
      NothingElseStartsToWait(s, e, p);
    }
  }

  lemma OnlyTheRowItself(s: State, a: Assignment, p: Id)
    requires ClaimEnabled(s, AwaitChildren(a))
    ensures p != a.id && p in ClaimEffect(s, AwaitChildren(a)).tasks ==>
      p in s.tasks && ClaimEffect(s, AwaitChildren(a)).tasks[p] == s.tasks[p]
  {
  }

  lemma NothingElseStartsToWait(s: State, e: Event, p: Id)
    requires Enabled(s, e) && !(e.Delegate? && p == e.parent) && !Sweeps(e) && !e.AwaitChildren?
    requires p in Effect(s, e).tasks && Effect(s, e).tasks[p].status.Waiting?
    ensures p in s.tasks && s.tasks[p].status.Waiting?
  {
    hide ClaimEnabled, InsertEnabled, EditEnabled, OtherEnabled;
    hide ClaimEffect, InsertEffect, EditEffect, SweepEffect, SettingEffect;
    if UsesClaim(e) {
      ClaimsStartNoWait(s, e, p);
    } else if AddsRow(e) {
      InsertionsStartNoWait(s, e, p);
    } else if EditsOneRow(e) {
      EditsStartNoWait(s, e, p);
    }
  }

  lemma ClaimsStartNoWait(s: State, e: Event, p: Id)
    requires UsesClaim(e) && !e.AwaitChildren? && ClaimEnabled(s, e)
    requires p in ClaimEffect(s, e).tasks && ClaimEffect(s, e).tasks[p].status.Waiting?
    ensures p in s.tasks && s.tasks[p].status.Waiting?
  {
    hide Trim, Enqueued, HasOpenChild, IsFirst;
  }

  lemma InsertionsStartNoWait(s: State, e: Event, p: Id)
    requires AddsRow(e) && InsertEnabled(s, e) && !(e.Delegate? && p == e.parent)
    requires p in InsertEffect(s, e).tasks && InsertEffect(s, e).tasks[p].status.Waiting?
    ensures p in s.tasks && s.tasks[p].status.Waiting?
  {
    hide IsRoute, IsDelegationParent, MustBuffer;
  }

  lemma EditsStartNoWait(s: State, e: Event, p: Id)
    requires EditsOneRow(e) && EditEnabled(s, e)
    requires p in EditEffect(s, e).tasks && EditEffect(s, e).tasks[p].status.Waiting?
    ensures p in s.tasks && s.tasks[p].status.Waiting?
  {
    hide PutIdle, IsNextBuffered;
  }

  lemma DelegationFoundsItsParent(s: State, e: Event)
    requires e.Delegate? && InsertEnabled(s, e)
    ensures HasOpenChild(InsertEffect(s, e).tasks, e.parent)
  {
    hide IsRoute, SameTopicChild, SameWorkChild;
    assert IsChildOf(InsertEffect(s, e).tasks, e.child, e.parent);
  }

  /** A row that was to be woken and still waits has an open child left. */
  lemma LookedAfterAndWaiting(s: State, e: Event, p: Id)
    requires Enabled(s, e) && LooksAfter(s, e, p) && p in s.tasks && s.tasks[p].status.Waiting?
    requires p in Effect(s, e).tasks && Effect(s, e).tasks[p].status.Waiting?
    ensures HasOpenChild(Effect(s, e).tasks, p)
  {
    hide InsertEnabled, EditEnabled, OtherEnabled, InsertEffect, EditEffect, SettingEffect, Trim, Enqueued;
    if Sweeps(e) {
      CancelledIsNotWaiting(s, e, p);
    } else {
      var n := ClaimEffect(s, e).tasks;
      var done := s.tasks[e.a.id := n[e.a.id]];
      assert n == done && HasOpenChild(done, p);
    }
  }

  lemma CancelledIsNotWaiting(s: State, e: Event, p: Id)
    requires e.CancelTree? && p in e.ids && p in s.tasks && s.tasks[p].status.Waiting?
    ensures !SweepEffect(s, e).tasks[p].status.Waiting?
  {
    assert SweepEffect(s, e).tasks[p] == Swept(s, e, p);
  }

  // ---- The exact condition ----

  lemma WaitingStaysFounded(s: State, e: Event, p: Id)
    requires TreeOk(s) && WaitsAreFounded(s) && KeepsFoundation(s, e) && Enabled(s, e)
    requires p in Effect(s, e).tasks && Effect(s, e).tasks[p].status.Waiting?
    ensures HasOpenChild(Effect(s, e).tasks, p)
  {
    hide ClaimEnabled, InsertEnabled, EditEnabled, OtherEnabled;
    hide ClaimEffect, InsertEffect, EditEffect, SweepEffect, SettingEffect;
    hide ClosedBy, LooksAfter;
    var n := Effect(s, e);
    if e.Delegate? && p == e.parent {
      DelegationFoundsItsParent(s, e);
    } else {
      WaitingWasWaiting(s, e, p);
      if LooksAfter(s, e, p) {
        LookedAfterAndWaiting(s, e, p);
      } else {
        assert !Strands(s, e, p);
        var c :| c in s.tasks && IsChildOf(s.tasks, c, p) && IsOpen(s.tasks[c].status) && !ClosedBy(s, e, c);
        OpenRowsClose(s, e, c);
        EveryEventMovesRows(s, e);
        assert Moves(e, c, s.tasks[c], n.tasks[c]);
        assert IsChildOf(n.tasks, c, p);
      }
    }
  }

  /** Events that close rows add none. */
  lemma StrandedIsUnfounded(s: State, e: Event, p: Id)
    requires TreeOk(s) && WaitsAreFounded(s) && Enabled(s, e) && Strands(s, e, p)
    ensures !WaitsAreFounded(Effect(s, e))
  {
    hide ClaimEnabled, InsertEnabled, EditEnabled, OtherEnabled;
    hide ClaimEffect, InsertEffect, EditEffect, SweepEffect, SettingEffect;
    hide TreeOk, LooksAfter;
    var n := Effect(s, e);
    var last :| last in s.tasks && IsChildOf(s.tasks, last, p) && IsOpen(s.tasks[last].status);
    assert ClosedBy(s, e, last);
    StaysWaiting(s, e, p);
    AddsNothing(s, e);
    assert RowsOk(s) by { TreeRowsOk(s); }
    EveryEventMovesRows(s, e);
    forall c | c in n.tasks && IsChildOf(n.tasks, c, p)
      ensures !IsOpen(n.tasks[c].status)
    {
      assert Moves(e, c, s.tasks[c], n.tasks[c]);
      assert IsChildOf(s.tasks, c, p);
      if IsOpen(s.tasks[c].status) {
        OpenRowsClose(s, e, c);
      }
    }
  }

  lemma TreeRowsOk(s: State)
    requires TreeOk(s)
    ensures RowsOk(s)
  {
  }

  /** A wait entered from a claim is one for nothing: claimed rows have no open child. */
  lemma UnguardedWaitIsUnfounded(s: State, a: Assignment)
    requires TreeOk(s) && ClaimEnabled(s, AwaitChildren(a)) && !s.tasks[a.id].status.Waiting?
    ensures !WaitsAreFounded(ClaimEffect(s, AwaitChildren(a)))
  {
    var n := ClaimEffect(s, AwaitChildren(a)).tasks;
    assert n[a.id].status.Waiting?;
    forall c | c in n && IsChildOf(n, c, a.id)
      ensures !IsOpen(n[c].status)
    {
      assert c != a.id by { assert c in s.tasks && s.tasks[c].job.parent == Some(a.id); }
      assert n[c] == s.tasks[c];
    }
  }

  /** When every waiting row has an open child, it is so after the event if and only if the event keeps it so. */
  lemma FoundationIsKept(s: State, e: Event)
    requires TreeOk(s) && WaitsAreFounded(s)
    ensures WaitsAreFounded(Next(s, e)) <==> KeepsFoundation(s, e)
  {
    hide ClaimEnabled, InsertEnabled, EditEnabled, OtherEnabled;
    hide ClaimEffect, InsertEffect, EditEffect, SweepEffect, SettingEffect;
    hide TreeOk, Strands;
    if Enabled(s, e) {
      var n := Effect(s, e);
      if KeepsFoundation(s, e) {
        forall p | p in n.tasks && n.tasks[p].status.Waiting?
          ensures HasOpenChild(n.tasks, p)
        {
          WaitingStaysFounded(s, e, p);
        }
      } else if p :| Strands(s, e, p) {
        StrandedIsUnfounded(s, e, p);
      } else {
        UnguardedWaitIsUnfounded(s, e.a);
      }
    }
  }

  /** The sweep's waiting-parent rule repairs whatever the excepted events left behind. */
  lemma WakingParentsRestoresFoundation(s: State)
    requires TreeOk(s)
    ensures WaitsAreFounded(Next(s, WakeParents))
  {
    hide Next, RowsOk, LineageOk;
    SweepIsNext(s, WakeParents);
    var n := Next(s, WakeParents);
    forall p | p in n.tasks && n.tasks[p].status.Waiting?
      ensures HasOpenChild(n.tasks, p)
    {
      assert n.tasks[p] == Swept(s, WakeParents, p);
      var c :| c in s.tasks && IsChildOf(s.tasks, c, p) && IsOpen(s.tasks[c].status);
      assert n.tasks[c] == Swept(s, WakeParents, c) && IsChildOf(n.tasks, c, p);
    }
  }
}
