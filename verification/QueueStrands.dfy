/**
Each way of stranding a waiting task, shown on a small queue: a root that waits for one delegation. The
transactions are the ones `QueueFoundation.Strands` and the guard on waiting single out.
*/
module QueueStrands {
  import opened Basics
  import opened TaskTable
  import opened QueueEvents
  import opened QueueRuns
  import opened QueueTree
  import opened QueueFoundation

  const LEAD: Name := 1
  const WORKER: Name := 2

  function RootJob(): Job {
    Job(None, None, Root, Manual, 0, LEAD, "root", "Lead.", 1)
  }

  function ChildJob(): Job {
    Job(Some(0), None, Delegation, Peer, LEAD, WORKER, "part", "Do a part.", 2)
  }

  function Queued(tasks: Tasks): State {
    State(tasks, map[], map[], {}, map[], 0, LEAD, 0, false, map[], map[], 2)
  }

  /** The root waits, its only child has the given status. */
  function OneChild(status: Status): State {
    var root := Task(RootJob(), Waiting, 0, 1, None, None, None, None);
    var child := Task(ChildJob(), status, if status.Claimed? then 1 else 0, 1,
                      if status.Claimed? then Some(3) else None, None, None, None);
    Queued(map[0 := root, 1 := child])
  }

  lemma OneChildIsSound(status: Status)
    requires status.Pending? || status.Claimed?
    ensures TreeOk(OneChild(status)) && WaitsAreFounded(OneChild(status))
  {
    var s := OneChild(status);
    assert IsChildOf(s.tasks, 1, 0) && IsOpen(s.tasks[1].status);
  }

  /** `fail_orphaned_delegations` does not wake the parent; the sweep after it does. */
  lemma FailingOrphansStrands()
    ensures var s := OneChild(Pending);
      TreeOk(s) && WaitsAreFounded(s) && !WaitsAreFounded(Next(s, FailOrphans({LEAD})))
  {
    hide Next, TreeOk, WaitsAreFounded;
    OneChildIsSound(Pending);
    var s, e := OneChild(Pending), FailOrphans({LEAD});
    assert Strands(s, e, 0);
    FoundationIsKept(s, e);
  }

  /** Cancelling the child strands its parent until another statement wakes it, as the dashboard's next one does. */
  lemma CancellingStrands()
    ensures var s := OneChild(Pending);
      TreeOk(s) && WaitsAreFounded(s) && !WaitsAreFounded(Next(s, CancelTree({1}, 4)))
  {
    hide Next, TreeOk, WaitsAreFounded;
    OneChildIsSound(Pending);
    var s, e := OneChild(Pending), CancelTree({1}, 4);
    assert Enabled(s, e) && Strands(s, e, 0);
    FoundationIsKept(s, e);
  }

  /** `finish_claim` only wakes the parent of a failed task. */
  lemma SuccessVerdictStrands()
    ensures var s := OneChild(Claimed);
      && TreeOk(s) && WaitsAreFounded(s)
      && !WaitsAreFounded(Next(s, Finish(AssignmentOf(1, s.tasks[1]), Succeeded, None, 4)))
  {
    hide Next, TreeOk, WaitsAreFounded;
    OneChildIsSound(Claimed);
    var s := OneChild(Claimed);
    var e := Finish(AssignmentOf(1, s.tasks[1]), Succeeded, None, 4);
    assert Enabled(s, e) && Strands(s, e, 0);
    FoundationIsKept(s, e);
  }

  /** `complete_claim` wakes the parent named in the caller's copy of the row. */
  lemma WrongCopyStrands()
    ensures var s := OneChild(Claimed);
      && TreeOk(s) && WaitsAreFounded(s)
      && !WaitsAreFounded(Next(s, Complete(Assignment(1, ChildJob().(parent := None), 1, 1), "Done.", 4)))
  {
    hide Next, TreeOk, WaitsAreFounded;
    OneChildIsSound(Claimed);
    var s := OneChild(Claimed);
    var e := Complete(Assignment(1, ChildJob().(parent := None), 1, 1), "Done.", 4);
    assert Enabled(s, e) by { NoOpenChildOfTheChild(); }
    assert Strands(s, e, 0);
    FoundationIsKept(s, e);
  }

  lemma NoOpenChildOfTheChild()
    ensures !HasOpenChild(OneChild(Claimed).tasks, 1)
  {
  }

  /** `wait_for_children_claim` does not itself ask for a child. */
  lemma UnguardedWaitStrands()
    ensures var s := Queued(map[0 := Task(RootJob(), Claimed, 1, 1, Some(3), None, None, None)]);
      && TreeOk(s) && WaitsAreFounded(s)
      && !WaitsAreFounded(Next(s, AwaitChildren(AssignmentOf(0, s.tasks[0]))))
  {
    var s := Queued(map[0 := Task(RootJob(), Claimed, 1, 1, Some(3), None, None, None)]);
    var e := AwaitChildren(AssignmentOf(0, s.tasks[0]));
    assert TreeOk(s) && Enabled(s, e);
    FoundationIsKept(s, e);
  }
}
