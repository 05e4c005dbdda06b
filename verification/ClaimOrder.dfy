/**
The ORDER BY of `claim`: overdue agent work first, then direct work, then a turn preempted by an
operator message that is still queued, then agent work, then everything else.
*/
module ClaimOrder {
  import opened Basics
  import opened TaskTable

  /** SUM(attempts) over a set of rows. */
  ghost function SumAttempts(tasks: Tasks, ids: set<Id>): int
    requires ids <= tasks.Keys
  {
    if ids == {} then 0 else
      var x :| x in ids;
      tasks[x].attempts + SumAttempts(tasks, ids - {x})
  }

  lemma {:induction false} SumSplit(tasks: Tasks, ids: set<Id>, y: Id)
    requires ids <= tasks.Keys && y in ids
    ensures SumAttempts(tasks, ids) == tasks[y].attempts + SumAttempts(tasks, ids - {y})
    decreases |ids|
  {
    var x :| x in ids && SumAttempts(tasks, ids) == tasks[x].attempts + SumAttempts(tasks, ids - {x});
    if x != y {
      SumSplit(tasks, ids - {x}, y);
      SumSplit(tasks, ids - {y}, x);
      assert ids - {x} - {y} == ids - {y} - {x};
    }
  }

  /** A larger table whose extra rows count nothing, and whose old rows did not grow, sums no higher. */
  lemma {:induction false} SumMonotone(t0: Tasks, s0: set<Id>, t1: Tasks, s1: set<Id>)
    requires s0 <= t0.Keys && s1 <= t1.Keys && s0 <= s1
    requires forall x :: x in s0 ==> t1[x].attempts <= t0[x].attempts
    requires forall x :: x in s1 - s0 ==> t1[x].attempts <= 0
    ensures SumAttempts(t1, s1) <= SumAttempts(t0, s0)
    decreases |s1|
  {
    if s1 == {} {
      assert s0 == {};
    } else {
      var y :| y in s1;
      SumSplit(t1, s1, y);
      if y in s0 {
        SumSplit(t0, s0, y);
      } else {
        assert s0 - {y} == s0;
      }
      SumMonotone(t0, s0 - {y}, t1, s1 - {y});
    }
  }

  /** Removing rows with non-negative attempts cannot raise the sum. */
  lemma {:induction false} SumSubset(tasks: Tasks, small: set<Id>, large: set<Id>)
    requires small <= large <= tasks.Keys
    requires forall x :: x in large ==> tasks[x].attempts >= 0
    ensures SumAttempts(tasks, small) <= SumAttempts(tasks, large)
    decreases |large|
  {
    var extra := large - small;
    if extra == {} {
      assert small == large;
    } else {
      var y :| y in extra;
      SumSplit(tasks, large, y);
      SumSubset(tasks, small, large - {y});
    }
  }

  predicate IsDirect(source: Source) {
    source.Chat? || source.Manual?
  }

  /** Direct rows for the same agent created after `id`. */
  function NewerDirect(tasks: Tasks, id: Id): set<Id>
    requires id in tasks
  {
    set n | n in tasks && tasks[n].job.assignee == tasks[id].job.assignee
            && IsDirect(tasks[n].job.source) && tasks[n].job.created > tasks[id].job.created
  }

  ghost function Overtakes(tasks: Tasks, id: Id): int
    requires id in tasks
  {
    SumAttempts(tasks, NewerDirect(tasks, id))
  }

  predicate HasPriorityNote(s: State, id: Id) {
    exists n :: n in s.notes && s.notes[n].task == id && s.notes[n].topic == OPERATOR_PRIORITY
  }

  predicate OperatorMessageQueued(s: State, id: Id)
    requires id in s.tasks
  {
    exists m :: m in s.tasks && m != id && s.tasks[m].job.assignee == s.tasks[id].job.assignee
                && s.tasks[m].status.Pending? && s.tasks[m].job.topic == DASHBOARD_MESSAGE
  }

  function RankOf(source: Source, overtakes: int, preempted: bool): nat {
    if source.Peer? && overtakes >= MAX_DIRECT_CLAIMS_BEFORE_DELEGATION then 0
    else if preempted then 2
    else if IsDirect(source) then 1
    else if source.Peer? then 3
    else 4
  }

  ghost function Rank(s: State, id: Id): nat
    requires id in s.tasks
  {
    RankOf(s.tasks[id].job.source, Overtakes(s.tasks, id), HasPriorityNote(s, id) && OperatorMessageQueued(s, id))
  }

  ghost predicate Precedes(s: State, a: Id, b: Id)
    requires a in s.tasks && b in s.tasks
  {
    Rank(s, a) < Rank(s, b) || (Rank(s, a) == Rank(s, b) && Older(s.tasks, a, b))
  }

  predicate Claimable(s: State, agent: Name, id: Id) {
    && id in s.tasks && s.tasks[id].job.assignee == agent && s.tasks[id].status.Pending?
    && agent in s.agents && !s.agents[agent].status.Paused?
  }

  /** The row the claim query selects. */
  ghost predicate IsFirst(s: State, agent: Name, id: Id) {
    && Claimable(s, agent, id)
    && forall o :: Claimable(s, agent, o) && o != id ==> Precedes(s, id, o)
  }

  /**
  Being overdue is monotone in age, so an agent row without an operator-priority note is only
  claimed once no older agent row of that agent is claimable: agent work is first in, first out.
  */
  lemma PeerWorkIsFifo(s: State, agent: Name, id: Id, older: Id)
    requires forall x :: x in s.tasks ==> s.tasks[x].attempts >= 0
    requires IsFirst(s, agent, id) && s.tasks[id].job.source.Peer? && !HasPriorityNote(s, id)
    requires older in s.tasks && older != id && s.tasks[older].job.source.Peer? && Older(s.tasks, older, id)
    ensures !Claimable(s, agent, older)
  {
    if s.tasks[older].job.assignee == agent {
      SumSubset(s.tasks, NewerDirect(s.tasks, id), NewerDirect(s.tasks, older));
      assert Rank(s, older) <= Rank(s, id);
      assert !Precedes(s, id, older);
    }
  }

  /** Once three newer direct attempts are on the books, no direct row is selected before the agent row. */
  lemma OverdueBeatsDirect(s: State, agent: Name, id: Id, waiting: Id)
    requires IsFirst(s, agent, id) && IsDirect(s.tasks[id].job.source)
    requires waiting in s.tasks && s.tasks[waiting].job.source.Peer?
    requires s.tasks[waiting].job.assignee == agent && s.tasks[waiting].status.Pending?
    ensures Overtakes(s.tasks, waiting) < MAX_DIRECT_CLAIMS_BEFORE_DELEGATION
  {
    assert Claimable(s, agent, waiting);
    assert Precedes(s, id, waiting);
    assert Rank(s, id) != 0;
  }
}
