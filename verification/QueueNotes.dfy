/** Peer notes: a note interrupts a running turn at most once, and costs the task no attempt. */
module QueueNotes {
  import opened Basics
  import opened TaskTable
  import opened QueueEvents
  import opened QueueRuns

  lemma NotesAreKept(s: State, e: Event, note: Id)
    requires note in s.notes
    ensures note in Next(s, e).notes
  {
  }

  lemma {:induction false} NoteIsForever(s: State, log: seq<Event>, i: nat, j: nat, note: Id)
    requires i <= j <= |log| && note in At(s, log, i).notes
    ensures note in At(s, log, j).notes
    decreases j - i
  {
    hide Next;
    if i < j {
      StepAt(s, log, i);
      NotesAreKept(At(s, log, i), log[i], note);
      NoteIsForever(s, log, i + 1, j, note);
    }
  }

  lemma NoteInterrupts(s: State, e: Event)
    requires RowsOk(s) && e.PeerNote? && Enabled(s, e)
    ensures e.note in Next(s, e).notes
    ensures s.tasks[e.task].status.Claimed? ==>
      && Refunded(s.tasks[e.task], Next(s, e).tasks[e.task]) && Next(s, e).tasks[e.task].status.Pending?
      && Spent(Next(s, e), e.task, s.tasks[e.task].generation)
    ensures !s.tasks[e.task].status.Claimed? ==> Next(s, e).tasks == s.tasks
  {
    assert WellFormed(s.tasks[e.task]);
  }

  /**
  A note on a running turn gives the attempt back and makes the turn's token stale for good; sending
  the same note again at any later point, whatever happened in between, interrupts nothing.
  */
  lemma NoteInterruptsOnce(s: State, log: seq<Event>, i: nat, j: nat, again: Event)
    requires s.tasks == map[] && i < j <= |log|
    requires log[i].PeerNote? && Enabled(At(s, log, i), log[i])
    requires again.PeerNote? && again.note == log[i].note
    ensures At(s, log, i).tasks[log[i].task].status.Claimed? ==>
      && Refunds(At(s, log, i), At(s, log, i + 1), log[i].task)
      && !Holds(At(s, log, j), log[i].task, At(s, log, i).tasks[log[i].task].generation)
    ensures Next(At(s, log, j), again) == At(s, log, j)
  {
    hide Next;
    StepMovesRows(s, log, i);
    NoteInterrupts(At(s, log, i), log[i]);
    NoteIsForever(s, log, i + 1, j, again.note);
    var id := log[i].task;
    if At(s, log, i).tasks[id].status.Claimed? {
      SpentForever(s, log, i + 1, j, id, At(s, log, i).tasks[id].generation);
    }
    RepeatedNoteIsIgnored(At(s, log, j), again);
  }

  lemma RepeatedNoteIsIgnored(s: State, e: Event)
    requires e.PeerNote? && e.note in s.notes
    ensures Next(s, e) == s
  {
  }
}
