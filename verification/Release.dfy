/** The release publisher: backfill, the list of due rows, and the reconciliation of each of them. */
module Release {
  import opened Basics
  import opened TaskTable
  import opened QueueEvents
  import opened QueueRuns
  import opened Outbox
  import opened Store

  const BATCH: nat := 16

  /** A task the outbox knows of. */
  predicate IsKnown(s: State, id: Id) {
    id in s.finalizations || id in s.published
  }

  ghost predicate AllKnown(s: State, ids: set<Id>) {
    forall id :: id in ids ==> IsKnown(s, id)
  }

  /** No transaction forgets a task, or changes what a completed one carries. */
  lemma KnowledgeIsKept(s: State, e: Event, id: Id)
    requires IsKnown(s, id)
    ensures IsKnown(Next(s, e), id)
  {
    hide Next;
    match e
    case Backfill(o, now) =>
      BackfillOfAny(s, o, now);
    case Postpone(o, until) =>
      PostponementEvent(s, o, until);
    case Acknowledge(o, hash) =>
      AcknowledgementEvent(s, o, hash);
    case _ =>
      QueueStepOnOutbox(s, e);
  }

  lemma BackfillOfAny(s: State, id: Id, now: int)
    ensures s.finalizations.Keys <= Next(s, Backfill(id, now)).finalizations.Keys
    ensures Next(s, Backfill(id, now)).published == s.published
    ensures id in s.finalizations ==> Next(s, Backfill(id, now)) == s
  {
    hide ClaimEnabled, InsertEnabled, EditEnabled, ClaimEffect, InsertEffect, EditEffect, SweepEffect;
  }

  lemma {:induction false} OthersKeepWhatIsKnown(s: State, others: seq<Event>, ids: set<Id>)
    requires AllKnown(s, ids)
    ensures AllKnown(Replay(s, others), ids)
  {
    hide Next, IsKnown;
    if others != [] {
      var before, e := Replay(s, others[..|others| - 1]), others[|others| - 1];
      OthersKeepWhatIsKnown(s, others[..|others| - 1], ids);
      forall id | id in ids
        ensures IsKnown(Next(before, e), id)
      {
        KnowledgeIsKept(before, e, id);
      }
    }
  }

  lemma {:induction false} OthersKeepTheSelection(s: State, others: seq<Event>, rows: map<Id, string>)
    requires RowsOk(s) && SelectionOk(s, rows)
    ensures SelectionOk(Replay(s, others), rows)
  {
    hide Next, Carries, IsPublishable, RowsMove, RowsOk;
    if others != [] {
      var before, e := Replay(s, others[..|others| - 1]), others[|others| - 1];
      OthersKeepTheSelection(s, others[..|others| - 1], rows);
      RunsKeepRowsOk(s, others[..|others| - 1]);
      EveryEventMovesRows(before, e);
      forall id | id in rows
        ensures Carries(Next(before, e), id, rows[id]) && id in Next(before, e).tasks
        ensures IsPublishable(Next(before, e).tasks[id])
      {
        CarriesForever(before, e, Next(before, e), id, rows[id]);
        StaysInTheTable(before, e, id);
      }
    }
  }

  lemma StaysInTheTable(s: State, e: Event, id: Id)
    requires RowsMove(s, e, Next(s, e)) && id in s.tasks
    ensures id in Next(s, e).tasks
  {
  }

  /**
  `backfill_release_finalizations`: selects every completed root with something to release and inserts its
  row. Others may act before every insertion; in the end the outbox knows of every task selected. Left alone,
  exactly the selected tasks have got a row.
  */
  method BackfillReleaseFinalizations(store: Store, now: int, meanwhile: (nat, State) -> State,
                                      ghost happens: (nat, State) -> seq<Event>)
    requires store.Valid() && forall n: nat, q: State :: meanwhile(n, q) == Replay(q, happens(n, q))
    modifies store
    ensures store.Valid() && old(store.log) <= store.log
    ensures forall id :: DueForRelease(old(store.View()), id) ==> IsKnown(store.View(), id)
    ensures forall id :: AwaitsRelease(old(store.View()), id) ==> id in store.finalizations || id in store.published
    ensures NobodyActs(happens) ==> forall id ::
      id in store.finalizations <==> id in old(store.finalizations) || AwaitsRelease(old(store.View()), id)
    ensures NobodyActs(happens) ==>
      && store.View() == old(store.View()).(finalizations := store.finalizations)
      && (forall id :: !DueForRelease(store.View(), id))
      && (forall id ::
            id in store.finalizations <==> id in old(store.finalizations) || DueForRelease(old(store.View()), id))
      && (forall id :: id in old(store.finalizations) ==> store.finalizations[id] == old(store.finalizations)[id])
      && (forall id :: DueForRelease(old(store.View()), id) ==>
            store.finalizations[id] == Finalization(Blake3(old(store.tasks)[id].result.value), 0, now, now))
  {
    hide DueForRelease, Filed, SelectionOk, Replay, AllKnown, IsKnown, AwaitsRelease;
    ghost var s := store.View();
    var rows := Selection(store.View());
    SelectionIsSound(s);
    SelectedAreDue(s);
    var todo := rows.Keys;
    NothingFiledYet(s, now);
    assert rows.Keys - todo == {};
    assert AllKnown(s, {}) by { NothingToKnow(s); }
    while todo != {}
      invariant store.Valid() && old(store.log) <= store.log
      invariant todo <= rows.Keys && SelectionOk(store.View(), rows) && AllKnown(store.View(), rows.Keys - todo)
      invariant NobodyActs(happens) ==> Filed(s, rows.Keys - todo, now, store.View())
    {
      var id :| id in todo;
      var next := meanwhile(|todo|, store.View());
      InsertNext(store, s, rows, rows.Keys - todo, id, now, next, happens(|todo|, store.View()));
      assert rows.Keys - (todo - {id}) == (rows.Keys - todo) + {id};
      todo := todo - {id};
    }
    assert rows.Keys - todo == rows.Keys;
    KnownAtLast(s, store.View());
    if NobodyActs(happens) {
      AllFiled(s, rows.Keys, now, store.View());
    }
  }

  /** A completed root that is no message, has something to release, and is neither pending nor published. */
  predicate AwaitsRelease(s: State, id: Id) {
    && id in s.tasks && s.tasks[id].status.Completed? && s.tasks[id].job.kind.Root? && !s.tasks[id].job.source.Chat?
    && s.tasks[id].result.Some? && SqlTrim(s.tasks[id].result.value) != ""
    && id !in s.finalizations && id !in s.published
  }

  lemma AwaitsInColumns(s: State)
    ensures forall id :: AwaitsRelease(s, id) <==> DueForRelease(s, id)
  {
  }

  lemma SelectedAreDue(s: State)
    ensures Selection(s).Keys == set id | id in s.tasks && DueForRelease(s, id)
  {
  }

  lemma NothingToKnow(s: State)
    ensures AllKnown(s, {})
  {
  }

  lemma KnownAtLast(s: State, n: State)
    requires AllKnown(n, Selection(s).Keys)
    ensures forall id :: DueForRelease(s, id) ==> IsKnown(n, id)
    ensures forall id :: AwaitsRelease(s, id) ==> id in n.finalizations || id in n.published
  {
    AwaitsInColumns(s);
    hide AwaitsRelease;
    forall id | DueForRelease(s, id)
      ensures id in Selection(s)
    {
    }
  }

  /** One pass of the loop above: others act, and one row is inserted unless it is there. */
  method InsertNext(store: Store, ghost s: State, rows: map<Id, string>, ghost ids: set<Id>, id: Id, now: int,
                    next: State, ghost others: seq<Event>)
    requires store.Valid() && next == Replay(store.View(), others)
    requires SelectionOk(store.View(), rows) && AllKnown(store.View(), ids) && ids <= rows.Keys
    requires id in rows && id !in ids && rows == Selection(s)
    modifies store
    ensures store.Valid() && old(store.log) <= store.log
    ensures SelectionOk(store.View(), rows) && AllKnown(store.View(), ids + {id})
    ensures others == [] && old(Filed(s, ids, now, store.View())) ==> Filed(s, ids + {id}, now, store.View())
  {
    hide Replay, Next, DueForRelease, Filed, SelectionOk, AllKnown, RowsOk;
    RunsKeepRowsOk(store.start, store.log) by { StartHasNoRows(store.start); }
    OthersKeepTheSelection(store.View(), others, rows);
    OthersKeepWhatIsKnown(store.View(), others, ids);
    assert others == [] ==> next == store.View() by { NothingHappens(store.View()); }
    store.Adopt(next, others);
    ghost var mid := store.View();
    InsertOrIgnore(store, rows, id, now);
    InsertedIsKnown(mid, ids, rows, id, now, store.View());
    if Filed(s, ids, now, mid) {
      OneMoreInserted(s, ids, rows, id, now, mid, store.View());
    }
  }

  lemma StartHasNoRows(s: State)
    requires IsStart(s)
    ensures RowsOk(s)
  {
  }

  /** The tables after INSERT OR IGNORE. */
  ghost predicate IsInserted(m: State, text: string, id: Id, now: int, n: State) {
    n == m.(finalizations := if id in m.finalizations then m.finalizations
                             else m.finalizations[id := Finalization(Blake3(text), 0, now, now)])
  }

  lemma InsertedIsKnown(m: State, ids: set<Id>, rows: map<Id, string>, id: Id, now: int, n: State)
    requires AllKnown(m, ids) && id in rows && SelectionOk(m, rows) && IsInserted(m, rows[id], id, now, n)
    ensures AllKnown(n, ids + {id}) && SelectionOk(n, rows)
  {
  }

  lemma OneMoreInserted(s: State, ids: set<Id>, rows: map<Id, string>, id: Id, now: int, m: State, n: State)
    requires Filed(s, ids, now, m) && rows == Selection(s) && id in rows && id !in ids
    requires IsInserted(m, rows[id], id, now, n)
    ensures Filed(s, ids + {id}, now, n)
  {
    StillDue(s, ids, id, now, m);
    OneMoreFiled(s, ids, id, now, m, n);
  }

  lemma AllFiled(s: State, due: set<Id>, now: int, n: State)
    requires Filed(s, due, now, n) && due == set id | id in s.tasks && DueForRelease(s, id)
    ensures n == s.(finalizations := n.finalizations) && forall id :: !DueForRelease(n, id)
    ensures forall id :: id in n.finalizations <==> id in s.finalizations || DueForRelease(s, id)
    ensures forall id :: id in n.finalizations <==> id in s.finalizations || AwaitsRelease(s, id)
    ensures forall id :: id in s.finalizations ==> n.finalizations[id] == s.finalizations[id]
    ensures forall id :: DueForRelease(s, id) ==>
      n.finalizations[id] == Finalization(Blake3(s.tasks[id].result.value), 0, now, now)
  {
    AwaitsInColumns(s);
    assert forall id :: DueForRelease(s, id) <==> id in due;
  }

  /** The outbox after the rows of `ids` were inserted. */
  ghost predicate Filed(s: State, ids: set<Id>, now: int, n: State) {
    && n == s.(finalizations := n.finalizations)
    && (forall id :: id in ids ==> DueForRelease(s, id))
    && n.finalizations == map id | id in s.finalizations.Keys + ids ::
         if id in s.finalizations then s.finalizations[id]
         else Finalization(Blake3(s.tasks[id].result.value), 0, now, now)
  }

  lemma NothingFiledYet(s: State, now: int)
    ensures Filed(s, {}, now, s)
  {
  }

  lemma StillDue(s: State, ids: set<Id>, id: Id, now: int, n: State)
    requires Filed(s, ids, now, n) && DueForRelease(s, id) && id !in ids
    ensures DueForRelease(n, id) && n.tasks == s.tasks && id in s.tasks && s.tasks[id].result.Some?
  {
  }

  lemma OneMoreFiled(s: State, ids: set<Id>, id: Id, now: int, m: State, n: State)
    requires Filed(s, ids, now, m) && DueForRelease(s, id)
    requires n == m.(finalizations :=
                       m.finalizations[id := Finalization(Blake3(s.tasks[id].result.value), 0, now, now)])
    ensures Filed(s, ids + {id}, now, n)
  {
  }

  /** INSERT OR IGNORE INTO release_finalizations */
  method InsertOrIgnore(store: Store, rows: map<Id, string>, id: Id, now: int)
    requires store.Valid() && id in rows && SelectionOk(store.View(), rows)
    modifies store
    ensures store.Valid() && store.log == old(store.log) + [Backfill(id, now)]
    ensures IsInserted(old(store.View()), rows[id], id, now, store.View())
  {
    hide Next, Replay, IsPublishable;
    if id in store.finalizations {
      BackfillOfAny(store.View(), id, now);
    } else {
      assert Carries(store.View(), id, rows[id]);
      BackfillEvent(store.View(), id, now);
      store.finalizations := store.finalizations[id := Finalization(Blake3(rows[id]), 0, now, now)];
    }
    store.Commit(Backfill(id, now));
  }

  /** INSERT OR IGNORE INTO published_task_releases; DELETE FROM release_finalizations */
  method AcknowledgeRelease(store: Store, id: Id, hash: Hash)
    requires store.Valid()
    modifies store
    ensures store.Valid() && store.View() == Next(old(store.View()), Acknowledge(id, hash))
  {
    hide Replay, Next;
    AcknowledgementEvent(store.View(), id, hash);
    if id !in store.published {
      store.published := store.published[id := hash];
    }
    if id in store.finalizations && store.finalizations[id].hash == hash {
      store.finalizations := store.finalizations - {id};
    }
    store.Commit(Acknowledge(id, hash));
  }

  method RecordFailure(store: Store, id: Id, until: int)
    requires store.Valid()
    modifies store
    ensures store.Valid() && store.View() == Next(old(store.View()), Postpone(id, until))
  {
    hide Replay, Next;
    PostponementEvent(store.View(), id, until);
    if id in store.finalizations {
      var f := store.finalizations[id];
      store.finalizations := store.finalizations[id := f.(attempts := f.attempts + 1, nextAttempt := until)];
    }
    store.Commit(Postpone(id, until));
  }

  predicate IsDue(s: State, id: Id, now: int) {
    id in s.finalizations && s.finalizations[id].nextAttempt <= now && id in s.tasks && s.tasks[id].result.Some?
  }

  /** ORDER BY next_attempt_at,created_at */
  predicate DueNoLater(s: State, a: Id, b: Id) {
    && a in s.finalizations && b in s.finalizations
    && var f, g := s.finalizations[a], s.finalizations[b];
       f.nextAttempt < g.nextAttempt || (f.nextAttempt == g.nextAttempt && f.created <= g.created)
  }

  function Snapshot(s: State, id: Id): Publication
    requires id in s.finalizations && id in s.tasks && s.tasks[id].result.Some?
  {
    Publication(id, s.finalizations[id].hash, s.tasks[id].result.value, s.finalizations[id].attempts, Loaded)
  }

  method FirstDue(store: Store, rows: set<Id>) returns (first: Id)
    requires rows != {} && rows <= store.finalizations.Keys
    ensures first in rows && forall o :: o in rows ==> DueNoLater(store.View(), first, o)
  {
    first :| first in rows;
    var todo, seen := rows - {first}, {first};
    while todo != {}
      invariant seen + todo == rows && seen !! todo && first in seen
      invariant forall o :: o in seen ==> DueNoLater(store.View(), first, o)
    {
      var o :| o in todo;
      if DueNoLater(store.View(), o, first) {
        first := o;
      }
      todo, seen := todo - {o}, seen + {o};
    }
  }

  predicate Lists(due: seq<Publication>, id: Id) {
    exists k :: 0 <= k < |due| && due[k].task == id
  }

  lemma ListsOneMore(due: seq<Publication>, p: Publication, id: Id)
    ensures Lists(due + [p], id) <==> Lists(due, id) || p.task == id
  {
    if Lists(due, id) {
      var k :| 0 <= k < |due| && due[k].task == id;
      assert (due + [p])[k].task == id;
    }
    if p.task == id {
      assert (due + [p])[|due|].task == id;
    }
  }

  /** The tasks of the due rows. */
  function Tried(due: seq<Publication>): set<Id> {
    set k | 0 <= k < |due| :: due[k].task
  }

  /** The rows that are due, by the columns. */
  function DueNow(s: State, now: int): set<Id> {
    set id | id in s.finalizations && id in s.tasks && s.tasks[id].result.Some?
             && s.finalizations[id].nextAttempt <= now
  }

  /** `due_release_finalizations`: up to `limit` due rows, the longest due first, joined with their tasks. */
  method DueReleaseFinalizations(store: Store, now: int, limit: nat) returns (due: seq<Publication>)
    ensures |due| <= limit && Tried(due) <= DueNow(store.View(), now)
    ensures |due| < limit ==> Tried(due) == DueNow(store.View(), now)
    ensures forall k :: 0 <= k < |due| ==>
      var id := due[k].task;
      && id in store.finalizations && due[k].hash == store.finalizations[id].hash
      && due[k].attempts == store.finalizations[id].attempts
      && id in store.tasks && store.tasks[id].result == Some(due[k].content)
    ensures forall k :: 0 <= k < |due| ==>
      IsDue(store.View(), due[k].task, now) && due[k] == Snapshot(store.View(), due[k].task)
    ensures forall j, k :: 0 <= j < k < |due| ==>
      due[j].task != due[k].task && DueNoLater(store.View(), due[j].task, due[k].task)
    ensures forall id :: IsDue(store.View(), id, now) && !Lists(due, id) ==>
      |due| == limit && forall k :: 0 <= k < |due| ==> DueNoLater(store.View(), due[k].task, id)
  {
    hide DueNoLater, Lists;
    var s := store.View();
    var rows := set id | id in s.finalizations && IsDue(s, id, now);
    var rest := rows;
    due := [];
    assert forall id :: !Lists(due, id) by { NothingListed(); }
    while rest != {} && |due| < limit
      invariant |due| <= limit && rest <= rows
      invariant forall k :: 0 <= k < |due| ==> due[k].task in rows - rest && due[k] == Snapshot(s, due[k].task)
      invariant forall id :: id in rows ==> (id in rest <==> !Lists(due, id))
      invariant forall j, k :: 0 <= j < k < |due| ==>
        due[j].task != due[k].task && DueNoLater(s, due[j].task, due[k].task)
      invariant forall k, id :: 0 <= k < |due| && id in rest ==> DueNoLater(s, due[k].task, id)
      decreases rest
    {
      var id := FirstDue(store, rest);
      forall o: Id
        ensures Lists(due + [Snapshot(s, id)], o) <==> Lists(due, o) || o == id
      {
        ListsOneMore(due, Snapshot(s, id), o);
      }
      due := due + [Snapshot(s, id)];
      rest := rest - {id};
    }
    assert forall id :: IsDue(s, id, now) ==> id in rows;
    ListsIsTried(due);
    assert forall id :: IsDue(s, id, now) <==> id in DueNow(s, now);
  }

  lemma NothingListed()
    ensures forall id :: !Lists([], id)
  {
  }

  /** The lines of `write`, in order. */
  const WRITE: seq<Step> := [CheckHash(0), WriteFile(0), AddRow(0), CheckFile(0), CheckRow(0)]

  function Reached(lines: nat): Stage {
    match lines
    case 0 => Loaded
    case 1 => HashChecked
    case 2 => FileWritten
    case 3 => RowAdded
    case 4 => FileChecked
    case _ => RowChecked
  }

  /** One try of `reconcile_one` of which the first `lines` lines succeed. */
  function Attempt(lines: nat, now: int): seq<Step> {
    if lines < |WRITE| then WRITE[..lines] + [Fail(0, now)] else WRITE + [Confirm(0)]
  }

  lemma RunOneMore(w: World, steps: seq<Step>, x: Step)
    ensures Run(w, steps + [x]) == Then(Run(w, steps), x)
  {
  }

  lemma NothingRun(w: World)
    ensures Run(w, WRITE[..0]) == w
  {
  }

  function OneInFlight(q: State, releases: map<Hash, Release>, files: map<Hash, string>, p: Publication): World {
    World(q, releases, files, map[0 := p], map[])
  }

  lemma HashLine(q: State, releases: map<Hash, Release>, files: map<Hash, string>, p: Publication)
    requires p.stage.Loaded? && Blake3(p.content) == p.hash
    ensures Then(OneInFlight(q, releases, files, p), CheckHash(0)) ==
      OneInFlight(q, releases, files, p.(stage := HashChecked))
  {
  }

  lemma FileLine(q: State, releases: map<Hash, Release>, files: map<Hash, string>, p: Publication,
                 now: map<Hash, string>)
    requires p.stage.HashChecked? && Blake3(p.content) == p.hash
    requires now == if FileMatches(files, p.hash) then files else files[p.hash := p.content]
    ensures Then(OneInFlight(q, releases, files, p), WriteFile(0)) ==
      OneInFlight(q, releases, now, p.(stage := FileWritten))
    ensures FileMatches(now, p.hash)
  {
  }

  lemma RowLine(q: State, releases: map<Hash, Release>, files: map<Hash, string>, p: Publication,
                now: map<Hash, Release>)
    requires p.stage.FileWritten?
    requires p.hash in releases ==> RowMatches(releases, p.hash, p.content)
    requires now == if p.hash in releases then releases else releases[p.hash := Release(p.content, p.hash)]
    ensures RowMatches(now, p.hash, p.content)
    ensures Then(OneInFlight(q, releases, files, p), AddRow(0)) == OneInFlight(q, now, files, p.(stage := RowAdded))
  {
  }

  lemma CheckLines(q: State, releases: map<Hash, Release>, files: map<Hash, string>, p: Publication)
    requires p.stage.RowAdded? && FileMatches(files, p.hash)
    requires RowMatches(releases, p.hash, p.content)
    ensures Then(OneInFlight(q, releases, files, p), CheckFile(0)) ==
      OneInFlight(q, releases, files, p.(stage := FileChecked))
    ensures Then(OneInFlight(q, releases, files, p.(stage := FileChecked)), CheckRow(0)) ==
      OneInFlight(q, releases, files, p.(stage := RowChecked))
  {
  }

  lemma OneMoreLine(w: World, k: nat)
    requires k < |WRITE|
    ensures Run(w, WRITE[..k + 1]) == Then(Run(w, WRITE[..k]), WRITE[k])
  {
    assert WRITE[..k + 1] == WRITE[..k] + [WRITE[k]];
    RunOneMore(w, WRITE[..k], WRITE[k]);
  }

  lemma {:induction false} StepsKeepOutboxSound(w: World, steps: seq<Step>)
    requires OutboxSound(w)
    ensures OutboxSound(Run(w, steps))
  {
    hide OutboxSound, Then;
    if steps != [] {
      StepsKeepOutboxSound(w, steps[..|steps| - 1]);
      SoundnessIsKept(Run(w, steps[..|steps| - 1]), steps[|steps| - 1]);
    }
  }

  lemma HashIsRight(w: World)
    requires OutboxSound(w) && 0 in w.publications
    ensures Blake3(w.publications[0].content) == w.publications[0].hash
    ensures w.publications[0].hash in w.releases ==>
      RowMatches(w.releases, w.publications[0].hash, w.publications[0].content)
  {
  }

  /** I/O lets every line of `write` succeed. */
  predicate ComesThrough(p: Publication, reach: Id -> nat) {
    reach(p.task) >= |WRITE|
  }

  /** The tasks among the due rows that I/O lets come through. */
  function Through(due: seq<Publication>, reach: Id -> nat): set<Id> {
    set k | 0 <= k < |due| && ComesThrough(due[k], reach) :: due[k].task
  }

  predicate AllDifferent(due: seq<Publication>) {
    forall i, j :: 0 <= i < j < |due| ==> due[i].task != due[j].task
  }

  function OneIf(c: bool): nat {
    if c then 1 else 0
  }

  lemma ThroughGrows(due: seq<Publication>, reach: Id -> nat, k: nat)
    requires k < |due| && AllDifferent(due)
    ensures Through(due[..k + 1], reach) ==
      Through(due[..k], reach) + (if ComesThrough(due[k], reach) then {due[k].task} else {})
    ensures |Through(due[..k + 1], reach)| == |Through(due[..k], reach)| + OneIf(ComesThrough(due[k], reach))
  {
    hide ComesThrough;
    var less, more := due[..k], due[..k + 1];
    forall id | id in Through(more, reach)
      ensures id in Through(less, reach) || (id == due[k].task && ComesThrough(due[k], reach))
    {
      var j :| 0 <= j < |more| && ComesThrough(more[j], reach) && more[j].task == id;
      assert j < k ==> less[j] == more[j];
    }
    forall id | id in Through(less, reach)
      ensures id in Through(more, reach)
    {
      var j :| 0 <= j < |less| && ComesThrough(less[j], reach) && less[j].task == id;
      assert more[j] == less[j];
    }
    assert more[k] == due[k];
    assert due[k].task !in Through(less, reach);
  }

  /** Of the tables at first, exactly the tasks that came through have moved from pending to published. */
  ghost predicate MovedOnly(through: set<Id>, s: State, n: State) {
    n.published.Keys == s.published.Keys + through && n.finalizations.Keys == s.finalizations.Keys - through
  }

  lemma NoneMoved(due: seq<Publication>, reach: Id -> nat, s: State)
    ensures MovedOnly(Through(due[..0], reach), s, s) && |Through(due[..0], reach)| == 0
  {
    assert Through(due[..0], reach) == {};
  }

  /** What is moved was only pending, unless it was doubled. */
  lemma AllMoved(due: seq<Publication>, reach: Id -> nat, w: World, n: State)
    requires MovedOnly(Through(due, reach), w.q, n)
    requires forall k :: 0 <= k < |due| ==> due[k].task in w.q.finalizations
    ensures forall id :: IsDoubled(n, id) <==> IsDoubled(w.q, id) && id !in Through(due, reach)
    ensures OutboxOk(w) ==> |Through(due, reach)| == |n.published| - |w.q.published|
  {
    assert Through(due, reach) <= w.q.finalizations.Keys by { hide MovedOnly, ComesThrough; }
    hide ComesThrough, OutboxSound, Through;
    CountMoved(Through(due, reach), w, n);
  }

  lemma CountMoved(through: set<Id>, w: World, n: State)
    requires MovedOnly(through, w.q, n) && through <= w.q.finalizations.Keys
    ensures forall id :: IsDoubled(n, id) <==> IsDoubled(w.q, id) && id !in through
    ensures OutboxOk(w) ==> |through| == |n.published| - |w.q.published|
  {
    hide OutboxSound;
    if OutboxOk(w) {
      forall id | id in through
        ensures id !in w.q.published
      {
        assert !IsDoubled(w.q, id);
      }
      SizeIsTheKeys(w.q.published);
      SizeIsTheKeys(n.published);
      assert w.q.published.Keys !! through;
    }
  }

  /** A row after one more failure. */
  function PutOff(f: Finalization, now: int): Finalization {
    f.(attempts := f.attempts + 1, nextAttempt := now + RetryDelay(f.attempts))
  }

  /** The two tables, when `tried` have been tried and `through` of them have come through. */
  ghost predicate IsReconciled(tried: set<Id>, through: set<Id>, now: int, s: State, n: State) {
    && (forall id :: id in n.published <==> id in s.published || id in through)
    && (forall id :: id in n.finalizations <==> id in s.finalizations && id !in through)
    && (forall id :: id in n.finalizations ==>
          n.finalizations[id] == if id in tried then PutOff(s.finalizations[id], now) else s.finalizations[id])
    && (forall id :: id in s.published ==> n.published[id] == s.published[id])
    && (forall id :: id in through && id !in s.published ==>
          id in s.finalizations && n.published[id] == s.finalizations[id].hash)
  }

  lemma NoneTried(due: seq<Publication>, reach: Id -> nat, now: int, s: State)
    ensures IsReconciled(Tried(due[..0]), Through(due[..0], reach), now, s, s) && Tried(due[..0]) == {}
  {
    assert Through(due[..0], reach) == {};
  }

  lemma OneMoreTried(due: seq<Publication>, k: nat)
    requires k < |due| && AllDifferent(due)
    ensures Tried(due[..k + 1]) == Tried(due[..k]) + {due[k].task} && due[k].task !in Tried(due[..k])
  {
    var less, more := due[..k], due[..k + 1];
    forall id | id in Tried(more)
      ensures id in Tried(less) || id == due[k].task
    {
      var j :| 0 <= j < |more| && more[j].task == id;
      assert j < k ==> less[j] == more[j];
    }
    forall id | id in Tried(less)
      ensures id in Tried(more)
    {
      var j :| 0 <= j < |less| && less[j].task == id;
      assert more[j] == less[j];
    }
    assert more[k] == due[k];
  }

  lemma ReconciledOneMore(tried: set<Id>, through: set<Id>, x: Id, more: set<Id>, now: int, s: State, m: State,
                          n: State)
    requires IsReconciled(tried, through, now, s, m) && IsReconciled({x}, more, now, m, n)
    requires through <= tried && x !in tried && (more == {} || more == {x})
    ensures IsReconciled(tried + {x}, through + more, now, s, n)
  {
    hide PutOff;
  }

  lemma ThroughIsTried(due: seq<Publication>, reach: Id -> nat)
    ensures Through(due, reach) <= Tried(due)
  {
    hide ComesThrough;
  }

  lemma OneMoreReconciled(due: seq<Publication>, reach: Id -> nat, k: nat, now: int, s: State, m: State, n: State)
    requires k < |due| && AllDifferent(due)
    requires IsReconciled(Tried(due[..k]), Through(due[..k], reach), now, s, m)
    requires IsReconciled({due[k].task}, if ComesThrough(due[k], reach) then {due[k].task} else {}, now, m, n)
    ensures IsReconciled(Tried(due[..k + 1]), Through(due[..k + 1], reach), now, s, n)
  {
    hide Through, Tried, ComesThrough, AllDifferent, IsReconciled;
    ThroughGrows(due, reach, k);
    OneMoreTried(due, k);
    ThroughIsTried(due[..k], reach);
    ReconciledOneMore(Tried(due[..k]), Through(due[..k], reach), due[k].task,
                      if ComesThrough(due[k], reach) then {due[k].task} else {}, now, s, m, n);
  }

  lemma NotYetTried(due: seq<Publication>, reach: Id -> nat, k: nat, now: int, s: State, m: State)
    requires k < |due| && AllDifferent(due) && due[k].task in s.finalizations
    requires IsReconciled(Tried(due[..k]), Through(due[..k], reach), now, s, m)
    ensures due[k].task in m.finalizations && m.finalizations[due[k].task] == s.finalizations[due[k].task]
  {
    hide Through, Tried, ComesThrough;
    OneMoreTried(due, k);
    ThroughIsTried(due[..k], reach);
  }

  lemma ReconciledMoves(tried: set<Id>, through: set<Id>, now: int, s: State, n: State)
    requires IsReconciled(tried, through, now, s, n)
    ensures MovedOnly(through, s, n)
  {
  }

  /**
  Sixteen due rows at most are worked off, the longest due first; each whose I/O comes through ends published
  under the hash it was pending with and no longer pending, the others of them are put off, and every row that
  is not due is left as it is.
  */
  ghost predicate WorksOffDue(s: State, n: State, reach: Id -> nat, now: int, worked: set<Id>) {
    var due := DueNow(s, now);
    && worked <= due && |worked| == (if |due| <= 16 then |due| else 16)
    && (forall a, b :: a in worked && b in due && b !in worked ==>
          s.finalizations[a].nextAttempt <= s.finalizations[b].nextAttempt)
    && (forall id :: id in s.finalizations && id !in worked ==>
          id in n.finalizations && n.finalizations[id] == s.finalizations[id])
    && (forall id :: id in worked ==>
          if reach(id) >= 5
          then id !in n.finalizations && id in n.published
               && (id !in s.published ==> n.published[id] == s.finalizations[id].hash)
          else id in n.finalizations && n.finalizations[id] == PutOff(s.finalizations[id], now))
    && (forall id :: id !in worked ==> (id in n.published <==> id in s.published))
  }

  lemma {:induction false} TriedCount(due: seq<Publication>)
    requires AllDifferent(due)
    ensures |Tried(due)| == |due|
    decreases |due|
  {
    if due != [] {
      var k := |due| - 1;
      assert due[..k + 1] == due;
      OneMoreTried(due, k);
      TriedCount(due[..k]);
    }
  }

  lemma ListsIsTried(due: seq<Publication>)
    ensures forall id :: Lists(due, id) <==> id in Tried(due)
  {
  }

  /** What `due_release_finalizations` answers. */
  ghost predicate IsDueList(s: State, due: seq<Publication>, now: int) {
    && AllDifferent(due) && |due| <= BATCH
    && (forall k :: 0 <= k < |due| ==> IsDue(s, due[k].task, now))
    && (forall id :: IsDue(s, id, now) && !Lists(due, id) ==>
          |due| == BATCH && forall k :: 0 <= k < |due| ==> DueNoLater(s, due[k].task, id))
  }

  lemma TriedAreDue(s: State, due: seq<Publication>, reach: Id -> nat, now: int)
    requires IsDueList(s, due, now)
    ensures Tried(due) <= DueNow(s, now)
    ensures forall id :: id in Tried(due) ==> (id in Through(due, reach) <==> reach(id) >= 5)
  {
    hide DueNoLater, Lists;
    forall id | id in Tried(due)
      ensures id in DueNow(s, now) && (id in Through(due, reach) <==> reach(id) >= 5)
    {
      var k :| 0 <= k < |due| && due[k].task == id;
      assert IsDue(s, due[k].task, now);
      assert ComesThrough(due[k], reach) <==> reach(id) >= 5;
    }
  }

  lemma LongestDueFirst(s: State, due: seq<Publication>, now: int)
    requires IsDueList(s, due, now)
    ensures |Tried(due)| == if |DueNow(s, now)| <= 16 then |DueNow(s, now)| else 16
    ensures forall a, b :: a in Tried(due) && b in DueNow(s, now) && b !in Tried(due) ==>
      s.finalizations[a].nextAttempt <= s.finalizations[b].nextAttempt
  {
    TriedAreDue(s, due, _ => 0, now);
    TriedCount(due);
    ListsIsTried(due);
    CountOfWorked(Tried(due), DueNow(s, now));
    forall b | b in DueNow(s, now) && b !in Tried(due)
      ensures |due| == 16 && forall a :: a in Tried(due) ==>
        s.finalizations[a].nextAttempt <= s.finalizations[b].nextAttempt
    {
      assert IsDue(s, b, now) && !Lists(due, b);
      forall a | a in Tried(due)
        ensures s.finalizations[a].nextAttempt <= s.finalizations[b].nextAttempt
      {
        var k :| 0 <= k < |due| && due[k].task == a;
        assert DueNoLater(s, due[k].task, b);
      }
    }
    hide Tried, DueNow, Lists, IsDueList;
    if Tried(due) != DueNow(s, now) {
      var b :| b in DueNow(s, now) && b !in Tried(due);
    }
  }

  lemma DueIsWorkedOff(due: seq<Publication>, reach: Id -> nat, now: int, s: State, n: State)
    requires IsDueList(s, due, now) && IsReconciled(Tried(due), Through(due, reach), now, s, n)
    ensures WorksOffDue(s, n, reach, now, Tried(due))
  {
    TriedAreDue(s, due, reach, now);
    LongestDueFirst(s, due, now);
    ThroughIsTried(due, reach);
    assert forall id :: id in DueNow(s, now) ==> id in s.finalizations;
    hide PutOff, Tried, Through, DueNow, IsDueList;
  }

  /**
  A completion recorded at some time is published, left alone, by the next pass of the publisher from then on
  for which its I/O comes through and no more than sixteen rows are due.
  */
  lemma RecordedIsPublished(w: World, e: Event, n: State, reach: Id -> nat, now: int, worked: set<Id>)
    requires OutboxSound(w) && e.Complete? && ClaimEnabled(w.q, e) && e.a.job == w.q.tasks[e.a.id].job
    requires w.q.publishing && e.a.job.kind.Root? && !e.a.job.source.Chat? && Trim(e.text) != ""
    requires WorksOffDue(Next(w.q, e), n, reach, now, worked)
    requires e.now <= now && |DueNow(Next(w.q, e), now)| <= 16 && reach(e.a.id) >= 5
    ensures e.a.id in n.published && n.published[e.a.id] == Blake3(Trim(e.text)) && e.a.id !in n.finalizations
  {
    RecordedRow(w, e);
    hide ClaimEnabled, Next, PutOff, OutboxSound, Trim;
    var s := Next(w.q, e);
    assert e.a.id in DueNow(s, now);
    CountOfWorked(worked, DueNow(s, now));
  }

  lemma RecordedRow(w: World, e: Event)
    requires OutboxSound(w) && e.Complete? && ClaimEnabled(w.q, e) && e.a.job == w.q.tasks[e.a.id].job
    requires w.q.publishing && e.a.job.kind.Root? && !e.a.job.source.Chat? && Trim(e.text) != ""
    ensures var n := Next(w.q, e);
      && e.a.id in n.finalizations && n.finalizations[e.a.id] == Finalization(Blake3(Trim(e.text)), 0, e.now, e.now)
      && e.a.id !in n.published && e.a.id in n.tasks && n.tasks[e.a.id].result == Some(Trim(e.text))
  {
    CompletedText(w.q, e);
    assert w.q.tasks[e.a.id].status.Claimed?;
    assert e.a.id !in w.q.finalizations && e.a.id !in w.q.published;
    hide Trim, RowsOk, PublicationsOk, BackfillsOk;
  }

  lemma CountOfWorked(worked: set<Id>, all: set<Id>)
    requires worked <= all
    ensures |worked| <= |all| && (|worked| == |all| ==> worked == all)
  {
    var rest := all - worked;
    assert all == worked + rest;
  }

  lemma SizeIsTheKeys(m: map<Id, Hash>)
    ensures |m| == |m.Keys|
  {
  }

  class ReleaseWriter {
    const store: Store
    var releases: map<Hash, Release>
    var files: map<Hash, string>

    constructor (store: Store, files: map<Hash, string>)
      ensures this.store == store && this.releases == map[] && this.files == files
    {
      this.store, this.releases, this.files := store, map[], files;
    }

    /** The outbox machine's view of the tables, with `p` in flight as publication 0. */
    ghost function InFlight(p: Publication): World
      reads this, store
    {
      OneInFlight(store.View(), releases, files, p)
    }

    ghost function Tables(): World
      reads this, store
    {
      World(store.View(), releases, files, map[], map[])
    }

    /** The file is written unless it is there with the right contents. */
    method WriteFileLine(p: Publication)
      requires Blake3(p.content) == p.hash
      modifies this`files
      ensures InFlight(p.(stage := FileWritten)) == Then(old(InFlight(p.(stage := HashChecked))), WriteFile(0))
      ensures FileMatches(files, p.hash)
    {
      hide Then, FileMatches;
      FileLine(store.View(), releases, files, p.(stage := HashChecked),
               if FileMatches(files, p.hash) then files else files[p.hash := p.content]);
      if !FileMatches(files, p.hash) {
        files := files[p.hash := p.content];
      }
    }

    /** INSERT OR IGNORE INTO releases */
    method AddRowLine(p: Publication)
      requires p.hash in releases ==> RowMatches(releases, p.hash, p.content)
      modifies this`releases
      ensures InFlight(p.(stage := RowAdded)) == Then(old(InFlight(p.(stage := FileWritten))), AddRow(0))
      ensures RowMatches(releases, p.hash, p.content) && old(releases).Keys <= releases.Keys
    {
      hide Then, RowMatches;
      RowLine(store.View(), releases, files, p.(stage := FileWritten),
              if p.hash in releases then releases else releases[p.hash := Release(p.content, p.hash)]);
      if p.hash !in releases {
        releases := releases[p.hash := Release(p.content, p.hash)];
      }
    }

    /**
    `write`, of which I/O lets the first `lines` lines succeed: hash check, file, row, and the two final
    checks are the steps of the outbox machine. No check can fail on its own account.
    */
    method Write(p: Publication, lines: nat) returns (done: nat)
      requires p.stage.Loaded? && OutboxSound(InFlight(p))
      modifies this
      ensures done == if lines < |WRITE| then lines else |WRITE|
      ensures InFlight(p.(stage := Reached(done))) == Run(old(InFlight(p)), WRITE[..done])
      ensures done >= 2 ==> FileMatches(files, p.hash)
      ensures done >= 3 ==> RowMatches(releases, p.hash, p.content)
      ensures old(releases).Keys <= releases.Keys
    {
      hide OutboxSound, Run, Then, FileMatches, RowMatches;
      ghost var w := InFlight(p);
      NothingRun(w);
      HashIsRight(w);
      done := 0;
      if lines == 0 || Blake3(p.content) != p.hash {
        return;
      }
      HashLine(store.View(), releases, files, p);
      OneMoreLine(w, 0);
      done := 1;
      if lines == 1 {
        return;
      }
      WriteFileLine(p);
      OneMoreLine(w, 1);
      done := 2;
      if lines == 2 {
        return;
      }
      AddRowLine(p);
      OneMoreLine(w, 2);
      done := 3;
      CheckLines(store.View(), releases, files, p.(stage := RowAdded));
      if lines == 3 || !FileMatches(files, p.hash) {
        return;
      }
      OneMoreLine(w, 3);
      done := 4;
      if lines == 4 || !RowMatches(releases, p.hash, p.content) {
        return;
      }
      OneMoreLine(w, 4);
      done := 5;
    }

    /** `reconcile_one`: either the task ends up published with file and row, or its row waits for a retry. */
    method ReconcileOne(p: Publication, lines: nat, now: int) returns (published: bool)
      requires store.Valid() && p.stage.Loaded? && OutboxSound(InFlight(p))
      modifies this, store
      ensures store.Valid() && Tables() == Run(old(InFlight(p)), Attempt(lines, now)) && OutboxSound(Tables())
      ensures published <==> lines >= |WRITE|
      ensures MovedOnly(if published then {p.task} else {}, old(store.View()), store.View())
      ensures p.task in old(store.finalizations) && old(store.finalizations)[p.task].hash == p.hash
              && old(store.finalizations)[p.task].attempts == p.attempts ==>
        IsReconciled({p.task}, if published then {p.task} else {}, now, old(store.View()), store.View())
      ensures published ==> FileMatches(files, p.hash) && RowMatches(releases, p.hash, p.content)
      ensures !published && p.task in old(store.finalizations) ==>
        && store.finalizations[p.task].attempts == old(store.finalizations)[p.task].attempts + 1
        && store.finalizations[p.task].nextAttempt == now + RetryDelay(p.attempts)
      ensures store.tasks == old(store.tasks) && old(releases).Keys <= releases.Keys
    {
      hide OutboxSound, Run, Next, FileMatches, RowMatches, Replay, IsReconciled, MovedOnly, RetryDelay;
      ghost var w := InFlight(p);
      StepsKeepOutboxSound(w, Attempt(lines, now));
      var done := Write(p, lines);
      RunOneMore(w, WRITE[..done], if done < |WRITE| then Fail(0, now) else Confirm(0));
      assert WRITE[..5] == WRITE;
      published := done == |WRITE|;
      if published {
        AcknowledgedMoves(w, p);
        AcknowledgedIsReconciled(w.q, p.task, p.hash, now);
        AcknowledgeRelease(store, p.task, p.hash);
      } else {
        PostponedRow(store.View(), p.task, now + RetryDelay(p.attempts));
        PostponedIsReconciled(w.q, p.task, p.attempts, now);
        RecordFailure(store, p.task, now + RetryDelay(p.attempts));
      }
    }

    /** One pass of the loop below. */
    method WorkOff(due: seq<Publication>, k: nat, reach: Id -> nat, now: int, ghost first: World) returns (done: bool)
      requires store.Valid() && OutboxSound(Tables()) && store.tasks == first.q.tasks
      requires k < |due| && AllDifferent(due) && PublicationOk(first, due[k]) && due[k].stage.Loaded?
      requires due[k].task in first.q.finalizations && due[k] == Snapshot(first.q, due[k].task)
      requires IsReconciled(Tried(due[..k]), Through(due[..k], reach), now, first.q, store.View())
      modifies this, store
      ensures store.Valid() && OutboxSound(Tables()) && store.tasks == first.q.tasks
      ensures IsReconciled(Tried(due[..k + 1]), Through(due[..k + 1], reach), now, first.q, store.View())
      ensures |Through(due[..k + 1], reach)| == |Through(due[..k], reach)| + OneIf(done)
    {
      hide OutboxSound, Run, Attempt, FileMatches, RowMatches, PublicationOk, Through, MovedOnly, AllDifferent;
      hide IsReconciled, Tried;
      ghost var s := store.View();
      NotYetTried(due, reach, k, now, first.q, s);
      StillAPublication(first, Tables(), due[k]);
      TakeUp(Tables(), due[k]);
      done := ReconcileOne(due[k], reach(due[k].task), now);
      OneMoreReconciled(due, reach, k, now, first.q, s, store.View());
      ThroughGrows(due, reach, k);
    }

    /**
    `reconcile`: works off up to sixteen due rows. `reach` says how far I/O lets each of them come; exactly
    those that come through are published, counted, and no longer pending, and no other task is touched. So a
    task that was pending although published is only published again, and then it is not pending any more.
    */
    method Reconcile(reach: Id -> nat, now: int) returns (due: seq<Publication>, published: nat)
      requires store.Valid() && OutboxSound(Tables())
      modifies this, store
      ensures store.Valid() && OutboxSound(Tables()) && store.tasks == old(store.tasks)
      ensures |due| <= BATCH
      ensures forall id :: IsDue(old(store.View()), id, now) && |due| < BATCH ==> Lists(due, id)
      ensures forall k :: 0 <= k < |due| ==> due[k].task in old(store.finalizations)
      ensures MovedOnly(Through(due, reach), old(store.View()), store.View()) && published == |Through(due, reach)|
      ensures WorksOffDue(old(store.View()), store.View(), reach, now, Tried(due))
      ensures forall id ::
        IsDoubled(store.View(), id) <==> IsDoubled(old(store.View()), id) && id !in Through(due, reach)
      ensures old(OutboxOk(Tables())) ==> published == |store.published| - |old(store.published)|
    {
      hide OutboxSound, Run, Attempt, IsDue, Lists, Snapshot, FileMatches, RowMatches, PublicationOk, Through;
      hide MovedOnly, ComesThrough, IsDoubled, OutboxOk, IsReconciled, Tried, WorksOffDue, DueNoLater;
      ghost var first := Tables();
      due := DueReleaseFinalizations(store, now, BATCH);
      DueRowsArePublications(first, due, now);
      NoneMoved(due, reach, first.q);
      NoneTried(due, reach, now, first.q);
      published := 0;
      for k := 0 to |due|
        invariant store.Valid() && OutboxSound(Tables()) && store.tasks == first.q.tasks
        invariant IsReconciled(Tried(due[..k]), Through(due[..k], reach), now, first.q, store.View())
        invariant published == |Through(due[..k], reach)|
      {
        var done := WorkOff(due, k, reach, now, first);
        if done {
          published := published + 1;
        }
      }
      assert due[..|due|] == due;
      ReconciledMoves(Tried(due), Through(due, reach), now, first.q, store.View());
      AllMoved(due, reach, first, store.View());
      DueIsWorkedOff(due, reach, now, first.q, store.View());
    }
  }

  lemma StillAPublication(w: World, n: World, p: Publication)
    requires PublicationOk(w, p) && p.stage.Loaded? && n.q.tasks == w.q.tasks
    ensures PublicationOk(n, p)
  {
  }

  lemma AcknowledgedIsReconciled(q: State, id: Id, hash: Hash, now: int)
    ensures id in q.finalizations && q.finalizations[id].hash == hash ==>
      IsReconciled({id}, {id}, now, q, Next(q, Acknowledge(id, hash)))
  {
    hide Next, PutOff;
    AcknowledgementEvent(q, id, hash);
  }

  lemma PostponedIsReconciled(q: State, id: Id, attempts: nat, now: int)
    ensures id in q.finalizations && q.finalizations[id].attempts == attempts ==>
      IsReconciled({id}, {}, now, q, Next(q, Postpone(id, now + RetryDelay(attempts))))
  {
    hide Next;
    PostponementEvent(q, id, now + RetryDelay(attempts));
  }

  lemma AcknowledgedMoves(w: World, p: Publication)
    requires OutboxSound(w) && 0 in w.publications && w.publications[0] == p
    ensures MovedOnly({p.task}, w.q, Next(w.q, Acknowledge(p.task, p.hash)))
    ensures Next(w.q, Acknowledge(p.task, p.hash)).tasks == w.q.tasks
  {
    hide Next;
    assert PublicationOk(w, p);
    hide OutboxSound, RowsOk, TablesOk;
    AcknowledgementOn(w, p.task, p.hash);
    AcknowledgedOnly(w.q, p.task, p.hash);
  }

  lemma DueRowsArePublications(w: World, due: seq<Publication>, now: int)
    requires OutboxSound(w)
    requires forall k :: 0 <= k < |due| ==> IsDue(w.q, due[k].task, now) && due[k] == Snapshot(w.q, due[k].task)
    ensures forall k :: 0 <= k < |due| ==>
      && PublicationOk(w, due[k]) && due[k].stage.Loaded?
      && due[k].task in w.q.finalizations && due[k] == Snapshot(w.q, due[k].task)
  {
  }

  lemma TakeUp(w: World, p: Publication)
    requires OutboxSound(w) && PublicationOk(w, p) && w.backfills == map[]
    ensures OutboxSound(w.(publications := map[0 := p]))
  {
  }

  lemma PostponedRow(q: State, id: Id, until: int)
    ensures MovedOnly({}, q, Next(q, Postpone(id, until))) && Next(q, Postpone(id, until)).tasks == q.tasks
    ensures id in q.finalizations ==>
      Next(q, Postpone(id, until)).finalizations[id] ==
           q.finalizations[id].(attempts := q.finalizations[id].attempts + 1, nextAttempt := until)
  {
    hide Next;
    PostponementEvent(q, id, until);
  }
}
