/**
The release outbox as a crash-step machine: the queue, the releases table, the release files, and any
number of publications and backfills in flight, in any number of processes. Every line of a publication
and every insertion of a backfill is a step of its own, and between any two steps it may fail or its
process may die.
*/
module Outbox {
  import opened Basics
  import opened TaskTable
  import opened QueueEvents
  import opened QueueRuns

  /** How far one `reconcile_one` has come. */
  datatype Stage = Loaded | HashChecked | FileWritten | RowAdded | FileChecked | RowChecked

  /** A publication in flight: the finalization row joined with its task, as read when it began. */
  datatype Publication = Publication(task: Id, hash: Hash, content: string, attempts: nat, stage: Stage)

  datatype Release = Release(content: string, path: Hash)

  /** `backfills` holds, for each running backfill, the rows it has selected and not yet inserted. */
  datatype World = World(
    q: State,
    releases: map<Hash, Release>,
    files: map<Hash, string>,
    publications: map<nat, Publication>,
    backfills: map<nat, map<Id, string>>)

  datatype Step =
    | Queue(e: Event)
    | SelectBackfill(b: nat)
    | InsertBackfill(b: nat, id: Id, now: int)
    | DropBackfill(b: nat)
    | Load(pid: nat, id: Id)
    | CheckHash(pid: nat)
    | WriteFile(pid: nat)
    | AddRow(pid: nat)
    | CheckFile(pid: nat)
    | CheckRow(pid: nat)
    | Confirm(pid: nat)
    | Fail(pid: nat, now: int)
    | Die(pid: nat)
    | Tamper(hash: Hash, content: string)

  /** The file at the path of a hash has the content the hash was computed from. */
  predicate FileMatches(files: map<Hash, string>, hash: Hash) {
    hash in files && Blake3(files[hash]) == hash
  }

  predicate RowMatches(releases: map<Hash, Release>, hash: Hash, content: string) {
    hash in releases && releases[hash] == Release(content, hash)
  }

  function Power(n: nat): nat {
    if n == 0 then 1 else 2 * Power(n - 1)
  }

  /** The wait before the next try, in milliseconds. */
  function RetryDelay(attempts: nat): nat {
    var delay := 100 * Power(if attempts < 8 then attempts else 8);
    if delay < 30000 then delay else 30000
  }

  predicate Stands(w: World, pid: nat, stage: Stage) {
    pid in w.publications && w.publications[pid].stage == stage
  }

  ghost predicate CanStep(w: World, x: Step) {
    match x
    case Queue(e) => !TouchesOutbox(e)
    case SelectBackfill(b) => b !in w.backfills
    case InsertBackfill(b, id, _) => b in w.backfills && id in w.backfills[b]
    case DropBackfill(b) => b in w.backfills
    case Load(pid, id) =>
      pid !in w.publications && id in w.q.finalizations && id in w.q.tasks && w.q.tasks[id].result.Some?
    case CheckHash(pid) => Stands(w, pid, Loaded) && Blake3(w.publications[pid].content) == w.publications[pid].hash
    case WriteFile(pid) => Stands(w, pid, HashChecked)
    case AddRow(pid) => Stands(w, pid, FileWritten)
    case CheckFile(pid) => Stands(w, pid, RowAdded) && FileMatches(w.files, w.publications[pid].hash)
    case CheckRow(pid) =>
      Stands(w, pid, FileChecked) && RowMatches(w.releases, w.publications[pid].hash, w.publications[pid].content)
    case Confirm(pid) => Stands(w, pid, RowChecked)
    case Fail(pid, _) => pid in w.publications
    case Die(pid) => pid in w.publications
    case Tamper(_, _) => true
  }

  function Advance(w: World, pid: nat, stage: Stage): World
    requires pid in w.publications
  {
    w.(publications := w.publications[pid := w.publications[pid].(stage := stage)])
  }

  /** The SELECT of a backfill. */
  function Selection(q: State): map<Id, string> {
    map id | id in q.tasks && DueForRelease(q, id) :: q.tasks[id].result.value
  }

  ghost function Do(w: World, x: Step): World
    requires CanStep(w, x)
  {
    match x
    case Queue(e) => w.(q := Next(w.q, e))
    case SelectBackfill(b) =>
      w.(backfills := w.backfills[b := Selection(w.q)])
    case InsertBackfill(b, id, now) =>
      var f := Finalization(Blake3(w.backfills[b][id]), 0, now, now);
      w.(q := w.q.(finalizations := if id in w.q.finalizations then w.q.finalizations else w.q.finalizations[id := f]),
         backfills := w.backfills[b := w.backfills[b] - {id}])
    case DropBackfill(b) => w.(backfills := w.backfills - {b})
    case Load(pid, id) =>
      var f := w.q.finalizations[id];
      w.(publications := w.publications[pid := Publication(id, f.hash, w.q.tasks[id].result.value, f.attempts, Loaded)])
    case CheckHash(pid) => Advance(w, pid, HashChecked)
    case WriteFile(pid) =>
      var p := w.publications[pid];
      Advance(if FileMatches(w.files, p.hash) then w else w.(files := w.files[p.hash := p.content]), pid, FileWritten)
    case AddRow(pid) =>
      var p := w.publications[pid];
      Advance(if p.hash in w.releases then w else w.(releases := w.releases[p.hash := Release(p.content, p.hash)]),
              pid, RowAdded)
    case CheckFile(pid) => Advance(w, pid, FileChecked)
    case CheckRow(pid) => Advance(w, pid, RowChecked)
    case Confirm(pid) =>
      var p := w.publications[pid];
      w.(q := Next(w.q, Acknowledge(p.task, p.hash)), publications := w.publications - {pid})
    case Fail(pid, now) =>
      var p := w.publications[pid];
      w.(q := Next(w.q, Postpone(p.task, now + RetryDelay(p.attempts))), publications := w.publications - {pid})
    case Die(pid) => w.(publications := w.publications - {pid})
    case Tamper(hash, content) => w.(files := w.files[hash := content])
  }

  ghost function Then(w: World, x: Step): World {
    if CanStep(w, x) then Do(w, x) else w
  }

  ghost function Run(w: World, steps: seq<Step>): World {
    if steps == [] then w else Then(Run(w, steps[..|steps| - 1]), steps[|steps| - 1])
  }

  /** A new database; the release directory may hold anything. */
  ghost predicate IsNew(w: World) {
    IsStart(w.q) && w.releases == map[] && w.publications == map[] && w.backfills == map[]
  }

  // ---- Conservation ----

  /** The task is completed and this is the text it was completed with. */
  predicate Carries(q: State, id: Id, text: string) {
    id in q.tasks && q.tasks[id].status.Completed? && q.tasks[id].result == Some(text)
  }

  predicate PublicationOk(w: World, p: Publication) {
    && Carries(w.q, p.task, p.content) && p.hash == Blake3(p.content)
    && (p.stage.RowAdded? || p.stage.FileChecked? || p.stage.RowChecked? ==> p.hash in w.releases)
  }

  /** Pending rows, published rows and release rows agree with the stored results. */
  ghost predicate TablesOk(q: State, releases: map<Hash, Release>) {
    && (forall id :: id in q.finalizations ==> Carries(q, id, q.finalizations[id].hash.content))
    && (forall id :: id in q.published ==>
          Carries(q, id, q.published[id].content) && q.published[id] in releases)
    && (forall h :: h in releases ==> releases[h] == Release(h.content, h))
  }

  ghost predicate SelectionOk(q: State, rows: map<Id, string>) {
    forall id :: id in rows ==> Carries(q, id, rows[id]) && IsPublishable(q.tasks[id])
  }

  ghost predicate BackfillsOk(w: World) {
    forall b :: b in w.backfills ==> SelectionOk(w.q, w.backfills[b])
  }

  ghost predicate PublicationsOk(w: World) {
    forall pid :: pid in w.publications ==> PublicationOk(w, w.publications[pid])
  }

  ghost predicate OutboxSound(w: World) {
    RowsOk(w.q) && TablesOk(w.q, w.releases) && PublicationsOk(w) && BackfillsOk(w)
  }

  lemma CarriesForever(s: State, e: Event, n: State, id: Id, text: string)
    requires RowsMove(s, e, n) && Carries(s, id, text)
    ensures id in s.tasks && Carries(n, id, text) && n.tasks[id].job == s.tasks[id].job
    ensures IsPublishable(n.tasks[id]) <==> IsPublishable(s.tasks[id])
  {
  }

  predicate AddsOnlyCompleted(s: State, n: State) {
    && n.published == s.published
    && s.finalizations.Keys <= n.finalizations.Keys
    && (forall id :: id in s.finalizations ==> n.finalizations[id] == s.finalizations[id])
    && (forall id :: id in n.finalizations && id !in s.finalizations ==>
          && id !in s.published && Carries(n, id, n.finalizations[id].hash.content)
          && id in s.tasks && !s.tasks[id].status.Completed?)
  }

  lemma CompletionOnOutbox(s: State, e: Event)
    requires e.Complete? && ClaimEnabled(s, e)
    ensures AddsOnlyCompleted(s, ClaimEffect(s, e))
  {
  }

  /** What a queue transaction other than the outbox's own can do to the outbox: a completion may add its row. */
  lemma QueueStepOnOutbox(s: State, e: Event)
    requires !TouchesOutbox(e)
    ensures AddsOnlyCompleted(s, Next(s, e))
  {
    hide ClaimEnabled, InsertEnabled, EditEnabled, OtherEnabled;
    hide ClaimEffect, InsertEffect, EditEffect, SweepEffect, SettingEffect;
    if e.Complete? && Enabled(s, e) {
      CompletionOnOutbox(s, e);
    }
  }

  lemma QueueKeepsOutboxSound(w: World, e: Event)
    requires OutboxSound(w) && !TouchesOutbox(e)
    ensures OutboxSound(w.(q := Next(w.q, e)))
  {
    hide Next, Carries, RowsMove, RowsOk, IsPublishable;
    var n := Next(w.q, e);
    EveryEventMovesRows(w.q, e);
    RowsOkIsKept(w.q, e, n);
    QueueStepOnOutbox(w.q, e);
    forall id, text | Carries(w.q, id, text)
      ensures Carries(n, id, text) && id in w.q.tasks && id in n.tasks
      ensures IsPublishable(n.tasks[id]) <==> IsPublishable(w.q.tasks[id])
    {
      CarriesForever(w.q, e, n, id, text);
    }
  }

  /** Steps of a publication that leave every table alone. */
  predicate IsPrivate(x: Step) {
    x.Load? || x.CheckHash? || x.WriteFile? || x.CheckFile? || x.CheckRow? || x.Die? || x.Tamper?
  }

  lemma PrivateStepKeepsOutboxSound(w: World, x: Step)
    requires OutboxSound(w) && IsPrivate(x) && CanStep(w, x)
    ensures OutboxSound(Do(w, x))
  {
    hide RowsOk, Carries;
    if x.Load? {
      LoadedIsOk(w, x.id);
    }
  }

  lemma LoadedIsOk(w: World, id: Id)
    requires OutboxSound(w) && id in w.q.finalizations && id in w.q.tasks && w.q.tasks[id].result.Some?
    ensures Carries(w.q, id, w.q.tasks[id].result.value)
    ensures w.q.finalizations[id].hash == Blake3(w.q.tasks[id].result.value)
  {
    hide RowsOk;
  }

  lemma ReleaseRowKeepsOutboxSound(w: World, x: Step)
    requires OutboxSound(w) && x.AddRow? && CanStep(w, x)
    ensures OutboxSound(Do(w, x))
  {
    hide RowsOk, Carries;
    assert PublicationOk(w, w.publications[x.pid]);
  }

  lemma BackfillKeepsOutboxSound(w: World, x: Step)
    requires OutboxSound(w) && (x.SelectBackfill? || x.InsertBackfill? || x.DropBackfill?) && CanStep(w, x)
    ensures OutboxSound(Do(w, x))
  {
    hide RowsOk, Next, Selection;
    if x.SelectBackfill? {
      SelectionIsSound(w.q);
    } else if x.InsertBackfill? {
      InsertionIsSound(w, x);
    }
  }

  lemma InsertionIsSound(w: World, x: Step)
    requires OutboxSound(w) && x.InsertBackfill? && CanStep(w, x)
    ensures OutboxSound(Do(w, x))
  {
    hide Next, Carries, IsPublishable;
    assert SelectionOk(w.q, w.backfills[x.b]) && Carries(w.q, x.id, w.backfills[x.b][x.id]);
    assert forall id, text :: Carries(Do(w, x).q, id, text) <==> Carries(w.q, id, text) by {
      SameRowsCarryTheSame(w.q, Do(w, x).q);
    }
  }

  lemma SameRowsCarryTheSame(s: State, n: State)
    requires n.tasks == s.tasks
    ensures forall id, text :: Carries(n, id, text) <==> Carries(s, id, text)
  {
  }

  lemma SelectionIsSound(q: State)
    ensures SelectionOk(q, Selection(q))
  {
  }

  lemma AcknowledgementKeepsTables(q: State, releases: map<Hash, Release>, id: Id, hash: Hash)
    requires TablesOk(q, releases) && Carries(q, id, hash.content) && hash in releases
    ensures TablesOk(Next(q, Acknowledge(id, hash)), releases)
    ensures Next(q, Acknowledge(id, hash)).tasks == q.tasks && Next(q, Acknowledge(id, hash)).clock == q.clock
  {
    hide Next;
    AcknowledgementEvent(q, id, hash);
    assert id in q.finalizations ==> q.finalizations[id].hash == hash;
  }

  lemma PostponementKeepsTables(q: State, releases: map<Hash, Release>, id: Id, until: int)
    requires TablesOk(q, releases)
    ensures TablesOk(Next(q, Postpone(id, until)), releases)
    ensures Next(q, Postpone(id, until)).tasks == q.tasks && Next(q, Postpone(id, until)).clock == q.clock
    ensures Next(q, Postpone(id, until)).published == q.published
  {
    hide Next;
    PostponementEvent(q, id, until);
    var n := Next(q, Postpone(id, until));
    assert forall o :: o in q.finalizations ==> n.finalizations[o].hash == q.finalizations[o].hash;
  }

  lemma OutcomeKeepsOutboxSound(w: World, x: Step)
    requires OutboxSound(w) && (x.Confirm? || x.Fail?) && CanStep(w, x)
    ensures OutboxSound(Do(w, x))
  {
    hide Next, TablesOk;
    var p := w.publications[x.pid];
    assert PublicationOk(w, p);
    if x.Confirm? {
      AcknowledgementKeepsTables(w.q, w.releases, p.task, p.hash);
    } else {
      PostponementKeepsTables(w.q, w.releases, p.task, x.now + RetryDelay(p.attempts));
    }
  }

  lemma SoundnessIsKept(w: World, x: Step)
    requires OutboxSound(w)
    ensures OutboxSound(Then(w, x))
  {
    hide OutboxSound;
    if CanStep(w, x) {
      match x
      case Queue(e) =>
        QueueKeepsOutboxSound(w, e);
      case SelectBackfill(_) =>
        BackfillKeepsOutboxSound(w, x);
      case InsertBackfill(_, _, _) =>
        BackfillKeepsOutboxSound(w, x);
      case DropBackfill(_) =>
        BackfillKeepsOutboxSound(w, x);
      case Confirm(_) =>
        OutcomeKeepsOutboxSound(w, x);
      case Fail(_, _) =>
        OutcomeKeepsOutboxSound(w, x);
      case AddRow(_) =>
        ReleaseRowKeepsOutboxSound(w, x);
      case _ =>
        PrivateStepKeepsOutboxSound(w, x);
    }
  }

  /**
  In every run, with a failure or crash between any two steps and whatever other processes do: a pending or
  published hash is that of the stored result, and a published task has its release row, of which there is
  one per content.
  */
  lemma {:induction false} RunsKeepOutboxSound(w: World, steps: seq<Step>)
    requires IsNew(w)
    ensures OutboxSound(Run(w, steps))
  {
    hide Then;
    if steps != [] {
      RunsKeepOutboxSound(w, steps[..|steps| - 1]);
      SoundnessIsKept(Run(w, steps[..|steps| - 1]), steps[|steps| - 1]);
    }
  }

  /** The world before step `i`. */
  ghost function WorldAt(w: World, steps: seq<Step>, i: nat): World
    requires i <= |steps|
  {
    Run(w, steps[..i])
  }

  lemma WorldStep(w: World, steps: seq<Step>, i: nat)
    requires IsNew(w) && i < |steps|
    ensures WorldAt(w, steps, i + 1) == Then(WorldAt(w, steps, i), steps[i])
    ensures OutboxSound(WorldAt(w, steps, i))
  {
    assert steps[..i + 1][..i] == steps[..i];
    RunsKeepOutboxSound(w, steps[..i]);
  }

  // ---- Nothing is both pending and published ----

  predicate IsDoubled(q: State, id: Id) {
    id in q.finalizations && id in q.published
  }

  /** The outbox is sound, and no task is both pending and published. */
  ghost predicate OutboxOk(w: World) {
    OutboxSound(w) && forall id :: !IsDoubled(w.q, id)
  }

  /** A backfill inserts what another process has published since the selection; nothing pending stops it. */
  predicate Doubles(w: World, x: Step, id: Id) {
    x.InsertBackfill? && x.id == id && x.b in w.backfills && id in w.backfills[x.b] && id in w.q.published
  }

  predicate Acknowledges(w: World, x: Step, id: Id) {
    x.Confirm? && Stands(w, x.pid, RowChecked) && w.publications[x.pid].task == id
  }

  /** What a single step does to a task that is both pending and published, or not. */
  lemma DoublingOverAStep(w: World, x: Step, id: Id)
    requires OutboxSound(w)
    ensures IsDoubled(Then(w, x).q, id) <==> Doubles(w, x, id) || (IsDoubled(w.q, id) && !Acknowledges(w, x, id))
  {
    hide Next, RowsOk, TablesOk, Carries, BackfillsOk;
    if CanStep(w, x) {
      match x
      case Queue(e) =>
        TransactionsDoubleNothing(w, e, id);
      case Confirm(pid) =>
        var p := w.publications[pid];
        assert PublicationOk(w, p);
        AcknowledgementOn(w, p.task, p.hash);
      case Fail(pid, now) =>
        PostponementKeepsPending(w.q, w.publications[pid].task, now + RetryDelay(w.publications[pid].attempts));
      case _ =>
    }
  }

  lemma TransactionsDoubleNothing(w: World, e: Event, id: Id)
    requires OutboxSound(w) && !TouchesOutbox(e)
    ensures IsDoubled(Next(w.q, e), id) <==> IsDoubled(w.q, id)
  {
    hide Next, RowsOk, Carries;
    QueueStepOnOutbox(w.q, e);
  }

  lemma AcknowledgementOn(w: World, id: Id, hash: Hash)
    requires OutboxSound(w) && Carries(w.q, id, hash.content)
    ensures var n := Next(w.q, Acknowledge(id, hash));
      && id in n.published && id !in n.finalizations
      && forall o :: o != id ==>
           (o in n.published <==> o in w.q.published) && (o in n.finalizations <==> o in w.q.finalizations)
  {
    hide Next, RowsOk;
    AcknowledgementEvent(w.q, id, hash);
    assert id in w.q.finalizations ==> w.q.finalizations[id].hash == hash;
  }

  /** A sound outbox without doubles stays one if and only if the step doubles nothing. */
  lemma OutboxIsKeptExactlyWhen(w: World, x: Step)
    requires OutboxOk(w)
    ensures OutboxOk(Then(w, x)) <==> forall id :: !Doubles(w, x, id)
  {
    hide OutboxSound, Then, IsDoubled, Doubles;
    SoundnessIsKept(w, x);
    forall id
      ensures IsDoubled(Then(w, x).q, id) <==> Doubles(w, x, id)
    {
      DoublingOverAStep(w, x, id);
    }
  }

  /** A step doubles the task and it is not acknowledged from there on. */
  ghost predicate DoubledSince(w: World, steps: seq<Step>, i: nat, j: nat, id: Id)
    requires i < j <= |steps|
  {
    && Doubles(WorldAt(w, steps, i), steps[i], id)
    && forall k :: i < k < j ==> !Acknowledges(WorldAt(w, steps, k), steps[k], id)
  }

  /** Over every run: a task is both pending and published exactly from a doubling to its next acknowledgement. */
  lemma {:induction false} DoubledExactlyWhen(w: World, steps: seq<Step>, j: nat, id: Id)
    requires IsNew(w) && j <= |steps|
    ensures IsDoubled(WorldAt(w, steps, j).q, id) <==> exists i :: 0 <= i < j && DoubledSince(w, steps, i, j, id)
    decreases j
  {
    hide Then, OutboxSound, Doubles, Acknowledges, WorldAt;
    if j == 0 {
      FirstWorld(w, steps);
    } else {
      var last := j - 1;
      WorldStep(w, steps, last);
      DoublingOverAStep(WorldAt(w, steps, last), steps[last], id);
      DoubledExactlyWhen(w, steps, last, id);
      if i :| 0 <= i < last && DoubledSince(w, steps, i, last, id) {
        assert !Acknowledges(WorldAt(w, steps, last), steps[last], id) ==> DoubledSince(w, steps, i, j, id);
      }
      if Doubles(WorldAt(w, steps, last), steps[last], id) {
        assert DoubledSince(w, steps, last, j, id);
      }
      if i :| 0 <= i < j && DoubledSince(w, steps, i, j, id) {
        assert i < last ==> DoubledSince(w, steps, i, last, id);
      }
    }
  }

  lemma FirstWorld(w: World, steps: seq<Step>)
    requires IsNew(w)
    ensures WorldAt(w, steps, 0) == w && forall id :: !IsDoubled(w.q, id)
  {
    assert steps[..0] == [];
  }

  /**
  Conservation: with failures and crashes between any two steps, and any number of processes, no task is ever
  both pending and published, if and only if no backfill inserts what was published since its selection.
  */
  lemma {:induction false} OutboxIsConservedExactlyWhen(w: World, steps: seq<Step>, j: nat)
    requires IsNew(w) && j <= |steps|
    ensures (forall k :: 0 <= k <= j ==> OutboxOk(WorldAt(w, steps, k)))
      <==> (forall k, id :: 0 <= k < j ==> !Doubles(WorldAt(w, steps, k), steps[k], id))
    decreases j
  {
    hide Then, OutboxOk, Doubles, WorldAt;
    if j == 0 {
      FirstWorld(w, steps);
      RunsKeepOutboxSound(w, steps[..0]);
      assert OutboxOk(WorldAt(w, steps, 0)) by { FirstIsOk(w, steps); }
    } else {
      WorldStep(w, steps, j - 1);
      OutboxIsConservedExactlyWhen(w, steps, j - 1);
      if OutboxOk(WorldAt(w, steps, j - 1)) {
        OutboxIsKeptExactlyWhen(WorldAt(w, steps, j - 1), steps[j - 1]);
      }
    }
  }

  lemma FirstIsOk(w: World, steps: seq<Step>)
    requires IsNew(w)
    ensures OutboxOk(WorldAt(w, steps, 0))
  {
    FirstWorld(w, steps);
    RunsKeepOutboxSound(w, []);
  }

  /** A running backfill is about to insert the task. */
  predicate IsSelected(w: World, id: Id) {
    exists b :: b in w.backfills && id in w.backfills[b]
  }

  /** As with a single process: its backfill is over before it publishes anything, and begins before. */
  predicate ActsAlone(w: World, x: Step) {
    match x
    case SelectBackfill(_) => w.publications == map[] && w.backfills == map[]
    case Load(_, _) => w.backfills == map[]
    case _ => true
  }

  ghost predicate NoneSelectedIsPublished(w: World) {
    && (w.backfills != map[] ==> w.publications == map[])
    && forall id :: IsSelected(w, id) ==> id !in w.q.published
  }

  lemma ActingAloneIsKept(w: World, x: Step)
    requires NoneSelectedIsPublished(w) && ActsAlone(w, x)
    ensures NoneSelectedIsPublished(Then(w, x)) && forall id :: !Doubles(w, x, id)
  {
    hide Next, IsPublishable;
    if CanStep(w, x) {
      match x
      case Queue(e) =>
        QueueStepOnOutbox(w.q, e);
      case InsertBackfill(b, _, _) =>
        assert forall id :: IsSelected(Do(w, x), id) ==> IsSelected(w, id);
      case DropBackfill(b) =>
        assert forall id :: IsSelected(Do(w, x), id) ==> IsSelected(w, id);
      case Fail(pid, now) =>
        PostponementKeepsPending(w.q, w.publications[pid].task, now + RetryDelay(w.publications[pid].attempts));
      case _ =>
    }
    forall id
      ensures !Doubles(w, x, id)
    {
      assert Doubles(w, x, id) ==> IsSelected(w, id);
    }
  }

  lemma {:induction false} ActingAloneDoublesNothing(w: World, steps: seq<Step>, j: nat)
    requires IsNew(w) && j <= |steps| && forall k :: 0 <= k < |steps| ==> ActsAlone(WorldAt(w, steps, k), steps[k])
    ensures NoneSelectedIsPublished(WorldAt(w, steps, j))
    ensures forall k, id :: 0 <= k < j ==> !Doubles(WorldAt(w, steps, k), steps[k], id)
    decreases j
  {
    hide Then, Doubles, ActsAlone, WorldAt, NoneSelectedIsPublished;
    if j == 0 {
      FirstWorld(w, steps);
      assert NoneSelectedIsPublished(w) by { NothingSelected(w); }
    } else {
      WorldStep(w, steps, j - 1);
      ActingAloneDoublesNothing(w, steps, j - 1);
      ActingAloneIsKept(WorldAt(w, steps, j - 1), steps[j - 1]);
    }
  }

  lemma NothingSelected(w: World)
    requires w.backfills == map[]
    ensures NoneSelectedIsPublished(w)
  {
  }

  /** In particular none ever is when a single process serves the project. */
  lemma OutboxIsConserved(w: World, steps: seq<Step>)
    requires IsNew(w) && forall k :: 0 <= k < |steps| ==> ActsAlone(WorldAt(w, steps, k), steps[k])
    ensures OutboxOk(Run(w, steps))
  {
    hide OutboxOk, Doubles;
    ActingAloneDoublesNothing(w, steps, |steps|);
    OutboxIsConservedExactlyWhen(w, steps, |steps|);
    assert steps[..|steps|] == steps && OutboxOk(WorldAt(w, steps, |steps|));
  }

  // ---- Nothing is forgotten ----

  /** A task that must be released, and that no table and no running backfill knows of. */
  predicate IsForgotten(w: World, id: Id) {
    && id in w.q.tasks && IsPublishable(w.q.tasks[id])
    && id !in w.q.finalizations && id !in w.q.published && !IsSelected(w, id)
  }

  /** Every task that must be released is pending, published, or selected by a running backfill. */
  ghost predicate Covered(w: World) {
    forall id :: !IsForgotten(w, id)
  }

  /**
  The completion of a root with something to release, made by a process that does not publish, as the
  tool servers do not, or under a copy that does not show the row for such a root.
  */
  ghost predicate LosesRelease(s: State, e: Event)
    requires e.Complete?
  {
    && ClaimEnabled(s, e)
    && s.tasks[e.a.id].job.kind.Root? && !s.tasks[e.a.id].job.source.Chat? && SqlTrim(Trim(e.text)) != ""
    && !(s.publishing && e.a.job.kind.Root? && !e.a.job.source.Chat?)
  }

  /** Only the backfill knows of the task. */
  predicate DropsTheLast(w: World, b: nat, id: Id) {
    && b in w.backfills && id in w.backfills[b] && id !in w.q.finalizations && id !in w.q.published
    && forall o :: o in w.backfills && o != b ==> id !in w.backfills[o]
  }

  /** The step makes such a completion, or cuts a backfill short that still has something to insert. */
  ghost predicate Loses(w: World, x: Step) {
    match x
    case DropBackfill(b) => exists id :: DropsTheLast(w, b, id)
    case Queue(e) => e.Complete? && LosesRelease(w.q, e)
    case _ => false
  }

  /** Only a completion gives a row a result. */
  lemma ResultsComeFromCompletion(s: State, e: Event, id: Id)
    requires RowsOk(s) && id in Next(s, e).tasks && Next(s, e).tasks[id].result.Some?
    requires !(id in s.tasks && s.tasks[id].result.Some?)
    ensures e.Complete? && ClaimEnabled(s, e) && e.a.id == id
  {
    hide ClaimEnabled, InsertEnabled, EditEnabled, OtherEnabled;
    hide ClaimEffect, InsertEffect, EditEffect, SweepEffect, SettingEffect, RowsOk;
    EveryEventMovesRows(s, e);
    assert id in s.tasks;
    if UsesClaim(e) {
      ClaimsGiveResultsByCompletion(s, e, id);
    } else if AddsRow(e) || EditsOneRow(e) {
      EditsGiveNoResults(s, e, id);
    } else if Sweeps(e) {
      SweepsGiveNoResults(s, e, id);
    }
  }

  lemma ClaimsGiveResultsByCompletion(s: State, e: Event, id: Id)
    requires UsesClaim(e) && ClaimEnabled(s, e) && id in s.tasks
    ensures ClaimEffect(s, e).tasks[id].result == s.tasks[id].result || (e.Complete? && e.a.id == id)
  {
  }

  lemma EditsGiveNoResults(s: State, e: Event, id: Id)
    requires AddsRow(e) || EditsOneRow(e)
    requires if AddsRow(e) then InsertEnabled(s, e) else EditEnabled(s, e)
    requires id in s.tasks
    ensures AddsRow(e) ==> InsertEffect(s, e).tasks[id].result == s.tasks[id].result
    ensures EditsOneRow(e) ==> EditEffect(s, e).tasks[id].result == s.tasks[id].result
  {
  }

  lemma SweepsGiveNoResults(s: State, e: Event, id: Id)
    requires id in s.tasks
    ensures SweepEffect(s, e).tasks[id].result == s.tasks[id].result
  {
  }

  /**
  A completion of a root with something to release is recorded for release in the same transaction
  if and only if the completing process has publication enabled.
  */
  lemma CompletionIsRecordedIffPublishing(s: State, releases: map<Hash, Release>, e: Event)
    requires TablesOk(s, releases) && e.Complete? && ClaimEnabled(s, e) && e.a.job == s.tasks[e.a.id].job
    requires e.a.job.kind.Root? && !e.a.job.source.Chat? && SqlTrim(Trim(e.text)) != ""
    ensures IsPublishable(Next(s, e).tasks[e.a.id])
    ensures e.a.id in Next(s, e).finalizations <==> s.publishing
    ensures e.a.id !in Next(s, e).published
  {
  }

  lemma CompletedText(s: State, e: Event)
    requires e.Complete? && ClaimEnabled(s, e)
    ensures Next(s, e).tasks[e.a.id].job == s.tasks[e.a.id].job
    ensures Next(s, e).tasks[e.a.id].result == Some(Trim(e.text))
  {
  }

  lemma NothingElseLoses(w: World, x: Step)
    requires OutboxSound(w) && Covered(w) && !Loses(w, x)
    ensures Covered(Then(w, x))
  {
    hide Next, ClaimEnabled, TablesOk, RowsOk, IsPublishable, Carries, LosesRelease;
    if CanStep(w, x) {
      match x
      case Queue(e) =>
        forall id
          ensures !IsForgotten(Do(w, x), id)
        {
          TransactionKeepsCoverage(w, e, id);
        }
      case SelectBackfill(b) =>
        SelectionCovers(w, b);
      case InsertBackfill(b, id, _) =>
        InsertionForgetsNothing(w, x);
      case DropBackfill(b) =>
        DroppingForgetsNothingElse(w, b);
      case Confirm(pid) =>
        AcknowledgementForgetsNothing(w, pid);
      case Fail(pid, now) =>
        FailureForgetsNothing(w, pid, now);
      case _ =>
        assert forall id :: IsForgotten(Do(w, x), id) ==> IsForgotten(w, id);
    }
  }

  lemma CompletionIsForgotten(w: World, e: Event)
    requires OutboxSound(w) && e.Complete? && LosesRelease(w.q, e)
    ensures IsForgotten(w.(q := Next(w.q, e)), e.a.id)
  {
    hide Next, RowsOk, PublicationsOk;
    assert w.q.tasks[e.a.id].status.Claimed?;
    UnrecordedCompletion(w.q, e);
    CompletedText(w.q, e);
  }

  lemma UnrecordedCompletion(s: State, e: Event)
    requires e.Complete? && LosesRelease(s, e)
    ensures Next(s, e).finalizations == s.finalizations && Next(s, e).published == s.published
    ensures e.a.id in Next(s, e).tasks && Next(s, e).tasks[e.a.id].status.Completed?
  {
    CompletedText(s, e);
  }

  lemma AcknowledgementForgetsNothing(w: World, pid: nat)
    requires CanStep(w, Confirm(pid)) && Covered(w)
    ensures Covered(Do(w, Confirm(pid)))
  {
    hide Next, IsPublishable;
    var p := w.publications[pid];
    AcknowledgedIsPublished(w.q, p.task, p.hash);
    AcknowledgedOnly(w.q, p.task, p.hash);
    assert forall id :: IsForgotten(Do(w, Confirm(pid)), id) ==> IsForgotten(w, id);
  }

  lemma FailureForgetsNothing(w: World, pid: nat, now: int)
    requires CanStep(w, Fail(pid, now)) && Covered(w)
    ensures Covered(Do(w, Fail(pid, now)))
  {
    hide Next, IsPublishable;
    PostponementKeepsPending(w.q, w.publications[pid].task, now + RetryDelay(w.publications[pid].attempts));
    assert forall id :: IsForgotten(Do(w, Fail(pid, now)), id) ==> IsForgotten(w, id);
  }

  lemma InsertionForgetsNothing(w: World, x: Step)
    requires x.InsertBackfill? && CanStep(w, x) && Covered(w)
    ensures Covered(Do(w, x))
  {
    hide IsPublishable;
    var n := Do(w, x);
    forall id
      ensures !IsForgotten(n, id)
    {
      assert !IsForgotten(w, id);
      if b :| b in w.backfills && id in w.backfills[b] {
        assert id != x.id ==> id in n.backfills[b];
      }
    }
  }

  lemma DroppingForgetsNothingElse(w: World, b: nat)
    requires b in w.backfills && Covered(w) && forall id :: !DropsTheLast(w, b, id)
    ensures Covered(w.(backfills := w.backfills - {b}))
  {
    hide IsPublishable;
    var n := w.(backfills := w.backfills - {b});
    forall id
      ensures !IsForgotten(n, id)
    {
      assert !IsForgotten(w, id) && !DropsTheLast(w, b, id);
      if o :| o in w.backfills && o != b && id in w.backfills[o] {
        assert o in n.backfills && id in n.backfills[o];
      }
    }
  }

  lemma DroppedIsForgotten(w: World, b: nat, id: Id)
    requires OutboxSound(w) && DropsTheLast(w, b, id)
    ensures IsForgotten(w.(backfills := w.backfills - {b}), id)
  {
  }

  /** A single step leaves every release remembered if and only if it loses none. */
  lemma CoverageIsKeptExactlyWhen(w: World, x: Step)
    requires OutboxSound(w) && Covered(w)
    ensures Covered(Then(w, x)) <==> !Loses(w, x)
  {
    hide Next, OutboxSound, LosesRelease, IsForgotten;
    if !Loses(w, x) {
      NothingElseLoses(w, x);
    } else if x.DropBackfill? {
      var id :| DropsTheLast(w, x.b, id);
      DroppedIsForgotten(w, x.b, id);
    } else {
      CompletionIsForgotten(w, x.e);
      assert IsForgotten(Do(w, x), x.e.a.id);
    }
  }

  lemma SelectionCovers(w: World, b: nat)
    ensures Covered(w.(backfills := w.backfills[b := Selection(w.q)]))
  {
    var n := w.(backfills := w.backfills[b := Selection(w.q)]);
    forall id
      ensures !IsForgotten(n, id)
    {
      if DueForRelease(w.q, id) {
        assert id in n.backfills[b];
      }
    }
  }

  lemma AcknowledgedIsPublished(q: State, id: Id, hash: Hash)
    ensures Next(q, Acknowledge(id, hash)).published.Keys == q.published.Keys + {id}
    ensures q.finalizations.Keys - {id} <= Next(q, Acknowledge(id, hash)).finalizations.Keys
  {
    hide Next;
    AcknowledgementEvent(q, id, hash);
  }

  lemma PostponementKeepsPending(q: State, id: Id, until: int)
    ensures Next(q, Postpone(id, until)).tasks == q.tasks
    ensures Next(q, Postpone(id, until)).published == q.published
    ensures Next(q, Postpone(id, until)).finalizations.Keys == q.finalizations.Keys
  {
    hide Next;
    PostponementEvent(q, id, until);
  }

  lemma TransactionKeepsCoverage(w: World, e: Event, id: Id)
    requires OutboxSound(w) && Covered(w) && !Loses(w, Queue(e)) && !TouchesOutbox(e)
    ensures !IsForgotten(w.(q := Next(w.q, e)), id)
  {
    hide Next, Moves, TablesOk;
    var n := w.(q := Next(w.q, e));
    QueueStepOnOutbox(w.q, e);
    EveryEventMovesRows(w.q, e);
    assert !IsForgotten(w, id);
    if IsForgotten(n, id) {
      if id in w.q.tasks && w.q.tasks[id].result.Some? {
        assert Carries(w.q, id, w.q.tasks[id].result.value);
        CarriesForever(w.q, e, n.q, id, w.q.tasks[id].result.value);
      } else {
        ResultsComeFromCompletion(w.q, e, id);
        assert id in w.q.tasks;
        CompletedText(w.q, e);
        RecordedCompletion(w.q, e);
      }
    }
  }

  lemma RecordedCompletion(s: State, e: Event)
    requires e.Complete? && ClaimEnabled(s, e) && !LosesRelease(s, e)
    requires IsPublishable(Next(s, e).tasks[e.a.id])
    ensures e.a.id in Next(s, e).finalizations || e.a.id in s.published
  {
    CompletedText(s, e);
    TrimmedToNothing(e.text);
  }

  lemma TrimmedToNothing(text: string)
    ensures SqlTrim(Trim(text)) != "" ==> Trim(text) != ""
  {
  }

  // ---- What is forgotten stays so until the next backfill ----

  /** What is being published is pending or published. */
  ghost predicate InFlightIsKnown(w: World) {
    forall pid :: pid in w.publications ==>
      w.publications[pid].task in w.q.finalizations || w.publications[pid].task in w.q.published
  }

  lemma InFlightStaysKnown(w: World, x: Step)
    requires InFlightIsKnown(w)
    ensures InFlightIsKnown(Then(w, x))
  {
    hide Next;
    if CanStep(w, x) {
      match x
      case Queue(e) =>
        QueueStepOnOutbox(w.q, e);
      case Confirm(pid) =>
        AcknowledgedIsPublished(w.q, w.publications[pid].task, w.publications[pid].hash);
      case Fail(pid, now) =>
        PostponementKeepsPending(w.q, w.publications[pid].task, now + RetryDelay(w.publications[pid].attempts));
      case _ =>
    }
  }

  lemma {:induction false} RunsKnowWhatIsInFlight(w: World, steps: seq<Step>)
    requires IsNew(w)
    ensures InFlightIsKnown(Run(w, steps))
  {
    hide Then;
    if steps != [] {
      RunsKnowWhatIsInFlight(w, steps[..|steps| - 1]);
      InFlightStaysKnown(Run(w, steps[..|steps| - 1]), steps[|steps| - 1]);
    }
  }

  predicate Backfills(w: World, x: Step) {
    x.SelectBackfill? && x.b !in w.backfills
  }

  lemma TransactionLeavesForgotten(w: World, e: Event, id: Id)
    requires RowsOk(w.q) && IsForgotten(w, id) && !TouchesOutbox(e)
    ensures IsForgotten(w.(q := Next(w.q, e)), id)
  {
    hide Next, RowsMove, RowsOk;
    EveryEventMovesRows(w.q, e);
    QueueStepOnOutbox(w.q, e);
    CarriesForever(w.q, e, Next(w.q, e), id, w.q.tasks[id].result.value);
  }

  lemma StaysForgotten(w: World, x: Step, id: Id)
    requires OutboxSound(w) && InFlightIsKnown(w) && IsForgotten(w, id) && !Backfills(w, x)
    ensures IsForgotten(Then(w, x), id)
  {
    hide Next, TablesOk, RowsOk, PublicationsOk, IsPublishable;
    if CanStep(w, x) {
      match x
      case Queue(e) =>
        TransactionLeavesForgotten(w, e, id);
      case Confirm(pid) =>
        assert w.publications[pid].task != id;
        AcknowledgedIsPublished(w.q, w.publications[pid].task, w.publications[pid].hash);
        AcknowledgedOnly(w.q, w.publications[pid].task, w.publications[pid].hash);
      case Fail(pid, now) =>
        PostponementKeepsPending(w.q, w.publications[pid].task, now + RetryDelay(w.publications[pid].attempts));
      case _ =>
    }
  }

  lemma AcknowledgedOnly(q: State, id: Id, hash: Hash)
    ensures Next(q, Acknowledge(id, hash)).tasks == q.tasks
    ensures Next(q, Acknowledge(id, hash)).finalizations.Keys <= q.finalizations.Keys
  {
    hide Next;
    AcknowledgementEvent(q, id, hash);
  }

  /** From a backfill's selection to the next one, nothing is forgotten if and only if no step loses a release. */
  lemma {:induction false} CoverageSinceBackfill(w: World, steps: seq<Step>, i: nat, j: nat)
    requires IsNew(w) && i < j <= |steps| && Backfills(WorldAt(w, steps, i), steps[i])
    requires forall k :: i < k < j ==> !Backfills(WorldAt(w, steps, k), steps[k])
    ensures Covered(WorldAt(w, steps, j)) <==> forall k :: i < k < j ==> !Loses(WorldAt(w, steps, k), steps[k])
    decreases j
  {
    hide Do, CanStep, IsForgotten, OutboxSound, Loses, InFlightIsKnown;
    WorldStep(w, steps, j - 1);
    var before := WorldAt(w, steps, j - 1);
    if i == j - 1 {
      SelectionIsNext(before, steps[i]);
    } else {
      CoverageSinceBackfill(w, steps, i, j - 1);
      if Covered(before) {
        CoverageIsKeptExactlyWhen(before, steps[j - 1]);
      } else {
        var id :| IsForgotten(before, id);
        RunsKnowWhatIsInFlight(w, steps[..j - 1]);
        StaysForgotten(before, steps[j - 1], id);
      }
    }
  }

  lemma SelectionIsNext(w: World, x: Step)
    requires Backfills(w, x)
    ensures Covered(Then(w, x))
  {
    SelectionCovers(w, x.b);
  }

  /** Every completed root with something to release is in exactly one of the two tables. */
  ghost predicate EachInOneTable(q: State) {
    && (forall id :: id in q.tasks && IsPublishable(q.tasks[id]) ==> id in q.finalizations || id in q.published)
    && forall id :: !IsDoubled(q, id)
  }

  /**
  From a backfill's selection to the next one, whenever no backfill is under way and however many publications
  fail or die: every completed root with something to release is in exactly one of the two tables, if and only
  if since that selection none was completed by a process without publication enabled and no backfill was cut
  short, and whatever a backfill doubled has been acknowledged since.
  */
  lemma NoReleaseIsForgotten(w: World, steps: seq<Step>, i: nat, j: nat)
    requires IsNew(w) && i < j <= |steps| && Backfills(WorldAt(w, steps, i), steps[i])
    requires forall k :: i < k < j ==> !Backfills(WorldAt(w, steps, k), steps[k])
    requires WorldAt(w, steps, j).backfills == map[]
    ensures EachInOneTable(WorldAt(w, steps, j).q) <==>
      && (forall k :: i < k < j ==> !Loses(WorldAt(w, steps, k), steps[k]))
      && (forall k, id :: 0 <= k < j ==> !DoubledSince(w, steps, k, j, id))
  {
    hide Loses, Run, IsPublishable, DoubledSince, IsDoubled;
    CoverageSinceBackfill(w, steps, i, j);
    var n := WorldAt(w, steps, j);
    forall id
      ensures IsDoubled(n.q, id) <==> exists k :: 0 <= k < j && DoubledSince(w, steps, k, j, id)
    {
      DoubledExactlyWhen(w, steps, j, id);
    }
    TablesCoverExactlyWhen(n);
    hide WorldAt, EachInOneTable, Covered;
    if forall id :: !IsDoubled(n.q, id) {
      forall k, id | 0 <= k < j
        ensures !DoubledSince(w, steps, k, j, id)
      {
        assert !IsDoubled(n.q, id);
      }
    } else {
      var id :| IsDoubled(n.q, id);
      var k :| 0 <= k < j && DoubledSince(w, steps, k, j, id);
    }
  }

  lemma TablesCoverExactlyWhen(w: World)
    requires w.backfills == map[]
    ensures EachInOneTable(w.q) <==> Covered(w) && forall id :: !IsDoubled(w.q, id)
  {
    hide IsPublishable, IsDoubled;
    forall id
      ensures IsForgotten(w, id) <==>
        id in w.q.tasks && IsPublishable(w.q.tasks[id]) && id !in w.q.finalizations && id !in w.q.published
    {
    }
  }

  /** A bootstrapped project whose one root has been claimed, in a process that does not publish. */
  function ToolServerWorld(): World {
    var root := Task(Job(None, None, Root, Manual, 0, 1, "release", "Write it.", 1), Claimed, 1, 1, Some(2), None,
                     None, None);
    World(State(map[0 := root], map[], map[], {}, map[], 0, 1, 0, false, map[], map[], 1), map[], map[], map[], map[])
  }

  /** A task completed through a tool server is recorded nowhere, and stays so until the next backfill. */
  lemma ToolCompletionIsForgotten()
    ensures var w := ToolServerWorld();
      var e := Complete(AssignmentOf(0, w.q.tasks[0]), "Done.", 3);
      && OutboxSound(w) && Covered(w) && Enabled(w.q, e) && IsForgotten(Then(w, Queue(e)), 0)
  {
    var w := ToolServerWorld();
    var e := Complete(AssignmentOf(0, w.q.tasks[0]), "Done.", 3);
    hide Next;
    assert ClaimEnabled(w.q, e);
    assert SqlTrim(Trim("Done.")) == "Done.";
    CompletionIsForgotten(w, e);
  }

  /** A root that was completed through a tool server, and that no table knows of. */
  function CompletedWorld(): World {
    var root := Task(Job(None, None, Root, Manual, 0, 1, "release", "Write it.", 1), Completed, 1, 1, None, Some(3),
                     Some("Done."), None);
    World(State(map[0 := root], map[], map[], {}, map[], 0, 1, 0, true, map[], map[], 1), map[], map[], map[], map[])
  }

  /** Two bootstraps at once: the second publishes what the first has selected, before the first inserts it. */
  const TWO_BOOTSTRAPS: seq<Step> :=
    [SelectBackfill(1), SelectBackfill(2), InsertBackfill(2, 0, 4), Load(0, 0), CheckHash(0), WriteFile(0), AddRow(0),
     CheckFile(0), CheckRow(0), Confirm(0), InsertBackfill(1, 0, 5)]

  /** The world while the second bootstrap publishes the task. */
  function Publishing(stage: Stage, written: bool, added: bool): World {
    var w, hash := CompletedWorld(), Blake3("Done.");
    w.(q := w.q.(finalizations := map[0 := Finalization(hash, 0, 4, 4)]),
       releases := if added then map[hash := Release("Done.", hash)] else map[],
       files := if written then map[hash := "Done."] else map[],
       publications := map[0 := Publication(0, hash, "Done.", 0, stage)],
       backfills := map[1 := map[0 := "Done."], 2 := map[]])
  }

  lemma OneStepOn(w: World, k: nat)
    requires k < |TWO_BOOTSTRAPS|
    ensures Run(w, TWO_BOOTSTRAPS[..k + 1]) == Then(Run(w, TWO_BOOTSTRAPS[..k]), TWO_BOOTSTRAPS[k])
    ensures Run(w, TWO_BOOTSTRAPS[..0]) == w
  {
    assert TWO_BOOTSTRAPS[..k + 1][..k] == TWO_BOOTSTRAPS[..k];
  }

  lemma SelectionOfDone()
    ensures Selection(CompletedWorld().q) == map[0 := "Done."]
  {
    assert SqlTrim("Done.") == "Done.";
  }

  lemma SecondBootstrapSelects()
    ensures Run(CompletedWorld(), TWO_BOOTSTRAPS[..3]) ==
      Publishing(Loaded, false, false).(publications := map[])
  {
    hide Run, Selection;
    var w := CompletedWorld();
    SelectionOfDone();
    OneStepOn(w, 0);
    OneStepOn(w, 1);
    OneStepOn(w, 2);
  }

  lemma LoadLine()
    ensures Then(Publishing(Loaded, false, false).(publications := map[]), Load(0, 0)) ==
      Publishing(Loaded, false, false)
  {
  }

  lemma FileLines()
    ensures Then(Publishing(Loaded, false, false), CheckHash(0)) == Publishing(HashChecked, false, false)
    ensures Then(Publishing(HashChecked, false, false), WriteFile(0)) == Publishing(FileWritten, true, false)
  {
  }

  lemma AddLine()
    ensures Then(Publishing(FileWritten, true, false), AddRow(0)) == Publishing(RowAdded, true, true)
  {
  }

  lemma FinalChecks()
    ensures Then(Publishing(RowAdded, true, true), CheckFile(0)) == Publishing(FileChecked, true, true)
    ensures Then(Publishing(FileChecked, true, true), CheckRow(0)) == Publishing(RowChecked, true, true)
  {
  }

  lemma SecondBootstrapWrites()
    ensures Run(CompletedWorld(), TWO_BOOTSTRAPS[..9]) == Publishing(RowChecked, true, true)
  {
    hide Run, Then, Publishing;
    var w := CompletedWorld();
    SecondBootstrapSelects();
    LoadLine();
    FileLines();
    AddLine();
    FinalChecks();
    OneStepOn(w, 3);
    OneStepOn(w, 4);
    OneStepOn(w, 5);
    OneStepOn(w, 6);
    OneStepOn(w, 7);
    OneStepOn(w, 8);
  }

  lemma SecondBootstrapPublishes()
    ensures var n := Run(CompletedWorld(), TWO_BOOTSTRAPS[..10]);
      0 in n.q.published && 1 in n.backfills && 0 in n.backfills[1]
  {
    hide Next, Run;
    SecondBootstrapWrites();
    OneStepOn(CompletedWorld(), 9);
    AcknowledgementEvent(Publishing(RowChecked, true, true).q, 0, Blake3("Done."));
  }

  /** Then the task is pending although it is published. */
  lemma TwoBootstrapsDouble()
    ensures OutboxOk(CompletedWorld()) && IsDoubled(Run(CompletedWorld(), TWO_BOOTSTRAPS).q, 0)
  {
    hide Next, Run;
    SecondBootstrapPublishes();
    OneStepOn(CompletedWorld(), 10);
    assert TWO_BOOTSTRAPS[..11] == TWO_BOOTSTRAPS;
  }

  // ---- Files ----

  /** Publications past the write, and published tasks, have their file. */
  ghost predicate FilesOk(w: World) {
    && (forall pid ::
          pid in w.publications && !w.publications[pid].stage.Loaded? && !w.publications[pid].stage.HashChecked? ==>
            FileMatches(w.files, w.publications[pid].hash))
    && (forall id :: id in w.q.published ==> FileMatches(w.files, w.q.published[id]))
  }

  lemma FilesAreKept(w: World, x: Step)
    requires OutboxSound(w) && FilesOk(w) && !x.Tamper?
    ensures FilesOk(Then(w, x))
  {
    hide Next, TablesOk, RowsOk, Carries;
    if CanStep(w, x) {
      match x
      case Queue(e) =>
        QueueStepOnOutbox(w.q, e);
      case Confirm(pid) =>
        AcknowledgementPublishes(w.q, w.publications[pid].task, w.publications[pid].hash);
      case Fail(pid, now) =>
        PostponementKeepsPending(w.q, w.publications[pid].task, now + RetryDelay(w.publications[pid].attempts));
      case WriteFile(pid) =>
        WritingKeepsFiles(w, pid);
      case _ =>
    }
  }

  lemma WritingKeepsFiles(w: World, pid: nat)
    requires OutboxSound(w) && FilesOk(w) && CanStep(w, WriteFile(pid))
    ensures FilesOk(Do(w, WriteFile(pid)))
  {
    hide TablesOk, RowsOk, BackfillsOk;
    assert PublicationOk(w, w.publications[pid]);
  }

  lemma AcknowledgementPublishes(q: State, id: Id, hash: Hash)
    ensures id in Next(q, Acknowledge(id, hash)).published
    ensures forall o :: o in Next(q, Acknowledge(id, hash)).published ==>
      (o in q.published && Next(q, Acknowledge(id, hash)).published[o] == q.published[o])
      || (o == id && Next(q, Acknowledge(id, hash)).published[o] == hash)
  {
    hide Next;
    AcknowledgementEvent(q, id, hash);
  }

  /** Whatever the release directory held at first, every published task's file has the published content. */
  lemma {:induction false} PublishedFilesExist(w: World, steps: seq<Step>)
    requires IsNew(w) && forall k :: 0 <= k < |steps| ==> !steps[k].Tamper?
    ensures FilesOk(Run(w, steps))
  {
    hide Then, OutboxSound;
    if steps != [] {
      var prefix := steps[..|steps| - 1];
      assert forall k :: 0 <= k < |prefix| ==> prefix[k] == steps[k];
      PublishedFilesExist(w, prefix);
      RunsKeepOutboxSound(w, prefix);
      FilesAreKept(Run(w, prefix), steps[|steps| - 1]);
    }
  }

  predicate PastFileCheck(w: World, pid: nat) {
    Stands(w, pid, FileChecked) || Stands(w, pid, RowChecked)
  }

  lemma OnlyTheCheckPassesTheCheck(w: World, x: Step, pid: nat)
    requires CanStep(w, x) && x != CheckFile(pid) && PastFileCheck(Do(w, x), pid)
    ensures PastFileCheck(w, pid) && Do(w, x).publications[pid].hash == w.publications[pid].hash
  {
  }

  lemma CheckedRowsMatch(w: World, pid: nat)
    requires OutboxSound(w) && PastFileCheck(w, pid)
    ensures RowMatches(w.releases, w.publications[pid].hash, w.publications[pid].content)
  {
  }

  /** Even if files are tampered with, a publication is only acknowledged after its file was seen to match. */
  lemma {:induction false} AcknowledgementFollowsTheFileCheck(w: World, steps: seq<Step>, j: nat, pid: nat)
    returns (i: nat)
    requires IsNew(w) && j <= |steps| && PastFileCheck(WorldAt(w, steps, j), pid)
    ensures i < j && FileMatches(WorldAt(w, steps, i).files, WorldAt(w, steps, j).publications[pid].hash)
    ensures RowMatches(WorldAt(w, steps, j).releases, WorldAt(w, steps, j).publications[pid].hash,
                       WorldAt(w, steps, j).publications[pid].content)
    decreases j
  {
    hide Next, OutboxSound, RowMatches;
    RunsKeepOutboxSound(w, steps[..j]);
    CheckedRowsMatch(WorldAt(w, steps, j), pid);
    assert steps[..0] == [];
    if j > 0 {
      WorldStep(w, steps, j - 1);
      var before := WorldAt(w, steps, j - 1);
      if steps[j - 1] == CheckFile(pid) && CanStep(before, steps[j - 1]) {
        i := j - 1;
      } else {
        if CanStep(before, steps[j - 1]) {
          OnlyTheCheckPassesTheCheck(before, steps[j - 1], pid);
        }
        i := AcknowledgementFollowsTheFileCheck(w, steps, j - 1, pid);
      }
    }
  }

  // ---- Refinement, retries and the undisturbed case ----

  /** The outbox machine is a run of the queue: everything proved about queue runs holds of it. */
  lemma {:induction false} OutboxRunsAreQueueRuns(w: World, steps: seq<Step>) returns (log: seq<Event>)
    requires IsNew(w)
    ensures Run(w, steps).q == Replay(w.q, log)
  {
    hide Next;
    if steps == [] {
      log := [];
    } else {
      var prefix, x := steps[..|steps| - 1], steps[|steps| - 1];
      log := OutboxRunsAreQueueRuns(w, prefix);
      RunsKeepOutboxSound(w, prefix);
      var before := Run(w, prefix);
      if CanStep(before, x) && Do(before, x).q != before.q {
        var e := QueueStepOf(before, x);
        ReplayOneMore(w.q, log, e);
        log := log + [e];
      }
    }
  }

  lemma QueueStepOf(w: World, x: Step) returns (e: Event)
    requires OutboxSound(w) && CanStep(w, x) && Do(w, x).q != w.q
    ensures Do(w, x).q == Next(w.q, e)
  {
    hide Next, RowsOk, TablesOk, PublicationsOk, RetryDelay;
    match x
    case Queue(event) =>
      e := event;
    case InsertBackfill(_, id, now) =>
      e := Backfill(id, now);
      BackfillEvent(w.q, id, now);
    case Confirm(pid) =>
      e := Acknowledge(w.publications[pid].task, w.publications[pid].hash);
    case Fail(pid, now) =>
      e := Postpone(w.publications[pid].task, now + RetryDelay(w.publications[pid].attempts));
    case _ =>
      e := ResumeDeferred;
  }

  /** The wait doubles from 100 ms with every failure up to the eighth, so the 30 s cap is never reached. */
  lemma RetryDelayDoubles(attempts: nat)
    ensures RetryDelay(0) == 100
    ensures RetryDelay(attempts + 1) == if attempts < 8 then 2 * RetryDelay(attempts) else RetryDelay(attempts)
    ensures RetryDelay(attempts) <= 25600
  {
    assert Power(8) == 256 by {
      assert Power(4) == 16;
    }
    PowerGrows(if attempts < 8 then attempts else 8, 8);
    PowerGrows(if attempts + 1 < 8 then attempts + 1 else 8, 8);
  }

  lemma {:induction false} PowerGrows(m: nat, n: nat)
    requires m <= n
    ensures Power(m) <= Power(n)
    decreases n - m
  {
    if m < n {
      PowerGrows(m + 1, n);
    }
  }
}
