/** An import job over an at-least-once queue: deliveries, crashes at any point,
    commits whose worker never heard of them, and other writers in between. Each
    event is one transaction, or the end of a worker's run. */
module ImportRuns {
  import opened Base
  import opened Catalog
  import opened ImportRows
  import opened ImportLaws
  import Plans = ImportPlan

  /** What every delivery of one job reads again: the uploaded file and its plan. */
  datatype File = File(rows: seq<Row>, plan: Plan)

  datatype State = Queued | Running | Done | GivenUp

  /** jobs.result: nothing yet, a checkpointed tally, or the final result. */
  datatype Payload = Nothing | Checkpoint(tally: Tally) | Final(created: nat, updated: nat, reported: bool)

  datatype Job = Job(state: State, processed: nat, total: Option<nat>, failed: nat, result: Payload)

  /** A worker inside the handler: what it read when it started, its own tally,
      and the batch it comes to next. */
  datatype Handler = Handler(done: nat, failed: nat, tally: Tally, announced: bool, next: nat)

  /** A committed transaction: a batch of the job, or anyone else's. */
  datatype Tx = BatchTx(i: nat) | EditTx(after: Tables)

  datatype World = World(
    tables: Tables,
    job: Job,
    handlers: map<nat, Handler>,
    pending: bool,
    report: Option<seq<(nat, Fault)>>,
    log: seq<Tx>)

  datatype Event =
    | Deliver(h: nat)
    | Announce(h: nat)
    | Batch(h: nat)
    | LostBatch(h: nat)
    | Crash(h: nat)
    | Finish(h: nat, recorded: bool, acked: bool)
    | GiveUp(h: nat, recorded: bool, acked: bool)
    | Edit(after: Tables)

  const NO_TALLY := Tally(0, 0, [])

  function Spans(f: File): seq<Plans.Span> {
    Plans.Batches(f.rows)
  }

  /** The rows of the i-th batch. */
  function Part(f: File, i: nat): seq<Row>
    requires i < |Spans(f)|
  {
    Plans.BatchesCoverWholeProducts(f.rows);
    Plans.GroupedIsPermutation(f.rows);
    Plans.Grouped(f.rows)[Spans(f)[i].start..Spans(f)[i].end]
  }

  /** How many rows the first n batches hold. */
  function End(f: File, n: nat): nat
    requires n <= |Spans(f)|
  {
    if n == 0 then 0 else Spans(f)[n - 1].end
  }

  function Tallied(p: Payload): Tally {
    match p
    case Nothing => NO_TALLY
    case Checkpoint(y) => y
    case Final(c, u, _) => Tally(c, u, [])
  }

  function Open(job: Job): bool {
    job.state.Queued? || job.state.Running?
  }

  /** StartJob, and what the handler reads off the row it returns. */
  function Started(w: World, h: nat): World {
    if Open(w.job) then
      w.(job := w.job.(state := Running),
         handlers := w.handlers[h := Handler(w.job.processed, w.job.failed, Tallied(w.job.result), false, 0)])
    else w.(pending := false)
  }

  /** JobProgress, only on a running job. */
  function Announced(w: World, h: nat, f: File): World
    requires h in w.handlers
  {
    var x := w.handlers[h];
    w.(job := if w.job.state.Running?
              then w.job.(processed := x.done, total := Some(|f.rows|), failed := x.failed) else w.job,
       handlers := w.handlers[h := x.(announced := true)])
  }

  predicate Skips(x: Handler, f: File)
    requires x.next < |Spans(f)|
  {
    x.done >= Spans(f)[x.next].end
  }

  /** A batch and its checkpoint, in one transaction. CheckpointJob has no guard
      on the job's state. */
  function BatchCommitted(w: World, h: nat, f: File): World
    requires h in w.handlers && w.handlers[h].next < |Spans(f)|
  {
    var x := w.handlers[h];
    var (tables, tally) := BatchDone(w.tables, x.tally, Part(f, x.next), f.plan);
    w.(tables := tables,
       job := w.job.(processed := Spans(f)[x.next].end, failed := |tally.errors|, result := Checkpoint(tally)),
       handlers := w.handlers[h := x.(tally := tally, next := x.next + 1)],
       log := w.log + [BatchTx(x.next)])
  }

  function Gone(w: World, h: nat): World {
    w.(handlers := w.handlers - {h})
  }

  /** The error report, FinishJob on a running job, and the ack. */
  function Finished(w: World, h: nat, recorded: bool, acked: bool): World
    requires h in w.handlers
  {
    var y := w.handlers[h].tally;
    var u := Gone(w, h).(report := if y.errors != [] then Some(y.errors) else w.report);
    if !recorded then u
    else
      u.(job := if u.job.state.Running?
                then u.job.(state := Done, result := Final(y.created, y.updated, y.errors != [])) else u.job,
         pending := u.pending && !acked)
  }

  /** fail and ack: the message is acknowledged even when FailJob's write does not
      land, and either may be lost. */
  function Abandoned(w: World, h: nat, recorded: bool, acked: bool): World {
    Gone(w, h).(job := if recorded && Open(w.job) then w.job.(state := GivenUp) else w.job,
                pending := w.pending && !acked)
  }

  predicate Ready(w: World, h: nat, f: File) {
    h in w.handlers && w.handlers[h].announced && w.handlers[h].next < |Spans(f)|
  }

  predicate Enabled(w: World, e: Event, f: File) {
    match e
    case Deliver(h) => w.pending && h !in w.handlers
    case Announce(h) => h in w.handlers && !w.handlers[h].announced
    case Batch(h) => Ready(w, h, f)
    case LostBatch(h) => Ready(w, h, f) && !Skips(w.handlers[h], f)
    case Crash(h) => h in w.handlers
    case Finish(h, _, _) => h in w.handlers && w.handlers[h].announced && w.handlers[h].next == |Spans(f)|
    case GiveUp(h, _, _) => h in w.handlers
    case Edit(_) => true
  }

  function Step(w: World, e: Event, f: File): World {
    if !Enabled(w, e, f) then w
    else
      match e
      case Deliver(h) => Started(w, h)
      case Announce(h) => Announced(w, h, f)
      case Batch(h) =>
        var x := w.handlers[h];
        if Skips(x, f) then w.(handlers := w.handlers[h := x.(next := x.next + 1)]) else BatchCommitted(w, h, f)
      case LostBatch(h) => Gone(BatchCommitted(w, h, f), h)
      case Crash(h) => Gone(w, h)
      case Finish(h, recorded, acked) => Finished(w, h, recorded, acked)
      case GiveUp(h, recorded, acked) => Abandoned(w, h, recorded, acked)
      case Edit(after) => w.(tables := after, log := w.log + [EditTx(after)])
  }

  function Run(w: World, events: seq<Event>, f: File): World {
    if events == [] then w else Step(Run(w, events[..|events| - 1], f), events[|events| - 1], f)
  }

  /** No job is delivered while a worker still has it. */
  predicate Alone(w: World, e: Event) {
    e.Deliver? ==> w.handlers == map[]
  }

  predicate NoOverlap(w: World, events: seq<Event>, f: File) {
    events != [] ==>
      && NoOverlap(w, events[..|events| - 1], f)
      && Alone(Run(w, events[..|events| - 1], f), events[|events| - 1])
  }

  function Enqueued(t: Tables): World {
    World(t, Job(Queued, 0, None, 0, Nothing), map[], true, None, [])
  }

  // --------------------------------------------------------- the invariant

  /** How many batch transactions a log holds. */
  function Made(log: seq<Tx>): nat {
    if log == [] then 0 else Made(log[..|log| - 1]) + if log[|log| - 1].BatchTx? then 1 else 0
  }

  /** Each batch once, in the file's order. */
  predicate InOrder(log: seq<Tx>) {
    log != [] ==>
      && InOrder(log[..|log| - 1])
      && (log[|log| - 1].BatchTx? ==> log[|log| - 1].i == Made(log[..|log| - 1]))
  }

  /** What a log's transactions make of the tables and the tally, one after another. */
  function Replay(t: Tables, log: seq<Tx>, f: File): (Tables, Tally) {
    if log == [] then (t, NO_TALLY)
    else
      var (u, y) := Replay(t, log[..|log| - 1], f);
      match log[|log| - 1]
      case BatchTx(i) => if i < |Spans(f)| then BatchDone(u, y, Part(f, i), f.plan) else (u, y)
      case EditTx(after) => (after, y)
  }

  predicate LogOk(t: Tables, w: World, f: File) {
    InOrder(w.log) && Made(w.log) <= |Spans(f)| && Replay(t, w.log, f).0 == w.tables
  }

  /** The row says how far the log has come. */
  predicate RowOk(job: Job, report: Option<seq<(nat, Fault)>>, n: nat, y: Tally, f: File)
    requires n <= |Spans(f)|
  {
    && job.processed == End(f, n) && job.failed == |y.errors|
    && match job.state
       case Done =>
         && n == |Spans(f)| && job.result == Final(y.created, y.updated, y.errors != [])
         && (y.errors != [] ==> report == Some(y.errors))
       case Queued => n == 0 && y == NO_TALLY && job.result == Nothing
       case _ => Tallied(job.result) == y && !job.result.Final?
  }

  /** A worker that has the job knows what is committed, and where it stands. */
  predicate HandlerOk(x: Handler, n: nat, y: Tally, f: File)
    requires n <= |Spans(f)|
  {
    && x.tally == y && x.next <= |Spans(f)| && x.done <= End(f, n)
    && (End(f, x.next) <= x.done ==> x.done == End(f, n))
    && (End(f, x.next) > x.done ==> x.next == n)
    && (!x.announced ==> x.next == 0 && x.done == End(f, n) && x.failed == |y.errors|)
  }

  predicate HandlersOk(w: World, n: nat, y: Tally, f: File)
    requires n <= |Spans(f)|
  {
    && (forall h :: h in w.handlers ==> HandlerOk(w.handlers[h], n, y, f) && w.job.state.Running? && w.pending)
    && forall h, k :: h in w.handlers && k in w.handlers ==> h == k
  }

  predicate Inv(t: Tables, w: World, f: File) {
    && LogOk(t, w, f)
    && RowOk(w.job, w.report, Made(w.log), Replay(t, w.log, f).1, f)
    && HandlersOk(w, Made(w.log), Replay(t, w.log, f).1, f)
  }

  lemma SpansGrow(f: File, m: nat, n: nat)
    requires m < n <= |Spans(f)|
    ensures End(f, m) < End(f, n)
    decreases n
  {
    Plans.BatchesCoverWholeProducts(f.rows);
    hide Plans.Batches, Plans.Whole, Plans.Sized, Plans.Greedy;
    assert Spans(f)[n - 1].start < Spans(f)[n - 1].end;
    if m < n - 1 {
      SpansGrow(f, m, n - 1);
    }
  }

  lemma InvEnqueued(t: Tables, f: File)
    ensures Inv(t, Enqueued(t), f)
  {
    hide Plans.Batches;
  }
}
