/** However often a worker dies and its job is delivered again, an import does
    what one uninterrupted run does. */
module ImportTheorems {
  import opened Base
  import opened Catalog
  import opened ImportRows
  import opened ImportLaws
  import opened ImportRuns
  import Plans = ImportPlan

  lemma LogAppend(log: seq<Tx>, x: Tx)
    ensures Made(log + [x]) == Made(log) + if x.BatchTx? then 1 else 0
    ensures InOrder(log + [x]) <==> InOrder(log) && (x.BatchTx? ==> x.i == Made(log))
  {
    assert (log + [x])[..|log|] == log;
  }

  lemma ReplayAppend(t: Tables, log: seq<Tx>, x: Tx, f: File)
    ensures var (u, y) := Replay(t, log, f);
            Replay(t, log + [x], f) ==
            match x
            case BatchTx(i) => if i < |Spans(f)| then BatchDone(u, y, Part(f, i), f.plan) else (u, y)
            case EditTx(after) => (after, y)
  {
    assert (log + [x])[..|log|] == log;
    hide BatchDone, Part, Spans;
  }

  lemma DeliverKeeps(t: Tables, w: World, h: nat, f: File)
    requires Inv(t, w, f) && w.handlers == map[] && w.pending
    ensures Inv(t, Started(w, h), f)
  {
    hide InOrder, Replay, Made, Spans;
    assert End(f, 0) == 0;
  }

  lemma AnnounceKeeps(t: Tables, w: World, h: nat, f: File)
    requires Inv(t, w, f) && h in w.handlers && !w.handlers[h].announced
    ensures Inv(t, Announced(w, h, f), f)
  {
    hide Replay, Made, Spans, InOrder;
  }

  /** A worker about to commit has committed everything before. */
  lemma NextIsNew(w: World, h: nat, n: nat, y: Tally, f: File)
    requires n <= |Spans(f)| && h in w.handlers && HandlerOk(w.handlers[h], n, y, f)
    requires w.handlers[h].next < |Spans(f)| && !Skips(w.handlers[h], f)
    ensures w.handlers[h].next == n
  {
    var x := w.handlers[h];
    hide Spans;
    if End(f, x.next) <= x.done {
      assert End(f, n) < End(f, x.next + 1);
      if n > x.next {
        if n > x.next + 1 {
          SpansGrow(f, x.next + 1, n);
        }
      } else if n < x.next {
        SpansGrow(f, n, x.next);
      }
    }
  }

  lemma NextIsOld(x: Handler, n: nat, y: Tally, f: File)
    requires n <= |Spans(f)| && HandlerOk(x, n, y, f) && x.announced
    requires x.next < |Spans(f)| && Skips(x, f)
    ensures HandlerOk(x.(next := x.next + 1), n, y, f)
  {
    hide Spans;
    SpansGrow(f, x.next, x.next + 1);
  }

  lemma SkipKeeps(t: Tables, w: World, h: nat, f: File)
    requires Inv(t, w, f) && Ready(w, h, f) && Skips(w.handlers[h], f)
    ensures Inv(t, Step(w, Batch(h), f), f)
  {
    NextIsOld(w.handlers[h], Made(w.log), Replay(t, w.log, f).1, f);
    hide Replay, Made, Spans, InOrder, HandlerOk, Skips, LogOk, RowOk;
  }

  lemma CommitLog(t: Tables, w: World, h: nat, f: File)
    requires Inv(t, w, f) && Ready(w, h, f) && !Skips(w.handlers[h], f)
    ensures var u := BatchCommitted(w, h, f);
            && LogOk(t, u, f) && Made(u.log) == Made(w.log) + 1 == w.handlers[h].next + 1
            && Replay(t, u.log, f).1 == u.handlers[h].tally
  {
    var x := w.handlers[h];
    NextIsNew(w, h, Made(w.log), Replay(t, w.log, f).1, f);
    hide Skips, RowOk, End;
    LogAppend(w.log, BatchTx(x.next));
    ReplayAppend(t, w.log, BatchTx(x.next), f);
    hide Replay, Made, Spans, InOrder, BatchDone, Part;
  }

  lemma CommitRow(w: World, h: nat, n: nat, y: Tally, f: File)
    requires h in w.handlers && w.handlers[h].next == n < |Spans(f)| && w.job.state.Running?
    requires y == BatchCommitted(w, h, f).handlers[h].tally
    ensures RowOk(BatchCommitted(w, h, f).job, w.report, n + 1, y, f)
  {
    hide Spans, BatchDone, Part;
  }

  lemma CommitHandlers(w: World, h: nat, n: nat, y: Tally, z: Tally, f: File)
    requires n < |Spans(f)| && HandlersOk(w, n, y, f) && Ready(w, h, f) && !Skips(w.handlers[h], f)
    requires w.handlers[h].next == n && z == BatchCommitted(w, h, f).handlers[h].tally
    ensures HandlersOk(BatchCommitted(w, h, f), n + 1, z, f)
  {
    SpansGrow(f, n, n + 1);
    assert w.handlers[h].done < End(f, n + 1);
    hide Spans, BatchDone, Part;
  }

  lemma InvIs(t: Tables, w: World, f: File)
    ensures Inv(t, w, f) <==>
            && LogOk(t, w, f) && Made(w.log) <= |Spans(f)|
            && RowOk(w.job, w.report, Made(w.log), Replay(t, w.log, f).1, f)
            && HandlersOk(w, Made(w.log), Replay(t, w.log, f).1, f)
  {
    hide RowOk, HandlersOk, Replay, InOrder, Made, Spans;
  }

  lemma HandlerIsOk(w: World, n: nat, y: Tally, f: File, h: nat)
    requires n <= |Spans(f)| && HandlersOk(w, n, y, f) && h in w.handlers
    ensures HandlerOk(w.handlers[h], n, y, f) && w.job.state.Running?
  {
    hide HandlerOk, Spans;
  }

  lemma CommitKeeps(t: Tables, w: World, h: nat, f: File)
    requires Inv(t, w, f) && Ready(w, h, f) && !Skips(w.handlers[h], f)
    ensures Inv(t, BatchCommitted(w, h, f), f)
  {
    hide Inv, Replay, Made, Spans, InOrder, LogOk, RowOk, HandlerOk, HandlersOk, BatchDone, Part, End, Skips;
    InvIs(t, w, f);
    var n, y := Made(w.log), Replay(t, w.log, f).1;
    var u := BatchCommitted(w, h, f);
    var z := u.handlers[h].tally;
    HandlerIsOk(w, n, y, f, h);
    CommitLog(t, w, h, f);
    NextIsNew(w, h, n, y, f);
    CommitRow(w, h, n, z, f);
    CommitHandlers(w, h, n, y, z, f);
    assert u.report == w.report;
    hide BatchCommitted;
    InvIs(t, u, f);
  }

  lemma GoneKeeps(t: Tables, w: World, h: nat, f: File)
    requires Inv(t, w, f)
    ensures Inv(t, Gone(w, h), f)
  {
    hide Replay, Made, Spans, InOrder, RowOk, HandlerOk;
  }

  lemma FinishKeeps(t: Tables, w: World, h: nat, recorded: bool, acked: bool, f: File)
    requires Inv(t, w, f) && h in w.handlers && w.handlers[h].announced && w.handlers[h].next == |Spans(f)|
    ensures Inv(t, Finished(w, h, recorded, acked), f)
  {
    var n := Made(w.log);
    if n < |Spans(f)| {
      SpansGrow(f, n, |Spans(f)|);
    }
    assert n == |Spans(f)|;
    hide Replay, Made, Spans, InOrder;
  }

  lemma GiveUpKeeps(t: Tables, w: World, h: nat, recorded: bool, acked: bool, f: File)
    requires Inv(t, w, f) && h in w.handlers
    ensures Inv(t, Abandoned(w, h, recorded, acked), f)
  {
    hide Replay, Made, Spans, InOrder, HandlerOk;
  }

  lemma EditKeeps(t: Tables, w: World, after: Tables, f: File)
    requires Inv(t, w, f)
    ensures Inv(t, Step(w, Edit(after), f), f)
  {
    LogAppend(w.log, EditTx(after));
    ReplayAppend(t, w.log, EditTx(after), f);
    hide Replay, Made, Spans, InOrder, RowOk, HandlerOk, BatchDone, Part;
  }

  lemma StepKeeps(t: Tables, w: World, e: Event, f: File)
    requires Inv(t, w, f) && Alone(w, e)
    ensures Inv(t, Step(w, e, f), f)
  {
    hide Inv, Started, Announced, BatchCommitted, Finished, Abandoned, Gone, Skips;
    if Enabled(w, e, f) {
      match e
      case Deliver(h) => DeliverKeeps(t, w, h, f);
      case Announce(h) => AnnounceKeeps(t, w, h, f);
      case Batch(h) =>
        if Skips(w.handlers[h], f) { SkipKeeps(t, w, h, f); } else { CommitKeeps(t, w, h, f); }
      case LostBatch(h) =>
        CommitKeeps(t, w, h, f);
        GoneKeeps(t, BatchCommitted(w, h, f), h, f);
      case Crash(h) => GoneKeeps(t, w, h, f);
      case Finish(h, recorded, acked) => FinishKeeps(t, w, h, recorded, acked, f);
      case GiveUp(h, recorded, acked) => GiveUpKeeps(t, w, h, recorded, acked, f);
      case Edit(after) => EditKeeps(t, w, after, f);
    }
  }

  /** After any run whose deliveries do not overlap: each batch has been applied
      at most once and in order, the tables and the tally are what those
      transactions make of the start, and the row says where to resume. */
  lemma {:induction false} RunKeeps(t: Tables, events: seq<Event>, f: File)
    requires NoOverlap(Enqueued(t), events, f)
    ensures Inv(t, Run(Enqueued(t), events, f), f)
  {
    hide Inv, Step, Alone;
    if events == [] {
      InvEnqueued(t, f);
    } else {
      RunKeeps(t, events[..|events| - 1], f);
      StepKeeps(t, Run(Enqueued(t), events[..|events| - 1], f), events[|events| - 1], f);
    }
  }

  // ------------------------------------------------------------- outcomes

  /** The import without queue, crash or anyone else: batch after batch. */
  function Uninterrupted(t: Tables, f: File, n: nat): (Tables, Tally)
    requires n <= |Spans(f)|
  {
    if n == 0 then (t, NO_TALLY)
    else
      var (u, y) := Uninterrupted(t, f, n - 1);
      BatchDone(u, y, Part(f, n - 1), f.plan)
  }

  predicate NoEdits(events: seq<Event>) {
    forall i :: 0 <= i < |events| ==> !events[i].Edit?
  }

  predicate OnlyBatches(log: seq<Tx>) {
    forall i :: 0 <= i < |log| ==> log[i].BatchTx?
  }

  lemma {:induction false} UneditedLog(w: World, events: seq<Event>, f: File)
    requires OnlyBatches(w.log) && NoEdits(events)
    ensures OnlyBatches(Run(w, events, f).log)
  {
    hide BatchDone, Part, Spans, Skips;
    if events != [] {
      UneditedLog(w, events[..|events| - 1], f);
    }
  }

  lemma {:induction false} ReplayOfBatches(t: Tables, log: seq<Tx>, f: File)
    requires InOrder(log) && OnlyBatches(log) && Made(log) <= |Spans(f)|
    ensures Replay(t, log, f) == Uninterrupted(t, f, Made(log))
  {
    hide BatchDone, Part, Spans;
    if log != [] {
      ReplayOfBatches(t, log[..|log| - 1], f);
    }
  }

  /** Crashes, lost commits and redeliveries change nothing: at every moment the
      catalog is that of an uninterrupted run as far as it has come, and a job
      that is done has all of it, with the uninterrupted run's tally. */
  lemma ResumeEqualsUninterrupted(t: Tables, events: seq<Event>, f: File)
    requires NoOverlap(Enqueued(t), events, f) && NoEdits(events)
    ensures var w := Run(Enqueued(t), events, f);
            && Made(w.log) <= |Spans(f)| && w.tables == Uninterrupted(t, f, Made(w.log)).0
            && (w.job.state.Done? ==>
                  var (tables, y) := Uninterrupted(t, f, |Spans(f)|);
                  && w.tables == tables && w.job.result == Final(y.created, y.updated, y.errors != [])
                  && (y.errors != [] ==> w.report == Some(y.errors)))
  {
    RunKeeps(t, events, f);
    UneditedLog(Enqueued(t), events, f);
    hide Run, Made, InOrder, OnlyBatches, Replay, Spans, Uninterrupted, HandlersOk, NoOverlap, NoEdits;
    ReplayOfBatches(t, Run(Enqueued(t), events, f).log, f);
  }

  /** With other writers in between, a done job has still applied each batch
      exactly once, in order, on whatever the tables were at that moment. */
  lemma DoneAppliedEachBatchOnce(t: Tables, events: seq<Event>, f: File)
    requires NoOverlap(Enqueued(t), events, f) && Run(Enqueued(t), events, f).job.state.Done?
    ensures var w := Run(Enqueued(t), events, f);
            && InOrder(w.log) && Made(w.log) == |Spans(f)|
            && Replay(t, w.log, f).0 == w.tables
            && var y := Replay(t, w.log, f).1;
               w.job.result == Final(y.created, y.updated, y.errors != []) && w.job.failed == |y.errors|
  {
    RunKeeps(t, events, f);
    hide Run, Made, InOrder, Replay, Spans, NoOverlap, HandlersOk, End;
  }

  lemma PartSize(f: File, i: nat)
    requires i < |Spans(f)|
    ensures |Part(f, i)| == End(f, i + 1) - End(f, i)
  {
    Plans.BatchesCoverWholeProducts(f.rows);
    Plans.GroupedIsPermutation(f.rows);
    hide Plans.Batches, Plans.Whole, Plans.Sized, Plans.Greedy, Plans.Grouped;
  }

  lemma BatchCounted(t: Tables, y: Tally, rows: seq<Row>, plan: Plan)
    ensures Counted(BatchDone(t, y, rows, plan).1) == Counted(y) + |rows|
  {
    EveryRowCounted(Work(t, map[], y), rows, plan);
    hide RowsDone;
  }

  lemma {:induction false} TallyAddsUp(t: Tables, log: seq<Tx>, f: File)
    requires InOrder(log) && Made(log) <= |Spans(f)|
    ensures Counted(Replay(t, log, f).1) == End(f, Made(log))
  {
    hide BatchDone, Part, Spans, End, Counted;
    if log == [] {
      NothingCounted(f);
    } else {
      TallyAddsUp(t, log[..|log| - 1], f);
      var (u, y) := Replay(t, log[..|log| - 1], f);
      var x := log[|log| - 1];
      if x.BatchTx? {
        PartSize(f, x.i);
        BatchCounted(u, y, Part(f, x.i), f.plan);
      }
    }
  }

  lemma NothingCounted(f: File)
    ensures Counted(NO_TALLY) == 0 == End(f, 0)
  {
  }

  /** At every checkpoint, under any interleaving, the rows created, updated and
      failed are the rows processed. */
  lemma CheckpointAddsUp(t: Tables, events: seq<Event>, f: File)
    requires NoOverlap(Enqueued(t), events, f) && Run(Enqueued(t), events, f).job.result.Checkpoint?
    ensures var job := Run(Enqueued(t), events, f).job;
            && job.result.tally.created + job.result.tally.updated + |job.result.tally.errors| == job.processed
            && job.failed == |job.result.tally.errors|
  {
    RunKeeps(t, events, f);
    hide Run, Made, InOrder, Replay, Spans, NoOverlap, HandlersOk, End;
    TallyAddsUp(t, Run(Enqueued(t), events, f).log, f);
  }

  lemma ClosedStays(t: Tables, w: World, e: Event, f: File)
    requires Inv(t, w, f) && !Open(w.job) && Alone(w, e)
    ensures Step(w, e, f).job == w.job && Step(w, e, f).report == w.report
    ensures Made(Step(w, e, f).log) == Made(w.log)
  {
    hide LogOk, RowOk, HandlerOk, Replay, InOrder, BatchDone, Part, Spans, Skips;
    assert w.handlers == map[];
    if e.Edit? {
      LogAppend(w.log, EditTx(e.after));
    }
    hide Made;
  }

  /** A job once done or failed never changes again, and no batch is applied for
      it, however often its message comes back. */
  lemma {:induction false} ClosedForGood(t: Tables, w: World, events: seq<Event>, f: File)
    requires Inv(t, w, f) && !Open(w.job) && NoOverlap(w, events, f)
    ensures var u := Run(w, events, f);
            Inv(t, u, f) && u.job == w.job && u.report == w.report && Made(u.log) == Made(w.log)
  {
    hide Inv, Step, Alone, Made;
    if events != [] {
      var u := Run(w, events[..|events| - 1], f);
      ClosedForGood(t, w, events[..|events| - 1], f);
      ClosedStays(t, u, events[|events| - 1], f);
      StepKeeps(t, u, events[|events| - 1], f);
    }
  }

  lemma RunAppend(w: World, events: seq<Event>, e: Event, f: File)
    ensures Run(w, events + [e], f) == Step(Run(w, events, f), e, f)
    ensures NoOverlap(w, events + [e], f) <==> NoOverlap(w, events, f) && Alone(Run(w, events, f), e)
  {
    hide Step, Alone;
    var more := events + [e];
    assert more[..|more| - 1] == events;
  }

  lemma NothingRun(w: World, f: File)
    ensures Run(w, [], f) == w && NoOverlap(w, [], f)
  {
  }

  // --------------------------------------------------- what overlap does

  /** Two workers that have come to the same batch both commit it. */
  lemma BothCommit(w: World, h: nat, k: nat, f: File)
    requires h != k && Ready(w, h, f) && Ready(w, k, f) && w.handlers[h].next == w.handlers[k].next
    requires !Skips(w.handlers[h], f) && !Skips(w.handlers[k], f)
    ensures var i := w.handlers[h].next;
            Step(Step(w, Batch(h), f), Batch(k), f).log == w.log + [BatchTx(i)] + [BatchTx(i)]
  {
    hide BatchDone, Part, Spans, Skips;
  }

  /** Two workers with the same job apply its first batch twice: nothing in
      CheckpointJob or StartJob stands in the way. */
  lemma OverlapRepeatsABatch(t: Tables, f: File)
    requires f.rows != []
    ensures var w := Run(Enqueued(t), [Deliver(0), Deliver(1), Announce(0), Announce(1), Batch(0), Batch(1)], f);
            w.log == [BatchTx(0), BatchTx(0)] && !InOrder(w.log)
  {
    hide BatchDone, Part, Spans, Run, InOrder, BatchCommitted, NoOverlap, Step;
    var start := [Deliver(0), Deliver(1), Announce(0), Announce(1)];
    FirstBatch(f);
    TwiceIsNotInOrder();
    TwoStarted(t, f);
    var w := Run(Enqueued(t), start, f);
    BothCommit(w, 0, 1, f);
    RunAppend(Enqueued(t), start, Batch(0), f);
    RunAppend(Enqueued(t), start + [Batch(0)], Batch(1), f);
    assert start + [Batch(0)] + [Batch(1)]
           == [Deliver(0), Deliver(1), Announce(0), Announce(1), Batch(0), Batch(1)];
  }

  lemma TwoStarted(t: Tables, f: File)
    ensures var w := Run(Enqueued(t), [Deliver(0), Deliver(1), Announce(0), Announce(1)], f);
            var x := Handler(0, 0, NO_TALLY, true, 0);
            w.log == [] && w.handlers == map[0 := x, 1 := x] && w.job.state.Running? && w.job.result.Nothing?
  {
    hide Run, NoOverlap, BatchDone, Part, Spans;
    var s := Enqueued(t);
    NothingRun(s, f);
    RunAppend(s, [], Deliver(0), f);
    RunAppend(s, [Deliver(0)], Deliver(1), f);
    RunAppend(s, [Deliver(0), Deliver(1)], Announce(0), f);
    RunAppend(s, [Deliver(0), Deliver(1), Announce(0)], Announce(1), f);
    assert [] + [Deliver(0)] == [Deliver(0)] && [Deliver(0)] + [Deliver(1)] == [Deliver(0), Deliver(1)];
    assert [Deliver(0), Deliver(1)] + [Announce(0)] == [Deliver(0), Deliver(1), Announce(0)];
    assert [Deliver(0), Deliver(1), Announce(0)] + [Announce(1)] == [Deliver(0), Deliver(1), Announce(0), Announce(1)];
  }

  lemma TwiceIsNotInOrder()
    ensures !InOrder([BatchTx(0), BatchTx(0)])
  {
    var log := [BatchTx(0), BatchTx(0)];
    assert log[..1] == [BatchTx(0)];
    assert Made([BatchTx(0)]) == 1 + Made([]) by { assert [BatchTx(0)][..0] == []; }
  }

  lemma FirstBatch(f: File)
    requires f.rows != []
    ensures |Spans(f)| > 0 && Spans(f)[0].end > 0
  {
    Plans.BatchesCoverWholeProducts(f.rows);
    hide Plans.Batches, Plans.Whole, Plans.Sized, Plans.Greedy, Plans.Grouped;
  }

  // ------------------------------------------------------ how a job ends

  lemma {:induction false} Unheard(w: World, events: seq<Event>, f: File)
    requires w.handlers == map[] && !w.pending
    ensures var u := Run(w, events, f); u.handlers == map[] && !u.pending && u.job == w.job
  {
    hide BatchDone, Part, Spans, Skips;
    if events != [] {
      Unheard(w, events[..|events| - 1], f);
    }
  }

  /** One delivery that nothing disturbs: every batch in turn, then the end. */
  function Undisturbed(h: nat, n: nat): seq<Event> {
    if n == 0 then [Deliver(h), Announce(h)] else Undisturbed(h, n - 1) + [Batch(h)]
  }

  ghost predicate Come(t: Tables, w: World, h: nat, n: nat, f: File) {
    Inv(t, w, f) && w.pending && h in w.handlers && w.handlers[h].announced && w.handlers[h].next == n
  }

  lemma {:induction false} UndisturbedComes(t: Tables, w: World, h: nat, n: nat, f: File)
    requires Inv(t, w, f) && w.pending && w.handlers == map[] && Open(w.job) && n <= |Spans(f)|
    ensures NoOverlap(w, Undisturbed(h, n), f) && Come(t, Run(w, Undisturbed(h, n), f), h, n, f)
  {
    hide Inv, Spans, BatchCommitted, Skips;
    if n == 0 {
      UndisturbedStarts(t, w, h, f);
    } else {
      UndisturbedComes(t, w, h, n - 1, f);
      var events := Undisturbed(h, n);
      assert events[..|events| - 1] == Undisturbed(h, n - 1);
      CommittedComes(t, Run(w, Undisturbed(h, n - 1), f), h, n - 1, f);
    }
  }

  lemma CommittedComes(t: Tables, w: World, h: nat, n: nat, f: File)
    requires Come(t, w, h, n, f) && n < |Spans(f)|
    ensures Come(t, Step(w, Batch(h), f), h, n + 1, f)
  {
    StepKeeps(t, w, Batch(h), f);
    hide Inv, Spans, BatchDone, Part, Skips;
  }

  lemma UndisturbedStarts(t: Tables, w: World, h: nat, f: File)
    requires Inv(t, w, f) && w.pending && w.handlers == map[] && Open(w.job)
    ensures NoOverlap(w, [Deliver(h), Announce(h)], f) && Come(t, Run(w, [Deliver(h), Announce(h)], f), h, 0, f)
  {
    hide Inv, Run, NoOverlap;
    var u := Step(w, Deliver(h), f);
    NothingRun(w, f);
    RunAppend(w, [], Deliver(h), f);
    RunAppend(w, [Deliver(h)], Announce(h), f);
    assert [] + [Deliver(h)] == [Deliver(h)] && [Deliver(h)] + [Announce(h)] == [Deliver(h), Announce(h)];
    StepKeeps(t, w, Deliver(h), f);
    StepKeeps(t, u, Announce(h), f);
  }

  /** Whatever has happened to an open job, one undisturbed delivery of its
      message completes it. */
  lemma OneGoodDeliveryCompletes(t: Tables, w: World, h: nat, f: File)
    requires Inv(t, w, f) && w.pending && w.handlers == map[] && Open(w.job)
    ensures var events := Undisturbed(h, |Spans(f)|) + [Finish(h, true, true)];
            NoOverlap(w, events, f) && Run(w, events, f).job.state.Done? && !Run(w, events, f).pending
  {
    hide Spans, Undisturbed, LogOk, RowOk, HandlerOk, Run, NoOverlap;
    var events := Undisturbed(h, |Spans(f)|);
    UndisturbedComes(t, w, h, |Spans(f)|, f);
    RunAppend(w, events, Finish(h, true, true), f);
    assert Run(w, events, f).job.state.Running?;
  }

  /** What giving up leaves: no worker, and the message unless it was acknowledged. */
  lemma AfterGivingUp(t: Tables, w: World, h: nat, recorded: bool, acked: bool, f: File)
    requires Inv(t, w, f) && h in w.handlers
    ensures var u := Step(w, GiveUp(h, recorded, acked), f);
            && Inv(t, u, f) && u.handlers == map[] && u.pending == !acked
            && u.job == w.job.(state := if recorded then GivenUp else Running)
  {
    assert w.handlers - {h} == map[];
    assert w.job.state.Running? && w.pending;
    StepKeeps(t, w, GiveUp(h, recorded, acked), f);
    hide Inv;
  }

  /** Whatever happens next, the job is still running. */
  ghost predicate StuckRunning(u: World, f: File) {
    forall events :: NoOverlap(u, events, f) ==> Run(u, events, f).job.state.Running?
  }

  /** A job given up is left running for ever exactly when its failure was not
      written and its message was acknowledged all the same. If neither landed,
      the message comes back and one good delivery completes the job; if the
      failure was written, the job is failed for good. */
  lemma GivenUpExactly(t: Tables, w: World, h: nat, recorded: bool, acked: bool, f: File)
    requires Inv(t, w, f) && h in w.handlers
    ensures var u := Step(w, GiveUp(h, recorded, acked), f);
            && (StuckRunning(u, f) <==> !recorded && acked)
            && (!recorded && !acked ==>
                  var events := Undisturbed(h, |Spans(f)|) + [Finish(h, true, true)];
                  NoOverlap(u, events, f) && Run(u, events, f).job.state.Done?)
            && (recorded ==> forall events :: NoOverlap(u, events, f) ==> Run(u, events, f).job.state.GivenUp?)
  {
    AfterGivingUp(t, w, h, recorded, acked, f);
    var u := Step(w, GiveUp(h, recorded, acked), f);
    NothingRun(u, f);
    hide Inv, Step, Run, NoOverlap, Undisturbed, Spans;
    if recorded {
      forall events | NoOverlap(u, events, f) ensures Run(u, events, f).job == u.job {
        ClosedForGood(t, u, events, f);
      }
      assert !Run(u, [], f).job.state.Running?;
    } else if acked {
      forall events ensures Run(u, events, f).job == u.job {
        Unheard(u, events, f);
      }
    } else {
      OneGoodDeliveryCompletes(t, u, h, f);
      var events := Undisturbed(h, |Spans(f)|) + [Finish(h, true, true)];
      assert NoOverlap(u, events, f) && !Run(u, events, f).job.state.Running?;
    }
  }

  /** On any file: the first delivery gives up, its failure is lost and its message
      is not. */
  lemma AJobGetsStuck(t: Tables, f: File)
    ensures var w := Run(Enqueued(t), [Deliver(0)], f);
            Inv(t, w, f) && 0 in w.handlers && StuckRunning(Step(w, GiveUp(0, false, true), f), f)
  {
    hide Inv, NoOverlap;
    var w := Step(Enqueued(t), Deliver(0), f);
    NothingRun(Enqueued(t), f);
    RunAppend(Enqueued(t), [], Deliver(0), f);
    assert [] + [Deliver(0)] == [Deliver(0)];
    InvEnqueued(t, f);
    StepKeeps(t, Enqueued(t), Deliver(0), f);
    hide Run, Step;
    GivenUpExactly(t, w, 0, false, true, f);
  }

  // ------------------------------------------------ one product per title

  /** The products an import makes carry titles of the rows done so far. */
  ghost predicate OnePerTitle(t: Tables, u: Tables, f: File, n: nat)
    requires n <= |Spans(f)|
  {
    && u.nextId >= t.nextId && Constrained(u)
    && (forall p :: p in u.products && p >= t.nextId ==>
          exists i :: 0 <= i < n && KeyOf(Part(f, i), TitleKey(u.products[p].title)))
    && forall p, q ::
         p in u.products && q in u.products && p >= t.nextId && q >= t.nextId &&
         TitleKey(u.products[p].title) == TitleKey(u.products[q].title)
         ==> p == q
  }

  lemma RowAt(f: File, i: nat, k: string) returns (p: nat)
    requires i < |Spans(f)| && KeyOf(Part(f, i), k)
    ensures p < |Plans.Grouped(f.rows)| && Plans.GroupKey(Plans.Grouped(f.rows)[p]) == k
    ensures Spans(f)[i].start <= p < Spans(f)[i].end
  {
    Plans.BatchesCoverWholeProducts(f.rows);
    Plans.GroupedIsPermutation(f.rows);
    hide Plans.Grouped, Plans.Batches, Plans.GroupKey, Plans.Whole, Plans.Sized, Plans.Greedy;
    var r :| r in Part(f, i) && Plans.GroupKey(r) == k;
    var x :| 0 <= x < |Part(f, i)| && Part(f, i)[x] == r;
    p := Spans(f)[i].start + x;
  }

  /** Rows of one title are all in one batch. */
  lemma KeyInOnePart(f: File, i: nat, j: nat, k: string)
    requires i < |Spans(f)| && j < |Spans(f)| && KeyOf(Part(f, i), k) && KeyOf(Part(f, j), k)
    ensures i == j
  {
    hide Plans.Grouped, Plans.Batches, Plans.GroupKey, KeyOf, Part;
    var p := RowAt(f, i, k);
    var q := RowAt(f, j, k);
    Plans.ProductInOneBatch(f.rows, i, p, q);
    if i < j {
      Apart(f, i, j);
    } else if j < i {
      Apart(f, j, i);
    }
  }

  lemma Apart(f: File, i: nat, j: nat)
    requires i < j < |Spans(f)|
    ensures Spans(f)[i].end <= Spans(f)[j].start
  {
    Plans.BatchesCoverWholeProducts(f.rows);
    if i + 1 < j {
      SpansGrow(f, i + 1, j);
    }
    hide Plans.Batches, Plans.Whole, Plans.Sized, Plans.Greedy;
  }

  lemma BatchOnePerTitle(t: Tables, u: Tables, y: Tally, f: File, n: nat)
    requires n < |Spans(f)| && OnePerTitle(t, u, f, n)
    ensures OnePerTitle(t, BatchDone(u, y, Part(f, n), f.plan).0, f, n + 1)
  {
    var next := BatchDone(u, y, Part(f, n), f.plan).0;
    BatchMakesProducts(u, y, Part(f, n), f.plan);
    RowsKeep(Work(u, map[], y), Part(f, n), f.plan);
    hide BatchDone, Part, Spans, Constrained, KeyOf, TitleKey;
    forall p | p in next.products && p >= t.nextId
      ensures exists i :: 0 <= i < n + 1 && KeyOf(Part(f, i), TitleKey(next.products[p].title))
    {
      assert p >= u.nextId ==> KeyOf(Part(f, n), TitleKey(next.products[p].title));
    }
    forall p, q | p in next.products && q in next.products && p >= t.nextId && q >= t.nextId &&
                  TitleKey(next.products[p].title) == TitleKey(next.products[q].title)
      ensures p == q
    {
      TitlesApart(t, u, next, f, n, p, q);
    }
  }

  lemma TitlesApart(t: Tables, u: Tables, next: Tables, f: File, n: nat, p: Id, q: Id)
    requires n < |Spans(f)| && OnePerTitle(t, u, f, n) && MakesProducts(u, next, Part(f, n))
    requires p in next.products && q in next.products && p >= t.nextId && q >= t.nextId
    requires TitleKey(next.products[p].title) == TitleKey(next.products[q].title)
    ensures p == q
  {
    hide BatchDone, Part, Spans, Constrained, KeyOf, TitleKey;
    var k := TitleKey(next.products[p].title);
    if p < u.nextId <= q {
      var i :| 0 <= i < n && KeyOf(Part(f, i), k);
      KeyInOnePart(f, i, n, k);
    } else if q < u.nextId <= p {
      var i :| 0 <= i < n && KeyOf(Part(f, i), k);
      KeyInOnePart(f, i, n, k);
    }
  }

  /** However long the file, an import makes at most one product per title: no
      title is split between two batches, which remember products separately. */
  lemma {:induction false} OneProductPerTitle(t: Tables, f: File, n: nat)
    requires Constrained(t) && n <= |Spans(f)|
    ensures OnePerTitle(t, Uninterrupted(t, f, n).0, f, n)
  {
    hide Constrained, BatchDone, Part, Spans, KeyOf, TitleKey;
    if n == 0 {
      NoneYet(t, f);
    } else {
      hide OnePerTitle;
      OneProductPerTitle(t, f, n - 1);
      var (u, y) := Uninterrupted(t, f, n - 1);
      BatchOnePerTitle(t, u, y, f, n - 1);
    }
  }

  lemma NoneYet(t: Tables, f: File)
    requires Constrained(t)
    ensures OnePerTitle(t, t, f, 0)
  {
    assert forall p :: p in t.products ==> p < t.nextId;
    hide Checks, SameSku, SameCell, TitleKey;
  }
}
