/** Deliveries that may overlap: exactly when each batch is still applied once and
    in order, and that nothing else is needed for the import to come out right. */
module ImportOverlaps {
  import opened Base
  import opened Catalog
  import opened ImportRows
  import opened ImportRuns
  import opened ImportTheorems

  /** This event commits a batch. */
  predicate Commits(w: World, e: Event, f: File) {
    (e.Batch? || e.LostBatch?) && Enabled(w, e, f) && !Skips(w.handlers[e.h], f)
  }

  /** Every batch that is committed continues those committed so far: what a guard
      in CheckpointJob would ask for. */
  predicate EachContinues(w: World, events: seq<Event>, f: File) {
    events != [] ==>
      && EachContinues(w, events[..|events| - 1], f)
      && var u, e := Run(w, events[..|events| - 1], f), events[|events| - 1];
         Commits(u, e, f) ==> u.handlers[e.h].next == Made(u.log)
  }

  lemma CommitIsReady(w: World, e: Event, f: File)
    requires Commits(w, e, f)
    ensures (e.Batch? || e.LostBatch?) && Ready(w, e.h, f)
  {
    hide Spans, Skips;
  }

  lemma StepLogs(w: World, e: Event, f: File)
    ensures Step(w, e, f).log ==
            if Commits(w, e, f) then w.log + [BatchTx(w.handlers[e.h].next)]
            else if e.Edit? then w.log + [EditTx(e.after)]
            else w.log
  {
    hide BatchDone, Part, Spans, Skips;
  }

  /** Over any run, overlapping or not: each batch is applied at most once and in
      the file's order exactly when every commit continues the ones before it. */
  lemma {:induction false} InOrderExactlyWhen(w: World, events: seq<Event>, f: File)
    requires InOrder(w.log)
    ensures InOrder(Run(w, events, f).log) <==> EachContinues(w, events, f)
  {
    hide Step, Commits, InOrder, Made;
    if events != [] {
      var u, e := Run(w, events[..|events| - 1], f), events[|events| - 1];
      InOrderExactlyWhen(w, events[..|events| - 1], f);
      StepLogs(u, e, f);
      if Commits(u, e, f) {
        CommitIsReady(u, e, f);
        LogAppend(u.log, BatchTx(u.handlers[e.h].next));
      } else if e.Edit? {
        LogAppend(u.log, EditTx(e.after));
      }
    }
  }

  // --------------------------------------------------- what the order implies

  /** A worker either knows all that is committed or has fallen behind it, and then
      its next commit is out of order. */
  predicate Placed(x: Handler, n: nat, y: Tally, f: File)
    requires n <= |Spans(f)|
  {
    && x.next <= n && x.done <= End(f, n)
    && (x.tally == y || (x.next < n && x.done < End(f, n)))
  }

  predicate Recorded(job: Job, report: Option<seq<(nat, Fault)>>, n: nat, y: Tally, f: File)
    requires n <= |Spans(f)|
  {
    && job.processed <= End(f, n)
    && if job.state.Done? then
         && n == |Spans(f)| && job.result == Final(y.created, y.updated, y.errors != [])
         && (y.errors != [] ==> report == Some(y.errors))
       else Tallied(job.result) == y && !job.result.Final?
  }

  predicate Workers(handlers: map<nat, Handler>, n: nat, y: Tally, f: File)
    requires n <= |Spans(f)|
  {
    forall h :: h in handlers ==> Placed(handlers[h], n, y, f)
  }

  predicate Sound(t: Tables, w: World, f: File) {
    && LogOk(t, w, f)
    && Recorded(w.job, w.report, Made(w.log), Replay(t, w.log, f).1, f)
    && Workers(w.handlers, Made(w.log), Replay(t, w.log, f).1, f)
  }

  lemma SoundIs(t: Tables, w: World, f: File)
    ensures Sound(t, w, f) <==>
            && LogOk(t, w, f) && Made(w.log) <= |Spans(f)|
            && Recorded(w.job, w.report, Made(w.log), Replay(t, w.log, f).1, f)
            && Workers(w.handlers, Made(w.log), Replay(t, w.log, f).1, f)
  {
    hide Recorded, Workers, Replay, InOrder, Made, Spans;
  }

  /** Events that write no log keep what the log says. */
  lemma QuietLog(t: Tables, w: World, u: World, f: File)
    requires LogOk(t, w, f) && u.log == w.log && u.tables == w.tables
    ensures LogOk(t, u, f)
  {
    hide InOrder, Made, Replay, Spans;
  }

  lemma StartSound(w: World, h: nat, n: nat, y: Tally, f: File)
    requires n <= |Spans(f)| && Recorded(w.job, w.report, n, y, f) && Workers(w.handlers, n, y, f)
    ensures var u := Started(w, h); Recorded(u.job, u.report, n, y, f) && Workers(u.handlers, n, y, f)
  {
    hide Spans, End;
  }

  lemma AnnounceSound(w: World, h: nat, n: nat, y: Tally, f: File)
    requires n <= |Spans(f)| && Recorded(w.job, w.report, n, y, f) && Workers(w.handlers, n, y, f) && h in w.handlers
    ensures var u := Announced(w, h, f); Recorded(u.job, u.report, n, y, f) && Workers(u.handlers, n, y, f)
  {
    hide Spans, End;
  }

  lemma EndsGrow(f: File, m: nat, n: nat)
    requires m <= n <= |Spans(f)|
    ensures End(f, m) <= End(f, n) && (End(f, m) == End(f, n) ==> m == n)
  {
    if m < n {
      SpansGrow(f, m, n);
    }
  }

  lemma SkipPlaced(x: Handler, n: nat, y: Tally, f: File)
    requires n <= |Spans(f)| && Placed(x, n, y, f) && x.next < |Spans(f)| && Skips(x, f)
    ensures Placed(x.(next := x.next + 1), n, y, f)
  {
    hide Spans;
    if x.next + 1 <= n {
      EndsGrow(f, x.next + 1, n);
    } else {
      SpansGrow(f, n, x.next + 1);
    }
  }

  lemma SkipSound(w: World, h: nat, n: nat, y: Tally, f: File)
    requires n <= |Spans(f)| && Workers(w.handlers, n, y, f) && Ready(w, h, f) && Skips(w.handlers[h], f)
    ensures var x := w.handlers[h]; Workers(w.handlers[h := x.(next := x.next + 1)], n, y, f)
  {
    SkipPlaced(w.handlers[h], n, y, f);
    hide Spans, Placed, Skips;
  }

  lemma CommitWorkers(w: World, h: nat, n: nat, y: Tally, z: Tally, f: File)
    requires n < |Spans(f)| && Workers(w.handlers, n, y, f) && Ready(w, h, f) && w.handlers[h].next == n
    requires z == BatchCommitted(w, h, f).handlers[h].tally
    ensures Workers(BatchCommitted(w, h, f).handlers, n + 1, z, f) && w.handlers[h].tally == y
  {
    SpansGrow(f, n, n + 1);
    hide Spans, BatchDone, Part, End;
  }

  lemma CommitRecorded(w: World, h: nat, n: nat, y: Tally, f: File)
    requires n < |Spans(f)| && Recorded(w.job, w.report, n, y, f) && Ready(w, h, f) && w.handlers[h].next == n
    ensures var u := BatchCommitted(w, h, f); Recorded(u.job, u.report, n + 1, u.handlers[h].tally, f)
  {
    hide Spans, BatchDone, Part;
  }

  lemma CommitReplay(t: Tables, w: World, h: nat, y: Tally, f: File)
    requires LogOk(t, w, f) && Ready(w, h, f) && w.handlers[h].next == Made(w.log)
    requires y == Replay(t, w.log, f).1 == w.handlers[h].tally
    ensures var u := BatchCommitted(w, h, f);
            LogOk(t, u, f) && Made(u.log) == Made(w.log) + 1 && Replay(t, u.log, f).1 == u.handlers[h].tally
  {
    var x := w.handlers[h];
    LogAppend(w.log, BatchTx(x.next));
    ReplayAppend(t, w.log, BatchTx(x.next), f);
    hide Replay, Made, Spans, InOrder, BatchDone, Part;
  }

  lemma CommitSound(t: Tables, w: World, h: nat, f: File)
    requires Sound(t, w, f) && Ready(w, h, f) && w.handlers[h].next == Made(w.log)
    ensures Sound(t, BatchCommitted(w, h, f), f)
  {
    hide Sound, LogOk, Recorded, Workers, Replay, InOrder, Made, Spans, BatchDone, Part;
    SoundIs(t, w, f);
    var n, y, u := Made(w.log), Replay(t, w.log, f).1, BatchCommitted(w, h, f);
    var z := u.handlers[h].tally;
    CommitWorkers(w, h, n, y, z, f);
    CommitRecorded(w, h, n, y, f);
    CommitReplay(t, w, h, y, f);
    hide BatchCommitted;
    SoundIs(t, u, f);
  }

  lemma GoneSound(t: Tables, w: World, h: nat, f: File)
    requires Sound(t, w, f)
    ensures Sound(t, Gone(w, h), f)
  {
    hide Replay, Made, Spans, InOrder, Recorded, Placed;
  }

  lemma FinishSound(w: World, h: nat, recorded: bool, acked: bool, n: nat, y: Tally, f: File)
    requires n <= |Spans(f)| && Recorded(w.job, w.report, n, y, f) && Workers(w.handlers, n, y, f)
    requires h in w.handlers && w.handlers[h].next == |Spans(f)|
    ensures var u := Finished(w, h, recorded, acked);
            Recorded(u.job, u.report, n, y, f) && Workers(u.handlers, n, y, f)
  {
    assert Placed(w.handlers[h], n, y, f);
    hide Spans, End;
  }

  lemma GiveUpSound(w: World, h: nat, recorded: bool, acked: bool, n: nat, y: Tally, f: File)
    requires n <= |Spans(f)| && Recorded(w.job, w.report, n, y, f) && Workers(w.handlers, n, y, f)
    ensures var u := Abandoned(w, h, recorded, acked);
            Recorded(u.job, u.report, n, y, f) && Workers(u.handlers, n, y, f)
  {
    hide Spans, End, Placed;
  }

  lemma EditSound(t: Tables, w: World, after: Tables, f: File)
    requires Sound(t, w, f)
    ensures Sound(t, Step(w, Edit(after), f), f)
  {
    LogAppend(w.log, EditTx(after));
    ReplayAppend(t, w.log, EditTx(after), f);
    hide Replay, Made, Spans, InOrder, Recorded, Workers, BatchDone, Part;
  }

  lemma StepSound(t: Tables, w: World, e: Event, f: File)
    requires Sound(t, w, f) && (Commits(w, e, f) ==> w.handlers[e.h].next == Made(w.log))
    ensures Sound(t, Step(w, e, f), f)
  {
    hide Sound, Recorded, Workers, Skips, BatchCommitted, Replay, Made, InOrder, LogOk, Spans;
    SoundIs(t, w, f);
    var n, y, u := Made(w.log), Replay(t, w.log, f).1, Step(w, e, f);
    if Enabled(w, e, f) {
      match e {
        case Batch(h) =>
          if Skips(w.handlers[h], f) { SkipSound(w, h, n, y, f); } else { CommitSound(t, w, h, f); }
        case LostBatch(h) =>
          CommitSound(t, w, h, f);
          GoneSound(t, BatchCommitted(w, h, f), h, f);
        case Crash(h) => GoneSound(t, w, h, f);
        case Edit(after) => EditSound(t, w, after, f);
        case Deliver(h) => StartSound(w, h, n, y, f);
        case Announce(h) => AnnounceSound(w, h, n, y, f);
        case Finish(h, recorded, acked) => FinishSound(w, h, recorded, acked, n, y, f);
        case GiveUp(h, recorded, acked) => GiveUpSound(w, h, recorded, acked, n, y, f);
      }
      if !Commits(w, e, f) && !e.Edit? && !e.Crash? {
        QuietLog(t, w, u, f);
      }
    }
    SoundIs(t, u, f);
  }

  lemma {:induction false} RunSound(t: Tables, events: seq<Event>, f: File)
    requires EachContinues(Enqueued(t), events, f)
    ensures Sound(t, Run(Enqueued(t), events, f), f)
  {
    hide Sound, Step, Commits;
    if events == [] {
      StartsSound(t, f);
    } else {
      RunSound(t, events[..|events| - 1], f);
      StepSound(t, Run(Enqueued(t), events[..|events| - 1], f), events[|events| - 1], f);
    }
  }

  lemma StartsSound(t: Tables, f: File)
    ensures Sound(t, Enqueued(t), f)
  {
    hide Spans;
  }

  /** Whatever overlaps, while the log stays in order the catalog and the tally are
      what its batches make of the start, and a job that is done has applied each
      batch exactly once and reports just that. */
  lemma InOrderIsEnough(t: Tables, events: seq<Event>, f: File)
    requires InOrder(Run(Enqueued(t), events, f).log)
    ensures var w := Run(Enqueued(t), events, f);
            && Made(w.log) <= |Spans(f)| && w.tables == Replay(t, w.log, f).0
            && (NoEdits(events) ==> w.tables == Uninterrupted(t, f, Made(w.log)).0)
            && (w.job.state.Done? ==>
                  var y := Replay(t, w.log, f).1;
                  && Made(w.log) == |Spans(f)| && w.job.result == Final(y.created, y.updated, y.errors != [])
                  && (y.errors != [] ==> w.report == Some(y.errors)))
  {
    hide Run, InOrder, Made, Replay, Spans, EachContinues, Uninterrupted, OnlyBatches, NoEdits, Workers, End;
    assert InOrder(Enqueued(t).log) by { NoLog(); }
    InOrderExactlyWhen(Enqueued(t), events, f);
    RunSound(t, events, f);
    if NoEdits(events) {
      StartsWithBatches();
      UneditedLog(Enqueued(t), events, f);
      ReplayOfBatches(t, Run(Enqueued(t), events, f).log, f);
    }
  }

  lemma NoLog()
    ensures InOrder([])
  {
  }

  lemma StartsWithBatches()
    ensures OnlyBatches([])
  {
  }

  /** Deliveries that do not overlap are one way to keep the order. */
  lemma NoOverlapContinues(t: Tables, events: seq<Event>, f: File)
    requires NoOverlap(Enqueued(t), events, f)
    ensures EachContinues(Enqueued(t), events, f)
  {
    hide Run, InOrder, Made, Replay, Spans, EachContinues, NoOverlap, RowOk, HandlersOk;
    RunKeeps(t, events, f);
    NoLog();
    InOrderExactlyWhen(Enqueued(t), events, f);
  }

  /** And not the only one: a worker that dies before it commits anything may have
      overlapped another without harm. */
  lemma OverlapWithoutHarm(t: Tables, f: File)
    ensures var events := [Deliver(0), Deliver(1), Crash(1)];
            EachContinues(Enqueued(t), events, f) && !NoOverlap(Enqueued(t), events, f)
  {
    var s := Enqueued(t);
    hide Run, NoOverlap, EachContinues, Spans;
    NothingRun(s, f);
    ContinuesAppend(s, [], Deliver(0), f);
    ContinuesAppend(s, [Deliver(0)], Deliver(1), f);
    ContinuesAppend(s, [Deliver(0), Deliver(1)], Crash(1), f);
    RunAppend(s, [], Deliver(0), f);
    RunAppend(s, [Deliver(0)], Deliver(1), f);
    RunAppend(s, [Deliver(0), Deliver(1)], Crash(1), f);
    assert [] + [Deliver(0)] == [Deliver(0)] && [Deliver(0)] + [Deliver(1)] == [Deliver(0), Deliver(1)];
    assert [Deliver(0), Deliver(1)] + [Crash(1)] == [Deliver(0), Deliver(1), Crash(1)];
    NoneContinue(s, f);
  }

  lemma NoneContinue(w: World, f: File)
    ensures EachContinues(w, [], f)
  {
  }

  lemma ContinuesAppend(w: World, events: seq<Event>, e: Event, f: File)
    ensures EachContinues(w, events + [e], f) <==>
            EachContinues(w, events, f) &&
            (Commits(Run(w, events, f), e, f) ==> Run(w, events, f).handlers[e.h].next == Made(Run(w, events, f).log))
  {
    hide Commits, Made;
    var more := events + [e];
    assert more[..|more| - 1] == events;
  }

  // ------------------------------------------------------ jobs that are over

  /** The worker has a batch left that it will not skip. */
  predicate CanCommit(x: Handler, f: File) {
    x.next < |Spans(f)| && x.done < End(f, |Spans(f)|)
  }

  ghost predicate NobodyCommits(w: World, f: File) {
    forall h :: h in w.handlers ==> !CanCommit(w.handlers[h], f)
  }

  lemma CommitWritesRow(w: World, e: Event, f: File)
    requires Commits(w, e, f)
    ensures var u := Step(w, e, f);
            && u.job.state == w.job.state && u.job.total == w.job.total && u.job.result.Checkpoint?
            && Made(u.log) == Made(w.log) + 1
  {
    CommitIsReady(w, e, f);
    StepLogs(w, e, f);
    LogAppend(w.log, BatchTx(w.handlers[e.h].next));
    hide Made, Commits, InOrder, Spans, BatchDone, Part, End;
    assert Step(w, e, f).job == BatchCommitted(w, e.h, f).job by { CommitStep(w, e, f); }
  }

  lemma CommitStep(w: World, e: Event, f: File)
    requires Commits(w, e, f)
    ensures (e.Batch? || e.LostBatch?) && Ready(w, e.h, f) && Step(w, e, f).job == BatchCommitted(w, e.h, f).job
  {
    hide BatchCommitted, Spans, Skips;
  }

  /** Only a commit writes the row of a job that is over. */
  lemma OthersLeaveRow(w: World, e: Event, f: File)
    requires !Open(w.job) && !Commits(w, e, f)
    ensures Step(w, e, f).job == w.job && Made(Step(w, e, f).log) == Made(w.log)
  {
    StepLogs(w, e, f);
    if e.Edit? {
      LogAppend(w.log, EditTx(e.after));
    }
    hide Made, InOrder, BatchDone, Part, Spans, End, Skips;
  }

  /** Either no batch has been applied and the row is as it was, or it holds a
      checkpoint now; a job that is over stays over in any case. */
  lemma {:induction false} ClosedRun(w: World, events: seq<Event>, f: File)
    requires !Open(w.job)
    ensures var u := Run(w, events, f);
            && u.job.state == w.job.state && u.job.total == w.job.total && Made(u.log) >= Made(w.log)
            && (if Made(u.log) == Made(w.log) then u.job == w.job else u.job.result.Checkpoint?)
  {
    hide Step, Commits, Made;
    if events != [] {
      var u, e := Run(w, events[..|events| - 1], f), events[|events| - 1];
      ClosedRun(w, events[..|events| - 1], f);
      if Commits(u, e, f) {
        CommitWritesRow(u, e, f);
      } else {
        OthersLeaveRow(u, e, f);
      }
    }
  }

  /** Workers that cannot commit come to nothing, and no new ones come. */
  lemma NobodyStill(w: World, e: Event, f: File)
    requires !Open(w.job) && NobodyCommits(w, f)
    ensures !Commits(w, e, f) && NobodyCommits(Step(w, e, f), f)
  {
    forall h | h in w.handlers && w.handlers[h].next < |Spans(f)| ensures Skips(w.handlers[h], f) {
      EndsGrow(f, w.handlers[h].next + 1, |Spans(f)|);
    }
    hide Spans, End, BatchCommitted;
  }

  lemma {:induction false} NobodyRun(w: World, events: seq<Event>, f: File)
    requires !Open(w.job) && NobodyCommits(w, f)
    ensures var u := Run(w, events, f); NobodyCommits(u, f) && Made(u.log) == Made(w.log)
  {
    hide Step, Commits, Made, NobodyCommits;
    if events != [] {
      var before := events[..|events| - 1];
      var u := Run(w, before, f);
      ClosedRun(w, before, f);
      NobodyRun(w, before, f);
      NobodyStill(u, events[|events| - 1], f);
      OthersLeaveRow(u, events[|events| - 1], f);
    }
  }

  /** A worker going through the batches it has left. */
  function Going(h: nat, announced: bool, n: nat): seq<Event> {
    if n > 0 then Going(h, announced, n - 1) + [Batch(h)]
    else if announced then []
    else [Announce(h)]
  }

  ghost predicate GoneOn(w: World, u: World, h: nat, n: nat) {
    && h in w.handlers && h in u.handlers && u.handlers[h].announced
    && u.handlers[h].done == w.handlers[h].done && u.handlers[h].next == w.handlers[h].next + n
    && Made(u.log) >= Made(w.log) && !Open(u.job)
  }

  lemma GoesOn(w: World, h: nat, f: File)
    requires !Open(w.job) && Ready(w, h, f)
    ensures GoneOn(w, Step(w, Batch(h), f), h, 1)
    ensures !Skips(w.handlers[h], f) ==> Commits(w, Batch(h), f) && Step(w, Batch(h), f).job.processed == End(f, w.handlers[h].next + 1)
  {
    var e := Batch(h);
    if Commits(w, e, f) {
      CommitWritesRow(w, e, f);
    } else {
      OthersLeaveRow(w, e, f);
    }
    hide Made, BatchDone, Part, Spans;
  }

  lemma {:induction false} GoesThrough(w: World, h: nat, n: nat, f: File)
    requires !Open(w.job) && h in w.handlers && w.handlers[h].next + n <= |Spans(f)|
    ensures GoneOn(w, Run(w, Going(h, w.handlers[h].announced, n), f), h, n)
  {
    hide Made, Spans, Step, Run;
    var events := Going(h, w.handlers[h].announced, n);
    NothingRun(w, f);
    if n > 0 {
      var before := Going(h, w.handlers[h].announced, n - 1);
      GoesThrough(w, h, n - 1, f);
      RunAppend(w, before, Batch(h), f);
      GoesOn(Run(w, before, f), h, f);
    } else if !w.handlers[h].announced {
      RunAppend(w, [], Announce(h), f);
      assert [] + [Announce(h)] == [Announce(h)];
      Announces(w, h, f);
    }
  }

  lemma Announces(w: World, h: nat, f: File)
    requires !Open(w.job) && h in w.handlers && !w.handlers[h].announced
    ensures GoneOn(w, Step(w, Announce(h), f), h, 0)
  {
    hide Made;
  }

  /** A worker that can commit gets to the end of the file, and commits there. */
  lemma CommitsTheLast(w: World, h: nat, f: File)
    requires !Open(w.job) && h in w.handlers && CanCommit(w.handlers[h], f)
    ensures var u := Run(w, Going(h, w.handlers[h].announced, |Spans(f)| - w.handlers[h].next), f);
            u.job.processed == End(f, |Spans(f)|) && u.job.result.Checkpoint? && Made(u.log) > Made(w.log)
  {
    hide Made, Step, Run, Spans, Commits;
    var n := |Spans(f)| - w.handlers[h].next;
    var before := Going(h, w.handlers[h].announced, n - 1);
    GoesThrough(w, h, n - 1, f);
    RunAppend(w, before, Batch(h), f);
    var u := Run(w, before, f);
    GoesOn(u, h, f);
    CommitWritesRow(u, Batch(h), f);
  }

  /** A job that is done or failed stays so. No more batches are applied for it,
      whatever anyone does, exactly when no worker was left that could commit one;
      and if the job is done, or failed before its last batch, that is also exactly
      when its row never changes. */
  lemma ClosedExactlyWhen(w: World, f: File)
    requires !Open(w.job)
    ensures forall events :: Run(w, events, f).job.state == w.job.state && Run(w, events, f).job.total == w.job.total
    ensures (forall events :: Made(Run(w, events, f).log) == Made(w.log)) <==> NobodyCommits(w, f)
    ensures NobodyCommits(w, f) ==> forall events :: Run(w, events, f).job == w.job
    ensures w.job.result.Final? || w.job.processed != End(f, |Spans(f)|) ==>
              ((forall events :: Run(w, events, f).job == w.job) <==> NobodyCommits(w, f))
  {
    hide Made, Step, Run, Spans, Going, CanCommit;
    forall events
      ensures var u := Run(w, events, f);
              && u.job.state == w.job.state && u.job.total == w.job.total
              && (NobodyCommits(w, f) ==> u.job == w.job && Made(u.log) == Made(w.log))
    {
      ClosedRun(w, events, f);
      if NobodyCommits(w, f) {
        NobodyRun(w, events, f);
      }
    }
    if h :| h in w.handlers && CanCommit(w.handlers[h], f) {
      CommitsTheLast(w, h, f);
    }
  }

  /** On any file with rows: two workers have a job, one gives it up and it is failed,
      the other applies its first batch all the same. */
  lemma AFailedJobGoesOn(t: Tables, f: File)
    requires f.rows != []
    ensures var w := Run(Enqueued(t), [Deliver(0), Deliver(1), Announce(0), Announce(1), GiveUp(0, true, true)], f);
            var u := Run(Enqueued(t), [Deliver(0), Deliver(1), Announce(0), Announce(1), GiveUp(0, true, true), Batch(1)], f);
            && w.job.state.GivenUp? && w.job.result.Nothing? && w.log == []
            && u.job.state.GivenUp? && u.job.result.Checkpoint? && u.log == [BatchTx(0)]
  {
    hide Run, BatchDone, Part, Spans, NoOverlap, InOrder, Made;
    var start := [Deliver(0), Deliver(1), Announce(0), Announce(1)];
    FirstBatch(f);
    TwoStarted(t, f);
    RunAppend(Enqueued(t), start, GiveUp(0, true, true), f);
    RunAppend(Enqueued(t), start + [GiveUp(0, true, true)], Batch(1), f);
    assert start + [GiveUp(0, true, true)] == [Deliver(0), Deliver(1), Announce(0), Announce(1), GiveUp(0, true, true)];
    assert start + [GiveUp(0, true, true)] + [Batch(1)]
           == [Deliver(0), Deliver(1), Announce(0), Announce(1), GiveUp(0, true, true), Batch(1)];
  }

  /** On any file of one batch: one worker finishes the job, and the other puts a
      checkpoint where its final result was. */
  lemma ADoneJobIsRewritten(t: Tables, f: File)
    requires |Spans(f)| == 1
    ensures var done := [Deliver(0), Deliver(1), Announce(0), Announce(1), Batch(0), Finish(0, true, true)];
            var w, u := Run(Enqueued(t), done, f), Run(Enqueued(t), done + [Batch(1)], f);
            && w.job.state.Done? && w.job.result.Final? && w.log == [BatchTx(0)]
            && u.job.state.Done? && u.job.result.Checkpoint? && u.log == [BatchTx(0), BatchTx(0)]
  {
    hide Run, BatchDone, Part, Spans, NoOverlap, InOrder, Made;
    var start := [Deliver(0), Deliver(1), Announce(0), Announce(1)];
    SpansGrow(f, 0, 1);
    TwoStarted(t, f);
    RunAppend(Enqueued(t), start, Batch(0), f);
    RunAppend(Enqueued(t), start + [Batch(0)], Finish(0, true, true), f);
    RunAppend(Enqueued(t), start + [Batch(0)] + [Finish(0, true, true)], Batch(1), f);
    assert start + [Batch(0)] + [Finish(0, true, true)]
           == [Deliver(0), Deliver(1), Announce(0), Announce(1), Batch(0), Finish(0, true, true)];
  }
}
