/** The import worker as it runs: rows in a slice it rearranges, tables it
    writes, a job row it checkpoints. */
module Importer {
  import opened Base
  import opened Catalog
  import opened ImportRows
  import opened ImportRuns
  import opened ImportTheorems
  import opened Texts
  import Slugs
  import Plans = ImportPlan

  class Worker {
    var tables: Tables
    var job: Job
    /** The products the batch at work has created, by title. */
    var products: map<string, Id>

    constructor (tables: Tables, job: Job)
      ensures this.tables == tables && this.job == job && products == map[]
    {
      this.tables := tables;
      this.job := job;
      products := map[];
    }

    method InsertVariant(v: Variant) returns (outcome: Outcome)
      modifies `tables
      ensures Attempt(tables, products, outcome) == Inserted(old(tables), products, v)
    {
      hide Refusal;
      match Insert(tables, v) {
        case Ok(u) =>
          tables := u;
          outcome := Outcome.Created;
        case Err(e) =>
          tables := tables.(nextId := tables.nextId + 1);
          outcome := Failed(e);
      }
    }

    method CreateProduct(title: string, plan: Plan) returns (id: Id)
      modifies `tables
      ensures tables == WithProduct(old(tables), title, plan) && id == old(tables.nextId)
    {
      hide Slugs.FreeSlug;
      var slug := Slugs.FindSlug(SlugsOf(tables), plan.slugify(title));
      id := tables.nextId;
      var p := Product(title, slug, [], false, 1);
      if |plan.names| > 0 {
        p := p.(optionNames := plan.names, version := p.version + 1);
      }
      tables := tables.(products := tables.products[id := p], nextId := id + 1);
    }

    /** importRow: nothing is undone here; the caller's savepoint does that. */
    method ImportRow(r: Row, plan: Plan) returns (outcome: Outcome)
      modifies `tables, `products
      ensures Attempt(tables, products, outcome) == Tried(old(tables), old(products), r, plan)
    {
      hide RowFields, Refusal, Catalog.Updated, WithProduct, Plans.GroupKey, Trim, Inserted, NewVariant;
      var read := RowFields(r);
      if read.Err? {
        return Failed(read.error);
      }
      var f := read.value;
      if f.sku.Some? {
        var held := Holder(tables, f.sku.value);
        if held.Some? {
          match Existing(tables, held.value, f, plan.refuse) {
            case Ok(u) =>
              tables := u;
              return Outcome.Updated;
            case Err(e) =>
              return Failed(e);
          }
        }
      }
      outcome := Add(r, f, plan);
    }

    /** The rest of importRow: a new variant of the title's product. */
    method Add(r: Row, f: Fields, plan: Plan) returns (outcome: Outcome)
      modifies `tables, `products
      ensures Attempt(tables, products, outcome) == ImportRows.Fresh(old(tables), old(products), r, f, plan)
    {
      hide WithProduct, Plans.GroupKey, Trim, Inserted, NewVariant;
      var title := Trim(Plans.Cell(r, "title"));
      if title == "" {
        return Failed(BadField("title"));
      }
      var options := Options(r, plan.names);
      var i := 0;
      while i < |options| && !Blank(options[i])
        invariant i <= |options| && FirstBlank(options, 0) == FirstBlank(options, i)
      {
        i := i + 1;
      }
      if i < |options| {
        return Failed(BadField("option:" + plan.names[i]));
      }
      var key := Plans.GroupKey(r);
      var id;
      if key in products {
        id := products[key];
        assert products[key := id] == products;
      } else {
        id := CreateProduct(title, plan);
        products := products[key := id];
      }
      outcome := InsertVariant(NewVariant(id, options, f));
    }

    /** importBatch: rows under savepoints, then the checkpoint with them. */
    method ImportBatch(rows: seq<Row>, plan: Plan, tally: Tally, processed: nat) returns (next: Tally)
      modifies this
      ensures (tables, next) == BatchDone(old(tables), tally, rows, plan)
      ensures job == old(job).(processed := processed, failed := |next.errors|, result := Checkpoint(next))
    {
      next := tally;
      products := map[];
      ghost var start := Work(tables, map[], tally);
      for i := 0 to |rows|
        invariant Work(tables, products, next) == RowsDone(start, rows[..i], plan)
        invariant job == old(job)
      {
        hide Tried;
        var saved := tables;
        var outcome := ImportRow(rows[i], plan);
        match outcome {
          case Created => next := next.(created := next.created + 1);
          case Updated => next := next.(updated := next.updated + 1);
          case Failed(e) =>
            tables := saved.(nextId := tables.nextId);
            next := next.(errors := next.errors + [(rows[i].line, e)]);
        }
        assert rows[..i + 1][..i] == rows[..i];
      }
      assert rows[..|rows|] == rows;
      job := job.(processed := processed, failed := |next.errors|, result := Checkpoint(next));
    }

    /** The handler: resume from the row's checkpoint, skip the batches it
        covers, apply the rest, and leave the final result to FinishJob. */
    method Handle(rows: array<Row>, plan: Plan) returns (tally: Tally)
      requires job.state.Running?
      modifies this, rows
      ensures rows[..] == Plans.Grouped(old(rows[..]))
      ensures var f := File(old(rows[..]), plan);
              (tables, tally) == Resumed(old(tables), Tallied(old(job.result)), f, old(job.processed), |Spans(f)|)
      ensures job.state.Running?
    {
      ghost var f := File(rows[..], plan);
      job := job.(total := Some(rows.Length));
      tally := Tallied(job.result);
      var done := job.processed;
      var spans := Plans.ImportBatches(rows);
      Plans.BatchesCoverWholeProducts(f.rows);
      hide Plans.Batches, Plans.Grouped, Plans.Whole, Plans.Sized, Plans.Greedy, BatchDone;
      for i := 0 to |spans|
        invariant rows[..] == Plans.Grouped(f.rows) && job.state.Running?
        invariant (tables, tally) == Resumed(old(tables), Tallied(old(job.result)), f, done, i)
      {
        if done >= spans[i].end {
          continue;
        }
        assert rows[spans[i].start..spans[i].end] == Part(f, i);
        tally := ImportBatch(rows[spans[i].start..spans[i].end], plan, tally, spans[i].end);
      }
    }
  }

  /** One delivery's loop over the first n batches, from a checkpoint. */
  function Resumed(t: Tables, y: Tally, f: File, done: nat, n: nat): (Tables, Tally)
    requires n <= |Spans(f)|
  {
    if n == 0 then (t, y)
    else
      var (u, z) := Resumed(t, y, f, done, n - 1);
      if done >= Spans(f)[n - 1].end then (u, z) else BatchDone(u, z, Part(f, n - 1), f.plan)
  }

  /** Resumed at the m-th checkpoint, the loop ends where a run from the start ends. */
  lemma {:induction false} ResumedIsUninterrupted(t: Tables, f: File, m: nat, n: nat)
    requires m <= |Spans(f)| && n <= |Spans(f)|
    ensures var (u, y) := Uninterrupted(t, f, m);
            Resumed(u, y, f, End(f, m), n) == Uninterrupted(t, f, if n < m then m else n)
  {
    hide BatchDone, Part, Spans;
    if n > 0 {
      ResumedIsUninterrupted(t, f, m, n - 1);
      if n < m {
        SpansGrow(f, n, m);
      } else if m < n {
        SpansGrow(f, m, n);
      }
    }
  }
}
