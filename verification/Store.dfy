/** The page's Postgres rows: the three mutations, the thumbnail job rows they
    mint, retention cleanup, and the reads made of them. Each transaction holds
    the page row lock, so it is one atomic update of `Tables`.

    The `After...` functions say what a transaction does to the tables;
    `PageStore` performs them step by step. */
module Store {
  import opened Protocol
  import Ordering

  datatype BatchRow = BatchRow(seqNo: nat, revision: nat, clientBatchId: string, strokes: seq<Stroke>)

  datatype JobStatus = Generating | Available | Failed

  datatype Job = Job(paper: Paper, createdAt: int, status: JobStatus)

  /** One page: its `pages` row (`revision`, `paper`, `updatedAt`), its
      `stroke_batches`, `stroke_tombstones` and `tombstone_batches` rows in
      insertion order, and its `page_thumbnails` rows by `source_seq`. */
  datatype Tables = Tables(
    revision: nat, paper: Paper, updatedAt: int,
    batches: seq<BatchRow>, tombstones: map<string, nat>, erasures: seq<TombstoneBatch>,
    jobs: map<nat, Job>)

  function Fresh(paper: Paper, now: int): Tables {
    Tables(0, paper, now, [], map[], [], map[])
  }

  // ---- Reads --------------------------------------------------------------

  function MaxSeq(rows: seq<BatchRow>): nat {
    if rows == [] then 0 else Max(MaxSeq(rows[..|rows| - 1]), rows[|rows| - 1].seqNo)
  }

  function FindBatch(rows: seq<BatchRow>, key: string): Option<BatchRow> {
    if rows == [] then None
    else if rows[0].clientBatchId == key then Some(rows[0])
    else FindBatch(rows[1..], key)
  }

  function FindErasure(rows: seq<TombstoneBatch>, key: string): Option<TombstoneBatch> {
    if rows == [] then None
    else if rows[0].clientMutationId == key then Some(rows[0])
    else FindErasure(rows[1..], key)
  }

  /** `load_batches_after`: what a replay from `fromSeq` reads. */
  function BatchesAfter(rows: seq<BatchRow>, fromSeq: nat): seq<StrokeBatch> {
    if rows == [] then []
    else
      (if rows[0].seqNo > fromSeq then [ToBatch(rows[0])] else []) + BatchesAfter(rows[1..], fromSeq)
  }

  function ToBatch(row: BatchRow): StrokeBatch {
    StrokeBatch(row.seqNo, row.clientBatchId, row.strokes)
  }

  /** `generate`'s two reads: the ink stored up to a revision, and the ids
      erased up to it. */
  function StrokesUpTo(rows: seq<BatchRow>, revision: nat): seq<Stroke> {
    if rows == [] then []
    else (if rows[0].revision <= revision then rows[0].strokes else []) + StrokesUpTo(rows[1..], revision)
  }

  function ErasedUpTo(tombstones: map<string, nat>, revision: nat): set<string> {
    set id | id in tombstones && tombstones[id] <= revision
  }

  function Selection(rows: seq<BatchRow>, tombstones: map<string, nat>, revision: nat): seq<Stroke> {
    Surviving(StrokesUpTo(rows, revision), ErasedUpTo(tombstones, revision))
  }

  predicate HasVisibleInk(t: Tables) {
    Selection(t.batches, t.tombstones, t.revision) != []
  }

  // ---- Mutations ----------------------------------------------------------

  datatype PersistedBatch = PersistedBatch(
    seqNo: nat, revision: nat, visibleStrokes: seq<Stroke>, thumbnailJobCreated: bool, updatedAt: Option<int>)

  datatype PersistedTombstones = PersistedTombstones(
    revision: nat, strokeIds: seq<string>, thumbnailJobCreated: bool, updatedAt: Option<int>)

  datatype PersistedPaper = PersistedPaper(
    changed: bool, revision: nat, thumbnailJobCreated: bool, updatedAt: Option<int>)

  /** `INSERT ... ON CONFLICT DO NOTHING` of a thumbnail job row. */
  function AddJob(jobs: map<nat, Job>, revision: nat, paper: Paper, now: int): map<nat, Job> {
    if revision in jobs then jobs else jobs[revision := Job(paper, now, Generating)]
  }

  function AfterBatch(t: Tables, key: string, strokes: seq<Stroke>, now: int): (Tables, PersistedBatch) {
    var visible := Surviving(strokes, t.tombstones.Keys);
    match FindBatch(t.batches, key)
    case Some(row) => (t, PersistedBatch(row.seqNo, row.revision, visible, false, None))
    case None =>
      if visible == [] then
        (t, PersistedBatch(MaxSeq(t.batches), t.revision, [], false, None))
      else
        var seqNo, revision := MaxSeq(t.batches) + 1, t.revision + 1;
        (t.(revision := revision, updatedAt := now,
            batches := t.batches + [BatchRow(seqNo, revision, key, visible)],
            jobs := AddJob(t.jobs, revision, t.paper, now)),
         PersistedBatch(seqNo, revision, visible, revision !in t.jobs, Some(now)))
  }

  /** The requested ids not yet erased: sorted, deduplicated, `retain`ed. */
  function FreshIds(requested: seq<string>, gone: set<string>): seq<string> {
    Absent(Ordering.Dedup(Ordering.Sorted(requested)), gone)
  }

  function Absent(ids: seq<string>, gone: set<string>): seq<string> {
    if ids == [] then []
    else if ids[0] in gone then Absent(ids[1..], gone)
    else [ids[0]] + Absent(ids[1..], gone)
  }

  /** The `stroke_tombstones` rows of one erase. */
  function DeletedAt(ids: seq<string>, revision: nat): map<string, nat> {
    map id | id in ids :: revision
  }

  function AfterTombstones(t: Tables, key: string, requested: seq<string>, now: int)
    : (Tables, PersistedTombstones)
  {
    match FindErasure(t.erasures, key)
    case Some(row) => (t, PersistedTombstones(row.revision, row.strokeIds, false, None))
    case None =>
      var ids := FreshIds(requested, t.tombstones.Keys);
      if ids == [] then
        (t.(erasures := t.erasures + [TombstoneBatch(t.revision, key, [])]),
         PersistedTombstones(t.revision, [], false, None))
      else
        var revision := t.revision + 1;
        (t.(revision := revision, updatedAt := now,
            tombstones := t.tombstones + DeletedAt(ids, revision),
            erasures := t.erasures + [TombstoneBatch(revision, key, ids)],
            jobs := AddJob(t.jobs, revision, t.paper, now)),
         PersistedTombstones(revision, ids, revision !in t.jobs, Some(now)))
  }

  function AfterPaper(t: Tables, paper: Paper, now: int): (Tables, PersistedPaper) {
    if t.paper == paper then (t, PersistedPaper(false, t.revision, false, None))
    else if HasVisibleInk(t) then
      var revision := t.revision + 1;
      (t.(revision := revision, paper := paper, updatedAt := now,
          jobs := AddJob(t.jobs, revision, paper, now)),
       PersistedPaper(true, revision, revision !in t.jobs, Some(now)))
    else
      (t.(paper := paper, updatedAt := now), PersistedPaper(true, t.revision, false, Some(now)))
  }

  // ---- Thumbnail rows -----------------------------------------------------

  const RETENTION_MS := 7 * 24 * 3600 * 1000
  const RETAINED := 10

  /** A render ended: the row, if retention still keeps it, gets its status. */
  function AfterRender(t: Tables, revision: nat, ok: bool): Tables {
    if revision !in t.jobs then t
    else t.(jobs := t.jobs[revision := t.jobs[revision].(status := if ok then Available else Failed)])
  }

  function Recent(t: Tables, now: int): set<nat> {
    set r | r in t.jobs && r != t.revision && t.jobs[r].createdAt >= now - RETENTION_MS
  }

  /** `ORDER BY ... DESC LIMIT n`: the members fewer than `n` others exceed. */
  function Newest(revisions: set<nat>, n: nat): set<nat> {
    set r | r in revisions && |Above(revisions, r)| < n
  }

  function Above(revisions: set<nat>, r: nat): set<nat> {
    set other | other in revisions && other > r
  }

  function AfterCleanup(t: Tables, now: int): Tables {
    var doomed := set r | r in t.jobs && r != t.revision
      && (t.jobs[r].createdAt < now - RETENTION_MS || r !in Newest(Recent(t, now), RETAINED));
    t.(jobs := t.jobs - doomed)
  }

  // ---- The store as it runs ----------------------------------------------

  class PageStore {
    var revision: nat
    var paper: Paper
    var updatedAt: int
    var batches: seq<BatchRow>
    var tombstones: map<string, nat>
    var erasures: seq<TombstoneBatch>
    var jobs: map<nat, Job>

    ghost function Rows(): Tables reads this {
      Tables(revision, paper, updatedAt, batches, tombstones, erasures, jobs)
    }

    constructor (initialPaper: Paper, now: int)
      ensures Rows() == Fresh(initialPaper, now)
    {
      revision, paper, updatedAt := 0, initialPaper, now;
      batches, tombstones, erasures, jobs := [], map[], [], map[];
    }

    method PersistBatch(key: string, strokes: seq<Stroke>, now: int) returns (r: PersistedBatch)
      modifies this
      ensures (Rows(), r) == AfterBatch(old(Rows()), key, strokes, now)
    {
      var visible := Surviving(strokes, tombstones.Keys);
      var existing := FindBatch(batches, key);
      if existing.Some? {
        return PersistedBatch(existing.value.seqNo, existing.value.revision, visible, false, None);
      }
      if visible == [] {
        return PersistedBatch(MaxSeq(batches), revision, visible, false, None);
      }
      var next := MaxSeq(batches) + 1;
      var newRevision := revision + 1;
      batches := batches + [BatchRow(next, newRevision, key, visible)];
      updatedAt, revision := now, newRevision;
      var created := InsertJob(newRevision, paper, now);
      r := PersistedBatch(next, newRevision, visible, created, Some(now));
    }

    method PersistTombstones(key: string, requested: seq<string>, now: int) returns (r: PersistedTombstones)
      modifies this
      ensures (Rows(), r) == AfterTombstones(old(Rows()), key, requested, now)
    {
      var existing := FindErasure(erasures, key);
      if existing.Some? {
        return PersistedTombstones(existing.value.revision, existing.value.strokeIds, false, None);
      }
      var ids := Ordering.Sorted(requested);
      ids := Ordering.Dedup(ids);
      ids := Absent(ids, tombstones.Keys);
      var at := if ids == [] then revision else revision + 1;
      InsertTombstones(ids, at);
      assert ids == [] ==> tombstones == old(tombstones);
      erasures := erasures + [TombstoneBatch(at, key, ids)];
      var created := false;
      if ids != [] {
        updatedAt, revision := now, revision + 1;
        created := InsertJob(at, paper, now);
      }
      r := PersistedTombstones(at, ids, created, if ids == [] then None else Some(now));
    }

    /** One `stroke_tombstones` insert per id. */
    method InsertTombstones(ids: seq<string>, at: nat)
      modifies this`tombstones
      ensures tombstones == old(tombstones) + DeletedAt(ids, at)
    {
      for i := 0 to |ids|
        invariant tombstones == old(tombstones) + DeletedAt(ids[..i], at)
      {
        tombstones := tombstones[ids[i] := at];
        assert ids[..i + 1] == ids[..i] + [ids[i]];
      }
      assert ids[..|ids|] == ids;
    }

    method PersistPaper(newPaper: Paper, now: int) returns (r: PersistedPaper)
      modifies this
      ensures (Rows(), r) == AfterPaper(old(Rows()), newPaper, now)
    {
      if paper == newPaper {
        return PersistedPaper(false, revision, false, None);
      }
      var inked := Selection(batches, tombstones, revision) != [];
      var at := if inked then revision + 1 else revision;
      paper, updatedAt, revision := newPaper, now, at;
      var created := false;
      if inked {
        created := InsertJob(at, newPaper, now);
      }
      r := PersistedPaper(true, at, created, Some(now));
    }

    /** Returns whether a row was inserted (`rows_affected() == 1`). */
    method InsertJob(at: nat, jobPaper: Paper, now: int) returns (created: bool)
      modifies this`jobs
      ensures jobs == AddJob(old(jobs), at, jobPaper, now) && created == (at !in old(jobs))
    {
      created := at !in jobs;
      if created {
        jobs := jobs[at := Job(jobPaper, now, Generating)];
      }
    }

    method FinishRender(at: nat, ok: bool)
      modifies this`jobs
      ensures Rows() == AfterRender(old(Rows()), at, ok)
    {
      if at in jobs {
        jobs := jobs[at := jobs[at].(status := if ok then Available else Failed)];
      }
    }

    method Cleanup(now: int)
      modifies this`jobs
      ensures Rows() == AfterCleanup(old(Rows()), now)
    {
      var head := revision;
      var recent := set r | r in jobs && r != head && jobs[r].createdAt >= now - RETENTION_MS;
      var keep := Newest(recent, RETAINED);
      jobs := jobs - set r | r in jobs && r != head && (jobs[r].createdAt < now - RETENTION_MS || r !in keep);
    }
  }
}
