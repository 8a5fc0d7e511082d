/** What every run of page transactions keeps: numbering, delete-wins across the
    two tombstone tables, the head thumbnail row, immutable revision snapshots,
    retries that change nothing, and exact retention. */
module History {
  import opened Protocol
  import opened Store
  import Ordering

  // ---- Runs ---------------------------------------------------------------

  datatype Step =
    | AddStrokes(key: string, strokes: seq<Stroke>, now: int)
    | EraseStrokes(key: string, ids: seq<string>, now: int)
    | ChangePaper(paper: Paper, now: int)
    | RenderEnded(revision: nat, ok: bool)
    | Retention(now: int)

  function Apply(t: Tables, step: Step): Tables {
    match step
    case AddStrokes(key, strokes, now) => AfterBatch(t, key, strokes, now).0
    case EraseStrokes(key, ids, now) => AfterTombstones(t, key, ids, now).0
    case ChangePaper(paper, now) => AfterPaper(t, paper, now).0
    case RenderEnded(revision, ok) => AfterRender(t, revision, ok)
    case Retention(now) => AfterCleanup(t, now)
  }

  function Run(t: Tables, steps: seq<Step>): Tables
    decreases |steps|
  {
    if steps == [] then t else Run(Apply(t, steps[0]), steps[1..])
  }

  // ---- The invariant ------------------------------------------------------

  ghost predicate Numbered(t: Tables) {
    && (forall i :: 0 <= i < |t.batches| ==>
          t.batches[i].seqNo == i + 1 && 1 <= t.batches[i].revision <= t.revision && t.batches[i].strokes != [])
    && (forall i, j :: 0 <= i < j < |t.batches| ==>
          t.batches[i].revision < t.batches[j].revision
          && t.batches[i].clientBatchId != t.batches[j].clientBatchId)
  }

  ghost predicate DeleteWins(t: Tables) {
    && (forall id :: id in t.tombstones ==> 1 <= t.tombstones[id] <= t.revision)
    && (forall i, s :: 0 <= i < |t.batches| && s in t.batches[i].strokes && s.id in t.tombstones ==>
          t.batches[i].revision < t.tombstones[s.id])
  }

  /** `tombstone_batches` and `stroke_tombstones` tell one story: the batches
      hold no id twice, and together exactly the erased ids. */
  ghost predicate TablesAgree(t: Tables) {
    && ErasuresMatch(t.erasures, t.tombstones)
    && ErasuresDisjoint(t.erasures)
    && TombstonedIds(t.erasures) == t.tombstones.Keys
  }

  ghost predicate ErasuresMatch(rows: seq<TombstoneBatch>, tombstones: map<string, nat>) {
    forall i :: 0 <= i < |rows| ==> NoRepeats(rows[i].strokeIds) && MatchesRow(rows[i], tombstones)
  }

  ghost predicate MatchesRow(row: TombstoneBatch, tombstones: map<string, nat>) {
    forall id :: id in row.strokeIds ==> id in tombstones && tombstones[id] == row.revision
  }

  ghost predicate ErasuresDisjoint(rows: seq<TombstoneBatch>) {
    forall i, j :: 0 <= i < j < |rows| ==>
      rows[i].clientMutationId != rows[j].clientMutationId
      && ToSet(rows[i].strokeIds) !! ToSet(rows[j].strokeIds)
  }

  ghost predicate NoRepeats(ids: seq<string>) {
    forall i, j :: 0 <= i < j < |ids| ==> ids[i] != ids[j]
  }

  ghost predicate HeadKept(t: Tables) {
    && (forall r :: r in t.jobs ==> 1 <= r <= t.revision)
    && (t.revision == 0 || t.revision in t.jobs)
  }

  ghost predicate Sound(t: Tables) {
    Numbered(t) && DeleteWins(t) && TablesAgree(t) && HeadKept(t)
  }

  // ---- Facts about the reads ---------------------------------------------

  lemma {:induction false} MaxSeqIsCount(rows: seq<BatchRow>)
    requires forall i :: 0 <= i < |rows| ==> rows[i].seqNo == i + 1
    ensures MaxSeq(rows) == |rows|
  {
    if rows != [] { MaxSeqIsCount(rows[..|rows| - 1]); }
  }

  lemma {:induction false} FindBatchSpec(rows: seq<BatchRow>, key: string)
    ensures FindBatch(rows, key).Some? <==> exists i :: 0 <= i < |rows| && rows[i].clientBatchId == key
    ensures FindBatch(rows, key).Some? ==>
      FindBatch(rows, key).value in rows && FindBatch(rows, key).value.clientBatchId == key
  {
    if rows != [] {
      FindBatchSpec(rows[1..], key);
      assert rows == [rows[0]] + rows[1..];
      if i :| 0 < i < |rows| && rows[i].clientBatchId == key { assert rows[1..][i - 1] == rows[i]; }
    }
  }

  lemma {:induction false} FindErasureSpec(rows: seq<TombstoneBatch>, key: string)
    ensures FindErasure(rows, key).Some? <==> exists i :: 0 <= i < |rows| && rows[i].clientMutationId == key
    ensures FindErasure(rows, key).Some? ==>
      FindErasure(rows, key).value in rows && FindErasure(rows, key).value.clientMutationId == key
  {
    if rows != [] {
      FindErasureSpec(rows[1..], key);
      assert rows == [rows[0]] + rows[1..];
      if i :| 0 < i < |rows| && rows[i].clientMutationId == key { assert rows[1..][i - 1] == rows[i]; }
    }
  }

  lemma {:induction false} AbsentSpec(ids: seq<string>, gone: set<string>)
    requires NoRepeats(ids)
    ensures NoRepeats(Absent(ids, gone))
    ensures forall id :: id in Absent(ids, gone) <==> id in ids && id !in gone
  {
    if ids != [] {
      AbsentSpec(ids[1..], gone);
      assert ids == [ids[0]] + ids[1..];
      assert ids[0] !in ids[1..];
    }
  }

  /** What one erase request really erases: each named id not erased before, once. */
  lemma FreshIdsSpec(requested: seq<string>, gone: set<string>)
    ensures NoRepeats(FreshIds(requested, gone))
    ensures forall id :: id in FreshIds(requested, gone) <==> id in requested && id !in gone
  {
    Ordering.SortDedup(requested);
    AbsentSpec(Ordering.Dedup(Ordering.Sorted(requested)), gone);
  }

  // ---- Every transaction keeps the invariant ------------------------------

  lemma FreshIsSound(paper: Paper, now: int)
    ensures Sound(Fresh(paper, now))
  {
  }

  lemma AppendKeepsNumbered(t: Tables, row: BatchRow, u: Tables)
    requires Numbered(t) && u.revision == t.revision + 1 && u.batches == t.batches + [row]
    requires row.seqNo == |t.batches| + 1 && row.revision == u.revision && row.strokes != []
    requires forall i :: 0 <= i < |t.batches| ==> t.batches[i].clientBatchId != row.clientBatchId
    ensures Numbered(u)
  {
    assert forall i :: 0 <= i < |t.batches| ==> u.batches[i] == t.batches[i];
  }

  lemma AppendKeepsDeleteWins(t: Tables, row: BatchRow, u: Tables)
    requires DeleteWins(t) && u.revision == t.revision + 1 && u.batches == t.batches + [row]
    requires u.tombstones == t.tombstones
    requires forall s :: s in row.strokes ==> s.id !in t.tombstones
    ensures DeleteWins(u)
  {
    forall i, s | 0 <= i < |u.batches| && s in u.batches[i].strokes && s.id in u.tombstones
      ensures u.batches[i].revision < u.tombstones[s.id]
    {
      if i < |t.batches| { assert u.batches[i] == t.batches[i]; }
    }
  }

  lemma BatchKeepsSound(t: Tables, key: string, strokes: seq<Stroke>, now: int)
    requires Sound(t)
    ensures Sound(AfterBatch(t, key, strokes, now).0)
  {
    var u := AfterBatch(t, key, strokes, now).0;
    FindBatchSpec(t.batches, key);
    MaxSeqIsCount(t.batches);
    if u != t {
      var visible := Surviving(strokes, t.tombstones.Keys);
      var row := BatchRow(|t.batches| + 1, t.revision + 1, key, visible);
      assert u.batches == t.batches + [row];
      SurvivingMembers(strokes, t.tombstones.Keys);
      AppendKeepsNumbered(t, row, u);
      AppendKeepsDeleteWins(t, row, u);
      assert TablesAgree(u);
    }
  }

  lemma EraseKeepsTablesAgree(t: Tables, row: TombstoneBatch, u: Tables)
    requires TablesAgree(t) && u.erasures == t.erasures + [row]
    requires u.tombstones == t.tombstones + DeletedAt(row.strokeIds, row.revision)
    requires NoRepeats(row.strokeIds) && forall id :: id in row.strokeIds ==> id !in t.tombstones
    requires forall i :: 0 <= i < |t.erasures| ==> t.erasures[i].clientMutationId != row.clientMutationId
    ensures TablesAgree(u)
  {
    var n := |t.erasures|;
    TombstonedIdsConcat(t.erasures, [row]);
    assert TombstonedIds([row]) == ToSet(row.strokeIds);
    forall i | 0 <= i < n ensures ToSet(t.erasures[i].strokeIds) !! ToSet(row.strokeIds) {
      assert MatchesRow(t.erasures[i], t.tombstones);
    }
    forall i | 0 <= i <= n ensures MatchesRow(u.erasures[i], u.tombstones) {
      if i < n { assert MatchesRow(t.erasures[i], t.tombstones); }
    }
  }

  lemma EraseKeepsDeleteWins(t: Tables, ids: seq<string>, u: Tables)
    requires Numbered(t) && DeleteWins(t)
    requires u.batches == t.batches && u.revision == t.revision + 1
    requires u.tombstones == t.tombstones + DeletedAt(ids, u.revision)
    requires forall id :: id in ids ==> id !in t.tombstones
    ensures DeleteWins(u)
  {
  }

  lemma EraseKeepsSound(t: Tables, key: string, ids: seq<string>, now: int, u: Tables)
    requires Sound(t) && ids != [] && NoRepeats(ids) && forall id :: id in ids ==> id !in t.tombstones
    requires forall i :: 0 <= i < |t.erasures| ==> t.erasures[i].clientMutationId != key
    requires u == t.(revision := t.revision + 1, updatedAt := now,
                     tombstones := t.tombstones + DeletedAt(ids, t.revision + 1),
                     erasures := t.erasures + [TombstoneBatch(t.revision + 1, key, ids)],
                     jobs := AddJob(t.jobs, t.revision + 1, t.paper, now))
    ensures Sound(u)
  {
    EraseKeepsTablesAgree(t, TombstoneBatch(u.revision, key, ids), u);
    EraseKeepsDeleteWins(t, ids, u);
    assert Numbered(u);
  }

  lemma EmptyEraseKeepsSound(t: Tables, key: string, u: Tables)
    requires Sound(t) && forall i :: 0 <= i < |t.erasures| ==> t.erasures[i].clientMutationId != key
    requires u == t.(erasures := t.erasures + [TombstoneBatch(t.revision, key, [])])
    ensures Sound(u)
  {
    assert t.tombstones + DeletedAt([], t.revision) == t.tombstones;
    EraseKeepsTablesAgree(t, TombstoneBatch(t.revision, key, []), u);
  }

  lemma UnusedErasureKey(t: Tables, key: string)
    requires FindErasure(t.erasures, key).None?
    ensures forall i :: 0 <= i < |t.erasures| ==> t.erasures[i].clientMutationId != key
  {
    FindErasureSpec(t.erasures, key);
  }

  lemma NewEraseKeepsSound(t: Tables, key: string, requested: seq<string>, now: int, u: Tables)
    requires Sound(t) && FindErasure(t.erasures, key).None? && u == AfterTombstones(t, key, requested, now).0
    ensures Sound(u)
  {
    var ids := FreshIds(requested, t.tombstones.Keys);
    UnusedErasureKey(t, key);
    FreshIdsSpec(requested, t.tombstones.Keys);
    if ids == [] {
      EmptyEraseKeepsSound(t, key, u);
    } else {
      EraseKeepsSound(t, key, ids, now, u);
    }
  }

  lemma TombstonesKeepSound(t: Tables, key: string, requested: seq<string>, now: int)
    requires Sound(t)
    ensures Sound(AfterTombstones(t, key, requested, now).0)
  {
    if FindErasure(t.erasures, key).None? {
      NewEraseKeepsSound(t, key, requested, now, AfterTombstones(t, key, requested, now).0);
    }
  }

  /** The same ink rows at the same or a later revision, with the head's job. */
  lemma SameInkKeepsSound(t: Tables, u: Tables)
    requires Sound(t) && t.revision <= u.revision && HeadKept(u)
    requires u.batches == t.batches && u.tombstones == t.tombstones && u.erasures == t.erasures
    ensures Sound(u)
  {
  }

  lemma PaperKeepsInk(t: Tables, paper: Paper, now: int)
    requires HeadKept(t)
    ensures var u := AfterPaper(t, paper, now).0;
      && t.revision <= u.revision && HeadKept(u)
      && u.batches == t.batches && u.tombstones == t.tombstones && u.erasures == t.erasures
  {
  }

  lemma PaperKeepsSound(t: Tables, paper: Paper, now: int)
    requires Sound(t)
    ensures Sound(AfterPaper(t, paper, now).0)
  {
    PaperKeepsInk(t, paper, now);
    SameInkKeepsSound(t, AfterPaper(t, paper, now).0);
  }

  lemma RenderKeepsSound(t: Tables, revision: nat, ok: bool)
    requires Sound(t)
    ensures Sound(AfterRender(t, revision, ok))
  {
  }

  lemma CleanupKeepsSound(t: Tables, now: int)
    requires Sound(t)
    ensures Sound(AfterCleanup(t, now))
  {
  }

  lemma {:induction false} SoundStep(t: Tables, step: Step)
    requires Sound(t)
    ensures Sound(Apply(t, step))
  {
    match step
    case AddStrokes(key, strokes, now) => BatchKeepsSound(t, key, strokes, now);
    case EraseStrokes(key, ids, now) => TombstonesKeepSound(t, key, ids, now);
    case ChangePaper(paper, now) => PaperKeepsSound(t, paper, now);
    case RenderEnded(revision, ok) => RenderKeepsSound(t, revision, ok);
    case Retention(now) => CleanupKeepsSound(t, now);
  }

  /** Over every run from a fresh page: seqs are exactly 1..n with strictly
      increasing revisions, erased ink is always older than its tombstone, the
      two tombstone tables agree, and the head revision names a kept row. */
  lemma {:induction false} RunIsSound(t: Tables, steps: seq<Step>)
    requires Sound(t)
    ensures Sound(Run(t, steps))
    decreases |steps|
  {
    if steps != [] {
      SoundStep(t, steps[0]);
      RunIsSound(Apply(t, steps[0]), steps[1..]);
    }
  }

  /** A step either leaves the revision and mints nothing, or takes it up by one
      and mints exactly the job row of the new revision, on the paper then in
      force; the insert never conflicts. */
  lemma BumpMintsOneJob(t: Tables, step: Step)
    requires Sound(t)
    ensures var u := Apply(t, step);
      if u.revision == t.revision then u.jobs.Keys <= t.jobs.Keys
      else
        && u.revision == t.revision + 1 && u.revision !in t.jobs
        && (step.AddStrokes? || step.EraseStrokes? || step.ChangePaper?)
        && u.jobs == t.jobs[u.revision := Job(u.paper, step.now, Generating)]
        && u.updatedAt == step.now
  {
  }

  /** What the caller is told agrees with what was stored. */
  lemma AcknowledgedAsStored(t: Tables, key: string, strokes: seq<Stroke>, now: int)
    requires Sound(t)
    ensures var (u, r) := AfterBatch(t, key, strokes, now);
      if r.updatedAt.Some? then
        && r.thumbnailJobCreated && r.revision == u.revision && r.seqNo == |u.batches|
        && u.batches == t.batches + [BatchRow(r.seqNo, r.revision, key, r.visibleStrokes)]
        && r.visibleStrokes != []
        && r.visibleStrokes == Surviving(strokes, u.tombstones.Keys)
      else
        u == t && !r.thumbnailJobCreated
        && (|| r.visibleStrokes == []
            || exists row :: row in t.batches && row.clientBatchId == key && row.seqNo == r.seqNo)
  {
    FindBatchSpec(t.batches, key);
    MaxSeqIsCount(t.batches);
  }

  lemma OldEraseAcknowledged(t: Tables, key: string, requested: seq<string>, now: int)
    requires Sound(t) && FindErasure(t.erasures, key).Some?
    ensures var (u, r) := AfterTombstones(t, key, requested, now);
      && u == t && r.updatedAt.None? && !r.thumbnailJobCreated
      && TombstoneBatch(r.revision, key, r.strokeIds) in t.erasures
      && (forall id :: id in r.strokeIds ==> id in t.tombstones && t.tombstones[id] == r.revision)
  {
    FindErasureSpec(t.erasures, key);
    var row := FindErasure(t.erasures, key).value;
    var i :| 0 <= i < |t.erasures| && t.erasures[i] == row;
    assert MatchesRow(t.erasures[i], t.tombstones);
  }

  lemma NewEraseAcknowledged(t: Tables, key: string, requested: seq<string>, now: int)
    requires FindErasure(t.erasures, key).None?
    ensures var (u, r) := AfterTombstones(t, key, requested, now);
      && u.erasures == t.erasures + [TombstoneBatch(r.revision, key, r.strokeIds)]
      && r.strokeIds == FreshIds(requested, t.tombstones.Keys)
      && u.tombstones == t.tombstones + DeletedAt(r.strokeIds, r.revision)
      && u.batches == t.batches && r.revision == u.revision
  {
    assert t.tombstones + DeletedAt([], t.revision) == t.tombstones;
  }

  lemma NewEraseStampsAndMints(t: Tables, key: string, requested: seq<string>, now: int)
    requires Sound(t) && FindErasure(t.erasures, key).None?
    ensures var r := AfterTombstones(t, key, requested, now).1;
      (r.updatedAt.Some? <==> r.strokeIds != []) && (r.thumbnailJobCreated <==> r.strokeIds != [])
  {
  }

  /** An erase under a new key erases exactly what was asked and was not erased
      before, all at one new revision, and says so; under an old key it says what it
      said then. */
  lemma EraseAcknowledgedAsStored(t: Tables, key: string, requested: seq<string>, now: int)
    requires Sound(t)
    ensures var (u, r) := AfterTombstones(t, key, requested, now);
      && (forall id :: id in r.strokeIds ==> id in u.tombstones && u.tombstones[id] == r.revision)
      && TombstoneBatch(r.revision, key, r.strokeIds) in u.erasures
      && (FindErasure(t.erasures, key).Some? ==> u == t && r.updatedAt.None? && !r.thumbnailJobCreated)
      && (FindErasure(t.erasures, key).None? ==>
            && u.tombstones.Keys == t.tombstones.Keys + ToSet(requested)
            && ToSet(r.strokeIds) == ToSet(requested) - t.tombstones.Keys
            && u.erasures == t.erasures + [TombstoneBatch(r.revision, key, r.strokeIds)]
            && u.batches == t.batches && r.revision == u.revision
            && (r.updatedAt.Some? <==> r.strokeIds != []) && (r.thumbnailJobCreated <==> r.strokeIds != []))
  {
    var (u, r) := AfterTombstones(t, key, requested, now);
    if FindErasure(t.erasures, key).Some? {
      OldEraseAcknowledged(t, key, requested, now);
    } else {
      NewEraseAcknowledged(t, key, requested, now);
      NewEraseStampsAndMints(t, key, requested, now);
      FreshIdsSpec(requested, t.tombstones.Keys);
      assert u.erasures[|t.erasures|] == TombstoneBatch(r.revision, key, r.strokeIds);
    }
  }

  /** A paper change is answered with the revision it left. */
  lemma PaperAcknowledgedAsStored(t: Tables, paper: Paper, now: int)
    ensures var (u, r) := AfterPaper(t, paper, now);
      r.revision == u.revision && r.updatedAt == if t.paper == paper then None else Some(now)
  {
  }

  /** The page's time stamp is that of the last step that changed its revision or
      its paper, and no other step touches it. */
  lemma StampedWhenChanged(t: Tables, step: Step)
    ensures var u := Apply(t, step);
      if u.revision == t.revision && u.paper == t.paper then u.updatedAt == t.updatedAt
      else (step.AddStrokes? || step.EraseStrokes? || step.ChangePaper?) && u.updatedAt == step.now
  {
  }

  // ---- Snapshots ----------------------------------------------------------

  /** `u` is some later state of `t`: rows are only appended, at higher
      revisions, and a job row that is still there still says what it said. */
  ghost predicate Later(t: Tables, u: Tables) {
    && t.revision <= u.revision
    && t.batches <= u.batches && t.erasures <= u.erasures
    && (forall i :: |t.batches| <= i < |u.batches| ==> u.batches[i].revision > t.revision)
    && (forall id :: id in t.tombstones ==> id in u.tombstones && u.tombstones[id] == t.tombstones[id])
    && (forall id :: id in u.tombstones && id !in t.tombstones ==> u.tombstones[id] > t.revision)
    && (forall r :: r in u.jobs && r <= t.revision ==>
          r in t.jobs && u.jobs[r].paper == t.jobs[r].paper && u.jobs[r].createdAt == t.jobs[r].createdAt)
  }

  lemma BatchIsLater(t: Tables, key: string, strokes: seq<Stroke>, now: int)
    requires Sound(t)
    ensures Later(t, AfterBatch(t, key, strokes, now).0)
  {
  }

  lemma TombstonesAreLater(t: Tables, key: string, requested: seq<string>, now: int)
    requires Sound(t)
    ensures Later(t, AfterTombstones(t, key, requested, now).0)
  {
    var u := AfterTombstones(t, key, requested, now).0;
    FreshIdsSpec(requested, t.tombstones.Keys);
    assert u.batches == t.batches;
  }

  lemma StepIsLater(t: Tables, step: Step)
    requires Sound(t)
    ensures Later(t, Apply(t, step))
  {
    match step
    case AddStrokes(key, strokes, now) => BatchIsLater(t, key, strokes, now);
    case EraseStrokes(key, ids, now) => TombstonesAreLater(t, key, ids, now);
    case ChangePaper(_, _) =>
    case RenderEnded(_, _) =>
    case Retention(_) =>
  }

  lemma LaterTransitive(t: Tables, u: Tables, v: Tables)
    requires Later(t, u) && Later(u, v)
    ensures Later(t, v)
  {
    forall i | |t.batches| <= i < |v.batches| ensures v.batches[i].revision > t.revision {
      if i < |u.batches| { assert v.batches[i] == u.batches[i]; }
    }
  }

  lemma {:induction false} RunIsLater(t: Tables, steps: seq<Step>)
    requires Sound(t)
    ensures Later(t, Run(t, steps))
    decreases |steps|
  {
    if steps != [] {
      var u := Apply(t, steps[0]);
      SoundStep(t, steps[0]);
      StepIsLater(t, steps[0]);
      RunIsLater(u, steps[1..]);
      LaterTransitive(t, u, Run(u, steps[1..]));
    }
  }

  /** The page's ink as it stands: every stored stroke not erased. */
  function VisibleInk(t: Tables): seq<Stroke> {
    Surviving(AllStrokes(t.batches), t.tombstones.Keys)
  }

  function AllStrokes(rows: seq<BatchRow>): seq<Stroke> {
    if rows == [] then [] else rows[0].strokes + AllStrokes(rows[1..])
  }

  lemma {:induction false} UpToPrefix(rows: seq<BatchRow>, more: seq<BatchRow>, revision: nat)
    requires forall i :: 0 <= i < |rows| ==> rows[i].revision <= revision
    requires forall i :: 0 <= i < |more| ==> more[i].revision > revision
    ensures StrokesUpTo(rows + more, revision) == AllStrokes(rows)
  {
    if rows != [] {
      assert (rows + more)[1..] == rows[1..] + more;
      UpToPrefix(rows[1..], more, revision);
    } else if more != [] {
      assert rows + more == more;
      UpToPrefix([], more[1..], revision);
      assert [] + more[1..] == more[1..];
    } else {
      assert rows + more == [];
    }
  }

  lemma ErasedThen(t: Tables, u: Tables)
    requires DeleteWins(t) && Later(t, u)
    ensures ErasedUpTo(u.tombstones, t.revision) == t.tombstones.Keys
  {
  }

  lemma StoredThen(t: Tables, u: Tables)
    requires Numbered(t) && Later(t, u)
    ensures StrokesUpTo(u.batches, t.revision) == AllStrokes(t.batches)
  {
    var more := u.batches[|t.batches|..];
    assert u.batches == t.batches + more;
    UpToPrefix(t.batches, more, t.revision);
  }

  /** What `generate` selects for revision R, its batch read and its tombstone
      read made in two different later states, is what was visible when R was
      current; and a job row still kept has the paper it was minted with. */
  lemma SnapshotOf(t: Tables, batchRead: Tables, tombstoneRead: Tables, jobRead: Tables)
    requires Sound(t) && Later(t, batchRead) && Later(t, tombstoneRead) && Later(t, jobRead)
    ensures Selection(batchRead.batches, tombstoneRead.tombstones, t.revision) == VisibleInk(t)
    ensures t.revision in jobRead.jobs ==>
      t.revision in t.jobs && jobRead.jobs[t.revision].paper == t.jobs[t.revision].paper
  {
    StoredThen(t, batchRead);
    ErasedThen(t, tombstoneRead);
  }

  /** Snapshot immutability over whole runs: `step` mints a revision after
      `history`; however the run goes on, every read made for that revision
      finds the ink and the paper in force right after `step`. */
  lemma SnapshotsAreImmutable(
      start: Tables, history: seq<Step>, step: Step,
      beforePaper: seq<Step>, beforeBatches: seq<Step>, beforeTombstones: seq<Step>)
    requires Sound(start)
    ensures
      var minted := Apply(Run(start, history), step);
      minted.revision > Run(start, history).revision ==>
        && Selection(Run(minted, beforeBatches).batches, Run(minted, beforeTombstones).tombstones, minted.revision)
             == VisibleInk(minted)
        && (minted.revision in Run(minted, beforePaper).jobs ==>
              Run(minted, beforePaper).jobs[minted.revision].paper == minted.paper)
  {
    var before := Run(start, history);
    var minted := Apply(before, step);
    RunIsSound(start, history);
    SoundStep(before, step);
    RunIsLater(minted, beforePaper);
    RunIsLater(minted, beforeBatches);
    RunIsLater(minted, beforeTombstones);
    SnapshotOf(minted, Run(minted, beforeBatches), Run(minted, beforeTombstones), Run(minted, beforePaper));
    if minted.revision > before.revision { BumpMintsOneJob(before, step); }
  }

  /** Once erased, an id never shows again and is never stored again. */
  lemma ErasedStaysErased(t: Tables, steps: seq<Step>, id: string)
    requires Sound(t) && id in t.tombstones
    ensures forall s :: s in VisibleInk(Run(t, steps)) ==> s.id != id
    ensures forall i, s :: |t.batches| <= i < |Run(t, steps).batches| && s in Run(t, steps).batches[i].strokes ==>
      s.id != id
  {
    var u := Run(t, steps);
    RunIsLater(t, steps);
    RunIsSound(t, steps);
    SurvivingMembers(AllStrokes(u.batches), u.tombstones.Keys);
  }

  // ---- Retries ------------------------------------------------------------

  /** The same request again: same key, same payload, at any later time. */
  predicate Repeats(step: Step, earlier: Step) {
    match step
    case AddStrokes(key, strokes, _) => earlier.AddStrokes? && earlier.key == key && earlier.strokes == strokes
    case EraseStrokes(key, ids, _) => earlier.EraseStrokes? && earlier.key == key && earlier.ids == ids
    case _ => false
  }

  /** Repeating `step` in `t` would change nothing. */
  ghost predicate Settled(t: Tables, step: Step) {
    match step
    case AddStrokes(key, strokes, _) =>
      FindBatch(t.batches, key).Some? || Surviving(strokes, t.tombstones.Keys) == []
    case EraseStrokes(key, _, _) => FindErasure(t.erasures, key).Some?
    case _ => true
  }

  lemma SettledByApplying(t: Tables, step: Step)
    ensures Settled(Apply(t, step), step)
  {
    var u := Apply(t, step);
    match step
    case AddStrokes(key, strokes, now) =>
      FindBatchSpec(t.batches, key);
      FindBatchSpec(u.batches, key);
      if u != t { assert u.batches[|t.batches|].clientBatchId == key; }
    case EraseStrokes(key, ids, now) =>
      FindErasureSpec(t.erasures, key);
      FindErasureSpec(u.erasures, key);
      if u.erasures != t.erasures { assert u.erasures[|t.erasures|].clientMutationId == key; }
    case _ =>
  }

  lemma StaysSettled(t: Tables, u: Tables, settled: Step)
    requires Later(t, u) && Settled(t, settled)
    ensures Settled(u, settled)
  {
    match settled
    case AddStrokes(key, strokes, _) =>
      FindBatchSpec(t.batches, key);
      FindBatchSpec(u.batches, key);
      if i :| 0 <= i < |t.batches| && t.batches[i].clientBatchId == key {
        assert u.batches[i] == t.batches[i];
      } else {
        SurvivingTwice(strokes, t.tombstones.Keys, u.tombstones.Keys);
        assert t.tombstones.Keys + u.tombstones.Keys == u.tombstones.Keys;
      }
    case EraseStrokes(key, _, _) =>
      FindErasureSpec(t.erasures, key);
      FindErasureSpec(u.erasures, key);
      var i :| 0 <= i < |t.erasures| && t.erasures[i].clientMutationId == key;
      assert u.erasures[i] == t.erasures[i];
    case _ =>
  }

  /** A run without the commits that repeat an earlier one. */
  function WithoutRepeats(seen: seq<Step>, steps: seq<Step>): seq<Step>
    decreases |steps|
  {
    if steps == [] then []
    else if exists i :: 0 <= i < |seen| && Repeats(steps[0], seen[i]) then WithoutRepeats(seen, steps[1..])
    else [steps[0]] + WithoutRepeats(seen + [steps[0]], steps[1..])
  }

  /** Retry transparency: however many retries of earlier commits a run
      contains, and wherever they fall, the tables end as without them. */
  lemma {:induction false} RetriesChangeNothing(t: Tables, seen: seq<Step>, steps: seq<Step>)
    requires Sound(t) && forall i :: 0 <= i < |seen| ==> Settled(t, seen[i])
    ensures Run(t, steps) == Run(t, WithoutRepeats(seen, steps))
    decreases |steps|
  {
    if steps == [] {
    } else if i :| 0 <= i < |seen| && Repeats(steps[0], seen[i]) {
      assert Settled(t, seen[i]);
      assert Apply(t, steps[0]) == t;
      RetriesChangeNothing(t, seen, steps[1..]);
    } else {
      var u := Apply(t, steps[0]);
      SoundStep(t, steps[0]);
      StepIsLater(t, steps[0]);
      SettledByApplying(t, steps[0]);
      forall j | 0 <= j < |seen| ensures Settled(u, seen[j]) { StaysSettled(t, u, seen[j]); }
      RetriesChangeNothing(u, seen + [steps[0]], steps[1..]);
      var rest := WithoutRepeats(seen + [steps[0]], steps[1..]);
      assert ([steps[0]] + rest)[1..] == rest;
    }
  }

  /** A paper change is idempotent by value, not by key: a repeat is silent
      exactly while the page still has that paper. */
  lemma PaperRepeatIsSilentIff(t: Tables, paper: Paper, now: int)
    requires Sound(t)
    ensures !AfterPaper(t, paper, now).1.changed <==> t.paper == paper
    ensures AfterPaper(t, paper, now).0.paper == paper
    ensures !AfterPaper(t, paper, now).1.changed ==> AfterPaper(t, paper, now).0 == t
    ensures AfterPaper(t, paper, now).1.thumbnailJobCreated <==> t.paper != paper && VisibleInk(t) != []
    ensures VisibleInk(AfterPaper(t, paper, now).0) == VisibleInk(t)
  {
    SnapshotOf(t, t, t, t);
  }

  /** Every add of the run carries the payload its key stands for. */
  ghost predicate Follows(steps: seq<Step>, payload: map<string, seq<Stroke>>) {
    forall i :: 0 <= i < |steps| && steps[i].AddStrokes? ==>
      steps[i].key in payload && payload[steps[i].key] == steps[i].strokes
  }

  /** Each stored row and its key's payload show the same ink today. */
  ghost predicate RowsCarry(t: Tables, payload: map<string, seq<Stroke>>) {
    forall i :: 0 <= i < |t.batches| ==> RowCarries(t.batches[i], payload, t.tombstones.Keys)
  }

  ghost predicate RowCarries(row: BatchRow, payload: map<string, seq<Stroke>>, gone: set<string>) {
    row.clientBatchId in payload && Surviving(payload[row.clientBatchId], gone) == Surviving(row.strokes, gone)
  }

  lemma RowsCarryStep(t: Tables, step: Step, payload: map<string, seq<Stroke>>)
    requires Sound(t) && RowsCarry(t, payload) && Follows([step], payload)
    ensures RowsCarry(Apply(t, step), payload)
  {
    var u := Apply(t, step);
    assert [step][0] == step;
    StepIsLater(t, step);
    var before, gone := t.tombstones.Keys, u.tombstones.Keys;
    assert before + gone == gone;
    forall i | 0 <= i < |u.batches| ensures RowCarries(u.batches[i], payload, gone) {
      var row := u.batches[i];
      if i < |t.batches| {
        assert row == t.batches[i] && RowCarries(row, payload, before);
        SurvivingTwice(payload[row.clientBatchId], before, gone);
        SurvivingTwice(row.strokes, before, gone);
      } else {
        SurvivingTwice(step.strokes, before, gone);
      }
    }
  }

  lemma {:induction false} RowsCarryRun(t: Tables, steps: seq<Step>, payload: map<string, seq<Stroke>>)
    requires Sound(t) && RowsCarry(t, payload) && Follows(steps, payload)
    ensures RowsCarry(Run(t, steps), payload)
    decreases |steps|
  {
    if steps != [] {
      RowsCarryStep(t, steps[0], payload);
      SoundStep(t, steps[0]);
      RowsCarryRun(Apply(t, steps[0]), steps[1..], payload);
    }
  }

  /** In sound tables the row of a key is the one that is found. */
  lemma FoundAt(t: Tables, key: string, i: nat)
    requires Sound(t) && i < |t.batches| && t.batches[i].clientBatchId == key
    ensures FindBatch(t.batches, key) == Some(t.batches[i])
  {
    FindBatchSpec(t.batches, key);
    var j :| 0 <= j < |t.batches| && t.batches[j] == FindBatch(t.batches, key).value;
    assert i == j;
  }

  /** While keys keep their payload, a retry re-echoes under the stored seq
      exactly the stored strokes not erased today, however much was erased
      since, and changes no table. */
  lemma ReechoIsStoredInk(paper: Paper, born: int, steps: seq<Step>, key: string, strokes: seq<Stroke>, now: int,
                          payload: map<string, seq<Stroke>>)
    requires Follows(steps, payload) && Follows([AddStrokes(key, strokes, now)], payload)
    ensures
      var t := Run(Fresh(paper, born), steps);
      var (u, echo) := AfterBatch(t, key, strokes, now);
      forall i :: 0 <= i < |t.batches| && t.batches[i].clientBatchId == key ==>
        u == t && echo.seqNo == i + 1 && echo.revision == t.batches[i].revision
        && echo.visibleStrokes == Surviving(t.batches[i].strokes, t.tombstones.Keys)
  {
    var t := Run(Fresh(paper, born), steps);
    FreshIsSound(paper, born);
    RunIsSound(Fresh(paper, born), steps);
    RowsCarryRun(Fresh(paper, born), steps, payload);
    assert [AddStrokes(key, strokes, now)][0] == AddStrokes(key, strokes, now);
    forall i | 0 <= i < |t.batches| && t.batches[i].clientBatchId == key
      ensures FindBatch(t.batches, key) == Some(t.batches[i])
    {
      FoundAt(t, key, i);
    }
  }

  /** The strokes of the add that stored a row under the key, if one did: the
      first that had a stroke not erased by then. */
  function FirstPayload(t: Tables, steps: seq<Step>, key: string): Option<seq<Stroke>>
    decreases |steps|
  {
    if steps == [] then None
    else if steps[0].AddStrokes? && steps[0].key == key && Surviving(steps[0].strokes, t.tombstones.Keys) != [] then
      Some(steps[0].strokes)
    else FirstPayload(Apply(t, steps[0]), steps[1..], key)
  }

  /** A stored row and a payload that show the same ink do so ever after. */
  lemma StillShowsAlike(t: Tables, u: Tables, payload: seq<Stroke>, strokes: seq<Stroke>)
    requires Later(t, u) && Surviving(payload, t.tombstones.Keys) == Surviving(strokes, t.tombstones.Keys)
    ensures Surviving(payload, u.tombstones.Keys) == Surviving(strokes, u.tombstones.Keys)
  {
    SurvivingTwice(payload, t.tombstones.Keys, u.tombstones.Keys);
    SurvivingTwice(strokes, t.tombstones.Keys, u.tombstones.Keys);
    assert t.tombstones.Keys + u.tombstones.Keys == u.tombstones.Keys;
  }

  lemma {:induction false} FoundFirst(rows: seq<BatchRow>, row: BatchRow, more: seq<BatchRow>)
    requires FindBatch(rows, row.clientBatchId).None?
    ensures FindBatch(rows + [row] + more, row.clientBatchId) == Some(row)
  {
    if rows == [] {
      assert [] + [row] + more == [row] + more;
    } else {
      FoundFirst(rows[1..], row, more);
      assert (rows + [row] + more)[1..] == rows[1..] + [row] + more;
    }
  }

  lemma StoresFirst(t: Tables, key: string, strokes: seq<Stroke>, now: int) returns (row: BatchRow)
    requires FindBatch(t.batches, key).None? && Surviving(strokes, t.tombstones.Keys) != []
    ensures var u := AfterBatch(t, key, strokes, now).0;
      && u.batches == t.batches + [row] && u.tombstones == t.tombstones && row.clientBatchId == key
      && Surviving(strokes, u.tombstones.Keys) == Surviving(row.strokes, u.tombstones.Keys)
  {
    var visible := Surviving(strokes, t.tombstones.Keys);
    row := BatchRow(MaxSeq(t.batches) + 1, t.revision + 1, key, visible);
    SurvivingTwice(strokes, t.tombstones.Keys, t.tombstones.Keys);
    assert t.tombstones.Keys + t.tombstones.Keys == t.tombstones.Keys;
  }

  lemma StoredForGood(t: Tables, steps: seq<Step>, key: string)
    requires Sound(t) && steps != [] && steps[0].AddStrokes? && steps[0].key == key
    requires FindBatch(t.batches, key).None? && Surviving(steps[0].strokes, t.tombstones.Keys) != []
    ensures var u := Run(t, steps); var row := FindBatch(u.batches, key);
      row.Some? && Surviving(steps[0].strokes, u.tombstones.Keys) == Surviving(row.value.strokes, u.tombstones.Keys)
  {
    var stored, u := Apply(t, steps[0]), Run(t, steps);
    var row := StoresFirst(t, key, steps[0].strokes, steps[0].now);
    SoundStep(t, steps[0]);
    RunIsLater(stored, steps[1..]);
    FoundFirst(t.batches, row, u.batches[|stored.batches|..]);
    assert u.batches == t.batches + [row] + u.batches[|stored.batches|..];
    StillShowsAlike(stored, u, steps[0].strokes, row.strokes);
  }

  lemma NothingStored(t: Tables, step: Step, key: string)
    requires FindBatch(t.batches, key).None?
    requires !(step.AddStrokes? && step.key == key && Surviving(step.strokes, t.tombstones.Keys) != [])
    ensures FindBatch(Apply(t, step).batches, key).None?
  {
    FindBatchSpec(t.batches, key);
    FindBatchSpec(Apply(t, step).batches, key);
  }

  /** The row stored under a key, if there is one, shows today what is left of its
      first payload. */
  lemma {:induction false} RowShowsFirstPayload(t: Tables, steps: seq<Step>, key: string)
    requires Sound(t) && FindBatch(t.batches, key).None?
    ensures var u := Run(t, steps);
      var payload, row := FirstPayload(t, steps, key), FindBatch(u.batches, key);
      && (payload.Some? <==> row.Some?)
      && (row.Some? ==>
            Surviving(payload.value, u.tombstones.Keys) == Surviving(row.value.strokes, u.tombstones.Keys))
    decreases |steps|
  {
    if steps != [] {
      if steps[0].AddStrokes? && steps[0].key == key && Surviving(steps[0].strokes, t.tombstones.Keys) != [] {
        StoredForGood(t, steps, key);
      } else {
        NothingStored(t, steps[0], key);
        SoundStep(t, steps[0]);
        RowShowsFirstPayload(Apply(t, steps[0]), steps[1..], key);
      }
    }
  }

  /** Exactly when a retry's echo is the stored ink, with no hypothesis on keys:
      when its strokes and the key's first payload are the same once today's
      erased ids are removed. */
  lemma ReechoAgreesIff(paper: Paper, born: int, steps: seq<Step>, key: string, strokes: seq<Stroke>, now: int)
    ensures
      var t := Run(Fresh(paper, born), steps);
      var (u, echo) := AfterBatch(t, key, strokes, now);
      var payload := FirstPayload(Fresh(paper, born), steps, key);
      forall i :: 0 <= i < |t.batches| && t.batches[i].clientBatchId == key ==>
        && u == t && echo.seqNo == i + 1 && payload.Some?
        && (echo.visibleStrokes == Surviving(t.batches[i].strokes, t.tombstones.Keys)
            <==> Surviving(strokes, t.tombstones.Keys) == Surviving(payload.value, t.tombstones.Keys))
  {
    var t := Run(Fresh(paper, born), steps);
    FreshIsSound(paper, born);
    RunIsSound(Fresh(paper, born), steps);
    RowShowsFirstPayload(Fresh(paper, born), steps, key);
    forall i | 0 <= i < |t.batches| && t.batches[i].clientBatchId == key
      ensures FindBatch(t.batches, key) == Some(t.batches[i])
    {
      FoundAt(t, key, i);
    }
  }

  /** The payload hypothesis is needed: one key sent again with another stroke
      is echoed with the new stroke under the old seq, which no replay carries. */
  lemma ReechoCanDisagree(stored: Stroke, other: Stroke)
    requires stored.id != other.id
    ensures
      var t := Run(Fresh(BlankPaper, 0), [AddStrokes("k", [stored], 0)]);
      var (u, echo) := AfterBatch(t, "k", [other], 1);
      u == t && echo.seqNo == 1 && echo.visibleStrokes == [other]
      && BatchesAfter(u.batches, 0) == [StrokeBatch(1, "k", [stored])]
  {
    var born := Fresh(BlankPaper, 0);
    var t := Apply(born, AddStrokes("k", [stored], 0));
    SurvivingAll([stored], born.tombstones.Keys);
    SurvivingAll([other], born.tombstones.Keys);
    assert t.batches == [BatchRow(1, 1, "k", [stored])];
    assert Run(Fresh(BlankPaper, 0), [AddStrokes("k", [stored], 0)]) == Run(t, []);
  }

  // ---- Renders ------------------------------------------------------------

  /** How the last render of a revision among these steps ended, if one did. */
  function LastRender(steps: seq<Step>, revision: nat): Option<bool>
    decreases |steps|
  {
    if steps == [] then None
    else
      var later := LastRender(steps[1..], revision);
      if later.Some? then later
      else if steps[0].RenderEnded? && steps[0].revision == revision then Some(steps[0].ok)
      else None
  }

  /** A thumbnail row says how its last render ended: available if it succeeded,
      failed if not, and what it said before if none ended. */
  lemma {:induction false} JobTellsItsRenders(t: Tables, steps: seq<Step>, revision: nat)
    requires Sound(t) && revision in t.jobs && revision in Run(t, steps).jobs
    ensures Run(t, steps).jobs[revision].status
         == match LastRender(steps, revision)
            case Some(ok) => if ok then Available else Failed
            case None => t.jobs[revision].status
    decreases |steps|
  {
    if steps != [] {
      var u := Apply(t, steps[0]);
      SoundStep(t, steps[0]);
      RunIsLater(u, steps[1..]);
      JobTellsItsRenders(u, steps[1..], revision);
      StepTellsTheRender(t, steps[0], revision);
    }
  }

  lemma StepTellsTheRender(t: Tables, step: Step, revision: nat)
    requires Sound(t) && revision in t.jobs && revision in Apply(t, step).jobs
    ensures Apply(t, step).jobs[revision].status
         == if step.RenderEnded? && step.revision == revision then (if step.ok then Available else Failed)
            else t.jobs[revision].status
  {
  }

  // ---- Retention ----------------------------------------------------------

  lemma {:induction false} MaxExists(s: set<nat>) returns (m: nat)
    requires s != {}
    ensures m in s && forall x :: x in s ==> x <= m
  {
    var x :| x in s;
    if s == {x} {
      m := x;
    } else {
      var rest := s - {x};
      assert s == rest + {x};
      var other := MaxExists(rest);
      m := if other > x then other else x;
      forall y | y in s ensures y <= m {
        if y != x { assert y in rest; }
      }
    }
  }

  lemma NewestOfRest(s: set<nat>, m: nat, n: nat)
    requires n > 0 && m in s && forall x :: x in s ==> x <= m
    ensures Newest(s, n) == Newest(s - {m}, n - 1) + {m}
  {
    assert Above(s, m) == {};
    forall r | r in s - {m} ensures |Above(s, r)| == |Above(s - {m}, r)| + 1 {
      assert Above(s, r) == Above(s - {m}, r) + {m};
    }
  }

  lemma {:induction false} NewestCount(s: set<nat>, n: nat)
    ensures |Newest(s, n)| == Min(n, |s|)
    decreases n
  {
    if n == 0 || s == {} {
      assert Newest(s, n) == {};
    } else {
      var m := MaxExists(s);
      NewestOfRest(s, m, n);
      NewestCount(s - {m}, n - 1);
      assert m !in Newest(s - {m}, n - 1);
    }
  }

  lemma Smaller(a: set<nat>, b: set<nat>)
    requires a < b
    ensures |a| < |b|
  {
    assert |b| == |a| + |b - a| by { assert b == a + (b - a); }
  }

  /** `Newest` is `ORDER BY ... DESC LIMIT n`: as many as there are, up to n,
      and each of them above everything left out. */
  lemma NewestTakesTheTop(s: set<nat>, n: nat, kept: nat, dropped: nat)
    requires kept in Newest(s, n) && dropped in s && dropped !in Newest(s, n)
    ensures kept > dropped
  {
    if kept < dropped {
      assert dropped in Above(s, kept) && dropped !in Above(s, dropped);
      assert Above(s, dropped) < Above(s, kept);
      Smaller(Above(s, dropped), Above(s, kept));
    }
  }

  /** Cleanup keeps exactly the head row and the ten newest recent others, says
      nothing new about any row it keeps, and touches no other table. */
  lemma CleanupKeepsTheNewest(t: Tables, now: int)
    requires Sound(t)
    ensures var u := AfterCleanup(t, now);
      && u == t.(jobs := u.jobs)
      && (forall r :: r in u.jobs ==> r in t.jobs && u.jobs[r] == t.jobs[r])
      && u.jobs.Keys - {t.revision} == Newest(Recent(t, now), RETAINED)
      && (t.revision in u.jobs <==> t.revision > 0)
  {
    NewestCount(Recent(t, now), RETAINED);
  }

  lemma CleanupKeepsExactly(t: Tables, now: int)
    requires Sound(t)
    ensures var u := AfterCleanup(t, now);
      && u == t.(jobs := u.jobs)
      && (forall r :: r in u.jobs ==> r in t.jobs && u.jobs[r] == t.jobs[r])
      && u.jobs.Keys - {t.revision} == Newest(Recent(t, now), RETAINED)
      && |u.jobs.Keys - {t.revision}| == Min(RETAINED, |Recent(t, now)|)
      && (t.revision in u.jobs <==> t.revision > 0)
      && (forall kept, dropped ::
            kept in u.jobs && kept != t.revision && dropped in Recent(t, now) && dropped !in u.jobs
            ==> kept > dropped)
  {
    var u := AfterCleanup(t, now);
    var recent := Recent(t, now);
    CleanupKeepsTheNewest(t, now);
    NewestCount(recent, RETAINED);
    forall kept, dropped | kept in Newest(recent, RETAINED) && dropped in recent && dropped !in Newest(recent, RETAINED)
      ensures kept > dropped
    {
      NewestTakesTheTop(recent, RETAINED, kept, dropped);
    }
  }

  /** A row that is not the head's and at most seven days old. */
  predicate IsRecent(t: Tables, r: nat, now: int) {
    r in t.jobs && r != t.revision && t.jobs[r].createdAt >= now - 604_800_000
  }

  /** So a row stays exactly if it is the head's, or recent with fewer than ten
      recent ones above it. */
  lemma KeptIff(t: Tables, now: int, r: nat)
    requires r in t.jobs
    ensures r in AfterCleanup(t, now).jobs
       <==> r == t.revision
            || (IsRecent(t, r, now) && |set other | other in t.jobs && other > r && IsRecent(t, other, now)| < 10)
  {
    assert Above(Recent(t, now), r) == set other | other in t.jobs && other > r && IsRecent(t, other, now);
  }
}
