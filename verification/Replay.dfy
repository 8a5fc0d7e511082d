/** The two wire shapes of a replay mean the same to a viewer. */
module Replay {
  import opened Protocol
  import opened Store
  import opened Viewer
  import opened Dispatch
  import History

  function HighestSeq(batches: seq<StrokeBatch>): nat {
    if batches == [] then 0 else Max(batches[0].seqNo, HighestSeq(batches[1..]))
  }

  lemma {:induction false} BatchFramesApplied(feed: Feed, batches: seq<StrokeBatch>)
    ensures var f := AppliedAll(feed, BatchFrames(batches));
      && f.batches == InsertedAll(feed.batches, batches)
      && f.lastSeq == Max(feed.lastSeq, HighestSeq(batches))
      && f.paper == feed.paper
    decreases |batches|
  {
    if batches != [] {
      BatchFramesApplied(Applied(feed, LiveBatch(batches[0])), batches[1..]);
      assert BatchFrames(batches)[1..] == BatchFrames(batches[1..]);
    }
  }

  lemma {:induction false} RetainedTwice(items: seq<StrokeBatch>, a: set<string>, b: set<string>)
    ensures Retained(Retained(items, a), b) == Retained(items, a + b)
  {
    if items != [] {
      RetainedTwice(items[1..], a, b);
      SurvivingTwice(items[0].strokes, a, b);
      assert Retained(items, a)[1..] == Retained(items[1..], a);
    }
  }

  lemma {:induction false} RetainedNothing(items: seq<StrokeBatch>)
    ensures Retained(items, {}) == items
  {
    if items != [] {
      SurvivingAll(items[0].strokes, {});
      RetainedNothing(items[1..]);
    }
  }

  lemma {:induction false} TombstoneFramesApplied(feed: Feed, tombstones: seq<TombstoneBatch>)
    ensures var f := AppliedAll(feed, TombstoneFrames(tombstones));
      && f.batches == Retained(feed.batches, TombstonedIds(tombstones))
      && f.lastSeq == feed.lastSeq && f.paper == feed.paper
    decreases |tombstones|
  {
    if tombstones == [] {
      RetainedNothing(feed.batches);
    } else {
      var ids := ToSet(tombstones[0].strokeIds);
      TombstoneFramesApplied(Applied(feed, LiveTombstones(tombstones[0])), tombstones[1..]);
      assert TombstoneFrames(tombstones)[1..] == TombstoneFrames(tombstones[1..]);
      RetainedTwice(feed.batches, ids, TombstonedIds(tombstones[1..]));
    }
  }

  lemma {:induction false} SameSeqs(batches: seq<StrokeBatch>, gone: set<string>)
    ensures HighestSeq(Retained(batches, gone)) == HighestSeq(batches)
  {
    if batches != [] {
      SameSeqs(batches[1..], gone);
      assert Retained(batches, gone)[1..] == Retained(batches[1..], gone);
    }
  }

  /** What each shape of a replay makes of a viewer. */
  lemma ShapesApplied(feed: Feed, lastSeq: nat, batches: seq<StrokeBatch>, tombstones: seq<TombstoneBatch>)
    ensures
      var one := AppliedAll(feed, ReplayMessages(true, lastSeq, batches, tombstones));
      var many := AppliedAll(feed, ReplayMessages(false, lastSeq, batches, tombstones));
      && one.batches == many.batches && one.status == many.status == CaughtUp
      && one.error == many.error && one.paper == many.paper
      && one.lastSeq == Max(feed.lastSeq, lastSeq)
      && many.lastSeq == Max(Max(feed.lastSeq, HighestSeq(batches)), lastSeq)
  {
    var gone := TombstonedIds(tombstones);
    var kept := Retained(batches, gone);
    SameSeqs(batches, gone);
    BatchFramesApplied(feed, kept);
    var middle := AppliedAll(feed, BatchFrames(kept));
    TombstoneFramesApplied(middle, tombstones);
    var end := AppliedAll(middle, TombstoneFrames(tombstones));
    AppliedAllConcat(feed, BatchFrames(kept), TombstoneFrames(tombstones));
    AppliedAllConcat(feed, BatchFrames(kept) + TombstoneFrames(tombstones), [Synced(lastSeq)]);
    assert AppliedAll(end, [Synced(lastSeq)]) == Applied(end, Synced(lastSeq));
    var replay := BuildReplay(lastSeq, batches, tombstones);
    assert AppliedAll(feed, [replay]) == Applied(feed, replay);
  }

  /** From any viewer state, the coalesced replay and the frame-per-batch one,
      built from the same reads, end in the same ink, status, error and paper;
      and in the same cursor exactly when the head sent with them is not below
      both the batches and the cursor. */
  lemma CoalescedRefinesFrames(
      feed: Feed, lastSeq: nat, batches: seq<StrokeBatch>, tombstones: seq<TombstoneBatch>)
    ensures
      var one := AppliedAll(feed, ReplayMessages(true, lastSeq, batches, tombstones));
      var many := AppliedAll(feed, ReplayMessages(false, lastSeq, batches, tombstones));
      && one.batches == many.batches && one.status == many.status == CaughtUp
      && one.error == many.error && one.paper == many.paper
      && (one.lastSeq == many.lastSeq <==> HighestSeq(batches) <= Max(feed.lastSeq, lastSeq))
  {
    ShapesApplied(feed, lastSeq, batches, tombstones);
  }

  /** With the reads the server really makes, the head read no earlier than the
      batches, the cursors agree too. */
  lemma ReadsAgreeOnTheCursor(feed: Feed, t: Tables, u: Tables, fromSeq: nat, coalesce: bool)
    requires History.Sound(t) && History.Sound(u) && History.Later(t, u)
    ensures
      var batches := BatchesAfter(t.batches, fromSeq);
      AppliedAll(feed, ReplayMessages(true, MaxSeq(u.batches), batches, t.erasures))
      == AppliedAll(feed, ReplayMessages(false, MaxSeq(u.batches), batches, t.erasures))
  {
    var batches := BatchesAfter(t.batches, fromSeq);
    History.MaxSeqIsCount(u.batches);
    ReadBelowHead(t.batches, fromSeq, |t.batches|);
    CoalescedRefinesFrames(feed, MaxSeq(u.batches), batches, t.erasures);
  }

  lemma {:induction false} TrimmedOfErased(batches: seq<StrokeBatch>, gone: set<string>, b: StrokeBatch, s: Stroke)
    requires b in Retained(batches, gone) && s in b.strokes
    ensures s.id !in gone
  {
    if b == Trimmed(batches[0], gone) {
      SurvivingMembers(batches[0].strokes, gone);
    } else {
      TrimmedOfErased(batches[1..], gone, b, s);
    }
  }

  /** Neither shape of a replay carries ink that the tombstones it was read with
      erase. */
  lemma ReplayCarriesNoErasedInk(
      coalesce: bool, lastSeq: nat, batches: seq<StrokeBatch>, tombstones: seq<TombstoneBatch>,
      m: PageServerMessage, s: Stroke)
    requires m in ReplayMessages(coalesce, lastSeq, batches, tombstones)
    requires (m.LiveBatch? && s in m.batch.strokes)
             || (m.PageReplay? && exists b :: b in m.batches && s in b.strokes)
    ensures s.id !in TombstonedIds(tombstones)
  {
    var gone := TombstonedIds(tombstones);
    var kept := Retained(batches, gone);
    if m.PageReplay? {
      var b :| b in m.batches && s in b.strokes;
      PageReplayIsOnlyCoalesced(coalesce, lastSeq, batches, tombstones, m);
      TrimmedOfErased(batches, gone, b, s);
    } else {
      FrameCounts(kept, tombstones);
      var i :| 0 <= i < |kept| + |tombstones| + 1 && ReplayMessages(coalesce, lastSeq, batches, tombstones)[i] == m;
      assert i < |kept| && m.batch == kept[i];
      TrimmedOfErased(batches, gone, m.batch, s);
    }
  }

  lemma PageReplayIsOnlyCoalesced(
      coalesce: bool, lastSeq: nat, batches: seq<StrokeBatch>, tombstones: seq<TombstoneBatch>, m: PageServerMessage)
    requires m in ReplayMessages(coalesce, lastSeq, batches, tombstones) && m.PageReplay?
    ensures coalesce && m == PageReplay(lastSeq, Retained(batches, TombstonedIds(tombstones)), tombstones)
  {
    FrameCounts(Retained(batches, TombstonedIds(tombstones)), tombstones);
  }

  lemma {:induction false} ReadReachesHead(rows: seq<BatchRow>, before: nat, fromSeq: nat)
    requires forall i :: 0 <= i < |rows| ==> rows[i].seqNo == before + i + 1
    ensures HighestSeq(BatchesAfter(rows, fromSeq)) == if fromSeq < before + |rows| &&
      rows != [] then before + |rows| else 0
  {
    if rows != [] {
      ReadReachesHead(rows[1..], before + 1, fromSeq);
      var rest := BatchesAfter(rows[1..], fromSeq);
      if rows[0].seqNo > fromSeq { assert BatchesAfter(rows, fromSeq)[1..] == rest; }
      else { assert BatchesAfter(rows, fromSeq) == rest; }
    }
  }

  /** When the head read fails, the two shapes end in different cursors exactly
      when the page has rows beyond the one asked for and the one held: the frames
      move it to the last row, the one frame only to the cursor asked for. */
  lemma FailedHeadReadSplitsIff(feed: Feed, t: Tables, fromSeq: nat)
    requires History.Sound(t)
    ensures
      var batches := BatchesAfter(t.batches, fromSeq);
      var one := AppliedAll(feed, ReplayMessages(true, fromSeq, batches, t.erasures)).lastSeq;
      var many := AppliedAll(feed, ReplayMessages(false, fromSeq, batches, t.erasures)).lastSeq;
      && one == Max(feed.lastSeq, fromSeq) && many == Max(Max(feed.lastSeq, fromSeq), |t.batches|)
      && (one != many <==> |t.batches| > Max(feed.lastSeq, fromSeq))
  {
    var batches := BatchesAfter(t.batches, fromSeq);
    ReadReachesHead(t.batches, 0, fromSeq);
    ShapesApplied(feed, fromSeq, batches, t.erasures);
  }

  /** One row, a new viewer and a failed head read: cursor 0 in one frame, 1 in
      several. */
  lemma FailedHeadReadCanSplit(a: Stroke)
    ensures
      var t := History.Run(Fresh(BlankPaper, 0), [History.AddStrokes("k", [a], 0)]);
      var batches, viewer := BatchesAfter(t.batches, 0), Opened(BlankPaper);
      && AppliedAll(viewer, ReplayMessages(true, 0, batches, t.erasures)).lastSeq == 0
      && AppliedAll(viewer, ReplayMessages(false, 0, batches, t.erasures)).lastSeq == 1
  {
    var born, step := Fresh(BlankPaper, 0), History.AddStrokes("k", [a], 0);
    var t := History.Apply(born, step);
    SurvivingAll([a], born.tombstones.Keys);
    History.FreshIsSound(BlankPaper, 0);
    History.SoundStep(born, step);
    assert History.Run(born, [step]) == History.Run(t, []);
    FailedHeadReadSplitsIff(Opened(BlankPaper), t, 0);
  }

  lemma {:induction false} ReadBelowHead(rows: seq<BatchRow>, fromSeq: nat, head: nat)
    requires forall i :: 0 <= i < |rows| ==> rows[i].seqNo <= head
    ensures HighestSeq(BatchesAfter(rows, fromSeq)) <= head
  {
    if rows != [] {
      ReadBelowHead(rows[1..], fromSeq, head);
      var rest := BatchesAfter(rows[1..], fromSeq);
      if rows[0].seqNo > fromSeq { assert BatchesAfter(rows, fromSeq)[1..] == rest; }
      else { assert BatchesAfter(rows, fromSeq) == rest; }
    }
  }
}
