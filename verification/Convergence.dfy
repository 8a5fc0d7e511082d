/** Why a viewer ends up showing what the server stores: what pending messages
    must carry, and that applying them then gives exactly the page. */
module Convergence {
  import opened Protocol
  import opened Store
  import opened Viewer
  import opened Dispatch
  import opened History
  import Replay

  // ---- What a message brings ----------------------------------------------

  function Carried(m: PageServerMessage): seq<StrokeBatch> {
    match m
    case LiveBatch(batch) => [batch]
    case PageReplay(_, batches, _) => batches
    case _ => []
  }

  function Erases(m: PageServerMessage): set<string> {
    match m
    case LiveTombstones(tombstones) => ToSet(tombstones.strokeIds)
    case PageReplay(_, _, tombstones) => TombstonedIds(tombstones)
    case _ => {}
  }

  function CursorOf(m: PageServerMessage): nat {
    match m
    case LiveBatch(batch) => batch.seqNo
    case PageReplay(lastSeq, _, _) => lastSeq
    case Synced(lastSeq) => lastSeq
    case _ => 0
  }

  ghost function SeqsIn(messages: seq<PageServerMessage>): set<nat> {
    if messages == [] then {} else Seqs(Carried(messages[0])) + SeqsIn(messages[1..])
  }

  function ErasedIn(messages: seq<PageServerMessage>): set<string> {
    if messages == [] then {} else Erases(messages[0]) + ErasedIn(messages[1..])
  }

  function FinalPaper(paper: Paper, messages: seq<PageServerMessage>): Paper
    decreases |messages|
  {
    if messages == [] then paper else FinalPaper(NextPaper(paper, messages[0]), messages[1..])
  }

  lemma AppliedShape(feed: Feed, m: PageServerMessage)
    ensures Applied(feed, m).batches == Retained(InsertedAll(feed.batches, Carried(m)), Erases(m))
    ensures Applied(feed, m).paper == NextPaper(feed.paper, m)
    ensures
      if m.Welcome? then Applied(feed, m).lastSeq <= feed.lastSeq
      else Applied(feed, m).lastSeq == Max(feed.lastSeq, CursorOf(m))
  {
    if m.LiveBatch? {
      assert InsertedAll(feed.batches, [m.batch]) == Inserted(feed.batches, m.batch);
      Replay.RetainedNothing(Inserted(feed.batches, m.batch));
    } else if !m.PageReplay? {
      Replay.RetainedNothing(feed.batches);
    }
  }

  lemma {:induction false} Concats(a: seq<PageServerMessage>, b: seq<PageServerMessage>, paper: Paper)
    ensures SeqsIn(a + b) == SeqsIn(a) + SeqsIn(b)
    ensures ErasedIn(a + b) == ErasedIn(a) + ErasedIn(b)
    ensures FinalPaper(paper, a + b) == FinalPaper(FinalPaper(paper, a), b)
    decreases |a|
  {
    if a == [] {
      assert a + b == b;
    } else {
      assert (a + b)[1..] == a[1..] + b;
      Concats(a[1..], b, NextPaper(paper, a[0]));
    }
  }

  lemma {:induction false} SeqsByIndex(items: seq<StrokeBatch>)
    ensures forall s :: s in Seqs(items) <==> exists i :: 0 <= i < |items| && items[i].seqNo == s
  {
    if items != [] {
      SeqsByIndex(items[1..]);
      forall s | s in Seqs(items) ensures exists i :: 0 <= i < |items| && items[i].seqNo == s {
        if s != items[0].seqNo {
          assert s in Seqs(items[1..]);
          var i :| 0 <= i < |items[1..]| && items[1..][i].seqNo == s;
          assert items[i + 1].seqNo == s;
        }
      }
      forall i | 0 <= i < |items| ensures items[i].seqNo in Seqs(items) {
        if i > 0 { assert items[1..][i - 1].seqNo in Seqs(items[1..]); }
      }
    }
  }

  lemma {:induction false} SeqsOfInserted(items: seq<StrokeBatch>, batch: StrokeBatch)
    ensures Seqs(Inserted(items, batch)) == Seqs(items) + {batch.seqNo}
  {
    if items != [] && items[0].seqNo < batch.seqNo { SeqsOfInserted(items[1..], batch); }
  }

  lemma {:induction false} SeqsOfInsertedAll(items: seq<StrokeBatch>, batches: seq<StrokeBatch>)
    ensures Seqs(InsertedAll(items, batches)) == Seqs(items) + Seqs(batches)
    decreases |batches|
  {
    if batches != [] {
      SeqsOfInserted(items, batches[0]);
      SeqsOfInsertedAll(Inserted(items, batches[0]), batches[1..]);
    }
  }

  lemma {:induction false} SeqsOfRetained(items: seq<StrokeBatch>, gone: set<string>)
    ensures Seqs(Retained(items, gone)) == Seqs(items)
  {
    if items != [] {
      SeqsOfRetained(items[1..], gone);
      assert Retained(items, gone)[1..] == Retained(items[1..], gone);
    }
  }

  lemma {:induction false} InsertedAllMembers(items: seq<StrokeBatch>, batches: seq<StrokeBatch>)
    requires Ascending(items)
    ensures Ascending(InsertedAll(items, batches))
    ensures forall b :: b in InsertedAll(items, batches) ==> b in items || b in batches
    decreases |batches|
  {
    if batches != [] {
      InsertedSpec(items, batches[0]);
      InsertedAllMembers(Inserted(items, batches[0]), batches[1..]);
    }
  }

  // ---- What may be pending ------------------------------------------------

  /** The batch is a stored one: its row's seq and key, and the row's ink but
      perhaps for strokes erased since. */
  ghost predicate Matches(b: StrokeBatch, t: Tables) {
    && 1 <= b.seqNo <= |t.batches|
    && b.clientBatchId == t.batches[b.seqNo - 1].clientBatchId
    && Surviving(b.strokes, t.tombstones.Keys) == Surviving(t.batches[b.seqNo - 1].strokes, t.tombstones.Keys)
  }

  /** Every stroke here that the page has erased is among `cover`. */
  ghost predicate Covered(b: StrokeBatch, gone: set<string>, cover: set<string>) {
    forall s :: s in b.strokes && s.id in gone ==> s.id in cover
  }

  /** Messages whose batches are stored ones, and whose erased strokes are erased
      by the same message or by a later one. */
  ghost predicate Deliverable(messages: seq<PageServerMessage>, t: Tables) {
    messages == [] ||
    (&& (forall b :: b in Carried(messages[0]) ==>
           Matches(b, t) && Covered(b, t.tombstones.Keys, Erases(messages[0]) + ErasedIn(messages[1..])))
     && Erases(messages[0]) <= t.tombstones.Keys
     && CursorOf(messages[0]) <= |t.batches|
     && Deliverable(messages[1..], t))
  }

  ghost predicate AllMatch(items: seq<StrokeBatch>, t: Tables) {
    Ascending(items) && forall b :: b in items ==> Matches(b, t)
  }

  ghost predicate Complete(seqs: set<nat>, head: nat) {
    forall s: nat :: 1 <= s <= head ==> s in seqs
  }

  /** A viewer that the pending messages bring to the page as stored. */
  ghost predicate Converging(feed: Feed, pending: seq<PageServerMessage>, t: Tables) {
    && AllMatch(feed.batches, t)
    && Deliverable(pending, t)
    && (forall b :: b in feed.batches ==> Covered(b, t.tombstones.Keys, ErasedIn(pending)))
    && Complete(Seqs(feed.batches) + SeqsIn(pending), |t.batches|)
    && FinalPaper(feed.paper, pending) == t.paper
  }

  /** The page as the server stores it: every batch in seq order, without the
      strokes erased. */
  function Projection(t: Tables): seq<StrokeBatch> {
    seq(|t.batches|, i requires 0 <= i < |t.batches| =>
      StrokeBatch(i + 1, t.batches[i].clientBatchId, Surviving(t.batches[i].strokes, t.tombstones.Keys)))
  }

  lemma TrimmedStillMatches(b: StrokeBatch, t: Tables, gone: set<string>)
    requires Matches(b, t) && gone <= t.tombstones.Keys
    ensures Matches(Trimmed(b, gone), t)
  {
    SurvivingTwice(b.strokes, gone, t.tombstones.Keys);
    assert gone + t.tombstones.Keys == t.tombstones.Keys;
  }

  lemma TrimmedIsCovered(b: StrokeBatch, gone: set<string>, erased: set<string>, cover: set<string>)
    requires Covered(b, gone, erased + cover)
    ensures Covered(Trimmed(b, erased), gone, cover)
  {
    SurvivingMembers(b.strokes, erased);
  }

  lemma RetainedMembers(items: seq<StrokeBatch>, gone: set<string>)
    ensures forall b :: b in Retained(items, gone) ==> exists a :: a in items && b == Trimmed(a, gone)
  {
    RetainedSpec(items, gone);
    forall b | b in Retained(items, gone) ensures exists a :: a in items && b == Trimmed(a, gone) {
      var i :| 0 <= i < |items| && Retained(items, gone)[i] == b;
      assert items[i] in items;
    }
  }

  lemma MergedMatch(items: seq<StrokeBatch>, batches: seq<StrokeBatch>, t: Tables)
    requires AllMatch(items, t) && forall b :: b in batches ==> Matches(b, t)
    ensures AllMatch(InsertedAll(items, batches), t)
  {
    InsertedAllMembers(items, batches);
  }

  lemma RetainedMatch(items: seq<StrokeBatch>, gone: set<string>, t: Tables)
    requires AllMatch(items, t) && gone <= t.tombstones.Keys
    ensures AllMatch(Retained(items, gone), t)
  {
    RetainedSpec(items, gone);
    RetainedMembers(items, gone);
    forall b | b in Retained(items, gone) ensures Matches(b, t) {
      var a :| a in items && b == Trimmed(a, gone);
      TrimmedStillMatches(a, t, gone);
    }
  }

  /** Any deliverable message keeps a viewer's batches stored ones. */
  lemma ApplyKeepsMatch(feed: Feed, m: PageServerMessage, rest: seq<PageServerMessage>, t: Tables)
    requires AllMatch(feed.batches, t) && Deliverable([m] + rest, t)
    ensures AllMatch(Applied(feed, m).batches, t)
  {
    assert ([m] + rest)[0] == m;
    AppliedShape(feed, m);
    MergedMatch(feed.batches, Carried(m), t);
    RetainedMatch(InsertedAll(feed.batches, Carried(m)), Erases(m), t);
  }

  lemma MergedCovered(items: seq<StrokeBatch>, batches: seq<StrokeBatch>, gone: set<string>, cover: set<string>)
    requires Ascending(items)
    requires forall b :: b in items ==> Covered(b, gone, cover)
    requires forall b :: b in batches ==> Covered(b, gone, cover)
    ensures forall b :: b in InsertedAll(items, batches) ==> Covered(b, gone, cover)
  {
    InsertedAllMembers(items, batches);
  }

  lemma RetainedCovered(items: seq<StrokeBatch>, gone: set<string>, erased: set<string>, cover: set<string>)
    requires forall b :: b in items ==> Covered(b, gone, erased + cover)
    ensures forall b :: b in Retained(items, erased) ==> Covered(b, gone, cover)
  {
    RetainedMembers(items, erased);
    forall b | b in Retained(items, erased) ensures Covered(b, gone, cover) {
      var a :| a in items && b == Trimmed(a, erased);
      TrimmedIsCovered(a, gone, erased, cover);
    }
  }

  /** What is held or brought is erased from by the message or by a later one. */
  lemma ApplyKeepsCover(feed: Feed, m: PageServerMessage, rest: seq<PageServerMessage>, t: Tables)
    requires Ascending(feed.batches) && Deliverable([m] + rest, t)
    requires forall b :: b in feed.batches ==> Covered(b, t.tombstones.Keys, ErasedIn([m] + rest))
    ensures forall b :: b in Applied(feed, m).batches ==> Covered(b, t.tombstones.Keys, ErasedIn(rest))
  {
    assert ([m] + rest)[0] == m && ([m] + rest)[1..] == rest;
    AppliedShape(feed, m);
    MergedCovered(feed.batches, Carried(m), t.tombstones.Keys, Erases(m) + ErasedIn(rest));
    RetainedCovered(InsertedAll(feed.batches, Carried(m)), t.tombstones.Keys, Erases(m), ErasedIn(rest));
  }

  lemma ApplyAddsSeqs(feed: Feed, m: PageServerMessage)
    ensures Seqs(Applied(feed, m).batches) == Seqs(feed.batches) + Seqs(Carried(m))
  {
    AppliedShape(feed, m);
    SeqsOfInsertedAll(feed.batches, Carried(m));
    SeqsOfRetained(InsertedAll(feed.batches, Carried(m)), Erases(m));
  }

  lemma ConvergingStep(feed: Feed, m: PageServerMessage, rest: seq<PageServerMessage>, t: Tables)
    requires Converging(feed, [m] + rest, t)
    ensures Converging(Applied(feed, m), rest, t)
  {
    ApplyKeepsMatch(feed, m, rest, t);
    ApplyKeepsCover(feed, m, rest, t);
    ApplyAddsSeqs(feed, m);
    AppliedShape(feed, m);
    assert ([m] + rest)[0] == m && ([m] + rest)[1..] == rest;
    assert Seqs(Applied(feed, m).batches) + SeqsIn(rest) == Seqs(feed.batches) + SeqsIn([m] + rest);
  }

  lemma TopIsLast(items: seq<StrokeBatch>, n: nat)
    requires Ascending(items) && n in Seqs(items)
    requires forall i :: 0 <= i < |items| ==> items[i].seqNo <= n
    ensures items != [] && items[|items| - 1].seqNo == n
  {
    SeqsByIndex(items);
    var k :| 0 <= k < |items| && items[k].seqNo == n;
    assert k == |items| - 1;
  }

  lemma WithoutTop(items: seq<StrokeBatch>, n: nat)
    requires items != [] && items[|items| - 1].seqNo == n && Complete(Seqs(items), n)
    ensures n > 0 ==> Complete(Seqs(items[..|items| - 1]), n - 1)
  {
    SeqsByIndex(items);
    var less := items[..|items| - 1];
    SeqsByIndex(less);
    forall s: nat | 1 <= s <= n - 1 ensures s in Seqs(less) {
      assert s in Seqs(items);
      var i :| 0 <= i < |items| && items[i].seqNo == s;
      assert less[i].seqNo == s;
    }
  }

  lemma {:induction false} FullAscending(items: seq<StrokeBatch>, n: nat)
    requires Ascending(items)
    requires forall i :: 0 <= i < |items| ==> 1 <= items[i].seqNo <= n
    requires Complete(Seqs(items), n)
    ensures |items| == n && forall i :: 0 <= i < n ==> items[i].seqNo == i + 1
    decreases n
  {
    if n > 0 {
      TopIsLast(items, n);
      WithoutTop(items, n);
      FullAscending(items[..|items| - 1], n - 1);
    }
  }

  /** Nothing pending: the viewer shows the page. */
  lemma Converged(feed: Feed, t: Tables)
    requires Converging(feed, [], t)
    ensures feed.batches == Projection(t) && feed.paper == t.paper
  {
    var items := feed.batches;
    forall i | 0 <= i < |items|
      ensures Matches(items[i], t) && items[i].strokes == Surviving(items[i].strokes, t.tombstones.Keys)
    {
      assert items[i] in items;
      assert Covered(items[i], t.tombstones.Keys, {});
      SurvivingAll(items[i].strokes, t.tombstones.Keys);
    }
    assert Seqs(items) + SeqsIn([]) == Seqs(items);
    FullAscending(items, |t.batches|);
  }

  /** Folding every pending message into the viewer gives exactly the stored
      batches in seq order minus the erased strokes, and the current paper. */
  lemma {:induction false} PendingMakesThePage(feed: Feed, pending: seq<PageServerMessage>, t: Tables)
    requires Converging(feed, pending, t)
    ensures AppliedAll(feed, pending).batches == Projection(t) && AppliedAll(feed, pending).paper == t.paper
    decreases |pending|
  {
    if pending == [] {
      Converged(feed, t);
    } else {
      assert pending == [pending[0]] + pending[1..];
      ConvergingStep(feed, pending[0], pending[1..], t);
      PendingMakesThePage(Applied(feed, pending[0]), pending[1..], t);
    }
  }
}
