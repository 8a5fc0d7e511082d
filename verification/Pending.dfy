/** How the pending messages stay deliverable as the page changes under them. */
module Pending {
  import opened Protocol
  import opened Store
  import opened Viewer
  import opened Hub
  import opened Dispatch
  import opened History
  import opened Convergence

  /** What one commit does to the page and says about it. */
  ghost predicate Announces(t: Tables, u: Tables, told: Option<PageServerMessage>) {
    && t.batches <= u.batches && t.erasures <= u.erasures
    && t.tombstones.Keys <= u.tombstones.Keys
    && if told.None? then
         u.batches == t.batches && u.tombstones.Keys == t.tombstones.Keys && u.paper == t.paper
       else
         && (forall b :: b in Carried(told.value) ==> Matches(b, u) && Covered(b, u.tombstones.Keys, {}))
         && u.tombstones.Keys == t.tombstones.Keys + Erases(told.value)
         && CursorOf(told.value) <= |u.batches|
         && (|u.batches| > |t.batches| ==>
               && |u.batches| == |t.batches| + 1
               && Carried(told.value) != []
               && Carried(told.value)[0].seqNo == |u.batches|)
         && u.paper == NextPaper(t.paper, told.value)
  }

  /** Ink trimmed of what is erased matches its row, and leaves nothing to erase. */
  lemma SurvivorsMatch(t: Tables, i: nat, key: string, strokes: seq<Stroke>)
    requires i < |t.batches| && t.batches[i].seqNo == i + 1 && t.batches[i].clientBatchId == key
    requires Surviving(strokes, t.tombstones.Keys) == Surviving(t.batches[i].strokes, t.tombstones.Keys)
    ensures var b := StrokeBatch(i + 1, key, Surviving(strokes, t.tombstones.Keys));
      Matches(b, t) && Covered(b, t.tombstones.Keys, {})
  {
    SurvivingMembers(strokes, t.tombstones.Keys);
    SurvivingTwice(strokes, t.tombstones.Keys, t.tombstones.Keys);
    assert t.tombstones.Keys + t.tombstones.Keys == t.tombstones.Keys;
  }

  /** A retry of a stored add re-echoes a batch that matches its row. */
  lemma EchoMatches(t: Tables, key: string, strokes: seq<Stroke>, payload: map<string, seq<Stroke>>, now: int)
    requires Sound(t) && RowsCarry(t, payload) && key in payload && payload[key] == strokes
    requires FindBatch(t.batches, key).Some?
    ensures var r := AfterBatch(t, key, strokes, now).1;
      var b := StrokeBatch(r.seqNo, key, r.visibleStrokes);
      Matches(b, t) && Covered(b, t.tombstones.Keys, {})
  {
    FindBatchSpec(t.batches, key);
    var row := FindBatch(t.batches, key).value;
    var i :| 0 <= i < |t.batches| && t.batches[i] == row;
    assert RowCarries(t.batches[i], payload, t.tombstones.Keys);
    SurvivorsMatch(t, i, key, strokes);
  }

  lemma InsertAnnounces(t: Tables, row: BatchRow, u: Tables)
    requires row.seqNo == |t.batches| + 1 && u.batches == t.batches + [row] && u.erasures == t.erasures
    requires u.tombstones == t.tombstones && u.paper == t.paper
    requires forall s :: s in row.strokes ==> s.id !in t.tombstones
    ensures Announces(t, u, Some(LiveBatch(ToBatch(row))))
  {
    var b := ToBatch(row);
    assert u.batches[b.seqNo - 1] == row;
    assert Carried(LiveBatch(b)) == [b];
  }

  lemma RetryAnnounces(t: Tables, key: string, strokes: seq<Stroke>, payload: map<string, seq<Stroke>>, now: int)
    requires Sound(t) && RowsCarry(t, payload) && key in payload && payload[key] == strokes
    requires FindBatch(t.batches, key).Some?
    ensures var (u, told) := Commit(t, AddInk(key, strokes), now); Announces(t, u, told)
  {
    EchoMatches(t, key, strokes, payload, now);
  }

  lemma NewInkAnnounces(t: Tables, key: string, strokes: seq<Stroke>, now: int)
    requires Sound(t) && FindBatch(t.batches, key).None?
    ensures var (u, told) := Commit(t, AddInk(key, strokes), now); Announces(t, u, told)
  {
    var visible := Surviving(strokes, t.tombstones.Keys);
    if visible != [] {
      SurvivingMembers(strokes, t.tombstones.Keys);
      MaxSeqIsCount(t.batches);
      var u := AfterBatch(t, key, strokes, now).0;
      InsertAnnounces(t, BatchRow(|t.batches| + 1, t.revision + 1, key, visible), u);
    }
  }

  lemma AddAnnounces(t: Tables, key: string, strokes: seq<Stroke>, payload: map<string, seq<Stroke>>, now: int)
    requires Sound(t) && RowsCarry(t, payload) && key in payload && payload[key] == strokes
    ensures var (u, told) := Commit(t, AddInk(key, strokes), now); Announces(t, u, told)
  {
    if FindBatch(t.batches, key).Some? {
      RetryAnnounces(t, key, strokes, payload, now);
    } else {
      NewInkAnnounces(t, key, strokes, now);
    }
  }

  lemma RepeatedEraseAnnounces(t: Tables, key: string, ids: seq<string>, now: int)
    requires Sound(t) && FindErasure(t.erasures, key).Some?
    ensures var (u, told) := Commit(t, EraseInk(key, ids), now); Announces(t, u, told)
  {
    FindErasureSpec(t.erasures, key);
    var i :| 0 <= i < |t.erasures| && t.erasures[i] == FindErasure(t.erasures, key).value;
    assert MatchesRow(t.erasures[i], t.tombstones);
  }

  lemma EraseAnnounces(t: Tables, key: string, ids: seq<string>, now: int)
    requires Sound(t)
    ensures var (u, told) := Commit(t, EraseInk(key, ids), now); Announces(t, u, told)
  {
    if FindErasure(t.erasures, key).Some? {
      RepeatedEraseAnnounces(t, key, ids, now);
    } else {
      FreshIdsSpec(ids, t.tombstones.Keys);
    }
  }

  lemma CommitAnnounces(t: Tables, m: Mutation, payload: map<string, seq<Stroke>>, now: int)
    requires Sound(t) && RowsCarry(t, payload)
    requires m.AddInk? ==> m.key in payload && payload[m.key] == m.strokes
    ensures var (u, told) := Commit(t, m, now); Announces(t, u, told)
  {
    match m
    case AddInk(key, strokes) => AddAnnounces(t, key, strokes, payload, now);
    case EraseInk(key, ids) => EraseAnnounces(t, key, ids, now);
    case Repaper(_) =>
  }

  // ---- A retry ------------------------------------------------------------

  lemma {:induction false} FoundErasure(rows: seq<TombstoneBatch>, row: TombstoneBatch)
    requires FindErasure(rows, row.clientMutationId).None?
    ensures FindErasure(rows + [row], row.clientMutationId) == Some(row)
  {
    if rows != [] {
      FoundErasure(rows[1..], row);
      assert (rows + [row])[1..] == rows[1..] + [row];
    } else {
      assert [] + [row] == [row];
    }
  }

  lemma InkRetryTells(t: Tables, key: string, strokes: seq<Stroke>, now: int, later: int)
    ensures var (u, told) := Commit(t, AddInk(key, strokes), now);
      Commit(u, AddInk(key, strokes), later) == (u, told)
  {
    if FindBatch(t.batches, key).None? && Surviving(strokes, t.tombstones.Keys) != [] {
      var row := StoresFirst(t, key, strokes, now);
      var u := AfterBatch(t, key, strokes, now).0;
      FoundFirst(t.batches, row, []);
      assert t.batches + [row] + [] == u.batches;
      assert row == u.batches[|t.batches|] && FindBatch(u.batches, key) == Some(row);
    }
  }

  lemma EraseRetryTells(t: Tables, key: string, ids: seq<string>, now: int, later: int)
    ensures var (u, told) := Commit(t, EraseInk(key, ids), now);
      Commit(u, EraseInk(key, ids), later) == (u, told)
  {
    if FindErasure(t.erasures, key).None? {
      var u := AfterTombstones(t, key, ids, now).0;
      FoundErasure(t.erasures, u.erasures[|t.erasures|]);
    }
  }

  /** A commit tried again, say because its acknowledgement was lost, changes
      nothing more and tells the page's subscribers what the first would have; but
      for a paper, which it finds in force and tells nobody but its asker. */
  lemma RetryTellsAgain(t: Tables, m: Mutation, now: int, later: int)
    ensures var (u, told) := Commit(t, m, now);
      Commit(u, m, later) == (u, if m.Repaper? then None else told)
  {
    match m
    case AddInk(key, strokes) => InkRetryTells(t, key, strokes, now, later);
    case EraseInk(key, ids) => EraseRetryTells(t, key, ids, now, later);
    case Repaper(_) =>
  }

  // ---- As the page changes ------------------------------------------------

  lemma StillMatches(b: StrokeBatch, t: Tables, u: Tables)
    requires Matches(b, t) && t.batches <= u.batches && t.tombstones.Keys <= u.tombstones.Keys
    ensures Matches(b, u)
  {
    var row := t.batches[b.seqNo - 1];
    assert u.batches[b.seqNo - 1] == row;
    SurvivingTwice(b.strokes, t.tombstones.Keys, u.tombstones.Keys);
    SurvivingTwice(row.strokes, t.tombstones.Keys, u.tombstones.Keys);
    assert t.tombstones.Keys + u.tombstones.Keys == u.tombstones.Keys;
  }

  lemma AllStillMatch(items: seq<StrokeBatch>, t: Tables, u: Tables)
    requires AllMatch(items, t) && t.batches <= u.batches && t.tombstones.Keys <= u.tombstones.Keys
    ensures AllMatch(items, u)
  {
    forall b | b in items ensures Matches(b, u) { StillMatches(b, t, u); }
  }

  lemma SaidConcat(a: seq<PageServerMessage>, b: seq<PageServerMessage>, told: Option<PageServerMessage>)
    ensures a + Said(b, told) == Said(a + b, told)
  {
  }

  /** The page changed; what was pending, with the news of the change behind it,
      is deliverable to the page as it is now. */
  lemma {:induction false} NewsKeepsDeliverable(
      pending: seq<PageServerMessage>, t: Tables, u: Tables, told: Option<PageServerMessage>)
    requires Deliverable(pending, t) && Announces(t, u, told)
    ensures Deliverable(Said(pending, told), u)
    ensures ErasedIn(Said(pending, told)) == ErasedIn(pending) + (if told.Some? then Erases(told.value) else {})
    ensures SeqsIn(Said(pending, told)) == SeqsIn(pending) + (if told.Some? then Seqs(Carried(told.value)) else {})
    decreases |pending|
  {
    if pending == [] {
      if told.Some? {
        assert Said(pending, told) == [told.value];
      }
    } else {
      var m, rest := pending[0], pending[1..];
      NewsKeepsDeliverable(rest, t, u, told);
      assert Said(pending, told)[1..] == Said(rest, told);
      forall b | b in Carried(m)
        ensures Matches(b, u) && Covered(b, u.tombstones.Keys, Erases(m) + ErasedIn(Said(rest, told)))
      {
        StillMatches(b, t, u);
      }
    }
  }

  lemma DeliverableCons(m: PageServerMessage, rest: seq<PageServerMessage>, t: Tables)
    requires Deliverable(rest, t) && Erases(m) <= t.tombstones.Keys && CursorOf(m) <= |t.batches|
    requires forall b :: b in Carried(m) ==> Matches(b, t) && Covered(b, t.tombstones.Keys, Erases(m) + ErasedIn(rest))
    ensures Deliverable([m] + rest, t)
    ensures ErasedIn([m] + rest) == Erases(m) + ErasedIn(rest)
  {
    assert ([m] + rest)[0] == m && ([m] + rest)[1..] == rest;
  }

  /** In front of messages that erase everything erased, any stored batch will do. */
  lemma BatchInFront(b: StrokeBatch, rest: seq<PageServerMessage>, t: Tables)
    requires Deliverable(rest, t) && t.tombstones.Keys <= ErasedIn(rest) && Matches(b, t)
    ensures Deliverable([LiveBatch(b)] + rest, t) && ErasedIn([LiveBatch(b)] + rest) == ErasedIn(rest)
  {
    assert Covered(b, t.tombstones.Keys, Erases(LiveBatch(b)) + ErasedIn(rest));
    DeliverableCons(LiveBatch(b), rest, t);
  }

  lemma {:induction false} DropFront(front: seq<PageServerMessage>, back: seq<PageServerMessage>, t: Tables)
    requires Deliverable(front + back, t)
    ensures Deliverable(back, t)
    decreases |front|
  {
    if front == [] {
      assert front + back == back;
    } else {
      assert (front + back)[1..] == front[1..] + back;
      DropFront(front[1..], back, t);
    }
  }

  /** What a message leaves to be erased is still erased by more. */
  lemma SameHeadMoreBehind(m: PageServerMessage, less: seq<PageServerMessage>, more: seq<PageServerMessage>, t: Tables)
    requires Deliverable([m] + less, t) && Deliverable(more, t) && ErasedIn(less) <= ErasedIn(more)
    ensures Deliverable([m] + more, t)
  {
    assert ([m] + less)[0] == m && ([m] + less)[1..] == less;
    forall b | b in Carried(m) ensures Matches(b, t) && Covered(b, t.tombstones.Keys, Erases(m) + ErasedIn(more)) {
      assert Covered(b, t.tombstones.Keys, Erases(m) + ErasedIn(less));
    }
    DeliverableCons(m, more, t);
  }

  lemma ErasedWithMiddle(
      front: seq<PageServerMessage>, middle: seq<PageServerMessage>, back: seq<PageServerMessage>, paper: Paper)
    ensures ErasedIn(front + back) <= ErasedIn(front + middle + back)
  {
    Concats(front, back, paper);
    Concats(front, middle + back, paper);
    Concats(middle, back, paper);
    assert front + (middle + back) == front + middle + back;
  }

  /** More in the middle never uncovers what comes before it. */
  lemma {:induction false} InsertMiddle(
      front: seq<PageServerMessage>, middle: seq<PageServerMessage>, back: seq<PageServerMessage>, t: Tables)
    requires Deliverable(front + back, t) && Deliverable(middle + back, t)
    ensures Deliverable(front + middle + back, t)
    decreases |front|
  {
    if front == [] {
      assert front + middle + back == middle + back && front + back == back;
    } else {
      var m, rest := front[0], front[1..];
      assert front + back == [m] + (rest + back) && (front + back)[1..] == rest + back;
      assert front + middle + back == [m] + (rest + middle + back);
      InsertMiddle(rest, middle, back, t);
      ErasedWithMiddle(rest, middle, back, t.paper);
      SameHeadMoreBehind(m, rest + back, rest + middle + back, t);
    }
  }

  /** A message about neither ink nor paper. */
  ghost predicate Neutral(m: PageServerMessage) {
    m.LeaseGranted? || m.LeaseDenied? || m.LeaseChanged? || m.ErrorMessage?
  }

  lemma NeutralTotals(front: seq<PageServerMessage>, m: PageServerMessage, back: seq<PageServerMessage>, paper: Paper)
    requires Neutral(m)
    ensures SeqsIn(front + [m] + back) == SeqsIn(front + back)
    ensures ErasedIn(front + [m] + back) == ErasedIn(front + back)
    ensures FinalPaper(paper, front + [m] + back) == FinalPaper(paper, front + back)
  {
    assert [m][1..] == [];
    Concats(front, back, paper);
    Concats(front, [m], paper);
    Concats(front + [m], back, paper);
  }

  lemma InsertNeutral(
      front: seq<PageServerMessage>, m: PageServerMessage, back: seq<PageServerMessage>, t: Tables, paper: Paper)
    requires Deliverable(front + back, t) && Neutral(m)
    ensures Deliverable(front + [m] + back, t)
    ensures SeqsIn(front + [m] + back) == SeqsIn(front + back)
    ensures ErasedIn(front + [m] + back) == ErasedIn(front + back)
    ensures FinalPaper(paper, front + [m] + back) == FinalPaper(paper, front + back)
  {
    DropFront(front, back, t);
    assert ([m] + back)[1..] == back;
    InsertMiddle(front, [m], back, t);
    NeutralTotals(front, m, back, paper);
  }

  lemma {:induction false} PaperEither(p: Paper, q: Paper, messages: seq<PageServerMessage>)
    ensures
      || FinalPaper(p, messages) == FinalPaper(q, messages)
      || (FinalPaper(p, messages) == p && FinalPaper(q, messages) == q)
    decreases |messages|
  {
    if messages != [] { PaperEither(NextPaper(p, messages[0]), NextPaper(q, messages[0]), messages[1..]); }
  }

  /** The last paper the messages name, if any, is the page's. */
  ghost predicate PaperSettled(messages: seq<PageServerMessage>, t: Tables) {
    FinalPaper(t.paper, messages) == t.paper
  }

  lemma PaperSettledDrop(m: PageServerMessage, rest: seq<PageServerMessage>, t: Tables)
    requires PaperSettled([m] + rest, t)
    ensures PaperSettled(rest, t)
  {
    assert ([m] + rest)[1..] == rest;
    PaperEither(t.paper, NextPaper(t.paper, m), rest);
  }

  lemma PaperNews(paper: Paper, pending: seq<PageServerMessage>, t: Tables, u: Tables, told: Option<PageServerMessage>)
    requires Announces(t, u, told)
    ensures FinalPaper(paper, pending) == t.paper ==> FinalPaper(paper, Said(pending, told)) == u.paper
    ensures PaperSettled(pending, t) ==> PaperSettled(Said(pending, told), u)
  {
    if told.Some? {
      Concats(pending, [told.value], paper);
      Concats(pending, [told.value], u.paper);
      assert forall p :: FinalPaper(p, [told.value]) == NextPaper(p, told.value) by {
        assert [told.value][1..] == [];
      }
      PaperEither(t.paper, u.paper, pending);
    }
  }

  /** A converging viewer stays one when the page changes and says so. */
  lemma NewsKeepsConverging(
      feed: Feed, pending: seq<PageServerMessage>, t: Tables, u: Tables, told: Option<PageServerMessage>)
    requires Converging(feed, pending, t) && Announces(t, u, told)
    ensures Converging(feed, Said(pending, told), u)
  {
    AllStillMatch(feed.batches, t, u);
    NewsKeepsDeliverable(pending, t, u, told);
    PaperNews(feed.paper, pending, t, u, told);
    NewHeadIsCarried(t, u, told);
    var before, after := Seqs(feed.batches) + SeqsIn(pending), Seqs(feed.batches) + SeqsIn(Said(pending, told));
    assert before <= after;
    forall s: nat | 1 <= s <= |u.batches| ensures s in after {
      if s <= |t.batches| { assert s in before; }
    }
  }

  lemma NewHeadIsCarried(t: Tables, u: Tables, told: Option<PageServerMessage>)
    requires Announces(t, u, told)
    ensures |t.batches| <= |u.batches| <= |t.batches| + 1
    ensures |u.batches| > |t.batches| ==> told.Some? && |u.batches| in Seqs(Carried(told.value))
  {
  }
}
