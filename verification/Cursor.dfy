/** The resume cursor: when the viewer holds every stored batch up to it, over
    any run of connects, losses, lag closes and reconnects. */
module Cursor {
  import opened Protocol
  import opened Store
  import opened Viewer
  import opened Hub
  import opened Dispatch
  import opened History
  import opened Convergence
  import opened Pending
  import opened Orders
  import opened PageSystem
  import opened AnyOrder

  function UpTo(n: nat): set<nat> { if n == 0 then {} else UpTo(n - 1) + {n} }

  lemma {:induction false} UpToMembers(n: nat)
    ensures forall s: nat :: s in UpTo(n) <==> 1 <= s <= n
  {
    if n > 0 { UpToMembers(n - 1); }
  }

  /** Applied in order to a viewer holding `have`, no message takes the cursor
      past a batch not yet held. */
  ghost predicate Progress(have: set<nat>, messages: seq<PageServerMessage>)
    decreases |messages|
  {
    messages == [] ||
    (&& Complete(have + Seqs(Carried(messages[0])), CursorOf(messages[0]))
     && Progress(have + Seqs(Carried(messages[0])), messages[1..]))
  }

  ghost predicate CursorInv(w: World)
    requires w.connection.Online? ==> w.connection.position <= |w.log|
  {
    && GapFree(w.feed, w.feed.lastSeq)
    && (w.connection.Online? ==>
          var c := w.connection;
          && c.gapFree
          && (forall m :: m in Tail(w) ==> IsNews(m))
          && (if c.phase.Replayed? then Progress(Seqs(w.feed.batches), c.wire + Tail(w))
              else forall m :: m in c.wire ==> CursorOf(m) == 0)
          && (c.phase.RowsRead? || c.phase.TombstonesRead? ==> Progress(UpTo(c.phase.head), Tail(w))))
  }

  /** What holds in every calm run, in whatever order its news is published. */
  ghost predicate PageSound(w: World, payload: map<string, seq<Stroke>>) {
    WorldSound(w, payload) && NothingMissed(w)
  }

  // ---- Facts about progress -----------------------------------------------

  lemma {:induction false} ProgressGrows(have: set<nat>, more: set<nat>, messages: seq<PageServerMessage>)
    requires Progress(have, messages) && forall s :: s in have ==> s in more
    ensures Progress(more, messages)
    decreases |messages|
  {
    if messages != [] {
      var next := Seqs(Carried(messages[0]));
      ProgressGrows(have + next, more + next, messages[1..]);
    }
  }

  lemma {:induction false} ProgressConcat(have: set<nat>, a: seq<PageServerMessage>, b: seq<PageServerMessage>)
    ensures Progress(have, a + b) <==> Progress(have, a) && Progress(have + SeqsIn(a), b)
    decreases |a|
  {
    if a == [] {
      assert a + b == b && have + SeqsIn(a) == have;
    } else {
      var next := Seqs(Carried(a[0]));
      assert (a + b)[1..] == a[1..] + b && (a + b)[0] == a[0];
      ProgressConcat(have + next, a[1..], b);
      assert have + next + SeqsIn(a[1..]) == have + SeqsIn(a);
    }
  }

  lemma {:induction false} StillCursor(have: set<nat>, messages: seq<PageServerMessage>)
    requires forall m :: m in messages ==> CursorOf(m) == 0
    ensures Progress(have, messages)
    decreases |messages|
  {
    if messages != [] { StillCursor(have + Seqs(Carried(messages[0])), messages[1..]); }
  }

  lemma {:induction false} ProgressBelow(have: set<nat>, messages: seq<PageServerMessage>, t: Tables)
    requires Bounded(messages, t) && Complete(have, |t.batches|)
    ensures Progress(have, messages)
    decreases |messages|
  {
    if messages != [] {
      var next := have + Seqs(Carried(messages[0]));
      assert messages[0] in messages && Complete(next, |t.batches|);
      assert forall m :: m in messages[1..] ==> m in messages;
      ProgressBelow(next, messages[1..], t);
    }
  }

  lemma NewsProgress(
      have: set<nat>, pending: seq<PageServerMessage>, t: Tables, u: Tables, told: Option<PageServerMessage>)
    requires Progress(have, pending) && Complete(have + SeqsIn(pending), |t.batches|) && Announces(t, u, told)
    ensures Progress(have, Said(pending, told))
  {
    if told.Some? {
      var held := have + SeqsIn(pending);
      NewHeadIsCarried(t, u, told);
      ProgressConcat(have, pending, [told.value]);
      assert [told.value][1..] == [];
      forall s: nat | 1 <= s <= CursorOf(told.value) ensures s in held + Seqs(Carried(told.value)) {
        if s <= |t.batches| { assert s in held; }
      }
      assert Complete(held + Seqs(Carried(told.value)), CursorOf(told.value));
    }
  }

  lemma NeutralProgress(
      have: set<nat>, front: seq<PageServerMessage>, m: PageServerMessage, back: seq<PageServerMessage>)
    requires Progress(have, front + back) && Neutral(m)
    ensures Progress(have, front + [m] + back)
  {
    ProgressConcat(have, front, back);
    ProgressConcat(have, front, [m] + back);
    assert front + [m] + back == front + ([m] + back);
    var held := have + SeqsIn(front);
    assert ([m] + back)[0] == m && ([m] + back)[1..] == back && held + Seqs(Carried(m)) == held;
  }

  // ---- The events ---------------------------------------------------------

  lemma CommittedKeepsCursor(w: World, m: Mutation, now: int, payload: map<string, seq<Stroke>>)
    requires PageSound(w, payload) && CursorInv(w) && Enabled(w, Committed(m, now), payload, true)
    ensures CursorInv(Next(w, Committed(m, now), payload, true))
  {
    var (u, told) := Commit(w.tables, m, now);
    var v := Next(w, Committed(m, now), payload, true);
    ToldIsNews(w.tables, m, now);
    CommitAnnounces(w.tables, m, payload, now);
    if w.connection.Online? {
      var c := w.connection;
      SaidConcat(w.log[c.position..], w.unpublished, told);
      SaidConcat(c.wire, Tail(w), told);
      assert Tail(v) == Said(Tail(w), told);
      if c.phase.Replayed? {
        NewsProgress(Seqs(w.feed.batches), c.wire + Tail(w), w.tables, u, told);
      }
      if c.phase.RowsRead? || c.phase.TombstonesRead? {
        RowsComplete(w.tables, c.fromSeq, c.phase.rows, c.phase.head, Tail(w));
        NewsProgress(UpTo(c.phase.head), Tail(w), w.tables, u, told);
      }
    }
  }

  lemma RowsComplete(t: Tables, fromSeq: nat, rows: seq<StrokeBatch>, head: nat, tail: seq<PageServerMessage>)
    requires RowsHold(t, fromSeq, rows, head, tail)
    ensures Complete(UpTo(head) + SeqsIn(tail), |t.batches|)
  {
    UpToMembers(head);
    forall s: nat | 1 <= s <= |t.batches| ensures s in UpTo(head) + SeqsIn(tail) {
      if s > head { assert s in SeqsIn(tail); }
    }
  }

  lemma NewsInTail(front: seq<PageServerMessage>, m: PageServerMessage, back: seq<PageServerMessage>)
    requires IsNews(m) && forall x :: x in front + back ==> IsNews(x)
    ensures forall x :: x in front + [m] + back ==> IsNews(x)
  {
    forall x | x in front + [m] + back ensures IsNews(x) {
      assert x == m || x in front + back;
    }
  }

  lemma LeaseAnnouncedKeepsCursor(w: World, holder: Option<string>, payload: map<string, seq<Stroke>>)
    requires PageSound(w, payload) && CursorInv(w)
    ensures CursorInv(Next(w, LeaseAnnounced(holder), payload, true))
  {
    var v := Next(w, LeaseAnnounced(holder), payload, true);
    if w.connection.Online? {
      var c := w.connection;
      var queued, news := w.log[c.position..], LeaseChanged(holder);
      LeaseInTail(w, v, news);
      NewsInTail(queued, news, w.unpublished);
      if c.phase.Replayed? {
        NeutralProgress(Seqs(w.feed.batches), c.wire + queued, news, w.unpublished);
      }
      if c.phase.RowsRead? || c.phase.TombstonesRead? {
        NeutralProgress(UpTo(c.phase.head), queued, news, w.unpublished);
      }
    }
  }

  lemma ForwardedMoves(w: World, payload: map<string, seq<Stroke>>, calm: bool)
    requires PageSound(w, payload) && Enabled(w, Forwarded, payload, calm)
    ensures var v := Next(w, Forwarded, payload, calm); var m := Receive(w.log, w.connection.position).message;
      && v.connection.Online? && v.connection.position <= |v.log|
      && v.feed == w.feed && v.unpublished == w.unpublished
      && v.connection.phase == w.connection.phase && v.connection.gapFree == w.connection.gapFree
      && v.connection.wire == w.connection.wire + [m]
      && Tail(w) == [m] + Tail(v) && w.connection.wire + Tail(w) == v.connection.wire + Tail(v)
  {
    HeadOfTail(w.log, w.connection.position, w.unpublished, w.connection.wire);
  }

  lemma ForwardedKeepsCursor(w: World, payload: map<string, seq<Stroke>>)
    requires PageSound(w, payload) && CursorInv(w) && Enabled(w, Forwarded, payload, true)
    ensures var v := Next(w, Forwarded, payload, true);
      v.connection.Online? && v.connection.position <= |v.log| && CursorInv(v)
  {
    var m := Receive(w.log, w.connection.position).message;
    ForwardedMoves(w, payload, true);
    assert m in Tail(w);
  }

  lemma RowsLoadedKeepsCursor(w: World, payload: map<string, seq<Stroke>>)
    requires PageSound(w, payload) && CursorInv(w) && Enabled(w, RowsLoaded, payload, true)
    ensures CursorInv(Next(w, RowsLoaded, payload, true))
  {
    MaxSeqIsCount(w.tables.batches);
    assert Tail(Next(w, RowsLoaded, payload, true)) == Tail(w);
    BoundedConcat(w.log[w.connection.position..], w.unpublished, w.tables);
    UpToMembers(|w.tables.batches|);
    ProgressBelow(UpTo(|w.tables.batches|), Tail(w), w.tables);
  }

  lemma {:induction false} BatchFramesProgress(have: set<nat>, batches: seq<StrokeBatch>, fromSeq: nat)
    requires Complete(have, fromSeq)
    requires forall i :: 0 <= i < |batches| ==> batches[i].seqNo == fromSeq + i + 1
    ensures Progress(have, BatchFrames(batches))
    ensures Complete(have + Seqs(batches), fromSeq + |batches|)
    decreases |batches|
  {
    if batches == [] {
      assert have + Seqs(batches) == have;
    } else {
      var next := have + {batches[0].seqNo};
      assert Seqs([batches[0]]) == {batches[0].seqNo} + Seqs([batches[0]][1..]) == {batches[0].seqNo};
      assert Complete(next, fromSeq + 1) by {
        forall s: nat | 1 <= s <= fromSeq + 1 ensures s in next {
          if s <= fromSeq { assert s in have; }
        }
      }
      BatchFramesProgress(next, batches[1..], fromSeq + 1);
      assert BatchFrames(batches)[1..] == BatchFrames(batches[1..]);
      assert next + Seqs(batches[1..]) == have + Seqs(batches);
    }
  }

  lemma CoalescedProgress(
      have: set<nat>, lastSeq: nat, rows: seq<StrokeBatch>, tombstones: seq<TombstoneBatch>)
    requires Complete(have + Seqs(Retained(rows, TombstonedIds(tombstones))), lastSeq)
    ensures var frames := ReplayMessages(true, lastSeq, rows, tombstones);
      Progress(have, frames) && SeqsIn(frames) == Seqs(Retained(rows, TombstonedIds(tombstones)))
  {
    var replay := BuildReplay(lastSeq, rows, tombstones);
    assert [replay][1..] == [];
  }

  lemma FramesProgress(
      have: set<nat>, lastSeq: nat, kept: seq<StrokeBatch>, tombstones: seq<TombstoneBatch>)
    requires Progress(have, BatchFrames(kept)) && Complete(have + Seqs(kept), lastSeq)
    ensures Progress(have, BatchFrames(kept) + TombstoneFrames(tombstones) + [Synced(lastSeq)])
  {
    var first, second, synced := BatchFrames(kept), TombstoneFrames(tombstones), [Synced(lastSeq)];
    FramesBring(kept, tombstones, BlankPaper);
    TailFramesProgress(have + Seqs(kept), lastSeq, tombstones);
    ProgressConcat(have, first, second + synced);
    assert first + second + synced == first + (second + synced);
  }

  lemma TailFramesProgress(held: set<nat>, lastSeq: nat, tombstones: seq<TombstoneBatch>)
    requires Complete(held, lastSeq)
    ensures Progress(held, TombstoneFrames(tombstones) + [Synced(lastSeq)])
  {
    var second, synced := TombstoneFrames(tombstones), [Synced(lastSeq)];
    FramesBring([], tombstones, BlankPaper);
    FrameCounts([], tombstones);
    StillCursor(held, second);
    assert held + SeqsIn(second) == held;
    assert synced[1..] == [] && held + Seqs(Carried(synced[0])) == held;
    ProgressConcat(held, second, synced);
  }

  /** Either replay shape, of rows that carry on where the cursor stands and with
      no head beyond them, moves the cursor only over batches it brings. */
  lemma ReplayProgress(
      have: set<nat>, coalesce: bool, lastSeq: nat, rows: seq<StrokeBatch>, tombstones: seq<TombstoneBatch>,
      fromSeq: nat)
    requires Complete(have, fromSeq) && lastSeq <= fromSeq + |rows|
    requires forall i :: 0 <= i < |rows| ==> rows[i].seqNo == fromSeq + i + 1
    ensures var frames := ReplayMessages(coalesce, lastSeq, rows, tombstones);
      && Progress(have, frames) && Complete(have + SeqsIn(frames), fromSeq + |rows|)
  {
    var kept := Retained(rows, TombstonedIds(tombstones));
    RetainedSpec(rows, TombstonedIds(tombstones));
    BatchFramesProgress(have, kept, fromSeq);
    assert Complete(have + Seqs(kept), lastSeq);
    if coalesce {
      CoalescedProgress(have, lastSeq, rows, tombstones);
    } else {
      FramesProgress(have, lastSeq, kept, tombstones);
      FramesShape(lastSeq, kept, tombstones, BlankPaper);
    }
  }

  lemma ProgressPastHead(have: set<nat>, tail: seq<PageServerMessage>, head: nat)
    requires Complete(have, head) && Progress(UpTo(head), tail)
    ensures Progress(have, tail)
  {
    UpToMembers(head);
    ProgressGrows(UpTo(head), have, tail);
  }

  lemma FramesThenTail(held: set<nat>, frames: seq<PageServerMessage>, tail: seq<PageServerMessage>, head: nat)
    requires Progress(held, frames) && Complete(held + SeqsIn(frames), head)
    requires Progress(UpTo(head), tail)
    ensures Progress(held, frames + tail)
  {
    ProgressPastHead(held + SeqsIn(frames), tail, head);
    ProgressConcat(held, frames, tail);
  }

  lemma ReplayThenTail(
      have: set<nat>, wire: seq<PageServerMessage>, frames: seq<PageServerMessage>, tail: seq<PageServerMessage>,
      head: nat)
    requires forall m :: m in wire ==> CursorOf(m) == 0
    requires Progress(have + SeqsIn(wire), frames) && Complete(have + SeqsIn(wire) + SeqsIn(frames), head)
    requires Progress(UpTo(head), tail)
    ensures Progress(have, wire + frames + tail)
  {
    FramesThenTail(have + SeqsIn(wire), frames, tail, head);
    StillCursor(have, wire);
    ProgressConcat(have, wire, frames + tail);
    assert wire + frames + tail == wire + (frames + tail);
  }

  lemma ReplaySentKeepsCursor(w: World, headRead: bool, coalesce: bool, payload: map<string, seq<Stroke>>)
    requires PageSound(w, payload) && CursorInv(w) && Enabled(w, ReplaySent(headRead, coalesce), payload, true)
    ensures CursorInv(Next(w, ReplaySent(headRead, coalesce), payload, true))
  {
    var v := Next(w, ReplaySent(headRead, coalesce), payload, true);
    var c := w.connection;
    var rows, head := c.phase.rows, c.phase.head;
    var lastSeq := if headRead then MaxSeq(w.tables.batches) else c.fromSeq;
    var frames := ReplayMessages(coalesce, lastSeq, rows, c.phase.tombstones);
    var have := Seqs(w.feed.batches);
    ReadRowsMatch(w.tables, c.fromSeq, head);
    assert Complete(have + SeqsIn(c.wire), c.fromSeq);
    ReplayProgress(have + SeqsIn(c.wire), coalesce, lastSeq, rows, c.phase.tombstones, c.fromSeq);
    ReplayThenTail(have, c.wire, frames, Tail(w), head);
    assert Tail(v) == Tail(w) && v.connection.wire == c.wire + frames;
  }

  lemma DeliveredKeepsCursor(w: World, payload: map<string, seq<Stroke>>)
    requires PageSound(w, payload) && CursorInv(w) && Enabled(w, Delivered, payload, true)
    ensures CursorInv(Next(w, Delivered, payload, true))
  {
    var v := Next(w, Delivered, payload, true);
    var c := w.connection;
    var m, rest := c.wire[0], c.wire[1..] + Tail(w);
    assert Tail(v) == Tail(w) && v.connection.wire + Tail(v) == rest;
    assert (c.wire + Tail(w))[0] == m && (c.wire + Tail(w))[1..] == rest;
    AppliedShape(w.feed, m);
    ApplyAddsSeqs(w.feed, m);
    assert m in c.wire;
  }

  // ---- Publication --------------------------------------------------------

  lemma {:induction false} QuietBringsNothing(messages: seq<PageServerMessage>)
    requires forall m :: m in messages ==> IsNews(m) && !m.LiveBatch?
    ensures SeqsIn(messages) == {}
    decreases |messages|
  {
    if messages != [] { QuietBringsNothing(messages[1..]); }
  }

  /** News that no batch waits behind, or that is no batch itself, can come first. */
  lemma FirstProgress(have: set<nat>, over: seq<PageServerMessage>, n: PageServerMessage, back: seq<PageServerMessage>)
    requires Progress(have, over + ([n] + back)) && IsNews(n) && forall m :: m in over ==> IsNews(m)
    requires n.LiveBatch? ==> !SomeBatch(over)
    ensures Progress(have, [n] + (over + back))
  {
    var next := have + Seqs(Carried(n));
    ProgressConcat(have, over, [n] + back);
    ProgressConcat(have + SeqsIn(over), [n], back);
    ProgressConcat(have, [n], over + back);
    ProgressConcat(next, over, back);
    assert [n][0] == n && [n][1..] == [];
    assert SeqsIn([n]) == Seqs(Carried(n)) + SeqsIn([]);
    if n.LiveBatch? {
      QuietBringsNothing(over);
      StillCursor(next, over);
      assert have + SeqsIn(over) == have && next + SeqsIn(over) == next;
    } else {
      assert next == have && have + SeqsIn(over) + SeqsIn([n]) == have + SeqsIn(over);
    }
  }

  lemma PublishedProgress(w: World, v: World, have: set<nat>, front: seq<PageServerMessage>, k: nat)
    requires k < |w.unpublished| && v.unpublished == w.unpublished[..k] + w.unpublished[k + 1..]
    requires forall m :: m in w.unpublished ==> IsNews(m)
    requires w.unpublished[k].LiveBatch? ==> !SomeBatch(w.unpublished[..k])
    requires Progress(have, front + w.unpublished)
    ensures Progress(have, front + ([w.unpublished[k]] + v.unpublished))
  {
    var over, n, back := w.unpublished[..k], w.unpublished[k], w.unpublished[k + 1..];
    assert w.unpublished == over + ([n] + back);
    ProgressConcat(have, front, w.unpublished);
    FirstProgress(have + SeqsIn(front), over, n, back);
    ProgressConcat(have, front, [n] + v.unpublished);
  }

  lemma PublishedKeepsCursor(w: World, k: nat, payload: map<string, seq<Stroke>>)
    requires PageSound(w, payload) && CursorInv(w) && Enabled(w, Published(k), payload, true)
    ensures CursorInv(Next(w, Published(k), payload, true))
  {
    var v := Next(w, Published(k), payload, true);
    if w.connection.Online? {
      var c := w.connection;
      var queued := w.log[c.position..];
      PublishedTail(w, v, k);
      forall m | m in Tail(v) ensures IsNews(m) { assert m in queued ==> m in Tail(w); }
      if c.phase.Replayed? {
        PublishedProgress(w, v, Seqs(w.feed.batches), c.wire + queued, k);
      }
      if c.phase.RowsRead? || c.phase.TombstonesRead? {
        PublishedProgress(w, v, UpTo(c.phase.head), queued, k);
      }
    }
  }

  /** Steps after which the same messages are still to come. */
  lemma StillKeepsCursor(w: World, e: Event, payload: map<string, seq<Stroke>>)
    requires PageSound(w, payload) && CursorInv(w) && Enabled(w, e, payload, true)
    requires e.Subscribed? || e.Welcomed? || e.TombstonesLoaded? || e.ReplayFailed? || e.Dropped?
    ensures Next(w, e, payload, true).connection.Online? ==>
      Next(w, e, payload, true).connection.position <= |Next(w, e, payload, true).log|
    ensures CursorInv(Next(w, e, payload, true))
  {
    var v := Next(w, e, payload, true);
    if e.Subscribed? {
      assert Tail(v) == w.unpublished;
    } else if !e.Dropped? {
      assert Tail(v) == Tail(w);
    }
  }

  lemma {:induction false} EventKeepsCursor(w: World, e: Event, payload: map<string, seq<Stroke>>)
    requires PageSound(w, payload) && CursorInv(w) && Enabled(w, e, payload, true)
    ensures Next(w, e, payload, true).connection.Online? ==>
      Next(w, e, payload, true).connection.position <= |Next(w, e, payload, true).log|
    ensures CursorInv(Next(w, e, payload, true))
  {
    match e
    case Committed(m, now) => CommittedKeepsCursor(w, m, now, payload);
    case Published(k) => PublishedKeepsCursor(w, k, payload);
    case LeaseAnnounced(holder) => LeaseAnnouncedKeepsCursor(w, holder, payload);
    case Forwarded => ForwardedKeepsCursor(w, payload);
    case RowsLoaded => RowsLoadedKeepsCursor(w, payload);
    case ReplaySent(headRead, coalesce) => ReplaySentKeepsCursor(w, headRead, coalesce, payload);
    case Delivered => DeliveredKeepsCursor(w, payload);
    case _ => StillKeepsCursor(w, e, payload);
  }

  lemma CalmIsHeard(worlds: seq<World>, events: seq<Event>, payload: map<string, seq<Stroke>>)
    requires IsRun(worlds, events, payload, true)
    ensures AllHeard(events)
  {
    forall i | 0 <= i < |events| ensures !events[i].CommittedUnheard? {
      assert Enabled(worlds[i], events[i], payload, true);
    }
  }

  lemma {:induction false} RunKeepsCursor(
      worlds: seq<World>, events: seq<Event>, payload: map<string, seq<Stroke>>, k: nat)
    requires IsRun(worlds, events, payload, true) && k < |worlds| && Start(worlds[0], payload)
    ensures PageSound(worlds[k], payload) && CursorInv(worlds[k])
    decreases k
  {
    CalmIsHeard(worlds, events, payload);
    RunMissesNothing(worlds, events, payload, true, k);
    if k > 0 {
      RunKeepsCursor(worlds, events, payload, k - 1);
      EventKeepsCursor(worlds[k - 1], events[k - 1], payload);
    }
  }

  /** Cursor soundness. In every calm run, however often the connection was lost,
      lagged out or reopened, and however late an erase or a paper was published,
      the viewer holds every stored batch up to its cursor, and every connection
      resumes gap-free. */
  lemma CursorIsSound(worlds: seq<World>, events: seq<Event>, payload: map<string, seq<Stroke>>, k: nat)
    requires IsRun(worlds, events, payload, true) && k < |worlds| && Start(worlds[0], payload)
    ensures forall s: nat :: 1 <= s <= worlds[k].feed.lastSeq ==> s in Seqs(worlds[k].feed.batches)
    ensures worlds[k].feed.lastSeq <= |worlds[k].tables.batches|
    ensures worlds[k].connection.Online? ==>
      worlds[k].connection.gapFree && worlds[k].connection.position <= |worlds[k].log|
  {
    RunKeepsCursor(worlds, events, payload, k);
  }

  /** So in every calm run that is also harmless, any open connection whose replay
      was sent is brought to exactly the stored page. */
  lemma CalmViewerConverges(worlds: seq<World>, events: seq<Event>, payload: map<string, seq<Stroke>>, k: nat)
    requires IsRun(worlds, events, payload, true) && Harmless(worlds, events)
    requires k < |worlds| && Start(worlds[0], payload)
    requires worlds[k].connection.Online? && worlds[k].connection.phase.Replayed?
    ensures worlds[k].connection.position <= |worlds[k].log|
    ensures AppliedAll(worlds[k].feed, worlds[k].connection.wire + Tail(worlds[k])).batches
         == Projection(worlds[k].tables)
    ensures AppliedAll(worlds[k].feed, worlds[k].connection.wire + Tail(worlds[k])).paper == worlds[k].tables.paper
  {
    RunKeepsCursor(worlds, events, payload, k);
    ViewerConverges(worlds, events, payload, true, k);
  }
}
