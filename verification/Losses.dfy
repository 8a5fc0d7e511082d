/** What the hypotheses are for: exactly when a step that is not calm leaves the
    cursor unsound, and runs that lose a batch or show what was erased. */
module Losses {
  import opened Protocol
  import opened Store
  import opened Viewer
  import opened Hub
  import opened Dispatch
  import opened History
  import opened Convergence
  import opened Pending
  import opened Orders
  import opened PageSystem
  import opened AnyOrder
  import opened Cursor

  // ---- Exactly when -------------------------------------------------------

  ghost predicate CursorHolds(feed: Feed) { GapFree(feed, feed.lastSeq) }

  /** The viewer holds every batch of the page between the two seqs. */
  ghost predicate HoldsWithin(feed: Feed, above: nat, upTo: int) {
    forall s: nat :: above < s <= upTo ==> s in Seqs(feed.batches)
  }

  lemma LiveBatchMoves(feed: Feed, batch: StrokeBatch)
    ensures var f := Applied(feed, LiveBatch(batch));
      Seqs(f.batches) == Seqs(feed.batches) + {batch.seqNo} && f.lastSeq == Max(feed.lastSeq, batch.seqNo)
  {
    AppliedShape(feed, LiveBatch(batch));
    ApplyAddsSeqs(feed, LiveBatch(batch));
    assert Seqs([batch]) == {batch.seqNo} + Seqs([batch][1..]) == {batch.seqNo};
  }

  /** What the viewer will be once all that is on its wire is applied. */
  ghost function AfterWire(w: World): Feed
    requires w.connection.Online?
  {
    AppliedAll(w.feed, w.connection.wire)
  }

  /** A live batch forwarded to any viewer in any phase, its replay still to come,
      lost, on the wire or applied: where what is on the wire leaves the cursor
      sound, so does the batch exactly when it leaves every batch before it held. */
  lemma LiveBatchIsSoundIff(w: World, payload: map<string, seq<Stroke>>)
    requires Enabled(w, Forwarded, payload, false) && CursorHolds(AfterWire(w))
    requires Receive(w.log, w.connection.position).message.LiveBatch?
    ensures CursorHolds(AppliedAll(w.feed, Next(w, Forwarded, payload, false).connection.wire))
       <==> HoldsWithin(AfterWire(w), 0, Receive(w.log, w.connection.position).message.batch.seqNo - 1)
  {
    var m, before := Receive(w.log, w.connection.position).message, AfterWire(w);
    AppliedAllConcat(w.feed, w.connection.wire, [m]);
    assert [m][1..] == [];
    LiveBatchMoves(before, m.batch);
    var after := Applied(before, m);
    if CursorHolds(after) {
      forall s: nat | 0 < s <= m.batch.seqNo - 1 ensures s in Seqs(before.batches) { assert s in Seqs(after.batches); }
    }
  }

  lemma {:induction false} ProgressHoldsCursor(feed: Feed, messages: seq<PageServerMessage>)
    requires CursorHolds(feed) && Progress(Seqs(feed.batches), messages)
    ensures var f := AppliedAll(feed, messages);
      CursorHolds(f) && Seqs(f.batches) == Seqs(feed.batches) + SeqsIn(messages)
    decreases |messages|
  {
    if messages == [] {
      assert Seqs(feed.batches) + SeqsIn(messages) == Seqs(feed.batches);
    } else {
      AppliedShape(feed, messages[0]);
      ApplyAddsSeqs(feed, messages[0]);
      ProgressHoldsCursor(Applied(feed, messages[0]), messages[1..]);
      assert Seqs(feed.batches) + Seqs(Carried(messages[0])) + SeqsIn(messages[1..])
          == Seqs(feed.batches) + SeqsIn(messages);
    }
  }

  lemma PrefixProgress(have: set<nat>, messages: seq<PageServerMessage>, k: nat)
    requires Progress(have, messages) && k <= |messages|
    ensures Progress(have, messages[..k])
  {
    assert messages == messages[..k] + messages[k..];
    ProgressConcat(have, messages[..k], messages[k..]);
  }

  /** The rows carry on from a cursor. */
  ghost predicate RowsFrom(rows: seq<StrokeBatch>, fromSeq: nat) {
    forall i :: 0 <= i < |rows| ==> rows[i].seqNo == fromSeq + i + 1
  }

  lemma FramesInTwo(rows: seq<StrokeBatch>, tombstones: seq<TombstoneBatch>, have: set<nat>, fromSeq: nat)
    requires Complete(have, fromSeq) && RowsFrom(rows, fromSeq)
    ensures var body := BatchFrames(Retained(rows, TombstonedIds(tombstones))) + TombstoneFrames(tombstones);
      Progress(have, body) && SeqsIn(body) == Seqs(rows)
  {
    var kept := Retained(rows, TombstonedIds(tombstones));
    RetainedSpec(rows, TombstonedIds(tombstones));
    SeqsOfRetained(rows, TombstonedIds(tombstones));
    FramesBring(kept, tombstones, BlankPaper);
    Concats(BatchFrames(kept), TombstoneFrames(tombstones), BlankPaper);
    BatchFramesProgress(have, kept, fromSeq);
    FrameCounts([], tombstones);
    StillCursor(have + Seqs(kept), TombstoneFrames(tombstones));
    ProgressConcat(have, BatchFrames(kept), TombstoneFrames(tombstones));
  }

  /** A replay in two parts: what leads up to its last frame, and that frame. */
  lemma ReplayInTwo(
      coalesce: bool, lastSeq: nat, rows: seq<StrokeBatch>, tombstones: seq<TombstoneBatch>, have: set<nat>,
      fromSeq: nat)
    returns (body: seq<PageServerMessage>, last: PageServerMessage)
    requires Complete(have, fromSeq) && RowsFrom(rows, fromSeq)
    ensures ReplayMessages(coalesce, lastSeq, rows, tombstones) == body + [last]
    ensures !last.Welcome? && CursorOf(last) == lastSeq && SeqsIn(body) + Seqs(Carried(last)) == Seqs(rows)
    ensures Progress(have, body)
  {
    if coalesce {
      body, last := [], BuildReplay(lastSeq, rows, tombstones);
      SeqsOfRetained(rows, TombstonedIds(tombstones));
    } else {
      body := BatchFrames(Retained(rows, TombstonedIds(tombstones))) + TombstoneFrames(tombstones);
      last := Synced(lastSeq);
      FramesInTwo(rows, tombstones, have, fromSeq);
    }
  }

  lemma LastFrameIff(feed: Feed, led: Feed, last: PageServerMessage, rows: seq<StrokeBatch>, fromSeq: nat)
    requires CursorHolds(led) && GapFree(feed, fromSeq) && !last.Welcome? && RowsFrom(rows, fromSeq)
    requires Seqs(led.batches) + Seqs(Carried(last)) == Seqs(feed.batches) + Seqs(rows)
    ensures CursorOf(last) == fromSeq ==> CursorHolds(Applied(led, last))
    ensures CursorOf(last) >= fromSeq + |rows| ==>
      (CursorHolds(Applied(led, last)) <==> HoldsWithin(feed, fromSeq + |rows|, CursorOf(last)))
  {
    var after, head := Applied(led, last), fromSeq + |rows|;
    AppliedShape(led, last);
    ApplyAddsSeqs(led, last);
    SeqsByIndex(rows);
    var have, n := Seqs(after.batches), CursorOf(last);
    forall s: nat | fromSeq < s <= head ensures s in have { assert rows[s - fromSeq - 1].seqNo == s; }
    assert forall s: nat :: s in Seqs(rows) ==> s <= head;
    assert Complete(have, fromSeq) && Complete(have, led.lastSeq);
    if n >= head && HoldsWithin(feed, head, n) {
      assert Complete(have, n);
    }
    if n >= head && CursorHolds(after) {
      forall s: nat | head < s <= n ensures s in Seqs(feed.batches) { assert s in have; }
    }
  }

  /** Sound after every proper prefix. */
  ghost predicate SoundUpToLast(feed: Feed, frames: seq<PageServerMessage>) {
    forall k :: 0 <= k < |frames| ==> CursorHolds(AppliedAll(feed, frames[..k]))
  }

  lemma ProgressIsSoundUpTo(feed: Feed, lead: seq<PageServerMessage>, last: PageServerMessage)
    requires CursorHolds(feed) && Progress(Seqs(feed.batches), lead)
    ensures SoundUpToLast(feed, lead + [last])
  {
    forall k | 0 <= k < |lead + [last]| ensures CursorHolds(AppliedAll(feed, (lead + [last])[..k])) {
      assert (lead + [last])[..k] == lead[..k];
      PrefixProgress(Seqs(feed.batches), lead, k);
      ProgressHoldsCursor(feed, lead[..k]);
    }
  }

  /** A replay applied to any viewer with a sound cursor that holds the rows before
      those read. */
  lemma ReplayApplied(
      feed: Feed, coalesce: bool, lastSeq: nat, rows: seq<StrokeBatch>, tombstones: seq<TombstoneBatch>, fromSeq: nat)
    requires CursorHolds(feed) && GapFree(feed, fromSeq) && RowsFrom(rows, fromSeq)
    ensures var frames := ReplayMessages(coalesce, lastSeq, rows, tombstones);
      && SoundUpToLast(feed, frames)
      && (lastSeq == fromSeq ==> CursorHolds(AppliedAll(feed, frames)))
      && (lastSeq >= fromSeq + |rows| ==>
            (CursorHolds(AppliedAll(feed, frames)) <==> HoldsWithin(feed, fromSeq + |rows|, lastSeq)))
  {
    var body, last := ReplayInTwo(coalesce, lastSeq, rows, tombstones, Seqs(feed.batches), fromSeq);
    ProgressIsSoundUpTo(feed, body, last);
    ProgressHoldsCursor(feed, body);
    AppliedAllConcat(feed, body, [last]);
    assert [last][1..] == [];
    LastFrameIff(feed, AppliedAll(feed, body), last, rows, fromSeq);
  }

  lemma {:induction false} NothingIsDropped(feed: Feed, messages: seq<PageServerMessage>)
    ensures Seqs(AppliedAll(feed, messages).batches) == Seqs(feed.batches) + SeqsIn(messages)
    decreases |messages|
  {
    if messages == [] {
      assert Seqs(feed.batches) + SeqsIn(messages) == Seqs(feed.batches);
    } else {
      ApplyAddsSeqs(feed, messages[0]);
      NothingIsDropped(Applied(feed, messages[0]), messages[1..]);
    }
  }

  lemma ReadRowsFollow(w: World, payload: map<string, seq<Stroke>>)
    requires WorldSound(w, payload) && w.connection.Online? && w.connection.phase.TombstonesRead?
    ensures var c := w.connection;
      && RowsFrom(c.phase.rows, c.fromSeq) && c.fromSeq + |c.phase.rows| == c.phase.head
      && c.phase.head <= |w.tables.batches| == MaxSeq(w.tables.batches)
  {
    MaxSeqIsCount(w.tables.batches);
    ReadRowsMatch(w.tables, w.connection.fromSeq, w.connection.phase.head);
  }

  function HeadSent(w: World, headRead: bool): nat
    requires w.connection.Online?
  {
    if headRead then MaxSeq(w.tables.batches) else w.connection.fromSeq
  }

  lemma ReplayOnTheWire(w: World, headRead: bool, coalesce: bool, payload: map<string, seq<Stroke>>)
    requires w.connection.Online? && w.connection.phase.TombstonesRead?
    ensures Next(w, ReplaySent(headRead, coalesce), payload, false).connection.wire
         == w.connection.wire
            + ReplayMessages(coalesce, HeadSent(w, headRead), w.connection.phase.rows, w.connection.phase.tombstones)
  {
  }

  /** A replay in either shape, to any viewer that holds all the rows before those
      read: where what is on the wire leaves the cursor sound, so does the replay
      up to its last frame, and from there on exactly when the head read failed or
      the viewer then holds what was committed between the two reads. */
  lemma ReplayIsSoundIff(w: World, headRead: bool, coalesce: bool, payload: map<string, seq<Stroke>>)
    requires WorldSound(w, payload) && w.connection.Online? && w.connection.phase.TombstonesRead?
    requires CursorHolds(AfterWire(w)) && GapFree(w.feed, w.connection.fromSeq)
    ensures var wire := Next(w, ReplaySent(headRead, coalesce), payload, false).connection.wire;
      && |w.connection.wire| <= |wire| && wire[..|w.connection.wire|] == w.connection.wire
      && SoundUpToLast(AfterWire(w), wire[|w.connection.wire|..])
      && (CursorHolds(AppliedAll(w.feed, wire))
          <==> !headRead || HoldsWithin(AfterWire(w), w.connection.phase.head, |w.tables.batches|))
  {
    var c := w.connection;
    var frames := ReplayMessages(coalesce, HeadSent(w, headRead), c.phase.rows, c.phase.tombstones);
    ReadRowsFollow(w, payload);
    ReplayOnTheWire(w, headRead, coalesce, payload);
    NothingIsDropped(w.feed, c.wire);
    ReplayApplied(AfterWire(w), coalesce, HeadSent(w, headRead), c.phase.rows, c.phase.tombstones, c.fromSeq);
    AppliedAllConcat(w.feed, c.wire, frames);
    assert (c.wire + frames)[|c.wire|..] == frames;
  }

  // ---- Runs ---------------------------------------------------------------

  /** The events can happen one after the other from `w`, and lead to `v`. */
  ghost predicate Leads(w: World, events: seq<Event>, payload: map<string, seq<Stroke>>, v: World)
    decreases |events|
  {
    if events == [] then v == w
    else
      && Enabled(w, events[0], payload, false)
      && Leads(Next(w, events[0], payload, false), events[1..], payload, v)
  }

  lemma OneStep(w: World, e: Event, payload: map<string, seq<Stroke>>) returns (v: World)
    requires Enabled(w, e, payload, false)
    ensures v == Next(w, e, payload, false) && Leads(w, [e], payload, v)
  {
    v := Next(w, e, payload, false);
    assert [e][1..] == [];
  }

  lemma {:induction false} LeadsOn(
      w: World, first: seq<Event>, v: World, second: seq<Event>, u: World, payload: map<string, seq<Stroke>>)
    requires Leads(w, first, payload, v) && Leads(v, second, payload, u)
    ensures Leads(w, first + second, payload, u)
    decreases |first|
  {
    if first == [] {
      assert first + second == second;
    } else {
      assert (first + second)[0] == first[0] && (first + second)[1..] == first[1..] + second;
      LeadsOn(Next(w, first[0], payload, false), first[1..], v, second, u, payload);
    }
  }

  lemma {:induction false} LeadsIsRun(w: World, events: seq<Event>, payload: map<string, seq<Stroke>>, v: World)
    returns (worlds: seq<World>)
    requires Leads(w, events, payload, v)
    ensures IsRun(worlds, events, payload, false) && worlds[0] == w && worlds[|events|] == v
    decreases |events|
  {
    if events == [] {
      worlds := [w];
    } else {
      var rest := LeadsIsRun(Next(w, events[0], payload, false), events[1..], payload, v);
      worlds := [w] + rest;
    }
  }

  // ---- Runs that lose a batch ---------------------------------------------

  /** The viewer's cursor is past a stored batch that it never held, and it has no
      connection; a replay from the cursor reads nothing. */
  ghost predicate Lost(w: World, seqNo: nat) {
    && w.connection.Offline? && 1 <= seqNo <= |w.tables.batches| && seqNo <= w.feed.lastSeq
    && seqNo !in Seqs(w.feed.batches) && BatchesAfter(w.tables.batches, w.feed.lastSeq) == []
  }

  lemma OneStored(key: string, a: Stroke) returns (t: Tables)
    ensures t == Commit(Fresh(BlankPaper, 0), AddInk(key, [a]), 0).0 && Sound(t)
    ensures t.batches == [BatchRow(1, 1, key, [a])] && t.tombstones == map[]
  {
    var born := Fresh(BlankPaper, 0);
    t := Commit(born, AddInk(key, [a]), 0).0;
    SurvivingAll([a], born.tombstones.Keys);
    assert t == History.Apply(born, AddStrokes(key, [a], 0));
    SoundStep(born, AddStrokes(key, [a], 0));
  }

  lemma SecondStored(t: Tables, a: Stroke, b: Stroke)
    requires t.batches == [BatchRow(1, 1, "a", [a])] && t.tombstones == map[]
    ensures var (u, told) := Commit(t, AddInk("b", [b]), 1);
      && told == Some(LiveBatch(StrokeBatch(2, "b", [b])))
      && u.batches == [BatchRow(1, 1, "a", [a]), BatchRow(2, t.revision + 1, "b", [b])]
  {
    SurvivingAll([b], t.tombstones.Keys);
    MaxSeqIsCount(t.batches);
    FindBatchSpec(t.batches, "b");
  }

  /** A page that holds batch 1, and a viewer about to open it. */
  lemma OneBatchPage(a: Stroke, payload: map<string, seq<Stroke>>) returns (w: World)
    requires "a" in payload && payload["a"] == [a]
    ensures Start(w, payload) && w == World(w.tables, [], [], Opened(BlankPaper), Offline)
    ensures w.tables.batches == [BatchRow(1, 1, "a", [a])] && w.tables.tombstones == map[]
  {
    var t := OneStored("a", a);
    w := World(t, [], [], Opened(BlankPaper), Offline);
    assert RowCarries(t.batches[0], payload, t.tombstones.Keys);
  }

  /** A viewer of an empty list at cursor 0 that its connection has welcomed. */
  ghost predicate JustWelcomed(w: World) {
    && w.log == [] && w.unpublished == [] && w.feed.batches == [] && w.feed.lastSeq == 0
    && w.connection.Online? && w.connection.position == 0 && w.connection.fromSeq == 0
    && w.connection.phase.AwaitingReplay?
    && |w.connection.wire| == 1 && w.connection.wire[0].Welcome? && w.connection.wire[0].paper == w.tables.paper
  }

  const JOIN := [Subscribed, Welcomed("s", 0, None)]

  lemma Joins(w: World, payload: map<string, seq<Stroke>>) returns (v: World)
    requires w == World(w.tables, [], [], Opened(BlankPaper), Offline)
    ensures Leads(w, JOIN, payload, v) && v.tables == w.tables && JustWelcomed(v)
  {
    var met := OneStep(w, Subscribed, payload);
    v := OneStep(met, Welcomed("s", 0, None), payload);
    LeadsOn(w, [Subscribed], met, [Welcomed("s", 0, None)], v, payload);
  }

  /** A second batch is committed. */
  lemma SecondCommits(w: World, a: Stroke, b: Stroke, payload: map<string, seq<Stroke>>) returns (v: World)
    requires "b" in payload && payload["b"] == [b] && w.unpublished == []
    requires w.tables.batches == [BatchRow(1, 1, "a", [a])] && w.tables.tombstones == map[]
    ensures Leads(w, [Committed(AddInk("b", [b]), 1)], payload, v)
    ensures v == w.(tables := v.tables, unpublished := [LiveBatch(StrokeBatch(2, "b", [b]))])
    ensures |v.tables.batches| == 2 && v.tables.batches[0].seqNo == 1 && v.tables.batches[1].seqNo == 2
  {
    SecondStored(w.tables, a, b);
    v := OneStep(w, Committed(AddInk("b", [b]), 1), payload);
  }

  /** The one unpublished message is published and forwarded. */
  lemma NewsPassesOn(w: World, news: PageServerMessage, payload: map<string, seq<Stroke>>) returns (v: World)
    requires w.unpublished == [news] && w.log == [] && w.connection.Online? && w.connection.position == 0
    requires w.connection.phase.AwaitingReplay? || w.connection.phase.ReplayLost?
    ensures Leads(w, [Published(0), Forwarded], payload, v)
    ensures v.tables == w.tables && v.feed == w.feed
    ensures v.connection.Online? && v.connection.wire == w.connection.wire + [news]
  {
    var said := OneStep(w, Published(0), payload);
    assert said.log == [news];
    v := OneStep(said, Forwarded, payload);
    LeadsOn(w, [Published(0)], said, [Forwarded], v, payload);
  }

  /** The first frame of the wire is applied. */
  lemma FirstApplied(w: World, payload: map<string, seq<Stroke>>) returns (v: World)
    requires w.connection.Online? && w.connection.wire != []
    ensures Leads(w, [Delivered], payload, v)
    ensures v.tables == w.tables && v.feed == Applied(w.feed, w.connection.wire[0])
    ensures v.connection.Online? && v.connection.wire == w.connection.wire[1..]
  {
    v := OneStep(w, Delivered, payload);
  }

  /** A batch 2 on top of nothing: once it is applied and the socket drops, batch
      1 is lost. */
  lemma LosesTheFirst(w: World, live: StrokeBatch, payload: map<string, seq<Stroke>>) returns (v: World)
    requires w.connection.Online? && w.connection.wire == [LiveBatch(live)] && live.seqNo == 2
    requires w.feed.batches == [] && w.feed.lastSeq == 0
    requires |w.tables.batches| == 2 && w.tables.batches[0].seqNo == 1 && w.tables.batches[1].seqNo == 2
    ensures Leads(w, [Delivered, Dropped], payload, v) && Lost(v, 1)
  {
    LiveBatchMoves(w.feed, live);
    var met := FirstApplied(w, payload);
    v := OneStep(met, Dropped, payload);
    LeadsOn(w, [Delivered], met, [Dropped], v, payload);
    BatchesAfterShape(v.tables.batches, 2);
  }

  /** Welcomed, and with whatever else neutral, a viewer meets batch 2 first. */
  lemma SecondFirst(w: World, a: Stroke, b: Stroke, payload: map<string, seq<Stroke>>)
    returns (events: seq<Event>, v: World)
    requires "b" in payload && payload["b"] == [b] && w.unpublished == [] && w.log == []
    requires w.tables.batches == [BatchRow(1, 1, "a", [a])] && w.tables.tombstones == map[]
    requires w.connection.Online? && w.connection.position == 0
    requires w.connection.phase.AwaitingReplay? || w.connection.phase.ReplayLost?
    ensures events == [Committed(AddInk("b", [b]), 1), Published(0), Forwarded] && Leads(w, events, payload, v)
    ensures v.feed == w.feed && v.connection.Online?
    ensures v.connection.wire == w.connection.wire + [LiveBatch(StrokeBatch(2, "b", [b]))]
    ensures |v.tables.batches| == 2 && v.tables.batches[0].seqNo == 1 && v.tables.batches[1].seqNo == 2
  {
    var stored := SecondCommits(w, a, b, payload);
    v := NewsPassesOn(stored, stored.unpublished[0], payload);
    events := [Committed(AddInk("b", [b]), 1), Published(0), Forwarded];
    LeadsOn(w, [Committed(AddInk("b", [b]), 1)], stored, [Published(0), Forwarded], v, payload);
  }

  /** A viewer just welcomed meets batch 2 before its replay, and its socket drops. */
  lemma SkipsTheFirst(joined: World, a: Stroke, b: Stroke, payload: map<string, seq<Stroke>>)
    returns (rest: seq<Event>, end: World)
    requires "b" in payload && payload["b"] == [b] && JustWelcomed(joined)
    requires joined.tables.batches == [BatchRow(1, 1, "a", [a])] && joined.tables.tombstones == map[]
    ensures rest == [Committed(AddInk("b", [b]), 1), Published(0), Forwarded, Delivered, Delivered, Dropped]
    ensures Leads(joined, rest, payload, end) && Lost(end, 1)
  {
    var arrival, met := SecondFirst(joined, a, b, payload);
    var welcomed := FirstApplied(met, payload);
    end := LosesTheFirst(welcomed, StrokeBatch(2, "b", [b]), payload);
    rest := arrival + ([Delivered] + [Delivered, Dropped]);
    LeadsOn(met, [Delivered], welcomed, [Delivered, Dropped], end, payload);
    LeadsOn(joined, arrival, met, [Delivered] + [Delivered, Dropped], end, payload);
    assert rest == [Committed(AddInk("b", [b]), 1), Published(0), Forwarded, Delivered, Delivered, Dropped];
  }

  /** A live batch before the replay. The page holds batch 1; batch 2 is committed
      and forwarded before the replay, and the socket drops. */
  lemma CursorCanSkip(a: Stroke, b: Stroke)
    returns (worlds: seq<World>, events: seq<Event>, payload: map<string, seq<Stroke>>)
    ensures IsRun(worlds, events, payload, false) && Start(worlds[0], payload)
    ensures events == JOIN + [Committed(AddInk("b", [b]), 1), Published(0), Forwarded, Delivered, Delivered, Dropped]
    ensures Lost(worlds[|events|], 1)
  {
    payload := map["a" := [a], "b" := [b]];
    var start := OneBatchPage(a, payload);
    var joined := Joins(start, payload);
    var rest, end := SkipsTheFirst(joined, a, b, payload);
    LeadsOn(start, JOIN, joined, rest, end, payload);
    events := JOIN + rest;
    worlds := LeadsIsRun(start, events, payload, end);
  }

  /** One read of the replay fails, and the viewer is told. */
  lemma FailsToReplay(w: World, payload: map<string, seq<Stroke>>) returns (v: World)
    requires JustWelcomed(w)
    ensures Leads(w, [ReplayFailed, Delivered, Delivered], payload, v)
    ensures v.tables == w.tables && v.log == [] && v.unpublished == [] && v.feed.batches == [] && v.feed.lastSeq == 0
    ensures v.connection.Online? && v.connection.position == 0 && v.connection.phase.ReplayLost?
    ensures v.connection.wire == []
  {
    var failed := OneStep(w, ReplayFailed, payload);
    var welcomed := OneStep(failed, Delivered, payload);
    v := OneStep(welcomed, Delivered, payload);
    LeadsOn(w, [ReplayFailed], failed, [Delivered], welcomed, payload);
    LeadsOn(w, [ReplayFailed, Delivered], welcomed, [Delivered], v, payload);
  }

  /** A replay that failed. One read fails, so no replay is sent; the socket stays
      open and passes batch 2 on, with nothing concurrent anywhere. */
  lemma FailedReplayCanSkip(a: Stroke, b: Stroke)
    returns (worlds: seq<World>, events: seq<Event>, payload: map<string, seq<Stroke>>)
    ensures IsRun(worlds, events, payload, false) && Start(worlds[0], payload)
    ensures events == JOIN + [ReplayFailed, Delivered, Delivered,
                              Committed(AddInk("b", [b]), 1), Published(0), Forwarded, Delivered, Dropped]
    ensures Lost(worlds[|events|], 1)
  {
    payload := map["a" := [a], "b" := [b]];
    var start := OneBatchPage(a, payload);
    var joined := Joins(start, payload);
    var failed := FailsToReplay(joined, payload);
    var arrival, met := SecondFirst(failed, a, b, payload);
    var end := LosesTheFirst(met, StrokeBatch(2, "b", [b]), payload);
    LeadsOn(failed, arrival, met, [Delivered, Dropped], end, payload);
    var rest := [ReplayFailed, Delivered, Delivered] + (arrival + [Delivered, Dropped]);
    LeadsOn(joined, [ReplayFailed, Delivered, Delivered], failed, arrival + [Delivered, Dropped], end, payload);
    LeadsOn(start, JOIN, joined, rest, end, payload);
    assert rest == [ReplayFailed, Delivered, Delivered,
                    Committed(AddInk("b", [b]), 1), Published(0), Forwarded, Delivered, Dropped];
    events := JOIN + rest;
    worlds := LeadsIsRun(start, events, payload, end);
  }

  /** The rows are read, and then batch 2 is committed. */
  lemma ReadsThenCommits(w: World, a: Stroke, b: Stroke, payload: map<string, seq<Stroke>>) returns (v: World)
    requires "b" in payload && payload["b"] == [b] && JustWelcomed(w)
    requires w.tables.batches == [BatchRow(1, 1, "a", [a])] && w.tables.tombstones == map[]
    ensures Leads(w, [RowsLoaded, Committed(AddInk("b", [b]), 1)], payload, v)
    ensures v.feed == w.feed && v.connection.Online? && v.connection.wire == w.connection.wire
    ensures v.connection.fromSeq == 0 && v.connection.phase == RowsRead([StrokeBatch(1, "a", [a])], 1)
    ensures |v.tables.batches| == 2 && v.tables.batches[0].seqNo == 1 && v.tables.batches[1].seqNo == 2
  {
    var read := OneStep(w, RowsLoaded, payload);
    BatchesAfterShape(w.tables.batches, 0);
    MaxSeqIsCount(w.tables.batches);
    assert BatchesAfter(w.tables.batches, 0) == [StrokeBatch(1, "a", [a])];
    v := SecondCommits(read, a, b, payload);
    LeadsOn(w, [RowsLoaded], read, [Committed(AddInk("b", [b]), 1)], v, payload);
  }

  /** The rest of the reads are made, and the replay is sent as one frame. */
  lemma ReplaysLate(w: World, a: Stroke, payload: map<string, seq<Stroke>>) returns (v: World)
    requires w.connection.Online? && w.connection.fromSeq == 0
    requires w.connection.phase == RowsRead([StrokeBatch(1, "a", [a])], 1)
    requires |w.tables.batches| == 2 && w.tables.batches[0].seqNo == 1 && w.tables.batches[1].seqNo == 2
    ensures Leads(w, [TombstonesLoaded, ReplaySent(true, true)], payload, v)
    ensures v.feed == w.feed && v.tables == w.tables && v.connection.Online?
    ensures |v.connection.wire| == |w.connection.wire| + 1
    ensures var replay := v.connection.wire[|w.connection.wire|];
      && v.connection.wire == w.connection.wire + [replay]
      && replay.PageReplay? && replay.lastSeq == 2 && Seqs(replay.batches) == {1}
  {
    var rows, gone := [StrokeBatch(1, "a", [a])], TombstonedIds(w.tables.erasures);
    SeqsOfRetained(rows, gone);
    assert Seqs(rows) == {1} + Seqs(rows[1..]) && rows[1..] == [];
    MaxSeqIsCount(w.tables.batches);
    var erased := OneStep(w, TombstonesLoaded, payload);
    v := OneStep(erased, ReplaySent(true, true), payload);
    LeadsOn(w, [TombstonesLoaded], erased, [ReplaySent(true, true)], v, payload);
  }

  lemma ReplayMoves(feed: Feed, replay: PageServerMessage)
    requires replay.PageReplay?
    ensures var f := Applied(feed, replay);
      Seqs(f.batches) == Seqs(feed.batches) + Seqs(replay.batches) && f.lastSeq == Max(feed.lastSeq, replay.lastSeq)
  {
    AppliedShape(feed, replay);
    ApplyAddsSeqs(feed, replay);
  }

  /** That replay takes the cursor to 2 with batch 1 alone; if the socket drops
      before batch 2 comes, it is lost. */
  lemma LosesTheSecond(w: World, payload: map<string, seq<Stroke>>) returns (v: World)
    requires w.connection.Online? && |w.connection.wire| == 2 && w.connection.wire[0].Welcome?
    requires w.connection.wire[1].PageReplay? && w.connection.wire[1].lastSeq == 2
    requires Seqs(w.connection.wire[1].batches) == {1}
    requires w.feed.batches == [] && w.feed.lastSeq == 0
    requires |w.tables.batches| == 2 && w.tables.batches[0].seqNo == 1 && w.tables.batches[1].seqNo == 2
    ensures Leads(w, [Delivered, Delivered, Dropped], payload, v) && Lost(v, 2)
  {
    var welcomed := FirstApplied(w, payload);
    ReplayMoves(welcomed.feed, w.connection.wire[1]);
    var replayed := FirstApplied(welcomed, payload);
    v := OneStep(replayed, Dropped, payload);
    LeadsOn(w, [Delivered], welcomed, [Delivered], replayed, payload);
    LeadsOn(w, [Delivered, Delivered], replayed, [Dropped], v, payload);
    BatchesAfterShape(v.tables.batches, 2);
  }

  lemma ReplaysLateAndDrops(w: World, a: Stroke, payload: map<string, seq<Stroke>>)
    returns (events: seq<Event>, v: World)
    requires w.connection.Online? && w.connection.fromSeq == 0
    requires w.connection.phase == RowsRead([StrokeBatch(1, "a", [a])], 1)
    requires |w.connection.wire| == 1 && w.connection.wire[0].Welcome? && w.feed.batches == [] && w.feed.lastSeq == 0
    requires |w.tables.batches| == 2 && w.tables.batches[0].seqNo == 1 && w.tables.batches[1].seqNo == 2
    ensures events == [TombstonesLoaded, ReplaySent(true, true)] + [Delivered, Delivered, Dropped]
    ensures Leads(w, events, payload, v) && Lost(v, 2)
  {
    var replayed := ReplaysLate(w, a, payload);
    v := LosesTheSecond(replayed, payload);
    events := [TombstonesLoaded, ReplaySent(true, true)] + [Delivered, Delivered, Dropped];
    LeadsOn(w, [TombstonesLoaded, ReplaySent(true, true)], replayed, [Delivered, Delivered, Dropped], v, payload);
  }

  /** A head read after the rows. Batch 2 is committed between the two reads, and
      the socket drops after the replay and before its news. */
  lemma LateHeadCanSkip(a: Stroke, b: Stroke)
    returns (worlds: seq<World>, events: seq<Event>, payload: map<string, seq<Stroke>>)
    ensures IsRun(worlds, events, payload, false) && Start(worlds[0], payload)
    ensures events == JOIN + ([RowsLoaded, Committed(AddInk("b", [b]), 1)]
                              + ([TombstonesLoaded, ReplaySent(true, true)] + [Delivered, Delivered, Dropped]))
    ensures Lost(worlds[|events|], 2)
  {
    payload := map["a" := [a], "b" := [b]];
    var start := OneBatchPage(a, payload);
    var joined := Joins(start, payload);
    var read := ReadsThenCommits(joined, a, b, payload);
    var rest, end := ReplaysLateAndDrops(read, a, payload);
    LeadsOn(joined, [RowsLoaded, Committed(AddInk("b", [b]), 1)], read, rest, end, payload);
    rest := [RowsLoaded, Committed(AddInk("b", [b]), 1)] + rest;
    LeadsOn(start, JOIN, joined, rest, end, payload);
    events := JOIN + rest;
    worlds := LeadsIsRun(start, events, payload, end);
  }

  // ---- News out of order --------------------------------------------------

  /** A viewer at cursor 0 that shows nothing and has its replay. */
  ghost predicate JustReplayed(w: World) {
    && w.log == [] && w.feed.batches == [] && w.feed.lastSeq == 0
    && w.connection.Online? && w.connection.position == 0 && w.connection.wire == []
    && w.connection.phase.Replayed? && w.connection.gapFree
  }

  const REPLAY := [RowsLoaded, TombstonesLoaded, ReplaySent(true, true)]

  /** A new page is opened. */
  lemma OpensNewPage(payload: map<string, seq<Stroke>>) returns (start: World, v: World)
    ensures Start(start, payload) && Leads(start, JOIN + REPLAY + [Delivered, Delivered], payload, v)
    ensures v.tables == Fresh(BlankPaper, 0) && v.unpublished == [] && JustReplayed(v) && v.feed.paper == BlankPaper
  {
    start := World(Fresh(BlankPaper, 0), [], [], Opened(BlankPaper), Offline);
    FreshIsSound(BlankPaper, 0);
    var joined := Joins(start, payload);
    assert joined.connection.gapFree;
    var sent := ReplaysNothing(joined, payload);
    v := AppliesNothing(sent, payload);
    LeadsOn(joined, REPLAY, sent, [Delivered, Delivered], v, payload);
    LeadsOn(start, JOIN, joined, REPLAY + [Delivered, Delivered], v, payload);
    assert JOIN + (REPLAY + [Delivered, Delivered]) == JOIN + REPLAY + [Delivered, Delivered];
  }

  lemma ReplaysNothing(w: World, payload: map<string, seq<Stroke>>) returns (v: World)
    requires w.tables == Fresh(BlankPaper, 0) && JustWelcomed(w) && w.connection.gapFree
    ensures Leads(w, REPLAY, payload, v)
    ensures v.tables == w.tables && v.unpublished == [] && v.log == [] && v.feed == w.feed
    ensures v.connection.Online? && v.connection.position == 0 && v.connection.gapFree && v.connection.phase.Replayed?
    ensures v.connection.wire == [w.connection.wire[0], PageReplay(0, [], [])]
  {
    var rows := OneStep(w, RowsLoaded, payload);
    var erased := OneStep(rows, TombstonesLoaded, payload);
    v := OneStep(erased, ReplaySent(true, true), payload);
    LeadsOn(w, [RowsLoaded], rows, [TombstonesLoaded], erased, payload);
    LeadsOn(w, [RowsLoaded, TombstonesLoaded], erased, [ReplaySent(true, true)], v, payload);
    ThreeReplaySteps();
  }

  lemma ThreeReplaySteps()
    ensures [RowsLoaded] + [TombstonesLoaded] == [RowsLoaded, TombstonesLoaded]
    ensures [RowsLoaded, TombstonesLoaded] + [ReplaySent(true, true)] == REPLAY
  {
  }

  lemma AppliesNothing(w: World, payload: map<string, seq<Stroke>>) returns (v: World)
    requires w.log == [] && w.feed.batches == [] && w.feed.lastSeq == 0
    requires w.connection.Online? && w.connection.position == 0 && w.connection.gapFree && w.connection.phase.Replayed?
    requires |w.connection.wire| == 2 && w.connection.wire[0].Welcome? && w.connection.wire[1] == PageReplay(0, [], [])
    ensures Leads(w, [Delivered, Delivered], payload, v)
    ensures v.tables == w.tables && v.unpublished == w.unpublished && JustReplayed(v)
    ensures v.feed.paper == w.connection.wire[0].paper
  {
    var welcomed := OneStep(w, Delivered, payload);
    v := OneStep(welcomed, Delivered, payload);
    LeadsOn(w, [Delivered], welcomed, [Delivered], v, payload);
  }

  function Passes(k: nat): seq<Event> { [Published(k), Forwarded, Delivered] }

  /** One unpublished message goes all the way to an idle viewer. */
  lemma PassesOn(w: World, k: nat, payload: map<string, seq<Stroke>>) returns (v: World)
    requires k < |w.unpublished| && w.connection.Online? && w.connection.phase.Replayed?
    requires w.connection.wire == [] && w.connection.position == |w.log|
    ensures Leads(w, Passes(k), payload, v)
    ensures v.tables == w.tables && v.unpublished == w.unpublished[..k] + w.unpublished[k + 1..]
    ensures v.feed == Applied(w.feed, w.unpublished[k])
    ensures v.connection.Online? && v.connection.phase.Replayed? && v.connection.gapFree == w.connection.gapFree
    ensures v.connection.wire == [] && v.connection.position == |v.log|
  {
    var said := OneStep(w, Published(k), payload);
    var sent := OneStep(said, Forwarded, payload);
    v := OneStep(sent, Delivered, payload);
    LeadsOn(w, [Published(k)], said, [Forwarded], sent, payload);
    LeadsOn(w, [Published(k), Forwarded], sent, [Delivered], v, payload);
    assert [Published(k), Forwarded] + [Delivered] == Passes(k);
  }

  lemma Commits(w: World, m: Mutation, now: int, payload: map<string, seq<Stroke>>) returns (v: World)
    requires m.AddInk? ==> m.key in payload && payload[m.key] == m.strokes
    ensures Leads(w, [Committed(m, now)], payload, v)
    ensures var (tables, told) := Commit(w.tables, m, now);
            v == w.(tables := tables, unpublished := Said(w.unpublished, told))
  {
    v := OneStep(w, Committed(m, now), payload);
  }

  lemma CommitsOne(w: World, a: Stroke, payload: map<string, seq<Stroke>>) returns (v: World)
    requires "a" in payload && payload["a"] == [a] && w.tables == Fresh(BlankPaper, 0) && w.unpublished == []
    ensures Leads(w, [Committed(AddInk("a", [a]), 0)], payload, v)
    ensures v == w.(tables := v.tables, unpublished := [LiveBatch(StrokeBatch(1, "a", [a]))])
    ensures v.tables.batches == [BatchRow(1, 1, "a", [a])] && v.tables.tombstones == map[] && v.tables.erasures == []
    ensures v.tables.revision == 1
  {
    SurvivingAll([a], w.tables.tombstones.Keys);
    v := Commits(w, AddInk("a", [a]), 0, payload);
  }

  lemma CommitsTwo(w: World, a: Stroke, b: Stroke, payload: map<string, seq<Stroke>>) returns (v: World)
    requires "a" in payload && payload["a"] == [a] && "b" in payload && payload["b"] == [b]
    requires w.tables == Fresh(BlankPaper, 0) && w.unpublished == [] && JustReplayed(w)
    ensures Leads(w, [Committed(AddInk("a", [a]), 0), Committed(AddInk("b", [b]), 1)], payload, v)
    ensures v == w.(tables := v.tables, unpublished := v.unpublished) && |v.unpublished| == 2
    ensures v.unpublished[1] == LiveBatch(StrokeBatch(2, "b", [b]))
    ensures |v.tables.batches| == 2 && v.tables.batches[0].seqNo == 1 && v.tables.batches[1].seqNo == 2
  {
    var one := CommitsOne(w, a, payload);
    SecondStored(one.tables, a, b);
    v := Commits(one, AddInk("b", [b]), 1, payload);
    LeadsOn(w, [Committed(AddInk("a", [a]), 0)], one, [Committed(AddInk("b", [b]), 1)], v, payload);
  }

  lemma SkipsAhead(w: World, a: Stroke, b: Stroke, payload: map<string, seq<Stroke>>)
    returns (events: seq<Event>, v: World)
    requires "a" in payload && payload["a"] == [a] && "b" in payload && payload["b"] == [b]
    requires w.tables == Fresh(BlankPaper, 0) && w.unpublished == [] && JustReplayed(w)
    ensures events == [Committed(AddInk("a", [a]), 0), Committed(AddInk("b", [b]), 1)] + Passes(1) + [Dropped]
    ensures Leads(w, events, payload, v) && Lost(v, 1)
  {
    var both := CommitsTwo(w, a, b, payload);
    var passed := PassesOn(both, 1, payload);
    LiveBatchMoves(both.feed, both.unpublished[1].batch);
    v := OneStep(passed, Dropped, payload);
    BatchesAfterShape(v.tables.batches, 2);
    var commits := [Committed(AddInk("a", [a]), 0), Committed(AddInk("b", [b]), 1)];
    LeadsOn(w, commits, both, Passes(1), passed, payload);
    LeadsOn(w, commits + Passes(1), passed, [Dropped], v, payload);
    events := commits + Passes(1) + [Dropped];
  }

  /** Two batches are committed and the second is published first; the socket
      drops between the two, and batch 1 is lost. */
  lemma BatchesOutOfOrderSkip(a: Stroke, b: Stroke)
    returns (worlds: seq<World>, events: seq<Event>, payload: map<string, seq<Stroke>>)
    ensures IsRun(worlds, events, payload, false) && Start(worlds[0], payload)
    ensures events == JOIN + REPLAY + [Delivered, Delivered]
                      + ([Committed(AddInk("a", [a]), 0), Committed(AddInk("b", [b]), 1)] + Passes(1) + [Dropped])
    ensures Lost(worlds[|events|], 1)
  {
    payload := map["a" := [a], "b" := [b]];
    var start, page := OpensNewPage(payload);
    var rest, end := SkipsAhead(page, a, b, payload);
    LeadsOn(start, JOIN + REPLAY + [Delivered, Delivered], page, rest, end, payload);
    events := JOIN + REPLAY + [Delivered, Delivered] + rest;
    worlds := LeadsIsRun(start, events, payload, end);
  }

  lemma DistinctPair(ids: seq<string>)
    requires NoRepeats(ids) && |ids| > 1
    ensures ids[0] != ids[1]
  {
  }

  lemma OneErased(t: Tables, a: Stroke)
    requires t.batches == [BatchRow(1, 1, "a", [a])] && t.tombstones == map[] && t.erasures == [] && t.revision == 1
    ensures var (u, told) := Commit(t, EraseInk("e", [a.id]), 1);
      && told == Some(LiveTombstones(TombstoneBatch(2, "e", [a.id])))
      && u.batches == t.batches && u.tombstones.Keys == {a.id}
      && Projection(u) == [StrokeBatch(1, "a", [])]
  {
    FreshIdsSpec([a.id], {});
    var ids := FreshIds([a.id], t.tombstones.Keys);
    assert t.tombstones.Keys == {};
    assert a.id in ids;
    forall i | 0 <= i < |ids| ensures ids[i] == a.id { assert ids[i] in ids; }
    if |ids| > 1 { DistinctPair(ids); }
    assert ids == [a.id];
    assert Surviving([a], {a.id}) == [];
  }

  lemma ErasesIt(w: World, a: Stroke, payload: map<string, seq<Stroke>>) returns (v: World)
    requires "a" in payload && payload["a"] == [a]
    requires w.tables == Fresh(BlankPaper, 0) && w.unpublished == [] && JustReplayed(w)
    ensures Leads(w, [Committed(AddInk("a", [a]), 0), Committed(EraseInk("e", [a.id]), 1)], payload, v)
    ensures v == w.(tables := v.tables, unpublished := v.unpublished)
    ensures v.unpublished == [LiveBatch(StrokeBatch(1, "a", [a])), LiveTombstones(TombstoneBatch(2, "e", [a.id]))]
    ensures Projection(v.tables) == [StrokeBatch(1, "a", [])]
    ensures Commit(v.tables, EraseInk("e", [a.id]), 2) == (v.tables, Some(v.unpublished[1]))
  {
    var one := CommitsOne(w, a, payload);
    OneErased(one.tables, a);
    RetryTellsAgain(one.tables, EraseInk("e", [a.id]), 1, 2);
    v := Commits(one, EraseInk("e", [a.id]), 1, payload);
    LeadsOn(w, [Committed(AddInk("a", [a]), 0)], one, [Committed(EraseInk("e", [a.id]), 1)], v, payload);
  }

  /** All has arrived at an open, idle viewer. */
  ghost predicate Idle(w: World) {
    && w.connection.Online? && w.connection.phase.Replayed? && w.connection.gapFree
    && w.unpublished == [] && w.connection.wire == [] && w.connection.position == |w.log|
  }

  lemma ErasesBeforeInk(w: World, a: Stroke, payload: map<string, seq<Stroke>>)
    returns (events: seq<Event>, v: World)
    requires "a" in payload && payload["a"] == [a]
    requires w.tables == Fresh(BlankPaper, 0) && w.unpublished == [] && JustReplayed(w)
    ensures events == [Committed(AddInk("a", [a]), 0), Committed(EraseInk("e", [a.id]), 1)] + Passes(1) + Passes(0)
    ensures Leads(w, events, payload, v) && Idle(v)
    ensures v.feed.batches == [StrokeBatch(1, "a", [a])] && Projection(v.tables) == [StrokeBatch(1, "a", [])]
    ensures Commit(v.tables, EraseInk("e", [a.id]), 2)
         == (v.tables, Some(LiveTombstones(TombstoneBatch(2, "e", [a.id]))))
  {
    var erased := ErasesIt(w, a, payload);
    var early := PassesOn(erased, 1, payload);
    v := PassesOn(early, 0, payload);
    var commits := [Committed(AddInk("a", [a]), 0), Committed(EraseInk("e", [a.id]), 1)];
    LeadsOn(w, commits, erased, Passes(1), early, payload);
    LeadsOn(w, commits + Passes(1), early, Passes(0), v, payload);
    events := commits + Passes(1) + Passes(0);
  }

  /** News out of order. The news of an erase is published before that of the ink
      it erases; all has arrived, and the viewer still shows the ink. */
  lemma ErasePublishedFirst(a: Stroke)
    returns (worlds: seq<World>, events: seq<Event>, payload: map<string, seq<Stroke>>)
    ensures IsRun(worlds, events, payload, false) && Start(worlds[0], payload)
    ensures events == JOIN + REPLAY + [Delivered, Delivered]
                      + ([Committed(AddInk("a", [a]), 0), Committed(EraseInk("e", [a.id]), 1)] + Passes(1) + Passes(0))
    ensures Idle(worlds[|events|])
    ensures worlds[|events|].feed.batches == [StrokeBatch(1, "a", [a])]
    ensures Projection(worlds[|events|].tables) == [StrokeBatch(1, "a", [])]
  {
    payload := map["a" := [a]];
    var start, page := OpensNewPage(payload);
    var rest, end := ErasesBeforeInk(page, a, payload);
    LeadsOn(start, JOIN + REPLAY + [Delivered, Delivered], page, rest, end, payload);
    events := JOIN + REPLAY + [Delivered, Delivered] + rest;
    worlds := LeadsIsRun(start, events, payload, end);
  }

  /** And the erase tried again repairs it: its news is told once more, after the
      ink's, and the viewer shows the page. */
  lemma RetryRepairs(a: Stroke)
    returns (worlds: seq<World>, events: seq<Event>, payload: map<string, seq<Stroke>>)
    ensures IsRun(worlds, events, payload, false) && Start(worlds[0], payload)
    ensures events == JOIN + REPLAY + [Delivered, Delivered]
                      + ([Committed(AddInk("a", [a]), 0), Committed(EraseInk("e", [a.id]), 1)] + Passes(1) + Passes(0))
                      + ([Committed(EraseInk("e", [a.id]), 2)] + Passes(0))
    ensures Idle(worlds[|events|])
    ensures worlds[|events|].feed.batches == Projection(worlds[|events|].tables) == [StrokeBatch(1, "a", [])]
  {
    payload := map["a" := [a]];
    var start, page := OpensNewPage(payload);
    var mess, wrong := ErasesBeforeInk(page, a, payload);
    var repair, end := ErasesAgain(wrong, a, payload);
    var opening := JOIN + REPLAY + [Delivered, Delivered];
    LeadsOn(start, opening, page, mess, wrong, payload);
    LeadsOn(start, opening + mess, wrong, repair, end, payload);
    events := opening + mess + repair;
    worlds := LeadsIsRun(start, events, payload, end);
  }

  lemma ErasesAgain(w: World, a: Stroke, payload: map<string, seq<Stroke>>) returns (events: seq<Event>, v: World)
    requires Idle(w) && w.feed.batches == [StrokeBatch(1, "a", [a])]
    requires Commit(w.tables, EraseInk("e", [a.id]), 2)
          == (w.tables, Some(LiveTombstones(TombstoneBatch(2, "e", [a.id]))))
    ensures events == [Committed(EraseInk("e", [a.id]), 2)] + Passes(0) && Leads(w, events, payload, v)
    ensures Idle(v) && v.tables == w.tables && v.feed.batches == [StrokeBatch(1, "a", [])]
  {
    var told := Commits(w, EraseInk("e", [a.id]), 2, payload);
    v := PassesOn(told, 0, payload);
    events := [Committed(EraseInk("e", [a.id]), 2)] + Passes(0);
    LeadsOn(w, [Committed(EraseInk("e", [a.id]), 2)], told, Passes(0), v, payload);
    var b := StrokeBatch(1, "a", [a]);
    assert ToSet([a.id]) == {a.id};
    assert Surviving([a], {a.id}) == [] && Trimmed(b, {a.id}) == StrokeBatch(1, "a", []);
    assert Retained([b], {a.id}) == [Trimmed(b, {a.id})] + Retained([b][1..], {a.id}) && [b][1..] == [];
  }

  // ---- Acknowledgements lost ----------------------------------------------

  /** A paper whose acknowledgement was lost is stored, its retry finds it in force
      and tells nobody else, and an idle viewer keeps the old one. */
  lemma UnheardPaperIsNeverTold(paper: Paper)
    returns (worlds: seq<World>, events: seq<Event>, payload: map<string, seq<Stroke>>)
    requires !paper.BlankPaper?
    ensures IsRun(worlds, events, payload, false) && Start(worlds[0], payload)
    ensures events == JOIN + REPLAY + [Delivered, Delivered]
                      + [CommittedUnheard(Repaper(paper), 0), Committed(Repaper(paper), 1)]
    ensures Idle(worlds[|events|])
    ensures worlds[|events|].tables.paper == paper && worlds[|events|].feed.paper == BlankPaper
  {
    payload := map[];
    var start, page := OpensNewPage(payload);
    var stored := OneStep(page, CommittedUnheard(Repaper(paper), 0), payload);
    RetryTellsAgain(page.tables, Repaper(paper), 0, 1);
    var end := OneStep(stored, Committed(Repaper(paper), 1), payload);
    var opening := JOIN + REPLAY + [Delivered, Delivered];
    LeadsOn(page, [CommittedUnheard(Repaper(paper), 0)], stored, [Committed(Repaper(paper), 1)], end, payload);
    LeadsOn(start, opening, page, [CommittedUnheard(Repaper(paper), 0), Committed(Repaper(paper), 1)], end, payload);
    events := opening + [CommittedUnheard(Repaper(paper), 0), Committed(Repaper(paper), 1)];
    worlds := LeadsIsRun(start, events, payload, end);
  }

  /** Ink whose acknowledgement was lost is passed over by the next batch; if the
      socket drops before it is tried again, it is lost. */
  lemma UnheardBatchIsSkipped(a: Stroke, b: Stroke)
    returns (worlds: seq<World>, events: seq<Event>, payload: map<string, seq<Stroke>>)
    ensures IsRun(worlds, events, payload, false) && Start(worlds[0], payload)
    ensures var between := [CommittedUnheard(AddInk("a", [a]), 0), Committed(AddInk("b", [b]), 1)];
            events == JOIN + REPLAY + [Delivered, Delivered] + (between + Passes(0) + [Dropped])
    ensures Lost(worlds[|events|], 1)
  {
    payload := map["a" := [a], "b" := [b]];
    var start, page := OpensNewPage(payload);
    var rest, end := SkipsUnheard(page, a, b, payload);
    LeadsOn(start, JOIN + REPLAY + [Delivered, Delivered], page, rest, end, payload);
    events := JOIN + REPLAY + [Delivered, Delivered] + rest;
    worlds := LeadsIsRun(start, events, payload, end);
  }

  lemma CommitsUnheardFirst(w: World, a: Stroke, b: Stroke, payload: map<string, seq<Stroke>>) returns (v: World)
    requires "a" in payload && payload["a"] == [a] && "b" in payload && payload["b"] == [b]
    requires w.tables == Fresh(BlankPaper, 0) && w.unpublished == [] && JustReplayed(w)
    ensures Leads(w, [CommittedUnheard(AddInk("a", [a]), 0), Committed(AddInk("b", [b]), 1)], payload, v)
    ensures v == w.(tables := v.tables, unpublished := [LiveBatch(StrokeBatch(2, "b", [b]))])
    ensures |v.tables.batches| == 2 && v.tables.batches[0].seqNo == 1 && v.tables.batches[1].seqNo == 2
  {
    var heard := CommitsOne(w, a, payload);
    var one := OneStep(w, CommittedUnheard(AddInk("a", [a]), 0), payload);
    assert one.tables == heard.tables;
    SecondStored(one.tables, a, b);
    v := Commits(one, AddInk("b", [b]), 1, payload);
    LeadsOn(w, [CommittedUnheard(AddInk("a", [a]), 0)], one, [Committed(AddInk("b", [b]), 1)], v, payload);
  }

  lemma SkipsUnheard(w: World, a: Stroke, b: Stroke, payload: map<string, seq<Stroke>>)
    returns (events: seq<Event>, v: World)
    requires "a" in payload && payload["a"] == [a] && "b" in payload && payload["b"] == [b]
    requires w.tables == Fresh(BlankPaper, 0) && w.unpublished == [] && JustReplayed(w)
    ensures events == [CommittedUnheard(AddInk("a", [a]), 0), Committed(AddInk("b", [b]), 1)] + Passes(0) + [Dropped]
    ensures Leads(w, events, payload, v) && Lost(v, 1)
  {
    var both := CommitsUnheardFirst(w, a, b, payload);
    var passed := PassesOn(both, 0, payload);
    LiveBatchMoves(both.feed, both.unpublished[0].batch);
    v := OneStep(passed, Dropped, payload);
    BatchesAfterShape(v.tables.batches, 2);
    var commits := [CommittedUnheard(AddInk("a", [a]), 0), Committed(AddInk("b", [b]), 1)];
    LeadsOn(w, commits, both, Passes(0), passed, payload);
    LeadsOn(w, commits + Passes(0), passed, [Dropped], v, payload);
    events := commits + Passes(0) + [Dropped];
  }
}
