/** Every run of the page channel, whatever the order of its news and whether or
    not every commit has any: what holds throughout, and exactly when a viewer
    is brought to the stored page. */
module AnyOrder {
  import opened Protocol
  import opened Store
  import opened Viewer
  import opened Hub
  import opened Dispatch
  import opened History
  import opened Convergence
  import opened Pending
  import opened Orders
  import opened PageSystem

  // ---- What holds in every run --------------------------------------------

  /** Messages about this page as it is stored. */
  ghost predicate Bounded(messages: seq<PageServerMessage>, t: Tables) {
    OfThePage(messages, t) && forall m :: m in messages ==> CursorOf(m) <= |t.batches|
  }

  ghost predicate RowsSound(w: World, payload: map<string, seq<Stroke>>) {
    && Sound(w.tables) && RowsCarry(w.tables, payload)
    && AllMatch(w.feed.batches, w.tables) && w.feed.lastSeq <= |w.tables.batches|
    && Bounded(w.unpublished, w.tables) && (forall m :: m in w.unpublished ==> IsNews(m))
  }

  ghost predicate ConnectionSound(w: World)
    requires w.connection.Online?
  {
    var c := w.connection;
    && c.position <= |w.log| && c.fromSeq <= |w.tables.batches|
    && Bounded(c.wire, w.tables) && Bounded(w.log[c.position..], w.tables)
    && (c.phase.RowsRead? || c.phase.TombstonesRead? ==> RowsAreRead(w.tables, c.fromSeq, c.phase.rows, c.phase.head))
    && (c.phase.TombstonesRead? ==> TombstonedIds(c.phase.tombstones) <= w.tables.tombstones.Keys)
  }

  ghost predicate WorldSound(w: World, payload: map<string, seq<Stroke>>) {
    RowsSound(w, payload) && (w.connection.Online? ==> ConnectionSound(w))
  }

  lemma BoundedLater(messages: seq<PageServerMessage>, t: Tables, u: Tables)
    requires Bounded(messages, t) && t.batches <= u.batches && t.tombstones.Keys <= u.tombstones.Keys
    ensures Bounded(messages, u)
  {
    forall m, b | m in messages && b in Carried(m) ensures Matches(b, u) { StillMatches(b, t, u); }
  }

  lemma BoundedConcat(a: seq<PageServerMessage>, b: seq<PageServerMessage>, t: Tables)
    ensures Bounded(a + b, t) <==> Bounded(a, t) && Bounded(b, t)
  {
    if Bounded(a + b, t) {
      assert forall m :: m in a ==> m in a + b;
      assert forall m :: m in b ==> m in a + b;
    }
  }

  lemma OneBounded(m: PageServerMessage, t: Tables)
    requires Erases(m) <= t.tombstones.Keys && CursorOf(m) <= |t.batches|
    requires forall b :: b in Carried(m) ==> Matches(b, t)
    ensures Bounded([m], t)
  {
  }

  // ---- The page changes ---------------------------------------------------

  lemma NewsIsBounded(t: Tables, u: Tables, told: Option<PageServerMessage>, messages: seq<PageServerMessage>)
    requires Announces(t, u, told) && Bounded(messages, t)
    ensures Bounded(messages, u) && Bounded(Said(messages, told), u)
  {
    BoundedLater(messages, t, u);
    if told.Some? {
      OneBounded(told.value, u);
      BoundedConcat(messages, [told.value], u);
    }
  }

  lemma PageMovesConnection(w: World, u: Tables, told: Option<PageServerMessage>, v: World)
    requires w.connection.Online? && ConnectionSound(w) && Announces(w.tables, u, told)
    requires v == w.(tables := u, unpublished := v.unpublished)
    ensures ConnectionSound(v)
  {
    var c := w.connection;
    NewsIsBounded(w.tables, u, told, c.wire);
    NewsIsBounded(w.tables, u, told, w.log[c.position..]);
    if c.phase.RowsRead? || c.phase.TombstonesRead? {
      assert u.batches[..c.phase.head] == w.tables.batches[..c.phase.head];
    }
  }

  lemma CommitKeepsWorld(w: World, e: Event, payload: map<string, seq<Stroke>>, calm: bool)
    requires WorldSound(w, payload) && Enabled(w, e, payload, calm) && (e.Committed? || e.CommittedUnheard?)
    ensures WorldSound(Next(w, e, payload, calm), payload)
  {
    var u, told := CommitKeepsRows(w.tables, e.m, e.now, payload);
    var v := Next(w, e, payload, calm);
    AllStillMatch(w.feed.batches, w.tables, u);
    NewsIsBounded(w.tables, u, told, w.unpublished);
    if w.connection.Online? {
      PageMovesConnection(w, u, told, v);
    }
  }

  // ---- The channel moves --------------------------------------------------

  lemma PublishedKeepsWorld(w: World, k: nat, payload: map<string, seq<Stroke>>, calm: bool)
    requires WorldSound(w, payload) && Enabled(w, Published(k), payload, calm)
    ensures WorldSound(Next(w, Published(k), payload, calm), payload)
  {
    var v, n := Next(w, Published(k), payload, calm), w.unpublished[k];
    StillNews(w.unpublished, k);
    assert forall m :: m in v.unpublished ==> m in w.unpublished;
    if w.connection.Online? {
      var queued := w.log[w.connection.position..];
      assert n in w.unpublished;
      OneBounded(n, w.tables);
      BoundedConcat(queued, [n], w.tables);
      assert v.log[w.connection.position..] == queued + [n];
    }
  }

  lemma LeaseKeepsWorld(w: World, holder: Option<string>, payload: map<string, seq<Stroke>>, calm: bool)
    requires WorldSound(w, payload)
    ensures WorldSound(Next(w, LeaseAnnounced(holder), payload, calm), payload)
  {
    if w.connection.Online? {
      var queued, v := w.log[w.connection.position..], Next(w, LeaseAnnounced(holder), payload, calm);
      OneBounded(LeaseChanged(holder), w.tables);
      BoundedConcat(queued, [LeaseChanged(holder)], w.tables);
      assert v.log[w.connection.position..] == queued + [LeaseChanged(holder)];
    }
  }

  lemma ForwardedKeepsWorld(w: World, payload: map<string, seq<Stroke>>, calm: bool)
    requires WorldSound(w, payload) && Enabled(w, Forwarded, payload, calm)
    ensures WorldSound(Next(w, Forwarded, payload, calm), payload)
  {
    var c, m := w.connection, w.log[w.connection.position];
    assert w.log[c.position..] == [m] + w.log[c.position + 1..];
    BoundedConcat([m], w.log[c.position + 1..], w.tables);
    BoundedConcat(c.wire, [m], w.tables);
  }

  lemma DeliveredKeepsWorld(w: World, payload: map<string, seq<Stroke>>, calm: bool)
    requires WorldSound(w, payload) && Enabled(w, Delivered, payload, calm)
    ensures WorldSound(Next(w, Delivered, payload, calm), payload)
  {
    var wire := w.connection.wire;
    assert wire == [wire[0]] + wire[1..];
    BoundedConcat([wire[0]], wire[1..], w.tables);
    assert wire[0] in [wire[0]];
    MessageKeepsMatch(w.feed, wire[0], w.tables);
    AppliedShape(w.feed, wire[0]);
  }

  // ---- The connection starts ----------------------------------------------

  lemma OwnFramesKeepWorld(w: World, frames: seq<PageServerMessage>, v: World, payload: map<string, seq<Stroke>>)
    requires w.connection.Online? && WorldSound(w, payload) && Bounded(frames, w.tables)
    requires v.connection.Online?
    requires v == w.(connection := w.connection.SendOwn(frames).(phase := v.connection.phase))
    requires !v.connection.phase.RowsRead? && !v.connection.phase.TombstonesRead?
    ensures WorldSound(v, payload)
  {
    BoundedConcat(w.connection.wire, frames, w.tables);
  }

  lemma {:induction false} BatchFramesAre(batches: seq<StrokeBatch>)
    ensures forall m :: m in BatchFrames(batches) ==> m.LiveBatch? && m.batch in batches
  {
    if batches != [] {
      BatchFramesAre(batches[1..]);
      assert forall b :: b in batches[1..] ==> b in batches;
    }
  }

  lemma {:induction false} TombstoneFramesAre(tombstones: seq<TombstoneBatch>)
    ensures forall m :: m in TombstoneFrames(tombstones) ==> m.LiveTombstones? && Erases(m) <= TombstonedIds(tombstones)
  {
    if tombstones != [] { TombstoneFramesAre(tombstones[1..]); }
  }

  lemma ReplayIsBounded(
      coalesce: bool, lastSeq: nat, rows: seq<StrokeBatch>, tombstones: seq<TombstoneBatch>, t: Tables)
    requires lastSeq <= |t.batches| && TombstonedIds(tombstones) <= t.tombstones.Keys
    requires forall b :: b in rows ==> Matches(b, t)
    ensures Bounded(ReplayMessages(coalesce, lastSeq, rows, tombstones), t)
  {
    var kept := Retained(rows, TombstonedIds(tombstones));
    RowsTrimmed(rows, TombstonedIds(tombstones), t);
    if !coalesce {
      BatchFramesAre(kept);
      TombstoneFramesAre(tombstones);
    }
  }

  lemma ReplaySentKeepsWorld(w: World, headRead: bool, coalesce: bool, payload: map<string, seq<Stroke>>, calm: bool)
    requires WorldSound(w, payload) && Enabled(w, ReplaySent(headRead, coalesce), payload, calm)
    ensures WorldSound(Next(w, ReplaySent(headRead, coalesce), payload, calm), payload)
  {
    var c := w.connection;
    var lastSeq := if headRead then MaxSeq(w.tables.batches) else c.fromSeq;
    MaxSeqIsCount(w.tables.batches);
    ReadRowsMatch(w.tables, c.fromSeq, c.phase.head);
    ReplayIsBounded(coalesce, lastSeq, c.phase.rows, c.phase.tombstones, w.tables);
    OwnFramesKeepWorld(w, ReplayMessages(coalesce, lastSeq, c.phase.rows, c.phase.tombstones),
                       Next(w, ReplaySent(headRead, coalesce), payload, calm), payload);
  }

  lemma StartKeepsWorld(w: World, e: Event, payload: map<string, seq<Stroke>>, calm: bool)
    requires WorldSound(w, payload) && Enabled(w, e, payload, calm)
    requires e.Subscribed? || e.Welcomed? || e.RowsLoaded? || e.TombstonesLoaded? || e.ReplayFailed? || e.Dropped?
    ensures WorldSound(Next(w, e, payload, calm), payload)
  {
    MaxSeqIsCount(w.tables.batches);
    if e.Subscribed? {
      assert w.log[|w.log|..] == [];
    } else if e.Welcomed? {
      var frames := [Welcome(e.sessionId, e.head, e.holder, w.tables.paper)];
      OneBounded(frames[0], w.tables);
      OwnFramesKeepWorld(w, frames, Next(w, e, payload, calm), payload);
    } else if e.RowsLoaded? {
      assert w.tables.batches[..|w.tables.batches|] == w.tables.batches;
    } else if e.ReplayFailed? {
      OneBounded(REPLAY_FAILED, w.tables);
      OwnFramesKeepWorld(w, [REPLAY_FAILED], Next(w, e, payload, calm), payload);
    }
  }

  lemma EventKeepsWorld(w: World, e: Event, payload: map<string, seq<Stroke>>, calm: bool)
    requires WorldSound(w, payload) && Enabled(w, e, payload, calm)
    ensures WorldSound(Next(w, e, payload, calm), payload)
  {
    match e
    case Committed(_, _) => CommitKeepsWorld(w, e, payload, calm);
    case CommittedUnheard(_, _) => CommitKeepsWorld(w, e, payload, calm);
    case Published(k) => PublishedKeepsWorld(w, k, payload, calm);
    case LeaseAnnounced(holder) => LeaseKeepsWorld(w, holder, payload, calm);
    case Forwarded => ForwardedKeepsWorld(w, payload, calm);
    case Delivered => DeliveredKeepsWorld(w, payload, calm);
    case ReplaySent(headRead, coalesce) => ReplaySentKeepsWorld(w, headRead, coalesce, payload, calm);
    case _ => StartKeepsWorld(w, e, payload, calm);
  }

  lemma {:induction false} RunKeepsWorld(
      worlds: seq<World>, events: seq<Event>, payload: map<string, seq<Stroke>>, calm: bool, k: nat)
    requires IsRun(worlds, events, payload, calm) && k < |worlds| && Start(worlds[0], payload)
    ensures WorldSound(worlds[k], payload)
    decreases k
  {
    if k > 0 {
      RunKeepsWorld(worlds, events, payload, calm, k - 1);
      EventKeepsWorld(worlds[k - 1], events[k - 1], payload, calm);
    }
  }

  // ---- Exactly when a viewer comes to the page ----------------------------

  /** In every run, at every moment of every open connection, however news was
      published so far and in whatever order the rest of it is published: what is
      under way brings the viewer to the stored ink if and only if each seq comes
      right, and to the stored paper if and only if the last one named, or the one
      shown, is the page's. */
  lemma ViewerConvergesIff(
      worlds: seq<World>, events: seq<Event>, payload: map<string, seq<Stroke>>, calm: bool, k: nat,
      order: seq<PageServerMessage>)
    requires IsRun(worlds, events, payload, calm) && k < |worlds| && Start(worlds[0], payload)
    requires worlds[k].connection.Online? && multiset(order) == multiset(worlds[k].unpublished)
    ensures worlds[k].connection.position <= |worlds[k].log|
    ensures var w := worlds[k];
      var pending := w.connection.wire + w.log[w.connection.position..] + order;
      && (AppliedAll(w.feed, pending).batches == Projection(w.tables)
          <==> InkComesRight(w.feed.batches, pending, w.tables))
      && (AppliedAll(w.feed, pending).paper == w.tables.paper
          <==> PaperComesRight(w.feed.paper, pending, w.tables.paper))
  {
    RunKeepsWorld(worlds, events, payload, calm, k);
    var w := worlds[k];
    var queued := w.log[w.connection.position..];
    SameMembers(order, w.unpublished);
    BoundedConcat(w.connection.wire, queued, w.tables);
    BoundedConcat(w.connection.wire + queued, order, w.tables);
    ComesRightIff(w.feed, w.connection.wire + queued + order, w.tables);
  }

  // ---- When every commit is heard -----------------------------------------

  /** Of all that was stored, nothing is missed: a gap-free viewer holds or will be
      brought each seq, and what was stored or erased since a replay's reads is
      still to be forwarded. */
  ghost predicate NothingMissed(w: World)
    requires w.connection.Online? ==> w.connection.position <= |w.log|
  {
    w.connection.Online? ==>
      var c := w.connection;
      && (c.gapFree ==> HeldOrToCome(w))
      && (c.phase.RowsRead? || c.phase.TombstonesRead? ==> StillToCome(c.phase.head, |w.tables.batches|, Tail(w)))
      && (c.phase.TombstonesRead? ==>
            w.tables.tombstones.Keys <= TombstonedIds(c.phase.tombstones) + ErasedIn(Tail(w)))
  }

  ghost predicate StillToCome(head: nat, last: nat, tail: seq<PageServerMessage>) {
    forall s: nat :: head < s <= last ==> s in SeqsIn(tail)
  }

  ghost predicate HeldOrToCome(w: World)
    requires w.connection.Online? && w.connection.position <= |w.log|
  {
    if w.connection.phase.Replayed? then
      Complete(Seqs(w.feed.batches) + SeqsIn(w.connection.wire + Tail(w)), |w.tables.batches|)
    else GapFree(w.feed, w.connection.fromSeq)
  }

  lemma SaidTotals(messages: seq<PageServerMessage>, told: Option<PageServerMessage>)
    ensures SeqsIn(Said(messages, told)) == SeqsIn(messages) + (if told.Some? then Seqs(Carried(told.value)) else {})
    ensures ErasedIn(Said(messages, told)) == ErasedIn(messages) + (if told.Some? then Erases(told.value) else {})
  {
    if told.Some? {
      Concats(messages, [told.value], BlankPaper);
      assert [told.value][1..] == [];
    }
  }

  lemma NewSeqIsToCome(
      have: set<nat>, pending: seq<PageServerMessage>, t: Tables, u: Tables, told: Option<PageServerMessage>)
    requires Announces(t, u, told)
    ensures Complete(have + SeqsIn(pending), |t.batches|) ==> Complete(have + SeqsIn(Said(pending, told)), |u.batches|)
    ensures forall head: nat :: StillToCome(head, |t.batches|, pending) ==>
                                  StillToCome(head, |u.batches|, Said(pending, told))
  {
    NewHeadIsCarried(t, u, told);
    SaidTotals(pending, told);
    var before, after := have + SeqsIn(pending), have + SeqsIn(Said(pending, told));
    if Complete(before, |t.batches|) {
      forall s: nat | 1 <= s <= |u.batches| ensures s in after {
        if s <= |t.batches| { assert s in before; }
      }
    }
  }

  lemma ErasureIsToCome(
      gone: set<string>, pending: seq<PageServerMessage>, t: Tables, u: Tables, told: Option<PageServerMessage>)
    requires Announces(t, u, told) && t.tombstones.Keys <= gone + ErasedIn(pending)
    ensures u.tombstones.Keys <= gone + ErasedIn(Said(pending, told))
  {
    SaidTotals(pending, told);
  }

  lemma NewsMissesNothing(w: World, u: Tables, told: Option<PageServerMessage>, v: World)
    requires w.connection.Online? && w.connection.position <= |w.log| && NothingMissed(w)
    requires Announces(w.tables, u, told)
    requires v == w.(tables := u, unpublished := Said(w.unpublished, told))
    ensures NothingMissed(v)
  {
    var c := w.connection;
    SaidConcat(w.log[c.position..], w.unpublished, told);
    SaidConcat(c.wire, Tail(w), told);
    assert Tail(v) == Said(Tail(w), told);
    NewSeqIsToCome(Seqs(w.feed.batches), c.wire + Tail(w), w.tables, u, told);
    NewSeqIsToCome({}, Tail(w), w.tables, u, told);
    if c.phase.TombstonesRead? {
      ErasureIsToCome(TombstonedIds(c.phase.tombstones), Tail(w), w.tables, u, told);
    }
  }

  lemma CommitMissesNothing(w: World, m: Mutation, now: int, payload: map<string, seq<Stroke>>, calm: bool)
    requires WorldSound(w, payload) && NothingMissed(w) && Enabled(w, Committed(m, now), payload, calm)
    ensures var v := Next(w, Committed(m, now), payload, calm);
      (v.connection.Online? ==> v.connection.position <= |v.log|) && NothingMissed(v)
  {
    var u, told := CommitKeepsRows(w.tables, m, now, payload);
    var v := Next(w, Committed(m, now), payload, calm);
    if w.connection.Online? {
      NewsMissesNothing(w, u, told, v);
    }
  }

  /** The same messages are still to come, in whatever order. */
  lemma ReorderMissesNothing(w: World, v: World)
    requires w.connection.Online? && v.connection == w.connection && v.tables == w.tables && v.feed == w.feed
    requires w.connection.position <= |w.log| && w.connection.position <= |v.log|
    requires multiset(Tail(v)) == multiset(Tail(w)) && NothingMissed(w)
    ensures NothingMissed(v)
  {
    SameMembers(Tail(v), Tail(w));
    SameMembers(w.connection.wire + Tail(v), w.connection.wire + Tail(w));
  }

  lemma PublishedMissesNothing(w: World, k: nat, payload: map<string, seq<Stroke>>, calm: bool)
    requires WorldSound(w, payload) && NothingMissed(w) && Enabled(w, Published(k), payload, calm)
    ensures NothingMissed(Next(w, Published(k), payload, calm))
  {
    var v := Next(w, Published(k), payload, calm);
    if w.connection.Online? {
      PublishedTail(w, v, k);
      assert w.unpublished == w.unpublished[..k] + [w.unpublished[k]] + w.unpublished[k + 1..];
      ReorderMissesNothing(w, v);
    }
  }

  lemma LeaseMissesNothing(w: World, holder: Option<string>, payload: map<string, seq<Stroke>>, calm: bool)
    requires WorldSound(w, payload) && NothingMissed(w)
    ensures NothingMissed(Next(w, LeaseAnnounced(holder), payload, calm))
  {
    var v := Next(w, LeaseAnnounced(holder), payload, calm);
    if w.connection.Online? {
      LeaseInTail(w, v, LeaseChanged(holder));
      NeutralTotals(w.log[w.connection.position..], LeaseChanged(holder), w.unpublished, BlankPaper);
      NeutralTotals(
        w.connection.wire + w.log[w.connection.position..], LeaseChanged(holder), w.unpublished, BlankPaper);
    }
  }

  lemma ForwardedMissesNothing(w: World, payload: map<string, seq<Stroke>>, calm: bool)
    requires WorldSound(w, payload) && NothingMissed(w) && Enabled(w, Forwarded, payload, calm)
    ensures var v := Next(w, Forwarded, payload, calm);
      v.connection.Online? && v.connection.position <= |v.log| && NothingMissed(v)
  {
    HeadOfTail(w.log, w.connection.position, w.unpublished, w.connection.wire);
  }

  lemma DeliveredMissesNothing(w: World, payload: map<string, seq<Stroke>>, calm: bool)
    requires WorldSound(w, payload) && NothingMissed(w) && Enabled(w, Delivered, payload, calm)
    ensures NothingMissed(Next(w, Delivered, payload, calm))
  {
    var v := Next(w, Delivered, payload, calm);
    var m, rest := w.connection.wire[0], w.connection.wire[1..] + Tail(w);
    assert Tail(v) == Tail(w) && w.connection.wire + Tail(w) == [m] + rest;
    assert v.connection.wire + Tail(v) == rest && ([m] + rest)[1..] == rest;
    ApplyAddsSeqs(w.feed, m);
    assert Seqs(v.feed.batches) + SeqsIn(rest) == Seqs(w.feed.batches) + SeqsIn([m] + rest);
  }

  lemma ReplayBrings(coalesce: bool, lastSeq: nat, rows: seq<StrokeBatch>, tombstones: seq<TombstoneBatch>)
    ensures var frames := ReplayMessages(coalesce, lastSeq, rows, tombstones);
      SeqsIn(frames) == Seqs(rows) && ErasedIn(frames) == TombstonedIds(tombstones)
  {
    SeqsOfRetained(rows, TombstonedIds(tombstones));
    if coalesce {
      assert [BuildReplay(lastSeq, rows, tombstones)][1..] == [];
    } else {
      FramesShape(lastSeq, Retained(rows, TombstonedIds(tombstones)), tombstones, BlankPaper);
    }
  }

  lemma ReplayMissesNothing(w: World, headRead: bool, coalesce: bool, payload: map<string, seq<Stroke>>, calm: bool)
    requires WorldSound(w, payload) && NothingMissed(w) && Enabled(w, ReplaySent(headRead, coalesce), payload, calm)
    ensures NothingMissed(Next(w, ReplaySent(headRead, coalesce), payload, calm))
  {
    var c, v := w.connection, Next(w, ReplaySent(headRead, coalesce), payload, calm);
    var lastSeq := if headRead then MaxSeq(w.tables.batches) else c.fromSeq;
    var frames := ReplayMessages(coalesce, lastSeq, c.phase.rows, c.phase.tombstones);
    ReplayBrings(coalesce, lastSeq, c.phase.rows, c.phase.tombstones);
    assert Tail(v) == Tail(w);
    if c.gapFree {
      ReplayCompletes(w.feed, w.tables, c.wire, frames, Tail(w), c.fromSeq, c.phase.rows, c.phase.head);
    }
  }

  lemma StartMissesNothing(w: World, e: Event, payload: map<string, seq<Stroke>>, calm: bool)
    requires WorldSound(w, payload) && NothingMissed(w) && Enabled(w, e, payload, calm)
    requires e.Subscribed? || e.Welcomed? || e.RowsLoaded? || e.TombstonesLoaded? || e.ReplayFailed? || e.Dropped?
    ensures var v := Next(w, e, payload, calm);
      (v.connection.Online? ==> v.connection.position <= |v.log|) && NothingMissed(v)
  {
    var v := Next(w, e, payload, calm);
    MaxSeqIsCount(w.tables.batches);
    if !e.Subscribed? && !e.Dropped? { assert Tail(v) == Tail(w); }
  }

  lemma EventMissesNothing(w: World, e: Event, payload: map<string, seq<Stroke>>, calm: bool)
    requires WorldSound(w, payload) && NothingMissed(w) && Enabled(w, e, payload, calm) && !e.CommittedUnheard?
    ensures var v := Next(w, e, payload, calm);
      (v.connection.Online? ==> v.connection.position <= |v.log|) && NothingMissed(v)
  {
    match e
    case Committed(m, now) => CommitMissesNothing(w, m, now, payload, calm);
    case Published(k) => PublishedMissesNothing(w, k, payload, calm);
    case LeaseAnnounced(holder) => LeaseMissesNothing(w, holder, payload, calm);
    case Forwarded => ForwardedMissesNothing(w, payload, calm);
    case Delivered => DeliveredMissesNothing(w, payload, calm);
    case ReplaySent(headRead, coalesce) => ReplayMissesNothing(w, headRead, coalesce, payload, calm);
    case _ => StartMissesNothing(w, e, payload, calm);
  }

  lemma {:induction false} RunMissesNothing(
      worlds: seq<World>, events: seq<Event>, payload: map<string, seq<Stroke>>, calm: bool, k: nat)
    requires IsRun(worlds, events, payload, calm) && AllHeard(events) && k < |worlds| && Start(worlds[0], payload)
    ensures WorldSound(worlds[k], payload) && NothingMissed(worlds[k])
    decreases k
  {
    RunKeepsWorld(worlds, events, payload, calm, k);
    if k > 0 {
      RunMissesNothing(worlds, events, payload, calm, k - 1);
      EventMissesNothing(worlds[k - 1], events[k - 1], payload, calm);
    }
  }

  /** While every commit is heard, a gap-free viewer with its replay holds or is
      brought each seq, so that its ink comes right if and only if what is brought
      last, or else what is held, is erased from enough. */
  lemma GapFreeHasEach(
      worlds: seq<World>, events: seq<Event>, payload: map<string, seq<Stroke>>, calm: bool, k: nat, s: nat)
    requires IsRun(worlds, events, payload, calm) && AllHeard(events) && k < |worlds| && Start(worlds[0], payload)
    requires worlds[k].connection.Online? && worlds[k].connection.phase.Replayed? && worlds[k].connection.gapFree
    requires 1 <= s <= |worlds[k].tables.batches|
    ensures worlds[k].connection.position <= |worlds[k].log|
    ensures Brings(worlds[k].connection.wire + Tail(worlds[k]), s) || Version(worlds[k].feed.batches, s).Some?
  {
    var w := worlds[k];
    RunMissesNothing(worlds, events, payload, calm, k);
    assert s in Seqs(w.feed.batches) + SeqsIn(w.connection.wire + Tail(w));
    BroughtByMember(w.connection.wire + Tail(w), s);
    VersionIsHeld(w.feed.batches, s);
  }

  // ---- A replay heals -----------------------------------------------------

  lemma {:induction false} BringsConcat(a: seq<PageServerMessage>, b: seq<PageServerMessage>, s: nat)
    ensures Brings(a + b, s) <==> Brings(a, s) || Brings(b, s)
  {
    if Brings(a, s) {
      var m :| m in a && Brought(m, s).Some?;
      assert m in a + b;
    }
    if Brings(b, s) {
      var m :| m in b && Brought(m, s).Some?;
      assert m in a + b;
    }
  }

  /** What comes first does not matter where the same seq is brought again. */
  lemma {:induction false} OnlyTheLastCounts(
      front: seq<PageServerMessage>, back: seq<PageServerMessage>, s: nat, t: Tables)
    requires Brings(back, s)
    ensures LastIsErased(front + back, s, t) <==> LastIsErased(back, s, t)
    decreases |front|
  {
    if front == [] {
      assert front + back == back;
    } else {
      assert (front + back)[1..] == front[1..] + back;
      BringsConcat(front[1..], back, s);
      LastIsErasedTail(front + back, s, t);
      OnlyTheLastCounts(front[1..], back, s, t);
    }
  }

  /** Nor does it where all that the page has erased is erased behind it. */
  lemma {:induction false} ErasedBehind(
      front: seq<PageServerMessage>, back: seq<PageServerMessage>, s: nat, t: Tables)
    requires t.tombstones.Keys <= ErasedIn(back) && LastIsErased(back, s, t)
    ensures LastIsErased(front + back, s, t) && t.tombstones.Keys <= ErasedIn(front + back)
    decreases |front|
  {
    if front == [] {
      assert front + back == back;
    } else {
      assert (front + back)[0] == front[0] && (front + back)[1..] == front[1..] + back;
      ErasedBehind(front[1..], back, s, t);
      LastIsErasedTail(front + back, s, t);
    }
  }

  /** A replay in either shape, and a tail that brings nothing more of a seq. */
  lemma ReplayErases(
      coalesce: bool, lastSeq: nat, rows: seq<StrokeBatch>, tombstones: seq<TombstoneBatch>,
      tail: seq<PageServerMessage>, s: nat, t: Tables)
    requires t.tombstones.Keys <= TombstonedIds(tombstones) + ErasedIn(tail) && !Brings(tail, s)
    ensures var all := ReplayMessages(coalesce, lastSeq, rows, tombstones) + tail;
      LastIsErased(all, s, t) && t.tombstones.Keys <= ErasedIn(all)
  {
    var frames := ReplayMessages(coalesce, lastSeq, rows, tombstones);
    NoneBrought(tail, s, t);
    if coalesce {
      assert frames + tail == [frames[0]] + tail && ([frames[0]] + tail)[1..] == tail;
      LastIsErasedTail(frames + tail, s, t);
    } else {
      FramesErase(lastSeq, Retained(rows, TombstonedIds(tombstones)), tombstones, tail, s, t);
    }
  }

  /** The part of a frame-by-frame replay behind its batches. */
  lemma BehindBatches(lastSeq: nat, tombstones: seq<TombstoneBatch>, tail: seq<PageServerMessage>, s: nat, t: Tables)
    requires t.tombstones.Keys <= TombstonedIds(tombstones) + ErasedIn(tail) && !Brings(tail, s)
    ensures var back := TombstoneFrames(tombstones) + ([Synced(lastSeq)] + tail);
      LastIsErased(back, s, t) && t.tombstones.Keys <= ErasedIn(back)
  {
    var synced := [Synced(lastSeq)] + tail;
    assert synced[1..] == tail;
    BringsTail(synced, s);
    FramesBring([], tombstones, BlankPaper);
    Concats(TombstoneFrames(tombstones), synced, BlankPaper);
    TombstoneFramesAre(tombstones);
    BringsConcat(TombstoneFrames(tombstones), synced, s);
    NoneBrought(TombstoneFrames(tombstones) + synced, s, t);
  }

  lemma FramesErase(
      lastSeq: nat, kept: seq<StrokeBatch>, tombstones: seq<TombstoneBatch>, tail: seq<PageServerMessage>, s: nat,
      t: Tables)
    requires t.tombstones.Keys <= TombstonedIds(tombstones) + ErasedIn(tail) && !Brings(tail, s)
    ensures var all := BatchFrames(kept) + TombstoneFrames(tombstones) + [Synced(lastSeq)] + tail;
      LastIsErased(all, s, t) && t.tombstones.Keys <= ErasedIn(all)
  {
    Reassociate(BatchFrames(kept), TombstoneFrames(tombstones), [Synced(lastSeq)], tail);
    BehindBatches(lastSeq, tombstones, tail, s, t);
    ErasedBehind(BatchFrames(kept), TombstoneFrames(tombstones) + ([Synced(lastSeq)] + tail), s, t);
  }

  lemma SeqHeals(
      held: Option<StrokeBatch>, wire: seq<PageServerMessage>, coalesce: bool, lastSeq: nat, rows: seq<StrokeBatch>,
      tombstones: seq<TombstoneBatch>, tail: seq<PageServerMessage>, s: nat, t: Tables)
    requires t.tombstones.Keys <= TombstonedIds(tombstones) + ErasedIn(tail)
    requires held.Some? || Brings(wire + (ReplayMessages(coalesce, lastSeq, rows, tombstones) + tail), s)
    ensures ComesRight(held, wire + (ReplayMessages(coalesce, lastSeq, rows, tombstones) + tail), s, t)
       <==> (Brings(tail, s) ==> LastIsErased(tail, s, t))
  {
    var frames := ReplayMessages(coalesce, lastSeq, rows, tombstones);
    BringsConcat(wire, frames + tail, s);
    BringsConcat(frames, tail, s);
    if Brings(tail, s) {
      assert wire + (frames + tail) == (wire + frames) + tail;
      OnlyTheLastCounts(wire + frames, tail, s, t);
    } else {
      ReplayErases(coalesce, lastSeq, rows, tombstones, tail, s, t);
      ErasedBehind(wire, frames + tail, s, t);
    }
  }

  lemma InkHeals(
      feed: Feed, t: Tables, wire: seq<PageServerMessage>, coalesce: bool, lastSeq: nat, rows: seq<StrokeBatch>,
      tombstones: seq<TombstoneBatch>, tail: seq<PageServerMessage>)
    requires t.tombstones.Keys <= TombstonedIds(tombstones) + ErasedIn(tail)
    requires var all := wire + (ReplayMessages(coalesce, lastSeq, rows, tombstones) + tail);
      Complete(Seqs(feed.batches) + SeqsIn(all), |t.batches|)
    ensures var all := wire + (ReplayMessages(coalesce, lastSeq, rows, tombstones) + tail);
      InkComesRight(feed.batches, all, t) <==> LastsAreErased(tail, t)
  {
    var all := wire + (ReplayMessages(coalesce, lastSeq, rows, tombstones) + tail);
    forall s: nat | 1 <= s <= |t.batches|
      ensures ComesRight(Version(feed.batches, s), all, s, t) <==> (Brings(tail, s) ==> LastIsErased(tail, s, t))
    {
      assert s in Seqs(feed.batches) + SeqsIn(all);
      BroughtByMember(all, s);
      VersionIsHeld(feed.batches, s);
      SeqHeals(Version(feed.batches, s), wire, coalesce, lastSeq, rows, tombstones, tail, s, t);
    }
  }

  lemma PendingRightIff(w: World, payload: map<string, seq<Stroke>>)
    requires WorldSound(w, payload) && w.connection.Online?
    ensures AppliedAll(w.feed, w.connection.wire + Tail(w)).batches == Projection(w.tables)
       <==> InkComesRight(w.feed.batches, w.connection.wire + Tail(w), w.tables)
  {
    BoundedConcat(w.log[w.connection.position..], w.unpublished, w.tables);
    BoundedConcat(w.connection.wire, Tail(w), w.tables);
    ComesRightIff(w.feed, w.connection.wire + Tail(w), w.tables);
  }

  lemma SendOwnMoves(c: Connection, frames: seq<PageServerMessage>, tail: seq<PageServerMessage>)
    returns (d: Connection)
    requires c.Online?
    ensures c.SendOwn(frames).Online? && d == c.SendOwn(frames).(phase := Replayed)
    ensures d.Online? && d.phase.Replayed? && d.gapFree == c.gapFree && d.position == c.position
    ensures d.wire + tail == c.wire + (frames + tail)
  {
    var sent := c.SendOwn(frames);
    assert sent.wire == c.wire + frames;
    d := sent.(phase := Replayed);
  }

  /** What is to come once a replay is sent. */
  lemma ReplaySentMoves(w: World, headRead: bool, coalesce: bool, payload: map<string, seq<Stroke>>, calm: bool)
    returns (v: World, frames: seq<PageServerMessage>)
    requires w.connection.Online? && w.connection.position <= |w.log|
    requires Enabled(w, ReplaySent(headRead, coalesce), payload, calm)
    ensures v == Next(w, ReplaySent(headRead, coalesce), payload, calm)
    ensures var lastSeq := if headRead then MaxSeq(w.tables.batches) else w.connection.fromSeq;
      frames == ReplayMessages(coalesce, lastSeq, w.connection.phase.rows, w.connection.phase.tombstones)
    ensures v.tables == w.tables && v.feed == w.feed && v.connection.Online? && v.connection.phase.Replayed?
    ensures v.connection.gapFree == w.connection.gapFree && v.connection.position <= |v.log| && Tail(v) == Tail(w)
    ensures v.connection.wire + Tail(v) == w.connection.wire + (frames + Tail(w))
  {
    var lastSeq := if headRead then MaxSeq(w.tables.batches) else w.connection.fromSeq;
    frames := ReplayMessages(coalesce, lastSeq, w.connection.phase.rows, w.connection.phase.tombstones);
    var d := SendOwnMoves(w.connection, frames, Tail(w));
    v := w.(connection := d);
  }

  lemma ReplaySentHeals(w: World, headRead: bool, coalesce: bool, payload: map<string, seq<Stroke>>, calm: bool)
    requires WorldSound(w, payload) && w.connection.Online? && NothingMissed(w) && w.connection.gapFree
    requires Enabled(w, ReplaySent(headRead, coalesce), payload, calm)
    ensures var v := Next(w, ReplaySent(headRead, coalesce), payload, calm);
      && v.connection.Online? && v.connection.position <= |v.log|
      && (AppliedAll(v.feed, v.connection.wire + Tail(v)).batches == Projection(v.tables)
          <==> LastsAreErased(Tail(v), v.tables))
  {
    var c := w.connection;
    var v, frames := ReplaySentMoves(w, headRead, coalesce, payload, calm);
    var lastSeq := if headRead then MaxSeq(w.tables.batches) else c.fromSeq;
    ReplaySentKeepsWorld(w, headRead, coalesce, payload, calm);
    ReplayMissesNothing(w, headRead, coalesce, payload, calm);
    PendingRightIff(v, payload);
    InkHeals(w.feed, w.tables, c.wire, coalesce, lastSeq, c.phase.rows, c.phase.tombstones, Tail(w));
  }

  /** Whatever was published out of order before it, a replay heals: from the
      moment it is sent a gap-free viewer comes to the stored ink if and only if
      what is still to be forwarded ends with each seq's last batch erased from
      enough. */
  lemma ReplayHeals(
      worlds: seq<World>, events: seq<Event>, payload: map<string, seq<Stroke>>, calm: bool, k: nat)
    requires IsRun(worlds, events, payload, calm) && AllHeard(events) && k < |events| && Start(worlds[0], payload)
    requires events[k].ReplaySent? && worlds[k].connection.gapFree
    ensures var v := worlds[k + 1];
      && v.connection.Online? && v.connection.position <= |v.log|
      && (AppliedAll(v.feed, v.connection.wire + Tail(v)).batches == Projection(v.tables)
          <==> LastsAreErased(Tail(v), v.tables))
  {
    RunMissesNothing(worlds, events, payload, calm, k);
    ReplaySentHeals(worlds[k], events[k].headRead, events[k].coalesce, payload, calm);
  }
}
