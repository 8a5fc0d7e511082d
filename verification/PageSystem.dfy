/** The page channel end to end: commits, publication in any order, one viewer's
    connection with its separate reads, lag, loss and reconnects. */
module PageSystem {
  import opened Protocol
  import opened Store
  import opened Viewer
  import opened Hub
  import opened Dispatch
  import opened History
  import opened Convergence
  import opened Pending
  import opened Orders

  // ---- The machine --------------------------------------------------------

  datatype Phase =
    | AwaitingWelcome
    | AwaitingReplay
    | RowsRead(rows: seq<StrokeBatch>, head: nat)
    | TombstonesRead(rows: seq<StrokeBatch>, head: nat, tombstones: seq<TombstoneBatch>)
    | Replayed
    | ReplayLost

  /** What a connection has been sent since it was opened, each frame with where
      it came from; what of it the viewer has applied; and the viewer it met. */
  datatype Trace = Trace(sent: seq<Sent>, applied: seq<PageServerMessage>, met: Feed)

  /** A viewer's socket. `joined` is where in the channel it subscribed,
      `position` the next message to forward, `wire` the frames sent and not yet
      applied, `gapFree` whether the viewer held every stored batch up to its
      cursor when it subscribed. */
  datatype Connection =
    | Offline
    | Online(fromSeq: nat, joined: nat, position: nat, wire: seq<PageServerMessage>,
             phase: Phase, gapFree: bool, trace: Trace)
  {
    /** Frames of the connection's own: a welcome or a replay's. */
    function SendOwn(frames: seq<PageServerMessage>): Connection
      requires Online?
    {
      this.(wire := wire + frames, trace := trace.(sent := trace.sent + AllOwn(frames)))
    }

    /** The next message of the channel, passed on. */
    function Relay(message: PageServerMessage): Connection
      requires Online?
    {
      this.(wire := wire + [message],
            position := position + 1,
            trace := trace.(sent := trace.sent + [Relayed(message)]))
    }

    /** The first frame of the wire, applied by the viewer. */
    function TakeIn(): Connection
      requires Online? && wire != []
    {
      this.(wire := wire[1..], trace := trace.(applied := trace.applied + [wire[0]]))
    }
  }

  function Joined(feed: Feed, at: nat, gapFree: bool): Connection {
    Online(feed.lastSeq, at, at, [], AwaitingWelcome, gapFree, Trace([], [], feed))
  }

  /** `unpublished` are commits whose news has not reached the channel yet, in
      commit order; any of them may be the next to reach it. */
  datatype World = World(
    tables: Tables, unpublished: seq<PageServerMessage>, log: seq<PageServerMessage>,
    feed: Feed, connection: Connection)

  datatype Event =
    | Committed(m: Mutation, now: int)
    | CommittedUnheard(m: Mutation, now: int)
    | Published(k: nat)
    | LeaseAnnounced(holder: Option<string>)
    | Subscribed
    | Welcomed(sessionId: string, head: nat, holder: Option<string>)
    | Forwarded
    | RowsLoaded
    | TombstonesLoaded
    | ReplaySent(headRead: bool, coalesce: bool)
    | ReplayFailed
    | Delivered
    | Dropped

  ghost predicate GapFree(feed: Feed, cursor: nat) { Complete(Seqs(feed.batches), cursor) }

  predicate SomeBatch(messages: seq<PageServerMessage>) {
    exists m :: m in messages && m.LiveBatch?
  }

  /** When an event can happen. Adds follow `payload`: a key's retries carry what
      it first carried. A commit whose acknowledgement is lost has no news.
      `calm` adds what the code leaves to timing: every commit is acknowledged, the
      head is read where the rows were, no live batch is forwarded without a replay
      before it, and none is published ahead of another. */
  ghost predicate Enabled(w: World, e: Event, payload: map<string, seq<Stroke>>, calm: bool) {
    var c := w.connection;
    match e
    case Committed(m, _) => m.AddInk? ==> m.key in payload && payload[m.key] == m.strokes
    case CommittedUnheard(m, _) => !calm && (m.AddInk? ==> m.key in payload && payload[m.key] == m.strokes)
    case Published(k) =>
      && k < |w.unpublished|
      && (calm && w.unpublished[k].LiveBatch? ==> !SomeBatch(w.unpublished[..k]))
    case LeaseAnnounced(_) => true
    case Subscribed => c.Offline?
    case Welcomed(_, head, _) => c.Online? && c.phase.AwaitingWelcome? && head <= MaxSeq(w.tables.batches)
    case Forwarded =>
      && c.Online? && (c.phase.AwaitingReplay? || c.phase.Replayed? || c.phase.ReplayLost?)
      && Receive(w.log, c.position).Message?
      && (calm && !c.phase.Replayed? ==> !Receive(w.log, c.position).message.LiveBatch?)
    case RowsLoaded => c.Online? && c.phase.AwaitingReplay?
    case TombstonesLoaded => c.Online? && c.phase.RowsRead?
    case ReplaySent(headRead, _) =>
      && c.Online? && c.phase.TombstonesRead?
      && (calm && headRead ==> MaxSeq(w.tables.batches) == c.phase.head)
    case ReplayFailed => c.Online? && (c.phase.AwaitingReplay? || c.phase.RowsRead?)
    case Delivered => c.Online? && c.wire != []
    case Dropped => c.Online?
  }

  ghost function Next(w: World, e: Event, payload: map<string, seq<Stroke>>, calm: bool): World
    requires Enabled(w, e, payload, calm)
  {
    var c := w.connection;
    match e
    case Committed(m, now) =>
      var (tables, told) := Commit(w.tables, m, now);
      w.(tables := tables, unpublished := Said(w.unpublished, told))
    case CommittedUnheard(m, now) => w.(tables := Commit(w.tables, m, now).0)
    case Published(k) =>
      w.(log := w.log + [w.unpublished[k]], unpublished := w.unpublished[..k] + w.unpublished[k + 1..])
    case LeaseAnnounced(holder) => w.(log := w.log + [LeaseChanged(holder)])
    case Subscribed =>
      var feed := w.feed.(status := Subscribing);
      w.(feed := feed, connection := Joined(feed, |w.log|, GapFree(w.feed, w.feed.lastSeq)))
    case Welcomed(sessionId, head, holder) =>
      w.(connection :=
           c.SendOwn([Welcome(sessionId, head, holder, w.tables.paper)]).(phase := AwaitingReplay))
    case Forwarded => w.(connection := c.Relay(Receive(w.log, c.position).message))
    case RowsLoaded =>
      w.(connection := c.(phase := RowsRead(BatchesAfter(w.tables.batches, c.fromSeq), MaxSeq(w.tables.batches))))
    case TombstonesLoaded =>
      w.(connection := c.(phase := TombstonesRead(c.phase.rows, c.phase.head, w.tables.erasures)))
    case ReplaySent(headRead, coalesce) =>
      var lastSeq := if headRead then MaxSeq(w.tables.batches) else c.fromSeq;
      w.(connection :=
           c.SendOwn(ReplayMessages(coalesce, lastSeq, c.phase.rows, c.phase.tombstones)).(phase := Replayed))
    case ReplayFailed => w.(connection := c.SendOwn([REPLAY_FAILED]).(phase := ReplayLost))
    case Delivered => w.(feed := Applied(w.feed, c.wire[0]), connection := c.TakeIn())
    case Dropped =>
      w.(feed := w.feed.(status := Reconnecting, error := Some("page realtime socket closed")), connection := Offline)
  }

  // ---- The invariant ------------------------------------------------------

  /** What this connection has still to forward. */
  function Tail(w: World): seq<PageServerMessage>
    requires w.connection.Online? && w.connection.position <= |w.log|
  {
    w.log[w.connection.position..] + w.unpublished
  }

  ghost predicate Inv(w: World, payload: map<string, seq<Stroke>>) {
    && Sound(w.tables) && RowsCarry(w.tables, payload)
    && AllMatch(w.feed.batches, w.tables) && w.feed.lastSeq <= |w.tables.batches|
    && Deliverable(w.unpublished, w.tables) && PaperSettled(w.unpublished, w.tables)
    && (forall m :: m in w.unpublished ==> IsNews(m))
    && (w.connection.Online? ==> Linked(w) && PhaseHolds(w))
  }

  ghost predicate Linked(w: World)
    requires w.connection.Online?
  {
    var c := w.connection;
    && c.position <= |w.log| && c.fromSeq <= |w.tables.batches|
    && Deliverable(c.wire + Tail(w), w.tables)
    && PaperSettled(Tail(w), w.tables)
    && (if c.phase.AwaitingWelcome? then c.wire == []
        else FinalPaper(w.feed.paper, c.wire + Tail(w)) == w.tables.paper)
  }

  ghost predicate PhaseHolds(w: World)
    requires w.connection.Online? && w.connection.position <= |w.log|
  {
    var c := w.connection;
    && (c.gapFree ==>
          if c.phase.Replayed? then Converging(w.feed, c.wire + Tail(w), w.tables) else GapFree(w.feed, c.fromSeq))
    && (c.phase.RowsRead? ==> RowsHold(w.tables, c.fromSeq, c.phase.rows, c.phase.head, Tail(w)))
    && (c.phase.TombstonesRead? ==>
          && RowsHold(w.tables, c.fromSeq, c.phase.rows, c.phase.head, Tail(w))
          && TombstonedIds(c.phase.tombstones) <= w.tables.tombstones.Keys
          && w.tables.tombstones.Keys <= TombstonedIds(c.phase.tombstones) + ErasedIn(Tail(w)))
  }

  /** The rows read are those after the cursor when `head` was the head, and
      everything stored since is still to be forwarded. */
  ghost predicate RowsHold(t: Tables, fromSeq: nat, rows: seq<StrokeBatch>, head: nat, tail: seq<PageServerMessage>) {
    RowsAreRead(t, fromSeq, rows, head) && forall s: nat :: head < s <= |t.batches| ==> s in SeqsIn(tail)
  }

  ghost predicate RowsAreRead(t: Tables, fromSeq: nat, rows: seq<StrokeBatch>, head: nat) {
    fromSeq <= head <= |t.batches| && rows == BatchesAfter(t.batches[..head], fromSeq)
  }

  // ---- The page changes ---------------------------------------------------

  lemma NewsKeepsRows(
      t: Tables, u: Tables, told: Option<PageServerMessage>,
      fromSeq: nat, rows: seq<StrokeBatch>, head: nat, tail: seq<PageServerMessage>)
    requires Announces(t, u, told) && Deliverable(tail, t) && RowsHold(t, fromSeq, rows, head, tail)
    ensures RowsHold(u, fromSeq, rows, head, Said(tail, told))
  {
    NewsKeepsDeliverable(tail, t, u, told);
    NewHeadIsCarried(t, u, told);
    assert u.batches[..head] == t.batches[..head];
    forall s: nat | head < s <= |u.batches| ensures s in SeqsIn(Said(tail, told)) {
      if s <= |t.batches| { assert s in SeqsIn(tail); }
    }
  }

  lemma NewsKeepsPhase(w: World, u: Tables, told: Option<PageServerMessage>, v: World)
    requires w.connection.Online? && w.connection.position <= |w.log| && PhaseHolds(w)
    requires Deliverable(w.connection.wire + Tail(w), w.tables) && Announces(w.tables, u, told)
    requires v == w.(tables := u, unpublished := Said(w.unpublished, told))
    ensures PhaseHolds(v)
  {
    var c := w.connection;
    SaidConcat(w.log[c.position..], w.unpublished, told);
    SaidConcat(c.wire, Tail(w), told);
    DropFront(c.wire, Tail(w), w.tables);
    if c.gapFree && c.phase.Replayed? {
      NewsKeepsConverging(w.feed, c.wire + Tail(w), w.tables, u, told);
    }
    if c.phase.RowsRead? || c.phase.TombstonesRead? {
      NewsKeepsRows(w.tables, u, told, c.fromSeq, c.phase.rows, c.phase.head, Tail(w));
      NewsKeepsDeliverable(Tail(w), w.tables, u, told);
    }
  }

  lemma NewsKeepsLinked(w: World, u: Tables, told: Option<PageServerMessage>, v: World)
    requires w.connection.Online? && Linked(w) && Announces(w.tables, u, told)
    requires v == w.(tables := u, unpublished := Said(w.unpublished, told))
    ensures Linked(v)
  {
    var c := w.connection;
    SaidConcat(w.log[c.position..], w.unpublished, told);
    SaidConcat(c.wire, Tail(w), told);
    NewsKeepsDeliverable(c.wire + Tail(w), w.tables, u, told);
    PaperNews(w.feed.paper, c.wire + Tail(w), w.tables, u, told);
    PaperNews(w.feed.paper, Tail(w), w.tables, u, told);
  }

  lemma ToldIsNews(t: Tables, m: Mutation, now: int)
    ensures Commit(t, m, now).1.Some? ==> IsNews(Commit(t, m, now).1.value)
  {
  }

  /** A commit that follows the payloads keeps the rows sound, and its news tells
      all it changed. */
  lemma CommitKeepsRows(t: Tables, m: Mutation, now: int, payload: map<string, seq<Stroke>>)
    returns (u: Tables, told: Option<PageServerMessage>)
    requires Sound(t) && RowsCarry(t, payload)
    requires m.AddInk? ==> m.key in payload && payload[m.key] == m.strokes
    ensures (u, told) == Commit(t, m, now)
    ensures Sound(u) && RowsCarry(u, payload) && Announces(t, u, told)
    ensures told.Some? ==> IsNews(told.value)
  {
    u, told := Commit(t, m, now).0, Commit(t, m, now).1;
    var step := match m
      case AddInk(key, strokes) => AddStrokes(key, strokes, now)
      case EraseInk(key, ids) => EraseStrokes(key, ids, now)
      case Repaper(paper) => ChangePaper(paper, now);
    assert u == History.Apply(t, step);
    SoundStep(t, step);
    assert [step][0] == step;
    RowsCarryStep(t, step, payload);
    CommitAnnounces(t, m, payload, now);
    ToldIsNews(t, m, now);
  }

  lemma NewsKeepsInv(
      w: World, u: Tables, told: Option<PageServerMessage>, v: World, payload: map<string, seq<Stroke>>)
    requires Inv(w, payload) && Announces(w.tables, u, told)
    requires Sound(u) && RowsCarry(u, payload) && (told.Some? ==> IsNews(told.value))
    requires v == w.(tables := u, unpublished := Said(w.unpublished, told))
    ensures Inv(v, payload)
  {
    AllStillMatch(w.feed.batches, w.tables, u);
    NewsKeepsDeliverable(w.unpublished, w.tables, u, told);
    PaperNews(w.feed.paper, w.unpublished, w.tables, u, told);
    if w.connection.Online? {
      NewsKeepsLinked(w, u, told, v);
      NewsKeepsPhase(w, u, told, v);
    }
  }

  lemma CommittedKeepsInv(w: World, m: Mutation, now: int, payload: map<string, seq<Stroke>>, calm: bool)
    requires Inv(w, payload) && Enabled(w, Committed(m, now), payload, calm)
    ensures Inv(Next(w, Committed(m, now), payload, calm), payload)
  {
    var u, told := CommitKeepsRows(w.tables, m, now, payload);
    NewsKeepsInv(w, u, told, Next(w, Committed(m, now), payload, calm), payload);
  }

  // ---- The channel moves --------------------------------------------------

  /** A commit has its news, and what is published overtakes only news that it may
      overtake. */
  ghost predicate HarmlessStep(w: World, e: Event) {
    && !e.CommittedUnheard?
    && (e.Published? && e.k < |w.unpublished| ==> OvertakesAll(w.unpublished[e.k], w.unpublished[..e.k]))
  }

  /** The k-th unpublished message is published: what is still to come differs
      from before only in its order, and stays deliverable. */
  lemma PublishedReorders(w: World, v: World, front: seq<PageServerMessage>, k: nat)
    requires k < |w.unpublished| && OvertakesAll(w.unpublished[k], w.unpublished[..k])
    requires v.unpublished == w.unpublished[..k] + w.unpublished[k + 1..]
    requires forall m :: m in w.unpublished ==> IsNews(m)
    requires Deliverable(front + w.unpublished, w.tables)
    ensures var next := [w.unpublished[k]] + v.unpublished;
      && SameTotals(front + w.unpublished, front + next)
      && Deliverable(front + next, w.tables) && Deliverable(next, w.tables)
      && SameTotals(w.unpublished, next)
  {
    var over, n, back := w.unpublished[..k], w.unpublished[k], w.unpublished[k + 1..];
    assert w.unpublished == over + ([n] + back);
    DropFront(front, w.unpublished, w.tables);
    Overtake(over, n, back, w.tables);
    BehindFront(front, over + ([n] + back), [n] + (over + back), w.tables);
  }

  lemma PublishedTail(w: World, v: World, k: nat)
    requires w.connection.Online? && w.connection.position <= |w.log| && k < |w.unpublished|
    requires v.connection == w.connection
    requires v.log == w.log + [w.unpublished[k]] && v.unpublished == w.unpublished[..k] + w.unpublished[k + 1..]
    ensures var queued, next := w.log[w.connection.position..], [w.unpublished[k]] + v.unpublished;
      && Tail(w) == queued + w.unpublished && Tail(v) == queued + next
      && w.connection.wire + Tail(w) == (w.connection.wire + queued) + w.unpublished
      && v.connection.wire + Tail(v) == (w.connection.wire + queued) + next
  {
    assert v.log[w.connection.position..] == w.log[w.connection.position..] + [w.unpublished[k]];
  }

  lemma PublishedKeepsLink(w: World, v: World, k: nat)
    requires w.connection.Online? && Linked(w) && PhaseHolds(w) && k < |w.unpublished|
    requires forall m :: m in w.unpublished ==> IsNews(m)
    requires OvertakesAll(w.unpublished[k], w.unpublished[..k])
    requires v == w.(log := w.log + [w.unpublished[k]], unpublished := w.unpublished[..k] + w.unpublished[k + 1..])
    ensures Linked(v) && PhaseHolds(v)
  {
    var c := w.connection;
    PublishedTail(w, v, k);
    PublishedReorders(w, v, c.wire + w.log[c.position..], k);
    DropFront(c.wire, Tail(w), w.tables);
    PublishedReorders(w, v, w.log[c.position..], k);
  }

  lemma StillNews(messages: seq<PageServerMessage>, k: nat)
    requires k < |messages| && forall m :: m in messages ==> IsNews(m)
    ensures forall m :: m in messages[..k] + messages[k + 1..] ==> IsNews(m)
  {
  }

  lemma PublishedPending(w: World, v: World, k: nat)
    requires k < |w.unpublished| && OvertakesAll(w.unpublished[k], w.unpublished[..k])
    requires v.unpublished == w.unpublished[..k] + w.unpublished[k + 1..]
    requires forall m :: m in w.unpublished ==> IsNews(m)
    requires Deliverable(w.unpublished, w.tables) && PaperSettled(w.unpublished, w.tables)
    ensures Deliverable(v.unpublished, w.tables) && PaperSettled(v.unpublished, w.tables)
    ensures forall m :: m in v.unpublished ==> IsNews(m)
  {
    var n := w.unpublished[k];
    assert [] + w.unpublished == w.unpublished;
    PublishedReorders(w, v, [], k);
    DropFront([n], v.unpublished, w.tables);
    assert PaperSettled([n] + v.unpublished, w.tables);
    PaperSettledDrop(n, v.unpublished, w.tables);
    StillNews(w.unpublished, k);
  }

  lemma PublishedKeepsInv(w: World, k: nat, payload: map<string, seq<Stroke>>, calm: bool)
    requires Inv(w, payload) && Enabled(w, Published(k), payload, calm) && HarmlessStep(w, Published(k))
    ensures Inv(Next(w, Published(k), payload, calm), payload)
  {
    var v := Next(w, Published(k), payload, calm);
    PublishedPending(w, v, k);
    if w.connection.Online? {
      PublishedKeepsLink(w, v, k);
    }
  }

  lemma NeutralKeepsLink(
      w: World, v: World, front: seq<PageServerMessage>, m: PageServerMessage, back: seq<PageServerMessage>)
    requires w.connection.Online? && w.connection.position <= |w.log| && Neutral(m)
    requires v.connection.Online? && v.connection.position <= |v.log|
    requires Deliverable(front + back, w.tables)
    requires w.connection.wire + Tail(w) == front + back && v.connection.wire + Tail(v) == front + [m] + back
    requires v.tables == w.tables && v.feed == w.feed
    ensures Deliverable(v.connection.wire + Tail(v), v.tables)
    ensures FinalPaper(w.feed.paper, v.connection.wire + Tail(v))
         == FinalPaper(w.feed.paper, w.connection.wire + Tail(w))
    ensures Converging(w.feed, w.connection.wire + Tail(w), w.tables) ==>
      Converging(v.feed, v.connection.wire + Tail(v), v.tables)
  {
    InsertNeutral(front, m, back, w.tables, w.feed.paper);
  }

  /** What the connection has still to forward, once a lease message is sent. */
  lemma LeaseInTail(w: World, v: World, m: PageServerMessage)
    requires w.connection.Online? && w.connection.position <= |w.log|
    requires v == w.(log := w.log + [m])
    ensures var queued := w.log[w.connection.position..];
      && Tail(v) == queued + [m] + w.unpublished
      && v.connection.wire + Tail(v) == (w.connection.wire + queued) + [m] + w.unpublished
      && w.connection.wire + Tail(w) == (w.connection.wire + queued) + w.unpublished
  {
    assert v.log[v.connection.position..] == w.log[w.connection.position..] + [m];
  }

  lemma LeaseTailKept(w: World, v: World, m: PageServerMessage)
    requires w.connection.Online? && Linked(w) && Neutral(m)
    requires v == w.(log := w.log + [m])
    ensures Deliverable(Tail(v), w.tables) && PaperSettled(Tail(v), w.tables)
    ensures SeqsIn(Tail(v)) == SeqsIn(Tail(w)) && ErasedIn(Tail(v)) == ErasedIn(Tail(w))
  {
    LeaseInTail(w, v, m);
    DropFront(w.connection.wire, Tail(w), w.tables);
    forall p ensures FinalPaper(p, Tail(v)) == FinalPaper(p, Tail(w)) {
      InsertNeutral(w.log[w.connection.position..], m, w.unpublished, w.tables, p);
    }
    InsertNeutral(w.log[w.connection.position..], m, w.unpublished, w.tables, w.tables.paper);
  }

  lemma LeaseKeepsLink(w: World, v: World, m: PageServerMessage)
    requires w.connection.Online? && Linked(w) && Neutral(m)
    requires v == w.(log := w.log + [m])
    ensures Deliverable(v.connection.wire + Tail(v), v.tables)
    ensures FinalPaper(w.feed.paper, v.connection.wire + Tail(v))
         == FinalPaper(w.feed.paper, w.connection.wire + Tail(w))
    ensures Converging(w.feed, w.connection.wire + Tail(w), w.tables) ==>
      Converging(v.feed, v.connection.wire + Tail(v), v.tables)
  {
    LeaseInTail(w, v, m);
    NeutralKeepsLink(w, v, w.connection.wire + w.log[w.connection.position..], m, w.unpublished);
  }

  lemma LeaseAnnouncedKeepsInv(w: World, holder: Option<string>, payload: map<string, seq<Stroke>>, calm: bool)
    requires Inv(w, payload)
    ensures Inv(Next(w, LeaseAnnounced(holder), payload, calm), payload)
  {
    var m := LeaseChanged(holder);
    var v := w.(log := w.log + [m]);
    if w.connection.Online? {
      LeaseTailKept(w, v, m);
      LeaseKeepsLink(w, v, m);
      assert Linked(v);
      assert PhaseHolds(v);
    }
  }

  lemma HeadOfTail(
      log: seq<PageServerMessage>, position: nat, unpublished: seq<PageServerMessage>, wire: seq<PageServerMessage>)
    requires position < |log|
    ensures var tail := log[position + 1..] + unpublished;
      && log[position..] + unpublished == [log[position]] + tail
      && wire + (log[position..] + unpublished) == (wire + [log[position]]) + tail
  {
    assert log[position..] == [log[position]] + log[position + 1..];
  }

  lemma ForwardedKeepsInv(w: World, payload: map<string, seq<Stroke>>, calm: bool)
    requires Inv(w, payload) && Enabled(w, Forwarded, payload, calm)
    ensures Inv(Next(w, Forwarded, payload, calm), payload)
  {
    var v := Next(w, Forwarded, payload, calm);
    var c := w.connection;
    var m := w.log[c.position];
    HeadOfTail(w.log, c.position, w.unpublished, c.wire);
    assert Tail(w) == [m] + Tail(v) && c.wire + Tail(w) == v.connection.wire + Tail(v);
    PaperSettledDrop(m, Tail(v), w.tables);
    assert Linked(v);
    assert PhaseHolds(v);
  }

  // ---- The connection starts ----------------------------------------------

  lemma SubscribedKeepsInv(w: World, payload: map<string, seq<Stroke>>, calm: bool)
    requires Inv(w, payload) && Enabled(w, Subscribed, payload, calm)
    ensures Inv(Next(w, Subscribed, payload, calm), payload)
  {
    var v := Next(w, Subscribed, payload, calm);
    assert v.log[v.connection.position..] == [];
    assert Tail(v) == w.unpublished;
    assert v.connection.wire + Tail(v) == w.unpublished;
  }

  /** A welcome in front of what is still to be forwarded sets the paper right. */
  lemma WelcomeFits(
      sessionId: string, head: nat, holder: Option<string>, tail: seq<PageServerMessage>, t: Tables, paper: Paper)
    requires Deliverable(tail, t) && PaperSettled(tail, t) && head <= |t.batches|
    ensures var wire := [Welcome(sessionId, head, holder, t.paper)];
      && Deliverable(wire + tail, t)
      && FinalPaper(paper, wire + tail) == t.paper
  {
    var welcome := Welcome(sessionId, head, holder, t.paper);
    DeliverableCons(welcome, tail, t);
    Concats([welcome], tail, paper);
    assert [welcome][1..] == [];
    assert FinalPaper(paper, [welcome]) == t.paper;
  }

  lemma WelcomedKeepsInv(
      w: World, sessionId: string, head: nat, holder: Option<string>, payload: map<string, seq<Stroke>>, calm: bool)
    requires Inv(w, payload) && Enabled(w, Welcomed(sessionId, head, holder), payload, calm)
    ensures Inv(Next(w, Welcomed(sessionId, head, holder), payload, calm), payload)
  {
    var v := Next(w, Welcomed(sessionId, head, holder), payload, calm);
    var c := w.connection;
    assert c.wire == [] && c.wire + Tail(w) == Tail(w) && Tail(v) == Tail(w);
    MaxSeqIsCount(w.tables.batches);
    WelcomeFits(sessionId, head, holder, Tail(w), w.tables, w.feed.paper);
    assert v.connection.wire == [Welcome(sessionId, head, holder, w.tables.paper)];
    assert Linked(v);
    assert PhaseHolds(v);
  }

  lemma DeliveredKeepsInv(w: World, payload: map<string, seq<Stroke>>, calm: bool)
    requires Inv(w, payload) && Enabled(w, Delivered, payload, calm)
    ensures Inv(Next(w, Delivered, payload, calm), payload)
  {
    var v := Next(w, Delivered, payload, calm);
    var c := w.connection;
    var m, rest := c.wire[0], c.wire[1..] + Tail(w);
    assert Tail(v) == Tail(w) && v.connection.wire + Tail(v) == rest;
    assert c.wire + Tail(w) == [m] + rest;
    assert ([m] + rest)[0] == m && ([m] + rest)[1..] == rest;
    ApplyKeepsMatch(w.feed, m, rest, w.tables);
    AppliedShape(w.feed, m);
    ApplyAddsSeqs(w.feed, m);
    if c.gapFree && c.phase.Replayed? {
      ConvergingStep(w.feed, m, rest, w.tables);
    }
  }

  // ---- The replay ---------------------------------------------------------

  /** Rows all beyond the cursor are all read. */
  lemma {:induction false} AllAfter(rows: seq<BatchRow>, fromSeq: nat)
    requires forall i :: 0 <= i < |rows| ==> rows[i].seqNo > fromSeq
    ensures |BatchesAfter(rows, fromSeq)| == |rows|
    ensures forall i :: 0 <= i < |rows| ==> BatchesAfter(rows, fromSeq)[i] == ToBatch(rows[i])
  {
    if rows != [] {
      AllAfter(rows[1..], fromSeq);
    }
  }

  /** Rows up to the cursor are passed over. */
  lemma {:induction false} PassedOver(rows: seq<BatchRow>, skip: nat, fromSeq: nat)
    requires skip <= |rows| && forall i :: 0 <= i < skip ==> rows[i].seqNo <= fromSeq
    ensures BatchesAfter(rows, fromSeq) == BatchesAfter(rows[skip..], fromSeq)
    decreases skip
  {
    if skip > 0 {
      assert rows[1..][skip - 1..] == rows[skip..];
      PassedOver(rows[1..], skip - 1, fromSeq);
    }
  }

  /** The rows of a numbered table after a cursor are its tail, in seq order. */
  lemma BatchesAfterShape(rows: seq<BatchRow>, fromSeq: nat)
    requires forall i :: 0 <= i < |rows| ==> rows[i].seqNo == i + 1
    requires fromSeq <= |rows|
    ensures |BatchesAfter(rows, fromSeq)| == |rows| - fromSeq
    ensures forall i :: 0 <= i < |rows| - fromSeq ==> BatchesAfter(rows, fromSeq)[i] == ToBatch(rows[fromSeq + i])
  {
    PassedOver(rows, fromSeq, fromSeq);
    AllAfter(rows[fromSeq..], fromSeq);
  }

  lemma ReadRowsBySeq(rows: seq<StrokeBatch>, fromSeq: nat)
    requires forall i :: 0 <= i < |rows| ==> rows[i].seqNo == fromSeq + i + 1
    ensures forall s: nat :: fromSeq < s <= fromSeq + |rows| ==> s in Seqs(rows)
  {
    SeqsByIndex(rows);
    forall s: nat | fromSeq < s <= fromSeq + |rows| ensures s in Seqs(rows) {
      assert rows[s - fromSeq - 1].seqNo == s;
    }
  }

  lemma ReadRowsMatch(t: Tables, fromSeq: nat, head: nat)
    requires Sound(t) && fromSeq <= head <= |t.batches|
    ensures var rows := BatchesAfter(t.batches[..head], fromSeq);
      && (forall b :: b in rows ==> Matches(b, t))
      && |rows| == head - fromSeq
      && (forall i :: 0 <= i < |rows| ==> rows[i].seqNo == fromSeq + i + 1)
      && (forall s: nat :: fromSeq < s <= head ==> s in Seqs(rows))
  {
    var rows := BatchesAfter(t.batches[..head], fromSeq);
    BatchesAfterShape(t.batches[..head], fromSeq);
    forall b | b in rows ensures Matches(b, t) {
      var i :| 0 <= i < |rows| && rows[i] == b;
      assert b == ToBatch(t.batches[fromSeq + i]);
    }
    ReadRowsBySeq(rows, fromSeq);
  }

  lemma {:induction false} FramesBring(batches: seq<StrokeBatch>, tombstones: seq<TombstoneBatch>, paper: Paper)
    ensures ErasedIn(BatchFrames(batches)) == {} && SeqsIn(BatchFrames(batches)) == Seqs(batches)
    ensures FinalPaper(paper, BatchFrames(batches)) == paper
    ensures ErasedIn(TombstoneFrames(tombstones)) == TombstonedIds(tombstones)
    ensures SeqsIn(TombstoneFrames(tombstones)) == {}
    ensures FinalPaper(paper, TombstoneFrames(tombstones)) == paper
    decreases |batches| + |tombstones|
  {
    if batches != [] {
      FramesBring(batches[1..], tombstones, paper);
      assert BatchFrames(batches)[1..] == BatchFrames(batches[1..]);
      assert Seqs([batches[0]]) == {batches[0].seqNo} + Seqs([batches[0]][1..]) == {batches[0].seqNo};
    } else if tombstones != [] {
      FramesBring(batches, tombstones[1..], paper);
      assert TombstoneFrames(tombstones)[1..] == TombstoneFrames(tombstones[1..]);
    }
  }

  lemma BatchFramesEraseNothing(batches: seq<StrokeBatch>, back: seq<PageServerMessage>, paper: Paper)
    ensures ErasedIn(BatchFrames(batches) + back) == ErasedIn(back)
  {
    FramesBring(batches, [], paper);
    Concats(BatchFrames(batches), back, paper);
  }

  lemma BatchFramesHead(batches: seq<StrokeBatch>, back: seq<PageServerMessage>)
    requires batches != []
    ensures BatchFrames(batches) + back == [LiveBatch(batches[0])] + (BatchFrames(batches[1..]) + back)
  {
  }

  lemma {:induction false} BatchFramesDeliverable(batches: seq<StrokeBatch>, back: seq<PageServerMessage>, t: Tables)
    requires Deliverable(back, t) && t.tombstones.Keys <= ErasedIn(back)
    requires forall b :: b in batches ==> Matches(b, t)
    ensures Deliverable(BatchFrames(batches) + back, t)
  {
    if batches == [] {
      assert BatchFrames(batches) + back == back;
    } else {
      var first, others := batches[0], batches[1..];
      assert forall b :: b in others ==> b in batches;
      BatchFramesDeliverable(others, back, t);
      BatchFramesEraseNothing(others, back, t.paper);
      BatchInFront(first, BatchFrames(others) + back, t);
      BatchFramesHead(batches, back);
    }
  }

  lemma {:induction false} TombstoneFramesDeliverable(
      tombstones: seq<TombstoneBatch>, back: seq<PageServerMessage>, t: Tables)
    requires Deliverable(back, t) && TombstonedIds(tombstones) <= t.tombstones.Keys
    ensures Deliverable(TombstoneFrames(tombstones) + back, t)
    ensures ErasedIn(TombstoneFrames(tombstones) + back) == TombstonedIds(tombstones) + ErasedIn(back)
  {
    if tombstones == [] {
      assert TombstoneFrames(tombstones) + back == back;
    } else {
      var rest := TombstoneFrames(tombstones[1..]) + back;
      TombstoneFramesDeliverable(tombstones[1..], back, t);
      DeliverableCons(LiveTombstones(tombstones[0]), rest, t);
      assert TombstoneFrames(tombstones) + back == [LiveTombstones(tombstones[0])] + rest;
    }
  }

  lemma RowsTrimmed(rows: seq<StrokeBatch>, gone: set<string>, t: Tables)
    requires gone <= t.tombstones.Keys && forall b :: b in rows ==> Matches(b, t)
    ensures forall b :: b in Retained(rows, gone) ==> Matches(b, t)
    ensures Seqs(Retained(rows, gone)) == Seqs(rows)
  {
    RetainedMembers(rows, gone);
    SeqsOfRetained(rows, gone);
    forall b | b in Retained(rows, gone) ensures Matches(b, t) {
      var a :| a in rows && b == Trimmed(a, gone);
      TrimmedStillMatches(a, t, gone);
    }
  }

  ghost predicate ReplayFits(
      frames: seq<PageServerMessage>, rows: seq<StrokeBatch>, back: seq<PageServerMessage>, t: Tables)
  {
    && Deliverable(frames + back, t)
    && t.tombstones.Keys <= ErasedIn(frames + back)
    && SeqsIn(frames) == Seqs(rows)
    && forall p :: FinalPaper(p, frames) == p
  }

  /** Either shape of a replay, ahead of what is still to be forwarded, is
      deliverable and erases whatever the page has erased. */
  lemma CoalescedFits(
      lastSeq: nat, rows: seq<StrokeBatch>, tombstones: seq<TombstoneBatch>, back: seq<PageServerMessage>, t: Tables)
    requires Deliverable(back, t) && lastSeq <= |t.batches| && forall b :: b in rows ==> Matches(b, t)
    requires TombstonedIds(tombstones) <= t.tombstones.Keys <= TombstonedIds(tombstones) + ErasedIn(back)
    ensures ReplayFits(ReplayMessages(true, lastSeq, rows, tombstones), rows, back, t)
  {
    var replay := BuildReplay(lastSeq, rows, tombstones);
    RowsTrimmed(rows, TombstonedIds(tombstones), t);
    DeliverableCons(replay, back, t);
    assert [replay][1..] == [];
  }

  lemma FramesShape(
      lastSeq: nat, kept: seq<StrokeBatch>, tombstones: seq<TombstoneBatch>, paper: Paper)
    ensures var frames := BatchFrames(kept) + TombstoneFrames(tombstones) + [Synced(lastSeq)];
      && ErasedIn(frames) == TombstonedIds(tombstones) && SeqsIn(frames) == Seqs(kept)
      && FinalPaper(paper, frames) == paper
  {
    var first, second, synced := BatchFrames(kept), TombstoneFrames(tombstones), [Synced(lastSeq)];
    FramesBring(kept, tombstones, paper);
    assert synced[1..] == [];
    Concats(first, second, paper);
    Concats(first + second, synced, paper);
  }

  lemma SyncedFitsBehindTombstones(
      lastSeq: nat, tombstones: seq<TombstoneBatch>, back: seq<PageServerMessage>, t: Tables)
    requires Deliverable(back, t) && lastSeq <= |t.batches|
    requires TombstonedIds(tombstones) <= t.tombstones.Keys <= TombstonedIds(tombstones) + ErasedIn(back)
    ensures var tail := TombstoneFrames(tombstones) + ([Synced(lastSeq)] + back);
      Deliverable(tail, t) && t.tombstones.Keys <= ErasedIn(tail)
  {
    DeliverableCons(Synced(lastSeq), back, t);
    TombstoneFramesDeliverable(tombstones, [Synced(lastSeq)] + back, t);
  }

  lemma FramesDeliverable(
      lastSeq: nat, kept: seq<StrokeBatch>, tombstones: seq<TombstoneBatch>, back: seq<PageServerMessage>, t: Tables)
    requires Deliverable(back, t) && lastSeq <= |t.batches| && forall b :: b in kept ==> Matches(b, t)
    requires TombstonedIds(tombstones) <= t.tombstones.Keys <= TombstonedIds(tombstones) + ErasedIn(back)
    ensures Deliverable(BatchFrames(kept) + TombstoneFrames(tombstones) + [Synced(lastSeq)] + back, t)
  {
    var first, tail := BatchFrames(kept), TombstoneFrames(tombstones) + ([Synced(lastSeq)] + back);
    SyncedFitsBehindTombstones(lastSeq, tombstones, back, t);
    BatchFramesDeliverable(kept, tail, t);
    Reassociate(first, TombstoneFrames(tombstones), [Synced(lastSeq)], back);
  }

  lemma Reassociate(
      a: seq<PageServerMessage>, b: seq<PageServerMessage>, c: seq<PageServerMessage>, d: seq<PageServerMessage>)
    ensures a + b + c + d == a + (b + (c + d))
  {
  }

  lemma FramesFit(
      lastSeq: nat, rows: seq<StrokeBatch>, tombstones: seq<TombstoneBatch>, back: seq<PageServerMessage>, t: Tables)
    requires Deliverable(back, t) && lastSeq <= |t.batches| && forall b :: b in rows ==> Matches(b, t)
    requires TombstonedIds(tombstones) <= t.tombstones.Keys <= TombstonedIds(tombstones) + ErasedIn(back)
    ensures ReplayFits(ReplayMessages(false, lastSeq, rows, tombstones), rows, back, t)
  {
    var kept := Retained(rows, TombstonedIds(tombstones));
    var frames := ReplayMessages(false, lastSeq, rows, tombstones);
    RowsTrimmed(rows, TombstonedIds(tombstones), t);
    FramesDeliverable(lastSeq, kept, tombstones, back, t);
    Concats(frames, back, t.paper);
    forall p
      ensures SeqsIn(frames) == Seqs(kept)
      ensures ErasedIn(frames) == TombstonedIds(tombstones) && FinalPaper(p, frames) == p
    {
      FramesShape(lastSeq, kept, tombstones, p);
    }
    FramesShape(lastSeq, kept, tombstones, t.paper);
  }

  lemma RowsLoadedKeepsInv(w: World, payload: map<string, seq<Stroke>>, calm: bool)
    requires Inv(w, payload) && Enabled(w, RowsLoaded, payload, calm)
    ensures Inv(Next(w, RowsLoaded, payload, calm), payload)
  {
    MaxSeqIsCount(w.tables.batches);
    assert w.tables.batches[..|w.tables.batches|] == w.tables.batches;
    assert Tail(Next(w, RowsLoaded, payload, calm)) == Tail(w);
  }

  lemma TombstonesLoadedKeepsInv(w: World, payload: map<string, seq<Stroke>>, calm: bool)
    requires Inv(w, payload) && Enabled(w, TombstonesLoaded, payload, calm)
    ensures Inv(Next(w, TombstonesLoaded, payload, calm), payload)
  {
    assert Tail(Next(w, TombstonesLoaded, payload, calm)) == Tail(w);
  }

  lemma ReplayKeepsPaper(
      paper: Paper, wire: seq<PageServerMessage>, frames: seq<PageServerMessage>, tail: seq<PageServerMessage>)
    requires forall p :: FinalPaper(p, frames) == p
    ensures FinalPaper(paper, wire + frames + tail) == FinalPaper(paper, wire + tail)
  {
    Concats(wire, tail, paper);
    Concats(wire, frames, paper);
    Concats(wire + frames, tail, paper);
  }

  /** What the viewer holds, what the replay brings and what is still to be
      forwarded are together the whole page. */
  lemma ReplayCompletes(
      feed: Feed, t: Tables, wire: seq<PageServerMessage>, frames: seq<PageServerMessage>, tail: seq<PageServerMessage>,
      fromSeq: nat, rows: seq<StrokeBatch>, head: nat)
    requires Sound(t) && GapFree(feed, fromSeq)
    requires RowsHold(t, fromSeq, rows, head, tail) && SeqsIn(frames) == Seqs(rows)
    ensures Complete(Seqs(feed.batches) + SeqsIn(wire + frames + tail), |t.batches|)
  {
    Concats(wire, frames, t.paper);
    Concats(wire + frames, tail, t.paper);
    ReadRowsMatch(t, fromSeq, head);
    var all := Seqs(feed.batches) + SeqsIn(wire + frames + tail);
    forall s: nat | 1 <= s <= |t.batches| ensures s in all {
      if s <= fromSeq { assert s in Seqs(feed.batches); }
      else if s <= head { assert s in Seqs(rows); }
      else { assert s in SeqsIn(tail); }
    }
  }

  /** With the replay on its way, all that the page has erased will be erased. */
  lemma ReplayCovers(
      t: Tables, wire: seq<PageServerMessage>, frames: seq<PageServerMessage>, tail: seq<PageServerMessage>)
    requires t.tombstones.Keys <= ErasedIn(frames + tail)
    ensures forall b :: Covered(b, t.tombstones.Keys, ErasedIn(wire + frames + tail))
  {
    Concats(wire, frames + tail, t.paper);
    assert wire + frames + tail == wire + (frames + tail);
  }

  lemma ReplayConverges(w: World, frames: seq<PageServerMessage>, rows: seq<StrokeBatch>, head: nat, fromSeq: nat)
    requires Sound(w.tables) && AllMatch(w.feed.batches, w.tables)
    requires w.connection.Online? && w.connection.position <= |w.log|
    requires RowsHold(w.tables, fromSeq, rows, head, Tail(w)) && GapFree(w.feed, fromSeq)
    requires ReplayFits(frames, rows, Tail(w), w.tables)
    requires Deliverable(w.connection.wire + frames + Tail(w), w.tables)
    requires FinalPaper(w.feed.paper, w.connection.wire + Tail(w)) == w.tables.paper
    ensures Converging(w.feed, w.connection.wire + frames + Tail(w), w.tables)
  {
    ReplayCompletes(w.feed, w.tables, w.connection.wire, frames, Tail(w), fromSeq, rows, head);
    ReplayCovers(w.tables, w.connection.wire, frames, Tail(w));
    ReplayKeepsPaper(w.feed.paper, w.connection.wire, frames, Tail(w));
  }

  lemma ReplaySentKeepsInv(w: World, headRead: bool, coalesce: bool, payload: map<string, seq<Stroke>>, calm: bool)
    requires Inv(w, payload) && Enabled(w, ReplaySent(headRead, coalesce), payload, calm)
    ensures Inv(Next(w, ReplaySent(headRead, coalesce), payload, calm), payload)
  {
    var v := Next(w, ReplaySent(headRead, coalesce), payload, calm);
    var c := w.connection;
    var rows, head := c.phase.rows, c.phase.head;
    var lastSeq := if headRead then MaxSeq(w.tables.batches) else c.fromSeq;
    var frames := ReplayMessages(coalesce, lastSeq, rows, c.phase.tombstones);
    MaxSeqIsCount(w.tables.batches);
    DropFront(c.wire, Tail(w), w.tables);
    ReadRowsMatch(w.tables, c.fromSeq, head);
    if coalesce {
      CoalescedFits(lastSeq, rows, c.phase.tombstones, Tail(w), w.tables);
    } else {
      FramesFit(lastSeq, rows, c.phase.tombstones, Tail(w), w.tables);
    }
    InsertMiddle(c.wire, frames, Tail(w), w.tables);
    assert Tail(v) == Tail(w) && v.connection.wire == c.wire + frames;
    ReplayKeepsPaper(w.feed.paper, c.wire, frames, Tail(w));
    if c.gapFree {
      ReplayConverges(w, frames, rows, head, c.fromSeq);
    }
  }

  lemma ReplayFailedKeepsInv(w: World, payload: map<string, seq<Stroke>>, calm: bool)
    requires Inv(w, payload) && Enabled(w, ReplayFailed, payload, calm)
    ensures Inv(Next(w, ReplayFailed, payload, calm), payload)
  {
    var v := Next(w, ReplayFailed, payload, calm);
    assert Tail(v) == Tail(w);
    assert v.connection.wire + Tail(v) == w.connection.wire + [REPLAY_FAILED] + Tail(w);
    InsertNeutral(w.connection.wire, REPLAY_FAILED, Tail(w), w.tables, w.feed.paper);
  }

  // ---- Every run ----------------------------------------------------------

  lemma {:induction false} EventKeepsInv(w: World, e: Event, payload: map<string, seq<Stroke>>, calm: bool)
    requires Inv(w, payload) && Enabled(w, e, payload, calm) && HarmlessStep(w, e)
    ensures Inv(Next(w, e, payload, calm), payload)
  {
    match e
    case Committed(m, now) => CommittedKeepsInv(w, m, now, payload, calm);
    case Published(k) => PublishedKeepsInv(w, k, payload, calm);
    case LeaseAnnounced(holder) => LeaseAnnouncedKeepsInv(w, holder, payload, calm);
    case Subscribed => SubscribedKeepsInv(w, payload, calm);
    case Welcomed(sessionId, head, holder) => WelcomedKeepsInv(w, sessionId, head, holder, payload, calm);
    case Forwarded => ForwardedKeepsInv(w, payload, calm);
    case RowsLoaded => RowsLoadedKeepsInv(w, payload, calm);
    case TombstonesLoaded => TombstonesLoadedKeepsInv(w, payload, calm);
    case ReplaySent(headRead, coalesce) => ReplaySentKeepsInv(w, headRead, coalesce, payload, calm);
    case ReplayFailed => ReplayFailedKeepsInv(w, payload, calm);
    case Delivered => DeliveredKeepsInv(w, payload, calm);
    case Dropped =>
  }

  /** `worlds` is a run: each world follows from the one before by an event that
      could happen there. */
  ghost predicate IsRun(worlds: seq<World>, events: seq<Event>, payload: map<string, seq<Stroke>>, calm: bool) {
    && |worlds| == |events| + 1
    && forall i :: 0 <= i < |events| ==>
         Enabled(worlds[i], events[i], payload, calm) && worlds[i + 1] == Next(worlds[i], events[i], payload, calm)
  }

  /** Throughout the run, what is published overtakes only what it may, and every
      commit is acknowledged. */
  ghost predicate Harmless(worlds: seq<World>, events: seq<Event>)
    requires |worlds| == |events| + 1
  {
    forall i :: 0 <= i < |events| ==> HarmlessStep(worlds[i], events[i])
  }

  /** Every commit is acknowledged. */
  ghost predicate AllHeard(events: seq<Event>) {
    forall i :: 0 <= i < |events| ==> !events[i].CommittedUnheard?
  }

  /** News of every commit reaches the channel, in the order of the commits. */
  ghost predicate InOrder(events: seq<Event>) {
    AllHeard(events) && forall i :: 0 <= i < |events| && events[i].Published? ==> events[i].k == 0
  }

  lemma InOrderIsHarmless(worlds: seq<World>, events: seq<Event>)
    requires |worlds| == |events| + 1 && InOrder(events)
    ensures Harmless(worlds, events)
  {
    forall i | 0 <= i < |events| ensures HarmlessStep(worlds[i], events[i]) {
      if events[i].Published? { assert events[i].k == 0; }
    }
  }

  /** A viewer just opened on a page in any sound state. */
  ghost predicate Start(w: World, payload: map<string, seq<Stroke>>) {
    && Sound(w.tables) && RowsCarry(w.tables, payload)
    && w.unpublished == [] && w.connection.Offline?
    && w.feed == Opened(w.feed.paper)
  }

  lemma {:induction false} RunKeepsInv(
      worlds: seq<World>, events: seq<Event>, payload: map<string, seq<Stroke>>, calm: bool, k: nat)
    requires IsRun(worlds, events, payload, calm) && Harmless(worlds, events)
    requires k < |worlds| && Start(worlds[0], payload)
    ensures Inv(worlds[k], payload)
    decreases k
  {
    if k > 0 {
      RunKeepsInv(worlds, events, payload, calm, k - 1);
      EventKeepsInv(worlds[k - 1], events[k - 1], payload, calm);
    }
  }

  /** Viewer convergence. In every run whose publications overtake only what they
      may, at every moment: on an open connection that subscribed with a gap-free
      cursor and whose replay has been sent, whatever was committed between the
      replay's reads, applying all that is still under way gives exactly the
      stored page; and once nothing is under way the viewer shows it. */
  lemma ViewerConverges(
      worlds: seq<World>, events: seq<Event>, payload: map<string, seq<Stroke>>, calm: bool, k: nat)
    requires IsRun(worlds, events, payload, calm) && Harmless(worlds, events)
    requires k < |worlds| && Start(worlds[0], payload)
    requires worlds[k].connection.Online? && worlds[k].connection.phase.Replayed? && worlds[k].connection.gapFree
    ensures worlds[k].connection.position <= |worlds[k].log|
    ensures var w := worlds[k];
      var pending := w.connection.wire + Tail(w);
      && AppliedAll(w.feed, pending).batches == Projection(w.tables)
      && AppliedAll(w.feed, pending).paper == w.tables.paper
      && (pending == [] ==> w.feed.batches == Projection(w.tables) && w.feed.paper == w.tables.paper)
  {
    RunKeepsInv(worlds, events, payload, calm, k);
    PendingMakesThePage(worlds[k].feed, worlds[k].connection.wire + Tail(worlds[k]), worlds[k].tables);
  }

  lemma {:induction false} ConvergingAfter(
      feed: Feed, front: seq<PageServerMessage>, back: seq<PageServerMessage>, t: Tables)
    requires Converging(feed, front + back, t)
    ensures Converging(AppliedAll(feed, front), back, t)
    decreases |front|
  {
    if front == [] {
      assert front + back == back;
    } else {
      assert front + back == [front[0]] + (front[1..] + back);
      ConvergingStep(feed, front[0], front[1..] + back, t);
      ConvergingAfter(Applied(feed, front[0]), front[1..], back, t);
    }
  }

  lemma OrderAfterFront(
      feed: Feed, front: seq<PageServerMessage>, pending: seq<PageServerMessage>, order: seq<PageServerMessage>,
      t: Tables)
    requires Converging(feed, front + pending, t) && multiset(order) == multiset(pending)
    ensures AppliedAll(feed, front + order).batches == Projection(t) <==> LastsAreErased(order, t)
    ensures AppliedAll(feed, front + order).paper == t.paper <==> LastPaperIs(order, t.paper)
  {
    ConvergingAfter(feed, front, pending, t);
    OrderIsHarmlessIff(AppliedAll(feed, front), pending, order, t);
    AppliedAllConcat(feed, front, order);
  }

  /** And exactly which orders of what is still unpublished bring that viewer
      there. */
  lemma PublicationsConvergeIff(
      worlds: seq<World>, events: seq<Event>, payload: map<string, seq<Stroke>>, calm: bool, k: nat,
      order: seq<PageServerMessage>)
    requires IsRun(worlds, events, payload, calm) && Harmless(worlds, events)
    requires k < |worlds| && Start(worlds[0], payload)
    requires worlds[k].connection.Online? && worlds[k].connection.phase.Replayed? && worlds[k].connection.gapFree
    requires multiset(order) == multiset(worlds[k].unpublished)
    ensures worlds[k].connection.position <= |worlds[k].log|
    ensures var w := worlds[k];
      var shown := AppliedAll(w.feed, w.connection.wire + w.log[w.connection.position..] + order);
      && (shown.batches == Projection(w.tables) <==> LastsAreErased(order, w.tables))
      && (shown.paper == w.tables.paper <==> LastPaperIs(order, w.tables.paper))
  {
    RunKeepsInv(worlds, events, payload, calm, k);
    var w := worlds[k];
    var front := w.connection.wire + w.log[w.connection.position..];
    assert w.connection.wire + Tail(w) == front + w.unpublished;
    OrderAfterFront(w.feed, front, w.unpublished, order, w.tables);
  }

  // ---- What was sent and received -----------------------------------------

  /** The frames sent are those the viewer has applied and those on the wire;
      without the connection's own they are an unbroken stretch of the channel,
      from where it subscribed; and the viewer is what applying them made it. */
  ghost predicate Heard(c: Connection, feed: Feed, log: seq<PageServerMessage>)
    requires c.Online?
  {
    && c.joined <= c.position <= |log|
    && Sends(c.trace.sent, c.trace.applied + c.wire)
    && OffTheChannel(c.trace.sent) == log[c.joined..c.position]
    && feed == AppliedAll(c.trace.met, c.trace.applied)
  }

  ghost predicate Received(w: World) {
    w.connection.Online? ==> Heard(w.connection, w.feed, w.log)
  }

  lemma Rejoin(a: seq<PageServerMessage>, b: seq<PageServerMessage>, c: seq<PageServerMessage>)
    ensures (a + b) + c == a + (b + c)
  {
  }

  lemma SendOwnKeeps(c: Connection, frames: seq<PageServerMessage>)
    requires c.Online? && Sends(c.trace.sent, c.trace.applied + c.wire)
    ensures var d := c.SendOwn(frames);
      Sends(d.trace.sent, d.trace.applied + d.wire) && OffTheChannel(d.trace.sent) == OffTheChannel(c.trace.sent)
  {
    OwnAreRemoved(c.trace.sent, frames);
    Rejoin(c.trace.applied, c.wire, frames);
    SendsOwn(c.trace.sent, c.trace.applied + c.wire, frames);
  }

  lemma RelayKeeps(c: Connection, m: PageServerMessage)
    requires c.Online? && Sends(c.trace.sent, c.trace.applied + c.wire)
    ensures var d := c.Relay(m);
      && d.Online? && d.joined == c.joined && d.position == c.position + 1
      && d.trace.applied == c.trace.applied && d.trace.met == c.trace.met
      && Sends(d.trace.sent, d.trace.applied + d.wire)
      && OffTheChannel(d.trace.sent) == OffTheChannel(c.trace.sent) + [m]
  {
    RelayedIsKept(c.trace.sent, m);
    SendsMore(c.trace.sent, c.trace.applied + c.wire, Relayed(m));
    Rejoin(c.trace.applied, c.wire, [m]);
  }

  lemma TakeInKeeps(c: Connection, feed: Feed)
    requires c.Online? && c.wire != [] && Sends(c.trace.sent, c.trace.applied + c.wire)
    requires feed == AppliedAll(c.trace.met, c.trace.applied)
    ensures var d := c.TakeIn();
      && Sends(d.trace.sent, d.trace.applied + d.wire)
      && Applied(feed, c.wire[0]) == AppliedAll(d.trace.met, d.trace.applied)
  {
    assert c.trace.applied + c.wire == (c.trace.applied + [c.wire[0]]) + c.wire[1..];
    AppliedAllConcat(c.trace.met, c.trace.applied, [c.wire[0]]);
    assert [c.wire[0]][1..] == [];
  }

  lemma LogGrows(log: seq<PageServerMessage>, m: PageServerMessage, joined: nat, position: nat)
    requires joined <= position <= |log|
    ensures (log + [m])[joined..position] == log[joined..position]
  {
  }

  lemma LogKeepsHeard(c: Connection, feed: Feed, log: seq<PageServerMessage>, m: PageServerMessage)
    requires c.Online? && Heard(c, feed, log)
    ensures Heard(c, feed, log + [m])
  {
    LogGrows(log, m, c.joined, c.position);
  }

  lemma LogStep(log: seq<PageServerMessage>, joined: nat, position: nat)
    requires joined <= position < |log|
    ensures log[joined..position + 1] == log[joined..position] + [log[position]]
  {
  }

  lemma RelayKeepsHeard(c: Connection, d: Connection, feed: Feed, log: seq<PageServerMessage>)
    requires c.Online? && Heard(c, feed, log) && c.position < |log| && d == c.Relay(log[c.position])
    ensures d.joined <= d.position <= |log| && Sends(d.trace.sent, d.trace.applied + d.wire)
    ensures OffTheChannel(d.trace.sent) == log[d.joined..d.position]
  {
    var m := log[c.position];
    RelayKeeps(c, m);
    LogStep(log, c.joined, c.position);
    RelayedIsKept(c.trace.sent, m);
  }

  lemma EventKeepsReceived(w: World, e: Event, payload: map<string, seq<Stroke>>, calm: bool)
    requires Received(w) && Enabled(w, e, payload, calm)
    ensures Received(Next(w, e, payload, calm))
  {
    var c := w.connection;
    if c.Online? {
      match e
      case Published(k) => LogKeepsHeard(c, w.feed, w.log, w.unpublished[k]);
      case LeaseAnnounced(holder) => LogKeepsHeard(c, w.feed, w.log, LeaseChanged(holder));
      case Welcomed(s, head, holder) => SendOwnKeeps(c, [Welcome(s, head, holder, w.tables.paper)]);
      case Forwarded => RelayKeepsHeard(c, c.Relay(w.log[c.position]), w.feed, w.log);
      case ReplaySent(headRead, coalesce) =>
        var lastSeq := if headRead then MaxSeq(w.tables.batches) else c.fromSeq;
        SendOwnKeeps(c, ReplayMessages(coalesce, lastSeq, c.phase.rows, c.phase.tombstones));
      case ReplayFailed => SendOwnKeeps(c, [REPLAY_FAILED]);
      case Delivered => TakeInKeeps(c, w.feed);
      case _ =>
    }
  }

  lemma {:induction false} RunKeepsReceived(
      worlds: seq<World>, events: seq<Event>, payload: map<string, seq<Stroke>>, calm: bool, k: nat)
    requires IsRun(worlds, events, payload, calm) && k < |worlds| && worlds[0].connection.Offline?
    ensures Received(worlds[k])
    decreases k
  {
    if k > 0 {
      RunKeepsReceived(worlds, events, payload, calm, k - 1);
      EventKeepsReceived(worlds[k - 1], events[k - 1], payload, calm);
    }
  }

  /** In every run, whatever the order of publication: what a viewer has applied
      on its connection and what is on its wire, without the welcome and the
      replay, is an unbroken stretch of the channel from where it subscribed; and
      a connection that has fallen more than the channel's capacity behind
      forwards nothing more. */
  lemma ForwardsAnUnbrokenPrefix(
      worlds: seq<World>, events: seq<Event>, payload: map<string, seq<Stroke>>, calm: bool, k: nat)
    requires IsRun(worlds, events, payload, calm) && k < |worlds| && Start(worlds[0], payload)
    ensures Received(worlds[k])
    ensures worlds[k].connection.Online? && worlds[k].connection.position + PAGE_CHANNEL_CAPACITY < |worlds[k].log| ==>
      !Enabled(worlds[k], Forwarded, payload, calm)
  {
    RunKeepsReceived(worlds, events, payload, calm, k);
  }
}
