/** What a socket's loop is to the other two machines: to the one of sessions that
    edit a page in turns, and to the page channel with its viewer. What is proved
    of those holds of the loop, and of the frames it really sent. */
module Serving {
  import opened Protocol
  import opened Store
  import opened Viewer
  import opened Hub
  import opened Dispatch
  import opened Convergence
  import opened PageSystem
  import Editing
  import Socket

  // ---- A session that edits -----------------------------------------------

  /** What the loop is at, as the machine of sessions has it. */
  function WorkOf(stage: Socket.Stage): Option<Editing.Work> {
    match stage
    case Persisting(m) => Some(Editing.Persisting(m))
    case Telling(news) => Some(Editing.Telling(news))
    case _ => None
  }

  /** The loop of session `s` stands where the machine has it. */
  ghost predicate Edits(c: Socket.Conn, site: Editing.Site, s: string) {
    && c.server == site.server
    && match WorkOf(c.stage)
       case None => s !in site.busy
       case Some(work) => s in site.busy && site.busy[s] == work
  }

  /** What a turn of the session's own is to the machine, if anything: its message is
      heard, its transaction ends, its news goes out. */
  function OwnEvent(c: Socket.Conn, s: string, turn: Socket.Turn, now: int): Option<Editing.SocketEvent> {
    match turn
    case Heard(message, at) => if c.stage.Ready? then Some(Editing.Heard(s, message, at)) else None
    case Persisted(ending, at) => if c.stage.Persisting? then Some(Editing.Landed(s, ending, at)) else None
    case NewsDue => if c.stage.Telling? then Some(Editing.Announced(s, now)) else None
    case _ => None
  }

  predicate IsElsewhere(turn: Socket.Turn) {
    turn.StoredElsewhere? || turn.ToldElsewhere? || turn.LeaseTakenElsewhere? || turn.LeaseLeftElsewhere?
  }

  /** Each turn of a session's own loop is one event of the machine, or none; so what
      holds of every run of sessions holds of the loops that serve them. */
  lemma OwnTurnIsItsEvent(c: Socket.Conn, peer: Socket.Peer, turn: Socket.Turn, site: Editing.Site, now: int)
    requires Edits(c, site, peer.sessionId) && !IsElsewhere(turn)
    ensures var next, event := Socket.Turned(c, peer, turn).0, OwnEvent(c, peer.sessionId, turn, now);
      && (event.None? ==> Edits(next, site, peer.sessionId))
      && (event.Some? ==>
            && Editing.Possible(site, event.value)
            && Edits(next, Editing.After(site, peer.pageId, event.value), peer.sessionId))
  {
  }

  /** A loop that breaks is the end of its session: no work of it is left behind, and
      what it held it lets go. */
  lemma BrokenLoopCloses(c: Socket.Conn, peer: Socket.Peer, turn: Socket.Turn, site: Editing.Site, now: int)
    requires !Socket.Turned(c, peer, turn).1 && !IsElsewhere(turn)
    requires Edits(Socket.Turned(c, peer, turn).0, site, peer.sessionId)
    ensures Editing.Possible(site, Editing.Closed(peer.sessionId, now))
    ensures Editing.After(site, peer.pageId, Editing.Closed(peer.sessionId, now)).server
         == Socket.Served(c, peer, [turn]).0.server
  {
  }

  // ---- A session that watches ---------------------------------------------

  predicate StageFits(stage: Socket.Stage, phase: Phase, fromSeq: nat) {
    match stage
    case Ready => phase.AwaitingReplay? || phase.Replayed? || phase.ReplayLost?
    case LoadingRows(n) => phase.AwaitingReplay? && n == fromSeq
    case LoadingTombstones(n, rows) => phase.RowsRead? && n == fromSeq && rows == phase.rows
    case ReadingHead(n, rows, tombstones) =>
      phase.TombstonesRead? && n == fromSeq && rows == phase.rows && tombstones == phase.tombstones
    case _ => false
  }

  /** The loop is the server's side of the viewer's connection: the same rows and
      channel, the same place in it, the same frames sent, the same read made last. */
  ghost predicate Watches(c: Socket.Conn, w: World) {
    && w.connection.Online?
    && w.tables == c.server.tables && w.log == c.server.log
    && w.connection.position == c.position && w.connection.trace.sent == c.sent
    && StageFits(c.stage, w.connection.phase, w.connection.fromSeq)
  }

  /** What a viewer's loop meets: the viewer asks once, from its cursor; others store
      what follows their keys' payloads, and tell lease changes and what waits to be
      told, the first of it if `inOrder`. */
  ghost predicate Meets(c: Socket.Conn, w: World, turn: Socket.Turn, payload: map<string, seq<Stroke>>, inOrder: bool)
    requires Watches(c, w)
  {
    match turn
    case Heard(message, _) =>
      c.stage.Ready? ==> w.connection.phase.AwaitingReplay? && message == Subscribe(w.connection.fromSeq)
    case StoredElsewhere(m, _) => m.AddInk? ==> m.key in payload && payload[m.key] == m.strokes
    case ToldElsewhere(news) =>
      || news.LeaseChanged?
      || (news in w.unpublished && (inOrder ==> w.unpublished[0] == news))
    case _ => true
  }

  function IndexOf(messages: seq<PageServerMessage>, m: PageServerMessage): (i: nat)
    requires m in messages
    ensures i < |messages| && messages[i] == m
    ensures messages[0] == m ==> i == 0
  {
    if messages[0] == m then 0 else 1 + IndexOf(messages[1..], m)
  }

  /** What a turn is to the page channel, if anything. */
  ghost function ChannelEvent(c: Socket.Conn, w: World, peer: Socket.Peer, turn: Socket.Turn): Option<Event> {
    match turn
    case FanoutReady =>
      if c.stage.Ready? && Receive(c.server.log, c.position).Message? then Some(Forwarded) else None
    case RowsRead(ok) => if c.stage.LoadingRows? then Some(if ok then RowsLoaded else ReplayFailed) else None
    case TombstonesRead(ok) =>
      if c.stage.LoadingTombstones? then Some(if ok then TombstonesLoaded else ReplayFailed) else None
    case HeadRead(ok) => if c.stage.ReadingHead? then Some(ReplaySent(ok, peer.coalesce)) else None
    case StoredElsewhere(m, now) => Some(Committed(m, now))
    case ToldElsewhere(news) =>
      if news.LeaseChanged? then Some(LeaseAnnounced(news.holder))
      else if news in w.unpublished then Some(Published(IndexOf(w.unpublished, news)))
      else None
    case _ => None
  }

  lemma OneOwn(m: PageServerMessage)
    ensures AllOwn([m]) == [Own(m)]
  {
  }

  /** Each turn of a viewer's loop that leaves it open is one step of the page
      channel, or none: the fan-out, the three reads of the replay and its frames
      are those of the machine. */
  lemma TurnIsAStep(c: Socket.Conn, w: World, peer: Socket.Peer, turn: Socket.Turn, payload: map<string, seq<Stroke>>,
                    inOrder: bool)
    requires Watches(c, w) && Meets(c, w, turn, payload, inOrder) && Socket.Turned(c, peer, turn).1
    ensures var next, event := Socket.Turned(c, peer, turn).0, ChannelEvent(c, w, peer, turn);
      && (event.None? ==> Watches(next, w))
      && (event.Some? ==>
            Enabled(w, event.value, payload, false) && Watches(next, Next(w, event.value, payload, false)))
      && (event.Some? && event.value.Published? && inOrder ==> event.value.k == 0)
  {
    OneOwn(REPLAY_FAILED);
  }

  /** A loop that has sent its welcome, and nothing else yet, is where the machine has
      a viewer just welcomed. */
  lemma WelcomeStarts(c: Socket.Conn, w: World, sessionId: string, headRead: bool, holder: Option<string>,
                      payload: map<string, seq<Stroke>>)
    returns (head: nat)
    requires w.connection.Online? && w.connection.phase.AwaitingWelcome? && w.connection.trace.sent == []
    requires w.tables == c.server.tables && w.log == c.server.log && w.connection.position == c.position
    requires c.stage.Ready?
    requires var lastSeq := if headRead then MaxSeq(w.tables.batches) else 0;
      c.sent == [Own(Welcome(sessionId, lastSeq, holder, w.tables.paper))]
    ensures Enabled(w, Welcomed(sessionId, head, holder), payload, false)
    ensures Watches(c, Next(w, Welcomed(sessionId, head, holder), payload, false))
  {
    head := if headRead then MaxSeq(w.tables.batches) else 0;
    OneOwn(Welcome(sessionId, head, holder, w.tables.paper));
  }

  /** Every turn is one that a viewer's loop meets, as the machine then stands. */
  ghost predicate AllMet(c: Socket.Conn, w: World, peer: Socket.Peer, turns: seq<Socket.Turn>,
                         payload: map<string, seq<Stroke>>, inOrder: bool)
    requires Watches(c, w)
    decreases |turns|
  {
    turns != [] && Socket.Turned(c, peer, turns[0]).1 ==>
      && Meets(c, w, turns[0], payload, inOrder)
      && (TurnIsAStep(c, w, peer, turns[0], payload, inOrder);
          AllMet(Socket.Turned(c, peer, turns[0]).0, After(c, w, peer, turns[0], payload), peer, turns[1..], payload,
                 inOrder))
  }

  /** The page channel after a turn. */
  ghost function After(c: Socket.Conn, w: World, peer: Socket.Peer, turn: Socket.Turn,
                       payload: map<string, seq<Stroke>>): World
    requires var event := ChannelEvent(c, w, peer, turn); event.Some? ==> Enabled(w, event.value, payload, false)
  {
    var event := ChannelEvent(c, w, peer, turn);
    if event.Some? then Next(w, event.value, payload, false) else w
  }

  lemma RunGoesOn(worlds: seq<World>, events: seq<Event>, e: Event, payload: map<string, seq<Stroke>>, next: World)
    requires IsRun(worlds, events, payload, false) && Enabled(worlds[|events|], e, payload, false)
    requires next == Next(worlds[|events|], e, payload, false)
    ensures IsRun(worlds + [next], events + [e], payload, false)
  {
  }

  lemma OrderGoesOn(events: seq<Event>, e: Event)
    requires InOrder(events) && !e.CommittedUnheard? && (e.Published? ==> e.k == 0)
    ensures InOrder(events + [e])
  {
  }

  /** A run of the page channel goes on, turn by turn, as long as the loop is open:
      whatever the turns were, the loop's run is one of the machine's. */
  lemma {:induction false} ServedIsARun(
      worlds: seq<World>, events: seq<Event>, c: Socket.Conn, peer: Socket.Peer, turns: seq<Socket.Turn>,
      payload: map<string, seq<Stroke>>, inOrder: bool)
    returns (moreWorlds: seq<World>, moreEvents: seq<Event>)
    requires IsRun(worlds, events, payload, false) && Watches(c, worlds[|events|])
    requires AllMet(c, worlds[|events|], peer, turns, payload, inOrder) && Socket.Served(c, peer, turns).1
    ensures IsRun(moreWorlds, moreEvents, payload, false) && moreWorlds[0] == worlds[0]
    ensures Watches(Socket.Served(c, peer, turns).0, moreWorlds[|moreEvents|])
    ensures inOrder && InOrder(events) ==> InOrder(moreEvents)
    ensures moreWorlds[|moreEvents|].feed == worlds[|events|].feed
    ensures moreWorlds[|moreEvents|].connection.gapFree == worlds[|events|].connection.gapFree
    ensures moreWorlds[|moreEvents|].connection.trace.met == worlds[|events|].connection.trace.met
    decreases |turns|
  {
    moreWorlds, moreEvents := worlds, events;
    if turns != [] {
      var w, event := worlds[|events|], ChannelEvent(c, worlds[|events|], peer, turns[0]);
      TurnIsAStep(c, w, peer, turns[0], payload, inOrder);
      var next := After(c, w, peer, turns[0], payload);
      if event.Some? {
        RunGoesOn(worlds, events, event.value, payload, next);
        if inOrder && InOrder(events) { OrderGoesOn(events, event.value); }
        moreWorlds, moreEvents := worlds + [next], events + [event.value];
        StepLeavesTheViewer(w, c, peer, turns[0], payload);
      }
      moreWorlds, moreEvents :=
        ServedIsARun(moreWorlds, moreEvents, Socket.Turned(c, peer, turns[0]).0, peer, turns[1..], payload, inOrder);
    }
  }

  lemma StepLeavesTheViewer(w: World, c: Socket.Conn, peer: Socket.Peer, turn: Socket.Turn,
                            payload: map<string, seq<Stroke>>)
    requires w.connection.Online? && ChannelEvent(c, w, peer, turn).Some?
    requires Enabled(w, ChannelEvent(c, w, peer, turn).value, payload, false)
    ensures var v := Next(w, ChannelEvent(c, w, peer, turn).value, payload, false);
      && v.feed == w.feed && v.connection.Online?
      && v.connection.gapFree == w.connection.gapFree && v.connection.trace.met == w.connection.trace.met
  {
  }

  /** From what its peer was really sent, a viewer that applies it all, on top of what
      it showed as it subscribed, comes to what the machine says it will. */
  lemma FramesMakeTheViewer(
      worlds: seq<World>, events: seq<Event>, payload: map<string, seq<Stroke>>, c: Socket.Conn,
      frames: seq<PageServerMessage>)
    requires IsRun(worlds, events, payload, false) && worlds[0].connection.Offline?
    requires Watches(c, worlds[|events|]) && Sends(c.sent, frames)
    ensures var w := worlds[|events|];
      && frames == w.connection.trace.applied + w.connection.wire
      && AppliedAll(w.connection.trace.met, frames) == AppliedAll(w.feed, w.connection.wire)
  {
    RunKeepsReceived(worlds, events, payload, false, |events|);
    var w := worlds[|events|];
    SameFrames(c.sent, frames, w.connection.trace.applied + w.connection.wire);
    AppliedAllConcat(w.connection.trace.met, w.connection.trace.applied, w.connection.wire);
  }

  lemma SameFrames(sent: seq<Sent>, a: seq<PageServerMessage>, b: seq<PageServerMessage>)
    requires Sends(sent, a) && Sends(sent, b)
    ensures a == b
  {
    assert forall i :: 0 <= i < |a| ==> a[i] == sent[i].message == b[i];
  }

  lemma NothingToCome(feed: Feed, wire: seq<PageServerMessage>, tail: seq<PageServerMessage>)
    requires tail == []
    ensures AppliedAll(feed, wire + tail) == AppliedAll(feed, wire)
  {
    assert wire + tail == wire;
  }

  /** End to end: after any turns that tell the news in the order it came about, a
      viewer that subscribed gap-free, was sent its replay and has been passed on the
      whole channel with nothing left untold, shows exactly the stored page once it
      has applied the frames its loop really sent. */
  lemma ServedViewerShowsThePage(
      worlds: seq<World>, events: seq<Event>, c: Socket.Conn, peer: Socket.Peer, turns: seq<Socket.Turn>,
      payload: map<string, seq<Stroke>>, frames: seq<PageServerMessage>)
    returns (end: World)
    requires IsRun(worlds, events, payload, false) && InOrder(events) && Start(worlds[0], payload)
    requires Watches(c, worlds[|events|]) && worlds[|events|].connection.gapFree
    requires AllMet(c, worlds[|events|], peer, turns, payload, true) && Socket.Served(c, peer, turns).1
    requires Sends(Socket.Served(c, peer, turns).0.sent, frames)
    ensures var d, met := Socket.Served(c, peer, turns).0, worlds[|events|].connection.trace.met;
      && Watches(d, end)
      && (end.connection.phase.Replayed? && end.unpublished == [] && d.position == |d.server.log| ==>
            && AppliedAll(met, frames).batches == Projection(d.server.tables)
            && AppliedAll(met, frames).paper == d.server.tables.paper)
  {
    var moreWorlds, moreEvents := ServedIsARun(worlds, events, c, peer, turns, payload, true);
    var d := Socket.Served(c, peer, turns).0;
    end := moreWorlds[|moreEvents|];
    FramesMakeTheViewer(moreWorlds, moreEvents, payload, d, frames);
    if end.connection.phase.Replayed? && end.unpublished == [] && d.position == |d.server.log| {
      InOrderIsHarmless(moreWorlds, moreEvents);
      ViewerConverges(moreWorlds, moreEvents, payload, false, |moreEvents|);
      NothingToCome(end.feed, end.connection.wire, Tail(end));
    }
  }
}
