/** One page connection on the server: the welcome, the fan-out it forwards, and
    the loop that takes whatever comes first. The loop awaits its transactions and
    reads one after the other, and other sessions act in between. `Turned` says
    one turn on values; `PageSocket` takes it on the hub, the store and the peer. */
module Socket {
  import opened Protocol
  import opened Store
  import opened Hub
  import opened Dispatch

  const WELCOME_FAILED := ErrorMessage("welcome_failed", "could not load the page")

  // ---- A turn on values ---------------------------------------------------

  /** What the loop is at: waiting for whatever comes first, or for one thing. */
  datatype Stage =
    | Ready
    | Persisting(mutation: Mutation)
    | Telling(news: News)
    | LoadingRows(fromSeq: nat)
    | LoadingTombstones(fromSeq: nat, rows: seq<StrokeBatch>)
    | ReadingHead(fromSeq: nat, rows: seq<StrokeBatch>, tombstones: seq<TombstoneBatch>)

  /** What happens next: something the loop waits for, or another session's act. */
  datatype Turn =
    | FanoutReady
    | Heard(message: PageClientMessage, now: int)
    | Persisted(ending: Ending, now: int)
    | NewsDue
    | RowsRead(ok: bool)
    | TombstonesRead(ok: bool)
    | HeadRead(ok: bool)
    | OtherFrame
    | Gone
    | StoredElsewhere(mutation: Mutation, now: int)
    | ToldElsewhere(news: PageServerMessage)
    | LeaseTakenElsewhere(other: string, now: int)
    | LeaseLeftElsewhere(other: string)

  datatype Peer = Peer(pageId: string, sessionId: string, room: nat, coalesce: bool)

  /** A connection with the page behind it: what its peer was sent, the channel's
      next message to forward, and what it is at. */
  datatype Conn = Conn(server: Server, sent: seq<Sent>, position: nat, stage: Stage)

  /** One frame of the connection's own, if there is one to send. */
  function Replied(c: Conn, peer: Peer, reply: Option<PageServerMessage>): (Conn, bool) {
    if reply.None? then (c, true)
    else if |c.sent| < peer.room then (c.(sent := c.sent + [Own(reply.value)]), true)
    else (c, false)
  }

  /** The next message of the channel is passed on; a subscriber that fell behind
      is closed, never skipped past. */
  function OnFanout(c: Conn, peer: Peer): (Conn, bool) {
    match Receive(c.server.log, c.position)
    case Message(m) =>
      if |c.sent| < peer.room then (c.(sent := c.sent + [Relayed(m)], position := c.position + 1), true) else (c, false)
    case Lagged(_) => (c, false)
    case NothingYet => (c, true)
  }

  function OnHeard(c: Conn, peer: Peer, message: PageClientMessage, now: int): (Conn, bool) {
    if message.Subscribe? then (c.(stage := LoadingRows(message.fromSeq)), true)
    else
      var (server, verdict) := Checked(c.server, peer.pageId, peer.sessionId, message, now);
      var checked := c.(server := server);
      match verdict
      case ToPersist(m) => (checked.(stage := Persisting(m)), true)
      case Answered(reply) => Replied(checked, peer, reply)
  }

  function OnPersisted(c: Conn, m: Mutation, ending: Ending, now: int): Conn {
    var (tables, news) := AfterPersist(c.server.tables, m, now, ending);
    c.(server := c.server.(tables := tables), stage := Telling(news))
  }

  function OnNews(c: Conn, peer: Peer, news: News): (Conn, bool) {
    Replied(c.(server := c.server.(log := Said(c.server.log, news.told)), stage := Ready), peer, news.reply)
  }

  function ReplayLost(c: Conn, peer: Peer): (Conn, bool) {
    Replied(c.(stage := Ready), peer, Some(REPLAY_FAILED))
  }

  function OnHead(
      c: Conn, peer: Peer, fromSeq: nat, rows: seq<StrokeBatch>, tombstones: seq<TombstoneBatch>,
      ok: bool): (Conn, bool)
  {
    var head := if ok then Some(MaxSeq(c.server.tables.batches)) else None;
    var replay := ReplayOf(peer.coalesce, fromSeq, Some((rows, tombstones)), head);
    (c.(sent := c.sent + AllOwn(Taken(replay, |c.sent|, peer.room)), stage := Ready), |c.sent| + |replay| <= peer.room)
  }

  /** Another session's act. */
  function Elsewhere(server: Server, pageId: string, turn: Turn): Server {
    match turn
    case StoredElsewhere(m, now) => server.(tables := AfterPersist(server.tables, m, now, Acknowledged).0)
    case ToldElsewhere(news) => server.(log := server.log + [news])
    case LeaseTakenElsewhere(other, now) => server.(leases := AfterAcquire(server.leases, pageId, other, now).0)
    case LeaseLeftElsewhere(other) => server.(leases := AfterRelease(server.leases, pageId, other).0)
    case _ => server
  }

  /** One turn; false ends the loop. Only a loop that is ready hears its peer and
      its channel, and what it does not wait for does nothing to it. */
  function Turned(c: Conn, peer: Peer, turn: Turn): (Conn, bool) {
    match turn
    case FanoutReady => if c.stage.Ready? then OnFanout(c, peer) else (c, true)
    case Heard(message, now) => if c.stage.Ready? then OnHeard(c, peer, message, now) else (c, true)
    case Persisted(ending, now) =>
      (if c.stage.Persisting? then OnPersisted(c, c.stage.mutation, ending, now) else c, true)
    case NewsDue => if c.stage.Telling? then OnNews(c, peer, c.stage.news) else (c, true)
    case RowsRead(ok) =>
      if !c.stage.LoadingRows? then (c, true)
      else if !ok then ReplayLost(c, peer)
      else
        var rows := BatchesAfter(c.server.tables.batches, c.stage.fromSeq);
        (c.(stage := LoadingTombstones(c.stage.fromSeq, rows)), true)
    case TombstonesRead(ok) =>
      if !c.stage.LoadingTombstones? then (c, true)
      else if !ok then ReplayLost(c, peer)
      else (c.(stage := ReadingHead(c.stage.fromSeq, c.stage.rows, c.server.tables.erasures)), true)
    case HeadRead(ok) =>
      if c.stage.ReadingHead? then OnHead(c, peer, c.stage.fromSeq, c.stage.rows, c.stage.tombstones, ok) else (c, true)
    case OtherFrame => (c, true)
    case Gone => (c, !c.stage.Ready?)
    case _ => (c.(server := Elsewhere(c.server, peer.pageId, turn)), true)
  }

  /** The loop over as many turns as there are. Once it breaks, a lease still held
      is let go; false says that it broke. */
  function Served(c: Conn, peer: Peer, turns: seq<Turn>): (Conn, bool)
    decreases |turns|
  {
    if turns == [] then (c, true)
    else
      var (next, open) := Turned(c, peer, turns[0]);
      if open then Served(next, peer, turns[1..])
      else (next.(server := Ended(next.server, peer.pageId, peer.sessionId)), false)
  }

  // ---- What the peer is sent ----------------------------------------------

  /** Without the connection's own frames, the peer was sent an unbroken stretch
      of the channel, from where it joined up to the next message to forward. */
  ghost predicate Follows(c: Conn, joined: nat) {
    joined <= c.position <= |c.server.log| && OffTheChannel(c.sent) == c.server.log[joined..c.position]
  }

  lemma StillFollows(c: Conn, d: Conn, joined: nat, own: seq<PageServerMessage>)
    requires Follows(c, joined) && c.server.log <= d.server.log
    requires d.position == c.position && d.sent == c.sent + AllOwn(own)
    ensures Follows(d, joined)
  {
    OwnAreRemoved(c.sent, own);
    assert d.server.log[joined..c.position] == c.server.log[joined..c.position];
  }

  lemma SentNothing(c: Conn, d: Conn, joined: nat)
    requires Follows(c, joined) && c.server.log <= d.server.log && d.position == c.position && d.sent == c.sent
    ensures Follows(d, joined)
  {
    assert c.sent + AllOwn([]) == c.sent;
    StillFollows(c, d, joined, []);
  }

  lemma RepliedFollows(c: Conn, peer: Peer, reply: Option<PageServerMessage>, joined: nat)
    requires Follows(c, joined)
    ensures Follows(Replied(c, peer, reply).0, joined)
  {
    if reply.Some? { OwnIsRemoved(c.sent, reply.value); }
  }

  lemma NextOfLog(log: seq<PageServerMessage>, joined: nat, position: nat)
    requires joined <= position < |log|
    ensures log[joined..position + 1] == log[joined..position] + [log[position]]
  {
  }

  lemma RelayFollows(c: Conn, d: Conn, joined: nat)
    requires Follows(c, joined) && c.position < |c.server.log| && d.server == c.server
    requires d.sent == c.sent + [Relayed(c.server.log[c.position])] && d.position == c.position + 1
    ensures Follows(d, joined)
  {
    RelayedIsKept(c.sent, c.server.log[c.position]);
    NextOfLog(c.server.log, joined, c.position);
  }

  lemma FanoutFollows(c: Conn, peer: Peer, joined: nat)
    requires Follows(c, joined)
    ensures Follows(OnFanout(c, peer).0, joined)
  {
    if Receive(c.server.log, c.position).Message? && |c.sent| < peer.room {
      RelayFollows(c, OnFanout(c, peer).0, joined);
    }
  }

  lemma CheckedExtendsLog(server: Server, pageId: string, s: string, message: PageClientMessage, now: int)
    ensures server.log <= Checked(server, pageId, s, message, now).0.log
  {
  }

  lemma HeardFollows(c: Conn, peer: Peer, message: PageClientMessage, now: int, joined: nat)
    requires Follows(c, joined)
    ensures Follows(OnHeard(c, peer, message, now).0, joined)
  {
    if message.Subscribe? {
      SentNothing(c, OnHeard(c, peer, message, now).0, joined);
    } else {
      var (server, verdict) := Checked(c.server, peer.pageId, peer.sessionId, message, now);
      CheckedExtendsLog(c.server, peer.pageId, peer.sessionId, message, now);
      SentNothing(c, c.(server := server), joined);
      match verdict {
        case ToPersist(m) => SentNothing(c.(server := server), OnHeard(c, peer, message, now).0, joined);
        case Answered(reply) => RepliedFollows(c.(server := server), peer, reply, joined);
      }
    }
  }

  lemma NewsFollows(c: Conn, peer: Peer, news: News, joined: nat)
    requires Follows(c, joined)
    ensures Follows(OnNews(c, peer, news).0, joined)
  {
    var told := c.(server := c.server.(log := Said(c.server.log, news.told)), stage := Ready);
    SentNothing(c, told, joined);
    RepliedFollows(told, peer, news.reply, joined);
  }

  lemma LostFollows(c: Conn, peer: Peer, joined: nat)
    requires Follows(c, joined)
    ensures Follows(ReplayLost(c, peer).0, joined)
  {
    SentNothing(c, c.(stage := Ready), joined);
    RepliedFollows(c.(stage := Ready), peer, Some(REPLAY_FAILED), joined);
  }

  lemma HeadFollows(
      c: Conn, peer: Peer, fromSeq: nat, rows: seq<StrokeBatch>, tombstones: seq<TombstoneBatch>, ok: bool, joined: nat)
    requires Follows(c, joined)
    ensures Follows(OnHead(c, peer, fromSeq, rows, tombstones, ok).0, joined)
  {
    var head := if ok then Some(MaxSeq(c.server.tables.batches)) else None;
    var replay := ReplayOf(peer.coalesce, fromSeq, Some((rows, tombstones)), head);
    StillFollows(c, OnHead(c, peer, fromSeq, rows, tombstones, ok).0, joined, Taken(replay, |c.sent|, peer.room));
  }

  lemma TurnFollows(c: Conn, peer: Peer, turn: Turn, joined: nat)
    requires Follows(c, joined)
    ensures Follows(Turned(c, peer, turn).0, joined)
  {
    var d := Turned(c, peer, turn).0;
    if turn.FanoutReady? { FanoutFollows(c, peer, joined); }
    else if turn.Heard? && c.stage.Ready? { HeardFollows(c, peer, turn.message, turn.now, joined); }
    else if turn.NewsDue? && c.stage.Telling? { NewsFollows(c, peer, c.stage.news, joined); }
    else if turn.HeadRead? && c.stage.ReadingHead? {
      HeadFollows(c, peer, c.stage.fromSeq, c.stage.rows, c.stage.tombstones, turn.ok, joined);
    }
    else if turn.RowsRead? && c.stage.LoadingRows? && !turn.ok { LostFollows(c, peer, joined); }
    else if turn.TombstonesRead? && c.stage.LoadingTombstones? && !turn.ok { LostFollows(c, peer, joined); }
    else { SentNothing(c, d, joined); }
  }

  /** Whatever comes, over the whole loop and past its end: what the peer was
      sent, without the connection's own frames, is an unbroken stretch of the
      channel; and a session whose loop broke holds the page no more. */
  lemma {:induction false} ServedFollows(c: Conn, peer: Peer, turns: seq<Turn>, joined: nat)
    requires Follows(c, joined)
    ensures var (d, open) := Served(c, peer, turns);
      && Follows(d, joined)
      && (!open ==> !(peer.pageId in d.server.leases && d.server.leases[peer.pageId].holder == peer.sessionId))
    decreases |turns|
  {
    if turns != [] {
      var (next, open) := Turned(c, peer, turns[0]);
      TurnFollows(c, peer, turns[0], joined);
      if open {
        ServedFollows(next, peer, turns[1..], joined);
      } else {
        SentNothing(next, Served(c, peer, turns).0, joined);
      }
    }
  }

  ghost predicate FallenBehind(c: Conn) { c.position + PAGE_CHANNEL_CAPACITY < |c.server.log| }

  lemma BehindStaysBehind(c: Conn, peer: Peer, turn: Turn)
    requires FallenBehind(c)
    ensures var d := Turned(c, peer, turn).0; d.position == c.position && c.server.log <= d.server.log
  {
    if turn.Heard? && !turn.message.Subscribe? {
      CheckedExtendsLog(c.server, peer.pageId, peer.sessionId, turn.message, turn.now);
    }
  }

  /** A subscriber that fell more than the channel's capacity behind is passed on
      nothing more, whatever comes: it is closed, never skipped past. */
  lemma {:induction false} FallenBehindHearsNoMore(c: Conn, peer: Peer, turns: seq<Turn>, joined: nat)
    requires Follows(c, joined) && FallenBehind(c)
    ensures var d := Served(c, peer, turns).0;
            d.position == c.position && OffTheChannel(d.sent) == OffTheChannel(c.sent)
    ensures turns != [] && turns[0].FanoutReady? && c.stage.Ready? ==> !Served(c, peer, turns).1
    decreases |turns|
  {
    if turns != [] {
      var (next, open) := Turned(c, peer, turns[0]);
      BehindStaysBehind(c, peer, turns[0]);
      TurnFollows(c, peer, turns[0], joined);
      assert next.server.log[joined..c.position] == c.server.log[joined..c.position];
      if open { FallenBehindHearsNoMore(next, peer, turns[1..], joined); }
    }
  }

  // ---- Every message is passed on -----------------------------------------

  /** The channel has a message for the connection, still in its reach. */
  predicate MessageAhead(c: Conn) { c.position < |c.server.log| <= c.position + PAGE_CHANNEL_CAPACITY }

  /** A ready loop whose peer has room passes the next message on, that one alone,
      and stays open. */
  lemma ReadyPassesOn(c: Conn, peer: Peer)
    requires c.stage.Ready? && MessageAhead(c) && |c.sent| < peer.room
    ensures var (d, open) := Turned(c, peer, FanoutReady);
      && open && d.stage.Ready? && d.server == c.server
      && d.position == c.position + 1 && |d.sent| == |c.sent| + 1
      && OffTheChannel(d.sent) == OffTheChannel(c.sent) + [c.server.log[c.position]]
  {
    RelayedIsKept(c.sent, c.server.log[c.position]);
  }

  /** How many of the turns found the loop ready and a message in the channel. */
  function FanoutsDue(c: Conn, peer: Peer, turns: seq<Turn>): nat
    decreases |turns|
  {
    if turns == [] then 0
    else
      var due := if turns[0].FanoutReady? && c.stage.Ready? && c.position < |c.server.log| then 1 else 0;
      var (next, open) := Turned(c, peer, turns[0]);
      due + if open then FanoutsDue(next, peer, turns[1..]) else 0
  }

  lemma OpenTurnMoves(c: Conn, peer: Peer, turn: Turn, joined: nat)
    requires Follows(c, joined) && Turned(c, peer, turn).1
    ensures Turned(c, peer, turn).0.position == c.position
              + if turn.FanoutReady? && c.stage.Ready? && c.position < |c.server.log| then 1 else 0
  {
    if turn.FanoutReady? && c.stage.Ready? && c.position < |c.server.log| {
      if MessageAhead(c) && |c.sent| < peer.room { ReadyPassesOn(c, peer); }
    }
  }

  /** While the loop is open each fan-out it takes passes one message on: after
      any turns the peer was sent, besides the connection's own frames, exactly the
      next `FanoutsDue` messages of the channel. */
  lemma {:induction false} ServedPassesOn(c: Conn, peer: Peer, turns: seq<Turn>, joined: nat)
    requires Follows(c, joined) && Served(c, peer, turns).1
    ensures var d := Served(c, peer, turns).0;
      && d.position == c.position + FanoutsDue(c, peer, turns) <= |d.server.log|
      && OffTheChannel(d.sent) == d.server.log[joined..d.position]
    decreases |turns|
  {
    if turns != [] {
      OpenTurnMoves(c, peer, turns[0], joined);
      TurnFollows(c, peer, turns[0], joined);
      ServedPassesOn(Turned(c, peer, turns[0]).0, peer, turns[1..], joined);
    }
  }

  ghost predicate OnlyFanouts(turns: seq<Turn>) { forall i :: 0 <= i < |turns| ==> turns[i] == FanoutReady }

  lemma OneMore(log: seq<PageServerMessage>, passed: seq<PageServerMessage>, from: nat, end: nat)
    requires from < end <= |log|
    ensures (passed + [log[from]]) + log[from + 1..end] == passed + log[from..end]
  {
  }

  /** `n` fan-outs in a row, with as many messages ahead and room for them: exactly
      those messages go to the peer, and with none left the loop only waits. */
  lemma {:induction false} FanoutsPassOnTheChannel(c: Conn, peer: Peer, turns: seq<Turn>)
    requires c.stage.Ready? && c.position <= |c.server.log| <= c.position + PAGE_CHANNEL_CAPACITY
    requires OnlyFanouts(turns) && |c.sent| + |c.server.log| - c.position <= peer.room
    ensures var (d, open) := Served(c, peer, turns);
      var end := Min(c.position + |turns|, |c.server.log|);
      && open && d.stage.Ready? && d.server == c.server && d.position == end
      && OffTheChannel(d.sent) == OffTheChannel(c.sent) + c.server.log[c.position..end]
    decreases |turns|
  {
    if turns != [] {
      var next := Turned(c, peer, FanoutReady).0;
      if c.position < |c.server.log| {
        ReadyPassesOn(c, peer);
        FanoutsPassOnTheChannel(next, peer, turns[1..]);
        OneMore(c.server.log, OffTheChannel(c.sent), c.position, Min(c.position + |turns|, |c.server.log|));
      } else {
        FanoutsPassOnTheChannel(c, peer, turns[1..]);
      }
    }
  }

  // ---- Answers, and when the loop breaks ----------------------------------

  /** The answer to a message is the next frame of its session, and the loop is ready
      for more. */
  lemma AnswerIsSent(c: Conn, peer: Peer, message: PageClientMessage, now: int)
    requires c.stage.Ready? && !message.Subscribe? && |c.sent| < peer.room
    requires Checked(c.server, peer.pageId, peer.sessionId, message, now).1.Answered?
    ensures var (d, open) := Turned(c, peer, Heard(message, now));
      var reply := Checked(c.server, peer.pageId, peer.sessionId, message, now).1.reply;
      open && d.stage.Ready? && d.sent == c.sent + (if reply.Some? then [Own(reply.value)] else [])
  {
  }

  /** What is left to run is awaited, its news goes to the channel as it ends, and
      its asker has the reply, if there is one. */
  lemma CommitIsServed(c: Conn, peer: Peer, message: PageClientMessage, now: int, ending: Ending, later: int)
    requires c.stage.Ready? && !message.Subscribe? && |c.sent| < peer.room
    requires Checked(c.server, peer.pageId, peer.sessionId, message, now).1.ToPersist?
    ensures var (server, verdict) := Checked(c.server, peer.pageId, peer.sessionId, message, now);
      var (tables, news) := AfterPersist(c.server.tables, verdict.mutation, later, ending);
      var (d, open) := Served(c, peer, [Heard(message, now), Persisted(ending, later), NewsDue]);
      && open && d.stage.Ready? && d.position == c.position
      && d.server.tables == tables && d.server.leases == server.leases
      && d.server.log == server.log + (if news.told.Some? then [news.told.value] else [])
      && d.sent == c.sent + (if news.reply.Some? then [Own(news.reply.value)] else [])
  {
    var turns := [Heard(message, now), Persisted(ending, later), NewsDue];
    var heard := Turned(c, peer, turns[0]).0;
    var landed := Turned(heard, peer, turns[1]).0;
    var told := Turned(landed, peer, turns[2]);
    assert turns[1..] == [turns[1], turns[2]] && turns[1..][1..] == [turns[2]] && turns[1..][1..][1..] == [];
    assert told.1 && Served(told.0, peer, []) == (told.0, true);
    assert Served(landed, peer, [turns[2]]) == (told.0, true);
    assert Served(heard, peer, turns[1..]) == (told.0, true);
  }

  /** The loop breaks only because its peer left, or fell behind, or takes no more. */
  lemma BreaksOnlyWhen(c: Conn, peer: Peer, turn: Turn)
    requires !Turned(c, peer, turn).1
    ensures
      || (turn.Gone? && c.stage.Ready?)
      || (turn.FanoutReady? && c.stage.Ready? && FallenBehind(c))
      || |Turned(c, peer, turn).0.sent| >= peer.room
  {
  }

  /** And when its peer leaves a ready loop, it does. */
  lemma LeavingBreaksIt(c: Conn, peer: Peer)
    ensures c.stage.Ready? ==> !Turned(c, peer, Gone).1
    ensures Turned(c, peer, OtherFrame) == (c, true)
  {
  }

  // ---- The connection as it runs ------------------------------------------

  class PageSocket {
    const context: PageContext
    const sender: Sink
    /** Whether a replay goes out as one frame. */
    const coalesce: bool
    var position: nat
    var stage: Stage
    /** Where in the channel it subscribed, and where each frame sent came from. */
    ghost const joined: nat
    ghost var sent: seq<Sent>

    ghost function State(): Conn
      reads this, context.hub, context.store
    {
      Conn(context.Now(), sent, position, stage)
    }

    ghost function Side(): Peer { Peer(context.pageId, context.sessionId, sender.room, coalesce) }

    /** `sent` is what the peer was really sent. */
    ghost predicate Valid()
      reads this, sender, context.hub
    {
      context.hub.Valid() && Sends(sent, sender.frames)
    }

    constructor (context: PageContext, sender: Sink, coalesce: bool)
      requires context.hub.Valid() && sender.frames == []
      modifies context.hub`pageChannels, context.hub`logs
      ensures this.context == context && this.sender == sender && this.coalesce == coalesce
      ensures Valid() && Follows(State(), joined) && sent == [] && stage == Ready
      ensures joined == position == |old(LogOf(context.hub.logs, context.pageId))|
      ensures LogOf(context.hub.logs, context.pageId) == old(LogOf(context.hub.logs, context.pageId))
    {
      var position := context.hub.SubscribePage(context.pageId);
      this.context, this.sender, this.coalesce := context, sender, coalesce;
      this.position, this.joined, this.stage, this.sent := position, position, Ready, [];
    }

    /** The first frame. A head that cannot be read is 0; paper that cannot be
        read ends the connection. */
    method SendWelcome(headRead: bool, paperRead: bool, now: int) returns (ok: bool)
      requires Valid()
      modifies this`sent, sender, context.hub`leases
      ensures Valid() && position == old(position) && stage == old(stage)
      ensures context.hub.leases == AfterPeek(old(context.hub.leases), context.pageId, now).0
      ensures ok == (paperRead && |old(sender.frames)| < sender.room)
      ensures
        var head := if headRead then MaxSeq(context.store.batches) else 0;
        var holder := AfterPeek(old(context.hub.leases), context.pageId, now).1;
        var first := if paperRead then Welcome(context.sessionId, head, holder, context.store.paper)
                     else ErrorMessage("welcome_failed", "could not load the page");
        sent == old(sent) + if |old(sender.frames)| < sender.room then [Own(first)] else []
    {
      var lastSeq := if headRead then MaxSeq(context.store.batches) else 0;
      var holder := context.hub.CurrentLeaseHolder(context.pageId, now);
      var first :=
        if paperRead then Welcome(context.sessionId, lastSeq, holder, context.store.paper) else WELCOME_FAILED;
      var before := sender.frames;
      ok := sender.Send(first);
      RecordReply(before, first, ok);
      if !paperRead { return false; }
    }

    /** A frame of the connection's own went out, or did not. */
    ghost method RecordReply(before: seq<PageServerMessage>, reply: PageServerMessage, ok: bool)
      requires Sends(sent, before)
      requires sender.frames == if ok then before + [reply] else before
      modifies this`sent
      ensures Sends(sent, sender.frames)
      ensures sent == if ok then old(sent) + [Own(reply)] else old(sent)
    {
      if ok {
        SendsMore(sent, before, Own(reply));
        sent := sent + [Own(reply)];
      }
    }

    /** Passes on the next message of the channel. */
    method ForwardPageFanout() returns (open: bool)
      requires Valid()
      modifies this`position, this`sent, sender
      ensures Valid() && (State(), open) == OnFanout(old(State()), Side())
      ensures var was := old(State());
              MessageAhead(was) && |was.sent| < sender.room ==>
                && open && position == was.position + 1
                && sender.frames == old(sender.frames) + [was.server.log[was.position]]
    {
      var event := NothingYet;
      if context.pageId in context.hub.pageChannels {
        event := context.hub.Recv(context.pageId, position);
      }
      match event {
        case Message(m) =>
          open := sender.Send(m);
          if open {
            SendsMore(sent, old(sender.frames), Relayed(m));
            position, sent := position + 1, sent + [Relayed(m)];
          }
        case Lagged(_) => open := false;
        case NothingYet => open := true;
      }
    }

    /** A message of the peer, up to its transaction or its replay's first read. */
    method Hear(message: PageClientMessage, now: int) returns (open: bool)
      requires Valid() && stage.Ready?
      modifies this`stage, this`sent, sender, context.hub`leases, context.hub`pageChannels, context.hub`logs
      ensures Valid() && (State(), open) == OnHeard(old(State()), Side(), message, now)
    {
      if message.Subscribe? {
        stage := LoadingRows(message.fromSeq);
        return true;
      }
      ghost var verdict := Checked(context.Now(), context.pageId, context.sessionId, message, now).1;
      var pending: Option<Mutation>;
      open, pending := context.Check(sender, message, now);
      if pending.Some? {
        stage := Persisting(pending.value);
      } else if verdict.reply.Some? && open {
        SendsMore(sent, old(sender.frames), Own(verdict.reply.value));
        sent := sent + [Own(verdict.reply.value)];
      }
    }

    /** The transaction ends. */
    method EndTransaction(ending: Ending, now: int)
      requires Valid() && stage.Persisting?
      modifies this`stage, context.store
      ensures Valid() && State() == OnPersisted(old(State()), old(stage.mutation), ending, now)
    {
      var news := context.Persist(stage.mutation, now, ending);
      stage := Telling(news);
    }

    /** Its news goes out. */
    method TellNews() returns (open: bool)
      requires Valid() && stage.Telling?
      modifies this`stage, this`sent, sender, context.hub`pageChannels, context.hub`logs
      ensures Valid() && (State(), open) == OnNews(old(State()), Side(), old(stage.news))
    {
      var news := stage.news;
      open := context.Tell(sender, news);
      if news.reply.Some? && open {
        SendsMore(sent, old(sender.frames), Own(news.reply.value));
        sent := sent + [Own(news.reply.value)];
      }
      stage := Ready;
    }

    /** The replay as far as one of its reads got it. */
    method Replay(fromSeq: nat, loaded: Option<(seq<StrokeBatch>, seq<TombstoneBatch>)>, head: Option<nat>)
      returns (open: bool)
      requires Valid()
      modifies this`stage, this`sent, sender
      ensures Valid()
      ensures
        var before, replay := old(State()), ReplayOf(coalesce, fromSeq, loaded, head);
        && open == (|before.sent| + |replay| <= sender.room)
        && State() == before.(sent := before.sent + AllOwn(Taken(replay, |before.sent|, sender.room)), stage := Ready)
    {
      ghost var replay := ReplayOf(coalesce, fromSeq, loaded, head);
      ghost var taken := Taken(replay, |sent|, sender.room);
      SendsOwn(sent, sender.frames, taken);
      open := context.ReplayPage(sender, fromSeq, coalesce, loaded, head);
      sent, stage := sent + AllOwn(taken), Ready;
    }

    /** One of the replay's first two reads failed. */
    method FailReplay() returns (open: bool)
      requires Valid()
      modifies this`stage, this`sent, sender
      ensures Valid() && (State(), open) == ReplayLost(old(State()), Side())
    {
      assert AllOwn([REPLAY_FAILED]) == [Own(REPLAY_FAILED)];
      assert sent + AllOwn([]) == sent;
      open := Replay(0, None, None);
    }

    /** The rows are read. */
    method ReadRows(ok: bool) returns (open: bool)
      requires Valid() && stage.LoadingRows?
      modifies this`stage, this`sent, sender
      ensures Valid() && (State(), open) == Turned(old(State()), Side(), RowsRead(ok))
    {
      if ok {
        stage := LoadingTombstones(stage.fromSeq, BatchesAfter(context.store.batches, stage.fromSeq));
        open := true;
      } else {
        open := FailReplay();
      }
    }

    /** The tombstones are read. */
    method ReadTombstones(ok: bool) returns (open: bool)
      requires Valid() && stage.LoadingTombstones?
      modifies this`stage, this`sent, sender
      ensures Valid() && (State(), open) == Turned(old(State()), Side(), TombstonesRead(ok))
    {
      if ok {
        stage := ReadingHead(stage.fromSeq, stage.rows, context.store.erasures);
        open := true;
      } else {
        open := FailReplay();
      }
    }

    /** The head is read, or falls back to the cursor, and the replay is sent. */
    method ReadHead(ok: bool) returns (open: bool)
      requires Valid() && stage.ReadingHead?
      modifies this`stage, this`sent, sender
      ensures Valid() && (State(), open) == Turned(old(State()), Side(), HeadRead(ok))
    {
      var head := if ok then Some(MaxSeq(context.store.batches)) else None;
      open := Replay(stage.fromSeq, Some((stage.rows, stage.tombstones)), head);
    }

    /** Another session's transaction ends. */
    method LetOthersStore(m: Mutation, now: int)
      requires Valid()
      modifies context.store
      ensures Valid()
      ensures State() == old(State()).(server := Elsewhere(old(context.Now()), context.pageId, StoredElsewhere(m, now)))
    {
      var _ := context.Persist(m, now, Acknowledged);
    }

    /** Another session acts. */
    method LetOthersAct(turn: Turn)
      requires Valid()
      modifies context.store, context.hub`leases, context.hub`pageChannels, context.hub`logs
      ensures Valid() && State() == old(State()).(server := Elsewhere(old(context.Now()), context.pageId, turn))
    {
      match turn {
        case StoredElsewhere(m, now) => LetOthersStore(m, now);
        case ToldElsewhere(news) => context.hub.PublishPage(context.pageId, news);
        case LeaseTakenElsewhere(other, now) => var _ := context.hub.AcquireLease(context.pageId, other, now);
        case LeaseLeftElsewhere(other) => var _ := context.hub.ReleaseLease(context.pageId, other);
        case _ =>
      }
    }

    /** One turn; false ends the loop. */
    method TakeTurn(turn: Turn) returns (open: bool)
      requires Valid()
      modifies this, sender, context.store, context.hub`leases, context.hub`pageChannels, context.hub`logs
      ensures Valid() && (State(), open) == Turned(old(State()), Side(), turn)
    {
      open := true;
      match turn {
        case FanoutReady => if stage.Ready? { open := ForwardPageFanout(); }
        case Heard(message, now) => if stage.Ready? { open := Hear(message, now); }
        case Persisted(ending, now) => if stage.Persisting? { EndTransaction(ending, now); }
        case NewsDue => if stage.Telling? { open := TellNews(); }
        case RowsRead(ok) => if stage.LoadingRows? { open := ReadRows(ok); }
        case TombstonesRead(ok) => if stage.LoadingTombstones? { open := ReadTombstones(ok); }
        case HeadRead(ok) => if stage.ReadingHead? { open := ReadHead(ok); }
        case OtherFrame =>
        case Gone => open := !stage.Ready?;
        case _ => LetOthersAct(turn);
      }
    }

    /** The loop's last act: a lease still held is let go, and that announced. */
    method LetGo()
      requires Valid()
      modifies context.hub`leases, context.hub`pageChannels, context.hub`logs
      ensures Valid()
      ensures State() == old(State()).(server := Ended(old(context.Now()), context.pageId, context.sessionId))
    {
      context.EndSession();
    }

    /** The loop over the turns, and the lease let go once it breaks. Whatever the
        turns were: of the frames the peer was sent, those not the connection's
        own are an unbroken stretch of the channel from where it subscribed; one
        message was passed on at each fan-out due while the loop is open; and a
        session whose loop broke holds the page no more. */
    method Serve(turns: seq<Turn>) returns (open: bool)
      requires Valid() && Follows(State(), joined)
      modifies this, sender, context.store, context.hub`leases, context.hub`pageChannels, context.hub`logs
      ensures Valid() && (State(), open) == Served(old(State()), Side(), turns)
      ensures Sends(sent, sender.frames) && Follows(State(), joined)
      ensures open ==> position == old(position) + FanoutsDue(old(State()), Side(), turns)
      ensures !open && context.pageId in context.hub.leases ==>
        context.hub.leases[context.pageId].holder != context.sessionId
    {
      ServedFollows(State(), Side(), turns, joined);
      if Served(State(), Side(), turns).1 { ServedPassesOn(State(), Side(), turns, joined); }
      open := true;
      var i := 0;
      while i < |turns|
        invariant 0 <= i <= |turns| && open && Valid()
        invariant Served(State(), Side(), turns[i..]) == Served(old(State()), Side(), turns)
      {
        assert turns[i..][1..] == turns[i + 1..];
        open := TakeTurn(turns[i]);
        if !open {
          LetGo();
          return;
        }
        i := i + 1;
      }
    }
  }
}
