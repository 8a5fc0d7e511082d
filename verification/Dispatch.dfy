/** What each inbound page-channel message does, in the steps between which other
    sessions act: the lease check, the transaction, and the news of it; and the
    two wire shapes of a replay. The functions say it on values for one page,
    `PageContext` does it on the hub and the store. */
module Dispatch {
  import opened Protocol
  import opened Store
  import opened Hub
  import Viewer

  // ---- Commits ------------------------------------------------------------

  datatype Mutation =
    | AddInk(key: string, strokes: seq<Stroke>)
    | EraseInk(key: string, ids: seq<string>)
    | Repaper(paper: Paper)

  /** A mutation's effect on the tables and what its page's subscribers are told:
      nothing for an add with no surviving stroke or a paper already in force. */
  function Commit(t: Tables, m: Mutation, now: int): (Tables, Option<PageServerMessage>) {
    match m
    case AddInk(key, strokes) =>
      var (u, r) := AfterBatch(t, key, strokes, now);
      (u, if r.visibleStrokes == [] then None else Some(LiveBatch(StrokeBatch(r.seqNo, key, r.visibleStrokes))))
    case EraseInk(key, ids) =>
      var (u, r) := AfterTombstones(t, key, ids, now);
      (u, Some(LiveTombstones(TombstoneBatch(r.revision, key, r.strokeIds))))
    case Repaper(paper) =>
      var (u, r) := AfterPaper(t, paper, now);
      (u, if r.changed then Some(PaperChanged(paper, r.revision)) else None)
  }

  predicate Acceptable(strokes: seq<Stroke>) {
    forall s :: s in strokes ==> s.id != "" && s.Valid()
  }

  /** One page's server side: its rows, every page's leases, what its channel carried. */
  datatype Server = Server(tables: Tables, leases: map<string, Lease>, log: seq<PageServerMessage>)

  function Said(log: seq<PageServerMessage>, message: Option<PageServerMessage>): seq<PageServerMessage> {
    if message.Some? then log + [message.value] else log
  }

  const INVALID_STROKES := ErrorMessage("invalid_stroke_style",
    "strokes require a supported immutable solid_round style with in-range pressure")
  const COMMIT_FAILED := ErrorMessage("commit_failed", "could not persist strokes")
  const TOMBSTONE_FAILED := ErrorMessage("tombstone_failed", "could not persist deleted strokes")
  const PAPER_FAILED := ErrorMessage("paper_failed", "could not persist the page paper")

  const REPLAY_FAILED := ErrorMessage("replay_failed", "could not load page ink")

  /** The mutation a client message asks for, if it is one. */
  function Asked(message: PageClientMessage): Option<Mutation> {
    match message
    case CommitBatch(key, strokes) => Some(AddInk(key, strokes))
    case CommitTombstones(key, ids) => Some(EraseInk(key, ids))
    case SetPaper(_, paper) => Some(Repaper(paper))
    case _ => None
  }

  function Failure(m: Mutation): PageServerMessage {
    match m
    case AddInk(_, _) => COMMIT_FAILED
    case EraseInk(_, _) => TOMBSTONE_FAILED
    case Repaper(_) => PAPER_FAILED
  }

  /** What a message comes to before any transaction: an answer, if any, or a
      transaction still to run. */
  datatype Verdict = Answered(reply: Option<PageServerMessage>) | ToPersist(mutation: Mutation)

  /** A message up to its transaction: the lease, then the validation. A
      subscribe only reads; see `ReplayOf`. */
  function Checked(server: Server, pageId: string, sessionId: string, message: PageClientMessage, now: int)
    : (Server, Verdict)
  {
    match message
    case Subscribe(_) => (server, Answered(None))
    case AcquireLease =>
      var (leases, outcome) := AfterAcquire(server.leases, pageId, sessionId, now);
      if outcome.Granted? then
        (server.(leases := leases, log := server.log + [LeaseChanged(Some(sessionId))]), Answered(Some(LeaseGranted)))
      else (server.(leases := leases), Answered(Some(LeaseDenied(outcome.holder))))
    case RenewLease =>
      var (leases, outcome) := AfterAcquire(server.leases, pageId, sessionId, now);
      var answer := if outcome.Granted? then LeaseGranted else LeaseDenied(outcome.holder);
      (server.(leases := leases), Answered(Some(answer)))
    case ReleaseLease => (Ended(server, pageId, sessionId), Answered(None))
    case _ =>
      var (leases, outcome) := AfterAcquire(server.leases, pageId, sessionId, now);
      var m := Asked(message).value;
      (server.(leases := leases),
       if outcome.Denied? then Answered(Some(LeaseDenied(outcome.holder)))
       else if m.AddInk? && !Acceptable(m.strokes) then Answered(Some(INVALID_STROKES))
       else ToPersist(m))
  }

  /** What is said of a transaction that ended: to every subscriber, and to the
      session that asked. */
  datatype News = News(told: Option<PageServerMessage>, reply: Option<PageServerMessage>)

  /** How a transaction ends for the session that awaits it: acknowledged, rolled
      back, or committed with the acknowledgement lost, which it hears as an error
      like any other. */
  datatype Ending = Acknowledged | RolledBack | Unacknowledged

  /** The transaction itself, under the page row lock. Between the check and this,
      and between this and its news, other sessions act. */
  function AfterPersist(t: Tables, m: Mutation, now: int, ending: Ending): (Tables, News) {
    var (u, told) := Commit(t, m, now);
    match ending
    case Acknowledged =>
      (u, News(told, if m.Repaper? && told.None? then Some(PaperChanged(m.paper, u.revision)) else None))
    case RolledBack => (t, News(None, Some(Failure(m))))
    case Unacknowledged => (u, News(None, Some(Failure(m))))
  }

  /** A socket loop ended, or the client released: the lease goes, if held. */
  function Ended(server: Server, pageId: string, sessionId: string): Server {
    var (leases, released) := AfterRelease(server.leases, pageId, sessionId);
    server.(leases := leases, log := Said(server.log, if released then Some(LeaseChanged(None)) else None))
  }

  // ---- Replay -------------------------------------------------------------

  /** One `page-replay`, delete-wins applied to what was read. */
  function BuildReplay(lastSeq: nat, batches: seq<StrokeBatch>, tombstones: seq<TombstoneBatch>): PageServerMessage {
    PageReplay(lastSeq, Viewer.Retained(batches, TombstonedIds(tombstones)), tombstones)
  }

  function BatchFrames(batches: seq<StrokeBatch>): seq<PageServerMessage> {
    if batches == [] then [] else [LiveBatch(batches[0])] + BatchFrames(batches[1..])
  }

  function TombstoneFrames(tombstones: seq<TombstoneBatch>): seq<PageServerMessage> {
    if tombstones == [] then [] else [LiveTombstones(tombstones[0])] + TombstoneFrames(tombstones[1..])
  }

  /** What a replay puts on the wire, coalesced or one frame per batch. */
  function ReplayMessages(
      coalesce: bool, lastSeq: nat, batches: seq<StrokeBatch>, tombstones: seq<TombstoneBatch>)
    : seq<PageServerMessage>
  {
    if coalesce then [BuildReplay(lastSeq, batches, tombstones)]
    else
      BatchFrames(Viewer.Retained(batches, TombstonedIds(tombstones)))
      + TombstoneFrames(tombstones) + [Synced(lastSeq)]
  }

  /** A replay from the reads made: the rows after the cursor with the tombstones,
      unless that read failed, and the head, which falls back to the cursor. */
  function ReplayOf(
      coalesce: bool, fromSeq: nat, loaded: Option<(seq<StrokeBatch>, seq<TombstoneBatch>)>, head: Option<nat>)
    : (frames: seq<PageServerMessage>)
  {
    if loaded.None? then [REPLAY_FAILED]
    else ReplayMessages(coalesce, if head.Some? then head.value else fromSeq, loaded.value.0, loaded.value.1)
  }

  // ---- What a peer is sent ------------------------------------------------

  /** A frame on its way to one peer: the connection's own, a welcome, a reply or
      a replay's, or one passed on from the page's channel. */
  datatype Sent = Own(message: PageServerMessage) | Relayed(message: PageServerMessage)

  /** These frames are what was sent, in order. */
  ghost predicate Sends(sent: seq<Sent>, frames: seq<PageServerMessage>) {
    |sent| == |frames| && forall i :: 0 <= i < |sent| ==> frames[i] == sent[i].message
  }

  /** The frames with the connection's own removed. */
  function OffTheChannel(sent: seq<Sent>): seq<PageServerMessage> {
    if sent == [] then []
    else
      var last := sent[|sent| - 1];
      OffTheChannel(sent[..|sent| - 1]) + if last.Relayed? then [last.message] else []
  }

  function AllOwn(frames: seq<PageServerMessage>): (sent: seq<Sent>)
    ensures Sends(sent, frames)
    ensures forall i :: 0 <= i < |sent| ==> sent[i].Own?
  {
    if frames == [] then [] else [Own(frames[0])] + AllOwn(frames[1..])
  }

  lemma SendsMore(sent: seq<Sent>, frames: seq<PageServerMessage>, s: Sent)
    requires Sends(sent, frames)
    ensures Sends(sent + [s], frames + [s.message])
  {
  }

  lemma SendsOwn(sent: seq<Sent>, frames: seq<PageServerMessage>, own: seq<PageServerMessage>)
    requires Sends(sent, frames)
    ensures Sends(sent + AllOwn(own), frames + own)
  {
    var more := AllOwn(own);
    assert forall i :: 0 <= i < |own| ==> own[i] == more[i].message;
  }

  lemma RelayedIsKept(sent: seq<Sent>, m: PageServerMessage)
    ensures OffTheChannel(sent + [Relayed(m)]) == OffTheChannel(sent) + [m]
  {
    assert (sent + [Relayed(m)])[..|sent|] == sent;
  }

  lemma OwnIsRemoved(sent: seq<Sent>, m: PageServerMessage)
    ensures OffTheChannel(sent + [Own(m)]) == OffTheChannel(sent)
  {
    assert (sent + [Own(m)])[..|sent|] == sent;
  }

  lemma FirstOwn(sent: seq<Sent>, frames: seq<PageServerMessage>)
    requires frames != []
    ensures sent + AllOwn(frames) == (sent + [Own(frames[0])]) + AllOwn(frames[1..])
  {
  }

  lemma {:induction false} OwnAreRemoved(sent: seq<Sent>, frames: seq<PageServerMessage>)
    ensures OffTheChannel(sent + AllOwn(frames)) == OffTheChannel(sent)
    decreases |frames|
  {
    if frames == [] {
      assert sent + AllOwn(frames) == sent;
    } else {
      OwnIsRemoved(sent, frames[0]);
      OwnAreRemoved(sent + [Own(frames[0])], frames[1..]);
      FirstOwn(sent, frames);
    }
  }

  /** As many of the frames as a peer with the given room takes. */
  function Taken(frames: seq<PageServerMessage>, held: nat, room: nat): seq<PageServerMessage> {
    if held + |frames| <= room then frames else if held < room then frames[..room - held] else []
  }

  lemma TakenInTwo(a: seq<PageServerMessage>, b: seq<PageServerMessage>, held: nat, room: nat)
    ensures if a == [] || held + |a| <= room
      then Taken(a + b, held, room) == a + Taken(b, held + |a|, room) && (a == [] || Taken(a, held, room) == a)
      else Taken(a + b, held, room) == Taken(a, held, room)
  {
    if held < room && held + |a| <= room < held + |a| + |b| {
      assert (a + b)[..room - held] == a + b[..room - held - |a|];
    } else if held < room < held + |a| {
      assert (a + b)[..room - held] == a[..room - held];
    } else if a == [] {
      assert a + b == b;
    }
  }

  // ---- On the hub and the store -------------------------------------------

  /** The sending half of a socket; it takes frames until the peer is gone. */
  class Sink {
    var frames: seq<PageServerMessage>
    const room: nat

    constructor (room: nat)
      ensures frames == [] && this.room == room
    {
      frames, this.room := [], room;
    }

    method Send(message: PageServerMessage) returns (ok: bool)
      modifies this
      ensures ok == (|old(frames)| < room)
      ensures frames == if ok then old(frames) + [message] else old(frames)
    {
      ok := |frames| < room;
      if ok {
        frames := frames + [message];
      }
    }
  }

  class PageContext {
    const hub: RealtimeHub
    const store: PageStore
    const pageId: string
    const sessionId: string

    constructor (hub: RealtimeHub, store: PageStore, pageId: string, sessionId: string)
      ensures this.hub == hub && this.store == store && this.pageId == pageId && this.sessionId == sessionId
    {
      this.hub, this.store, this.pageId, this.sessionId := hub, store, pageId, sessionId;
    }

    ghost function Now(): Server reads hub, store {
      Server(store.Rows(), hub.leases, LogOf(hub.logs, pageId))
    }

    /** A message up to its transaction. An answer, if any, is the one frame sent. */
    method Check(sender: Sink, message: PageClientMessage, now: int) returns (keepOpen: bool, pending: Option<Mutation>)
      requires hub.Valid()
      modifies hub`leases, hub`pageChannels, hub`logs, sender
      ensures hub.Valid()
      ensures forall p :: p != pageId ==> LogOf(hub.logs, p) == old(LogOf(hub.logs, p))
      ensures
        var (server, verdict) := Checked(old(Now()), pageId, sessionId, message, now);
        && Now() == server
        && (if verdict.ToPersist? then
              && keepOpen
              && pending == Some(verdict.mutation)
              && sender.frames == old(sender.frames)
            else
              && pending == None
              && keepOpen == (verdict.reply.None? || |old(sender.frames)| < sender.room)
              && sender.frames == (if keepOpen then Said(old(sender.frames), verdict.reply) else old(sender.frames)))
    {
      keepOpen, pending := true, None;
      if message.Subscribe? { return; }
      if message.ReleaseLease? {
        EndSession();
        return;
      }
      var outcome := hub.AcquireLease(pageId, sessionId, now);
      if outcome.Denied? {
        keepOpen := sender.Send(LeaseDenied(outcome.holder));
      } else if message.AcquireLease? {
        hub.PublishPage(pageId, LeaseChanged(Some(sessionId)));
        keepOpen := sender.Send(LeaseGranted);
      } else if message.RenewLease? {
        keepOpen := sender.Send(LeaseGranted);
      } else if message.CommitBatch? && !Acceptable(message.strokes) {
        keepOpen := sender.Send(INVALID_STROKES);
      } else {
        pending := Asked(message);
      }
    }

    /** The transaction, and what is to be said of it. */
    method Persist(m: Mutation, now: int, ending: Ending) returns (news: News)
      modifies store
      ensures (store.Rows(), news) == AfterPersist(old(store.Rows()), m, now, ending)
    {
      news := News(None, Some(Failure(m)));
      if !ending.RolledBack? {
        var said := Transact(m, now);
        if ending.Acknowledged? { news := said; }
      }
    }

    /** The transaction's body, and what is to be said once it is acknowledged. */
    method Transact(m: Mutation, now: int) returns (news: News)
      modifies store
      ensures (store.Rows(), news) == AfterPersist(old(store.Rows()), m, now, Acknowledged)
    {
      match m {
        case AddInk(key, strokes) => news := PersistInk(key, strokes, now);
        case EraseInk(key, ids) =>
          var persisted := store.PersistTombstones(key, ids, now);
          news := News(Some(LiveTombstones(TombstoneBatch(persisted.revision, key, persisted.strokeIds))), None);
        case Repaper(paper) =>
          var persisted := store.PersistPaper(paper, now);
          var change := PaperChanged(paper, persisted.revision);
          news := if persisted.changed then News(Some(change), None) else News(None, Some(change));
      }
    }

    method PersistInk(key: string, strokes: seq<Stroke>, now: int) returns (news: News)
      modifies store
      ensures (store.Rows(), news.told) == Commit(old(store.Rows()), AddInk(key, strokes), now) && news.reply.None?
    {
      var persisted := store.PersistBatch(key, strokes, now);
      news := News(if persisted.visibleStrokes == [] then None
                   else Some(LiveBatch(StrokeBatch(persisted.seqNo, key, persisted.visibleStrokes))), None);
    }

    /** What is said of the transaction: the broadcast, then the direct reply. */
    method Tell(sender: Sink, news: News) returns (keepOpen: bool)
      requires hub.Valid()
      modifies hub`pageChannels, hub`logs, sender
      ensures hub.Valid()
      ensures forall p :: p != pageId ==> LogOf(hub.logs, p) == old(LogOf(hub.logs, p))
      ensures LogOf(hub.logs, pageId) == Said(old(LogOf(hub.logs, pageId)), news.told)
      ensures keepOpen == (news.reply.None? || |old(sender.frames)| < sender.room)
      ensures sender.frames == (if keepOpen then Said(old(sender.frames), news.reply) else old(sender.frames))
    {
      keepOpen := true;
      if news.told.Some? {
        hub.PublishPage(pageId, news.told.value);
      }
      if news.reply.Some? {
        keepOpen := sender.Send(news.reply.value);
      }
    }

    /** `Release the lease on disconnect`, the socket loop's last act. */
    method EndSession()
      requires hub.Valid()
      modifies hub`leases, hub`pageChannels, hub`logs
      ensures hub.Valid() && Now() == Ended(old(Now()), pageId, sessionId)
      ensures forall p :: p != pageId ==> LogOf(hub.logs, p) == old(LogOf(hub.logs, p))
    {
      var released := hub.ReleaseLease(pageId, sessionId);
      if released {
        hub.PublishPage(pageId, LeaseChanged(None));
      }
    }

    /** The replay of the reads made; the frames are sent until the peer takes no
        more. */
    method ReplayPage(
        sender: Sink, fromSeq: nat, coalesce: bool,
        loaded: Option<(seq<StrokeBatch>, seq<TombstoneBatch>)>, head: Option<nat>)
      returns (keepOpen: bool)
      modifies sender
      ensures
        var replay := ReplayOf(coalesce, fromSeq, loaded, head);
        && keepOpen == (|old(sender.frames)| + |replay| <= sender.room)
        && sender.frames == old(sender.frames) + Taken(replay, |old(sender.frames)|, sender.room)
    {
      if loaded.None? {
        keepOpen := sender.Send(REPLAY_FAILED);
        return;
      }
      var (batches, tombstones) := loaded.value;
      var lastSeq := if head.Some? then head.value else fromSeq;
      if coalesce {
        var surviving := Viewer.RetainSurviving(batches, TombstonedIds(tombstones));
        keepOpen := sender.Send(PageReplay(lastSeq, surviving, tombstones));
      } else {
        keepOpen := SendReplayFrames(sender, batches, tombstones);
        if keepOpen {
          keepOpen := sender.Send(Synced(lastSeq));
        }
      }
    }

    method SendReplayFrames(sender: Sink, batches: seq<StrokeBatch>, tombstones: seq<TombstoneBatch>)
      returns (keepOpen: bool)
      modifies sender
      ensures
        var frames := BatchFrames(Viewer.Retained(batches, TombstonedIds(tombstones))) + TombstoneFrames(tombstones);
        && keepOpen == (|frames| == 0 || |old(sender.frames)| + |frames| <= sender.room)
        && sender.frames == old(sender.frames) + Taken(frames, |old(sender.frames)|, sender.room)
    {
      ghost var first := BatchFrames(Viewer.Retained(batches, TombstonedIds(tombstones)));
      TakenInTwo(first, TombstoneFrames(tombstones), |sender.frames|, sender.room);
      keepOpen := SendBatches(sender, batches, TombstonedIds(tombstones));
      if keepOpen {
        keepOpen := SendTombstones(sender, tombstones);
      }
    }

    method SendBatches(sender: Sink, batches: seq<StrokeBatch>, deleted: set<string>) returns (keepOpen: bool)
      modifies sender
      ensures
        var frames := BatchFrames(Viewer.Retained(batches, deleted));
        && |frames| == |batches| && keepOpen == (|batches| == 0 || |old(sender.frames)| + |frames| <= sender.room)
        && sender.frames == old(sender.frames) + Taken(frames, |old(sender.frames)|, sender.room)
    {
      ghost var frames := BatchFrames(Viewer.Retained(batches, deleted));
      TrimmedFrames(batches, deleted);
      for i := 0 to |batches|
        invariant |old(sender.frames)| + i <= sender.room || i == 0
        invariant sender.frames == old(sender.frames) + frames[..i]
      {
        keepOpen := sender.Send(LiveBatch(Viewer.Trimmed(batches[i], deleted)));
        if !keepOpen { return; }
        assert frames[..i + 1] == frames[..i] + [frames[i]];
      }
      keepOpen := true;
    }

    method SendTombstones(sender: Sink, tombstones: seq<TombstoneBatch>) returns (keepOpen: bool)
      modifies sender
      ensures
        var frames := TombstoneFrames(tombstones);
        && |frames| == |tombstones| && keepOpen == (|tombstones| == 0 || |old(sender.frames)| + |frames| <= sender.room)
        && sender.frames == old(sender.frames) + Taken(frames, |old(sender.frames)|, sender.room)
    {
      ghost var frames := TombstoneFrames(tombstones);
      FrameCounts([], tombstones);
      for i := 0 to |tombstones|
        invariant |old(sender.frames)| + i <= sender.room || i == 0
        invariant sender.frames == old(sender.frames) + frames[..i]
      {
        keepOpen := sender.Send(LiveTombstones(tombstones[i]));
        if !keepOpen { return; }
        assert frames[..i + 1] == frames[..i] + [frames[i]];
      }
      keepOpen := true;
    }
  }

  lemma {:induction false} FrameCounts(batches: seq<StrokeBatch>, tombstones: seq<TombstoneBatch>)
    ensures |BatchFrames(batches)| == |batches|
    ensures forall i :: 0 <= i < |batches| ==> BatchFrames(batches)[i] == LiveBatch(batches[i])
    ensures |TombstoneFrames(tombstones)| == |tombstones|
    ensures forall i :: 0 <= i < |tombstones| ==> TombstoneFrames(tombstones)[i] == LiveTombstones(tombstones[i])
    decreases |batches| + |tombstones|
  {
    if batches != [] {
      FrameCounts(batches[1..], tombstones);
    } else if tombstones != [] {
      FrameCounts(batches, tombstones[1..]);
    }
  }

  /** The frames of trimmed batches, one for one. */
  lemma TrimmedFrames(batches: seq<StrokeBatch>, deleted: set<string>)
    ensures var frames := BatchFrames(Viewer.Retained(batches, deleted));
      && |frames| == |batches|
      && forall i :: 0 <= i < |batches| ==> frames[i] == LiveBatch(Viewer.Trimmed(batches[i], deleted))
  {
    Viewer.RetainedSpec(batches, deleted);
    FrameCounts(Viewer.Retained(batches, deleted), []);
  }
}
