/** Whole runs of the exporter, in any interleaving: no item is lost from the
    books, no batch is posted a fourth time, and giving up takes its time. */
module ExportRuns {
  import opened Protocol
  import opened Outbox
  import opened Exporter
  import Transitions

  datatype Event =
    | Produce(signal: Signal, item: Item, now: real)
    | BeginExport(now: real)
    | TakeTurn(now: real)
    | EndExport(now: real)
    | Answered(outcome: ExportOutcome, jitter: real, now: real)
    | ConfigAnswered(fetch: ConfigFetch, now: real)
    | Tick(now: real)
    | SignOut(now: real)
    | Pagehide(now: real)
    | LoopFinished(now: real)

  /** The export is not running or waits for an answer. At any other point it
      has the one thread of the page, and nothing else can happen. */
  predicate AtAwait(t: Telemetry) { t.phase.Idle? || t.phase.InFlight? }

  predicate Possible(t: Telemetry, e: Event) {
    e.TakeTurn? || e.EndExport? || AtAwait(t)
  }

  function After(t: Telemetry, e: Event): Telemetry
    requires Possible(t, e)
  {
    match e
    case Produce(s, item, _) => Produced(t, s, item)
    case BeginExport(now) => Begun(t, now)
    case TakeTurn(now) => Took(t, now / 1000.0)
    case EndExport(_) => ExportEnded(t)
    case Answered(outcome, jitter, now) => Settled(t, outcome, now, jitter)
    case ConfigAnswered(fetch, now) => Configure(t, fetch, now / 1000.0)
    case Tick(now) => Expired(t, now)
    case SignOut(_) => Halted(t, NoSession)
    case Pagehide(now) => Unloaded(t, now / 1000.0)
    case LoopFinished(_) => LoopOver(t)
  }

  // ---- What an event means for one signal -----------------------------------

  datatype Change =
    | Stay
    | QueueChange(event: QueueEvent<Item>)
    | Discard
    | Send
    | Accept
    | KeepForRetry
    | Lose

  function Wire(t: Telemetry, s: Signal): Option<Pending> {
    if t.phase.InFlight? && t.phase.sent == s then Some(t.phase.batch) else None
  }

  function HaltChange(t: Telemetry): Change { if IsHalted(t) then Stay else Discard }

  function AnswerChange(t: Telemetry, s: Signal, outcome: ExportOutcome, now: real, jitter: real): Change {
    if Wire(t, s).None? then Stay
    else if outcome.Accepted? then Accept
    else if AfterRecord(t.policy, outcome, t.phase.batch.attempts, now, jitter).1.retryBatch then KeepForRetry
    else Lose
  }

  function ConfigChange(t: Telemetry, fetch: ConfigFetch, nowS: real): Change {
    var (life, outcome) := OnConfig(t.life, fetch, nowS);
    match outcome
    case Wait => Stay
    case TurnedOff(_) => HaltChange(t.(life := life))
    case _ => QueueChange(SetCapacity(CAPACITY))
  }

  function ChangeOf(t: Telemetry, s: Signal, e: Event): Change {
    match e
    case Produce(signal, item, _) => if t.life.Off? || signal != s then Stay else QueueChange(Push(item))
    case BeginExport(_) => Stay
    case TakeTurn(now) => if t.phase == Turn(s) && HasToken(t, now / 1000.0) then Send else Stay
    case EndExport(_) => if t.phase.Ending? && t.policy.stopped.Some? then HaltChange(t) else Stay
    case Answered(outcome, jitter, now) => AnswerChange(t, s, outcome, now, jitter)
    case ConfigAnswered(fetch, now) => ConfigChange(t, fetch, now / 1000.0)
    case Tick(now) => if AfterExpire(t.life, now) == t.life then Stay else Discard
    case SignOut(_) => HaltChange(t)
    case Pagehide(now) => if MayUnload(t, now / 1000.0) then QueueChange(TakeBatch(KEEPALIVE_MAX_ITEMS)) else Stay
    case LoopFinished(_) => if t.life.Off? || t.policy.stopped.Some? then Discard else Stay
  }

  /** A lane and its batch on the wire after a change. */
  function Changed(lane: Lane, wire: Option<Pending>, c: Change): (Lane, Option<Pending>) {
    match c
    case Stay => (lane, wire)
    case QueueChange(e) => (lane.(queue := AfterEvent(lane.queue, e)), wire)
    case Discard => (Emptied(lane), wire)
    case Send => NextBatch(lane)
    case Accept => (lane, None)
    case KeepForRetry => (lane.(retry := wire), None)
    case Lose => (lane, None)
  }

  ghost predicate Follows(t: Telemetry, next: Telemetry, s: Signal, c: Change) {
    (LaneOf(next, s), Wire(next, s)) == Changed(LaneOf(t, s), Wire(t, s), c)
  }

  lemma AnswerFollows(t: Telemetry, s: Signal, outcome: ExportOutcome, now: real, jitter: real)
    ensures Follows(t, Settled(t, outcome, now, jitter), s, AnswerChange(t, s, outcome, now, jitter))
  {
  }

  lemma ConfigFollows(t: Telemetry, s: Signal, fetch: ConfigFetch, nowS: real)
    ensures Follows(t, Configure(t, fetch, nowS), s, ConfigChange(t, fetch, nowS))
  {
  }

  lemma TurnFollows(t: Telemetry, s: Signal, nowS: real)
    ensures Follows(t, Took(t, nowS), s, if t.phase == Turn(s) && HasToken(t, nowS) then Send else Stay)
  {
  }

  /** The whole state moves as each signal's change says. */
  lemma EventFollows(t: Telemetry, s: Signal, e: Event)
    requires Possible(t, e)
    requires t.life.AwaitingConfig? ==> t.policy.stopped.None? || t.phase.Ending?
    ensures Follows(t, After(t, e), s, ChangeOf(t, s, e))
  {
    match e
    case TakeTurn(now) => TurnFollows(t, s, now / 1000.0);
    case Answered(outcome, jitter, now) => AnswerFollows(t, s, outcome, now, jitter);
    case ConfigAnswered(fetch, now) => ConfigFollows(t, s, fetch, now / 1000.0);
    case _ =>
  }

  // ---- Books --------------------------------------------------------------

  /** Where the items of one signal have ended up. */
  datatype Book = Book(
    arrived: multiset<Item>, accepted: multiset<Item>, lost: multiset<Item>,
    discarded: multiset<Item>, unloaded: multiset<Item>)

  const BLANK := Book(multiset{}, multiset{}, multiset{}, multiset{}, multiset{})

  function ItemsIn(batch: Option<Pending>): seq<Item> {
    if batch.Some? then batch.value.items else []
  }

  function QueueEntry(b: Book, q: Queue<Item>, e: QueueEvent<Item>): Book {
    var removed := multiset(Removed(q, e));
    match e
    case Push(item) => b.(arrived := b.arrived + multiset{item}, lost := b.lost + removed)
    case SetCapacity(_) => b.(lost := b.lost + removed)
    case TakeBatch(_) => b.(unloaded := b.unloaded + removed)
    case Clear => b.(discarded := b.discarded + removed)
  }

  /** The entry a change makes. */
  function Entered(b: Book, lane: Lane, wire: Option<Pending>, c: Change): Book {
    match c
    case Stay => b
    case QueueChange(e) => QueueEntry(b, lane.queue, e)
    case Discard =>
      b.(discarded := b.discarded + multiset(lane.queue.items) + multiset(ItemsIn(lane.retry)))
    case Send => b
    case Accept => b.(accepted := b.accepted + multiset(ItemsIn(wire)))
    case KeepForRetry => b
    case Lose => b.(lost := b.lost + multiset(ItemsIn(wire)))
  }

  /** What is in a lane, and what its book says has left. */
  function Held(lane: Lane, wire: Option<Pending>): multiset<Item> {
    multiset(lane.queue.items) + (multiset(ItemsIn(lane.retry)) + multiset(ItemsIn(wire)))
  }

  function Spent(b: Book): multiset<Item> { b.accepted + b.lost + b.discarded + b.unloaded }

  /** Every item of the signal that was queued is in exactly one place. */
  ghost predicate Balanced(lane: Lane, wire: Option<Pending>, b: Book) {
    b.arrived == Held(lane, wire) + Spent(b)
  }

  ghost predicate LaneShape(lane: Lane) {
    && |lane.queue.items| <= lane.queue.capacity <= CAPACITY
    && (lane.retry.Some? ==> 1 <= lane.retry.value.attempts < MAX_BATCH_ATTEMPTS)
  }

  /** A lane whose batch is out has nothing waiting to be retried, and the batch
      is out for no more than the third time. */
  ghost predicate WireShape(lane: Lane, wire: Option<Pending>) {
    wire.Some? ==> lane.retry.None? && 1 <= wire.value.attempts <= MAX_BATCH_ATTEMPTS
  }

  /** The change is one an event can make of this lane. */
  ghost predicate Fits(lane: Lane, wire: Option<Pending>, c: Change) {
    && (c.Send? ==> wire.None?)
    && (c.Accept? || c.KeepForRetry? || c.Lose? ==> wire.Some?)
    && (c.KeepForRetry? ==> wire.value.attempts < MAX_BATCH_ATTEMPTS)
    && (c.QueueChange? && c.event.SetCapacity? ==> c.event.capacity <= CAPACITY)
  }

  lemma ChangeFits(t: Telemetry, s: Signal, e: Event)
    requires Possible(t, e)
    ensures Fits(LaneOf(t, s), Wire(t, s), ChangeOf(t, s, e))
  {
  }

  lemma ChangeKeepsShape(lane: Lane, wire: Option<Pending>, c: Change)
    requires LaneShape(lane) && WireShape(lane, wire) && Fits(lane, wire, c)
    ensures var (lane', wire') := Changed(lane, wire, c); LaneShape(lane') && WireShape(lane', wire')
  {
    if c.QueueChange? {
      EventBalances(lane.queue, c.event);
    }
  }

  lemma QueueConserves(q: Queue<Item>, e: QueueEvent<Item>)
    requires |q.items| <= q.capacity
    ensures multiset(q.items) + (if e.Push? then multiset{e.item} else multiset{})
         == multiset(Removed(q, e)) + multiset(AfterEvent(q, e).items)
  {
    var came := if e.Push? then [e.item] else [];
    EventBalances(q, e);
    assert multiset(q.items) + multiset(came) == multiset(q.items + came);
    assert multiset(Removed(q, e)) + multiset(AfterEvent(q, e).items)
        == multiset(Removed(q, e) + AfterEvent(q, e).items);
  }

  lemma Regrouped(arrived: multiset<Item>, came: multiset<Item>, removed: multiset<Item>, before: multiset<Item>,
                  after: multiset<Item>, rest: multiset<Item>, spent: multiset<Item>)
    requires arrived == before + rest + spent && before + came == removed + after
    ensures arrived + came == after + rest + (spent + removed)
  {
    assert arrived + came == (before + came) + (rest + spent);
  }

  lemma QueueEntryBalances(lane: Lane, wire: Option<Pending>, b: Book, e: QueueEvent<Item>)
    requires LaneShape(lane) && Balanced(lane, wire, b)
    ensures Balanced(lane.(queue := AfterEvent(lane.queue, e)), wire, QueueEntry(b, lane.queue, e))
  {
    var came := if e.Push? then multiset{e.item} else multiset{};
    var removed, after := multiset(Removed(lane.queue, e)), multiset(AfterEvent(lane.queue, e).items);
    var rest := multiset(ItemsIn(lane.retry)) + multiset(ItemsIn(wire));
    QueueConserves(lane.queue, e);
    Regrouped(b.arrived, came, removed, multiset(lane.queue.items), after, rest, Spent(b));
    SpentMore(b, lane.queue, e);
  }

  lemma SpentMore(b: Book, q: Queue<Item>, e: QueueEvent<Item>)
    ensures Spent(QueueEntry(b, q, e)) == Spent(b) + multiset(Removed(q, e))
  {
  }

  lemma SendBalances(lane: Lane, b: Book)
    requires Balanced(lane, None, b)
    ensures var (lane', wire') := NextBatch(lane); Balanced(lane', wire', b)
  {
    if lane.retry.None? {
      var n := TakeCount(lane.queue, MAX_BATCH);
      assert lane.queue.items == lane.queue.items[..n] + lane.queue.items[n..];
    }
  }

  lemma SettlingBalances(lane: Lane, wire: Option<Pending>, b: Book, c: Change)
    requires LaneShape(lane) && WireShape(lane, wire) && Fits(lane, wire, c) && Balanced(lane, wire, b)
    requires !c.QueueChange? && !c.Send?
    ensures var (lane', wire') := Changed(lane, wire, c); Balanced(lane', wire', Entered(b, lane, wire, c))
  {
  }

  lemma ChangeKeepsBalance(lane: Lane, wire: Option<Pending>, b: Book, c: Change)
    requires LaneShape(lane) && WireShape(lane, wire) && Fits(lane, wire, c) && Balanced(lane, wire, b)
    ensures var (lane', wire') := Changed(lane, wire, c); Balanced(lane', wire', Entered(b, lane, wire, c))
  {
    match c
    case QueueChange(e) => QueueEntryBalances(lane, wire, b, e);
    case Send => SendBalances(lane, b);
    case _ => SettlingBalances(lane, wire, b, c);
  }

  // ---- Losses are counted -----------------------------------------------------

  /** What a change adds to the count of items lost after a send. */
  function LostOnSend(wire: Option<Pending>, c: Change): nat {
    if c.Lose? then |ItemsIn(wire)| else 0
  }

  lemma ChangeCountsLosses(lane: Lane, wire: Option<Pending>, b: Book, c: Change)
    requires LaneShape(lane)
    ensures Changed(lane, wire, c).0.queue.dropped - lane.queue.dropped + LostOnSend(wire, c)
         == |Entered(b, lane, wire, c).lost| - |b.lost|
  {
    if c.QueueChange? {
      EventBalances(lane.queue, c.event);
    }
  }

  lemma SendLossesAreCounted(t: Telemetry, e: Event)
    requires Possible(t, e)
    ensures After(t, e).droppedAfterSend
         == t.droppedAfterSend + LostOnSend(Wire(t, Traces), ChangeOf(t, Traces, e))
          + LostOnSend(Wire(t, Logs), ChangeOf(t, Logs, e))
  {
  }

  // ---- Stopping ---------------------------------------------------------------

  /** Once stopped, by the end of the export at the latest, nothing is held. */
  ghost predicate StopShape(t: Telemetry) {
    && (t.life.Off? ==> t.policy.stopped.Some? && t.traces == Emptied(t.traces) && t.logs == Emptied(t.logs))
    && (t.policy.stopped.Some? ==> t.life.Off? || t.phase.Ending?)
  }

  lemma HaltStops(t: Telemetry, reason: OffReason)
    requires IsHalted(t) ==> StopShape(t)
    ensures StopShape(Halted(t, reason)) && IsHalted(Halted(t, reason))
  {
  }

  lemma ConfigKeepsStop(t: Telemetry, fetch: ConfigFetch, nowS: real)
    requires StopShape(t) && AtAwait(t)
    ensures StopShape(Configure(t, fetch, nowS))
  {
    var (life, outcome) := OnConfig(t.life, fetch, nowS);
    if outcome.TurnedOff? {
      HaltStops(t.(life := life), outcome.reason);
    }
  }

  lemma AnswerKeepsStop(t: Telemetry, outcome: ExportOutcome, now: real, jitter: real)
    requires StopShape(t) && AtAwait(t)
    ensures StopShape(Settled(t, outcome, now, jitter))
  {
  }

  lemma TurnKeepsStop(t: Telemetry, nowS: real)
    requires StopShape(t)
    ensures StopShape(Took(t, nowS))
  {
  }

  lemma EventKeepsStop(t: Telemetry, e: Event)
    requires StopShape(t) && Possible(t, e)
    ensures StopShape(After(t, e))
  {
    match e
    case TakeTurn(now) => TurnKeepsStop(t, now / 1000.0);
    case EndExport(_) =>
      if t.phase.Ending? && t.policy.stopped.Some? {
        HaltStops(t.(phase := Idle), t.policy.stopped.value);
      }
    case Answered(outcome, jitter, now) => AnswerKeepsStop(t, outcome, now, jitter);
    case ConfigAnswered(fetch, now) => ConfigKeepsStop(t, fetch, now / 1000.0);
    case Tick(now) =>
      if AfterExpire(t.life, now) != t.life {
        HaltStops(t.(life := AfterExpire(t.life, now)), ConfigTimedOut);
      }
    case SignOut(_) => HaltStops(t, NoSession);
    case _ =>
  }

  // ---- Runs -------------------------------------------------------------------

  /** The exporter, its books, and when the retryable answers since the last
      accepted one came. */
  datatype World = World(t: Telemetry, traces: Book, logs: Book, failedAt: seq<real>)

  function BookOf(w: World, s: Signal): Book { if s.Traces? then w.traces else w.logs }

  function FailedAfter(failedAt: seq<real>, t: Telemetry, e: Event): seq<real> {
    if !e.Answered? || !t.phase.InFlight? then failedAt
    else if e.outcome.Accepted? then []
    else if e.outcome.Retryable? then failedAt + [e.now]
    else failedAt
  }

  function BookAfter(w: World, s: Signal, e: Event): Book {
    Entered(BookOf(w, s), LaneOf(w.t, s), Wire(w.t, s), ChangeOf(w.t, s, e))
  }

  function Next(w: World, e: Event): World
    requires Possible(w.t, e)
  {
    World(After(w.t, e), BookAfter(w, Traces, e), BookAfter(w, Logs, e), FailedAfter(w.failedAt, w.t, e))
  }

  /** The world after `events`; one that cannot happen where it stands is left
      out. */
  function Run(start: real, events: seq<Event>): World {
    if events == [] then World(Fresh(start), BLANK, BLANK, [])
    else
      var w, e := Run(start, events[..|events| - 1]), events[|events| - 1];
      if Possible(w.t, e) then Next(w, e) else w
  }

  ghost predicate SignalSound(w: World, s: Signal) {
    && LaneShape(LaneOf(w.t, s))
    && WireShape(LaneOf(w.t, s), Wire(w.t, s))
    && Balanced(LaneOf(w.t, s), Wire(w.t, s), BookOf(w, s))
  }

  /** What the exporter says was dropped is what was lost. */
  ghost predicate Counted(w: World) {
    w.t.traces.queue.dropped + w.t.logs.queue.dropped + w.t.droppedAfterSend == |w.traces.lost| + |w.logs.lost|
  }

  lemma EventKeepsSignal(w: World, s: Signal, e: Event)
    requires SignalSound(w, s) && StopShape(w.t) && Possible(w.t, e)
    ensures SignalSound(Next(w, e), s)
  {
    var lane, wire, c := LaneOf(w.t, s), Wire(w.t, s), ChangeOf(w.t, s, e);
    EventFollows(w.t, s, e);
    ChangeFits(w.t, s, e);
    ChangeKeepsShape(lane, wire, c);
    ChangeKeepsBalance(lane, wire, BookOf(w, s), c);
  }

  lemma EventKeepsCount(w: World, e: Event)
    requires SignalSound(w, Traces) && SignalSound(w, Logs) && StopShape(w.t) && Possible(w.t, e)
    requires Counted(w)
    ensures Counted(Next(w, e))
  {
    EventFollows(w.t, Traces, e);
    EventFollows(w.t, Logs, e);
    ChangeCountsLosses(w.t.traces, Wire(w.t, Traces), w.traces, ChangeOf(w.t, Traces, e));
    ChangeCountsLosses(w.t.logs, Wire(w.t, Logs), w.logs, ChangeOf(w.t, Logs, e));
    SendLossesAreCounted(w.t, e);
  }

  /** In every run, for both signals: each item queued is in exactly one of the
      queue, the retry slot, the request under way, accepted, lost and counted
      as dropped, discarded by a stop, or handed to the pagehide flush. Queues
      keep to their capacity, a batch is out at most three times, its retry slot
      is then empty, and a stopped exporter holds nothing. */
  lemma {:induction false} NothingIsLostFromTheBooks(start: real, events: seq<Event>)
    ensures var w := Run(start, events);
            SignalSound(w, Traces) && SignalSound(w, Logs) && Counted(w) && StopShape(w.t)
  {
    if events != [] {
      NothingIsLostFromTheBooks(start, events[..|events| - 1]);
      var w, e := Run(start, events[..|events| - 1]), events[|events| - 1];
      if Possible(w.t, e) {
        EventKeepsSignal(w, Traces, e);
        EventKeepsSignal(w, Logs, e);
        EventKeepsCount(w, e);
        EventKeepsStop(w.t, e);
      }
    }
  }

  // ---- Order ------------------------------------------------------------------

  /** What an event adds to the queue of signal `s`: telemetry takes an item
      unless it is off. */
  function ArrivesBy(t: Telemetry, s: Signal, e: Event): seq<Item> {
    if Possible(t, e) && e.Produce? && e.signal == s && !t.life.Off? then [e.item] else []
  }

  /** What an event takes out of the queue of signal `s`, oldest first. */
  function LeavesBy(t: Telemetry, s: Signal, e: Event): seq<Item> {
    if !Possible(t, e) then []
    else
      var queue := LaneOf(t, s).queue;
      match ChangeOf(t, s, e)
      case QueueChange(change) => Removed(queue, change)
      case Discard => queue.items
      case Send => if LaneOf(t, s).retry.Some? then [] else queue.items[..TakeCount(queue, MAX_BATCH)]
      case _ => []
  }

  /** All items of `s` queued in a run, in the order they came. */
  function CameIn(start: real, events: seq<Event>, s: Signal): seq<Item> {
    if events == [] then []
    else
      var before := events[..|events| - 1];
      CameIn(start, before, s) + ArrivesBy(Run(start, before).t, s, events[|events| - 1])
  }

  /** All items of `s` that left the queue in a run, in the order they left. */
  function WentOut(start: real, events: seq<Event>, s: Signal): seq<Item> {
    if events == [] then []
    else
      var before := events[..|events| - 1];
      WentOut(start, before, s) + LeavesBy(Run(start, before).t, s, events[|events| - 1])
  }

  /** `part` stands in `whole` at `i`, without a gap. */
  predicate StandsAt(part: seq<Item>, whole: seq<Item>, i: nat) {
    i + |part| <= |whole| && whole[i..i + |part|] == part
  }

  ghost predicate StandsIn(part: seq<Item>, whole: seq<Item>) {
    exists i: nat :: StandsAt(part, whole, i)
  }

  lemma StandsInMore(part: seq<Item>, whole: seq<Item>, more: seq<Item>)
    requires StandsIn(part, whole)
    ensures StandsIn(part, whole + more)
  {
    var i: nat :| StandsAt(part, whole, i);
    assert (whole + more)[i..i + |part|] == whole[i..i + |part|];
    assert StandsAt(part, whole + more, i);
  }

  lemma FrontStandsIn(before: seq<Item>, items: seq<Item>, n: nat)
    requires n <= |items|
    ensures StandsIn(items[..n], before + items)
  {
    assert (before + items)[|before|..|before| + n] == items[..n];
    assert StandsAt(items[..n], before + items, |before|);
  }

  lemma NothingStandsIn(whole: seq<Item>)
    ensures StandsIn([], whole)
  {
    assert StandsAt([], whole, 0);
  }

  lemma EventIsFifo(t: Telemetry, s: Signal, e: Event)
    requires LaneShape(LaneOf(t, s)) && StopShape(t) && Possible(t, e)
    ensures LaneOf(t, s).queue.items + ArrivesBy(t, s, e)
         == LeavesBy(t, s, e) + LaneOf(After(t, e), s).queue.items
  {
    var lane, c := LaneOf(t, s), ChangeOf(t, s, e);
    EventFollows(t, s, e);
    if c.QueueChange? {
      EventBalances(lane.queue, c.event);
    }
  }

  /** The batch in the retry slot or on the wire, as it came. */
  ghost predicate BatchesAsTheyCame(t: Telemetry, s: Signal, came: seq<Item>) {
    StandsIn(ItemsIn(LaneOf(t, s).retry), came) && StandsIn(ItemsIn(Wire(t, s)), came)
  }

  lemma EventKeepsBatches(t: Telemetry, s: Signal, e: Event, left: seq<Item>, came: seq<Item>)
    requires StopShape(t) && Possible(t, e)
    requires left + LaneOf(t, s).queue.items == came
    requires BatchesAsTheyCame(t, s, came)
    ensures BatchesAsTheyCame(After(t, e), s, came)
  {
    var lane, c := LaneOf(t, s), ChangeOf(t, s, e);
    EventFollows(t, s, e);
    NothingStandsIn(came);
    if c.Send? && lane.retry.None? {
      FrontStandsIn(left, lane.queue.items, TakeCount(lane.queue, MAX_BATCH));
    }
  }

  /** What one event keeps: the order of the queue, and its batches. */
  lemma EventKeepsOrder(t: Telemetry, s: Signal, e: Event, left: seq<Item>, came: seq<Item>)
    requires LaneShape(LaneOf(t, s)) && StopShape(t) && Possible(t, e)
    requires left + LaneOf(t, s).queue.items == came
    requires BatchesAsTheyCame(t, s, came)
    ensures (left + LeavesBy(t, s, e)) + LaneOf(After(t, e), s).queue.items == came + ArrivesBy(t, s, e)
    ensures BatchesAsTheyCame(After(t, e), s, came + ArrivesBy(t, s, e))
  {
    var next := After(t, e);
    EventIsFifo(t, s, e);
    Regroup(left, LeavesBy(t, s, e), LaneOf(next, s).queue.items, LaneOf(t, s).queue.items, ArrivesBy(t, s, e));
    EventKeepsBatches(t, s, e, left, came);
    StandsInMore(ItemsIn(LaneOf(next, s).retry), came, ArrivesBy(t, s, e));
    StandsInMore(ItemsIn(Wire(next, s)), came, ArrivesBy(t, s, e));
  }

  /** Each queue is first in, first out over whole runs, whatever is produced,
      sent, retried, flushed or discarded in between: what left it, in the order
      it left, and what it still holds is what came, in the order it came. A
      batch on the wire, first time or again, and one that waits to be retried
      hold items that came one after another. */
  lemma {:induction false} EachQueueIsFifo(start: real, events: seq<Event>, s: Signal)
    ensures var t := Run(start, events).t;
            && WentOut(start, events, s) + LaneOf(t, s).queue.items == CameIn(start, events, s)
            && BatchesAsTheyCame(t, s, CameIn(start, events, s))
  {
    if events == [] {
      NothingStandsIn([]);
    } else {
      var before, e := events[..|events| - 1], events[|events| - 1];
      var t := Run(start, before).t;
      var left, came := WentOut(start, before, s), CameIn(start, before, s);
      EachQueueIsFifo(start, before, s);
      NothingIsLostFromTheBooks(start, before);
      if Possible(t, e) {
        EventKeepsOrder(t, s, e, left, came);
        assert Run(start, events).t == After(t, e);
      } else {
        assert left + [] == left && came + [] == came;
      }
    }
  }

  // ---- The lifecycle and the policy of a run ------------------------------------

  /** What an event is to the configuration lifecycle. */
  function LifeEvents(t: Telemetry, e: Event): seq<LifeEvent> {
    match e
    case ConfigAnswered(fetch, now) => [Fetched(fetch, now / 1000.0)]
    case Tick(now) => [Expire(now)]
    case SignOut(_) => [TurnOff(NoSession)]
    case EndExport(_) =>
      if t.phase.Ending? && t.policy.stopped.Some? then [TurnOff(t.policy.stopped.value)] else []
    case _ => []
  }

  /** And to the export policy. */
  function PolicyEvents(t: Telemetry, e: Event): seq<Transitions.PolicyEvent> {
    match e
    case Answered(outcome, jitter, now) =>
      if t.phase.InFlight? then [Transitions.Answer(outcome, t.phase.batch.attempts, now, jitter)] else []
    case ConfigAnswered(fetch, now) =>
      var outcome := OnConfig(t.life, fetch, now / 1000.0).1;
      if outcome.TurnedOff? then [Transitions.StopFromOutside(outcome.reason)]
      else if outcome.Wait? then [] else [Transitions.RefreshArrived]
    case Tick(now) =>
      if AfterExpire(t.life, now) == t.life then [] else [Transitions.StopFromOutside(ConfigTimedOut)]
    case SignOut(_) => [Transitions.StopFromOutside(NoSession)]
    case _ => []
  }

  function LivesOf(start: real, events: seq<Event>): seq<LifeEvent> {
    if events == [] then []
    else
      var before, e := events[..|events| - 1], events[|events| - 1];
      var t := Run(start, before).t;
      LivesOf(start, before) + if Possible(t, e) then LifeEvents(t, e) else []
  }

  function PoliciesOf(start: real, events: seq<Event>): seq<Transitions.PolicyEvent> {
    if events == [] then []
    else
      var before, e := events[..|events| - 1], events[|events| - 1];
      var t := Run(start, before).t;
      PoliciesOf(start, before) + if Possible(t, e) then PolicyEvents(t, e) else []
  }

  lemma LifeTakesOne(since: real, events: seq<LifeEvent>, e: LifeEvent)
    ensures LifeRun(since, events + [e]) == LifeStep(LifeRun(since, events), e)
  {
    assert (events + [e])[..|events|] == events;
  }

  lemma PolicyTakesOne(events: seq<Transitions.PolicyEvent>, e: Transitions.PolicyEvent)
    ensures Transitions.PolicyRun(events + [e]) == Transitions.PolicyStep(Transitions.PolicyRun(events), e).0
  {
    assert (events + [e])[..|events|] == events;
  }

  lemma LifeFollows(t: Telemetry, e: Event)
    requires Possible(t, e)
    ensures After(t, e).life
         == if LifeEvents(t, e) == [] then t.life else LifeStep(t.life, LifeEvents(t, e)[0])
    ensures |LifeEvents(t, e)| <= 1
  {
    if e.Answered? { AnswerKeepsRoom(t, e.outcome, e.now, e.jitter); }
  }

  lemma PolicyFollows(t: Telemetry, e: Event)
    requires Possible(t, e)
    ensures After(t, e).policy
         == if PolicyEvents(t, e) == [] then t.policy else Transitions.PolicyStep(t.policy, PolicyEvents(t, e)[0]).0
    ensures |PolicyEvents(t, e)| <= 1
  {
  }

  /** In every run the lifecycle and the policy are what their own events make them:
      all that is proved of either holds of the exporter as it runs. */
  lemma {:induction false} RunFollowsBoth(start: real, events: seq<Event>)
    ensures Run(start, events).t.life == LifeRun(start, LivesOf(start, events))
    ensures Run(start, events).t.policy == Transitions.PolicyRun(PoliciesOf(start, events))
  {
    if events != [] {
      var before, e := events[..|events| - 1], events[|events| - 1];
      var t := Run(start, before).t;
      RunFollowsBoth(start, before);
      if Possible(t, e) {
        LifeFollows(t, e);
        PolicyFollows(t, e);
        Appended(start, LivesOf(start, before), LifeEvents(t, e), PoliciesOf(start, before), PolicyEvents(t, e));
      } else {
        assert LivesOf(start, before) + [] == LivesOf(start, before);
        assert PoliciesOf(start, before) + [] == PoliciesOf(start, before);
      }
    }
  }

  lemma Appended(start: real, lives: seq<LifeEvent>, life: seq<LifeEvent>,
                 policies: seq<Transitions.PolicyEvent>, policy: seq<Transitions.PolicyEvent>)
    requires |life| <= 1 && |policy| <= 1
    ensures LifeRun(start, lives + life)
         == if life == [] then LifeRun(start, lives) else LifeStep(LifeRun(start, lives), life[0])
    ensures Transitions.PolicyRun(policies + policy)
         == if policy == [] then Transitions.PolicyRun(policies)
            else Transitions.PolicyStep(Transitions.PolicyRun(policies), policy[0]).0
  {
    if life == [] {
      assert lives + life == lives;
    } else {
      assert life == [life[0]];
      LifeTakesOne(start, lives, life[0]);
    }
    if policy == [] {
      assert policies + policy == policies;
    } else {
      assert policy == [policy[0]];
      PolicyTakesOne(policies, policy[0]);
    }
  }

  /** Once nothing will be sent again, what came since is discarded too. */
  lemma FinishedLoopHoldsNothing(t: Telemetry)
    requires t.life.Off? || t.policy.stopped.Some?
    ensures var next := LoopOver(t);
      && next.traces.queue.items == [] && next.logs.queue.items == []
      && next.traces.retry.None? && next.logs.retry.None?
  {
  }

  // ---- Room -------------------------------------------------------------------

  /** Until the first usable configuration a queue has room for 128 items, and from
      then on for 512. */
  ghost predicate RoomTells(t: Telemetry) {
    && (t.life.AwaitingConfig? ==> t.traces.queue.capacity == t.logs.queue.capacity == 128)
    && (t.life.Configured? ==> t.traces.queue.capacity == t.logs.queue.capacity == 512)
  }

  lemma EventKeepsRoom(t: Telemetry, e: Event)
    requires Possible(t, e) && RoomTells(t)
    ensures RoomTells(After(t, e))
  {
    if e.Answered? { AnswerKeepsRoom(t, e.outcome, e.now, e.jitter); }
  }

  lemma AnswerKeepsRoom(t: Telemetry, outcome: ExportOutcome, now: real, jitter: real)
    ensures var next := Settled(t, outcome, now, jitter);
      next.life == t.life && next.traces.queue == t.traces.queue && next.logs.queue == t.logs.queue
  {
  }

  lemma {:induction false} EveryRunKeepsRoom(start: real, events: seq<Event>)
    ensures RoomTells(Run(start, events).t)
  {
    if events != [] {
      EveryRunKeepsRoom(start, events[..|events| - 1]);
      var t, e := Run(start, events[..|events| - 1]).t, events[|events| - 1];
      if Possible(t, e) { EventKeepsRoom(t, e); }
    }
  }

  /** And a configuration that is usable leaves exports free to go on. */
  lemma ConfigurationResumes(t: Telemetry, credentials: Credentials, nowS: real)
    requires !t.life.Off? && credentials.Usable(nowS)
    ensures var next := Configure(t, FetchedConfig(credentials), nowS);
      && next.life == Configured(credentials, 0) && !next.policy.refreshPending
      && next.traces.queue.capacity == next.logs.queue.capacity == 512
  {
  }

  // ---- Both signals get their turn ----------------------------------------------

  /** At event `k` signal `s` is offered its turn. */
  ghost predicate Offered(start: real, events: seq<Event>, k: nat, s: Signal)
    requires k < |events|
  {
    events[k].TakeTurn? && Run(start, events[..k]).t.phase == Turn(s)
  }

  ghost predicate OfferedSince(start: real, events: seq<Event>, b: nat, s: Signal) {
    exists k :: b < k < |events| && Offered(start, events, k, s)
  }

  /** Event `b` starts an export. */
  ghost predicate StartsExport(start: real, events: seq<Event>, b: nat)
    requires b < |events|
  {
    var t := Run(start, events[..b]).t;
    events[b].BeginExport? && t.phase.Idle? && ShouldExport(t.policy, events[b].now)
  }

  /** From `b` on both signals had their turn, or the export is at its first, or
      traces had theirs and it is at what follows. */
  ghost predicate TurnsInOrder(start: real, events: seq<Event>, b: nat) {
    var phase := Run(start, events).t.phase;
    || (OfferedSince(start, events, b, Traces) && OfferedSince(start, events, b, Logs))
    || phase == Turn(Traces)
    || (OfferedSince(start, events, b, Traces) && (phase == Turn(Logs) || (phase.InFlight? && phase.sent.Traces?)))
  }

  lemma StillOffered(start: real, events: seq<Event>, b: nat, s: Signal)
    requires events != [] && OfferedSince(start, events[..|events| - 1], b, s)
    ensures OfferedSince(start, events, b, s)
  {
    var before := events[..|events| - 1];
    var k :| b < k < |before| && Offered(start, before, k, s);
    assert before[..k] == events[..k];
    assert Offered(start, events, k, s);
  }

  lemma TurnIsOffered(start: real, events: seq<Event>, b: nat, s: Signal)
    requires b + 1 < |events| && events[|events| - 1].TakeTurn?
    requires Run(start, events[..|events| - 1]).t.phase == Turn(s)
    ensures OfferedSince(start, events, b, s)
  {
    assert Offered(start, events, |events| - 1, s);
  }

  /** Where an event takes an export while every answer is accepted: a signal's
      turn leads to its batch or past it, and traces lead to logs. */
  lemma PhaseGoesOn(t: Telemetry, e: Event)
    requires Possible(t, e) && (e.Answered? ==> e.outcome.Accepted?)
    ensures var next := After(t, e).phase;
      && (t.phase == Turn(Traces) ==>
            next == t.phase || (e.TakeTurn? && (next == Turn(Logs) || (next.InFlight? && next.sent.Traces?))))
      && (t.phase.InFlight? && t.phase.sent.Traces? ==> next == t.phase || next == Turn(Logs))
      && (t.phase == Turn(Logs) ==> next == t.phase || e.TakeTurn?)
  {
  }

  lemma {:induction false} ExportKeepsTurns(start: real, events: seq<Event>, b: nat)
    requires b < |events| && StartsExport(start, events, b)
    requires forall k :: b < k < |events| && events[k].Answered? ==> events[k].outcome.Accepted?
    ensures TurnsInOrder(start, events, b)
    decreases |events|
  {
    var before, e := events[..|events| - 1], events[|events| - 1];
    var t := Run(start, before).t;
    if b < |events| - 1 {
      assert before[..b] == events[..b] && before[b] == events[b];
      ExportKeepsTurns(start, before, b);
      if OfferedSince(start, before, b, Traces) { StillOffered(start, events, b, Traces); }
      if OfferedSince(start, before, b, Logs) { StillOffered(start, events, b, Logs); }
      if Possible(t, e) {
        PhaseGoesOn(t, e);
        if e.TakeTurn? && t.phase.Turn? { TurnIsOffered(start, events, b, t.phase.signal); }
      }
    }
  }

  /** An export whose answers are all accepted is not over before both signals were
      offered their turn. */
  lemma EachSignalGetsItsTurn(start: real, events: seq<Event>, b: nat)
    requires b < |events| && StartsExport(start, events, b)
    requires forall k :: b < k < |events| && events[k].Answered? ==> events[k].outcome.Accepted?
    requires Run(start, events).t.phase.Idle?
    ensures OfferedSince(start, events, b, Traces) && OfferedSince(start, events, b, Logs)
  {
    ExportKeepsTurns(start, events, b);
  }

  /** And a turn taken under a good token posts what its signal owes. */
  lemma TurnPostsWhatIsDue(start: real, events: seq<Event>, k: nat, s: Signal)
    requires k < |events| && Offered(start, events, k, s)
    requires TokenIsGood(Run(start, events[..k]).t, events[k].now)
    ensures var t, next := Run(start, events[..k]).t, Run(start, events[..k + 1]).t;
      if HasWork(LaneOf(t, s)) then Posts(t, next, s) else next.traces == t.traces && next.logs == t.logs
  {
    assert events[..k + 1][..k] == events[..k];
    NextIsDue(LaneOf(Run(start, events[..k]).t, s));
  }

  // ---- Time -------------------------------------------------------------------

  ghost predicate InTime(start: real, events: seq<Event>) {
    && (forall k :: 0 <= k < |events| ==> start <= events[k].now)
    && (forall i, j :: 0 <= i < j < |events| ==> events[i].now <= events[j].now)
  }

  /** Each failure came at least half a ceiling after the one before. */
  ghost predicate Spaced(failedAt: seq<real>) {
    forall k :: 0 < k < |failedAt| ==> failedAt[k] - failedAt[k - 1] >= Ceiling(k) / 2.0
  }

  /** The last failure and its half ceiling are over at `now`. */
  ghost predicate Waited(failedAt: seq<real>, now: real) {
    failedAt != [] ==> now - failedAt[|failedAt| - 1] >= Ceiling(|failedAt|) / 2.0
  }

  ghost predicate Timely(w: World, now: real) {
    && Spaced(w.failedAt)
    && (w.t.policy.stopped.None? ==>
          && w.t.policy.failures == |w.failedAt| < MAX_CONSECUTIVE_FAILURES
          && Waited(w.failedAt, w.t.policy.nextAttemptAtMs))
    && (w.t.phase.Turn? || w.t.phase.InFlight? ==> Waited(w.failedAt, now))
  }

  /** Of the policy, only the answers and the start of an export matter here. */
  lemma PolicyUntouched(t: Telemetry, e: Event)
    requires Possible(t, e) && !e.Answered?
    ensures var next := After(t, e);
            && (next.policy.stopped.None? ==>
                  && t.policy.stopped.None?
                  && next.policy.failures == t.policy.failures
                  && next.policy.nextAttemptAtMs == t.policy.nextAttemptAtMs)
            && (next.phase.Turn? || next.phase.InFlight? ==>
                  || t.phase.Turn? || t.phase.InFlight?
                  || (e.BeginExport? && ShouldExport(t.policy, e.now)))
  {
  }

  lemma AnswerKeepsTimely(w: World, e: Event, before: real)
    requires Timely(w, before) && before <= e.now && e.Answered? && Possible(w.t, e)
    ensures Timely(Next(w, e), e.now)
  {
    if w.t.phase.InFlight? && e.outcome.Retryable? {
      var later := w.failedAt + [e.now];
      assert Spaced(later);
    }
  }

  lemma EventKeepsTimely(w: World, e: Event, before: real)
    requires Timely(w, before) && before <= e.now && Possible(w.t, e)
    ensures Timely(Next(w, e), e.now)
  {
    if e.Answered? {
      AnswerKeepsTimely(w, e, before);
    } else {
      PolicyUntouched(w.t, e);
    }
  }

  function Clock(start: real, events: seq<Event>): real {
    if events == [] then start else events[|events| - 1].now
  }

  /** Failures in a row are at least half their ceilings apart, in every run of
      the exporter on a clock that does not go back. */
  lemma {:induction false} FailuresAreSpaced(start: real, events: seq<Event>)
    requires InTime(start, events)
    ensures Timely(Run(start, events), Clock(start, events))
  {
    if events != [] {
      var before := events[..|events| - 1];
      assert InTime(start, before);
      FailuresAreSpaced(start, before);
      var w, e := Run(start, before), events[|events| - 1];
      assert Clock(start, before) <= e.now by {
        if before != [] { assert before[|before| - 1] == events[|events| - 2]; }
      }
      if Possible(w.t, e) {
        EventKeepsTimely(w, e, Clock(start, before));
      }
    }
  }

  lemma SixSpacedFailures(failedAt: seq<real>)
    requires Spaced(failedAt) && |failedAt| == 6
    ensures failedAt[5] - failedAt[0] >= 77_500.0
  {
    assert Power2(0) == 1 && Power2(1) == 2 && Power2(2) == 4 && Power2(3) == 8 && Power2(4) == 16;
    assert Ceiling(1) == 5_000.0 && Ceiling(2) == 10_000.0 && Ceiling(3) == 20_000.0;
    assert Ceiling(4) == 40_000.0 && Ceiling(5) == 80_000.0;
  }

  /** The answer gives up: it stops a running policy, and says so. */
  predicate GivesUp(w: World, e: Event)
    requires Possible(w.t, e)
  {
    e.Answered? && w.t.policy.stopped.None? && After(w.t, e).policy.stopped == Some(GaveUp)
  }

  lemma GivingUpIsTheSixth(w: World, e: Event)
    requires Possible(w.t, e) && GivesUp(w, e)
    requires w.t.policy.failures == |w.failedAt| < MAX_CONSECUTIVE_FAILURES
    ensures Next(w, e).failedAt == w.failedAt + [e.now] && |w.failedAt| == 5
  {
  }

  /** Export failures alone silence telemetry for good only at the sixth in a
      row, no sooner than 77.5 seconds after the first of the six. */
  lemma GivingUpTakesItsTime(start: real, events: seq<Event>, e: Event)
    requires InTime(start, events + [e])
    requires Possible(Run(start, events).t, e) && GivesUp(Run(start, events), e)
    ensures var failedAt := Run(start, events + [e]).failedAt;
            |failedAt| == 6 && failedAt[5] == e.now && failedAt[5] - failedAt[0] >= 77_500.0
  {
    var w := Run(start, events);
    assert (events + [e])[..|events|] == events;
    assert InTime(start, events) by {
      assert forall k :: 0 <= k < |events| ==> (events + [e])[k] == events[k];
    }
    FailuresAreSpaced(start, events);
    GivingUpIsTheSixth(w, e);
    FailuresAreSpaced(start, events + [e]);
    assert Run(start, events + [e]) == Next(w, e);
    SixSpacedFailures(w.failedAt + [e.now]);
  }
}
