/** The telemetry exporter: one global state, an export that is suspended while
    a request is out, and whatever else happens to that state meanwhile. */
module Exporter {
  import opened Protocol
  import opened Outbox

  const KEEPALIVE_MAX_ITEMS: nat := 64
  const KEEPALIVE_MAX_BYTES: nat := 30 * 1024

  datatype Item = Item(payload: string)

  datatype Signal = Traces | Logs

  /** A batch, and how many times it has been posted. */
  datatype Pending = Pending(items: seq<Item>, attempts: nat)

  /** Where the one export that may be under way stands: not running, about to
      take a signal's turn, waiting for an answer, or past its last turn. */
  datatype Phase = Idle | Turn(signal: Signal) | InFlight(sent: Signal, batch: Pending) | Ending

  datatype Lane = Lane(queue: Queue<Item>, retry: Option<Pending>)

  datatype Telemetry = Telemetry(
    traces: Lane, logs: Lane, life: Lifecycle, policy: Policy, droppedAfterSend: nat, phase: Phase)

  function Fresh(now: real): Telemetry {
    var lane := Lane(Queue([], PRE_CONFIG_CAPACITY, 0), None);
    Telemetry(lane, lane, AwaitingConfig(now), FRESH_POLICY, 0, Idle)
  }

  function LaneOf(t: Telemetry, s: Signal): Lane { if s.Traces? then t.traces else t.logs }

  function WithLane(t: Telemetry, s: Signal, lane: Lane): Telemetry {
    if s.Traces? then t.(traces := lane) else t.(logs := lane)
  }

  function Produced(t: Telemetry, s: Signal, item: Item): Telemetry {
    if t.life.Off? then t
    else WithLane(t, s, LaneOf(t, s).(queue := Pushed(LaneOf(t, s).queue, item)))
  }

  function Emptied(lane: Lane): Lane { Lane(lane.queue.(items := []), None) }

  function Discarded(t: Telemetry): Telemetry {
    t.(traces := Emptied(t.traces), logs := Emptied(t.logs))
  }

  predicate IsHalted(t: Telemetry) { t.life.Off? && t.policy.stopped.Some? }

  function Halted(t: Telemetry, reason: OffReason): Telemetry {
    if IsHalted(t) then t
    else Discarded(t.(life := AfterTurnOff(t.life, reason), policy := AfterStop(t.policy, reason).0))
  }

  predicate HasToken(t: Telemetry, nowS: real) {
    t.life.Configured? && t.life.credentials.Usable(nowS)
  }

  /** The batch a signal's turn finds: the one waiting to be retried, else up to
      `MAX_BATCH` fresh items. */
  function NextBatch(lane: Lane): (Lane, Option<Pending>) {
    match lane.retry
    case Some(p) => (lane.(retry := None), Some(Pending(p.items, p.attempts + 1)))
    case None =>
      var n := TakeCount(lane.queue, MAX_BATCH);
      var batch := lane.queue.items[..n];
      (lane.(queue := AfterEvent(lane.queue, TakeBatch(MAX_BATCH))),
       if batch == [] then None else Some(Pending(batch, 1)))
  }

  function AfterTurn(s: Signal): Phase { if s.Traces? then Turn(Logs) else Ending }

  function Begun(t: Telemetry, now: real): Telemetry {
    if t.phase.Idle? && ShouldExport(t.policy, now) then t.(phase := Turn(Traces)) else t
  }

  function Took(t: Telemetry, nowS: real): Telemetry {
    if !t.phase.Turn? then t
    else if !HasToken(t, nowS) then t.(phase := AfterTurn(t.phase.signal))
    else
      var (lane, batch) := NextBatch(LaneOf(t, t.phase.signal));
      var next := WithLane(t, t.phase.signal, lane);
      next.(phase := if batch.Some? then InFlight(t.phase.signal, batch.value) else AfterTurn(t.phase.signal))
  }

  function Settled(t: Telemetry, outcome: ExportOutcome, now: real, jitter: real): Telemetry {
    if !t.phase.InFlight? then t
    else
      var (s, batch) := (t.phase.sent, t.phase.batch);
      var (policy, decision) := AfterRecord(t.policy, outcome, batch.attempts, now, jitter);
      var next := t.(policy := policy, phase := if outcome.Accepted? then AfterTurn(s) else Ending);
      if decision.retryBatch then WithLane(next, s, LaneOf(next, s).(retry := Some(batch)))
      else if outcome.Accepted? then next
      else next.(droppedAfterSend := next.droppedAfterSend + |batch.items|)
  }

  function ExportEnded(t: Telemetry): Telemetry {
    if !t.phase.Ending? then t
    else
      var next := t.(phase := Idle);
      if next.policy.stopped.Some? then Halted(next, next.policy.stopped.value) else next
  }

  /** From an await to the next: the turns still to come, up to one with a batch
      to send, and the end of the export if none is left. */
  function Onward(t: Telemetry, nowS: real): Telemetry {
    ExportEnded(Took(Took(t, nowS), nowS))
  }

  function Resumed(t: Telemetry): Telemetry {
    t.(policy := t.policy.(refreshPending := false),
       traces := t.traces.(queue := Resized(t.traces.queue, CAPACITY)),
       logs := t.logs.(queue := Resized(t.logs.queue, CAPACITY)))
  }

  function Configure(t: Telemetry, fetch: ConfigFetch, nowS: real): Telemetry {
    var (life, outcome) := OnConfig(t.life, fetch, nowS);
    var next := t.(life := life);
    match outcome
    case Wait => next
    case TurnedOff(reason) => Halted(next, reason)
    case _ => Resumed(next)
  }

  function Expired(t: Telemetry, now: real): Telemetry {
    var life := AfterExpire(t.life, now);
    if life == t.life then t else Halted(t.(life := life), ConfigTimedOut)
  }

  predicate MayUnload(t: Telemetry, nowS: real) {
    t.policy.stopped.None? && !NeedsRefresh(t.policy) && HasToken(t, nowS)
  }

  function Unloaded(t: Telemetry, nowS: real): Telemetry {
    if !MayUnload(t, nowS) then t
    else
      t.(traces := t.traces.(queue := AfterEvent(t.traces.queue, TakeBatch(KEEPALIVE_MAX_ITEMS))),
         logs := t.logs.(queue := AfterEvent(t.logs.queue, TakeBatch(KEEPALIVE_MAX_ITEMS))))
  }

  function LoopOver(t: Telemetry): Telemetry {
    if t.life.Off? || t.policy.stopped.Some? then Discarded(t) else t
  }

  // ---- Both signals get their turn ----------------------------------------

  predicate HasWork(lane: Lane) { lane.retry.Some? || lane.queue.items != [] }

  /** What a lane with work owes the ingest next: the batch that waits, posted once
      more, or its oldest 256 items, posted for the first time. */
  function Due(lane: Lane): Pending {
    if lane.retry.Some? then Pending(lane.retry.value.items, lane.retry.value.attempts + 1)
    else Pending(if |lane.queue.items| > 256 then lane.queue.items[..256] else lane.queue.items, 1)
  }

  /** And what stays: nothing to retry, and the items behind those. */
  function Behind(lane: Lane): Lane {
    if lane.retry.Some? then lane.(retry := None)
    else lane.(queue := lane.queue.(items := if |lane.queue.items| > 256 then lane.queue.items[256..] else []))
  }

  predicate TokenIsGood(t: Telemetry, now: real) {
    t.life.Configured? && t.life.credentials.accessToken != "" && t.life.credentials.expiresAt > now / 1000.0 + 30.0
  }

  /** `next` waits for the answer to what lane `s` owed, with all else as before. */
  predicate Posts(t: Telemetry, next: Telemetry, s: Signal) {
    && next.phase == InFlight(s, Due(LaneOf(t, s)))
    && LaneOf(next, s) == Behind(LaneOf(t, s))
    && (if s.Traces? then next.logs == t.logs else next.traces == t.traces)
  }

  lemma NextIsDue(lane: Lane)
    ensures HasWork(lane) ==> NextBatch(lane) == (Behind(lane), Some(Due(lane)))
    ensures !HasWork(lane) ==> NextBatch(lane) == (lane, None)
  {
    if lane.retry.None? && |lane.queue.items| <= 256 {
      var items := lane.queue.items;
      assert items[..|items|] == items && items[|items|..] == [];
    }
  }

  /** An export that may start posts what the first signal with work owes, traces
      before logs; it is over at once only if neither has any. */
  lemma ExportStartsWithTheFirst(t: Telemetry, now: real)
    requires t.phase.Idle? && TokenIsGood(t, now)
    requires t.policy.stopped.None? && !t.policy.refreshPending && now >= t.policy.nextAttemptAtMs
    ensures var next := Onward(Begun(t, now), now / 1000.0);
      if HasWork(t.traces) then Posts(t, next, Traces)
      else if HasWork(t.logs) then Posts(t, next, Logs)
      else next == t
  {
    NextIsDue(t.traces);
    NextIsDue(t.logs);
  }

  /** Stopped, owed a fresh token, told to wait, or without a credential that lasts
      another half minute, nothing is posted and nothing leaves its place. */
  lemma ExportWaits(t: Telemetry, now: real)
    requires t.phase.Idle?
    requires t.policy.stopped.Some? || t.policy.refreshPending || now < t.policy.nextAttemptAtMs || !TokenIsGood(t, now)
    ensures Onward(Begun(t, now), now / 1000.0) == t
  {
  }

  /** Once traces are accepted the logs follow, if there are any; an accepted batch
      of logs, or traces with no logs behind them, end the export. */
  lemma LogsFollowAcceptedTraces(t: Telemetry, now: real, jitter: real)
    requires t.phase.InFlight? && TokenIsGood(t, now) && t.policy.stopped.None?
    ensures var next := Onward(Settled(t, Accepted, now, jitter), now / 1000.0);
      if t.phase.sent.Traces? && HasWork(t.logs) then Posts(t, next, Logs)
      else next.phase.Idle? && next.traces == t.traces && next.logs == t.logs
  {
    NextIsDue(t.logs);
  }

  /** Any other answer ends the export there and then. */
  lemma RefusalEndsTheExport(t: Telemetry, outcome: ExportOutcome, now: real, jitter: real)
    requires t.phase.InFlight? && !outcome.Accepted?
    ensures Onward(Settled(t, outcome, now, jitter), now / 1000.0).phase.Idle?
  {
  }

  /** The statuses after which the same batch may be posted again. */
  predicate IsRetried(status: Option<nat>) { status.None? || status.value in {429, 502, 503, 504} }

  predicate IsSuccess(status: Option<nat>) { status.Some? && 200 <= status.value <= 299 }

  /** What becomes of a posted batch, by the status of the answer: delivered on a
      success; kept to be posted again on no answer, 429, 502, 503 or 504, up to its
      third time and short of the sixth failure in a row; else lost and counted. */
  lemma BatchIsKeptIff(t: Telemetry, status: Option<nat>, header: Option<string>, now: real, jitter: real)
    requires t.phase.InFlight? && t.policy.stopped.None? && LaneOf(t, t.phase.sent).retry.None?
    ensures var next := Settled(t, FromResponse(status, header), now, jitter);
      var (s, batch) := (t.phase.sent, t.phase.batch);
      var kept := IsRetried(status) && batch.attempts < 3 && t.policy.failures < 5;
      && next.traces.queue == t.traces.queue && next.logs.queue == t.logs.queue
      && LaneOf(next, s).retry == (if kept then Some(batch) else None)
      && next.droppedAfterSend == t.droppedAfterSend + (if kept || IsSuccess(status) then 0 else |batch.items|)
      && (next.phase == Ending <==> !IsSuccess(status) || s.Logs?)
  {
  }

  /** And what becomes of the exporter: nothing but a 401 makes it ask for a token,
      the second in a row ends it, and so does the sixth retried status. */
  lemma PolicyByStatus(t: Telemetry, status: Option<nat>, header: Option<string>, now: real, jitter: real)
    requires t.phase.InFlight? && t.policy.stopped.None?
    ensures var (p, q) := (t.policy, Settled(t, FromResponse(status, header), now, jitter).policy);
      && (IsSuccess(status) ==>
            q == p.(failures := 0, failing := false, refreshedAfter401 := false, nextAttemptAtMs := now))
      && (status == Some(401) ==> q.stopped == (if p.refreshedAfter401 then Some(TokenRefused) else None))
      && (status == Some(401) && q.stopped.None? ==> q.refreshPending && q.refreshedAfter401)
      && (status != Some(401) ==> q.refreshPending == p.refreshPending)
      && (IsRetried(status) ==> q.stopped == (if p.failures >= 5 then Some(GaveUp) else None))
      && (!IsSuccess(status) ==> q.failures == p.failures + (if IsRetried(status) then 1 else 0))
      && (!IsSuccess(status) && q.stopped.None? ==> q.failing)
  {
  }

  // ---- The state as it runs -----------------------------------------------

  /** The page's telemetry. A step of the suspended export runs between two
      awaits, so it is one call. */
  class TelemetryState {
    const spans: Outbox<Item>
    const logs: Outbox<Item>
    const policy: ExportPolicy
    var retrySpans: Option<Pending>
    var retryLogs: Option<Pending>
    var life: Lifecycle
    var droppedAfterSend: nat
    var phase: Phase

    ghost predicate Valid()
    {
      spans != logs
    }

    function State(): Telemetry
      reads this, spans, logs, policy
    {
      Telemetry(Lane(spans.State(), retrySpans), Lane(logs.State(), retryLogs),
                life, policy.State(), droppedAfterSend, phase)
    }

    constructor (now: real)
      ensures Valid() && fresh(spans) && fresh(logs) && fresh(policy)
      ensures State() == Fresh(now)
    {
      spans := new Outbox(PRE_CONFIG_CAPACITY);
      logs := new Outbox(PRE_CONFIG_CAPACITY);
      policy := new ExportPolicy();
      retrySpans, retryLogs, droppedAfterSend := None, None, 0;
      life, phase := AwaitingConfig(now), Idle;
    }

    method Produce(s: Signal, item: Item)
      requires Valid()
      modifies spans, logs
      ensures State() == Produced(old(State()), s, item)
    {
      if !life.Off? {
        if s.Traces? { spans.Push(item); } else { logs.Push(item); }
      }
    }

    method DiscardEverything()
      requires Valid()
      modifies this`retrySpans, this`retryLogs, spans, logs
      ensures State() == Discarded(old(State()))
    {
      spans.Clear();
      logs.Clear();
      retrySpans, retryLogs := None, None;
    }

    method Stop(reason: OffReason)
      requires Valid()
      modifies this`retrySpans, this`retryLogs, this`life, spans, logs, policy
      ensures State() == Halted(old(State()), reason)
    {
      if life.Off? && policy.stopped.Some? { return; }
      if !life.Off? { life := Off(reason); }
      var _ := policy.Stop(reason);
      DiscardEverything();
    }

    method TakeNextBatch(s: Signal) returns (batch: Option<Pending>)
      requires Valid()
      modifies this`retrySpans, this`retryLogs, spans, logs
      ensures var (lane, found) := NextBatch(LaneOf(old(State()), s));
              batch == found && State() == WithLane(old(State()), s, lane)
    {
      var retry := if s.Traces? then retrySpans else retryLogs;
      if retry.Some? {
        if s.Traces? { retrySpans := None; } else { retryLogs := None; }
        return Some(Pending(retry.value.items, retry.value.attempts + 1));
      }
      var items;
      if s.Traces? { items := spans.TakeBatch(MAX_BATCH); } else { items := logs.TakeBatch(MAX_BATCH); }
      batch := if items == [] then None else Some(Pending(items, 1));
    }

    method TakeTurn(nowS: real)
      requires Valid()
      modifies this, spans, logs
      ensures State() == Took(old(State()), nowS)
    {
      if !phase.Turn? { return; }
      if !(life.Configured? && life.credentials.Usable(nowS)) {
        phase := AfterTurn(phase.signal);
        return;
      }
      var batch := TakeNextBatch(phase.signal);
      phase := if batch.Some? then InFlight(phase.signal, batch.value) else AfterTurn(phase.signal);
    }

    method Settle(outcome: ExportOutcome, now: real, jitter: real)
      requires Valid()
      modifies this, policy
      ensures State() == Settled(old(State()), outcome, now, jitter)
    {
      if !phase.InFlight? { return; }
      var s, batch := phase.sent, phase.batch;
      var decision := policy.Record(outcome, batch.attempts, now, jitter);
      if decision.retryBatch {
        if s.Traces? { retrySpans := Some(batch); } else { retryLogs := Some(batch); }
      } else if !outcome.Accepted? {
        droppedAfterSend := droppedAfterSend + |batch.items|;
      }
      phase := if outcome.Accepted? then AfterTurn(s) else Ending;
    }

    method EndExport()
      requires Valid()
      modifies this, spans, logs, policy
      ensures State() == ExportEnded(old(State()))
    {
      if !phase.Ending? { return; }
      phase := Idle;
      if policy.stopped.Some? {
        Stop(policy.stopped.value);
      }
    }

    method Resume()
      requires Valid()
      modifies spans, logs, policy
      ensures State() == Resumed(old(State()))
    {
      policy.MarkRefreshed();
      spans.SetCapacity(CAPACITY);
      logs.SetCapacity(CAPACITY);
    }

    method GoOn(nowS: real)
      requires Valid()
      modifies this, spans, logs, policy
      ensures State() == Onward(old(State()), nowS)
    {
      TakeTurn(nowS);
      TakeTurn(nowS);
      EndExport();
    }

    method ExportOnce(now: real)
      requires Valid()
      modifies this, spans, logs, policy
      ensures State() == Onward(Begun(old(State()), now), now / 1000.0)
      ensures var t := old(State());
              t.phase.Idle? && TokenIsGood(t, now) && ShouldExport(t.policy, now) ==>
                if HasWork(t.traces) then Posts(t, State(), Traces)
                else if HasWork(t.logs) then Posts(t, State(), Logs)
                else State() == t
    {
      ghost var t := State();
      if t.phase.Idle? && TokenIsGood(t, now) && ShouldExport(t.policy, now) { ExportStartsWithTheFirst(t, now); }
      if phase.Idle? && policy.stopped.None? && !policy.refreshPending && now >= policy.nextAttemptAtMs {
        phase := Turn(Traces);
      }
      GoOn(now / 1000.0);
    }

    method ReceiveAnswer(outcome: ExportOutcome, now: real, jitter: real)
      requires Valid()
      modifies this, spans, logs, policy
      ensures State() == Onward(Settled(old(State()), outcome, now, jitter), now / 1000.0)
      ensures var t := old(State());
              t.phase.InFlight? && outcome.Accepted? && TokenIsGood(t, now) && t.policy.stopped.None? ==>
                if t.phase.sent.Traces? && HasWork(t.logs) then Posts(t, State(), Logs) else State().phase.Idle?
      ensures old(State()).phase.InFlight? && !outcome.Accepted? ==> State().phase.Idle?
    {
      ghost var t := State();
      if t.phase.InFlight? && outcome.Accepted? && TokenIsGood(t, now) && t.policy.stopped.None? {
        LogsFollowAcceptedTraces(t, now, jitter);
      }
      Settle(outcome, now, jitter);
      GoOn(now / 1000.0);
    }

    method ApplyConfig(fetch: ConfigFetch, nowS: real)
      requires Valid()
      modifies this, spans, logs, policy
      ensures State() == Configure(old(State()), fetch, nowS)
    {
      var (next, outcome) := OnConfig(life, fetch, nowS);
      life := next;
      match outcome {
        case Wait =>
        case TurnedOff(reason) => Stop(reason);
        case _ => Resume();
      }
    }

    method FlushOnPagehide(nowS: real) returns (spanBatch: seq<Item>, logBatch: seq<Item>)
      requires Valid()
      modifies spans, logs
      ensures State() == Unloaded(old(State()), nowS)
      ensures spanBatch + spans.items == old(spans.items) && logBatch + logs.items == old(logs.items)
      ensures var t := old(State());
              var may := t.policy.stopped.None? && !t.policy.refreshPending && TokenIsGood(t, 1000.0 * nowS);
              && |spanBatch| == (if may then Min(64, |t.traces.queue.items|) else 0)
              && |logBatch| == (if may then Min(64, |t.logs.queue.items|) else 0)
    {
      spanBatch, logBatch := [], [];
      if policy.stopped.Some? || policy.refreshPending { return; }
      if life.Configured? && life.credentials.Usable(nowS) {
        spanBatch := spans.TakeBatch(KEEPALIVE_MAX_ITEMS);
        logBatch := logs.TakeBatch(KEEPALIVE_MAX_ITEMS);
      }
    }
  }

  // ---- Fitting a body into the keepalive budget -----------------------------

  /** How many of `n` items are left once halving makes the body fit. */
  function FitCount(items: seq<Item>, encode: seq<Item> -> string, n: nat): (kept: nat)
    requires n <= |items|
    ensures kept <= n
  {
    if |encode(items[..n])| <= KEEPALIVE_MAX_BYTES || n <= 1 then n
    else FitCount(items, encode, n / 2)
  }

  /** `n` halved `k` times. */
  function Halved(n: nat, k: nat): (h: nat)
    ensures h <= n
  {
    if k == 0 then n else Halved(n / 2, k - 1)
  }

  ghost predicate FirstFit(items: seq<Item>, encode: seq<Item> -> string, n: nat, k: nat)
    requires n <= |items|
  {
    forall j: nat :: j < k ==> |encode(items[..Halved(n, j)])| > KEEPALIVE_MAX_BYTES
  }

  /** The count kept is the first halving whose body fits, or a single item:
      the oldest are kept and never all are cut. */
  lemma {:induction false} FitIsTheFirstHalvingThatFits(items: seq<Item>, encode: seq<Item> -> string, n: nat)
    requires n <= |items|
    ensures var m := FitCount(items, encode, n);
            && m <= n && (n > 0 ==> m > 0)
            && (|encode(items[..m])| <= KEEPALIVE_MAX_BYTES || m <= 1)
            && exists k: nat :: m == Halved(n, k) && FirstFit(items, encode, n, k)
    decreases n
  {
    if |encode(items[..n])| <= KEEPALIVE_MAX_BYTES || n <= 1 {
      assert n == Halved(n, 0);
    } else {
      FitIsTheFirstHalvingThatFits(items, encode, n / 2);
      var m := FitCount(items, encode, n);
      var k: nat :| m == Halved(n / 2, k) && FirstFit(items, encode, n / 2, k);
      assert m == Halved(n, k + 1);
      forall j: nat | j < k + 1 ensures |encode(items[..Halved(n, j)])| > KEEPALIVE_MAX_BYTES {
        if j > 0 {
          assert Halved(n, j) == Halved(n / 2, j - 1);
        }
      }
      assert FirstFit(items, encode, n, k + 1);
    }
  }

  method FitKeepalive(items: seq<Item>, encode: seq<Item> -> string) returns (body: string)
    ensures body == encode(items[..FitCount(items, encode, |items|)])
  {
    var kept := items;
    while true
      invariant |kept| <= |items| && kept == items[..|kept|]
      invariant FitCount(items, encode, |kept|) == FitCount(items, encode, |items|)
      decreases |kept|
    {
      body := encode(kept);
      if |body| <= KEEPALIVE_MAX_BYTES || |kept| <= 1 { return; }
      kept := kept[..|kept| / 2];
    }
  }
}
