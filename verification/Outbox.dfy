/** The pure state of client telemetry: the bounded queue, whether telemetry is
    configured, what an answer means, and when to send again. Times are
    milliseconds, except where a name says seconds. */
module Outbox {
  import opened Protocol

  const CAPACITY: nat := 512
  const PRE_CONFIG_CAPACITY: nat := 128
  const PRE_CONFIG_MAX_MS: real := 60_000.0
  const MAX_BATCH: nat := 256
  const BACKOFF_BASE_MS: real := 5_000.0
  const BACKOFF_MAX_MS: real := 300_000.0
  const RETRY_AFTER_MAX_MS: real := 900_000.0
  const MAX_BATCH_ATTEMPTS: nat := 3
  const MAX_CONSECUTIVE_FAILURES: nat := 6
  const EXPIRY_MARGIN_S: real := 30.0

  // ---- The queue ----------------------------------------------------------

  datatype Queue<T> = Queue(items: seq<T>, capacity: nat, dropped: nat)

  datatype QueueEvent<T> =
    | Push(item: T)
    | SetCapacity(capacity: nat)
    | TakeBatch(max: nat)
    | Clear

  function Pushed<T>(q: Queue<T>, item: T): Queue<T> {
    if q.capacity == 0 then q.(dropped := q.dropped + 1)
    else if |q.items| == q.capacity then q.(items := q.items[1..] + [item], dropped := q.dropped + 1)
    else q.(items := q.items + [item])
  }

  function Resized<T>(q: Queue<T>, capacity: nat): Queue<T> {
    var excess := if |q.items| > capacity then |q.items| - capacity else 0;
    Queue(q.items[excess..], capacity, q.dropped + excess)
  }

  function TakeCount<T>(q: Queue<T>, max: nat): (n: nat)
    ensures n <= |q.items| && n <= max && (n == max || n == |q.items|)
  {
    if max < |q.items| then max else |q.items|
  }

  function AfterEvent<T>(q: Queue<T>, e: QueueEvent<T>): Queue<T> {
    match e
    case Push(item) => Pushed(q, item)
    case SetCapacity(c) => Resized(q, c)
    case TakeBatch(max) => q.(items := q.items[TakeCount(q, max)..])
    case Clear => q.(items := [])
  }

  function QueueRun<T>(q: Queue<T>, events: seq<QueueEvent<T>>): Queue<T> {
    if events == [] then q
    else AfterEvent(QueueRun(q, events[..|events| - 1]), events[|events| - 1])
  }

  datatype Fate = Taken | Dropped | Cleared

  /** The items an event removes, oldest first. A full queue gives up its
      oldest item for the one pushed; one with no room at all refuses it. */
  function Removed<T>(q: Queue<T>, e: QueueEvent<T>): seq<T> {
    match e
    case Push(item) =>
      if |q.items| < q.capacity then [] else if q.items == [] then [item] else [q.items[0]]
    case SetCapacity(c) => q.items[..|q.items| - TakeCount(q, c)]
    case TakeBatch(max) => q.items[..TakeCount(q, max)]
    case Clear => q.items
  }

  /** What becomes of them. */
  function FateOf<T>(e: QueueEvent<T>): Fate {
    match e
    case Push(_) => Dropped
    case SetCapacity(_) => Dropped
    case TakeBatch(_) => Taken
    case Clear => Cleared
  }

  function Arrived<T>(events: seq<QueueEvent<T>>): seq<T> {
    if events == [] then []
    else
      var last := events[|events| - 1];
      Arrived(events[..|events| - 1]) + if last.Push? then [last.item] else []
  }

  /** Everything `events` removed, in the order it left. */
  function Left<T>(q: Queue<T>, events: seq<QueueEvent<T>>): seq<T> {
    if events == [] then []
    else
      var before := events[..|events| - 1];
      Left(q, before) + Removed(QueueRun(q, before), events[|events| - 1])
  }

  /** How many of those met the given fate. */
  function LeftAs<T>(q: Queue<T>, events: seq<QueueEvent<T>>, fate: Fate): nat {
    if events == [] then 0
    else
      var before, last := events[..|events| - 1], events[|events| - 1];
      LeftAs(q, before, fate) + if FateOf(last) == fate then |Removed(QueueRun(q, before), last)| else 0
  }

  /** One event's accounts balance. */
  lemma EventBalances<T>(q: Queue<T>, e: QueueEvent<T>)
    requires |q.items| <= q.capacity
    ensures var next := AfterEvent(q, e);
            && |next.items| <= next.capacity
            && q.items + (if e.Push? then [e.item] else []) == Removed(q, e) + next.items
            && next.dropped == q.dropped + if FateOf(e).Dropped? then |Removed(q, e)| else 0
  {
    if e.Push? && |q.items| == q.capacity && q.items != [] {
      assert q.items == [q.items[0]] + q.items[1..];
    }
  }

  lemma Regroup<T>(left: seq<T>, leaving: seq<T>, now: seq<T>, held: seq<T>, more: seq<T>)
    requires held + more == leaving + now
    ensures (left + leaving) + now == (left + held) + more
  {
    assert (left + leaving) + now == left + (leaving + now);
    assert (left + held) + more == left + (held + more);
  }

  /** First in, first out, whatever is pushed, taken, resized or cleared: what
      left, in the order it left, followed by what is still held, is what
      arrived in the order it arrived. The queue stays within its capacity and
      `dropped` counts every item lost for lack of room. */
  lemma {:induction false} QueueIsFifo<T>(capacity: nat, events: seq<QueueEvent<T>>)
    ensures var start: Queue<T> := Queue([], capacity, 0);
            var end := QueueRun(start, events);
            && Left(start, events) + end.items == Arrived(events)
            && |end.items| <= end.capacity
            && end.dropped == LeftAs(start, events, Dropped)
  {
    var start: Queue<T> := Queue([], capacity, 0);
    if events != [] {
      var before := events[..|events| - 1];
      var last := events[|events| - 1];
      var q := QueueRun(start, before);
      QueueIsFifo(capacity, before);
      EventBalances(q, last);
      Regroup(Left(start, before), Removed(q, last), AfterEvent(q, last).items, q.items,
              if last.Push? then [last.item] else []);
    }
  }

  class Outbox<T> {
    var items: seq<T>
    var capacity: nat
    var dropped: nat

    function State(): Queue<T>
      reads this
    {
      Queue(items, capacity, dropped)
    }

    constructor (capacity: nat)
      ensures State() == Queue([], capacity, 0)
    {
      this.items, this.capacity, this.dropped := [], capacity, 0;
    }

    method Push(item: T)
      modifies this
      ensures State() == Pushed(old(State()), item)
    {
      if capacity == 0 {
        dropped := dropped + 1;
        return;
      }
      if |items| == capacity {
        items := items[1..];
        dropped := dropped + 1;
      }
      items := items + [item];
    }

    method SetCapacity(capacity: nat)
      modifies this
      ensures State() == Resized(old(State()), capacity)
    {
      this.capacity := capacity;
      while |items| > capacity
        invariant this.capacity == capacity
        invariant |items| <= |old(items)|
        invariant |items| >= capacity || items == old(items)
        invariant items == old(items)[|old(items)| - |items|..]
        invariant dropped == old(dropped) + |old(items)| - |items|
      {
        items := items[1..];
        dropped := dropped + 1;
      }
    }

    method TakeBatch(max: nat) returns (batch: seq<T>)
      modifies this`items
      ensures batch + items == old(items)
      ensures |batch| == max || items == []
      ensures |batch| <= max
      ensures State() == AfterEvent(old(State()), QueueEvent.TakeBatch(max))
    {
      var count := if max < |items| then max else |items|;
      batch, items := items[..count], items[count..];
    }

    method Clear()
      modifies this`items
      ensures State() == AfterEvent(old(State()), QueueEvent.Clear)
    {
      items := [];
    }
  }

  // ---- Configuration ------------------------------------------------------

  datatype Credentials = Credentials(endpoint: string, accessToken: string, expiresAt: real) {
    predicate Usable(nowS: real) {
      expiresAt > nowS + EXPIRY_MARGIN_S && accessToken != ""
    }
  }

  datatype OffReason = NotConfigured | NoSession | ConfigTimedOut | SessionExpired | TokenRefused | GaveUp

  datatype ConfigFetch = FetchedConfig(credentials: Credentials) | Absent | SignedOut | Unavailable

  datatype ConfigOutcome = FirstConfig | Refreshed | Wait | TurnedOff(reason: OffReason)

  datatype Lifecycle =
    | AwaitingConfig(sinceMs: real)
    | Configured(credentials: Credentials, failedRefreshes: nat)
    | Off(reason: OffReason)

  function OnConfig(life: Lifecycle, fetch: ConfigFetch, nowS: real): (Lifecycle, ConfigOutcome) {
    if life.Off? then (life, TurnedOff(life.reason))
    else
      match fetch
      case FetchedConfig(credentials) =>
        if credentials.Usable(nowS)
        then (Configured(credentials, 0), if life.Configured? then Refreshed else FirstConfig)
        else (Off(SessionExpired), TurnedOff(SessionExpired))
      case Absent => (Off(NotConfigured), TurnedOff(NotConfigured))
      case SignedOut =>
        var reason := if life.Configured? then SessionExpired else NoSession;
        (Off(reason), TurnedOff(reason))
      case Unavailable =>
        if life.AwaitingConfig? then (life, Wait)
        else if life.failedRefreshes + 1 >= MAX_CONSECUTIVE_FAILURES then (Off(GaveUp), TurnedOff(GaveUp))
        else (life.(failedRefreshes := life.failedRefreshes + 1), Wait)
  }

  function AfterExpire(life: Lifecycle, now: real): Lifecycle {
    if life.AwaitingConfig? && now - life.sinceMs >= PRE_CONFIG_MAX_MS then Off(ConfigTimedOut) else life
  }

  function AfterTurnOff(life: Lifecycle, reason: OffReason): Lifecycle {
    if life.Off? then life else Off(reason)
  }

  datatype LifeEvent =
    | Fetched(fetch: ConfigFetch, nowS: real)
    | Expire(now: real)
    | TurnOff(reason: OffReason)

  function LifeStep(life: Lifecycle, e: LifeEvent): Lifecycle {
    match e
    case Fetched(fetch, nowS) => OnConfig(life, fetch, nowS).0
    case Expire(now) => AfterExpire(life, now)
    case TurnOff(reason) => AfterTurnOff(life, reason)
  }

  function LifeRun(since: real, events: seq<LifeEvent>): Lifecycle {
    if events == [] then AwaitingConfig(since)
    else LifeStep(LifeRun(since, events[..|events| - 1]), events[|events| - 1])
  }

  /** A fetch that brought a usable credential. */
  predicate Supplies(e: LifeEvent) {
    e.Fetched? && e.fetch.FetchedConfig? && e.fetch.credentials.Usable(e.nowS)
  }

  predicate Supplied(events: seq<LifeEvent>) {
    exists k :: 0 <= k < |events| && Supplies(events[k])
  }

  /** How many fetches since the last usable credential went unanswered. */
  function Unanswered(events: seq<LifeEvent>): nat {
    if events == [] then 0
    else
      var last := events[|events| - 1];
      if Supplies(last) then 0
      else Unanswered(events[..|events| - 1]) + if last.Fetched? && last.fetch.Unavailable? then 1 else 0
  }

  /** The last of `events` is one that ends telemetry, told from the events
      alone. */
  ghost predicate Ends(since: real, events: seq<LifeEvent>)
    requires events != []
  {
    var before := events[..|events| - 1];
    match events[|events| - 1]
    case TurnOff(_) => true
    case Expire(now) => !Supplied(before) && now - since >= PRE_CONFIG_MAX_MS
    case Fetched(fetch, _) =>
      match fetch
      case FetchedConfig(_) => !Supplies(events[|events| - 1])
      case Absent => true
      case SignedOut => true
      case Unavailable => Supplied(before) && Unanswered(events) >= MAX_CONSECUTIVE_FAILURES
  }

  ghost predicate TurnedOffBy(since: real, events: seq<LifeEvent>) {
    exists k :: 0 < k <= |events| && Ends(since, events[..k])
  }

  lemma SuppliedGrows(events: seq<LifeEvent>)
    requires events != []
    ensures Supplied(events) <==> Supplied(events[..|events| - 1]) || Supplies(events[|events| - 1])
  {
    var before := events[..|events| - 1];
    if Supplied(before) {
      var k :| 0 <= k < |before| && Supplies(before[k]);
      assert Supplies(events[k]);
    }
    if Supplied(events) {
      var k :| 0 <= k < |events| && Supplies(events[k]);
      assert k < |before| ==> Supplies(before[k]);
    }
  }

  lemma TurnedOffByGrows(since: real, events: seq<LifeEvent>)
    requires events != []
    ensures TurnedOffBy(since, events) <==> TurnedOffBy(since, events[..|events| - 1]) || Ends(since, events)
  {
    var n := |events|;
    var before := events[..n - 1];
    assert events[..n] == events;
    assert forall k :: 0 < k < n ==> before[..k] == events[..k];
  }

  /** Telemetry is off exactly when some event ended it; while it is on, it is
      configured exactly when a usable credential arrived, and the count of
      failed refreshes is the number of unanswered fetches since. */
  lemma {:induction false} LifecycleFollowsTheAnswers(since: real, events: seq<LifeEvent>)
    ensures var life := LifeRun(since, events);
            && (life.Off? <==> TurnedOffBy(since, events))
            && (life.AwaitingConfig? <==> !TurnedOffBy(since, events) && !Supplied(events))
            && (life.AwaitingConfig? ==> life.sinceMs == since)
            && (life.Configured? ==>
                  && Supplied(events)
                  && life.failedRefreshes == Unanswered(events) < MAX_CONSECUTIVE_FAILURES)
  {
    if events != [] {
      var before := events[..|events| - 1];
      LifecycleFollowsTheAnswers(since, before);
      SuppliedGrows(events);
      TurnedOffByGrows(since, events);
    }
  }

  /** What an answer to the configuration request is taken for. */
  lemma ConfigIsTakenFor(life: Lifecycle, fetch: ConfigFetch, nowS: real)
    ensures var (next, outcome) := OnConfig(life, fetch, nowS);
      && (outcome.TurnedOff? <==> next.Off?) && (outcome.TurnedOff? ==> outcome.reason == next.reason)
      && (outcome.FirstConfig? <==> life.AwaitingConfig? && next.Configured?)
      && (outcome.Refreshed? <==> life.Configured? && next.Configured? && fetch.FetchedConfig?)
  {
  }

  /** While it is configured telemetry sends with what the last usable answer
      brought, never with an older credential. */
  lemma {:induction false} CredentialsAreTheLatest(since: real, events: seq<LifeEvent>, k: nat)
    requires k < |events| && Supplies(events[k]) && forall j :: k < j < |events| ==> !Supplies(events[j])
    ensures LifeRun(since, events).Configured? ==> LifeRun(since, events).credentials == events[k].fetch.credentials
    decreases |events|
  {
    if k < |events| - 1 {
      CredentialsAreTheLatest(since, events[..|events| - 1], k);
      LifecycleFollowsTheAnswers(since, events[..|events| - 1]);
    }
  }

  /** Why the last of `events` ends telemetry. */
  function EndReason(events: seq<LifeEvent>): OffReason
    requires events != []
  {
    match events[|events| - 1]
    case TurnOff(reason) => reason
    case Expire(_) => ConfigTimedOut
    case Fetched(fetch, _) =>
      match fetch
      case FetchedConfig(_) => SessionExpired
      case Absent => NotConfigured
      case SignedOut => if Supplied(events[..|events| - 1]) then SessionExpired else NoSession
      case Unavailable => GaveUp
  }

  /** Once off, the reason is that of the first event that ended it, told from the
      events alone. */
  lemma OffForItsFirstReason(since: real, events: seq<LifeEvent>, k: nat)
    requires 0 < k <= |events| && Ends(since, events[..k]) && !TurnedOffBy(since, events[..k - 1])
    ensures LifeRun(since, events) == Off(EndReason(events[..k]))
  {
    var before := events[..k - 1];
    assert events[..k][..k - 1] == before;
    LifecycleFollowsTheAnswers(since, before);
    OffIsFinal(since, events, k);
  }

  /** The reason given first is the reason for good. */
  lemma {:induction false} OffIsFinal(since: real, events: seq<LifeEvent>, k: nat)
    requires k <= |events| && LifeRun(since, events[..k]).Off?
    ensures LifeRun(since, events) == LifeRun(since, events[..k])
    decreases |events|
  {
    if k < |events| {
      var before := events[..|events| - 1];
      assert before[..k] == events[..k];
      OffIsFinal(since, before, k);
    } else {
      assert events[..k] == events;
    }
  }

  // ---- Answers ------------------------------------------------------------

  const U32_LIMIT: nat := 0x1_0000_0000

  datatype ExportOutcome =
    | Accepted
    | Unauthorized
    | Rejected(status: nat)
    | Retryable(httpStatus: Option<nat>, retryAfterMs: Option<nat>)

  predicate IsDigit(c: char) { '0' <= c <= '9' }

  function DigitValue(c: char): nat
    requires IsDigit(c)
  {
    c as int - '0' as int
  }

  /** White space as Unicode has it, which is what the trim removes. */
  predicate IsSpace(c: char) {
    || '\t' <= c <= '\r' || c == ' ' || c == '\U{0085}' || c == '\U{00A0}' || c == '\U{1680}'
    || '\U{2000}' <= c <= '\U{200A}' || c == '\U{2028}' || c == '\U{2029}' || c == '\U{202F}'
    || c == '\U{205F}' || c == '\U{3000}'
  }

  function TrimStart(s: string): string {
    if s != "" && IsSpace(s[0]) then TrimStart(s[1..]) else s
  }

  function TrimEnd(s: string): string {
    if s != "" && IsSpace(s[|s| - 1]) then TrimEnd(s[..|s| - 1]) else s
  }

  /** Folds digits into `acc`, failing at a character that is not one or as soon
      as the number no longer fits 32 bits. */
  function FoldDigits(s: string, acc: nat): Option<nat> {
    if s == "" then Some(acc)
    else if !IsDigit(s[0]) then None
    else
      var next := acc * 10 + DigitValue(s[0]);
      if next >= U32_LIMIT then None else FoldDigits(s[1..], next)
  }

  function ParseU32(s: string): Option<nat> {
    if s == "" || s == "+" || s == "-" then None
    else if s[0] == '+' then FoldDigits(s[1..], 0)
    else FoldDigits(s, 0)
  }

  function ParseRetryAfterMs(value: string): Option<nat> {
    match ParseU32(TrimEnd(TrimStart(value)))
    case Some(seconds) => Some(seconds * 1000)
    case None => None
  }

  function FromResponse(status: Option<nat>, retryAfter: Option<string>): ExportOutcome {
    match status
    case None => Retryable(None, None)
    case Some(code) =>
      if 200 <= code <= 299 then Accepted
      else if code == 401 then Unauthorized
      else if code in {429, 502, 503, 504} then
        Retryable(status, if retryAfter.Some? then ParseRetryAfterMs(retryAfter.value) else None)
      else Rejected(code)
  }

  predicate AllDigits(s: string) { forall k :: 0 <= k < |s| ==> IsDigit(s[k]) }

  predicate AllSpace(s: string) { forall k :: 0 <= k < |s| ==> IsSpace(s[k]) }

  /** The number a string of digits writes in base ten. */
  function Value(s: string): nat
    requires AllDigits(s)
  {
    if s == "" then 0 else Value(s[..|s| - 1]) * 10 + DigitValue(s[|s| - 1])
  }

  function Power10(n: nat): (p: nat)
    ensures p >= 1
  {
    if n == 0 then 1 else 10 * Power10(n - 1)
  }

  lemma ShiftByTen(first: nat, p: nat, rest: nat, last: nat)
    ensures (first * p + rest) * 10 + last == first * (10 * p) + (rest * 10 + last)
  {
    assert first * (10 * p) == first * p * 10;
  }

  lemma {:induction false} ValueFromTheFront(s: string)
    requires s != "" && AllDigits(s)
    ensures Value(s) == DigitValue(s[0]) * Power10(|s| - 1) + Value(s[1..])
    decreases |s|
  {
    if |s| > 1 {
      var front, first, last := s[..|s| - 1], DigitValue(s[0]), DigitValue(s[|s| - 1]);
      ValueFromTheFront(front);
      assert front[1..] == s[1..][..|s| - 2] && s[1..][|s| - 2] == s[|s| - 1];
      var p := Power10(|s| - 2);
      assert Value(s) == (first * p + Value(front[1..])) * 10 + last;
      assert Value(s[1..]) == Value(front[1..]) * 10 + last;
      ShiftByTen(first, p, Value(front[1..]), last);
    } else {
      assert s[1..] == "" && s[..0] == "";
    }
  }

  lemma {:induction false} FoldGivesTheValue(s: string, acc: nat)
    requires acc < U32_LIMIT
    ensures FoldDigits(s, acc).Some? <==> AllDigits(s) && acc * Power10(|s|) + Value(s) < U32_LIMIT
    ensures FoldDigits(s, acc).Some? ==> FoldDigits(s, acc).value == acc * Power10(|s|) + Value(s)
    decreases |s|
  {
    if s != "" && IsDigit(s[0]) {
      var next := acc * 10 + DigitValue(s[0]);
      var p := Power10(|s| - 1);
      assert AllDigits(s) <==> AllDigits(s[1..]) by {
        assert forall k :: 0 <= k < |s| - 1 ==> s[1..][k] == s[k + 1];
        if AllDigits(s[1..]) {
          forall k | 0 <= k < |s| ensures IsDigit(s[k]) { assert k > 0 ==> IsDigit(s[1..][k - 1]); }
        }
      }
      assert next * p == acc * Power10(|s|) + DigitValue(s[0]) * p;
      if AllDigits(s) {
        ValueFromTheFront(s);
      }
      if next < U32_LIMIT {
        FoldGivesTheValue(s[1..], next);
      } else {
        assert next * p >= next by { assert p >= 1; }
      }
    }
  }

  lemma {:induction false} TrimIsExact(before: string, s: string, after: string)
    requires AllSpace(before) && AllSpace(after)
    requires s != "" && !IsSpace(s[0]) && !IsSpace(s[|s| - 1])
    ensures TrimEnd(TrimStart(before + s + after)) == s
    decreases |before| + |after|
  {
    var whole := before + s + after;
    if before != "" {
      assert whole[1..] == before[1..] + s + after;
      TrimIsExact(before[1..], s, after);
    } else {
      assert whole == s + after;
      assert TrimStart(whole) == whole;
      if after != "" {
        var rest := after[..|after| - 1];
        assert whole[..|whole| - 1] == before + s + rest;
        TrimIsExact(before, s, rest);
        assert (before + s + rest)[0] == s[0];
      }
    }
  }

  /** The delay-seconds form of section 10.2.3 of RFC 9110: digits, with any
      white space around them, mean that many seconds, or nothing at all from
      2^32 up. */
  lemma {:induction false} DelaySecondsAreRead(before: string, digits: string, after: string)
    requires AllSpace(before) && AllSpace(after) && digits != "" && AllDigits(digits)
    ensures ParseRetryAfterMs(before + digits + after)
         == if Value(digits) < U32_LIMIT then Some(Value(digits) * 1000) else None
  {
    assert IsDigit(digits[0]) && IsDigit(digits[|digits| - 1]);
    TrimIsExact(before, digits, after);
    FoldGivesTheValue(digits, 0);
  }

  /** What is read as a number of seconds is the value of digits, behind an
      optional plus sign, which that form does not have. */
  lemma {:induction false} OnlyDelaySecondsAreRead(value: string)
    ensures var s := TrimEnd(TrimStart(value));
            var digits := if s != "" && s[0] == '+' then s[1..] else s;
            && (ParseRetryAfterMs(value).Some?
                <==> digits != "" && AllDigits(digits) && Value(digits) < U32_LIMIT)
            && (ParseRetryAfterMs(value).Some? ==> ParseRetryAfterMs(value).value == Value(digits) * 1000)
  {
    var s := TrimEnd(TrimStart(value));
    var digits := if s != "" && s[0] == '+' then s[1..] else s;
    FoldGivesTheValue(digits, 0);
    if s == "-" {
      assert !IsDigit(s[0]);
    }
  }

  /** So a sign that the form does not have is read as if it were not there. */
  lemma PlusSignIsRead()
    ensures ParseRetryAfterMs("+5") == Some(5000) && !AllDigits("+5")
  {
    assert !IsSpace("+5"[0]) && !IsSpace("+5"[1]);
    TrimIsExact("", "+5", "");
    assert "" + "+5" + "" == "+5" && "+5"[1..] == "5" && "5"[1..] == "";
    assert FoldDigits("5", 0) == FoldDigits("", 5);
    assert !IsDigit("+5"[0]);
  }

  // ---- The export policy --------------------------------------------------

  datatype Transition = StartedFailing | Recovered | Stopped(reason: OffReason)

  datatype Decision = Decision(retryBatch: bool, refreshToken: bool, transition: Option<Transition>)

  datatype Policy = Policy(
    stopped: Option<OffReason>, failures: nat, failing: bool,
    refreshedAfter401: bool, refreshPending: bool, nextAttemptAtMs: real)

  const FRESH_POLICY := Policy(None, 0, false, false, false, 0.0)

  function Power2(n: nat): (p: nat)
    ensures p >= 1
  {
    if n == 0 then 1 else 2 * Power2(n - 1)
  }

  /** The longest wait after the `failures`th failure in a row. */
  function Ceiling(failures: nat): (c: real)
    ensures BACKOFF_BASE_MS <= c <= BACKOFF_MAX_MS
  {
    var doublings := if failures == 0 then 0 else if failures - 1 < 16 then failures - 1 else 16;
    var grown := BACKOFF_BASE_MS * Power2(doublings) as real;
    if grown < BACKOFF_MAX_MS then grown else BACKOFF_MAX_MS
  }

  /** The ceiling starts at five seconds and doubles up to five minutes. */
  lemma CeilingDoubles(failures: nat)
    requires failures >= 1
    ensures Ceiling(1) == 5_000.0
    ensures Ceiling(failures + 1) == MinReal(2.0 * Ceiling(failures), 300_000.0)
  {
    assert Power2(0) == 1 && Power2(failures) == 2 * Power2(failures - 1);
    if failures >= 7 {
      PowerGrows(6, failures - 1);
      assert Power2(6) == 64 by {
        assert Power2(2) == 4 && Power2(4) == 4 * Power2(2) && Power2(6) == 4 * Power2(4);
      }
    }
  }

  lemma {:induction false} PowerGrows(a: nat, b: nat)
    requires a <= b
    ensures Power2(a) <= Power2(b)
    decreases b
  {
    if a < b { PowerGrows(a, b - 1); }
  }

  lemma PartOf(half: real, j: real)
    requires half >= 0.0 && 0.0 <= j <= 1.0
    ensures 0.0 <= half * j <= half
  {
    assert half * (1.0 - j) >= 0.0;
  }

  function BackoffMs(failures: nat, jitter: real): (wait: real)
    ensures Ceiling(failures) / 2.0 <= wait <= Ceiling(failures)
  {
    var j := ClampUnit(jitter);
    PartOf(Ceiling(failures) / 2.0, j);
    Ceiling(failures) / 2.0 + Ceiling(failures) / 2.0 * j
  }

  /** Half the ceiling is sure, and the other half is spread evenly by the jitter. */
  lemma JitterSpreads(failures: nat, jitter: real)
    ensures jitter <= 0.0 ==> BackoffMs(failures, jitter) == Ceiling(failures) / 2.0
    ensures jitter >= 1.0 ==> BackoffMs(failures, jitter) == Ceiling(failures)
    ensures 0.0 <= jitter <= 1.0 ==> BackoffMs(failures, jitter) == Ceiling(failures) * (0.5 + jitter / 2.0)
  {
  }

  /** How long the `failures`th failure in a row silences the exporter. */
  function WaitMs(failures: nat, jitter: real, retryAfterMs: Option<nat>): (wait: real)
    ensures Ceiling(failures) / 2.0 <= wait <= RETRY_AFTER_MAX_MS
  {
    var asked := if retryAfterMs.Some? then retryAfterMs.value as real else 0.0;
    MaxReal(BackoffMs(failures, jitter), MinReal(asked, RETRY_AFTER_MAX_MS))
  }

  /** It is the longer of the backoff and what the ingest asked for, of which a
      quarter of an hour counts at most. */
  lemma TheLongerWaitCounts(failures: nat, jitter: real, retryAfterMs: Option<nat>)
    ensures var wait, asked := WaitMs(failures, jitter, retryAfterMs),
                               if retryAfterMs.Some? then retryAfterMs.value as real else 0.0;
            && wait >= BackoffMs(failures, jitter) && (wait >= asked || wait >= 900_000.0)
            && (wait == BackoffMs(failures, jitter) || wait == asked || wait == 900_000.0)
  {
  }

  function StartFailing(p: Policy): (Policy, Option<Transition>) {
    (p.(failing := true), if p.failing then None else Some(StartedFailing))
  }

  predicate ShouldExport(p: Policy, now: real) {
    p.stopped.None? && !p.refreshPending && now >= p.nextAttemptAtMs
  }

  predicate NeedsRefresh(p: Policy) {
    p.stopped.None? && p.refreshPending
  }

  function AfterStop(p: Policy, reason: OffReason): (Policy, Option<Transition>) {
    if p.stopped.Some? then (p, None) else (p.(stopped := Some(reason)), Some(Stopped(reason)))
  }

  function AfterRecord(p: Policy, outcome: ExportOutcome, attempts: nat, now: real, jitter: real): (Policy, Decision) {
    if p.stopped.Some? then (p, Decision(false, false, None))
    else
      match outcome
      case Accepted =>
        (p.(failures := 0, refreshedAfter401 := false, nextAttemptAtMs := now, failing := false),
         Decision(false, false, if p.failing then Some(Recovered) else None))
      case Unauthorized =>
        if p.refreshedAfter401 then
          var (next, said) := AfterStop(p, TokenRefused);
          (next, Decision(false, false, said))
        else
          var (next, said) := StartFailing(p.(refreshedAfter401 := true, refreshPending := true));
          (next, Decision(false, true, said))
      case Rejected(_) =>
        var (next, said) := StartFailing(p);
        (next, Decision(false, false, said))
      case Retryable(_, retryAfterMs) =>
        var counted := p.(failures := p.failures + 1);
        if counted.failures >= MAX_CONSECUTIVE_FAILURES then
          var (next, said) := AfterStop(counted, GaveUp);
          (next, Decision(false, false, said))
        else
          var wait := WaitMs(counted.failures, jitter, retryAfterMs);
          var (next, said) := StartFailing(counted.(nextAttemptAtMs := now + wait));
          (next, Decision(attempts < MAX_BATCH_ATTEMPTS, false, said))
  }

  class ExportPolicy {
    var stopped: Option<OffReason>
    var failures: nat
    var failing: bool
    var refreshedAfter401: bool
    var refreshPending: bool
    var nextAttemptAtMs: real

    function State(): Policy
      reads this
    {
      Policy(stopped, failures, failing, refreshedAfter401, refreshPending, nextAttemptAtMs)
    }

    constructor ()
      ensures State() == FRESH_POLICY
    {
      stopped, failures, failing := None, 0, false;
      refreshedAfter401, refreshPending, nextAttemptAtMs := false, false, 0.0;
    }

    method MarkRefreshed()
      modifies this
      ensures State() == old(State()).(refreshPending := false)
    {
      refreshPending := false;
    }

    method Stop(reason: OffReason) returns (said: Option<Transition>)
      modifies this
      ensures (State(), said) == AfterStop(old(State()), reason)
    {
      if stopped.Some? { return None; }
      stopped := Some(reason);
      said := Some(Stopped(reason));
    }

    method Record(outcome: ExportOutcome, attempts: nat, now: real, jitter: real) returns (decision: Decision)
      modifies this
      ensures (State(), decision) == AfterRecord(old(State()), outcome, attempts, now, jitter)
    {
      decision := Decision(false, false, None);
      if stopped.Some? { return; }
      match outcome {
        case Accepted =>
          failures, refreshedAfter401, nextAttemptAtMs := 0, false, now;
          if failing {
            failing := false;
            decision := decision.(transition := Some(Recovered));
          }
        case Unauthorized =>
          if refreshedAfter401 {
            var said := Stop(TokenRefused);
            decision := decision.(transition := said);
          } else {
            refreshedAfter401, refreshPending := true, true;
            var said := BeginFailing();
            decision := decision.(refreshToken := true, transition := said);
          }
        case Rejected(_) =>
          var said := BeginFailing();
          decision := decision.(transition := said);
        case Retryable(_, retryAfterMs) =>
          failures := failures + 1;
          if failures >= MAX_CONSECUTIVE_FAILURES {
            var said := Stop(GaveUp);
            decision := decision.(transition := said);
            return;
          }
          nextAttemptAtMs := now + WaitMs(failures, jitter, retryAfterMs);
          var said := BeginFailing();
          decision := decision.(retryBatch := attempts < MAX_BATCH_ATTEMPTS, transition := said);
      }
    }

    method BeginFailing() returns (said: Option<Transition>)
      modifies this
      ensures (State(), said) == StartFailing(old(State()))
    {
      if failing { return None; }
      failing := true;
      said := Some(StartedFailing);
    }
  }

  /** A delay the ingest asks for is waited out, up to a quarter of an hour. */
  lemma RetryAfterIsHonoured(
      p: Policy, status: nat, header: string, attempts: nat, now: real, jitter: real, later: real)
    requires status in {429, 502, 503, 504} && header != "" && AllDigits(header) && Value(header) < U32_LIMIT
    requires p.stopped.None? && p.failures + 1 < MAX_CONSECUTIVE_FAILURES
    requires ShouldExport(AfterRecord(p, FromResponse(Some(status), Some(header)), attempts, now, jitter).0, later)
    ensures later - now >= MinReal(1000.0 * Value(header) as real, RETRY_AFTER_MAX_MS)
  {
    assert "" + header + "" == header;
    DelaySecondsAreRead("", header, "");
  }

  /** The `n`th failure in a row silences the exporter for at least half its
      ceiling, and no longer than a quarter of an hour. */
  lemma FailureSilences(p: Policy, outcome: ExportOutcome, attempts: nat, now: real, jitter: real, later: real)
    requires outcome.Retryable? && p.stopped.None? && p.failures + 1 < MAX_CONSECUTIVE_FAILURES
    ensures var next := AfterRecord(p, outcome, attempts, now, jitter).0;
            && (ShouldExport(next, later) ==> later - now >= Ceiling(p.failures + 1) / 2.0)
            && (later - now >= RETRY_AFTER_MAX_MS ==> ShouldExport(next, later) || p.refreshPending)
  {
  }
}
