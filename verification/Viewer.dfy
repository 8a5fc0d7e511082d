/** The SPA's read-only page viewer: what each page-channel event does to what
    it shows. `Applied` says it on values; `PageFeed` does it in place. */
module Viewer {
  import opened Protocol

  datatype Status = Connecting | Connected | Subscribing | Live | CaughtUp | Reconnecting

  datatype Feed = Feed(
    batches: seq<StrokeBatch>, status: Status, error: Option<string>, lastSeq: nat, paper: Paper)

  function Opened(paper: Paper): Feed { Feed([], Connecting, None, 0, paper) }

  ghost predicate Ascending(items: seq<StrokeBatch>) {
    forall i, j :: 0 <= i < j < |items| ==> items[i].seqNo < items[j].seqNo
  }

  /** A batch put in seq order, replacing the one already holding its seq. */
  function Inserted(items: seq<StrokeBatch>, batch: StrokeBatch): seq<StrokeBatch> {
    if items == [] then [batch]
    else if items[0].seqNo < batch.seqNo then [items[0]] + Inserted(items[1..], batch)
    else if items[0].seqNo == batch.seqNo then [batch] + items[1..]
    else [batch] + items
  }

  function InsertedAll(items: seq<StrokeBatch>, batches: seq<StrokeBatch>): seq<StrokeBatch>
    decreases |batches|
  {
    if batches == [] then items else InsertedAll(Inserted(items, batches[0]), batches[1..])
  }

  function Trimmed(batch: StrokeBatch, gone: set<string>): StrokeBatch {
    batch.(strokes := Surviving(batch.strokes, gone))
  }

  function Retained(items: seq<StrokeBatch>, gone: set<string>): seq<StrokeBatch> {
    if items == [] then [] else [Trimmed(items[0], gone)] + Retained(items[1..], gone)
  }

  function NextPaper(current: Paper, event: PageServerMessage): Paper {
    match event
    case Welcome(_, _, _, paper) => paper
    case PaperChanged(paper, _) => paper
    case _ => current
  }

  function Applied(feed: Feed, event: PageServerMessage): Feed {
    var f := feed.(paper := NextPaper(feed.paper, event));
    match event
    case Welcome(_, lastSeq, _, _) =>
      f.(status := Connected, lastSeq := Min(lastSeq, f.lastSeq))
    case LiveBatch(batch) =>
      f.(batches := Inserted(f.batches, batch), lastSeq := Max(f.lastSeq, batch.seqNo), status := Live, error := None)
    case PageReplay(lastSeq, batches, tombstones) =>
      f.(batches := Retained(InsertedAll(f.batches, batches), TombstonedIds(tombstones)),
         lastSeq := Max(f.lastSeq, lastSeq), status := CaughtUp, error := None)
    case Synced(lastSeq) =>
      f.(lastSeq := Max(f.lastSeq, lastSeq), status := CaughtUp, error := None)
    case LiveTombstones(tombstones) =>
      f.(batches := Retained(f.batches, ToSet(tombstones.strokeIds)), status := Live)
    case ErrorMessage(_, message) => f.(error := Some(message))
    case _ => f
  }

  /** Events applied in the order they arrive. */
  function AppliedAll(feed: Feed, events: seq<PageServerMessage>): Feed
    decreases |events|
  {
    if events == [] then feed else AppliedAll(Applied(feed, events[0]), events[1..])
  }

  lemma {:induction false} AppliedAllConcat(feed: Feed, a: seq<PageServerMessage>, b: seq<PageServerMessage>)
    ensures AppliedAll(feed, a + b) == AppliedAll(AppliedAll(feed, a), b)
    decreases |a|
  {
    if a == [] {
      assert a + b == b;
    } else {
      assert (a + b)[1..] == a[1..] + b;
      AppliedAllConcat(Applied(feed, a[0]), a[1..], b);
    }
  }

  // ---- What is shown besides the ink --------------------------------------

  /** Ink or the end of a replay, which takes an error off the screen. */
  predicate ClearsError(m: PageServerMessage) { m.LiveBatch? || m.PageReplay? || m.Synced? }

  predicate TouchesError(m: PageServerMessage) { m.ErrorMessage? || ClearsError(m) }

  predicate TouchesStatus(m: PageServerMessage) {
    m.Welcome? || m.LiveBatch? || m.LiveTombstones? || m.PageReplay? || m.Synced?
  }

  lemma {:induction false} ErrorIsLeftAlone(feed: Feed, events: seq<PageServerMessage>)
    requires forall j :: 0 <= j < |events| ==> !TouchesError(events[j])
    ensures AppliedAll(feed, events).error == feed.error
    decreases |events|
  {
    if events != [] { ErrorIsLeftAlone(Applied(feed, events[0]), events[1..]); }
  }

  lemma {:induction false} StatusIsLeftAlone(feed: Feed, events: seq<PageServerMessage>)
    requires forall j :: 0 <= j < |events| ==> !TouchesStatus(events[j])
    ensures AppliedAll(feed, events).status == feed.status
    decreases |events|
  {
    if events != [] { StatusIsLeftAlone(Applied(feed, events[0]), events[1..]); }
  }

  /** The error shown, told from the events alone: the server's own words if the
      last event to touch it was an error, none if it was ink or the end of a
      replay. */
  lemma {:induction false} ErrorTellsTheEvents(feed: Feed, events: seq<PageServerMessage>, k: nat)
    requires k < |events| && TouchesError(events[k])
    requires forall j :: k < j < |events| ==> !TouchesError(events[j])
    ensures AppliedAll(feed, events).error == if events[k].ErrorMessage? then Some(events[k].message) else None
    decreases |events|
  {
    if k > 0 {
      ErrorTellsTheEvents(Applied(feed, events[0]), events[1..], k - 1);
    } else {
      ErrorIsLeftAlone(Applied(feed, events[0]), events[1..]);
    }
  }

  /** The status shown: connected if the last event to set it was a welcome, live
      if ink or an erase, caught up if the end of a replay. */
  lemma {:induction false} StatusTellsTheEvents(feed: Feed, events: seq<PageServerMessage>, k: nat)
    requires k < |events| && TouchesStatus(events[k])
    requires forall j :: k < j < |events| ==> !TouchesStatus(events[j])
    ensures var status := AppliedAll(feed, events).status;
      && (events[k].Welcome? <==> status == Connected)
      && (events[k].LiveBatch? || events[k].LiveTombstones? <==> status == Live)
      && (events[k].PageReplay? || events[k].Synced? <==> status == CaughtUp)
    decreases |events|
  {
    if k > 0 {
      StatusTellsTheEvents(Applied(feed, events[0]), events[1..], k - 1);
    } else {
      StatusIsLeftAlone(Applied(feed, events[0]), events[1..]);
    }
  }

  // ---- What insertion and trimming do -------------------------------------

  /** The seqs a list holds. */
  function Seqs(items: seq<StrokeBatch>): set<nat> {
    if items == [] then {} else {items[0].seqNo} + Seqs(items[1..])
  }

  lemma {:induction false} InsertedMembers(items: seq<StrokeBatch>, batch: StrokeBatch)
    requires Ascending(items)
    ensures forall b :: b in Inserted(items, batch) <==> b == batch || (b in items && b.seqNo != batch.seqNo)
  {
    if items != [] {
      assert items == [items[0]] + items[1..];
      if items[0].seqNo < batch.seqNo { InsertedMembers(items[1..], batch); }
    }
  }

  /** Insertion keeps the list strictly ascending, puts the new batch at its
      seq, and keeps every batch with another seq. */
  lemma {:induction false} InsertedSpec(items: seq<StrokeBatch>, batch: StrokeBatch)
    requires Ascending(items)
    ensures Ascending(Inserted(items, batch))
    ensures forall b :: b in Inserted(items, batch) <==> b == batch || (b in items && b.seqNo != batch.seqNo)
  {
    InsertedMembers(items, batch);
    if items != [] && items[0].seqNo < batch.seqNo {
      InsertedSpec(items[1..], batch);
      var rest := Inserted(items[1..], batch);
      forall j | 0 <= j < |rest| ensures items[0].seqNo < rest[j].seqNo { assert rest[j] in rest; }
    }
  }

  lemma {:induction false} InsertedAt(items: seq<StrokeBatch>, batch: StrokeBatch, k: nat)
    requires k <= |items| && Ascending(items)
    requires forall i :: 0 <= i < k ==> items[i].seqNo < batch.seqNo
    requires forall i :: k <= i < |items| ==> items[i].seqNo > batch.seqNo
    ensures Inserted(items, batch) == items[..k] + [batch] + items[k..]
  {
    if k > 0 {
      InsertedAt(items[1..], batch, k - 1);
      assert items[..k] == [items[0]] + items[1..][..k - 1];
      assert items[k..] == items[1..][k - 1..];
    }
  }

  lemma {:induction false} ReplacedAt(items: seq<StrokeBatch>, batch: StrokeBatch, k: nat)
    requires k < |items| && Ascending(items) && items[k].seqNo == batch.seqNo
    ensures Inserted(items, batch) == items[k := batch]
  {
    if k > 0 {
      ReplacedAt(items[1..], batch, k - 1);
      assert items[k := batch] == [items[0]] + items[1..][k - 1 := batch];
    }
  }

  lemma {:induction false} RetainedSpec(items: seq<StrokeBatch>, gone: set<string>)
    ensures |Retained(items, gone)| == |items|
    ensures forall i :: 0 <= i < |items| ==> Retained(items, gone)[i] == Trimmed(items[i], gone)
    ensures Ascending(items) ==> Ascending(Retained(items, gone))
  {
    if items != [] { RetainedSpec(items[1..], gone); }
  }

  // ---- The feed as it runs ------------------------------------------------

  /** `binary_search_by_key`, then replace or insert. */
  method InsertBatch(items: seq<StrokeBatch>, batch: StrokeBatch) returns (r: seq<StrokeBatch>)
    requires Ascending(items)
    ensures r == Inserted(items, batch) && Ascending(r)
  {
    var lo, hi := 0, |items|;
    while lo < hi
      invariant 0 <= lo <= hi <= |items|
      invariant forall i :: 0 <= i < lo ==> items[i].seqNo < batch.seqNo
      invariant forall i :: hi <= i < |items| ==> items[i].seqNo > batch.seqNo
    {
      var mid := lo + (hi - lo) / 2;
      if items[mid].seqNo == batch.seqNo {
        ReplacedAt(items, batch, mid);
        InsertedSpec(items, batch);
        return items[mid := batch];
      } else if items[mid].seqNo < batch.seqNo {
        lo := mid + 1;
      } else {
        hi := mid;
      }
    }
    InsertedAt(items, batch, lo);
    InsertedSpec(items, batch);
    r := items[..lo] + [batch] + items[lo..];
  }

  method RetainSurviving(items: seq<StrokeBatch>, removed: set<string>) returns (r: seq<StrokeBatch>)
    ensures r == Retained(items, removed)
  {
    r := items;
    RetainedSpec(items, removed);
    for i := 0 to |items|
      invariant |r| == |items|
      invariant forall k :: 0 <= k < i ==> r[k] == Trimmed(items[k], removed)
      invariant forall k :: i <= k < |items| ==> r[k] == items[k]
    {
      r := r[i := Trimmed(r[i], removed)];
    }
  }

  class PageFeed {
    var batches: seq<StrokeBatch>
    var status: Status
    var error: Option<string>
    var lastSeq: nat
    var paper: Paper

    ghost function State(): Feed reads this { Feed(batches, status, error, lastSeq, paper) }

    ghost predicate Valid() reads this { Ascending(batches) }

    constructor (initialPaper: Paper)
      ensures Valid() && State() == Opened(initialPaper)
    {
      batches, status, error, lastSeq, paper := [], Connecting, None, 0, initialPaper;
    }

    method ApplyPageEvent(event: PageServerMessage)
      requires Valid()
      modifies this
      ensures Valid() && State() == Applied(old(State()), event)
    {
      paper := NextPaper(paper, event);
      match event {
        case Welcome(_, head, _, _) =>
          status := Connected;
          lastSeq := Min(head, lastSeq);
        case LiveBatch(batch) =>
          batches := InsertBatch(batches, batch);
          lastSeq := Max(lastSeq, batch.seqNo);
          status, error := Live, None;
        case PageReplay(head, replayed, tombstones) =>
          MergeReplay(replayed, TombstonedIds(tombstones));
          lastSeq := Max(lastSeq, head);
          status, error := CaughtUp, None;
        case Synced(head) =>
          lastSeq := Max(lastSeq, head);
          status, error := CaughtUp, None;
        case LiveTombstones(tombstones) =>
          RetainedSpec(batches, ToSet(tombstones.strokeIds));
          batches := RetainSurviving(batches, ToSet(tombstones.strokeIds));
          status := Live;
        case ErrorMessage(_, message) =>
          error := Some(message);
        case _ =>
      }
    }

    /** A replay is merged, not assigned, and its tombstones reach the whole page. */
    method MergeReplay(replayed: seq<StrokeBatch>, removed: set<string>)
      requires Valid()
      modifies this`batches
      ensures Valid() && batches == Retained(InsertedAll(old(batches), replayed), removed)
    {
      for i := 0 to |replayed|
        invariant Ascending(batches)
        invariant InsertedAll(batches, replayed[i..]) == InsertedAll(old(batches), replayed)
      {
        assert replayed[i..][1..] == replayed[i + 1..];
        batches := InsertBatch(batches, replayed[i]);
      }
      RetainedSpec(batches, removed);
      batches := RetainSurviving(batches, removed);
    }
  }
}
