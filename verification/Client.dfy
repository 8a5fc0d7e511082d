/** The viewer's side of the page channel: one connection after another, each
    resumed from the viewer's own cursor. */
module Client {
  import opened Protocol
  import opened Viewer

  const SOCKET_CLOSED := "page realtime socket closed"

  /** What one attempt to connect came to: it failed before the subscribe was
      sent, or it delivered some messages and then ended. */
  datatype Attempt =
    | Failed(reason: string)
    | Reached(messages: seq<PageServerMessage>, ending: string)

  /** The viewer after one attempt, and the reason it ended. */
  function Once(feed: Feed, a: Attempt): (Feed, string) {
    match a
    case Failed(reason) => (feed, reason)
    case Reached(messages, ending) => (AppliedAll(feed.(status := Subscribing), messages), ending)
  }

  function Lost(feed: Feed, reason: string): Feed {
    feed.(status := Reconnecting, error := Some(reason))
  }

  function Looped(feed: Feed, tries: seq<Attempt>): Feed
    decreases |tries|
  {
    if tries == [] then feed
    else
      var (next, reason) := Once(feed, tries[0]);
      Looped(Lost(next, reason), tries[1..])
  }

  /** The cursors the attempts resume from, in order. */
  function CursorsAsked(feed: Feed, tries: seq<Attempt>): seq<nat>
    decreases |tries|
  {
    if tries == [] then []
    else
      var (next, reason) := Once(feed, tries[0]);
      (if tries[0].Reached? then [feed.lastSeq] else []) + CursorsAsked(Lost(next, reason), tries[1..])
  }

  class PageChannel {
    const feed: PageFeed
    var attempts: nat

    constructor (feed: PageFeed)
      ensures this.feed == feed && attempts == 0
    {
      this.feed, attempts := feed, 0;
    }

    method PageRealtimeOnce(a: Attempt) returns (asked: Option<nat>, reason: string)
      requires feed.Valid()
      modifies feed
      ensures feed.Valid() && (feed.State(), reason) == Once(old(feed.State()), a)
      ensures asked == if a.Reached? then Some(old(feed.lastSeq)) else None
    {
      if a.Failed? { return None, a.reason; }
      asked := Some(feed.lastSeq);
      feed.status := Subscribing;
      ghost var start := feed.State();
      var i := 0;
      while i < |a.messages|
        invariant 0 <= i <= |a.messages| && feed.Valid()
        invariant AppliedAll(feed.State(), a.messages[i..]) == AppliedAll(start, a.messages)
      {
        assert a.messages[i..][1..] == a.messages[i + 1..];
        feed.ApplyPageEvent(a.messages[i]);
        i := i + 1;
      }
      reason := a.ending;
    }

    /** The loop over as many attempts as there are: none ever ends it. */
    method PageRealtimeLoop(tries: seq<Attempt>) returns (asked: seq<nat>)
      requires feed.Valid()
      modifies this, feed
      ensures feed.Valid() && feed.State() == Looped(old(feed.State()), tries)
      ensures asked == CursorsAsked(old(feed.State()), tries)
      ensures attempts == |tries|
    {
      attempts, asked := 0, [];
      var i := 0;
      while i < |tries|
        invariant 0 <= i <= |tries| && attempts == i && feed.Valid()
        invariant Looped(feed.State(), tries[i..]) == Looped(old(feed.State()), tries)
        invariant asked + CursorsAsked(feed.State(), tries[i..]) == CursorsAsked(old(feed.State()), tries)
      {
        assert tries[i..][1..] == tries[i + 1..];
        var cursor, reason := PageRealtimeOnce(tries[i]);
        if cursor.Some? { asked := asked + [cursor.value]; }
        attempts := attempts + 1;
        feed.error, feed.status := Some(reason), Reconnecting;
        i := i + 1;
      }
    }
  }

  predicate OnlyNews(messages: seq<PageServerMessage>) {
    forall m :: m in messages ==> !m.Welcome?
  }

  lemma {:induction false} CursorGrows(feed: Feed, messages: seq<PageServerMessage>)
    requires OnlyNews(messages)
    ensures feed.lastSeq <= AppliedAll(feed, messages).lastSeq
    decreases |messages|
  {
    if messages != [] {
      CursorGrows(Applied(feed, messages[0]), messages[1..]);
    }
  }

  /** Reconnecting loses nothing on screen: an attempt that brings only a welcome
      whose head is not below the cursor leaves ink and cursor as they were, and
      the cursor asked for never goes down while that is so. */
  lemma ResumeKeepsThePage(feed: Feed, welcome: PageServerMessage, news: seq<PageServerMessage>, ending: string)
    requires welcome.Welcome? && welcome.lastSeq >= feed.lastSeq && OnlyNews(news)
    ensures var (met, _) := Once(feed, Reached([welcome], ending));
      met.batches == feed.batches && met.lastSeq == feed.lastSeq && met.paper == welcome.paper
    ensures Once(feed, Reached([welcome] + news, ending)).0.lastSeq >= feed.lastSeq
  {
    var start := feed.(status := Subscribing);
    assert [welcome][1..] == [];
    assert AppliedAll(start, [welcome]) == Applied(start, welcome);
    AppliedAllConcat(start, [welcome], news);
    CursorGrows(Applied(start, welcome), news);
  }

  // ---- Over all attempts --------------------------------------------------

  /** All that the attempts delivered, in order. */
  function AllDelivered(tries: seq<Attempt>): seq<PageServerMessage> {
    if tries == [] then []
    else Delivered(tries[0]) + AllDelivered(tries[1..])
  }

  function Delivered(a: Attempt): seq<PageServerMessage> { if a.Reached? then a.messages else [] }

  predicate SamePage(a: Feed, b: Feed) { a.batches == b.batches && a.lastSeq == b.lastSeq && a.paper == b.paper }

  lemma {:induction false} SamePageStays(a: Feed, b: Feed, messages: seq<PageServerMessage>)
    requires SamePage(a, b)
    ensures SamePage(AppliedAll(a, messages), AppliedAll(b, messages))
    decreases |messages|
  {
    if messages != [] { SamePageStays(Applied(a, messages[0]), Applied(b, messages[0]), messages[1..]); }
  }

  lemma AttemptDelivers(feed: Feed, a: Attempt)
    ensures SamePage(Lost(Once(feed, a).0, Once(feed, a).1), AppliedAll(feed, Delivered(a)))
  {
    if a.Reached? {
      SamePageStays(feed.(status := Subscribing), feed, a.messages);
    }
  }

  /** However often the connection was lost, the ink, the cursor and the paper are
      those of all that was delivered, as if on one connection. */
  lemma {:induction false} AttemptsAddUp(feed: Feed, tries: seq<Attempt>)
    ensures SamePage(Looped(feed, tries), AppliedAll(feed, AllDelivered(tries)))
    decreases |tries|
  {
    if tries != [] {
      var (met, reason) := Once(feed, tries[0]);
      var first := Delivered(tries[0]);
      AttemptDelivers(feed, tries[0]);
      AttemptsAddUp(Lost(met, reason), tries[1..]);
      SamePageStays(Lost(met, reason), AppliedAll(feed, first), AllDelivered(tries[1..]));
      AppliedAllConcat(feed, first, AllDelivered(tries[1..]));
      assert AllDelivered(tries) == first + AllDelivered(tries[1..]);
    }
  }

  lemma {:induction false} AsksFromWhereItIs(feed: Feed, tries: seq<Attempt>, a: Attempt)
    ensures CursorsAsked(feed, tries + [a])
         == CursorsAsked(feed, tries) + if a.Reached? then [Looped(feed, tries).lastSeq] else []
    decreases |tries|
  {
    if tries == [] {
      assert tries + [a] == [a] && [a][1..] == [];
    } else {
      var (met, reason) := Once(feed, tries[0]);
      assert (tries + [a])[1..] == tries[1..] + [a];
      AsksFromWhereItIs(Lost(met, reason), tries[1..], a);
    }
  }

  /** Each attempt that gets to ask does so from the cursor that all delivered before
      it makes, and one that does not asks nothing. */
  lemma AsksFromTheCursor(feed: Feed, tries: seq<Attempt>, a: Attempt)
    ensures CursorsAsked(feed, tries + [a])
         == CursorsAsked(feed, tries) + if a.Reached? then [AppliedAll(feed, AllDelivered(tries)).lastSeq] else []
  {
    AsksFromWhereItIs(feed, tries, a);
    AttemptsAddUp(feed, tries);
  }

  /** And the viewer says that it reconnects, and why the last attempt ended. */
  lemma {:induction false} SaysWhyItReconnects(feed: Feed, tries: seq<Attempt>)
    requires tries != []
    ensures var last := tries[|tries| - 1];
      && Looped(feed, tries).status == Reconnecting
      && Looped(feed, tries).error == Some(if last.Failed? then last.reason else last.ending)
    decreases |tries|
  {
    if |tries| > 1 {
      var (met, reason) := Once(feed, tries[0]);
      SaysWhyItReconnects(Lost(met, reason), tries[1..]);
    }
  }
}
