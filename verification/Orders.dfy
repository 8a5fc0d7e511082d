/** What becomes of a viewer when news is not published in the order of its
    commits: which news may overtake which, and exactly when an order is
    harmless. */
module Orders {
  import opened Protocol
  import opened Store
  import opened Viewer
  import opened History
  import opened Convergence
  import opened Pending

  // ---- Overtaking ---------------------------------------------------------

  /** `n` may be applied before `m` instead of after it: it erases no stroke that
      `m` brings, and does not set another paper. */
  ghost predicate MayOvertake(n: PageServerMessage, m: PageServerMessage) {
    && (forall b, s :: b in Carried(m) && s in b.strokes ==> s.id !in Erases(n))
    && (m.PaperChanged? && n.PaperChanged? ==> m.paper == n.paper)
  }

  ghost predicate OvertakesAll(n: PageServerMessage, over: seq<PageServerMessage>) {
    forall m :: m in over ==> MayOvertake(n, m)
  }

  /** A message that only brings news: of a commit or of the lease. */
  ghost predicate IsNews(m: PageServerMessage) {
    m.LiveBatch? || m.LiveTombstones? || m.PaperChanged? || m.LeaseChanged?
  }

  lemma PairDeliverable(m: PageServerMessage, n: PageServerMessage, back: seq<PageServerMessage>, t: Tables)
    requires Deliverable([m] + ([n] + back), t) && MayOvertake(n, m)
    ensures Deliverable([n] + ([m] + back), t)
  {
    assert ([m] + ([n] + back))[1..] == [n] + back && ([n] + back)[1..] == back;
    forall b | b in Carried(m) ensures Matches(b, t) && Covered(b, t.tombstones.Keys, Erases(m) + ErasedIn(back)) {
      assert Covered(b, t.tombstones.Keys, Erases(m) + ErasedIn([n] + back));
    }
    DeliverableCons(m, back, t);
    forall b | b in Carried(n)
      ensures Matches(b, t) && Covered(b, t.tombstones.Keys, Erases(n) + ErasedIn([m] + back))
    {
      assert Covered(b, t.tombstones.Keys, Erases(n) + ErasedIn(back));
    }
    DeliverableCons(n, [m] + back, t);
  }

  lemma PairTotals(m: PageServerMessage, n: PageServerMessage, back: seq<PageServerMessage>)
    ensures SeqsIn([m] + ([n] + back)) == SeqsIn([n] + ([m] + back))
    ensures ErasedIn([m] + ([n] + back)) == ErasedIn([n] + ([m] + back))
  {
    assert ([m] + ([n] + back))[1..] == [n] + back && ([n] + back)[1..] == back;
    assert ([n] + ([m] + back))[1..] == [m] + back && ([m] + back)[1..] == back;
  }

  lemma PairPaper(m: PageServerMessage, n: PageServerMessage, back: seq<PageServerMessage>, paper: Paper)
    requires MayOvertake(n, m) && IsNews(m) && IsNews(n)
    ensures FinalPaper(paper, [m] + ([n] + back)) == FinalPaper(paper, [n] + ([m] + back))
  {
    assert ([m] + ([n] + back))[1..] == [n] + back && ([n] + back)[1..] == back;
    assert ([n] + ([m] + back))[1..] == [m] + back && ([m] + back)[1..] == back;
  }

  ghost predicate SameTotals(a: seq<PageServerMessage>, b: seq<PageServerMessage>) {
    && SeqsIn(a) == SeqsIn(b) && ErasedIn(a) == ErasedIn(b)
    && forall p :: FinalPaper(p, a) == FinalPaper(p, b)
  }

  /** Behind the same front, equal totals stay equal and deliverable stays
      deliverable. */
  lemma {:induction false} BehindFront(
      front: seq<PageServerMessage>, a: seq<PageServerMessage>, b: seq<PageServerMessage>, t: Tables)
    requires SameTotals(a, b) && (Deliverable(front + a, t) ==> Deliverable(b, t))
    ensures SameTotals(front + a, front + b)
    ensures Deliverable(front + a, t) ==> Deliverable(front + b, t)
    decreases |front|
  {
    if front == [] {
      assert front + a == a && front + b == b;
    } else {
      var m, rest := front[0], front[1..];
      assert front + a == [m] + (rest + a) && ([m] + (rest + a))[1..] == rest + a;
      assert front + b == [m] + (rest + b) && ([m] + (rest + b))[1..] == rest + b;
      if Deliverable(front + a, t) {
        BehindFront(rest, a, b, t);
        SameHeadMoreBehind(m, rest + a, rest + b, t);
      } else {
        TotalsBehindFront(front, a, b);
      }
    }
  }

  lemma TotalsBehindFront(front: seq<PageServerMessage>, a: seq<PageServerMessage>, b: seq<PageServerMessage>)
    requires SameTotals(a, b)
    ensures SameTotals(front + a, front + b)
  {
    forall p ensures FinalPaper(p, front + a) == FinalPaper(p, front + b) {
      Concats(front, a, p);
      Concats(front, b, p);
    }
    Concats(front, a, BlankPaper);
    Concats(front, b, BlankPaper);
  }

  /** News that may overtake what is before it can be applied first. */
  lemma {:induction false} Overtake(
      over: seq<PageServerMessage>, n: PageServerMessage, back: seq<PageServerMessage>, t: Tables)
    requires OvertakesAll(n, over) && IsNews(n) && forall m :: m in over ==> IsNews(m)
    ensures SameTotals(over + ([n] + back), [n] + (over + back))
    ensures Deliverable(over + ([n] + back), t) ==> Deliverable([n] + (over + back), t)
    decreases |over|
  {
    if over == [] {
      assert over + ([n] + back) == [n] + back && over + back == back;
    } else {
      var m, rest := over[0], over[1..];
      var late, early := rest + ([n] + back), [n] + (rest + back);
      assert over + ([n] + back) == [m] + late && ([m] + late)[1..] == late;
      assert over + back == [m] + (rest + back);
      Overtake(rest, n, back, t);
      BehindFront([m], late, early, t);
      PairTotals(m, n, rest + back);
      forall p ensures FinalPaper(p, [m] + early) == FinalPaper(p, [n] + ([m] + (rest + back))) {
        PairPaper(m, n, rest + back, p);
      }
      if Deliverable([m] + late, t) {
        PairDeliverable(m, n, rest + back, t);
      }
    }
  }

  // ---- What any messages make of a page -----------------------------------

  /** The batch a list holds under a seq. */
  function Version(items: seq<StrokeBatch>, s: nat): Option<StrokeBatch> {
    if items == [] then None
    else if items[0].seqNo == s then Some(items[0])
    else Version(items[1..], s)
  }

  /** The last batch of a seq that a list brings. */
  function LastOf(items: seq<StrokeBatch>, s: nat): Option<StrokeBatch> {
    if items == [] then None
    else
      var later := LastOf(items[1..], s);
      if later.Some? then later else if items[0].seqNo == s then Some(items[0]) else None
  }

  function Brought(m: PageServerMessage, s: nat): Option<StrokeBatch> { LastOf(Carried(m), s) }

  function Kept(v: Option<StrokeBatch>, gone: set<string>): Option<StrokeBatch> {
    if v.Some? then Some(Trimmed(v.value, gone)) else None
  }

  /** What a message does to the batch under one seq. */
  function Revised(v: Option<StrokeBatch>, m: PageServerMessage, s: nat): Option<StrokeBatch> {
    Kept(if Brought(m, s).Some? then Brought(m, s) else v, Erases(m))
  }

  function RevisedAll(v: Option<StrokeBatch>, messages: seq<PageServerMessage>, s: nat): Option<StrokeBatch>
    decreases |messages|
  {
    if messages == [] then v else RevisedAll(Revised(v, messages[0], s), messages[1..], s)
  }

  lemma {:induction false} VersionOfInserted(items: seq<StrokeBatch>, batch: StrokeBatch, s: nat)
    requires Ascending(items)
    ensures Version(Inserted(items, batch), s) == if batch.seqNo == s then Some(batch) else Version(items, s)
  {
    if items != [] && items[0].seqNo < batch.seqNo {
      VersionOfInserted(items[1..], batch, s);
    }
  }

  lemma {:induction false} VersionOfMerged(items: seq<StrokeBatch>, batches: seq<StrokeBatch>, s: nat)
    requires Ascending(items)
    ensures Version(InsertedAll(items, batches), s)
         == if LastOf(batches, s).Some? then LastOf(batches, s) else Version(items, s)
    decreases |batches|
  {
    if batches != [] {
      InsertedSpec(items, batches[0]);
      VersionOfInserted(items, batches[0], s);
      VersionOfMerged(Inserted(items, batches[0]), batches[1..], s);
    }
  }

  lemma {:induction false} VersionOfRetained(items: seq<StrokeBatch>, gone: set<string>, s: nat)
    ensures Version(Retained(items, gone), s) == Kept(Version(items, s), gone)
  {
    if items != [] {
      VersionOfRetained(items[1..], gone, s);
      assert Retained(items, gone)[1..] == Retained(items[1..], gone);
    }
  }

  lemma VersionIsRevised(feed: Feed, m: PageServerMessage, s: nat)
    requires Ascending(feed.batches)
    ensures Ascending(Applied(feed, m).batches) && Applied(feed, m).paper == NextPaper(feed.paper, m)
    ensures Version(Applied(feed, m).batches, s) == Revised(Version(feed.batches, s), m, s)
  {
    AppliedShape(feed, m);
    InsertedAllMembers(feed.batches, Carried(m));
    VersionOfMerged(feed.batches, Carried(m), s);
    VersionOfRetained(InsertedAll(feed.batches, Carried(m)), Erases(m), s);
    RetainedSpec(InsertedAll(feed.batches, Carried(m)), Erases(m));
  }

  /** Messages applied in order revise each seq on its own. */
  lemma {:induction false} VersionsAreRevised(feed: Feed, messages: seq<PageServerMessage>, s: nat)
    requires Ascending(feed.batches)
    ensures Ascending(AppliedAll(feed, messages).batches)
    ensures Version(AppliedAll(feed, messages).batches, s) == RevisedAll(Version(feed.batches, s), messages, s)
    ensures AppliedAll(feed, messages).paper == FinalPaper(feed.paper, messages)
    decreases |messages|
  {
    if messages != [] {
      VersionIsRevised(feed, messages[0], s);
      VersionsAreRevised(Applied(feed, messages[0]), messages[1..], s);
    }
  }

  /** Some batch of the messages has this seq. */
  ghost predicate Brings(messages: seq<PageServerMessage>, s: nat) {
    exists m :: m in messages && Brought(m, s).Some?
  }

  /** The last batch of a seq that the messages bring, if any, has every stroke of
      it that the page has erased erased by its own message or a later one. */
  ghost predicate LastIsErased(messages: seq<PageServerMessage>, s: nat, t: Tables) {
    forall i :: 0 <= i < |messages| && Brought(messages[i], s).Some? && !Brings(messages[i + 1..], s) ==>
      Covered(Brought(messages[i], s).value, t.tombstones.Keys, Erases(messages[i]) + ErasedIn(messages[i + 1..]))
  }

  lemma BringsTail(messages: seq<PageServerMessage>, s: nat)
    requires messages != []
    ensures Brings(messages, s) <==> Brought(messages[0], s).Some? || Brings(messages[1..], s)
  {
    assert messages == [messages[0]] + messages[1..];
  }

  lemma LastIsErasedTail(messages: seq<PageServerMessage>, s: nat, t: Tables)
    requires messages != []
    ensures LastIsErased(messages, s, t) <==>
      && LastIsErased(messages[1..], s, t)
      && (Brought(messages[0], s).Some? && !Brings(messages[1..], s) ==>
            Covered(Brought(messages[0], s).value, t.tombstones.Keys, Erases(messages[0]) + ErasedIn(messages[1..])))
  {
    var rest := messages[1..];
    if LastIsErased(messages, s, t) {
      forall i | 0 <= i < |rest| && Brought(rest[i], s).Some? && !Brings(rest[i + 1..], s)
        ensures Covered(Brought(rest[i], s).value, t.tombstones.Keys, Erases(rest[i]) + ErasedIn(rest[i + 1..]))
      {
        assert messages[i + 1] == rest[i] && messages[(i + 1) + 1..] == rest[i + 1..];
      }
    }
    if LastIsErased(rest, s, t) {
      forall i | 0 < i < |messages| && Brought(messages[i], s).Some? && !Brings(messages[i + 1..], s)
        ensures Covered(
                  Brought(messages[i], s).value, t.tombstones.Keys, Erases(messages[i]) + ErasedIn(messages[i + 1..]))
      {
        assert rest[i - 1] == messages[i] && rest[(i - 1) + 1..] == messages[i + 1..];
      }
    }
  }

  /** A stored batch is as the page has it exactly when nothing of it is erased. */
  lemma RightIffErased(b: StrokeBatch, t: Tables)
    requires Matches(b, t)
    ensures b == Projection(t)[b.seqNo - 1] <==> Covered(b, t.tombstones.Keys, {})
  {
    SurvivingMembers(b.strokes, t.tombstones.Keys);
    if Covered(b, t.tombstones.Keys, {}) {
      SurvivingAll(b.strokes, t.tombstones.Keys);
    }
  }

  lemma TrimmedCovered(b: StrokeBatch, gone: set<string>, erased: set<string>, cover: set<string>)
    ensures Covered(Trimmed(b, erased), gone, cover) <==> Covered(b, gone, erased + cover)
  {
    SurvivingMembers(b.strokes, erased);
  }

  /** A batch that the messages bring, or else the one held, is erased from enough
      to end as the page has it. */
  ghost predicate ComesRight(v: Option<StrokeBatch>, messages: seq<PageServerMessage>, s: nat, t: Tables) {
    if Brings(messages, s) then LastIsErased(messages, s, t)
    else v.Some? && Covered(v.value, t.tombstones.Keys, ErasedIn(messages))
  }

  lemma {:induction false} LastOfIsHeld(items: seq<StrokeBatch>, s: nat)
    ensures LastOf(items, s).Some? <==> s in Seqs(items)
    ensures LastOf(items, s).Some? ==> LastOf(items, s).value in items && LastOf(items, s).value.seqNo == s
  {
    if items != [] {
      LastOfIsHeld(items[1..], s);
      assert items == [items[0]] + items[1..];
    }
  }

  lemma RevisedMatches(v: Option<StrokeBatch>, m: PageServerMessage, s: nat, t: Tables)
    requires v.Some? ==> Matches(v.value, t) && v.value.seqNo == s
    requires Erases(m) <= t.tombstones.Keys && forall b :: b in Carried(m) ==> Matches(b, t)
    ensures Revised(v, m, s).Some? ==> Matches(Revised(v, m, s).value, t) && Revised(v, m, s).value.seqNo == s
  {
    LastOfIsHeld(Carried(m), s);
    var b := if Brought(m, s).Some? then Brought(m, s) else v;
    if b.Some? {
      TrimmedStillMatches(b.value, t, Erases(m));
    }
  }

  lemma ComesRightTail(v: Option<StrokeBatch>, messages: seq<PageServerMessage>, s: nat, t: Tables)
    requires messages != []
    ensures ComesRight(v, messages, s, t) <==> ComesRight(Revised(v, messages[0], s), messages[1..], s, t)
  {
    var m, rest := messages[0], messages[1..];
    BringsTail(messages, s);
    LastIsErasedTail(messages, s, t);
    var b := if Brought(m, s).Some? then Brought(m, s) else v;
    if b.Some? {
      TrimmedCovered(b.value, t.tombstones.Keys, Erases(m), ErasedIn(rest));
    }
    if !Brings(rest, s) {
      NoneBrought(rest, s, t);
    }
  }

  lemma NoneBrought(messages: seq<PageServerMessage>, s: nat, t: Tables)
    requires !Brings(messages, s)
    ensures LastIsErased(messages, s, t)
  {
    forall i | 0 <= i < |messages| ensures Brought(messages[i], s).None? { assert messages[i] in messages; }
  }

  /** The messages bring stored batches and erase what the page has erased. */
  ghost predicate OfThePage(messages: seq<PageServerMessage>, t: Tables) {
    forall m :: m in messages ==> Erases(m) <= t.tombstones.Keys && forall b :: b in Carried(m) ==> Matches(b, t)
  }

  /** Under one seq, messages of any kind and in any order end with the page's
      batch exactly when the last one they bring, or the one held if they bring
      none, is erased from enough. */
  lemma {:induction false} RevisedRightIff(
      v: Option<StrokeBatch>, messages: seq<PageServerMessage>, s: nat, t: Tables)
    requires 1 <= s <= |t.batches| && OfThePage(messages, t)
    requires v.Some? ==> Matches(v.value, t) && v.value.seqNo == s
    ensures RevisedAll(v, messages, s) == Some(Projection(t)[s - 1]) <==> ComesRight(v, messages, s, t)
    decreases |messages|
  {
    if messages == [] {
      if v.Some? { RightIffErased(v.value, t); }
    } else {
      assert messages[0] in messages;
      RevisedMatches(v, messages[0], s, t);
      ComesRightTail(v, messages, s, t);
      RevisedRightIff(Revised(v, messages[0], s), messages[1..], s, t);
    }
  }

  /** The messages name a paper. */
  ghost predicate NamesPaper(messages: seq<PageServerMessage>) {
    exists m :: m in messages && Names(m)
  }

  predicate Names(m: PageServerMessage) { m.Welcome? || m.PaperChanged? }

  /** The last paper the messages name, if any, is this one. */
  ghost predicate LastPaperIs(messages: seq<PageServerMessage>, paper: Paper) {
    forall i :: 0 <= i < |messages| && Names(messages[i]) && !NamesPaper(messages[i + 1..]) ==>
                  messages[i].paper == paper
  }

  lemma LastPaperIsTail(messages: seq<PageServerMessage>, paper: Paper)
    requires messages != []
    ensures NamesPaper(messages) <==> Names(messages[0]) || NamesPaper(messages[1..])
    ensures LastPaperIs(messages, paper) <==>
      && LastPaperIs(messages[1..], paper)
      && (Names(messages[0]) && !NamesPaper(messages[1..]) ==> messages[0].paper == paper)
  {
    var rest := messages[1..];
    assert messages == [messages[0]] + rest;
    if LastPaperIs(messages, paper) {
      forall i | 0 <= i < |rest| && Names(rest[i]) && !NamesPaper(rest[i + 1..]) ensures rest[i].paper == paper {
        assert messages[i + 1] == rest[i] && messages[(i + 1) + 1..] == rest[i + 1..];
      }
    }
    if LastPaperIs(rest, paper) {
      forall i | 0 < i < |messages| && Names(messages[i]) && !NamesPaper(messages[i + 1..])
        ensures messages[i].paper == paper
      {
        assert rest[i - 1] == messages[i] && rest[(i - 1) + 1..] == messages[i + 1..];
      }
    }
  }

  /** The last paper named, or the one held if none is, is the page's. */
  ghost predicate PaperComesRight(held: Paper, messages: seq<PageServerMessage>, paper: Paper) {
    if NamesPaper(messages) then LastPaperIs(messages, paper) else held == paper
  }

  lemma {:induction false} PaperRightIff(messages: seq<PageServerMessage>, held: Paper, paper: Paper)
    ensures FinalPaper(held, messages) == paper <==> PaperComesRight(held, messages, paper)
    decreases |messages|
  {
    if messages != [] {
      LastPaperIsTail(messages, paper);
      PaperRightIff(messages[1..], NextPaper(held, messages[0]), paper);
      if !NamesPaper(messages[1..]) { NoneNamed(messages[1..], paper); }
    }
  }

  lemma NoneNamed(messages: seq<PageServerMessage>, paper: Paper)
    requires !NamesPaper(messages)
    ensures LastPaperIs(messages, paper)
  {
    forall i | 0 <= i < |messages| ensures !Names(messages[i]) { assert messages[i] in messages; }
  }

  lemma {:induction false} DeliverableIsOfThePage(messages: seq<PageServerMessage>, t: Tables)
    requires Deliverable(messages, t)
    ensures OfThePage(messages, t)
    decreases |messages|
  {
    if messages != [] {
      DeliverableIsOfThePage(messages[1..], t);
      assert messages == [messages[0]] + messages[1..];
    }
  }

  lemma MessageKeepsMatch(feed: Feed, m: PageServerMessage, t: Tables)
    requires AllMatch(feed.batches, t) && OfThePage([m], t)
    ensures AllMatch(Applied(feed, m).batches, t)
  {
    assert m in [m];
    AppliedShape(feed, m);
    MergedMatch(feed.batches, Carried(m), t);
    RetainedMatch(InsertedAll(feed.batches, Carried(m)), Erases(m), t);
  }

  lemma {:induction false} MessagesKeepMatch(feed: Feed, messages: seq<PageServerMessage>, t: Tables)
    requires AllMatch(feed.batches, t) && OfThePage(messages, t)
    ensures AllMatch(AppliedAll(feed, messages).batches, t)
    decreases |messages|
  {
    if messages != [] {
      assert messages[0] in messages;
      MessageKeepsMatch(feed, messages[0], t);
      MessagesKeepMatch(Applied(feed, messages[0]), messages[1..], t);
    }
  }

  lemma {:induction false} VersionAt(items: seq<StrokeBatch>, i: nat)
    requires Ascending(items) && i < |items|
    ensures Version(items, items[i].seqNo) == Some(items[i])
  {
    if i > 0 { VersionAt(items[1..], i - 1); }
  }

  lemma {:induction false} VersionIsHeld(items: seq<StrokeBatch>, s: nat)
    ensures Version(items, s).Some? <==> s in Seqs(items)
    ensures Version(items, s).Some? ==> Version(items, s).value in items && Version(items, s).value.seqNo == s
  {
    if items != [] {
      VersionIsHeld(items[1..], s);
      assert items == [items[0]] + items[1..];
    }
  }

  /** The list has the page's version of each seq. */
  ghost predicate EachIsRight(items: seq<StrokeBatch>, t: Tables) {
    forall s: nat :: 1 <= s <= |t.batches| ==> Version(items, s) == Some(Projection(t)[s - 1])
  }

  lemma PageBySeq(items: seq<StrokeBatch>, t: Tables)
    requires AllMatch(items, t)
    ensures items == Projection(t) <==> EachIsRight(items, t)
  {
    var page := Projection(t);
    if items == page {
      forall s: nat | 1 <= s <= |t.batches| ensures Version(items, s) == Some(page[s - 1]) {
        VersionAt(items, s - 1);
      }
    }
    if EachIsRight(items, t) {
      forall s: nat | 1 <= s <= |t.batches| ensures s in Seqs(items) { VersionIsHeld(items, s); }
      forall i | 0 <= i < |items| ensures 1 <= items[i].seqNo <= |t.batches| { assert items[i] in items; }
      FullAscending(items, |t.batches|);
      forall i | 0 <= i < |items| ensures items[i] == page[i] { VersionAt(items, i); }
      assert items == page;
    }
  }

  /** Each seq of the page comes right. */
  ghost predicate InkComesRight(items: seq<StrokeBatch>, messages: seq<PageServerMessage>, t: Tables) {
    forall s: nat :: 1 <= s <= |t.batches| ==> ComesRight(Version(items, s), messages, s, t)
  }

  lemma InkIsRightIff(feed: Feed, messages: seq<PageServerMessage>, t: Tables)
    requires AllMatch(feed.batches, t) && OfThePage(messages, t)
    ensures EachIsRight(AppliedAll(feed, messages).batches, t) <==> InkComesRight(feed.batches, messages, t)
  {
    forall s: nat | 1 <= s <= |t.batches|
      ensures Version(AppliedAll(feed, messages).batches, s) == Some(Projection(t)[s - 1])
         <==> ComesRight(Version(feed.batches, s), messages, s, t)
    {
      VersionsAreRevised(feed, messages, s);
      VersionIsHeld(feed.batches, s);
      RevisedRightIff(Version(feed.batches, s), messages, s, t);
    }
  }

  /** Exactly when messages bring a viewer to the page, whatever they are and in
      whatever order, the viewer holding any stored batches: the ink if and only
      if each seq comes right, the paper if and only if the last one named, or
      the one held, is the page's. */
  lemma ComesRightIff(feed: Feed, messages: seq<PageServerMessage>, t: Tables)
    requires AllMatch(feed.batches, t) && OfThePage(messages, t)
    ensures AppliedAll(feed, messages).batches == Projection(t) <==> InkComesRight(feed.batches, messages, t)
    ensures AppliedAll(feed, messages).paper == t.paper <==> PaperComesRight(feed.paper, messages, t.paper)
  {
    MessagesKeepMatch(feed, messages, t);
    PageBySeq(AppliedAll(feed, messages).batches, t);
    InkIsRightIff(feed, messages, t);
    VersionsAreRevised(feed, messages, 0);
    PaperRightIff(messages, feed.paper, t.paper);
  }

  // ---- Which orders are harmless ------------------------------------------

  lemma {:induction false} ErasedByMember(messages: seq<PageServerMessage>)
    ensures forall id :: id in ErasedIn(messages) <==> exists m :: m in messages && id in Erases(m)
    decreases |messages|
  {
    if messages != [] {
      ErasedByMember(messages[1..]);
      assert messages == [messages[0]] + messages[1..];
    }
  }

  lemma {:induction false} BroughtByMember(messages: seq<PageServerMessage>, s: nat)
    ensures s in SeqsIn(messages) <==> Brings(messages, s)
    decreases |messages|
  {
    if messages != [] {
      BringsTail(messages, s);
      LastOfIsHeld(Carried(messages[0]), s);
      BroughtByMember(messages[1..], s);
    }
  }

  lemma SameMembers(a: seq<PageServerMessage>, b: seq<PageServerMessage>)
    requires multiset(a) == multiset(b)
    ensures forall m :: m in a <==> m in b
    ensures ErasedIn(a) == ErasedIn(b) && SeqsIn(a) == SeqsIn(b)
  {
    forall m ensures m in a <==> m in b {
      assert m in a <==> m in multiset(a);
      assert m in b <==> m in multiset(b);
    }
    ErasedByMember(a);
    ErasedByMember(b);
    forall s: nat ensures s in SeqsIn(a) <==> s in SeqsIn(b) {
      BroughtByMember(a, s);
      BroughtByMember(b, s);
    }
  }

  /** The last batch the messages bring for each seq is erased from enough. */
  ghost predicate LastsAreErased(messages: seq<PageServerMessage>, t: Tables) {
    forall s: nat :: 1 <= s <= |t.batches| && Brings(messages, s) ==> LastIsErased(messages, s, t)
  }

  lemma HeldComesRight(feed: Feed, pending: seq<PageServerMessage>, order: seq<PageServerMessage>, t: Tables, s: nat)
    requires Converging(feed, pending, t) && multiset(order) == multiset(pending)
    requires 1 <= s <= |t.batches| && !Brings(order, s)
    ensures ComesRight(Version(feed.batches, s), order, s, t)
  {
    SameMembers(order, pending);
    BroughtByMember(pending, s);
    assert Brings(order, s) == Brings(pending, s);
    assert s in Seqs(feed.batches) + SeqsIn(pending);
    VersionIsHeld(feed.batches, s);
  }

  lemma InkOrderIff(feed: Feed, pending: seq<PageServerMessage>, order: seq<PageServerMessage>, t: Tables)
    requires Converging(feed, pending, t) && multiset(order) == multiset(pending)
    ensures InkComesRight(feed.batches, order, t) <==> LastsAreErased(order, t)
  {
    forall s: nat | 1 <= s <= |t.batches|
      ensures ComesRight(Version(feed.batches, s), order, s, t) <==> (Brings(order, s) ==> LastIsErased(order, s, t))
    {
      if !Brings(order, s) { HeldComesRight(feed, pending, order, t, s); }
    }
  }

  lemma PaperOrderIff(held: Paper, pending: seq<PageServerMessage>, order: seq<PageServerMessage>, paper: Paper)
    requires FinalPaper(held, pending) == paper && multiset(order) == multiset(pending)
    ensures PaperComesRight(held, order, paper) <==> LastPaperIs(order, paper)
  {
    SameMembers(order, pending);
    assert NamesPaper(order) == NamesPaper(pending);
    PaperRightIff(pending, held, paper);
    if !NamesPaper(order) { NoneNamed(order, paper); }
  }

  /** What is under way to a converging viewer, applied in any other order, ends
      in the stored ink if and only if the last batch of each seq is erased from
      enough, and in the stored paper if and only if that is the last one named. */
  lemma OrderIsHarmlessIff(feed: Feed, pending: seq<PageServerMessage>, order: seq<PageServerMessage>, t: Tables)
    requires Converging(feed, pending, t) && multiset(order) == multiset(pending)
    ensures AppliedAll(feed, order).batches == Projection(t) <==> LastsAreErased(order, t)
    ensures AppliedAll(feed, order).paper == t.paper <==> LastPaperIs(order, t.paper)
  {
    DeliverableIsOfThePage(pending, t);
    SameMembers(order, pending);
    ComesRightIff(feed, order, t);
    InkOrderIff(feed, pending, order, t);
    PaperOrderIff(feed.paper, pending, order, t.paper);
  }
}
