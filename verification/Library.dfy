/** The page list of the library screen under a stream of library events, kept
    recent first by the time stamps' text. */
module Library {
  import opened Protocol
  import opened Ordering

  datatype Thumbnail =
    | Empty
    | Generating(sourceSeq: nat)
    | Available(sourceSeq: nat, url: string)
    | Failed(sourceSeq: nat)

  function ThumbnailSeq(t: Thumbnail): nat { if t.Empty? then 0 else t.sourceSeq }

  datatype PageSummary = PageSummary(
    id: string, title: string, createdAt: string, updatedAt: string, thumbnail: Thumbnail, paper: Paper)

  datatype LibraryEvent =
    | PageCreated(page: PageSummary)
    | PageDeleted(pageId: string)
    | PageThumbnailUpdated(pageId: string, thumbnail: Thumbnail)
    | PageUpdated(pageId: string, updatedAt: string)

  // ---- Sorting ------------------------------------------------------------

  ghost predicate RecentFirst(items: seq<PageSummary>) {
    forall i, j :: 0 <= i < j < |items| ==> AtMost(items[j].updatedAt, items[i].updatedAt)
  }

  ghost predicate UniqueIds(items: seq<PageSummary>) {
    forall i, j :: 0 <= i < j < |items| ==> items[i].id != items[j].id
  }

  /** Puts a page behind every page at least as recent. */
  function InsertRecent(items: seq<PageSummary>, page: PageSummary): (r: seq<PageSummary>)
    ensures |r| == |items| + 1
  {
    if items == [] || !Before(items[|items| - 1].updatedAt, page.updatedAt) then items + [page]
    else InsertRecent(items[..|items| - 1], page) + [items[|items| - 1]]
  }

  /** The stable sort by stamp, latest first. */
  function SortRecent(items: seq<PageSummary>): (r: seq<PageSummary>)
    ensures |r| == |items|
  {
    if items == [] then [] else InsertRecent(SortRecent(items[..|items| - 1]), items[|items| - 1])
  }

  lemma {:induction false} InsertPermutes(items: seq<PageSummary>, page: PageSummary)
    ensures multiset(InsertRecent(items, page)) == multiset(items) + multiset{page}
  {
    if items != [] && Before(items[|items| - 1].updatedAt, page.updatedAt) {
      var n := |items| - 1;
      InsertPermutes(items[..n], page);
      assert items == items[..n] + [items[n]];
    }
  }

  /** The sort loses no page and makes none up. */
  lemma {:induction false} SortPermutes(items: seq<PageSummary>)
    ensures multiset(SortRecent(items)) == multiset(items)
  {
    if items != [] {
      var n := |items| - 1;
      SortPermutes(items[..n]);
      InsertPermutes(SortRecent(items[..n]), items[n]);
      assert items == items[..n] + [items[n]];
    }
  }

  lemma SortMembers(items: seq<PageSummary>, p: PageSummary)
    ensures p in SortRecent(items) <==> p in items
  {
    SortPermutes(items);
    assert p in multiset(items) <==> p in items;
    assert p in multiset(SortRecent(items)) <==> p in SortRecent(items);
  }

  lemma AtMostChain(a: string, b: string, c: string)
    requires AtMost(a, b) && AtMost(b, c)
    ensures AtMost(a, c)
  {
    if a != b && b != c { Transitive(a, b, c); }
  }

  lemma {:induction false} InsertRecentOrders(items: seq<PageSummary>, page: PageSummary)
    requires RecentFirst(items)
    ensures RecentFirst(InsertRecent(items, page))
  {
    var r := InsertRecent(items, page);
    if items == [] {
    } else {
      var n := |items| - 1;
      var last := items[n];
      Trichotomy(last.updatedAt, page.updatedAt);
      if Before(last.updatedAt, page.updatedAt) {
        InsertRecentOrders(items[..n], page);
        InsertPermutes(items[..n], page);
        forall p | p in InsertRecent(items[..n], page) ensures AtMost(last.updatedAt, p.updatedAt) {
          assert p in multiset(InsertRecent(items[..n], page));
          if p != page {
            assert p in items[..n];
          }
        }
      } else {
        forall i | 0 <= i < |items| ensures AtMost(page.updatedAt, items[i].updatedAt) {
          if i < n { AtMostChain(page.updatedAt, last.updatedAt, items[i].updatedAt); }
        }
      }
    }
  }

  lemma {:induction false} SortOrders(items: seq<PageSummary>)
    ensures RecentFirst(SortRecent(items))
  {
    if items != [] {
      SortOrders(items[..|items| - 1]);
      InsertRecentOrders(SortRecent(items[..|items| - 1]), items[|items| - 1]);
    }
  }

  /** The pages of one stamp, in order. */
  function Stamped(items: seq<PageSummary>, stamp: string): seq<PageSummary> {
    if items == [] then []
    else
      var n := |items| - 1;
      Stamped(items[..n], stamp) + IfStamped(items[n], stamp)
  }

  /** Those of one page: itself or nothing. */
  function IfStamped(page: PageSummary, stamp: string): seq<PageSummary> {
    if page.updatedAt == stamp then [page] else []
  }

  lemma StampedMore(items: seq<PageSummary>, page: PageSummary, stamp: string)
    ensures Stamped(items + [page], stamp) == Stamped(items, stamp) + IfStamped(page, stamp)
  {
    assert (items + [page])[..|items|] == items;
  }

  lemma SwapEmpty(a: seq<PageSummary>, p: seq<PageSummary>, q: seq<PageSummary>)
    requires p == [] || q == []
    ensures a + p + q == a + q + p
  {
  }

  lemma {:induction false} InsertIsStable(items: seq<PageSummary>, page: PageSummary, stamp: string)
    ensures Stamped(InsertRecent(items, page), stamp) == Stamped(items, stamp) + IfStamped(page, stamp)
  {
    if items == [] || !Before(items[|items| - 1].updatedAt, page.updatedAt) {
      StampedMore(items, page, stamp);
    } else {
      var rest, last := items[..|items| - 1], items[|items| - 1];
      InsertIsStable(rest, page, stamp);
      StampedMore(InsertRecent(rest, page), last, stamp);
      Trichotomy(last.updatedAt, page.updatedAt);
      SwapEmpty(Stamped(rest, stamp), IfStamped(page, stamp), IfStamped(last, stamp));
    }
  }

  /** Pages of one stamp keep the order they had. */
  lemma {:induction false} SortIsStable(items: seq<PageSummary>, stamp: string)
    ensures Stamped(SortRecent(items), stamp) == Stamped(items, stamp)
  {
    if items != [] {
      var n := |items| - 1;
      SortIsStable(items[..n], stamp);
      InsertIsStable(SortRecent(items[..n]), items[n], stamp);
    }
  }

  // ---- The reducer --------------------------------------------------------

  function Without(items: seq<PageSummary>, id: string): seq<PageSummary> {
    if items == [] then []
    else
      var n := |items| - 1;
      Without(items[..n], id) + if items[n].id == id then [] else [items[n]]
  }

  /** The first page with the id, or the length when there is none. */
  function Position(items: seq<PageSummary>, id: string): (i: nat)
    ensures i <= |items|
    ensures i < |items| ==> items[i].id == id
    ensures forall k :: 0 <= k < i ==> items[k].id != id
  {
    if items == [] || items[0].id == id then 0 else 1 + Position(items[1..], id)
  }

  function Applied(items: seq<PageSummary>, e: LibraryEvent): seq<PageSummary> {
    match e
    case PageCreated(page) => SortRecent(Without(items, page.id) + [page])
    case PageDeleted(id) => Without(items, id)
    case PageThumbnailUpdated(id, thumbnail) =>
      var i := Position(items, id);
      if i < |items| && ThumbnailSeq(thumbnail) >= ThumbnailSeq(items[i].thumbnail)
      then items[i := items[i].(thumbnail := thumbnail)]
      else items
    case PageUpdated(id, stamp) =>
      var i := Position(items, id);
      if i == |items| || AtMost(stamp, items[i].updatedAt) then items
      else SortRecent(items[i := items[i].(updatedAt := stamp)])
  }

  class PageList {
    var items: seq<PageSummary>

    constructor (items: seq<PageSummary>)
      ensures this.items == items
    {
      this.items := items;
    }

    method Retain(id: string)
      modifies this
      ensures items == Without(old(items), id)
    {
      var kept: seq<PageSummary> := [];
      var i := 0;
      while i < |items|
        invariant 0 <= i <= |items| && items == old(items)
        invariant kept == Without(items[..i], id)
      {
        assert items[..i + 1][..i] == items[..i];
        if items[i].id != id { kept := kept + [items[i]]; }
        i := i + 1;
      }
      assert items[..i] == items;
      items := kept;
    }

    method Find(id: string) returns (index: nat)
      ensures index == Position(items, id)
    {
      index := 0;
      while index < |items|
        invariant 0 <= index <= |items|
        invariant Position(items, id) == index + Position(items[index..], id)
      {
        if items[index].id == id { return; }
        assert items[index..][1..] == items[index + 1..];
        index := index + 1;
      }
    }

    method Apply(e: LibraryEvent)
      modifies this
      ensures items == Applied(old(items), e)
    {
      match e {
        case PageCreated(page) =>
          Retain(page.id);
          items := SortRecent(items + [page]);
        case PageDeleted(id) => Retain(id);
        case PageThumbnailUpdated(id, thumbnail) =>
          var i := Find(id);
          if i < |items| && ThumbnailSeq(thumbnail) >= ThumbnailSeq(items[i].thumbnail) {
            items := items[i := items[i].(thumbnail := thumbnail)];
          }
        case PageUpdated(id, stamp) =>
          var i := Find(id);
          if i == |items| || AtMost(stamp, items[i].updatedAt) { return; }
          items := SortRecent(items[i := items[i].(updatedAt := stamp)]);
      }
    }
  }

  // ---- Ids and order are kept -----------------------------------------------

  ghost predicate Sound(items: seq<PageSummary>) { UniqueIds(items) && RecentFirst(items) }

  lemma {:induction false} WithoutMembers(items: seq<PageSummary>, id: string)
    ensures forall p :: p in Without(items, id) <==> p in items && p.id != id
  {
    if items != [] {
      var n := |items| - 1;
      WithoutMembers(items[..n], id);
      assert items == items[..n] + [items[n]];
    }
  }

  lemma {:induction false} WithoutStaysUnique(items: seq<PageSummary>, id: string)
    requires UniqueIds(items)
    ensures UniqueIds(Without(items, id))
  {
    if items != [] {
      var n := |items| - 1;
      WithoutStaysUnique(items[..n], id);
      WithoutMembers(items[..n], id);
    }
  }

  lemma {:induction false} WithoutStaysRecent(items: seq<PageSummary>, id: string)
    requires RecentFirst(items)
    ensures RecentFirst(Without(items, id))
  {
    if items != [] {
      var n := |items| - 1;
      WithoutStaysRecent(items[..n], id);
      WithoutMembers(items[..n], id);
    }
  }

  /** With unique ids, an id names at most one page. */
  lemma SameIdSamePage(items: seq<PageSummary>, p: PageSummary, q: PageSummary)
    requires UniqueIds(items) && p in items && q in items && p.id == q.id
    ensures p == q
  {
  }

  /** A list with the same pages has the same ids, each as often. */
  lemma {:induction false} PermutedStaysUnique(items: seq<PageSummary>, permuted: seq<PageSummary>)
    requires UniqueIds(items) && multiset(items) == multiset(permuted)
    ensures UniqueIds(permuted)
  {
    forall i, j | 0 <= i < j < |permuted| ensures permuted[i].id != permuted[j].id {
      var p, q := permuted[i], permuted[j];
      assert p in multiset(permuted) && q in multiset(permuted);
      if p.id == q.id {
        SameIdSamePage(items, p, q);
        TwiceIn(permuted, i, j);
        OnceIn(items, p);
      }
    }
  }

  lemma TwiceIn(items: seq<PageSummary>, i: nat, j: nat)
    requires i < j < |items| && items[i] == items[j]
    ensures multiset(items)[items[i]] >= 2
  {
    assert items == items[..i] + [items[i]] + items[i + 1..j] + [items[j]] + items[j + 1..];
  }

  lemma OnceIn(items: seq<PageSummary>, p: PageSummary)
    requires UniqueIds(items) && p in items
    ensures multiset(items)[p] == 1
  {
    var i :| 0 <= i < |items| && items[i] == p;
    assert items == items[..i] + [p] + items[i + 1..];
    assert p !in items[..i] && p !in items[i + 1..];
  }

  lemma SortIsSound(items: seq<PageSummary>)
    requires UniqueIds(items)
    ensures Sound(SortRecent(items))
  {
    SortOrders(items);
    SortPermutes(items);
    PermutedStaysUnique(items, SortRecent(items));
  }

  lemma CreatedKeepsSound(items: seq<PageSummary>, page: PageSummary)
    requires Sound(items)
    ensures Sound(SortRecent(Without(items, page.id) + [page]))
  {
    WithoutMembers(items, page.id);
    WithoutStaysUnique(items, page.id);
    assert UniqueIds(Without(items, page.id) + [page]);
    SortIsSound(Without(items, page.id) + [page]);
  }

  lemma EventKeepsSound(items: seq<PageSummary>, e: LibraryEvent)
    requires Sound(items)
    ensures Sound(Applied(items, e))
  {
    match e
    case PageCreated(page) => CreatedKeepsSound(items, page);
    case PageDeleted(id) =>
      WithoutStaysUnique(items, id);
      WithoutStaysRecent(items, id);
    case PageThumbnailUpdated(_, _) =>
    case PageUpdated(id, stamp) =>
      var i := Position(items, id);
      if i < |items| && !AtMost(stamp, items[i].updatedAt) {
        SortIsSound(items[i := items[i].(updatedAt := stamp)]);
      }
  }

  function AppliedAll(items: seq<PageSummary>, events: seq<LibraryEvent>): seq<PageSummary> {
    if events == [] then items
    else Applied(AppliedAll(items, events[..|events| - 1]), events[|events| - 1])
  }

  /** Whatever events arrive, ids stay unique and the list recent first. */
  lemma {:induction false} ListStaysSound(items: seq<PageSummary>, events: seq<LibraryEvent>)
    requires Sound(items)
    ensures Sound(AppliedAll(items, events))
  {
    if events != [] {
      ListStaysSound(items, events[..|events| - 1]);
      EventKeepsSound(AppliedAll(items, events[..|events| - 1]), events[|events| - 1]);
    }
  }

  // ---- Stamps do not depend on the order of arrival ---------------------------

  ghost predicate OnlyUpdates(events: seq<LibraryEvent>) {
    forall e :: e in events ==> e.PageUpdated?
  }

  function Later(a: string, b: string): string { if AtMost(b, a) then a else b }

  /** The latest of `start` and the stamps the updates give the page. */
  function LatestStamp(start: string, events: seq<LibraryEvent>, id: string): string {
    if events == [] then start
    else
      var last, before := events[|events| - 1], LatestStamp(start, events[..|events| - 1], id);
      if last.PageUpdated? && last.pageId == id then Later(before, last.updatedAt) else before
  }

  function Restamped(p: PageSummary, stamp: string): PageSummary { p.(updatedAt := stamp) }

  lemma PositionOf(items: seq<PageSummary>, p: PageSummary)
    requires UniqueIds(items) && p in items
    ensures Position(items, p.id) < |items| && items[Position(items, p.id)] == p
  {
    var k :| 0 <= k < |items| && items[k] == p;
  }

  /** One update leaves each page with the later stamp, and the others alone. */
  lemma UpdateRestamps(items: seq<PageSummary>, e: LibraryEvent, p: PageSummary)
    requires Sound(items) && e.PageUpdated? && p in items
    ensures Restamped(p, if e.pageId == p.id then Later(p.updatedAt, e.updatedAt) else p.updatedAt) in Applied(items, e)
    ensures |Applied(items, e)| == |items|
  {
    var i := Position(items, e.pageId);
    PositionOf(items, p);
    if i < |items| && !AtMost(e.updatedAt, items[i].updatedAt) {
      var changed := items[i := items[i].(updatedAt := e.updatedAt)];
      var k :| 0 <= k < |items| && items[k] == p;
      SortMembers(changed, changed[k]);
    }
  }

  /** A run of updates leaves each page with the latest of its stamps. */
  lemma {:induction false} UpdatesLeaveTheLatest(items: seq<PageSummary>, events: seq<LibraryEvent>, p: PageSummary)
    requires Sound(items) && OnlyUpdates(events) && p in items
    ensures Restamped(p, LatestStamp(p.updatedAt, events, p.id)) in AppliedAll(items, events)
    ensures |AppliedAll(items, events)| == |items|
  {
    if events != [] {
      var before, last := events[..|events| - 1], events[|events| - 1];
      UpdatesLeaveTheLatest(items, before, p);
      ListStaysSound(items, before);
      UpdateRestamps(AppliedAll(items, before), last, Restamped(p, LatestStamp(p.updatedAt, before, p.id)));
    }
  }

  /** `stamp` is `start` or one of the page's, and none of them is later. */
  ghost predicate IsLatest(stamp: string, start: string, events: seq<LibraryEvent>, id: string) {
    && AtMost(start, stamp)
    && (forall e :: e in events && e.PageUpdated? && e.pageId == id ==> AtMost(e.updatedAt, stamp))
    && (stamp == start || exists e :: e in events && e.PageUpdated? && e.pageId == id && e.updatedAt == stamp)
  }

  lemma {:induction false} LatestIsLatest(start: string, events: seq<LibraryEvent>, id: string)
    ensures IsLatest(LatestStamp(start, events, id), start, events, id)
  {
    if events != [] {
      var before, last := events[..|events| - 1], events[|events| - 1];
      LatestIsLatest(start, before, id);
      assert events == before + [last];
      if last.PageUpdated? && last.pageId == id {
        var was, now := LatestStamp(start, before, id), LatestStamp(start, events, id);
        Trichotomy(was, last.updatedAt);
        AtMostChain(start, was, now);
        forall e | e in before && e.PageUpdated? && e.pageId == id ensures AtMost(e.updatedAt, now) {
          AtMostChain(e.updatedAt, was, now);
        }
      }
    }
  }

  lemma LatestIsUnique(a: string, b: string, start: string, events: seq<LibraryEvent>, id: string)
    requires IsLatest(a, start, events, id) && IsLatest(b, start, events, id)
    ensures a == b
  {
    assert AtMost(a, b) && AtMost(b, a);
    Trichotomy(a, b);
  }

  /** In whatever order the same updates arrive, each page ends with the same
      stamp: the latest of its own. */
  lemma OrderOfUpdatesDoesNotMatter(items: seq<PageSummary>, events: seq<LibraryEvent>, shuffled: seq<LibraryEvent>,
                                    p: PageSummary)
    requires Sound(items) && OnlyUpdates(events) && multiset(events) == multiset(shuffled) && p in items
    ensures var end := Restamped(p, LatestStamp(p.updatedAt, events, p.id));
            end in AppliedAll(items, events) && end in AppliedAll(items, shuffled)
    ensures IsLatest(LatestStamp(p.updatedAt, events, p.id), p.updatedAt, events, p.id)
  {
    assert forall e :: e in events <==> e in multiset(events);
    assert forall e :: e in shuffled <==> e in multiset(shuffled);
    UpdatesLeaveTheLatest(items, events, p);
    UpdatesLeaveTheLatest(items, shuffled, p);
    LatestIsLatest(p.updatedAt, events, p.id);
    LatestIsLatest(p.updatedAt, shuffled, p.id);
    LatestIsUnique(LatestStamp(p.updatedAt, events, p.id), LatestStamp(p.updatedAt, shuffled, p.id),
                   p.updatedAt, events, p.id);
  }

  // ---- Thumbnails never go back -----------------------------------------------

  predicate Creates(e: LibraryEvent, id: string) { e.PageCreated? && e.page.id == id }

  /** A page that an event did not create was there before, with a thumbnail no
      newer. */
  lemma EventKeepsThumbnail(items: seq<PageSummary>, e: LibraryEvent, q: PageSummary)
    returns (p: PageSummary)
    requires Sound(items) && !Creates(e, q.id) && q in Applied(items, e)
    ensures p in items && p.id == q.id && ThumbnailSeq(p.thumbnail) <= ThumbnailSeq(q.thumbnail)
  {
    match e
    case PageCreated(page) =>
      WithoutMembers(items, page.id);
      var all := Without(items, page.id) + [page];
      SortMembers(all, q);
      p := q;
    case PageDeleted(id) =>
      WithoutMembers(items, id);
      p := q;
    case PageThumbnailUpdated(id, thumbnail) =>
      var i := Position(items, id);
      p := if i < |items| && q !in items then items[i] else q;
    case PageUpdated(id, stamp) =>
      var i := Position(items, id);
      if i < |items| && !AtMost(stamp, items[i].updatedAt) {
        var changed := items[i := items[i].(updatedAt := stamp)];
        SortMembers(changed, q);
        p := if q in items then q else items[i];
      } else {
        p := q;
      }
  }

  /** Over any run that does not create the page anew, its thumbnail's revision
      never goes down. */
  lemma {:induction false} ThumbnailNeverGoesBack(items: seq<PageSummary>, events: seq<LibraryEvent>,
                                                  p: PageSummary, q: PageSummary)
    requires Sound(items) && p in items && q in AppliedAll(items, events) && p.id == q.id
    requires forall e :: e in events ==> !Creates(e, p.id)
    ensures ThumbnailSeq(p.thumbnail) <= ThumbnailSeq(q.thumbnail)
  {
    if events == [] {
      SameIdSamePage(items, p, q);
    } else {
      var before, last := events[..|events| - 1], events[|events| - 1];
      ListStaysSound(items, before);
      assert last in events && forall e :: e in before ==> e in events;
      var mid := EventKeepsThumbnail(AppliedAll(items, before), last, q);
      ThumbnailNeverGoesBack(items, before, p, mid);
    }
  }

  // ---- What the list shows, told from the events -------------------------------

  function Ids(items: seq<PageSummary>): set<string> { set p | p in items :: p.id }

  /** The pages listed: those created and not deleted since. */
  function IdsAfter(ids: set<string>, events: seq<LibraryEvent>): set<string> {
    if events == [] then ids
    else
      var before, last := IdsAfter(ids, events[..|events| - 1]), events[|events| - 1];
      match last
      case PageCreated(page) => before + {page.id}
      case PageDeleted(id) => before - {id}
      case _ => before
  }

  lemma SortKeepsIds(items: seq<PageSummary>)
    ensures Ids(SortRecent(items)) == Ids(items)
  {
    forall p ensures p in SortRecent(items) <==> p in items { SortMembers(items, p); }
  }

  lemma ReplacingKeepsIds(items: seq<PageSummary>, i: nat, p: PageSummary)
    requires i < |items| && p.id == items[i].id
    ensures Ids(items[i := p]) == Ids(items)
  {
    var changed := items[i := p];
    forall id | id in Ids(items) ensures id in Ids(changed) {
      var k :| 0 <= k < |items| && items[k].id == id;
      assert changed[k].id == id && changed[k] in changed;
    }
    forall id | id in Ids(changed) ensures id in Ids(items) {
      var k :| 0 <= k < |changed| && changed[k].id == id;
      assert items[k].id == id && items[k] in items;
    }
  }

  lemma EventMovesIds(items: seq<PageSummary>, e: LibraryEvent)
    ensures Ids(Applied(items, e)) == IdsAfter(Ids(items), [e])
  {
    assert [e][..0] == [];
    assert IdsAfter(Ids(items), []) == Ids(items);
    match e
    case PageCreated(page) =>
      WithoutMembers(items, page.id);
      SortKeepsIds(Without(items, page.id) + [page]);
    case PageDeleted(id) => WithoutMembers(items, id);
    case PageThumbnailUpdated(id, thumbnail) =>
      var i := Position(items, id);
      if i < |items| { ReplacingKeepsIds(items, i, items[i].(thumbnail := thumbnail)); }
    case PageUpdated(id, stamp) =>
      var i := Position(items, id);
      if i < |items| {
        ReplacingKeepsIds(items, i, items[i].(updatedAt := stamp));
        SortKeepsIds(items[i := items[i].(updatedAt := stamp)]);
      }
  }

  /** After any events the pages listed are exactly those created, or there before,
      and not deleted since: a deleted page is gone, and no other goes. */
  lemma {:induction false} ListedIffCreatedAndNotDeleted(items: seq<PageSummary>, events: seq<LibraryEvent>)
    ensures Ids(AppliedAll(items, events)) == IdsAfter(Ids(items), events)
  {
    if events != [] {
      var before, last := events[..|events| - 1], events[|events| - 1];
      ListedIffCreatedAndNotDeleted(items, before);
      EventMovesIds(AppliedAll(items, before), last);
      assert [last][..0] == [] && [last][0] == last;
    }
  }

  /** A page created is listed just as it came. */
  lemma CreatedIsListed(items: seq<PageSummary>, page: PageSummary)
    ensures page in Applied(items, PageCreated(page))
  {
    SortMembers(Without(items, page.id) + [page], page);
  }

  /** The event makes the page or takes it away. */
  predicate Replaces(e: LibraryEvent, id: string) { Creates(e, id) || (e.PageDeleted? && e.pageId == id) }

  /** The thumbnail to show of the one shown and those the events bring: none older
      than what is shown replaces it. */
  function NewestThumbnail(start: Thumbnail, events: seq<LibraryEvent>, id: string): Thumbnail {
    if events == [] then start
    else
      var last, before := events[|events| - 1], NewestThumbnail(start, events[..|events| - 1], id);
      if last.PageThumbnailUpdated? && last.pageId == id && ThumbnailSeq(last.thumbnail) >= ThumbnailSeq(before)
      then last.thumbnail else before
  }

  /** A page as it was, with the stamp and the thumbnail that the events leave it. */
  function Refreshed(p: PageSummary, events: seq<LibraryEvent>): PageSummary {
    p.(updatedAt := LatestStamp(p.updatedAt, events, p.id), thumbnail := NewestThumbnail(p.thumbnail, events, p.id))
  }

  lemma OneEvent(p: PageSummary, e: LibraryEvent)
    ensures Refreshed(p, [e]) == p.(
      updatedAt := if e.PageUpdated? && e.pageId == p.id then Later(p.updatedAt, e.updatedAt) else p.updatedAt,
      thumbnail := if e.PageThumbnailUpdated? && e.pageId == p.id
                      && ThumbnailSeq(e.thumbnail) >= ThumbnailSeq(p.thumbnail) then e.thumbnail else p.thumbnail)
  {
    assert [e][..0] == [] && [e][0] == e && |[e]| - 1 == 0;
    assert LatestStamp(p.updatedAt, [e][..0], p.id) == p.updatedAt;
    assert NewestThumbnail(p.thumbnail, [e][..0], p.id) == p.thumbnail;
  }

  lemma EventRefreshes(items: seq<PageSummary>, e: LibraryEvent, p: PageSummary)
    requires Sound(items) && p in items && !Replaces(e, p.id)
    ensures Refreshed(p, [e]) in Applied(items, e)
  {
    OneEvent(p, e);
    PositionOf(items, p);
    match e
    case PageCreated(page) =>
      WithoutMembers(items, page.id);
      SortMembers(Without(items, page.id) + [page], p);
    case PageDeleted(id) => WithoutMembers(items, id);
    case PageThumbnailUpdated(id, thumbnail) =>
      var k := Position(items, p.id);
      assert Applied(items, e)[k] == Refreshed(p, [e]);
    case PageUpdated(id, stamp) => UpdateRestamps(items, e, p);
  }

  lemma RefreshedMore(p: PageSummary, events: seq<LibraryEvent>)
    requires events != []
    ensures Refreshed(p, events) == Refreshed(Refreshed(p, events[..|events| - 1]), [events[|events| - 1]])
  {
    OneEvent(Refreshed(p, events[..|events| - 1]), events[|events| - 1]);
  }

  /** Over any events that neither create nor delete it, a page stays listed with
      the latest of its stamps and the newest of its thumbnails, and all else about
      it as it was. */
  lemma {:induction false} ListedAsItsEventsSay(items: seq<PageSummary>, events: seq<LibraryEvent>, p: PageSummary)
    requires Sound(items) && p in items && forall e :: e in events ==> !Replaces(e, p.id)
    ensures Refreshed(p, events) in AppliedAll(items, events)
  {
    if events != [] {
      var before, last := events[..|events| - 1], events[|events| - 1];
      assert last in events && forall e :: e in before ==> e in events;
      ListedAsItsEventsSay(items, before, p);
      ListStaysSound(items, before);
      EventRefreshes(AppliedAll(items, before), last, Refreshed(p, before));
      RefreshedMore(p, events);
    }
  }

  /** No thumbnail that came, nor the one shown at first, is newer than the one
      shown, and that is one of them. */
  lemma {:induction false} NewestIsNewest(start: Thumbnail, events: seq<LibraryEvent>, id: string)
    ensures var shown := NewestThumbnail(start, events, id);
      && ThumbnailSeq(start) <= ThumbnailSeq(shown)
      && (forall e :: e in events && e.PageThumbnailUpdated? && e.pageId == id ==>
            ThumbnailSeq(e.thumbnail) <= ThumbnailSeq(shown))
      && (shown == start
          || exists e :: e in events && e.PageThumbnailUpdated? && e.pageId == id && e.thumbnail == shown)
  {
    if events != [] {
      NewestIsNewest(start, events[..|events| - 1], id);
      assert events == events[..|events| - 1] + [events[|events| - 1]];
    }
  }
}
