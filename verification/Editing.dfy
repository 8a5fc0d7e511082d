/** Who edits a page over whole runs of its sockets. A mutation is a lease check,
    a transaction that may land much later, and the news of it; other sessions
    act in between. */
module Editing {
  import opened Protocol
  import opened Store
  import opened Hub
  import opened Dispatch
  import History
  import Leases
  import Viewer

  // ---- Runs ---------------------------------------------------------------

  /** What happens on one page's server side: a session's message is taken up to
      its transaction, the transaction ends, its news goes out, or the session's
      loop ends. */
  datatype SocketEvent =
    | Heard(sessionId: string, message: PageClientMessage, now: int)
    | Landed(sessionId: string, ending: Ending, now: int)
    | Announced(sessionId: string, now: int)
    | Closed(sessionId: string, now: int)

  /** What a session's loop is at: it takes nothing else up meanwhile. */
  datatype Work = Persisting(mutation: Mutation) | Telling(news: News)

  datatype Site = Site(server: Server, busy: map<string, Work>)

  predicate Possible(site: Site, e: SocketEvent) {
    match e
    case Heard(s, _, _) => s !in site.busy
    case Landed(s, _, _) => s in site.busy && site.busy[s].Persisting?
    case Announced(s, _) => s in site.busy && site.busy[s].Telling?
    case Closed(s, _) => s !in site.busy
  }

  function After(site: Site, pageId: string, e: SocketEvent): Site
    requires Possible(site, e)
  {
    match e
    case Heard(s, message, now) =>
      var (server, verdict) := Checked(site.server, pageId, s, message, now);
      Site(server, if verdict.ToPersist? then site.busy[s := Persisting(verdict.mutation)] else site.busy)
    case Landed(s, ending, now) =>
      var (tables, news) := AfterPersist(site.server.tables, site.busy[s].mutation, now, ending);
      Site(site.server.(tables := tables), site.busy[s := Telling(news)])
    case Announced(s, _) =>
      Site(site.server.(log := Said(site.server.log, site.busy[s].news.told)), site.busy - {s})
    case Closed(s, _) => site.(server := Ended(site.server, pageId, s))
  }

  /** `sites` is a run of `events`, from a page nobody is at yet. */
  ghost predicate IsRun(sites: seq<Site>, pageId: string, events: seq<SocketEvent>) {
    && |sites| == |events| + 1
    && sites[0].server.leases == map[] && sites[0].busy == map[]
    && forall k :: 0 <= k < |events| ==>
                     Possible(sites[k], events[k]) && sites[k + 1] == After(sites[k], pageId, events[k])
  }

  ghost predicate InTime(events: seq<SocketEvent>) {
    forall a, b :: 0 <= a < b < |events| ==> events[a].now <= events[b].now
  }

  // ---- The leases of a run ------------------------------------------------

  /** The lease operation an event makes. */
  function LeaseOperation(pageId: string, e: SocketEvent): Leases.LeaseEvent {
    match e
    case Heard(s, message, now) =>
      if message.Subscribe? then Leases.Untouched(now)
      else if message.ReleaseLease? then Leases.Release(pageId, s, now)
      else Leases.Acquire(pageId, s, now)
    case Landed(_, _, now) => Leases.Untouched(now)
    case Announced(_, now) => Leases.Untouched(now)
    case Closed(s, now) => Leases.Release(pageId, s, now)
  }

  function LeaseOperations(pageId: string, events: seq<SocketEvent>): (operations: seq<Leases.LeaseEvent>)
    ensures |operations| == |events|
    ensures forall i :: 0 <= i < |events| ==> operations[i] == LeaseOperation(pageId, events[i])
  {
    seq(|events|, i requires 0 <= i < |events| => LeaseOperation(pageId, events[i]))
  }

  lemma {:induction false} LeasesFollow(sites: seq<Site>, pageId: string, events: seq<SocketEvent>, k: nat)
    requires IsRun(sites, pageId, events) && k <= |events|
    ensures sites[k].server.leases == Leases.LeasesAt(LeaseOperations(pageId, events), k)
    decreases k
  {
    if k > 0 { LeasesFollow(sites, pageId, events, k - 1); }
  }

  /** Session `s` was granted the page at event `k`. */
  ghost predicate GrantedAt(pageId: string, events: seq<SocketEvent>, k: nat, s: string)
    requires k < |events|
  {
    Leases.GrantedAt(LeaseOperations(pageId, events), k, pageId, s)
  }

  /** Told from the events before `k`: `s` holds the page at `now`. It was granted
      it, has neither released nor closed since, and its 30 seconds are not over. */
  ghost predicate Holds(pageId: string, events: seq<SocketEvent>, k: nat, s: string, now: int)
    requires k <= |events|
  {
    Leases.Running(LeaseOperations(pageId, events), k, pageId, s, now)
  }

  lemma HoldsIsInTable(sites: seq<Site>, pageId: string, events: seq<SocketEvent>, k: nat, s: string, now: int)
    requires IsRun(sites, pageId, events) && InTime(events) && k <= |events|
    requires forall i :: 0 <= i < k ==> events[i].now <= now
    ensures Holds(pageId, events, k, s, now) <==> Leases.HoldsLive(sites[k].server.leases, pageId, s, now)
  {
    LeasesFollow(sites, pageId, events, k);
    Leases.TableNamesWhoRuns(LeaseOperations(pageId, events), k, pageId, s, now);
  }

  /** A session that was granted the page holds it until it lets go of it or the
      30 seconds are over. */
  lemma GrantHolds(pageId: string, events: seq<SocketEvent>, i: nat, k: nat, s: string, now: int)
    requires i < k <= |events| && GrantedAt(pageId, events, i, s) && now < events[i].now + LEASE_TTL_MS
    requires forall l :: i < l < k && events[l].sessionId == s ==> events[l].Landed?
    ensures Holds(pageId, events, k, s, now)
  {
    assert Leases.RunsSince(LeaseOperations(pageId, events), i, k, pageId, s, now);
  }

  /** Nobody is granted a page that another session holds. */
  lemma HeldIsDenied(sites: seq<Site>, pageId: string, events: seq<SocketEvent>, k: nat, s: string, other: string)
    requires IsRun(sites, pageId, events) && InTime(events) && k < |events| && s != other
    requires Holds(pageId, events, k, s, events[k].now)
    ensures !GrantedAt(pageId, events, k, other)
  {
    HoldsIsInTable(sites, pageId, events, k, s, events[k].now);
    LeasesFollow(sites, pageId, events, k);
  }

  // ---- Every change was checked -------------------------------------------

  /** At `i` session `s` asked for `m` and was granted the page for it; before
      `k` it has taken up nothing else. */
  ghost predicate CheckedAt(pageId: string, events: seq<SocketEvent>, i: nat, k: nat, s: string, m: Mutation)
    requires i < k <= |events|
  {
    && events[i].Heard? && events[i].sessionId == s && Asked(events[i].message) == Some(m)
    && GrantedAt(pageId, events, i, s)
    && forall l :: i < l < k && events[l].sessionId == s ==> events[l].Landed?
  }

  /** A session's work changes only by its own events, and a transaction comes
      under way only by a check that is granted. */
  lemma WorkStarts(sites: seq<Site>, pageId: string, events: seq<SocketEvent>, k: nat, s: string)
    requires IsRun(sites, pageId, events) && k < |events| && s in sites[k + 1].busy
    ensures events[k].sessionId != s ==> s in sites[k].busy && sites[k].busy[s] == sites[k + 1].busy[s]
    ensures events[k].sessionId == s && sites[k + 1].busy[s].Persisting? ==>
      && events[k].Heard? && Asked(events[k].message) == Some(sites[k + 1].busy[s].mutation)
      && Checked(sites[k].server, pageId, s, events[k].message, events[k].now).1.ToPersist?
  {
    assert sites[k + 1] == After(sites[k], pageId, events[k]);
  }

  lemma PersistedWasGranted(sites: seq<Site>, pageId: string, events: seq<SocketEvent>, k: nat)
    requires IsRun(sites, pageId, events) && k < |events| && events[k].Heard?
    requires Checked(sites[k].server, pageId, events[k].sessionId, events[k].message, events[k].now).1.ToPersist?
    ensures GrantedAt(pageId, events, k, events[k].sessionId)
  {
    LeasesFollow(sites, pageId, events, k);
  }

  /** A transaction under way was checked. */
  lemma {:induction false} PersistingWasChecked(
      sites: seq<Site>, pageId: string, events: seq<SocketEvent>, k: nat, s: string)
    returns (i: nat)
    requires IsRun(sites, pageId, events) && k <= |events|
    requires s in sites[k].busy && sites[k].busy[s].Persisting?
    ensures i < k && CheckedAt(pageId, events, i, k, s, sites[k].busy[s].mutation)
    ensures forall l :: i < l < k ==> events[l].sessionId != s
    decreases k
  {
    WorkStarts(sites, pageId, events, k - 1, s);
    if events[k - 1].sessionId == s {
      i := k - 1;
      PersistedWasGranted(sites, pageId, events, i);
    } else {
      i := PersistingWasChecked(sites, pageId, events, k - 1, s);
    }
  }

  /** And it ends only by its own landing. */
  lemma WorkLands(sites: seq<Site>, pageId: string, events: seq<SocketEvent>, c: nat)
    requires IsRun(sites, pageId, events) && c < |events|
    requires events[c].sessionId in sites[c + 1].busy && sites[c + 1].busy[events[c].sessionId].Telling?
    ensures var s := events[c].sessionId;
      && events[c].Landed? && s in sites[c].busy && sites[c].busy[s].Persisting?
      && (sites[c + 1].server.tables, sites[c + 1].busy[s].news)
         == AfterPersist(sites[c].server.tables, sites[c].busy[s].mutation, events[c].now, events[c].ending)
  {
    assert sites[c + 1] == After(sites[c], pageId, events[c]);
  }

  /** News that waits to be told came of the last event of its session. */
  lemma {:induction false} TellingLanded(
      sites: seq<Site>, pageId: string, events: seq<SocketEvent>, k: nat, s: string)
    returns (c: nat)
    requires IsRun(sites, pageId, events) && k <= |events|
    requires s in sites[k].busy && sites[k].busy[s].Telling?
    ensures c < k && events[c].sessionId == s && forall l :: c < l < k ==> events[l].sessionId != s
    ensures s in sites[c + 1].busy && sites[c + 1].busy[s] == sites[k].busy[s]
    decreases k
  {
    WorkStarts(sites, pageId, events, k - 1, s);
    if events[k - 1].sessionId == s {
      c := k - 1;
    } else {
      c := TellingLanded(sites, pageId, events, k - 1, s);
    }
  }

  /** So was one that ended and whose news is still to be told. */
  lemma TellingWasChecked(
      sites: seq<Site>, pageId: string, events: seq<SocketEvent>, k: nat, s: string)
    returns (i: nat, c: nat, m: Mutation)
    requires IsRun(sites, pageId, events) && k <= |events|
    requires s in sites[k].busy && sites[k].busy[s].Telling?
    ensures i < c < k && CheckedAt(pageId, events, i, k, s, m)
    ensures events[c].Landed? && events[c].sessionId == s
    ensures forall l :: i < l < k && events[l].sessionId == s ==> l == c
    ensures s in sites[c + 1].busy && sites[c + 1].busy[s] == sites[k].busy[s]
    ensures (sites[c + 1].server.tables, sites[k].busy[s].news)
         == AfterPersist(sites[c].server.tables, m, events[c].now, events[c].ending)
  {
    c := TellingLanded(sites, pageId, events, k, s);
    WorkLands(sites, pageId, events, c);
    m := sites[c].busy[s].mutation;
    i := PersistingWasChecked(sites, pageId, events, c, s);
  }

  ghost predicate ChangesRows(sites: seq<Site>, k: nat)
    requires k + 1 < |sites|
  {
    sites[k + 1].server.tables != sites[k].server.tables
  }

  /** Whatever lapses or overtakes: rows change only as a transaction lands, by
      the mutation its session asked for, under a lease granted to that session
      at its own earlier check. */
  lemma ChangeWasGranted(sites: seq<Site>, pageId: string, events: seq<SocketEvent>, j: nat)
    returns (i: nat, m: Mutation)
    requires IsRun(sites, pageId, events) && j < |events| && ChangesRows(sites, j)
    ensures events[j].Landed? && !events[j].ending.RolledBack?
    ensures i < j && CheckedAt(pageId, events, i, j, events[j].sessionId, m)
    ensures forall l :: i < l < j ==> events[l].sessionId != events[j].sessionId
    ensures sites[j + 1].server.tables == Commit(sites[j].server.tables, m, events[j].now).0
  {
    assert sites[j + 1] == After(sites[j], pageId, events[j]);
    m := sites[j].busy[events[j].sessionId].mutation;
    i := PersistingWasChecked(sites, pageId, events, j, events[j].sessionId);
  }

  /** What goes out on the channel beyond lease changes is exactly the news of a
      transaction that landed, once. */
  lemma AnnouncementIsNews(sites: seq<Site>, pageId: string, events: seq<SocketEvent>, p: nat)
    returns (i: nat, c: nat, m: Mutation)
    requires IsRun(sites, pageId, events) && p < |events| && events[p].Announced?
    ensures i < c < p && CheckedAt(pageId, events, i, p, events[p].sessionId, m)
    ensures events[c].Landed? && events[c].sessionId == events[p].sessionId
    ensures var (tables, news) := AfterPersist(sites[c].server.tables, m, events[c].now, events[c].ending);
      sites[c + 1].server.tables == tables && sites[p + 1].server.log == Said(sites[p].server.log, news.told)
  {
    i, c, m := TellingWasChecked(sites, pageId, events, p, events[p].sessionId);
  }

  // ---- Taking turns -------------------------------------------------------

  /** When the transaction of `j` lands, no other session holds the page. */
  ghost predicate LandsInTurn(pageId: string, events: seq<SocketEvent>, j: nat)
    requires j < |events|
  {
    forall other :: other != events[j].sessionId ==> !Holds(pageId, events, j, other, events[j].now)
  }

  /** The lease table names another session, unexpired. */
  predicate AnotherHolds(leases: map<string, Lease>, pageId: string, s: string, now: int) {
    pageId in leases && leases[pageId].holder != s && leases[pageId].expiresAt > now
  }

  /** A transaction lands in turn exactly when the lease table does not name
      another session as it lands. */
  lemma LandsInTurnIff(sites: seq<Site>, pageId: string, events: seq<SocketEvent>, j: nat)
    requires IsRun(sites, pageId, events) && InTime(events) && j < |events|
    ensures LandsInTurn(pageId, events, j)
       <==> !AnotherHolds(sites[j].server.leases, pageId, events[j].sessionId, events[j].now)
  {
    forall other ensures Holds(pageId, events, j, other, events[j].now)
      <==> Leases.HoldsLive(sites[j].server.leases, pageId, other, events[j].now)
    {
      HoldsIsInTable(sites, pageId, events, j, other, events[j].now);
    }
    var leases := sites[j].server.leases;
    if AnotherHolds(leases, pageId, events[j].sessionId, events[j].now) {
      assert Leases.HoldsLive(leases, pageId, leases[pageId].holder, events[j].now);
    }
  }

  /** `other` was granted the page after the check at `i`, when the lease of that
      check had lapsed, and still holds it at `j`. */
  ghost predicate OvertakenBy(pageId: string, events: seq<SocketEvent>, i: nat, j: nat, other: string)
    requires i < j < |events|
  {
    exists g :: i < g < j && OvertakenAt(pageId, events, i, g, j, other)
  }

  ghost predicate OvertakenAt(pageId: string, events: seq<SocketEvent>, i: nat, g: nat, j: nat, other: string)
    requires i < g < j < |events|
  {
    && events[g].now >= events[i].now + LEASE_TTL_MS
    && Leases.RunsSince(LeaseOperations(pageId, events), g, j, pageId, other, events[j].now)
  }

  lemma HolderOvertook(
      sites: seq<Site>, pageId: string, events: seq<SocketEvent>, i: nat, g: nat, j: nat, m: Mutation, other: string)
    requires IsRun(sites, pageId, events) && InTime(events) && i < j < |events| && g < j
    requires CheckedAt(pageId, events, i, j, events[j].sessionId, m) && other != events[j].sessionId
    requires Leases.RunsSince(LeaseOperations(pageId, events), g, j, pageId, other, events[j].now)
    ensures i < g && OvertakenAt(pageId, events, i, g, j, other)
  {
    var operations, s := LeaseOperations(pageId, events), events[j].sessionId;
    assert operations[g] == LeaseOperation(pageId, events[g]) && events[g].sessionId == other;
    if g < i {
      assert Leases.RunsSince(operations, g, i, pageId, other, events[i].now);
      HeldIsDenied(sites, pageId, events, i, other, s);
    } else if events[g].now < events[i].now + LEASE_TTL_MS {
      GrantHolds(pageId, events, i, g, s, events[g].now);
      HeldIsDenied(sites, pageId, events, g, s, other);
    }
  }

  /** Another session holds the page as the transaction lands exactly when it was
      granted the page since the check, once the check's own lease had lapsed,
      and its grant still runs. */
  lemma HoldsIffOvertaken(
      sites: seq<Site>, pageId: string, events: seq<SocketEvent>, i: nat, j: nat, m: Mutation, other: string)
    requires IsRun(sites, pageId, events) && InTime(events) && i < j < |events|
    requires CheckedAt(pageId, events, i, j, events[j].sessionId, m) && other != events[j].sessionId
    ensures Holds(pageId, events, j, other, events[j].now) <==> OvertakenBy(pageId, events, i, j, other)
  {
    var operations := LeaseOperations(pageId, events);
    if Holds(pageId, events, j, other, events[j].now) {
      var g :| 0 <= g < j && Leases.RunsSince(operations, g, j, pageId, other, events[j].now);
      HolderOvertook(sites, pageId, events, i, g, j, m, other);
    }
    if OvertakenBy(pageId, events, i, j, other) {
      var g :| i < g < j && OvertakenAt(pageId, events, i, g, j, other);
      assert Leases.RunsSince(operations, g, j, pageId, other, events[j].now);
    }
  }

  /** So a transaction lands out of turn exactly when some session overtook it,
      and never while the lease of its own check lasts. */
  lemma OutOfTurnIff(sites: seq<Site>, pageId: string, events: seq<SocketEvent>, i: nat, j: nat, m: Mutation)
    requires IsRun(sites, pageId, events) && InTime(events) && i < j < |events|
    requires CheckedAt(pageId, events, i, j, events[j].sessionId, m)
    ensures !LandsInTurn(pageId, events, j)
       <==> exists other :: other != events[j].sessionId && OvertakenBy(pageId, events, i, j, other)
    ensures events[j].now < events[i].now + LEASE_TTL_MS ==> LandsInTurn(pageId, events, j)
  {
    forall other | other != events[j].sessionId
      ensures Holds(pageId, events, j, other, events[j].now) <==> OvertakenBy(pageId, events, i, j, other)
    {
      HoldsIffOvertaken(sites, pageId, events, i, j, m, other);
    }
    if !LandsInTurn(pageId, events, j) {
      var other :| other != events[j].sessionId && Holds(pageId, events, j, other, events[j].now);
      var g :| i < g < j && OvertakenAt(pageId, events, i, g, j, other);
      assert events[g].now <= events[j].now;
    }
  }

  /** Single active editor, over whole runs: when two sessions change a page's
      rows, the first has let go or lapsed as the second's transaction lands,
      unless that transaction outlived the lease of its own check and the first
      was granted the page since; and exactly then it has not. */
  lemma EditorsTakeTurns(sites: seq<Site>, pageId: string, events: seq<SocketEvent>, i: nat, j: nat)
    returns (check: nat, m: Mutation)
    requires IsRun(sites, pageId, events) && InTime(events) && i < j < |events|
    requires ChangesRows(sites, i) && ChangesRows(sites, j) && events[i].sessionId != events[j].sessionId
    ensures check < j && CheckedAt(pageId, events, check, j, events[j].sessionId, m)
    ensures Holds(pageId, events, j, events[i].sessionId, events[j].now)
       <==> OvertakenBy(pageId, events, check, j, events[i].sessionId)
    ensures OvertakenBy(pageId, events, check, j, events[i].sessionId)
       <==> Leases.HoldsLive(sites[j].server.leases, pageId, events[i].sessionId, events[j].now)
    ensures OvertakenBy(pageId, events, check, j, events[i].sessionId) ==>
      events[j].now >= events[check].now + LEASE_TTL_MS
  {
    check, m := ChangeWasGranted(sites, pageId, events, j);
    HoldsIffOvertaken(sites, pageId, events, check, j, m, events[i].sessionId);
    HoldsIsInTable(sites, pageId, events, j, events[i].sessionId, events[j].now);
    if OvertakenBy(pageId, events, check, j, events[i].sessionId) {
      var g :| check < g < j && OvertakenAt(pageId, events, check, g, j, events[i].sessionId);
      assert events[g].now <= events[j].now;
    }
  }

  /** A session that may have the page asks for a paper. */
  lemma AsksForPaper(site: Site, pageId: string, s: string, key: string, paper: Paper, now: int) returns (next: Site)
    requires s !in site.busy
    requires pageId in site.server.leases ==> site.server.leases[pageId].expiresAt <= now
    ensures Possible(site, Heard(s, SetPaper(key, paper), now))
    ensures next == After(site, pageId, Heard(s, SetPaper(key, paper), now))
    ensures next.server.tables == site.server.tables && next.busy == site.busy[s := Persisting(Repaper(paper))]
    ensures next.server.leases == site.server.leases[pageId := Lease(s, now + LEASE_TTL_MS)]
    ensures next.server.log == site.server.log
  {
    next := After(site, pageId, Heard(s, SetPaper(key, paper), now));
    assert (site.server.leases - {pageId})[pageId := Lease(s, now + LEASE_TTL_MS)]
        == site.server.leases[pageId := Lease(s, now + LEASE_TTL_MS)];
  }

  /** Its transaction ends. */
  lemma PaperLands(site: Site, pageId: string, s: string, paper: Paper, now: int) returns (next: Site)
    requires s in site.busy && site.busy[s] == Persisting(Repaper(paper)) && site.server.tables.paper != paper
    ensures Possible(site, Landed(s, Acknowledged, now)) && next == After(site, pageId, Landed(s, Acknowledged, now))
    ensures next.server.tables.paper == paper && next.server.leases == site.server.leases
    ensures s in next.busy && next.busy[s].Telling? && next.busy - {s} == site.busy - {s}
    ensures next.server.log == site.server.log
    ensures site.server.tables.batches == [] ==>
      && next.server.tables.batches == [] && next.server.tables.revision == site.server.tables.revision
      && next.busy[s].news == News(Some(PaperChanged(paper, site.server.tables.revision)), None)
  {
    next := After(site, pageId, Landed(s, Acknowledged, now));
  }

  /** A checks and stalls; B checks once A's lease has lapsed, and changes the
      page; then A's transaction lands. */
  lemma SlowSites(server: Server, pageId: string) returns (sites: seq<Site>)
    requires server.leases == map[] && server.tables == Fresh(BlankPaper, 0)
    ensures |sites| == 6 && sites[0] == Site(server, map[])
    ensures forall k :: 0 <= k < 5 ==>
      Possible(sites[k], SLOW_RUN[k]) && sites[k + 1] == After(sites[k], pageId, SLOW_RUN[k])
    ensures ChangesRows(sites, 2) && ChangesRows(sites, 4)
    ensures Leases.HoldsLive(sites[4].server.leases, pageId, "B", 40_000)
  {
    var s0 := Site(server, map[]);
    var s1 := AsksForPaper(s0, pageId, "A", "a", RuledWide, 0);
    var s2 := AsksForPaper(s1, pageId, "B", "b", RuledNarrow, 31_000);
    var s3 := PaperLands(s2, pageId, "B", RuledNarrow, 31_000);
    assert "A" in s2.busy - {"B"};
    var s4 := After(s3, pageId, Announced("B", 31_000));
    assert s4.busy == s3.busy - {"B"};
    var s5 := PaperLands(s4, pageId, "A", RuledWide, 40_000);
    sites := [s0, s1, s2, s3, s4, s5];
  }

  const SLOW_RUN: seq<SocketEvent> := [
    Heard("A", SetPaper("a", RuledWide), 0), Heard("B", SetPaper("b", RuledNarrow), 31_000),
    Landed("B", Acknowledged, 31_000), Announced("B", 31_000), Landed("A", Acknowledged, 40_000)]

  /** The run that breaks turns: A checks at 0 s and its transaction stalls; B is
      granted the page at 31 s and changes it; A's transaction lands at 40 s,
      while B still holds the page. */
  lemma SlowTransactionBreaksTurns(server: Server, pageId: string)
    returns (sites: seq<Site>, events: seq<SocketEvent>)
    requires server.leases == map[] && server.tables == Fresh(BlankPaper, 0)
    ensures IsRun(sites, pageId, events) && InTime(events) && |events| == 5 && sites[0].server == server
    ensures ChangesRows(sites, 2) && events[2] == Landed("B", Acknowledged, 31_000)
    ensures ChangesRows(sites, 4) && events[4] == Landed("A", Acknowledged, 40_000)
    ensures !LandsInTurn(pageId, events, 4) && Holds(pageId, events, 4, "B", 40_000)
  {
    sites := SlowSites(server, pageId);
    events := SLOW_RUN;
    HoldsIsInTable(sites, pageId, events, 4, "B", 40_000);
  }

  /** Its news goes out. */
  lemma PaperIsTold(site: Site, pageId: string, s: string, change: PageServerMessage, now: int) returns (next: Site)
    requires s in site.busy && site.busy[s] == Telling(News(Some(change), None))
    ensures Possible(site, Announced(s, now)) && next == After(site, pageId, Announced(s, now))
    ensures next.server == site.server.(log := site.server.log + [change]) && next.busy == site.busy - {s}
  {
    next := After(site, pageId, Announced(s, now));
  }

  const LATE_RUN: seq<SocketEvent> := [
    Heard("A", SetPaper("a", RuledWide), 0), Landed("A", Acknowledged, 1_000),
    Heard("B", SetPaper("b", RuledNarrow), 31_000), Landed("B", Acknowledged, 31_000),
    Announced("B", 31_000), Announced("A", 40_000)]

  lemma StaleSites(server: Server, pageId: string) returns (s2: Site, sites: seq<Site>)
    requires server.leases == map[] && server.tables == Fresh(BlankPaper, 0) && server.log == []
    ensures |sites| == 3 && sites[0] == Site(server, map[]) && s2 == sites[2]
    ensures forall k :: 0 <= k < 2 ==>
      Possible(sites[k], LATE_RUN[k]) && sites[k + 1] == After(sites[k], pageId, LATE_RUN[k])
    ensures s2.server.log == [] && s2.server.tables.batches == [] && s2.server.tables.revision == 0
    ensures s2.server.tables.paper == RuledWide && s2.server.leases == map[pageId := Lease("A", LEASE_TTL_MS)]
    ensures s2.busy == map["A" := Telling(News(Some(PaperChanged(RuledWide, 0)), None))]
  {
    var s0 := Site(server, map[]);
    var s1 := AsksForPaper(s0, pageId, "A", "a", RuledWide, 0);
    s2 := PaperLands(s1, pageId, "A", RuledWide, 1_000);
    assert s1.busy - {"A"} == map[];
    assert forall x :: x in s2.busy && x != "A" ==> x in s2.busy - {"A"};
    sites := [s0, s1, s2];
  }

  lemma LateSites(server: Server, pageId: string) returns (sites: seq<Site>)
    requires server.leases == map[] && server.tables == Fresh(BlankPaper, 0) && server.log == []
    ensures |sites| == 7 && sites[0] == Site(server, map[])
    ensures forall k :: 0 <= k < 6 ==>
      Possible(sites[k], LATE_RUN[k]) && sites[k + 1] == After(sites[k], pageId, LATE_RUN[k])
    ensures sites[6].server.log == [PaperChanged(RuledNarrow, 0), PaperChanged(RuledWide, 0)]
    ensures sites[6].server.tables.paper == RuledNarrow
  {
    var s2, stale := StaleSites(server, pageId);
    var s3 := AsksForPaper(s2, pageId, "B", "b", RuledNarrow, 31_000);
    var s4 := PaperLands(s3, pageId, "B", RuledNarrow, 31_000);
    assert "A" in s3.busy - {"B"} && (s4.busy - {"B"})["A"] == s2.busy["A"];
    var s5 := PaperIsTold(s4, pageId, "B", PaperChanged(RuledNarrow, 0), 31_000);
    var s6 := PaperIsTold(s5, pageId, "A", PaperChanged(RuledWide, 0), 40_000);
    sites := stale + [s3, s4, s5, s6];
  }

  /** The run that breaks fan-out: A's transaction lands at 1 s and its news is
      held up; B is granted the page at 31 s, changes the paper and says so; A's
      news goes out at 40 s. B's paper is stored, and whoever follows the channel
      is left with A's. */
  lemma LateNewsMisleads(server: Server, pageId: string) returns (sites: seq<Site>, events: seq<SocketEvent>)
    requires server.leases == map[] && server.tables == Fresh(BlankPaper, 0) && server.log == []
    ensures IsRun(sites, pageId, events) && InTime(events) && |events| == 6 && sites[0].server == server
    ensures events[1] == Landed("A", Acknowledged, 1_000) && events[3] == Landed("B", Acknowledged, 31_000)
    ensures events[4] == Announced("B", 31_000) && events[5] == Announced("A", 40_000)
    ensures sites[6].server.log == [PaperChanged(RuledNarrow, 0), PaperChanged(RuledWide, 0)]
    ensures sites[6].server.tables.paper == RuledNarrow
    ensures forall feed :: Viewer.AppliedAll(feed, sites[6].server.log).paper == RuledWide
  {
    sites := LateSites(server, pageId);
    events := LATE_RUN;
    var log := sites[6].server.log;
    forall feed ensures Viewer.AppliedAll(feed, log).paper == RuledWide {
      var met := Viewer.Applied(feed, log[0]);
      assert log[1..] == [log[1]] && [log[1]][1..] == [];
      assert Viewer.AppliedAll(met, [log[1]]) == Viewer.Applied(met, log[1]);
    }
  }

  // ---- Prompt transactions ------------------------------------------------

  /** From its check at `i` to its news at `p`, one transaction of session `s`
      that landed at `c`. */
  ghost predicate Span(pageId: string, events: seq<SocketEvent>, i: nat, c: nat, p: nat, s: string) {
    && i < c < p < |events|
    && (exists m :: CheckedAt(pageId, events, i, p, s, m))
    && events[c].Landed? && events[c].sessionId == s
    && events[p].Announced? && events[p].sessionId == s
  }

  /** Its news went out before the lease of its check lapsed. */
  ghost predicate Prompt(events: seq<SocketEvent>, i: nat, p: nat)
    requires i < |events| && p < |events|
  {
    events[p].now < events[i].now + LEASE_TTL_MS
  }

  lemma LaterCheckWaits(sites: seq<Site>, pageId: string, events: seq<SocketEvent>,
                        i: nat, c: nat, p: nat, s: string, j: nat, d: nat, q: nat, other: string)
    requires IsRun(sites, pageId, events) && InTime(events) && i < j
    requires Span(pageId, events, i, c, p, s) && Span(pageId, events, j, d, q, other)
    requires Prompt(events, i, p)
    ensures p < j
  {
    if j < p && s != other {
      GrantHolds(pageId, events, i, j, s, events[j].now);
      HeldIsDenied(sites, pageId, events, j, s, other);
    }
  }

  /** Transactions whose news goes out within their leases never overlap, from
      check to news, so they are announced in the order they were committed. */
  lemma PromptTransactionsKeepOrder(sites: seq<Site>, pageId: string, events: seq<SocketEvent>,
                                    i: nat, c: nat, p: nat, s: string, j: nat, d: nat, q: nat, other: string)
    requires IsRun(sites, pageId, events) && InTime(events)
    requires Span(pageId, events, i, c, p, s) && Span(pageId, events, j, d, q, other)
    requires Prompt(events, i, p) && Prompt(events, j, q) && i != j
    ensures p < j || q < i
    ensures c < d <==> p < q
  {
    if i < j {
      LaterCheckWaits(sites, pageId, events, i, c, p, s, j, d, q, other);
    } else {
      LaterCheckWaits(sites, pageId, events, j, d, q, other, i, c, p, s);
    }
  }

  // ---- The log of a prompt run --------------------------------------------

  /** The log without the lease's changes: the news of commits. */
  function CommitNews(log: seq<PageServerMessage>): seq<PageServerMessage> {
    if log == [] then []
    else
      var last := log[|log| - 1];
      CommitNews(log[..|log| - 1]) + if last.LeaseChanged? then [] else [last]
  }

  lemma NewsLast(log: seq<PageServerMessage>, m: PageServerMessage)
    ensures CommitNews(log + [m]) == CommitNews(log) + if m.LeaseChanged? then [] else [m]
  {
    assert (log + [m])[..|log|] == log;
  }

  /** What is to be told of the transaction that landed at `c`. */
  function NewsAt(sites: seq<Site>, events: seq<SocketEvent>, c: nat): Option<PageServerMessage>
    requires c < |events| && |sites| == |events| + 1
  {
    var s, busy := events[c].sessionId, sites[c + 1].busy;
    if s in busy && busy[s].Telling? then busy[s].news.told else None
  }

  /** Everything that is announced in the run goes out within the lease of its check. */
  ghost predicate AllPrompt(pageId: string, events: seq<SocketEvent>) {
    forall i, c, p, s :: Span(pageId, events, i, c, p, s) ==> Prompt(events, i, p)
  }

  datatype Told = Told(check: nat, landing: nat, announcement: nat)

  ghost predicate IsTold(
      sites: seq<Site>, pageId: string, events: seq<SocketEvent>, k: nat, d: Told, m: PageServerMessage)
    requires k <= |events| && |sites| == |events| + 1
  {
    && d.announcement < k && Span(pageId, events, d.check, d.landing, d.announcement, events[d.announcement].sessionId)
    && NewsAt(sites, events, d.landing) == Some(m)
  }

  /** One piece of news joins the log, after all those that landed before it. */
  lemma NextIsTold(sites: seq<Site>, pageId: string, events: seq<SocketEvent>, p: nat)
    returns (d: Told, told: PageServerMessage)
    requires IsRun(sites, pageId, events) && p < |events| && events[p].Announced?
    requires sites[p].busy[events[p].sessionId].news.told.Some?
    ensures told == sites[p].busy[events[p].sessionId].news.told.value && !told.LeaseChanged?
    ensures d.announcement == p && IsTold(sites, pageId, events, p + 1, d, told)
  {
    var i, c, m := TellingWasChecked(sites, pageId, events, p, events[p].sessionId);
    told := sites[p].busy[events[p].sessionId].news.told.value;
    d := Told(i, c, p);
    assert CheckedAt(pageId, events, i, p, events[p].sessionId, m);
  }

  lemma ToldInOrder(sites: seq<Site>, pageId: string, events: seq<SocketEvent>, d: Told, e: Told)
    requires IsRun(sites, pageId, events) && InTime(events) && AllPrompt(pageId, events)
    requires d.announcement < e.announcement < |events|
    requires Span(pageId, events, d.check, d.landing, d.announcement, events[d.announcement].sessionId)
    requires Span(pageId, events, e.check, e.landing, e.announcement, events[e.announcement].sessionId)
    ensures d.landing < e.landing
  {
    var s, other := events[d.announcement].sessionId, events[e.announcement].sessionId;
    if d.check != e.check {
      PromptTransactionsKeepOrder(sites, pageId, events, d.check, d.landing, d.announcement, s,
                                  e.check, e.landing, e.announcement, other);
    }
  }

  lemma QuietStep(sites: seq<Site>, pageId: string, events: seq<SocketEvent>, k: nat)
    requires IsRun(sites, pageId, events) && k < |events|
    requires events[k].Announced? ==> sites[k].busy[events[k].sessionId].news.told.None?
    ensures CommitNews(sites[k + 1].server.log) == CommitNews(sites[k].server.log)
  {
    var log := sites[k].server.log;
    NewsLast(log, LeaseChanged(Some(events[k].sessionId)));
    NewsLast(log, LeaseChanged(None));
    assert sites[k + 1] == After(sites[k], pageId, events[k]);
  }

  /** The news that has joined the log so far is that of these transactions, in
      the order they landed. */
  ghost predicate Accounts(sites: seq<Site>, pageId: string, events: seq<SocketEvent>, k: nat, tolds: seq<Told>)
    requires k <= |events| && |sites| == |events| + 1
  {
    var before, now := CommitNews(sites[0].server.log), CommitNews(sites[k].server.log);
    && |now| == |before| + |tolds| && now[..|before|] == before
    && (forall x :: 0 <= x < |tolds| ==> IsTold(sites, pageId, events, k, tolds[x], now[|before| + x]))
    && (forall x, y :: 0 <= x < y < |tolds| ==> tolds[x].landing < tolds[y].landing)
  }

  lemma QuietStepAccounts(sites: seq<Site>, pageId: string, events: seq<SocketEvent>, k: nat, tolds: seq<Told>)
    requires |sites| == |events| + 1 && k < |events| && Accounts(sites, pageId, events, k, tolds)
    requires CommitNews(sites[k + 1].server.log) == CommitNews(sites[k].server.log)
    ensures Accounts(sites, pageId, events, k + 1, tolds)
  {
    var before, now := CommitNews(sites[0].server.log), CommitNews(sites[k].server.log);
    forall x | 0 <= x < |tolds| ensures IsTold(sites, pageId, events, k + 1, tolds[x], now[|before| + x]) {
      assert IsTold(sites, pageId, events, k, tolds[x], now[|before| + x]);
    }
  }

  lemma StillTold(sites: seq<Site>, pageId: string, events: seq<SocketEvent>, k: nat, tolds: seq<Told>, x: nat)
    requires |sites| == |events| + 1 && k < |events| && Accounts(sites, pageId, events, k, tolds) && x < |tolds|
    ensures var before, now := CommitNews(sites[0].server.log), CommitNews(sites[k].server.log);
      IsTold(sites, pageId, events, k + 1, tolds[x], now[|before| + x])
  {
    var before, now := CommitNews(sites[0].server.log), CommitNews(sites[k].server.log);
    assert IsTold(sites, pageId, events, k, tolds[x], now[|before| + x]);
  }

  lemma ToldStepAccounts(sites: seq<Site>, pageId: string, events: seq<SocketEvent>, k: nat, tolds: seq<Told>,
                         d: Told, told: PageServerMessage)
    requires |sites| == |events| + 1 && k < |events| && Accounts(sites, pageId, events, k, tolds)
    requires CommitNews(sites[k + 1].server.log) == CommitNews(sites[k].server.log) + [told]
    requires IsTold(sites, pageId, events, k + 1, d, told)
    requires forall x :: 0 <= x < |tolds| ==> tolds[x].landing < d.landing
    ensures Accounts(sites, pageId, events, k + 1, tolds + [d])
  {
    var before, now := CommitNews(sites[0].server.log), CommitNews(sites[k].server.log);
    var more, after := tolds + [d], now + [told];
    assert after[..|before|] == now[..|before|];
    forall x | 0 <= x < |more| ensures IsTold(sites, pageId, events, k + 1, more[x], after[|before| + x]) {
      if x < |tolds| { StillTold(sites, pageId, events, k, tolds, x); }
    }
  }

  lemma AnnouncedJoinsTheLog(sites: seq<Site>, pageId: string, events: seq<SocketEvent>, p: nat)
    requires IsRun(sites, pageId, events) && p < |events| && events[p].Announced?
    ensures sites[p + 1].server.log == Said(sites[p].server.log, sites[p].busy[events[p].sessionId].news.told)
  {
  }

  lemma AccountsAt(sites: seq<Site>, pageId: string, events: seq<SocketEvent>, k: nat, tolds: seq<Told>, x: nat)
    requires k <= |events| && |sites| == |events| + 1 && Accounts(sites, pageId, events, k, tolds) && x < |tolds|
    ensures tolds[x].announcement < k
    ensures Span(pageId, events, tolds[x].check, tolds[x].landing, tolds[x].announcement,
                 events[tolds[x].announcement].sessionId)
  {
    var before, now := CommitNews(sites[0].server.log), CommitNews(sites[k].server.log);
    assert IsTold(sites, pageId, events, k, tolds[x], now[|before| + x]);
  }

  lemma LaterInOrder(sites: seq<Site>, pageId: string, events: seq<SocketEvent>, k: nat, tolds: seq<Told>, d: Told)
    requires IsRun(sites, pageId, events) && InTime(events) && AllPrompt(pageId, events) && k < |events|
    requires Accounts(sites, pageId, events, k, tolds) && d.announcement == k
    requires Span(pageId, events, d.check, d.landing, d.announcement, events[d.announcement].sessionId)
    ensures forall x :: 0 <= x < |tolds| ==> tolds[x].landing < d.landing
  {
    forall x | 0 <= x < |tolds| ensures tolds[x].landing < d.landing {
      AccountsAt(sites, pageId, events, k, tolds, x);
      ToldInOrder(sites, pageId, events, tolds[x], d);
    }
  }

  lemma NothingToldYet(sites: seq<Site>, pageId: string, events: seq<SocketEvent>)
    requires |sites| == |events| + 1
    ensures Accounts(sites, pageId, events, 0, [])
  {
  }

  /** One event more is accounted for. */
  lemma NextAccounts(sites: seq<Site>, pageId: string, events: seq<SocketEvent>, k: nat, tolds: seq<Told>)
    returns (more: seq<Told>)
    requires IsRun(sites, pageId, events) && InTime(events) && AllPrompt(pageId, events) && k < |events|
    requires Accounts(sites, pageId, events, k, tolds)
    ensures Accounts(sites, pageId, events, k + 1, more)
  {
    var e := events[k];
    if e.Announced? && sites[k].busy[e.sessionId].news.told.Some? {
      var d, told := NextIsTold(sites, pageId, events, k);
      AnnouncedJoinsTheLog(sites, pageId, events, k);
      NewsLast(sites[k].server.log, told);
      LaterInOrder(sites, pageId, events, k, tolds, d);
      ToldStepAccounts(sites, pageId, events, k, tolds, d, told);
      more := tolds + [d];
    } else {
      QuietStep(sites, pageId, events, k);
      QuietStepAccounts(sites, pageId, events, k, tolds);
      more := tolds;
    }
  }

  /** When everything announced goes out within the lease of its check, the news of
      commits is in the channel in the order in which the transactions landed. */
  lemma {:induction false} LogIsInLandingOrder(sites: seq<Site>, pageId: string, events: seq<SocketEvent>, k: nat)
    returns (tolds: seq<Told>)
    requires IsRun(sites, pageId, events) && InTime(events) && AllPrompt(pageId, events) && k <= |events|
    ensures Accounts(sites, pageId, events, k, tolds)
    decreases k
  {
    if k == 0 {
      NothingToldYet(sites, pageId, events);
      tolds := [];
    } else {
      var before := LogIsInLandingOrder(sites, pageId, events, k - 1);
      tolds := NextAccounts(sites, pageId, events, k - 1, before);
    }
  }

  // ---- Rows ---------------------------------------------------------------

  /** A commit is one step of the rows' history. */
  function StepOf(m: Mutation, now: int): History.Step {
    match m
    case AddInk(key, strokes) => History.AddStrokes(key, strokes, now)
    case EraseInk(key, ids) => History.EraseStrokes(key, ids, now)
    case Repaper(paper) => History.ChangePaper(paper, now)
  }

  lemma ChangeIsSound(sites: seq<Site>, pageId: string, events: seq<SocketEvent>, j: nat)
    requires IsRun(sites, pageId, events) && j < |events| && History.Sound(sites[j].server.tables)
    ensures History.Sound(sites[j + 1].server.tables)
  {
    var before, after := sites[j].server.tables, sites[j + 1].server.tables;
    if ChangesRows(sites, j) {
      var i, m := ChangeWasGranted(sites, pageId, events, j);
      var step := StepOf(m, events[j].now);
      assert after == Commit(before, m, events[j].now).0 == History.Apply(before, step);
      History.SoundStep(before, step);
    }
  }

  /** Whatever any sessions send, however their transactions interleave, the rows
      stay sound. */
  lemma {:induction false} EveryRunKeepsRowsSound(sites: seq<Site>, pageId: string, events: seq<SocketEvent>, k: nat)
    requires IsRun(sites, pageId, events) && k <= |events| && History.Sound(sites[0].server.tables)
    ensures History.Sound(sites[k].server.tables)
    decreases k
  {
    if k > 0 {
      EveryRunKeepsRowsSound(sites, pageId, events, k - 1);
      ChangeIsSound(sites, pageId, events, k - 1);
    }
  }

  // ---- Only good ink is stored --------------------------------------------

  predicate IsUppercaseRgb(color: string) {
    |color| == 7 && color[0] == '#' && forall i :: 1 <= i < 7 ==> color[i] in "0123456789ABCDEF"
  }

  function Halves(n: int): real { n as real / 2.0 }

  /** From 1 to 32, in steps of a half. */
  predicate IsPenWidth(width: real) { exists n: int :: 2 <= n <= 64 && width == Halves(n) }

  predicate IsPressure(pressure: Option<real>) { pressure.None? || 0.0 <= pressure.value <= 1.0 }

  /** Ink the service takes: named, in the one style it supports, with no pressure
      or one in range. */
  predicate IsGoodInk(s: Stroke) {
    && s.id != ""
    && s.style.toolKind == "solid_round" && s.style.styleVersion == 2
    && s.style.capStyle == "round" && s.style.joinStyle == "round"
    && IsUppercaseRgb(s.style.color) && IsPenWidth(s.style.width)
    && forall i :: 0 <= i < |s.points| ==> IsPressure(s.points[i].pressure)
  }

  predicate AllGoodInk(strokes: seq<Stroke>) { forall s :: s in strokes ==> IsGoodInk(s) }

  lemma HexDigit(c: char)
    ensures c in "0123456789ABCDEF" <==> '0' <= c <= '9' || 'A' <= c <= 'F'
  {
    if '0' <= c <= '9' {
      assert "0123456789ABCDEF"[c as int - '0' as int] == c;
    } else if 'A' <= c <= 'F' {
      assert "0123456789ABCDEF"[c as int - 'A' as int + 10] == c;
    }
  }

  lemma PenWidthInHalves(width: real)
    ensures IsPenWidth(width) <==> 1.0 <= width <= 32.0 && (width * 2.0).Floor as real == width * 2.0
  {
    if 1.0 <= width <= 32.0 && (width * 2.0).Floor as real == width * 2.0 {
      var n := (width * 2.0).Floor;
      assert 2 <= n <= 64 && width == Halves(n);
    }
  }

  lemma GoodInkIff(s: Stroke)
    ensures IsGoodInk(s) <==> s.id != "" && s.Valid()
  {
    PenWidthInHalves(s.style.width);
    if |s.style.color| == 7 {
      forall i | 1 <= i < 7
        ensures s.style.color[i] in "0123456789ABCDEF"
           <==> '0' <= s.style.color[i] <= '9' || 'A' <= s.style.color[i] <= 'F'
      {
        HexDigit(s.style.color[i]);
      }
    }
  }

  lemma AcceptableIff(strokes: seq<Stroke>)
    ensures Acceptable(strokes) <==> AllGoodInk(strokes)
  {
    forall s | s in strokes ensures IsGoodInk(s) <==> s.id != "" && s.Valid() { GoodInkIff(s); }
  }

  /** Of a session that no other keeps off the page, an add is left to run if and
      only if every stroke is good ink; else it is refused with the reason, and
      rows and channel stay as they are. */
  lemma OnlyGoodInkIsLeftToRun(
      server: Server, pageId: string, s: string, key: string, strokes: seq<Stroke>, now: int)
    requires !AnotherHolds(server.leases, pageId, s, now)
    ensures var (after, verdict) := Checked(server, pageId, s, CommitBatch(key, strokes), now);
      && after.tables == server.tables && after.log == server.log
      && (AllGoodInk(strokes) ==> verdict == ToPersist(AddInk(key, strokes)))
      && (!AllGoodInk(strokes) ==> verdict == Answered(Some(ErrorMessage("invalid_stroke_style",
           "strokes require a supported immutable solid_round style with in-range pressure"))))
  {
    AcceptableIff(strokes);
  }

  predicate IsGoodWork(work: Work) { work.Persisting? && work.mutation.AddInk? ==> AllGoodInk(work.mutation.strokes) }

  ghost predicate InkIsGood(site: Site) {
    && (forall row :: row in site.server.tables.batches ==> AllGoodInk(row.strokes))
    && (forall s :: s in site.busy ==> IsGoodWork(site.busy[s]))
  }

  lemma StoredInkIsGood(t: Tables, m: Mutation, now: int)
    requires forall row :: row in t.batches ==> AllGoodInk(row.strokes)
    requires m.AddInk? ==> AllGoodInk(m.strokes)
    ensures forall row :: row in Commit(t, m, now).0.batches ==> AllGoodInk(row.strokes)
  {
    if m.AddInk? { SurvivingMembers(m.strokes, t.tombstones.Keys); }
  }

  lemma EventKeepsInkGood(site: Site, pageId: string, e: SocketEvent)
    requires Possible(site, e) && InkIsGood(site)
    ensures InkIsGood(After(site, pageId, e))
  {
    if e.Landed? {
      StoredInkIsGood(site.server.tables, site.busy[e.sessionId].mutation, e.now);
    } else if e.Heard? && e.message.CommitBatch? {
      AcceptableIff(e.message.strokes);
    }
  }

  /** Whatever sessions send, in any run, every stroke stored is good ink. */
  lemma {:induction false} OnlyGoodInkIsStored(
      sites: seq<Site>, pageId: string, events: seq<SocketEvent>, k: nat)
    requires IsRun(sites, pageId, events) && k <= |events|
    requires forall row :: row in sites[0].server.tables.batches ==> AllGoodInk(row.strokes)
    ensures InkIsGood(sites[k])
    decreases k
  {
    if k > 0 {
      OnlyGoodInkIsStored(sites, pageId, events, k - 1);
      EventKeepsInkGood(sites[k - 1], pageId, events[k - 1]);
    }
  }

  // ---- What a session is answered -----------------------------------------

  /** What a message comes to, from the lease table alone: a session that another
      keeps off the page is told who does, and nothing else happens; any other that
      asks for the page has it for thirty seconds from now, and only an acquire is
      announced; a release frees the page of its holder and is announced, and any
      other is nothing. */
  lemma MessageIsAnswered(server: Server, pageId: string, s: string, message: PageClientMessage, now: int)
    requires !message.Subscribe? && !message.ReleaseLease?
    ensures var (after, verdict) := Checked(server, pageId, s, message, now);
      && after.tables == server.tables
      && (AnotherHolds(server.leases, pageId, s, now) ==>
            after == server && verdict == Answered(Some(LeaseDenied(server.leases[pageId].holder))))
      && (!AnotherHolds(server.leases, pageId, s, now) ==>
            && pageId in after.leases && after.leases[pageId] == Lease(s, now + 30_000)
            && after.log == server.log + (if message.AcquireLease? then [LeaseChanged(Some(s))] else [])
            && (message.AcquireLease? || message.RenewLease? ==> verdict == Answered(Some(LeaseGranted)))
            && (message.CommitTombstones? ==>
                  verdict == ToPersist(EraseInk(message.clientMutationId, message.strokeIds)))
            && (message.SetPaper? ==> verdict == ToPersist(Repaper(message.paper))))
  {
  }

  lemma ReleaseIsAnswered(server: Server, pageId: string, s: string, now: int)
    ensures var (after, verdict) := Checked(server, pageId, s, ReleaseLease, now);
      && verdict == Answered(None) && after.tables == server.tables
      && (if pageId in server.leases && server.leases[pageId].holder == s then
            after.leases == server.leases - {pageId} && after.log == server.log + [LeaseChanged(None)]
          else after == server)
  {
  }

  /** A transaction that was rolled back or whose end nobody heard of is answered
      with the error of its kind, and told to nobody; only the first leaves the rows
      as they were. */
  lemma FailureIsAnswered(t: Tables, m: Mutation, now: int, ending: Ending)
    requires !ending.Acknowledged?
    ensures var (u, news) := AfterPersist(t, m, now, ending);
      && u == (if ending.RolledBack? then t else AfterPersist(t, m, now, Acknowledged).0)
      && news.told.None? && news.reply.Some? && news.reply.value.ErrorMessage?
      && news.reply.value.code
         == if m.AddInk? then "commit_failed" else if m.EraseInk? then "tombstone_failed" else "paper_failed"
  {
  }

  /** What subscribers are told of an add: the strokes not erased by then, under
      the seq of the row its key has, or nothing if every one is erased. */
  lemma InkIsAnswered(t: Tables, key: string, strokes: seq<Stroke>, now: int)
    requires History.Sound(t)
    ensures var (u, news) := AfterPersist(t, AddInk(key, strokes), now, Acknowledged);
      var visible := Surviving(strokes, t.tombstones.Keys);
      && news.reply.None?
      && (news.told.Some? <==> visible != [])
      && (visible != [] ==>
            && (exists row :: row in u.batches && row.clientBatchId == key
                  && news.told == Some(LiveBatch(StrokeBatch(row.seqNo, key, visible)))))
  {
    History.FindBatchSpec(t.batches, key);
    var u := AfterPersist(t, AddInk(key, strokes), now, Acknowledged).0;
    if Surviving(strokes, t.tombstones.Keys) != [] {
      if FindBatch(t.batches, key).None? { assert u.batches[|t.batches|] in u.batches; }
    }
  }

  /** Of an erase: the ids it erased, as the row under its key has them. */
  lemma EraseIsAnswered(t: Tables, key: string, ids: seq<string>, now: int)
    requires History.Sound(t)
    ensures var (u, news) := AfterPersist(t, EraseInk(key, ids), now, Acknowledged);
      && news.reply.None? && news.told.Some? && news.told.value.LiveTombstones?
      && news.told.value.erased in u.erasures && news.told.value.erased.clientMutationId == key
  {
    History.EraseAcknowledgedAsStored(t, key, ids, now);
  }

  /** Of a paper: the change to all if it is one, and the paper in force to the
      session that asked if not. */
  lemma PaperIsAnswered(t: Tables, paper: Paper, now: int)
    ensures var (u, news) := AfterPersist(t, Repaper(paper), now, Acknowledged);
      var word := Some(PaperChanged(paper, u.revision));
      && u.paper == paper
      && news == if t.paper == paper then News(None, word) else News(word, None)
  {
  }
}
