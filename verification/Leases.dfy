/** Whole runs of the hub's lease and ticket operations, on a clock that never
    goes back. */
module Leases {
  import opened Protocol
  import opened Hub

  // ---- The edit lease -----------------------------------------------------

  datatype LeaseEvent =
    | Acquire(pageId: string, sessionId: string, now: int)
    | Release(pageId: string, sessionId: string, now: int)
    | Peek(pageId: string, now: int)
    | Untouched(now: int)

  function ApplyLease(leases: map<string, Lease>, e: LeaseEvent): map<string, Lease> {
    match e
    case Acquire(p, s, now) => AfterAcquire(leases, p, s, now).0
    case Release(p, s, _) => AfterRelease(leases, p, s).0
    case Peek(p, now) => AfterPeek(leases, p, now).0
    case Untouched(_) => leases
  }

  /** The leases after the first `k` events. */
  function LeasesAt(events: seq<LeaseEvent>, k: nat): map<string, Lease>
    requires k <= |events|
  {
    if k == 0 then map[] else ApplyLease(LeasesAt(events, k - 1), events[k - 1])
  }

  ghost predicate InTime(events: seq<LeaseEvent>) {
    forall i, j :: 0 <= i < j < |events| ==> events[i].now <= events[j].now
  }

  /** Event `k` asks for the lease of `p` for session `s`, and gets it. */
  ghost predicate GrantedAt(events: seq<LeaseEvent>, k: nat, p: string, s: string)
    requires k < |events|
  {
    events[k].Acquire? && events[k].pageId == p && events[k].sessionId == s
    && AfterAcquire(LeasesAt(events, k), p, s, events[k].now).1.Granted?
  }

  /** `s` was granted `p` at `g`, its last grant before `j`, and nothing since
      ended it: no release by `s`, and the 30 seconds are not over at `j`. */
  ghost predicate StillRuns(events: seq<LeaseEvent>, g: nat, j: nat, p: string, s: string)
    requires g < j < |events|
  {
    && GrantedAt(events, g, p, s)
    && (forall k :: g < k < j ==> !GrantedAt(events, k, p, s))
    && (forall k :: g < k < j ==>
          !(events[k].Release? && events[k].pageId == p && events[k].sessionId == s))
    && events[j].now < events[g].now + LEASE_TTL_MS
  }

  lemma {:induction false} HeldThrough(events: seq<LeaseEvent>, g: nat, k: nat, j: nat, p: string, s: string)
    requires InTime(events) && g < k <= j < |events| && StillRuns(events, g, j, p, s)
    ensures p in LeasesAt(events, k) && LeasesAt(events, k)[p] == Lease(s, events[g].now + LEASE_TTL_MS)
    decreases k
  {
    if k > g + 1 {
      HeldThrough(events, g, k - 1, j, p, s);
      assert events[k - 1].now <= events[j].now;
      assert !GrantedAt(events, k - 1, p, s);
    }
  }

  /** While a lease runs, its holder is who a peek names, everyone else is
      denied in its name, and the holder itself is renewed. */
  lemma RunningLeaseIsExclusive(events: seq<LeaseEvent>, g: nat, j: nat, p: string, s: string)
    requires InTime(events) && g < j < |events| && StillRuns(events, g, j, p, s)
    ensures var leases := LeasesAt(events, j);
      && (forall other :: other != s ==>
            AfterAcquire(leases, p, other, events[j].now) == (leases, Denied(s)))
      && AfterAcquire(leases, p, s, events[j].now).1.Granted?
      && AfterPeek(leases, p, events[j].now) == (leases, Some(s))
  {
    HeldThrough(events, g, j, j, p, s);
  }

  /** Lease exclusivity over whole runs: after a grant to one session, another
      is granted the page only once the holder has released it or 30 seconds
      have passed since the holder's last grant. */
  lemma GrantsAreExclusive(events: seq<LeaseEvent>, g: nat, j: nat, p: string, holder: string, other: string)
    requires InTime(events) && g < j < |events| && holder != other
    requires GrantedAt(events, g, p, holder) && GrantedAt(events, j, p, other)
    requires forall k :: g < k < j ==> !GrantedAt(events, k, p, holder)
    ensures
      || (exists k :: g < k < j && events[k].Release? && events[k].pageId == p && events[k].sessionId == holder)
      || events[j].now >= events[g].now + LEASE_TTL_MS
  {
    if StillRuns(events, g, j, p, holder) {
      RunningLeaseIsExclusive(events, g, j, p, holder);
    }
  }

  /** Told from the events alone: before event `k`, `s` was granted `p`, has not
      released it since, and the 30 seconds are not over at `now`. */
  ghost predicate Running(events: seq<LeaseEvent>, k: nat, p: string, s: string, now: int)
    requires k <= |events|
  {
    exists g :: 0 <= g < k && RunsSince(events, g, k, p, s, now)
  }

  ghost predicate RunsSince(events: seq<LeaseEvent>, g: nat, k: nat, p: string, s: string, now: int)
    requires g < k <= |events|
  {
    && GrantedAt(events, g, p, s)
    && now < events[g].now + LEASE_TTL_MS
    && forall i :: g < i < k ==> !(events[i].Release? && events[i].pageId == p && events[i].sessionId == s)
  }

  /** The table names `s` for `p`, and the entry has not expired. */
  predicate HoldsLive(leases: map<string, Lease>, p: string, s: string, now: int) {
    p in leases && leases[p].holder == s && leases[p].expiresAt > now
  }

  /** The lease table tells the truth: it names a session, unexpired, exactly
      while that session's grant runs. */
  lemma {:induction false} TableNamesWhoRuns(events: seq<LeaseEvent>, k: nat, p: string, s: string, now: int)
    requires InTime(events) && k <= |events| && forall i :: 0 <= i < k ==> events[i].now <= now
    ensures HoldsLive(LeasesAt(events, k), p, s, now) <==> Running(events, k, p, s, now)
    decreases k
  {
    if k > 0 {
      TableNamesWhoRuns(events, k - 1, p, s, now);
      if HoldsLive(LeasesAt(events, k), p, s, now) {
        TableSaysRunning(events, k, p, s, now);
      }
      if Running(events, k, p, s, now) {
        RunningIsInTable(events, k, p, s, now);
      }
    }
  }

  /** A session that asks is granted the page exactly when no other session's
      grant still runs, and then holds it for thirty seconds from there. */
  lemma GrantedIffFree(events: seq<LeaseEvent>, k: nat)
    requires InTime(events) && k < |events| && events[k].Acquire?
    ensures var (p, s, now) := (events[k].pageId, events[k].sessionId, events[k].now);
      && (GrantedAt(events, k, p, s) <==> forall other :: other != s ==> !Running(events, k, p, other, now))
      && (GrantedAt(events, k, p, s) ==>
            p in LeasesAt(events, k + 1) && LeasesAt(events, k + 1)[p] == Lease(s, now + 30_000))
  {
    var (p, s, now) := (events[k].pageId, events[k].sessionId, events[k].now);
    forall other ensures HoldsLive(LeasesAt(events, k), p, other, now) <==> Running(events, k, p, other, now) {
      TableNamesWhoRuns(events, k, p, other, now);
    }
    var leases := LeasesAt(events, k);
    if !GrantedAt(events, k, p, s) { assert HoldsLive(leases, p, leases[p].holder, now); }
  }

  lemma TableSaysRunning(events: seq<LeaseEvent>, k: nat, p: string, s: string, now: int)
    requires 0 < k <= |events| && HoldsLive(LeasesAt(events, k), p, s, now)
    requires HoldsLive(LeasesAt(events, k - 1), p, s, now) <==> Running(events, k - 1, p, s, now)
    ensures Running(events, k, p, s, now)
  {
    if GrantedAt(events, k - 1, p, s) {
      assert RunsSince(events, k - 1, k, p, s, now);
    } else {
      assert HoldsLive(LeasesAt(events, k - 1), p, s, now);
      var g :| 0 <= g < k - 1 && RunsSince(events, g, k - 1, p, s, now);
      assert RunsSince(events, g, k, p, s, now);
    }
  }

  lemma RunningIsInTable(events: seq<LeaseEvent>, k: nat, p: string, s: string, now: int)
    requires InTime(events) && 0 < k <= |events| && events[k - 1].now <= now
    requires Running(events, k, p, s, now)
    requires HoldsLive(LeasesAt(events, k - 1), p, s, now) <==> Running(events, k - 1, p, s, now)
    ensures HoldsLive(LeasesAt(events, k), p, s, now)
  {
    var g :| 0 <= g < k && RunsSince(events, g, k, p, s, now);
    if g < k - 1 {
      assert RunsSince(events, g, k - 1, p, s, now);
      assert events[g].now <= events[k - 1].now;
    }
  }

  /** Who holds the page, if anyone does: a peek names exactly the session whose
      grant runs, and drops an entry that is over. */
  lemma PeekNamesWhoRuns(events: seq<LeaseEvent>, k: nat, p: string, now: int)
    requires InTime(events) && k <= |events| && forall i :: 0 <= i < k ==> events[i].now <= now
    ensures var (leases, holder) := AfterPeek(LeasesAt(events, k), p, now);
      && (forall s :: holder == Some(s) <==> Running(events, k, p, s, now))
      && (holder.None? ==> p !in leases)
      && (forall q :: q in leases ==> q in LeasesAt(events, k) && leases[q] == LeasesAt(events, k)[q])
  {
    var holder := AfterPeek(LeasesAt(events, k), p, now).1;
    forall s ensures holder == Some(s) <==> Running(events, k, p, s, now) {
      TableNamesWhoRuns(events, k, p, s, now);
    }
  }

  /** A session whose socket loop ended released what it held and, sending
      nothing more, never holds anything again. */
  lemma {:induction false} EndedSessionHoldsNothing(events: seq<LeaseEvent>, end: nat, k: nat, p: string, s: string)
    requires end < k <= |events|
    requires events[end].Release? && events[end].pageId == p && events[end].sessionId == s
    requires forall i :: end < i < |events| && events[i].Acquire? ==> events[i].sessionId != s
    ensures !(p in LeasesAt(events, k) && LeasesAt(events, k)[p].holder == s)
    decreases k
  {
    if k > end + 1 { EndedSessionHoldsNothing(events, end, k - 1, p, s); }
  }

  // ---- Tickets ------------------------------------------------------------

  datatype TicketEvent =
    | Issue(ticket: string, ownerId: string, now: int)
    | Consume(ticket: string, now: int)

  function TicketsAt(events: seq<TicketEvent>, k: nat): map<string, Ticket>
    requires k <= |events|
  {
    if k == 0 then map[]
    else match events[k - 1]
      case Issue(t, owner, now) => AfterIssue(TicketsAt(events, k - 1), t, owner, now)
      case Consume(t, now) => AfterConsume(TicketsAt(events, k - 1), t, now).0
  }

  /** Times never go back and no ticket is minted twice. */
  ghost predicate Plausible(events: seq<TicketEvent>) {
    && (forall i, j :: 0 <= i < j < |events| ==> events[i].now <= events[j].now)
    && (forall i, j :: 0 <= i < j < |events| && events[i].Issue? && events[j].Issue? ==>
          events[i].ticket != events[j].ticket)
  }

  /** `t`, issued at `i`, has met no redemption attempt before `k`. */
  ghost predicate Unspent(events: seq<TicketEvent>, i: nat, k: nat, t: string, owner: string)
    requires k <= |events|
  {
    i < k && events[i].Issue? && events[i].ticket == t && events[i].ownerId == owner
    && forall x :: i < x < k ==> !(events[x].Consume? && events[x].ticket == t)
  }

  /** The table holds a ticket only while it is unspent, and holds every unspent
      one that has not expired by `now`. */
  lemma {:induction false} TableIsUnspent(events: seq<TicketEvent>, k: nat, t: string, owner: string, now: int)
    requires Plausible(events) && k <= |events|
    requires forall x :: 0 <= x < k ==> events[x].now <= now
    ensures
      var table := TicketsAt(events, k);
      (t in table && table[t].expiresAt > now && table[t].ownerId == owner)
      <==> (exists i :: 0 <= i < k && Unspent(events, i, k, t, owner) && now < events[i].now + TICKET_TTL_MS)
    decreases k
  {
    if k > 0 {
      TableIsUnspent(events, k - 1, t, owner, now);
      var e := events[k - 1];
      forall i | 0 <= i < k - 1
        ensures Unspent(events, i, k, t, owner) <==>
          Unspent(events, i, k - 1, t, owner) && !(e.Consume? && e.ticket == t)
      {
      }
      if e.Issue? && e.ticket == t { assert Unspent(events, k - 1, k, t, e.ownerId); }
    }
  }

  /** A redemption leaves no expired ticket, and of the others all but the one it
      names. */
  lemma RedemptionSweeps(tickets: map<string, Ticket>, ticket: string, now: int)
    ensures var left := AfterConsume(tickets, ticket, now).0;
      && (forall t :: t in left <==> t in tickets && t != ticket && tickets[t].expiresAt > now)
      && (forall t :: t in left ==> left[t] == tickets[t])
  {
  }

  /** A redemption succeeds, for exactly the owner it was issued to, if and only
      if the ticket was issued less than 60 seconds ago and never redeemed. */
  lemma RedeemedOnceWithinItsMinute(events: seq<TicketEvent>, j: nat, owner: string)
    requires Plausible(events) && j < |events| && events[j].Consume?
    ensures AfterConsume(TicketsAt(events, j), events[j].ticket, events[j].now).1 == Some(owner)
      <==> exists i :: 0 <= i < j && Unspent(events, i, j, events[j].ticket, owner)
             && events[j].now < events[i].now + TICKET_TTL_MS
  {
    TableIsUnspent(events, j, events[j].ticket, owner, events[j].now);
  }
}
