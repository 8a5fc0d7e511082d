/** In-process realtime state: single-use tickets, one bounded broadcast channel
    per page, and the single-editor lease. `now` is in milliseconds. */
module Hub {
  import opened Protocol

  const PAGE_CHANNEL_CAPACITY := 256
  const LEASE_TTL_MS := 30_000
  const TICKET_TTL_MS := 60_000

  // ---- Broadcast channel --------------------------------------------------

  datatype Received =
    | Message(message: PageServerMessage)
    | Lagged(skipped: nat)
    | NothingYet

  /** What a receiver standing at `position` gets from a channel that has
      carried `log`: the next message, unless the ring has overwritten it. */
  function Receive(log: seq<PageServerMessage>, position: nat): Received {
    if position >= |log| then NothingYet
    else if position + PAGE_CHANNEL_CAPACITY < |log| then Lagged(|log| - PAGE_CHANNEL_CAPACITY - position)
    else Message(log[position])
  }

  /** A broadcast channel: the last `PAGE_CHANNEL_CAPACITY` messages and how many
      were ever sent. */
  datatype Ring = Ring(held: seq<PageServerMessage>, sent: nat) {
    function Push(message: PageServerMessage): Ring {
      var more := held + [message];
      Ring(if |more| > PAGE_CHANNEL_CAPACITY then more[1..] else more, sent + 1)
    }

    function Recv(position: nat): Received
      requires |held| <= sent
    {
      var oldest := sent - |held|;
      if position >= sent then NothingYet
      else if position < oldest then Lagged(oldest - position)
      else Message(held[position - oldest])
    }

    ghost predicate Carries(log: seq<PageServerMessage>) {
      && sent == |log|
      && |held| == Min(sent, PAGE_CHANNEL_CAPACITY)
      && held == log[sent - |held|..]
    }
  }

  lemma PushCarries(ring: Ring, log: seq<PageServerMessage>, message: PageServerMessage)
    requires ring.Carries(log)
    ensures ring.Push(message).Carries(log + [message])
  {
  }

  /** A receiver of the ring hears what a receiver of the whole log would, or is
      told that it lagged; it never skips a message silently. */
  lemma RecvRefinesLog(ring: Ring, log: seq<PageServerMessage>, position: nat)
    requires ring.Carries(log)
    ensures ring.Recv(position) == Receive(log, position)
  {
  }

  // ---- Lease --------------------------------------------------------------

  datatype Lease = Lease(holder: string, expiresAt: int)

  datatype LeaseOutcome = Granted | Denied(holder: string)

  function AfterAcquire(leases: map<string, Lease>, pageId: string, sessionId: string, now: int)
    : (map<string, Lease>, LeaseOutcome)
  {
    var swept := if pageId in leases && leases[pageId].expiresAt <= now then leases - {pageId} else leases;
    if pageId in swept && swept[pageId].holder != sessionId then
      (swept, Denied(swept[pageId].holder))
    else
      (swept[pageId := Lease(sessionId, now + LEASE_TTL_MS)], Granted)
  }

  function AfterRelease(leases: map<string, Lease>, pageId: string, sessionId: string): (map<string, Lease>, bool) {
    if pageId in leases && leases[pageId].holder == sessionId then (leases - {pageId}, true)
    else (leases, false)
  }

  function AfterPeek(leases: map<string, Lease>, pageId: string, now: int): (map<string, Lease>, Option<string>) {
    if pageId !in leases then (leases, None)
    else if leases[pageId].expiresAt > now then (leases, Some(leases[pageId].holder))
    else (leases - {pageId}, None)
  }

  // ---- Tickets ------------------------------------------------------------

  datatype Ticket = Ticket(ownerId: string, expiresAt: int)

  function AfterIssue(tickets: map<string, Ticket>, ticket: string, ownerId: string, now: int): map<string, Ticket> {
    tickets[ticket := Ticket(ownerId, now + TICKET_TTL_MS)]
  }

  /** Sweeps what has expired, then removes and returns the ticket if it is left. */
  function AfterConsume(tickets: map<string, Ticket>, ticket: string, now: int): (map<string, Ticket>, Option<string>) {
    var live := map t | t in tickets && tickets[t].expiresAt > now :: tickets[t];
    if ticket in live then (live - {ticket}, Some(live[ticket].ownerId)) else (live, None)
  }

  // ---- The hub as it runs -------------------------------------------------

  function LogOf(logs: map<string, seq<PageServerMessage>>, pageId: string): seq<PageServerMessage> {
    if pageId in logs then logs[pageId] else []
  }

  ghost predicate AllCarry(rings: map<string, Ring>, logs: map<string, seq<PageServerMessage>>) {
    logs.Keys == rings.Keys && forall p :: p in logs ==> rings[p].Carries(logs[p])
  }

  lemma ReplaceCarries(
      rings: map<string, Ring>, logs: map<string, seq<PageServerMessage>>, pageId: string,
      ring: Ring, log: seq<PageServerMessage>)
    requires AllCarry(rings, logs) && ring.Carries(log)
    ensures AllCarry(rings[pageId := ring], logs[pageId := log])
  {
  }

  class RealtimeHub {
    var tickets: map<string, Ticket>
    var leases: map<string, Lease>
    var pageChannels: map<string, Ring>
    /** What has been published on each page that has a channel. */
    ghost var logs: map<string, seq<PageServerMessage>>

    ghost predicate Valid() reads this { AllCarry(pageChannels, logs) }

    constructor ()
      ensures Valid() && leases == map[] && tickets == map[] && logs == map[]
    {
      tickets, leases, pageChannels, logs := map[], map[], map[], map[];
    }

    /** A new receiver hears only what is published from here on. */
    method SubscribePage(pageId: string) returns (position: nat)
      requires Valid()
      modifies this`pageChannels, this`logs
      ensures Valid() && position == |LogOf(old(logs), pageId)|
      ensures logs == old(logs)[pageId := LogOf(old(logs), pageId)]
    {
      if pageId !in pageChannels {
        pageChannels, logs := pageChannels[pageId := Ring([], 0)], logs[pageId := []];
      }
      position := pageChannels[pageId].sent;
    }

    method PublishPage(pageId: string, message: PageServerMessage)
      requires Valid()
      modifies this`pageChannels, this`logs
      ensures Valid()
      ensures logs == old(logs)[pageId := LogOf(old(logs), pageId) + [message]]
    {
      var ring := if pageId in pageChannels then pageChannels[pageId] else Ring([], 0);
      ghost var log := LogOf(logs, pageId);
      PushCarries(ring, log, message);
      ReplaceCarries(pageChannels, logs, pageId, ring.Push(message), log + [message]);
      pageChannels := pageChannels[pageId := ring.Push(message)];
      logs := logs[pageId := log + [message]];
    }

    method Recv(pageId: string, position: nat) returns (r: Received)
      requires Valid() && pageId in pageChannels
      ensures r == Receive(logs[pageId], position)
    {
      r := pageChannels[pageId].Recv(position);
    }

    method AcquireLease(pageId: string, sessionId: string, now: int) returns (outcome: LeaseOutcome)
      modifies this`leases
      ensures (leases, outcome) == AfterAcquire(old(leases), pageId, sessionId, now)
    {
      if pageId in leases && leases[pageId].expiresAt <= now {
        leases := leases - {pageId};
      }
      if pageId in leases && leases[pageId].holder != sessionId {
        return Denied(leases[pageId].holder);
      }
      leases := leases[pageId := Lease(sessionId, now + LEASE_TTL_MS)];
      outcome := Granted;
    }

    method ReleaseLease(pageId: string, sessionId: string) returns (released: bool)
      modifies this`leases
      ensures (leases, released) == AfterRelease(old(leases), pageId, sessionId)
    {
      released := pageId in leases && leases[pageId].holder == sessionId;
      if released {
        leases := leases - {pageId};
      }
    }

    method CurrentLeaseHolder(pageId: string, now: int) returns (holder: Option<string>)
      modifies this`leases
      ensures (leases, holder) == AfterPeek(old(leases), pageId, now)
    {
      if pageId !in leases {
        return None;
      }
      if leases[pageId].expiresAt > now {
        return Some(leases[pageId].holder);
      }
      leases := leases - {pageId};
      holder := None;
    }

    method IssueTicket(ticket: string, ownerId: string, now: int)
      modifies this`tickets
      ensures tickets == AfterIssue(old(tickets), ticket, ownerId, now)
    {
      tickets := tickets[ticket := Ticket(ownerId, now + TICKET_TTL_MS)];
    }

    method ConsumeTicket(ticket: string, now: int) returns (owner: Option<string>)
      modifies this`tickets
      ensures (tickets, owner) == AfterConsume(old(tickets), ticket, now)
    {
      tickets := map t | t in tickets && tickets[t].expiresAt > now :: tickets[t];
      if ticket in tickets {
        owner := Some(tickets[ticket].ownerId);
        tickets := tickets - {ticket};
      } else {
        owner := None;
      }
    }
  }
}
