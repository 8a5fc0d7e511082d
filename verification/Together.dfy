/** The sessions and a viewer together: the machine of leases, checks and
    transactions drives the page channel, and what the leases give the channel. */
module Together {
  import opened Protocol
  import opened Store
  import opened Viewer
  import opened Hub
  import opened Dispatch
  import opened Convergence
  import opened Pending
  import opened PageSystem
  import Editing

  // ---- The machine --------------------------------------------------------

  datatype Step = Edit(e: Editing.SocketEvent) | View(v: Event)

  /** A page's server side with the time each work under way was checked, the
      sessions whose news waits in the order their transactions landed, and the
      channel with its viewer. */
  datatype Joint = Joint(site: Editing.Site, since: map<string, int>, waiting: seq<string>, world: World)

  predicate IsViewers(v: Event) {
    !v.Committed? && !v.CommittedUnheard? && !v.Published? && !v.LeaseAnnounced?
  }

  function IndexOf(waiting: seq<string>, s: string): (i: nat)
    ensures i <= |waiting|
    ensures i < |waiting| ==> waiting[i] == s
  {
    if waiting == [] || waiting[0] == s then 0 else 1 + IndexOf(waiting[1..], s)
  }

  function Without<T>(items: seq<T>, i: nat): seq<T> {
    if i < |items| then items[..i] + items[i + 1..] else items
  }

  /** What a session's event is to the page channel, if anything. */
  function EventOf(j: Joint, pageId: string, e: Editing.SocketEvent): Option<Event>
    requires Editing.Possible(j.site, e)
  {
    match e
    case Landed(s, ending, now) =>
      var m := j.site.busy[s].mutation;
      (match ending
       case Acknowledged => Some(Committed(m, now))
       case RolledBack => None
       case Unacknowledged => Some(CommittedUnheard(m, now)))
    case Announced(s, _) =>
      if j.site.busy[s].news.told.Some? then Some(Published(IndexOf(j.waiting, s))) else None
    case _ =>
      var log := Editing.After(j.site, pageId, e).server.log;
      if |log| <= |j.world.log| || !log[|log| - 1].LeaseChanged? then None
      else Some(LeaseAnnounced(log[|log| - 1].holder))
  }

  /** A transaction that adds ink carries what its key stands for. */
  predicate Follows(m: Mutation, payload: map<string, seq<Stroke>>) {
    m.AddInk? ==> m.key in payload && payload[m.key] == m.strokes
  }

  ghost predicate CanTake(j: Joint, pageId: string, step: Step, payload: map<string, seq<Stroke>>) {
    match step
    case View(v) => IsViewers(v) && Enabled(j.world, v, payload, false)
    case Edit(e) =>
      && Editing.Possible(j.site, e)
      && (e.Landed? ==> Follows(j.site.busy[e.sessionId].mutation, payload))
      && (EventOf(j, pageId, e).Some? ==> Enabled(j.world, EventOf(j, pageId, e).value, payload, false))
  }

  function SinceAfter(j: Joint, pageId: string, e: Editing.SocketEvent): map<string, int>
    requires Editing.Possible(j.site, e)
  {
    match e
    case Heard(s, message, now) =>
      if Checked(j.site.server, pageId, s, message, now).1.ToPersist? then j.since[s := now] else j.since
    case Announced(s, _) => j.since - {s}
    case _ => j.since
  }

  function WaitingAfter(j: Joint, pageId: string, e: Editing.SocketEvent): seq<string>
    requires Editing.Possible(j.site, e)
  {
    match e
    case Landed(s, _, _) =>
      var next := Editing.After(j.site, pageId, e);
      if next.busy[s].news.told.Some? then j.waiting + [s] else j.waiting
    case Announced(s, _) =>
      if j.site.busy[s].news.told.Some? then Without(j.waiting, IndexOf(j.waiting, s)) else j.waiting
    case _ => j.waiting
  }

  ghost function Taken(j: Joint, pageId: string, step: Step, payload: map<string, seq<Stroke>>): Joint
    requires CanTake(j, pageId, step, payload)
  {
    match step
    case View(v) => j.(world := Next(j.world, v, payload, false))
    case Edit(e) =>
      var event := EventOf(j, pageId, e);
      Joint(Editing.After(j.site, pageId, e), SinceAfter(j, pageId, e), WaitingAfter(j, pageId, e),
            if event.Some? then Next(j.world, event.value, payload, false) else j.world)
  }

  /** The channel tells the sessions' story: its tables and log are the server's,
      and what is unpublished is the news that waits, in landing order. */
  ghost predicate Tied(j: Joint) {
    && j.world.tables == j.site.server.tables && j.world.log == j.site.server.log
    && |j.waiting| == |j.world.unpublished|
    && (forall i, k :: 0 <= i < k < |j.waiting| ==> j.waiting[i] != j.waiting[k])
    && (forall s :: s in j.waiting <==> Waits(j.site, s))
    && (forall i :: 0 <= i < |j.waiting| ==> NewsOf(j.site, j.waiting[i]) == Some(j.world.unpublished[i]))
  }

  predicate Waits(site: Editing.Site, s: string) {
    s in site.busy && site.busy[s].Telling? && site.busy[s].news.told.Some?
  }

  function NewsOf(site: Editing.Site, s: string): Option<PageServerMessage> {
    if s in site.busy && site.busy[s].Telling? then site.busy[s].news.told else None
  }

  lemma {:induction false} IndexOfMember(waiting: seq<string>, s: string)
    requires s in waiting
    ensures IndexOf(waiting, s) < |waiting| && waiting[IndexOf(waiting, s)] == s
  {
    if waiting[0] != s { IndexOfMember(waiting[1..], s); }
  }

  // ---- The story stays one ------------------------------------------------

  lemma LandedStaysTied(j: Joint, pageId: string, e: Editing.SocketEvent, payload: map<string, seq<Stroke>>)
    requires Tied(j) && CanTake(j, pageId, Edit(e), payload) && e.Landed?
    ensures Tied(Taken(j, pageId, Edit(e), payload))
  {
    var next := Taken(j, pageId, Edit(e), payload);
    var s := e.sessionId;
    assert s !in j.waiting;
    assert next.site.busy == j.site.busy[s := next.site.busy[s]];
    forall x ensures x in next.waiting <==> Waits(next.site, x) {
      assert x != s ==> (Waits(next.site, x) <==> Waits(j.site, x));
    }
  }

  lemma WithoutOne(waiting: seq<string>, s: string)
    requires s in waiting && forall i, k :: 0 <= i < k < |waiting| ==> waiting[i] != waiting[k]
    ensures var rest := Without(waiting, IndexOf(waiting, s));
      && (forall x :: x in rest <==> x in waiting && x != s)
      && (forall i, k :: 0 <= i < k < |rest| ==> rest[i] != rest[k])
  {
    IndexOfMember(waiting, s);
    var i := IndexOf(waiting, s);
    assert waiting == waiting[..i] + [s] + waiting[i + 1..];
  }

  lemma AnnouncedStaysTied(j: Joint, pageId: string, e: Editing.SocketEvent, payload: map<string, seq<Stroke>>)
    requires Tied(j) && CanTake(j, pageId, Edit(e), payload) && e.Announced?
    ensures Tied(Taken(j, pageId, Edit(e), payload))
  {
    var next, s := Taken(j, pageId, Edit(e), payload), e.sessionId;
    assert next.site.busy == j.site.busy - {s};
    if j.site.busy[s].news.told.Some? {
      assert Waits(j.site, s);
      IndexOfMember(j.waiting, s);
      WithoutOne(j.waiting, s);
    }
    forall x ensures x in next.waiting <==> Waits(next.site, x) {
      assert x != s ==> (Waits(next.site, x) <==> Waits(j.site, x));
    }
  }

  lemma HeardStaysTied(j: Joint, pageId: string, e: Editing.SocketEvent, payload: map<string, seq<Stroke>>)
    requires Tied(j) && CanTake(j, pageId, Edit(e), payload) && (e.Heard? || e.Closed?)
    ensures Tied(Taken(j, pageId, Edit(e), payload))
  {
    var next := Taken(j, pageId, Edit(e), payload);
    forall x ensures Waits(next.site, x) <==> Waits(j.site, x) {}
  }

  lemma StepStaysTied(j: Joint, pageId: string, step: Step, payload: map<string, seq<Stroke>>)
    requires Tied(j) && CanTake(j, pageId, step, payload)
    ensures Tied(Taken(j, pageId, step, payload))
  {
    if step.Edit? {
      if step.e.Landed? { LandedStaysTied(j, pageId, step.e, payload); }
      else if step.e.Announced? { AnnouncedStaysTied(j, pageId, step.e, payload); }
      else { HeardStaysTied(j, pageId, step.e, payload); }
    }
  }

  /** Whatever its sessions can do, the page channel can follow: only ink under a
      key that carries something else than before is kept out. */
  lemma SessionsAreFollowed(j: Joint, pageId: string, e: Editing.SocketEvent, payload: map<string, seq<Stroke>>)
    requires Tied(j) && Editing.Possible(j.site, e)
    requires e.Landed? ==> Follows(j.site.busy[e.sessionId].mutation, payload)
    ensures CanTake(j, pageId, Edit(e), payload)
  {
    if e.Announced? && j.site.busy[e.sessionId].news.told.Some? {
      assert Waits(j.site, e.sessionId);
      IndexOfMember(j.waiting, e.sessionId);
    }
  }

  // ---- Runs ---------------------------------------------------------------

  /** `joints` is a run of `steps`, from a page nobody edits yet and a viewer just
      opened. */
  ghost predicate IsJointRun(joints: seq<Joint>, pageId: string, steps: seq<Step>, payload: map<string, seq<Stroke>>) {
    && |joints| == |steps| + 1
    && Start(joints[0].world, payload) && Tied(joints[0])
    && joints[0].site.busy == map[] && joints[0].site.server.leases == map[]
    && forall k :: 0 <= k < |steps| ==>
         CanTake(joints[k], pageId, steps[k], payload) && joints[k + 1] == Taken(joints[k], pageId, steps[k], payload)
  }

  lemma {:induction false} RunStaysTied(
      joints: seq<Joint>, pageId: string, steps: seq<Step>, payload: map<string, seq<Stroke>>, k: nat)
    requires IsJointRun(joints, pageId, steps, payload) && k <= |steps|
    ensures Tied(joints[k])
    decreases k
  {
    if k > 0 {
      RunStaysTied(joints, pageId, steps, payload, k - 1);
      StepStaysTied(joints[k - 1], pageId, steps[k - 1], payload);
    }
  }

  /** No transaction is under way, nor its news untold, past the lease of its check. */
  ghost predicate Timely(joints: seq<Joint>, steps: seq<Step>)
    requires |joints| == |steps| + 1
  {
    forall k :: 0 <= k < |steps| && steps[k].Edit? ==> InLease(joints[k], steps[k].e.now)
  }

  ghost predicate InLease(j: Joint, now: int) {
    forall s :: s in j.site.busy && s in j.since ==> now < j.since[s] + LEASE_TTL_MS
  }

  ghost predicate AllAcknowledged(steps: seq<Step>) {
    forall k :: 0 <= k < |steps| && steps[k].Edit? && steps[k].e.Landed? ==> !steps[k].e.ending.Unacknowledged?
  }

  // ---- What the leases give -----------------------------------------------

  /** Whoever is at work holds the page, by the very lease of its check. */
  ghost predicate Leased(j: Joint, pageId: string) {
    forall s :: s in j.site.busy ==>
      && s in j.since && pageId in j.site.server.leases
      && j.site.server.leases[pageId] == Lease(s, j.since[s] + LEASE_TTL_MS)
  }

  lemma OneAtWork(j: Joint, pageId: string, s: string)
    requires Tied(j) && Leased(j, pageId) && s in j.waiting
    ensures |j.waiting| == 1 && IndexOf(j.waiting, s) == 0
  {
    IndexOfMember(j.waiting, s);
    forall i | 0 <= i < |j.waiting| ensures j.waiting[i] == s {
      assert j.waiting[i] in j.waiting && Waits(j.site, j.waiting[i]) && Waits(j.site, s);
    }
    if |j.waiting| > 1 { TwoDiffer(j); }
  }

  lemma TwoDiffer(j: Joint)
    requires Tied(j) && |j.waiting| > 1
    ensures j.waiting[0] != j.waiting[1]
  {
  }

  lemma HeardStaysLeased(j: Joint, pageId: string, e: Editing.SocketEvent, payload: map<string, seq<Stroke>>)
    requires CanTake(j, pageId, Edit(e), payload) && (e.Heard? || e.Closed?)
    requires Leased(j, pageId) && InLease(j, e.now)
    ensures Leased(Taken(j, pageId, Edit(e), payload), pageId)
  {
  }

  lemma StepStaysLeased(j: Joint, pageId: string, step: Step, payload: map<string, seq<Stroke>>)
    requires CanTake(j, pageId, step, payload) && Leased(j, pageId)
    requires step.Edit? ==> InLease(j, step.e.now)
    ensures Leased(Taken(j, pageId, step, payload), pageId)
  {
    if step.Edit? && (step.e.Heard? || step.e.Closed?) {
      HeardStaysLeased(j, pageId, step.e, payload);
    }
  }

  lemma {:induction false} RunStaysLeased(
      joints: seq<Joint>, pageId: string, steps: seq<Step>, payload: map<string, seq<Stroke>>, k: nat)
    requires IsJointRun(joints, pageId, steps, payload) && Timely(joints, steps) && k <= |steps|
    ensures Leased(joints[k], pageId)
    decreases k
  {
    if k > 0 {
      RunStaysLeased(joints, pageId, steps, payload, k - 1);
      StepStaysLeased(joints[k - 1], pageId, steps[k - 1], payload);
    }
  }

  lemma FirstIsPublished(j: Joint, pageId: string, e: Editing.SocketEvent)
    requires Tied(j) && Leased(j, pageId) && Editing.Possible(j.site, e)
    ensures EventOf(j, pageId, e).Some? && EventOf(j, pageId, e).value.Published? ==> EventOf(j, pageId, e).value.k == 0
  {
    if e.Announced? && j.site.busy[e.sessionId].news.told.Some? {
      assert Waits(j.site, e.sessionId);
      OneAtWork(j, pageId, e.sessionId);
    }
  }

  lemma RunGoesOn(worlds: seq<World>, events: seq<Event>, e: Event, payload: map<string, seq<Stroke>>, next: World)
    requires IsRun(worlds, events, payload, false) && Enabled(worlds[|events|], e, payload, false)
    requires next == Next(worlds[|events|], e, payload, false)
    ensures IsRun(worlds + [next], events + [e], payload, false)
  {
  }

  lemma OrderGoesOn(events: seq<Event>, e: Event)
    requires InOrder(events) && !e.CommittedUnheard? && (e.Published? ==> e.k == 0)
    ensures InOrder(events + [e])
  {
  }

  /** What a step is to the page channel. */
  function ChannelEvent(j: Joint, pageId: string, step: Step): Option<Event>
    requires step.Edit? ==> Editing.Possible(j.site, step.e)
  {
    match step
    case View(v) => Some(v)
    case Edit(e) => EventOf(j, pageId, e)
  }

  lemma StepIsAnEvent(j: Joint, pageId: string, step: Step, payload: map<string, seq<Stroke>>)
    requires CanTake(j, pageId, step, payload)
    ensures var event, next := ChannelEvent(j, pageId, step), Taken(j, pageId, step, payload);
      if event.None? then next.world == j.world
      else Enabled(j.world, event.value, payload, false) && next.world == Next(j.world, event.value, payload, false)
  {
  }

  lemma StepIsInOrder(j: Joint, pageId: string, step: Step, payload: map<string, seq<Stroke>>)
    requires CanTake(j, pageId, step, payload) && Tied(j) && Leased(j, pageId)
    requires step.Edit? && step.e.Landed? ==> !step.e.ending.Unacknowledged?
    ensures var event := ChannelEvent(j, pageId, step);
      event.Some? ==> !event.value.CommittedUnheard? && (event.value.Published? ==> event.value.k == 0)
  {
    if step.Edit? { FirstIsPublished(j, pageId, step.e); }
  }

  /** The run as one of the page channel alone. While no transaction outlives the
      lease of its check and every one is acknowledged, it publishes in commit
      order. */
  lemma {:induction false} TimelyRunsAreInOrder(
      joints: seq<Joint>, pageId: string, steps: seq<Step>, payload: map<string, seq<Stroke>>, k: nat)
    returns (worlds: seq<World>, events: seq<Event>)
    requires IsJointRun(joints, pageId, steps, payload) && k <= |steps|
    ensures IsRun(worlds, events, payload, false) && worlds[0] == joints[0].world && worlds[|events|] == joints[k].world
    ensures Timely(joints, steps) && AllAcknowledged(steps) ==> InOrder(events)
    decreases k
  {
    worlds, events := [joints[0].world], [];
    if k > 0 {
      var j, step := joints[k - 1], steps[k - 1];
      var event := ChannelEvent(j, pageId, step);
      worlds, events := TimelyRunsAreInOrder(joints, pageId, steps, payload, k - 1);
      StepIsAnEvent(j, pageId, step, payload);
      if event.Some? {
        if Timely(joints, steps) && AllAcknowledged(steps) {
          RunStaysTied(joints, pageId, steps, payload, k - 1);
          RunStaysLeased(joints, pageId, steps, payload, k - 1);
          StepIsInOrder(j, pageId, step, payload);
          OrderGoesOn(events, event.value);
        }
        RunGoesOn(worlds, events, event.value, payload, joints[k].world);
        worlds, events := worlds + [joints[k].world], events + [event.value];
      }
    }
  }

  /** So with sessions whose transactions are acknowledged and told within the
      leases of their checks, whatever they do and however they interleave, a
      viewer that joined gap-free and has its replay is brought to exactly the
      stored page. */
  lemma TimelySessionsConverge(
      joints: seq<Joint>, pageId: string, steps: seq<Step>, payload: map<string, seq<Stroke>>, k: nat)
    requires IsJointRun(joints, pageId, steps, payload) && Timely(joints, steps) && AllAcknowledged(steps)
    requires k <= |steps|
    requires joints[k].world.connection.Online? && joints[k].world.connection.phase.Replayed?
    requires joints[k].world.connection.gapFree
    ensures var w := joints[k].world;
      && w.connection.position <= |w.log|
      && AppliedAll(w.feed, w.connection.wire + Tail(w)).batches == Projection(joints[k].site.server.tables)
      && AppliedAll(w.feed, w.connection.wire + Tail(w)).paper == joints[k].site.server.tables.paper
  {
    var worlds, events := TimelyRunsAreInOrder(joints, pageId, steps, payload, k);
    InOrderIsHarmless(worlds, events);
    ViewerConverges(worlds, events, payload, false, |events|);
    RunStaysTied(joints, pageId, steps, payload, k);
  }
}
