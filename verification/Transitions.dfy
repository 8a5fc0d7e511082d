/** Whole sequences of answers under the export policy: what is reported, when
    it stops, and how often a fresh token is asked for. */
module Transitions {
  import opened Protocol
  import opened Outbox

  datatype PolicyEvent =
    | Answer(outcome: ExportOutcome, attempts: nat, now: real, jitter: real)
    | StopFromOutside(reason: OffReason)
    | RefreshArrived

  /** The policy after one event, whether it asked for a fresh token, and what it
      reported. */
  function PolicyStep(p: Policy, e: PolicyEvent): (Policy, bool, Option<Transition>) {
    match e
    case Answer(outcome, attempts, now, jitter) =>
      var (next, d) := AfterRecord(p, outcome, attempts, now, jitter);
      (next, d.refreshToken, d.transition)
    case StopFromOutside(reason) => var (next, said) := AfterStop(p, reason); (next, false, said)
    case RefreshArrived => (p.(refreshPending := false), false, None)
  }

  function PolicyRun(events: seq<PolicyEvent>): Policy {
    if events == [] then FRESH_POLICY
    else PolicyStep(PolicyRun(events[..|events| - 1]), events[|events| - 1]).0
  }

  function Reported(events: seq<PolicyEvent>): seq<Transition> {
    if events == [] then []
    else
      var before := events[..|events| - 1];
      var said := PolicyStep(PolicyRun(before), events[|events| - 1]).2;
      Reported(before) + if said.Some? then [said.value] else []
  }

  predicate IsAccepted(e: PolicyEvent) { e.Answer? && e.outcome.Accepted? }

  /** Retryable answers since the last accepted one. */
  function Failures(events: seq<PolicyEvent>): nat {
    if events == [] || IsAccepted(events[|events| - 1]) then 0
    else
      var last := events[|events| - 1];
      Failures(events[..|events| - 1]) + if last.Answer? && last.outcome.Retryable? then 1 else 0
  }

  /** 401 answers since the last accepted one. */
  function Refusals(events: seq<PolicyEvent>): nat {
    if events == [] || IsAccepted(events[|events| - 1]) then 0
    else
      var last := events[|events| - 1];
      Refusals(events[..|events| - 1]) + if last.Answer? && last.outcome.Unauthorized? then 1 else 0
  }

  /** Fresh tokens asked for since the last accepted answer. */
  function RefreshesAsked(events: seq<PolicyEvent>): nat {
    if events == [] || IsAccepted(events[|events| - 1]) then 0
    else
      var before := events[..|events| - 1];
      RefreshesAsked(before) + if PolicyStep(PolicyRun(before), events[|events| - 1]).1 then 1 else 0
  }

  /** The last of `events` is one that stops telemetry, told from the events
      alone: a stop from outside, the sixth retryable answer or the second 401
      with no accepted answer between. */
  ghost predicate Fatal(events: seq<PolicyEvent>)
    requires events != []
  {
    match events[|events| - 1]
    case StopFromOutside(_) => true
    case RefreshArrived => false
    case Answer(outcome, _, _, _) =>
      || (outcome.Retryable? && Failures(events) >= MAX_CONSECUTIVE_FAILURES)
      || (outcome.Unauthorized? && Refusals(events) >= 2)
  }

  ghost predicate Finished(events: seq<PolicyEvent>) {
    exists k :: 0 < k <= |events| && Fatal(events[..k])
  }

  lemma FinishedGrows(events: seq<PolicyEvent>)
    requires events != []
    ensures Finished(events) <==> Finished(events[..|events| - 1]) || Fatal(events)
  {
    var n := |events|;
    var before := events[..n - 1];
    assert events[..n] == events;
    assert forall k :: 0 < k < n ==> before[..k] == events[..k];
  }

  /** The exporter stops exactly when an event was fatal, and until then it has
      asked for at most one fresh token since the last accepted answer, at the
      first 401. */
  lemma {:induction false} StopsExactlyWhenFatal(events: seq<PolicyEvent>)
    ensures var p := PolicyRun(events);
            && (p.stopped.Some? <==> Finished(events))
            && (p.stopped.None? ==> p.failures == Failures(events) < MAX_CONSECUTIVE_FAILURES)
            && (p.stopped.None? ==> Refusals(events) == RefreshesAsked(events) == if p.refreshedAfter401 then 1 else 0)
            && RefreshesAsked(events) <= 1
  {
    if events != [] {
      StopsExactlyWhenFatal(events[..|events| - 1]);
      FinishedGrows(events);
    }
  }

  /** A 401 came for which no fresh token has arrived since. */
  ghost predicate OwesARefresh(events: seq<PolicyEvent>) {
    exists k :: 0 <= k < |events| && Refused(events[k])
      && forall j :: k < j < |events| ==> !events[j].RefreshArrived?
  }

  predicate Refused(e: PolicyEvent) { e.Answer? && e.outcome.Unauthorized? }

  lemma OwesMore(events: seq<PolicyEvent>)
    requires events != []
    ensures var before, last := events[..|events| - 1], events[|events| - 1];
      OwesARefresh(events) <==> Refused(last) || (OwesARefresh(before) && !last.RefreshArrived?)
  {
    var n := |events| - 1;
    var before, last := events[..n], events[n];
    if OwesARefresh(before) && !last.RefreshArrived? {
      var k :| 0 <= k < |before| && Refused(before[k]) && forall j :: k < j < |before| ==> !before[j].RefreshArrived?;
      assert Refused(events[k]);
    }
    if OwesARefresh(events) && !Refused(last) {
      var k :| 0 <= k < |events| && Refused(events[k]) && forall j :: k < j < |events| ==> !events[j].RefreshArrived?;
      assert Refused(before[k]) && !events[n].RefreshArrived?;
    }
  }

  /** The earliest moment the answers so far leave for an export: that of the last
      accepted one, or of the last retryable one and its wait. */
  function NotBefore(events: seq<PolicyEvent>): real {
    if events == [] then 0.0
    else
      var last := events[|events| - 1];
      if IsAccepted(last) then last.now
      else if last.Answer? && last.outcome.Retryable? then
        last.now + WaitMs(Failures(events), last.jitter, last.outcome.retryAfterMs)
      else NotBefore(events[..|events| - 1])
  }

  /** When an export may start, told from the events alone: nothing ended it, no
      fresh token is owed for a 401, and the wait is over. */
  lemma {:induction false} MayExportIff(events: seq<PolicyEvent>, now: real)
    ensures ShouldExport(PolicyRun(events), now)
       <==> !Finished(events) && !OwesARefresh(events) && now >= NotBefore(events)
  {
    PolicyTells(events);
  }

  lemma {:induction false} PolicyTells(events: seq<PolicyEvent>)
    ensures var p := PolicyRun(events);
      && (p.stopped.Some? <==> Finished(events))
      && (p.stopped.None? ==> (p.refreshPending <==> OwesARefresh(events)) && p.nextAttemptAtMs == NotBefore(events))
  {
    StopsExactlyWhenFatal(events);
    if events != [] {
      PolicyTells(events[..|events| - 1]);
      StopsExactlyWhenFatal(events[..|events| - 1]);
      OwesMore(events);
    }
  }

  /** Why an event that stops the exporter stops it. */
  lemma StopsForItsReason(events: seq<PolicyEvent>)
    requires events != [] && Fatal(events) && !Finished(events[..|events| - 1])
    ensures var last := events[|events| - 1];
      PolicyRun(events).stopped == Some(
        if last.StopFromOutside? then last.reason else if Refused(last) then TokenRefused else GaveUp)
  {
    StopsExactlyWhenFatal(events[..|events| - 1]);
    StopsExactlyWhenFatal(events);
    FinishedGrows(events);
  }

  // ---- What is reported ---------------------------------------------------

  /** (StartedFailing Recovered)* StartedFailing? Stopped? */
  predicate WellFormed(t: seq<Transition>) {
    || t == []
    || (|t| == 1 && !t[0].Recovered?)
    || (|t| == 2 && t[0].StartedFailing? && t[1].Stopped?)
    || (|t| >= 2 && t[0].StartedFailing? && t[1].Recovered? && WellFormed(t[2..]))
  }

  predicate EndsFailing(t: seq<Transition>) { t != [] && t[|t| - 1].StartedFailing? }

  predicate EndsStopped(t: seq<Transition>) { t != [] && t[|t| - 1].Stopped? }

  lemma {:induction false} WellFormedAppend(t: seq<Transition>, x: Transition)
    requires WellFormed(t) && !EndsStopped(t)
    requires x.StartedFailing? ==> !EndsFailing(t)
    requires x.Recovered? ==> EndsFailing(t)
    ensures WellFormed(t + [x])
  {
    if |t| >= 2 {
      WellFormedAppend(t[2..], x);
      assert (t + [x])[2..] == t[2..] + [x];
    } else if t == [] {
      assert t + [x] == [x];
    } else if x.Recovered? {
      assert (t + [x])[2..] == [];
    }
  }

  /** A report is made exactly at a change of standing, and says which. */
  lemma StepSaysTheChange(p: Policy, e: PolicyEvent)
    ensures var (next, _, said) := PolicyStep(p, e);
            && (p.stopped.Some? ==> said.None? && next.stopped == p.stopped)
            && (p.stopped.None? && said.None? ==> next.stopped.None? && next.failing == p.failing)
            && (said.Some? && said.value.StartedFailing? ==> !p.failing && next.failing && next.stopped.None?)
            && (said.Some? && said.value.Recovered? ==> p.failing && !next.failing && next.stopped.None?)
            && (said.Some? && said.value.Stopped? ==> next.stopped == Some(said.value.reason))
  {
  }

  /** The reports are in order, and the last one tells how the exporter stands. */
  ghost predicate Tells(t: seq<Transition>, p: Policy) {
    && WellFormed(t)
    && (p.stopped.Some? <==> EndsStopped(t))
    && (p.stopped.None? ==> (p.failing <==> EndsFailing(t)))
    && (p.stopped.Some? ==> t[|t| - 1].reason == p.stopped.value)
  }

  lemma StepKeepsTelling(t: seq<Transition>, p: Policy, e: PolicyEvent)
    requires Tells(t, p)
    ensures var (next, _, said) := PolicyStep(p, e); Tells(t + (if said.Some? then [said.value] else []), next)
  {
    var (next, _, said) := PolicyStep(p, e);
    StepSaysTheChange(p, e);
    if said.Some? {
      WellFormedAppend(t, said.value);
    } else {
      assert t + [] == t;
    }
  }

  /** Only changes are reported, in this order and no other; the last report
      tells how the exporter stands; once stopped, nothing more is said. */
  lemma {:induction false} ReportsAreWellFormed(events: seq<PolicyEvent>)
    ensures Tells(Reported(events), PolicyRun(events))
  {
    if events != [] {
      var before := events[..|events| - 1];
      ReportsAreWellFormed(before);
      StepKeepsTelling(Reported(before), PolicyRun(before), events[|events| - 1]);
    }
  }

  /** Stopped is for good: no later event reports, asks for a token or lets an
      export start. */
  lemma {:induction false} StoppedIsAbsorbing(events: seq<PolicyEvent>, k: nat)
    requires k <= |events| && PolicyRun(events[..k]).stopped.Some?
    ensures PolicyRun(events).stopped == PolicyRun(events[..k]).stopped
    ensures Reported(events) == Reported(events[..k])
    ensures forall now :: !ShouldExport(PolicyRun(events), now)
    decreases |events|
  {
    if k < |events| {
      var before := events[..|events| - 1];
      assert before[..k] == events[..k];
      StoppedIsAbsorbing(before, k);
    } else {
      assert events[..k] == events;
    }
  }
}
