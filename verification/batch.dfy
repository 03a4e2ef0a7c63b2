/** One `resourceOffers` callback: offers are taken in order, at most one is
    launched on, and every other offer is declined. The loop is written over an
    arbitrary per-offer evaluator, so that its guarantees do not depend on what
    a launch does; `ResourceOffers` then plugs in the scheduler's own evaluator. */
module Batch {
  import opened Outcomes
  import opened Constants
  import opened Config
  import opened Mesos
  import opened State
  import opened Placement

  datatype BatchResult = BatchResult(state: SchedulerState, actions: seq<DriverAction>, fault: Option<Fault>)

  /** Decides one offer for a role, given the state at that point of the batch. */
  type Evaluator = (SchedulerState, Role, Offer) -> Decision

  /** The role an acquisition phase is placing. */
  function PhaseRole(phase: AcquisitionPhase): Role
    requires phase != ReconcilingTasks
  {
    if phase == StartMasterNodes then MasterNode else SlaveNode
  }

  function Prepend(a: DriverAction, r: BatchResult): BatchResult {
    r.(actions := [a] + r.actions)
  }

  /** Every action in `actions` is the decline of the offer at the same position. */
  predicate AllDeclined(actions: seq<DriverAction>, offers: seq<Offer>) {
    |actions| <= |offers| && forall i :: 0 <= i < |actions| ==> actions[i] == DeclineOffer(offers[i].id)
  }

  /** The offer loop. `accepted` records that an earlier offer of the batch was
      launched on. An exception raised while evaluating an offer ends the
      callback: earlier answers stand, that offer and the later ones get none. */
  function OfferLoop(evaluate: Evaluator, st: SchedulerState, offers: seq<Offer>, accepted: bool): (r: BatchResult)
    // answers come in offer order, one per offer, unless an exception cut the batch short
    ensures |r.actions| <= |offers|
    ensures forall i :: 0 <= i < |r.actions| ==> r.actions[i].Answers(offers[i].id)
    ensures r.fault.None? <==> |r.actions| == |offers|
    // at most one launch, and only when none happened earlier in the batch
    ensures forall i, j :: 0 <= i < j < |r.actions| ==> !(r.actions[i].LaunchTasks? && r.actions[j].LaunchTasks?)
    ensures accepted ==> forall i :: 0 <= i < |r.actions| ==> !r.actions[i].LaunchTasks?
    // after a launch, everything is declined
    ensures forall i, j :: 0 <= i < j < |r.actions| && r.actions[i].LaunchTasks? ==> r.actions[j] == DeclineOffer(offers[j].id)
    // an exception can only come before any launch
    ensures r.fault.Some? ==> !accepted && AllDeclined(r.actions, offers) && r.state == st
    // once a launch happened, or while reconciling, every offer is declined unevaluated
    ensures accepted || st.phase == ReconcilingTasks ==>
      r.fault.None? && AllDeclined(r.actions, offers) && r.state == st
    // the state only moves through a launch
    ensures (forall i :: 0 <= i < |r.actions| ==> !r.actions[i].LaunchTasks?) ==> r.state == st
    // an evaluated offer is answered as the evaluator decided
    ensures !accepted && st.phase != ReconcilingTasks && |offers| > 0 ==>
      var d := evaluate(st, PhaseRole(st.phase), offers[0]);
      && (d.Decline? ==> |r.actions| >= 1 && r.actions[0] == DeclineOffer(offers[0].id))
      && (d.Launch? ==>
            && r.fault.None? && r.state == d.state
            && r.actions[0] == LaunchTasks(offers[0].id, d.task)
            && AllDeclined(r.actions[1..], offers[1..]))
      && (d.Raise? ==> r == BatchResult(st, [], Some(d.fault)))
    decreases |offers|
  {
    if |offers| == 0 then BatchResult(st, [], None)
    else if accepted || st.phase == ReconcilingTasks then
      Prepend(DeclineOffer(offers[0].id), OfferLoop(evaluate, st, offers[1..], accepted))
    else
      match evaluate(st, PhaseRole(st.phase), offers[0])
      case Decline => Prepend(DeclineOffer(offers[0].id), OfferLoop(evaluate, st, offers[1..], false))
      case Launch(st', task) => Prepend(LaunchTasks(offers[0].id, task), OfferLoop(evaluate, st', offers[1..], true))
      case Raise(f) => BatchResult(st, [], Some(f))
  }

  /** The position of the first offer the evaluator does not decline, all
      evaluated in the given state; `|offers|` when it declines them all. */
  function FirstNonDecline(evaluate: Evaluator, st: SchedulerState, offers: seq<Offer>): (k: nat)
    requires st.phase != ReconcilingTasks
    ensures k <= |offers|
    ensures forall i :: 0 <= i < k ==> evaluate(st, PhaseRole(st.phase), offers[i]).Decline?
    ensures k < |offers| ==> !evaluate(st, PhaseRole(st.phase), offers[k]).Decline?
    decreases |offers|
  {
    if |offers| == 0 then 0
    else if evaluate(st, PhaseRole(st.phase), offers[0]).Decline? then
      var k' := FirstNonDecline(evaluate, st, offers[1..]);
      assert forall i :: 1 <= i < |offers| ==> offers[i] == offers[1..][i - 1];
      1 + k'
    else 0
  }

  /** Every offer is answered as the evaluator decides it: declines up to the
      first offer it does not decline, and then that offer's launch (with the
      rest declined) or its exception (with no further answer). */
  lemma {:induction false} FirstAcceptableIsAnswered(evaluate: Evaluator, st: SchedulerState, offers: seq<Offer>)
    requires st.phase != ReconcilingTasks
    ensures var r := OfferLoop(evaluate, st, offers, false);
      var k := FirstNonDecline(evaluate, st, offers);
      && k <= |r.actions|
      && (forall i :: 0 <= i < k ==> r.actions[i] == DeclineOffer(offers[i].id))
      && (k == |offers| ==> r.fault.None? && AllDeclined(r.actions, offers) && r.state == st)
    ensures var r := OfferLoop(evaluate, st, offers, false);
      var k := FirstNonDecline(evaluate, st, offers);
      k < |offers| && evaluate(st, PhaseRole(st.phase), offers[k]).Raise? ==>
        && |r.actions| == k && r.state == st
        && r.fault == Some(evaluate(st, PhaseRole(st.phase), offers[k]).fault)
    ensures var r := OfferLoop(evaluate, st, offers, false);
      var k := FirstNonDecline(evaluate, st, offers);
      k < |offers| && evaluate(st, PhaseRole(st.phase), offers[k]).Launch? ==>
        && r.fault.None? && |r.actions| == |offers|
        && r.actions[k] == LaunchTasks(offers[k].id, evaluate(st, PhaseRole(st.phase), offers[k]).task)
        && r.state == evaluate(st, PhaseRole(st.phase), offers[k]).state
        && (forall i :: k < i < |offers| ==> r.actions[i] == DeclineOffer(offers[i].id))
    decreases |offers|
  {
    if |offers| > 0 && evaluate(st, PhaseRole(st.phase), offers[0]).Decline? {
      FirstAcceptableIsAnswered(evaluate, st, offers[1..]);
      var r := OfferLoop(evaluate, st, offers, false);
      var r' := OfferLoop(evaluate, st, offers[1..], false);
      assert r.actions == [DeclineOffer(offers[0].id)] + r'.actions;
      assert forall i :: 1 <= i < |offers| ==> offers[i] == offers[1..][i - 1];
    }
  }

  /** After a launch the rest of the batch does not depend on the evaluator at all:
      those offers are declined without being evaluated. */
  lemma {:induction false} AcceptedIgnoresEvaluator(e1: Evaluator, e2: Evaluator, st: SchedulerState, offers: seq<Offer>)
    ensures OfferLoop(e1, st, offers, true) == OfferLoop(e2, st, offers, true)
    decreases |offers|
  {
    if |offers| > 0 {
      AcceptedIgnoresEvaluator(e1, e2, st, offers[1..]);
    }
  }

  /** When the evaluator never launches, the batch declines every offer it
      evaluates as a decline and stops at the first one that raises. */
  lemma {:induction false} NoLaunchBatch(evaluate: Evaluator, st: SchedulerState, offers: seq<Offer>)
    requires st.phase != ReconcilingTasks
    requires forall s, role, o :: !evaluate(s, role, o).Launch?
    ensures var r := OfferLoop(evaluate, st, offers, false);
      && r.state == st
      && AllDeclined(r.actions, offers)
      && (forall i :: 0 <= i < |r.actions| ==> evaluate(st, PhaseRole(st.phase), offers[i]).Decline?)
      && (r.fault.Some? ==> evaluate(st, PhaseRole(st.phase), offers[|r.actions|]).Raise?
                            && r.fault.value == evaluate(st, PhaseRole(st.phase), offers[|r.actions|]).fault)
    decreases |offers|
  {
    if |offers| > 0 {
      NoLaunchBatch(evaluate, st, offers[1..]);
    }
  }

  /** `resourceOffers`. Since every launch raises, a batch never launches: it
      declines offers until the first one that admission and placement let
      through, where it raises the configuration exception. */
  function ResourceOffers(c: FrameworkConfig, st: SchedulerState, offers: seq<Offer>, nowMillis: nat): (r: BatchResult)
    ensures r.state == st
    ensures AllDeclined(r.actions, offers)
    ensures r.fault.None? <==> |r.actions| == |offers|
    ensures st.phase == ReconcilingTasks ==> r.fault.None?
    ensures st.phase != ReconcilingTasks ==>
      (forall i :: 0 <= i < |r.actions| ==> !PlacementAllows(c, st.store, PhaseRole(st.phase), offers[i]))
      && (r.fault.Some? ==> PlacementAllows(c, st.store, PhaseRole(st.phase), offers[|r.actions|])
                            && r.fault.value.ConfigurationException?)
    ensures r.fault.Some? <==> (st.phase != ReconcilingTasks
      && exists i :: 0 <= i < |offers| && PlacementAllows(c, st.store, PhaseRole(st.phase), offers[i]))
  {
    var evaluate: Evaluator := (s, role, o) => TryToLaunch(c, s, role, o, nowMillis);
    if st.phase == ReconcilingTasks then OfferLoop(evaluate, st, offers, false)
    else
      NoLaunchBatch(evaluate, st, offers);
      var r := OfferLoop(evaluate, st, offers, false);
      assert r.fault.Some? ==> evaluate(st, PhaseRole(st.phase), offers[|r.actions|]).Raise?;
      r
  }
}
