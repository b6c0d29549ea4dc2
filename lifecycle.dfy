/** Properties of the state machine over its operations: the invariant they
    keep, how a transition records its trigger and deadline, eligibility
    after a transition and after interactions, and that every story ends. */
module Lifecycle {
  import opened Wrappers
  import opened Phases
  import opened Selection
  import opened PhaseStates
  import opened EvidenceFanOut

  /** A transition keeps the record valid: the new phase is a successor, so
      the history still follows the graph and the rank bound still holds. */
  lemma AdvancePreservesValid(s: PhaseState, now: int, choice: nat)
    requires Valid(s)
    requires Advance(s, now, choice).Advanced?
    ensures Valid(Advance(s, now, choice).state)
  {
    var t := Advance(s, now, choice).state;
    var h, h' := s.stateHistory, t.stateHistory;
    SuccessorLowersRank(s.currentState, t.currentState);
    forall i | 0 < i < |h'|
      ensures IsEdge(h', i)
    {
      if i < |h| {
        assert h'[i - 1] == h[i - 1] && h'[i] == h[i];
        assert IsEdge(h, i);
      } else {
        assert h'[i - 1] == h[|h| - 1];
      }
    }
  }

  /** On a valid record a transition never fails a key lookup, and it does
      nothing exactly when the story has ended. */
  lemma AdvanceOnValid(s: PhaseState, now: int, choice: nat)
    requires Valid(s)
    ensures !Advance(s, now, choice).MissingKey?
    ensures Advance(s, now, choice).Finished? <==> s.currentState == Ended
  {
  }

  /** The trigger of the new history entry is time-based exactly when the
      previous deadline has passed; the deadline moves to `now` plus the new
      phase's dwell time when that is positive and is kept otherwise. */
  lemma AdvanceTriggerAndDeadline(s: PhaseState, now: int, choice: nat)
    requires Advance(s, now, choice).Advanced?
    ensures s.nextTransitionTime.Some?
    ensures var t := Advance(s, now, choice).state;
      && (t.stateHistory[|s.stateHistory|].trigger == TimeBased <==> now >= s.nextTransitionTime.value)
      && (t.stateHistory[|s.stateHistory|].trigger == InteractionBased <==> now < s.nextTransitionTime.value)
      && IsPhase(t.currentState)
      && (DwellSeconds(t.currentState) > 0 ==> t.nextTransitionTime == Some(now + DwellSeconds(t.currentState)))
      && (DwellSeconds(t.currentState) == 0 ==> t.nextTransitionTime == s.nextTransitionTime)
  {
  }

  /** The sweep is idempotent: right after a transition into a phase with a
      positive dwell time, checking again at the same moment finds the story
      not eligible. */
  lemma IneligibleRightAfterAdvance(s: PhaseState, now: int, choice: nat)
    requires Advance(s, now, choice).Advanced?
    requires IsPhase(Advance(s, now, choice).state.currentState)
    requires DwellSeconds(Advance(s, now, choice).state.currentState) > 0
    ensures Advance(s, now, choice).state.nextTransitionTime.Some?
    ensures !Eligible(Advance(s, now, choice).state, now)
  {
  }

  /** The opposite for the ending phases: a time-triggered move into a
      zero-dwell phase keeps the passed deadline, so the story is eligible
      again at once and moves on to `ended` at the next sweep. */
  lemma EndingDueAtOnce(s: PhaseState, now: int, choice: nat)
    requires Advance(s, now, choice).Advanced?
    requires IsPhase(Advance(s, now, choice).state.currentState)
    requires DwellSeconds(Advance(s, now, choice).state.currentState) == 0
    requires s.nextTransitionTime.Some? && now >= s.nextTransitionTime.value
    ensures Advance(s, now, choice).state.nextTransitionTime.Some?
    ensures forall later :: later >= now ==> Eligible(Advance(s, now, choice).state, later)
  {
  }

  /** Once eligible, a story stays eligible as time passes. */
  lemma EligibleStaysEligible(s: PhaseState, now: int, later: int)
    requires s.nextTransitionTime.Some? && Eligible(s, now) && now <= later
    ensures Eligible(s, later)
  {
  }

  /** Recording an interaction keeps the record valid. */
  lemma RecordInteractionPreservesValid(data: Option<PhaseState>, now: int)
    requires data.None? || Valid(data.value)
    ensures Valid(RecordInteraction(data, now))
  {
  }

  /** The eligibility check keeps the record valid whenever it was valid or
      absent, and it repairs a record that lacks a deadline. */
  lemma CheckKeepsValid(data: Option<PhaseState>, now: int)
    requires data.None? || Valid(data.value) || data.value.nextTransitionTime.None?
    ensures Check(data, now).data.None? || Valid(Check(data, now).data.value)
  {
  }

  /** The record after `n` interactions. */
  function Interact(s: PhaseState, n: nat): PhaseState {
    if n == 0 then s else WithInteraction(Interact(s, n - 1))
  }

  /** `n` interactions raise the count by exactly `n` and touch nothing else. */
  lemma {:induction false} InteractCounts(s: PhaseState, n: nat)
    ensures InteractionCount(Interact(s, n)) == InteractionCount(s) + n
    ensures Interact(s, n).currentState == s.currentState
    ensures Interact(s, n).stateHistory == s.stateHistory
    ensures Interact(s, n).nextTransitionTime == s.nextTransitionTime
    ensures Interact(s, n).evidenceGenerated == s.evidenceGenerated
  {
    if n > 0 {
      InteractCounts(s, n - 1);
    }
  }

  /** Ten interactions after a transition make the story eligible at any
      time, whatever its deadline. */
  lemma TenInteractionsMakeEligible(s: PhaseState, n: nat, now: int)
    requires s.nextTransitionTime.Some? && n >= InteractionThreshold
    ensures Interact(s, n).nextTransitionTime.Some?
    ensures Eligible(Interact(s, n), now)
  {
    InteractCounts(s, n);
  }

  /** Interactions keep the record valid. */
  lemma {:induction false} InteractPreservesValid(s: PhaseState, n: nat)
    requires Valid(s)
    ensures Valid(Interact(s, n))
  {
    if n > 0 {
      InteractPreservesValid(s, n - 1);
    }
  }

  /** One pass of the scheduler over a story, with what happened since the
      previous pass: the interactions recorded, the time of the pass and
      the random draw its transition would use. */
  datatype Sweep = Sweep(interactions: nat, now: int, choice: nat)

  /** The record after one pass: the interactions are recorded first; a
      story in `ended` is skipped; otherwise the eligibility check runs and,
      when it answers true, the transition follows, raising the evidence
      counter by the number of kinds the new phase requests. */
  function SweepOnce(s: PhaseState, w: Sweep): PhaseState {
    var t := Interact(s, w.interactions);
    if t.currentState == Ended then t
    else
      var c := Check(Some(t), w.now);
      if !c.eligible then c.data.value
      else match Advance(t, w.now, w.choice)
        case Advanced(u) => WithEvidence(u, |KindsFor(u.currentState)|)
        case _ => t
  }

  /** A pass keeps the record valid and never raises the rank; it lowers
      the rank of a story not yet ended when the pass comes at or after the
      deadline or ten interactions were recorded since the last transition. */
  lemma SweepOnceKeepsValid(s: PhaseState, w: Sweep)
    requires Valid(s)
    ensures Valid(SweepOnce(s, w))
    ensures Rank(SweepOnce(s, w).currentState) <= Rank(s.currentState)
    ensures var due := w.now >= s.nextTransitionTime.value || InteractionCount(s) + w.interactions >= InteractionThreshold;
      s.currentState != Ended && due ==> Rank(SweepOnce(s, w).currentState) < Rank(s.currentState)
  {
    var t := Interact(s, w.interactions);
    InteractCounts(s, w.interactions);
    InteractPreservesValid(s, w.interactions);
    if t.currentState != Ended && Check(Some(t), w.now).eligible {
      AdvanceOnValid(t, w.now, w.choice);
      AdvancePreservesValid(t, w.now, w.choice);
      var u := Advance(t, w.now, w.choice).state;
      SuccessorLowersRank(t.currentState, u.currentState);
    }
  }

  /** The record after a series of scheduler passes. */
  function Run(s: PhaseState, sweeps: seq<Sweep>): PhaseState
    decreases |sweeps|
  {
    if sweeps == [] then s else Run(SweepOnce(s, sweeps[0]), sweeps[1..])
  }

  /** Whatever passes happen, the record stays valid, so a story never
      makes more than Rank(Init) = 7 transitions after its creation. */
  lemma {:induction false} RunKeepsValid(s: PhaseState, sweeps: seq<Sweep>)
    requires Valid(s)
    ensures Valid(Run(s, sweeps))
    ensures Rank(Run(s, sweeps).currentState) <= Rank(s.currentState)
    ensures |Run(s, sweeps).stateHistory| <= Rank(Init) + 1
    decreases |sweeps|
  {
    if sweeps != [] {
      SweepOnceKeepsValid(s, sweeps[0]);
      RunKeepsValid(SweepOnce(s, sweeps[0]), sweeps[1..]);
    }
  }

  /** Every story ends: from a valid record, Rank(current) passes (seven
      from creation) each preceded by ten or more interactions reach
      `ended`, whatever the times and random draws. */
  lemma {:induction false} RunReachesEnded(s: PhaseState, sweeps: seq<Sweep>)
    requires Valid(s) && |sweeps| >= Rank(s.currentState)
    requires forall i :: 0 <= i < |sweeps| ==> sweeps[i].interactions >= InteractionThreshold
    ensures Valid(Run(s, sweeps))
    ensures Run(s, sweeps).currentState == Ended
    decreases |sweeps|
  {
    if sweeps != [] {
      SweepOnceKeepsValid(s, sweeps[0]);
      var rest := sweeps[1..];
      assert forall i :: 0 <= i < |rest| ==> rest[i] == sweeps[i + 1];
      RunReachesEnded(SweepOnce(s, sweeps[0]), rest);
    } else {
      assert Rank(s.currentState) == 0;
    }
  }
}
