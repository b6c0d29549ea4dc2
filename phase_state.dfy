/** The phase-state record that a story carries as a serialised blob: the
    current phase, the history of phases entered, when the next time-based
    transition is due, how many reader interactions were recorded since the
    last transition, and how many evidence items were requested in all.
    JSON encoding is the identity here; timestamps are whole seconds. */
module PhaseStates {
  import opened Wrappers
  import opened Phases
  import opened Selection

  /** Why a history entry was written. */
  datatype Trigger = StoryCreated | TimeBased | InteractionBased

  datatype HistoryEntry = HistoryEntry(state: string, timestamp: int, trigger: Trigger)

  /** `nextTransitionTime` and `userInteractionCount` are optional because
      the operations test for their absence; the other keys are always
      present in every blob the operations write. */
  datatype PhaseState = PhaseState(
    currentState: string,
    stateHistory: seq<HistoryEntry>,
    nextTransitionTime: Option<int>,
    userInteractionCount: Option<nat>,
    evidenceGenerated: nat)

  /** Interactions that make a story eligible before its deadline. */
  const InteractionThreshold: nat := 10

  /** The interaction count, a missing key read as 0. */
  function InteractionCount(s: PhaseState): nat {
    s.userInteractionCount.GetOr(0)
  }

  /** Entry `i` of the history was reached from entry `i - 1` by a
      transition of the phase graph. */
  predicate IsEdge(h: seq<HistoryEntry>, i: nat)
    requires 0 < i < |h|
  {
    IsPhase(h[i - 1].state) && h[i].state in Successors(h[i - 1].state) && h[i].trigger != StoryCreated
  }

  /** The invariant of every record the state machine writes: the phase is
      in the table; the history starts with the creation entry, ends with
      the current phase and follows edges of the phase graph; it is no
      longer than the longest path allows; and both optional keys exist. */
  predicate Valid(s: PhaseState) {
    var h := s.stateHistory;
    && IsPhase(s.currentState)
    && |h| > 0
    && h[0].state == Init && h[0].trigger == StoryCreated
    && h[|h| - 1].state == s.currentState
    && (forall i :: 0 < i < |h| ==> IsEdge(h, i))
    && |h| + Rank(s.currentState) <= Rank(Init) + 1
    && s.nextTransitionTime.Some?
    && s.userInteractionCount.Some?
  }

  /** The record `initialize_story_state` writes at time `now`. */
  function Initial(now: int): (s: PhaseState)
    ensures Valid(s)
    ensures s.currentState == Init
    ensures s.stateHistory == [HistoryEntry(Init, now, StoryCreated)]
    ensures s.nextTransitionTime == Some(now + 6 * SecondsPerHour)
    ensures InteractionCount(s) == 0 && s.evidenceGenerated == 0
  {
    PhaseState(Init, [HistoryEntry(Init, now, StoryCreated)], Some(now + DwellSeconds(Init)), Some(0), 0)
  }

  /** The eligibility decision of `check_state_transition` on a record that
      has a deadline: the deadline has passed, or enough interactions were
      recorded. */
  predicate Eligible(s: PhaseState, now: int)
    requires s.nextTransitionTime.Some?
  {
    now >= s.nextTransitionTime.value || InteractionCount(s) >= InteractionThreshold
  }

  /** What `check_state_transition` returns and the record it leaves behind:
      no record gives false and no change; a record without a deadline is
      replaced by a fresh initial one and gives false; otherwise the record
      is untouched and the answer is the eligibility decision. */
  datatype CheckResult = CheckResult(eligible: bool, data: Option<PhaseState>)

  function Check(data: Option<PhaseState>, now: int): (r: CheckResult)
    ensures data.None? ==> r == CheckResult(false, None)
    ensures data.Some? && data.value.nextTransitionTime.None? ==> !r.eligible && r.data == Some(Initial(now))
    ensures r.eligible ==> r.data == data
    ensures data.Some? && data.value.nextTransitionTime.Some? ==>
      r.data == data &&
      (r.eligible <==> now >= data.value.nextTransitionTime.value || InteractionCount(data.value) >= 10)
  {
    match data
    case None => CheckResult(false, None)
    case Some(s) =>
      if s.nextTransitionTime.None? then CheckResult(false, Some(Initial(now)))
      else CheckResult(Eligible(s, now), data)
  }

  /** The trigger recorded for a transition at `now` whose previous deadline
      was `deadline`. */
  function TriggerAt(deadline: int, now: int): (t: Trigger)
    ensures t != StoryCreated
    ensures t == TimeBased <==> now >= deadline
  {
    if now >= deadline then TimeBased else InteractionBased
  }

  /** The outcome of `transition_story_state` on the record: a new record;
      nothing to do because the story has ended; or a key lookup that fails,
      carrying the key that was not found: the phase name when the phase is
      missing from the table, otherwise the name of the missing field. */
  datatype Step = Advanced(state: PhaseState) | Finished | MissingKey(key: string)

  function Advance(s: PhaseState, now: int, choice: nat): (step: Step)
    ensures step.Finished? <==> IsPhase(s.currentState) && s.currentState == Ended
    ensures step.MissingKey? <==>
      !IsPhase(s.currentState) ||
      (s.currentState != Ended && (s.userInteractionCount.None? || s.nextTransitionTime.None?))
    ensures step.Advanced? ==>
      var t := step.state;
      && IsPhase(s.currentState)
      && t.currentState in Successors(s.currentState)
      && s.userInteractionCount.Some?
      && t.currentState == Select(s.userInteractionCount.value, Successors(s.currentState), choice)
      && |t.stateHistory| == |s.stateHistory| + 1
      && t.stateHistory[..|s.stateHistory|] == s.stateHistory
      && t.stateHistory[|s.stateHistory|].state == t.currentState
      && t.stateHistory[|s.stateHistory|].timestamp == now
      && InteractionCount(t) == 0 && t.userInteractionCount.Some?
      && t.evidenceGenerated == s.evidenceGenerated
  {
    if !IsPhase(s.currentState) then MissingKey(s.currentState)
    else
      var succ := Successors(s.currentState);
      if succ == [] then Finished
      else if s.userInteractionCount.None? then MissingKey("user_interaction_count")
      else
        var next := Select(s.userInteractionCount.value, succ, choice);
        if s.nextTransitionTime.None? then MissingKey("next_transition_time")
        else
          var entry := HistoryEntry(next, now, TriggerAt(s.nextTransitionTime.value, now));
          var deadline := if DwellSeconds(next) > 0 then Some(now + DwellSeconds(next)) else s.nextTransitionTime;
          Advanced(PhaseState(next, s.stateHistory + [entry], deadline, Some(0), s.evidenceGenerated))
  }

  /** The failing lookup names the key it did not find, in source order:
      the phase, then the count, then the deadline. */
  lemma MissingKeyNames(s: PhaseState, now: int, choice: nat)
    ensures !IsPhase(s.currentState) ==> Advance(s, now, choice) == MissingKey(s.currentState)
    ensures IsPhase(s.currentState) && s.currentState != Ended && s.userInteractionCount.None? ==>
      Advance(s, now, choice) == MissingKey("user_interaction_count")
    ensures IsPhase(s.currentState) && s.currentState != Ended && s.userInteractionCount.Some?
            && s.nextTransitionTime.None? ==>
      Advance(s, now, choice) == MissingKey("next_transition_time")
  {
  }

  /** The record after one more interaction, a missing count read as 0. */
  function WithInteraction(s: PhaseState): (t: PhaseState)
    ensures InteractionCount(t) == InteractionCount(s) + 1
    ensures t.currentState == s.currentState && t.stateHistory == s.stateHistory
    ensures t.nextTransitionTime == s.nextTransitionTime && t.evidenceGenerated == s.evidenceGenerated
  {
    s.(userInteractionCount := Some(InteractionCount(s) + 1))
  }

  /** The record `record_user_interaction` leaves: initialised first when
      absent, then one more interaction. */
  function RecordInteraction(data: Option<PhaseState>, now: int): (t: PhaseState)
    ensures data.None? ==> t == WithInteraction(Initial(now)) && InteractionCount(t) == 1
    ensures data.Some? ==> t == WithInteraction(data.value)
  {
    WithInteraction(if data.None? then Initial(now) else data.value)
  }

  /** The record after the evidence counter grows by `n`. */
  function WithEvidence(s: PhaseState, n: nat): (t: PhaseState)
    ensures t.evidenceGenerated == s.evidenceGenerated + n
    ensures t.currentState == s.currentState && t.stateHistory == s.stateHistory
    ensures t.nextTransitionTime == s.nextTransitionTime && t.userInteractionCount == s.userInteractionCount
  {
    s.(evidenceGenerated := s.evidenceGenerated + n)
  }
}
