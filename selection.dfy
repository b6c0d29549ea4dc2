/** The rule that picks the next phase from the current phase's successors,
    keyed on how many reader interactions were recorded since the last
    transition. */
module Selection {
  import opened Phases

  /** The rule written with integer thresholds. The source compares the ratio
      `count / 10.0` against 0.7, 0.5, 0.3 and 0.5; for a whole-number count
      those are `count > 7`, `count > 5`, `count < 3` and `count < 5`
      (lemma SelectAgreesWithRatio). Rules are tried in order and the first
      whose phase is allowed wins; when none applies, `choice` stands for the
      value drawn by the random pick among the successors. */
  function Select(count: nat, succ: seq<string>, choice: nat): (next: string)
    requires succ != []
    ensures next in succ
  {
    if count > 7 && "investigation" in succ then "investigation"
    else if count > 5 && "revelation" in succ then "revelation"
    else if count < 3 && "escalation" in succ then "escalation"
    else if count < 5 && "danger" in succ then "danger"
    else succ[choice % |succ|]
  }

  /** The rule exactly as the source states it, on the ratio count / 10,
      computed with exact reals. */
  function SelectByRatio(count: nat, succ: seq<string>, choice: nat): string
    requires succ != []
  {
    var ratio := count as real / 10.0;
    if ratio > 0.7 && "investigation" in succ then "investigation"
    else if ratio > 0.5 && "revelation" in succ then "revelation"
    else if ratio < 0.3 && "escalation" in succ then "escalation"
    else if ratio < 0.5 && "danger" in succ then "danger"
    else succ[choice % |succ|]
  }

  /** The integer thresholds and the ratio thresholds choose the same phase
      for every count, successor list and random draw. */
  lemma SelectAgreesWithRatio(count: nat, succ: seq<string>, choice: nat)
    requires succ != []
    ensures Select(count, succ, choice) == SelectByRatio(count, succ, choice)
  {
  }

  /** Selection from a phase of the table always lands on a phase of the
      table, and the random draw is consulted only when no rule applies. */
  lemma SelectStaysInGraph(p: string, count: nat, choice: nat)
    requires IsPhase(p) && p != Ended
    ensures Select(count, Successors(p), choice) in Successors(p)
    ensures IsPhase(Select(count, Successors(p), choice))
    ensures Rank(Select(count, Successors(p), choice)) < Rank(p)
  {
  }

  /** A rule that fires makes the choice independent of the random draw. */
  lemma RuleFiringIsDeterministic(count: nat, succ: seq<string>, c1: nat, c2: nat)
    requires succ != []
    requires (count > 7 && "investigation" in succ) || (count > 5 && "revelation" in succ)
          || (count < 3 && "escalation" in succ) || (count < 5 && "danger" in succ)
    ensures Select(count, succ, c1) == Select(count, succ, c2)
  {
  }

  /** The shadowing the ordering causes: with eight or more interactions,
      `revelation` is never picked when `investigation` is also allowed. */
  lemma InvestigationShadowsRevelation(count: nat, succ: seq<string>, choice: nat)
    requires succ != [] && count > 7 && "investigation" in succ
    ensures Select(count, succ, choice) == "investigation"
  {
  }

  /** Worked examples of the rule on the phase table. */
  lemma SelectExamples(choice: nat)
    ensures Select(8, Successors("unfolding"), choice) == "investigation"
    ensures Select(2, Successors("unfolding"), choice) == "escalation"
    ensures Select(4, Successors("investigation"), choice) == "danger"
    ensures Select(8, ["investigation", "escalation"], choice) == "investigation"
    ensures Select(2, ["escalation", "danger"], choice) == "escalation"
  {
  }

  /** From `unfolding`, five to seven interactions fall through every rule
      (no revelation or danger there) and the random draw decides. */
  lemma UnfoldingMiddleIsRandom(count: nat)
    requires 5 <= count <= 7
    ensures Select(count, Successors("unfolding"), 0) == "escalation"
    ensures Select(count, Successors("unfolding"), 1) == "investigation"
  {
  }
}
