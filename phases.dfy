/** The fixed graph of narrative phases (`STORY_STATES`): for each phase a
    description, the phases it may move to, and how many hours it is held
    before a time-based transition becomes due. */
module Phases {

  datatype PhaseInfo = PhaseInfo(description: string, nextStates: seq<string>, durationHours: nat)

  const SecondsPerHour: nat := 3600

  /** The phase every story starts in, and the one it finishes in. */
  const Init: string := "init"
  const Ended: string := "ended"

  const StoryStates: map<string, PhaseInfo> := map[
    "init" := PhaseInfo("故事初始化", ["unfolding"], 6),
    "unfolding" := PhaseInfo("情节展开", ["escalation", "investigation"], 12),
    "investigation" := PhaseInfo("深入调查", ["revelation", "danger"], 18),
    "escalation" := PhaseInfo("事态升级", ["danger", "climax"], 12),
    "danger" := PhaseInfo("危机时刻", ["climax", "twist"], 24),
    "revelation" := PhaseInfo("真相揭露", ["climax", "twist"], 18),
    "twist" := PhaseInfo("剧情反转", ["climax", "ending_horror", "ending_mystery"], 12),
    "climax" := PhaseInfo("故事高潮", ["ending_horror", "ending_mystery", "ending_ambiguous"], 6),
    "ending_horror" := PhaseInfo("恐怖结局", ["ended"], 0),
    "ending_mystery" := PhaseInfo("悬疑结局", ["ended"], 0),
    "ending_ambiguous" := PhaseInfo("开放结局", ["ended"], 0),
    "ended" := PhaseInfo("故事完结", [], 0)
  ]

  predicate IsPhase(p: string) {
    p in StoryStates
  }

  /** The phases `p` may move to. The table is closed: every successor is
      itself a phase, no phase lists a successor twice, and `ended` is the
      one phase with nowhere to go. */
  function Successors(p: string): (next: seq<string>)
    requires IsPhase(p)
    ensures forall q :: q in next ==> IsPhase(q)
    ensures forall i, j :: 0 <= i < j < |next| ==> next[i] != next[j]
    ensures next == [] <==> p == Ended
  {
    StoryStates[p].nextStates
  }

  /** How long phase `p` is held, in seconds. It is zero exactly for the
      three ending phases and `ended`, the phases that lead only to `ended`
      or nowhere. */
  function DwellSeconds(p: string): (d: nat)
    requires IsPhase(p)
    ensures d == 0 <==> (Successors(p) == [] || Successors(p) == [Ended])
  {
    StoryStates[p].durationHours * SecondsPerHour
  }

  /** The number of transitions on the longest path from `p` to `ended`. */
  const PhaseRank: map<string, nat> := map[
    "init" := 7, "unfolding" := 6, "investigation" := 5, "escalation" := 5,
    "danger" := 4, "revelation" := 4, "twist" := 3, "climax" := 2,
    "ending_horror" := 1, "ending_mystery" := 1, "ending_ambiguous" := 1,
    "ended" := 0
  ]

  function Rank(p: string): (r: nat)
    requires IsPhase(p)
    ensures r == 0 <==> p == Ended
  {
    PhaseRank[p]
  }

  /** Every transition strictly lowers the rank, so the phase graph has no
      cycle and every story reaches `ended` after at most Rank(Init) = 7
      transitions. */
  lemma SuccessorLowersRank(p: string, q: string)
    requires IsPhase(p) && q in Successors(p)
    ensures IsPhase(q) && Rank(q) < Rank(p)
  {
  }

  /** Rank really is the longest path: each non-final phase has a successor
      exactly one rank below it. */
  lemma RankIsTight(p: string)
    requires IsPhase(p) && p != Ended
    ensures exists q :: q in Successors(p) && Rank(q) == Rank(p) - 1
  {
    var q := if p == "init" then "unfolding"
      else if p == "unfolding" then "escalation"
      else if p == "investigation" || p == "escalation" then "danger"
      else if p == "danger" || p == "revelation" then "twist"
      else if p == "twist" then "climax"
      else if p == "climax" then "ending_horror"
      else Ended;
    assert q in Successors(p);
  }
}
