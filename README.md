# Narrative phase state machine

A model of the story engine of an "urban legend" site. Every story moves
through a fixed graph of narrative phases (`init`, `unfolding`, ...,
three endings, `ended`). A story becomes due for a transition when the
current phase's dwell time has passed or ten reader interactions were
recorded. A transition picks the next phase from the interaction count,
appends a history entry, moves the deadline and resets the counter. It
then requests the evidence the new phase calls for: images, audio and AI
update comments. The model also covers two small pieces of the image
script: extracting the horror keywords that occur in a story's text, and
naming the evidence image files.

Layout:

- `phases.dfy` (`Phases`): the phase table, successors, dwell times, and
  a rank that proves the graph acyclic.
- `selection.dfy` (`Selection`): the next-phase rule, written with integer
  thresholds, and its equivalence with the ratio rule on exact reals.
- `phase_state.dfy` (`PhaseStates`): the phase-state record (the blob),
  its invariant `Valid`, and pure functions for initialisation, the
  eligibility check, the transition step and the two counters.
- `lifecycle.dfy` (`Lifecycle`): lemmas over those operations. They cover
  invariant preservation, trigger and deadline rules, eligibility after a
  transition and after interactions, and the fact that every story
  reaches `ended`.
- `evidence.dfy` (`EvidenceFanOut`): evidence kinds per phase, update
  texts, and what one round of requests attaches.
- `story.dfy` (`Stories`): the `Story` class. Its methods update the
  phase label, the blob, and the evidence and comment lists in place, and
  each is specified by the pure functions above.
- `keywords.dfy` (`Keywords`): keyword extraction.
- `image_names.dfy` (`EvidenceImages`): the image file-name loop.
- `wrappers.dfy` (`Wrappers`): `Option`, for JSON keys that may be
  absent and generator results that may be empty.

Modelling choices:

- Times are whole seconds. One `now` stands for the several clock reads
  inside one operation.
- The JSON blob is the datatype `PhaseState`. Serialisation is the
  identity.
- `random.choice` is the parameter `choice`; the model picks
  `succ[choice % |succ|]`.
- The image and audio generators are function parameters. The image
  generator returns a list of paths, which is empty when it fails. The
  audio generator returns one path or `None`.
- The source stores the image generator's whole list as one evidence
  row's `file_path` (story_engine.py:197-205). The model follows the
  other callers of that generator instead and attaches one row per path;
  see "## Findings".
- The MD5-derived story hash is a parameter of the naming loop.
- The source keys the selection rule on the float `count / 10.0` against
  0.7, 0.5, 0.3 and 0.5. `Selection.Select` uses `count > 7`, `> 5`,
  `< 3` and `< 5`. `Selection.SelectAgreesWithRatio` proves this equal
  to the rule on exact reals. For whole counts, IEEE division by 10.0
  rounds `n / 10.0` to the same double as the literal `n/10`. Rounding
  is also monotone, so the float comparisons agree with the exact ones.
- `transition_story_state` raises `KeyError` in three places. The current
  phase may be missing from the table (story_engine.py:129). The
  interaction count may be missing (story_engine.py:137). The deadline may
  be missing (story_engine.py:157). The model returns these as
  `Step.MissingKey` and changes nothing. No story is written before the
  failing lookup, so this matches the source.
- The function-local import at story_engine.py:118 names
  `generate_ai_story`, and ai_engine.py defines no such name, so
  `transition_story_state` as written stops with an `ImportError` before
  doing anything. The model describes the transition as it reads once
  that import succeeds.

## Model

| member | source | states |
|---|---|---|
| `Phases.Successors` | story_engine.py:6-67 | every successor of a phase is itself a key of the table, no phase lists a successor twice, and `ended` is the only phase with no successors |
| `Phases.DwellSeconds` | story_engine.py:6-67 | the dwell time is zero exactly for the phases that lead only to `ended` or nowhere (the three endings and `ended`) |
| `Phases.Rank` | story_engine.py:6-67 | rank 0 belongs to `ended` alone |
| `Phases.SuccessorLowersRank` | story_engine.py:6-67 | every edge of the phase graph lowers the rank, so the graph has no cycle |
| `Phases.RankIsTight` | story_engine.py:6-67 | every phase other than `ended` has a successor exactly one rank lower, so rank is the longest path to `ended` |
| `Selection.Select` | story_engine.py:137-150 | the chosen phase is always one of the allowed successors |
| `Selection.SelectByRatio` | story_engine.py:137-150 | defines the rule literally, on the ratio `count / 10` compared with 0.7, 0.5, 0.3 and 0.5, falling back to the draw |
| `Selection.SelectAgreesWithRatio` | story_engine.py:137-146 | the integer thresholds choose the same phase as the ratio rule `count / 10` against 0.7, 0.5, 0.3, 0.5, for every count, successor list and random draw |
| `Selection.SelectStaysInGraph` | story_engine.py:129-150 | from any non-final phase the choice is a successor, a phase of the table, and of lower rank |
| `Selection.RuleFiringIsDeterministic` | story_engine.py:139-150 | when one of the four rules applies, the random draw has no influence on the result |
| `Selection.InvestigationShadowsRevelation` | story_engine.py:139-142 | with more than 7 interactions and `investigation` allowed, `investigation` is chosen, so `revelation` is never reached on that branch |
| `Selection.SelectExamples` | story_engine.py:139-146 | count 8 from `unfolding` gives `investigation`, count 2 from `unfolding` gives `escalation`, count 4 from `investigation` gives `danger`; the two decision examples on explicit successor lists |
| `Selection.UnfoldingMiddleIsRandom` | story_engine.py:147-150 | from `unfolding` with 5 to 7 interactions no rule applies and both successors are reachable through the random draw |
| `PhaseStates.Eligible` | story_engine.py:103-113 | defines the answer for a record with a deadline: the deadline has passed, or ten or more interactions are recorded |
| `PhaseStates.Initial` | story_engine.py:69-88 | the starting record is valid: phase `init`, a single `story_created` history entry, both counters 0, deadline now + 6 h |
| `PhaseStates.Check` | story_engine.py:90-113 | no record: false, nothing changes; a record without deadline: replaced by a fresh `init` record, false; otherwise the record is unchanged and the answer is true exactly when now >= deadline or the count (missing read as 0) is >= 10 |
| `PhaseStates.TriggerAt` | story_engine.py:157 | the new history entry's trigger is `time_based` exactly when now >= the previous deadline, else `interaction_based` |
| `PhaseStates.Advance` | story_engine.py:125-166 | it does nothing exactly when the phase is `ended`; it fails a lookup exactly for an unknown phase (the error names the phase) or a missing count or deadline; otherwise the new phase is the one the first-match rule `Select` picks from the successors for the recorded count and draw, history grows by one entry for the new phase at `now` with earlier entries unchanged, the count is 0 and the evidence counter is kept |
| `PhaseStates.MissingKeyNames` | story_engine.py:129-157 | the failing lookup names the missing key: the phase name for a phase not in the table, then `user_interaction_count`, then `next_transition_time` |
| `PhaseStates.WithInteraction` | story_engine.py:252-258 | the count rises by exactly 1 (missing read as 0); phase, history, deadline and evidence counter are unchanged |
| `PhaseStates.RecordInteraction` | story_engine.py:247-259 | a missing record is initialised first, so the count becomes 1; otherwise one interaction is added to the existing record |
| `PhaseStates.WithEvidence` | story_engine.py:241-245 | the evidence counter rises by the given number and nothing else changes |
| `Lifecycle.AdvancePreservesValid` | story_engine.py:152-169 | a transition keeps the invariant: the history still starts with the creation entry, ends with the current phase and follows edges of the graph |
| `Lifecycle.AdvanceOnValid` | story_engine.py:125-137 | on a valid record no lookup fails, and the transition is a no-op exactly when the phase is `ended` |
| `Lifecycle.AdvanceTriggerAndDeadline` | story_engine.py:154-163 | trigger is `time_based` iff now >= old deadline and `interaction_based` otherwise; deadline becomes now + dwell when the dwell is positive and stays as it was for zero-dwell phases |
| `Lifecycle.IneligibleRightAfterAdvance` | story_engine.py:103-113 | right after a transition into a phase with positive dwell, the check at the same moment answers false |
| `Lifecycle.EndingDueAtOnce` | story_engine.py:160-163 | after a time-triggered move into an ending phase the old deadline is kept, so the story is eligible at once and at every later time |
| `Lifecycle.EligibleStaysEligible` | story_engine.py:103-107 | eligibility is monotone in time |
| `Lifecycle.RecordInteractionPreservesValid` | story_engine.py:247-259 | recording an interaction keeps a valid or absent record valid |
| `Lifecycle.CheckKeepsValid` | story_engine.py:97-101 | the check leaves a valid record valid and repairs a record without a deadline |
| `Lifecycle.InteractCounts` | story_engine.py:255-258 | n interactions raise the count by exactly n and touch nothing else |
| `Lifecycle.TenInteractionsMakeEligible` | story_engine.py:109-111 | ten or more interactions make a story eligible at any time |
| `Lifecycle.SweepOnce` | scheduler_tasks.py:80-87 | defines one pass over one story: the interactions recorded since the previous pass, then nothing for an `ended` story; otherwise the check, and on a positive answer the transition with its evidence counter bump |
| `Lifecycle.Run` | scheduler_tasks.py:80-87 | defines a series of passes as `SweepOnce` applied in order |
| `Lifecycle.InteractPreservesValid` | story_engine.py:255-258 | any number of interactions keeps a valid record valid |
| `Lifecycle.SweepOnceKeepsValid` | scheduler_tasks.py:80-85 | one scheduler pass (record the interactions since the last pass, skip `ended`, check, transition when eligible) keeps the record valid and never raises the rank; it lowers the rank of a story not yet ended when the pass comes at or after the deadline or the count reaches 10 |
| `Lifecycle.RunKeepsValid` | scheduler_tasks.py:80-85 | any series of passes keeps the record valid, so a story has at most 8 history entries and makes at most 7 transitions |
| `Lifecycle.RunReachesEnded` | scheduler_tasks.py:80-85 | from a valid record, Rank(current) passes (seven from creation), each after ten or more interactions, reach `ended` whatever the times and draws |
| `EvidenceFanOut.KindsFor` | story_engine.py:182-193 | each phase requests one to three distinct kinds, and a phase missing from the table requests `text` only |
| `EvidenceFanOut.EvidenceTableCoversDwellingPhases` | story_engine.py:182-191 | the evidence table lists exactly the phases with a positive dwell time |
| `EvidenceFanOut.UpdateText` | story_engine.py:220-231 | defines the eight per-phase update texts, with the persona or location filled in, and the default text for any other phase |
| `EvidenceFanOut.ImageDescription` | story_engine.py:203 | defines the image row description "在<location>发现的可疑照片" |
| `EvidenceFanOut.AudioDescription` | story_engine.py:214 | defines the audio row description "<persona>的录音记录" |
| `EvidenceFanOut.NewEvidence` | story_engine.py:195-216 | defines the rows the whole request loop attaches: the rows of each request, in request order |
| `EvidenceFanOut.NewComments` | story_engine.py:217-239 | defines the comments the whole request loop posts: one AI update comment per text request, in request order |
| `EvidenceFanOut.Produced` | story_engine.py:195-208 | a text request calls no generator and yields no path; an audio request yields at most one path |
| `EvidenceFanOut.EvidenceFor` | story_engine.py:195-216 | a request attaches one evidence row per path its generator returned, each of the requested kind and carrying that path, and none when the generator returned nothing |
| `EvidenceFanOut.ImageRowAsWritten` | story_engine.py:196-205 | the source builds an image row exactly when the generator's list is non-empty, and stores the whole list as its file |
| `EvidenceFanOut.AsWrittenImageRowUnstorable` | story_engine.py:197-205 | whenever the image generator succeeds, the row the source builds holds a list, which the single-path `file_path` column cannot store |
| `EvidenceFanOut.AsWrittenImageRowExample` | story_engine.py:197-205 | a generator returning two paths gives a row whose file is that two-path list, which cannot be stored |
| `EvidenceFanOut.CommentsPerTextRequest` | story_engine.py:218-239 | exactly one AI comment per `text` request, carrying the phase's update text |
| `EvidenceFanOut.EvidenceOnlyWhenProduced` | story_engine.py:195-216 | the number of rows equals the number of paths the generators returned; each row is of a requested non-text kind, stores a single path, and that path is one its generator returned |
| `EvidenceFanOut.FailedGeneratorsAttachNothing` | story_engine.py:195-216 | when both generators fail, no evidence row is attached |
| `Stories.Story.constructor` | app.py:35-49 | a new story has no blob, the label `init` and no evidence or comments |
| `Stories.Story.Initialize` | story_engine.py:69-88 | the blob becomes the starting record, the label becomes `init`, and the story stays consistent |
| `Stories.Story.CheckTransition` | story_engine.py:90-113 | answer and new blob are those of `Check`; the label follows a re-initialised blob; label and blob stay in step |
| `Stories.Story.Transition` | story_engine.py:115-175 | without a blob it only initialises; an ended story or a failed lookup changes nothing; otherwise label and blob move to the advanced record together, the evidence counter rises by the number of kinds for the new phase, and the new phase's evidence and comments are appended; consistency is preserved, and a consistent story never fails a lookup |
| `Stories.Story.GenerateStateEvidence` | story_engine.py:177-245 | evidence and comments grow by exactly the rows and comments of the phase's requests, and the evidence counter rises by the number of kinds requested, whatever the generators returned |
| `Stories.Story.RequestAll` | story_engine.py:195-239 | the loop over the requested kinds appends, in order, exactly the rows and comments of each request, and changes nothing else |
| `Stories.Story.Request` | story_engine.py:196-239 | one request appends one row per path its generator returned (image, audio) or one AI update comment (text), and changes nothing else |
| `Stories.Story.RecordUserInteraction` | story_engine.py:247-259 | the blob, initialised when absent, gets one more interaction; the label becomes `init` when the blob was absent and is kept otherwise; text, evidence and comments keep their values; consistency is preserved |
| `Keywords.KeywordPatternsDistinct` | generate_placeholder_images.py:363-369 | the keyword list has no duplicates |
| `Keywords.Contains` | generate_placeholder_images.py:372 | defines Python's substring test `keyword in content`: the pattern occurs at some position of the text |
| `Keywords.Matching` | generate_placeholder_images.py:371-373 | defines the filter over the pattern list: the patterns that occur in the text, in list order |
| `Keywords.MatchingMembers` | generate_placeholder_images.py:371-373 | a pattern is among the matches exactly when it is in the list and occurs in the text |
| `Keywords.MatchingAtIndices` | generate_placeholder_images.py:363-373 | the matches are the patterns at the ascending positions whose pattern occurs in the text, and every such position is included, so the result is a subsequence of the pattern list in list order |
| `Keywords.MatchingDistinct` | generate_placeholder_images.py:363-373 | distinct patterns give matches without duplicates |
| `Keywords.FirstKeywords` | generate_placeholder_images.py:375 | the result is a prefix of the matches of length min(10, number of matches) |
| `Keywords.ExtractKeywords` | generate_placeholder_images.py:358-375 | the loop returns the first min(10, k) matching patterns in list order; every returned keyword occurs in the content, there are at most 10, and none repeats |
| `Keywords.NoMatchNoKeywords` | generate_placeholder_images.py:371-375 | content containing no pattern gives the empty list |
| `EvidenceImages.Decimal` | generate_placeholder_images.py:352 | the decimal numeral of a number, as Python's `str` writes it: at least one digit, and at least two from 10 on |
| `EvidenceImages.EvidenceFileName` | generate_placeholder_images.py:352 | defines the name `evidence_<hash>_<n>.jpg` |
| `EvidenceImages.DecimalInjective` | generate_placeholder_images.py:352 | different numbers have different decimal numerals |
| `EvidenceImages.FileNamesDiffer` | generate_placeholder_images.py:352 | two images of one story never get the same file name |
| `EvidenceImages.ImageCount` | generate_placeholder_images.py:344 | the image count is min(num_images, 5), and 0 for a count below one |
| `EvidenceImages.StoryEvidenceImageNames` | generate_placeholder_images.py:342-356 | exactly min(num_images, 5) names, the i-th being `evidence_<hash>_<i>.jpg` in order, all different |

## Findings

| source | as written | input that shows it | evidently intended | confidence | as-written member | corrected member |
|---|---|---|---|---|---|---|
| story_engine.py:197-205 | an image request stores the whole list that `generate_evidence_image` returns (ai_engine.py:343) as the `file_path` of one evidence row. That column holds one string (app.py:62), so the commit at story_engine.py:175 fails | any transition into a phase that requests an image, when the generator returns e.g. two paths | one evidence row per returned path, as the other callers of the generator do (scheduler_tasks.py:49-58, app.py:199-203) | medium, not executed | `EvidenceFanOut.AsWrittenImageRowUnstorable` | `EvidenceFanOut.EvidenceOnlyWhenProduced` |

## Left out

- HTTP routes, authentication and the ORM are not modelled. Persistence
  and commits are field updates on `Story`.
- The scheduler itself (its timer and its query for active stories) is
  not modelled. `Lifecycle.SweepOnce` models one pass over one story:
  the interactions recorded since the previous pass, the skip of
  `ended`, the check, and the transition when eligible.
- `Lifecycle.RunReachesEnded`: the proof that every story ends assumes
  ten interactions before each pass. Passes driven by deadlines alone
  are covered one at a time by `Lifecycle.SweepOnceKeepsValid`, not as a
  series.
- Concurrency is not modelled. The lost-update race between
  `record_user_interaction` and the sweep is out of scope, and each
  operation is taken to run alone.
- Only two paths into evidence generation are covered. Drawing the
  images (`create_found_footage_image`, `create_abstract_image`, noise
  and gradients), the random choice of caption and scene per image, and
  the AI and speech services behind the generators are left out. The
  generators are parameters.
- MD5 is not modelled. The story hash is an input.
- Malformed JSON, which would raise at story_engine.py:95, is not
  modelled, and neither are blobs missing `current_state`,
  `state_history` or `evidence_generated`. The model's record always
  has these three keys, so the `KeyError` that such a blob would raise
  in `transition_story_state` or `generate_state_evidence` is not
  represented.
- The seed fixtures' blobs (seed.py:110-112, seed.py:170) use trigger
  names outside the three the engine writes. They are fixture data, and
  `Trigger` holds only those three.
- The ImportError at story_engine.py:118 is not modelled; see the note
  above.
- `Stories.Story.Transition`: one `now` covers the separate clock reads
  at story_engine.py:156, 157 and 163, which in the source may differ by
  microseconds.
