/** A story as the operations see it: its text fields, the phase label kept
    beside the phase-state blob, and the evidence rows and comments attached
    to it. The operations update these fields in place. */
module Stories {
  import opened Wrappers
  import opened Phases
  import opened PhaseStates
  import opened EvidenceFanOut
  import Lifecycle

  /** How a call of `transition_story_state` ended: it initialised a story
      that had no blob, found the story already ended, moved it to a phase,
      or stopped on a `KeyError` (an exception in the source) carrying the
      key that was not found. */
  datatype TransitionStatus = Initialised | AlreadyEnded | Moved(to: string) | KeyError(key: string)

  class Story {
    var title: string
    var content: string
    var location: string
    var aiPersona: string
    var currentState: string
    var stateData: Option<PhaseState>
    var evidence: seq<Evidence>
    var comments: seq<Comment>

    /** The phase label on the story equals the phase inside its blob. */
    predicate InSync()
      reads this
    {
      stateData.Some? ==> currentState == stateData.value.currentState
    }

    /** A story in the state machine's hands: in sync, with a valid blob. */
    predicate Consistent()
      reads this
    {
      InSync() && (stateData.None? || Valid(stateData.value))
    }

    function Info(): StoryInfo
      reads this
    {
      StoryInfo(title, content, location, aiPersona)
    }

    /** A new story: no blob yet, the label at its default `init`, nothing
        attached. */
    constructor (title: string, content: string, location: string, aiPersona: string)
      ensures Info() == StoryInfo(title, content, location, aiPersona)
      ensures currentState == Init && stateData == None
      ensures evidence == [] && comments == []
      ensures Consistent()
    {
      this.title := title;
      this.content := content;
      this.location := location;
      this.aiPersona := aiPersona;
      currentState := Init;
      stateData := None;
      evidence := [];
      comments := [];
    }

    /** `initialize_story_state`: a fresh record in phase `init`, mirrored on
        the label. */
    method Initialize(now: int)
      modifies this
      ensures stateData == Some(Initial(now)) && currentState == Init
      ensures Consistent()
      ensures Info() == old(Info()) && evidence == old(evidence) && comments == old(comments)
    {
      stateData := Some(Initial(now));
      currentState := Init;
    }

    /** `check_state_transition`: the answer and the record left behind are
        those of Check; the label follows the record when it is replaced. */
    method CheckTransition(now: int) returns (eligible: bool)
      modifies this
      ensures eligible == Check(old(stateData), now).eligible
      ensures stateData == Check(old(stateData), now).data
      ensures currentState ==
        if old(stateData).Some? && old(stateData).value.nextTransitionTime.None? then Init else old(currentState)
      ensures old(Consistent()) ==> Consistent()
      ensures Info() == old(Info()) && evidence == old(evidence) && comments == old(comments)
    {
      match stateData
      case None =>
        eligible := false;
      case Some(s) =>
        if s.nextTransitionTime.None? {
          Initialize(now);
          eligible := false;
        } else {
          eligible := Eligible(s, now);
        }
    }

    /** `transition_story_state` at time `now`, with `choice` standing for the
        random draw and `image`/`audio` for the evidence generators. Without a
        blob it only initialises; on an ended story or a failed lookup it
        changes nothing; otherwise the blob becomes the advanced record, the
        label follows it, and the new phase's evidence is requested. */
    method Transition(now: int, choice: nat,
                      image: (string, string) -> seq<string>,
                      audio: string -> Option<string>) returns (status: TransitionStatus)
      modifies this
      ensures old(stateData).None? ==>
        status == Initialised && stateData == Some(Initial(now)) && currentState == Init &&
        evidence == old(evidence) && comments == old(comments)
      ensures old(stateData).Some? ==>
        match Advance(old(stateData).value, now, choice)
        case Advanced(t) =>
          && status == Moved(t.currentState)
          && currentState == t.currentState
          && stateData == Some(WithEvidence(t, |KindsFor(t.currentState)|))
          && evidence == old(evidence) + NewEvidence(KindsFor(t.currentState), old(Info()), image, audio)
          && comments == old(comments) + NewComments(KindsFor(t.currentState), t.currentState, old(Info()))
        case Finished =>
          status == AlreadyEnded && stateData == old(stateData) && currentState == old(currentState) &&
          evidence == old(evidence) && comments == old(comments)
        case MissingKey(k) =>
          status == KeyError(k) && stateData == old(stateData) && currentState == old(currentState) &&
          evidence == old(evidence) && comments == old(comments)
      ensures status.Moved? || status.Initialised? ==> InSync()
      ensures old(Consistent()) ==> Consistent() && !status.KeyError?
      ensures Info() == old(Info())
    {
      if stateData.None? {
        Initialize(now);
        return Initialised;
      }
      if Valid(stateData.value) {
        Lifecycle.AdvanceOnValid(stateData.value, now, choice);
      }
      match Advance(stateData.value, now, choice)
      case Finished =>
        status := AlreadyEnded;
      case MissingKey(k) =>
        status := KeyError(k);
      case Advanced(t) =>
        if Valid(stateData.value) {
          Lifecycle.AdvancePreservesValid(stateData.value, now, choice);
        }
        stateData := Some(t);
        currentState := t.currentState;
        GenerateStateEvidence(t.currentState, image, audio);
        status := Moved(t.currentState);
    }

    /** `generate_state_evidence`: one request per kind listed for `state`,
        an evidence row for each generator result that is not empty, one AI
        comment per text request, and the evidence counter raised by the
        number of kinds requested whatever the generators returned. */
    method GenerateStateEvidence(state: string,
                                 image: (string, string) -> seq<string>,
                                 audio: string -> Option<string>)
      modifies this
      ensures evidence == old(evidence) + NewEvidence(KindsFor(state), old(Info()), image, audio)
      ensures comments == old(comments) + NewComments(KindsFor(state), state, old(Info()))
      ensures stateData == if old(stateData).None? then None
                           else Some(WithEvidence(old(stateData).value, |KindsFor(state)|))
      ensures currentState == old(currentState) && Info() == old(Info())
      ensures old(Consistent()) ==> Consistent()
    {
      var kinds := KindsFor(state);
      RequestAll(kinds, state, image, audio);
      if stateData.Some? {
        stateData := Some(WithEvidence(stateData.value, |kinds|));
      }
    }

    /** The loop over the requested kinds, one request each, in order. */
    method RequestAll(kinds: seq<Kind>, state: string,
                      image: (string, string) -> seq<string>,
                      audio: string -> Option<string>)
      modifies this
      ensures evidence == old(evidence) + NewEvidence(kinds, old(Info()), image, audio)
      ensures comments == old(comments) + NewComments(kinds, state, old(Info()))
      ensures Info() == old(Info()) && stateData == old(stateData) && currentState == old(currentState)
    {
      var info := Info();
      var i := 0;
      while i < |kinds|
        invariant 0 <= i <= |kinds|
        invariant evidence == old(evidence) + NewEvidence(kinds[..i], info, image, audio)
        invariant comments == old(comments) + NewComments(kinds[..i], state, info)
        invariant Info() == info && stateData == old(stateData) && currentState == old(currentState)
      {
        ghost var done := NewEvidence(kinds[..i], info, image, audio);
        Request(kinds[i], state, image, audio);
        FanOutStep(kinds, i, state, info, image, audio);
        ConcatAssociative(old(evidence), done, EvidenceFor(kinds[i], info, image, audio));
        i := i + 1;
      }
      assert kinds[..i] == kinds;
    }

    /** One request of the fan-out: an image request attaches one row per
        path the image generator returned, an audio request one row for a
        returned path, a text request one AI update comment. */
    method Request(kind: Kind, state: string,
                   image: (string, string) -> seq<string>,
                   audio: string -> Option<string>)
      modifies this
      ensures evidence == old(evidence) + EvidenceFor(kind, old(Info()), image, audio)
      ensures comments == old(comments) +
        (if kind == Text then [Comment(UpdateText(state, old(Info())), true)] else [])
      ensures Info() == old(Info()) && stateData == old(stateData) && currentState == old(currentState)
    {
      if kind == Image {
        var paths := image(title, content);
        var j := 0;
        while j < |paths|
          invariant 0 <= j <= |paths|
          invariant paths == Produced(Image, Info(), image, audio)
          invariant |EvidenceFor(Image, Info(), image, audio)| == |paths|
          invariant evidence == old(evidence) + EvidenceFor(Image, Info(), image, audio)[..j]
          invariant Info() == old(Info()) && stateData == old(stateData) && currentState == old(currentState)
          invariant comments == old(comments)
        {
          evidence := evidence + [Evidence(Image, Path(paths[j]), "在" + location + "发现的可疑照片")];
          j := j + 1;
        }
      } else if kind == Audio {
        var path := audio(content);
        if path.Some? {
          evidence := evidence + [Evidence(Audio, Path(path.value), aiPersona + "的录音记录")];
        }
      } else {
        comments := comments + [Comment(UpdateText(state, Info()), true)];
      }
    }

    /** `record_user_interaction`: initialise when there is no blob, then one
        more interaction; phase, history, deadline and evidence counter stay. */
    method RecordUserInteraction(now: int)
      modifies this
      ensures stateData == Some(RecordInteraction(old(stateData), now))
      ensures currentState == if old(stateData).None? then Init else old(currentState)
      ensures old(Consistent()) ==> Consistent()
      ensures Info() == old(Info()) && evidence == old(evidence) && comments == old(comments)
    {
      if stateData.None? {
        Initialize(now);
      }
      stateData := Some(WithInteraction(stateData.value));
    }
  }
}
