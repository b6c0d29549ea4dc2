/** The evidence fan-out of `generate_state_evidence`: which kinds of
    evidence each phase asks for, and what the requests attach to the story.
    The image and audio generators are collaborators passed in as
    functions: the image generator returns a list of paths (empty when it
    fails), the audio generator one path or `None`. */
module EvidenceFanOut {
  import opened Wrappers
  import opened Phases

  datatype Kind = Image | Audio | Text

  /** The story fields the fan-out reads. */
  datatype StoryInfo = StoryInfo(title: string, content: string, location: string, persona: string)

  /** What an evidence row's `file_path` holds: one path, or (as the image
      request writes it) the whole list of paths the generator returned. */
  datatype FileRef = Path(path: string) | PathList(paths: seq<string>)

  /** An evidence row attached to the story. */
  datatype Evidence = Evidence(evidenceType: Kind, file: FileRef, description: string)

  /** The `file_path` column is a text column: it stores one path. */
  predicate Storable(e: Evidence) {
    e.file.Path?
  }

  /** A comment posted on the story; text evidence is posted as an AI
      comment with no author. */
  datatype Comment = Comment(content: string, isAiResponse: bool)

  const EvidenceTypes: map<string, seq<Kind>> := map[
    "init" := [Text],
    "unfolding" := [Image, Text],
    "investigation" := [Image, Audio],
    "escalation" := [Image, Audio, Text],
    "danger" := [Image, Audio],
    "revelation" := [Text, Image],
    "twist" := [Image, Audio],
    "climax" := [Image, Audio, Text]
  ]

  /** The kinds requested for `state`; a phase missing from the table asks
      for a single text update. Every phase asks for one to three distinct
      kinds. */
  function KindsFor(state: string): (kinds: seq<Kind>)
    ensures 1 <= |kinds| <= 3
    ensures forall i, j :: 0 <= i < j < |kinds| ==> kinds[i] != kinds[j]
    ensures state !in EvidenceTypes ==> kinds == [Text]
  {
    if state in EvidenceTypes then EvidenceTypes[state] else [Text]
  }

  /** The table lists exactly the phases with a positive dwell time; the
      ending phases and `ended` fall back to a text update. */
  lemma EvidenceTableCoversDwellingPhases(p: string)
    ensures p in EvidenceTypes <==> IsPhase(p) && DwellSeconds(p) > 0
  {
  }

  /** The text of the AI update comment for `state`. */
  function UpdateText(state: string, info: StoryInfo): string {
    if state == "init" then "【更新】" + info.persona + "首次发布了这个故事..."
    else if state == "unfolding" then "【更新】事态正在发展，" + info.location + "出现了新的情况..."
    else if state == "investigation" then "【更新】经过调查，我发现了一些令人不安的细节..."
    else if state == "escalation" then "【更新】情况比我想象的要严重，它又出现了..."
    else if state == "danger" then "【更新】我可能惹上麻烦了，有人在跟踪我..."
    else if state == "revelation" then "【更新】真相终于浮出水面，但我宁愿自己从未知道..."
    else if state == "twist" then "【更新】等等，事情根本不是我想的那样..."
    else if state == "climax" then "【最终更新】这是我最后一次发帖了..."
    else "【更新】情况有了新的进展..."
  }

  /** The description of an image row: a suspicious photo found at the
      story's location. */
  function ImageDescription(info: StoryInfo): string {
    "在" + info.location + "发现的可疑照片"
  }

  /** The description of an audio row: a recording by the story's persona. */
  function AudioDescription(info: StoryInfo): string {
    info.persona + "的录音记录"
  }

  /** The paths the generator for `kind` returns for this story: the image
      generator's list (empty when it fails), the audio generator's single
      path if any; text has no generator. */
  function Produced(kind: Kind, info: StoryInfo,
                    image: (string, string) -> seq<string>,
                    audio: string -> Option<string>): (paths: seq<string>)
    ensures kind == Text ==> paths == []
    ensures kind == Audio ==> |paths| <= 1
  {
    match kind
    case Image => image(info.title, info.content)
    case Audio => (match audio(info.content) case Some(p) => [p] case None => [])
    case Text => []
  }

  /** The evidence rows a request of `kind` attaches: one row per returned
      path, each of that kind and carrying that path; none when the
      generator returned nothing. */
  function EvidenceFor(kind: Kind, info: StoryInfo,
                       image: (string, string) -> seq<string>,
                       audio: string -> Option<string>): (rows: seq<Evidence>)
    ensures |rows| == |Produced(kind, info, image, audio)|
    ensures forall i :: 0 <= i < |rows| ==>
      && rows[i].evidenceType == kind
      && rows[i].file == Path(Produced(kind, info, image, audio)[i])
  {
    var paths := Produced(kind, info, image, audio);
    var description := if kind == Image then ImageDescription(info) else AudioDescription(info);
    seq(|paths|, i requires 0 <= i < |paths| => Evidence(kind, Path(paths[i]), description))
  }

  /** The evidence rows a list of requests attaches, in request order. */
  function NewEvidence(kinds: seq<Kind>, info: StoryInfo,
                       image: (string, string) -> seq<string>,
                       audio: string -> Option<string>): seq<Evidence>
  {
    if kinds == [] then []
    else NewEvidence(kinds[..|kinds| - 1], info, image, audio) + EvidenceFor(kinds[|kinds| - 1], info, image, audio)
  }

  /** The image row as the source builds it: the whole list the generator
      returned, stored in the one text column `file_path`. */
  function ImageRowAsWritten(info: StoryInfo, image: (string, string) -> seq<string>): (row: Option<Evidence>)
    ensures row.Some? <==> image(info.title, info.content) != []
  {
    var paths := image(info.title, info.content);
    if paths == [] then None else Some(Evidence(Image, PathList(paths), ImageDescription(info)))
  }

  /** Whenever the image generator succeeds, the row the source builds holds
      a list where the column holds a single string, so it cannot be stored
      and the commit after the transition fails. */
  lemma AsWrittenImageRowUnstorable(info: StoryInfo, image: (string, string) -> seq<string>)
    requires image(info.title, info.content) != []
    ensures ImageRowAsWritten(info, image).Some?
    ensures !Storable(ImageRowAsWritten(info, image).value)
  {
  }

  /** A concrete instance: a generator that returns two image paths. */
  lemma AsWrittenImageRowExample(info: StoryInfo)
    ensures var image := (t: string, c: string) => ["/evidence/evidence_0f3a9c1e_1.jpg", "/evidence/evidence_0f3a9c1e_2.jpg"];
      && ImageRowAsWritten(info, image).Some?
      && ImageRowAsWritten(info, image).value.file == PathList(["/evidence/evidence_0f3a9c1e_1.jpg", "/evidence/evidence_0f3a9c1e_2.jpg"])
      && !Storable(ImageRowAsWritten(info, image).value)
  {
  }

  /** The AI comments a list of requests posts, in request order. */
  function NewComments(kinds: seq<Kind>, state: string, info: StoryInfo): seq<Comment> {
    if kinds == [] then []
    else
      NewComments(kinds[..|kinds| - 1], state, info) +
      (if kinds[|kinds| - 1] == Text then [Comment(UpdateText(state, info), true)] else [])
  }

  /** Requests are handled in order: the first `i + 1` requests attach what
      the first `i` do, then what request `i` does. */
  lemma FanOutStep(kinds: seq<Kind>, i: nat, state: string, info: StoryInfo,
                   image: (string, string) -> seq<string>,
                   audio: string -> Option<string>)
    requires i < |kinds|
    ensures NewEvidence(kinds[..i + 1], info, image, audio) ==
      NewEvidence(kinds[..i], info, image, audio) + EvidenceFor(kinds[i], info, image, audio)
    ensures NewComments(kinds[..i + 1], state, info) ==
      NewComments(kinds[..i], state, info) + (if kinds[i] == Text then [Comment(UpdateText(state, info), true)] else [])
  {
    assert kinds[..i + 1][..i] == kinds[..i];
  }

  lemma ConcatAssociative(a: seq<Evidence>, b: seq<Evidence>, c: seq<Evidence>)
    ensures (a + b) + c == a + (b + c)
  {
  }

  /** How many requests in `kinds` are of kind `k`. */
  function CountKind(kinds: seq<Kind>, k: Kind): nat {
    if kinds == [] then 0
    else CountKind(kinds[..|kinds| - 1], k) + (if kinds[|kinds| - 1] == k then 1 else 0)
  }

  /** How many paths the generators returned over all requests in `kinds`. */
  function CountProduced(kinds: seq<Kind>, info: StoryInfo,
                         image: (string, string) -> seq<string>,
                         audio: string -> Option<string>): nat
  {
    if kinds == [] then 0
    else CountProduced(kinds[..|kinds| - 1], info, image, audio) + |Produced(kinds[|kinds| - 1], info, image, audio)|
  }

  /** Exactly one AI update comment per `text` request, each carrying the
      phase's update text. */
  lemma {:induction false} CommentsPerTextRequest(kinds: seq<Kind>, state: string, info: StoryInfo)
    ensures |NewComments(kinds, state, info)| == CountKind(kinds, Text)
    ensures forall c :: c in NewComments(kinds, state, info) ==> c == Comment(UpdateText(state, info), true)
  {
    if kinds != [] {
      CommentsPerTextRequest(kinds[..|kinds| - 1], state, info);
    }
  }

  /** One evidence row per path a generator returned, and no other: each
      row is of a requested image or audio kind, stores a single path (so it
      can be committed), and that path is one the generator returned. */
  lemma {:induction false} EvidenceOnlyWhenProduced(kinds: seq<Kind>, info: StoryInfo,
                                                    image: (string, string) -> seq<string>,
                                                    audio: string -> Option<string>)
    ensures |NewEvidence(kinds, info, image, audio)| == CountProduced(kinds, info, image, audio)
    ensures forall e :: e in NewEvidence(kinds, info, image, audio) ==>
      && e.evidenceType in kinds
      && e.evidenceType != Text
      && Storable(e)
      && e.file.path in Produced(e.evidenceType, info, image, audio)
  {
    if kinds != [] {
      var init, last := kinds[..|kinds| - 1], kinds[|kinds| - 1];
      EvidenceOnlyWhenProduced(init, info, image, audio);
      assert forall k :: k in init ==> k in kinds;
      var rows := EvidenceFor(last, info, image, audio);
      forall e | e in rows
        ensures e.evidenceType == last && last != Text && Storable(e)
        ensures e.file.path in Produced(last, info, image, audio)
      {
        var i :| 0 <= i < |rows| && rows[i] == e;
      }
    }
  }

  /** When every generator fails, no evidence is attached (the comments
      are still posted). */
  lemma {:induction false} FailedGeneratorsAttachNothing(kinds: seq<Kind>, info: StoryInfo,
                                                         image: (string, string) -> seq<string>,
                                                         audio: string -> Option<string>)
    requires image(info.title, info.content) == [] && audio(info.content).None?
    ensures NewEvidence(kinds, info, image, audio) == []
  {
    if kinds != [] {
      FailedGeneratorsAttachNothing(kinds[..|kinds| - 1], info, image, audio);
    }
  }
}
