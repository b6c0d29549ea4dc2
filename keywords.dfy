/** `extract_keywords_from_story`: the fixed horror keywords that occur in a
    story's text, in list order, at most ten of them. */
module Keywords {

  const KeywordPatterns: seq<string> := [
    "鱼缸", "墙壁", "座位", "戏院", "小巴", "码头",
    "纸条", "照片", "录像", "监控", "手机", "镜子",
    "房间", "走廊", "楼梯", "地下室", "天台", "电梯",
    "抓痕", "血迹", "脚印", "影子", "雾气", "窗户",
    "门", "钟声", "脚步声", "呼吸", "眼睛", "手印"
  ]

  const MaxKeywords: nat := 10

  /** `k` occurs in `text` starting at position `i`. */
  predicate OccursAt(text: string, k: string, i: nat) {
    i + |k| <= |text| && text[i..i + |k|] == k
  }

  /** Python's `k in text` on strings: `k` occurs as a contiguous substring. */
  predicate Contains(text: string, k: string) {
    exists i: nat | i <= |text| :: OccursAt(text, k, i)
  }

  predicate Distinct(s: seq<string>) {
    forall i, j :: 0 <= i < j < |s| ==> s[i] != s[j]
  }

  /** The patterns of `ps` that occur in `text`, in the order of `ps`. */
  function Matching(ps: seq<string>, text: string): seq<string> {
    if ps == [] then []
    else Matching(ps[..|ps| - 1], text) + (if Contains(text, ps[|ps| - 1]) then [ps[|ps| - 1]] else [])
  }

  /** The positions in `ps` of the patterns that occur in `text`, ascending. */
  function MatchIndices(ps: seq<string>, text: string): seq<nat> {
    if ps == [] then []
    else MatchIndices(ps[..|ps| - 1], text) + (if Contains(text, ps[|ps| - 1]) then [|ps| - 1] else [])
  }

  /** The keyword list is free of duplicates. */
  lemma KeywordPatternsDistinct()
    ensures Distinct(KeywordPatterns)
  {
  }

  /** A pattern is in the result exactly when it is in the list and occurs
      in the text. */
  lemma {:induction false} MatchingMembers(ps: seq<string>, text: string, k: string)
    ensures k in Matching(ps, text) <==> k in ps && Contains(text, k)
  {
    if ps != [] {
      var init := ps[..|ps| - 1];
      MatchingMembers(init, text, k);
      assert ps == init + [ps[|ps| - 1]];
    }
  }

  /** The result is a subsequence of the pattern list: its j-th element is
      the pattern at the j-th ascending match position, and every position
      whose pattern occurs in the text is one of them. */
  lemma {:induction false} MatchingAtIndices(ps: seq<string>, text: string)
    ensures |MatchIndices(ps, text)| == |Matching(ps, text)|
    ensures forall j :: 0 <= j < |MatchIndices(ps, text)| ==>
      MatchIndices(ps, text)[j] < |ps| && Matching(ps, text)[j] == ps[MatchIndices(ps, text)[j]]
    ensures forall j, l :: 0 <= j < l < |MatchIndices(ps, text)| ==> MatchIndices(ps, text)[j] < MatchIndices(ps, text)[l]
    ensures forall i :: 0 <= i < |ps| && Contains(text, ps[i]) ==> i in MatchIndices(ps, text)
    ensures forall i :: i in MatchIndices(ps, text) ==> i < |ps| && Contains(text, ps[i])
  {
    if ps != [] {
      var init := ps[..|ps| - 1];
      MatchingAtIndices(init, text);
      assert forall i :: 0 <= i < |init| ==> ps[i] == init[i];
    }
  }

  /** Distinct patterns give a result without duplicates. */
  lemma MatchingDistinct(ps: seq<string>, text: string)
    requires Distinct(ps)
    ensures Distinct(Matching(ps, text))
  {
    MatchingAtIndices(ps, text);
    var idx, m := MatchIndices(ps, text), Matching(ps, text);
    forall j, l | 0 <= j < l < |m|
      ensures m[j] != m[l]
    {
      assert idx[j] < idx[l];
    }
  }

  /** The at most ten first matches, as `keywords[:10]` takes them. */
  function FirstKeywords(matches: seq<string>): (r: seq<string>)
    ensures |r| == if |matches| < MaxKeywords then |matches| else MaxKeywords
    ensures r <= matches
  {
    if |matches| <= MaxKeywords then matches else matches[..MaxKeywords]
  }

  /** The keyword extraction loop: every pattern is tested in list order and
      appended when it occurs in `content`; the first ten are returned. The
      result is the prefix of the full match list, so it holds only patterns
      that occur in the content, in list order, without repeats. */
  method ExtractKeywords(content: string) returns (keywords: seq<string>)
    ensures keywords == FirstKeywords(Matching(KeywordPatterns, content))
    ensures |keywords| <= MaxKeywords
    ensures forall k :: k in keywords ==> k in KeywordPatterns && Contains(content, k)
    ensures Distinct(keywords)
  {
    var found: seq<string> := [];
    var i := 0;
    while i < |KeywordPatterns|
      invariant 0 <= i <= |KeywordPatterns|
      invariant found == Matching(KeywordPatterns[..i], content)
    {
      var keyword := KeywordPatterns[i];
      if Contains(content, keyword) {
        found := found + [keyword];
      }
      assert KeywordPatterns[..i + 1][..i] == KeywordPatterns[..i];
      i := i + 1;
    }
    assert KeywordPatterns[..i] == KeywordPatterns;
    keywords := FirstKeywords(found);
    forall k | k in keywords
      ensures k in KeywordPatterns && Contains(content, k)
    {
      MatchingMembers(KeywordPatterns, content, k);
    }
    KeywordPatternsDistinct();
    MatchingDistinct(KeywordPatterns, content);
  }

  /** Content in which no pattern occurs yields no keywords. */
  lemma NoMatchNoKeywords(content: string)
    requires forall k :: k in KeywordPatterns ==> !Contains(content, k)
    ensures FirstKeywords(Matching(KeywordPatterns, content)) == []
  {
    if Matching(KeywordPatterns, content) != [] {
      MatchingMembers(KeywordPatterns, content, Matching(KeywordPatterns, content)[0]);
    }
  }
}
