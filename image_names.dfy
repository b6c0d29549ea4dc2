/** The naming loop of `generate_story_evidence_images`: up to five images
    per call, named after the story's hash and their 1-based position. The
    hash (the first eight hex digits of an MD5 digest) is a parameter; the
    drawing of each image is not part of this model. */
module EvidenceImages {

  const MaxImages: nat := 5

  function DigitChar(d: nat): char
    requires d < 10
  {
    "0123456789"[d]
  }

  /** The decimal numeral of `n`, as Python's `str` writes it. */
  function Decimal(n: nat): (s: string)
    ensures |s| >= 1
    ensures n >= 10 ==> |s| >= 2
    decreases n
  {
    if n < 10 then [DigitChar(n)] else Decimal(n / 10) + [DigitChar(n % 10)]
  }

  /** Different numbers have different numerals. */
  lemma {:induction false} DecimalInjective(n: nat, m: nat)
    requires Decimal(n) == Decimal(m)
    ensures n == m
    decreases n
  {
    var s := Decimal(n);
    if n >= 10 && m >= 10 {
      assert Decimal(n / 10) == s[..|s| - 1] == Decimal(m / 10);
      DecimalInjective(n / 10, m / 10);
      assert DigitChar(n % 10) == s[|s| - 1] == DigitChar(m % 10);
    } else if n < 10 && m < 10 {
      assert DigitChar(n) == DigitChar(m);
    }
  }

  /** The file name of the `index`-th image of a story. */
  function EvidenceFileName(storyHash: string, index: nat): string {
    "evidence_" + storyHash + "_" + Decimal(index) + ".jpg"
  }

  /** Two images of the same story never share a file name. */
  lemma FileNamesDiffer(storyHash: string, i: nat, j: nat)
    requires i != j
    ensures EvidenceFileName(storyHash, i) != EvidenceFileName(storyHash, j)
  {
    if EvidenceFileName(storyHash, i) == EvidenceFileName(storyHash, j) {
      var pre := "evidence_" + storyHash + "_";
      var a, b := EvidenceFileName(storyHash, i), EvidenceFileName(storyHash, j);
      assert |Decimal(i)| == |a| - |pre| - 4 == |Decimal(j)|;
      assert Decimal(i) == a[|pre|..|pre| + |Decimal(i)|] == b[|pre|..|pre| + |Decimal(j)|] == Decimal(j);
      DecimalInjective(i, j);
    }
  }

  /** The number of images a call makes: `min(num_images, 5)`, and none for
      a count below one (Python's `range` of a negative is empty). */
  function ImageCount(numImages: int): (c: nat)
    ensures c <= MaxImages
    ensures numImages >= 0 ==> c == if numImages < MaxImages then numImages else MaxImages
    ensures numImages <= 0 ==> c == 0
  {
    if numImages <= 0 then 0 else if numImages < MaxImages then numImages else MaxImages
  }

  /** The naming loop: one file name per image, numbered from 1 in order,
      all of them different. */
  method StoryEvidenceImageNames(storyHash: string, numImages: int) returns (files: seq<string>)
    ensures |files| == ImageCount(numImages)
    ensures forall i :: 0 <= i < |files| ==> files[i] == EvidenceFileName(storyHash, i + 1)
    ensures forall i, j :: 0 <= i < j < |files| ==> files[i] != files[j]
  {
    files := [];
    var i := 0;
    var n := ImageCount(numImages);
    while i < n
      invariant 0 <= i <= n
      invariant |files| == i
      invariant forall k :: 0 <= k < i ==> files[k] == EvidenceFileName(storyHash, k + 1)
    {
      files := files + [EvidenceFileName(storyHash, i + 1)];
      i := i + 1;
    }
    forall a, b | 0 <= a < b < |files|
      ensures files[a] != files[b]
    {
      FileNamesDiffer(storyHash, a + 1, b + 1);
    }
  }
}
