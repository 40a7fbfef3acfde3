/** The segmenter of chat_cli.py: `split_thinking_and_answer` and the substring
    searches it rests on (`str.rfind` and the `in` test on strings). */
module Segmenter {

  /** The boundary marker that closes the reasoning phase. */
  const EndTag: string := "</think>"

  /** `pat` occurs in `text` starting at index `i`. */
  predicate OccursAt(text: string, pat: string, i: int)
  {
    0 <= i && i + |pat| <= |text| && text[i..i + |pat|] == pat
  }

  /** Python's `pat in text`: the empty pattern is in every text, and a
      pattern occurs only where it fits. */
  predicate Contains(text: string, pat: string)
    ensures pat == [] ==> Contains(text, pat)
    ensures Contains(text, pat) ==> |pat| <= |text|
  {
    assert pat == [] ==> OccursAt(text, pat, 0);
    exists i :: 0 <= i <= |text| - |pat| && OccursAt(text, pat, i)
  }

  predicate EndsWith(s: string, suffix: string)
  {
    |suffix| <= |s| && s[|s| - |suffix|..] == suffix
  }

  /** The search of `rfind` restricted to start positions `0..i`: the highest
      start position at most `i` where `pat` occurs, or -1. */
  function RFindUpTo(text: string, pat: string, i: int): (r: int)
    ensures r == -1 || (0 <= r <= i && OccursAt(text, pat, r))
    ensures forall j :: r < j <= i ==> !OccursAt(text, pat, j)
    decreases if i < 0 then 0 else i + 1
  {
    if i < 0 then -1
    else if OccursAt(text, pat, i) then i
    else RFindUpTo(text, pat, i - 1)
  }

  /** Python's `text.rfind(pat)`: the start of the last occurrence, or -1. */
  function RFind(text: string, pat: string): (r: int)
    ensures r == -1 <==> !Contains(text, pat)
    ensures r != -1 ==> OccursAt(text, pat, r) && forall j :: r < j ==> !OccursAt(text, pat, j)
  {
    RFindUpTo(text, pat, |text| - |pat|)
  }

  /** `split_thinking_and_answer`: cut just after the last `</think>`; without
      one, everything is thinking and the answer is empty. */
  function Split(text: string): (parts: (string, string))
    ensures parts.0 + parts.1 == text
  {
    var idx := RFind(text, EndTag);
    if idx == -1 then (text, "")
    else
      var cut := idx + |EndTag|;
      (text[..cut], text[cut..])
  }

  /** Without a marker the whole text is thinking; with one, the thinking part
      ends with the marker and the answer part holds none. */
  lemma SplitAtMarker(text: string)
    ensures !Contains(text, EndTag) ==> Split(text) == (text, "")
    ensures Contains(text, EndTag) ==> EndsWith(Split(text).0, EndTag) && !Contains(Split(text).1, EndTag)
  {
    var idx := RFind(text, EndTag);
    if idx != -1 {
      NoMarkerAfterCut(text, idx);
    }
  }

  /** An occurrence in a suffix is an occurrence in the whole text, shifted. */
  lemma OccursInSuffix(text: string, pat: string, k: nat, j: int)
    requires k <= |text|
    requires OccursAt(text[k..], pat, j)
    ensures OccursAt(text, pat, k + j)
  {
    assert text[k + j..k + j + |pat|] == text[k..][j..j + |pat|];
  }

  /** Once `idx` is the last occurrence of the marker, nothing after the cut holds one. */
  lemma NoMarkerAfterCut(text: string, idx: int)
    requires OccursAt(text, EndTag, idx)
    requires forall j :: idx < j ==> !OccursAt(text, EndTag, j)
    ensures !Contains(text[idx + |EndTag|..], EndTag)
  {
    var cut := idx + |EndTag|;
    if j :| OccursAt(text[cut..], EndTag, j) {
      OccursInSuffix(text, EndTag, cut, j);
      assert false;
    }
  }

  /** Last-marker authority: when the last marker starts at `p`, the thinking
      part ends exactly at `p + |EndTag|`, whatever markers come earlier. */
  lemma LastMarkerAuthority(text: string, p: int)
    requires OccursAt(text, EndTag, p)
    requires forall q :: p < q ==> !OccursAt(text, EndTag, q)
    ensures Split(text) == (text[..p + |EndTag|], text[p + |EndTag|..])
  {
    var r := RFind(text, EndTag);
    assert r != -1;
    if r < p {
      assert false;
    } else if p < r {
      assert false;
    }
  }

  /** Every marker in the text, not only the last, lies inside the thinking part. */
  lemma EveryMarkerInThinking(text: string, p: int)
    requires OccursAt(text, EndTag, p)
    ensures p + |EndTag| <= |Split(text).0|
  {
    var r := RFind(text, EndTag);
    assert r != -1;
  }

  /** Idempotence: the thinking part splits into itself and an empty answer. */
  lemma SplitIdempotent(text: string)
    ensures Split(Split(text).0) == (Split(text).0, "")
  {
    var idx := RFind(text, EndTag);
    if idx != -1 {
      var t := Split(text).0;
      assert t == text[..idx + |EndTag|];
      assert t[idx..idx + |EndTag|] == text[idx..idx + |EndTag|];
      assert OccursAt(t, EndTag, idx);
      LastMarkerAuthority(t, idx);
      assert t[..idx + |EndTag|] == t;
    }
  }

  /** A text ending with the marker has an empty answer part. */
  lemma SplitEndingWithMarker(text: string)
    requires EndsWith(text, EndTag)
    ensures Split(text) == (text, "")
  {
    var p := |text| - |EndTag|;
    assert OccursAt(text, EndTag, p);
    LastMarkerAuthority(text, p);
    assert text[..p + |EndTag|] == text;
  }
}
