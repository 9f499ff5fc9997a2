/**
 * The evaluator keypoints shown as removable tags: an ordered list of
 * topics without duplicates, edited by the "add" button and by the
 * delete mark on each tag.
 */
module Keypoints {

  /** The list the page starts with. */
  function Initial(): seq<string> {
    ["협업 능력", "문제 해결 능력"]
  }

  /** No topic occurs twice. */
  predicate Distinct(kps: seq<string>) {
    forall i, j :: 0 <= i < j < |kps| ==> kps[i] != kps[j]
  }

  /**
   * The characters JavaScript's `String.prototype.trim` removes: the
   * WhiteSpace and LineTerminator code points of ECMA-262.
   */
  predicate IsJsSpace(c: char) {
    || c == '\U{9}' || c == '\U{A}' || c == '\U{B}' || c == '\U{C}' || c == '\U{D}'
    || c == ' ' || c == '\U{A0}' || c == '\U{1680}'
    || ('\U{2000}' <= c <= '\U{200A}')
    || c == '\U{2028}' || c == '\U{2029}' || c == '\U{202F}' || c == '\U{205F}'
    || c == '\U{3000}' || c == '\U{FEFF}'
  }

  /** Every character is one `trim` removes (this includes the empty string). */
  predicate Blank(s: string) {
    forall i :: 0 <= i < |s| ==> IsJsSpace(s[i])
  }

  /** How many white-space characters `s` starts with. */
  function LeadingSpaces(s: string): (n: nat)
    ensures n <= |s| && Blank(s[..n])
    ensures n < |s| ==> !IsJsSpace(s[n])
    decreases |s|
  {
    if s != [] && IsJsSpace(s[0]) then
      var m := LeadingSpaces(s[1..]);
      LeadingGrow(s, m);
      m + 1
    else 0
  }

  /** How many white-space characters `s` ends with. */
  function TrailingSpaces(s: string): (n: nat)
    ensures n <= |s| && Blank(s[|s| - n..])
    ensures n < |s| ==> !IsJsSpace(s[|s| - n - 1])
    decreases |s|
  {
    if s != [] && IsJsSpace(s[|s| - 1]) then
      var m := TrailingSpaces(s[..|s| - 1]);
      TrailingGrow(s, m);
      m + 1
    else 0
  }

  lemma LeadingGrow(s: string, m: nat)
    requires s != [] && IsJsSpace(s[0]) && m <= |s| - 1
    requires Blank(s[1..][..m]) && (m < |s| - 1 ==> !IsJsSpace(s[1..][m]))
    ensures Blank(s[..m + 1]) && (m + 1 < |s| ==> !IsJsSpace(s[m + 1]))
  {
    forall k | 0 <= k < m + 1
      ensures IsJsSpace(s[k])
    {
      if k > 0 {
        assert s[k] == s[1..][..m][k - 1];
      }
    }
  }

  lemma TrailingGrow(s: string, m: nat)
    requires s != [] && IsJsSpace(s[|s| - 1]) && m <= |s| - 1
    requires Blank(s[..|s| - 1][|s| - 1 - m..]) && (m < |s| - 1 ==> !IsJsSpace(s[..|s| - 1][|s| - 1 - m - 1]))
    ensures Blank(s[|s| - (m + 1)..]) && (m + 1 < |s| ==> !IsJsSpace(s[|s| - (m + 1) - 1]))
  {
    var tail := s[|s| - (m + 1)..];
    var u := s[..|s| - 1][|s| - 1 - m..];
    assert tail == u + [s[|s| - 1]];
    BlankAppend(u, s[|s| - 1]);
    if m + 1 < |s| {
      assert s[|s| - (m + 1) - 1] == s[..|s| - 1][|s| - 1 - m - 1];
    }
  }

  /**
   * JavaScript's `trim`: the part of `s` that follows its leading white
   * space, up to where only white space remains. It neither starts nor ends
   * with white space, and it is empty exactly when `s` is blank.
   */
  function Trim(s: string): (r: string)
    ensures r == [] <==> Blank(s)
    ensures r != [] ==> !IsJsSpace(r[0]) && !IsJsSpace(r[|r| - 1])
    ensures var i := LeadingSpaces(s);
      i + |r| <= |s| && r == s[i..i + |r|] && Blank(s[i + |r|..])
  {
    var i := LeadingSpaces(s);
    var n := TrailingSpaces(s[i..]);
    SuffixTrailing(s, i, n);
    TrimCuts(s, i, n);
    s[i..|s| - n]
  }

  /** The trailing white space of a suffix, stated on the whole text. */
  lemma SuffixTrailing(s: string, i: nat, n: nat)
    requires i <= |s|
    requires var t := s[i..]; n <= |t| && Blank(t[|t| - n..]) && (n < |t| ==> !IsJsSpace(t[|t| - n - 1]))
    ensures n <= |s| - i && Blank(s[|s| - n..])
    ensures n < |s| - i ==> !IsJsSpace(s[|s| - n - 1])
  {
    var t := s[i..];
    SliceTail(s, i, n);
    if n < |t| {
      assert t[|t| - n - 1] == s[|s| - n - 1];
    }
  }

  /**
   * Cutting `i` characters of leading and `n` of trailing white space, each
   * as long as possible, leaves a slice with the properties above.
   */
  lemma TrimCuts(s: string, i: nat, n: nat)
    requires i <= |s| && Blank(s[..i]) && (i < |s| ==> !IsJsSpace(s[i]))
    requires n <= |s| - i && Blank(s[|s| - n..]) && (n < |s| - i ==> !IsJsSpace(s[|s| - n - 1]))
    ensures var r := s[i..|s| - n];
      && (r == [] <==> Blank(s))
      && (r != [] ==> !IsJsSpace(r[0]) && !IsJsSpace(r[|r| - 1]))
      && i + |r| <= |s| && r == s[i..i + |r|] && Blank(s[i + |r|..])
  {
    var r := s[i..|s| - n];
    assert i + |r| == |s| - n;
    TrimEnds(s, i, n);
    BlankSplit(s, i, r);
  }

  /** The cut slice starts and ends where the white space stops. */
  lemma TrimEnds(s: string, i: nat, n: nat)
    requires i <= |s| && (i < |s| ==> !IsJsSpace(s[i]))
    requires n <= |s| - i && (n < |s| - i ==> !IsJsSpace(s[|s| - n - 1]))
    ensures var r := s[i..|s| - n]; r != [] ==> !IsJsSpace(r[0]) && !IsJsSpace(r[|r| - 1])
  {
    var r := s[i..|s| - n];
    if r != [] {
      assert r[0] == s[i];
      assert r[|r| - 1] == s[|s| - n - 1];
    }
  }

  /** The last `n` characters of a suffix are the last `n` characters of the whole. */
  lemma SliceTail(s: string, i: nat, n: nat)
    requires i <= |s| && n <= |s| - i
    ensures s[i..][|s| - i - n..] == s[|s| - n..]
  {
  }

  /** A blank string followed by one more space is blank. */
  lemma BlankAppend(u: string, c: char)
    requires Blank(u) && IsJsSpace(c)
    ensures Blank(u + [c])
  {
    forall k | 0 <= k < |u| + 1
      ensures IsJsSpace((u + [c])[k])
    {
      if k < |u| {
        assert (u + [c])[k] == u[k];
      }
    }
  }

  /**
   * A text cut into white space, a middle part that does not start with
   * white space, and white space, is blank exactly when the middle is empty.
   */
  lemma BlankSplit(s: string, i: nat, r: string)
    requires i <= |s| - |r| && r == s[i..i + |r|]
    requires Blank(s[..i]) && Blank(s[i + |r|..])
    requires r != [] ==> !IsJsSpace(r[0])
    ensures r == [] <==> Blank(s)
  {
    if r == [] {
      forall k | 0 <= k < |s|
        ensures IsJsSpace(s[k])
      {
        if k < i {
          assert s[k] == s[..i][k];
        } else {
          assert s[k] == s[i..][k - i];
        }
      }
    }
  }

  /**
   * The add button: the trimmed input is appended when it is not blank
   * and not already a keypoint; otherwise the list is left as it is.
   */
  function Add(kps: seq<string>, input: string): (r: seq<string>)
    ensures |kps| <= |r| <= |kps| + 1 && r[..|kps|] == kps
    ensures |r| == |kps| + 1 <==> !Blank(input) && Trim(input) !in kps
    ensures |r| == |kps| + 1 ==> r[|kps|] == Trim(input)
    ensures Distinct(kps) ==> Distinct(r)
  {
    var value := Trim(input);
    if value != "" && value !in kps then kps + [value] else kps
  }

  /**
   * The delete mark on tag `index`: `splice(index, 1)`, which removes that
   * one element and leaves the list alone when the index is past the end.
   */
  function Remove(kps: seq<string>, index: nat): (r: seq<string>)
    ensures index >= |kps| ==> r == kps
    ensures index < |kps| ==> |r| == |kps| - 1
    ensures index < |kps| ==> forall j :: 0 <= j < index ==> r[j] == kps[j]
    ensures index < |kps| ==> forall j :: index <= j < |r| ==> r[j] == kps[j + 1]
    ensures index < |kps| ==> multiset(r) + multiset{kps[index]} == multiset(kps)
    ensures Distinct(kps) ==> Distinct(r)
    ensures Distinct(kps) && index < |kps| ==> kps[index] !in r
  {
    if index < |kps| then
      assert kps == kps[..index] + [kps[index]] + kps[index + 1..];
      kps[..index] + kps[index + 1..]
    else
      kps
  }

  /** Pressing add twice with the same text has the effect of pressing it once. */
  lemma AddTwiceIsAddOnce(kps: seq<string>, input: string)
    ensures Add(Add(kps, input), input) == Add(kps, input)
  {
  }

  /** The trimmed value of a text that has already been trimmed is the text itself. */
  lemma TrimIdempotent(s: string)
    ensures Trim(Trim(s)) == Trim(s)
  {
    var t := Trim(s);
    if t != [] {
      assert LeadingSpaces(t) == 0;
      assert TrailingSpaces(t) == 0;
      assert t[0..][..|t|] == t;
    }
  }
}
