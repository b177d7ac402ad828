/** The little string handling the source relies on, for ASCII text. */
module Text {

  predicate IsSpace(c: char) {
    c == ' ' || 9 <= c as int <= 13 || 28 <= c as int <= 31
  }

  function LowerChar(c: char): char {
    if 'A' <= c <= 'Z' then (c as int + 32) as char else c
  }

  function Lower(s: string): string {
    if s == "" then "" else [LowerChar(s[0])] + Lower(s[1..])
  }

  function UpperChar(c: char): char {
    if 'a' <= c <= 'z' then (c as int - 32) as char else c
  }

  function Upper(s: string): string {
    if s == "" then "" else [UpperChar(s[0])] + Upper(s[1..])
  }

  function StripLeft(s: string): string {
    if s != "" && IsSpace(s[0]) then StripLeft(s[1..]) else s
  }

  function StripRight(s: string): string {
    if s != "" && IsSpace(s[|s| - 1]) then StripRight(s[..|s| - 1]) else s
  }

  function Strip(s: string): string {
    StripRight(StripLeft(s))
  }

  /** `text or fallback`: only a non-empty text counts. */
  predicate Truthy(s: string) {
    s != ""
  }

  // ---------------------------------------------------------------- facts about stripping

  lemma {:induction false} StripLeftFacts(s: string)
    ensures |StripLeft(s)| <= |s|
    ensures StripLeft(s) != "" ==> !IsSpace(StripLeft(s)[0])
    ensures s != "" && !IsSpace(s[0]) ==> StripLeft(s) == s
  {
    if s != "" && IsSpace(s[0]) {
      StripLeftFacts(s[1..]);
    }
  }

  lemma {:induction false} StripRightFacts(s: string)
    ensures StripRight(s) <= s
    ensures StripRight(s) != "" ==> !IsSpace(StripRight(s)[|StripRight(s)| - 1])
    ensures s != "" && !IsSpace(s[0]) ==> StripRight(s) != ""
    ensures s != "" && !IsSpace(s[|s| - 1]) ==> StripRight(s) == s
  {
    if s != "" && IsSpace(s[|s| - 1]) {
      StripRightFacts(s[..|s| - 1]);
    }
  }

  /** Stripping never lengthens, is idempotent, and keeps a text that starts with a non-space. */
  lemma StripFacts(s: string)
    ensures |Strip(s)| <= |s|
    ensures Strip(Strip(s)) == Strip(s)
    ensures s != "" && !IsSpace(s[0]) ==> Strip(s) != ""
  {
    var left := StripLeft(s);
    StripLeftFacts(s);
    StripRightFacts(left);
    var t := StripRight(left);
    StripLeftFacts(t);
    StripRightFacts(t);
    StripRightFacts(s);
  }

  predicate IsLowerWord(s: string) {
    forall i :: 0 <= i < |s| ==> 'a' <= s[i] <= 'z'
  }

  lemma {:induction false} LowerOfWord(s: string)
    requires IsLowerWord(s)
    ensures Lower(s) == s
  {
    if s != "" {
      LowerOfWord(s[1..]);
    }
  }

  /** A plain lower-case word is its own normal form. */
  lemma NormalWord(s: string)
    requires IsLowerWord(s)
    ensures Lower(Strip(s)) == s
  {
    LowerOfWord(s);
    if s != "" {
      StripLeftFacts(s);
      StripRightFacts(s);
    }
  }

  // ---------------------------------------------------------------- what each transformation does

  /** Nothing but spaces. */
  ghost predicate Blank(s: string) {
    forall i :: 0 <= i < |s| ==> IsSpace(s[i])
  }

  lemma {:induction false} StripLeftSplits(s: string)
    ensures exists n: nat :: n <= |s| && Blank(s[..n]) && StripLeft(s) == s[n..]
  {
    if s != "" && IsSpace(s[0]) {
      StripLeftSplits(s[1..]);
      var n: nat :| n <= |s[1..]| && Blank(s[1..][..n]) && StripLeft(s[1..]) == s[1..][n..];
      assert s[..n + 1] == [s[0]] + s[1..][..n] && s[n + 1..] == s[1..][n..];
    } else {
      assert Blank(s[..0]) && s[0..] == s;
    }
  }

  lemma {:induction false} StripRightSplits(s: string)
    ensures StripRight(s) <= s && Blank(s[|StripRight(s)|..])
  {
    if s != "" && IsSpace(s[|s| - 1]) {
      StripRightSplits(s[..|s| - 1]);
      var n := |StripRight(s)|;
      assert s[n..] == s[..|s| - 1][n..] + [s[|s| - 1]];
    }
  }

  /** `t` is what `s` holds from index `a`, and all around it are spaces. */
  ghost predicate Cut(s: string, a: nat, t: string) {
    a + |t| <= |s| && Blank(s[..a]) && Blank(s[a + |t|..]) && t == s[a..a + |t|]
  }

  lemma CutTwice(s: string, a: nat, left: string, t: string)
    requires a <= |s| && Blank(s[..a]) && left == s[a..] && t <= left && Blank(left[|t|..])
    ensures Cut(s, a, t)
  {
    hide Blank;
    assert left[|t|..] == s[a + |t|..] && t == s[a..a + |t|];
  }

  lemma StripLeftCut(s: string, t: string)
    requires t <= StripLeft(s) && Blank(StripLeft(s)[|t|..])
    ensures exists a: nat :: Cut(s, a, t)
  {
    StripLeftSplits(s);
    var a: nat :| a <= |s| && Blank(s[..a]) && StripLeft(s) == s[a..];
    hide *;
    CutTwice(s, a, StripLeft(s), t);
  }

  /** Stripping takes the spaces off both ends, and only them. */
  lemma StripExactly(s: string)
    ensures exists a: nat :: Cut(s, a, Strip(s))
    ensures Strip(s) != "" ==> !IsSpace(Strip(s)[0]) && !IsSpace(Strip(s)[|Strip(s)| - 1])
  {
    hide StripLeft, StripRight, Blank, Cut, IsSpace;
    StripRightSplits(StripLeft(s));
    StripLeftCut(s, Strip(s));
    StripLeftFacts(s);
    StripRightFacts(StripLeft(s));
  }

  /** Lower case leaves every character but the capital letters, which move to the small ones. */
  lemma {:induction false} LowerExactly(s: string)
    ensures |Lower(s)| == |s|
    ensures forall i :: 0 <= i < |s| ==>
              if 'A' <= s[i] <= 'Z' then Lower(s)[i] as int == s[i] as int + ('a' as int - 'A' as int)
              else Lower(s)[i] == s[i]
  {
    if s != "" {
      LowerExactly(s[1..]);
    }
  }

  lemma {:induction false} UpperExactly(s: string)
    ensures |Upper(s)| == |s|
    ensures forall i :: 0 <= i < |s| ==>
              if 'a' <= s[i] <= 'z' then Upper(s)[i] as int == s[i] as int - ('a' as int - 'A' as int)
              else Upper(s)[i] == s[i]
  {
    if s != "" {
      UpperExactly(s[1..]);
    }
  }
}
