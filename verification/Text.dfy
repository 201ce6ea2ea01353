/** Substring search and trimming, as Go's `strings` package defines them, on
    sequences of characters.  */
module Text {

  const TRAILING_WS := " \t\n\r"

  /** Unicode White_Space, the set that strings.TrimSpace cuts. */
  predicate IsSpace(c: char) {
    || c == ' ' || c == '\t' || c == '\n' || c == '\r' || c == '\U{0b}' || c == '\U{0c}' || c == '\U{85}' || c == '\U{a0}'
    || c == '\U{1680}' || '\U{2000}' <= c <= '\U{200a}' || c == '\U{2028}' || c == '\U{2029}'
    || c == '\U{202f}' || c == '\U{205f}' || c == '\U{3000}'
  }

  /** The code points of White_Space, and those that TRAILING_WS cuts. */
  lemma {:induction false} SpacePoints(c: char)
    ensures var n := c as int;
      && (IsSpace(c) <==> n in {0x9, 0xa, 0xb, 0xc, 0xd, 0x20, 0x85, 0xa0, 0x1680, 0x2028, 0x2029, 0x202f, 0x205f, 0x3000}
                          || 0x2000 <= n <= 0x200a)
      && (c in TRAILING_WS <==> n in {0x9, 0xa, 0xd, 0x20})
  {
  }

  ghost predicate OccursAt(s: string, p: string, i: int) {
    0 <= i <= |s| - |p| && s[i..i + |p|] == p
  }

  /** strings.HasPrefix */
  predicate HasPrefix(s: string, p: string) {
    p <= s
  }

  /** The first occurrence of p at or after position `from`, or -1. */
  function IndexFrom(s: string, p: string, from: nat): (r: int)
    requires from <= |s|
    ensures r == -1 || from <= r
    ensures r == -1 <==> forall i :: from <= i ==> !OccursAt(s, p, i)
    ensures r != -1 ==> OccursAt(s, p, r) && forall i :: from <= i < r ==> !OccursAt(s, p, i)
    decreases |s| - from
  {
    if from + |p| > |s| then -1
    else if s[from..from + |p|] == p then assert OccursAt(s, p, from); from
    else if from == |s| then -1
    else IndexFrom(s, p, from + 1)
  }

  /** strings.Index */
  function Index(s: string, p: string): (r: int)
    ensures r == -1 <==> forall i :: !OccursAt(s, p, i)
    ensures r != -1 ==> OccursAt(s, p, r) && forall i :: i < r ==> !OccursAt(s, p, i)
  {
    IndexFrom(s, p, 0)
  }

  /** strings.Contains */
  predicate Contains(s: string, p: string) {
    Index(s, p) >= 0
  }

  /** strings.TrimRight with cutset TRAILING_WS */
  function TrimRight(s: string): (r: string)
    ensures r <= s
    ensures r == "" || r[|r| - 1] !in TRAILING_WS
    ensures forall i :: |r| <= i < |s| ==> s[i] in TRAILING_WS
  {
    if s == "" then "" else if s[|s| - 1] in TRAILING_WS then TrimRight(s[..|s| - 1]) else s
  }

  function TrimRightSpace(s: string): (r: string)
    ensures r <= s
    ensures r == "" || !IsSpace(r[|r| - 1])
    ensures forall i :: |r| <= i < |s| ==> IsSpace(s[i])
  {
    if s == "" then "" else if IsSpace(s[|s| - 1]) then TrimRightSpace(s[..|s| - 1]) else s
  }

  function TrimLeftSpace(s: string): (r: string)
    ensures |r| <= |s| && r == s[|s| - |r|..]
    ensures r == "" || !IsSpace(r[0])
    ensures forall i :: 0 <= i < |s| - |r| ==> IsSpace(s[i])
  {
    if s == "" then "" else if IsSpace(s[0]) then TrimLeftSpace(s[1..]) else s
  }

  /** strings.TrimSpace */
  function TrimSpace(s: string): (r: string)
    ensures r == "" || (!IsSpace(r[0]) && !IsSpace(r[|r| - 1]))
    ensures |r| <= |s|
  {
    var l := TrimLeftSpace(s);
    var r := TrimRightSpace(l);
    assert r != "" ==> r[0] == l[0];
    r
  }

  /** The trimmed text is the one split of s into blanks, a core that is empty or
      begins and ends with a visible character, and blanks. */
  lemma {:induction false} TrimRightIs(s: string, core: string)
    requires core <= s
    requires core == "" || core[|core| - 1] !in TRAILING_WS
    requires forall i :: |core| <= i < |s| ==> s[i] in TRAILING_WS
    ensures TrimRight(s) == core
  {
    assert core != "" ==> s[|core| - 1] == core[|core| - 1];
    assert TrimRight(s) != "" ==> s[|TrimRight(s)| - 1] == TrimRight(s)[|TrimRight(s)| - 1];
  }

  lemma {:induction false} TrimRightSpaceIs(s: string, core: string)
    requires core <= s
    requires core == "" || !IsSpace(core[|core| - 1])
    requires forall i :: |core| <= i < |s| ==> IsSpace(s[i])
    ensures TrimRightSpace(s) == core
  {
    assert core != "" ==> s[|core| - 1] == core[|core| - 1];
    assert TrimRightSpace(s) != "" ==> s[|TrimRightSpace(s)| - 1] == TrimRightSpace(s)[|TrimRightSpace(s)| - 1];
  }

  lemma TrimLeftId(s: string)
    requires s != "" && !IsSpace(s[0])
    ensures TrimLeftSpace(s) == s
  {
  }

  lemma Assoc(a: string, b: string, c: string)
    ensures a + b + c == a + (b + c)
  {
  }

  lemma TrimSpaceId(s: string)
    requires s == "" || (!IsSpace(s[0]) && !IsSpace(s[|s| - 1]))
    ensures TrimSpace(s) == s
  {
  }

  lemma TrimTwice(s: string)
    ensures TrimSpace(TrimSpace(s)) == TrimSpace(s)
  {
    TrimSpaceId(TrimSpace(s));
  }

  lemma BlankTrim()
    ensures TrimSpace("") == ""
  {
  }

  /** Trimming is a cut: what is left lies somewhere inside the text. */
  lemma TrimIsCut(s: string) returns (k: nat)
    ensures k + |TrimSpace(s)| <= |s| && TrimSpace(s) == s[k..k + |TrimSpace(s)|]
  {
    k := |s| - |TrimLeftSpace(s)|;
  }

  lemma ContainsAt(s: string, p: string, i: int)
    requires OccursAt(s, p, i)
    ensures Contains(s, p) && Index(s, p) <= i
  {
  }

  lemma CharOf(s: string, p: string, i: int, k: nat)
    requires OccursAt(s, p, i) && k < |p|
    ensures s[i + k] == p[k]
  {
    assert s[i..i + |p|][k] == s[i + k];
  }

  /** Text whose last character is not a line break cannot share an occurrence of a
      pattern (two line breaks, then a line) with a suffix opened by two line breaks. */
  lemma NoStraddle(a: string, b: string, line: string, i: int)
    requires '\n' !in line
    requires a == "" || a[|a| - 1] != '\n'
    requires OccursAt(a + "\n\n" + b, "\n\n" + line, i)
    ensures OccursAt(a, "\n\n" + line, i) || i >= |a|
  {
    var p := "\n\n" + line;
    var s := a + "\n\n" + b;
    if i < |a| && |a| < i + |p| {
      CharOf(s, p, i, 0);
      CharOf(s, p, i, |a| - i);
    } else if i + |p| <= |a| {
      assert s[i..i + |p|] == a[i..i + |p|];
    }
  }

  /** The same for a pattern that holds no line break at all. */
  lemma NoStraddleLine(a: string, b: string, line: string, i: int)
    requires '\n' !in line && line != ""
    requires OccursAt(a + "\n\n" + b, line, i)
    ensures OccursAt(a, line, i) || (i >= |a| + 2 && OccursAt(b, line, i - |a| - 2))
  {
    var s := a + "\n\n" + b;
    if i + |line| <= |a| {
      assert s[i..i + |line|] == a[i..i + |line|];
    } else if i <= |a| + 1 {
      CharOf(s, line, i, if i <= |a| then |a| - i else |a| + 1 - i);
    } else {
      assert s[i..i + |line|] == b[i - |a| - 2..i - |a| - 2 + |line|];
    }
  }

  /** Occurrences inside a prefix stay where they are. */
  lemma OccursInPrefix(a: string, s: string, p: string, i: int)
    requires a <= s && OccursAt(a, p, i)
    ensures OccursAt(s, p, i)
  {
    assert s[i..i + |p|] == a[i..i + |p|];
  }

  lemma OccursInTrimmed(s: string, p: string, i: int)
    requires p != "" && p[|p| - 1] !in TRAILING_WS
    requires OccursAt(s, p, i)
    ensures OccursAt(TrimRight(s), p, i)
  {
    var r := TrimRight(s);
    assert s[i..i + |p|][|p| - 1] == s[i + |p| - 1];
    assert i + |p| <= |r|;
    assert r[i..i + |p|] == s[i..i + |p|];
  }

  /** Occurrences in a suffix are occurrences in the whole, shifted. */
  lemma OccursShifted(a: string, u: string, v: string, m: string, i: int)
    requires v == a + u && i >= |a|
    ensures OccursAt(v, m, i) <==> OccursAt(u, m, i - |a|)
  {
    if 0 <= i <= |v| - |m| {
      assert v[i..i + |m|] == u[i - |a|..i - |a| + |m|];
    }
  }

  lemma PrefixChar(s: string, p: string, k: nat)
    ensures HasPrefix(s, p) && k < |p| ==> k < |s| && s[k] == p[k]
  {
  }
}
