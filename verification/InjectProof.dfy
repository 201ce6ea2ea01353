/** The inject proof: the SCOPE BRIEF and MINI-SCHEMA slices of the prompt that was sent
    (domain/inject.go) are the ones the splice received. */
module InjectProof {
  import opened Text
  import opened Contract
  import opened ControlPlane
  import opened DigestView
  import opened BagB

  /** strings.Split(s, "\n") */
  function SplitLines(s: string): (r: seq<string>)
    ensures r != []
    decreases |s|
  {
    var i := Index(s, "\n");
    if i < 0 then [s] else [s[..i]] + SplitLines(s[i + 1..])
  }

  /** strings.TrimRight(s, "\n") */
  function TrimBreaks(s: string): (r: string)
    ensures r <= s
    ensures r == "" || r[|r| - 1] != '\n'
    ensures forall i :: |r| <= i < |s| ==> s[i] == '\n'
  {
    if s == "" then "" else if s[|s| - 1] == '\n' then TrimBreaks(s[..|s| - 1]) else s
  }

  predicate ClosesSection(line: string, heading: string) {
    HasPrefix(line, "## ") && !HasPrefix(line, heading)
  }

  /** A line that closes the section begins behind position e. */
  predicate ClosesAt(t: string, heading: string, e: int) {
    0 <= e < |t| && t[e] == '\n' && ClosesSection(t[e + 1..], heading)
  }

  /** Where the section that t opens with ends. */
  function SectionEnd(t: string, heading: string, from: nat): (e: nat)
    requires from <= |t|
    ensures from <= e <= |t|
    ensures forall k :: from <= k < e ==> !ClosesAt(t, heading, k)
    ensures e < |t| ==> ClosesAt(t, heading, e)
    decreases |t| - from
  {
    if from == |t| || ClosesAt(t, heading, from) then from else SectionEnd(t, heading, from + 1)
  }

  /** The marked section of a text: from its heading to the first line that opens another
      level-two heading. */
  function Section(text: string, heading: string): string {
    var idx := Index(text, heading);
    if text == "" || heading == "" || idx < 0 then ""
    else TrimBreaks(text[idx..][..SectionEnd(text[idx..], heading, 0)])
  }

  lemma NoBreakBefore(s: string, k: nat)
    requires k < |s| && (Index(s, "\n") < 0 || k < Index(s, "\n"))
    ensures s[k] != '\n'
  {
    hide Index;
    assert s[k..k + 1] == [s[k]];
    assert OccursAt(s, "\n", k) <==> s[k] == '\n';
  }

  /** What the first line of a text is, and what follows it. */
  predicate SplitsAs(s: string, line: string, rest: seq<string>) {
    && '\n' !in line && SplitLines(s) == [line] + rest
    && (if rest == [] then s == line
        else |line| < |s| && line == s[..|line|] && s[|line|] == '\n' && rest == SplitLines(s[|line| + 1..]))
  }

  lemma FirstLineOf(s: string)
    ensures SplitsAs(s, SplitLines(s)[0], SplitLines(s)[1..])
  {
    hide Index;
    var i := Index(s, "\n");
    var line := if i < 0 then s else s[..i];
    forall k | 0 <= k < |line| ensures line[k] != '\n' {
      NoBreakBefore(s, k);
    }
    if i >= 0 {
      CharOf(s, "\n", i, 0);
      var rest := SplitLines(s[i + 1..]);
      assert SplitLines(s) == [line] + rest;
      assert SplitLines(s)[1..] == rest;
    }
  }

  /** Whether a line closes the section is seen on the rest of the text it begins. */
  lemma LineCloses(line: string, rest: string, heading: string)
    requires '\n' !in heading
    requires rest == line || (|rest| > |line| && line <= rest && rest[|line|] == '\n')
    ensures ClosesSection(line, heading) == ClosesSection(rest, heading)
  {
    LinePrefix(line, rest, "## ");
    LinePrefix(line, rest, heading);
  }

  lemma LinePrefix(line: string, rest: string, p: string)
    requires '\n' !in p
    requires rest == line || (|rest| > |line| && line <= rest && rest[|line|] == '\n')
    ensures HasPrefix(line, p) == HasPrefix(rest, p)
  {
    assert HasPrefix(rest, p) ==> forall k :: 0 <= k < |p| ==> rest[k] == p[k];
  }

  lemma JoinAppend(parts: seq<string>, x: string)
    requires parts != []
    ensures Join(parts + [x], "\n") == Join(parts, "\n") + "\n" + x
  {
    if |parts| == 1 {
      assert parts + [x] == [parts[0], x];
    } else {
      assert (parts + [x])[1..] == parts[1..] + [x];
      JoinAppend(parts[1..], x);
    }
  }

  /** extractMarkdownSection */
  method ExtractMarkdownSection(text: string, heading: string) returns (r: string)
    requires '\n' !in heading
    ensures r == Section(text, heading)
  {
    if text == "" || heading == "" { return ""; }
    var idx := Index(text, heading);
    if idx < 0 { return ""; }
    r := SectionOf(text[idx..], heading);
  }

  /** The loop over the lines of a text that opens with the heading. */
  method SectionOf(t: string, heading: string) returns (r: string)
    requires '\n' !in heading
    ensures r == TrimBreaks(t[..SectionEnd(t, heading, 0)])
  {
    hide Index, IndexFrom, HasPrefix, SplitLines;
    var lines := SplitLines(t);
    var kept := [lines[0]];
    ghost var at: nat := |lines[0]|;
    FirstLineOf(t);
    var n := 1;
    while n < |lines|
      invariant 1 <= n <= |lines| && kept != []
      invariant at <= |t|
      invariant Join(kept, "\n") == t[..at]
      invariant n == |lines| ==> at == |t|
      invariant n < |lines| ==> at < |t| && t[at] == '\n' && SplitLines(t[at + 1..]) == lines[n..]
      invariant forall e :: 0 <= e < at ==> !ClosesAt(t, heading, e)
    {
      var ln := lines[n];
      FirstLineOf(t[at + 1..]);
      NextLine(t, at, ln, lines[n..][1..], heading);
      assert lines[n..][1..] == lines[n + 1..];
      if ClosesSection(ln, heading) {
        break;
      }
      JoinAppend(kept, ln);
      kept := kept + [ln];
      at := at + 1 + |ln|;
      n := n + 1;
    }
    r := TrimBreaks(Join(kept, "\n"));
    EndIs(t, heading, at);
  }

  lemma NextLine(t: string, at: nat, ln: string, rest: seq<string>, heading: string)
    requires at < |t| && t[at] == '\n' && '\n' !in heading
    requires SplitsAs(t[at + 1..], ln, rest)
    ensures ClosesSection(ln, heading) == ClosesAt(t, heading, at)
    ensures at + 1 + |ln| <= |t| && t[..at] + "\n" + ln == t[..at + 1 + |ln|]
    ensures forall e :: at < e < at + 1 + |ln| ==> !ClosesAt(t, heading, e)
    ensures rest == [] ==> at + 1 + |ln| == |t|
    ensures rest != [] ==> at + 1 + |ln| < |t| && t[at + 1 + |ln|] == '\n' && SplitLines(t[at + 1 + |ln| + 1..]) == rest
  {
    hide Index, IndexFrom, SplitLines;
    var u := t[at + 1..];
    LineCloses(ln, u, heading);
    assert t[..at] + "\n" + ln == t[..at + 1 + |ln|];
    forall e | at < e < at + 1 + |ln| ensures !ClosesAt(t, heading, e) {
      assert t[e] == u[e - at - 1] == ln[e - at - 1];
    }
    if rest != [] {
      assert u[|ln| + 1..] == t[at + 1 + |ln| + 1..];
    }
  }

  lemma EndIs(t: string, heading: string, at: nat)
    requires at <= |t| && (at < |t| ==> ClosesAt(t, heading, at))
    requires forall e :: 0 <= e < at ==> !ClosesAt(t, heading, e)
    ensures SectionEnd(t, heading, 0) == at
  {
    hide ClosesAt;
  }

  /** SliceBlock(text, "mini") */
  function SliceMini(text: string): string {
    TrimSpace(Section(text, MINI_HEADING))
  }

  /** SliceBlock(text, "brief"): stops at the mini schema. */
  function SliceBrief(text: string): string {
    BriefPart(Section(text, BRIEF_HEADING))
  }

  function BriefPart(full: string): string {
    var i := Index(full, MINI_HEADING);
    TrimSpace(if i > 0 then TrimBreaks(full[..i]) else full)
  }

  /** A text a, and blanks x behind it that turn its last line, a bare "##", into a heading. */
  predicate Bare(a: string, x: string) {
    |a| >= 3 && a[|a| - 3..] == "\n##" && x != "" && x[0] == ' '
  }

  /** The section under a heading ends where trailing blanks make a heading of the bare
      "##" line that the text ends in. */
  predicate BareCloses(text: string, heading: string) {
    var a, i := TrimRight(text), Index(text, heading);
    && 0 <= i <= |a| && Bare(a[i..], text[|a|..])
    && SectionEnd(text[i..], heading, 0) == |a| - i - 3
  }

  predicate MarkerHeading(h: string) {
    h == BRIEF_HEADING || h == MINI_HEADING
  }

  lemma MarkerHeadingFacts(h: string)
    requires MarkerHeading(h)
    ensures '\n' !in h && |h| > 3 && h[..3] == "## " && h[0] == '#' && h[|h| - 1] !in TRAILING_WS && h[|h| - 1] != '\n'
    ensures h[3] !in TRAILING_WS
  {
  }

  /** No line of a text closes a section because of what follows the text, be it blanks or
      an empty line. */
  lemma ClosesAlike(a: string, x: string, y: string, heading: string, e: nat)
    requires MarkerHeading(heading) && e < |a| && a[|a| - 1] !in TRAILING_WS
    requires forall k :: 0 <= k < |x| ==> x[k] in TRAILING_WS
    requires |y| > 1 && y[0] == '\n'
    requires !(Bare(a, x) && e == |a| - 3)
    ensures ClosesAt(a + x, heading, e) == ClosesAt(a + y, heading, e)
  {
    MarkerHeadingFacts(heading);
    if a[e] == '\n' {
      var r := a[e + 1..];
      assert (a + x)[e + 1..] == r + x && (a + y)[e + 1..] == r + y;
      assert r != "" && r[|r| - 1] == a[|a| - 1];
      PrefixAlike(r, x, y, heading);
      if r == "##" { assert a[|a| - 3..] == "\n##"; }
      BarePrefix(r, x, y);
    }
  }

  lemma PrefixAlike(r: string, x: string, y: string, p: string)
    requires '\n' !in p && p != "" && p[|p| - 1] !in TRAILING_WS
    requires forall k :: 0 <= k < |x| ==> x[k] in TRAILING_WS
    requires y != "" && y[0] == '\n'
    ensures HasPrefix(r + x, p) == HasPrefix(r, p) == HasPrefix(r + y, p)
  {
    assert HasPrefix(r + x, p) ==> forall k :: 0 <= k < |p| ==> (r + x)[k] == p[k];
    assert HasPrefix(r + y, p) ==> forall k :: 0 <= k < |p| ==> (r + y)[k] == p[k];
    if |p| > |r| {
      assert (r + y)[|r|] == '\n';
      assert |r + x| >= |p| ==> (r + x)[|p| - 1] == x[|p| - 1 - |r|];
    }
  }

  lemma BarePrefix(r: string, x: string, y: string)
    requires r != "" && r[|r| - 1] !in TRAILING_WS
    requires forall k :: 0 <= k < |x| ==> x[k] in TRAILING_WS
    requires y != "" && y[0] == '\n'
    requires !(r == "##" && x != "" && x[0] == ' ')
    ensures HasPrefix(r + x, "## ") == HasPrefix(r + y, "## ")
  {
    var p := "## ";
    assert p[0] == '#' && p[1] == '#' && p[2] == ' ';
    assert HasPrefix(r + x, p) ==> forall k :: 0 <= k < 3 ==> (r + x)[k] == p[k];
    assert HasPrefix(r + y, p) ==> forall k :: 0 <= k < 3 ==> (r + y)[k] == p[k];
    if |r| >= 3 {
      assert (r + x)[..3] == r[..3] == (r + y)[..3];
    } else {
      assert (r + y)[|r|] == '\n';
      assert |r| == 1 ==> x == "" || (r + x)[1] in TRAILING_WS;
      assert |r| == 2 ==> r == [r[0], r[1]];
    }
  }

  /** Where a section ends with blanks behind the text, and where with a block. */
  lemma EndsAlike(a: string, x: string, tail: string, heading: string)
    requires MarkerHeading(heading) && a != "" && a[|a| - 1] !in TRAILING_WS
    requires forall k :: 0 <= k < |x| ==> x[k] in TRAILING_WS
    requires ClosesSection(tail, heading)
    ensures var e, f := SectionEnd(a + x, heading, 0), SectionEnd(a + "\n\n" + tail, heading, 0);
            if Bare(a, x) && e == |a| - 3 then f == |a| + 1
            else (e == f < |a|) || (e == |a + x| && f == |a| + 1)
  {
    var u, y := a + x, "\n\n" + tail;
    var v := a + y;
    Assoc(a, "\n\n", tail);
    var e, f := SectionEnd(u, heading, 0), SectionEnd(v, heading, 0);
    assert v[|a| + 2..] == tail && v[|a| + 1] == '\n';
    assert ClosesAt(v, heading, |a| + 1);
    assert v[|a| + 1..][0] == '\n';
    assert !ClosesAt(v, heading, |a|);
    if Bare(a, x) { BareCases(a, x, y, heading); }
    if e < |a| && !(Bare(a, x) && e == |a| - 3) { ClosesAlike(a, x, y, heading, e); }
    if f < |a| && !(Bare(a, x) && f == |a| - 3) { ClosesAlike(a, x, y, heading, f); }
    if |a| <= e < |u| { BlankNotClosing(a, x, heading, e); }
  }

  /** The bare line closes a section before blanks, and no section before an empty line. */
  lemma BareCases(a: string, x: string, y: string, heading: string)
    requires MarkerHeading(heading) && Bare(a, x) && y != "" && y[0] == '\n'
    requires forall k :: 0 <= k < |x| ==> x[k] in TRAILING_WS
    ensures ClosesAt(a + x, heading, |a| - 3) && !ClosesAt(a + y, heading, |a| - 3)
    ensures a[|a| - 2] == '#' && a[|a| - 1] == '#'
  {
    var e := |a| - 3;
    assert a[e] == a[e..][0] && a[e + 1] == a[e..][1] && a[e + 2] == a[e..][2];
    assert (a + x)[e + 1..][..3] == "## ";
    assert (a + x)[e + 1..][3..] == x[1..];
    assert (a + y)[e + 1..][2] == '\n';
    MarkerHeadingFacts(heading);
    assert |(a + x)[e + 1..]| > 3 ==> (a + x)[e + 1..][3] == x[1];
    PrefixChar((a + y)[e + 1..], "## ", 2);
    PrefixChar((a + x)[e + 1..], heading, 3);
  }

  lemma BlankNotClosing(a: string, x: string, heading: string, e: nat)
    requires forall k :: 0 <= k < |x| ==> x[k] in TRAILING_WS
    requires |a| <= e
    ensures !ClosesAt(a + x, heading, e)
  {
    if e < |a + x| {
      var w := (a + x)[e + 1..];
      assert w == "" || w[0] == x[e + 1 - |a|];
      assert "## "[0] == '#';
    }
  }

  /** A marker heading of the appended text is one of the original text. */
  lemma HeadingIndex(text: string, tail: string, heading: string)
    requires MarkerHeading(heading) && !Contains(tail, heading)
    ensures Index(Append(text, tail), heading) == Index(text, heading)
    ensures Contains(text, heading) ==> Index(text, heading) + |heading| <= |TrimRight(text)|
  {
    hide Index, IndexFrom, TrimRight;
    MarkerHeadingFacts(heading);
    var a, s := TrimRight(text), Append(text, tail);
    var i, j := Index(text, heading), Index(s, heading);
    if i >= 0 {
      OccursInTrimmed(text, heading, i);
      OccursInPrefix(a, s, heading, i);
    }
    if j >= 0 {
      NoStraddleLine(a, tail, heading, j);
      if OccursAt(tail, heading, j - |a| - 2) { ContainsAt(tail, heading, j - |a| - 2); }
      OccursInPrefix(a, text, heading, j);
    }
  }

  lemma TrimBlanks(a: string, x: string)
    requires forall k :: 0 <= k < |x| ==> x[k] in TRAILING_WS
    requires a != "" && !IsSpace(a[0])
    ensures TrimSpace(a + x) == TrimSpace(a)
  {
    TrimLeftId(a);
    TrimLeftId(a + x);
    var r := TrimRightSpace(a);
    assert r <= a + x;
    TrimRightSpaceIs(a + x, r);
  }

  /** Sections that differ by blanks at the end are sliced alike. */
  lemma SlicesAlike(a: string, x: string)
    requires forall k :: 0 <= k < |x| ==> x[k] in TRAILING_WS
    requires a != "" && !IsSpace(a[0])
    ensures TrimSpace(a + x) == TrimSpace(a)
    ensures Index(a + x, MINI_HEADING) == Index(a, MINI_HEADING)
    ensures Index(a, MINI_HEADING) >= 0 ==> (a + x)[..Index(a, MINI_HEADING)] == a[..Index(a, MINI_HEADING)]
  {
    hide TrimRight, IndexFrom, Index, IsSpace, TrimSpace;
    TrimBlanks(a, x);
    MarkerHeadingFacts(MINI_HEADING);
    var i, j := Index(a, MINI_HEADING), Index(a + x, MINI_HEADING);
    if i >= 0 { OccursInPrefix(a, a + x, MINI_HEADING, i); }
    if j >= 0 {
      CharOf(a + x, MINI_HEADING, j, |MINI_HEADING| - 1);
      assert j + |MINI_HEADING| <= |a|;
      assert (a + x)[j..j + |MINI_HEADING|] == a[j..j + |MINI_HEADING|];
      ContainsAt(a, MINI_HEADING, j);
    }
  }

  /** Two texts of which the second is the first without blanks at the end. */
  predicate SameUpToBlanks(o: string, n: string) {
    n == o || (n != "" && n[0] == '#' && n <= o && forall k :: |n| <= k < |o| ==> o[k] in TRAILING_WS)
  }

  /** The second text is the first with the bare line that was cut off it. */
  predicate RegainsBareLine(o: string, n: string) {
    |n| > 3 && n[0] == '#' && n[|n| - 3..] == "\n##" && o == TrimBreaks(n[..|n| - 3])
  }

  /** The section of the spliced text is the old one up to blanks at the end, unless a bare
      line closed the old one. */
  lemma SectionAlike(text: string, tail: string, heading: string)
    requires MarkerHeading(heading)
    requires !Contains(tail, heading) && ClosesSection(tail, heading)
    ensures var o, n := Section(text, heading), Section(Append(text, tail), heading);
            if BareCloses(text, heading) then RegainsBareLine(o, n) else SameUpToBlanks(o, n)
  {
    hide Index, IndexFrom, TrimRight, TrimBreaks, SectionEnd, ClosesSection, ClosesAt, RegainsBareLine, Bare, Section, Append;
    HeadingIndex(text, tail, heading);
    MarkerHeadingFacts(heading);
    var i := Index(text, heading);
    if i >= 0 {
      FromHeading(text, tail, heading, i);
      var a, x := TrimRight(text)[i..], text[|TrimRight(text)|..];
      SectionFrom(text, heading, a + x);
      SectionFrom(Append(text, tail), heading, a + "\n\n" + tail);
      EndsAlike(a, x, tail, heading);
      if BareCloses(text, heading) {
        RegainedSection(a, x, tail, heading);
      } else {
        ShortSection(a, x, tail, heading);
      }
    } else {
      NoSection(text, heading);
      NoSection(Append(text, tail), heading);
    }
  }

  lemma SectionFrom(text: string, heading: string, u: string)
    requires heading != "" && Index(text, heading) >= 0 && text[Index(text, heading)..] == u
    ensures Section(text, heading) == TrimBreaks(u[..SectionEnd(u, heading, 0)])
  {
    hide Index, TrimBreaks, SectionEnd;
  }

  lemma NoSection(text: string, heading: string)
    requires Index(text, heading) < 0
    ensures Section(text, heading) == ""
  {
  }

  /** Both texts from the heading on. */
  lemma FromHeading(text: string, tail: string, heading: string, i: nat)
    requires MarkerHeading(heading) && OccursAt(text, heading, i) && i + |heading| <= |TrimRight(text)|
    ensures var a, x := TrimRight(text)[i..], text[|TrimRight(text)|..];
            && text[i..] == a + x && Append(text, tail)[i..] == a + "\n\n" + tail
            && a != "" && a[|a| - 1] !in TRAILING_WS && a[|a| - 1] != '\n' && a[0] == '#'
  {
    hide TrimRight;
    var t := TrimRight(text);
    MarkerHeadingFacts(heading);
    CharOf(text, heading, i, 0);
    assert t[i..][0] == text[i] && t[i..][|t| - i - 1] == t[|t| - 1];
    assert text[i..] == t[i..] + text[|t|..];
  }

  lemma RegainedSection(a: string, x: string, tail: string, heading: string)
    requires a != "" && a[|a| - 1] != '\n' && a[0] == '#' && Bare(a, x)
    requires SectionEnd(a + x, heading, 0) == |a| - 3 && SectionEnd(a + "\n\n" + tail, heading, 0) == |a| + 1
    ensures RegainsBareLine(TrimBreaks((a + x)[..|a| - 3]), TrimBreaks((a + "\n\n" + tail)[..|a| + 1]))
  {
    hide SectionEnd, TrimBreaks;
    assert (a + x)[..|a| - 3] == a[..|a| - 3];
    assert (a + "\n\n" + tail)[..|a| + 1] == a + "\n";
    EndTrim(a);
    assert a[|a| - 3..][0] == a[|a| - 3];
  }

  lemma EndTrim(a: string)
    requires a != "" && a[|a| - 1] != '\n'
    ensures TrimBreaks(a) == a == TrimBreaks(a + "\n")
  {
    assert (a + "\n")[..|a|] == a;
  }

  lemma ShortSection(a: string, x: string, tail: string, heading: string)
    requires a != "" && a[|a| - 1] != '\n' && a[0] == '#'
    requires forall k :: 0 <= k < |x| ==> x[k] in TRAILING_WS
    requires var e, f := SectionEnd(a + x, heading, 0), SectionEnd(a + "\n\n" + tail, heading, 0);
             (e == f < |a|) || (e == |a + x| && f == |a| + 1)
    ensures var e, f := SectionEnd(a + x, heading, 0), SectionEnd(a + "\n\n" + tail, heading, 0);
            SameUpToBlanks(TrimBreaks((a + x)[..e]), TrimBreaks((a + "\n\n" + tail)[..f]))
  {
    hide SectionEnd, ClosesAt, TrimBreaks;
    var u, v := a + x, a + "\n\n" + tail;
    var e, f := SectionEnd(u, heading, 0), SectionEnd(v, heading, 0);
    if e == f < |a| {
      assert u[..e] == a[..e] == v[..f];
    } else {
      assert u[..e] == u && v[..f] == a + "\n";
      EndTrim(a);
      assert u[|a| - 1] == a[|a| - 1];
      assert a <= TrimBreaks(u);
    }
  }

  /** Exactly when the inject proof is stable under a splice of a block with its own heading
      that quotes no marker heading: no slice was closed by a bare line (a brief slice may
      have been, behind the mini schema at which it stops anyway). */
  lemma SlicesStable(text: string, block: string, h: string)
    requires Opens(block, h) && !HasHeading(TrimSpace(block) + "\n")
    ensures SliceMini(SpliceAfterBrief(text, block, h)) == SliceMini(text) <==>
              (Tail(text, block, h) == "" || !BareCloses(text, MINI_HEADING))
    ensures SliceBrief(SpliceAfterBrief(text, block, h)) == SliceBrief(text) <==>
              (Tail(text, block, h) == "" || !BareCloses(text, BRIEF_HEADING) || Index(Section(text, BRIEF_HEADING), MINI_HEADING) > 0)
  {
    hide Index, IndexFrom, TrimRight, TrimSpace, TrimBreaks, Section, BareCloses, BriefPart, SameUpToBlanks, RegainsBareLine;
    SpliceIsAppend(text, block, h);
    OpensFacts(block, h);
    if Tail(text, block, h) != "" {
      var tail := TrimSpace(block) + "\n";
      OwnHeadingCloses(tail, h);
      SectionAlike(text, tail, BRIEF_HEADING);
      SectionAlike(text, tail, MINI_HEADING);
      SliceOfSections(Section(text, BRIEF_HEADING), Section(Append(text, tail), BRIEF_HEADING), BareCloses(text, BRIEF_HEADING));
      SliceOfSections(Section(text, MINI_HEADING), Section(Append(text, tail), MINI_HEADING), BareCloses(text, MINI_HEADING));
    }
  }

  /** A mini schema that ends in a bare "##" line and a blank loses that line to the splice
      of any such block. */
  lemma {:induction false} BareLineUnstable(block: string, h: string)
    requires Opens(block, h) && !HasHeading(TrimSpace(block) + "\n")
    requires !Contains(MINI_HEADING + "\n##" + " ", h)
    ensures var text := MINI_HEADING + "\n##" + " ";
      SliceMini(SpliceAfterBrief(text, block, h)) != SliceMini(text)
  {
    hide Index, TrimRight, TrimSpace, SliceMini, SpliceAfterBrief;
    var a := MINI_HEADING + "\n##";
    var text := a + " ";
    assert text[..|MINI_HEADING|] == MINI_HEADING;
    ContainsAt(text, MINI_HEADING, 0);
    TrimRightIs(text, a);
    BareText(a);
    SlicesStable(text, block, h);
  }

  lemma BareText(a: string)
    requires a == MINI_HEADING + "\n##"
    ensures Bare(a, " ") && SectionEnd(a + " ", MINI_HEADING, 0) == |a| - 3
  {
    var t := a + " ";
    MarkerHeadingFacts(MINI_HEADING);
    assert t[|a| - 2..] == "## ";
    assert ClosesAt(t, MINI_HEADING, |a| - 3);
    assert forall k :: 0 <= k < |MINI_HEADING| ==> t[k] == MINI_HEADING[k];
    assert a[|a| - 3..] == "\n##";
  }

  /** What the slices make of two sections. */
  lemma SliceOfSections(o: string, n: string, bare: bool)
    requires if bare then RegainsBareLine(o, n) else SameUpToBlanks(o, n)
    ensures TrimSpace(o) == TrimSpace(n) <==> !bare
    ensures BriefPart(o) == BriefPart(n) <==> (!bare || Index(o, MINI_HEADING) > 0)
  {
    hide TrimSpace, TrimBreaks, Index;
    if bare {
      BareSlices(o, n);
    } else if n != o {
      assert o == n + o[|n|..];
      SlicesAlike(n, o[|n|..]);
    }
  }

  lemma BareSlices(o: string, n: string)
    requires RegainsBareLine(o, n)
    ensures TrimSpace(o) != TrimSpace(n)
    ensures Index(o, MINI_HEADING) == Index(n, MINI_HEADING)
    ensures Index(n, MINI_HEADING) >= 0 ==> o[..Index(n, MINI_HEADING)] == n[..Index(n, MINI_HEADING)]
  {
    hide TrimSpace, TrimBreaks, Index;
    var m := |n| - 3;
    assert n[m] == n[m..][0] && n[m + 1] == n[m..][1] && n[m + 2] == n[m..][2];
    TrimSpaceId(n);
    assert n[..m] <= n;
    assert o <= n[..m];
    MarkerHeadingFacts(MINI_HEADING);
    var i, j := Index(o, MINI_HEADING), Index(n, MINI_HEADING);
    if i >= 0 { OccursInPrefix(o, n, MINI_HEADING, i); }
    if j >= 0 { MiniBeforeBare(o, n, j); }
  }

  lemma MiniBeforeBare(o: string, n: string, j: int)
    requires RegainsBareLine(o, n) && OccursAt(n, MINI_HEADING, j)
    ensures OccursAt(o, MINI_HEADING, j)
  {
    var m := |n| - 3;
    assert n[m] == n[m..][0];
    MarkerHeadingFacts(MINI_HEADING);
    if j <= m < j + |MINI_HEADING| { CharOf(n, MINI_HEADING, j, m - j); }
    var last := |MINI_HEADING| - 1;
    CharOf(n, MINI_HEADING, j, last);
    assert n[..m][j + last] != '\n';
    assert j + last < |o|;
    assert o[j..j + |MINI_HEADING|] == n[j..j + |MINI_HEADING|];
  }

  lemma OwnHeadingCloses(tail: string, h: string)
    requires OwnLine(h) && HasPrefix(tail, h)
    ensures ClosesSection(tail, BRIEF_HEADING) && ClosesSection(tail, MINI_HEADING)
  {
    OwnHeadingShows(tail, h);
    assert tail[0] == h[0] && tail[1] == h[1] && tail[2] == h[2];
    assert tail[..3] == "## ";
  }
}
