/** Joined and cleaned paths with slashes (filepath.Join), where a file system names its files. */
module FilePath {

  /** One more character. */
  function Longer(parts: seq<string>, c: char): (r: seq<string>)
    requires parts != []
    ensures |r| > 0
  {
    if c == '/' then parts + [""] else parts[..|parts| - 1] + [parts[|parts| - 1] + [c]]
  }

  /** What stands between the slashes. */
  function Split(s: string): (r: seq<string>)
    ensures |r| > 0
    decreases |s|
  {
    if s == "" then [""]
    else Longer(Split(s[..|s| - 1]), s[|s| - 1])
  }

  /** One more element: empty ones and dots are dropped, and a double dot takes the one
      before it away, unless there is nothing left to take. */
  function Push(rooted: bool, parts: seq<string>, x: string): seq<string> {
    if x == "" || x == "." then parts
    else if x != ".." then parts + [x]
    else if parts != [] && parts[|parts| - 1] != ".." then parts[..|parts| - 1]
    else if rooted then parts
    else parts + [x]
  }

  function Reduce(rooted: bool, elements: seq<string>): seq<string>
    decreases |elements|
  {
    if elements == [] then []
    else Push(rooted, Reduce(rooted, elements[..|elements| - 1]), elements[|elements| - 1])
  }

  predicate Rooted(s: string) { s != "" && s[0] == '/' }

  /** The elements of the cleaned path. */
  function Parts(s: string): seq<string> { Reduce(Rooted(s), Split(s)) }

  function Slashed(parts: seq<string>): string
    decreases |parts|
  {
    if parts == [] then ""
    else if |parts| == 1 then parts[0]
    else Slashed(parts[..|parts| - 1]) + "/" + parts[|parts| - 1]
  }

  function Show(rooted: bool, parts: seq<string>): string {
    if rooted then "/" + Slashed(parts) else if parts == [] then "." else Slashed(parts)
  }

  function Clean(s: string): string { Show(Rooted(s), Parts(s)) }

  /** filepath.Join of two elements. */
  function Join(dir: string, name: string): string {
    if dir == "" && name == "" then "" else if dir == "" then Clean(name) else Clean(dir + "/" + name)
  }

  /** A name of one element. */
  predicate Element(x: string) { x != "" && x != "." && x != ".." && '/' !in x }

  /** The elements of a cleaned path: double dots stand only in front, and not behind a root. */
  ghost predicate Normal(rooted: bool, parts: seq<string>) {
    && (forall i :: 0 <= i < |parts| ==> parts[i] != "" && parts[i] != "." && '/' !in parts[i])
    && (forall i :: 0 <= i < |parts| && parts[i] == ".." ==> !rooted && (i == 0 || parts[i - 1] == ".."))
  }

  lemma {:induction false} SplitElement(x: string)
    requires '/' !in x
    ensures Split(x) == [x]
    decreases |x|
  {
    if x != "" {
      SplitElement(x[..|x| - 1]);
      assert x[..|x| - 1] + [x[|x| - 1]] == x;
    }
  }

  lemma SplitLonger(s: string, c: char)
    ensures Split(s + [c]) == Longer(Split(s), c)
  {
    assert (s + [c])[..|s + [c]| - 1] == s;
  }

  lemma LongerConcat(a: seq<string>, b: seq<string>, c: char)
    requires b != []
    ensures Longer(a + b, c) == a + Longer(b, c)
  {
    assert (a + b)[..|a + b| - 1] == a + b[..|b| - 1];
  }

  lemma {:induction false} SplitConcat(a: string, b: string)
    ensures Split(a + "/" + b) == Split(a) + Split(b)
    decreases |b|
  {
    hide Split, Longer;
    if b == "" {
      SplitSlash(a);
      assert a + "/" + b == a + "/";
    } else {
      var n := |b| - 1;
      SplitConcat(a, b[..n]);
      SplitLast(b);
      Regrouped(a, b[..n], b[n]);
      assert b[..n] + [b[n]] == b;
      SplitLonger(a + "/" + b[..n], b[n]);
      LongerConcat(Split(a), Split(b[..n]), b[n]);
    }
  }

  lemma SplitSlash(a: string)
    ensures Split(a + "/") == Split(a) + Split("")
  {
    SplitLonger(a, '/');
    assert a + "/" == a + ['/'];
  }

  lemma SplitLast(b: string)
    requires b != ""
    ensures Split(b) == Longer(Split(b[..|b| - 1]), b[|b| - 1])
  {
  }

  lemma Regrouped(a: string, front: string, c: char)
    ensures a + "/" + front + [c] == a + "/" + (front + [c])
  {
  }

  lemma {:induction false} SplitHasNoSlash(s: string)
    ensures forall x :: x in Split(s) ==> '/' !in x
    decreases |s|
  {
    if s != "" { SplitHasNoSlash(s[..|s| - 1]); }
  }

  lemma {:induction false} SplitSlashed(parts: seq<string>)
    requires parts != [] && forall x :: x in parts ==> '/' !in x
    ensures Split(Slashed(parts)) == parts
    decreases |parts|
  {
    var n := |parts| - 1;
    SplitElement(parts[n]);
    if n > 0 {
      SplitSlashed(parts[..n]);
      SplitConcat(Slashed(parts[..n]), parts[n]);
    }
  }

  /** What comes before matters only by what it reduces to. */
  lemma {:induction false} ReduceFrom(rooted: bool, a: seq<string>, b: seq<string>, more: seq<string>)
    requires Reduce(rooted, a) == Reduce(rooted, b)
    ensures Reduce(rooted, a + more) == Reduce(rooted, b + more)
    decreases |more|
  {
    if more == [] {
      assert a + more == a && b + more == b;
    } else {
      var front, x := more[..|more| - 1], more[|more| - 1];
      ReduceFrom(rooted, a, b, front);
      assert (a + more)[..|a + more| - 1] == a + front && (b + more)[..|b + more| - 1] == b + front;
    }
  }

  lemma {:induction false} ReduceIsNormal(rooted: bool, elements: seq<string>)
    requires forall x :: x in elements ==> '/' !in x
    ensures Normal(rooted, Reduce(rooted, elements))
    decreases |elements|
  {
    if elements != [] { ReduceIsNormal(rooted, elements[..|elements| - 1]); }
  }

  lemma {:induction false} ReduceNormal(rooted: bool, parts: seq<string>)
    requires Normal(rooted, parts)
    ensures Reduce(rooted, parts) == parts
    decreases |parts|
  {
    if parts != [] { ReduceNormal(rooted, parts[..|parts| - 1]); }
  }

  lemma PartsAreNormal(s: string)
    ensures Normal(Rooted(s), Parts(s))
  {
    SplitHasNoSlash(s);
    ReduceIsNormal(Rooted(s), Split(s));
  }

  lemma {:induction false} SlashedStart(rooted: bool, parts: seq<string>)
    requires parts != [] && Normal(rooted, parts)
    ensures Slashed(parts) != "" && Slashed(parts)[0] != '/'
    decreases |parts|
  {
    if |parts| > 1 { SlashedStart(rooted, parts[..|parts| - 1]); }
  }

  /** A shown path is read back: no two cleaned paths look alike. */
  lemma {:induction false} ShowBack(rooted: bool, parts: seq<string>)
    requires Normal(rooted, parts)
    ensures Rooted(Show(rooted, parts)) == rooted && Parts(Show(rooted, parts)) == parts
  {
    hide Reduce, Slashed;
    assert forall x :: x in parts ==> '/' !in x;
    ReduceNormal(rooted, parts);
    ReduceEmpty(rooted);
    if parts == [] {
      EmptyShown();
    } else {
      SlashedStart(rooted, parts);
      SplitSlashed(parts);
      if rooted {
        SplitConcat("", Slashed(parts));
        assert "" + "/" + Slashed(parts) == "/" + Slashed(parts);
        ReduceFrom(rooted, [""], [], parts);
        assert [] + parts == parts;
      }
    }
  }

  lemma ReduceEmpty(rooted: bool)
    ensures Reduce(rooted, [""]) == [] && Reduce(rooted, []) == []
  {
    assert [""][..0] == [];
  }

  lemma EmptyShown()
    ensures Slashed([]) == "" && Parts("/") == [] && Parts(".") == []
  {
    SplitElement(".");
    SplitElement("");
    SplitConcat("", "");
    assert "" + "/" + "" == "/";
    assert ["", ""][..1] == [""] && ["."][..0] == [];
    ReduceEmpty(true);
  }

  lemma ElementBehind(dir: string, x: string)
    requires Element(x) && dir != ""
    ensures Rooted(dir + "/" + x) == Rooted(dir) && Parts(dir + "/" + x) == Parts(dir) + [x]
  {
    hide Split, Reduce;
    SplitElement(x);
    SplitConcat(dir, x);
    PushElement(Rooted(dir), Split(dir), x);
  }

  lemma PushElement(rooted: bool, elements: seq<string>, x: string)
    requires Element(x)
    ensures Reduce(rooted, elements + [x]) == Reduce(rooted, elements) + [x]
  {
    assert (elements + [x])[..|elements|] == elements;
  }

  lemma AloneElement(x: string)
    requires Element(x)
    ensures Rooted(x) == Rooted("") && Parts("") == [] && Parts(x) == [x]
  {
    SplitElement(x);
    SplitElement("");
    ReduceEmpty(false);
    PushElement(false, [], x);
    hide Split, Reduce;
    assert [] + [x] == [x];
  }

  /** Joining an element puts it behind the directory's elements. */
  lemma {:induction false} JoinElement(dir: string, x: string)
    requires Element(x)
    ensures Join(dir, x) == Show(Rooted(dir), Parts(dir) + [x])
    ensures Rooted(Join(dir, x)) == Rooted(dir) && Parts(Join(dir, x)) == Parts(dir) + [x]
  {
    hide Parts, Show, Rooted;
    if dir == "" { AloneElement(x); } else { ElementBehind(dir, x); }
    assert [] + [x] == [x];
    CleanBack(if dir == "" then x else dir + "/" + x);
  }

  lemma UpAgain(dir: string)
    requires dir != "" && Parts(dir) != [] && Parts(dir)[|Parts(dir)| - 1] != ".."
    ensures Rooted(dir + "/" + "..") == Rooted(dir) && Parts(dir + "/" + "..") == Parts(dir)[..|Parts(dir)| - 1]
  {
    hide Split, Reduce;
    NoSlashInDots();
    SplitElement("..");
    SplitConcat(dir, "..");
    PushUp(Rooted(dir), Split(dir));
    assert (dir + "/" + "..")[0] == dir[0];
  }

  lemma NoSlashInDots()
    ensures '/' !in ".."
  {
    forall i | 0 <= i < 2 ensures ".."[i] != '/' {}
  }

  lemma PushUp(rooted: bool, elements: seq<string>)
    requires Reduce(rooted, elements) != [] && Reduce(rooted, elements)[|Reduce(rooted, elements)| - 1] != ".."
    ensures Reduce(rooted, elements + [".."]) == Reduce(rooted, elements)[..|Reduce(rooted, elements)| - 1]
  {
    assert (elements + [".."])[..|elements|] == elements;
  }

  lemma CleanBack(s: string)
    ensures Rooted(Clean(s)) == Rooted(s) && Parts(Clean(s)) == Parts(s)
  {
    PartsAreNormal(s);
    ShowBack(Rooted(s), Parts(s));
  }
}
