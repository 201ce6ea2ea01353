/** Catalog file names and scope directories, and the parsers that read them back
    (domain/catalog.go). */
module CatalogNames {
  import opened Collections
  import opened Text

  // ---- scope directories ----------------------------------------------------------------------

  /** What a directory shows of a scope. */
  function ScopeTail(scope: string): string { if HasPrefix(scope, "_") then scope[1..] else scope }

  /** ScopeChatRequestsSubdir */
  function ScopeSubdir(bucket: string, scope: string): string {
    bucket + "__" + ScopeTail(scope)
  }

  /** ScopeKeyFromSubdir */
  function ScopeKey(name: string): string {
    if !Contains(name, "__") then ""
    else
      var k := Index(name, "__");
      name[..k] + "/" + if name[k + 2..] != "" then "_" + name[k + 2..] else ""
  }

  /** A name without a double underscore is no scope directory. */
  lemma {:induction false} NoScopeKey(name: string)
    ensures ScopeKey(name) == "" <==> !Contains(name, "__")
  {
    hide Contains, Index;
  }

  /** A bucket without a double or a trailing underscore. */
  predicate CleanBucket(bucket: string) {
    !Contains(bucket, "__") && (bucket == "" || bucket[|bucket| - 1] != '_')
  }

  /** Where the first double underscore of a subdirectory is. */
  lemma {:induction false} CutAt(bucket: string, tail: string)
    ensures Contains(bucket + "__" + tail, "__") && Index(bucket + "__" + tail, "__") <= |bucket|
    ensures Index(bucket + "__" + tail, "__") == |bucket| <==> CleanBucket(bucket)
  {
    hide Index, Contains;
    var s := bucket + "__" + tail;
    assert s[|bucket|..|bucket| + 2] == "__";
    ContainsAt(s, "__", |bucket|);
    var k := IndexAt(s, "__");
    if k < |bucket| {
      CharOf(s, "__", k, 0);
      CharOf(s, "__", k, 1);
      if k + 1 < |bucket| {
        assert bucket[k..k + 2] == s[k..k + 2];
        ContainsAt(bucket, "__", k);
      }
    } else {
      if Contains(bucket, "__") {
        var j := IndexAt(bucket, "__");
        assert s[j..j + 2] == bucket[j..j + 2];
        ContainsAt(s, "__", j);
      }
      if bucket != "" && bucket[|bucket| - 1] == '_' {
        assert s[|bucket| - 1..|bucket| + 1] == "__";
        ContainsAt(s, "__", |bucket| - 1);
      }
    }
  }

  lemma IndexAt(s: string, p: string) returns (k: nat)
    requires Contains(s, p)
    ensures k == Index(s, p) && OccursAt(s, p, k)
  {
    k := Index(s, p);
  }

  /** The parser undoes the printer exactly for buckets without a double or a trailing
      underscore, and scopes that are empty or have a leading underscore with something
      after it. */
  lemma {:induction false} ScopeRoundTrip(bucket: string, scope: string)
    ensures ScopeKey(ScopeSubdir(bucket, scope)) == bucket + "/" + scope <==>
      && CleanBucket(bucket)
      && (scope == "" || (scope[0] == '_' && scope != "_"))
  {
    var tail := ScopeTail(scope);
    CutAt(bucket, tail);
    hide Index, Contains;
    var s := bucket + "__" + tail;
    var k := IndexAt(s, "__");
    var want := bucket + "/" + scope;
    assert s[..k] == bucket[..k];
    if k < |bucket| {
      CharOf(s, "__", k, 0);
      assert ScopeKey(s)[k] == '/' && want[k] == '_';
    } else {
      assert s[k + 2..] == tail;
      assert bucket[..k] == bucket;
      assert want[|bucket| + 1..] == scope;
      assert ScopeKey(s)[|bucket| + 1..] == if tail != "" then "_" + tail else "";
      if scope != "" && scope[0] == '_' {
        assert scope == "_" + tail;
      }
    }
  }

  /** Two scopes of buckets without a double or a trailing underscore share a directory
      exactly when they are of one bucket and differ at most by a leading underscore. */
  lemma {:induction false} SubdirsCollide(b: string, s: string, c: string, t: string)
    requires CleanBucket(b) && CleanBucket(c)
    ensures ScopeSubdir(b, s) == ScopeSubdir(c, t) <==> b == c && ScopeTail(s) == ScopeTail(t)
  {
    CutAt(b, ScopeTail(s));
    CutAt(c, ScopeTail(t));
    hide Index, Contains;
    if ScopeSubdir(b, s) == ScopeSubdir(c, t) {
      var d := ScopeSubdir(b, s);
      assert d[..|b|] == b && d[..|c|] == c;
      assert d[|b| + 2..] == ScopeTail(s) && d[|c| + 2..] == ScopeTail(t);
    }
  }

  /** In general, for a bucket that is a prefix of another: the directories are one exactly
      when the rest of the longer bucket moves over into the tail. */
  lemma {:induction false} SubdirsCollideAnywhere(b: string, s: string, c: string, t: string)
    requires |b| <= |c|
    ensures ScopeSubdir(b, s) == ScopeSubdir(c, t) <==>
      b <= c && "__" + ScopeTail(s) == c[|b|..] + "__" + ScopeTail(t)
  {
    var x, y := "__" + ScopeTail(s), "__" + ScopeTail(t);
    assert ScopeSubdir(b, s) == b + x && ScopeSubdir(c, t) == c + y by {
      Assoc(b, "__", ScopeTail(s));
      Assoc(c, "__", ScopeTail(t));
    }
    assert c[|b|..] + "__" + ScopeTail(t) == c[|b|..] + y by { Assoc(c[|b|..], "__", ScopeTail(t)); }
    hide ScopeSubdir;
    MovesOver(b, x, c, y);
  }

  lemma MovesOver(b: string, x: string, c: string, y: string)
    requires |b| <= |c|
    ensures b + x == c + y <==> b <= c && x == c[|b|..] + y
  {
    if b + x == c + y {
      assert (b + x)[..|b|] == b && (c + y)[..|b|] == c[..|b|];
      assert (b + x)[|b|..] == x && (c + y)[|b|..] == c[|b|..] + y;
    }
    if b <= c {
      assert b + c[|b|..] == c;
      Assoc(b, c[|b|..], y);
    }
  }

  lemma PlainTail(scope: string)
    requires scope != "" && scope[0] != '_'
    ensures ScopeTail(scope) == scope
  {
  }

  /** Buckets with a double underscore share directories of other buckets. */
  lemma {:induction false} OtherBucketsCollide()
    ensures ScopeSubdir("a__b", "c") == ScopeSubdir("a", "b__c") && "a__b" != "a"
  {
    PlainTail("c");
    PlainTail("b__c");
    assert ScopeSubdir("a__b", "c") == "a__b__c" && ScopeSubdir("a", "b__c") == "a__b__c";
    assert |"a__b"| != |"a"|;
  }

  // ---- lineage file names -----------------------------------------------------------------------

  const PREFIX := "chat_request_"
  const SUFFIX := ".json"

  predicate IsBase(b: string) {
    (HasPrefix(b, "base-") && |b| > 5) || (HasPrefix(b, "cus-") && |b| > 4)
  }

  /** A base id is "base-" or "cus-" with something behind it. */
  lemma {:induction false} BaseIds(b: string)
    ensures IsBase(b) <==> (exists rest :: rest != "" && b == "base-" + rest) || (exists rest :: rest != "" && b == "cus-" + rest)
  {
    if HasPrefix(b, "base-") { assert b == "base-" + b[5..]; }
    if HasPrefix(b, "cus-") { assert b == "cus-" + b[4..]; }
  }

  /** A base id starts right after position i, where an underscore stands. */
  predicate MarkAt(s: string, i: int) {
    0 <= i < |s| && s[i] == '_' && IsBase(s[i + 1..])
  }

  /** The last mark before position n that leaves a mode in front of it, or 0. */
  function LastMark(s: string, n: nat): (r: nat)
    requires n <= |s|
    ensures r == 0 || (r < n && MarkAt(s, r))
    ensures forall i :: r < i < n ==> !MarkAt(s, i)
  {
    if n <= 1 then 0 else if MarkAt(s, n - 1) then n - 1 else LastMark(s, n - 1)
  }

  /** filepath.Base on a slash-separated name: the last component. */
  function BaseName(name: string): (r: string)
    ensures name != "" && '/' !in name ==> r == name
    ensures '/' !in r || r == "/"
    decreases |name|
  {
    if name == "" then "."
    else if name == "/" then "/"
    else if name[|name| - 1] == '/' then BaseName(name[..|name| - 1])
    else LastComponent(name)
  }

  function LastComponent(name: string): (r: string)
    ensures '/' !in r && |r| <= |name| && name[|name| - |r|..] == r
    ensures |r| < |name| ==> name[|name| - |r| - 1] == '/'
    ensures '/' !in name ==> r == name
  {
    if name == "" || name[|name| - 1] == '/' then "" else LastComponent(name[..|name| - 1]) + [name[|name| - 1]]
  }

  /** lineageFileRe on a base name: the mode takes all it can. */
  function ParseStem(name: string): Option<(string, string)> {
    if |name| < |PREFIX| + |SUFFIX| || !HasPrefix(name, PREFIX) || name[|name| - |SUFFIX|..] != SUFFIX then None
    else
      var core := name[|PREFIX|..|name| - |SUFFIX|];
      var k := LastMark(core, |core|);
      if '\n' in core || k == 0 then None else Some((core[..k], core[k + 1..]))
  }

  /** ParseCatalogFilename */
  function Parse(name: string): Option<(string, string)> { ParseStem(BaseName(name)) }

  /** A name with a base id. */
  function FileName(mode: string, base: string): string {
    PREFIX + mode + "_" + base + SUFFIX
  }

  function ModeOr(mode: string): string {
    if TrimSpace(mode) == "" then "default" else TrimSpace(mode)
  }

  /** ChatRequestFilename */
  function WriteName(mode: string, base: string): string {
    if TrimSpace(base) != "" then FileName(ModeOr(mode), TrimSpace(base))
    else if ModeOr(mode) == "default" then PREFIX + "v2" + SUFFIX
    else PREFIX + ModeOr(mode) + "_v2" + SUFFIX
  }

  lemma CoreOf(mode: string, base: string)
    ensures var core := mode + "_" + base;
      var k := LastMark(core, |core|);
      ParseStem(FileName(mode, base)) == if '\n' in core || k == 0 then None else Some((core[..k], core[k + 1..]))
  {
    hide LastMark;
    var core := mode + "_" + base;
    var name := PREFIX + core + SUFFIX;
    assert FileName(mode, base) == name;
    assert name[..|PREFIX|] == PREFIX;
    assert name[|name| - |SUFFIX|..] == SUFFIX;
    assert name[|PREFIX|..|name| - |SUFFIX|] == core;
  }

  /** Nothing inside the base id reads like another one. */
  ghost predicate Unmarked(base: string) { forall j :: !MarkAt(base, j) }

  lemma MarkShift(mode: string, base: string)
    ensures var core := mode + "_" + base;
      && (Unmarked(base) <==> forall i :: |mode| < i < |core| ==> !MarkAt(core, i))
      && (MarkAt(core, |mode|) <==> IsBase(base))
  {
    hide IsBase;
    var core, m := mode + "_" + base, |mode|;
    assert core[m + 1..] == base;
    forall j | 0 <= j < |base| ensures MarkAt(base, j) <==> MarkAt(core, j + m + 1) {
      assert core[j + m + 2..] == base[j + 1..];
    }
    if !Unmarked(base) {
      var j :| MarkAt(base, j);
      assert MarkAt(core, j + m + 1);
    } else {
      forall i | m < i < |core| ensures !MarkAt(core, i) {
        assert !MarkAt(base, i - m - 1);
      }
    }
  }

  /** The parser on an untrimmed name of one component. */
  lemma {:induction false} StemRoundTrip(mode: string, base: string)
    ensures ParseStem(FileName(mode, base)) == Some((mode, base)) <==>
      mode != "" && IsBase(base) && Unmarked(base) && '\n' !in mode && '\n' !in base
  {
    hide IsBase, MarkAt, Unmarked, LastMark, FileName, ParseStem;
    CoreOf(mode, base);
    MarkShift(mode, base);
    NewlineIn(mode, base);
    var core := mode + "_" + base;
    var m, k := |mode|, LastMark(core, |core|);
    assert core[..m] == mode && core[m + 1..] == base;
    assert |core[..k]| == k;
    assert k != m ==> core[..k] != mode;
  }

  lemma StemFacts(stem: string)
    ensures ParseStem(stem).Some? ==>
      var (mode, base) := ParseStem(stem).value;
      mode != "" && IsBase(base) && stem == FileName(mode, base)
  {
    hide IsBase;
    if ParseStem(stem).Some? {
      var core := stem[|PREFIX|..|stem| - |SUFFIX|];
      var k := LastMark(core, |core|);
      hide LastMark;
      assert stem == PREFIX + core + SUFFIX;
      assert core == core[..k] + "_" + core[k + 1..];
      Rejoin(PREFIX, core[..k], "_", core[k + 1..], SUFFIX);
    }
  }

  lemma Rejoin(a: string, b: string, c: string, d: string, e: string)
    ensures a + (b + c + d) + e == a + b + c + d + e
  {
  }

  /** Whatever is parsed is one component, and its base id is one. */
  lemma {:induction false} ParsedFacts(name: string)
    ensures Parse(name).Some? ==>
      var (mode, base) := Parse(name).value;
      mode != "" && IsBase(base) && '/' !in mode && '/' !in base && BaseName(name) == FileName(mode, base)
  {
    hide IsBase, BaseName, ParseStem, FileName;
    var stem := BaseName(name);
    StemFacts(stem);
    if Parse(name).Some? {
      InName(Parse(name).value.0, Parse(name).value.1);
    }
  }

  lemma InName(mode: string, base: string)
    ensures |FileName(mode, base)| > 1
    ensures forall c :: c in mode || c in base ==> c in FileName(mode, base)
  {
    var name := FileName(mode, base);
    assert forall i :: 0 <= i < |mode| ==> mode[i] == name[|PREFIX| + i];
    assert forall i :: 0 <= i < |base| ==> base[i] == name[|PREFIX| + |mode| + 1 + i];
  }

  lemma SameStart(m: string, b: string, mode: string, base: string)
    requires FileName(m, b) == FileName(mode, base) && m != "" && mode != ""
    ensures m[0] == mode[0]
  {
    assert FileName(m, b)[|PREFIX|] == m[0] && FileName(mode, base)[|PREFIX|] == mode[0];
  }

  lemma TrimShorter(s: string)
    ensures |TrimSpace(s)| <= |s| && (|TrimSpace(s)| == |s| ==> TrimSpace(s) == s)
    ensures forall c :: c in TrimSpace(s) ==> c in s
  {
    hide TrimSpace;
    var k := TrimIsCut(s);
    var r := TrimSpace(s);
    forall c | c in r ensures c in s {
      var i :| 0 <= i < |r| && r[i] == c;
      assert s[k + i] == s[k..k + |r|][i];
    }
  }

  lemma BlankStart(s: string)
    ensures TrimSpace(s) == "" && s != "" ==> IsSpace(s[0])
  {
    hide IsSpace;
    if s != "" && !IsSpace(s[0]) {
      TrimLeftId(s);
      assert TrimRightSpace(s) != "";
    }
  }

  lemma BaseIsVisible(base: string)
    requires IsBase(base)
    ensures TrimSpace(base) != ""
  {
    hide TrimSpace;
    BlankStart(base);
    assert base[0] == 'b' || base[0] == 'c';
  }

  lemma NoSlash(mode: string, base: string)
    requires '/' !in mode && '/' !in base
    ensures '/' !in FileName(mode, base) && BaseName(FileName(mode, base)) == FileName(mode, base)
  {
    assert '/' !in PREFIX && '/' !in SUFFIX by {
      forall i | 0 <= i < |PREFIX| ensures PREFIX[i] != '/' {}
      forall i | 0 <= i < |SUFFIX| ensures SUFFIX[i] != '/' {}
    }
    var name := FileName(mode, base);
    assert name == PREFIX + mode + "_" + base + SUFFIX;
    assert name != "";
  }

  /** The parser gives back the arguments of the printer exactly when both are trimmed and
      there, the base id is one, no later part of it reads like another one, and neither
      holds a slash or a line break. */
  lemma {:induction false} FileRoundTrip(mode: string, base: string)
    ensures Parse(WriteName(mode, base)) == Some((mode, base)) <==>
      && mode != "" && TrimSpace(mode) == mode && TrimSpace(base) == base
      && IsBase(base) && Unmarked(base)
      && '/' !in mode && '/' !in base && '\n' !in mode && '\n' !in base
  {
    hide IsBase, Unmarked, FileName, ParseStem, BaseName, TrimSpace;
    var name := WriteName(mode, base);
    ParsedFacts(name);
    TrimShorter(mode);
    TrimShorter(base);
    BlankStart(mode);
    if Parse(name) == Some((mode, base)) {
      BaseIsVisible(base);
      DefaultIsVisible();
      FromParsed(mode, base, ModeOr(mode), TrimSpace(base));
      StemRoundTrip(mode, base);
    }
    if IsBase(base) && TrimSpace(base) == base && mode != "" && TrimSpace(mode) == mode && '/' !in mode && '/' !in base {
      BaseIsVisible(base);
      NoSlash(mode, base);
      StemRoundTrip(mode, base);
    }
  }

  /** A base id with another one inside moves its front into the mode. */
  lemma {:induction false} InnerBaseMoves()
    ensures Parse(WriteName("m", "base-1_base-2")) != Some(("m", "base-1_base-2"))
  {
    hide WriteName, Parse, TrimSpace;
    var b := "base-1_base-2";
    assert b[7..] == "base-2";
    assert MarkAt(b, 6);
    FileRoundTrip("m", b);
  }

  /** A name that reads back was printed from the very arguments: neither trimming nor the
      default mode can have changed them. */
  lemma {:induction false} FromParsed(mode: string, base: string, m: string, b: string)
    requires Parse(FileName(m, b)) == Some((mode, base)) && m != ""
    requires '/' !in m && '/' !in b && |b| <= |base|
    requires |m| <= |mode| || (mode != "" ==> m[0] != mode[0])
    ensures mode != "" && m[0] == mode[0] && |m| == |mode| && |b| == |base|
    ensures ParseStem(FileName(m, b)) == Some((mode, base))
  {
    hide IsBase, ParseStem, BaseName;
    ParsedFacts(FileName(m, b));
    NoSlash(m, b);
    assert FileName(m, b) == FileName(mode, base);
    SameStart(m, b, mode, base);
  }

  lemma DefaultIsVisible()
    ensures '/' !in "default" && !IsSpace('d')
  {
    var s := "default";
    forall i | 0 <= i < |s| ensures s[i] != '/' {}
  }

  lemma NewlineIn(mode: string, base: string)
    ensures '\n' in mode + "_" + base <==> '\n' in mode || '\n' in base
  {
  }

  // ---- bare file names ----------------------------------------------------------------------------

  /** filepath.Ext */
  function Ext(name: string): string {
    if name == "" || name[|name| - 1] == '/' then ""
    else if name[|name| - 1] == '.' then "."
    else var e := Ext(name[..|name| - 1]); if e == "" then "" else e + [name[|name| - 1]]
  }

  predicate HasSuffix(s: string, suffix: string) { |s| >= |suffix| && s[|s| - |suffix|..] == suffix }

  /** strings.TrimSuffix */
  function TrimSuffix(s: string, suffix: string): string {
    if HasSuffix(s, suffix) then s[..|s| - |suffix|] else s
  }

  const V2 := "_v2"

  function ModeOfStem(stem: string): string {
    if stem == "chat_request" || stem == "chat_request_v2" then "default"
    else if HasPrefix(stem, PREFIX) then TrimSuffix(stem[|PREFIX|..], V2)
    else stem
  }

  /** ModeFromFilename */
  function ModeOfName(name: string): string {
    if Parse(name).Some? then Parse(name).value.0 else ModeOfStem(TrimSuffix(BaseName(name), Ext(name)))
  }

  predicate SingleComponent(name: string) {
    name != "" && name != "." && name != ".." && '/' !in name
  }

  /** CatalogFilenamesForMode */
  function Names(mode: string, base: string): seq<string> {
    var m := ModeOr(mode);
    if TrimSpace(base) != "" then [WriteName(mode, TrimSpace(base))]
    else if m == "default" then [PREFIX + "v2" + SUFFIX, "chat_request" + SUFFIX]
    else if !SingleComponent(m) || Contains(m, "..") then []
    else [PREFIX + m + V2 + SUFFIX, PREFIX + m + SUFFIX, m + SUFFIX]
  }

  /** Which names are looked for, in which order: with a base id the one that carries it;
      for the default mode two; for any other the full, the short and the bare one, unless
      the mode is no plain file name. */
  lemma {:induction false} NamesListed(mode: string, base: string)
    ensures var m, b := TrimSpace(mode), TrimSpace(base);
      Names(mode, base) ==
        if b != "" then ["chat_request_" + (if m == "" then "default" else m) + "_" + b + ".json"]
        else if m == "" || m == "default" then ["chat_request_v2.json", "chat_request.json"]
        else if m == "." || '/' in m || Contains(m, "..") then []
        else ["chat_request_" + m + "_v2.json", "chat_request_" + m + ".json", m + ".json"]
  {
    hide TrimSpace;
    TrimTwice(base);
    hide Contains;
    var m := TrimSpace(mode);
    assert PREFIX + "v2" + SUFFIX == "chat_request_v2.json" && "chat_request" + SUFFIX == "chat_request.json";
    assert PREFIX + m + V2 + SUFFIX == "chat_request_" + m + "_v2.json";
    if m == ".." { TwoDots(); }
  }

  lemma TwoDots()
    ensures Contains("..", "..")
  {
    ContainsAt("..", "..", 0);
  }

  /** No part of a text behind its start reads like a base id. */
  ghost predicate Plain(core: string) { '\n' in core || forall i :: 0 < i ==> !MarkAt(core, i) }

  lemma ExtOf(x: string)
    ensures Ext(x + SUFFIX) == SUFFIX && TrimSuffix(x + SUFFIX, SUFFIX) == x
  {
    var s := x + SUFFIX;
    assert s == x + ".json";
    var a, b, d, e := x + ".jso", x + ".js", x + ".j", x + ".";
    assert s[..|s| - 1] == a && a[..|a| - 1] == b && b[..|b| - 1] == d && d[..|d| - 1] == e;
    assert Ext(e) == ".";
    assert Ext(d) == ".j";
    assert Ext(b) == ".js";
    assert Ext(a) == ".jso";
  }

  lemma ReadStem(x: string)
    requires '/' !in x
    ensures BaseName(x + SUFFIX) == x + SUFFIX && TrimSuffix(BaseName(x + SUFFIX), Ext(x + SUFFIX)) == x
  {
    hide Ext, BaseName, TrimSuffix;
    assert '/' !in SUFFIX by { forall i | 0 <= i < |SUFFIX| ensures SUFFIX[i] != '/' {} }
    var s := x + SUFFIX;
    assert '/' !in s && s != "";
    ExtOf(x);
  }

  /** What the lineage pattern makes of a prefixed name. */
  lemma ParsePrefixed(core: string)
    requires '/' !in core
    ensures var name := PREFIX + core + SUFFIX;
      && (Parse(name).None? <==> Plain(core))
      && (Parse(name).Some? ==> |Parse(name).value.0| < |core| && Parse(name).value.0 <= core
                                && MarkAt(core, |Parse(name).value.0|))
  {
    hide MarkAt, LastMark, BaseName;
    var name := PREFIX + core + SUFFIX;
    assert '/' !in PREFIX && '/' !in SUFFIX by {
      forall i | 0 <= i < |PREFIX| ensures PREFIX[i] != '/' {}
      forall i | 0 <= i < |SUFFIX| ensures SUFFIX[i] != '/' {}
    }
    assert '/' !in name && name != "";
    assert BaseName(name) == name;
    assert name[..|PREFIX|] == PREFIX;
    assert name[|name| - |SUFFIX|..] == SUFFIX;
    assert name[|PREFIX|..|name| - |SUFFIX|] == core;
    MarkInside(core);
  }

  lemma MarkInside(core: string)
    ensures forall i :: MarkAt(core, i) ==> i < |core|
  {
  }

  lemma SuffixBack(m: string)
    ensures TrimSuffix(m + V2, V2) == m
  {
    assert (m + V2)[|m|..] == V2;
  }

  /** The full name of a mode reads back as the mode unless the lineage pattern takes it for
      another one. */
  lemma {:induction false} FullNameBack(m: string)
    requires m != "" && '/' !in m
    ensures ModeOfName(PREFIX + m + V2 + SUFFIX) == m <==> Plain(m + V2)
  {
    hide Parse, ModeOfStem, BaseName, Ext, MarkAt, TrimSuffix, Plain;
    var core := m + V2;
    assert '/' !in V2 by { forall i | 0 <= i < |V2| ensures V2[i] != '/' {} }
    var stem := PREFIX + core;
    assert PREFIX + m + V2 + SUFFIX == stem + SUFFIX && PREFIX + core + SUFFIX == stem + SUFFIX;
    assert '/' !in PREFIX by { forall i | 0 <= i < |PREFIX| ensures PREFIX[i] != '/' {} }
    ParsePrefixed(core);
    ReadStem(stem);
    StemOfFull(m);
    NotV2(m);
  }

  lemma StemOfFull(m: string)
    requires m != ""
    ensures ModeOfStem(PREFIX + (m + V2)) == m
  {
    var stem := PREFIX + (m + V2);
    assert |stem| > |"chat_request_v2"|;
    assert stem[..|PREFIX|] == PREFIX && stem[|PREFIX|..] == m + V2;
    SuffixBack(m);
  }

  lemma NotV2(m: string)
    ensures !MarkAt(m + V2, |m|)
  {
    var core := m + V2;
    assert core[|m| + 1..] == "v2";
    assert "v2"[0] == 'v';
  }

  /** The short name does so unless, besides, the mode is or ends in the version mark. */
  lemma {:induction false} ShortNameBack(m: string)
    requires m != "" && '/' !in m && m != "default"
    ensures ModeOfName(PREFIX + m + SUFFIX) == m <==> Plain(m) && m != "v2" && !HasSuffix(m, V2)
  {
    hide Parse, ModeOfStem, BaseName, Ext, MarkAt, TrimSuffix, Plain, HasSuffix;
    var stem := PREFIX + m;
    assert '/' !in PREFIX by { forall i | 0 <= i < |PREFIX| ensures PREFIX[i] != '/' {} }
    ParsePrefixed(m);
    ReadStem(stem);
    StemOfShort(m);
  }

  lemma StemOfShort(m: string)
    requires m != "" && m != "default"
    ensures ModeOfStem(PREFIX + m) == m <==> m != "v2" && !HasSuffix(m, V2)
  {
    var stem := PREFIX + m;
    assert stem[..|PREFIX|] == PREFIX && stem[|PREFIX|..] == m;
    assert "chat_request_v2"[|PREFIX|..] == "v2";
    assert "chat_request_v2" == PREFIX + "v2";
    assert |stem| > |"chat_request"|;
    assert HasSuffix(m, V2) ==> |TrimSuffix(m, V2)| < |m|;
  }

  /** The bare name does so unless the mode itself looks like a catalog's name. */
  lemma {:induction false} BareNameBack(m: string)
    requires m != "" && '/' !in m && m != "default"
    ensures ModeOfName(m + SUFFIX) == m <==> m != "chat_request" && !HasPrefix(m, PREFIX)
  {
    hide ModeOfStem, BaseName, Ext, MarkAt, TrimSuffix, Plain, LastMark, ParseStem, Parse;
    ReadStem(m);
    if HasPrefix(m, PREFIX) {
      var core := m[|PREFIX|..];
      assert m + SUFFIX == PREFIX + core + SUFFIX;
      ParsePrefixed(core);
      StemOfPrefixed(m);
    } else {
      BareUnparsed(m);
      assert ModeOfStem(m) == m <==> m != "chat_request" by { StemOfBare(m); }
    }
  }

  lemma StemOfPrefixed(m: string)
    requires HasPrefix(m, PREFIX) && m != "default"
    ensures |ModeOfStem(m)| < |m|
  {
    assert |m[|PREFIX|..]| < |m|;
    assert |"chat_request_v2"| == 15 && |"default"| == 7 && |"chat_request"| == 12;
  }

  lemma StemOfBare(m: string)
    requires !HasPrefix(m, PREFIX) && m != "default"
    ensures ModeOfStem(m) == m <==> m != "chat_request"
  {
    assert HasPrefix("chat_request_v2", PREFIX) by { assert "chat_request_v2" == PREFIX + "v2"; }
  }

  lemma BareUnparsed(m: string)
    requires !HasPrefix(m, PREFIX) && '/' !in m
    ensures Parse(m + SUFFIX).None?
  {
    hide LastMark, BaseName;
    ReadStem(m);
    var name := m + SUFFIX;
    assert |m| >= |PREFIX| ==> name[..|PREFIX|] == m[..|PREFIX|];
  }

  /** Listing and reading are inverse: the names of a mode without a base id read back as the
      mode, each exactly under its own condition, and those of the default mode always. */
  lemma {:induction false} NamesReadBack(mode: string, base: string)
    requires TrimSpace(base) == ""
    ensures var m, names := ModeOr(mode), Names(mode, base);
      && (m == "default" ==> |names| == 2 && ModeOfName(names[0]) == m && ModeOfName(names[1]) == m)
      && (m != "default" && names != [] ==>
            && |names| == 3
            && (ModeOfName(names[0]) == m <==> Plain(m + V2))
            && (ModeOfName(names[1]) == m <==> Plain(m) && m != "v2" && !HasSuffix(m, V2))
            && (ModeOfName(names[2]) == m <==> m != "chat_request" && !HasPrefix(m, PREFIX)))
  {
    hide ModeOfName, TrimSpace, Contains, Plain, HasSuffix;
    var m := ModeOr(mode);
    if m == "default" {
      DefaultBack();
    } else if Names(mode, base) != [] {
      FullNameBack(m);
      ShortNameBack(m);
      BareNameBack(m);
    }
  }

  lemma DefaultBack()
    ensures ModeOfName(PREFIX + "v2" + SUFFIX) == "default" && ModeOfName("chat_request" + SUFFIX) == "default"
  {
    hide BaseName, Ext, TrimSuffix, Parse, MarkAt;
    var v, c := "v2", "chat_request";
    assert '/' !in v by { forall i | 0 <= i < |v| ensures v[i] != '/' {} }
    assert '/' !in c by { forall i | 0 <= i < |c| ensures c[i] != '/' {} }
    assert '/' !in PREFIX by { forall i | 0 <= i < |PREFIX| ensures PREFIX[i] != '/' {} }
    ParsePrefixed(v);
    VersionIsPlain();
    ReadStem(PREFIX + v);
    assert PREFIX + v == "chat_request_v2";
    ReadStem(c);
    assert !HasPrefix(c, PREFIX) by { assert |c| < |PREFIX|; }
    BareUnparsed(c);
  }

  lemma VersionIsPlain()
    ensures Plain("v2")
  {
    forall i | 0 < i ensures !MarkAt("v2", i) {
      assert "v2"[1] == '2';
    }
  }
}
