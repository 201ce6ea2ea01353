/** Catalog lookup on a file system and the memo in front of it (domain/catalog.go,
    adapters/catalogfs/store.go, api/catalog.go). */
module CatalogMemo {
  import opened Collections
  import opened Text
  import opened CatalogNames
  import opened FilePath

  /** A cleaned path. */
  type Path = string

  datatype File = File(content: string, mtime: int)

  /** The regular files. */
  type Fs = map<Path, File>

  datatype Key = Key(mode: string, bucket: string, scope: string, base: string)

  datatype Dirs = Dirs(user: string, bundled: string)

  // ---- resolution -------------------------------------------------------------------------------

  function Locations(d: Dirs, k: Key): seq<string> {
    (if k.bucket != "" && k.scope != "" then
       [Join(d.user, ScopeSubdir(k.bucket, k.scope)), Join(Join(d.user, ScopeSubdir(k.bucket, k.scope)), "min")]
     else [])
    + [d.user, Join(d.user, "min")]
    + (if d.bundled != "" then [d.bundled, Join(d.bundled, "min")] else [])
  }

  function InDir(dir: string, names: seq<string>): seq<Path> {
    seq(|names|, i requires 0 <= i < |names| => Join(dir, names[i]))
  }

  /** All candidates, location by location. */
  function Candidates(locations: seq<string>, names: seq<string>): seq<Path>
    decreases |locations|
  {
    if locations == [] then []
    else Candidates(locations[..|locations| - 1], names) + InDir(locations[|locations| - 1], names)
  }

  function FirstIn(fs: Fs, paths: seq<Path>): Option<Path> {
    if paths == [] then None else if paths[0] in fs then Some(paths[0]) else FirstIn(fs, paths[1..])
  }

  function Resolve(fs: Fs, d: Dirs, k: Key): Option<Path> {
    FirstIn(fs, Candidates(Locations(d, k), Names(k.mode, k.base)))
  }

  lemma {:induction false} FirstInConcat(fs: Fs, a: seq<Path>, b: seq<Path>)
    ensures FirstIn(fs, a + b) == if FirstIn(fs, a).Some? then FirstIn(fs, a) else FirstIn(fs, b)
  {
    if a == [] {
      assert a + b == b;
    } else {
      assert (a + b)[1..] == a[1..] + b;
      FirstInConcat(fs, a[1..], b);
    }
  }

  /** The locations in order, appended one by one. */
  method LocationList(d: Dirs, k: Key) returns (locations: seq<string>)
    ensures locations == Locations(d, k)
  {
    hide Join, ScopeSubdir;
    locations := [];
    if k.bucket != "" && k.scope != "" {
      var scopeDir := Join(d.user, ScopeSubdir(k.bucket, k.scope));
      locations := locations + [scopeDir, Join(scopeDir, "min")];
    }
    locations := locations + [d.user, Join(d.user, "min")];
    if d.bundled != "" { locations := locations + [d.bundled, Join(d.bundled, "min")]; }
  }

  /** ResolveCatalogPath: two nested loops. */
  method ResolveCatalogPath(fs: Fs, d: Dirs, k: Key) returns (r: Option<Path>)
    ensures r == Resolve(fs, d, k)
  {
    hide FirstIn, Names, Locations, Join;
    var names := Names(k.mode, k.base);
    var locations := LocationList(d, k);
    NoneIn(fs);
    for l := 0 to |locations|
      invariant FirstIn(fs, Candidates(locations[..l], names)) == None
    {
      assert locations[..l + 1][..l] == locations[..l];
      ghost var before, here := Candidates(locations[..l], names), InDir(locations[l], names);
      assert here[..0] == [];
      for n := 0 to |names|
        invariant FirstIn(fs, here[..n]) == None
      {
        var p := Join(locations[l], names[n]);
        assert here[..n + 1] == here[..n] + [p];
        FirstInConcat(fs, here[..n], [p]);
        OneIn(fs, p);
        if p in fs {
          FirstInConcat(fs, here[..n + 1], here[n + 1..]);
          assert here[..n + 1] + here[n + 1..] == here;
          FirstInConcat(fs, before, here);
          CandidatesPrefix(fs, locations, names, l + 1);
          return Some(p);
        }
      }
      assert here[..|names|] == here;
      FirstInConcat(fs, before, here);
    }
    assert locations[..|locations|] == locations;
    r := None;
  }

  lemma NoneIn(fs: Fs)
    ensures FirstIn(fs, []) == None
  {
  }

  lemma OneIn(fs: Fs, p: Path)
    ensures FirstIn(fs, [p]) == if p in fs then Some(p) else None
  {
  }

  lemma {:induction false} CandidatesPrefix(fs: Fs, locations: seq<string>, names: seq<string>, l: nat)
    requires l <= |locations| && FirstIn(fs, Candidates(locations[..l], names)).Some?
    ensures FirstIn(fs, Candidates(locations, names)) == FirstIn(fs, Candidates(locations[..l], names))
    decreases |locations|
  {
    hide FirstIn;
    if l < |locations| {
      var front := locations[..|locations| - 1];
      assert front[..l] == locations[..l];
      CandidatesPrefix(fs, front, names, l);
      FirstInConcat(fs, Candidates(front, names), InDir(locations[|locations| - 1], names));
    } else {
      assert locations[..l] == locations;
    }
  }

  /** The resolved path exists, and no candidate before it does: a location outranks every
      later one, whatever the names. */
  lemma {:induction false} ResolveIsFirst(fs: Fs, paths: seq<Path>)
    ensures FirstIn(fs, paths) == None <==> forall i :: 0 <= i < |paths| ==> paths[i] !in fs
    ensures FirstIn(fs, paths).Some? ==>
      exists i :: 0 <= i < |paths| && paths[i] == FirstIn(fs, paths).value && paths[i] in fs
                  && forall j :: 0 <= j < i ==> paths[j] !in fs
  {
    if paths != [] {
      ResolveIsFirst(fs, paths[1..]);
      if paths[0] !in fs && FirstIn(fs, paths).Some? {
        var i :| 0 <= i < |paths[1..]| && paths[1..][i] == FirstIn(fs, paths[1..]).value && paths[1..][i] in fs
          && forall j :: 0 <= j < i ==> paths[1..][j] !in fs;
        assert paths[i + 1] == paths[1..][i];
        forall j | 0 <= j < i + 1 ensures paths[j] !in fs {
          if j > 0 { assert paths[j] == paths[1..][j - 1]; }
        }
      }
    }
  }

  lemma SingleLocation(l: string, names: seq<string>)
    ensures Candidates([l], names) == InDir(l, names)
  {
    assert [l][..0] == [];
  }

  predicate Scoped(k: Key) { k.bucket != "" && k.scope != "" }

  /** Where Save writes: always into the scope's directory, even when that has no name. */
  function SavedPath(d: Dirs, k: Key): Path {
    Join(Join(d.user, ScopeSubdir(k.bucket, k.scope)), WriteName(k.mode, k.base))
  }

  function BundledCandidates(d: Dirs, k: Key): seq<Path> {
    Candidates(if d.bundled != "" then [d.bundled, Join(d.bundled, "min")] else [], Names(k.mode, k.base))
  }

  /** Without a scope the file is found only where its path, once cleaned, is that of the
      same name in the user directory, or of the same name in `min` with none of the names
      in the user directory. */
  predicate FoundAtTop(fs: Fs, d: Dirs, k: Key) {
    var w := WriteName(k.mode, k.base);
    || SavedPath(d, k) == Join(d.user, w)
    || (SavedPath(d, k) == Join(Join(d.user, "min"), w)
        && forall n :: n in Names(k.mode, k.base) ==> Join(d.user, n) !in fs)
  }

  /** What was saved for a scope is what resolves for it, over anything else on disk. In
      general, and unless the bundled directory happens to hold the very path, what was
      saved resolves exactly when its mode has names and it has a scope or is found at the
      top. */
  lemma {:induction false} SavedIsResolved(fs: Fs, d: Dirs, k: Key, file: File)
    ensures var now := fs[SavedPath(d, k) := file];
      && (Scoped(k) && Names(k.mode, k.base) != [] ==> Resolve(now, d, k) == Some(SavedPath(d, k)))
      && (SavedPath(d, k) !in BundledCandidates(d, k) ==>
            (Resolve(now, d, k) == Some(SavedPath(d, k)) <==>
               Names(k.mode, k.base) != [] && (Scoped(k) || FoundAtTop(fs, d, k))))
  {
    hide Resolve, Names, SavedPath, Candidates, FoundAtTop;
    if Names(k.mode, k.base) == [] {
      Nameless(fs[SavedPath(d, k) := file], d, k);
    } else if Scoped(k) {
      SavedFirst(fs, d, k, file);
    } else if SavedPath(d, k) !in BundledCandidates(d, k) {
      SavedAtTop(fs, d, k, file);
    }
  }

  lemma SavedFirst(fs: Fs, d: Dirs, k: Key, file: File)
    requires Scoped(k) && Names(k.mode, k.base) != []
    ensures Resolve(fs[SavedPath(d, k) := file], d, k) == Some(SavedPath(d, k))
  {
    hide ScopeSubdir, Join, TrimSpace, Contains;
    TrimTwice(k.base);
    var path := SavedPath(d, k);
    var names, locations := Names(k.mode, k.base), Locations(d, k);
    var now := fs[path := file];
    assert locations[0] == Join(d.user, ScopeSubdir(k.bucket, k.scope));
    assert names[0] == WriteName(k.mode, k.base);
    hide WriteName, Names, Locations;
    assert locations[..1] == [locations[0]];
    SingleLocation(locations[0], names);
    assert Candidates(locations[..1], names)[0] == path;
    CandidatesPrefix(now, locations, names, 1);
  }

  lemma {:induction false} Nameless(fs: Fs, d: Dirs, k: Key)
    requires Names(k.mode, k.base) == []
    ensures Resolve(fs, d, k) == None
  {
    hide Names, Locations;
    NoCandidates(Locations(d, k));
  }

  lemma {:induction false} NoCandidates(locations: seq<string>)
    ensures Candidates(locations, []) == []
    decreases |locations|
  {
    if locations != [] { NoCandidates(locations[..|locations| - 1]); }
  }

  lemma {:induction false} CandidatesConcat(a: seq<string>, b: seq<string>, names: seq<string>)
    ensures Candidates(a + b, names) == Candidates(a, names) + Candidates(b, names)
    decreases |b|
  {
    hide InDir;
    if b == [] {
      assert a + b == a;
    } else {
      var n := |b| - 1;
      CandidatesConcat(a, b[..n], names);
      assert (a + b)[..|a + b| - 1] == a + b[..n];
    }
  }

  /** Without a scope the user directory comes first, then its `min`, then the bundle. */
  lemma TopCandidates(fs: Fs, d: Dirs, k: Key)
    requires !Scoped(k)
    ensures var here, min := InDir(d.user, Names(k.mode, k.base)), InDir(Join(d.user, "min"), Names(k.mode, k.base));
      Resolve(fs, d, k) == if FirstIn(fs, here).Some? then FirstIn(fs, here)
                           else if FirstIn(fs, min).Some? then FirstIn(fs, min)
                           else FirstIn(fs, BundledCandidates(d, k))
  {
    hide Names, Join, InDir, FirstIn;
    var names := Names(k.mode, k.base);
    var min := Join(d.user, "min");
    var bundled := if d.bundled != "" then [d.bundled, Join(d.bundled, "min")] else [];
    assert Locations(d, k) == [d.user] + ([min] + bundled);
    CandidatesConcat([d.user], [min] + bundled, names);
    CandidatesConcat([min], bundled, names);
    SingleLocation(d.user, names);
    SingleLocation(min, names);
    hide Candidates;
    FirstInConcat(fs, InDir(d.user, names), InDir(min, names) + Candidates(bundled, names));
    FirstInConcat(fs, InDir(min, names), Candidates(bundled, names));
  }

  lemma SavedAtTop(fs: Fs, d: Dirs, k: Key, file: File)
    requires !Scoped(k) && Names(k.mode, k.base) != [] && SavedPath(d, k) !in BundledCandidates(d, k)
    ensures Resolve(fs[SavedPath(d, k) := file], d, k) == Some(SavedPath(d, k)) <==> FoundAtTop(fs, d, k)
  {
    hide Names, SavedPath, BundledCandidates, Join, FirstIn, Resolve, WriteName, InDir;
    var path, w := SavedPath(d, k), WriteName(k.mode, k.base);
    var now := fs[path := file];
    var names := Names(k.mode, k.base);
    var here, min := InDir(d.user, names), InDir(Join(d.user, "min"), names);
    TopCandidates(now, d, k);
    OnlyWritten(d, k, d.user);
    OnlyWritten(d, k, Join(d.user, "min"));
    InDirIs(d.user, names);
    if path == Join(d.user, w) {
      assert FirstIn(now, here) == Some(path);
    } else if exists n :: n in names && Join(d.user, n) in fs {
      FirstInIs(now, here);
    } else {
      FirstInIs(now, here);
      FirstInIs(now, min);
      FirstInIs(now, BundledCandidates(d, k));
    }
  }

  lemma InDirIs(l: string, names: seq<string>)
    ensures forall n :: n in names ==> Join(l, n) in InDir(l, names)
    ensures forall p :: p in InDir(l, names) ==> exists n :: n in names && p == Join(l, n)
  {
    hide Join;
    forall n | n in names ensures Join(l, n) in InDir(l, names) {
      var i :| 0 <= i < |names| && names[i] == n;
      assert InDir(l, names)[i] == Join(l, n);
    }
  }

  lemma {:induction false} FirstInIs(fs: Fs, paths: seq<Path>)
    ensures FirstIn(fs, paths) == None <==> forall p :: p in paths ==> p !in fs
    ensures FirstIn(fs, paths).Some? ==> FirstIn(fs, paths).value in paths && FirstIn(fs, paths).value in fs
  {
    if paths != [] { FirstInIs(fs, paths[1..]); }
  }

  /** In a location that names the saved path it is the first that is looked at. */
  lemma OnlyWritten(d: Dirs, k: Key, l: string)
    requires Names(k.mode, k.base) != []
    ensures var here := InDir(l, Names(k.mode, k.base));
      && (SavedPath(d, k) in here <==> SavedPath(d, k) == Join(l, WriteName(k.mode, k.base)))
      && (SavedPath(d, k) in here ==>
            forall fs: Fs :: SavedPath(d, k) in fs ==> FirstIn(fs, here) == Some(SavedPath(d, k)))
  {
    hide Join, FirstIn, TrimSpace, Contains;
    TrimTwice(k.base);
    var names, w := Names(k.mode, k.base), WriteName(k.mode, k.base);
    assert names[0] == w;
    hide Names, WriteName, Element;
    var dir := Join(d.user, ScopeSubdir(k.bucket, k.scope));
    var here := InDir(l, names);
    InDirIs(l, names);
    forall n | n in names && Join(dir, w) == Join(l, n) ensures n == w {
      NameShape(k.mode, k.base, n);
      if Element(n) && Element(w) { LastElement(dir, l, w, n); }
    }
    forall fs: Fs | SavedPath(d, k) in here && SavedPath(d, k) in fs ensures FirstIn(fs, here) == Some(SavedPath(d, k)) {
      FirstIs(fs, here);
    }
  }

  lemma FirstIs(fs: Fs, paths: seq<Path>)
    requires paths != [] && paths[0] in fs
    ensures FirstIn(fs, paths) == Some(paths[0])
  {
  }

  /** Two names of one element that differ never meet, in whatever directories. */
  lemma LastElement(a: string, b: string, x: string, y: string)
    requires Element(x) && Element(y) && Join(a, x) == Join(b, y)
    ensures x == y
  {
    hide Join, Element, Parts;
    JoinElement(a, x);
    JoinElement(b, y);
    assert (Parts(a) + [x])[|Parts(a) + [x]| - 1] == x;
    assert (Parts(b) + [y])[|Parts(b) + [y]| - 1] == y;
  }

  lemma NameShape(mode: string, base: string, name: string)
    requires name in Names(mode, base)
    ensures name == WriteName(mode, base) || (Element(name) && Element(WriteName(mode, base)))
  {
    hide TrimSpace, Contains;
    TrimTwice(base);
    NoSlashParts();
  }

  lemma NoSlashParts()
    ensures '/' !in PREFIX && '/' !in SUFFIX && '/' !in "chat_request" && '/' !in "_v2" && '/' !in "v2"
  {
    forall i | 0 <= i < |PREFIX| ensures PREFIX[i] != '/' {}
    forall i | 0 <= i < |SUFFIX| ensures SUFFIX[i] != '/' {}
    var c := "chat_request";
    forall i | 0 <= i < |c| ensures c[i] != '/' {}
    var v, w := "_v2", "v2";
    forall i | 0 <= i < |v| ensures v[i] != '/' {}
    forall i | 0 <= i < |w| ensures w[i] != '/' {}
  }

  /** Without slashes in the key nothing is found at the top: what was saved without a
      bucket or a scope never resolves. */
  lemma {:induction false} FlatIsLost(fs: Fs, d: Dirs, k: Key)
    requires '/' !in k.bucket && '/' !in k.scope && '/' !in k.mode && '/' !in k.base
    ensures !FoundAtTop(fs, d, k)
  {
    hide WriteName, Join, Element, Parts;
    var dir, w := ScopeSubdir(k.bucket, k.scope), WriteName(k.mode, k.base);
    SubdirIsElement(k.bucket, k.scope);
    WrittenIsElement(k.mode, k.base);
    MinIsElement();
    JoinElement(d.user, dir);
    JoinElement(Join(d.user, dir), w);
    JoinElement(d.user, w);
    JoinElement(d.user, "min");
    JoinElement(Join(d.user, "min"), w);
    var u := Parts(d.user);
    assert Parts(SavedPath(d, k))[|u|] == dir;
    assert |Parts(SavedPath(d, k))| == |u| + 2;
    assert Parts(Join(Join(d.user, "min"), w))[|u|] == "min";
    assert '_' !in "min";
  }

  lemma MinIsElement()
    ensures Element("min")
  {
    var m := "min";
    forall i | 0 <= i < |m| ensures m[i] != '/' {}
  }

  lemma SubdirIsElement(bucket: string, scope: string)
    requires '/' !in bucket && '/' !in scope
    ensures '_' in ScopeSubdir(bucket, scope) && Element(ScopeSubdir(bucket, scope))
  {
    var dir := ScopeSubdir(bucket, scope);
    assert dir[|bucket|] == '_';
    forall i | 0 <= i < |dir| ensures dir[i] != '/' {
      if i >= |bucket| + 2 { assert dir[i] == ScopeTail(scope)[i - |bucket| - 2]; }
    }
  }

  lemma WrittenIsElement(mode: string, base: string)
    requires '/' !in mode && '/' !in base
    ensures Element(WriteName(mode, base))
  {
    NoSlashParts();
    TrimShorter(mode);
    TrimShorter(base);
    hide TrimSpace;
    var df := "default";
    forall i | 0 <= i < |df| ensures df[i] != '/' {}
  }

  /** A scope directory that cleans to the user directory itself is no scope: what is saved
      there is found. */
  lemma {:induction false} RootScopeResolves(fs: Fs, d: Dirs, k: Key, file: File)
    requires !Scoped(k) && Names(k.mode, k.base) != [] && '/' !in k.mode && '/' !in k.base
    requires var dir := Join(d.user, ScopeSubdir(k.bucket, k.scope));
             Rooted(dir) == Rooted(d.user) && Parts(dir) == Parts(d.user)
    ensures Resolve(fs[SavedPath(d, k) := file], d, k) == Some(SavedPath(d, k))
  {
    hide Names, WriteName, Join, Resolve, Parts, Show, Element, Rooted, ScopeSubdir;
    var w := WriteName(k.mode, k.base);
    WrittenIsElement(k.mode, k.base);
    JoinElement(Join(d.user, ScopeSubdir(k.bucket, k.scope)), w);
    JoinElement(d.user, w);
    OnlyWritten(d, k, d.user);
    TopCandidates(fs[SavedPath(d, k) := file], d, k);
  }

  /** So it is with the scope "/.." and no bucket, for every user directory. */
  lemma {:induction false} SlashedScopeIsRoot(user: string)
    ensures var dir := Join(user, ScopeSubdir("", "/" + ".."));
      Rooted(dir) == Rooted(user) && Parts(dir) == Parts(user)
  {
    var scope := "/" + "..";
    assert scope[0] == '/';
    assert ScopeSubdir("", scope) == "__" + "/" + "..";
    DownAndUp(user);
  }

  lemma DownAndUp(dir: string)
    ensures var up := Join(dir, "__" + "/" + "..");
      Rooted(up) == Rooted(dir) && Parts(up) == Parts(dir)
  {
    assert Element("__") by { assert '/' !in "__" by { forall i | 0 <= i < 2 ensures "__"[i] != '/' {} } }
    hide Split, Show, Element, Rooted, Parts;
    if dir == "" {
      AloneElement("__");
      UpFrom("__", "");
      CleanBack("__" + "/" + "..");
    } else {
      ElementBehind(dir, "__");
      UpFrom(dir + "/" + "__", dir);
      assert dir + "/" + "__" + "/" + ".." == dir + "/" + ("__" + "/" + "..");
      CleanBack(dir + "/" + ("__" + "/" + ".."));
    }
  }

  lemma UpFrom(below: string, dir: string)
    requires below != "" && Rooted(below) == Rooted(dir) && Parts(below) == Parts(dir) + ["__"]
    ensures Rooted(below + "/" + "..") == Rooted(dir) && Parts(below + "/" + "..") == Parts(dir)
  {
    hide Parts, Rooted;
    assert "__"[0] != ".."[0];
    UpAgain(below);
    assert (Parts(dir) + ["__"])[..|Parts(dir)|] == Parts(dir);
  }

  // ---- loading ----------------------------------------------------------------------------------

  datatype Loaded = Loaded(path: Path, body: string, schema: string)

  /** Decoding a document for a key (None is an error: unreadable, wrong lineage, below the
      floor), and the schema that sibling files of a path make up. */
  datatype Codec = Codec(prepare: (Key, Path, string) -> Option<string>, siblings: (Path, map<Path, string>) -> string)

  function Contents(fs: Fs): map<Path, string> { map p | p in fs :: fs[p].content }

  function ReadAt(c: Codec, fs: Fs, k: Key, p: Path): Option<Loaded>
    requires p in fs
  {
    match c.prepare(k, p, fs[p].content)
    case None => None
    case Some(body) => Some(Loaded(p, body, c.siblings(p, Contents(fs))))
  }

  /** Load without the memo. */
  function Uncached(c: Codec, fs: Fs, d: Dirs, k: Key): (r: Option<Loaded>) {
    match Resolve(fs, d, k)
    case None => None
    case Some(p) => if p in fs then ReadAt(c, fs, k, p) else None
  }

  // ---- the memo ---------------------------------------------------------------------------------

  /** catalogMemoKey */
  function MemoKey(k: Key): string {
    k.mode + "\0" + (k.bucket + "\0" + (k.scope + "\0" + k.base))
  }

  predicate NulFree(k: Key) { '\0' !in k.mode && '\0' !in k.bucket && '\0' !in k.scope }

  lemma {:induction false} SplitAtNul(a: string, x: string, b: string, y: string)
    requires '\0' !in a && '\0' !in b && a + "\0" + x == b + "\0" + y
    ensures a == b && x == y
  {
    var s := a + "\0" + x;
    assert s[|a|] == '\0' && s[|b|] == '\0';
    assert forall i :: 0 <= i < |a| ==> s[i] == a[i];
    assert forall i :: 0 <= i < |b| ==> s[i] == b[i];
    assert s[..|a|] == a && s[..|b|] == b;
    assert s[|a| + 1..] == x && s[|b| + 1..] == y;
  }

  /** Keys without NUL characters never share a memo entry. */
  lemma {:induction false} MemoKeyInjective(k: Key, m: Key)
    requires NulFree(k) && NulFree(m) && MemoKey(k) == MemoKey(m)
    ensures k == m
  {
    SplitAtNul(k.mode, k.bucket + "\0" + (k.scope + "\0" + k.base), m.mode, m.bucket + "\0" + (m.scope + "\0" + m.base));
    SplitAtNul(k.bucket, k.scope + "\0" + k.base, m.bucket, m.scope + "\0" + m.base);
    SplitAtNul(k.scope, k.base, m.scope, m.base);
  }

  datatype Entry = Entry(path: Path, mtime: int, loaded: Loaded)

  type Memo = map<string, Entry>

  predicate Fresh(fs: Fs, e: Entry) { e.path != "" && e.path in fs && fs[e.path].mtime == e.mtime }

  /** cacheHit: a stale entry is dropped. */
  function Hit(fs: Fs, m: Memo, k: Key): Option<Loaded> {
    if MemoKey(k) in m && Fresh(fs, m[MemoKey(k)]) then Some(m[MemoKey(k)].loaded) else None
  }

  function AfterHit(fs: Fs, m: Memo, k: Key): Memo {
    if MemoKey(k) in m && m[MemoKey(k)].path != "" && !Fresh(fs, m[MemoKey(k)]) then m - {MemoKey(k)} else m
  }

  function Remember(fs: Fs, m: Memo, k: Key, l: Loaded): Memo {
    if TrimSpace(l.path) == "" || l.path !in fs then m else m[MemoKey(k) := Entry(l.path, fs[l.path].mtime, l)]
  }

  class CatalogApi {
    var cache: Memo

    constructor ()
      ensures cache == map[]
    {
      cache := map[];
    }

    method CacheHit(fs: Fs, k: Key) returns (r: Option<Loaded>)
      modifies this
      ensures r == Hit(fs, old(cache), k) && cache == AfterHit(fs, old(cache), k)
    {
      hide MemoKey;
      var key := MemoKey(k);
      if key !in cache || cache[key].path == "" { return None; }
      var ent := cache[key];
      if ent.path !in fs || fs[ent.path].mtime != ent.mtime {
        cache := cache - {key};
        return None;
      }
      return Some(ent.loaded);
    }

    /** Load: the file system is looked at when the memo is checked and the file is read
        (`fs`), and once more when the result is remembered (`later`). */
    method Load(c: Codec, fs: Fs, later: Fs, d: Dirs, k: Key) returns (r: Option<Loaded>)
      modifies this
      ensures Hit(fs, old(cache), k).Some? ==> r == Hit(fs, old(cache), k) && cache == old(cache)
      ensures Hit(fs, old(cache), k).None? ==>
        r == Uncached(c, fs, d, k)
        && cache == if r.None? then AfterHit(fs, old(cache), k) else Remember(later, AfterHit(fs, old(cache), k), k, r.value)
    {
      hide MemoKey, Resolve, TrimSpace;
      r := CacheHit(fs, k);
      if r.Some? { return; }
      var path := ResolveCatalogPath(fs, d, k);
      if path == None || path.value !in fs { return None; }
      r := ReadAt(c, fs, k, path.value);
      if r.Some? && TrimSpace(r.value.path) != "" && r.value.path in later {
        cache := cache[MemoKey(k) := Entry(r.value.path, later[r.value.path].mtime, r.value)];
      }
    }
  }

  // ---- coherence --------------------------------------------------------------------------------

  /** Every version that a path ever had, by modification time. */
  type History = map<(Path, int), string>

  datatype Sys = Sys(fs: Fs, memo: Memo, history: History)

  datatype Change = Write(path: Path, content: string, mtime: int) | Remove(path: Path)

  function Changed(s: Sys, ch: Change): Sys {
    match ch
    case Write(p, content, t) => s.(fs := s.fs[p := File(content, t)], history := s.history[(p, t) := content])
    case Remove(p) => s.(fs := s.fs - {p})
  }

  /** A write gets a modification time that its path never had. */
  predicate NewTime(s: Sys, ch: Change) {
    ch.Write? ==> (ch.path, ch.mtime) !in s.history
  }

  function ChangedAll(s: Sys, chs: seq<Change>): Sys
    decreases |chs|
  {
    if chs == [] then s else Changed(ChangedAll(s, chs[..|chs| - 1]), chs[|chs| - 1])
  }

  predicate NewTimes(s: Sys, chs: seq<Change>)
    decreases |chs|
  {
    chs == [] || (NewTimes(s, chs[..|chs| - 1]) && NewTime(ChangedAll(s, chs[..|chs| - 1]), chs[|chs| - 1]))
  }

  predicate Leaves(chs: seq<Change>, p: Path) {
    forall i :: 0 <= i < |chs| ==> chs[i].path != p
  }

  /** A load with what happens on disk between its read and its last look. */
  datatype Step = Disk(change: Change) | Load(key: Key, during: seq<Change>)

  /** No write falls on the loaded path between read and look. */
  predicate Enabled(c: Codec, d: Dirs, s: Sys, step: Step) {
    match step
    case Disk(ch) => NewTime(s, ch)
    case Load(k, during) =>
      NulFree(k) && NewTimes(s, during)
      && (var r := Uncached(c, s.fs, d, k); r.Some? ==> Leaves(during, r.value.path))
  }

  function Apply(c: Codec, d: Dirs, s: Sys, step: Step): Sys {
    match step
    case Disk(ch) => Changed(s, ch)
    case Load(k, during) =>
      var later := ChangedAll(s, during);
      if Hit(s.fs, s.memo, k).Some? then later
      else
        var r := Uncached(c, s.fs, d, k);
        var memo := AfterHit(s.fs, s.memo, k);
        later.(memo := if r.None? then memo else Remember(later.fs, memo, k, r.value))
  }

  /** The disk shows the version of its time; a memo entry holds what the version of its
      time says to its key. */
  ghost predicate Inv(c: Codec, s: Sys) {
    && (forall p :: p in s.fs ==> (p, s.fs[p].mtime) in s.history && s.history[(p, s.fs[p].mtime)] == s.fs[p].content)
    && (forall k :: NulFree(k) && MemoKey(k) in s.memo ==>
          var e := s.memo[MemoKey(k)];
          && (e.path, e.mtime) in s.history && e.loaded.path == e.path
          && c.prepare(k, e.path, s.history[(e.path, e.mtime)]) == Some(e.loaded.body))
  }

  lemma ChangeKeeps(c: Codec, s: Sys, ch: Change)
    requires Inv(c, s) && NewTime(s, ch)
    ensures Inv(c, Changed(s, ch)) && Changed(s, ch).memo == s.memo
    ensures forall v :: v in s.history ==> v in Changed(s, ch).history && Changed(s, ch).history[v] == s.history[v]
    ensures forall p :: p != ch.path ==> (p in Changed(s, ch).fs <==> p in s.fs) && (p in s.fs ==> Changed(s, ch).fs[p] == s.fs[p])
  {
    hide MemoKey;
  }

  lemma {:induction false} ChangesKeep(c: Codec, s: Sys, chs: seq<Change>, p: Path)
    requires Inv(c, s) && NewTimes(s, chs)
    ensures Inv(c, ChangedAll(s, chs)) && ChangedAll(s, chs).memo == s.memo
    ensures forall v :: v in s.history ==> v in ChangedAll(s, chs).history && ChangedAll(s, chs).history[v] == s.history[v]
    ensures Leaves(chs, p) && p in s.fs ==> p in ChangedAll(s, chs).fs && ChangedAll(s, chs).fs[p] == s.fs[p]
    decreases |chs|
  {
    hide Inv, Changed, NewTime;
    if chs != [] {
      var front := chs[..|chs| - 1];
      ChangesKeep(c, s, front, p);
      ChangeKeeps(c, ChangedAll(s, front), chs[|chs| - 1]);
    }
  }

  lemma StepKeeps(c: Codec, d: Dirs, s: Sys, step: Step)
    requires Inv(c, s) && Enabled(c, d, s, step)
    ensures Inv(c, Apply(c, d, s, step))
  {
    hide MemoKey, Resolve, TrimSpace, Changed, ChangedAll, NewTimes, NewTime, Leaves, NulFree;
    match step {
      case Disk(ch) => ChangeKeeps(c, s, ch);
      case Load(k, during) =>
        var r := Uncached(c, s.fs, d, k);
        ChangesKeep(c, s, during, if r.Some? then r.value.path else "");
        if Hit(s.fs, s.memo, k).None? && r.Some? {
          RememberKeeps(c, ChangedAll(s, during), AfterHit(s.fs, s.memo, k), k, r.value);
        }
    }
  }

  lemma RememberKeeps(c: Codec, s: Sys, memo: Memo, k: Key, l: Loaded)
    requires Inv(c, s) && NulFree(k)
    requires forall x :: x in memo ==> x in s.memo && memo[x] == s.memo[x]
    requires l.path in s.fs && c.prepare(k, l.path, s.fs[l.path].content) == Some(l.body)
    ensures Inv(c, s.(memo := Remember(s.fs, memo, k, l)))
  {
    hide MemoKey, TrimSpace, NulFree;
    var m := Remember(s.fs, memo, k, l);
    forall j | NulFree(j) && MemoKey(j) in m
      ensures var e := m[MemoKey(j)];
        && (e.path, e.mtime) in s.history && e.loaded.path == e.path
        && c.prepare(j, e.path, s.history[(e.path, e.mtime)]) == Some(e.loaded.body)
    {
      if MemoKey(j) == MemoKey(k) { MemoKeyInjective(j, k); }
    }
  }

  ghost predicate Legal(c: Codec, d: Dirs, steps: seq<Step>)
    decreases |steps|, 0
  {
    steps == [] || (Legal(c, d, steps[..|steps| - 1]) && Enabled(c, d, After(c, d, steps[..|steps| - 1]), steps[|steps| - 1]))
  }

  ghost function After(c: Codec, d: Dirs, steps: seq<Step>): Sys
    requires Legal(c, d, steps)
    decreases |steps|, 1
  {
    if steps == [] then Sys(map[], map[], map[]) else Apply(c, d, After(c, d, steps[..|steps| - 1]), steps[|steps| - 1])
  }

  lemma {:induction false} Invariant(c: Codec, d: Dirs, steps: seq<Step>)
    requires Legal(c, d, steps)
    ensures Inv(c, After(c, d, steps))
    decreases |steps|
  {
    hide Apply, Enabled;
    if steps != [] {
      Invariant(c, d, steps[..|steps| - 1]);
      StepKeeps(c, d, After(c, d, steps[..|steps| - 1]), steps[|steps| - 1]);
    }
  }

  /** Over every run of loads and writes: what a hit returns is what the file at its path
      now says to the key; and it is what an uncached load would return exactly when that
      path is still the one that resolves and the sibling schema reads the same. */
  lemma {:induction false} HitIsCoherent(c: Codec, d: Dirs, steps: seq<Step>, k: Key)
    requires Legal(c, d, steps) && NulFree(k)
    requires Hit(After(c, d, steps).fs, After(c, d, steps).memo, k).Some?
    ensures var s := After(c, d, steps);
      var l := Hit(s.fs, s.memo, k).value;
      && l.path in s.fs && c.prepare(k, l.path, s.fs[l.path].content) == Some(l.body)
      && (Uncached(c, s.fs, d, k) == Some(l) <==>
            Resolve(s.fs, d, k) == Some(l.path) && c.siblings(l.path, Contents(s.fs)) == l.schema)
  {
    Invariant(c, d, steps);
    hide MemoKey, Resolve, NulFree;
    var s := After(c, d, steps);
    assert Fresh(s.fs, s.memo[MemoKey(k)]);
  }

  /** Remark: a modification time that comes back makes a stale hit: nothing else is compared. */
  lemma {:induction false} ReusedTimeIsStale(fs: Fs, m: Memo, k: Key, content: string)
    requires Hit(fs, m, k).Some?
    ensures var p := m[MemoKey(k)].path;
      Hit(fs[p := File(content, fs[p].mtime)], m, k) == Hit(fs, m, k)
  {
  }

  /** A write between the read and the last look is remembered as if it had been read. */
  lemma {:induction false} RacingWriteIsStale(c: Codec, fs: Fs, d: Dirs, k: Key, m: Memo, content: string, mtime: int)
    requires Uncached(c, fs, d, k).Some? && TrimSpace(Uncached(c, fs, d, k).value.path) != ""
    ensures var l := Uncached(c, fs, d, k).value;
      var later := fs[l.path := File(content, mtime)];
      l.path != "" ==> Hit(later, Remember(later, m, k, l), k) == Some(l)
  {
    hide TrimSpace, MemoKey, Resolve;
  }
}
