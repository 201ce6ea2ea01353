/** What the contract digest covers: which places of a document reach the digested tree, and
    what the tree shows of each (domain/contract.go). */
module DigestPaths {
  import opened Collections
  import opened Text
  import opened Json
  import opened Contract
  import opened DigestView

  // ---- keys -----------------------------------------------------------------------------------

  lemma {:induction false} ExcludedKeys(k: string)
    ensures HashExcluded(k) <==>
      (k != "" && k[0] == '_')
      || k in {"targets", "model", "tool_choice", "temperature", "top_p", "max_tokens", "guidance", "contract", "metadata"}
  {
    if k != "" && k[0] == '_' { assert k == "_" + k[1..]; }
  }

  /** At every object, a key reaches the digested tree exactly when it is none of the nine
      named ones and has no leading underscore. */
  lemma {:induction false} KeysReach(m: Doc, k: string)
    ensures k in Canon(Obj(m)).fields <==>
      && k in m && (k == "" || k[0] != '_')
      && k !in {"targets", "model", "tool_choice", "temperature", "top_p", "max_tokens"}
      && k !in {"guidance", "contract", "metadata"}
  {
    hide HashExcluded, Canon;
    CanonObj(m);
    ExcludedKeys(k);
  }

  /** Setting or removing any other key never moves the tree of an object. */
  lemma {:induction false} KnobsNeverMove(m: Doc, k: string, v: Value)
    requires (k != "" && k[0] == '_')
          || k in {"targets", "model", "tool_choice", "temperature", "top_p", "max_tokens", "guidance", "contract", "metadata"}
    ensures Canon(Obj(m[k := v])) == Canon(Obj(m)) == Canon(Obj(m - {k}))
  {
    hide HashExcluded, Canon, FieldView;
    ExcludedKeys(k);
    KeysKept();
    SameKept(m, m[k := v]);
    SameKept(m, m - {k});
  }

  lemma SameKept(m: Doc, n: Doc)
    requires forall k :: !HashExcluded(k) ==> (k in m <==> k in n) && (k in m ==> m[k] == n[k])
    ensures Canon(Obj(m)) == Canon(Obj(n))
  {
    hide HashExcluded, Canon, StripScopeBrief, SystemView;
    KeysKept();
    CanonObj(m);
    CanonObj(n);
    assert AsString(m, "role") == AsString(n, "role");
    forall k | k in m && !HashExcluded(k) ensures CanonField(m, k) == CanonField(n, k) {}
  }

  // ---- paths ----------------------------------------------------------------------------------

  datatype Step = Key(k: string) | Item(i: nat)

  type Path = seq<Step>

  function At(v: Value, path: Path): Option<Value> {
    if path == [] then Some(v)
    else match path[0]
         case Key(k) => if v.Obj? && k in v.fields then At(v.fields[k], path[1..]) else None
         case Item(i) => if v.Arr? && i < |v.items| then At(v.items[i], path[1..]) else None
  }

  /** What there is to see of a value without looking further into it. */
  datatype Look = Fields | Items(n: nat) | Scalar(v: Value)

  function LookOf(v: Value): Look {
    match v
    case Obj(_) => Fields
    case Arr(items) => Items(|items|)
    case _ => Scalar(v)
  }

  function LookAt(v: Value, path: Path): Option<Look> {
    match At(v, path)
    case None => None
    case Some(x) => Some(LookOf(x))
  }

  /** No step of the path is a key that the digest skips. */
  predicate Shown(path: Path) {
    forall i :: 0 <= i < |path| && path[i].Key? ==> !HashExcluded(path[i].k)
  }

  /** The path leads to the content of a system message. */
  predicate SystemContent(v: Value, path: Path) {
    && path != [] && path[|path| - 1] == Key("content")
    && var parent := At(v, path[..|path| - 1]);
       parent.Some? && parent.value.Obj? && IsSystem(parent.value.fields)
  }

  /** What the digest sees at a path: nothing behind a key that it skips, a stripped text
      where a text stands (twice stripped in a system message), and any other scalar or
      length as it is. */
  function SeenAt(v: Value, path: Path): Option<Look> {
    match At(v, path)
    case None => None
    case Some(x) =>
      if !Shown(path) then None
      else if x.Str? then Some(Scalar(Str(if SystemContent(v, path) then SystemView(x.s) else StripScopeBrief(x.s))))
      else Some(LookOf(x))
  }

  lemma {:induction false} TreeShows(v: Value, path: Path)
    ensures LookAt(Canon(v), path) == SeenAt(v, path)
    decreases |path|, 1
  {
    hide HashExcluded, StripScopeBrief, SystemView, IsSystem, Canon;
    CanonTop(v);
    if path != [] {
      ShownCons(path);
      assert path[..1] == [path[0]] && [path[0]][1..] == [];
      match path[0] {
        case Key(k) =>
          if v.Obj? {
            CanonObj(v.fields);
            if k in v.fields && !HashExcluded(k) { FieldShows(v, k, path); }
          }
        case Item(i) =>
          if v.Arr? && i < |v.items| {
            CanonArr(v.items, i, v.items[i]);
            TreeShows(v.items[i], path[1..]);
            if |path| > 1 { ContentBelow(v, v.items[i], path); }
          }
      }
    }
  }

  lemma {:induction false} FieldShows(v: Value, k: string, path: Path)
    requires v.Obj? && k in v.fields && !HashExcluded(k) && path != [] && path[0] == Key(k)
    ensures LookAt(Canon(v), path) == SeenAt(v, path)
    decreases |path|, 0
  {
    hide HashExcluded, StripScopeBrief, SystemView, IsSystem, Canon;
    CanonObj(v.fields);
    ShownCons(path);
    assert path[..1] == [path[0]] && [path[0]][1..] == [];
    var field := v.fields[k];
    CanonTop(field);
    var shown := CanonField(v.fields, k);
    assert At(v, path) == At(field, path[1..]) && At(Canon(v), path) == At(shown, path[1..]);
    if |path| > 1 {
      ContentBelow(v, field, path);
      if !field.Str? { TreeShows(field, path[1..]); }
    } else {
      assert path[..0] == [] && path[0] == path[|path| - 1];
    }
  }

  lemma ShownCons(path: Path)
    requires path != []
    ensures Shown(path) <==> (path[0].Key? ==> !HashExcluded(path[0].k)) && Shown(path[1..])
  {
    hide HashExcluded;
    assert path == [path[0]] + path[1..];
  }

  lemma CanonTop(v: Value)
    ensures LookOf(Canon(v)) == if v.Str? then Scalar(Str(StripScopeBrief(v.s))) else LookOf(v)
  {
    hide StripScopeBrief;
    if v.Obj? { CanonObj(v.fields); }
  }

  /** Whether a path ends at the content of a system message is seen from below its first
      step, too. */
  lemma ContentBelow(v: Value, w: Value, path: Path)
    requires |path| > 1 && At(v, path[..1]) == Some(w)
    ensures SystemContent(v, path) <==> SystemContent(w, path[1..])
  {
    hide IsSystem;
    var n := |path| - 1;
    assert path[..1][1..] == [];
    assert path[..n][1..] == path[1..][..n - 1];
    assert path[..n][0] == path[0] == path[..1][0];
  }

  /** Two documents have one digested tree exactly when the digest sees the same at every
      path. */
  lemma {:induction false} TreesAgree(d: Doc, e: Doc)
    ensures Canonical(d) == Canonical(e) <==> forall path :: SeenAt(Obj(d), path) == SeenAt(Obj(e), path)
  {
    hide LookAt, SeenAt, Canonicalize, StripForHash;
    forall path
      ensures LookAt(Canon(Obj(d)), path) == SeenAt(Obj(d), path) && LookAt(Canon(Obj(e)), path) == SeenAt(Obj(e), path)
    {
      TreeShows(Obj(d), path);
      TreeShows(Obj(e), path);
    }
    if forall path :: SeenAt(Obj(d), path) == SeenAt(Obj(e), path) {
      assert forall path :: LookAt(Canon(Obj(d)), path) == LookAt(Canon(Obj(e)), path);
      ValuesAlike(Canon(Obj(d)), Canon(Obj(e)));
    }
  }

  lemma {:induction false} ValuesAlike(x: Value, y: Value)
    requires forall path :: LookAt(x, path) == LookAt(y, path)
    ensures x == y
    decreases x
  {
    assert LookAt(x, []) == LookAt(y, []);
    match x {
      case Obj(fields) =>
        forall k ensures k in fields <==> k in y.fields {
          HasKey(x, k);
          HasKey(y, k);
        }
        forall k | k in fields ensures fields[k] == y.fields[k] {
          forall path ensures LookAt(fields[k], path) == LookAt(y.fields[k], path) {
            Below(x, Key(k), path);
            Below(y, Key(k), path);
          }
          ValuesAlike(fields[k], y.fields[k]);
        }
      case Arr(items) =>
        forall i: nat | i < |items| ensures items[i] == y.items[i] {
          forall path ensures LookAt(items[i], path) == LookAt(y.items[i], path) {
            Below(x, Item(i), path);
            Below(y, Item(i), path);
          }
          ValuesAlike(items[i], y.items[i]);
        }
      case _ =>
    }
  }

  lemma HasKey(x: Value, k: string)
    requires x.Obj?
    ensures k in x.fields <==> LookAt(x, [Key(k)]).Some?
  {
    assert [Key(k)][1..] == [];
    assert k in x.fields ==> At(x.fields[k], []) == Some(x.fields[k]);
  }

  lemma Below(x: Value, step: Step, path: Path)
    requires At(x, [step]).Some?
    ensures LookAt(x, [step] + path) == LookAt(At(x, [step]).value, path)
  {
    assert [step][1..] == [];
    assert ([step] + path)[1..] == path && ([step] + path)[0] == step;
  }

  // ---- the locked places ----------------------------------------------------------------------

  /** LockedPointers; the last one stands for the content of every message. */
  predicate Locked(path: Path) {
    || path == [Key("instructions"), Key("system_prompt")]
    || path == [Key("instructions"), Key("verb_usage_guide")]
    || path == [Key("instructions"), Key("verb_order")]
    || path == [Key("instructions"), Key("response_expectations")]
    || path == [Key("masq")]
    || path == [Key("verbs")]
    || (|path| == 3 && path[0] == Key("messages") && path[1].Item? && path[2] == Key("content"))
  }

  /** Every locked place is covered: documents with one digested tree have it both or
      neither, and there the same scalar, the same number of items, or the same text up to
      what stripping takes away; and so at every place below it that is shown. */
  lemma {:induction false} LockedPlacesCovered(d: Doc, e: Doc, path: Path, below: Path)
    requires Canonical(d) == Canonical(e) && Locked(path) && Shown(below)
    ensures At(Obj(d), path + below).Some? <==> At(Obj(e), path + below).Some?
    ensures At(Obj(d), path + below).Some? ==>
      var x, y := At(Obj(d), path + below).value, At(Obj(e), path + below).value;
      if !x.Str? then LookOf(x) == LookOf(y)
      else y.Str? && if SystemContent(Obj(d), path + below) then SystemView(x.s) == SystemView(y.s)
                     else StripScopeBrief(x.s) == StripScopeBrief(y.s)
  {
    hide HashExcluded, StripScopeBrief, SystemView, SystemContent, Canonical;
    LockedIsShown(path);
    var p := path + below;
    assert Shown(p);
    TreesAgree(d, e);
    assert SeenAt(Obj(d), p) == SeenAt(Obj(e), p);
    SystemAlike(d, e, p);
  }

  /** The role of a message is covered as well. */
  lemma SystemAlike(d: Doc, e: Doc, path: Path)
    requires Canonical(d) == Canonical(e) && Shown(path)
    ensures SystemContent(Obj(d), path) <==> SystemContent(Obj(e), path)
  {
    hide HashExcluded, StripScopeBrief, SystemView, Canonical;
    if path != [] {
      var q := path[..|path| - 1];
      KeysKept();
      TreesAgree(d, e);
      assert SeenAt(Obj(d), q) == SeenAt(Obj(e), q);
      assert SeenAt(Obj(d), q + [Key("role")]) == SeenAt(Obj(e), q + [Key("role")]);
      RoleSeen(d, q);
      RoleSeen(e, q);
    }
  }

  lemma RoleSeen(d: Doc, q: Path)
    requires Shown(q)
    ensures At(Obj(d), q).Some? && At(Obj(d), q).value.Obj? ==>
      (IsSystem(At(Obj(d), q).value.fields) <==> SeenAt(Obj(d), q + [Key("role")]) == Some(Scalar(Str("system"))))
  {
    hide HashExcluded, SystemView;
    KeysKept();
    var role := [Key("role")];
    assert role[1..] == [];
    AtConcat(Obj(d), q, role);
    assert Shown(q + role);
    assert StripScopeBrief("") == "";
    hide StripScopeBrief;
    assert !SystemContent(Obj(d), q + role) by { assert (q + role)[|q|] == Key("role") && "role"[0] != "content"[0]; }
  }

  lemma {:induction false} AtConcat(v: Value, a: Path, b: Path)
    ensures At(v, a + b) == if At(v, a).Some? then At(At(v, a).value, b) else None
    decreases |a|
  {
    if a == [] {
      assert a + b == b;
    } else {
      assert (a + b)[1..] == a[1..] + b;
      match a[0] {
        case Key(k) => if v.Obj? && k in v.fields { AtConcat(v.fields[k], a[1..], b); }
        case Item(i) => if v.Arr? && i < |v.items| { AtConcat(v.items[i], a[1..], b); }
      }
    }
  }

  lemma LockedIsShown(path: Path)
    requires Locked(path)
    ensures Shown(path)
  {
    KeysKept();
    forall i | 0 <= i < |path| && path[i].Key? ensures !HashExcluded(path[i].k) {
      ExcludedKeys(path[i].k);
      assert path[i].k in {"instructions", "system_prompt", "verb_usage_guide", "verb_order", "response_expectations",
                           "masq", "verbs", "messages", "content"};
    }
  }
}
