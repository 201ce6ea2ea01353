/** The contract digest of a chat request, the stamp that records it, and the load-time
    healing of a stamp (domain/contract.go). */
module Contract {
  import opened Text
  import opened Json

  const BRIEF_HEADING := "## SCOPE BRIEF"
  const MINI_HEADING := "## MINI-SCHEMA"
  const SCOPE_BRIEF_MARKER := "\n\n" + BRIEF_HEADING
  const MINI_SCHEMA_MARKER := "\n\n" + MINI_HEADING

  predicate HashExcluded(k: string) {
    || HasPrefix(k, "_")
    || k in {"targets", "model", "tool_choice", "temperature", "top_p", "max_tokens"}
    || k in {"guidance", "contract", "metadata"}
  }

  /** The part of a text that the digest sees. */
  function StripScopeBrief(s: string): string {
    var i := Index(s, SCOPE_BRIEF_MARKER);
    var j := Index(s, MINI_SCHEMA_MARKER);
    if i >= 0 then TrimRight(s[..i])
    else if j >= 0 then TrimRight(s[..j])
    else s
  }

  function StripForHash(v: Value): (r: Value)
    ensures r.Obj? <==> v.Obj?
    ensures r.Arr? <==> v.Arr?
    ensures r.Str? <==> v.Str?
    decreases v
  {
    match v
    case Obj(fields) => Obj(map k | k in fields && !HashExcluded(k) :: StripForHash(fields[k]))
    case Arr(items) => Arr(seq(|items|, i requires 0 <= i < |items| => StripForHash(items[i])))
    case Str(s) => Str(StripScopeBrief(s))
    case _ => v
  }

  /** A system message's content is stripped once more. */
  function SystemStripped(m: Doc): Doc {
    if AsString(m, "role") == "system" && "content" in m && m["content"].Str?
    then m["content" := Str(StripScopeBrief(m["content"].s))]
    else m
  }

  function Canonicalize(v: Value): (r: Value)
    ensures r.Obj? <==> v.Obj?
    ensures r.Arr? <==> v.Arr?
    decreases v
  {
    match v
    case Obj(fields) =>
      Obj(map k | k in fields ::
        if fields[k].Str? then SystemStripped(fields)[k] else Canonicalize(fields[k]))
    case Arr(items) => Arr(seq(|items|, i requires 0 <= i < |items| => Canonicalize(items[i])))
    case _ => v
  }

  /** The tree whose JSON encoding is digested. */
  function Canonical(doc: Doc): Doc {
    Canonicalize(StripForHash(Obj(doc))).fields
  }

  /** An MD5 sum in hexadecimal; the sum itself is a parameter. */
  type Hex = s: string | |s| == 32 && forall i :: 0 <= i < |s| ==> s[i] in "0123456789abcdef"
    witness "00000000000000000000000000000000"
  type Digest = Doc -> Hex

  function ComputeContractHash(md5: Digest, doc: Doc): string {
    "md5:" + md5(Canonical(doc))
  }

  function RealHash(h: string): string {
    var hs := TrimSpace(h);
    if hs == "" || Contains(hs, "TO_BE_FILLED") then "" else hs
  }

  /** The stamp that one candidate object carries itself. */
  function OwnStamp(m: Doc): string {
    var c := if "contract" in m && m["contract"].Obj? then RealHash(AsString(m["contract"].fields, "hash")) else "";
    if c != "" then c
    else if RealHash(AsString(m, "_hash")) != "" then RealHash(AsString(m, "_hash"))
    else RealHash(AsString(m, "hash"))
  }

  function WrapperStamp(doc: Doc, key: string): string {
    if key in doc && doc[key].Obj? then OwnStamp(doc[key].fields) else ""
  }

  function ExtractStampedHash(doc: Doc): string {
    if OwnStamp(doc) != "" then OwnStamp(doc)
    else if WrapperStamp(doc, "stamped_chat_request") != "" then WrapperStamp(doc, "stamped_chat_request")
    else WrapperStamp(doc, "stamped")
  }

  /** The stamp a document carries is the digest of its content. */
  predicate StampHolds(md5: Digest, doc: Doc) {
    ExtractStampedHash(doc) == ComputeContractHash(md5, doc)
  }

  predicate HasHeading(s: string) {
    Contains(s, BRIEF_HEADING) || Contains(s, MINI_HEADING)
  }

  /** A surface without a brief or mini heading loses its trailing whitespace. */
  function Rstrip(s: string): string {
    if HasHeading(s) then s else TrimRight(s)
  }

  /** rstripSystemPromptSurfaces on its clone: each surface is written only when it is a
      string whose text really changes. */
  method RstripSystemPromptSurfaces(doc: Doc) returns (out: Doc, changed: bool)
    ensures changed <==> out != doc
    ensures changed <==> Rstrip(Msg0Text(doc)) != Msg0Text(doc) || Rstrip(InstrText(doc)) != InstrText(doc)
    ensures out == Rstripped(doc)
    ensures StringContent(doc) ==> out == Rewrite(doc, Rstrip, Rstrip)
  {
    out, changed := doc, false;
    var content := Msg0Text(doc);
    if content != "" && !HasHeading(content) && TrimRight(content) != content {
      out := SetMsg0(out, TrimRight(content));
      changed := true;
    }
    var sp := InstrText(out);
    if sp != "" && !HasHeading(sp) && TrimRight(sp) != sp {
      out := SetInstr(out, TrimRight(sp));
      changed := true;
    }
    RstrippedIsRewrite(doc);
  }

  function Rstripped(doc: Doc): Doc {
    var d := if Rstrip(Msg0Text(doc)) != Msg0Text(doc) then SetMsg0(doc, Rstrip(Msg0Text(doc))) else doc;
    if Rstrip(InstrText(doc)) != InstrText(doc) then SetInstr(d, Rstrip(InstrText(doc))) else d
  }

  lemma RstrippedIsRewrite(doc: Doc)
    ensures StringContent(doc) ==> Rstripped(doc) == Rewrite(doc, Rstrip, Rstrip)
  {
    if StringContent(doc) {
      if HasMsg0(doc) && Rstrip(Msg0Text(doc)) == Msg0Text(doc) { SetMsg0Same(doc); }
      var d := if HasMsg0(doc) then SetMsg0(doc, Rstrip(Msg0Text(doc))) else doc;
      if InstrText(d) != "" && Rstrip(InstrText(d)) == InstrText(d) { SetInstrSame(d); }
    }
  }

  /** rewriteEmbeddedHash: every place of the document itself that holds the old stamp. */
  function RewriteEmbeddedHash(doc: Doc, stale: string, renewed: string): (r: Doc) {
    if stale == "" || renewed == "" || stale == renewed then doc
    else
      var d :=
        if "contract" in doc && doc["contract"].Obj? && TrimSpace(AsString(doc["contract"].fields, "hash")) == stale
        then doc["contract" := Obj(doc["contract"].fields["hash" := Str(renewed)])] else doc;
      var e := if TrimSpace(AsString(d, "_hash")) == stale then d["_hash" := Str(renewed)] else d;
      if TrimSpace(AsString(e, "hash")) == stale then e["hash" := Str(renewed)] else e
  }

  /** HealTrailingWSStampDrift */
  function Heal(md5: Digest, doc: Doc): Doc {
    var stamped := ExtractStampedHash(doc);
    var hRaw := ComputeContractHash(md5, doc);
    if stamped == "" || stamped != hRaw then doc
    else
      var normalized := Rstripped(doc);
      var hNorm := ComputeContractHash(md5, normalized);
      if normalized == doc || hNorm == hRaw then doc
      else RewriteEmbeddedHash(normalized, stamped, hNorm)
  }

  // ---- the same, step by step ---------------------------------------------------------------------

  /** stripScopeBrief: the first of the two markers that occurs at all cuts the text. */
  method StripMarkers(s: string) returns (r: string)
    ensures r == StripScopeBrief(s)
  {
    hide TrimRight;
    var markers := ["\n\n## SCOPE BRIEF", "\n\n## MINI-SCHEMA"];
    assert markers[0] == SCOPE_BRIEF_MARKER && markers[1] == MINI_SCHEMA_MARKER;
    hide Index;
    for n := 0 to |markers|
      invariant forall i :: 0 <= i < n ==> Index(s, markers[i]) < 0
    {
      var i := Index(s, markers[n]);
      if i >= 0 {
        assert n == 0 || n == 1;
        return TrimRight(s[..i]);
      }
    }
    assert Index(s, markers[0]) < 0 && Index(s, markers[1]) < 0;
    return s;
  }

  function StampIn(candidate: Value): string {
    if candidate.Obj? then OwnStamp(candidate.fields) else ""
  }

  /** One candidate of ExtractStampedHash: its contract, and then its two hash keys. */
  method CandidateStamp(candidate: Doc) returns (h: string)
    ensures h == OwnStamp(candidate)
  {
    hide RealHash;
    if "contract" in candidate && candidate["contract"].Obj? {
      h := RealHash(AsString(candidate["contract"].fields, "hash"));
      if h != "" { return; }
    }
    h := RealHash(AsString(candidate, "_hash"));
    if h != "" { return; }
    h := RealHash(AsString(candidate, "hash"));
  }

  /** ExtractStampedHash: the document, and then its two wrappers. */
  method StampedHash(doc: Doc) returns (h: string)
    ensures h == ExtractStampedHash(doc)
  {
    hide OwnStamp;
    var candidates := [Obj(doc),
      if "stamped_chat_request" in doc then doc["stamped_chat_request"] else Null,
      if "stamped" in doc then doc["stamped"] else Null];
    assert StampIn(candidates[0]) == OwnStamp(doc);
    assert StampIn(candidates[1]) == WrapperStamp(doc, "stamped_chat_request") && StampIn(candidates[2]) == WrapperStamp(doc, "stamped");
    for n := 0 to |candidates|
      invariant forall i :: 0 <= i < n ==> StampIn(candidates[i]) == ""
    {
      if candidates[n].Obj? {
        h := CandidateStamp(candidates[n].fields);
        if h != "" {
          assert h == StampIn(candidates[n]) && (n == 0 || n == 1 || n == 2);
          return;
        }
      }
    }
    return "";
  }

  /** rewriteEmbeddedHash: every place of the document itself that holds the old stamp. */
  method RewriteInPlace(doc: Doc, stale: string, renewed: string) returns (out: Doc)
    ensures out == RewriteEmbeddedHash(doc, stale, renewed)
  {
    hide TrimSpace;
    out := doc;
    if stale == "" || renewed == "" || stale == renewed { return; }
    if "contract" in out && out["contract"].Obj? {
      var cb := out["contract"].fields;
      if TrimSpace(AsString(cb, "hash")) == stale { out := out["contract" := Obj(cb["hash" := Str(renewed)])]; }
    }
    if TrimSpace(AsString(out, "_hash")) == stale { out := out["_hash" := Str(renewed)]; }
    if TrimSpace(AsString(out, "hash")) == stale { out := out["hash" := Str(renewed)]; }
  }

  /** HealTrailingWSStampDrift: a stamp that held is renewed if trimming the surfaces moves
      the digest; any other document stays as it is. */
  method HealDrift(md5: Digest, doc: Doc) returns (out: Doc)
    ensures out == Heal(md5, doc)
  {
    hide ExtractStampedHash, Canonical, RewriteEmbeddedHash, Rstripped, Rstrip;
    var stamped := StampedHash(doc);
    if stamped == "" { return doc; }
    var raw := ComputeContractHash(md5, doc);
    if stamped != raw { return doc; }
    var normalized, changed := RstripSystemPromptSurfaces(doc);
    if !changed { return doc; }
    var norm := ComputeContractHash(md5, normalized);
    if norm == "" || norm == raw { return doc; }
    out := RewriteInPlace(normalized, stamped, norm);
  }
}
