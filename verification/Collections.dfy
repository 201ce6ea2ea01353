/** Optional values, and lists without repeats. */
module Collections {

  datatype Option<T> = None | Some(value: T)

  ghost predicate NoDup(ids: seq<string>) {
    forall i, j :: 0 <= i < j < |ids| ==> ids[i] != ids[j]
  }

  /** Everything but one id, in order. */
  function Without(ids: seq<string>, id: string): seq<string> {
    if ids == [] then [] else if ids[0] == id then Without(ids[1..], id) else [ids[0]] + Without(ids[1..], id)
  }

  lemma {:induction false} WithoutAbsent(ids: seq<string>, id: string)
    requires id !in ids
    ensures Without(ids, id) == ids
  {
    if ids != [] { WithoutAbsent(ids[1..], id); }
  }

  lemma {:induction false} WithoutAt(ids: seq<string>, i: nat)
    requires NoDup(ids) && i < |ids|
    ensures Without(ids, ids[i]) == ids[..i] + ids[i + 1..]
  {
    if i == 0 {
      WithoutAbsent(ids[1..], ids[0]);
    } else {
      WithoutAt(ids[1..], i - 1);
      assert ids[0] != ids[i];
    }
  }

  lemma {:induction false} WithoutKeeps(ids: seq<string>, id: string)
    requires NoDup(ids)
    ensures NoDup(Without(ids, id)) && forall x :: x in Without(ids, id) <==> x in ids && x != id
  {
    if ids != [] {
      WithoutKeeps(ids[1..], id);
      var rest := Without(ids[1..], id);
      assert forall x :: x in ids <==> x == ids[0] || x in ids[1..];
      assert forall i :: 0 <= i < |ids[1..]| ==> ids[1..][i] == ids[i + 1];
      assert ids[0] !in rest;
      var all := [ids[0]] + rest;
      assert forall i :: 0 < i < |all| ==> all[i] == rest[i - 1];
    }
  }
}
