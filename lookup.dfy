/** The search shared by every staff handler: walk the queue head first and
    stop at the first job whose id matches. */
module Lookup {

  datatype Option<T> = None | Some(value: T)

  /** Position of the first occurrence of `id` in `ids`, if any. */
  function FirstIndex(ids: seq<int>, id: int): (r: Option<nat>)
    ensures r.None? <==> id !in ids
    ensures r.Some? ==> r.value < |ids| && ids[r.value] == id && id !in ids[..r.value]
  {
    if ids == [] then None
    else if ids[0] == id then Some(0)
    else
      var k := FirstIndex(ids[1..], id);
      if k.None? then None
      else
        assert ids[..k.value + 1] == [ids[0]] + ids[1..][..k.value];
        Some(k.value + 1)
  }

  /** No id occurs twice. */
  ghost predicate Distinct(ids: seq<int>) {
    forall i, j :: 0 <= i < j < |ids| ==> ids[i] != ids[j]
  }

  /** With distinct ids the first match is the only match. */
  lemma FirstIndexOfDistinct(ids: seq<int>, i: nat)
    requires Distinct(ids) && i < |ids|
    ensures FirstIndex(ids, ids[i]) == Some(i)
  {
  }
}
