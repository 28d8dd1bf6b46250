/** The list operations every entity slice performs on its cached lists:
    `findIndex` by id followed by an indexed write (update), and `filter` by
    id (delete). Entities are reduced to their `id` plus a body the
    reducers never look into. */
module Cache {
  import Seqs

  /** A cached entity: its `id` and the rest of the object. */
  datatype Record<P> = Record(id: string, body: P)

  /** `k` is the position of the first element of `s` whose id is `id`. */
  ghost predicate IsFirstWithId<P>(s: seq<Record<P>>, id: string, k: int) {
    0 <= k < |s| && s[k].id == id && forall j :: 0 <= j < k ==> s[j].id != id
  }

  /** The index of the first record with the id, or -1 when there is none. */
  function FindIndexById<P>(s: seq<Record<P>>, id: string): (k: int)
    ensures -1 <= k < |s|
    ensures k == -1 <==> forall i :: 0 <= i < |s| ==> s[i].id != id
    ensures k != -1 ==> IsFirstWithId(s, id, k)
  {
    if s == [] then -1
    else if s[0].id == id then 0
    else
      var k := FindIndexById(s[1..], id);
      if k == -1 then -1 else k + 1
  }

  /** There is only one first match. */
  lemma FirstWithIdUnique<P>(s: seq<Record<P>>, id: string, k: int, k': int)
    requires IsFirstWithId(s, id, k) && IsFirstWithId(s, id, k')
    ensures k == k'
  {
  }

  /** What an update reducer does to a list: write `x` over the first element
      with `x`'s id, when there is one. */
  function ReplaceFirstById<P>(s: seq<Record<P>>, x: Record<P>): (r: seq<Record<P>>)
    ensures |r| == |s|
    ensures (forall i :: 0 <= i < |s| ==> s[i].id != x.id) ==> r == s
    ensures forall k :: IsFirstWithId(s, x.id, k) ==> r == s[k := x]
  {
    var k := FindIndexById(s, x.id);
    if k == -1 then s
    else
      assert forall k' :: IsFirstWithId(s, x.id, k') ==> k' == k by {
        forall k' | IsFirstWithId(s, x.id, k') {
          FirstWithIdUnique(s, x.id, k, k');
        }
      }
      s[k := x]
  }

  /** Element by element: the first match becomes `x`, every other index is untouched. */
  lemma ReplaceFirstByIdAt<P>(s: seq<Record<P>>, x: Record<P>, i: int)
    requires 0 <= i < |s|
    ensures ReplaceFirstById(s, x)[i] == if IsFirstWithId(s, x.id, i) then x else s[i]
  {
    var k := FindIndexById(s, x.id);
    if k != -1 {
      assert IsFirstWithId(s, x.id, k);
      if IsFirstWithId(s, x.id, i) {
        FirstWithIdUnique(s, x.id, k, i);
      }
    }
  }

  /** What a delete reducer does to a list: keep the records whose id differs. */
  function RemoveById<P>(s: seq<Record<P>>, id: string): (r: seq<Record<P>>)
    ensures |r| <= |s|
    ensures forall i :: 0 <= i < |r| ==> r[i].id != id && r[i] in s
    ensures forall i :: 0 <= i < |s| && s[i].id != id ==> s[i] in r
  {
    Seqs.Filter(s, (e: Record<P>) => e.id != id)
  }

  /** Deleting keeps the survivors in their original order. */
  lemma RemoveByIdKeepsOrder<P>(s: seq<Record<P>>, id: string)
    ensures Seqs.SubseqOf(RemoveById(s, id), s)
  {
    Seqs.FilterIsSubseq(s, (e: Record<P>) => e.id != id);
  }

  /** Deleting keeps every copy of every other entity and no copy of a matching one. */
  lemma RemoveByIdMultiplicity<P>(s: seq<Record<P>>, id: string, e: Record<P>)
    ensures multiset(RemoveById(s, id))[e] == if e.id == id then 0 else multiset(s)[e]
  {
    Seqs.FilterMultiplicity(s, (e: Record<P>) => e.id != id, e);
  }

  /** Deleting an id that no element carries changes nothing. */
  lemma RemoveByIdAbsent<P>(s: seq<Record<P>>, id: string)
    requires forall i :: 0 <= i < |s| ==> s[i].id != id
    ensures RemoveById(s, id) == s
  {
    Seqs.FilterKeepsAll(s, (e: Record<P>) => e.id != id);
  }
}
