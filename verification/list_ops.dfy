/** The three list transitions the change handler feeds to `setInstruments`:
    the INSERT prepend, the UPDATE `map` and the DELETE `filter`. */
module ListOps {
  import opened Instruments

  /** `[payload.new, ...prev]`: the new record goes in front, with no check of
      its identity against the records already held. */
  function Prepend(prev: seq<Instrument>, x: Instrument): (r: seq<Instrument>)
    ensures |r| == |prev| + 1
    ensures r[0] == x && r[1..] == prev
    ensures CountId(r, x.id) == CountId(prev, x.id) + 1
    ensures DistinctIds(r) <==> DistinctIds(prev) && !HasId(prev, x.id)
  {
    var r := [x] + prev;
    assert r[1..] == prev;
    DistinctCons(r);
    r
  }

  /** `prev.map(i => i.id === x.id ? x : i)`: every record carrying the identity
      of `x` is replaced by `x`, every other record stays where it was. */
  function ReplaceById(prev: seq<Instrument>, x: Instrument): (r: seq<Instrument>)
    ensures |r| == |prev|
    ensures forall i :: 0 <= i < |prev| ==> r[i] == (if prev[i].id == x.id then x else prev[i])
  {
    if |prev| == 0 then []
    else [if prev[0].id == x.id then x else prev[0]] + ReplaceById(prev[1..], x)
  }

  /** `prev.filter(i => i.id !== id)`: every record carrying `id` is dropped. */
  function RemoveById(prev: seq<Instrument>, id: int): (r: seq<Instrument>)
    ensures |r| == |prev| - CountId(prev, id)
    ensures !HasId(r, id)
    ensures forall k :: 0 <= k < |r| ==> r[k] in prev
  {
    if |prev| == 0 then []
    else
      var rest := RemoveById(prev[1..], id);
      HasIdCons(prev, id);
      if prev[0].id == id then rest
      else
        var r := [prev[0]] + rest;
        assert r[1..] == rest;
        HasIdCons(r, id);
        r
  }

  /** An update keeps the identity found at every position, so the list of
      identities does not change. */
  lemma ReplaceKeepsIds(prev: seq<Instrument>, x: Instrument)
    ensures forall i :: 0 <= i < |prev| ==> ReplaceById(prev, x)[i].id == prev[i].id
    ensures HasId(ReplaceById(prev, x), x.id) <==> HasId(prev, x.id)
  {
  }

  /** An update whose identity is held installs the new record. */
  lemma ReplaceInstalls(prev: seq<Instrument>, x: Instrument)
    requires HasId(prev, x.id)
    ensures x in ReplaceById(prev, x)
  {
  }

  /** An update for an identity the list does not hold is silently dropped. */
  lemma ReplaceAbsent(prev: seq<Instrument>, x: Instrument)
    requires !HasId(prev, x.id)
    ensures ReplaceById(prev, x) == prev
  {
  }

  /** Applying the same update twice gives the list of applying it once. */
  lemma ReplaceIdempotent(prev: seq<Instrument>, x: Instrument)
    ensures ReplaceById(ReplaceById(prev, x), x) == ReplaceById(prev, x)
  {
  }

  /** An update never makes two identities collide. */
  lemma ReplacePreservesDistinct(prev: seq<Instrument>, x: Instrument)
    ensures DistinctIds(ReplaceById(prev, x)) <==> DistinctIds(prev)
  {
  }

  /** A delete keeps the surviving records in their original relative order. */
  lemma {:induction false} RemoveIsSubsequence(prev: seq<Instrument>, id: int)
    ensures IsSubsequence(RemoveById(prev, id), prev)
  {
    if |prev| > 0 {
      var rest := RemoveById(prev[1..], id);
      RemoveIsSubsequence(prev[1..], id);
      if prev[0].id == id {
        SubsequenceDropHead(rest, prev);
      } else {
        assert ([prev[0]] + rest)[1..] == rest;
      }
    }
  }

  /** A sub-list of the tail is a sub-list of the whole list. */
  lemma SubsequenceDropHead<T>(a: seq<T>, b: seq<T>)
    requires |b| > 0
    requires IsSubsequence(a, b[1..])
    ensures IsSubsequence(a, b)
  {
  }

  /** A delete keeps every record of another identity exactly as many times as
      it occurred, and drops every record of the deleted identity. */
  lemma {:induction false} RemoveKeepsOthers(prev: seq<Instrument>, id: int, x: Instrument)
    ensures multiset(RemoveById(prev, id))[x] == if x.id == id then 0 else multiset(prev)[x]
  {
    if |prev| > 0 {
      RemoveKeepsOthers(prev[1..], id, x);
      assert prev == [prev[0]] + prev[1..];
      assert multiset(prev) == multiset{prev[0]} + multiset(prev[1..]);
      var rest := RemoveById(prev[1..], id);
      if prev[0].id != id {
        assert multiset([prev[0]] + rest) == multiset{prev[0]} + multiset(rest);
      }
    } else {
      assert multiset(RemoveById(prev, id)) == multiset{};
    }
  }

  /** A delete for an identity the list does not hold leaves the list unchanged. */
  lemma {:induction false} RemoveAbsent(prev: seq<Instrument>, id: int)
    requires !HasId(prev, id)
    ensures RemoveById(prev, id) == prev
  {
    if |prev| > 0 {
      HasIdCons(prev, id);
      RemoveAbsent(prev[1..], id);
      assert prev == [prev[0]] + prev[1..];
    }
  }

  /** Applying the same delete twice gives the list of applying it once. */
  lemma RemoveIdempotent(prev: seq<Instrument>, id: int)
    ensures RemoveById(RemoveById(prev, id), id) == RemoveById(prev, id)
  {
  }

  /** With distinct identities a delete of a held identity removes exactly one
      record. */
  lemma RemoveHeldShrinksByOne(prev: seq<Instrument>, id: int)
    requires DistinctIds(prev)
    requires HasId(prev, id)
    ensures |RemoveById(prev, id)| == |prev| - 1
  {
    DistinctCountAtMostOne(prev, id);
  }

  /** A delete never makes two identities collide. */
  lemma RemovePreservesDistinct(prev: seq<Instrument>, id: int)
    requires DistinctIds(prev)
    ensures DistinctIds(RemoveById(prev, id))
  {
    RemoveIsSubsequence(prev, id);
    SubsequenceDistinct(RemoveById(prev, id), prev);
  }
}
