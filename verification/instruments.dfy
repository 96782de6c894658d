/** The `Instrument` record of the page and the facts about lists of them that the
    reducer's properties are stated in: which identities a list holds, how often,
    whether they are distinct, and when one list is an order-preserving sub-list
    of another. */
module Instruments {

  /** One row of the `instruments` table as the page holds it. The table column
      `type` is called `kind` here because `type` is a Dafny keyword. */
  datatype Instrument = Instrument(id: int, name: string, kind: string, createdAt: string)

  /** Some record of `s` has identity `id`. */
  predicate HasId(s: seq<Instrument>, id: int) {
    exists i :: 0 <= i < |s| && s[i].id == id
  }

  /** No two records of `s` share an identity: the invariant the cached list is
      meant to keep. */
  predicate DistinctIds(s: seq<Instrument>) {
    forall i, j :: 0 <= i < j < |s| ==> s[i].id != s[j].id
  }

  /** How many records of `s` have identity `id`. */
  function CountId(s: seq<Instrument>, id: int): (n: nat)
    ensures n <= |s|
    ensures n == 0 <==> !HasId(s, id)
  {
    if |s| == 0 then 0
    else
      HasIdCons(s, id);
      (if s[0].id == id then 1 else 0) + CountId(s[1..], id)
  }

  /** `a` is obtained from `b` by dropping some elements and keeping the rest in order. */
  predicate IsSubsequence<T(==)>(a: seq<T>, b: seq<T>)
    decreases |b|
  {
    |a| == 0 ||
    (|b| > 0 && ((a[0] == b[0] && IsSubsequence(a[1..], b[1..])) || IsSubsequence(a, b[1..])))
  }

  /** Identity membership unfolds over the head and the tail of a list. */
  lemma HasIdCons(s: seq<Instrument>, id: int)
    requires |s| > 0
    ensures HasId(s, id) <==> s[0].id == id || HasId(s[1..], id)
  {
  }

  /** Distinctness unfolds over the head and the tail of a list. */
  lemma DistinctCons(s: seq<Instrument>)
    requires |s| > 0
    ensures DistinctIds(s) <==> !HasId(s[1..], s[0].id) && DistinctIds(s[1..])
  {
  }

  /** In a list with distinct identities an identity occurs at most once. */
  lemma {:induction false} DistinctCountAtMostOne(s: seq<Instrument>, id: int)
    requires DistinctIds(s)
    ensures CountId(s, id) <= 1
    ensures HasId(s, id) ==> CountId(s, id) == 1
  {
    if |s| > 0 {
      DistinctCons(s);
      DistinctCountAtMostOne(s[1..], id);
    }
  }

  /** Every identity of a sub-list is an identity of the list it was taken from. */
  lemma {:induction false} SubsequenceHasId(a: seq<Instrument>, b: seq<Instrument>, id: int)
    requires IsSubsequence(a, b)
    requires HasId(a, id)
    ensures HasId(b, id)
    decreases |b|
  {
    HasIdCons(a, id);
    HasIdCons(b, id);
    if a[0] == b[0] && IsSubsequence(a[1..], b[1..]) {
      if a[0].id != id {
        SubsequenceHasId(a[1..], b[1..], id);
      }
    } else {
      SubsequenceHasId(a, b[1..], id);
    }
  }

  /** Dropping records cannot make two identities collide. */
  lemma {:induction false} SubsequenceDistinct(a: seq<Instrument>, b: seq<Instrument>)
    requires IsSubsequence(a, b)
    requires DistinctIds(b)
    ensures DistinctIds(a)
    decreases |b|
  {
    if |a| > 0 {
      DistinctCons(a);
      DistinctCons(b);
      if a[0] == b[0] && IsSubsequence(a[1..], b[1..]) {
        SubsequenceDistinct(a[1..], b[1..]);
        if HasId(a[1..], a[0].id) {
          SubsequenceHasId(a[1..], b[1..], a[0].id);
        }
      } else {
        SubsequenceDistinct(a, b[1..]);
      }
    }
  }
}
