/** Delivery of the change feed: the realtime callback hands each notification
    to the handler in arrival order, so a run of the page is the changes of a
    stream applied one after another. */
module Delivery {
  import opened Wrappers
  import opened Instruments
  import opened View

  /** A stream of changes applied in delivery order, one callback after another.
      No callback of the change feed touches `loading` or the online count. */
  function Replay(v: View, cs: seq<Change>): (r: View)
    ensures r.loading == v.loading && r.onlineUsers == v.onlineUsers
    decreases |cs|
  {
    if |cs| == 0 then v else Replay(Apply(v, cs[0]), cs[1..])
  }

  /** Delivering one stream and then another gives the state of delivering the
      two joined: the handler keeps no state besides the view itself. */
  lemma {:induction false} ReplayAppend(v: View, xs: seq<Change>, ys: seq<Change>)
    ensures Replay(v, xs + ys) == Replay(Replay(v, xs), ys)
    decreases |xs|
  {
    if |xs| == 0 {
      assert xs + ys == ys;
    } else {
      assert (xs + ys)[0] == xs[0];
      assert (xs + ys)[1..] == xs[1..] + ys;
      ReplayAppend(Apply(v, xs[0]), xs[1..], ys);
    }
  }

  /** How many of `cs` are inserts. */
  function Inserts(cs: seq<Change>): (n: nat)
    ensures n <= |cs|
  {
    if |cs| == 0 then 0 else (if cs[0].Insert? then 1 else 0) + Inserts(cs[1..])
  }

  /** Replaying a stream grows the list by at most the number of inserts in it. */
  lemma {:induction false} ReplayGrowth(v: View, cs: seq<Change>)
    ensures |Replay(v, cs).instruments| <= |v.instruments| + Inserts(cs)
    decreases |cs|
  {
    if |cs| > 0 {
      ReplayGrowth(Apply(v, cs[0]), cs[1..]);
    }
  }

  /** A stream without inserts keeps identities distinct, whatever order its
      updates and deletes arrive in and however often they are repeated. */
  lemma {:induction false} ReplayWithoutInsertsDistinct(v: View, cs: seq<Change>)
    requires DistinctIds(v.instruments)
    requires forall k :: 0 <= k < |cs| ==> !cs[k].Insert?
    ensures DistinctIds(Replay(v, cs).instruments)
    decreases |cs|
  {
    if |cs| > 0 {
      ApplyPreservesDistinct(v, cs[0]);
      ReplayWithoutInsertsDistinct(Apply(v, cs[0]), cs[1..]);
    }
  }

  /** A successful snapshot settling after some changes were already applied
      replaces the list wholesale: those changes are not visible any more. */
  lemma SnapshotOverridesEarlierChanges(v: View, cs: seq<Change>, rows: seq<Instrument>)
    ensures FetchInstruments(Replay(v, cs), FetchResponse(Some(rows), None)).instruments == rows
  {
  }

  /** A failed snapshot that settles after some changes keeps the list those
      changes produced: nothing in the `catch` writes the list. */
  lemma FailedFetchKeepsEarlierChanges(v: View, cs: seq<Change>, e: string)
    ensures var r := FetchInstruments(Replay(v, cs), FetchResponse(None, Some(e)));
      r.instruments == Replay(v, cs).instruments && !r.loading
  {
  }
}
