/**
 Splitting a list of analytics events into upload requests
 (motyga-rs/analytics/src/client.rs): isolated events travel alone, the others in
 maximal runs. `IsBatching` states that without reference to the loop, and
 `BatchingIsUnique` shows that it leaves no other result possible.
 */
module EventBatches {

  function Flatten<E>(batches: seq<seq<E>>): seq<E> {
    if batches == [] then [] else batches[0] + Flatten(batches[1..])
  }

  predicate IsIsolated<E>(isolated: E -> bool, batch: seq<E>) {
    |batch| == 1 && isolated(batch[0])
  }

  predicate IsShared<E>(isolated: E -> bool, batch: seq<E>) {
    batch != [] && forall i :: 0 <= i < |batch| ==> !isolated(batch[i])
  }

  /** Every batch is one isolated event or a run of shared ones, and no two shared runs touch. */
  predicate WellFormed<E>(isolated: E -> bool, batches: seq<seq<E>>) {
    && (forall b :: 0 <= b < |batches| ==> IsIsolated(isolated, batches[b]) || IsShared(isolated, batches[b]))
    && (forall b :: 0 <= b < |batches| - 1 ==> IsIsolated(isolated, batches[b]) || IsIsolated(isolated, batches[b + 1]))
  }

  predicate IsBatching<E(==)>(isolated: E -> bool, events: seq<E>, batches: seq<seq<E>>) {
    WellFormed(isolated, batches) && Flatten(batches) == events
  }

  lemma {:induction false} FlattenSnoc<E>(batches: seq<seq<E>>, batch: seq<E>)
    ensures Flatten(batches + [batch]) == Flatten(batches) + batch
  {
    if batches == [] {
      assert batches + [batch] == [batch];
      assert Flatten([batch]) == batch + Flatten([batch][1..]);
    } else {
      assert (batches + [batch])[1..] == batches[1..] + [batch];
      FlattenSnoc(batches[1..], batch);
    }
  }

  lemma WellFormedSnoc<E>(isolated: E -> bool, batches: seq<seq<E>>, batch: seq<E>)
    requires WellFormed(isolated, batches) && (IsIsolated(isolated, batch) || IsShared(isolated, batch))
    requires batches != [] ==> IsIsolated(isolated, batches[|batches| - 1]) || IsIsolated(isolated, batch)
    ensures WellFormed(isolated, batches + [batch])
  {
  }

  method TrackEventRequestBatches<E(==)>(isolated: E -> bool, events: seq<E>) returns (batches: seq<seq<E>>)
    ensures IsBatching(isolated, events, batches)
  {
    batches := [];
    var current: seq<E> := [];
    for n := 0 to |events|
      invariant WellFormed(isolated, batches)
      invariant batches != [] ==> IsIsolated(isolated, batches[|batches| - 1])
      invariant current == [] || IsShared(isolated, current)
      invariant Flatten(batches) + current == events[..n]
    {
      var event := events[n];
      assert events[..n + 1] == events[..n] + [event];
      if isolated(event) {
        if current != [] {
          FlattenSnoc(batches, current);
          WellFormedSnoc(isolated, batches, current);
          batches := batches + [current];
          current := [];
        }
        FlattenSnoc(batches, [event]);
        WellFormedSnoc(isolated, batches, [event]);
        batches := batches + [[event]];
      } else {
        current := current + [event];
      }
    }
    if current != [] {
      FlattenSnoc(batches, current);
      WellFormedSnoc(isolated, batches, current);
      batches := batches + [current];
    }
  }

  /** The length of the leading run of events that are not isolated. */
  function RunLength<E>(isolated: E -> bool, events: seq<E>): nat {
    if events == [] || isolated(events[0]) then 0 else 1 + RunLength(isolated, events[1..])
  }

  lemma {:induction false} RunLengthIs<E>(isolated: E -> bool, events: seq<E>, n: nat)
    requires n <= |events| && (forall i :: 0 <= i < n ==> !isolated(events[i]))
    requires n < |events| ==> isolated(events[n])
    ensures RunLength(isolated, events) == n
  {
    if n > 0 {
      RunLengthIs(isolated, events[1..], n - 1);
    }
  }

  lemma FirstBatchLength<E>(isolated: E -> bool, batches: seq<seq<E>>)
    requires batches != [] && WellFormed(isolated, batches)
    ensures
      var events := Flatten(batches);
      && events != []
      && |batches[0]| == if isolated(events[0]) then 1 else RunLength(isolated, events)
  {
    var events, first := Flatten(batches), batches[0];
    assert events == first + Flatten(batches[1..]);
    if IsShared(isolated, first) {
      if |batches| > 1 {
        assert IsIsolated(isolated, batches[0 + 1]);
        assert Flatten(batches[1..]) == batches[1] + Flatten(batches[1..][1..]);
      }
      RunLengthIs(isolated, events, |first|);
    }
  }

  lemma WellFormedTail<E>(isolated: E -> bool, batches: seq<seq<E>>)
    requires batches != [] && WellFormed(isolated, batches)
    ensures WellFormed(isolated, batches[1..])
  {
    var tail := batches[1..];
    forall b | 0 <= b < |tail| - 1
      ensures IsIsolated(isolated, tail[b]) || IsIsolated(isolated, tail[b + 1])
    {
      assert tail[b] == batches[b + 1] && tail[b + 1] == batches[b + 2];
    }
  }

  /** Two batchings of the same events are equal: the statement above determines the result. */
  lemma {:induction false} BatchingIsUnique<E>(isolated: E -> bool, events: seq<E>, one: seq<seq<E>>, two: seq<seq<E>>)
    requires IsBatching(isolated, events, one) && IsBatching(isolated, events, two)
    ensures one == two
    decreases |one|
  {
    if one != [] {
      FirstBatchLength(isolated, one);
    }
    if two != [] {
      FirstBatchLength(isolated, two);
    }
    if one != [] {
      assert one[0] == events[..|one[0]|] == two[0];
      assert Flatten(one[1..]) == events[|one[0]|..] == Flatten(two[1..]);
      WellFormedTail(isolated, one);
      WellFormedTail(isolated, two);
      BatchingIsUnique(isolated, events[|one[0]|..], one[1..], two[1..]);
    }
  }
}
