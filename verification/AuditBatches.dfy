/** The queue batches of src/audit/sink.ts: cut greedily, and as few as any cut can be. */
module AuditBatches {
  import opened Partition

  const BATCH_SIZE := 50
  const BATCH_BYTES := 120000
  const ROWS_PER_STATEMENT := 5

  /** `size` is the length of the event's JSON in bytes. */
  datatype Event = Event(id: nat, size: nat, hot: bool)

  /** Serialized bytes, one separator an event. */
  function Weight(events: seq<Event>): nat
    decreases |events|
  {
    if events == [] then 0 else Weight(events[..|events| - 1]) + events[|events| - 1].size + 1
  }

  /** What one queue message may carry: an event is never split, however large. */
  predicate Fits(batch: seq<Event>) {
    0 < |batch| <= 50 && (|batch| == 1 || Weight(batch) <= 120000)
  }

  predicate AllFit(batches: seq<seq<Event>>) { forall i :: 0 <= i < |batches| ==> Fits(batches[i]) }

  /** No batch but the last could have taken the event that follows it. */
  predicate Greedy(batches: seq<seq<Event>>) { forall i :: 0 < i < |batches| ==> FullBefore(batches, i) }

  predicate FullBefore(batches: seq<seq<Event>>, i: nat)
    requires 0 < i < |batches|
  {
    |batches[i]| > 0 && !Fits(batches[i - 1] + [batches[i][0]])
  }

  lemma WeightPush(events: seq<Event>, e: Event)
    ensures Weight(events + [e]) == Weight(events) + e.size + 1
  {
    assert (events + [e])[..|events|] == events;
  }

  /** The weight of the events from `c` up to `d`, by their positions. */
  function Between(events: seq<Event>, c: nat, d: nat): nat
    requires d <= |events|
    decreases d
  {
    if d <= c then 0 else Between(events, c, d - 1) + events[d - 1].size + 1
  }

  lemma {:induction false} WeightBetween(events: seq<Event>, c: nat, d: nat)
    requires c <= d <= |events|
    ensures Weight(events[c..d]) == Between(events, c, d)
    decreases d
  {
    if c < d {
      WeightBetween(events, c, d - 1);
      WeightPush(events[c..d - 1], events[d - 1]);
      hide Weight;
      assert events[c..d] == events[c..d - 1] + [events[d - 1]];
    }
  }

  lemma {:induction false} BetweenGrows(events: seq<Event>, a: nat, b: nat, c: nat, d: nat)
    requires a <= c <= d <= b <= |events|
    ensures Between(events, c, d) <= Between(events, a, b)
    decreases b
  {
    if d < b {
      BetweenGrows(events, a, b - 1, c, d);
    } else if c < d {
      BetweenGrows(events, a, b - 1, c, d - 1);
    }
  }

  /** A slice of what fits, fits. */
  lemma SliceFits(events: seq<Event>, a: nat, b: nat, c: nat, d: nat)
    requires a <= c < d <= b <= |events| && Fits(events[a..b])
    ensures Fits(events[c..d])
  {
    hide Weight, Between;
    WeightBetween(events, a, b);
    WeightBetween(events, c, d);
    BetweenGrows(events, a, b, c, d);
  }

  /** Batches cut so far and the one being filled, over the events seen. */
  predicate Filling(batches: seq<seq<Event>>, current: seq<Event>, seen: seq<Event>) {
    if seen == [] then batches == [] && current == []
    else Joined(batches + [current]) == seen && AllFit(batches + [current]) && Greedy(batches + [current])
  }

  lemma StartFilling(e: Event)
    ensures Filling([], [e], [e])
  {
    assert [] + [[e]] == [[e]];
    JoinedPush([], [e]);
  }

  lemma KeepFilling(batches: seq<seq<Event>>, current: seq<Event>, seen: seq<Event>, e: Event)
    requires Filling(batches, current, seen) && seen != [] && Fits(current + [e])
    ensures Filling(batches, current + [e], seen + [e])
  {
    assert (batches + [current])[|batches|] == current;
    LastGrows(batches, current, e);
    JoinedPush(batches, current);
    JoinedPush(batches, current + [e]);
    hide Joined, AllFit, Greedy, Fits;
    assert Joined(batches) + (current + [e]) == seen + [e];
  }

  lemma LastGrows(batches: seq<seq<Event>>, current: seq<Event>, e: Event)
    requires AllFit(batches + [current]) && Greedy(batches + [current]) && |current| > 0 && Fits(current + [e])
    ensures AllFit(batches + [current + [e]]) && Greedy(batches + [current + [e]])
  {
    hide Fits;
    var before, after := batches + [current], batches + [current + [e]];
    forall i | 0 <= i < |after|
      ensures Fits(after[i])
    {
      assert i < |batches| ==> after[i] == before[i];
    }
    forall i | 0 < i < |after|
      ensures FullBefore(after, i)
    {
      assert FullBefore(before, i);
      assert after[i - 1] == before[i - 1] && after[i][0] == before[i][0];
    }
  }

  lemma CutAndFill(batches: seq<seq<Event>>, current: seq<Event>, seen: seq<Event>, e: Event)
    requires Filling(batches, current, seen) && seen != [] && !Fits(current + [e])
    ensures Filling(batches + [current], [e], seen + [e])
  {
    JoinedPush(batches + [current], [e]);
    hide Joined;
    var before, after := batches + [current], batches + [current] + [[e]];
    assert before[|batches|] == current;
    forall i | 0 < i < |after|
      ensures FullBefore(after, i)
    {
      assert i < |before| ==> FullBefore(before, i) && after[i] == before[i] && after[i - 1] == before[i - 1];
    }
  }

  method Batches(events: seq<Event>) returns (batches: seq<seq<Event>>)
    ensures Joined(batches) == events && AllFit(batches)
    ensures Greedy(batches)
    ensures forall other :: Joined(other) == events && AllFit(other) ==> |batches| <= |other|
  {
    hide Joined, AllFit, Greedy;
    batches := [];
    var current: seq<Event> := [];
    var bytes := 0;
    for i := 0 to |events|
      invariant Filling(batches, current, events[..i])
      invariant bytes == Weight(current)
      invariant |current| == 0 <==> i == 0
      invariant |current| <= BATCH_SIZE
    {
      var size := events[i].size + 1;
      WeightPush(current, events[i]);
      WeightPush([], events[i]);
      assert events[..i + 1] == events[..i] + [events[i]] && [] + [events[i]] == [events[i]];
      if |current| == BATCH_SIZE || (|current| > 0 && bytes + size > BATCH_BYTES) {
        CutAndFill(batches, current, events[..i], events[i]);
        batches := batches + [current];
        current := [];
        bytes := 0;
      } else if i > 0 {
        KeepFilling(batches, current, events[..i], events[i]);
      } else {
        StartFilling(events[i]);
      }
      current := current + [events[i]];
      bytes := bytes + size;
    }
    assert events[..|events|] == events;
    if |current| > 0 {
      batches := batches + [current];
    } else {
      NothingToBatch();
    }
    forall other | Joined(other) == events && AllFit(other)
      ensures |batches| <= |other|
    {
      GreedyIsLeast(batches, other);
    }
  }

  lemma NothingToBatch()
    ensures Joined<Event>([]) == [] && AllFit([]) && Greedy([])
  {
  }

  /** Greedy stays ahead: its k-th cut is never before the k-th cut of another partition. */
  lemma {:induction false} GreedyStaysAhead(greedy: seq<seq<Event>>, other: seq<seq<Event>>, k: nat)
    requires Joined(greedy) == Joined(other) && AllFit(greedy) && AllFit(other) && Greedy(greedy)
    requires k <= |greedy| && k <= |other|
    ensures Cut(other, k) <= Cut(greedy, k)
  {
    if k > 0 {
      GreedyStaysAhead(greedy, other, k - 1);
      PartIsSlice(greedy, k - 1);
      PartIsSlice(other, k - 1);
      var a, b := Cut(other, k - 1), Cut(other, k);
      var c, d := Cut(greedy, k - 1), Cut(greedy, k);
      if b > d {
        NextOfGreedy(greedy, k - 1);
        SliceFits(Joined(other), a, b, c, d + 1);
        assert false;
      }
    }
  }

  /** When a greedy batch ends before the events do, it and the next event do not fit. */
  lemma NextOfGreedy(greedy: seq<seq<Event>>, k: nat)
    requires AllFit(greedy) && Greedy(greedy)
    requires k < |greedy| && Cut(greedy, k + 1) < |Joined(greedy)|
    ensures Cut(greedy, k) < Cut(greedy, k + 1) && !Fits(Joined(greedy)[Cut(greedy, k)..Cut(greedy, k + 1) + 1])
  {
    hide Weight, Joined;
    PartIsSlice(greedy, k);
    assert Fits(greedy[k]);
    assert k + 1 < |greedy| by { assert greedy[..|greedy|] == greedy; }
    assert FullBefore(greedy, k + 1);
    PartAndNext(greedy, k);
  }

  /** No contiguous partition into fitting batches has fewer of them. */
  lemma GreedyIsLeast(greedy: seq<seq<Event>>, other: seq<seq<Event>>)
    requires Joined(greedy) == Joined(other) && AllFit(greedy) && AllFit(other) && Greedy(greedy)
    ensures |greedy| <= |other|
  {
    if |other| < |greedy| {
      GreedyStaysAhead(greedy, other, |other|);
      assert other[..|other|] == other;
      PartIsSlice(greedy, |other|);
      assert false;
    }
  }

  // ---------------------------------------------------------------- the hot rows

  function Hot(events: seq<Event>): seq<Event>
    decreases |events|
  {
    if events == [] then []
    else Hot(events[..|events| - 1]) + (if events[|events| - 1].hot then [events[|events| - 1]] else [])
  }

  lemma HotOfOne(e: Event)
    ensures Hot([e]) == if e.hot then [e] else []
  {
    assert [e][..0] == [];
  }

  lemma HotPush(events: seq<Event>, e: Event)
    ensures Hot(events + [e]) == Hot(events) + if e.hot then [e] else []
  {
    assert (events + [e])[..|events|] == events;
  }

  lemma Regroup(a: seq<Event>, b: seq<Event>, c: seq<Event>)
    ensures a + (b + c) == (a + b) + c
  {
  }

  lemma LastApart(b: seq<Event>)
    requires b != []
    ensures b == b[..|b| - 1] + [b[|b| - 1]]
  {
  }

  lemma NothingHot(a: seq<Event>)
    ensures Hot([]) == [] && a + [] == a && Hot(a) + [] == Hot(a)
  {
  }

  /** The hot events and no other, each where it stood: with `HotOfOne`, exactly the filter. */
  lemma {:induction false} HotInOrder(a: seq<Event>, b: seq<Event>)
    ensures Hot(a + b) == Hot(a) + Hot(b)
    decreases |b|
  {
    hide Hot;
    if b == [] {
      NothingHot(a);
    } else {
      var rest, last := b[..|b| - 1], b[|b| - 1];
      var tail := if last.hot then [last] else [];
      LastApart(b);
      HotInOrder(a, rest);
      HotPush(a + rest, last);
      HotPush(rest, last);
      Regroup(a, rest, [last]);
      Regroup(Hot(a), Hot(rest), tail);
    }
  }

  function HotStatementsFor(events: seq<Event>): nat { CeilDiv(|Hot(events)|, ROWS_PER_STATEMENT) }

  /** The statements of `storeAuditBatch`: the hot events in order, as many statements as
      `hotStatementsFor` announces. */
  method HotStatements(events: seq<Event>) returns (statements: seq<seq<Event>>)
    ensures Joined(statements) == Hot(events)
    ensures |statements| == HotStatementsFor(events)
    ensures forall i :: 0 <= i < |statements| ==> 0 < |statements[i]| <= 5
  {
    statements := Chunks(Hot(events), ROWS_PER_STATEMENT);
  }
}
