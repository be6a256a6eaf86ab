/** Contiguous partitions of a sequence, and the fixed-size slicing loop of src/audit/sink.ts
    (rows per statement) and src/admin/import.ts (lines per claim batch). */
module Partition {
  function Joined<T>(parts: seq<seq<T>>): seq<T>
    decreases |parts|
  {
    if parts == [] then [] else Joined(parts[..|parts| - 1]) + parts[|parts| - 1]
  }

  /** Where part `k` starts. */
  function Cut<T>(parts: seq<seq<T>>, k: nat): nat
    requires k <= |parts|
  {
    |Joined(parts[..k])|
  }

  lemma JoinedPush<T>(parts: seq<seq<T>>, part: seq<T>)
    ensures Joined(parts + [part]) == Joined(parts) + part
  {
    assert (parts + [part])[..|parts|] == parts;
  }

  /** Part `k` is the slice of the whole between two cuts. */
  lemma {:induction false} PartIsSlice<T>(parts: seq<seq<T>>, k: nat)
    requires k < |parts|
    ensures Cut(parts, k + 1) == Cut(parts, k) + |parts[k]| <= |Joined(parts)|
    ensures Joined(parts)[Cut(parts, k)..Cut(parts, k + 1)] == parts[k]
    decreases |parts|
  {
    var shorter := parts[..|parts| - 1];
    assert parts[..k + 1][..k] == parts[..k];
    if k < |parts| - 1 {
      PartIsSlice(shorter, k);
      assert shorter[..k] == parts[..k] && shorter[..k + 1] == parts[..k + 1];
    } else {
      assert parts[..k + 1] == parts && parts[..k] == shorter;
    }
  }

  lemma PartAndNext<T>(parts: seq<seq<T>>, k: nat)
    requires k + 1 < |parts| && |parts[k + 1]| > 0
    ensures Cut(parts, k) <= Cut(parts, k + 1) < |Joined(parts)|
    ensures Joined(parts)[Cut(parts, k)..Cut(parts, k + 1) + 1] == parts[k] + [parts[k + 1][0]]
  {
    PartIsSlice(parts, k);
    PartIsSlice(parts, k + 1);
    hide Joined, Cut;
    var c, d, e := Cut(parts, k), Cut(parts, k + 1), Cut(parts, k + 2);
    var whole := Joined(parts);
    assert whole[c..d + 1] == whole[c..d] + [whole[d..e][0]];
  }

  function CeilDiv(n: nat, size: nat): nat
    requires size > 0
  {
    (n + size - 1) / size
  }

  method Chunks<T>(items: seq<T>, size: nat) returns (chunks: seq<seq<T>>)
    requires size > 0
    ensures Joined(chunks) == items
    ensures |chunks| == CeilDiv(|items|, size)
    ensures forall i :: 0 <= i < |chunks| ==> 0 < |chunks[i]| <= size
    ensures forall i :: 0 <= i < |chunks| - 1 ==> |chunks[i]| == size
  {
    hide Joined;
    chunks := [];
    var start := 0;
    assert Joined(chunks) == items[..0] by { NothingJoined<T>(); }
    while start < |items|
      invariant start == Times(|chunks|, size) && start < |items| + size
      invariant Joined(chunks) == items[..if start < |items| then start else |items|]
      invariant forall i :: 0 <= i < |chunks| ==> 0 < |chunks[i]| <= size
      invariant forall i :: 0 <= i < |chunks| - 1 ==> |chunks[i]| == size
      invariant start <= |items| && |chunks| > 0 ==> |chunks[|chunks| - 1]| == size
      decreases |items| - start
    {
      var end := if start + size < |items| then start + size else |items|;
      JoinedPush(chunks, items[start..end]);
      assert items[..start] + items[start..end] == items[..end];
      chunks := chunks + [items[start..end]];
      start := start + size;
    }
    CountChunks(|items|, size, |chunks|);
  }

  lemma NothingJoined<T>()
    ensures Joined<T>([]) == []
  {
  }

  /** Repeated addition. */
  function Times(count: nat, size: nat): nat { if count == 0 then 0 else Times(count - 1, size) + size }

  lemma {:induction false} TimesIsProduct(count: nat, size: nat)
    ensures Times(count, size) == count * size
  {
    if count > 0 {
      TimesIsProduct(count - 1, size);
      assert count * size == (count - 1) * size + size;
    }
  }

  lemma CountChunks(n: nat, size: nat, count: nat)
    requires size > 0 && n <= Times(count, size) < n + size
    ensures count == CeilDiv(n, size)
  {
    TimesIsProduct(count, size);
    assert count * size <= n + size - 1 < (count + 1) * size;
    QuotientUnique(n + size - 1, size, count);
  }

  lemma QuotientUnique(a: nat, size: nat, q: nat)
    requires size > 0 && q * size <= a < (q + 1) * size
    ensures a / size == q
  {
    var d := a / size;
    assert a == d * size + a % size;
    assert d < q ==> (d + 1) * size <= q * size;
    assert d > q ==> (q + 1) * size <= d * size;
  }
}
