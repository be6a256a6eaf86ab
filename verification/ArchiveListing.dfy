/** The archive listing of src/admin/audit-log.ts: a loop over days around a loop over list calls
    of the bucket, each of which may stop short. Object keys are keyset keys with `created_at` 0,
    which is how the cursor seals them. */
module ArchiveListing {
  import opened Options
  import opened KeysetWalk

  /** No response of the bucket holds more. */
  const MAX_OBJECTS := 1000

  // ---------------------------------------------------------------- prefixes

  /** Keys of an earlier day come first, for prefixes of one length. */
  lemma {:induction false} PrefixesOrder(p: string, q: string, k: string, l: string)
    requires |p| == |q| && Less(p, q) && p <= k && q <= l
    ensures Less(k, l)
    decreases |p|
  {
    assert k[0] == p[0] && l[0] == q[0];
    if p[0] == q[0] {
      PrefixesOrder(p[1..], q[1..], k[1..], l[1..]);
    }
  }

  /** Past a prefix without carrying it is past every key that carries it. */
  lemma {:induction false} PastThePrefix(p: string, a: string, k: string)
    requires !Less(a, p) && !(p <= a) && p <= k
    ensures Less(k, a)
    decreases |p|
  {
    if a[0] == p[0] {
      assert p == [p[0]] + p[1..] && a == [a[0]] + a[1..];
      PastThePrefix(p[1..], a[1..], k[1..]);
    }
  }

  lemma {:induction false} BeforeThePrefix(p: string, a: string, k: string)
    requires Less(a, p) && p <= k
    ensures Less(a, k)
    decreases |p|
  {
    if a != "" && a[0] == p[0] {
      BeforeThePrefix(p[1..], a[1..], k[1..]);
    }
  }

  // ---------------------------------------------------------------- the bucket

  predicate Bucket(objects: seq<Key>) { Ascending(objects) && forall k :: k in objects ==> k.createdAt == 0 }

  function OfDay(objects: seq<Key>, prefix: string): seq<Key>
    decreases |objects|
  {
    if objects == [] then []
    else (if prefix <= objects[0].id then [objects[0]] else []) + OfDay(objects[1..], prefix)
  }

  lemma {:induction false} OfDayMembers(objects: seq<Key>, prefix: string, k: Key)
    ensures k in OfDay(objects, prefix) <==> k in objects && prefix <= k.id
    decreases |objects|
  {
    if objects != [] {
      OfDayMembers(objects[1..], prefix, k);
      assert objects == [objects[0]] + objects[1..];
    }
  }

  lemma {:induction false} OfDayAscends(objects: seq<Key>, prefix: string)
    requires Ascending(objects)
    ensures Ascending(OfDay(objects, prefix))
    decreases |objects|
  {
    hide Before;
    if objects != [] {
      OfDayAscends(objects[1..], prefix);
      forall k | k in OfDay(objects[1..], prefix)
        ensures Before(objects[0], k)
      {
        OfDayMembers(objects[1..], prefix, k);
        var i :| 0 <= i < |objects| - 1 && objects[1..][i] == k;
        assert objects[i + 1] == k;
      }
    }
  }

  /** How many objects each response holds at most beyond the first; later ones stop at the limit only. */
  type Quotas = seq<nat>

  function QuotaOf(quotas: Quotas, call: nat): nat { if call < |quotas| then quotas[call] else MAX_OBJECTS }

  datatype Listed = Listed(objects: seq<Key>, cursor: Option<Key>)

  /** `list`: at most `limit` objects of a prefix past a position, in order; a response may stop
      early (`quota`) but a truncated one holds an object, and its cursor resumes after it. */
  function List(bucket: seq<Key>, prefix: string, limit: nat, startAfter: Option<Key>, cursor: Option<Key>,
      quota: nat): Listed
    requires limit > 0
  {
    var rest := After(OfDay(bucket, prefix), if cursor.Some? then cursor else startAfter);
    var objects := Take(rest, if quota + 1 < limit then quota + 1 else limit);
    Listed(objects, if |objects| < |rest| then Some(objects[|objects| - 1]) else None)
  }

  // ---------------------------------------------------------------- one page

  lemma TakeOfRest(rows: seq<Key>, n: nat, count: nat)
    requires n <= |rows|
    ensures var m := n + |Take(rows[n..], count)|;
      m <= |rows| && m - n <= count && Take(rows[n..], count) == rows[n..m] && (m < |rows| ==> m - n == count)
  {
  }

  /** Every list call asked for at least one object and at most `most`. */
  predicate AskedWithin(asked: seq<nat>, most: nat) { forall i :: 0 <= i < |asked| ==> 1 <= asked[i] <= most }

  lemma AskedTogether(a: seq<nat>, b: seq<nat>, most: nat)
    requires AskedWithin(a, most) && AskedWithin(b, most)
    ensures AskedWithin(a + b, most)
  {
  }

  /** Where a list call leaves the listing of its day. */
  lemma ListAdvances(bucket: seq<Key>, prefix: string, limit: nat, start: Option<Key>, cursor: Option<Key>, quota: nat,
      n: nat)
    requires Bucket(bucket) && limit > 0
    requires n <= |After(OfDay(bucket, prefix), start)|
    requires After(OfDay(bucket, prefix), if cursor.Some? then cursor else start) ==
      After(OfDay(bucket, prefix), start)[n..]
    ensures
      var day := OfDay(bucket, prefix); var rows := After(day, start);
      var listed := List(bucket, prefix, limit, start, cursor, quota); var m := n + |listed.objects|;
      && m <= |rows| && m - n <= limit && listed.objects == rows[n..m]
      && (listed.cursor.None? <==> m == |rows|)
      && (listed.cursor.Some? ==> n < m && After(day, listed.cursor) == rows[m..])
  {
    hide Before;
    hide After, OfDay, Take;
    var day := OfDay(bucket, prefix);
    var rows := After(day, start);
    var listed := List(bucket, prefix, limit, start, cursor, quota);
    TakeOfRest(rows, n, if quota + 1 < limit then quota + 1 else limit);
    OfDayAscends(bucket, prefix);
    hide Ascending, List;
    var m := n + |listed.objects|;
    if listed.cursor.Some? {
      assert listed.cursor.value == rows[n..m][m - n - 1] == rows[m - 1];
      RestOfTable(day, start, m - 1);
    }
  }

  /** The inner loop: the rest of one day, as far as the page and its extra row need it. */
  method ListDay(bucket: seq<Key>, prefix: string, after: Option<Key>, sofar: seq<Key>, limit: nat, quotas: Quotas,
      call: nat)
      returns (items: seq<Key>, calls: nat, ghost asked: seq<nat>)
    requires Bucket(bucket) && |sofar| <= limit
    ensures
      var start := if after.Some? && prefix <= after.value.id then after else None;
      items == Take(sofar + After(OfDay(bucket, prefix), start), limit + 1)
    ensures AskedWithin(asked, limit + 1)
  {
    hide List, After, OfDay;
    var start := if after.Some? && prefix <= after.value.id then after else None;
    ghost var rows := After(OfDay(bucket, prefix), start);
    items, asked := sofar, [];
    var cursor: Option<Key> := None;
    var going := true;
    calls := call;
    ghost var n := 0;
    while going
      invariant 0 <= n <= |rows| && items == sofar + rows[..n]
      invariant n + |sofar| <= limit + 1
      invariant going ==>
        |items| <= limit && After(OfDay(bucket, prefix), if cursor.Some? then cursor else start) == rows[n..]
      invariant !going ==> n == |rows| || |items| == limit + 1
      invariant AskedWithin(asked, limit + 1)
      decreases |rows| - n, going
    {
      ListAdvances(bucket, prefix, limit + 1 - |items|, start, cursor, QuotaOf(quotas, calls), n);
      var listed := List(bucket, prefix, limit + 1 - |items|, start, cursor, QuotaOf(quotas, calls));
      asked := asked + [limit + 1 - |items|];
      assert rows[..n] + rows[n..n + |listed.objects|] == rows[..n + |listed.objects|];
      items := items + listed.objects;
      n := n + |listed.objects|;
      cursor := listed.cursor;
      calls := calls + 1;
      going := cursor.Some? && |items| <= limit;
    }
    assert n == |rows| ==> rows[..n] == rows;
    assert n < |rows| ==> (sofar + rows)[..limit + 1] == sofar + rows[..n];
  }

  // ---------------------------------------------------------------- all days

  /** Prefixes of one length, in order, as those of consecutive days are. */
  predicate DayPrefixes(prefixes: seq<string>) {
    && (forall i, j :: 0 <= i < j < |prefixes| ==> Less(prefixes[i], prefixes[j]))
    && (forall i, j :: 0 <= i < |prefixes| && 0 <= j < |prefixes| ==> |prefixes[i]| == |prefixes[j]|)
  }

  /** Day by day, what lies past the cursor. */
  function DayByDay(bucket: seq<Key>, prefixes: seq<string>, after: Option<Key>): seq<Key>
    decreases |prefixes|
  {
    if prefixes == [] then []
    else
      var n := |prefixes| - 1;
      DayByDay(bucket, prefixes[..n], after) + After(OfDay(bucket, prefixes[n]), after)
  }

  lemma KeyPastCursor(bucket: seq<Key>, prefix: string, after: Key, k: Key)
    requires Bucket(bucket) && after.createdAt == 0 && !(prefix <= after.id) && k in OfDay(bucket, prefix)
    ensures Before(after, k) <==> Less(after.id, prefix)
  {
    OfDayMembers(bucket, prefix, k);
    hide OfDay;
    if Less(after.id, prefix) {
      BeforeThePrefix(prefix, after.id, k.id);
    } else {
      PastThePrefix(prefix, after.id, k.id);
      LessIsStrict(after.id, k.id);
    }
  }

  lemma {:induction false} AfterAllOrNone(t: seq<Key>, after: Option<Key>, all: bool)
    requires forall k :: k in t ==> (Past(after, k) <==> all)
    ensures After(t, after) == if all then t else []
    decreases |t|
  {
    hide Before;
    if t != [] {
      assert t[0] in t && forall k :: k in t[1..] ==> k in t;
      AfterAllOrNone(t[1..], after, all);
    }
  }

  /** Without its own cursor a day is skipped or listed whole, as the two tests on the prefix say. */
  lemma DayPastCursor(bucket: seq<Key>, prefix: string, after: Key)
    requires Bucket(bucket) && after.createdAt == 0 && !(prefix <= after.id)
    ensures After(OfDay(bucket, prefix), Some(after)) ==
      if Less(after.id, prefix) then After(OfDay(bucket, prefix), None) else []
  {
    hide Before;
    var day := OfDay(bucket, prefix);
    forall k | k in day
      ensures Past(Some(after), k) <==> Less(after.id, prefix)
    {
      KeyPastCursor(bucket, prefix, after, k);
    }
    hide After, OfDay;
    AfterAllOrNone(day, Some(after), Less(after.id, prefix));
    AfterAllOrNone(day, None, true);
  }

  /** The outer loop and the page it returns. */
  method ListPage(bucket: seq<Key>, prefixes: seq<string>, after: Option<Key>, limit: nat, quotas: Quotas, call: nat)
      returns (page: Page, calls: nat, ghost asked: seq<nat>)
    requires Bucket(bucket) && (after.Some? ==> after.value.createdAt == 0)
    ensures page == PageOf(Take(DayByDay(bucket, prefixes, after), limit + 1), limit)
    ensures AskedWithin(asked, limit + 1)
  {
    hide After, OfDay, Less;
    var items: seq<Key> := [];
    asked, calls := [], call;
    var d := 0;
    while d < |prefixes| && |items| <= limit
      invariant 0 <= d <= |prefixes|
      invariant items == Take(DayByDay(bucket, prefixes[..d], after), limit + 1)
      invariant AskedWithin(asked, limit + 1)
    {
      var prefix := prefixes[d];
      assert prefixes[..d + 1][..d] == prefixes[..d];
      if after.Some? && !(prefix <= after.value.id) {
        DayPastCursor(bucket, prefix, after.value);
      }
      if !(after.Some? && !Less(after.value.id, prefix) && !(prefix <= after.value.id)) {
        ghost var more;
        items, calls, more := ListDay(bucket, prefix, after, items, limit, quotas, calls);
        asked := asked + more;
      }
      d := d + 1;
    }
    NothingBeyond(bucket, prefixes, after, d, limit + 1);
    page := Page(Take(items, limit), if |items| > limit && limit > 0 then Some(items[limit - 1]) else None);
  }

  /** Once the page is full the remaining days do not matter. */
  lemma {:induction false} NothingBeyond(bucket: seq<Key>, prefixes: seq<string>, after: Option<Key>, d: nat, n: nat)
    requires d <= |prefixes| && (d == |prefixes| || |DayByDay(bucket, prefixes[..d], after)| >= n)
    ensures Take(DayByDay(bucket, prefixes, after), n) == Take(DayByDay(bucket, prefixes[..d], after), n)
    decreases |prefixes|
  {
    if d == |prefixes| {
      assert prefixes[..d] == prefixes;
    } else {
      var shorter := prefixes[..|prefixes| - 1];
      assert shorter[..d] == prefixes[..d];
      NothingBeyond(bucket, shorter, after, d, n);
    }
  }

  // ---------------------------------------------------------------- days and keys are one order

  predicate InRange(prefixes: seq<string>, k: Key) { exists i :: 0 <= i < |prefixes| && prefixes[i] <= k.id }

  /** The objects of the range, in key order. */
  function Range(bucket: seq<Key>, prefixes: seq<string>): seq<Key>
    decreases |bucket|
  {
    if bucket == [] then []
    else (if InRange(prefixes, bucket[0]) then [bucket[0]] else []) + Range(bucket[1..], prefixes)
  }

  lemma {:induction false} RangeMembers(bucket: seq<Key>, prefixes: seq<string>, k: Key)
    ensures k in Range(bucket, prefixes) <==> k in bucket && InRange(prefixes, k)
    decreases |bucket|
  {
    hide InRange;
    if bucket != [] {
      RangeMembers(bucket[1..], prefixes, k);
      assert bucket == [bucket[0]] + bucket[1..];
    }
  }

  lemma {:induction false} RangeAscends(bucket: seq<Key>, prefixes: seq<string>)
    requires Ascending(bucket)
    ensures Ascending(Range(bucket, prefixes))
    decreases |bucket|
  {
    hide Before;
    hide InRange;
    if bucket != [] {
      RangeAscends(bucket[1..], prefixes);
      forall k | k in Range(bucket[1..], prefixes)
        ensures Before(bucket[0], k)
      {
        RangeMembers(bucket[1..], prefixes, k);
        var i :| 0 <= i < |bucket| - 1 && bucket[1..][i] == k;
        assert bucket[i + 1] == k;
      }
    }
  }

  lemma {:induction false} DayByDayMembers(bucket: seq<Key>, prefixes: seq<string>, after: Option<Key>, k: Key)
    ensures k in DayByDay(bucket, prefixes, after) <==> k in bucket && InRange(prefixes, k) && Past(after, k)
    decreases |prefixes|
  {
    hide Before;
    hide After, OfDay, Past;
    if prefixes != [] {
      var n := |prefixes| - 1;
      DayByDayMembers(bucket, prefixes[..n], after, k);
      OfDayMembers(bucket, prefixes[n], k);
      AfterMembers(OfDay(bucket, prefixes[n]), after, k);
      assert InRange(prefixes, k) <==> InRange(prefixes[..n], k) || prefixes[n] <= k.id by {
        if i :| 0 <= i < |prefixes| && prefixes[i] <= k.id {
          assert i < n ==> prefixes[..n][i] <= k.id;
        }
        if i :| 0 <= i < n && prefixes[..n][i] <= k.id {
          assert prefixes[i] <= k.id;
        }
      }
    }
  }

  /** What was listed for earlier days comes before what is listed for a later one. */
  lemma EarlierDaysFirst(bucket: seq<Key>, prefixes: seq<string>, last: string, after: Option<Key>, a: Key, b: Key)
    requires Bucket(bucket) && a in DayByDay(bucket, prefixes, after) && b in After(OfDay(bucket, last), after)
    requires forall i :: 0 <= i < |prefixes| ==> |prefixes[i]| == |last| && Less(prefixes[i], last)
    ensures Before(a, b)
  {
    DayByDayMembers(bucket, prefixes, after, a);
    AfterMembers(OfDay(bucket, last), after, b);
    OfDayMembers(bucket, last, b);
    hide DayByDay, After, OfDay, Past;
    var i :| 0 <= i < |prefixes| && prefixes[i] <= a.id;
    PrefixesOrder(prefixes[i], last, a.id, b.id);
    hide Less;
  }

  lemma {:induction false} DayByDayAscends(bucket: seq<Key>, prefixes: seq<string>, after: Option<Key>)
    requires Bucket(bucket) && DayPrefixes(prefixes)
    ensures Ascending(DayByDay(bucket, prefixes, after))
    decreases |prefixes|
  {
    hide Before, Less, After, OfDay;
    if prefixes != [] {
      var n := |prefixes| - 1;
      var earlier, day := DayByDay(bucket, prefixes[..n], after), After(OfDay(bucket, prefixes[n]), after);
      DayByDayAscends(bucket, prefixes[..n], after);
      OfDayAscends(bucket, prefixes[n]);
      AfterAscends(OfDay(bucket, prefixes[n]), after);
      forall a, b | a in earlier && b in day
        ensures Before(a, b)
      {
        EarlierDaysFirst(bucket, prefixes[..n], prefixes[n], after, a, b);
      }
      JoinAscends(earlier, day);
    }
  }

  /** Day by day and key by key is key order over the whole range. */
  lemma DayThenKeyIsKeyOrder(bucket: seq<Key>, prefixes: seq<string>, after: Option<Key>)
    requires Bucket(bucket) && DayPrefixes(prefixes)
    ensures DayByDay(bucket, prefixes, after) == After(Range(bucket, prefixes), after)
  {
    hide Before;
    var range := Range(bucket, prefixes);
    DayByDayAscends(bucket, prefixes, after);
    RangeAscends(bucket, prefixes);
    AfterAscends(range, after);
    forall k
      ensures k in DayByDay(bucket, prefixes, after) <==> k in After(range, after)
    {
      DayByDayMembers(bucket, prefixes, after, k);
      AfterMembers(range, after, k);
      RangeMembers(bucket, prefixes, k);
    }
    hide DayByDay, After, Range;
    AscendingIsUnique(DayByDay(bucket, prefixes, after), After(range, after));
  }

  /** A page of the archive is a page of the keyset walk over the range, so everything proved of
      such walks, concurrent writes included, holds of it. */
  lemma ArchivePageIsKeysetPage(bucket: seq<Key>, prefixes: seq<string>, after: Option<Key>, limit: nat)
    requires Bucket(bucket) && DayPrefixes(prefixes)
    ensures PageOf(Take(DayByDay(bucket, prefixes, after), limit + 1), limit) ==
      FetchPage(Range(bucket, prefixes), after, limit)
  {
    DayThenKeyIsKeyOrder(bucket, prefixes, after);
  }

  /** A page with a cursor and what lies past that cursor are all that lay past the cursor before. */
  lemma PageAndRest(bucket: seq<Key>, prefixes: seq<string>, after: Option<Key>, limit: nat)
    requires Bucket(bucket) && DayPrefixes(prefixes) && limit > 0
    ensures
      var rows := DayByDay(bucket, prefixes, after);
      var page := PageOf(Take(rows, limit + 1), limit);
      && (page.next.None? ==> page.items == rows)
      && (page.next.Some? ==>
            && rows == page.items + DayByDay(bucket, prefixes, page.next)
            && |page.items| == limit && page.next.value.createdAt == 0)
  {
    var range := Range(bucket, prefixes);
    RangeAscends(bucket, prefixes);
    DayThenKeyIsKeyOrder(bucket, prefixes, after);
    PageShape(range, after, limit);
    var rows := After(range, after);
    if |rows| > limit {
      var last := rows[limit - 1];
      DayThenKeyIsKeyOrder(bucket, prefixes, Some(last));
      RestOfTable(range, after, limit - 1);
      AfterMembers(range, after, last);
      RangeMembers(bucket, prefixes, last);
      hide DayByDay, After, Range;
      assert rows == rows[..limit] + rows[limit..];
    }
  }

  lemma WholeRange(bucket: seq<Key>, prefixes: seq<string>)
    requires Bucket(bucket) && DayPrefixes(prefixes)
    ensures DayByDay(bucket, prefixes, None) == Range(bucket, prefixes)
  {
    hide DayByDay, Range, After;
    DayThenKeyIsKeyOrder(bucket, prefixes, None);
    AfterAllOrNone(Range(bucket, prefixes), None, true);
  }

  /** `rest` is what is still to come after `items`. */
  ghost predicate Ahead(items: seq<Key>, rest: seq<Key>, all: seq<Key>) { items + rest == all }

  lemma AheadBy(items: seq<Key>, page: seq<Key>, rest: seq<Key>, all: seq<Key>)
    requires Ahead(items, page + rest, all)
    ensures Ahead(items + page, rest, all) && (rest == [] ==> items + page == all)
  {
    assert items + (page + rest) == (items + page) + rest;
  }

  /** A client that follows the cursors over a bucket at rest, whatever the bucket's responses leave out, gets
      every object of the range exactly once, day by day, and every list call asks for 1 to limit + 1 objects. */
  method FollowCursors(bucket: seq<Key>, prefixes: seq<string>, limit: nat, quotas: Quotas)
      returns (items: seq<Key>, ghost asked: seq<nat>)
    requires Bucket(bucket) && DayPrefixes(prefixes) && limit > 0
    ensures items == DayByDay(bucket, prefixes, None) == Range(bucket, prefixes)
    ensures AskedWithin(asked, limit + 1)
  {
    WholeRange(bucket, prefixes);
    ghost var all := DayByDay(bucket, prefixes, None);
    items, asked := [], [];
    var after: Option<Key> := None;
    var calls, more := 0, true;
    assert AskedWithin(asked, limit + 1) && Ahead(items, all, all);
    hide DayByDay, Range, Bucket, DayPrefixes, PageOf, Take, AskedWithin, Ahead;
    while more
      invariant after.Some? ==> after.value.createdAt == 0
      invariant if more then Ahead(items, DayByDay(bucket, prefixes, after), all) else items == all
      invariant AskedWithin(asked, limit + 1)
      decreases more, |DayByDay(bucket, prefixes, after)|
    {
      ghost var sizes;
      var page;
      page, calls, sizes := ListPage(bucket, prefixes, after, limit, quotas, calls);
      PageAndRest(bucket, prefixes, after, limit);
      ghost var rest := if page.next.Some? then DayByDay(bucket, prefixes, page.next) else [];
      assert DayByDay(bucket, prefixes, after) == page.items + rest;
      AheadBy(items, page.items, rest, all);
      AskedTogether(asked, sizes, limit + 1);
      items, asked := items + page.items, asked + sizes;
      after, more := page.next, page.next.Some?;
    }
  }
}
