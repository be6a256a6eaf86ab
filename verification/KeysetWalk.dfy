/** Keyset pagination (src/admin/pagination.ts) over a table that changes between pages.

    A listing orders rows by `(created_at, id)`; its index is the ascending sequence of the keys
    of the matching rows at the moment of the query. */
module KeysetWalk {
  import opened Options

  // ---------------------------------------------------------------- the order

  /** Strings in code-unit order. */
  predicate Less(a: string, b: string)
    decreases |a|
  {
    b != "" && (a == "" || a[0] < b[0] || (a[0] == b[0] && Less(a[1..], b[1..])))
  }

  lemma {:induction false} LessIsStrict(a: string, b: string)
    ensures !Less(a, a) && !(Less(a, b) && Less(b, a)) && (a == b || Less(a, b) || Less(b, a))
    decreases |a|
  {
    if a != "" {
      LessIsStrict(a[1..], if b != "" then b[1..] else a[1..]);
      if b != "" && a[0] == b[0] && a[1..] == b[1..] {
        assert a == [a[0]] + a[1..] && b == [b[0]] + b[1..];
      }
    }
  }

  lemma {:induction false} LessIsTransitive(a: string, b: string, c: string)
    requires Less(a, b) && Less(b, c)
    ensures Less(a, c)
    decreases |a|
  {
    if a != "" && a[0] == b[0] && b[0] == c[0] {
      LessIsTransitive(a[1..], b[1..], c[1..]);
    }
  }

  datatype Key = Key(createdAt: int, id: string)

  predicate Before(a: Key, b: Key) {
    a.createdAt < b.createdAt || (a.createdAt == b.createdAt && Less(a.id, b.id))
  }

  lemma BeforeIsStrict(a: Key, b: Key)
    ensures !Before(a, a) && !(Before(a, b) && Before(b, a)) && (a == b || Before(a, b) || Before(b, a))
  {
    LessIsStrict(a.id, b.id);
  }

  lemma BeforeIsTransitive(a: Key, b: Key, c: Key)
    requires Before(a, b) && Before(b, c)
    ensures Before(a, c)
  {
    if a.createdAt == b.createdAt == c.createdAt {
      LessIsTransitive(a.id, b.id, c.id);
    }
  }

  /** Older rows come first, and rows of one second in the order of their ids. */
  lemma OlderFirst(a: Key, b: Key)
    ensures a.createdAt < b.createdAt ==> Before(a, b)
    ensures a.createdAt == b.createdAt ==> (Before(a, b) <==> Less(a.id, b.id))
    ensures Before(a, b) ==> a.createdAt <= b.createdAt
  {}

  predicate Ascending(t: seq<Key>) { forall i, j :: 0 <= i < j < |t| ==> Before(t[i], t[j]) }

  /** An ascending sequence is determined by its members. */
  lemma {:induction false} AscendingIsUnique(s: seq<Key>, t: seq<Key>)
    requires Ascending(s) && Ascending(t) && forall k :: k in s <==> k in t
    ensures s == t
    decreases |s|
  {
    hide Before;
    assert t != [] ==> t[0] in t && t[0] in s;
    if s != [] {
      assert s[0] in t;
      LeastIsFirst(s, t);
      forall k
        ensures k in s[1..] <==> k in t[1..]
      {
        BeforeIsStrict(s[0], s[0]);
        assert k in s[1..] <==> k in s && k != s[0] by { FirstIsOnce(s, k); }
        assert k in t[1..] <==> k in t && k != t[0] by { FirstIsOnce(t, k); }
      }
      AscendingIsUnique(s[1..], t[1..]);
    }
  }

  lemma FirstIsOnce(t: seq<Key>, k: Key)
    requires Ascending(t) && t != []
    ensures k in t[1..] <==> k in t && k != t[0]
  {
    hide Before;
    BeforeIsStrict(t[0], t[0]);
    assert t == [t[0]] + t[1..];
    if k in t[1..] {
      var i :| 0 <= i < |t| - 1 && t[1..][i] == k;
      assert Before(t[0], t[i + 1]);
    }
  }

  lemma LeastIsFirst(s: seq<Key>, t: seq<Key>)
    requires Ascending(s) && Ascending(t) && s != [] && t != [] && s[0] in t && t[0] in s
    ensures s[0] == t[0]
  {
    hide Before;
    BeforeIsStrict(s[0], t[0]);
  }

  // ---------------------------------------------------------------- one page

  predicate Past(after: Option<Key>, k: Key) { after.None? || Before(after.value, k) }

  /** `WHERE (created_at, id) > (?, ?) ORDER BY created_at, id`. */
  function After(t: seq<Key>, after: Option<Key>): seq<Key>
    decreases |t|
  {
    if t == [] then [] else (if Past(after, t[0]) then [t[0]] else []) + After(t[1..], after)
  }

  lemma {:induction false} AfterMembers(t: seq<Key>, after: Option<Key>, k: Key)
    ensures k in After(t, after) <==> k in t && Past(after, k)
    decreases |t|
  {
    if t != [] {
      AfterMembers(t[1..], after, k);
      assert t == [t[0]] + t[1..];
    }
  }

  lemma {:induction false} AfterAscends(t: seq<Key>, after: Option<Key>)
    requires Ascending(t)
    ensures Ascending(After(t, after))
    decreases |t|
  {
    hide Before;
    if t != [] {
      AfterAscends(t[1..], after);
      forall k | k in After(t[1..], after)
        ensures Before(t[0], k)
      {
        AfterMembers(t[1..], after, k);
        var i :| 0 <= i < |t| - 1 && t[1..][i] == k;
        assert t[i + 1] == k;
      }
    }
  }

  function Take<T>(s: seq<T>, n: nat): seq<T> { if n < |s| then s[..n] else s }

  datatype Page = Page(items: seq<Key>, next: Option<Key>)

  /** `page`: of `limit + 1` fetched rows, the extra one means there is more. */
  function PageOf(rows: seq<Key>, limit: nat): Page {
    var items := Take(rows, limit);
    Page(items, if |rows| > limit && items != [] then Some(items[|items| - 1]) else None)
  }

  function FetchPage(t: seq<Key>, after: Option<Key>, limit: nat): Page {
    PageOf(Take(After(t, after), limit + 1), limit)
  }

  lemma PageShape(t: seq<Key>, after: Option<Key>, limit: nat)
    requires limit > 0
    ensures var p := FetchPage(t, after, limit); var rows := After(t, after);
      && p.items == Take(rows, limit)
      && p.next == if |rows| > limit then Some(rows[limit - 1]) else None
  {
    hide After;
  }

  /** What a page says about the table it was read from. */
  lemma PageIsExact(t: seq<Key>, after: Option<Key>, limit: nat)
    requires Ascending(t) && limit > 0
    ensures var p := FetchPage(t, after, limit);
      && p.items == Take(After(t, after), limit) && Ascending(p.items)
      && (p.next.None? <==> p.items == After(t, after))
      && (p.next.Some? ==> |p.items| == limit && p.next.value == p.items[limit - 1])
      && (forall k :: k in p.items ==> k in t && Past(after, k))
      && (forall k :: k in t && Past(after, k) ==> k in p.items || (p.next.Some? && Before(p.next.value, k)))
  {
    hide Before, After, FetchPage, Past;
    var rows, p := After(t, after), FetchPage(t, after, limit);
    AfterAscends(t, after);
    PageShape(t, after, limit);
    forall k
      ensures k in p.items ==> k in t && Past(after, k)
      ensures k in t && Past(after, k) ==> k in p.items || (p.next.Some? && Before(p.next.value, k))
    {
      AfterMembers(t, after, k);
      CutOff(rows, limit, k);
    }
  }

  /** A row is among the first `limit` or after the last of them. */
  lemma CutOff(rows: seq<Key>, limit: nat, k: Key)
    requires Ascending(rows) && limit > 0
    ensures k in Take(rows, limit) ==> k in rows
    ensures k in rows ==> k in Take(rows, limit) || (|rows| > limit && Before(rows[limit - 1], k))
  {
    hide Before;
    if k in rows {
      var i :| 0 <= i < |rows| && rows[i] == k;
      assert i < limit ==> Take(rows, limit)[i] == k;
    }
  }

  // ---------------------------------------------------------------- a walk

  /** Page after page, `ts[i]` being the table when page `i` was read; ends at the page without a cursor. */
  function Walk(ts: seq<seq<Key>>, after: Option<Key>, limit: nat): seq<Page>
    decreases |ts|
  {
    if ts == [] then []
    else
      var p := FetchPage(ts[0], after, limit);
      [p] + if p.next.Some? then Walk(ts[1..], p.next, limit) else []
  }

  predicate Finished(pages: seq<Page>) { pages != [] && pages[|pages| - 1].next.None? }

  function Items(pages: seq<Page>): seq<Key>
    decreases |pages|
  {
    if pages == [] then [] else pages[0].items + Items(pages[1..])
  }

  predicate AllAscending(ts: seq<seq<Key>>) { forall i :: 0 <= i < |ts| ==> Ascending(ts[i]) }

  lemma {:induction false} WalkGoesOn(ts: seq<seq<Key>>, after: Option<Key>, limit: nat)
    requires ts != [] && FetchPage(ts[0], after, limit).next.Some?
    ensures var p := FetchPage(ts[0], after, limit); var rest := Walk(ts[1..], p.next, limit);
      Walk(ts, after, limit) == [p] + rest && Items(Walk(ts, after, limit)) == p.items + Items(rest)
      && (Finished(Walk(ts, after, limit)) <==> Finished(rest))
  {
    var p := FetchPage(ts[0], after, limit);
    var rest := Walk(ts[1..], p.next, limit);
    assert ([p] + rest)[1..] == rest;
  }

  lemma WalkStops(ts: seq<seq<Key>>, after: Option<Key>, limit: nat)
    requires ts != [] && FetchPage(ts[0], after, limit).next.None?
    ensures Walk(ts, after, limit) == [FetchPage(ts[0], after, limit)]
    ensures Items(Walk(ts, after, limit)) == FetchPage(ts[0], after, limit).items && Finished(Walk(ts, after, limit))
  {
    var p := FetchPage(ts[0], after, limit);
    assert [p][1..] == [];
    assert p.items + [] == p.items;
  }

  /** Whatever is written between the pages, the keys returned strictly increase (so none comes
      twice), and every one was in the table when its page was read. */
  lemma {:induction false} WalkAscends(ts: seq<seq<Key>>, after: Option<Key>, limit: nat)
    requires AllAscending(ts) && limit > 0
    ensures Ascending(Items(Walk(ts, after, limit)))
    ensures forall k :: k in Items(Walk(ts, after, limit)) ==> Past(after, k) && exists i :: 0 <= i < |ts| && k in ts[i]
    decreases |ts|
  {
    hide Before;
    if ts != [] {
      var p := FetchPage(ts[0], after, limit);
      PageIsExact(ts[0], after, limit);
      if p.next.None? {
        WalkStops(ts, after, limit);
      } else {
        WalkGoesOn(ts, after, limit);
        WalkAscends(ts[1..], p.next, limit);
        LaterPagesAreLater(ts, after, limit);
      }
    }
  }

  lemma LaterPagesAreLater(ts: seq<seq<Key>>, after: Option<Key>, limit: nat)
    requires ts != [] && Ascending(ts[0]) && limit > 0 && FetchPage(ts[0], after, limit).next.Some?
    requires var rest := Items(Walk(ts[1..], FetchPage(ts[0], after, limit).next, limit));
      Ascending(rest)
      && forall k :: k in rest ==> Past(FetchPage(ts[0], after, limit).next, k) && exists i ::
           0 <= i < |ts[1..]| && k in ts[1..][i]
    ensures var p := FetchPage(ts[0], after, limit); var all := p.items + Items(Walk(ts[1..], p.next, limit));
      Ascending(all) && forall k :: k in all ==> Past(after, k) && exists i :: 0 <= i < |ts| && k in ts[i]
  {
    hide Before;
    var p := FetchPage(ts[0], after, limit);
    var rest := Items(Walk(ts[1..], p.next, limit));
    PageIsExact(ts[0], after, limit);
    hide Walk, Items, FetchPage;
    var last := p.next.value;
    forall a, b | a in p.items && b in rest
      ensures Before(a, b)
    {
      var i :| 0 <= i < limit && p.items[i] == a;
      assert Past(p.next, b);
      if a != last {
        BeforeIsTransitive(a, last, b);
      }
    }
    forall k | k in p.items + rest
      ensures Past(after, k) && exists i :: 0 <= i < |ts| && k in ts[i]
    {
      if k in rest {
        var i :| 0 <= i < |ts[1..]| && k in ts[1..][i];
        assert k in ts[i + 1];
        if after.Some? {
          assert Past(after, last) && Past(p.next, k);
          BeforeIsTransitive(after.value, last, k);
        }
      } else {
        assert k in ts[0];
      }
    }
    JoinAscends(p.items, rest);
  }

  lemma JoinAscends(s: seq<Key>, t: seq<Key>)
    requires Ascending(s) && Ascending(t) && forall a, b :: a in s && b in t ==> Before(a, b)
    ensures Ascending(s + t)
  {
    hide Before;
    forall i, j | 0 <= i < j < |s + t|
      ensures Before((s + t)[i], (s + t)[j])
    {
      if i < |s| <= j {
        assert (s + t)[i] in s && (s + t)[j] == t[j - |s|] && t[j - |s|] in t;
      }
    }
  }

  /** A row present throughout a walk that ends is returned. */
  lemma {:induction false} WalkIsComplete(ts: seq<seq<Key>>, after: Option<Key>, limit: nat, k: Key)
    requires AllAscending(ts) && limit > 0 && Finished(Walk(ts, after, limit))
    requires Past(after, k) && forall i :: 0 <= i < |ts| ==> k in ts[i]
    ensures k in Items(Walk(ts, after, limit))
    decreases |ts|
  {
    hide Before;
    var p := FetchPage(ts[0], after, limit);
    PageIsExact(ts[0], after, limit);
    assert k in ts[0];
    if p.next.None? {
      WalkStops(ts, after, limit);
    } else {
      WalkGoesOn(ts, after, limit);
      if k !in p.items {
        WalkIsComplete(ts[1..], p.next, limit, k);
      }
    }
  }

  /** What lies past a row is what follows it. */
  lemma PastARow(t: seq<Key>, after: Option<Key>, i: nat, k: Key)
    requires Ascending(t) && Ascending(After(t, after)) && i < |After(t, after)|
    ensures k in After(t, after)[i + 1..] <==> k in After(t, Some(After(t, after)[i]))
  {
    hide Before;
    var rows := After(t, after);
    var row := rows[i];
    AfterMembers(t, after, k);
    AfterMembers(t, after, row);
    AfterMembers(t, Some(row), k);
    hide After;
    if k in rows[i + 1..] {
      var j :| 0 <= j < |rows| - i - 1 && rows[i + 1..][j] == k;
      assert Before(rows[i], rows[i + 1 + j]);
    }
    if k in t && Before(row, k) {
      if after.Some? {
        BeforeIsTransitive(after.value, row, k);
      }
      var j :| 0 <= j < |rows| && rows[j] == k;
      BeforeIsStrict(row, k);
      assert j > i;
      assert rows[i + 1..][j - i - 1] == k;
    }
  }

  lemma RestOfTable(t: seq<Key>, after: Option<Key>, i: nat)
    requires Ascending(t) && i < |After(t, after)|
    ensures After(t, Some(After(t, after)[i])) == After(t, after)[i + 1..]
  {
    hide Before;
    var rows := After(t, after);
    AfterAscends(t, after);
    AfterAscends(t, Some(rows[i]));
    hide After;
    forall k
      ensures k in rows[i + 1..] <==> k in After(t, Some(rows[i]))
    {
      PastARow(t, after, i, k);
    }
    assert Ascending(rows[i + 1..]);
    AscendingIsUnique(rows[i + 1..], After(t, Some(rows[i])));
  }

  predicate Unchanged(ts: seq<seq<Key>>, t: seq<Key>) { forall i :: 0 <= i < |ts| ==> ts[i] == t }

  lemma {:induction false} ListedOnce(t: seq<Key>, k: Key)
    requires Ascending(t) && k in t
    ensures multiset(t)[k] == 1
    decreases |t|
  {
    hide Before;
    assert t == [t[0]] + t[1..];
    FirstIsOnce(t, k);
    if k in t[1..] {
      ListedOnce(t[1..], k);
    }
  }

  /** Exactly once, whatever is inserted and deleted between the pages. */
  lemma EveryLastingRowOnce(ts: seq<seq<Key>>, limit: nat, k: Key)
    requires AllAscending(ts) && limit > 0 && Finished(Walk(ts, None, limit))
    requires forall i :: 0 <= i < |ts| ==> k in ts[i]
    ensures multiset(Items(Walk(ts, None, limit)))[k] == 1
  {
    hide Before;
    WalkAscends(ts, None, limit);
    WalkIsComplete(ts, None, limit, k);
    ListedOnce(Items(Walk(ts, None, limit)), k);
  }

  /** `pages` pages hold `rows` rows. */
  predicate Suffice(pages: nat, limit: nat, rows: nat) { rows <= pages * limit }

  /** On a table nobody writes to, a walk with pages enough ends and its pages are the table. */
  lemma {:induction false} StaticWalk(t: seq<Key>, ts: seq<seq<Key>>, after: Option<Key>, limit: nat)
    requires Ascending(t) && limit > 0 && ts != [] && Unchanged(ts, t) && Suffice(|ts|, limit, |After(t, after)|)
    ensures var pages := Walk(ts, after, limit);
      Finished(pages) && Items(pages) == After(t, after)
    decreases |ts|
  {
    hide Before;
    hide Suffice, After, FetchPage, Walk, Items, Finished;
    var p, rows := FetchPage(t, after, limit), After(t, after);
    PageShape(t, after, limit);
    if p.next.None? {
      WalkStops(ts, after, limit);
    } else {
      WalkGoesOn(ts, after, limit);
      RestOfTable(t, after, limit - 1);
      OnePageLess(|ts|, limit, |rows|);
      StaticWalk(t, ts[1..], p.next, limit);
      assert rows == rows[..limit] + rows[limit..];
    }
  }

  lemma OnePageLess(pages: nat, limit: nat, rows: nat)
    requires Suffice(pages, limit, rows) && rows > limit
    ensures pages > 1 && Suffice(pages - 1, limit, rows - limit)
  {
    assert pages * limit == (pages - 1) * limit + limit;
    assert pages <= 1 ==> pages * limit <= limit;
  }
}
