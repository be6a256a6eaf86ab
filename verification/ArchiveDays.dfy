/** Day prefixes and object keys of the archive (src/audit/sink.ts): dates in order give prefixes
    in order, and an object carries the prefix of its own day and of no other. */
module ArchiveDays {
  import opened Options
  import opened KeysetWalk
  import opened ArchiveListing

  function Digit(n: nat): char
    requires n < 10
  {
    "0123456789"[n]
  }

  /** `n` in decimal, zero-padded to `width` places. */
  function Pad(n: nat, width: nat): string
    decreases width
  {
    if width == 0 then "" else Pad(n / 10, width - 1) + [Digit(n % 10)]
  }

  function Power(width: nat): nat { if width == 0 then 1 else 10 * Power(width - 1) }

  datatype Date = Date(year: nat, month: nat, day: nat)

  /** Years of four digits, as the query's pattern and the clock give. */
  predicate Plain(d: Date) { 1000 <= d.year < 10000 && 1 <= d.month <= 12 && 1 <= d.day <= 31 }

  predicate Earlier(a: Date, b: Date) {
    a.year < b.year || (a.year == b.year && (a.month < b.month || (a.month == b.month && a.day < b.day)))
  }

  function Prefix(d: Date): string {
    "audit/year=" + (Pad(d.year, 4) + ("/month=" + (Pad(d.month, 2) + ("/day=" + (Pad(d.day, 2) + "/")))))
  }

  function FileName(hour: nat, id: string, attempt: string): string {
    "hour=" + Pad(hour, 2) + "/" + id + "-" + attempt + ".ndjson.gz"
  }

  /** `archiveKey`, the date and hour being those of the first event. */
  function ObjectName(d: Date, hour: nat, id: string, attempt: string): string {
    Prefix(d) + FileName(hour, id, attempt)
  }

  lemma {:induction false} PadLength(n: nat, width: nat)
    ensures |Pad(n, width)| == width
    decreases width
  {
    if width > 0 {
      PadLength(n / 10, width - 1);
    }
  }

  /** Strings whose first parts have one length compare part by part. */
  lemma {:induction false} LessInParts(s: string, t: string, u: string, v: string)
    requires |s| == |t|
    ensures Less(s + u, t + v) <==> Less(s, t) || (s == t && Less(u, v))
    decreases |s|
  {
    if s == "" {
      assert s + u == u && t + v == v;
    } else {
      LessInParts(s[1..], t[1..], u, v);
      assert (s + u)[1..] == s[1..] + u && (t + v)[1..] == t[1..] + v;
      assert s == [s[0]] + s[1..] && t == [t[0]] + t[1..];
    }
  }

  lemma SameStart(s: string, u: string, v: string)
    ensures Less(s + u, s + v) <==> Less(u, v)
  {
    LessInParts(s, s, u, v);
    LessIsStrict(s, s);
  }

  lemma DigitsInOrder(m: nat, n: nat)
    requires m < 10 && n < 10
    ensures Less([Digit(m)], [Digit(n)]) <==> m < n
    ensures Digit(m) == Digit(n) <==> m == n
  {
  }

  /** Padded numbers compare as numbers. */
  lemma {:induction false} PadInOrder(m: nat, n: nat, width: nat)
    requires m < Power(width) && n < Power(width)
    ensures Less(Pad(m, width), Pad(n, width)) <==> m < n
    ensures Pad(m, width) == Pad(n, width) <==> m == n
    decreases width
  {
    if width > 0 {
      PadInOrder(m / 10, n / 10, width - 1);
      PadLength(m / 10, width - 1);
      PadLength(n / 10, width - 1);
      DigitsInOrder(m % 10, n % 10);
      var p, q, d, e := Pad(m / 10, width - 1), Pad(n / 10, width - 1), [Digit(m % 10)], [Digit(n % 10)];
      LessInParts(p, q, d, e);
      assert p + d == q + e <==> p == q && d == e by {
        assert (p + d)[..width - 1] == p && (q + e)[..width - 1] == q && (p + d)[width - 1..] == d
          && (q + e)[width - 1..] == e;
      }
      hide Less, Pad;
      assert m == 10 * (m / 10) + m % 10 && n == 10 * (n / 10) + n % 10;
    }
  }

  lemma PrefixLength(d: Date)
    ensures |Prefix(d)| == 32
  {
    PadLength(d.year, 4);
    PadLength(d.month, 2);
    PadLength(d.day, 2);
    hide Pad;
  }

  lemma Powers()
    ensures Power(4) == 10000 && Power(2) == 100
  {
    assert Power(0) == 1 && Power(1) == 10 && Power(2) == 100 && Power(3) == 1000;
  }

  lemma PrefixOrder(a: Date, b: Date)
    requires Plain(a) && Plain(b)
    ensures Less(Prefix(a), Prefix(b)) <==> Earlier(a, b)
  {
    Powers();
    PadInOrder(a.year, b.year, 4);
    PadInOrder(a.month, b.month, 2);
    PadInOrder(a.day, b.day, 2);
    PadLength(a.year, 4);
    PadLength(b.year, 4);
    PadLength(a.month, 2);
    PadLength(b.month, 2);
    PadLength(a.day, 2);
    PadLength(b.day, 2);
    hide Pad, Power;
    var dayA, dayB := Pad(a.day, 2) + "/", Pad(b.day, 2) + "/";
    LessInParts(Pad(a.day, 2), Pad(b.day, 2), "/", "/");
    LessIsStrict("/", "/");
    var monthA, monthB := Pad(a.month, 2) + ("/day=" + dayA), Pad(b.month, 2) + ("/day=" + dayB);
    LessInParts(Pad(a.month, 2), Pad(b.month, 2), "/day=" + dayA, "/day=" + dayB);
    SameStart("/day=", dayA, dayB);
    var yearA, yearB := Pad(a.year, 4) + ("/month=" + monthA), Pad(b.year, 4) + ("/month=" + monthB);
    LessInParts(Pad(a.year, 4), Pad(b.year, 4), "/month=" + monthA, "/month=" + monthB);
    SameStart("/month=", monthA, monthB);
    SameStart("audit/year=", yearA, yearB);
  }

  /** Days in calendar order have prefixes in string order, and different days different ones. */
  lemma PrefixesInCalendarOrder(a: Date, b: Date)
    requires Plain(a) && Plain(b)
    ensures |Prefix(a)| == |Prefix(b)|
    ensures Less(Prefix(a), Prefix(b)) <==> Earlier(a, b)
    ensures Prefix(a) == Prefix(b) <==> a == b
  {
    PrefixLength(a);
    PrefixLength(b);
    PrefixOrder(a, b);
    PrefixOrder(b, a);
    LessIsStrict(Prefix(a), Prefix(b));
    hide Less, Prefix;
  }

  function Prefixes(dates: seq<Date>): seq<string> { seq(|dates|, i requires 0 <= i < |dates| => Prefix(dates[i])) }

  /** So the listing's days are in order whenever the dates are. */
  lemma DatesGiveDayPrefixes(dates: seq<Date>)
    requires forall i :: 0 <= i < |dates| ==> Plain(dates[i])
    requires forall i, j :: 0 <= i < j < |dates| ==> Earlier(dates[i], dates[j])
    ensures DayPrefixes(Prefixes(dates))
  {
    hide Prefix, Less, Plain, Earlier;
    forall i, j | 0 <= i < |dates| && 0 <= j < |dates|
      ensures |Prefix(dates[i])| == |Prefix(dates[j])| && (i < j ==> Less(Prefix(dates[i]), Prefix(dates[j])))
    {
      PrefixesInCalendarOrder(dates[i], dates[j]);
    }
  }

  predicate OnADate(dates: seq<Date>, k: Key) { exists i :: 0 <= i < |dates| && Prefix(dates[i]) <= k.id }

  lemma DatesInRange(dates: seq<Date>, k: Key)
    ensures InRange(Prefixes(dates), k) <==> OnADate(dates, k)
  {
    hide Prefix;
    if i :| 0 <= i < |dates| && Prefix(dates[i]) <= k.id {
      assert Prefixes(dates)[i] <= k.id;
    }
  }

  /** The listing of a range of dates: all its objects, once, in the order of their keys. */
  method ListDates(bucket: seq<Key>, dates: seq<Date>, limit: nat, quotas: Quotas)
      returns (items: seq<Key>, ghost asked: seq<nat>)
    requires Bucket(bucket) && limit > 0
    requires forall i :: 0 <= i < |dates| ==> Plain(dates[i])
    requires forall i, j :: 0 <= i < j < |dates| ==> Earlier(dates[i], dates[j])
    ensures Ascending(items) && items == DayByDay(bucket, Prefixes(dates), None)
    ensures forall k :: k in items <==> k in bucket && OnADate(dates, k)
    ensures AskedWithin(asked, limit + 1)
  {
    DatesGiveDayPrefixes(dates);
    hide Prefix, Prefixes, Plain, Earlier, DayPrefixes, Bucket, DayByDay, OnADate, InRange, Ascending;
    var prefixes := Prefixes(dates);
    items, asked := FollowCursors(bucket, prefixes, limit, quotas);
    DayByDayAscends(bucket, prefixes, None);
    forall k
      ensures k in items <==> k in bucket && OnADate(dates, k)
    {
      DayByDayMembers(bucket, prefixes, None, k);
      DatesInRange(dates, k);
    }
  }

  /** An object is listed under the day it was written for, and under no other. */
  lemma ObjectsHaveOneDay(a: Date, b: Date, hour: nat, id: string, attempt: string)
    requires Plain(a) && Plain(b)
    ensures Prefix(b) <= ObjectName(a, hour, id, attempt) <==> a == b
  {
    PrefixesInCalendarOrder(a, b);
    hide Prefix, Less, FileName;
    assert ObjectName(a, hour, id, attempt)[..|Prefix(a)|] == Prefix(a);
  }
}
