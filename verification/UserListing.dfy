/** `GET /admin/users`: the statement of src/db/users.ts and the walk over its pages. */
module UserListing {
  import opened Options
  import opened KeysetWalk

  datatype Status = Creating | Active | Disabled

  datatype UserRow = UserRow(
    id: string, createdAt: int, emailNorm: Option<string>, emailVerified: bool, status: Status, groups: set<string>)

  datatype Filters = Filters(
    emailNorm: Option<string>, status: Option<Status>, groupId: Option<string>, createdAfter: Option<int>,
    createdBefore: Option<int>)

  function KeyOf(row: UserRow): Key { Key(row.createdAt, row.id) }

  /** What the filters ask for; rows still being created are invisible unless asked for. */
  predicate Matches(f: Filters, row: UserRow) {
    && (f.emailNorm.Some? ==> row.emailNorm == f.emailNorm && row.emailVerified)
    && (if f.status.Some? then row.status == f.status.value else row.status != Creating)
    && (f.groupId.Some? ==> f.groupId.value in row.groups)
    && (f.createdAfter.Some? ==> f.createdAfter.value <= row.createdAt)
    && (f.createdBefore.Some? ==> row.createdAt <= f.createdBefore.value)
  }

  /** The terms of the WHERE clause with their bound values. */
  datatype Term =
    | VerifiedEmail(email: string)
    | HasStatus(status: Status)
    | NotCreating
    | InGroup(group: string)
    | CreatedFrom(from: int)
    | CreatedTo(to: int)
    | Beyond(key: Key)

  predicate Holds(term: Term, row: UserRow) {
    match term
    case VerifiedEmail(email) => row.emailNorm == Some(email) && row.emailVerified
    case HasStatus(status) => row.status == status
    case NotCreating => row.status != Creating
    case InGroup(group) => group in row.groups
    case CreatedFrom(from) => row.createdAt >= from
    case CreatedTo(to) => row.createdAt <= to
    case Beyond(key) => Before(key, KeyOf(row))
  }

  predicate Satisfies(where: seq<Term>, row: UserRow) { forall i :: 0 <= i < |where| ==> Holds(where[i], row) }

  lemma OneMoreTerm(where: seq<Term>, term: Term, row: UserRow)
    ensures Satisfies(where + [term], row) <==> Satisfies(where, row) && Holds(term, row)
  {
    assert (where + [term])[|where|] == term;
    assert forall i :: 0 <= i < |where| ==> (where + [term])[i] == where[i];
  }

  method AddTerm(terms: seq<Term>, term: Term) returns (more: seq<Term>)
    ensures forall row :: Satisfies(more, row) <==> Satisfies(terms, row) && Holds(term, row)
    ensures more != []
  {
    hide Holds;
    forall row
      ensures Satisfies(terms + [term], row) <==> Satisfies(terms, row) && Holds(term, row)
    {
      OneMoreTerm(terms, term, row);
    }
    more := terms + [term];
  }

  /** The clause selects exactly the rows that match the filters past the cursor. */
  method ListUsersStatement(f: Filters, after: Option<Key>) returns (where: seq<Term>)
    ensures where != []
    ensures forall row :: Satisfies(where, row) <==> Matches(f, row) && Past(after, KeyOf(row))
  {
    where := [];
    assert forall row :: Satisfies(where, row);
    hide Satisfies, Before;
    if f.emailNorm.Some? {
      where := AddTerm(where, VerifiedEmail(f.emailNorm.value));
    }
    where := AddTerm(where, if f.status.Some? then HasStatus(f.status.value) else NotCreating);
    if f.groupId.Some? {
      where := AddTerm(where, InGroup(f.groupId.value));
    }
    if f.createdAfter.Some? {
      where := AddTerm(where, CreatedFrom(f.createdAfter.value));
    }
    if f.createdBefore.Some? {
      where := AddTerm(where, CreatedTo(f.createdBefore.value));
    }
    if after.Some? {
      where := AddTerm(where, Beyond(after.value));
    }
  }

  // ---------------------------------------------------------------- the listing

  /** The table in the order of the index on `(created_at, id)`. */
  predicate Indexed(table: seq<UserRow>) {
    forall i, j :: 0 <= i < j < |table| ==> Before(KeyOf(table[i]), KeyOf(table[j]))
  }

  /** What the database answers without its LIMIT. */
  function Selected(table: seq<UserRow>, where: seq<Term>): seq<Key>
    decreases |table|
  {
    if table == [] then []
    else (if Satisfies(where, table[0]) then [KeyOf(table[0])] else []) + Selected(table[1..], where)
  }

  function Matching(table: seq<UserRow>, f: Filters): seq<Key>
    decreases |table|
  {
    if table == [] then []
    else (if Matches(f, table[0]) then [KeyOf(table[0])] else []) + Matching(table[1..], f)
  }

  /** The statement reads the matching rows past the cursor, in order. */
  lemma {:induction false} StatementReadsPastTheCursor(table: seq<UserRow>, f: Filters, after: Option<Key>,
      where: seq<Term>)
    requires forall row :: Satisfies(where, row) <==> Matches(f, row) && Past(after, KeyOf(row))
    ensures Selected(table, where) == After(Matching(table, f), after)
    decreases |table|
  {
    hide Satisfies, Matches, Past;
    if table != [] {
      StatementReadsPastTheCursor(table[1..], f, after, where);
      var rest := Matching(table[1..], f);
      assert [] + rest == rest && ([KeyOf(table[0])] + rest)[1..] == rest;
      assert Satisfies(where, table[0]) <==> Matches(f, table[0]) && Past(after, KeyOf(table[0]));
      assert [] + After(rest, after) == After(rest, after);
    }
  }

  lemma {:induction false} MatchingMembers(table: seq<UserRow>, f: Filters, k: Key)
    ensures k in Matching(table, f) <==> exists i :: 0 <= i < |table| && KeyOf(table[i]) == k && Matches(f, table[i])
    decreases |table|
  {
    hide Matches, KeyOf;
    if table != [] {
      var rest := table[1..];
      MatchingMembers(rest, f, k);
      if i :| 0 <= i < |rest| && KeyOf(rest[i]) == k && Matches(f, rest[i]) {
        assert table[i + 1] == rest[i];
      }
      if i :| 0 <= i < |table| && KeyOf(table[i]) == k && Matches(f, table[i]) {
        assert i > 0 ==> rest[i - 1] == table[i];
      }
    }
  }

  lemma {:induction false} MatchingAscends(table: seq<UserRow>, f: Filters)
    requires Indexed(table)
    ensures Ascending(Matching(table, f))
    decreases |table|
  {
    hide Matches, KeyOf, Before;
    if table != [] {
      MatchingAscends(table[1..], f);
      forall k | k in Matching(table[1..], f)
        ensures Before(KeyOf(table[0]), k)
      {
        MatchingMembers(table[1..], f, k);
        var i :| 0 <= i < |table[1..]| && KeyOf(table[1..][i]) == k;
        assert table[i + 1] == table[1..][i];
      }
    }
  }

  /** A user who matches the filters at every page of a walk that ends is listed exactly once,
      and the listing never goes back, whatever else is written meanwhile. */
  lemma EveryLastingUserOnce(tables: seq<seq<UserRow>>, f: Filters, limit: nat, k: Key)
    requires forall i :: 0 <= i < |tables| ==> Indexed(tables[i])
    requires var ts := seq(|tables|, i requires 0 <= i < |tables| => Matching(tables[i], f));
      limit > 0 && Finished(Walk(ts, None, limit)) && forall i :: 0 <= i < |ts| ==> k in ts[i]
    ensures var ts := seq(|tables|, i requires 0 <= i < |tables| => Matching(tables[i], f));
      Ascending(Items(Walk(ts, None, limit))) && multiset(Items(Walk(ts, None, limit)))[k] == 1
  {
    var ts := seq(|tables|, i requires 0 <= i < |tables| => Matching(tables[i], f));
    forall i | 0 <= i < |ts|
      ensures Ascending(ts[i])
    {
      MatchingAscends(tables[i], f);
    }
    WalkAscends(ts, None, limit);
    EveryLastingRowOnce(ts, limit, k);
  }
}
