/** The loops and mutable objects of the key store: deriveRoles, the D1 table, the cron steps
    and the per-isolate cache. */
module KeyObjects {
  import opened Options
  import opened KeyModel

  datatype KeyRoles = KeyRoles(signing: Option<Row>, next: seq<Row>, verifying: seq<Row>, retired: seq<Row>)

  /** `rows` lists every row of `t` once, in any order. */
  ghost predicate Lists(rows: seq<Row>, t: Table) {
    && (forall i :: 0 <= i < |rows| ==> rows[i].kid in t && t[rows[i].kid] == rows[i].key)
    && (forall i, j :: 0 <= i < j < |rows| ==> rows[i].kid != rows[j].kid)
    && (forall k :: k in t ==> Row(k, t[k]) in rows)
  }

  function WithRole(rows: seq<Row>, role: Role, now: Time, signingAt: Option<Time>): seq<Row> {
    if rows == [] then []
    else
      var last := rows[|rows| - 1];
      WithRole(rows[..|rows| - 1], role, now, signingAt) +
        (if RoleOf(last.key, now, signingAt) == role then [last] else [])
  }

  function ActivationOf(signing: Option<Row>): Option<Time> {
    if signing.Some? then Some(signing.value.key.activatesAt) else None
  }

  ghost function SignerRow(t: Table, now: Time): Option<Row> {
    if SignerOf(t, now).None? then None else Some(Row(SignerOf(t, now).value, t[SignerOf(t, now).value]))
  }

  /** The reduce over the active rows. */
  method ChooseSigner(rows: seq<Row>, now: Time, ghost t: Table) returns (best: Option<Row>)
    requires Lists(rows, t)
    ensures best == SignerRow(t, now)
  {
    hide Lists, SignerOf;
    best := None;
    for i := 0 to |rows|
      invariant best.None? ==> forall j :: 0 <= j < i ==> !Active(rows[j].key, now)
      invariant best.Some? ==> best.value in rows[..i] && Active(best.value.key, now)
      invariant best.Some? ==> forall j :: 0 <= j < i && Active(rows[j].key, now) && rows[j] != best.value ==>
        Beats(best.value, rows[j])
    {
      if Active(rows[i].key, now) && (best.None? || Beats(rows[i], best.value)) {
        best := Some(rows[i]);
      }
    }
    SignerFromBest(rows, now, t, best);
  }

  method DeriveRoles(rows: seq<Row>, now: Time, ghost t: Table) returns (roles: KeyRoles)
    requires Lists(rows, t)
    ensures roles.signing == SignerRow(t, now)
    ensures var at := ActivationOf(roles.signing);
      && roles.next == WithRole(rows, Next, now, at)
      && roles.verifying == WithRole(rows, Verifying, now, at)
      && roles.retired == WithRole(rows, Retired, now, at)
  {
    hide Lists, SignerRow, RoleOf;
    var best := ChooseSigner(rows, now, t);
    var at := ActivationOf(best);
    var next: seq<Row>, verifying: seq<Row>, retired: seq<Row> := [], [], [];
    for i := 0 to |rows|
      invariant next == WithRole(rows[..i], Next, now, at)
      invariant verifying == WithRole(rows[..i], Verifying, now, at)
      invariant retired == WithRole(rows[..i], Retired, now, at)
    {
      assert rows[..i + 1][..i] == rows[..i];
      match RoleOf(rows[i].key, now, at)
      case Next => next := next + [rows[i]];
      case Verifying => verifying := verifying + [rows[i]];
      case Retired => retired := retired + [rows[i]];
      case Signing =>
    }
    assert rows[..|rows|] == rows;
    roles := KeyRoles(best, next, verifying, retired);
  }

  lemma SignerFromBest(rows: seq<Row>, now: Time, t: Table, best: Option<Row>)
    requires Lists(rows, t)
    requires best.None? ==> forall j :: 0 <= j < |rows| ==> !Active(rows[j].key, now)
    requires best.Some? ==> best.value in rows && Active(best.value.key, now)
    requires best.Some? ==> forall j :: 0 <= j < |rows| && Active(rows[j].key, now) && rows[j] != best.value ==>
      Beats(best.value, rows[j])
    ensures best == SignerRow(t, now)
  {
    if best.Some? {
      var k := best.value.kid;
      forall l | l in t && l != k && Active(t[l], now)
        ensures Beats(Row(k, t[k]), Row(l, t[l]))
      {
        var j :| 0 <= j < |rows| && rows[j] == Row(l, t[l]);
      }
      assert IsSigner(t, now, k);
      SignerUnique(t, now, k, SignerOf(t, now).value);
    } else {
      assert forall k :: k in t ==> Row(k, t[k]) in rows;
      assert !HasActive(t, now);
    }
  }

  /** The rows of a role are those of the table, whatever the order of the listing. */
  lemma {:induction false} RolesOfAnyListing(rows: seq<Row>, role: Role, now: Time, at: Option<Time>, r: Row)
    ensures r in WithRole(rows, role, now, at) <==> r in rows && RoleOf(r.key, now, at) == role
  {
    if rows != [] {
      var n := |rows| - 1;
      RolesOfAnyListing(rows[..n], role, now, at, r);
      assert rows == rows[..n] + [rows[n]];
    }
  }

  lemma RetiringOneMore(t: Table, done: set<Kid>, kid: Kid, now: Time)
    ensures Retire(Retire(t, done, now), {kid}, now) == Retire(t, done + {kid}, now)
  {}

  class KeyTable {
    var rows: Table

    constructor ()
      ensures rows == map[]
    {
      rows := map[];
    }

    /** The primary key refuses a kid that is already there. */
    method InsertSigningKey(kid: Kid, now: Time, activatesAt: Time) returns (inserted: bool)
      modifies this
      ensures inserted == (kid !in old(rows))
      ensures rows == Insert(old(rows), kid, now, activatesAt)
    {
      inserted := kid !in rows;
      if inserted {
        rows := rows[kid := Key(now, activatesAt, None)];
      }
    }

    /** One statement, so that concurrent isolates create at most one first key. */
    method InsertFirstSigningKey(kid: Kid, now: Time) returns (inserted: bool)
      modifies this
      ensures rows == InsertFirst(old(rows), kid, now)
      ensures inserted <==> kid !in old(rows) && !HasUnretired(old(rows))
    {
      inserted := kid !in rows && !(exists k :: k in rows && rows[k].retiredAt.None?);
      if inserted {
        rows := rows[kid := Key(now, now, None)];
      }
    }

    /** The emergency retirement of src/crypto/keystore.ts:184-194. */
    method RetireSigningKeyNow(listing: seq<Row>, kid: Kid, now: Time) returns (r: RetireResult)
      requires Lists(listing, rows)
      modifies this
      ensures (rows, r) == RetireNow(old(rows), kid, now)
    {
      var target: Option<Row> := None;
      var others := 0;
      for i := 0 to |listing|
        invariant target.Some? <==> exists j :: 0 <= j < i && listing[j].kid == kid && listing[j].key.retiredAt.None?
        invariant target.Some? ==> target.value.kid == kid && kid in rows && rows[kid] == target.value.key
        invariant others >= 0
          && (others > 0 <==> exists j :: 0 <= j < i && listing[j].kid != kid && Active(listing[j].key, now))
      {
        if listing[i].kid == kid && listing[i].key.retiredAt.None? {
          target := Some(listing[i]);
        }
        if listing[i].kid != kid && Active(listing[i].key, now) {
          others := others + 1;
        }
      }
      if target.None? {
        assert kid in rows ==> Row(kid, rows[kid]) in listing;
        return NotFound;
      }
      assert forall k :: k in rows && k != kid && Active(rows[k], now) ==> Row(k, rows[k]) in listing;
      if target.value.key.activatesAt <= now && others == 0 {
        return LastActiveKey;
      }
      var _ := RetireSigningKey(kid, now);
      r := RetiredNow;
    }

    method RetireSigningKey(kid: Kid, now: Time) returns (changed: bool)
      modifies this
      ensures changed == (kid in old(rows) && old(rows)[kid].retiredAt.None?)
      ensures rows == Retire(old(rows), {kid}, now)
    {
      changed := kid in rows && rows[kid].retiredAt.None?;
      if changed {
        rows := rows[kid := rows[kid].(retiredAt := Some(now))];
      }
    }

    method RetireEach(verifying: seq<Row>, now: Time) returns (retired: seq<Kid>)
      modifies this
      ensures rows == Retire(old(rows), set j | 0 <= j < |verifying| :: verifying[j].kid, now)
      ensures |retired| == |verifying| && forall j :: 0 <= j < |retired| ==> retired[j] == verifying[j].kid
    {
      ghost var before := rows;
      ghost var done: set<Kid> := {};
      retired := [];
      assert Retire(before, done, now) == before;
      for i := 0 to |verifying|
        invariant done == set j | 0 <= j < i :: verifying[j].kid
        invariant rows == Retire(before, done, now)
        invariant |retired| == i && forall j :: 0 <= j < i ==> retired[j] == verifying[j].kid
      {
        var _ := RetireSigningKey(verifying[i].kid, now);
        RetiringOneMore(before, done, verifying[i].kid, now);
        done := done + {verifying[i].kid};
        retired := retired + [verifying[i].kid];
      }
    }

    method DeleteRetiredSigningKeys(cutoff: Time) returns (deleted: set<Kid>)
      modifies this
      ensures rows == DeleteRetired(old(rows), cutoff) && deleted == old(rows).Keys - rows.Keys
    {
      deleted := set k | k in rows && rows[k].retiredAt.Some? && rows[k].retiredAt.value < cutoff;
      rows := map k | k in rows && k !in deleted :: rows[k];
    }

    /** The cron steps of src/crypto/keystore.ts:215-247; `listing` is what the SELECT returned. */
    method Maintain(listing: seq<Row>, kid: Kid, now: Time, s: Settings) returns (report: Maintenance)
      requires Lists(listing, rows)
      modifies this
      ensures rows == Maintained(old(rows), SignerOf(old(rows), now), kid, now, s)
      ensures Reports(report, old(rows), rows, SignerOf(old(rows), now), kid, now, s)
    {
      hide Lists, IsSigner, WithRole, VerifyingKids, NoNext, DeleteRetired;
      ghost var t := rows;
      var roles := DeriveRoles(listing, now, t);
      var created: Option<Kid> := None;
      var retired: seq<Kid> := [];
      if roles.signing.Some? {
        var at := roles.signing.value.key.activatesAt;
        NextIsEmpty(listing, t, now, at);
        if s.rotationDays > 0 && now - at >= s.rotationDays * 86400 && |roles.next| == 0 {
          var _ := InsertSigningKey(kid, now, now + s.prepublish);
          created := Some(kid);
        }
        if now - at >= s.retireAfter {
          retired := RetireEach(roles.verifying, now);
          VerifyingListed(listing, t, now, at);
          ListedKids(roles.verifying, retired);
        }
      }
      var deleted := DeleteRetiredSigningKeys(now - RETENTION);
      report := Maintenance(created, retired, deleted);
    }
  }

  datatype Maintenance = Maintenance(created: Option<Kid>, retired: seq<Kid>, deleted: set<Kid>)

  /** The report names the key created, exactly the keys retired, and exactly the keys deleted. */
  ghost predicate Reports(m: Maintenance, t: Table, after: Table, g: Option<Kid>, kid: Kid, now: Time, s: Settings)
    requires g.Some? ==> g.value in t
  {
    && (m.created == if g.Some? && RotationDue(t, g.value, now, s) then Some(kid) else None)
    && ((set j | 0 <= j < |m.retired| :: m.retired[j]) ==
          if g.Some? && RetirementDue(t, g.value, now, s) then VerifyingKids(t, now, t[g.value].activatesAt) else {})
    && m.deleted == (t.Keys + if m.created.Some? then {kid} else {}) - after.Keys
  }

  lemma ListedKids(rows: seq<Row>, kids: seq<Kid>)
    requires |kids| == |rows| && forall j :: 0 <= j < |kids| ==> kids[j] == rows[j].kid
    ensures (set j | 0 <= j < |kids| :: kids[j]) == set j | 0 <= j < |rows| :: rows[j].kid
  {}

  lemma NextIsEmpty(listing: seq<Row>, t: Table, now: Time, at: Time)
    requires Lists(listing, t)
    ensures WithRole(listing, Next, now, Some(at)) == [] <==> NoNext(t, now)
  {
    var next := WithRole(listing, Next, now, Some(at));
    if next != [] {
      RolesOfAnyListing(listing, Next, now, Some(at), next[0]);
    }
    forall k | k in t && t[k].retiredAt.None? && t[k].activatesAt > now
      ensures next != []
    {
      RolesOfAnyListing(listing, Next, now, Some(at), Row(k, t[k]));
    }
  }

  lemma VerifyingListed(listing: seq<Row>, t: Table, now: Time, at: Time)
    requires Lists(listing, t)
    ensures var v := WithRole(listing, Verifying, now, Some(at));
      (set j | 0 <= j < |v| :: v[j].kid) == VerifyingKids(t, now, at)
  {
    var v := WithRole(listing, Verifying, now, Some(at));
    forall k
      ensures k in (set j | 0 <= j < |v| :: v[j].kid) <==> k in VerifyingKids(t, now, at)
    {
      if k in t {
        RolesOfAnyListing(listing, Verifying, now, Some(at), Row(k, t[k]));
      }
      forall j | 0 <= j < |v| && v[j].kid == k
        ensures k in VerifyingKids(t, now, at)
      {
        RolesOfAnyListing(listing, Verifying, now, Some(at), v[j]);
      }
    }
  }

  // ---------------------------------------------------------------- the isolate cache

  /** The signing kid and the published kids of a load. */
  datatype Loaded = Loaded(signer: Kid, published: set<Kid>)

  datatype Fetch = DbFailed | Fetched(table: Table)

  datatype KeysResult = Keys(loaded: Loaded) | NoSigningKey | KeysUnavailable

  ghost predicate LoadOf(l: Loaded, t: Table, at: Time) {
    IsSigner(t, at, l.signer) && l.published == set k | k in t && t[k].retiredAt.None?
  }

  /** A load less than `seconds` old. */
  predicate Young(cached: Option<(Loaded, Time)>, now: Time, seconds: nat) {
    cached.Some? && now - cached.value.1 < seconds
  }

  class KeyStore {
    var cached: Option<(Loaded, Time)>
    ghost var snapshot: Table

    ghost predicate Valid()
      reads this
    {
      cached.Some? ==> LoadOf(cached.value.0, snapshot, cached.value.1)
    }

    constructor ()
      ensures Valid() && cached.None?
    {
      cached := None;
    }

    /** `get` of src/crypto/keystore.ts:294-316, with the outcome of the load it may need. */
    method Get(now: Time, fetch: Fetch, listing: seq<Row>) returns (r: KeysResult)
      requires Valid() && (fetch.Fetched? ==> Lists(listing, fetch.table))
      modifies this
      ensures Valid()
      ensures r.Keys? ==> cached.Some? && r.loaded == cached.value.0 && now - cached.value.1 < 3600
      ensures r.Keys? ==>
        (cached == old(cached) && snapshot == old(snapshot)) || (fetch == Fetched(snapshot) && cached.value.1 == now)
      ensures r.NoSigningKey? <==> !Young(old(cached), now, 60) && fetch.Fetched? && !HasActive(fetch.table, now)
      ensures r.KeysUnavailable? <==> fetch.DbFailed? && !Young(old(cached), now, 3600)
      ensures Young(old(cached), now, 60) || fetch.DbFailed? || r.NoSigningKey? ==> cached == old(cached)
    {
      if cached.Some? && now - cached.value.1 < KEYS_TTL {
        return Keys(cached.value.0);
      }
      match fetch
      case DbFailed =>
        if cached.Some? && now - cached.value.1 < KEYS_STALE {
          return Keys(cached.value.0);
        }
        return KeysUnavailable;
      case Fetched(table) =>
        var roles := DeriveRoles(listing, now, table);
        if roles.signing.None? {
          return NoSigningKey;
        }
        var loaded := Loaded(roles.signing.value.kid, set k | k in table && table[k].retiredAt.None?);
        cached := Some((loaded, now));
        snapshot := table;
        r := Keys(loaded);
    }
  }
}
