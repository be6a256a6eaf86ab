/** Signing keys (src/crypto/keystore.ts, src/db/keys.ts): roles derived from timestamps, and
    the table steps that create, retire and delete keys. */
module KeyModel {
  import opened Options

  type Time = int
  type Kid = nat

  const RETENTION := 90 * 86400
  const KEYS_TTL := 60
  const KEYS_STALE := 3600

  datatype Key = Key(createdAt: Time, activatesAt: Time, retiredAt: Option<Time>)

  type Table = map<Kid, Key>

  /** A row as listed. */
  datatype Row = Row(kid: Kid, key: Key)

  datatype Role = Signing | Next | Verifying | Retired

  datatype Settings = Settings(rotationDays: nat, prepublish: nat, retireAfter: nat)

  function RoleOf(key: Key, now: Time, signingActivatesAt: Option<Time>): Role {
    if key.retiredAt.Some? then Retired
    else if key.activatesAt > now then Next
    else if signingActivatesAt.Some? && key.activatesAt < signingActivatesAt.value then Verifying
    else Signing
  }

  predicate Active(key: Key, now: Time) { key.retiredAt.None? && key.activatesAt <= now }

  /** The replacement test of the reduce in deriveRoles: greatest activation, then newest row, then greater kid. */
  predicate Beats(a: Row, b: Row) {
    || a.key.activatesAt > b.key.activatesAt
    || (a.key.activatesAt == b.key.activatesAt &&
        (a.key.createdAt > b.key.createdAt || (a.key.createdAt == b.key.createdAt && a.kid > b.kid)))
  }

  /** `k` is the unretired, activated key that beats every other one. */
  predicate IsSigner(t: Table, now: Time, k: Kid) {
    k in t && Active(t[k], now) && forall l :: l in t && l != k && Active(t[l], now) ==>
      Beats(Row(k, t[k]), Row(l, t[l]))
  }

  ghost predicate HasActive(t: Table, now: Time) { exists k :: k in t && Active(t[k], now) }

  ghost predicate HasUnretired(t: Table) { exists k :: k in t && t[k].retiredAt.None? }

  lemma SignerUnique(t: Table, now: Time, k: Kid, l: Kid)
    requires IsSigner(t, now, k) && IsSigner(t, now, l)
    ensures k == l
  {}

  ghost function ActiveKids(t: Table, now: Time): set<Kid> { set k | k in t && Active(t[k], now) }

  lemma {:induction false} BestOf(t: Table, s: set<Kid>) returns (k: Kid)
    requires s != {} && s <= t.Keys
    ensures k in s && forall l :: l in s && l != k ==> Beats(Row(k, t[k]), Row(l, t[l]))
    decreases |s|
  {
    var x :| x in s;
    k := x;
    if s != {x} {
      var y := BestOf(t, s - {x});
      k := if Beats(Row(y, t[y]), Row(x, t[x])) then y else x;
    }
    forall l | l in s && l != k
      ensures Beats(Row(k, t[k]), Row(l, t[l]))
    {
      assert l == x || l in s - {x};
    }
  }

  /** A signer exists exactly when some unretired key has activated. */
  lemma SignerExists(t: Table, now: Time)
    ensures (exists k :: IsSigner(t, now, k)) <==> HasActive(t, now)
  {
    if HasActive(t, now) {
      var a :| a in t && Active(t[a], now);
      assert a in ActiveKids(t, now);
      var k := BestOf(t, ActiveKids(t, now));
      assert IsSigner(t, now, k);
    }
  }

  // ---------------------------------------------------------------- table steps

  /** INSERT of a new kid; the primary key refuses a known one. */
  function Insert(t: Table, kid: Kid, now: Time, activatesAt: Time): Table {
    if kid in t then t else t[kid := Key(now, activatesAt, None)]
  }

  function RotateKey(t: Table, kid: Kid, now: Time, prepublish: nat, immediate: bool): Table {
    Insert(t, kid, now, if immediate then now else now + prepublish)
  }

  function InsertFirst(t: Table, kid: Kid, now: Time): Table {
    if exists k :: k in t && t[k].retiredAt.None? then t else Insert(t, kid, now, now)
  }

  function Retire(t: Table, kids: set<Kid>, now: Time): Table {
    map k | k in t :: if k in kids && t[k].retiredAt.None? then t[k].(retiredAt := Some(now)) else t[k]
  }

  function DeleteRetired(t: Table, cutoff: Time): Table {
    map k | k in t && !(t[k].retiredAt.Some? && t[k].retiredAt.value < cutoff) :: t[k]
  }

  datatype RetireResult = RetiredNow | NotFound | LastActiveKey

  function RetireNow(t: Table, kid: Kid, now: Time): (Table, RetireResult) {
    if kid !in t || t[kid].retiredAt.Some? then (t, NotFound)
    else if t[kid].activatesAt <= now && !(exists k :: k in t && k != kid && Active(t[k], now)) then (t, LastActiveKey)
    else (Retire(t, {kid}, now), RetiredNow)
  }

  function VerifyingKids(t: Table, now: Time, signingAt: Time): set<Kid> {
    set k | k in t && RoleOf(t[k], now, Some(signingAt)) == Verifying
  }

  predicate NoNext(t: Table, now: Time) { forall k :: k in t && t[k].retiredAt.None? ==> t[k].activatesAt <= now }

  predicate RotationDue(t: Table, g: Kid, now: Time, s: Settings)
    requires g in t
  {
    s.rotationDays > 0 && now - t[g].activatesAt >= s.rotationDays * 86400 && NoNext(t, now)
  }

  predicate RetirementDue(t: Table, g: Kid, now: Time, s: Settings)
    requires g in t
  {
    now - t[g].activatesAt >= s.retireAfter
  }

  /** maintainSigningKeys with the signer `g` of the listing it starts from, or none. */
  function Maintained(t: Table, g: Option<Kid>, kid: Kid, now: Time, s: Settings): Table
    requires g.Some? ==> g.value in t
  {
    if g.None? then DeleteRetired(t, now - RETENTION)
    else
      var created := if RotationDue(t, g.value, now, s) then RotateKey(t, kid, now, s.prepublish, false) else t;
      var verifying := VerifyingKids(t, now, t[g.value].activatesAt);
      var retired := if RetirementDue(t, g.value, now, s) then Retire(created, verifying, now) else created;
      DeleteRetired(retired, now - RETENTION)
  }

  ghost function SignerOf(t: Table, now: Time): (g: Option<Kid>)
    ensures g.Some? ==> IsSigner(t, now, g.value)
    ensures g.None? ==> !HasActive(t, now)
  {
    SignerExists(t, now);
    if exists k :: IsSigner(t, now, k) then (var k :| IsSigner(t, now, k); Some(k)) else None
  }
}
