/** Runs of the key table seen by isolates whose caches may be an hour old: no token is
    orphaned by the cron, every isolate can verify it, and the store never loses its signer. */
module KeySafety {
  import opened Options
  import opened KeyModel

  datatype Op =
    | Rotate(kid: Kid, now: Time, prepublish: nat, immediate: bool)
    | First(kid: Kid, now: Time)
    | RetireKey(kid: Kid, now: Time)
    | Cron(kid: Kid, now: Time, settings: Settings)

  ghost function Apply(t: Table, op: Op): Table {
    match op
    case Rotate(kid, now, prepublish, immediate) => RotateKey(t, kid, now, prepublish, immediate)
    case First(kid, now) => InsertFirst(t, kid, now)
    case RetireKey(kid, now) => RetireNow(t, kid, now).0
    case Cron(kid, now, settings) => Maintained(t, SignerOf(t, now), kid, now, settings)
  }

  /** The table after the first `n` steps. */
  ghost function TableAfter(ops: seq<Op>, n: nat): Table
    requires n <= |ops|
  {
    if n == 0 then map[] else Apply(TableAfter(ops, n - 1), ops[n - 1])
  }

  ghost predicate Clocked(ops: seq<Op>) { forall i, j :: 0 <= i < j < |ops| ==> ops[i].now <= ops[j].now }

  /** A generated kid is one the table never held. */
  ghost predicate FreshKids(ops: seq<Op>) {
    forall i: nat, j: nat :: j <= i < |ops| && !ops[i].RetireKey? ==> ops[i].kid !in TableAfter(ops, j)
  }

  // ---------------------------------------------------------------- the store never loses its signer

  lemma StepKeepsActive(t: Table, op: Op)
    requires HasActive(t, op.now)
    ensures HasActive(Apply(t, op), op.now)
  {
    match op
    case Cron(kid, now, settings) =>
      var g := SignerOf(t, now).value;
      var t' := Apply(t, op);
      assert g in t' && t'[g] == t[g];
    case RetireKey(kid, now) =>
      var a :| a in t && Active(t[a], now);
      if a == kid && RetireNow(t, kid, now).1.RetiredNow? {
        var b :| b in t && b != kid && Active(t[b], now);
        assert b in Apply(t, op) && Active(Apply(t, op)[b], now);
      } else {
        assert a in Apply(t, op) && Active(Apply(t, op)[a], now);
      }
    case _ =>
      var a :| a in t && Active(t[a], op.now);
      assert a in Apply(t, op) && Active(Apply(t, op)[a], op.now);
  }

  /** Once an unretired key has activated, one always has. */
  lemma {:induction false} NeverLosesSigner(ops: seq<Op>, i: nat, j: nat, at: Time)
    requires Clocked(ops) && i <= j <= |ops| && HasActive(TableAfter(ops, i), at)
    requires forall q :: i <= q < |ops| ==> at <= ops[q].now
    ensures forall now :: at <= now && (j > i ==> ops[j - 1].now <= now) ==> HasActive(TableAfter(ops, j), now)
    decreases j
  {
    if i < j {
      NeverLosesSigner(ops, i, j - 1, at);
      var op := ops[j - 1];
      assert HasActive(TableAfter(ops, j - 1), op.now);
      StepKeepsActive(TableAfter(ops, j - 1), op);
    }
    ActiveLater(TableAfter(ops, j), if i < j then ops[j - 1].now else at);
  }

  lemma ActiveLater(t: Table, at: Time)
    requires HasActive(t, at)
    ensures forall now :: at <= now ==> HasActive(t, now)
  {
    var a :| a in t && Active(t[a], at);
    assert forall now :: at <= now ==> Active(t[a], now);
  }

  /** The cron never retires the key it signs with. */
  lemma CronKeepsSigner(t: Table, kid: Kid, now: Time, s: Settings, g: Kid)
    requires IsSigner(t, now, g)
    ensures var t' := Apply(t, Cron(kid, now, s)); g in t' && t'[g] == t[g]
  {
    SignerUnique(t, now, g, SignerOf(t, now).value);
  }

  // ---------------------------------------------------------------- retirements that race

  /** Emergency retirements list the table and update it in two statements (src/crypto/keystore.ts:185, 192). Here
      all of them listed `listed` before the first update; `kids` is the order of the updates. */
  ghost function Raced(t: Table, listed: Table, kids: seq<Kid>, now: Time): Table
    decreases |kids|
  {
    if kids == [] then t
    else
      var before := Raced(t, listed, kids[..|kids| - 1], now);
      var kid := kids[|kids| - 1];
      if RetireNow(listed, kid, now).1.RetiredNow? then Retire(before, {kid}, now) else before
  }

  ghost function Passing(listed: Table, kids: seq<Kid>, now: Time): set<Kid> {
    set k | k in kids && RetireNow(listed, k, now).1.RetiredNow?
  }

  lemma {:induction false} RacedIsRetired(t: Table, kids: seq<Kid>, now: Time)
    ensures Raced(t, t, kids, now) == Retire(t, Passing(t, kids, now), now)
    decreases |kids|
  {
    if kids == [] {
      assert Passing(t, kids, now) == {};
      assert Retire(t, {}, now) == t;
    } else {
      var n := |kids| - 1;
      RacedIsRetired(t, kids[..n], now);
      assert kids == kids[..n] + [kids[n]];
      var earlier := Passing(t, kids[..n], now);
      if RetireNow(t, kids[n], now).1.RetiredNow? {
        assert Passing(t, kids, now) == earlier + {kids[n]};
        assert Retire(Retire(t, earlier, now), {kids[n]}, now) == Retire(t, earlier + {kids[n]}, now);
      } else {
        assert Passing(t, kids, now) == earlier;
      }
    }
  }

  /** Racing retirements leave a signer exactly when some active key is not among those that pass the guard. */
  lemma RacingRetirements(t: Table, kids: seq<Kid>, now: Time)
    ensures HasActive(Raced(t, t, kids, now), now) <==>
      exists k :: k in t && Active(t[k], now) && k !in Passing(t, kids, now)
  {
    RacedIsRetired(t, kids, now);
    hide Passing, Raced, RetireNow;
    var gone := Passing(t, kids, now);
    if HasActive(Retire(t, gone, now), now) {
      var k :| k in Retire(t, gone, now) && Active(Retire(t, gone, now)[k], now);
      assert k in t && Active(t[k], now) && k !in gone;
    }
    if k :| k in t && Active(t[k], now) && k !in gone {
      assert k in Retire(t, gone, now) && Active(Retire(t, gone, now)[k], now);
    }
  }

  /** Two of them on the last two active keys lose the signer, which neither does alone. */
  lemma TwoRetirementsLoseTheSigner()
    ensures var t: Table := map[0 := Key(0, 0, None), 1 := Key(0, 0, None)];
      && HasActive(RetireNow(t, 0, 1).0, 1) && HasActive(RetireNow(t, 1, 1).0, 1)
      && !HasActive(Raced(t, t, [0, 1], 1), 1)
  {
    var t: Table := map[0 := Key(0, 0, None), 1 := Key(0, 0, None)];
    assert Active(t[0], 1) && Active(t[1], 1);
    assert 1 in RetireNow(t, 0, 1).0 && Active(RetireNow(t, 0, 1).0[1], 1);
    assert 0 in RetireNow(t, 1, 1).0 && Active(RetireNow(t, 1, 1).0[0], 1);
    assert 0 in [0, 1] && 1 in [0, 1];
    RacingRetirements(t, [0, 1], 1);
  }

  // ---------------------------------------------------------------- what one step does to one key

  lemma StepOnKey(t: Table, op: Op, k: Kid)
    requires k in Apply(t, op)
    ensures
      var key := Apply(t, op)[k];
      if k in t then
        && key.createdAt == t[k].createdAt && key.activatesAt == t[k].activatesAt
        && (t[k].retiredAt.Some? ==> key.retiredAt == t[k].retiredAt)
      else
        && k == op.kid && !op.RetireKey? && key.createdAt == op.now && key.activatesAt >= op.now && key.retiredAt.None?
        && (op.First? ==> !HasUnretired(t))
        && (op.Rotate? && !op.immediate ==> key.activatesAt == op.now + op.prepublish)
        && (op.Cron? ==> key.activatesAt == op.now + op.settings.prepublish)
  {}

  /** A key unretired before leaves the table or loses that only to the cron, which then had an old enough signer. */
  lemma StepRetires(t: Table, op: Op, k: Kid)
    requires k in t && t[k].retiredAt.None? && !op.RetireKey?
    requires k !in Apply(t, op) || Apply(t, op)[k].retiredAt.Some?
    ensures op.Cron? && SignerOf(t, op.now).Some?
    ensures var g := SignerOf(t, op.now).value;
      t[k].activatesAt < t[g].activatesAt && op.now - t[g].activatesAt >= op.settings.retireAfter
  {}

  // ---------------------------------------------------------------- keys across a run

  lemma {:induction false} StaysKnown(ops: seq<Op>, i: nat, j: nat, k: Kid)
    requires FreshKids(ops) && i <= j <= |ops| && k in TableAfter(ops, i) && k in TableAfter(ops, j)
    ensures forall h: nat :: i <= h <= j ==> k in TableAfter(ops, h)
    ensures
      var a, b := TableAfter(ops, i)[k], TableAfter(ops, j)[k];
      b.createdAt == a.createdAt && b.activatesAt == a.activatesAt && (a.retiredAt.Some? ==> b.retiredAt == a.retiredAt)
    decreases j
  {
    if i < j {
      StepOnKey(TableAfter(ops, j - 1), ops[j - 1], k);
      assert k in TableAfter(ops, j - 1);
      StaysKnown(ops, i, j - 1, k);
    }
  }

  /** The step that inserted `k` between two tables. */
  lemma {:induction false} InsertedBetween(ops: seq<Op>, i: nat, j: nat, k: Kid) returns (q: nat)
    requires FreshKids(ops) && i <= j <= |ops| && k !in TableAfter(ops, i) && k in TableAfter(ops, j)
    ensures i <= q < j && k !in TableAfter(ops, q) && k in TableAfter(ops, q + 1)
    ensures TableAfter(ops, j)[k].activatesAt == TableAfter(ops, q + 1)[k].activatesAt
    decreases j
  {
    StepOnKey(TableAfter(ops, j - 1), ops[j - 1], k);
    if k in TableAfter(ops, j - 1) {
      q := InsertedBetween(ops, i, j - 1, k);
    } else {
      q := j - 1;
    }
  }

  // ---------------------------------------------------------------- retirement never orphans a token

  /** An isolate loaded its keys at `at`: the listing held every earlier step, and `k` signs. */
  ghost predicate LoadedAt(ops: seq<Op>, j: nat, at: Time, k: Kid) {
    && j <= |ops| && (forall i :: j <= i < |ops| ==> at <= ops[i].now)
    && IsSigner(TableAfter(ops, j), at, k)
  }

  /** Retirement is the cron's alone, under one setting. */
  ghost predicate CronOnly(ops: seq<Op>, retireAfter: nat) {
    forall i :: 0 <= i < |ops| ==> !ops[i].RetireKey? && (ops[i].Cron? ==> ops[i].settings.retireAfter == retireAfter)
  }

  /** Step `i` takes the unretired `k` away. */
  ghost predicate RetiredBy(ops: seq<Op>, i: nat, k: Kid) {
    && i < |ops| && k in TableAfter(ops, i) && TableAfter(ops, i)[k].retiredAt.None?
    && (k !in TableAfter(ops, i + 1) || TableAfter(ops, i + 1)[k].retiredAt.Some?)
  }

  /** One cron-only run in which step `i` retires `k` while a token of this lifetime, signed from a cache under an hour
      old, is valid. */
  ghost predicate Orphans(ops: seq<Op>, retireAfter: nat, j: nat, at: Time, k: Kid, signed: Time, lifetime: int,
      i: nat) {
    && Clocked(ops) && FreshKids(ops) && CronOnly(ops, retireAfter)
    && LoadedAt(ops, j, at, k) && at <= signed < at + 3600
    && RetiredBy(ops, i, k) && signed + lifetime > ops[i].now
  }

  /** A token signed at `signed` from a cache under an hour old has expired when its key is retired. */
  lemma RetirementNeverOrphans(ops: seq<Op>, retireAfter: nat, j: nat, at: Time, k: Kid, signed: Time, lifetime: int,
      i: nat)
    requires Clocked(ops) && FreshKids(ops) && CronOnly(ops, retireAfter)
    requires LoadedAt(ops, j, at, k) && signed < at + 3600
    requires lifetime + 3599 <= retireAfter
    requires RetiredBy(ops, i, k)
    ensures signed + lifetime <= ops[i].now
  {
    var t, now := TableAfter(ops, i), ops[i].now;
    assert TableAfter(ops, i + 1) == Apply(t, ops[i]);
    StepRetires(t, ops[i], k);
    var g := SignerOf(t, now).value;
    assert j <= i by {
      if i < j {
        StaysKnown(ops, i, j, k);
        StaysKnown(ops, i + 1, j, k);
      }
    }
    if g in TableAfter(ops, j) {
      StaysKnown(ops, j, i, g);
      StaysKnown(ops, j, i, k);
      assert at < t[g].activatesAt;
    } else {
      var q := InsertedBetween(ops, j, i, g);
      StepOnKey(TableAfter(ops, q), ops[q], g);
    }
  }

  ghost function Witness(retireAfter: nat): seq<Op> {
    [First(0, 0), Rotate(1, 1, 0, true), Cron(2, 1 + retireAfter, Settings(0, 0, retireAfter))]
  }

  lemma WitnessTables(retireAfter: nat)
    ensures
      var ops := Witness(retireAfter);
      && TableAfter(ops, 0) == map[]
      && TableAfter(ops, 1) == map[0 := Key(0, 0, None)]
      && TableAfter(ops, 2) == map[0 := Key(0, 0, None), 1 := Key(1, 1, None)]
  {
    var ops := Witness(retireAfter);
    assert TableAfter(ops, 0) == map[];
    assert TableAfter(ops, 1) == Apply(TableAfter(ops, 0), ops[0]);
    assert TableAfter(ops, 2) == Apply(TableAfter(ops, 1), ops[1]);
  }

  lemma WitnessRetires(retireAfter: nat)
    ensures RetiredBy(Witness(retireAfter), 2, 0)
  {
    var ops, now := Witness(retireAfter), 1 + retireAfter;
    WitnessTables(retireAfter);
    var t := TableAfter(ops, 2);
    assert IsSigner(t, now, 1);
    SignerUnique(t, now, 1, SignerOf(t, now).value);
    assert TableAfter(ops, 3) == Apply(t, ops[2]);
    assert 0 in VerifyingKids(t, now, 1);
  }

  /** The bound is the least one: one second below it, some run orphans a token. */
  lemma BoundIsLeast(retireAfter: nat, lifetime: int)
    requires lifetime + 3599 > retireAfter
    ensures Orphans(Witness(retireAfter), retireAfter, 1, 1, 0, 3600, lifetime, 2)
  {
    WitnessTables(retireAfter);
    WitnessRetires(retireAfter);
    var ops := Witness(retireAfter);
    hide RetiredBy, Apply;
    assert IsSigner(TableAfter(ops, 1), 1, 0);
    forall i: nat, j: nat | j <= i < |ops| && !ops[i].RetireKey?
      ensures ops[i].kid !in TableAfter(ops, j)
    {
      assert ops[i].kid == i && j in {0, 1, 2};
    }
  }

  /** Exactly the lifetimes up to `retireAfter - 3599` are safe in every run. */
  lemma SafeLifetimes(retireAfter: nat, lifetime: int)
    ensures
      (forall ops, j, at, k, signed, i :: !Orphans(ops, retireAfter, j, at, k, signed, lifetime, i)) <==>
      lifetime + 3599 <= retireAfter
  {
    if lifetime + 3599 <= retireAfter {
      forall ops, j, at, k, signed, i
        ensures !Orphans(ops, retireAfter, j, at, k, signed, lifetime, i)
      {
        if Orphans(ops, retireAfter, j, at, k, signed, lifetime, i) {
          RetirementNeverOrphans(ops, retireAfter, j, at, k, signed, lifetime, i);
        }
      }
    } else {
      BoundIsLeast(retireAfter, lifetime);
    }
  }

  // ---------------------------------------------------------------- the settings rule (src/env.ts:169-175)

  const LOGOUT_TOKEN_TTL := 120

  function Max(a: int, b: int): int { if a > b then a else b }

  function LongestToken(accessTtl: int, idTtl: int): int { Max(accessTtl, Max(idTtl, LOGOUT_TOKEN_TTL)) }

  predicate SettingsAccepted(accessTtl: int, idTtl: int, retireAfter: int) {
    retireAfter > LongestToken(accessTtl, idTtl) + 3600
  }

  /** Each of the three lifetimes, and an hour, lies below the retirement age. */
  lemma SettingsRule(accessTtl: int, idTtl: int, retireAfter: int)
    ensures SettingsAccepted(accessTtl, idTtl, retireAfter) <==>
      accessTtl + 3600 < retireAfter && idTtl + 3600 < retireAfter && 120 + 3600 < retireAfter
  {}

  /** The rule keeps every token of the configured lifetimes. */
  lemma AcceptedSettingsAreSafe(accessTtl: int, idTtl: int, retireAfter: nat, lifetime: int)
    requires SettingsAccepted(accessTtl, idTtl, retireAfter) && lifetime <= LongestToken(accessTtl, idTtl)
    ensures forall ops, j, at, k, signed, i :: !Orphans(ops, retireAfter, j, at, k, signed, lifetime, i)
  {
    SafeLifetimes(retireAfter, lifetime);
  }

  /** A client may override its token lifetimes up to 3600 s (src/oidc/token-endpoint.ts:75), which the rule does not
      see: settings it accepts let such a token outlive its key, unless `retireAfter` is at least 7199. */
  lemma OverrideEscapesTheRule(retireAfter: nat)
    ensures SettingsAccepted(600, 600, 4201)
    ensures (exists ops, j, at, k, signed, i :: Orphans(ops, retireAfter, j, at, k, signed, 3600, i)) <==>
      retireAfter < 7199
  {
    SafeLifetimes(retireAfter, 3600);
  }

  // ---------------------------------------------------------------- every isolate can verify

  /** Keys are published an hour ahead and none is forced. */
  ghost predicate Prepublished(ops: seq<Op>) {
    forall i :: 0 <= i < |ops| ==>
      && (ops[i].Rotate? ==> !ops[i].immediate && ops[i].prepublish >= 3600)
      && (ops[i].Cron? ==> ops[i].settings.prepublish >= 3600)
  }

  /** The cache another isolate verifies from at `u`: loaded within the hour, from a listing no later than `u`. */
  ghost predicate VerifiesAt(ops: seq<Op>, j: nat, at: Time, u: Time) {
    && j <= |ops| && (forall i :: j <= i < |ops| ==> at <= ops[i].now) && (forall i :: 0 <= i < j ==> ops[i].now <= u)
    && at <= u < at + 3600 && HasActive(TableAfter(ops, j), at)
  }

  lemma UnretiredSince(ops: seq<Op>, i: nat, j: nat, k: Kid) returns (q: nat)
    requires FreshKids(ops) && i <= j <= |ops| && k in TableAfter(ops, i) && TableAfter(ops, i)[k].retiredAt.None?
    requires k !in TableAfter(ops, j) || TableAfter(ops, j)[k].retiredAt.Some?
    ensures i <= q < j && RetiredBy(ops, q, k)
    decreases j - i
  {
    if k in TableAfter(ops, i + 1) && TableAfter(ops, i + 1)[k].retiredAt.None? {
      q := UnretiredSince(ops, i + 1, j, k);
    } else {
      q := i;
    }
  }

  lemma PublishedBefore(ops: seq<Op>, j: nat, at: Time, k: Kid, j2: nat, at2: Time, u: Time)
    requires Clocked(ops) && FreshKids(ops) && Prepublished(ops)
    requires LoadedAt(ops, j, at, k) && VerifiesAt(ops, j2, at2, u) && at <= u
    ensures k in TableAfter(ops, j2)  || j < j2
  {
    if k !in TableAfter(ops, j2) && j2 <= j {
      var q := InsertedBetween(ops, j2, j, k);
      StepOnKey(TableAfter(ops, q), ops[q], k);
      NeverLosesSigner(ops, j2, q, at2);
      assert HasActive(TableAfter(ops, q), ops[q].now);
      assert HasUnretired(TableAfter(ops, q));
    }
  }

  /** At every instant until the token expires its key is in the published set of every isolate. */
  lemma EveryIsolateVerifies(ops: seq<Op>, retireAfter: nat, j: nat, at: Time, k: Kid, signed: Time, lifetime: int,
      j2: nat, at2: Time, u: Time)
    requires Clocked(ops) && FreshKids(ops) && CronOnly(ops, retireAfter) && Prepublished(ops)
    requires lifetime + 3599 <= retireAfter
    requires LoadedAt(ops, j, at, k) && at <= signed < at + 3600
    requires VerifiesAt(ops, j2, at2, u) && signed <= u < signed + lifetime
    ensures k in TableAfter(ops, j2) && TableAfter(ops, j2)[k].retiredAt.None?
  {
    if j2 <= j {
      PublishedBefore(ops, j, at, k, j2, at2, u);
      StaysKnown(ops, j2, j, k);
    } else if k !in TableAfter(ops, j2) || TableAfter(ops, j2)[k].retiredAt.Some? {
      var i := UnretiredSince(ops, j, j2, k);
      RetirementNeverOrphans(ops, retireAfter, j, at, k, signed, lifetime, i);
    }
  }
}
