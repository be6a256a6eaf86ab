/** When keys are made and ended: each step of the key table from the rows alone, and the pace of the cron. */
module KeyRotation {
  import opened Options
  import opened KeyModel
  import opened KeySafety

  const DAY := 86400

  // ---------------------------------------------------------------- one step

  /** No other active key has activated later, was created later, or has a greater id. */
  ghost predicate Signs(t: Table, now: Time, g: Kid) {
    && g in t && t[g].retiredAt == None && t[g].activatesAt <= now
    && forall k :: k in t && k != g && t[k].retiredAt == None && t[k].activatesAt <= now ==>
         || t[k].activatesAt < t[g].activatesAt
         || (t[k].activatesAt == t[g].activatesAt && t[k].createdAt < t[g].createdAt)
         || (t[k].activatesAt == t[g].activatesAt && t[k].createdAt == t[g].createdAt && k < g)
  }

  lemma SignsIsSigner(t: Table, now: Time, g: Kid)
    ensures Signs(t, now, g) <==> IsSigner(t, now, g)
  {}

  /** The signer has been active for its whole rotation and nothing waits to succeed it. */
  ghost predicate Due(t: Table, now: Time, s: Settings) {
    && 0 < s.rotationDays
    && (exists g :: Signs(t, now, g) && t[g].activatesAt + s.rotationDays * DAY <= now)
    && (forall k :: k in t && t[k].retiredAt == None ==> t[k].activatesAt <= now)
  }

  /** The cron makes a key exactly when the rotation is due; it activates after the prepublish time. */
  lemma CronCreates(t: Table, kid: Kid, now: Time, s: Settings)
    requires kid !in t
    ensures
      var t' := Apply(t, Cron(kid, now, s));
      && (forall k :: k in t' && k !in t ==> k == kid)
      && (kid in t' <==> Due(t, now, s))
      && (kid in t' ==> t'[kid] == Key(now, now + s.prepublish, None))
  {
    var g := SignerOf(t, now);
    if g.Some? {
      SignsIsSigner(t, now, g.value);
    }
    forall h: Kid | Signs(t, now, h)
      ensures g == Some(h)
    {
      SignsIsSigner(t, now, h);
      SignerUnique(t, now, h, g.value);
    }
  }

  /** The cron retires exactly the keys superseded by a signer old enough, now; it deletes exactly the keys retired
      more than ninety days ago, and changes no other row. */
  lemma CronRetires(t: Table, kid: Kid, now: Time, s: Settings, k: Kid)
    requires kid !in t && k in t
    ensures
      var t' := Apply(t, Cron(kid, now, s));
      var superseded := t[k].retiredAt == None
        && exists g ::
             Signs(t, now, g) && t[k].activatesAt < t[g].activatesAt && t[g].activatesAt + s.retireAfter <= now;
      && (k in t' <==> t[k].retiredAt.None? || now <= t[k].retiredAt.value + 90 * DAY)
      && (k in t' ==> t'[k] == if superseded then t[k].(retiredAt := Some(now)) else t[k])
  {
    var g := SignerOf(t, now);
    if g.Some? {
      SignsIsSigner(t, now, g.value);
    }
    forall h: Kid | Signs(t, now, h)
      ensures g == Some(h)
    {
      SignsIsSigner(t, now, h);
      SignerUnique(t, now, h, g.value);
    }
  }

  /** A rotation on request adds its key, active at once or after the prepublish time. */
  lemma RotateAdds(t: Table, kid: Kid, now: Time, prepublish: nat, immediate: bool)
    ensures
      var t' := Apply(t, Rotate(kid, now, prepublish, immediate));
      t' == if kid in t then t else t[kid := Key(now, if immediate then now else now + prepublish, None)]
  {}

  /** The first key is made exactly when no unretired one is there, and is active at once. */
  lemma FirstAdds(t: Table, kid: Kid, now: Time)
    requires kid !in t
    ensures
      var t' := Apply(t, First(kid, now));
      t' == if forall k :: k in t ==> t[k].retiredAt.Some? then t[kid := Key(now, now, None)] else t
  {}

  /** An emergency retirement ends its key at once, unless there is none or it is the last active one. */
  lemma RetireNowAnswers(t: Table, kid: Kid, now: Time)
    ensures
      var (t', out) := RetireNow(t, kid, now);
      var there := kid in t && t[kid].retiredAt == None;
      var last := there && t[kid].activatesAt <= now
        && forall k :: k in t && k != kid && t[k].retiredAt == None ==> now < t[k].activatesAt;
      && (out.NotFound? <==> !there) && (out.LastActiveKey? <==> last)
      && t' == if there && !last then t[kid := t[kid].(retiredAt := Some(now))] else t
  {
    if kid in t && t[kid].retiredAt == None {
      assert Retire(t, {kid}, now) == t[kid := t[kid].(retiredAt := Some(now))];
    }
  }

  /** What a key is good for, beside the signer's activation. */
  lemma RolesByTime(key: Key, now: Time, signer: Time)
    ensures
      var role := RoleOf(key, now, Some(signer));
      && (role == Retired <==> key.retiredAt.Some?)
      && (role == Next <==> key.retiredAt.None? && now < key.activatesAt)
      && (role == Verifying <==> key.retiredAt.None? && key.activatesAt <= now && key.activatesAt < signer)
      && (role == Signing <==> key.retiredAt.None? && key.activatesAt <= now && signer <= key.activatesAt)
  {}

  // ---------------------------------------------------------------- the pace of the cron

  /** One first key; every later step is the cron under the same settings. */
  ghost predicate CronRun(ops: seq<Op>, s: Settings) {
    && Clocked(ops) && FreshKids(ops) && ops != [] && ops[0].First?
    && forall i :: 0 < i < |ops| ==> ops[i].Cron? && ops[i].settings == s
  }

  /** Every key the table ever held, with its activation. */
  ghost function Ever(ops: seq<Op>, n: nat): map<Kid, Time>
    requires n <= |ops|
    decreases n
  {
    if n == 0 then map[]
    else
      var e, t := Ever(ops, n - 1), TableAfter(ops, n);
      if ops[n - 1].kid in t && ops[n - 1].kid !in TableAfter(ops, n - 1)
        then e[ops[n - 1].kid := t[ops[n - 1].kid].activatesAt]
      else e
  }

  function Gap(s: Settings): nat { s.rotationDays * DAY + s.prepublish }

  ghost predicate Apart(e: map<Kid, Time>, gap: nat) {
    forall k, l :: k in e && l in e && k != l ==> e[k] + gap <= e[l] || e[l] + gap <= e[k]
  }

  /** The newest key ever made is stored and unretired, and all keys ever made activate a gap apart. */
  ghost predicate Paced(e: map<Kid, Time>, t: Table, s: Settings, g: Kid) {
    && g in t && t[g].retiredAt == None && g in e
    && (forall k :: k in t ==> k in e && e[k] == t[k].activatesAt)
    && (forall k :: k in e && k != g ==> e[k] + Gap(s) <= e[g])
    && (s.rotationDays == 0 ==> e.Keys == {g})
    && Apart(e, Gap(s))
  }

  lemma PacedStart(ops: seq<Op>, s: Settings)
    requires CronRun(ops, s)
    ensures Paced(Ever(ops, 1), TableAfter(ops, 1), s, ops[0].kid)
  {
    assert TableAfter(ops, 0) == map[] && Ever(ops, 0) == map[];
    assert TableAfter(ops, 1) == Apply(map[], ops[0]);
    FirstAdds(map[], ops[0].kid, ops[0].now);
  }

  /** The signer is never newer than the newest key, and is that key once it is active. */
  lemma NewestSigns(e: map<Kid, Time>, t: Table, s: Settings, g: Kid, now: Time, h: Kid)
    requires Paced(e, t, s, g) && Signs(t, now, h)
    ensures t[h].activatesAt <= t[g].activatesAt && (t[g].activatesAt <= now ==> h == g)
  {
  }

  /** The cron keeps the newest key and every activation. */
  lemma CronKeepsTimes(e: map<Kid, Time>, t: Table, s: Settings, g: Kid, kid: Kid, now: Time, k: Kid)
    requires Paced(e, t, s, g) && kid !in t && k in t
    ensures
      var t' := Apply(t, Cron(kid, now, s));
      && (k in t' ==> t'[k].activatesAt == t[k].activatesAt)
      && (k == g ==> k in t' && t'[k].retiredAt == None)
  {
    CronRetires(t, kid, now, s, k);
    forall x: Kid | Signs(t, now, x)
      ensures t[x].activatesAt <= t[g].activatesAt
    {
      NewestSigns(e, t, s, g, now, x);
    }
    hide Apply;
  }

  lemma CronPaces(e: map<Kid, Time>, t: Table, s: Settings, g: Kid, kid: Kid, now: Time) returns (h: Kid)
    requires Paced(e, t, s, g) && kid !in t
    ensures
      var t' := Apply(t, Cron(kid, now, s));
      Paced(if kid in t' then e[kid := t'[kid].activatesAt] else e, t', s, h)
  {
    var t' := Apply(t, Cron(kid, now, s));
    CronCreates(t, kid, now, s);
    forall k | k in t
      ensures k in t' ==> t'[k].activatesAt == t[k].activatesAt
      ensures k == g ==> k in t' && t'[k].retiredAt == None
    {
      CronKeepsTimes(e, t, s, g, kid, now, k);
    }
    hide Apply;
    h := g;
    if kid in t' {
      h := kid;
      var x: Kid :| Signs(t, now, x) && t[x].activatesAt + s.rotationDays * DAY <= now;
      NewestSigns(e, t, s, g, now, x);
      hide Signs;
      NewestAdded(e, t, t', s, g, kid);
    }
  }

  lemma NewestAdded(e: map<Kid, Time>, t: Table, t': Table, s: Settings, g: Kid, kid: Kid)
    requires Paced(e, t, s, g) && kid !in t && kid in t' && t'[kid].retiredAt == None && s.rotationDays > 0
    requires t[g].activatesAt + Gap(s) <= t'[kid].activatesAt
    requires forall k :: k in t' && k != kid ==> k in t && t'[k].activatesAt == t[k].activatesAt
    ensures Paced(e[kid := t'[kid].activatesAt], t', s, kid)
  {}

  lemma {:induction false} PacedRun(ops: seq<Op>, n: nat, s: Settings) returns (g: Kid)
    requires CronRun(ops, s) && 0 < n <= |ops|
    ensures Paced(Ever(ops, n), TableAfter(ops, n), s, g)
  {
    if n == 1 {
      PacedStart(ops, s);
      g := ops[0].kid;
    } else {
      g := PacedRun(ops, n - 1, s);
      var op, t := ops[n - 1], TableAfter(ops, n - 1);
      assert op == Cron(op.kid, op.now, s) && op.kid !in t && TableAfter(ops, n) == Apply(t, op);
      g := CronPaces(Ever(ops, n - 1), t, s, g, op.kid, op.now);
    }
  }

  /** Where only the cron makes keys after the first, under constant settings, any two keys ever made activate at
      least the rotation and the prepublish time apart. */
  lemma ActivationsApart(ops: seq<Op>, s: Settings)
    requires CronRun(ops, s)
    ensures Apart(Ever(ops, |ops|), Gap(s))
  {
    var _ := PacedRun(ops, |ops|, s);
  }
}
