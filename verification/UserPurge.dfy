/** The purge only bounds storage: run first, at any earlier or equal instant and with any window, it
    changes neither whether an authorization, an exchange, a rotation, a lookup or a listing succeeds nor
    what it grants. The exception is the revival of an idle session by `finalizeLogin`, with its exact condition. */
module UserPurge {
  import opened Options
  import opened UserModel
  import opened UserSound
  import opened UserHistory
  import opened UserClock
  import opened UserCases
  import opened UserRuns

  lemma LiveSessionOutlivesPurge(st: Store, n: Time, window: int, now: Time, sid: Sid)
    requires n <= now
    ensures
      var p := Purge(st, n, window);
      && (sid in p.sessions ==> sid in st.sessions && p.sessions[sid] == st.sessions[sid])
      && (sid in st.sessions && LiveSession(st.sessions[sid], now) ==> sid in p.sessions)
  {}

  /** listSessions and listFamilies. */
  lemma PurgeKeepsListings(st: Store, n: Time, window: int, now: Time)
    requires n <= now
    ensures
      var p := Purge(st, n, window);
      && LiveSids(p, now) == LiveSids(st, now)
      && (forall s :: s in LiveSids(st, now) ==> SnapshotOf(p, s) == SnapshotOf(st, s))
      && LiveFamilyIds(p, now) == LiveFamilyIds(st, now)
      && (forall f :: f in LiveFamilyIds(st, now) ==> p.families[f] == st.families[f])
  {
    var p := Purge(st, n, window);
    forall s | s in LiveSids(st, now)
      ensures SnapshotOf(p, s) == SnapshotOf(st, s)
    {
      PurgeKeepsClients(st, n, window, s);
    }
  }

  lemma PurgeKeepsClients(st: Store, n: Time, window: int, sid: Sid)
    requires sid in Purge(st, n, window).sessions
    ensures SnapshotOf(Purge(st, n, window), sid) == SnapshotOf(st, sid)
  {
    var p := Purge(st, n, window);
    assert SessionClients(p, sid) == SessionClients(st, sid) by {
      assert forall c :: (sid, c) in p.sessionClients <==> (sid, c) in st.sessionClients;
      forall c
        ensures c in SessionClients(p, sid) <==> c in SessionClients(st, sid)
      {
        assert c in SessionClients(st, sid) <==> (sid, c) in st.sessionClients;
        assert c in SessionClients(p, sid) <==> (sid, c) in p.sessionClients;
      }
    }
  }

  lemma PurgeKeepsGetSession(st: Store, n: Time, window: int, sid: Sid, secret: Hash, now: Time)
    requires n <= now
    ensures GetSession(Purge(st, n, window), sid, secret, now) == GetSession(st, sid, secret, now)
  {
    LiveSessionOutlivesPurge(st, n, window, now, sid);
    if sid in Purge(st, n, window).sessions {
      PurgeKeepsClients(st, n, window, sid);
    }
  }

  // ---------------------------------------------------------------- authorizeWithSession

  /** The outcome as if nothing were purged inside the call. */
  ghost function AuthorizeDecision(st: Store, input: AuthorizeInput): AuthorizeOutcome {
    var plain := AuthorizeWithSession(st, input.(code := None)).1;
    if plain.Authorized? && input.code.Some? then
      (if input.sid in st.sessions
        then Authorized(SnapshotOf(IssueCode(st, input.code.value, input.sid, input.now, input.idleTtl), input.sid),
          st.user) else AuthorizeThrown)
    else plain
  }

  lemma IssuedSnapshot(st: Store, p: Store, code: CodeInput, sid: Sid, now: Time, idleTtl: int)
    requires sid in st.sessions && sid in p.sessions && SnapshotOf(p, sid) == SnapshotOf(st, sid)
    ensures SnapshotOf(IssueCode(p, code, sid, now, idleTtl), sid) ==
      SnapshotOf(IssueCode(st, code, sid, now, idleTtl), sid)
  {
    IssuedClients(st, code, sid, now, idleTtl);
    IssuedClients(p, code, sid, now, idleTtl);
  }

  lemma IssuedClients(st: Store, code: CodeInput, sid: Sid, now: Time, idleTtl: int)
    requires sid in st.sessions
    ensures SessionClients(IssueCode(st, code, sid, now, idleTtl), sid) == SessionClients(st, sid) + {code.clientId}
  {
    var i := IssueCode(st, code, sid, now, idleTtl);
    forall c
      ensures c in SessionClients(i, sid) <==> c in SessionClients(st, sid) + {code.clientId}
    {
      assert c in SessionClients(st, sid) <==> (sid, c) in st.sessionClients;
      assert c in SessionClients(i, sid) <==> (sid, c) in i.sessionClients;
    }
  }

  /** The digest of the code to issue is already stored, which makes its insert throw. */
  ghost predicate CodeStored(st: Store, input: AuthorizeInput) {
    input.code.Some? && input.code.value.secretHash in st.codes
  }

  lemma AuthorizeIsItsDecision(st: Store, input: AuthorizeInput)
    ensures var out := AuthorizeWithSession(st, input).1;
      out == AuthorizeDecision(st, input) || (out.AuthorizeThrown? && CodeStored(st, input))
  {
    var p := PurgeIfDue(st, input.now, PURGE_GRACE);
    AuthorizeOutcomes(st, input);
    assert forall c :: c in p.codes ==> c in st.codes;
    if SessionHit(st, input.sid, input.secretHash, input.now) && input.code.Some? {
      LiveSessionOutlivesPurge(st, input.now, PURGE_GRACE, input.now, input.sid);
      if PurgeDue(st, input.now) {
        PurgeKeepsClients(st, input.now, PURGE_GRACE, input.sid);
      }
      assert input.sid in p.sessions && SnapshotOf(p, input.sid) == SnapshotOf(st, input.sid);
      IssuedSnapshot(st, p, input.code.value, input.sid, input.now, input.idleTtl);
    }
    hide AuthorizeWithSession, PurgeIfDue, IssueCode, SnapshotOf;
  }

  lemma PurgeKeepsDecision(st: Store, n: Time, window: int, input: AuthorizeInput)
    requires n <= input.now
    ensures AuthorizeDecision(Purge(st, n, window), input) == AuthorizeDecision(st, input)
    ensures !AuthorizeDecision(st, input).AuthorizeThrown?
  {
    var p := Purge(st, n, window);
    LiveSessionOutlivesPurge(st, n, window, input.now, input.sid);
    if input.sid in p.sessions {
      PurgeKeepsClients(st, n, window, input.sid);
      if input.code.Some? {
        IssuedSnapshot(st, p, input.code.value, input.sid, input.now, input.idleTtl);
      }
    }
  }

  /** The same outcome, unless an insert throws, for which the digest of the new code must be stored. */
  lemma PurgeKeepsAuthorize(st: Store, n: Time, window: int, input: AuthorizeInput)
    requires n <= input.now
    ensures
      var out, purged := AuthorizeWithSession(st, input).1, AuthorizeWithSession(Purge(st, n, window), input).1;
      && (out.AuthorizeThrown? || purged.AuthorizeThrown? || purged == out)
      && (out.AuthorizeThrown? || purged.AuthorizeThrown? ==> CodeStored(st, input))
  {
    AuthorizeIsItsDecision(st, input);
    AuthorizeIsItsDecision(Purge(st, n, window), input);
    PurgeKeepsDecision(st, n, window, input);
    assert CodeStored(Purge(st, n, window), input) ==> CodeStored(st, input);
    hide AuthorizeWithSession, AuthorizeDecision, Purge;
  }

  // ---------------------------------------------------------------- exchangeCode

  lemma PurgeKeepsExchangeable(st: Store, t: Time, n: Time, window: int, user: User, expected: Option<string>,
      input: ExchangeInput)
    requires n <= input.now && CodesBacked(st, t) && IdleWithinAbsolute(st)
    ensures Exchangeable(Purge(st, n, window), user, expected, input) <==> Exchangeable(st, user, expected, input)
  {}

  /** No digest or id of the call is stored yet. */
  ghost predicate Unused(st: Store, refresh: Option<RefreshInput>) {
    refresh.Some? ==>
      refresh.value.familyId !in st.families && TokenKey(refresh.value.familyId, refresh.value.secretHash) !in st.tokens
  }

  ghost function ExchangeGrant(st: Store, user: User, input: ExchangeInput): ExchangeOutcome
    requires input.secretHash in st.codes
  {
    var code := st.codes[input.secretHash];
    Exchanged(Grant(user.id, code.scope, Some(code.sid), code.claims, user), code.nonce,
              if input.refresh.Some? then Some(input.refresh.value.familyId) else None,
              if input.refresh.Some? then Some(KindOf(code, input.refresh.value)) else None)
  }

  /** The exchange gets as far as its inserts exactly when the tables before any purge allow it, with the
      grant they hold; an insert throws only on a stored family id or token digest. */
  lemma ExchangeIsItsDecision(st: Store, t: Time, user: User, expected: Option<string>, input: ExchangeInput)
    requires CodesBacked(st, t) && IdleWithinAbsolute(st)
    ensures
      var out := ExchangeCommit(st, user, expected, input).1;
      && (out.Exchanged? || out.ExchangeThrown? <==> Exchangeable(st, user, expected, input))
      && (out.Exchanged? ==> out == ExchangeGrant(st, user, input))
      && (out.ExchangeThrown? ==> !Unused(st, input.refresh))
  {
    PurgeKeepsExchangeable(st, t, input.now, PURGE_GRACE, user, expected, input);
    hide Exchangeable, Allowed, AdminAllowed, Overflow;
    ExchangeableHasCode(PurgeIfDue(st, input.now, PURGE_GRACE), user, expected, input);
  }

  lemma ExchangeableHasCode(st: Store, user: User, expected: Option<string>, input: ExchangeInput)
    ensures Exchangeable(st, user, expected, input) ==>
      input.secretHash in st.codes && st.codes[input.secretHash].consumedAt.None?
  {}

  /** Neither success nor grant changes, unless an insert throws, for which an id or digest must be stored. */
  lemma PurgeKeepsExchange(
      st: Store, t: Time, n: Time, window: int, user: User, expected: Option<string>, input: ExchangeInput)
    requires n <= input.now && CodesBacked(st, t) && IdleWithinAbsolute(st)
    ensures
      var out := ExchangeCommit(st, user, expected, input).1;
      var purged := ExchangeCommit(Purge(st, n, window), user, expected, input).1;
      && (out.Exchanged? && !purged.ExchangeThrown? ==> purged == out)
      && (purged.Exchanged? && !out.ExchangeThrown? ==> purged == out)
      && (out.ExchangeThrown? || purged.ExchangeThrown? ==> !Unused(st, input.refresh))
  {
    var p := Purge(st, n, window);
    assert CodesBacked(p, t) && IdleWithinAbsolute(p) && (Unused(st, input.refresh) ==> Unused(p, input.refresh));
    ExchangeIsItsDecision(st, t, user, expected, input);
    ExchangeIsItsDecision(p, t, user, expected, input);
    PurgeKeepsExchangeable(st, t, n, window, user, expected, input);
    hide Exchangeable, ExchangeCommit, CodesBacked, Unused;
    ExchangeableHasCode(p, user, expected, input);
  }

  // ---------------------------------------------------------------- rotateRefreshToken

  ghost predicate Rotates(st: Store, input: RotateInput) {
    Rotatable(st, input) && st.families[input.familyId].clientCreatedAt == input.client.createdAt
  }

  lemma PurgeKeepsRotatable(st: Store, n: Time, window: int, input: RotateInput)
    requires n <= input.now && TokensOwned(st)
    ensures Rotates(Purge(st, n, window), input) <==> Rotates(st, input)
    ensures Rotates(st, input) ==> Purge(st, n, window).families[input.familyId] == st.families[input.familyId]
  {
    var p, k := Purge(st, n, window), TokenKey(input.familyId, input.secretHash);
    if Rotates(st, input) {
      assert !ConsumedBefore(st.tokens, k, n - window);
      assert k in p.tokens;
    }
  }

  ghost function RotationGrant(st: Store, input: RotateInput): RotateOutcome
    requires input.familyId in st.families
  {
    var family := st.families[input.familyId];
    Rotated(Grant(st.user.id, GrantedScope(family, input.requestedScope), family.sid, family.claims, st.user),
      family.currentSerial + 1, family.kind)
  }

  ghost predicate SuccessorStored(st: Store, input: RotateInput) {
    TokenKey(input.familyId, input.newSecretHash) in st.tokens
  }

  lemma RotationIsItsDecision(st: Store, input: RotateInput)
    requires TokensOwned(st)
    ensures
      var out := RotateRefresh(st, input).1;
      && (out.Rotated? || out.RotateThrown? <==> Rotates(st, input))
      && (out.Rotated? ==> out == RotationGrant(st, input))
      && (out.RotateThrown? ==> SuccessorStored(st, input))
  {
    PurgeKeepsRotatable(st, input.now, input.reuseWindow, input);
  }

  /** Neither success nor grant changes, unless the insert of the successor throws, for which it must be stored. */
  lemma PurgeKeepsRotation(st: Store, n: Time, window: int, input: RotateInput)
    requires n <= input.now && TokensOwned(st)
    ensures
      var out, purged := RotateRefresh(st, input).1, RotateRefresh(Purge(st, n, window), input).1;
      && (out.Rotated? && !purged.RotateThrown? ==> purged == out)
      && (purged.Rotated? && !out.RotateThrown? ==> purged == out)
      && (out.RotateThrown? || purged.RotateThrown? ==> SuccessorStored(st, input))
  {
    var p := Purge(st, n, window);
    assert TokensOwned(p) && (SuccessorStored(p, input) ==> SuccessorStored(st, input));
    RotationIsItsDecision(st, input);
    RotationIsItsDecision(p, input);
    PurgeKeepsRotatable(st, n, window, input);
    hide RotateRefresh, Rotatable, TokensOwned, SuccessorStored;
  }

  // ---------------------------------------------------------------- finalizeLogin

  /** Everything `finalizeLogin` asks of the user and of the session to rotate, in the tables before any purge. */
  ghost predicate MayRotate(st: Store, input: FinalizeInput) {
    && input.session.Rotate? && st.user.disabledAt.None?
    && (input.client.Some? ==> Allowed(st.user, input.client.value))
    && (input.code.Some? ==> AdminAllowed(st.user, input.code.value.scope))
    && input.session.sid in st.sessions
    && st.sessions[input.session.sid].revoked.None? && st.sessions[input.session.sid].absoluteExpiresAt > input.now
  }

  ghost predicate Accepted(out: FinalizeOutcome) { out.Finalized? || out.FinalizeThrown? }

  /** A rotation is accepted exactly when the session may be rotated and the purge of the call, if due, leaves its
      row: a session idle for more than a day is revived only between two purges. */
  lemma RotationRevives(st: Store, input: FinalizeInput)
    requires input.session.Rotate?
    ensures Accepted(FinalizeLogin(st, input).1) <==>
      && MayRotate(st, input)
      && (PurgeDue(st, input.now) ==> st.sessions[input.session.sid].idleExpiresAt >= input.now - PURGE_GRACE)
  {
    var p := PurgeIfDue(st, input.now, PURGE_GRACE);
    var sid := input.session.sid;
    assert MayRotate(st, input) ==>
      (sid in p.sessions <==> !PurgeDue(st, input.now) || st.sessions[sid].idleExpiresAt >= input.now - PURGE_GRACE);
    assert sid in p.sessions ==> sid in st.sessions && p.sessions[sid] == st.sessions[sid];
    hide PurgeIfDue, Allowed, AdminAllowed, SecretTaken, SnapshotOf, IssueCode, WithSession;
  }

  /** So a purge at `n` refuses a rotation that was accepted without it exactly when the row was stale at `n`, or
      at the call when the purge of the call is due again. */
  lemma PurgeMayEndRevival(st: Store, n: Time, window: int, input: FinalizeInput)
    requires n <= input.now && input.session.Rotate? && Accepted(FinalizeLogin(st, input).1)
    ensures
      var idle := st.sessions[input.session.sid].idleExpiresAt;
      Accepted(FinalizeLogin(Purge(st, n, window), input).1) <==>
      && idle >= n - PURGE_GRACE
      && (input.now - n >= 60 ==> idle >= input.now - 86400)
  {
    var p := Purge(st, n, window);
    RotationRevives(st, input);
    RotationRevives(p, input);
    hide FinalizeLogin, Allowed, AdminAllowed;
    assert MayRotate(p, input) <==> st.sessions[input.session.sid].idleExpiresAt >= n - PURGE_GRACE;
  }

  /** The input: a session that has been idle for a day and ten seconds, half a minute after the last purge. */
  lemma RevivalBetweenPurges()
    ensures
      var now := 100000;
      var row := Session(0, 0, 0, now - PURGE_GRACE - 10, 2 * now, Claims(0, [], ""), None, None);
      var st := Store(User(1, {}, None), map[0 := row], map[], map[], map[], map[], Some(now - 30));
      var input := FinalizeInput(now, Rotate(0, 1, Claims(now, [], ""), None), None, None, 1000);
      && Sound(st) && FinalizeLogin(st, input).1.Finalized?
      && FinalizeLogin(Purge(st, now, PURGE_GRACE), input).1 == FinalizeFailed(SessionInvalid)
  {
    var now := 100000;
    var row := Session(0, 0, 0, now - PURGE_GRACE - 10, 2 * now, Claims(0, [], ""), None, None);
    var st := Store(User(1, {}, None), map[0 := row], map[], map[], map[], map[], Some(now - 30));
    var input := FinalizeInput(now, Rotate(0, 1, Claims(now, [], ""), None), None, None, 1000);
    assert PurgeIfDue(st, now, PURGE_GRACE) == st;
    var p := Purge(st, now, PURGE_GRACE);
    assert 0 !in p.sessions && p.lastPurgeAt == Some(now) && p.user == st.user;
    assert PurgeIfDue(p, now, PURGE_GRACE) == p;
    hide Purge, PurgeIfDue;
  }

  // ---------------------------------------------------------------- in every run

  /** In every state a run with a forward clock reaches, a purge at any time up to the call changes
      neither whether an exchange or a rotation succeeds nor what it grants. */
  lemma PurgeIsInvisibleInRuns(
      user: User, es: seq<Event>, t: Time, n: Time, window: int, read: User, expected: Option<string>,
      exchange: ExchangeInput, rotation: RotateInput)
    requires AllOnTime(t, es) && n <= exchange.now && n <= rotation.now
    ensures
      var st := Run(Initial(user), es).st; var p := Purge(st, n, window);
      var e, f := ExchangeCommit(st, read, expected, exchange).1, ExchangeCommit(p, read, expected, exchange).1;
      && (e.Exchanged? && !f.ExchangeThrown? ==> e == f) && (f.Exchanged? && !e.ExchangeThrown? ==> e == f)
      && (e.ExchangeThrown? || f.ExchangeThrown? ==> !Unused(st, exchange.refresh))
    ensures
      var st := Run(Initial(user), es).st; var p := Purge(st, n, window);
      var r, s := RotateRefresh(st, rotation).1, RotateRefresh(p, rotation).1;
      && (r.Rotated? && !s.RotateThrown? ==> r == s) && (s.Rotated? && !r.RotateThrown? ==> r == s)
      && (r.RotateThrown? || s.RotateThrown? ==> SuccessorStored(st, rotation))
  {
    EveryRunIsTimely(user, es, t);
    RunKeepsSound(Initial(user), es);
    hide ExchangeCommit, RotateRefresh, Purge, CodesBacked, TokensOwned, IdleWithinAbsolute, Run;
    var st := Run(Initial(user), es).st;
    PurgeKeepsExchange(st, Now(t, es), n, window, read, expected, exchange);
    PurgeKeepsRotation(st, n, window, rotation);
  }
}
