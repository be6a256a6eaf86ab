/** The tables after a call by its outcome: what proofs about the calls need of their bodies. */
module UserCases {
  import opened Options
  import opened UserModel

  /** The tables of a login that went through, from the purged ones. */
  ghost function LoggedIn(p: Store, input: FinalizeInput): Store
    requires input.session.Rotate? ==> input.session.sid in p.sessions
  {
    var q := WithSession(p, input);
    if input.code.None? then q else IssueCode(q, input.code.value, input.session.sid, input.now, input.idleTtl)
  }

  ghost predicate MayLogIn(p: Store, input: FinalizeInput) {
    var s := input.session;
    if s.Create? then s.sid !in p.sessions
    else s.sid in p.sessions && p.sessions[s.sid].revoked.None? && p.sessions[s.sid].absoluteExpiresAt > input.now
  }

  lemma FinalizeCases(st: Store, input: FinalizeInput)
    ensures
      var p := PurgeIfDue(st, input.now, PURGE_GRACE);
      var (st', out) := FinalizeLogin(st, input);
      && (out.FinalizeFailed? ==> st' == st || st' == p)
      && (out.FinalizeThrown? ==> st' == RolledBack(st, p))
      && (out.Finalized? ==> MayLogIn(p, input) && st' == LoggedIn(p, input))
  {
    hide PurgeIfDue, Allowed, AdminAllowed, SecretTaken, SnapshotOf, IssueCode, NewSession, Reauthenticated;
  }

  lemma AuthorizeCases(st: Store, input: AuthorizeInput)
    ensures
      var p := PurgeIfDue(st, input.now, PURGE_GRACE);
      var (st', out) := AuthorizeWithSession(st, input);
      && (out.AuthorizeThrown? ==> st' == RolledBack(st, p))
      && (out.Authorized? && input.code.Some? ==>
            && SessionHit(st, input.sid, input.secretHash, input.now) && input.sid in p.sessions
            && input.code.value.secretHash !in p.codes
            && st' == IssueCode(p, input.code.value, input.sid, input.now, input.idleTtl))
      && (!out.AuthorizeThrown? && !(out.Authorized? && input.code.Some?) ==> st' == st)
  {
    hide PurgeIfDue, Allowed, AdminAllowed, SnapshotOf, IssueCode;
  }

  /** The outcome, from that of the same call without a code. */
  lemma AuthorizeOutcomes(st: Store, input: AuthorizeInput)
    ensures
      var p := PurgeIfDue(st, input.now, PURGE_GRACE);
      var (st', out) := AuthorizeWithSession(st, input);
      var plain := AuthorizeWithSession(st, input.(code := None)).1;
      if plain.Authorized? && input.code.Some? then
        && SessionHit(st, input.sid, input.secretHash, input.now)
        && if input.code.value.secretHash in p.codes || input.sid !in p.sessions then out.AuthorizeThrown?
           else out == Authorized(SnapshotOf(IssueCode(p, input.code.value, input.sid, input.now, input.idleTtl),
             input.sid), st.user)
      else out == plain
  {
    hide PurgeIfDue, Allowed, AdminAllowed, SnapshotOf, IssueCode;
  }

  /** The tables of an exchange that answered with a grant, from the purged ones. */
  ghost function Granted(p: Store, input: ExchangeInput): Store
    requires input.secretHash in p.codes && p.codes[input.secretHash].sid in p.sessions
  {
    var code, q := p.codes[input.secretHash], Consumed(p, input.secretHash, input.now);
    if input.refresh.None? then q
    else
      var r := input.refresh.value;
      var family := NewFamily(code, input.secretHash, p.sessions[code.sid], input.client, r, input.now);
      Capped(WithFamily(q, family, r, input.now), input.client.clientId, input.now)
  }

  lemma ExchangeCases(st: Store, user: User, expected: Option<string>, input: ExchangeInput)
    ensures
      var p := PurgeIfDue(st, input.now, PURGE_GRACE);
      var (st', out) := ExchangeCommit(st, user, expected, input);
      && (out.ExchangeFailed? ==> st' == p)
      && (out.ExchangeThrown? ==> st' == RolledBack(st, p))
      && (out.Replayed? ==>
            st' == WithFamiliesRevoked(p, FamiliesOfCode(p, input.secretHash), Revocation(input.now, "code_replay")))
      && (out.Exchanged? ==> Exchangeable(p, user, expected, input) && st' == Granted(p, input))
      && (out.Exchanged? && input.refresh.Some? ==>
            && input.refresh.value.familyId !in p.families
            && TokenKey(input.refresh.value.familyId, input.refresh.value.secretHash) !in p.tokens)
  {
    hide PurgeIfDue, Allowed, AdminAllowed, PkceHolds, Consumed, WithFamily, Capped, WithFamiliesRevoked;
  }

  lemma RotateCases(st: Store, input: RotateInput)
    ensures
      var p := PurgeIfDue(st, input.now, input.reuseWindow);
      var (st', out) := RotateRefresh(st, input);
      && (out.RotateThrown? ==> st' == RolledBack(st, p))
      && (out.RotateFailed? ==> st' == p || st' == WithoutFamily(p, input.familyId))
      && (out.ReuseDetected? ==> input.familyId in p.families && st' == ReuseOf(p, input.familyId, input.now))
      && (out.Rotated? ==>
            && FamilyAnswers(p, input) && RotationError(p, input).None?
            && TokenKey(input.familyId, input.newSecretHash) !in p.tokens && st' == Advanced(p, input))
  {
    hide PurgeIfDue, WithoutFamily, ReuseOf, Advanced, RotationError, LiveFamily, SessionClients, GrantedScope;
  }

  // ---------------------------------------------------------------- the row of a new code

  lemma IssueTables(p: Store, now: Time, code: CodeInput, sid: Sid, idleTtl: int)
    requires sid in p.sessions
    ensures IssueCode(p, code, sid, now, idleTtl).codes == p.codes[code.secretHash :=
      Code(code.clientId, code.redirectUri, code.scope, code.nonce, code.challenge, sid, p.sessions[sid].claims, now,
           now + 60, None)]
  {}

  lemma IssueKeepsLogin(p: Store, now: Time, code: CodeInput, sid: Sid, idleTtl: int)
    requires sid in p.sessions
    ensures
      var q := IssueCode(p, code, sid, now, idleTtl);
      && sid in q.sessions && q.sessions[sid].claims == p.sessions[sid].claims
      && q.sessions[sid].secretHash == p.sessions[sid].secretHash
           && q.sessions[sid].upstream == p.sessions[sid].upstream
  {}

  /** The row of `code`, issued at `now` on `sid` with the claims of that session. */
  ghost predicate HasCode(st: Store, code: CodeInput, sid: Sid, now: Time) {
    && sid in st.sessions && code.secretHash in st.codes
    && var row := st.codes[code.secretHash];
    && row.clientId == code.clientId && row.redirectUri == code.redirectUri && row.scope == code.scope
    && row.nonce == code.nonce && row.challenge == code.challenge
    && row.sid == sid && row.claims == st.sessions[sid].claims
    && row.createdAt == now && row.expiresAt == now + 60 && row.consumedAt == None
  }

  lemma AuthorizedRow(st: Store, input: AuthorizeInput)
    requires AuthorizeWithSession(st, input).1.Authorized? && input.code.Some?
    ensures
      var st' := AuthorizeWithSession(st, input).0;
      HasCode(st', input.code.value, input.sid, input.now) && st'.sessions[input.sid].secretHash == input.secretHash
  {
    var p := PurgeIfDue(st, input.now, PURGE_GRACE);
    AuthorizeCases(st, input);
    assert forall s :: s in p.sessions ==> s in st.sessions && p.sessions[s] == st.sessions[s];
    IssueTables(p, input.now, input.code.value, input.sid, input.idleTtl);
    IssueKeepsLogin(p, input.now, input.code.value, input.sid, input.idleTtl);
    hide AuthorizeWithSession, PurgeIfDue, IssueCode;
  }

  lemma FinalizedRow(st: Store, input: FinalizeInput)
    requires FinalizeLogin(st, input).1.Finalized? && input.code.Some?
    ensures
      var st', s := FinalizeLogin(st, input).0, input.session;
      && HasCode(st', input.code.value, s.sid, input.now)
      && st'.sessions[s.sid].secretHash == s.secretHash && st'.sessions[s.sid].claims == s.claims
      && st'.sessions[s.sid].upstream == s.upstream
  {
    var p := PurgeIfDue(st, input.now, PURGE_GRACE);
    FinalizeCases(st, input);
    hide FinalizeLogin, PurgeIfDue, IssueCode;
    var q := WithSession(p, input);
    IssueTables(q, input.now, input.code.value, input.session.sid, input.idleTtl);
    IssueKeepsLogin(q, input.now, input.code.value, input.session.sid, input.idleTtl);
  }

  // ---------------------------------------------------------------- outcomes

  /** The tree of a rotation on tables that it does not purge. */
  lemma RotateOutcomes(p: Store, input: RotateInput)
    requires !PurgeDue(p, input.now)
    ensures
      var out, k := RotateRefresh(p, input).1, TokenKey(input.familyId, input.secretHash);
      if !FamilyAnswers(p, input) || p.families[input.familyId].clientCreatedAt != input.client.createdAt
         || k !in p.tokens || p.tokens[k].serial > p.families[input.familyId].currentSerial
      then out == RotateFailed(InvalidGrant)
      else
        var family := p.families[input.familyId];
        if p.tokens[k].serial < family.currentSerial then out.ReuseDetected?
        else if RotationError(p, input).Some? then out == RotateFailed(RotationError(p, input).value)
        else
          || out.RotateThrown?
          || out == Rotated(Grant(p.user.id, GrantedScope(family, input.requestedScope), family.sid, family.claims,
               p.user),
                            family.currentSerial + 1, family.kind)
  {
    hide ReuseOf, Advanced, RotationError, LiveFamily, SessionClients, GrantedScope, WithoutFamily;
  }

  lemma ExchangeOutcomes(st: Store, user: User, expected: Option<string>, input: ExchangeInput)
    ensures
      var p, out := PurgeIfDue(st, input.now, PURGE_GRACE), ExchangeCommit(st, user, expected, input).1;
      && (out.Replayed? <==> input.secretHash in p.codes && p.codes[input.secretHash].consumedAt.Some?)
      && (out.Exchanged? ==> input.secretHash in p.codes)
      && (out.Exchanged? || out.Replayed? || out.ExchangeThrown? || out == ExchangeFailed(InvalidGrant))
  {
    hide PurgeIfDue, Allowed, AdminAllowed, PkceHolds, Consumed, WithFamily, Capped, WithFamiliesRevoked;
  }

  /** The sessions after a login: one row is new or changed, and the code it issues does not touch it again. */
  lemma LoggedInSessions(p: Store, input: FinalizeInput)
    requires MayLogIn(p, input)
    ensures
      var s := input.session;
      LoggedIn(p, input).sessions == p.sessions[s.sid :=
        if s.Create? then NewSession(s, input.now) else Reauthenticated(p.sessions[s.sid], s, input.now, input.idleTtl)]
  {}
}
