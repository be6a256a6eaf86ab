/** What the calls that only end or delete rows change, row by row, and what they leave alone. */
module UserEffects {
  import opened Options
  import opened UserModel
  import opened UserCases

  // ---------------------------------------------------------------- revoking

  /** From `a` to `b` exactly the unrevoked sessions of `sids` and families of `ids` were revoked, with `r`. */
  ghost predicate OnlyRevokes(a: Store, b: Store, sids: set<Sid>, ids: set<FamilyId>, r: Revocation) {
    && b == a.(sessions := b.sessions, families := b.families)
    && b.sessions.Keys == a.sessions.Keys && b.families.Keys == a.families.Keys
    && (forall s :: s in a.sessions ==>
          b.sessions[s] == if s in sids && a.sessions[s].revoked == None then a.sessions[s].(revoked := Some(r))
                           else a.sessions[s])
    && (forall f :: f in a.families ==>
          b.families[f] == if f in ids && a.families[f].revoked == None then a.families[f].(revoked := Some(r))
                           else a.families[f])
  }

  /** The families that live on one of the sessions. */
  ghost function OnSessions(st: Store, sids: set<Sid>): set<FamilyId> {
    set f | f in st.families && st.families[f].kind == SessionBound && st.families[f].sid.Some?
      && st.families[f].sid.value in sids
  }

  lemma EndingRevokesOnly(st: Store, sids: set<Sid>, r: Revocation)
    ensures OnlyRevokes(st, EndSessions(st, sids, r), sids, OnSessions(st, sids), r)
  {}

  lemma FamiliesRevokedOnly(st: Store, ids: set<FamilyId>, r: Revocation)
    ensures OnlyRevokes(st, WithFamiliesRevoked(st, ids, r), {}, ids, r)
  {}

  lemma RevokingTwice(a: Store, b: Store, c: Store, sids: set<Sid>, ids: set<FamilyId>, more: set<FamilyId>,
      r: Revocation)
    requires OnlyRevokes(a, b, sids, ids, r) && OnlyRevokes(b, c, {}, more, r)
    ensures OnlyRevokes(a, c, sids, ids + more, r)
  {}

  /** Ending a session takes it and the families on it, tells the clients that got a code on it, and does nothing to
      a session that is gone or has ended. */
  lemma RevokeSessionEffect(st: Store, sid: Sid, now: Time, reason: string)
    ensures
      var p := PurgeIfDue(st, now, 86400);
      var (q, told) := RevokeSession(st, sid, now, reason);
      if sid in p.sessions && p.sessions[sid].revoked == None then
        && OnlyRevokes(p, q, {sid}, OnSessions(p, {sid}), Revocation(now, reason))
        && told.Some? && forall c :: c in told.value <==> (sid, c) in p.sessionClients
      else q == p && told == None
  {
    var p := PurgeIfDue(st, now, PURGE_GRACE);
    EndingRevokesOnly(p, {sid}, Revocation(now, reason));
    hide PurgeIfDue, EndSessions, OnlyRevokes, OnSessions;
  }

  /** Ending the others takes every session usable now but the kept one, which stays as it was. */
  lemma RevokeOthersEffect(st: Store, keep: Option<Sid>, now: Time, reason: string)
    ensures
      var p := PurgeIfDue(st, now, 86400);
      var (q, sids) := RevokeOtherSessions(st, keep, now, reason);
      && OnlyRevokes(p, q, sids, OnSessions(p, sids), Revocation(now, reason))
      && (forall s :: s in sids <==>
            && s in p.sessions && keep != Some(s) && p.sessions[s].revoked == None
            && now < p.sessions[s].idleExpiresAt && now < p.sessions[s].absoluteExpiresAt)
      && (keep.Some? && keep.value in p.sessions ==> q.sessions[keep.value] == p.sessions[keep.value])
  {
    var p, sids := PurgeIfDue(st, now, PURGE_GRACE), RevokeOtherSessions(st, keep, now, reason).1;
    EndingRevokesOnly(p, sids, Revocation(now, reason));
    hide PurgeIfDue, EndSessions, OnSessions;
  }

  lemma EverythingEffect(st: Store, r: Revocation)
    ensures OnlyRevokes(st, EverythingRevoked(st, r), st.sessions.Keys, st.families.Keys, r)
  {
    var sids := UnrevokedSids(st);
    var ended := EndSessions(st, sids, r);
    EndingRevokesOnly(st, sids, r);
    FamiliesRevokedOnly(ended, st.families.Keys, r);
    RevokingTwice(st, ended, EverythingRevoked(st, r), sids, OnSessions(st, sids), st.families.Keys, r);
    hide EndSessions, WithFamiliesRevoked, EverythingRevoked;
  }

  /** Disabling records it and takes everything; enabling records it and touches nothing else. */
  lemma SetDisabledEffect(st: Store, at: Option<Time>, now: Time)
    ensures
      var q, changed := SetDisabled(st, at, now), st.(user := st.user.(disabledAt := at));
      if at.None? then q == changed
      else OnlyRevokes(changed, q, st.sessions.Keys, st.families.Keys, Revocation(now, "disabled"))
  {
    EverythingEffect(st.(user := st.user.(disabledAt := at)), Revocation(now, "disabled"));
    hide EverythingRevoked, OnlyRevokes;
  }

  lemma RevokeFamilyEffect(st: Store, f: FamilyId, now: Time, reason: string, client: Option<ClientId>)
    ensures
      var (q, revoked) := RevokeFamilyById(st, f, now, reason, client);
      && (revoked <==>
           f in st.families && st.families[f].revoked == None && client in {None, Some(st.families[f].clientId)})
      && (if revoked then OnlyRevokes(st, q, {}, {f}, Revocation(now, reason)) else q == st)
  {
    FamiliesRevokedOnly(st, {f}, Revocation(now, reason));
    hide WithFamiliesRevoked, OnlyRevokes;
  }

  lemma RevokeClientEffect(st: Store, client: ClientId, sid: Option<Sid>, now: Time, reason: string)
    ensures
      var ids := set f | f in st.families && st.families[f].clientId == client
        && (sid == None || st.families[f].sid == sid);
      OnlyRevokes(st, RevokeClientFamilies(st, client, sid, now, reason), {}, ids, Revocation(now, reason))
  {
    var ids := set f | f in st.families && st.families[f].clientId == client
      && (sid == None || st.families[f].sid == sid);
    assert ids == FamiliesOf(st, client, sid);
    FamiliesRevokedOnly(st, ids, Revocation(now, reason));
    hide WithFamiliesRevoked, OnlyRevokes, FamiliesOf;
  }

  /** A replayed code takes the families it opened. */
  lemma ReplayEffect(st: Store, user: User, expected: Option<string>, input: ExchangeInput)
    requires ExchangeCommit(st, user, expected, input).1.Replayed?
    ensures
      var p := PurgeIfDue(st, input.now, 86400);
      var ids := set f | f in p.families && p.families[f].codeHash == input.secretHash;
      OnlyRevokes(p, ExchangeCommit(st, user, expected, input).0, {}, ids, Revocation(input.now, "code_replay"))
  {
    var p := PurgeIfDue(st, input.now, PURGE_GRACE);
    var ids := set f | f in p.families && p.families[f].codeHash == input.secretHash;
    ExchangeCases(st, user, expected, input);
    assert ids == FamiliesOfCode(p, input.secretHash);
    FamiliesRevokedOnly(p, ids, Revocation(input.now, "code_replay"));
    hide PurgeIfDue, ExchangeCommit, OnlyRevokes, WithFamiliesRevoked, FamiliesOfCode;
  }

  /** A reused token takes its family and, when that is bound, its session with every family on it. */
  lemma ReuseEffect(st: Store, input: RotateInput)
    requires RotateRefresh(st, input).1.ReuseDetected?
    ensures
      var p, q, f := PurgeIfDue(st, input.now, input.reuseWindow), RotateRefresh(st, input).0, input.familyId;
      && f in p.families
      && var first := p.(families := p.families[f := p.families[f].(revoked :=
           if p.families[f].revoked == None then Some(Revocation(input.now, "reuse")) else p.families[f].revoked)]);
         match p.families[f].sid
         case None => q == first
         case Some(sid) =>
           OnlyRevokes(first, q, {sid}, OnSessions(first, {sid}), Revocation(input.now, "refresh_reuse"))
  {
    var p, f, r := PurgeIfDue(st, input.now, input.reuseWindow), input.familyId, Revocation(input.now, "reuse");
    RotateCases(st, input);
    hide RotateRefresh, PurgeIfDue;
    var dead := WithFamiliesRevoked(p, {f}, r);
    var first := p.(families := p.families[f := p.families[f].(revoked :=
      if p.families[f].revoked == None then Some(r) else p.families[f].revoked)]);
    assert dead.families == first.families;
    if p.families[f].sid.Some? {
      EndingRevokesOnly(dead, {p.families[f].sid.value}, Revocation(input.now, "refresh_reuse"));
    }
    hide EndSessions, WithFamiliesRevoked, OnlyRevokes, OnSessions;
  }

  /** A rotation moves its family, adds its token and at most touches its session. */
  lemma RotatedEffect(st: Store, input: RotateInput)
    requires RotateRefresh(st, input).1.Rotated?
    ensures
      var p, q, f := PurgeIfDue(st, input.now, input.reuseWindow), RotateRefresh(st, input).0, input.familyId;
      && f in p.families && f in q.families
      && q.codes == p.codes && q.sessionClients == p.sessionClients && q.user == p.user
      && q.families == p.families[f := p.families[f].(currentSerial := p.families[f].currentSerial + 1,
                                                      idleExpiresAt := q.families[f].idleExpiresAt)]
      && q.tokens == p.tokens[TokenKey(f, input.newSecretHash) := Token(p.families[f].currentSerial + 1, input.now)]
      && q.sessions.Keys == p.sessions.Keys
      && (forall s :: s in p.sessions && p.families[f].sid != Some(s) ==> q.sessions[s] == p.sessions[s])
  {
    var p := PurgeIfDue(st, input.now, input.reuseWindow);
    RotateCases(st, input);
    assert var sid := p.families[input.familyId].sid; sid.Some? ==> sid.value in p.sessions;
    hide RotateRefresh, PurgeIfDue, RotationError, LiveFamily;
  }

  // ---------------------------------------------------------------- refusals

  /** A call whose insert throws leaves every table as it was. */
  lemma ThrownUndoes(
      st: Store, a: AuthorizeInput, f: FinalizeInput, user: User, digest: Option<string>, x: ExchangeInput,
        r: RotateInput)
    ensures AuthorizeWithSession(st, a).1.AuthorizeThrown? ==>
      AuthorizeWithSession(st, a).0 == st.(lastPurgeAt := PurgeIfDue(st, a.now, 86400).lastPurgeAt)
    ensures FinalizeLogin(st, f).1.FinalizeThrown? ==>
      FinalizeLogin(st, f).0 == st.(lastPurgeAt := PurgeIfDue(st, f.now, 86400).lastPurgeAt)
    ensures ExchangeCommit(st, user, digest, x).1.ExchangeThrown? ==>
      ExchangeCommit(st, user, digest, x).0 == st.(lastPurgeAt := PurgeIfDue(st, x.now, 86400).lastPurgeAt)
    ensures RotateRefresh(st, r).1.RotateThrown? ==>
      RotateRefresh(st, r).0 == st.(lastPurgeAt := PurgeIfDue(st, r.now, r.reuseWindow).lastPurgeAt)
  {
    AuthorizeCases(st, a);
    FinalizeCases(st, f);
    ExchangeCases(st, user, digest, x);
    RotateCases(st, r);
    hide AuthorizeWithSession, FinalizeLogin, ExchangeCommit, RotateRefresh, PurgeIfDue;
  }

  /** An authorization touches nothing unless it issues a code; a refused login or exchange at most purges. */
  lemma RefusalsLeave(
      st: Store, a: AuthorizeInput, f: FinalizeInput, user: User, digest: Option<string>, x: ExchangeInput)
    ensures
      var (st', out) := AuthorizeWithSession(st, a);
      !out.AuthorizeThrown? && !(out.Authorized? && a.code.Some?) ==> st' == st
    ensures
      var (st', out) := FinalizeLogin(st, f);
      out.FinalizeFailed? ==> st' == st || st' == PurgeIfDue(st, f.now, 86400)
    ensures
      var (st', out) := ExchangeCommit(st, user, digest, x);
      out.ExchangeFailed? ==> st' == PurgeIfDue(st, x.now, 86400)
  {
    AuthorizeCases(st, a);
    FinalizeCases(st, f);
    ExchangeCases(st, user, digest, x);
    hide AuthorizeWithSession, FinalizeLogin, ExchangeCommit, PurgeIfDue;
  }

  /** A refused rotation at most purges, but for a live family of a client that was deleted and made again, which goes
      with its tokens. */
  lemma RefusedRotationLeaves(st: Store, input: RotateInput)
    requires RotateRefresh(st, input).1.RotateFailed?
    ensures
      var p, q, f := PurgeIfDue(st, input.now, input.reuseWindow), RotateRefresh(st, input).0, input.familyId;
      var stale := f in p.families && p.families[f].revoked == None && input.now < p.families[f].idleExpiresAt
        && input.now < p.families[f].absoluteExpiresAt && p.families[f].clientId == input.client.clientId
        && p.families[f].clientCreatedAt != input.client.createdAt;
      if stale then
        && q == p.(families := q.families, tokens := q.tokens) && q.families == p.families - {f}
        && (forall k :: k in q.tokens <==> k in p.tokens && k.family != f)
        && (forall k :: k in q.tokens ==> q.tokens[k] == p.tokens[k])
      else q == p
  {
    hide PurgeIfDue, RotationError, SessionClients, Advanced, ReuseOf, GrantedScope;
  }

  // ---------------------------------------------------------------- purging

  /** Ended or expired more than a day ago. */
  predicate LongOver(revoked: Option<Revocation>, idle: Time, absolute: Time, now: Time) {
    (revoked.Some? && revoked.value.at + 86400 < now) || idle + 86400 < now || absolute + 86400 < now
  }

  /** A purge deletes exactly the codes that have expired, the sessions and families long over with what hangs on
      them, and the tokens whose successor is older than the window; it changes no row. */
  lemma PurgeEffect(st: Store, now: Time, window: int)
    ensures
      var p := Purge(st, now, window);
      && p.user == st.user && p.lastPurgeAt == Some(now)
      && (forall c :: c in p.codes <==> c in st.codes && now <= st.codes[c].expiresAt)
      && (forall c :: c in p.codes ==> p.codes[c] == st.codes[c])
      && (forall s :: s in p.sessions <==> s in st.sessions && var x := st.sessions[s];
            !LongOver(x.revoked, x.idleExpiresAt, x.absoluteExpiresAt, now))
      && (forall s :: s in p.sessions ==> p.sessions[s] == st.sessions[s])
      && (forall f :: f in p.families <==> f in st.families && var x := st.families[f];
            !LongOver(x.revoked, x.idleExpiresAt, x.absoluteExpiresAt, now))
      && (forall f :: f in p.families ==> p.families[f] == st.families[f])
  {
    hide ConsumedBefore;
  }

  lemma PurgeEffectOnTheRest(st: Store, now: Time, window: int)
    ensures
      var p := Purge(st, now, window);
      && (forall x :: x in p.sessionClients <==> x in st.sessionClients && x.0 in p.sessions)
      && (forall x :: x in p.sessionClients ==> p.sessionClients[x] == st.sessionClients[x])
      && (forall k :: k in p.tokens <==>
            && k in st.tokens && k.family in p.families
            && forall l :: l in st.tokens && l.family == k.family && st.tokens[l].serial == st.tokens[k].serial + 1 ==>
                 now - window <= st.tokens[l].createdAt)
      && (forall k :: k in p.tokens ==> p.tokens[k] == st.tokens[k])
  {
    hide StaleSession, StaleFamily;
  }

  /** At most once in a minute. */
  lemma PurgeIsThrottled(st: Store, now: Time, window: int)
    ensures
      PurgeIfDue(st, now, window) ==
      if st.lastPurgeAt.Some? && now < st.lastPurgeAt.value + 60 then st else Purge(st, now, window)
  {
    hide Purge;
  }
}
