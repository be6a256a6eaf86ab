/** The Durable Object class of src/do/UserDO.ts: tables that its methods rewrite statement
    by statement. Every method is proved against the function of UserModel that the
    invariants and run theorems are about. */
module UserObject {
  import opened Options
  import opened UserModel
  import UserSound

  lemma SessionsOneMore(sessions: map<Sid, Session>, ended: set<Sid>, sid: Sid, r: Revocation)
    ensures RevokeSessions(RevokeSessions(sessions, ended, r), {sid}, r) == RevokeSessions(sessions, ended + {sid}, r)
    ensures RevokeSessions(sessions, {}, r) == sessions
  {}

  lemma FamiliesOneMore(families: map<FamilyId, Family>, ended: set<Sid>, sid: Sid, r: Revocation)
    ensures var once := RevokeFamilies(families, BoundTo(families, ended), r);
      RevokeFamilies(once, BoundTo(once, {sid}), r) == RevokeFamilies(families, BoundTo(families, ended + {sid}), r)
    ensures RevokeFamilies(families, BoundTo(families, {}), r) == families
  {}

  /** Ending sessions one at a time ends the whole set. */
  lemma EndingOneMore(st: Store, ended: set<Sid>, sid: Sid, r: Revocation)
    ensures EndSessions(EndSessions(st, ended, r), {sid}, r) == EndSessions(st, ended + {sid}, r)
    ensures EndSessions(st, {}, r) == st
  {
    SessionsOneMore(st.sessions, ended, sid, r);
    FamiliesOneMore(st.families, ended, sid, r);
    hide RevokeSessions, RevokeFamilies, BoundTo;
  }

  // The five DELETE statements of the purge, with the two cascades of the schema.

  function DeleteExpired(codes: map<Hash, Code>, now: Time): map<Hash, Code> {
    map c | c in codes && !(codes[c].expiresAt < now) :: codes[c]
  }

  function DeleteConsumed(tokens: map<TokenKey, Token>, cutoff: Time): map<TokenKey, Token> {
    map k | k in tokens && !ConsumedBefore(tokens, k, cutoff) :: tokens[k]
  }

  function DeleteStaleFamilies(families: map<FamilyId, Family>, grace: Time): map<FamilyId, Family> {
    map f | f in families && !StaleFamily(families[f], grace) :: families[f]
  }

  function CascadeTokens(tokens: map<TokenKey, Token>, families: set<FamilyId>): map<TokenKey, Token> {
    map k | k in tokens && k.family in families :: tokens[k]
  }

  function DeleteStaleSessions(sessions: map<Sid, Session>, grace: Time): map<Sid, Session> {
    map s | s in sessions && !StaleSession(sessions[s], grace) :: sessions[s]
  }

  function CascadeClients(clients: map<(Sid, ClientId), Time>, sids: set<Sid>): map<(Sid, ClientId), Time> {
    map p | p in clients && p.0 in sids :: clients[p]
  }

  /** One after the other they delete what `Purge` says: the families' cascade and the token purge commute. */
  lemma PurgeInStatements(st: Store, now: Time, window: int)
    ensures
      var families, sessions :=
        DeleteStaleFamilies(st.families, now - PURGE_GRACE), DeleteStaleSessions(st.sessions, now - PURGE_GRACE);
      Purge(st, now, window) ==
        Store(st.user, sessions, CascadeClients(st.sessionClients, sessions.Keys), DeleteExpired(st.codes, now),
          families,
              CascadeTokens(DeleteConsumed(st.tokens, now - window), families.Keys), Some(now))
  {
    hide ConsumedBefore, StaleFamily, StaleSession;
    var p, families := Purge(st, now, window), DeleteStaleFamilies(st.families, now - PURGE_GRACE);
    assert p.families == families;
    assert p.tokens == CascadeTokens(DeleteConsumed(st.tokens, now - window), families.Keys);
    assert p.sessionClients ==
      CascadeClients(st.sessionClients, DeleteStaleSessions(st.sessions, now - PURGE_GRACE).Keys);
  }

  /** Each session is reported with the clients it had in `st`. */
  ghost predicate ReportsClients(revoked: map<Sid, set<ClientId>>, st: Store) {
    forall s :: s in revoked ==> revoked[s] == SessionClients(st, s)
  }

  lemma ReportsOneMore(revoked: map<Sid, set<ClientId>>, st: Store, sid: Sid)
    requires ReportsClients(revoked, st)
    ensures ReportsClients(revoked[sid := SessionClients(st, sid)], st)
    ensures revoked[sid := SessionClients(st, sid)].Keys == revoked.Keys + {sid}
  {}

  /** The loop over `sids` has `todo` left: the others are ended and reported. */
  ghost predicate Ending(
      before: Store, reached: Store, sids: set<Sid>, todo: set<Sid>, revoked: map<Sid, set<ClientId>>, r: Revocation)
  {
    && todo <= sids && revoked.Keys == sids - todo
    && reached == EndSessions(before, revoked.Keys, r) && ReportsClients(revoked, before)
  }

  lemma NothingEnded(before: Store, sids: set<Sid>, r: Revocation)
    ensures Ending(before, before, sids, sids, map[], r)
  {
    hide EndSessions;
    EndingOneMore(before, {}, 0, r);
    var none: map<Sid, set<ClientId>> := map[];
    assert sids - sids == {} == none.Keys;
  }

  lemma OneMoreEnded(
      before: Store, reached: Store, sids: set<Sid>, todo: set<Sid>, revoked: map<Sid, set<ClientId>>, r: Revocation,
      sid: Sid)
    requires Ending(before, reached, sids, todo, revoked, r) && sid in todo
    ensures
      var more := revoked[sid := SessionClients(reached, sid)];
      Ending(before, EndSessions(reached, {sid}, r), sids, todo - {sid}, more, r)
  {
    hide EndSessions, SessionClients;
    EndingKeepsClients(before, revoked.Keys, r, sid);
    EndingOneMore(before, revoked.Keys, sid, r);
    ReportsOneMore(revoked, before, sid);
    hide ReportsClients;
    assert sids - (todo - {sid}) == (sids - todo) + {sid};
  }

  lemma AllEnded(before: Store, reached: Store, sids: set<Sid>, revoked: map<Sid, set<ClientId>>, r: Revocation)
    requires Ending(before, reached, sids, {}, revoked, r)
    ensures reached == EndSessions(before, sids, r) && revoked.Keys == sids && ReportsClients(revoked, before)
  {
    hide EndSessions, ReportsClients;
    assert sids - {} == sids;
  }

  lemma EndingKeepsClients(st: Store, ended: set<Sid>, r: Revocation, sid: Sid)
    ensures SessionClients(EndSessions(st, ended, r), sid) == SessionClients(st, sid)
  {}

  class UserDO {
    var user: User
    var sessions: map<Sid, Session>
    var sessionClients: map<(Sid, ClientId), Time>
    var codes: map<Hash, Code>
    var families: map<FamilyId, Family>
    var tokens: map<TokenKey, Token>
    var lastPurgeAt: Option<Time>

    function Contents(): Store
      reads this
    {
      Store(user, sessions, sessionClients, codes, families, tokens, lastPurgeAt)
    }

    constructor (user: User)
      ensures Contents() == Store(user, map[], map[], map[], map[], map[], None)
    {
      this.user := user;
      sessions, sessionClients, codes, families, tokens := map[], map[], map[], map[], map[];
      lastPurgeAt := None;
    }

    /** The storage engine undoing a transaction; the purge instant is a field, not a row. */
    method Rollback(before: Store)
      modifies this
      ensures Contents() == RolledBack(before, old(Contents()))
    {
      user, sessions, sessionClients := before.user, before.sessions, before.sessionClients;
      codes, families, tokens := before.codes, before.families, before.tokens;
    }

    method PurgeTables(now: Time, window: int)
      modifies this
      ensures Contents() == PurgeIfDue(old(Contents()), now, window)
    {
      if lastPurgeAt.Some? && now - lastPurgeAt.value < PURGE_INTERVAL {
        return;
      }
      ghost var before := Contents();
      lastPurgeAt := Some(now);
      var grace := now - PURGE_GRACE;
      codes := DeleteExpired(codes, now);
      tokens := DeleteConsumed(tokens, now - window);
      families := DeleteStaleFamilies(families, grace);
      tokens := CascadeTokens(tokens, families.Keys);
      sessions := DeleteStaleSessions(sessions, grace);
      sessionClients := CascadeClients(sessionClients, sessions.Keys);
      PurgeInStatements(before, now, window);
    }

    method RevokeSessionRows(sid: Sid, now: Time, reason: string) returns (clients: set<ClientId>)
      modifies this
      ensures Contents() == EndSessions(old(Contents()), {sid}, Revocation(now, reason))
      ensures clients == UserModel.SessionClients(old(Contents()), sid)
    {
      ghost var before := Contents();
      clients := UserModel.SessionClients(Contents(), sid);
      var r := Revocation(now, reason);
      if sid in sessions && sessions[sid].revoked.None? {
        sessions := sessions[sid := sessions[sid].(revoked := Some(r))];
      }
      var bound := set f | f in families && families[f].sid == Some(sid) && families[f].kind.SessionBound?;
      families := map f | f in families :: if f in bound && families[f].revoked.None?
        then families[f].(revoked := Some(r)) else families[f];
      assert bound == BoundTo(before.families, {sid});
      assert sessions == UserModel.RevokeSessions(before.sessions, {sid}, r);
    }

    /** The loops of setDisabled, revokeSessions and revokeAll over the selected sids. */
    method RevokeEach(sids: set<Sid>, now: Time, reason: string) returns (revoked: map<Sid, set<ClientId>>)
      modifies this
      ensures Contents() == EndSessions(old(Contents()), sids, Revocation(now, reason))
      ensures revoked.Keys == sids && ReportsClients(revoked, old(Contents()))
    {
      ghost var before := Contents();
      var todo := sids;
      revoked := map[];
      NothingEnded(before, sids, Revocation(now, reason));
      hide Ending;
      while todo != {}
        invariant Ending(before, Contents(), sids, todo, revoked, Revocation(now, reason))
        decreases |todo|
      {
        ghost var reached := Contents();
        var sid :| sid in todo;
        var clients := RevokeSessionRows(sid, now, reason);
        OneMoreEnded(before, reached, sids, todo, revoked, Revocation(now, reason), sid);
        revoked, todo := revoked[sid := clients], todo - {sid};
      }
      AllEnded(before, Contents(), sids, revoked, Revocation(now, reason));
    }

    method SetDisabled(at: Option<Time>, now: Time) returns (revoked: map<Sid, set<ClientId>>)
      modifies this
      ensures Contents() == UserModel.SetDisabled(old(Contents()), at, now)
      ensures revoked.Keys == if at.Some? then UnrevokedSids(old(Contents())) else {}
      ensures ReportsClients(revoked, old(Contents()))
    {
      user := user.(disabledAt := at);
      revoked := map[];
      if at.Some? {
        revoked := RevokeEverything(now, "disabled");
      }
    }

    method RevokeEverything(now: Time, reason: string) returns (revoked: map<Sid, set<ClientId>>)
      modifies this
      ensures Contents() == EverythingRevoked(old(Contents()), Revocation(now, reason))
      ensures revoked.Keys == UnrevokedSids(old(Contents()))
      ensures ReportsClients(revoked, old(Contents()))
    {
      ghost var before := Contents();
      var sids := set s | s in sessions && sessions[s].revoked.None?;
      assert sids == UnrevokedSids(before);
      revoked := RevokeEach(sids, now, reason);
      ghost var ended := EndSessions(before, sids, Revocation(now, reason));
      assert ended.families.Keys == before.families.Keys;
      hide EndSessions;
      families := map f | f in families :: if families[f].revoked.None?
        then families[f].(revoked := Some(Revocation(now, reason))) else families[f];
      assert families == RevokeFamilies(ended.families, before.families.Keys, Revocation(now, reason));
    }

    method RevokeSession(sid: Sid, now: Time, reason: string) returns (revoked: Option<set<ClientId>>)
      modifies this
      ensures (Contents(), revoked) == UserModel.RevokeSession(old(Contents()), sid, now, reason)
    {
      PurgeTables(now, PURGE_GRACE);
      if sid !in sessions || sessions[sid].revoked.Some? {
        return None;
      }
      var clients := RevokeSessionRows(sid, now, reason);
      revoked := Some(clients);
    }

    method RevokeSessions(keep: Option<Sid>, now: Time, reason: string) returns (revoked: map<Sid, set<ClientId>>)
      modifies this
      ensures (Contents(), revoked.Keys) == RevokeOtherSessions(old(Contents()), keep, now, reason)
      ensures ReportsClients(revoked, PurgeIfDue(old(Contents()), now, PURGE_GRACE))
    {
      PurgeTables(now, PURGE_GRACE);
      ghost var purged := Contents();
      var sids := set s | s in sessions && LiveSession(sessions[s], now) && keep != Some(s);
      assert sids == LiveSids(purged, now) - (if keep.Some? then {keep.value} else {});
      revoked := RevokeEach(sids, now, reason);
    }

    method IssueCodeRows(code: CodeInput, sid: Sid, now: Time, idleTtl: int) returns (inserted: bool)
      requires sid in sessions
      modifies this
      ensures inserted == (code.secretHash !in old(codes))
      ensures Contents() == if inserted then IssueCode(old(Contents()), code, sid, now, idleTtl) else old(Contents())
    {
      if code.secretHash in codes {
        return false;
      }
      var row := sessions[sid];
      codes := codes[code.secretHash :=
        Code(code.clientId, code.redirectUri, code.scope, code.nonce, code.challenge, sid,
                                             row.claims, now, now + CODE_TTL, None)];
      if (sid, code.clientId) !in sessionClients {
        sessionClients := sessionClients[(sid, code.clientId) := now];
      }
      TouchRow(sid, now, idleTtl);
      inserted := true;
    }

    method TouchRow(sid: Sid, now: Time, idleTtl: int)
      requires sid in sessions
      modifies this
      ensures Contents() == TouchSession(old(Contents()), sid, now, idleTtl)
    {
      var row := sessions[sid];
      if now - row.lastSeenAt < TOUCH_INTERVAL {
        assert sessions[sid := row] == sessions;
        return;
      }
      sessions := sessions[sid := row.(lastSeenAt := now, idleExpiresAt := Min(now + idleTtl, row.absoluteExpiresAt))];
    }

    method AuthorizeWithSession(input: AuthorizeInput) returns (out: AuthorizeOutcome)
      modifies this
      ensures (Contents(), out) == UserModel.AuthorizeWithSession(old(Contents()), input)
    {
      if !SessionHit(Contents(), input.sid, input.secretHash, input.now) {
        return AuthorizeFailed(SessionInvalid);
      }
      if user.disabledAt.Some? {
        return AuthorizeFailed(UserDisabled);
      }
      if !Allowed(user, input.client) || !AdminAllowed(user, input.scope) {
        return AuthorizeFailed(UserNotAllowed);
      }
      var snapshot := SnapshotOf(Contents(), input.sid);
      if input.promptLogin
        || (input.maxAge.Some? && sessions[input.sid].claims.authTime + input.maxAge.value <= input.now) {
        return LoginRequired(snapshot, user);
      }
      if !input.client.skipConsent && (input.promptConsent || exists s :: s in input.scope && s !in input.granted) {
        return ConsentRequired(snapshot, user);
      }
      if input.code.Some? {
        var before := Contents();
        PurgeTables(input.now, PURGE_GRACE);
        var inserted := IssueCodeRows(input.code.value, input.sid, input.now, input.idleTtl);
        if !inserted {
          Rollback(before);
          return AuthorizeThrown;
        }
      }
      out := Authorized(SnapshotOf(Contents(), input.sid), user);
    }

    method FinalizeLogin(input: FinalizeInput) returns (out: FinalizeOutcome)
      modifies this
      ensures (Contents(), out) == UserModel.FinalizeLogin(old(Contents()), input)
    {
      hide PurgeIfDue, SecretTaken, Allowed, AdminAllowed, SnapshotOf;
      if user.disabledAt.Some? {
        return FinalizeFailed(UserDisabled);
      }
      if input.client.Some? && !Allowed(user, input.client.value) {
        return FinalizeFailed(UserNotAllowed);
      }
      if input.code.Some? && !AdminAllowed(user, input.code.value.scope) {
        return FinalizeFailed(UserNotAllowed);
      }
      var before := Contents();
      UserSound.PurgeKeepsUser(before, input.now, PURGE_GRACE);
      PurgeTables(input.now, PURGE_GRACE);
      var s := input.session;
      if s.Rotate?
        && (s.sid !in sessions || sessions[s.sid].revoked.Some? || sessions[s.sid].absoluteExpiresAt <= input.now) {
        return FinalizeFailed(SessionInvalid);
      }
      if (s.Create? && s.sid in sessions) || SecretTaken(Contents(), s.secretHash, s.sid) {
        Rollback(before);
        return FinalizeThrown;
      }
      if s.Create? {
        sessions := sessions[s.sid :=
          Session(s.secretHash, input.now, input.now, Min(input.now + s.newIdleTtl, input.now + s.absoluteTtl),
                                              input.now + s.absoluteTtl, s.claims, s.upstream, None)];
      } else {
        var row := sessions[s.sid];
        sessions := sessions[s.sid :=
          row.(secretHash := s.secretHash, claims := s.claims, upstream := s.upstream, lastSeenAt := input.now,
                                           idleExpiresAt := Min(input.now + input.idleTtl, row.absoluteExpiresAt))];
      }
      if input.code.Some? {
        var inserted := IssueCodeRows(input.code.value, s.sid, input.now, input.idleTtl);
        if !inserted {
          Rollback(before);
          return FinalizeThrown;
        }
      }
      out := Finalized(s.sid, SnapshotOf(Contents(), s.sid), user);
    }

    /** exchangeCode after the digest, with the user row read before it. */
    method ExchangeCode(read: User, expected: Option<string>, input: ExchangeInput) returns (out: ExchangeOutcome)
      modifies this
      ensures (Contents(), out) == ExchangeCommit(old(Contents()), read, expected, input)
    {
      var before := Contents();
      PurgeTables(input.now, PURGE_GRACE);
      var h := input.secretHash;
      if h !in codes {
        return ExchangeFailed(InvalidGrant);
      }
      var code := codes[h];
      if code.consumedAt.Some? {
        ghost var purged := Contents();
        families := map f | f in families ::
          if families[f].codeHash == h && families[f].revoked.None?
            then families[f].(revoked := Some(Revocation(input.now, "code_replay"))) else families[f];
        assert families ==
          RevokeFamilies(purged.families, FamiliesOfCode(purged, h), Revocation(input.now, "code_replay"));
        return Replayed;
      }
      if code.expiresAt <= input.now || code.clientId != input.client.clientId
        || code.redirectUri != input.redirectUri {
        return ExchangeFailed(InvalidGrant);
      }
      if code.challenge.None? {
        if input.verifier.Some? {
          return ExchangeFailed(InvalidGrant);
        }
      } else if expected.None? || expected.value != code.challenge.value {
        return ExchangeFailed(InvalidGrant);
      }
      if read.disabledAt.Some? || !Allowed(read, input.client) || !AdminAllowed(read, code.scope) {
        return ExchangeFailed(InvalidGrant);
      }
      if code.sid !in sessions || sessions[code.sid].revoked.Some? {
        return ExchangeFailed(InvalidGrant);
      }
      assert Exchangeable(Contents(), read, expected, input);
      codes := codes[h := code.(consumedAt := Some(input.now))];
      var grant := Grant(read.id, code.scope, Some(code.sid), code.claims, read);
      if input.refresh.None? {
        return Exchanged(grant, code.nonce, None, None);
      }
      var r := input.refresh.value;
      var inserted := InsertFamily(code, input, r);
      if !inserted {
        Rollback(before);
        return ExchangeThrown;
      }
      out := Exchanged(grant, code.nonce, Some(r.familyId), Some(KindOf(code, r)));
    }

    /** The family, its first token and the cap (src/do/UserDO.ts:1178-1220). */
    method InsertFamily(code: Code, input: ExchangeInput, r: RefreshInput) returns (inserted: bool)
      requires code.sid in sessions
      modifies this
      ensures inserted == (r.familyId !in old(families) && TokenKey(r.familyId, r.secretHash) !in old(tokens))
      ensures !inserted ==> Contents() == old(Contents())
      ensures inserted ==>
        var family := NewFamily(code, input.secretHash, old(sessions)[code.sid], input.client, r, input.now);
        Contents() == Capped(WithFamily(old(Contents()), family, r, input.now), input.client.clientId, input.now)
    {
      hide Capped;
      if r.familyId in families || TokenKey(r.familyId, r.secretHash) in tokens {
        return false;
      }
      var now, client := input.now, input.client;
      var kind := if r.offlineAllowed && "offline_access" in code.scope then Offline else SessionBound;
      var absolute := if kind.SessionBound? then sessions[code.sid].absoluteExpiresAt else now + r.absoluteTtl;
      var bound := if kind.SessionBound? then Some(code.sid) else None;
      families := families[r.familyId :=
        Family(client.clientId, client.createdAt, input.secretHash, kind, bound, code.scope, code.claims, now, absolute,
               Min(now + r.idleTtl, absolute), 1, None)];
      tokens := tokens[TokenKey(r.familyId, r.secretHash) := Token(1, now)];
      CapFamilies(client.clientId, now);
      inserted := true;
    }

    /** The UPDATE over the rows after the twenty newest (src/do/UserDO.ts:1212-1220). */
    method CapFamilies(client: ClientId, now: Time)
      modifies this
      ensures Contents() == Capped(old(Contents()), client, now)
    {
      hide Overflow;
      var over := Overflow(families, client, now);
      families := map f | f in families ::
        if f in over && families[f].revoked.None? then families[f].(revoked := Some(Revocation(now, "family_limit")))
        else families[f];
    }

    method RotateRefreshToken(input: RotateInput) returns (out: RotateOutcome)
      modifies this
      ensures (Contents(), out) == RotateRefresh(old(Contents()), input)
    {
      var before := Contents();
      PurgeTables(input.now, input.reuseWindow);
      var f := input.familyId;
      if f !in families || families[f].revoked.Some? {
        return RotateFailed(InvalidGrant);
      }
      var family := families[f];
      if family.absoluteExpiresAt <= input.now || family.idleExpiresAt <= input.now
        || family.clientId != input.client.clientId {
        return RotateFailed(InvalidGrant);
      }
      if family.clientCreatedAt != input.client.createdAt {
        families := families - {f};
        tokens := map k | k in tokens && k.family != f :: tokens[k];
        return RotateFailed(InvalidGrant);
      }
      var key := TokenKey(f, input.secretHash);
      if key !in tokens {
        return RotateFailed(InvalidGrant);
      }
      if tokens[key].serial < family.currentSerial {
        ghost var purged := families;
        families := families[f := family.(revoked := Some(Revocation(input.now, "reuse")))];
        assert families == RevokeFamilies(purged, {f}, Revocation(input.now, "reuse"));
        if family.sid.Some? {
          var clients := RevokeSessionRows(family.sid.value, input.now, "refresh_reuse");
          return ReuseDetected(Some(clients));
        }
        return ReuseDetected(None);
      }
      if tokens[key].serial != family.currentSerial {
        return RotateFailed(InvalidGrant);
      }
      var error := RotationError(Contents(), input);
      if error.Some? {
        return RotateFailed(error.value);
      }
      if TokenKey(f, input.newSecretHash) in tokens {
        Rollback(before);
        return RotateThrown;
      }
      var serial := family.currentSerial + 1;
      tokens := tokens[TokenKey(f, input.newSecretHash) := Token(serial, input.now)];
      families := families[f :=
        family.(currentSerial := serial, idleExpiresAt := Min(input.now + input.idleTtl, family.absoluteExpiresAt))];
      if family.sid.Some? {
        TouchRow(family.sid.value, input.now, input.sessionIdleTtl);
      }
      out := Rotated(Grant(user.id, GrantedScope(family, input.requestedScope), family.sid, family.claims, user),
        serial, family.kind);
    }

    method RevokeFamilyById(f: FamilyId, now: Time, reason: string, client: Option<ClientId>) returns (revoked: bool)
      modifies this
      ensures (Contents(), revoked) == UserModel.RevokeFamilyById(old(Contents()), f, now, reason, client)
    {
      if f !in families || families[f].revoked.Some? || (client.Some? && families[f].clientId != client.value) {
        return false;
      }
      ghost var before := families;
      families := families[f := families[f].(revoked := Some(Revocation(now, reason)))];
      assert families == RevokeFamilies(before, {f}, Revocation(now, reason));
      revoked := true;
    }

    /** revokeSessionFamiliesOfClient, revokeFamiliesOfClient and the family half of revokeGrant. */
    method RevokeFamiliesOfClient(client: ClientId, sid: Option<Sid>, now: Time, reason: string)
      modifies this
      ensures Contents() == RevokeClientFamilies(old(Contents()), client, sid, now, reason)
    {
      families := map f | f in families ::
        if families[f].clientId == client && (sid.Some? ==> families[f].sid == sid) && families[f].revoked.None?
        then families[f].(revoked := Some(Revocation(now, reason))) else families[f];
    }
  }
}
