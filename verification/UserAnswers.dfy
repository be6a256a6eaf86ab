/** What the user object answers, in terms of what its callers sent: every outcome of a login, an authorization, an
    exchange and a rotation, exactly, in every state that a run with fresh secrets and a forward clock reaches. */
module UserAnswers {
  import opened Options
  import opened UserModel
  import opened UserSound
  import opened UserCases
  import opened UserRuns
  import opened UserLedger
  import opened UserClock
  import opened UserPurge
  import opened UserBook
  import opened UserBookRuns

  // ---------------------------------------------------------------- conditions on the input

  predicate Usable(s: Session, now: Time) {
    s.revoked == None && now < s.idleExpiresAt && now < s.absoluteExpiresAt
  }

  /** A client without a list of groups is open to every user. */
  predicate Member(user: User, client: Client) {
    client.allowedGroups.Some? ==> exists g :: g in user.groups && g in client.allowedGroups.value
  }

  predicate MayAdminister(user: User, scope: seq<string>) { "admin" !in scope || "admins" in user.groups }

  /** The digest presented is that of the last login of the session, and the session is usable. */
  ghost predicate Presents(st: Store, b: Book, sid: Sid, secret: Hash, now: Time) {
    sid in st.sessions && sid in b.logins && b.logins[sid].secret == secret && Usable(st.sessions[sid], now)
  }

  /** A session as reported: its last login and the clients that got a code on it. */
  ghost predicate Reports(snapshot: Snapshot, b: Book, sid: Sid) {
    && snapshot.sid == sid && sid in b.logins && LoginOf(snapshot.row) == b.logins[sid]
    && snapshot.clients == ClientsOf(b, sid)
  }

  lemma SnapshotReports(st: Store, b: Book, sid: Sid)
    requires SessionsBooked(st, b) && sid in st.sessions
    ensures Reports(SnapshotOf(st, sid), b, sid)
  {
    forall c
      ensures c in SessionClients(st, sid) <==> c in b.clients[sid]
    {
      assert c in SessionClients(st, sid) <==> (sid, c) in st.sessionClients;
    }
  }

  // ---------------------------------------------------------------- getSession

  lemma LookupAnswers(st: Store, b: Book, sid: Sid, secret: Hash, now: Time)
    requires SessionsBooked(st, b)
    ensures
      var out, hit := GetSession(st, sid, secret, now), Presents(st, b, sid, secret, now);
      && (out == LookupFailed(SessionInvalid) <==> !hit)
      && (out == LookupFailed(UserDisabled) <==> hit && st.user.disabledAt.Some?)
      && (out.Found? <==> hit && st.user.disabledAt.None?)
      && (out.Found? ==> Reports(out.session, b, sid) && out.session.row == st.sessions[sid] && out.user == st.user)
  {
    if sid in st.sessions {
      SnapshotReports(st, b, sid);
    }
  }

  // ---------------------------------------------------------------- authorizeWithSession

  ghost predicate Admitted(st: Store, b: Book, input: AuthorizeInput) {
    && Presents(st, b, input.sid, input.secretHash, input.now) && st.user.disabledAt.None?
    && Member(st.user, input.client) && MayAdminister(st.user, input.scope)
  }

  /** The caller wants a new login, or the last one is too old. */
  ghost predicate LoginWanted(b: Book, input: AuthorizeInput)
    requires input.sid in b.logins
  {
    input.promptLogin
    || (input.maxAge.Some? && b.logins[input.sid].claims.authTime + input.maxAge.value <= input.now)
  }

  predicate ConsentWanted(input: AuthorizeInput) {
    !input.client.skipConsent && (input.promptConsent || !(forall s :: s in input.scope ==> s in input.granted))
  }

  lemma AuthorizeAnswers(st: Store, b: Book, input: AuthorizeInput)
    requires SessionsBooked(st, b)
    ensures
      var out := AuthorizeWithSession(st, input).1;
      var hit := Presents(st, b, input.sid, input.secretHash, input.now);
      var pass := Admitted(st, b, input);
      && (out == AuthorizeFailed(SessionInvalid) <==> !hit)
      && (out == AuthorizeFailed(UserDisabled) <==> hit && st.user.disabledAt.Some?)
      && (out == AuthorizeFailed(UserNotAllowed) <==> hit && st.user.disabledAt.None? && !pass)
      && (out.LoginRequired? <==> pass && LoginWanted(b, input))
      && (out.ConsentRequired? <==> pass && !LoginWanted(b, input) && ConsentWanted(input))
      && (out.Authorized? || out.AuthorizeThrown? <==> pass && !LoginWanted(b, input) && !ConsentWanted(input))
      && (out.AuthorizeThrown? ==> input.code.Some? && input.code.value.secretHash in st.codes)
  {
    var p := PurgeIfDue(st, input.now, PURGE_GRACE);
    LiveSessionOutlivesPurge(st, input.now, PURGE_GRACE, input.now, input.sid);
    assert forall c :: c in p.codes ==> c in st.codes;
    hide PurgeIfDue, SnapshotOf, IssueCode;
  }

  /** The session it reports is the one presented, after the code when it issued one. */
  lemma AuthorizeReports(st: Store, b: Book, t: Time, input: AuthorizeInput)
    requires Booked(st, b, t) && TokensOwned(st) && t <= input.now
    requires input.code.Some? ==> input.code.value.secretHash !in b.issues && input.code.value.secretHash !in b.spent
    ensures
      var out := AuthorizeWithSession(st, input).1;
      var more := if input.code.Some? then WithIssue(b, input.code.value, input.sid, input.now) else b;
      && (out.Authorized? ==> Reports(out.session, more, input.sid) && out.user == st.user)
      && (out.LoginRequired? || out.ConsentRequired? ==> Reports(out.session, b, input.sid) && out.user == st.user)
  {
    AuthorizeBooked(st, b, t, input);
    AuthorizeOutcomes(st, input);
    AuthorizeCases(st, input);
    if input.sid in st.sessions {
      SnapshotReports(st, b, input.sid);
    }
    var (st', out) := AuthorizeWithSession(st, input);
    if out.Authorized? {
      assert input.sid in st'.sessions;
      SnapshotReports(st', if input.code.Some? then WithIssue(b, input.code.value, input.sid, input.now)
        else b, input.sid);
    }
    hide PurgeIfDue, Reports, SnapshotOf, WithIssue, IssueCode, Allowed, AdminAllowed;
  }

  // ---------------------------------------------------------------- finalizeLogin

  /** The user may sign in at this client for these scopes. */
  predicate Eligible(user: User, input: FinalizeInput) {
    && (input.client.Some? ==> Member(user, input.client.value))
    && (input.code.Some? ==> MayAdminister(user, input.code.value.scope))
  }

  /** The session to rotate is unrevoked, within its absolute lifetime, and not taken by the purge of this call. */
  ghost predicate Rotatable(st: Store, input: FinalizeInput) {
    var sid := input.session.sid;
    && sid in st.sessions && st.sessions[sid].revoked == None && input.now < st.sessions[sid].absoluteExpiresAt
    && (st.lastPurgeAt.None? || st.lastPurgeAt.value + 60 <= input.now ==>
          input.now - 86400 <= st.sessions[sid].idleExpiresAt)
  }

  /** A secret or id of the call is already stored. */
  ghost predicate Collides(st: Store, input: FinalizeInput) {
    || (input.session.Create? && input.session.sid in st.sessions)
    || (exists s :: s in st.sessions && s != input.session.sid && st.sessions[s].secretHash == input.session.secretHash)
    || (input.code.Some? && input.code.value.secretHash in st.codes)
  }

  lemma FinalizeAnswers(st: Store, input: FinalizeInput)
    ensures
      var out := FinalizeLogin(st, input).1;
      var pass := st.user.disabledAt.None? && Eligible(st.user, input);
      && (out == FinalizeFailed(UserDisabled) <==> st.user.disabledAt.Some?)
      && (out == FinalizeFailed(UserNotAllowed) <==> st.user.disabledAt.None? && !Eligible(st.user, input))
      && (out == FinalizeFailed(SessionInvalid) <==> pass && input.session.Rotate? && !Rotatable(st, input))
      && (out.Finalized? || out.FinalizeThrown? <==> pass && (input.session.Create? || Rotatable(st, input)))
      && (out.FinalizeThrown? ==> Collides(st, input))
  {
    var p, sid := PurgeIfDue(st, input.now, PURGE_GRACE), input.session.sid;
    assert forall s :: s in p.sessions ==> s in st.sessions && p.sessions[s] == st.sessions[s];
    assert forall c :: c in p.codes ==> c in st.codes;
    assert Rotatable(st, input) <==>
      sid in p.sessions && p.sessions[sid].revoked.None? && p.sessions[sid].absoluteExpiresAt > input.now;
    hide PurgeIfDue, SnapshotOf, IssueCode, Rotatable;
  }

  /** The row that a login leaves: the given secret and claims, a fresh idle lifetime within the absolute one, which
      is new for a new session and untouched for an old one. */
  ghost predicate LoggedInRow(row: Session, input: FinalizeInput) {
    var s := input.session;
    && LoginOf(row) == Login(s.secretHash, s.claims, s.upstream) && row.revoked == None && row.lastSeenAt == input.now
    && (s.Create? ==> row.createdAt == input.now && row.absoluteExpiresAt == input.now + s.absoluteTtl)
    && var idle := input.now + if s.Create? then s.newIdleTtl else input.idleTtl;
       row.idleExpiresAt == if idle < row.absoluteExpiresAt then idle else row.absoluteExpiresAt
  }

  lemma FinalizeLeaves(st: Store, input: FinalizeInput)
    requires FinalizeLogin(st, input).1.Finalized?
    ensures
      var (st', out) := FinalizeLogin(st, input);
      var sid := input.session.sid;
      && out.sid == sid && out.user == st.user && sid in st'.sessions && out.session == SnapshotOf(st', sid)
      && LoggedInRow(st'.sessions[sid], input)
      && (input.session.Rotate? ==>
            && sid in st.sessions && st'.sessions[sid].createdAt == st.sessions[sid].createdAt
            && st'.sessions[sid].absoluteExpiresAt == st.sessions[sid].absoluteExpiresAt)
      && (forall s :: s in st'.sessions && s != sid ==> s in st.sessions && st'.sessions[s] == st.sessions[s])
  {
    var p, sid := PurgeIfDue(st, input.now, PURGE_GRACE), input.session.sid;
    FinalizeCases(st, input);
    assert forall s :: s in p.sessions ==> s in st.sessions && p.sessions[s] == st.sessions[s];
    FinalizedOutcome(st, input);
    LoggedInLeaves(p, input);
    hide FinalizeLogin, PurgeIfDue, SnapshotOf, LoggedIn, LoggedInRow;
  }

  lemma LoggedInLeaves(p: Store, input: FinalizeInput)
    requires MayLogIn(p, input)
    ensures
      var q, sid := LoggedIn(p, input), input.session.sid;
      && sid in q.sessions && LoggedInRow(q.sessions[sid], input)
      && (input.session.Rotate? ==>
            && q.sessions[sid].createdAt == p.sessions[sid].createdAt
            && q.sessions[sid].absoluteExpiresAt == p.sessions[sid].absoluteExpiresAt)
      && (forall s :: s in q.sessions && s != sid ==> s in p.sessions && q.sessions[s] == p.sessions[s])
  {
    LoggedInSessions(p, input);
    hide LoggedIn;
  }

  lemma FinalizedOutcome(st: Store, input: FinalizeInput)
    requires FinalizeLogin(st, input).1.Finalized?
    ensures
      var (st', out) := FinalizeLogin(st, input);
      && input.session.sid in st'.sessions
      && out == Finalized(input.session.sid, SnapshotOf(st', input.session.sid), st.user)
  {
    hide PurgeIfDue, SnapshotOf, Allowed, AdminAllowed, SecretTaken;
  }

  // ---------------------------------------------------------------- exchangeCode

  /** The caller holds the code on the terms on which it was issued: the client, the redirect URI and the verifier of
      section 4.6 of RFC 7636, `digest` being that of the verifier. */
  predicate OnItsTerms(i: Issue, input: ExchangeInput, digest: Option<string>) {
    && input.client.clientId == i.code.clientId && input.redirectUri == i.code.redirectUri
    && (i.code.challenge.None? ==> input.verifier.None?)
    && (i.code.challenge.Some? ==> digest.Some? && digest.value == i.code.challenge.value)
  }

  /** The session the code was issued on has not ended. */
  ghost predicate SessionOpen(st: Store, sid: Sid) { sid in st.sessions && st.sessions[sid].revoked == None }

  /** Nobody minted the family id before. */
  ghost predicate NewFamilyId(seen: Seen, input: ExchangeInput) {
    input.refresh.Some? ==> input.refresh.value.familyId !in seen.families
  }

  /** Redeemed, and its minute is not over. */
  predicate SpentOfLate(b: Book, h: Hash, now: Time) { h in b.spent && h in b.issues && now <= b.issues[h].at + 60 }

  ghost predicate Redeemable(st: Store, b: Book, read: User, digest: Option<string>, input: ExchangeInput) {
    && input.secretHash in b.issues && input.secretHash !in b.spent
    && var i := b.issues[input.secretHash];
    && OnItsTerms(i, input, digest) && input.now < i.at + 60 && SessionOpen(st, i.sid)
    && read.disabledAt.None? && Member(read, input.client) && MayAdminister(read, i.code.scope)
  }

  lemma RedeemableIsExchangeable(st: Store, b: Book, t: Time, read: User, digest: Option<string>, input: ExchangeInput)
    requires CodesBooked(st, b) && CodesStay(st, b, t) && t <= input.now
    ensures Exchangeable(st, read, digest, input) <==> Redeemable(st, b, read, digest, input)
  {}

  /** What a redeemed code grants: everything as it was issued, to the user read before. */
  ghost predicate Grants(out: ExchangeOutcome, i: Issue, read: User, input: ExchangeInput) {
    && out.Exchanged? && out.nonce == i.code.nonce
    && out.grant == Grant(read.id, i.code.scope, Some(i.sid), i.claims, read)
    && (input.refresh.None? ==> out.family == None && out.kind == None)
    && (input.refresh.Some? ==>
          && out.family == Some(input.refresh.value.familyId)
          && out.kind == Some(if Bound(Opening(input, i, 0, 0, 0)) then SessionBound else Offline))
  }

  lemma ExchangeAnswers(st: Store, b: Book, t: Time, read: User, digest: Option<string>, input: ExchangeInput)
    requires CodesBooked(st, b) && CodesStay(st, b, t) && CodesBacked(st, t) && IdleWithinAbsolute(st) && t <= input.now
    requires UserPurge.Unused(st, input.refresh)
    ensures
      var out := ExchangeCommit(st, read, digest, input).1;
      && (out.Exchanged? <==> Redeemable(st, b, read, digest, input))
      && (out.Exchanged? ==> Grants(out, b.issues[input.secretHash], read, input))
      && (out.Replayed? ==> input.secretHash in b.spent)
      && (SpentOfLate(b, input.secretHash, input.now) ==> out.Replayed?)
      && (!out.Exchanged? && !out.Replayed? ==> out == ExchangeFailed(InvalidGrant))
  {
    RedeemableIsExchangeable(st, b, t, read, digest, input);
    ExchangeIsItsDecision(st, t, read, digest, input);
    ReplayAnswers(st, b, t, read, digest, input);
    hide Exchangeable, Redeemable, ExchangeCommit;
    if input.secretHash in st.codes && Redeemable(st, b, read, digest, input) {
      assert st.codes[input.secretHash].(consumedAt := None) == RowOf(b.issues[input.secretHash]);
    }
  }

  lemma ReplayAnswers(st: Store, b: Book, t: Time, read: User, digest: Option<string>, input: ExchangeInput)
    requires CodesBooked(st, b) && CodesStay(st, b, t) && t <= input.now
    ensures
      var out := ExchangeCommit(st, read, digest, input).1;
      && (out.Replayed? ==> input.secretHash in b.spent)
      && (SpentOfLate(b, input.secretHash, input.now) ==> out.Replayed?)
      && (out.Exchanged? || out.Replayed? || out.ExchangeThrown? || out == ExchangeFailed(InvalidGrant))
      && (out.Exchanged? ==> input.secretHash in st.codes)
  {
    var p := PurgeIfDue(st, input.now, PURGE_GRACE);
    PurgeCodesBooked(st, b, t, input.now, PURGE_GRACE);
    assert CodesBooked(p, b) && (input.secretHash in b.issues && input.now <= b.issues[input.secretHash].at + 60 ==>
      input.secretHash in p.codes);
    assert forall c :: c in p.codes ==> c in st.codes;
    ExchangeOutcomes(st, read, digest, input);
    hide Purge, PurgeIfDue, ExchangeCommit, CodesStay;
  }

  // ---------------------------------------------------------------- rotateRefreshToken

  /** The family answers this client, and the token presented is the one handed out last. */
  ghost predicate Holds(st: Store, b: Book, input: RotateInput) {
    Answers(st, b, input) && input.secretHash == b.openings[input.familyId].current
  }

  ghost predicate Answers(st: Store, b: Book, input: RotateInput) {
    var f := input.familyId;
    && f in st.families && f in b.openings && st.families[f].revoked == None
    && input.now < st.families[f].idleExpiresAt && input.now < st.families[f].absoluteExpiresAt
    && input.client.clientId == b.openings[f].exchange.client.clientId
    && input.client.createdAt == b.openings[f].exchange.client.createdAt
  }

  /** User, client and, for a bound family, the session still stand. */
  ghost predicate Stands(st: Store, o: Opening, input: RotateInput) {
    && st.user.disabledAt.None? && Member(st.user, input.client)
    && (Bound(o) ==> o.issue.sid in st.sessions && Usable(st.sessions[o.issue.sid], input.now))
  }

  predicate Narrows(o: Opening, input: RotateInput) {
    input.requestedScope.Some? ==> forall s :: s in input.requestedScope.value ==> s in o.issue.code.scope
  }

  /** The scope asked for, and otherwise that of the code. */
  function Asked(o: Opening, input: RotateInput): seq<string> {
    match input.requestedScope
    case Some(scope) => scope
    case None => o.issue.code.scope
  }

  ghost predicate RotationAnswered(st: Store, b: Book, input: RotateInput, out: RotateOutcome) {
    var f := input.familyId;
    && (f !in b.openings ==> out == RotateFailed(InvalidGrant))
    && (f in b.openings ==>
          var o := b.openings[f];
          var ok := Holds(st, b, input) && Stands(st, o, input);
          && (out == RotateFailed(InvalidScope) <==> ok && !Narrows(o, input))
          && (out.Rotated? || out.RotateThrown? <==> ok && Narrows(o, input) && MayAdminister(st.user, Asked(o, input)))
          && (out.Rotated? ==>
                && out.grant == Grant(st.user.id, Asked(o, input), if Bound(o) then Some(o.issue.sid) else None,
                                      o.issue.claims, st.user)
                && out.serial == st.families[f].currentSerial + 1
                && out.kind == if Bound(o) then SessionBound else Offline)
          && (out.ReuseDetected? ==> Answers(st, b, input) && input.secretHash != o.current))
    && (out.Rotated? || out.RotateThrown? || out.ReuseDetected?
        || out in {RotateFailed(InvalidScope), RotateFailed(InvalidGrant)})
  }

  /** The current token of a family is the one handed out last. */
  lemma CurrentIsLast(st: Store, b: Book, k: TokenKey)
    requires FamiliesBooked(st, b) && SerialsUnique(st) && k.family in st.families
    ensures k in st.tokens && st.tokens[k].serial == st.families[k.family].currentSerial <==>
      k.hash == b.openings[k.family].current
  {
    assert k == TokenKey(k.family, k.hash);
  }

  /** The answer on tables that the call itself does not purge. */
  ghost function RotateUnpurged(p: Store, input: RotateInput): RotateOutcome {
    RotateRefresh(p.(lastPurgeAt := Some(input.now)), input).1
  }

  lemma RotateAsPurged(st: Store, input: RotateInput)
    ensures var p := PurgeIfDue(st, input.now, input.reuseWindow); var out := RotateRefresh(st, input).1;
      out == RotateUnpurged(p, input)
  {
    var p := PurgeIfDue(st, input.now, input.reuseWindow);
    var q := p.(lastPurgeAt := Some(input.now));
    assert PurgeIfDue(q, input.now, input.reuseWindow) == q;
    hide Purge, PurgeIfDue;
  }

  /** The checks after the token, and the scope they are made for. */
  lemma ChecksOfRotation(p: Store, b: Book, input: RotateInput)
    requires input.familyId in p.families && input.familyId in b.openings
    requires FamilyMatches(p.families[input.familyId], b.openings[input.familyId])
    ensures
      var o, error := b.openings[input.familyId], RotationError(p, input);
      && (error == Some(InvalidScope) <==> Stands(p, o, input) && !Narrows(o, input))
      && (error == None <==> Stands(p, o, input) && Narrows(o, input) && MayAdminister(p.user, Asked(o, input)))
      && (error in {None, Some(InvalidScope), Some(InvalidGrant)})
      && GrantedScope(p.families[input.familyId], input.requestedScope) == Asked(o, input)
  {}

  lemma UnpurgedAnswers(p: Store, b: Book, input: RotateInput)
    requires FamiliesBooked(p, b) && Chained(p)
    ensures RotationAnswered(p, b, input, RotateUnpurged(p, input))
  {
    var f, k := input.familyId, TokenKey(input.familyId, input.secretHash);
    if f in p.families {
      CurrentIsLast(p, b, k);
      assert k in p.tokens ==> p.tokens[k].serial <= p.families[f].currentSerial;
    }
    var q := p.(lastPurgeAt := Some(input.now));
    RotateOutcomes(q, input);
    if f in p.families {
      ChecksOfRotation(q, b, input);
    }
    hide FamiliesBooked, Chained, RotateRefresh, RotationError, GrantedScope, Narrows, Member, MayAdminister;
  }

  lemma PurgeKeepsAnswer(st: Store, b: Book, input: RotateInput, out: RotateOutcome)
    requires RotationAnswered(PurgeIfDue(st, input.now, input.reuseWindow), b, input, out)
    ensures RotationAnswered(st, b, input, out)
  {
    var p, f := PurgeIfDue(st, input.now, input.reuseWindow), input.familyId;
    assert p.user == st.user;
    if f in b.openings {
      PurgeKeepsStanding(st, b, input);
    }
    hide PurgeIfDue, Purge, Holds, Stands, Answers, Narrows, Member;
  }

  lemma PurgeKeepsStanding(st: Store, b: Book, input: RotateInput)
    requires input.familyId in b.openings
    ensures
      var p, f := PurgeIfDue(st, input.now, input.reuseWindow), input.familyId;
      && (Answers(p, b, input) <==> Answers(st, b, input))
      && (Stands(p, b.openings[f], input) <==> Stands(st, b.openings[f], input))
      && (f in p.families ==> f in st.families && p.families[f].currentSerial == st.families[f].currentSerial)
  {
    hide ConsumedBefore, Member;
  }

  lemma RotationAnswers(st: Store, b: Book, t: Time, input: RotateInput)
    requires Booked(st, b, t) && Chained(st)
    ensures RotationAnswered(st, b, input, RotateRefresh(st, input).1)
  {
    var p := PurgeIfDue(st, input.now, input.reuseWindow);
    assert FamiliesBooked(p, b) by {
      PurgeFamiliesBooked(st, b, input.now, input.reuseWindow);
    }
    assert Chained(p) by {
      PurgeKeepsChained(st, input.now, input.reuseWindow);
    }
    RotateAsPurged(st, input);
    hide FamiliesBooked, Chained, RotateRefresh, RotateUnpurged, RotationAnswered, PurgeIfDue, Purge;
    UnpurgedAnswers(p, b, input);
    PurgeKeepsAnswer(st, b, input, RotateUnpurged(p, input));
  }

  // ---------------------------------------------------------------- in every run

  /** Authorizations and lookups: only the digest of the last login opens a session, and prompt, age and consent
      decide on the input alone. */
  lemma SessionAnswersInRuns(user: User, es: seq<Event>, t: Time, input: AuthorizeInput)
    requires AllFresh(Initial(user), es) && AllOnTime(t, es) && Now(t, es) <= input.now
    ensures
      var st, b := Run(Initial(user), es).st, BookOf(user, es);
      var out, found := AuthorizeWithSession(st, input).1, GetSession(st, input.sid, input.secretHash, input.now);
      var hit, pass := Presents(st, b, input.sid, input.secretHash, input.now), Admitted(st, b, input);
      && (out == AuthorizeFailed(SessionInvalid) <==> !hit)
      && (out == AuthorizeFailed(UserDisabled) <==> hit && st.user.disabledAt.Some?)
      && (out == AuthorizeFailed(UserNotAllowed) <==> hit && st.user.disabledAt.None? && !pass)
      && (out.LoginRequired? <==> pass && LoginWanted(b, input))
      && (out.ConsentRequired? <==> pass && !LoginWanted(b, input) && ConsentWanted(input))
      && (out.Authorized? || out.AuthorizeThrown? <==> pass && !LoginWanted(b, input) && !ConsentWanted(input))
      && (found == LookupFailed(SessionInvalid) <==> !hit)
      && (found == LookupFailed(UserDisabled) <==> hit && st.user.disabledAt.Some?)
      && (found.Found? <==> hit && st.user.disabledAt.None?)
      && (found.Found? ==> Reports(found.session, b, input.sid))
  {
    BookOfEveryRun(user, es, t);
    hide Run, BookOf, AuthorizeWithSession, GetSession, CodesBooked, CodesStay, FamiliesBooked, SessionsBooked;
    var st, b := Run(Initial(user), es).st, BookOf(user, es);
    AuthorizeAnswers(st, b, input);
    LookupAnswers(st, b, input.sid, input.secretHash, input.now);
  }

  /** Exchanges: a code is redeemed exactly once, on its own terms, within its minute, while its session is open, by a
      user who may. */
  lemma ExchangeAnswersInRuns(
      user: User, es: seq<Event>, t: Time, read: User, digest: Option<string>, input: ExchangeInput)
    requires AllFresh(Initial(user), es) && AllOnTime(t, es) && Now(t, es) <= input.now
    requires NewFamilyId(Run(Initial(user), es).seen, input)
    ensures
      var st, b := Run(Initial(user), es).st, BookOf(user, es);
      var out := ExchangeCommit(st, read, digest, input).1;
      && (out.Exchanged? <==> Redeemable(st, b, read, digest, input))
      && (out.Exchanged? ==> Grants(out, b.issues[input.secretHash], read, input))
      && (out.Replayed? ==> input.secretHash in b.spent)
      && (SpentOfLate(b, input.secretHash, input.now) ==> out.Replayed?)
      && (!out.Exchanged? && !out.Replayed? ==> out == ExchangeFailed(InvalidGrant))
  {
    var w, b := Run(Initial(user), es), BookOf(user, es);
    BookOfEveryRun(user, es, t);
    EveryRunIsTimely(user, es, t);
    RunKeepsSound(Initial(user), es);
    FamiliesAreSeen(user, es);
    assert TokensOwned(w.st) && IdleWithinAbsolute(w.st) && CodesBooked(w.st, b) && CodesStay(w.st, b, Now(t, es));
    assert UserPurge.Unused(w.st, input.refresh);
    hide Run, BookOf, ExchangeCommit, CodesBooked, CodesStay, FamiliesBooked, SessionsBooked, CodesBacked, Redeemable;
    ExchangeAnswers(w.st, b, Now(t, es), read, digest, input);
  }

  lemma FamiliesAreSeen(user: User, es: seq<Event>)
    requires AllFresh(Initial(user), es)
    ensures Run(Initial(user), es).st.families.Keys <= Run(Initial(user), es).seen.families
  {
    InitialRecorded(user);
    RunRecorded(Initial(user), es);
  }

  /** Rotations: the token handed out last, the scope asked for within that of the code, and otherwise that scope. */
  lemma RotationAnswersInRuns(user: User, es: seq<Event>, t: Time, input: RotateInput)
    requires AllFresh(Initial(user), es) && AllOnTime(t, es)
    ensures
      var st := Run(Initial(user), es).st;
      RotationAnswered(st, BookOf(user, es), input, RotateRefresh(st, input).1)
  {
    BookOfEveryRun(user, es, t);
    RunKeepsSound(Initial(user), es);
    hide Run, BookOf, Booked, RotateRefresh, RotationAnswered, DisabledHoldsNothing, Coupled;
    RotationAnswers(Run(Initial(user), es).st, BookOf(user, es), Now(t, es), input);
  }
}
