/** The per-user object of src/do/UserDO.ts as a value: its tables, and every
    remote call as a function from the tables before to the tables after.

    Identifiers and digests are natural numbers: the code compares them for
    equality only, except family ids, which it also orders. Times are seconds. */
module UserModel {
  import opened Options

  type Time = int
  type Hash = nat
  type Sid = nat
  type ClientId = nat
  type FamilyId = nat

  const PURGE_INTERVAL := 60
  const PURGE_GRACE := 86400
  const CODE_TTL := 60
  const TOUCH_INTERVAL := 60
  const MAX_FAMILIES := 20

  // ---------------------------------------------------------------- rows

  datatype User = User(id: nat, groups: set<string>, disabledAt: Option<Time>)

  datatype Claims = Claims(authTime: Time, amr: seq<string>, acr: string)

  datatype Revocation = Revocation(at: Time, reason: string)

  datatype Session = Session(
    secretHash: Hash, createdAt: Time, lastSeenAt: Time, idleExpiresAt: Time, absoluteExpiresAt: Time,
    claims: Claims, upstream: Option<string>, revoked: Option<Revocation>)

  datatype Code = Code(
    clientId: ClientId, redirectUri: string, scope: seq<string>, nonce: Option<string>,
    challenge: Option<string>, sid: Sid, claims: Claims, createdAt: Time, expiresAt: Time,
    consumedAt: Option<Time>)

  datatype Kind = SessionBound | Offline

  datatype Family = Family(
    clientId: ClientId, clientCreatedAt: Time, codeHash: Hash, kind: Kind, sid: Option<Sid>,
    scope: seq<string>, claims: Claims, createdAt: Time, absoluteExpiresAt: Time, idleExpiresAt: Time,
    currentSerial: int, revoked: Option<Revocation>)

  /** The primary key of `refresh_tokens` (schema version 4). */
  datatype TokenKey = TokenKey(family: FamilyId, hash: Hash)

  datatype Token = Token(serial: int, createdAt: Time)

  datatype Store = Store(
    user: User,
    sessions: map<Sid, Session>,
    sessionClients: map<(Sid, ClientId), Time>,
    codes: map<Hash, Code>,
    families: map<FamilyId, Family>,
    tokens: map<TokenKey, Token>,
    lastPurgeAt: Option<Time>)

  // ---------------------------------------------------------------- inputs and outcomes

  datatype Client = Client(clientId: ClientId, createdAt: Time, skipConsent: bool, allowedGroups: Option<set<string>>)

  datatype CodeInput = CodeInput(
    secretHash: Hash, clientId: ClientId, redirectUri: string, scope: seq<string>, nonce: Option<string>,
    challenge: Option<string>)

  datatype AuthorizeInput = AuthorizeInput(
    sid: Sid, secretHash: Hash, now: Time, client: Client, scope: seq<string>, promptLogin: bool,
    promptConsent: bool, maxAge: Option<int>, code: Option<CodeInput>, idleTtl: int,
    granted: set<string>)

  datatype SessionInput =
    | Create(sid: Sid, secretHash: Hash, claims: Claims, upstream: Option<string>, newIdleTtl: int, absoluteTtl: int)
    | Rotate(sid: Sid, secretHash: Hash, claims: Claims, upstream: Option<string>)

  datatype FinalizeInput = FinalizeInput(
    now: Time, session: SessionInput, code: Option<CodeInput>, client: Option<Client>, idleTtl: int)

  datatype RefreshInput = RefreshInput(
    secretHash: Hash, familyId: FamilyId, offlineAllowed: bool, idleTtl: int, absoluteTtl: int)

  datatype ExchangeInput = ExchangeInput(
    secretHash: Hash, client: Client, redirectUri: string, verifier: Option<string>, now: Time,
    refresh: Option<RefreshInput>)

  datatype RotateInput = RotateInput(
    familyId: FamilyId, secretHash: Hash, client: Client, now: Time, requestedScope: Option<seq<string>>,
    newSecretHash: Hash, idleTtl: int, sessionIdleTtl: int, reuseWindow: int)

  datatype Error = SessionInvalid | UserDisabled | UserNotAllowed | InvalidGrant | InvalidScope

  datatype Snapshot = Snapshot(sid: Sid, row: Session, clients: set<ClientId>)

  datatype Grant = Grant(
    sub: nat, scope: seq<string>, sid: Option<Sid>, claims: Claims, profile: User)

  /** `Thrown`: a constraint of the schema refused an insert; the transaction was rolled back. */
  datatype AuthorizeOutcome =
    | Authorized(session: Snapshot, user: User)
    | LoginRequired(session: Snapshot, user: User)
    | ConsentRequired(session: Snapshot, user: User)
    | AuthorizeFailed(error: Error)
    | AuthorizeThrown

  datatype LookupOutcome = Found(session: Snapshot, user: User) | LookupFailed(error: Error)

  datatype FinalizeOutcome =
    | Finalized(sid: Sid, session: Snapshot, user: User)
    | FinalizeFailed(error: Error)
    | FinalizeThrown

  datatype ExchangeOutcome =
    | Exchanged(grant: Grant, nonce: Option<string>, family: Option<FamilyId>, kind: Option<Kind>)
    | ExchangeFailed(error: Error)
    | Replayed
    | ExchangeThrown

  datatype RotateOutcome =
    | Rotated(grant: Grant, serial: int, kind: Kind)
    | RotateFailed(error: Error)
    | ReuseDetected(sessionClients: Option<set<ClientId>>)
    | RotateThrown

  // ---------------------------------------------------------------- small parts

  function Min(a: int, b: int): int { if a < b then a else b }

  predicate Allowed(user: User, client: Client) {
    client.allowedGroups.None? || exists g :: g in client.allowedGroups.value && g in user.groups
  }

  predicate AdminAllowed(user: User, scope: seq<string>) {
    "admin" in scope ==> "admins" in user.groups
  }

  /** Usable at `now`: unrevoked and within both lifetimes. */
  predicate LiveSession(s: Session, now: Time) {
    s.revoked.None? && s.idleExpiresAt > now && s.absoluteExpiresAt > now
  }

  predicate LiveFamily(f: Family, now: Time) {
    f.revoked.None? && f.idleExpiresAt > now && f.absoluteExpiresAt > now
  }

  predicate SessionHit(st: Store, sid: Sid, secret: Hash, now: Time) {
    sid in st.sessions && st.sessions[sid].secretHash == secret && LiveSession(st.sessions[sid], now)
  }

  function SessionClients(st: Store, sid: Sid): set<ClientId> {
    set p | p in st.sessionClients && p.0 == sid :: p.1
  }

  function SnapshotOf(st: Store, sid: Sid): Snapshot
    requires sid in st.sessions
  {
    Snapshot(sid, st.sessions[sid], SessionClients(st, sid))
  }

  // ---------------------------------------------------------------- purge (src/do/UserDO.ts:655-679)

  predicate StaleSession(s: Session, grace: Time) {
    (s.revoked.Some? && s.revoked.value.at < grace) || s.absoluteExpiresAt < grace || s.idleExpiresAt < grace
  }

  predicate StaleFamily(f: Family, grace: Time) {
    (f.revoked.Some? && f.revoked.value.at < grace) || f.absoluteExpiresAt < grace || f.idleExpiresAt < grace
  }

  /** The EXISTS of the token purge: the successor, consumer of `k`, was created before `cutoff`. */
  predicate ConsumedBefore(tokens: map<TokenKey, Token>, k: TokenKey, cutoff: Time)
    requires k in tokens
  {
    exists l :: l in tokens && l.family == k.family && tokens[l].serial == tokens[k].serial + 1
      && tokens[l].createdAt < cutoff
  }

  function Purge(st: Store, now: Time, window: int): Store {
    var grace := now - PURGE_GRACE;
    var families := map f | f in st.families && !StaleFamily(st.families[f], grace) :: st.families[f];
    var sessions := map s | s in st.sessions && !StaleSession(st.sessions[s], grace) :: st.sessions[s];
    Store(
      st.user,
      sessions,
      map p | p in st.sessionClients && p.0 in sessions :: st.sessionClients[p],
      map c | c in st.codes && st.codes[c].expiresAt >= now :: st.codes[c],
      families,
      map k | k in st.tokens && !ConsumedBefore(st.tokens, k, now - window) && k.family in families :: st.tokens[k],
      Some(now))
  }

  predicate PurgeDue(st: Store, now: Time) {
    st.lastPurgeAt.None? || now - st.lastPurgeAt.value >= PURGE_INTERVAL
  }

  function PurgeIfDue(st: Store, now: Time, window: int): Store {
    if PurgeDue(st, now) then Purge(st, now, window) else st
  }

  /** A thrown insert undoes the tables but not the in-memory purge instant. */
  function RolledBack(before: Store, reached: Store): Store {
    before.(lastPurgeAt := reached.lastPurgeAt)
  }

  // ---------------------------------------------------------------- revocation

  function RevokeSessions(sessions: map<Sid, Session>, sids: set<Sid>, r: Revocation): map<Sid, Session> {
    map s | s in sessions ::
      if s in sids && sessions[s].revoked.None? then sessions[s].(revoked := Some(r)) else sessions[s]
  }

  function RevokeFamilies(families: map<FamilyId, Family>, ids: set<FamilyId>, r: Revocation): map<FamilyId, Family> {
    map f | f in families ::
      if f in ids && families[f].revoked.None? then families[f].(revoked := Some(r)) else families[f]
  }

  function BoundTo(families: map<FamilyId, Family>, sids: set<Sid>): set<FamilyId> {
    set f | f in families && families[f].kind.SessionBound? && families[f].sid.Some? && families[f].sid.value in sids
  }

  /** Ends every session of `sids` with its session-bound families (src/do/UserDO.ts:770-785). */
  function EndSessions(st: Store, sids: set<Sid>, r: Revocation): Store {
    st.(sessions := RevokeSessions(st.sessions, sids, r),
        families := RevokeFamilies(st.families, BoundTo(st.families, sids), r))
  }

  function WithFamiliesRevoked(st: Store, ids: set<FamilyId>, r: Revocation): Store {
    st.(families := RevokeFamilies(st.families, ids, r))
  }

  function UnrevokedSids(st: Store): set<Sid> {
    set s | s in st.sessions && st.sessions[s].revoked.None?
  }

  function LiveSids(st: Store, now: Time): set<Sid> {
    set s | s in st.sessions && LiveSession(st.sessions[s], now)
  }

  function LiveFamilyIds(st: Store, now: Time): set<FamilyId> {
    set f | f in st.families && LiveFamily(st.families[f], now)
  }

  /** Everything revoked (src/do/UserDO.ts:1064-1083, and the revoking half of setDisabled). */
  function EverythingRevoked(st: Store, r: Revocation): Store {
    WithFamiliesRevoked(EndSessions(st, UnrevokedSids(st), r), st.families.Keys, r)
  }

  function SetDisabled(st: Store, at: Option<Time>, now: Time): Store {
    var changed := st.(user := st.user.(disabledAt := at));
    if at.Some? then EverythingRevoked(changed, Revocation(now, "disabled")) else changed
  }

  function RevokeSession(st: Store, sid: Sid, now: Time, reason: string): (Store, Option<set<ClientId>>) {
    var p := PurgeIfDue(st, now, PURGE_GRACE);
    if sid !in p.sessions || p.sessions[sid].revoked.Some? then (p, None)
    else (EndSessions(p, {sid}, Revocation(now, reason)), Some(SessionClients(p, sid)))
  }

  function RevokeOtherSessions(st: Store, keep: Option<Sid>, now: Time, reason: string): (Store, set<Sid>) {
    var p := PurgeIfDue(st, now, PURGE_GRACE);
    var sids := LiveSids(p, now) - (if keep.Some? then {keep.value} else {});
    (EndSessions(p, sids, Revocation(now, reason)), sids)
  }

  function RevokeFamilyById(st: Store, f: FamilyId, now: Time, reason: string, client: Option<ClientId>)
    : (Store, bool)
  {
    if f !in st.families || st.families[f].revoked.Some? then (st, false)
    else if client.Some? && st.families[f].clientId != client.value then (st, false)
    else (WithFamiliesRevoked(st, {f}, Revocation(now, reason)), true)
  }

  /** The families of a client (and of a session, when one is named). */
  function FamiliesOf(st: Store, client: ClientId, sid: Option<Sid>): set<FamilyId> {
    set f | f in st.families && st.families[f].clientId == client && (sid.Some? ==> st.families[f].sid == sid)
  }

  function RevokeClientFamilies(st: Store, client: ClientId, sid: Option<Sid>, now: Time, reason: string): Store {
    WithFamiliesRevoked(st, FamiliesOf(st, client, sid), Revocation(now, reason))
  }

  // ---------------------------------------------------------------- sessions and codes

  /** The throttled extension of src/do/UserDO.ts:739-748, on the row read earlier. */
  function Touched(row: Session, now: Time, idleTtl: int): Session {
    if now - row.lastSeenAt < TOUCH_INTERVAL then row
    else row.(lastSeenAt := now, idleExpiresAt := Min(now + idleTtl, row.absoluteExpiresAt))
  }

  function TouchSession(st: Store, sid: Sid, now: Time, idleTtl: int): Store
    requires sid in st.sessions
  {
    st.(sessions := st.sessions[sid := Touched(st.sessions[sid], now, idleTtl)])
  }

  function NewCode(code: CodeInput, sid: Sid, row: Session, now: Time): Code {
    Code(code.clientId, code.redirectUri, code.scope, code.nonce, code.challenge, sid, row.claims, now, now + CODE_TTL,
      None)
  }

  /** src/do/UserDO.ts:787-812 once the code's digest is known not to collide. */
  function IssueCode(st: Store, code: CodeInput, sid: Sid, now: Time, idleTtl: int): Store
    requires sid in st.sessions
  {
    var withCode := st.(codes := st.codes[code.secretHash := NewCode(code, sid, st.sessions[sid], now)]);
    var p := (sid, code.clientId);
    var withClient := if p in st.sessionClients then withCode
      else withCode.(sessionClients := st.sessionClients[p := now]);
    TouchSession(withClient, sid, now, idleTtl)
  }

  function AuthorizeWithSession(st: Store, input: AuthorizeInput): (Store, AuthorizeOutcome) {
    if !SessionHit(st, input.sid, input.secretHash, input.now) then (st, AuthorizeFailed(SessionInvalid))
    else if st.user.disabledAt.Some? then (st, AuthorizeFailed(UserDisabled))
    else if !Allowed(st.user, input.client) || !AdminAllowed(st.user, input.scope)
      then (st, AuthorizeFailed(UserNotAllowed))
    else
      var row := st.sessions[input.sid];
      var stale := input.maxAge.Some? && row.claims.authTime + input.maxAge.value <= input.now;
      if input.promptLogin || stale then (st, LoginRequired(SnapshotOf(st, input.sid), st.user))
      else if !input.client.skipConsent
        && (input.promptConsent || exists s :: s in input.scope && s !in input.granted) then
        (st, ConsentRequired(SnapshotOf(st, input.sid), st.user))
      else if input.code.None? then (st, Authorized(SnapshotOf(st, input.sid), st.user))
      else
        var p := PurgeIfDue(st, input.now, PURGE_GRACE);
        // A live session outlives every purge; the test only keeps this function total.
        if input.code.value.secretHash in p.codes || input.sid !in p.sessions then (RolledBack(st, p), AuthorizeThrown)
        else
          var issued := IssueCode(p, input.code.value, input.sid, input.now, input.idleTtl);
          (issued, Authorized(SnapshotOf(issued, input.sid), st.user))
  }

  /** The UNIQUE constraint on sessions.secret_hash, for every row but `sid`. */
  predicate SecretTaken(st: Store, secret: Hash, sid: Sid) {
    exists s :: s in st.sessions && s != sid && st.sessions[s].secretHash == secret
  }

  function NewSession(s: SessionInput, now: Time): Session
    requires s.Create?
  {
    Session(s.secretHash, now, now, Min(now + s.newIdleTtl, now + s.absoluteTtl), now + s.absoluteTtl, s.claims,
      s.upstream, None)
  }

  function Reauthenticated(row: Session, s: SessionInput, now: Time, idleTtl: int): Session {
    row.(secretHash := s.secretHash, claims := s.claims, upstream := s.upstream, lastSeenAt := now,
         idleExpiresAt := Min(now + idleTtl, row.absoluteExpiresAt))
  }

  /** The session part of finalizeLogin; None when the insert or update throws or the session is gone. */
  function WithSession(p: Store, input: FinalizeInput): Store
    requires input.session.Rotate? ==> input.session.sid in p.sessions
  {
    var s := input.session;
    if s.Create? then p.(sessions := p.sessions[s.sid := NewSession(s, input.now)])
    else p.(sessions := p.sessions[s.sid := Reauthenticated(p.sessions[s.sid], s, input.now, input.idleTtl)])
  }

  function FinalizeLogin(st: Store, input: FinalizeInput): (Store, FinalizeOutcome) {
    var s := input.session;
    if st.user.disabledAt.Some? then (st, FinalizeFailed(UserDisabled))
    else if input.client.Some? && !Allowed(st.user, input.client.value) then (st, FinalizeFailed(UserNotAllowed))
    else if input.code.Some? && !AdminAllowed(st.user, input.code.value.scope) then (st, FinalizeFailed(UserNotAllowed))
    else
      var p := PurgeIfDue(st, input.now, PURGE_GRACE);
      if s.Rotate?
        && (s.sid !in p.sessions || p.sessions[s.sid].revoked.Some?
             || p.sessions[s.sid].absoluteExpiresAt <= input.now) then
        (p, FinalizeFailed(SessionInvalid))
      else if (s.Create? && s.sid in p.sessions) || SecretTaken(p, s.secretHash, s.sid)
        then (RolledBack(st, p), FinalizeThrown)
      else
        var q := WithSession(p, input);
        if input.code.None? then (q, Finalized(s.sid, SnapshotOf(q, s.sid), st.user))
        else if input.code.value.secretHash in q.codes then (RolledBack(st, p), FinalizeThrown)
        else
          var issued := IssueCode(q, input.code.value, s.sid, input.now, input.idleTtl);
          (issued, Finalized(s.sid, SnapshotOf(issued, s.sid), st.user))
  }

  function GetSession(st: Store, sid: Sid, secret: Hash, now: Time): LookupOutcome {
    if !SessionHit(st, sid, secret, now) then LookupFailed(SessionInvalid)
    else if st.user.disabledAt.Some? then LookupFailed(UserDisabled)
    else Found(SnapshotOf(st, sid), st.user)
  }

  // ---------------------------------------------------------------- code exchange (src/do/UserDO.ts:1128-1232)

  /** `a` comes before `b` in ORDER BY created_at DESC, id DESC. */
  predicate Newer(families: map<FamilyId, Family>, a: FamilyId, b: FamilyId)
    requires a in families && b in families
  {
    families[a].createdAt > families[b].createdAt || (families[a].createdAt == families[b].createdAt && a > b)
  }

  function LiveOf(families: map<FamilyId, Family>, client: ClientId, now: Time): set<FamilyId> {
    set f | f in families && families[f].clientId == client && LiveFamily(families[f], now)
  }

  function NewerLive(families: map<FamilyId, Family>, client: ClientId, now: Time, f: FamilyId): set<FamilyId>
    requires f in families
  {
    set g | g in LiveOf(families, client, now) && Newer(families, g, f)
  }

  /** LIMIT -1 OFFSET 20: the live families of `client` with at least 20 newer ones. */
  function Overflow(families: map<FamilyId, Family>, client: ClientId, now: Time): set<FamilyId> {
    set f | f in LiveOf(families, client, now) && |NewerLive(families, client, now, f)| >= MAX_FAMILIES
  }

  /** The verifier check of section 4.6 of RFC 7636; `expected` is the digest of a well-formed verifier. */
  predicate PkceHolds(code: Code, verifier: Option<string>, expected: Option<string>) {
    if code.challenge.None? then verifier.None? else expected == code.challenge
  }

  /** Every check of the exchange after the replay test, on the user row read before the digest. */
  predicate Exchangeable(st: Store, user: User, expected: Option<string>, input: ExchangeInput) {
    && input.secretHash in st.codes
    && var code := st.codes[input.secretHash];
    && code.consumedAt.None?
    && code.expiresAt > input.now
    && code.clientId == input.client.clientId
    && code.redirectUri == input.redirectUri
    && PkceHolds(code, input.verifier, expected)
    && user.disabledAt.None?
    && Allowed(user, input.client)
    && AdminAllowed(user, code.scope)
    && code.sid in st.sessions
    && st.sessions[code.sid].revoked.None?
  }

  function KindOf(code: Code, r: RefreshInput): Kind {
    if r.offlineAllowed && "offline_access" in code.scope then Offline else SessionBound
  }

  function NewFamily(code: Code, hash: Hash, session: Session, client: Client, r: RefreshInput, now: Time): Family {
    var kind := KindOf(code, r);
    var absolute := if kind.SessionBound? then session.absoluteExpiresAt else now + r.absoluteTtl;
    Family(client.clientId, client.createdAt, hash, kind, if kind.SessionBound? then Some(code.sid) else None,
           code.scope, code.claims, now, absolute, Min(now + r.idleTtl, absolute), 1, None)
  }

  function Consumed(st: Store, hash: Hash, now: Time): Store
    requires hash in st.codes
  {
    st.(codes := st.codes[hash := st.codes[hash].(consumedAt := Some(now))])
  }

  function WithFamily(st: Store, family: Family, r: RefreshInput, now: Time): Store {
    st.(families := st.families[r.familyId := family],
        tokens := st.tokens[TokenKey(r.familyId, r.secretHash) := Token(1, now)])
  }

  function Capped(st: Store, client: ClientId, now: Time): Store {
    WithFamiliesRevoked(st, Overflow(st.families, client, now), Revocation(now, "family_limit"))
  }

  function FamiliesOfCode(st: Store, hash: Hash): set<FamilyId> {
    set f | f in st.families && st.families[f].codeHash == hash
  }

  function ExchangeCommit(st: Store, user: User, expected: Option<string>, input: ExchangeInput)
    : (Store, ExchangeOutcome)
  {
    var p := PurgeIfDue(st, input.now, PURGE_GRACE);
    if input.secretHash !in p.codes then (p, ExchangeFailed(InvalidGrant))
    else if p.codes[input.secretHash].consumedAt.Some? then
      (WithFamiliesRevoked(p, FamiliesOfCode(p, input.secretHash), Revocation(input.now, "code_replay")), Replayed)
    else if !Exchangeable(p, user, expected, input) then (p, ExchangeFailed(InvalidGrant))
    else
      var code := p.codes[input.secretHash];
      var grant := Grant(user.id, code.scope, Some(code.sid), code.claims, user);
      var q := Consumed(p, input.secretHash, input.now);
      if input.refresh.None? then (q, Exchanged(grant, code.nonce, None, None))
      else
        var r := input.refresh.value;
        if r.familyId in p.families || TokenKey(r.familyId, r.secretHash) in p.tokens
          then (RolledBack(st, p), ExchangeThrown)
        else
          var family := NewFamily(code, input.secretHash, p.sessions[code.sid], input.client, r, input.now);
          (Capped(WithFamily(q, family, r, input.now), input.client.clientId, input.now),
           Exchanged(grant, code.nonce, Some(r.familyId), Some(family.kind)))
  }

  // ---------------------------------------------------------------- rotation (src/do/UserDO.ts:1238-1332)

  function WithoutFamily(st: Store, f: FamilyId): Store {
    st.(families := st.families - {f}, tokens := map k | k in st.tokens && k.family != f :: st.tokens[k])
  }

  /** The family answers this client at `now` (everything before the token is read). */
  predicate FamilyAnswers(st: Store, input: RotateInput) {
    && input.familyId in st.families
    && LiveFamily(st.families[input.familyId], input.now)
    && st.families[input.familyId].clientId == input.client.clientId
  }

  function GrantedScope(family: Family, requested: Option<seq<string>>): seq<string> {
    if requested.Some? then requested.value else family.scope
  }

  predicate Subset(a: seq<string>, b: seq<string>) { forall s :: s in a ==> s in b }

  /** The checks between a current token and its rotation; None when all pass. */
  function RotationError(st: Store, input: RotateInput): Option<Error>
    requires input.familyId in st.families
  {
    var family := st.families[input.familyId];
    if st.user.disabledAt.Some? || !Allowed(st.user, input.client) then Some(InvalidGrant)
    else if family.sid.Some?
      && (family.sid.value !in st.sessions || !LiveSession(st.sessions[family.sid.value], input.now))
           then Some(InvalidGrant)
    else if input.requestedScope.Some? && !Subset(input.requestedScope.value, family.scope) then Some(InvalidScope)
    else if !AdminAllowed(st.user, GrantedScope(family, input.requestedScope)) then Some(InvalidGrant)
    else None
  }

  function Advanced(st: Store, input: RotateInput): Store
    requires input.familyId in st.families
    requires var sid := st.families[input.familyId].sid; sid.Some? ==> sid.value in st.sessions
  {
    var family := st.families[input.familyId];
    var next := family.(currentSerial := family.currentSerial + 1,
                        idleExpiresAt := Min(input.now + input.idleTtl, family.absoluteExpiresAt));
    var moved := st.(families := st.families[input.familyId := next],
                     tokens := st.tokens[TokenKey(input.familyId, input.newSecretHash) :=
                       Token(next.currentSerial, input.now)]);
    if family.sid.Some? then TouchSession(moved, family.sid.value, input.now, input.sessionIdleTtl) else moved
  }

  function ReuseOf(st: Store, f: FamilyId, now: Time): Store
    requires f in st.families
  {
    var dead := WithFamiliesRevoked(st, {f}, Revocation(now, "reuse"));
    var sid := st.families[f].sid;
    if sid.Some? then EndSessions(dead, {sid.value}, Revocation(now, "refresh_reuse")) else dead
  }

  function RotateRefresh(st: Store, input: RotateInput): (Store, RotateOutcome) {
    var p := PurgeIfDue(st, input.now, input.reuseWindow);
    var key := TokenKey(input.familyId, input.secretHash);
    if !FamilyAnswers(p, input) then (p, RotateFailed(InvalidGrant))
    else if p.families[input.familyId].clientCreatedAt != input.client.createdAt then
      (WithoutFamily(p, input.familyId), RotateFailed(InvalidGrant))
    else if key !in p.tokens then (p, RotateFailed(InvalidGrant))
    else
      var family := p.families[input.familyId];
      if p.tokens[key].serial < family.currentSerial then
        (ReuseOf(p, input.familyId, input.now),
         ReuseDetected(if family.sid.Some? then Some(SessionClients(p, family.sid.value)) else None))
      else if p.tokens[key].serial > family.currentSerial then (p, RotateFailed(InvalidGrant))
      else if RotationError(p, input).Some? then (p, RotateFailed(RotationError(p, input).value))
      else if TokenKey(input.familyId, input.newSecretHash) in p.tokens then (RolledBack(st, p), RotateThrown)
      else
        (Advanced(p, input),
         Rotated(Grant(p.user.id, GrantedScope(family, input.requestedScope), family.sid, family.claims, p.user),
                 family.currentSerial + 1, family.kind))
  }
}
