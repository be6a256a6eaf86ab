/** What the callers of a user object sent and were granted, kept apart from its tables: who logged in with which
    secret, which codes were issued on what terms, which were redeemed, and which token of a family was handed out
    last. Every stored row is exactly what this book says. */
module UserBook {
  import opened Options
  import opened UserModel
  import opened UserSound
  import opened UserCases

  /** The last login of a session. */
  datatype Login = Login(secret: Hash, claims: Claims, upstream: Option<string>)

  /** A code as it was asked for, on a session, with the claims of its login. */
  datatype Issue = Issue(code: CodeInput, sid: Sid, claims: Claims, at: Time)

  /** A family: the exchange that opened it and the code it redeemed, the token handed out last, and the time and
      idle lifetime of its last use. */
  datatype Opening = Opening(exchange: ExchangeInput, issue: Issue, current: Hash, usedAt: Time, idleTtl: int)

  datatype Book = Book(
    logins: map<Sid, Login>, clients: map<Sid, set<ClientId>>, issues: map<Hash, Issue>, spent: set<Hash>,
    openings: map<FamilyId, Opening>)

  const EMPTY := Book(map[], map[], map[], {}, map[])

  function ClientsOf(b: Book, sid: Sid): set<ClientId> { if sid in b.clients then b.clients[sid] else {} }

  function WithLogin(b: Book, s: SessionInput): Book {
    b.(logins := b.logins[s.sid := Login(s.secretHash, s.claims, s.upstream)],
       clients := b.clients[s.sid := if s.Create? then {} else ClientsOf(b, s.sid)])
  }

  function WithIssue(b: Book, code: CodeInput, sid: Sid, now: Time): Book {
    if sid !in b.logins then b
    else b.(issues := b.issues[code.secretHash := Issue(code, sid, b.logins[sid].claims, now)],
            clients := b.clients[sid := ClientsOf(b, sid) + {code.clientId}])
  }

  function WithExchange(b: Book, x: ExchangeInput): Book {
    var spent := b.(spent := b.spent + {x.secretHash});
    if x.refresh.None? || x.secretHash !in b.issues then spent
    else
      var r := x.refresh.value;
      var o := Opening(x, b.issues[x.secretHash], r.secretHash, x.now, r.idleTtl);
      spent.(openings := b.openings[r.familyId := o])
  }

  function WithRotation(b: Book, r: RotateInput): Book {
    if r.familyId !in b.openings then b
    else
      var o := b.openings[r.familyId].(current := r.newSecretHash, usedAt := r.now, idleTtl := r.idleTtl);
      b.(openings := b.openings[r.familyId := o])
  }

  // ---------------------------------------------------------------- the rows are what the book says

  function LoginOf(s: Session): Login { Login(s.secretHash, s.claims, s.upstream) }

  ghost predicate SessionsBooked(st: Store, b: Book) {
    && (forall s :: s in st.sessions ==> s in b.logins && s in b.clients && LoginOf(st.sessions[s]) == b.logins[s])
    && (forall s, c :: (s, c) in st.sessionClients ==> s in st.sessions)
    && (forall s, c :: s in st.sessions ==> ((s, c) in st.sessionClients <==> c in b.clients[s]))
  }

  /** The row of a code that has not been redeemed. It lives a minute. */
  function RowOf(i: Issue): Code {
    Code(i.code.clientId, i.code.redirectUri, i.code.scope, i.code.nonce, i.code.challenge, i.sid, i.claims, i.at,
         i.at + 60, None)
  }

  ghost predicate CodesBooked(st: Store, b: Book) {
    forall c :: c in st.codes ==>
      && c in b.issues && st.codes[c].(consumedAt := None) == RowOf(b.issues[c])
      && (st.codes[c].consumedAt.Some? <==> c in b.spent)
  }

  /** A code is stored at least until it expires. */
  ghost predicate CodesStay(st: Store, b: Book, t: Time) {
    forall c :: c in b.issues && t <= b.issues[c].at + 60 ==> c in st.codes
  }

  /** Bound to its session unless the caller may stay offline and the code asks for it. */
  predicate Bound(o: Opening) {
    !(o.exchange.refresh.Some? && o.exchange.refresh.value.offlineAllowed && "offline_access" in o.issue.code.scope)
  }

  ghost predicate FamilyMatches(f: Family, o: Opening) {
    var x := o.exchange;
    && x.refresh.Some?
    && f.clientId == x.client.clientId && f.clientCreatedAt == x.client.createdAt && f.codeHash == x.secretHash
    && (f.kind.SessionBound? <==> Bound(o)) && f.sid == (if Bound(o) then Some(o.issue.sid) else None)
    && f.scope == o.issue.code.scope && f.claims == o.issue.claims && f.createdAt == x.now
    && (!Bound(o) ==> f.absoluteExpiresAt == x.now + x.refresh.value.absoluteTtl)
    && f.idleExpiresAt <= o.usedAt + o.idleTtl && f.idleExpiresAt <= f.absoluteExpiresAt
    && (f.idleExpiresAt == o.usedAt + o.idleTtl || f.idleExpiresAt == f.absoluteExpiresAt)
  }

  ghost predicate FamiliesBooked(st: Store, b: Book) {
    forall f :: f in st.families ==>
      && f in b.openings && FamilyMatches(st.families[f], b.openings[f])
      && var k := TokenKey(f, b.openings[f].current);
         k in st.tokens && st.tokens[k].serial == st.families[f].currentSerial
  }

  ghost predicate Booked(st: Store, b: Book, t: Time) {
    SessionsBooked(st, b) && CodesBooked(st, b) && CodesStay(st, b, t) && FamiliesBooked(st, b)
  }

  lemma BookedLater(st: Store, b: Book, t: Time, now: Time, purged: Option<Time>)
    requires Booked(st, b, t) && t <= now
    ensures Booked(st.(lastPurgeAt := purged), b, now)
  {}

  lemma UserChangedBooked(st: Store, b: Book, t: Time, user: User)
    requires Booked(st, b, t)
    ensures Booked(st.(user := user), b, t)
  {}

  // ---------------------------------------------------------------- deleting and revoking

  lemma PurgeBooked(st: Store, b: Book, t: Time, now: Time, window: int)
    requires Booked(st, b, t) && TokensOwned(st) && t <= now
    ensures Booked(PurgeIfDue(st, now, window), b, now)
  {
    BookedLater(st, b, t, now, st.lastPurgeAt);
    PurgeSessionsBooked(st, b, now, window);
    PurgeCodesBooked(st, b, t, now, window);
    PurgeFamiliesBooked(st, b, now, window);
    hide Purge, SessionsBooked, CodesBooked, CodesStay, FamiliesBooked;
  }

  lemma PurgeSessionsBooked(st: Store, b: Book, now: Time, window: int)
    requires SessionsBooked(st, b)
    ensures SessionsBooked(Purge(st, now, window), b)
  {}

  lemma PurgeCodesBooked(st: Store, b: Book, t: Time, now: Time, window: int)
    requires CodesBooked(st, b) && CodesStay(st, b, t) && t <= now
    ensures CodesBooked(Purge(st, now, window), b) && CodesStay(Purge(st, now, window), b, now)
  {}

  lemma PurgeFamiliesBooked(st: Store, b: Book, now: Time, window: int)
    requires FamiliesBooked(st, b) && TokensOwned(st)
    ensures FamiliesBooked(Purge(st, now, window), b)
  {
    var p := Purge(st, now, window);
    forall f | f in p.families
      ensures TokenKey(f, b.openings[f].current) in p.tokens
    {
      assert !ConsumedBefore(st.tokens, TokenKey(f, b.openings[f].current), now - window);
    }
  }

  lemma EndingBooked(st: Store, b: Book, t: Time, sids: set<Sid>, r: Revocation)
    requires Booked(st, b, t)
    ensures Booked(EndSessions(st, sids, r), b, t)
  {
    EndingSessionsBooked(st, b, sids, r);
    EndingFamiliesBooked(st, b, sids, r);
    hide SessionsBooked, FamiliesBooked, RevokeSessions, RevokeFamilies, BoundTo;
  }

  lemma EndingSessionsBooked(st: Store, b: Book, sids: set<Sid>, r: Revocation)
    requires SessionsBooked(st, b)
    ensures SessionsBooked(EndSessions(st, sids, r), b)
  {
    hide RevokeFamilies;
  }

  lemma EndingFamiliesBooked(st: Store, b: Book, sids: set<Sid>, r: Revocation)
    requires FamiliesBooked(st, b)
    ensures FamiliesBooked(EndSessions(st, sids, r), b)
  {
    hide RevokeSessions, BoundTo;
  }

  lemma RevokingBooked(st: Store, b: Book, t: Time, ids: set<FamilyId>, r: Revocation)
    requires Booked(st, b, t)
    ensures Booked(WithFamiliesRevoked(st, ids, r), b, t)
  {
    RevokingFamiliesBooked(st, b, ids, r);
    hide FamiliesBooked, RevokeFamilies;
  }

  lemma RevokingFamiliesBooked(st: Store, b: Book, ids: set<FamilyId>, r: Revocation)
    requires FamiliesBooked(st, b)
    ensures FamiliesBooked(WithFamiliesRevoked(st, ids, r), b)
  {}

  lemma DeletingBooked(st: Store, b: Book, t: Time, f: FamilyId)
    requires Booked(st, b, t)
    ensures Booked(WithoutFamily(st, f), b, t)
  {}

  // ---------------------------------------------------------------- logging in and issuing

  lemma LoginBooked(p: Store, b: Book, t: Time, input: FinalizeInput)
    requires Booked(p, b, t) && MayLogIn(p, input)
    ensures Booked(WithSession(p, input), WithLogin(b, input.session), t)
  {
    LoginSessionsBooked(p, b, input);
    hide SessionsBooked;
  }

  lemma LoginSessionsBooked(p: Store, b: Book, input: FinalizeInput)
    requires SessionsBooked(p, b) && MayLogIn(p, input)
    ensures SessionsBooked(WithSession(p, input), WithLogin(b, input.session))
  {}

  lemma IssueBooked(p: Store, b: Book, now: Time, code: CodeInput, sid: Sid, idleTtl: int)
    requires Booked(p, b, now) && sid in p.sessions && code.secretHash !in b.issues && code.secretHash !in b.spent
    ensures Booked(IssueCode(p, code, sid, now, idleTtl), WithIssue(b, code, sid, now), now)
  {
    IssueSessionsBooked(p, b, now, code, sid, idleTtl);
    IssueCodesBooked(p, b, now, code, sid, idleTtl);
    hide SessionsBooked, CodesBooked, CodesStay;
  }

  lemma IssueSessionsBooked(p: Store, b: Book, now: Time, code: CodeInput, sid: Sid, idleTtl: int)
    requires SessionsBooked(p, b) && sid in p.sessions
    ensures SessionsBooked(IssueCode(p, code, sid, now, idleTtl), WithIssue(b, code, sid, now))
  {}

  lemma CodeAdded(p: Store, q: Store, b: Book, more: Book, h: Hash, i: Issue, now: Time)
    requires CodesBooked(p, b) && CodesStay(p, b, now) && h !in b.issues && h !in b.spent
    requires q.codes == p.codes[h := RowOf(i)] && more.issues == b.issues[h := i] && more.spent == b.spent
    ensures CodesBooked(q, more) && CodesStay(q, more, now)
  {}

  lemma IssueCodesBooked(p: Store, b: Book, now: Time, code: CodeInput, sid: Sid, idleTtl: int)
    requires SessionsBooked(p, b) && CodesBooked(p, b) && CodesStay(p, b, now) && sid in p.sessions
    requires code.secretHash !in b.issues && code.secretHash !in b.spent
    ensures
      var q, more := IssueCode(p, code, sid, now, idleTtl), WithIssue(b, code, sid, now);
      CodesBooked(q, more) && CodesStay(q, more, now)
  {
    IssueTables(p, now, code, sid, idleTtl);
    assert b.logins[sid].claims == p.sessions[sid].claims && sid in b.logins;
    hide IssueCode, SessionsBooked, CodesBooked, CodesStay;
    CodeAdded(p, IssueCode(p, code, sid, now, idleTtl), b, WithIssue(b, code, sid, now), code.secretHash,
      Issue(code, sid, b.logins[sid].claims, now), now);
  }

  // ---------------------------------------------------------------- redeeming and rotating

  lemma RedeemTables(p: Store, input: ExchangeInput)
    requires input.secretHash in p.codes && p.codes[input.secretHash].sid in p.sessions
    ensures
      var h, q := input.secretHash, Granted(p, input);
      && q.sessions == p.sessions && q.sessionClients == p.sessionClients
      && q.codes == p.codes[h := p.codes[h].(consumedAt := Some(input.now))]
  {
    hide Overflow;
  }

  lemma RedeemCodesBooked(p: Store, q: Store, b: Book, input: ExchangeInput)
    requires CodesBooked(p, b) && CodesStay(p, b, input.now) && input.secretHash in p.codes
    requires q.codes == p.codes[input.secretHash := p.codes[input.secretHash].(consumedAt := Some(input.now))]
    ensures CodesBooked(q, WithExchange(b, input)) && CodesStay(q, WithExchange(b, input), input.now)
  {}

  lemma RedeemSessionsBooked(p: Store, q: Store, b: Book, input: ExchangeInput)
    requires SessionsBooked(p, b) && q.sessions == p.sessions && q.sessionClients == p.sessionClients
    ensures SessionsBooked(q, WithExchange(b, input))
  {}

  lemma RedeemBooked(p: Store, b: Book, input: ExchangeInput)
    requires Booked(p, b, input.now) && input.secretHash in p.codes && p.codes[input.secretHash].sid in p.sessions
    requires input.refresh.Some? ==>
      input.refresh.value.familyId !in p.families
      && TokenKey(input.refresh.value.familyId, input.refresh.value.secretHash) !in p.tokens
    ensures Booked(Granted(p, input), WithExchange(b, input), input.now)
  {
    RedeemFamiliesBooked(p, b, input);
    RedeemTables(p, input);
    hide Granted, WithExchange;
    RedeemCodesBooked(p, Granted(p, input), b, input);
    RedeemSessionsBooked(p, Granted(p, input), b, input);
    hide FamiliesBooked, SessionsBooked, CodesBooked, CodesStay;
  }

  lemma RedeemFamiliesBooked(p: Store, b: Book, input: ExchangeInput)
    requires FamiliesBooked(p, b) && CodesBooked(p, b) && input.secretHash in p.codes
    requires p.codes[input.secretHash].sid in p.sessions
    requires input.refresh.Some? ==>
      input.refresh.value.familyId !in p.families
      && TokenKey(input.refresh.value.familyId, input.refresh.value.secretHash) !in p.tokens
    ensures FamiliesBooked(Granted(p, input), WithExchange(b, input))
  {
    hide Overflow;
  }

  lemma AdvanceBooked(p: Store, b: Book, t: Time, input: RotateInput)
    requires Booked(p, b, t) && input.familyId in p.families
    requires var sid := p.families[input.familyId].sid; sid.Some? ==> sid.value in p.sessions
    requires TokenKey(input.familyId, input.newSecretHash) !in p.tokens
    ensures Booked(Advanced(p, input), WithRotation(b, input), t)
  {
    AdvanceFamiliesBooked(p, b, input);
    hide FamiliesBooked;
  }

  lemma AdvanceFamiliesBooked(p: Store, b: Book, input: RotateInput)
    requires FamiliesBooked(p, b) && input.familyId in p.families
    requires var sid := p.families[input.familyId].sid; sid.Some? ==> sid.value in p.sessions
    requires TokenKey(input.familyId, input.newSecretHash) !in p.tokens
    ensures FamiliesBooked(Advanced(p, input), WithRotation(b, input))
  {}
}
