/** Runs of the user object: any sequence of remote calls, with `exchangeCode` cut in
    two where it awaits the digest (src/do/UserDO.ts:1129-1136), and what is observed. */
module UserRuns {
  import opened Options
  import opened UserModel
  import opened UserSound

  datatype Event =
    | SetGroups(groups: set<string>)
    | Disable(disabledAt: Option<Time>, now: Time)
    | PurgeCall(now: Time, window: int)
    | Authorize(auth: AuthorizeInput)
    | Finalize(fin: FinalizeInput)
    | EndSession(sid: Sid, now: Time, reason: string)
    | EndOthers(keep: Option<Sid>, now: Time, reason: string)
    | EndAll(now: Time, reason: string)
    | ReadUser(request: nat)
    | Commit(request: nat, expected: Option<string>, exchange: ExchangeInput)
    | Refresh(rotation: RotateInput)
    | RevokeFamily(family: FamilyId, now: Time, reason: string, client: Option<ClientId>)
    | RevokeClient(clientId: ClientId, boundTo: Option<Sid>, now: Time, reason: string)
    | Evict

  /** What the callers saw happen. */
  datatype Entry =
    | CodeIssued(code: Hash, scope: seq<string>)
    | CodeExchanged(code: Hash, created: Option<FamilyId>, scope: seq<string>)
    | CodeReplayed(code: Hash)
    | TokenRotated(family: FamilyId, presented: Hash, serial: int, scope: seq<string>, sid: Option<Sid>)
    | ReuseSeen(family: FamilyId, sid: Option<Sid>)

  /** Every key each table ever held. */
  datatype Seen = Seen(sids: set<Sid>, codes: set<Hash>, families: set<FamilyId>, tokens: set<TokenKey>)

  /** `pending` holds the user rows read by exchanges that have not committed yet. */
  datatype World = World(st: Store, pending: map<nat, User>, seen: Seen, log: seq<Entry>)

  function InitialStore(user: User): Store {
    Store(user, map[], map[], map[], map[], map[], None)
  }

  function Initial(user: User): World {
    World(InitialStore(user), map[], Seen({}, {}, {}, {}), [])
  }

  function NextStore(w: World, e: Event): Store {
    match e
    case SetGroups(groups) => w.st.(user := w.st.user.(groups := groups))
    case Disable(at, now) => SetDisabled(w.st, at, now)
    case PurgeCall(now, window) => PurgeIfDue(w.st, now, window)
    case Authorize(auth) => AuthorizeWithSession(w.st, auth).0
    case Finalize(fin) => FinalizeLogin(w.st, fin).0
    case EndSession(sid, now, reason) => RevokeSession(w.st, sid, now, reason).0
    case EndOthers(keep, now, reason) => RevokeOtherSessions(w.st, keep, now, reason).0
    case EndAll(now, reason) => EverythingRevoked(w.st, Revocation(now, reason))
    case ReadUser(request) => w.st
    case Commit(request, expected, exchange) =>
      if request in w.pending then ExchangeCommit(w.st, w.pending[request], expected, exchange).0 else w.st
    case Refresh(rotation) => RotateRefresh(w.st, rotation).0
    case RevokeFamily(f, now, reason, client) => RevokeFamilyById(w.st, f, now, reason, client).0
    case RevokeClient(client, sid, now, reason) => RevokeClientFamilies(w.st, client, sid, now, reason)
    case Evict => w.st.(lastPurgeAt := None)
  }

  function Observed(w: World, e: Event): seq<Entry> {
    match e
    case Authorize(auth) =>
      if AuthorizeWithSession(w.st, auth).1.Authorized? && auth.code.Some?
        then [CodeIssued(auth.code.value.secretHash, auth.code.value.scope)] else []
    case Finalize(fin) =>
      if FinalizeLogin(w.st, fin).1.Finalized? && fin.code.Some?
        then [CodeIssued(fin.code.value.secretHash, fin.code.value.scope)] else []
    case Commit(request, expected, exchange) =>
      if request !in w.pending then []
      else (
        match ExchangeCommit(w.st, w.pending[request], expected, exchange).1
        case Exchanged(grant, _, family, _) => [CodeExchanged(exchange.secretHash, family, grant.scope)]
        case Replayed => [CodeReplayed(exchange.secretHash)]
        case _ => [])
    case Refresh(rotation) => (
      match RotateRefresh(w.st, rotation).1
      case Rotated(grant, serial, _) =>
        [TokenRotated(rotation.familyId, rotation.secretHash, serial, grant.scope, grant.sid)]
      case ReuseDetected(_) =>
        var f := rotation.familyId;
        [ReuseSeen(f, if f in w.st.families then w.st.families[f].sid else None)]
      case _ => [])
    case _ => []
  }

  function InstantOf(e: Event): Option<Time> {
    match e
    case Disable(_, now) => Some(now)
    case PurgeCall(now, _) => Some(now)
    case Authorize(auth) => Some(auth.now)
    case Finalize(fin) => Some(fin.now)
    case EndSession(_, now, _) => Some(now)
    case EndOthers(_, now, _) => Some(now)
    case EndAll(now, _) => Some(now)
    case Commit(_, _, exchange) => Some(exchange.now)
    case Refresh(rotation) => Some(rotation.now)
    case RevokeFamily(_, now, _, _) => Some(now)
    case RevokeClient(_, _, now, _) => Some(now)
    case _ => None
  }

  function SeenAfter(seen: Seen, st: Store): Seen {
    Seen(seen.sids + st.sessions.Keys, seen.codes + st.codes.Keys, seen.families + st.families.Keys,
      seen.tokens + st.tokens.Keys)
  }

  function Step(w: World, e: Event): World {
    var st := NextStore(w, e);
    World(
      st,
      if e.ReadUser? then w.pending[e.request := w.st.user] else w.pending,
      SeenAfter(w.seen, st),
      w.log + Observed(w, e))
  }

  function Run(w: World, es: seq<Event>): World
    decreases |es|
  {
    if es == [] then w else Run(Step(w, es[0]), es[1..])
  }

  /** Secrets, session ids and family ids are minted once (src/crypto/random.ts, src/crypto/uuid.ts). */
  ghost predicate Fresh(w: World, e: Event) {
    match e
    case Authorize(auth) => auth.code.Some? ==> auth.code.value.secretHash !in w.seen.codes
    case Finalize(fin) =>
      && (fin.code.Some? ==> fin.code.value.secretHash !in w.seen.codes)
      && (fin.session.Create? ==> fin.session.sid !in w.seen.sids)
    case Commit(_, _, exchange) => exchange.refresh.Some? ==> exchange.refresh.value.familyId !in w.seen.families
    case Refresh(rotation) => TokenKey(rotation.familyId, rotation.newSecretHash) !in w.seen.tokens
    case _ => true
  }

  ghost predicate AllFresh(w: World, es: seq<Event>)
    decreases |es|
  {
    es != [] ==> Fresh(w, es[0]) && AllFresh(Step(w, es[0]), es[1..])
  }

  // ---------------------------------------------------------------- soundness over runs

  lemma SetGroupsKeepsSound(st: Store, groups: set<string>)
    requires Sound(st)
    ensures Sound(st.(user := st.user.(groups := groups)))
    ensures Sound(st.(lastPurgeAt := None))
  {
    TokensUnmoved(st, st.(user := st.user.(groups := groups)));
    TokensUnmoved(st, st.(lastPurgeAt := None));
  }

  lemma StepKeepsSound(w: World, e: Event)
    requires Sound(w.st)
    ensures Sound(Step(w, e).st)
  {
    hide Sound, SetDisabled, PurgeIfDue, AuthorizeWithSession, FinalizeLogin, EverythingRevoked, ExchangeCommit,
      RotateRefresh, Observed, SeenAfter, EndSessions, WithFamiliesRevoked;
    match e
    case SetGroups(groups) => SetGroupsKeepsSound(w.st, groups);
    case Disable(at, now) => DisablingKeepsSound(w.st, at, now);
    case PurgeCall(now, window) => PurgeIfDueKeepsSound(w.st, now, window);
    case Authorize(auth) => AuthorizeKeepsSound(w.st, auth);
    case Finalize(fin) => FinalizeKeepsSound(w.st, fin);
    case EndSession(sid, now, reason) =>
      PurgeIfDueKeepsSound(w.st, now, PURGE_GRACE);
      EndingKeepsSound(PurgeIfDue(w.st, now, PURGE_GRACE), {sid}, Revocation(now, reason));
    case EndOthers(keep, now, reason) =>
      var p := PurgeIfDue(w.st, now, PURGE_GRACE);
      PurgeIfDueKeepsSound(w.st, now, PURGE_GRACE);
      EndingKeepsSound(p, LiveSids(p, now) - (if keep.Some? then {keep.value} else {}), Revocation(now, reason));
    case EndAll(now, reason) => EverythingRevokedKeepsSound(w.st, Revocation(now, reason));
    case ReadUser(request) =>
    case Commit(request, expected, exchange) =>
      if request in w.pending {
        ExchangeKeepsSound(w.st, w.pending[request], expected, exchange);
      }
    case Refresh(rotation) => RotateKeepsSound(w.st, rotation);
    case RevokeFamily(f, now, reason, client) => RevokingFamiliesKeepsSound(w.st, {f}, Revocation(now, reason));
    case RevokeClient(client, sid, now, reason) => RevokingFamiliesKeepsSound(w.st, FamiliesOf(w.st, client, sid),
      Revocation(now, reason));
    case Evict => SetGroupsKeepsSound(w.st, {});
  }

  lemma {:induction false} RunKeepsSound(w: World, es: seq<Event>)
    requires Sound(w.st)
    ensures Sound(Run(w, es).st)
    decreases |es|
  {
    if es != [] {
      StepKeepsSound(w, es[0]);
      RunKeepsSound(Step(w, es[0]), es[1..]);
    }
  }

  /** In every state of every run, including those where disabling lands between the two halves of an exchange. */
  lemma {:induction false} DisabledUserHoldsNothing(user: User, es: seq<Event>)
    ensures DisabledHoldsNothing(Run(Initial(user), es).st)
  {
    RunKeepsSound(Initial(user), es);
  }
}
