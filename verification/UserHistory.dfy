/** Runs whose secrets and ids are minted once: what can happen at most once, in which
    order, and which columns never change. */
module UserHistory {
  import opened Options
  import opened UserModel
  import opened UserSound
  import opened UserRuns

  // ---------------------------------------------------------------- one step, seen from the rows known before it

  ghost predicate Known(seen: Seen, st: Store) {
    && st.sessions.Keys <= seen.sids && st.codes.Keys <= seen.codes && st.families.Keys <= seen.families
         && st.tokens.Keys <= seen.tokens
    && (forall k :: k in seen.tokens ==> k.family in seen.families)
  }

  /** The absolute expiry is fixed and a revocation is never cleared or overwritten. */
  ghost predicate SessionAged(a: Session, b: Session) {
    b.absoluteExpiresAt == a.absoluteExpiresAt && (a.revoked.Some? ==> b.revoked == a.revoked)
  }

  ghost predicate CodeAged(a: Code, b: Code) {
    b == a.(consumedAt := b.consumedAt) && (a.consumedAt.Some? ==> b.consumedAt == a.consumedAt)
  }

  /** As for sessions; besides, only the idle expiry and the serial move. */
  ghost predicate FamilyAged(a: Family, b: Family) {
    b == a.(revoked := b.revoked, idleExpiresAt := b.idleExpiresAt, currentSerial := b.currentSerial) &&
    (a.revoked.Some? ==> b.revoked == a.revoked)
  }

  ghost predicate SessionsAge(seen: Seen, st: Store, st': Store) {
    forall s :: s in st'.sessions && s in seen.sids ==> s in st.sessions && SessionAged(st.sessions[s], st'.sessions[s])
  }

  ghost predicate CodesAge(seen: Seen, st: Store, st': Store) {
    forall c :: c in st'.codes && c in seen.codes ==> c in st.codes && CodeAged(st.codes[c], st'.codes[c])
  }

  ghost predicate FamiliesAge(seen: Seen, st: Store, st': Store) {
    forall f :: f in st'.families && f in seen.families ==>
      f in st.families && FamilyAged(st.families[f], st'.families[f])
  }

  ghost predicate TokensAge(seen: Seen, st: Store, st': Store) {
    forall k :: k in st'.tokens && k in seen.tokens ==> k in st.tokens && st'.tokens[k] == st.tokens[k]
  }

  ghost predicate Ages(seen: Seen, st: Store, st': Store) {
    SessionsAge(seen, st, st') && CodesAge(seen, st, st') && FamiliesAge(seen, st, st') && TokensAge(seen, st, st')
  }

  ghost predicate SerialsKept(st: Store, st': Store) {
    forall f :: f in st'.families && f in st.families ==> st'.families[f].currentSerial == st.families[f].currentSerial
  }

  ghost predicate NoNewRows(st: Store, st': Store) {
    && st'.sessions.Keys <= st.sessions.Keys && st'.codes.Keys <= st.codes.Keys
    && st'.families.Keys <= st.families.Keys && st'.tokens.Keys <= st.tokens.Keys
  }

  /** Rows are only aged or deleted. */
  ghost predicate Quiet(seen: Seen, st: Store, st': Store) {
    Ages(seen, st, st') && SerialsKept(st, st') && NoNewRows(st, st')
  }

  lemma PurgeIsQuiet(seen: Seen, st: Store, now: Time, window: int)
    ensures Quiet(seen, st, PurgeIfDue(st, now, window))
  {}

  lemma EndingIsQuiet(seen: Seen, st: Store, sids: set<Sid>, r: Revocation)
    ensures Quiet(seen, st, EndSessions(st, sids, r))
  {}

  lemma RevokingIsQuiet(seen: Seen, st: Store, ids: set<FamilyId>, r: Revocation)
    ensures Quiet(seen, st, WithFamiliesRevoked(st, ids, r))
  {}

  lemma QuietTransitive(seen: Seen, a: Store, b: Store, c: Store)
    requires Quiet(seen, a, b) && Quiet(seen, b, c)
    ensures Quiet(seen, a, c)
  {}

  lemma EverythingRevokedIsQuiet(seen: Seen, st: Store, r: Revocation)
    ensures Quiet(seen, st, EverythingRevoked(st, r))
  {
    hide Quiet, EndSessions, WithFamiliesRevoked;
    var ended := EndSessions(st, UnrevokedSids(st), r);
    EndingIsQuiet(seen, st, UnrevokedSids(st), r);
    RevokingIsQuiet(seen, ended, st.families.Keys, r);
    QuietTransitive(seen, st, ended, EverythingRevoked(st, r));
  }

  lemma DisableIsQuiet(seen: Seen, st: Store, at: Option<Time>, now: Time)
    ensures Quiet(seen, st, SetDisabled(st, at, now))
  {
    var changed := st.(user := st.user.(disabledAt := at));
    assert Quiet(seen, st, changed);
    EverythingRevokedIsQuiet(seen, changed, Revocation(now, "disabled"));
    QuietTransitive(seen, st, changed, EverythingRevoked(changed, Revocation(now, "disabled")));
  }

  // ---------------------------------------------------------------- the effect of one step

  ghost predicate Unspent(st: Store, c: Hash) { c in st.codes && st.codes[c].consumedAt.None? }

  ghost predicate Spent(st: Store, c: Hash) { c in st.codes ==> st.codes[c].consumedAt.Some? }

  ghost predicate FamilyDead(st: Store, f: FamilyId) { f in st.families ==> st.families[f].revoked.Some? }

  ghost predicate Unrevoked(st: Store, sid: Option<Sid>) {
    sid.Some? ==> sid.value in st.sessions && st.sessions[sid.value].revoked.None?
  }

  /** A session-bound family ends with its session, while that row exists. */
  ghost predicate EndsWithSession(st: Store, family: Family) {
    family.sid.Some? && family.sid.value in st.sessions ==>
      family.absoluteExpiresAt == st.sessions[family.sid.value].absoluteExpiresAt
  }

  /** The session is over and nothing bound to it is left. */
  ghost predicate SessionDead(st: Store, sid: Sid) {
    && (sid in st.sessions ==> st.sessions[sid].revoked.Some?)
    && (forall g :: g in st.families && st.families[g].sid == Some(sid) ==> st.families[g].revoked.Some?)
  }

  ghost predicate CodeDead(st: Store, c: Hash) {
    Spent(st, c) && forall g :: g in st.families && st.families[g].codeHash == c ==> st.families[g].revoked.Some?
  }

  /** A new row appears only with the entry that reports it. */
  ghost predicate NewRows(seen: Seen, st: Store, st': Store, obs: seq<Entry>) {
    && (forall c :: c in st'.codes && c !in seen.codes ==> obs == [CodeIssued(c, st'.codes[c].scope)])
    && (forall f :: f in st'.families && f !in seen.families ==>
          && obs == [CodeExchanged(st'.families[f].codeHash, Some(f), st'.families[f].scope)]
          && st'.families[f].currentSerial == 1
          && Unrevoked(st, st'.families[f].sid) && EndsWithSession(st, st'.families[f]))
  }

  ghost predicate Rotates(obs: seq<Entry>, f: FamilyId) { |obs| == 1 && obs[0].TokenRotated? && obs[0].family == f }

  ghost predicate SerialsCount(seen: Seen, st: Store, st': Store, obs: seq<Entry>) {
    forall f :: f in st'.families && f in seen.families && f in st.families ==>
      st'.families[f].currentSerial == st.families[f].currentSerial + (if Rotates(obs, f) then 1 else 0)
  }

  /** What a reported entry says of the tables before and after. */
  ghost predicate Reported(seen: Seen, st: Store, st': Store, e: Entry) {
    match e
    case CodeIssued(c, scope) => c !in seen.codes && c in st'.codes
    case CodeExchanged(c, created, scope) =>
      && Unspent(st, c) && scope == st.codes[c].scope && Spent(st', c)
      && (created.Some? ==> created.value !in seen.families && created.value in st'.families)
    case CodeReplayed(c) => c in st.codes && CodeDead(st', c)
    case TokenRotated(f, h, serial, scope, sid) =>
      && f in st.families && st.families[f].revoked.None? && serial == st.families[f].currentSerial + 1
      && TokenKey(f, h) in st.tokens && st.tokens[TokenKey(f, h)].serial == st.families[f].currentSerial
      && Subset(scope, st.families[f].scope) && sid == st.families[f].sid && Unrevoked(st, sid)
    case ReuseSeen(f, sid) =>
      f in st.families && sid == st.families[f].sid && FamilyDead(st', f) && (sid.Some? ==> SessionDead(st', sid.value))
  }

  ghost predicate Evolves(seen: Seen, st: Store, st': Store, obs: seq<Entry>) {
    && Ages(seen, st, st') && NewRows(seen, st, st', obs) && SerialsCount(seen, st, st', obs)
    && (obs == [] || (|obs| == 1 && Reported(seen, st, st', obs[0])))
  }

  lemma QuietEvolves(seen: Seen, st: Store, st': Store)
    requires Known(seen, st) && Quiet(seen, st, st')
    ensures Evolves(seen, st, st', [])
  {}

  lemma AgesTransitive(seen: Seen, a: Store, b: Store, c: Store)
    requires Ages(seen, a, b) && Ages(seen, b, c)
    ensures Ages(seen, a, c)
  {}

  lemma ReportedOfPurged(seen: Seen, st: Store, p: Store, st': Store, e: Entry)
    requires Known(seen, st) && Quiet(seen, st, p) && Reported(seen, p, st', e)
    ensures Reported(seen, st, st', e)
  {}

  lemma CountsOfPurged(seen: Seen, st: Store, p: Store, st': Store, obs: seq<Entry>)
    requires Known(seen, st) && Quiet(seen, st, p) && Ages(seen, p, st') && NewRows(seen, p, st', obs)
      && SerialsCount(seen, p, st', obs)
    ensures NewRows(seen, st, st', obs) && SerialsCount(seen, st, st', obs)
  {}

  /** A purge before the effect changes nothing that the effect reports. */
  lemma PurgedFirst(seen: Seen, st: Store, p: Store, st': Store, obs: seq<Entry>)
    requires Known(seen, st) && Quiet(seen, st, p) && Evolves(seen, p, st', obs)
    ensures Evolves(seen, st, st', obs)
  {
    hide Ages, NewRows, SerialsCount, Reported, Known, NoNewRows, SerialsKept;
    AgesTransitive(seen, st, p, st');
    CountsOfPurged(seen, st, p, st', obs);
    if obs != [] {
      ReportedOfPurged(seen, st, p, st', obs[0]);
    }
  }

  // ---------------------------------------------------------------- every call is such a step

  lemma IssuingEvolves(seen: Seen, st: Store, code: CodeInput, sid: Sid, now: Time, idleTtl: int)
    requires Known(seen, st) && sid in st.sessions && code.secretHash !in seen.codes
    ensures Evolves(seen, st, IssueCode(st, code, sid, now, idleTtl), [CodeIssued(code.secretHash, code.scope)])
  {
    SameAges(seen, st);
    SessionThenCodeEvolves(seen, st, st, code, sid, now, idleTtl);
  }

  lemma SameAges(seen: Seen, st: Store)
    requires Known(seen, st)
    ensures Ages(seen, st, st)
  {}

  lemma AuthorizeEvolves(seen: Seen, st: Store, input: AuthorizeInput)
    requires Known(seen, st) && (input.code.Some? ==> input.code.value.secretHash !in seen.codes)
    ensures
      var (st', out) := AuthorizeWithSession(st, input);
      Evolves(seen, st, st', if out.Authorized? && input.code.Some?
        then [CodeIssued(input.code.value.secretHash, input.code.value.scope)] else [])
  {
    hide Evolves, PurgeIfDue, IssueCode, Quiet, Known;
    SameIsQuiet(seen, st, st.lastPurgeAt);
    QuietEvolves(seen, st, st);
    var p := PurgeIfDue(st, input.now, PURGE_GRACE);
    PurgeIsQuiet(seen, st, input.now, PURGE_GRACE);
    QuietKeepsKnown(seen, st, p);
    SameIsQuiet(seen, st, p.lastPurgeAt);
    QuietEvolves(seen, st, RolledBack(st, p));
    if input.code.Some? && input.sid in p.sessions {
      IssuingEvolves(seen, p, input.code.value, input.sid, input.now, input.idleTtl);
      PurgedFirst(seen, st, p, IssueCode(p, input.code.value, input.sid, input.now, input.idleTtl),
                  [CodeIssued(input.code.value.secretHash, input.code.value.scope)]);
    }
  }

  lemma SameIsQuiet(seen: Seen, st: Store, purged: Option<Time>)
    ensures Quiet(seen, st, st.(lastPurgeAt := purged))
  {}

  lemma QuietKeepsKnown(seen: Seen, st: Store, st': Store)
    requires Known(seen, st) && Quiet(seen, st, st')
    ensures Known(seen, st')
  {}

  lemma SessionEvolves(seen: Seen, p: Store, input: FinalizeInput)
    requires Known(seen, p)
    requires input.session.Rotate? ==> input.session.sid in p.sessions
    requires input.session.Create? ==> input.session.sid !in seen.sids
    ensures Evolves(seen, p, WithSession(p, input), [])
  {}

  lemma SessionThenCodeEvolves(seen: Seen, p: Store, q: Store, code: CodeInput, sid: Sid, now: Time, idleTtl: int)
    requires Known(seen, p) && code.secretHash !in seen.codes && sid in q.sessions
    requires Ages(seen, p, q) && q.codes == p.codes && q.families == p.families && q.tokens == p.tokens
    ensures Evolves(seen, p, IssueCode(q, code, sid, now, idleTtl), [CodeIssued(code.secretHash, code.scope)])
  {
    var i := IssueCode(q, code, sid, now, idleTtl);
    IssuingAgesSessions(seen, q, code, sid, now, idleTtl);
    IssuingTables(q, code, sid, now, idleTtl);
    SessionsAgeOn(seen, p, q, i);
    hide IssueCode, SessionsAge, SessionAged, CodeAged, FamilyAged;
  }

  lemma SessionsAgeOn(seen: Seen, a: Store, b: Store, c: Store)
    requires SessionsAge(seen, a, b) && SessionsAge(seen, b, c)
    ensures SessionsAge(seen, a, c)
  {}

  lemma IssuingAgesSessions(seen: Seen, st: Store, code: CodeInput, sid: Sid, now: Time, idleTtl: int)
    requires sid in st.sessions
    ensures SessionsAge(seen, st, IssueCode(st, code, sid, now, idleTtl))
  {}

  lemma IssuingTables(st: Store, code: CodeInput, sid: Sid, now: Time, idleTtl: int)
    requires sid in st.sessions
    ensures var i := IssueCode(st, code, sid, now, idleTtl);
      && i.families == st.families && i.tokens == st.tokens
      && i.codes == st.codes[code.secretHash := i.codes[code.secretHash]]
           && i.codes[code.secretHash].scope == code.scope
  {}

  lemma WithSessionTables(p: Store, input: FinalizeInput)
    requires input.session.Rotate? ==> input.session.sid in p.sessions
    ensures var q := WithSession(p, input);
      q.codes == p.codes && q.families == p.families && q.tokens == p.tokens && input.session.sid in q.sessions
  {}

  lemma EvolvesAges(seen: Seen, p: Store, q: Store)
    requires Evolves(seen, p, q, [])
    ensures Ages(seen, p, q)
  {}

  lemma FinalizeEvolves(seen: Seen, st: Store, input: FinalizeInput)
    requires Known(seen, st) && (input.code.Some? ==> input.code.value.secretHash !in seen.codes)
    requires input.session.Create? ==> input.session.sid !in seen.sids
    ensures
      var (st', out) := FinalizeLogin(st, input);
      Evolves(seen, st, st', if out.Finalized? && input.code.Some?
        then [CodeIssued(input.code.value.secretHash, input.code.value.scope)] else [])
  {
    hide Evolves, PurgeIfDue, IssueCode, WithSession, Quiet, Known;
    SameIsQuiet(seen, st, st.lastPurgeAt);
    QuietEvolves(seen, st, st);
    var p := PurgeIfDue(st, input.now, PURGE_GRACE);
    PurgeIsQuiet(seen, st, input.now, PURGE_GRACE);
    QuietEvolves(seen, st, p);
    QuietKeepsKnown(seen, st, p);
    SameIsQuiet(seen, st, p.lastPurgeAt);
    QuietEvolves(seen, st, RolledBack(st, p));
    if input.session.Rotate? ==> input.session.sid in p.sessions {
      SessionEvolves(seen, p, input);
      var q := WithSession(p, input);
      PurgedFirst(seen, st, p, q, []);
      if input.code.Some? {
        WithSessionTables(p, input);
        EvolvesAges(seen, p, q);
        SessionThenCodeEvolves(seen, p, q, input.code.value, input.session.sid, input.now, input.idleTtl);
        PurgedFirst(seen, st, p, IssueCode(q, input.code.value, input.session.sid, input.now, input.idleTtl),
                    [CodeIssued(input.code.value.secretHash, input.code.value.scope)]);
      }
    }
  }

  lemma ReplayEvolves(seen: Seen, p: Store, hash: Hash, r: Revocation)
    requires Known(seen, p) && hash in p.codes && p.codes[hash].consumedAt.Some?
    ensures Evolves(seen, p, WithFamiliesRevoked(p, FamiliesOfCode(p, hash), r), [CodeReplayed(hash)])
  {}

  lemma ConsumingEvolves(seen: Seen, p: Store, hash: Hash, now: Time)
    requires Known(seen, p) && Unspent(p, hash)
    ensures Evolves(seen, p, Consumed(p, hash, now), [CodeExchanged(hash, None, p.codes[hash].scope)])
  {}

  lemma CreatingEvolves(seen: Seen, p: Store, hash: Hash, family: Family, r: RefreshInput, now: Time)
    requires Known(seen, p) && Unspent(p, hash) && r.familyId !in seen.families
    requires family.codeHash == hash && family.scope == p.codes[hash].scope && family.currentSerial == 1
    requires Unrevoked(p, family.sid) && EndsWithSession(p, family)
    ensures TokenKey(r.familyId, r.secretHash) !in p.tokens ==>
      Evolves(seen, p, WithFamily(Consumed(p, hash, now), family, r, now),
        [CodeExchanged(hash, Some(r.familyId), p.codes[hash].scope)])
  {}

  /** Revoking families after an exchange leaves its report true. */
  lemma RevokedAfterwards(seen: Seen, st: Store, q: Store, ids: set<FamilyId>, r: Revocation, e: Entry)
    requires Evolves(seen, st, q, [e]) && e.CodeExchanged?
    ensures Evolves(seen, st, WithFamiliesRevoked(q, ids, r), [e])
  {
    var st' := WithFamiliesRevoked(q, ids, r);
    RevokedStillReported(seen, st, q, ids, r, e);
    RevokedStillNew(seen, st, q, ids, r, [e]);
    hide NewRows, SerialsCount, Reported;
    assert FamiliesAge(seen, st, st');
  }

  lemma RevokedStillReported(seen: Seen, st: Store, q: Store, ids: set<FamilyId>, r: Revocation, e: Entry)
    requires Reported(seen, st, q, e) && e.CodeExchanged?
    ensures Reported(seen, st, WithFamiliesRevoked(q, ids, r), e)
  {}

  lemma RevokedStillNew(seen: Seen, st: Store, q: Store, ids: set<FamilyId>, r: Revocation, obs: seq<Entry>)
    requires NewRows(seen, st, q, obs) && SerialsCount(seen, st, q, obs)
    ensures NewRows(seen, st, WithFamiliesRevoked(q, ids, r), obs)
      && SerialsCount(seen, st, WithFamiliesRevoked(q, ids, r), obs)
  {
    hide Unrevoked, Rotates;
  }

  lemma CommitEvolves(seen: Seen, st: Store, user: User, expected: Option<string>, input: ExchangeInput)
    requires Known(seen, st) && (input.refresh.Some? ==> input.refresh.value.familyId !in seen.families)
    ensures
      var (st', out) := ExchangeCommit(st, user, expected, input);
      Evolves(seen, st, st',
        if out.Exchanged? then [CodeExchanged(input.secretHash, out.family, out.grant.scope)]
        else if out.Replayed? then [CodeReplayed(input.secretHash)] else [])
  {
    hide Evolves, PurgeIfDue, Quiet, Known, WithFamiliesRevoked, Consumed, WithFamily, Overflow, PkceHolds, Allowed,
      AdminAllowed;
    var p := PurgeIfDue(st, input.now, PURGE_GRACE);
    PurgeIsQuiet(seen, st, input.now, PURGE_GRACE);
    QuietEvolves(seen, st, p);
    QuietKeepsKnown(seen, st, p);
    SameIsQuiet(seen, st, p.lastPurgeAt);
    QuietEvolves(seen, st, RolledBack(st, p));
    var h := input.secretHash;
    if h in p.codes && p.codes[h].consumedAt.Some? {
      var r := Revocation(input.now, "code_replay");
      ReplayEvolves(seen, p, h, r);
      PurgedFirst(seen, st, p, WithFamiliesRevoked(p, FamiliesOfCode(p, h), r), [CodeReplayed(h)]);
    } else if Exchangeable(p, user, expected, input) {
      var code := p.codes[h];
      var q := Consumed(p, h, input.now);
      ConsumingEvolves(seen, p, h, input.now);
      PurgedFirst(seen, st, p, q, [CodeExchanged(h, None, code.scope)]);
      if input.refresh.Some? {
        var r := input.refresh.value;
        var family := NewFamily(code, h, p.sessions[code.sid], input.client, r, input.now);
        if TokenKey(r.familyId, r.secretHash) !in p.tokens {
          CreatingEvolves(seen, p, h, family, r, input.now);
          var w := WithFamily(q, family, r, input.now);
          PurgedFirst(seen, st, p, w, [CodeExchanged(h, Some(r.familyId), code.scope)]);
          RevokedAfterwards(seen, st, w, Overflow(w.families, input.client.clientId, input.now),
            Revocation(input.now, "family_limit"),
                            CodeExchanged(h, Some(r.familyId), code.scope));
        }
      }
    }
  }

  lemma DeletingIsQuiet(seen: Seen, st: Store, f: FamilyId)
    ensures Quiet(seen, st, WithoutFamily(st, f))
  {}

  lemma ReuseIsQuiet(seen: Seen, p: Store, f: FamilyId, now: Time)
    requires f in p.families
    ensures Quiet(seen, p, ReuseOf(p, f, now))
  {
    hide Quiet, EndSessions, WithFamiliesRevoked;
    var dead := WithFamiliesRevoked(p, {f}, Revocation(now, "reuse"));
    RevokingIsQuiet(seen, p, {f}, Revocation(now, "reuse"));
    if p.families[f].sid.Some? {
      EndingIsQuiet(seen, dead, {p.families[f].sid.value}, Revocation(now, "refresh_reuse"));
      QuietTransitive(seen, p, dead, ReuseOf(p, f, now));
    }
  }

  lemma ReuseKills(p: Store, f: FamilyId, now: Time)
    requires Coupled(p) && f in p.families
    ensures FamilyDead(ReuseOf(p, f, now), f)
    ensures p.families[f].sid.Some? ==> SessionDead(ReuseOf(p, f, now), p.families[f].sid.value)
  {}

  lemma ReuseEvolves(seen: Seen, p: Store, f: FamilyId, now: Time)
    requires Known(seen, p) && Sound(p) && f in p.families
    ensures Evolves(seen, p, ReuseOf(p, f, now), [ReuseSeen(f, p.families[f].sid)])
  {
    hide ReuseOf, Sound, DisabledHoldsNothing, IdleWithinAbsolute, Chained, Coupled;
    assert Coupled(p) by { SoundCoupled(p); }
    ReuseIsQuiet(seen, p, f, now);
    ReuseKills(p, f, now);
  }

  lemma SoundCoupled(p: Store)
    requires Sound(p)
    ensures Coupled(p)
  {}

  ghost predicate Rotatable(p: Store, input: RotateInput) {
    && FamilyAnswers(p, input) && RotationError(p, input).None?
    && TokenKey(input.familyId, input.secretHash) in p.tokens
    && p.tokens[TokenKey(input.familyId, input.secretHash)].serial == p.families[input.familyId].currentSerial
  }

  ghost function RotationEntry(p: Store, input: RotateInput): Entry
    requires input.familyId in p.families
  {
    var family := p.families[input.familyId];
    TokenRotated(input.familyId, input.secretHash, family.currentSerial + 1, GrantedScope(family, input.requestedScope),
      family.sid)
  }

  lemma AdvancingAgesSessions(seen: Seen, p: Store, input: RotateInput)
    requires input.familyId in p.families
    requires var sid := p.families[input.familyId].sid; sid.Some? ==> sid.value in p.sessions
    requires p.sessions.Keys <= seen.sids
    ensures var q := Advanced(p, input); SessionsAge(seen, p, q) && q.codes == p.codes
  {}

  lemma AdvancingAgesFamilies(seen: Seen, p: Store, input: RotateInput)
    requires input.familyId in p.families
    requires var sid := p.families[input.familyId].sid; sid.Some? ==> sid.value in p.sessions
    ensures
      var f, q := input.familyId, Advanced(p, input);
      && FamiliesAge(seen, p, q) && q.families.Keys == p.families.Keys
      && q.tokens == p.tokens[TokenKey(f, input.newSecretHash) := Token(q.families[f].currentSerial, input.now)]
      && (forall g :: g in p.families ==>
            q.families[g].currentSerial == p.families[g].currentSerial + if g == f then 1 else 0)
  {}

  lemma AdvancingAges(seen: Seen, p: Store, input: RotateInput)
    requires Known(seen, p) && Rotatable(p, input) && TokenKey(input.familyId, input.newSecretHash) !in seen.tokens
    ensures
      var st' := Advanced(p, input);
      Ages(seen, p, st') && st'.codes == p.codes && st'.families.Keys == p.families.Keys
        && SerialsCount(seen, p, st', [RotationEntry(p, input)])
  {
    AdvancingAgesSessions(seen, p, input);
    AdvancingAgesFamilies(seen, p, input);
    hide Advanced, SessionsAge, FamiliesAge, Subset, LiveFamily, LiveSession, Allowed, AdminAllowed, GrantedScope;
  }

  lemma AdvancingEvolves(seen: Seen, p: Store, input: RotateInput)
    requires Known(seen, p) && Rotatable(p, input) && TokenKey(input.familyId, input.newSecretHash) !in seen.tokens
    ensures Evolves(seen, p, Advanced(p, input), [RotationEntry(p, input)])
  {
    AdvancingAges(seen, p, input);
    hide Ages, SerialsCount, Advanced;
  }

  lemma RefreshEvolves(seen: Seen, st: Store, input: RotateInput)
    requires Known(seen, st) && Sound(st) && TokenKey(input.familyId, input.newSecretHash) !in seen.tokens
    ensures
      var (st', out) := RotateRefresh(st, input);
      && (out.ReuseDetected? ==> input.familyId in st.families)
      && Evolves(seen, st, st',
        if out.Rotated?
          then [TokenRotated(input.familyId, input.secretHash, out.serial, out.grant.scope, out.grant.sid)]
        else if out.ReuseDetected? then [ReuseSeen(input.familyId, st.families[input.familyId].sid)] else [])
  {
    hide Evolves, PurgeIfDue, Quiet, Known, Sound, Advanced, WithoutFamily, ReuseOf;
    var p := PurgeIfDue(st, input.now, input.reuseWindow);
    PurgeIsQuiet(seen, st, input.now, input.reuseWindow);
    QuietEvolves(seen, st, p);
    QuietKeepsKnown(seen, st, p);
    QuietKeepsSid(seen, st, p);
    SameIsQuiet(seen, st, p.lastPurgeAt);
    QuietEvolves(seen, st, RolledBack(st, p));
    PurgeIfDueKeepsSound(st, input.now, input.reuseWindow);
    var f := input.familyId;
    if FamilyAnswers(p, input) {
      var family := p.families[f];
      DeletingIsQuiet(seen, p, f);
      QuietTransitive(seen, st, p, WithoutFamily(p, f));
      QuietEvolves(seen, st, WithoutFamily(p, f));
      ReuseEvolves(seen, p, f, input.now);
      PurgedFirst(seen, st, p, ReuseOf(p, f, input.now), [ReuseSeen(f, family.sid)]);
      var key := TokenKey(f, input.secretHash);
      if key in p.tokens && p.tokens[key].serial == family.currentSerial && RotationError(p, input).None? {
        AdvancingEvolves(seen, p, input);
        PurgedFirst(seen, st, p, Advanced(p, input), [RotationEntry(p, input)]);
      }
    }
  }

  lemma QuietKeepsSid(seen: Seen, st: Store, p: Store)
    requires Known(seen, st) && Quiet(seen, st, p)
    ensures forall f :: f in p.families ==> f in st.families && p.families[f].sid == st.families[f].sid
  {}

  /** Every step with fresh secrets ages the known rows and reports every new one. */
  lemma StepEvolves(w: World, e: Event)
    requires Known(w.seen, w.st) && Sound(w.st) && Fresh(w, e)
    ensures Evolves(w.seen, w.st, NextStore(w, e), Observed(w, e))
  {
    hide Evolves, Quiet, Sound, Known, SetDisabled, PurgeIfDue, AuthorizeWithSession, FinalizeLogin, EverythingRevoked,
      ExchangeCommit, RotateRefresh, EndSessions, WithFamiliesRevoked;
    SameIsQuiet(w.seen, w.st, w.st.lastPurgeAt);
    match e
    case Authorize(auth) => AuthorizeEvolves(w.seen, w.st, auth);
    case Finalize(fin) => FinalizeEvolves(w.seen, w.st, fin);
    case Commit(request, expected, exchange) =>
      if request in w.pending {
        CommitEvolves(w.seen, w.st, w.pending[request], expected, exchange);
      } else {
        QuietEvolves(w.seen, w.st, w.st);
      }
    case Refresh(rotation) => RefreshEvolves(w.seen, w.st, rotation);
    case _ =>
      QuietStep(w, e);
      QuietEvolves(w.seen, w.st, NextStore(w, e));
  }

  lemma QuietStep(w: World, e: Event)
    requires !e.Authorize? && !e.Finalize? && !e.Commit? && !e.Refresh?
    ensures Quiet(w.seen, w.st, NextStore(w, e))
  {
    hide Quiet, SetDisabled, PurgeIfDue, EverythingRevoked, EndSessions, WithFamiliesRevoked;
    var seen, st := w.seen, w.st;
    SameIsQuiet(seen, st, st.lastPurgeAt);
    match e
    case SetGroups(groups) => GroupsAreQuiet(seen, st, groups);
    case Disable(at, now) => DisableIsQuiet(seen, st, at, now);
    case PurgeCall(now, window) => PurgeIsQuiet(seen, st, now, window);
    case EndSession(sid, now, reason) =>
      var p := PurgeIfDue(st, now, PURGE_GRACE);
      PurgeIsQuiet(seen, st, now, PURGE_GRACE);
      EndingIsQuiet(seen, p, {sid}, Revocation(now, reason));
      QuietTransitive(seen, st, p, EndSessions(p, {sid}, Revocation(now, reason)));
    case EndOthers(keep, now, reason) =>
      var p := PurgeIfDue(st, now, PURGE_GRACE);
      var sids := LiveSids(p, now) - (if keep.Some? then {keep.value} else {});
      PurgeIsQuiet(seen, st, now, PURGE_GRACE);
      EndingIsQuiet(seen, p, sids, Revocation(now, reason));
      QuietTransitive(seen, st, p, EndSessions(p, sids, Revocation(now, reason)));
    case EndAll(now, reason) => EverythingRevokedIsQuiet(seen, st, Revocation(now, reason));
    case ReadUser(request) =>
    case RevokeFamily(f, now, reason, client) => RevokingIsQuiet(seen, st, {f}, Revocation(now, reason));
    case RevokeClient(client, sid, now, reason) => RevokingIsQuiet(seen, st, FamiliesOf(st, client, sid),
      Revocation(now, reason));
    case Evict => SameIsQuiet(seen, st, None);
  }

  lemma GroupsAreQuiet(seen: Seen, st: Store, groups: set<string>)
    ensures Quiet(seen, st, st.(user := st.user.(groups := groups)))
  {}
}
