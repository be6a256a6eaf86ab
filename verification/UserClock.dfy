/** Runs whose calls carry a clock that never goes back: stored serials are contiguous,
    a client has at most twenty live families, codes never outlive their session row. */
module UserClock {
  import opened Options
  import opened UserModel
  import opened UserSound
  import opened UserRuns

  // ---------------------------------------------------------------- assumptions on a run

  /** `t` is the instant of the previous call; lifetimes are not negative (src/config/schema.ts). */
  ghost predicate OnTime(t: Time, e: Event) {
    && (InstantOf(e).Some? ==> t <= InstantOf(e).value)
    && (e.Authorize? ==> e.auth.idleTtl >= 0)
    && (e.Finalize? ==>
         e.fin.idleTtl >= 0
           && (e.fin.session.Create? ==> e.fin.session.newIdleTtl >= 0 && e.fin.session.absoluteTtl >= 0))
    && (e.Refresh? ==> e.rotation.sessionIdleTtl >= 0)
  }

  ghost function After(t: Time, e: Event): Time {
    if InstantOf(e).Some? then InstantOf(e).value else t
  }

  ghost predicate AllOnTime(t: Time, es: seq<Event>)
    decreases |es|
  {
    es != [] ==> OnTime(t, es[0]) && AllOnTime(After(t, es[0]), es[1..])
  }

  ghost function Now(t: Time, es: seq<Event>): Time
    decreases |es|
  {
    if es == [] then t else Now(After(t, es[0]), es[1..])
  }

  // ---------------------------------------------------------------- the token chain

  /** From any stored token up to the current one no serial is missing. */
  ghost predicate Contiguous(st: Store) {
    forall k, s ::
      k in st.tokens && k.family in st.families && st.tokens[k].serial <= s <= st.families[k.family].currentSerial ==>
      HasSerial(st, k.family, s)
  }

  ghost predicate InOrder(st: Store, t: Time) {
    && (forall k :: k in st.tokens ==> st.tokens[k].createdAt <= t)
    && (forall k, l ::
         k in st.tokens && l in st.tokens && k.family == l.family && st.tokens[k].serial <= st.tokens[l].serial ==>
          st.tokens[k].createdAt <= st.tokens[l].createdAt)
  }

  ghost predicate Chain(st: Store, t: Time) { Chained(st) && Contiguous(st) && InOrder(st, t) }

  /** If any token of `l`'s family at or above `k` would be purged, `k` is purged too. */
  lemma PurgeTakesAPrefix(st: Store, t: Time, cutoff: Time, k: TokenKey, l: TokenKey)
    requires Chain(st, t) && k in st.tokens && l in st.tokens && k.family == l.family
      && st.tokens[k].serial <= st.tokens[l].serial
    requires ConsumedBefore(st.tokens, l, cutoff)
    ensures ConsumedBefore(st.tokens, k, cutoff)
  {
    var m :| m in st.tokens && m.family == l.family && st.tokens[m].serial == st.tokens[l].serial + 1
      && st.tokens[m].createdAt < cutoff;
    assert HasSerial(st, k.family, st.tokens[k].serial + 1);
    var n :| n in st.tokens && n.family == k.family && st.tokens[n].serial == st.tokens[k].serial + 1;
  }

  /** Exactly what a purge leaves of the tokens, and that it changes no family it keeps. */
  lemma PurgedTokens(st: Store, now: Time, window: int, k: TokenKey)
    ensures var p := Purge(st, now, window);
      && (k in p.tokens <==> k in st.tokens && k.family in p.families && !ConsumedBefore(st.tokens, k, now - window))
      && (k in p.tokens ==> p.tokens[k] == st.tokens[k])
      && (k.family in p.families ==> k.family in st.families && p.families[k.family] == st.families[k.family])
  {
    hide ConsumedBefore, StaleFamily, StaleSession;
  }

  lemma PurgeKeepsSerial(st: Store, t: Time, now: Time, window: int, k: TokenKey, s: int)
    requires Chain(st, t) && k in Purge(st, now, window).tokens && HasSerial(st, k.family, s)
      && st.tokens[k].serial <= s
    ensures HasSerial(Purge(st, now, window), k.family, s)
  {
    PurgedTokens(st, now, window, k);
    hide Purge, Chain, ConsumedBefore;
    var l :| l in st.tokens && l.family == k.family && st.tokens[l].serial == s;
    PurgedTokens(st, now, window, l);
    if ConsumedBefore(st.tokens, l, now - window) {
      PurgeTakesAPrefix(st, t, now - window, k, l);
    }
  }

  lemma PurgeKeepsContiguous(st: Store, t: Time, now: Time, window: int)
    requires Chain(st, t)
    ensures Contiguous(Purge(st, now, window))
  {
    hide Purge, Chained, InOrder, HasSerial;
    var p := Purge(st, now, window);
    forall k, s | k in p.tokens && k.family in p.families
      && p.tokens[k].serial <= s <= p.families[k.family].currentSerial
      ensures HasSerial(p, k.family, s)
    {
      PurgedTokens(st, now, window, k);
      assert HasSerial(st, k.family, s);
      PurgeKeepsSerial(st, t, now, window, k, s);
    }
  }

  lemma PurgeKeepsInOrder(st: Store, t: Time, now: Time, window: int)
    requires InOrder(st, t)
    ensures InOrder(Purge(st, now, window), t)
  {
    hide ConsumedBefore, StaleFamily, StaleSession;
  }

  lemma PurgeKeepsChain(st: Store, t: Time, now: Time, window: int)
    requires Chain(st, t)
    ensures Chain(PurgeIfDue(st, now, window), t)
  {
    hide Purge, Chained, Contiguous, InOrder;
    if PurgeDue(st, now) {
      PurgeKeepsChained(st, now, window);
      PurgeKeepsContiguous(st, t, now, window);
      PurgeKeepsInOrder(st, t, now, window);
    }
  }

  lemma UnmovedKeepsChain(st: Store, st': Store, t: Time)
    requires Chain(st, t) && st'.tokens == st.tokens && st'.families.Keys == st.families.Keys
    requires forall f :: f in st.families ==> st'.families[f].currentSerial == st.families[f].currentSerial
    ensures Chain(st', t)
  {
    TokensUnmoved(st, st');
    forall k, s | k in st'.tokens && k.family in st'.families
      && st'.tokens[k].serial <= s <= st'.families[k.family].currentSerial
      ensures HasSerial(st', k.family, s)
    {
      assert HasSerial(st, k.family, s);
    }
  }

  lemma DeletingKeepsChain(st: Store, f: FamilyId, t: Time)
    requires Chain(st, t)
    ensures Chain(WithoutFamily(st, f), t)
  {
    hide Chained;
    DeletingKeepsChained(st, f);
    var q := WithoutFamily(st, f);
    forall k, s | k in q.tokens && k.family in q.families
      && q.tokens[k].serial <= s <= q.families[k.family].currentSerial
      ensures HasSerial(q, k.family, s)
    {
      assert HasSerial(st, k.family, s);
      var l :| l in st.tokens && l.family == k.family && st.tokens[l].serial == s;
      assert l in q.tokens;
    }
  }

  lemma MintingKeepsContiguous(st: Store, q: Store, minted: TokenKey, now: Time)
    requires TokensOwned(st) && Contiguous(st) && Mints(st, q, minted, now)
    requires minted.family in st.families ==> HasSerial(st, minted.family, st.families[minted.family].currentSerial)
    ensures Contiguous(q)
  {
    assert minted in q.tokens;
    forall k, s | k in q.tokens && k.family in q.families
      && q.tokens[k].serial <= s <= q.families[k.family].currentSerial
      ensures HasSerial(q, k.family, s)
    {
      if k != minted && !(k.family == minted.family && s == q.families[minted.family].currentSerial) {
        assert k in st.tokens;
        assert HasSerial(st, k.family, s);
        var l :| l in st.tokens && l.family == k.family && st.tokens[l].serial == s;
        assert l in q.tokens;
      }
    }
  }

  lemma MintingKeepsOrder(st: Store, q: Store, minted: TokenKey, t: Time, now: Time)
    requires TokensOwned(st) && InOrder(st, t) && t <= now && Mints(st, q, minted, now)
    ensures InOrder(q, now)
  {
    forall k, l | k in q.tokens && l in q.tokens && k.family == l.family && q.tokens[k].serial <= q.tokens[l].serial
      ensures q.tokens[k].createdAt <= q.tokens[l].createdAt
    {
      assert (k == minted || k in st.tokens) && (l == minted || l in st.tokens);
    }
  }

  lemma MintingKeepsChain(st: Store, q: Store, minted: TokenKey, t: Time, now: Time)
    requires Chain(st, t) && t <= now && Mints(st, q, minted, now)
    ensures Chain(q, now)
  {
    assert TokensOwned(st) && CurrentStored(st);
    assert minted.family in st.families ==> HasSerial(st, minted.family, st.families[minted.family].currentSerial);
    hide TokensOwned, SerialsUnique, CurrentStored, Contiguous, InOrder, HasSerial, Mints;
    MintingKeepsChained(st, q, minted, now);
    MintingKeepsContiguous(st, q, minted, now);
    MintingKeepsOrder(st, q, minted, t, now);
  }

  // ---------------------------------------------------------------- the family cap

  /** Whoever is live afterwards was live before, under the same client. */
  ghost predicate LiveShrinks(st: Store, st': Store, now: Time) {
    forall f :: f in st'.families && LiveFamily(st'.families[f], now) ==>
      f in st.families && LiveFamily(st.families[f], now) && st'.families[f].clientId == st.families[f].clientId
  }

  ghost predicate WithinCap(st: Store, t: Time) {
    forall client :: |LiveOf(st.families, client, t)| <= 20
  }

  lemma Subsets<T>(a: set<T>, b: set<T>)
    requires a <= b
    ensures |a| <= |b|
  {
    assert b == a + (b - a);
  }

  lemma ShrinkingKeepsCap(st: Store, st': Store, t: Time, now: Time)
    requires WithinCap(st, t) && t <= now && LiveShrinks(st, st', now)
    ensures WithinCap(st', now)
  {
    forall client
      ensures |LiveOf(st'.families, client, now)| <= MAX_FAMILIES
    {
      Subsets(LiveOf(st'.families, client, now), LiveOf(st.families, client, t));
    }
  }

  /** The last of a non-empty set in ORDER BY created_at DESC, id DESC. */
  lemma {:induction false} Oldest(families: map<FamilyId, Family>, s: set<FamilyId>) returns (m: FamilyId)
    requires s != {} && s <= families.Keys
    ensures m in s && forall f :: f in s && f != m ==> Newer(families, f, m)
    decreases |s|
  {
    var x :| x in s;
    m := x;
    if s != {x} {
      var n := Oldest(families, s - {x});
      m := if Newer(families, x, n) then n else x;
    }
    forall f | f in s && f != m
      ensures Newer(families, f, m)
    {
      assert f == x || f in s - {x};
    }
  }

  /** The first one. */
  lemma {:induction false} Newest(families: map<FamilyId, Family>, s: set<FamilyId>) returns (m: FamilyId)
    requires s != {} && s <= families.Keys
    ensures m in s && forall f :: f in s && f != m ==> Newer(families, m, f)
    decreases |s|
  {
    var x :| x in s;
    m := x;
    if s != {x} {
      var n := Newest(families, s - {x});
      m := if Newer(families, n, x) then n else x;
    }
    forall f | f in s && f != m
      ensures Newer(families, m, f)
    {
      assert f == x || f in s - {x};
    }
  }

  /** The overflow is exactly what comes after the twenty newest live families of the client. */
  lemma OverflowIsTheTail(families: map<FamilyId, Family>, client: ClientId, now: Time)
    ensures
      var live := LiveOf(families, client, now);
      var kept := live - Overflow(families, client, now);
      && Overflow(families, client, now) <= live
      && |kept| == Min(|live|, 20)
      && (forall f, g :: f in kept && g in Overflow(families, client, now) ==> Newer(families, f, g))
  {
    var live := LiveOf(families, client, now);
    var over := Overflow(families, client, now);
    var kept := live - over;
    Subsets(kept, live);
    if kept != {} {
      var m := Oldest(families, kept);
      var newer := NewerLive(families, client, now, m);
      Subsets(kept - {m}, newer);
      assert |newer| < MAX_FAMILIES;
    }
    if over != {} {
      var x := Newest(families, over);
      Subsets(NewerLive(families, client, now, x), kept);
    } else {
      assert kept == live;
    }
    forall f, g | f in kept && g in over
      ensures Newer(families, f, g)
    {
      if !Newer(families, f, g) {
        Subsets(NewerLive(families, client, now, g), NewerLive(families, client, now, f));
      }
    }
  }

  /** The cap of an exchange revokes exactly the live families of its client beyond the twenty
      newest, and no other row. */
  lemma CapRevokesTheTail(st: Store, client: ClientId, now: Time)
    ensures
      var q := Capped(st, client, now);
      var live, over := LiveOf(st.families, client, now), Overflow(st.families, client, now);
      && q == st.(families := q.families) && q.families.Keys == st.families.Keys
      && (forall f :: f in st.families && f !in over ==> q.families[f] == st.families[f])
      && (forall f :: f in over ==>
           q.families[f].revoked == Some(Revocation(now, "family_limit")) && st.families[f].clientId == client)
      && LiveOf(q.families, client, now) == live - over
      && |LiveOf(q.families, client, now)| == Min(|live|, 20)
      && (forall f, g :: f in live - over && g in over ==> Newer(st.families, f, g))
  {
    OverflowIsTheTail(st.families, client, now);
    hide Overflow;
    var q := Capped(st, client, now);
    assert LiveOf(q.families, client, now) == LiveOf(st.families, client, now) - Overflow(st.families, client, now);
  }

  lemma CapRestoresTheBound(st: Store, client: ClientId, now: Time)
    requires forall other :: other != client ==> |LiveOf(st.families, other, now)| <= MAX_FAMILIES
    ensures WithinCap(Capped(st, client, now), now)
  {
    var over := Overflow(st.families, client, now);
    var q := Capped(st, client, now);
    OverflowIsTheTail(st.families, client, now);
    forall other
      ensures |LiveOf(q.families, other, now)| <= MAX_FAMILIES
    {
      if other == client {
        Subsets(LiveOf(q.families, client, now), LiveOf(st.families, client, now) - over);
      } else {
        Subsets(LiveOf(q.families, other, now), LiveOf(st.families, other, now));
      }
    }
  }

  // ---------------------------------------------------------------- codes and the session rows behind them

  /** A code lives 60 s from its creation. The row of its session is stored all that time, and while it is
      stored it neither expired nor was revoked before the code was created. */
  ghost predicate CodeBacked(st: Store, c: Code, t: Time) {
    && c.createdAt <= t && c.expiresAt == c.createdAt + CODE_TTL
    && (t <= c.expiresAt ==> c.sid in st.sessions)
    && (c.sid in st.sessions ==> UsableAt(st.sessions[c.sid], c.createdAt))
  }

  ghost predicate UsableAt(s: Session, at: Time) {
    s.idleExpiresAt >= at && s.absoluteExpiresAt >= at && (s.revoked.Some? ==> s.revoked.value.at >= at)
  }

  ghost predicate CodesBacked(st: Store, t: Time) {
    forall c :: c in st.codes ==> CodeBacked(st, st.codes[c], t)
  }

  /** Sessions are extended from `now` at the earliest and revoked at `now`; new ones are usable at `now`. */
  ghost predicate SessionsMove(st: Store, st': Store, now: Time) {
    forall s :: s in st'.sessions ==>
      UsableAt(st'.sessions[s], now) || (s in st.sessions && SessionMoves(st.sessions[s], st'.sessions[s], now))
  }

  ghost predicate SessionMoves(a: Session, b: Session, now: Time) {
    && (b.idleExpiresAt >= now || b.idleExpiresAt >= a.idleExpiresAt) && b.absoluteExpiresAt == a.absoluteExpiresAt
    && (b.revoked.Some? ==> b.revoked.value.at >= now || b.revoked == a.revoked)
  }

  /** Only stale sessions are deleted. */
  ghost predicate SessionsStay(st: Store, st': Store, now: Time) {
    forall s :: s in st.sessions && s !in st'.sessions ==> StaleSession(st.sessions[s], now - PURGE_GRACE)
  }

  /** Families keep their creation time, and new ones are created at `now`. */
  ghost predicate FamiliesMove(st: Store, st': Store, now: Time) {
    forall f :: f in st'.families ==>
      st'.families[f].createdAt <= now || (f in st.families && st'.families[f].createdAt == st.families[f].createdAt)
  }

  ghost predicate CodesMove(st: Store, st': Store, now: Time) {
    forall c :: c in st'.codes ==>
      CodeBacked(st', st'.codes[c], now)
        || (c in st.codes && st'.codes[c] == st.codes[c].(consumedAt := st'.codes[c].consumedAt))
  }

  ghost predicate Moves(st: Store, st': Store, now: Time) {
    SessionsMove(st, st', now) && SessionsStay(st, st', now) && CodesMove(st, st', now) && FamiliesMove(st, st', now)
  }

  ghost predicate FamiliesBorn(st: Store, t: Time) { forall f :: f in st.families ==> st.families[f].createdAt <= t }

  lemma MovingKeepsBorn(st: Store, st': Store, t: Time, now: Time)
    requires FamiliesBorn(st, t) && t <= now && FamiliesMove(st, st', now)
    ensures FamiliesBorn(st', now)
  {}

  lemma MovingKeepsCodes(st: Store, st': Store, t: Time, now: Time)
    requires CodesBacked(st, t) && t <= now && Moves(st, st', now)
    ensures CodesBacked(st', now)
  {}

  lemma PurgeMoves(st: Store, now: Time, window: int)
    ensures Moves(st, PurgeIfDue(st, now, window), now) && LiveShrinks(st, PurgeIfDue(st, now, window), now)
  {}

  lemma RevokingMoves(st: Store, sids: set<Sid>, ids: set<FamilyId>, r: Revocation)
    ensures Moves(st, EndSessions(st, sids, r), r.at) && LiveShrinks(st, EndSessions(st, sids, r), r.at)
    ensures Moves(st, WithFamiliesRevoked(st, ids, r), r.at) && LiveShrinks(st, WithFamiliesRevoked(st, ids, r), r.at)
  {}

  lemma IssuingMoves(st: Store, code: CodeInput, sid: Sid, now: Time, idleTtl: int)
    requires sid in st.sessions && st.sessions[sid].revoked.None? && idleTtl >= 0 && code.secretHash !in st.codes
    requires st.sessions[sid].idleExpiresAt >= now && st.sessions[sid].absoluteExpiresAt >= now
    ensures Moves(st, IssueCode(st, code, sid, now, idleTtl), now)
  {}

  lemma WithSessionMoves(p: Store, input: FinalizeInput)
    requires input.idleTtl >= 0
    requires var s := input.session;
      if s.Create? then s.newIdleTtl >= 0 && s.absoluteTtl >= 0
      else s.sid in p.sessions && p.sessions[s.sid].revoked.None? && p.sessions[s.sid].absoluteExpiresAt > input.now
    ensures
      var q := WithSession(p, input);
      && Moves(p, q, input.now) && input.session.sid in q.sessions && q.sessions[input.session.sid].revoked.None?
      && q.sessions[input.session.sid].idleExpiresAt >= input.now
           && q.sessions[input.session.sid].absoluteExpiresAt >= input.now
  {}

  lemma AdvancingMoves(p: Store, input: RotateInput)
    requires FamilyAnswers(p, input) && RotationError(p, input).None? && input.sessionIdleTtl >= 0
    ensures Moves(p, Advanced(p, input), input.now) && LiveShrinks(p, Advanced(p, input), input.now)
  {}

  // ---------------------------------------------------------------- every call

  ghost predicate Timely(st: Store, t: Time) {
    Chain(st, t) && WithinCap(st, t) && CodesBacked(st, t) && FamiliesBorn(st, t)
  }

  /** Liveness shrinks and codes are carried; the chain is shown apart. */
  lemma CarriedKeepsTimely(st: Store, st': Store, t: Time, now: Time)
    requires Timely(st, t) && t <= now && Chain(st', now) && LiveShrinks(st, st', now) && Moves(st, st', now)
    ensures Timely(st', now)
  {
    hide Chain, LiveShrinks, WithinCap, CodesBacked, SessionsMove, SessionsStay, CodesMove;
    ShrinkingKeepsCap(st, st', t, now);
    MovingKeepsCodes(st, st', t, now);
    MovingKeepsBorn(st, st', t, now);
  }

  lemma UnmovedKeepsTimely(st: Store, st': Store, now: Time)
    requires Timely(st, now) && LiveShrinks(st, st', now) && Moves(st, st', now)
    requires st'.tokens == st.tokens && st'.families.Keys == st.families.Keys
    requires forall f :: f in st.families ==> st'.families[f].currentSerial == st.families[f].currentSerial
    ensures Timely(st', now)
  {
    hide Chain, LiveShrinks, Moves, WithinCap, CodesBacked;
    UnmovedKeepsChain(st, st', now);
    CarriedKeepsTimely(st, st', now, now);
  }

  lemma ChainLater(st: Store, t: Time, now: Time)
    requires Chain(st, t) && t <= now
    ensures Chain(st, now)
  {}

  lemma TimelyLater(st: Store, t: Time, now: Time, purged: Option<Time>)
    requires Timely(st, t) && t <= now
    ensures Timely(st.(lastPurgeAt := purged), now)
  {
    ChainLater(st, t, now);
    hide Chain, WithinCap, CodesBacked;
    CarriedKeepsTimely(st, st, t, now);
    UnmovedKeepsTimely(st, st.(lastPurgeAt := purged), now);
  }

  lemma PurgedTimely(st: Store, t: Time, now: Time, window: int)
    requires Timely(st, t) && t <= now
    ensures Timely(PurgeIfDue(st, now, window), now)
  {
    hide Chain, WithinCap, CodesBacked, PurgeIfDue, LiveShrinks, Moves;
    var p := PurgeIfDue(st, now, window);
    PurgeKeepsChain(st, t, now, window);
    ChainLater(p, t, now);
    PurgeMoves(st, now, window);
    CarriedKeepsTimely(st, p, t, now);
  }

  lemma EndedTimely(st: Store, sids: set<Sid>, r: Revocation)
    requires Timely(st, r.at)
    ensures Timely(EndSessions(st, sids, r), r.at)
  {
    hide Timely, LiveShrinks, Moves;
    RevokingMoves(st, sids, {}, r);
    UnmovedKeepsTimely(st, EndSessions(st, sids, r), r.at);
  }

  lemma FamiliesRevokedTimely(st: Store, ids: set<FamilyId>, r: Revocation)
    requires Timely(st, r.at)
    ensures Timely(WithFamiliesRevoked(st, ids, r), r.at)
  {
    hide Timely, LiveShrinks, Moves;
    RevokingMoves(st, {}, ids, r);
    UnmovedKeepsTimely(st, WithFamiliesRevoked(st, ids, r), r.at);
  }

  lemma IssuedTimely(st: Store, code: CodeInput, sid: Sid, now: Time, idleTtl: int)
    requires Timely(st, now)
    requires sid in st.sessions && st.sessions[sid].revoked.None? && idleTtl >= 0 && code.secretHash !in st.codes
    requires st.sessions[sid].idleExpiresAt >= now && st.sessions[sid].absoluteExpiresAt >= now
    ensures Timely(IssueCode(st, code, sid, now, idleTtl), now)
  {
    hide Timely, Moves;
    IssuingMoves(st, code, sid, now, idleTtl);
    UnmovedKeepsTimely(st, IssueCode(st, code, sid, now, idleTtl), now);
  }

  lemma AuthorizeTimely(st: Store, input: AuthorizeInput, t: Time)
    requires Timely(st, t) && t <= input.now && input.idleTtl >= 0
    ensures Timely(AuthorizeWithSession(st, input).0, input.now)
  {
    hide Timely, PurgeIfDue, IssueCode;
    TimelyLater(st, t, input.now, st.lastPurgeAt);
    var p := PurgeIfDue(st, input.now, PURGE_GRACE);
    PurgedTimely(st, t, input.now, PURGE_GRACE);
    TimelyLater(st, t, input.now, p.lastPurgeAt);
    PurgeKeepsRows(st, input.now, PURGE_GRACE);
    if SessionHit(st, input.sid, input.secretHash, input.now) && input.code.Some?
      && input.code.value.secretHash !in p.codes && input.sid in p.sessions {
      IssuedTimely(p, input.code.value, input.sid, input.now, input.idleTtl);
    }
  }

  lemma PurgeKeepsRows(st: Store, now: Time, window: int)
    ensures
      var p := PurgeIfDue(st, now, window);
      && (forall s :: s in p.sessions ==> s in st.sessions && p.sessions[s] == st.sessions[s])
      && (forall f :: f in p.families ==> f in st.families && p.families[f] == st.families[f])
  {}

  lemma SessionTimely(p: Store, input: FinalizeInput)
    requires Timely(p, input.now) && input.idleTtl >= 0
    requires var s := input.session;
      if s.Create? then s.newIdleTtl >= 0 && s.absoluteTtl >= 0
      else s.sid in p.sessions && p.sessions[s.sid].revoked.None? && p.sessions[s.sid].absoluteExpiresAt > input.now
    ensures Timely(WithSession(p, input), input.now)
  {
    hide Timely, Moves;
    WithSessionMoves(p, input);
    UnmovedKeepsTimely(p, WithSession(p, input), input.now);
  }

  lemma FinalizeTimely(st: Store, input: FinalizeInput, t: Time)
    requires Timely(st, t) && OnTime(t, Finalize(input))
    ensures Timely(FinalizeLogin(st, input).0, input.now)
  {
    hide Timely, PurgeIfDue, IssueCode, WithSession, Moves;
    TimelyLater(st, t, input.now, st.lastPurgeAt);
    var p := PurgeIfDue(st, input.now, PURGE_GRACE);
    PurgedTimely(st, t, input.now, PURGE_GRACE);
    TimelyLater(st, t, input.now, p.lastPurgeAt);
    var s := input.session;
    if s.Rotate? ==>
      s.sid in p.sessions && p.sessions[s.sid].revoked.None? && p.sessions[s.sid].absoluteExpiresAt > input.now {
      SessionTimely(p, input);
      WithSessionMoves(p, input);
      var q := WithSession(p, input);
      if input.code.Some? && input.code.value.secretHash !in q.codes {
        IssuedTimely(q, input.code.value, s.sid, input.now, input.idleTtl);
      }
    }
  }

  lemma ConsumedTimely(st: Store, hash: Hash, now: Time)
    requires Timely(st, now) && hash in st.codes
    ensures Timely(Consumed(st, hash, now), now)
  {
    hide Timely;
    UnmovedKeepsTimely(st, Consumed(st, hash, now), now);
  }

  /** Other clients keep their live families; the cap then restores this one's bound. */
  lemma CreatedWithinCap(st: Store, family: Family, r: RefreshInput, now: Time)
    requires WithinCap(st, now) && r.familyId !in st.families
    ensures WithinCap(Capped(WithFamily(st, family, r, now), family.clientId, now), now)
  {
    var w := WithFamily(st, family, r, now);
    forall other | other != family.clientId
      ensures |LiveOf(w.families, other, now)| <= MAX_FAMILIES
    {
      assert LiveOf(w.families, other, now) == LiveOf(st.families, other, now);
    }
    hide WithinCap, Capped;
    CapRestoresTheBound(w, family.clientId, now);
  }

  lemma CreatedKeepsCodes(st: Store, family: Family, r: RefreshInput, now: Time)
    requires CodesBacked(st, now)
    ensures CodesBacked(Capped(WithFamily(st, family, r, now), family.clientId, now), now)
  {
    hide Overflow;
  }

  lemma CreatedTimely(st: Store, family: Family, r: RefreshInput, now: Time)
    requires Timely(st, now) && r.familyId !in st.families && family.currentSerial == 1 && family.createdAt == now
    ensures Timely(Capped(WithFamily(st, family, r, now), family.clientId, now), now)
  {
    hide Chain, WithinCap, CodesBacked, Overflow;
    var w := WithFamily(st, family, r, now);
    CreatedKeepsChain(st, family, r, now);
    UnmovedKeepsChain(w, Capped(w, family.clientId, now), now);
    CreatedWithinCap(st, family, r, now);
    CreatedKeepsCodes(st, family, r, now);
  }

  lemma CreatedKeepsChain(st: Store, family: Family, r: RefreshInput, now: Time)
    requires Chain(st, now) && r.familyId !in st.families && family.currentSerial == 1
    ensures Chain(WithFamily(st, family, r, now), now)
  {
    var minted := TokenKey(r.familyId, r.secretHash);
    assert minted !in st.tokens;
    hide Chained, Contiguous, InOrder;
    MintingKeepsChain(st, WithFamily(st, family, r, now), minted, now, now);
  }

  lemma ExchangeTimely(st: Store, user: User, expected: Option<string>, input: ExchangeInput, t: Time)
    requires Timely(st, t) && t <= input.now
    ensures Timely(ExchangeCommit(st, user, expected, input).0, input.now)
  {
    hide Timely, PurgeIfDue, Consumed, WithFamily, WithFamiliesRevoked, PkceHolds, Allowed, AdminAllowed, Overflow,
      Capped;
    var p := PurgeIfDue(st, input.now, PURGE_GRACE);
    PurgedTimely(st, t, input.now, PURGE_GRACE);
    TimelyLater(st, t, input.now, p.lastPurgeAt);
    var h := input.secretHash;
    FamiliesRevokedTimely(p, FamiliesOfCode(p, h), Revocation(input.now, "code_replay"));
    if Exchangeable(p, user, expected, input) {
      ConsumedTimely(p, h, input.now);
      if input.refresh.Some? && input.refresh.value.familyId !in p.families {
        ConsumedKeepsFamilies(p, h, input.now);
        CreatedTimely(Consumed(p, h, input.now),
          NewFamily(p.codes[h], h, p.sessions[p.codes[h].sid], input.client, input.refresh.value, input.now),
            input.refresh.value, input.now);
      }
    }
  }

  lemma ConsumedKeepsFamilies(st: Store, hash: Hash, now: Time)
    requires hash in st.codes
    ensures Consumed(st, hash, now).families == st.families
  {}

  lemma DeletedTimely(st: Store, f: FamilyId, now: Time)
    requires Timely(st, now)
    ensures Timely(WithoutFamily(st, f), now)
  {
    hide Chain, WithinCap, CodesBacked;
    DeletingKeepsChain(st, f, now);
    CarriedKeepsTimely(st, WithoutFamily(st, f), now, now);
  }

  lemma ReuseTimely(st: Store, f: FamilyId, now: Time)
    requires Timely(st, now) && f in st.families
    ensures Timely(ReuseOf(st, f, now), now)
  {
    hide Timely, WithFamiliesRevoked, EndSessions;
    FamiliesRevokedTimely(st, {f}, Revocation(now, "reuse"));
    if st.families[f].sid.Some? {
      EndedTimely(WithFamiliesRevoked(st, {f}, Revocation(now, "reuse")), {st.families[f].sid.value},
        Revocation(now, "refresh_reuse"));
    }
  }

  lemma AdvancedTimely(p: Store, input: RotateInput)
    requires Timely(p, input.now) && FamilyAnswers(p, input) && RotationError(p, input).None?
      && input.sessionIdleTtl >= 0
    requires TokenKey(input.familyId, input.newSecretHash) !in p.tokens
    ensures Timely(Advanced(p, input), input.now)
  {
    hide Chain, WithinCap, CodesBacked, LiveShrinks, Moves;
    AdvancingMoves(p, input);
    MintingKeepsChain(p, Advanced(p, input), TokenKey(input.familyId, input.newSecretHash), input.now, input.now);
    CarriedKeepsTimely(p, Advanced(p, input), input.now, input.now);
  }

  lemma RotateTimely(st: Store, input: RotateInput, t: Time)
    requires Timely(st, t) && OnTime(t, Refresh(input))
    ensures Timely(RotateRefresh(st, input).0, input.now)
  {
    hide Timely, PurgeIfDue, WithoutFamily, ReuseOf, Advanced;
    var p := PurgeIfDue(st, input.now, input.reuseWindow);
    PurgedTimely(st, t, input.now, input.reuseWindow);
    TimelyLater(st, t, input.now, p.lastPurgeAt);
    if FamilyAnswers(p, input) {
      DeletedTimely(p, input.familyId, input.now);
      ReuseTimely(p, input.familyId, input.now);
      if RotationError(p, input).None? && TokenKey(input.familyId, input.newSecretHash) !in p.tokens {
        AdvancedTimely(p, input);
      }
    }
  }

  lemma EverythingRevokedTimely(st: Store, r: Revocation)
    requires Timely(st, r.at)
    ensures Timely(EverythingRevoked(st, r), r.at)
  {
    hide Timely, WithFamiliesRevoked, EndSessions;
    EndedTimely(st, UnrevokedSids(st), r);
    FamiliesRevokedTimely(EndSessions(st, UnrevokedSids(st), r), st.families.Keys, r);
  }

  lemma UserChangedTimely(st: Store, user: User, now: Time)
    requires Timely(st, now)
    ensures Timely(st.(user := user), now)
  {
    hide Timely;
    UnmovedKeepsTimely(st, st.(user := user), now);
  }

  lemma StepTimely(w: World, e: Event, t: Time)
    requires Timely(w.st, t) && OnTime(t, e)
    ensures Timely(Step(w, e).st, After(t, e))
  {
    hide Timely, SetDisabled, PurgeIfDue, AuthorizeWithSession, FinalizeLogin, EverythingRevoked, ExchangeCommit,
      RotateRefresh, Observed, SeenAfter, EndSessions, WithFamiliesRevoked;
    var st, now := w.st, After(t, e);
    TimelyLater(st, t, now, st.lastPurgeAt);
    match e
    case SetGroups(groups) => UserChangedTimely(st, st.user.(groups := groups), now);
    case Disable(at, _) =>
      UserChangedTimely(st, st.user.(disabledAt := at), now);
      EverythingRevokedTimely(st.(user := st.user.(disabledAt := at)), Revocation(now, "disabled"));
      assert SetDisabled(st, at, now) ==
        (var c := st.(user := st.user.(disabledAt := at));
          if at.Some? then EverythingRevoked(c, Revocation(now, "disabled")) else c) by { DisabledIs(st, at, now); }
    case PurgeCall(_, window) => PurgedTimely(st, t, now, window);
    case Authorize(auth) => AuthorizeTimely(st, auth, t);
    case Finalize(fin) => FinalizeTimely(st, fin, t);
    case EndSession(sid, _, reason) =>
      PurgedTimely(st, t, now, PURGE_GRACE);
      EndedTimely(PurgeIfDue(st, now, PURGE_GRACE), {sid}, Revocation(now, reason));
    case EndOthers(keep, _, reason) =>
      var p := PurgeIfDue(st, now, PURGE_GRACE);
      PurgedTimely(st, t, now, PURGE_GRACE);
      EndedTimely(p, LiveSids(p, now) - (if keep.Some? then {keep.value} else {}), Revocation(now, reason));
    case EndAll(_, reason) => EverythingRevokedTimely(st, Revocation(now, reason));
    case ReadUser(_) =>
    case Commit(request, expected, exchange) =>
      if request in w.pending {
        ExchangeTimely(st, w.pending[request], expected, exchange, t);
      }
    case Refresh(rotation) => RotateTimely(st, rotation, t);
    case RevokeFamily(f, _, reason, _) => FamiliesRevokedTimely(st, {f}, Revocation(now, reason));
    case RevokeClient(client, sid, _, reason) => FamiliesRevokedTimely(st, FamiliesOf(st, client, sid),
      Revocation(now, reason));
    case Evict => TimelyLater(st, t, now, None);
  }

  lemma DisabledIs(st: Store, at: Option<Time>, now: Time)
    ensures SetDisabled(st, at, now) ==
      (var c := st.(user := st.user.(disabledAt := at));
        if at.Some? then EverythingRevoked(c, Revocation(now, "disabled")) else c)
  {}

  lemma {:induction false} RunTimely(w: World, es: seq<Event>, t: Time)
    requires Timely(w.st, t) && AllOnTime(t, es)
    ensures Timely(Run(w, es).st, Now(t, es))
    decreases |es|
  {
    hide Timely, Step, OnTime;
    if es != [] {
      StepTimely(w, es[0], t);
      RunTimely(Step(w, es[0]), es[1..], After(t, es[0]));
    }
  }

  lemma InitialTimely(user: User, t: Time)
    ensures Timely(Initial(user).st, t)
  {
    forall client
      ensures |LiveOf(Initial(user).st.families, client, t)| <= MAX_FAMILIES
    {
      assert LiveOf(Initial(user).st.families, client, t) == {};
    }
  }

  /** With a clock that never goes back: contiguous serials up to the current one, and at most twenty live families a
      client. */
  lemma EveryRunIsTimely(user: User, es: seq<Event>, t: Time)
    requires AllOnTime(t, es)
    ensures
      var st := Run(Initial(user), es).st;
      Contiguous(st) && WithinCap(st, Now(t, es)) && CodesBacked(st, Now(t, es)) && FamiliesBorn(st, Now(t, es))
  {
    InitialTimely(user, t);
    RunTimely(Initial(user), es, t);
  }
}
