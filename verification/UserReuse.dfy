/** Reuse detection: a consumed refresh token is kept, and its presentation caught, for as
    long as the shortest purge window of the run. */
module UserReuse {
  import opened Options
  import opened UserModel
  import opened UserSound
  import opened UserRuns
  import opened UserHistory
  import opened UserLedger
  import opened UserClock
  import opened UserCases

  /** Every purge of the run keeps consumed tokens for at least `window` seconds. */
  ghost predicate KeepsFor(window: int, e: Event) {
    && window <= PURGE_GRACE
    && (e.PurgeCall? ==> window <= e.window)
    && (e.Refresh? ==> window <= e.rotation.reuseWindow)
  }

  ghost predicate AllKeepFor(window: int, es: seq<Event>) {
    forall i :: 0 <= i < |es| ==> KeepsFor(window, es[i])
  }

  /** While its family is stored, only tokens consumed before `cutoff` are deleted. */
  ghost predicate TokensKept(st: Store, st': Store, cutoff: Time) {
    forall k :: k in st.tokens && k.family in st'.families && !ConsumedBefore(st.tokens, k, cutoff) ==>
      k in st'.tokens && st'.tokens[k] == st.tokens[k]
  }

  lemma PurgeKeepsTokens(st: Store, now: Time, window: int, least: int)
    requires least <= window
    ensures TokensKept(st, PurgeIfDue(st, now, window), now - least)
  {}

  lemma AuthorizeKeepsTokens(st: Store, input: AuthorizeInput, least: int)
    requires least <= PURGE_GRACE
    ensures TokensKept(st, AuthorizeWithSession(st, input).0, input.now - least)
  {
    hide PurgeIfDue;
    PurgeKeepsTokens(st, input.now, PURGE_GRACE, least);
  }

  lemma FinalizeKeepsTokens(st: Store, input: FinalizeInput, least: int)
    requires least <= PURGE_GRACE
    ensures TokensKept(st, FinalizeLogin(st, input).0, input.now - least)
  {
    FinalizeLeavesTokens(st, input);
    PurgeKeepsTokens(st, input.now, PURGE_GRACE, least);
    hide PurgeIfDue, FinalizeLogin, ConsumedBefore;
  }

  lemma FinalizeLeavesTokens(st: Store, input: FinalizeInput)
    ensures
      var p, st' := PurgeIfDue(st, input.now, PURGE_GRACE), FinalizeLogin(st, input).0;
      (st'.tokens == p.tokens && st'.families == p.families) || (st'.tokens == st.tokens && st'.families == st.families)
  {
    FinalizeCases(st, input);
    hide PurgeIfDue, FinalizeLogin, IssueCode, WithSession;
    var p, out := PurgeIfDue(st, input.now, PURGE_GRACE), FinalizeLogin(st, input).1;
    if out.Finalized? {
      WithSessionTables(p, input);
      if input.code.Some? {
        IssuingLeavesTokens(WithSession(p, input), input.code.value, input.session.sid, input.now, input.idleTtl);
      }
    }
  }

  lemma IssuingLeavesTokens(st: Store, code: CodeInput, sid: Sid, now: Time, idleTtl: int)
    requires sid in st.sessions
    ensures var i := IssueCode(st, code, sid, now, idleTtl); i.tokens == st.tokens && i.families == st.families
  {}

  /** After the purge the exchange adds rows only, in families that held no token. */
  lemma ExchangeAddsTokens(st: Store, user: User, expected: Option<string>, input: ExchangeInput)
    ensures
      var p, st' := PurgeIfDue(st, input.now, PURGE_GRACE), ExchangeCommit(st, user, expected, input).0;
      st' == RolledBack(st, p) ||
      (&& (forall k :: k in p.tokens ==> k in st'.tokens && st'.tokens[k] == p.tokens[k])
       && (forall f :: f in st'.families ==>
            f in p.families || (input.refresh.Some? && f == input.refresh.value.familyId)))
  {
    ExchangeCases(st, user, expected, input);
    hide PurgeIfDue, ExchangeCommit, Overflow, FamiliesOfCode, PkceHolds, Allowed, AdminAllowed;
  }

  lemma ExchangeKeepsTokens(st: Store, user: User, expected: Option<string>, input: ExchangeInput, least: int)
    requires least <= PURGE_GRACE
    requires input.refresh.Some? ==> forall k :: k in st.tokens ==> k.family != input.refresh.value.familyId
    ensures TokensKept(st, ExchangeCommit(st, user, expected, input).0, input.now - least)
  {
    hide PurgeIfDue, ExchangeCommit, ConsumedBefore;
    PurgeKeepsTokens(st, input.now, PURGE_GRACE, least);
    ExchangeAddsTokens(st, user, expected, input);
  }

  lemma RotateKeepsTokens(st: Store, input: RotateInput, least: int)
    requires least <= input.reuseWindow
    ensures TokensKept(st, RotateRefresh(st, input).0, input.now - least)
  {
    RotateAddsTokens(st, input);
    PurgeKeepsTokens(st, input.now, input.reuseWindow, least);
    hide PurgeIfDue, RotateRefresh, ConsumedBefore;
  }

  /** After the purge a rotation deletes no token but with its family. */
  lemma RotateAddsTokens(st: Store, input: RotateInput)
    ensures
      var p, st' := PurgeIfDue(st, input.now, input.reuseWindow), RotateRefresh(st, input).0;
      || st' == RolledBack(st, p)
      || (&& st'.families.Keys <= p.families.Keys
          && forall k :: k in p.tokens && k.family in st'.families ==> k in st'.tokens && st'.tokens[k] == p.tokens[k])
  {
    hide PurgeIfDue, RotationError, LiveFamily, ReuseOf, Advanced, SessionClients;
    var p := PurgeIfDue(st, input.now, input.reuseWindow);
    if FamilyAnswers(p, input) {
      ReuseLeavesTokens(p, input.familyId, input.now);
      if RotationError(p, input).None? && TokenKey(input.familyId, input.newSecretHash) !in p.tokens {
        AdvancingAddsTokens(p, input);
      }
    }
  }

  lemma ReuseLeavesTokens(st: Store, f: FamilyId, now: Time)
    requires f in st.families
    ensures var q := ReuseOf(st, f, now); q.tokens == st.tokens && q.families.Keys == st.families.Keys
  {
    hide BoundTo;
  }

  lemma AdvancingAddsTokens(p: Store, input: RotateInput)
    requires FamilyAnswers(p, input) && RotationError(p, input).None?
      && TokenKey(input.familyId, input.newSecretHash) !in p.tokens
    ensures var q := Advanced(p, input);
      q.families.Keys == p.families.Keys && forall k :: k in p.tokens ==> k in q.tokens && q.tokens[k] == p.tokens[k]
  {
    hide RotationError, LiveFamily;
  }

  lemma RevokingLeavesTokens(st: Store, sids: set<Sid>, ids: set<FamilyId>, r: Revocation)
    ensures EndSessions(st, sids, r).tokens == st.tokens && EndSessions(st, sids, r).families.Keys == st.families.Keys
    ensures WithFamiliesRevoked(st, ids, r).tokens == st.tokens
      && WithFamiliesRevoked(st, ids, r).families.Keys == st.families.Keys
  {
    hide BoundTo;
  }

  /** The calls that only end sessions or families. */
  lemma RevocationsKeepTokens(w: World, e: Event, now: Time, least: int)
    requires e.Disable? || e.EndSession? || e.EndOthers? || e.EndAll? || e.RevokeFamily? || e.RevokeClient?
    requires e.now == now && least <= PURGE_GRACE
    ensures TokensKept(w.st, NextStore(w, e), now - least)
  {
    hide EndSessions, WithFamiliesRevoked, PurgeIfDue, ConsumedBefore, LiveSids, UnrevokedSids, FamiliesOf,
      SessionClients;
    var st := w.st;
    var p := PurgeIfDue(st, now, PURGE_GRACE);
    PurgeKeepsTokens(st, now, PURGE_GRACE, least);
    match e
    case EndSession(sid, _, reason) => RevokingLeavesTokens(p, {sid}, {}, Revocation(now, reason));
    case EndOthers(keep, _, reason) =>
      RevokingLeavesTokens(p, LiveSids(p, now) - (if keep.Some? then {keep.value} else {}), {},
        Revocation(now, reason));
    case RevokeFamily(f, _, reason, _) => RevokingLeavesTokens(st, {}, {f}, Revocation(now, reason));
    case RevokeClient(client, sid, _, reason) => RevokingLeavesTokens(st, {}, FamiliesOf(st, client, sid),
      Revocation(now, reason));
    case EndAll(_, reason) => EverythingLeavesTokens(st, Revocation(now, reason));
    case Disable(at, _) => EverythingLeavesTokens(st.(user := st.user.(disabledAt := at)), Revocation(now, "disabled"));
  }

  lemma EverythingLeavesTokens(st: Store, r: Revocation)
    ensures EverythingRevoked(st, r).tokens == st.tokens && EverythingRevoked(st, r).families.Keys == st.families.Keys
  {
    hide EndSessions, WithFamiliesRevoked, UnrevokedSids;
    var ended := EndSessions(st, UnrevokedSids(st), r);
    RevokingLeavesTokens(st, UnrevokedSids(st), {}, r);
    RevokingLeavesTokens(ended, {}, st.families.Keys, r);
  }

  lemma SameTokensKept(st: Store, st': Store, cutoff: Time)
    requires st'.tokens == st.tokens
    ensures TokensKept(st, st', cutoff)
  {}

  /** The family of an exchange is new, so it holds no token yet. */
  lemma NoTokensYet(w: World, exchange: ExchangeInput)
    requires Sound(w.st) && Known(w.seen, w.st)
    requires exchange.refresh.Some? ==> exchange.refresh.value.familyId !in w.seen.families
    ensures exchange.refresh.Some? ==> forall k :: k in w.st.tokens ==> k.family != exchange.refresh.value.familyId
  {}

  lemma StepKeepsTokens(w: World, e: Event, t: Time, least: int)
    requires Sound(w.st) && Known(w.seen, w.st) && Fresh(w, e) && KeepsFor(least, e) && OnTime(t, e)
    ensures TokensKept(w.st, NextStore(w, e), After(t, e) - least)
  {
    hide Sound, Known, TokensKept, AuthorizeWithSession, FinalizeLogin, ExchangeCommit, RotateRefresh, PurgeIfDue,
      SetDisabled, EverythingRevoked, EndSessions, WithFamiliesRevoked;
    var st, now := w.st, After(t, e);
    match e
    case Authorize(auth) => AuthorizeKeepsTokens(st, auth, least);
    case Finalize(fin) => FinalizeKeepsTokens(st, fin, least);
    case Commit(request, expected, exchange) =>
      NoTokensYet(w, exchange);
      SameTokensKept(st, st, now - least);
      ExchangeKeepsTokens(st, if request in w.pending then w.pending[request] else st.user, expected, exchange, least);
    case Refresh(rotation) => RotateKeepsTokens(st, rotation, least);
    case PurgeCall(_, window) => PurgeKeepsTokens(st, now, window, least);
    case SetGroups(_) => SameTokensKept(st, NextStore(w, e), now - least);
    case ReadUser(_) => SameTokensKept(st, st, now - least);
    case Evict => SameTokensKept(st, NextStore(w, e), now - least);
    case _ => RevocationsKeepTokens(w, e, now, least);
  }

  /** `next` is the successor that consumed `k` at `at`. */
  ghost predicate ConsumedAt(st: Store, k: TokenKey, next: TokenKey, at: Time) {
    && k in st.tokens && next in st.tokens && k.family == next.family
    && st.tokens[next].serial == st.tokens[k].serial + 1 && st.tokens[next].createdAt == at
  }

  lemma StepKeepsConsumed(w: World, e: Event, t: Time, least: int, k: TokenKey, next: TokenKey, at: Time)
    requires Sound(w.st) && Known(w.seen, w.st) && Fresh(w, e) && KeepsFor(least, e) && OnTime(t, e) && Chain(w.st, t)
    requires ConsumedAt(w.st, k, next, at) && After(t, e) <= at + least && k.family in NextStore(w, e).families
    ensures ConsumedAt(NextStore(w, e), k, next, at)
  {
    StepKeepsTokens(w, e, t, least);
    hide NextStore, Fresh, OnTime, KeepsFor, Known, After, CurrentStored, Contiguous;
    assert !ConsumedBefore(w.st.tokens, k, After(t, e) - least);
    assert !ConsumedBefore(w.st.tokens, next, After(t, e) - least);
  }

  /** A consumed token stays stored for the window, while its family does. */
  lemma {:induction false} RunKeepsConsumed(w: World, es: seq<Event>, t: Time, least: int, k: TokenKey, next: TokenKey,
      at: Time)
    requires Sound(w.st) && Recorded(w) && Timely(w.st, t)
    requires AllFresh(w, es) && AllOnTime(t, es) && AllKeepFor(least, es)
    requires ConsumedAt(w.st, k, next, at) && Now(t, es) <= at + least && k.family in Run(w, es).st.families
    ensures ConsumedAt(Run(w, es).st, k, next, at)
    decreases |es|
  {
    hide Sound, Recorded, Timely, Chain, NextStore, Fresh, OnTime, KeepsFor, RowsKept, Known, ConsumedAt, SeenAfter,
      Observed;
    if es != [] {
      var v := Step(w, es[0]);
      SoundRecordedParts(w, t);
      ConsumedKeyIsKnown(w, k, next, at);
      NowIsLater(After(t, es[0]), es[1..]);
      RecordedStep(w, es[0]);
      RunKeepsRows(v, es[1..]);
      SoundRecordedParts(v, t);
      SeenGrows(w.seen, v.st);
      StillThere(v, Run(v, es[1..]), k.family);
      StepTimely(w, es[0], t);
      StepKeepsConsumed(w, es[0], t, least, k, next, at);
      RunKeepsConsumed(v, es[1..], After(t, es[0]), least, k, next, at);
    }
  }

  lemma StillThere(v: World, u: World, f: FamilyId)
    requires RowsKept(v, u) && f in u.st.families && f in v.seen.families
    ensures f in v.st.families
  {}

  lemma SoundRecordedParts(w: World, t: Time)
    requires Recorded(w)
    ensures Known(w.seen, w.st) && (Timely(w.st, t) ==> Chain(w.st, t))
  {}

  lemma ConsumedKeyIsKnown(w: World, k: TokenKey, next: TokenKey, at: Time)
    requires Recorded(w) && ConsumedAt(w.st, k, next, at)
    ensures k.family in w.seen.families
  {}

  lemma SeenGrows(seen: Seen, st: Store)
    ensures seen.families <= SeenAfter(seen, st).families
  {}

  lemma {:induction false} NowIsLater(t: Time, es: seq<Event>)
    requires AllOnTime(t, es)
    ensures t <= Now(t, es)
    decreases |es|
  {
    if es != [] {
      NowIsLater(After(t, es[0]), es[1..]);
    }
  }

  /** The theorem: within the window, presenting a consumed token to its live family is always reuse. */
  lemma ReuseAlwaysDetected(w: World, es: seq<Event>, t: Time, least: int, k: TokenKey, next: TokenKey, at: Time,
      input: RotateInput)
    requires Sound(w.st) && Recorded(w) && Timely(w.st, t)
    requires AllFresh(w, es) && AllOnTime(t, es) && AllKeepFor(least, es)
    requires ConsumedAt(w.st, k, next, at)
    requires input.familyId == k.family && input.secretHash == k.hash
    requires Now(t, es) <= input.now <= at + least && least <= input.reuseWindow
    requires var st := Run(w, es).st;
      && FamilyAnswers(st, input) && st.families[k.family].clientCreatedAt == input.client.createdAt
    ensures RotateRefresh(Run(w, es).st, input).1.ReuseDetected?
  {
    var st := Run(w, es).st;
    RunKeepsConsumed(w, es, t, least, k, next, at);
    RunTimely(w, es, t);
    PresentedIsReuse(st, Now(t, es), least, k, next, at, input);
  }

  lemma PresentedIsReuse(st: Store, t: Time, least: int, k: TokenKey, next: TokenKey, at: Time, input: RotateInput)
    requires Chain(st, t) && ConsumedAt(st, k, next, at)
    requires input.familyId == k.family && input.secretHash == k.hash && input.now <= at + least
      && least <= input.reuseWindow
    requires FamilyAnswers(st, input) && st.families[k.family].clientCreatedAt == input.client.createdAt
    ensures RotateRefresh(st, input).1.ReuseDetected?
  {
    assert k == TokenKey(input.familyId, input.secretHash);
    var p := PurgeIfDue(st, input.now, input.reuseWindow);
    assert k.family in p.families && p.families[k.family] == st.families[k.family];
    PurgeKeepsTokens(st, input.now, input.reuseWindow, least);
    assert !ConsumedBefore(st.tokens, k, input.now - least);
    assert k in p.tokens && p.tokens[k] == st.tokens[k];
    assert st.tokens[next].serial <= st.families[k.family].currentSerial;
  }
}
