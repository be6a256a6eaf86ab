/** The throttled session touch against a store that extends on every use. */
module SessionTouch {
  import opened Options
  import opened UserModel
  import opened UserCases
  import opened UserRuns
  import opened UserClock

  /** The session a call used successfully, if any. */
  ghost function UsedBy(w: World, e: Event): Option<Sid> {
    match e
    case Authorize(auth) => if AuthorizeWithSession(w.st, auth).1.Authorized? && auth.code.Some? then Some(auth.sid)
      else None
    case Finalize(fin) => if FinalizeLogin(w.st, fin).1.Finalized? then Some(fin.session.sid) else None
    case Refresh(rotation) => (
      match RotateRefresh(w.st, rotation).1
      case Rotated(grant, _, _) => grant.sid
      case _ => None)
    case _ => None
  }

  ghost predicate ConstantIdle(ttl: int, e: Event) {
    && (e.Authorize? ==> e.auth.idleTtl == ttl)
    && (e.Finalize? ==> e.fin.idleTtl == ttl && (e.fin.session.Create? ==> e.fin.session.newIdleTtl == ttl))
    && (e.Refresh? ==> e.rotation.sessionIdleTtl == ttl)
  }

  /** The last use of each session, which the exact store keeps instead of `last_seen_at`. */
  ghost function Uses(w: World, es: seq<Event>, t: Time, uses: map<Sid, Time>): map<Sid, Time>
    decreases |es|
  {
    if es == [] then uses
    else Uses(Step(w, es[0]), es[1..], After(t, es[0]), NextUses(w, es[0], t, uses))
  }

  ghost function NextUses(w: World, e: Event, t: Time, uses: map<Sid, Time>): map<Sid, Time> {
    if UsedBy(w, e).Some? then uses[UsedBy(w, e).value := After(t, e)] else uses
  }

  /** What a store that extends on every use would hold for `s`. */
  ghost function ExactIdle(s: Session, lastUse: Time, ttl: int): Time { Min(lastUse + ttl, s.absoluteExpiresAt) }

  ghost predicate Tracks(s: Session, lastUse: Time, ttl: int) {
    s.idleExpiresAt == Min(s.lastSeenAt + ttl, s.absoluteExpiresAt)
      && s.lastSeenAt <= lastUse < s.lastSeenAt + 60
  }

  ghost predicate AllTrack(st: Store, uses: map<Sid, Time>, ttl: int, t: Time) {
    forall s :: s in st.sessions ==> s in uses && Tracks(st.sessions[s], uses[s], ttl) && uses[s] <= t
  }

  ghost predicate SameTimes(a: Session, b: Session) {
    a.lastSeenAt == b.lastSeenAt && a.idleExpiresAt == b.idleExpiresAt && a.absoluteExpiresAt == b.absoluteExpiresAt
  }

  /** A used session is touched or starts at `now`; the others keep their times. */
  ghost predicate Touches(st: Store, st': Store, used: Option<Sid>, now: Time, ttl: int) {
    forall s :: s in st'.sessions ==>
      if used == Some(s) then
        || (s in st.sessions && SameTimes(st'.sessions[s], Touched(st.sessions[s], now, ttl)))
        || (st'.sessions[s].lastSeenAt == now
             && st'.sessions[s].idleExpiresAt == Min(now + ttl, st'.sessions[s].absoluteExpiresAt))
      else s in st.sessions && SameTimes(st'.sessions[s], st.sessions[s])
  }

  lemma TouchKeepsTracking(st: Store, st': Store, used: Option<Sid>, now: Time, ttl: int, t: Time, uses: map<Sid, Time>)
    requires AllTrack(st, uses, ttl, t) && t <= now && Touches(st, st', used, now, ttl)
    ensures AllTrack(st', if used.Some? then uses[used.value := now] else uses, ttl, now)
  {}

  lemma QuietTouches(st: Store, now: Time, window: int, sids: set<Sid>, ids: set<FamilyId>, r: Revocation, ttl: int)
    ensures
      var p := PurgeIfDue(st, now, window);
      && Touches(st, p, None, now, ttl)
      && Touches(st, EndSessions(p, sids, r), None, now, ttl)
      && Touches(st, WithFamiliesRevoked(EndSessions(st, sids, r), ids, r), None, now, ttl)
  {}

  lemma PurgeTouches(st: Store, now: Time, window: int, ttl: int)
    ensures Touches(st, PurgeIfDue(st, now, window), None, now, ttl)
  {}

  lemma AuthorizeTouches(st: Store, input: AuthorizeInput)
    ensures
      var (st', out) := AuthorizeWithSession(st, input);
      Touches(st, st', if out.Authorized? && input.code.Some? then Some(input.sid) else None, input.now, input.idleTtl)
  {
    AuthorizeCases(st, input);
    PurgeTouches(st, input.now, PURGE_GRACE, input.idleTtl);
    hide PurgeIfDue, AuthorizeWithSession;
  }

  lemma LoggedInTouches(p: Store, input: FinalizeInput)
    requires MayLogIn(p, input) && (input.session.Create? ==> input.session.newIdleTtl == input.idleTtl)
    ensures Touches(p, LoggedIn(p, input), Some(input.session.sid), input.now, input.idleTtl)
  {
    LoggedInSessions(p, input);
    hide LoggedIn;
  }

  lemma TouchesTogether(a: Store, b: Store, c: Store, used: Option<Sid>, now: Time, ttl: int)
    requires Touches(a, b, None, now, ttl) && Touches(b, c, used, now, ttl)
    ensures Touches(a, c, used, now, ttl)
  {}

  lemma FinalizeTouches(st: Store, input: FinalizeInput)
    requires input.session.Create? ==> input.session.newIdleTtl == input.idleTtl
    ensures
      var (st', out) := FinalizeLogin(st, input);
      Touches(st, st', if out.Finalized? then Some(input.session.sid) else None, input.now, input.idleTtl)
  {
    var p := PurgeIfDue(st, input.now, PURGE_GRACE);
    FinalizeCases(st, input);
    PurgeTouches(st, input.now, PURGE_GRACE, input.idleTtl);
    SameTouches(st, st, input.now, input.idleTtl);
    SameTouches(st, RolledBack(st, p), input.now, input.idleTtl);
    hide PurgeIfDue, FinalizeLogin, Touches, LoggedIn;
    if FinalizeLogin(st, input).1.Finalized? {
      LoggedInTouches(p, input);
      TouchesTogether(st, p, LoggedIn(p, input), Some(input.session.sid), input.now, input.idleTtl);
    }
  }

  lemma ExchangeTouches(st: Store, user: User, expected: Option<string>, input: ExchangeInput, ttl: int)
    ensures Touches(st, ExchangeCommit(st, user, expected, input).0, None, input.now, ttl)
  {
    ExchangeCases(st, user, expected, input);
    PurgeTouches(st, input.now, PURGE_GRACE, ttl);
    hide PurgeIfDue, ExchangeCommit, Exchangeable, Overflow;
  }

  lemma RotateTouches(st: Store, input: RotateInput)
    ensures
      var (st', out) := RotateRefresh(st, input);
      Touches(st, st', if out.Rotated? then out.grant.sid else None, input.now, input.sessionIdleTtl)
  {
    hide PurgeIfDue, Allowed, AdminAllowed, Subset, BoundTo, RevokeFamilies;
    PurgeTouches(st, input.now, input.reuseWindow, input.sessionIdleTtl);
  }

  lemma StepTracks(w: World, e: Event, t: Time, uses: map<Sid, Time>, ttl: int)
    requires AllTrack(w.st, uses, ttl, t) && OnTime(t, e) && ConstantIdle(ttl, e)
    ensures AllTrack(NextStore(w, e), NextUses(w, e, t, uses), ttl, After(t, e))
  {
    var st, now := w.st, After(t, e);
    hide AllTrack, Touches, AuthorizeWithSession, FinalizeLogin, ExchangeCommit, RotateRefresh, PurgeIfDue, EndSessions,
      WithFamiliesRevoked;
    match e {
    case Authorize(auth) => AuthorizeTouches(st, auth);
    case Finalize(fin) => FinalizeTouches(st, fin);
    case Commit(request, expected, exchange) =>
      SameTouches(st, st, now, ttl);
      ExchangeTouches(st, if request in w.pending then w.pending[request] else st.user, expected, exchange, ttl);
    case Refresh(rotation) => RotateTouches(st, rotation);
    case _ => OtherTouches(w, e, now, ttl);
    }
    TouchKeepsTracking(st, NextStore(w, e), UsedBy(w, e), now, ttl, t, uses);
  }

  lemma SameTouches(st: Store, st': Store, now: Time, ttl: int)
    requires st'.sessions == st.sessions
    ensures Touches(st, st', None, now, ttl)
  {}

  lemma OtherTouches(w: World, e: Event, now: Time, ttl: int)
    requires !e.Authorize? && !e.Finalize? && !e.Commit? && !e.Refresh?
    requires InstantOf(e).Some? ==> InstantOf(e).value == now
    ensures Touches(w.st, NextStore(w, e), None, now, ttl)
  {
    match e
    case Disable(at, _) => QuietTouches(w.st.(user := w.st.user.(disabledAt := at)), now, 0, UnrevokedSids(w.st),
      w.st.families.Keys, Revocation(now, "disabled"), ttl);
    case PurgeCall(_, window) => PurgeTouches(w.st, now, window, ttl);
    case EndSession(sid, _, reason) => QuietTouches(w.st, now, PURGE_GRACE, {sid}, {}, Revocation(now, reason), ttl);
    case EndOthers(keep, _, reason) =>
      var p := PurgeIfDue(w.st, now, PURGE_GRACE);
      QuietTouches(w.st, now, PURGE_GRACE, LiveSids(p, now) - (if keep.Some? then {keep.value} else {}), {},
        Revocation(now, reason), ttl);
    case EndAll(_, reason) => QuietTouches(w.st, now, 0, UnrevokedSids(w.st), w.st.families.Keys,
      Revocation(now, reason), ttl);
    case _ =>
  }

  lemma {:induction false} RunTracks(w: World, es: seq<Event>, t: Time, uses: map<Sid, Time>, ttl: int)
    requires AllTrack(w.st, uses, ttl, t) && AllOnTime(t, es) && forall i :: 0 <= i < |es| ==> ConstantIdle(ttl, es[i])
    ensures AllTrack(Run(w, es).st, Uses(w, es, t, uses), ttl, Now(t, es))
    decreases |es|
  {
    if es != [] {
      StepTracks(w, es[0], t, uses, ttl);
      hide AllTrack, OnTime, NextStore, NextUses;
      RunTracks(Step(w, es[0]), es[1..], After(t, es[0]), NextUses(w, es[0], t, uses), ttl);
    }
  }

  /** Never later than the exact store, and less than a minute earlier; so no use is accepted that the exact store
      refuses. */
  lemma ThrottledTouchRefinesExact(user: User, es: seq<Event>, t: Time, ttl: int, s: Sid)
    requires AllOnTime(t, es) && forall i :: 0 <= i < |es| ==> ConstantIdle(ttl, es[i])
    requires s in Run(Initial(user), es).st.sessions
    ensures
      var row, uses := Run(Initial(user), es).st.sessions[s], Uses(Initial(user), es, t, map[]);
      && s in uses
      && row.idleExpiresAt <= ExactIdle(row, uses[s], ttl) < row.idleExpiresAt + 60
  {
    RunTracks(Initial(user), es, t, map[], ttl);
  }
}
