/** The book of a run: in every state that a run with fresh secrets and a forward clock reaches, every row is what
    the callers sent. */
module UserBookRuns {
  import opened Options
  import opened UserModel
  import opened UserSound
  import opened UserCases
  import opened UserRuns
  import opened UserClock
  import opened UserBook

  /** What a call adds to the book: its own input, when it was answered with success. */
  ghost function Noted(b: Book, w: World, e: Event): Book {
    match e
    case Authorize(auth) =>
      if AuthorizeWithSession(w.st, auth).1.Authorized? && auth.code.Some?
        then WithIssue(b, auth.code.value, auth.sid, auth.now) else b
    case Finalize(fin) =>
      if !FinalizeLogin(w.st, fin).1.Finalized? then b
      else
        var more := WithLogin(b, fin.session);
        if fin.code.Some? then WithIssue(more, fin.code.value, fin.session.sid, fin.now) else more
    case Commit(request, expected, exchange) =>
      if request in w.pending && ExchangeCommit(w.st, w.pending[request], expected, exchange).1.Exchanged?
        then WithExchange(b, exchange) else b
    case Refresh(rotation) => if RotateRefresh(w.st, rotation).1.Rotated? then WithRotation(b, rotation) else b
    case _ => b
  }

  ghost function BookAfter(w: World, es: seq<Event>, b: Book): Book
    decreases |es|
  {
    if es == [] then b else BookAfter(Step(w, es[0]), es[1..], Noted(b, w, es[0]))
  }

  ghost function BookOf(user: User, es: seq<Event>): Book { BookAfter(Initial(user), es, EMPTY) }

  /** The book speaks of codes and families that were seen. */
  ghost predicate BookSeen(b: Book, seen: Seen) {
    b.issues.Keys <= seen.codes && b.spent <= seen.codes && b.openings.Keys <= seen.families
  }

  // ---------------------------------------------------------------- each call

  lemma AuthorizeBooked(st: Store, b: Book, t: Time, input: AuthorizeInput)
    requires Booked(st, b, t) && TokensOwned(st) && t <= input.now
    requires input.code.Some? ==> input.code.value.secretHash !in b.issues && input.code.value.secretHash !in b.spent
    ensures
      var (st', out) := AuthorizeWithSession(st, input);
      Booked(st', if out.Authorized? && input.code.Some? then WithIssue(b, input.code.value, input.sid, input.now)
        else b,
        input.now)
  {
    var p := PurgeIfDue(st, input.now, PURGE_GRACE);
    AuthorizeCases(st, input);
    BookedLater(st, b, t, input.now, st.lastPurgeAt);
    BookedLater(st, b, t, input.now, p.lastPurgeAt);
    PurgeBooked(st, b, t, input.now, PURGE_GRACE);
    hide AuthorizeWithSession, PurgeIfDue, Booked, IssueCode, WithIssue;
    if input.code.Some? && input.sid in p.sessions {
      IssueBooked(p, b, input.now, input.code.value, input.sid, input.idleTtl);
    }
  }

  lemma FinalizeBooked(st: Store, b: Book, t: Time, input: FinalizeInput)
    requires Booked(st, b, t) && TokensOwned(st) && t <= input.now
    requires input.code.Some? ==> input.code.value.secretHash !in b.issues && input.code.value.secretHash !in b.spent
    ensures
      var (st', out) := FinalizeLogin(st, input);
      var more := WithLogin(b, input.session);
      Booked(st', if !out.Finalized? then b
                  else if input.code.Some? then WithIssue(more, input.code.value, input.session.sid, input.now)
                    else more,
        input.now)
  {
    var p := PurgeIfDue(st, input.now, PURGE_GRACE);
    FinalizeCases(st, input);
    BookedLater(st, b, t, input.now, st.lastPurgeAt);
    BookedLater(st, b, t, input.now, p.lastPurgeAt);
    PurgeBooked(st, b, t, input.now, PURGE_GRACE);
    hide FinalizeLogin, PurgeIfDue, Booked, IssueCode, WithIssue;
    if MayLogIn(p, input) {
      LoginBooked(p, b, input.now, input);
      LoginKeepsRest(p, b, input);
      if input.code.Some? {
        IssueBooked(WithSession(p, input), WithLogin(b, input.session), input.now, input.code.value, input.session.sid,
          input.idleTtl);
      }
    }
  }

  lemma LoginKeepsRest(p: Store, b: Book, input: FinalizeInput)
    requires MayLogIn(p, input)
    ensures input.session.sid in WithSession(p, input).sessions
    ensures var more := WithLogin(b, input.session);
      more.issues == b.issues && more.spent == b.spent && more.openings == b.openings
  {}

  lemma ExchangeBooked(st: Store, b: Book, t: Time, user: User, expected: Option<string>, input: ExchangeInput)
    requires Booked(st, b, t) && TokensOwned(st) && t <= input.now
    ensures
      var (st', out) := ExchangeCommit(st, user, expected, input);
      Booked(st', if out.Exchanged? then WithExchange(b, input) else b, input.now)
  {
    var p := PurgeIfDue(st, input.now, PURGE_GRACE);
    ExchangeCases(st, user, expected, input);
    BookedLater(st, b, t, input.now, p.lastPurgeAt);
    PurgeBooked(st, b, t, input.now, PURGE_GRACE);
    RevokingBooked(p, b, input.now, FamiliesOfCode(p, input.secretHash), Revocation(input.now, "code_replay"));
    hide ExchangeCommit, PurgeIfDue, Booked, Granted, WithExchange, WithFamiliesRevoked, PkceHolds, Allowed,
      AdminAllowed;
    if ExchangeCommit(st, user, expected, input).1.Exchanged? {
      RedeemBooked(p, b, input);
    }
  }

  lemma RotateBooked(st: Store, b: Book, t: Time, input: RotateInput)
    requires Booked(st, b, t) && TokensOwned(st) && t <= input.now
    ensures
      var (st', out) := RotateRefresh(st, input);
      Booked(st', if out.Rotated? then WithRotation(b, input) else b, input.now)
  {
    var p, f := PurgeIfDue(st, input.now, input.reuseWindow), input.familyId;
    RotateCases(st, input);
    BookedLater(st, b, t, input.now, p.lastPurgeAt);
    PurgeBooked(st, b, t, input.now, input.reuseWindow);
    DeletingBooked(p, b, input.now, f);
    hide RotateRefresh, PurgeIfDue, Booked, WithRotation, WithFamiliesRevoked, EndSessions, WithoutFamily, Advanced;
    if f in p.families {
      RevokingBooked(p, b, input.now, {f}, Revocation(input.now, "reuse"));
      if p.families[f].sid.Some? {
        EndingBooked(WithFamiliesRevoked(p, {f}, Revocation(input.now, "reuse")), b, input.now,
          {p.families[f].sid.value}, Revocation(input.now, "refresh_reuse"));
      }
    }
    if RotateRefresh(st, input).1.Rotated? {
      AdvanceBooked(p, b, input.now, input);
    }
  }

  lemma EverythingBooked(st: Store, b: Book, t: Time, r: Revocation)
    requires Booked(st, b, t)
    ensures Booked(EverythingRevoked(st, r), b, t)
  {
    hide Booked, EndSessions, WithFamiliesRevoked;
    EndingBooked(st, b, t, UnrevokedSids(st), r);
    RevokingBooked(EndSessions(st, UnrevokedSids(st), r), b, t, st.families.Keys, r);
  }

  /** The calls that add nothing to the book. */
  lemma OthersBooked(w: World, e: Event, b: Book, t: Time)
    requires Booked(w.st, b, t) && TokensOwned(w.st) && t <= After(t, e)
    requires !e.Authorize? && !e.Finalize? && !e.Commit? && !e.Refresh?
    ensures Booked(NextStore(w, e), b, After(t, e))
  {
    hide Booked, PurgeIfDue, EndSessions, WithFamiliesRevoked, EverythingRevoked, LiveSids, FamiliesOf;
    var st, now := w.st, After(t, e);
    var p := PurgeIfDue(st, now, PURGE_GRACE);
    BookedLater(st, b, t, now, st.lastPurgeAt);
    PurgeBooked(st, b, t, now, PURGE_GRACE);
    match e
    case SetGroups(groups) => UserChangedBooked(st, b, now, st.user.(groups := groups));
    case Disable(at, _) =>
      UserChangedBooked(st, b, now, st.user.(disabledAt := at));
      EverythingBooked(st.(user := st.user.(disabledAt := at)), b, now, Revocation(now, "disabled"));
      DisabledIs(st, at, now);
      hide SetDisabled;
    case PurgeCall(_, window) => PurgeBooked(st, b, t, now, window);
    case EndSession(sid, _, reason) => EndingBooked(p, b, now, {sid}, Revocation(now, reason));
    case EndOthers(keep, _, reason) =>
      EndingBooked(p, b, now, LiveSids(p, now) - (if keep.Some? then {keep.value} else {}), Revocation(now, reason));
    case EndAll(_, reason) => EverythingBooked(st, b, now, Revocation(now, reason));
    case ReadUser(_) =>
    case RevokeFamily(f, _, reason, _) => RevokingBooked(st, b, now, {f}, Revocation(now, reason));
    case RevokeClient(client, sid, _, reason) =>
      RevokingBooked(st, b, now, FamiliesOf(st, client, sid), Revocation(now, reason));
    case Evict => BookedLater(st, b, now, now, None);
  }

  lemma StepBooked(w: World, e: Event, b: Book, t: Time)
    requires Booked(w.st, b, t) && BookSeen(b, w.seen) && TokensOwned(w.st) && Fresh(w, e) && OnTime(t, e)
    ensures Booked(Step(w, e).st, Noted(b, w, e), After(t, e))
  {
    hide Booked, AuthorizeWithSession, FinalizeLogin, ExchangeCommit, RotateRefresh, WithIssue, WithLogin, WithExchange,
      WithRotation, Observed, SeenAfter;
    match e
    case Authorize(auth) => AuthorizeBooked(w.st, b, t, auth);
    case Finalize(fin) => FinalizeBooked(w.st, b, t, fin);
    case Commit(request, expected, exchange) =>
      BookedLater(w.st, b, t, After(t, e), w.st.lastPurgeAt);
      if request in w.pending {
        ExchangeBooked(w.st, b, t, w.pending[request], expected, exchange);
      }
    case Refresh(rotation) => RotateBooked(w.st, b, t, rotation);
    case _ =>
      OthersBooked(w, e, b, t);
      hide NextStore;
  }

  // ---------------------------------------------------------------- runs

  lemma IssuedIsSeen(b: Book, seen: Seen, st': Store, code: CodeInput, sid: Sid, now: Time)
    requires BookSeen(b, seen) && code.secretHash in st'.codes
    ensures BookSeen(WithIssue(b, code, sid, now), SeenAfter(seen, st'))
  {}

  lemma RedeemedIsSeen(b: Book, seen: Seen, st': Store, x: ExchangeInput)
    requires BookSeen(b, seen) && x.secretHash in st'.codes
    requires x.refresh.Some? ==> x.refresh.value.familyId in st'.families
    ensures BookSeen(WithExchange(b, x), SeenAfter(seen, st'))
  {}

  lemma RotatedIsSeen(b: Book, seen: Seen, st': Store, r: RotateInput)
    requires BookSeen(b, seen)
    ensures BookSeen(WithRotation(b, r), SeenAfter(seen, st'))
  {}

  lemma StillSeen(b: Book, seen: Seen, st': Store, s: SessionInput)
    requires BookSeen(b, seen)
    ensures BookSeen(b, SeenAfter(seen, st')) && BookSeen(WithLogin(b, s), seen)
  {}

  /** A successful exchange leaves its code and the family it opened. */
  lemma ExchangeLeaves(st: Store, user: User, expected: Option<string>, input: ExchangeInput)
    requires ExchangeCommit(st, user, expected, input).1.Exchanged?
    ensures
      var st' := ExchangeCommit(st, user, expected, input).0;
      && input.secretHash in st'.codes
      && (input.refresh.Some? ==> input.refresh.value.familyId in st'.families)
  {
    ExchangeCases(st, user, expected, input);
    hide ExchangeCommit, PurgeIfDue, Overflow, PkceHolds, Allowed, AdminAllowed;
  }

  lemma StepSeen(w: World, e: Event, b: Book)
    requires BookSeen(b, w.seen)
    ensures BookSeen(Noted(b, w, e), Step(w, e).seen)
  {
    var st' := NextStore(w, e);
    hide BookSeen, SeenAfter, WithIssue, WithExchange, WithRotation, WithLogin, AuthorizeWithSession, FinalizeLogin,
      ExchangeCommit, RotateRefresh, Observed;
    StillSeen(b, w.seen, st', if e.Finalize? then e.fin.session else Rotate(0, 0, Claims(0, [], ""), None));
    match e
    case Authorize(auth) =>
      if AuthorizeWithSession(w.st, auth).1.Authorized? && auth.code.Some? {
        AuthorizedRow(w.st, auth);
        IssuedIsSeen(b, w.seen, st', auth.code.value, auth.sid, auth.now);
      }
    case Finalize(fin) =>
      var more := WithLogin(b, fin.session);
      StillSeen(more, w.seen, st', fin.session);
      if FinalizeLogin(w.st, fin).1.Finalized? && fin.code.Some? {
        FinalizedRow(w.st, fin);
        IssuedIsSeen(more, w.seen, st', fin.code.value, fin.session.sid, fin.now);
      }
    case Commit(request, expected, exchange) =>
      if request in w.pending && ExchangeCommit(w.st, w.pending[request], expected, exchange).1.Exchanged? {
        ExchangeLeaves(w.st, w.pending[request], expected, exchange);
        RedeemedIsSeen(b, w.seen, st', exchange);
      }
    case Refresh(rotation) => RotatedIsSeen(b, w.seen, st', rotation);
    case _ =>
  }

  lemma {:induction false} RunBooked(w: World, es: seq<Event>, b: Book, t: Time)
    requires Booked(w.st, b, t) && BookSeen(b, w.seen) && Sound(w.st) && AllFresh(w, es) && AllOnTime(t, es)
    ensures Booked(Run(w, es).st, BookAfter(w, es, b), Now(t, es)) && BookSeen(BookAfter(w, es, b), Run(w, es).seen)
    ensures Sound(Run(w, es).st)
    decreases |es|
  {
    if es != [] {
      assert TokensOwned(w.st);
      hide Booked, BookSeen, Sound, Step, Fresh, OnTime, Noted;
      StepBooked(w, es[0], b, t);
      StepSeen(w, es[0], b);
      StepKeepsSound(w, es[0]);
      RunBooked(Step(w, es[0]), es[1..], Noted(b, w, es[0]), After(t, es[0]));
    }
  }

  /** Every row of every reachable state is what the callers sent. */
  lemma BookOfEveryRun(user: User, es: seq<Event>, t: Time)
    requires AllFresh(Initial(user), es) && AllOnTime(t, es)
    ensures Booked(Run(Initial(user), es).st, BookOf(user, es), Now(t, es))
    ensures BookSeen(BookOf(user, es), Run(Initial(user), es).seen)
  {
    RunBooked(Initial(user), es, EMPTY, t);
  }
}
