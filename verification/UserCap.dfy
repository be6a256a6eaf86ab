/** When the family cap of an exchange takes the very family that the exchange has just created. */
module UserCap {
  import opened Options
  import opened UserModel
  import opened UserRuns
  import opened UserClock

  /** The live families of `client` created in the same second with greater ids. */
  ghost function SameSecondGreater(families: map<FamilyId, Family>, client: ClientId, now: Time,
      f: FamilyId): set<FamilyId> {
    set g | g in LiveOf(families, client, now) && families[g].createdAt == now && g > f
  }

  /** Liveness of the family that the exchange inserts into the purged tables. */
  ghost predicate BornLive(p: Store, input: ExchangeInput) {
    input.refresh.Some? && input.secretHash in p.codes && p.codes[input.secretHash].sid in p.sessions &&
    var code := p.codes[input.secretHash];
    LiveFamily(NewFamily(code, input.secretHash, p.sessions[code.sid], input.client, input.refresh.value, input.now),
      input.now)
  }

  lemma NewestAmong(families: map<FamilyId, Family>, f: FamilyId, family: Family, now: Time)
    requires f !in families && family.createdAt == now && forall g :: g in families ==> families[g].createdAt <= now
    ensures var after := families[f := family];
      f in Overflow(after, family.clientId, now) <==>
      LiveFamily(family, now) && |SameSecondGreater(families, family.clientId, now, f)| >= 20
  {
    var after := families[f := family];
    assert NewerLive(after, family.clientId, now, f) == SameSecondGreater(families, family.clientId, now, f);
  }

  /** An exchange that answers with a new family has revoked it exactly when that family is live and at
      least twenty live families of the client from the same second have greater ids. */
  lemma NewFamilyMayBeCapped(st: Store, t: Time, user: User, expected: Option<string>, input: ExchangeInput)
    requires FamiliesBorn(st, t) && t <= input.now
    requires var out := ExchangeCommit(st, user, expected, input).1; out.Exchanged? && out.family.Some?
    ensures
      var p, st' := PurgeIfDue(st, input.now, PURGE_GRACE), ExchangeCommit(st, user, expected, input).0;
      var f := input.refresh.value.familyId;
      && ExchangeCommit(st, user, expected, input).1.family == Some(f) && f in st'.families
      && (st'.families[f].revoked.Some? <==>
            BornLive(p, input) && |SameSecondGreater(p.families, input.client.clientId, input.now, f)| >= 20)
  {
    hide PurgeIfDue, Allowed, AdminAllowed, PkceHolds, Overflow, SameSecondGreater;
    var p := PurgeIfDue(st, input.now, PURGE_GRACE);
    PurgeKeepsRows(st, input.now, PURGE_GRACE);
    var code, r := p.codes[input.secretHash], input.refresh.value;
    var family := NewFamily(code, input.secretHash, p.sessions[code.sid], input.client, r, input.now);
    NewestAmong(p.families, r.familyId, family, input.now);
  }

  /** In every state of every run with a forward clock. */
  lemma NewFamilyMayBeCappedInRuns(user: User, es: seq<Event>, t: Time, read: User, expected: Option<string>,
      input: ExchangeInput)
    requires AllOnTime(t, es) && Now(t, es) <= input.now
    requires var out := ExchangeCommit(Run(Initial(user), es).st, read, expected, input).1;
      out.Exchanged? && out.family.Some?
    ensures
      var st := Run(Initial(user), es).st;
      var p, st' := PurgeIfDue(st, input.now, PURGE_GRACE), ExchangeCommit(st, read, expected, input).0;
      var f := input.refresh.value.familyId;
      && f in st'.families
      && (st'.families[f].revoked.Some? <==>
            BornLive(p, input) && |SameSecondGreater(p.families, input.client.clientId, input.now, f)| >= 20)
  {
    EveryRunIsTimely(user, es, t);
    hide ExchangeCommit, PurgeIfDue, BornLive, SameSecondGreater, FamiliesBorn;
    NewFamilyMayBeCapped(Run(Initial(user), es).st, Now(t, es), read, expected, input);
  }

  // ---------------------------------------------------------------- a run in which it happens

  // One user signs in once; the client gets a code and exchanges it again and again in the same second.
  // The families are numbered downwards, as when the requests commit in the reverse order of minting.

  const USER := User(1, {}, None)
  const CLIENT := Client(1, 0, true, None)
  const CLAIMS := Claims(0, [], "")

  ghost function SignIn(): Event {
    Finalize(FinalizeInput(0, Create(0, 0, CLAIMS, None, 1000, 1000), None, None, 1000))
  }

  ghost function GetCode(n: nat): Event {
    var code := CodeInput(n, 1, "", [], None, None);
    Authorize(AuthorizeInput(0, 0, 0, CLIENT, [], false, false, None, Some(code), 1000, {}))
  }

  ghost function Redeem(n: nat): ExchangeInput
    requires n <= 100
  {
    ExchangeInput(n, CLIENT, "", None, 0, Some(RefreshInput(n, 100 - n, false, 10, 10)))
  }

  /** 100, 99, 98 and so on, `n` of them. */
  ghost function Ids(n: nat): set<FamilyId>
    requires n <= 100
  {
    if n == 0 then {} else Ids(n - 1) + {101 - n}
  }

  lemma {:induction false} IdsAre(n: nat)
    requires n <= 100
    ensures |Ids(n)| == n && forall k :: k in Ids(n) ==> 100 - n < k <= 100
  {
    if n > 0 {
      IdsAre(n - 1);
    }
  }

  /** A live session and `n` live families of this second. */
  ghost predicate Crowd(st: Store, n: nat)
    requires n <= 100
  {
    && st.user == USER && st.lastPurgeAt == Some(0)
    && 0 in st.sessions && st.sessions[0].secretHash == 0 && LiveSession(st.sessions[0], 0)
    && st.families.Keys == Ids(n)
    && (forall f :: f in st.families ==> OfThisSecond(st.families[f]))
    && (forall k :: k in st.tokens ==> k.family in st.families)
  }

  ghost predicate OfThisSecond(family: Family) {
    family.clientId == 1 && family.createdAt == 0 && LiveFamily(family, 0)
  }

  ghost predicate Seeing(w: World, codes: nat) {
    && w.st.codes.Keys <= w.seen.codes && (forall c :: c in w.seen.codes ==> c < codes)
    && w.seen.families == w.st.families.Keys
  }

  /** The code that the next exchange redeems is there. */
  ghost predicate Coded(st: Store, n: nat)
    requires n <= 100
  {
    && Crowd(st, n) && n in st.codes
    && st.codes[n] == Code(1, "", [], None, None, 0, st.sessions[0].claims, 0, CODE_TTL, None)
  }

  lemma AuthorizeHere(st: Store, n: nat)
    requires n <= 20 && Crowd(st, n) && n !in st.codes
    ensures AuthorizeWithSession(st, GetCode(n).auth).0 == IssueCode(st, GetCode(n).auth.code.value, 0, 0, 1000)
  {
    assert Allowed(USER, CLIENT) && AdminAllowed(USER, []);
    assert PurgeIfDue(st, 0, PURGE_GRACE) == st;
    hide PurgeIfDue, IssueCode, SnapshotOf, OfThisSecond, Allowed, AdminAllowed;
  }

  lemma CodeComes(st: Store, n: nat)
    requires n <= 20 && Crowd(st, n) && n !in st.codes
    ensures
      var st' := AuthorizeWithSession(st, GetCode(n).auth).0;
      Coded(st', n) && st'.families == st.families && st'.codes.Keys == st.codes.Keys + {n}
  {
    AuthorizeHere(st, n);
    hide AuthorizeWithSession, OfThisSecond;
  }

  /** The exchange before its cap. */
  ghost function Inserted(st: Store, n: nat): Store
    requires n <= 100 && n in st.codes && st.codes[n].sid in st.sessions
  {
    var r := Redeem(n).refresh.value;
    WithFamily(Consumed(st, n, 0), NewFamily(st.codes[n], n, st.sessions[st.codes[n].sid], CLIENT, r, 0), r, 0)
  }

  lemma ExchangeHere(st: Store, n: nat)
    requires n <= 20 && Coded(st, n)
    ensures
      var (st', out) := ExchangeCommit(st, USER, None, Redeem(n));
      && st' == Capped(Inserted(st, n), 1, 0) && out.Exchanged? && out.family == Some(100 - n)
  {
    assert PurgeIfDue(st, 0, PURGE_GRACE) == st;
    assert Allowed(USER, CLIENT) && AdminAllowed(USER, []);
    assert Exchangeable(st, USER, None, Redeem(n));
    IdsAre(n);
    hide Exchangeable, Capped, Allowed, AdminAllowed, OfThisSecond;
  }

  lemma InsertedCrowd(st: Store, n: nat)
    requires n <= 20 && Coded(st, n)
    ensures Crowd(Inserted(st, n), n + 1) && Inserted(st, n).codes.Keys == st.codes.Keys
  {
    var q := Inserted(st, n);
    assert OfThisSecond(q.families[100 - n]);
    hide OfThisSecond;
    assert q.families.Keys == Ids(n + 1);
  }

  lemma FewAreNotCapped(families: map<FamilyId, Family>)
    requires |families.Keys| <= MAX_FAMILIES
    ensures Overflow(families, 1, 0) == {}
  {
    forall f | f in LiveOf(families, 1, 0)
      ensures |NewerLive(families, 1, 0, f)| < MAX_FAMILIES
    {
      Subsets(NewerLive(families, 1, 0, f), families.Keys - {f});
    }
  }

  /** Up to twenty families nobody is capped. */
  lemma NobodyCapped(q: Store, n: nat)
    requires n <= 20 && Crowd(q, n)
    ensures Capped(q, 1, 0) == q
  {
    IdsAre(n);
    assert |q.families.Keys| == n;
    FewAreNotCapped(q.families);
    hide Crowd, Overflow;
    assert Capped(q, 1, 0).families == q.families;
  }

  // ---------------------------------------------------------------- as a run

  lemma {:induction false} OneMore(w: World, es: seq<Event>, e: Event, t: Time)
    ensures Run(w, es + [e]) == Step(Run(w, es), e)
    ensures AllFresh(w, es + [e]) <==> AllFresh(w, es) && Fresh(Run(w, es), e)
    ensures AllOnTime(t, es + [e]) <==> AllOnTime(t, es) && OnTime(Now(t, es), e)
    ensures Now(t, es + [e]) == After(Now(t, es), e)
    decreases |es|
  {
    hide Step, Fresh, OnTime, After;
    if es == [] {
      assert [] + [e] == [e] && [e][1..] == [];
    } else {
      OneMore(Step(w, es[0]), es[1..], e, After(t, es[0]));
      assert (es + [e])[1..] == es[1..] + [e];
    }
  }

  ghost predicate Lawful(es: seq<Event>) { AllFresh(Initial(USER), es) && AllOnTime(0, es) && Now(0, es) == 0 }

  /** A lawful run that ends with `n` families, having seen fewer than `codes` codes. */
  ghost predicate Reaches(es: seq<Event>, n: nat, codes: nat)
    requires n <= 100
  {
    Lawful(es) && Crowd(Run(Initial(USER), es).st, n) && Seeing(Run(Initial(USER), es), codes)
  }

  lemma SignedIn()
    ensures Reaches([SignIn()], 0, 0)
  {
    var w := Initial(USER);
    OneMore(w, [], SignIn(), 0);
    assert [] + [SignIn()] == [SignIn()];
    var fin := SignIn().fin;
    var p := PurgeIfDue(w.st, 0, PURGE_GRACE);
    assert p == w.st.(lastPurgeAt := Some(0));
    assert FinalizeLogin(w.st, fin).0 == WithSession(p, fin);
  }

  lemma CodeStep(w: World, n: nat)
    requires n <= 20 && Crowd(w.st, n) && Seeing(w, n)
    ensures var e := GetCode(n);
      && Fresh(w, e) && OnTime(0, e) && After(0, e) == 0
      && Coded(Step(w, e).st, n) && Seeing(Step(w, e), n + 1)
  {
    CodeComes(w.st, n);
    hide Crowd, Coded, AuthorizeWithSession, Observed;
    assert Step(w, GetCode(n)).st == AuthorizeWithSession(w.st, GetCode(n).auth).0;
  }

  lemma FamilyComes(st: Store, n: nat)
    requires n < 20 && Coded(st, n)
    ensures
      var st' := ExchangeCommit(st, USER, None, Redeem(n)).0;
      && Crowd(st', n + 1) && st'.codes.Keys == st.codes.Keys
      && 100 - n !in st.families && st'.families.Keys == st.families.Keys + {100 - n}
  {
    ExchangeHere(st, n);
    InsertedCrowd(st, n);
    NobodyCapped(Inserted(st, n), n + 1);
    IdsAre(n);
    hide ExchangeCommit, Capped, OfThisSecond;
  }

  lemma FamilyStep(w: World, n: nat)
    requires n < 20 && Coded(w.st, n) && Seeing(w, n + 1) && 0 in w.pending && w.pending[0] == USER
    ensures var e := Commit(0, None, Redeem(n));
      && Fresh(w, e) && OnTime(0, e) && After(0, e) == 0
      && Crowd(Step(w, e).st, n + 1) && Seeing(Step(w, e), n + 1)
  {
    FamilyComes(w.st, n);
    hide Coded, Crowd, ExchangeCommit, Observed;
    assert Step(w, Commit(0, None, Redeem(n))).st == ExchangeCommit(w.st, USER, None, Redeem(n)).0;
  }

  lemma WithCode(es: seq<Event>, n: nat)
    requires n <= 20 && Reaches(es, n, n)
    ensures var more := es + [GetCode(n)];
      Reaches(more, n, n + 1) && Coded(Run(Initial(USER), more).st, n)
  {
    CodeStep(Run(Initial(USER), es), n);
    OneMore(Initial(USER), es, GetCode(n), 0);
    hide Run, Step, Fresh, OnTime, After, AllFresh, AllOnTime, Now, Crowd, Seeing;
  }

  lemma ReadStep(w: World, n: nat)
    requires n <= 20 && Coded(w.st, n) && Seeing(w, n + 1)
    ensures var e := ReadUser(0); var v := Step(w, e);
      && Fresh(w, e) && OnTime(0, e) && After(0, e) == 0
      && v.st == w.st && Seeing(v, n + 1) && 0 in v.pending && v.pending[0] == USER
  {
    assert w.st.user == USER;
    hide Coded, Crowd;
  }

  lemma WithRead(es: seq<Event>, n: nat)
    requires n <= 20 && Reaches(es, n, n + 1) && Coded(Run(Initial(USER), es).st, n)
    ensures var more := es + [ReadUser(0)];
      && Reaches(more, n, n + 1) && Coded(Run(Initial(USER), more).st, n)
      && 0 in Run(Initial(USER), more).pending && Run(Initial(USER), more).pending[0] == USER
  {
    ReadStep(Run(Initial(USER), es), n);
    OneMore(Initial(USER), es, ReadUser(0), 0);
    hide Run, Step, Fresh, OnTime, After, AllFresh, AllOnTime, Now, Crowd, Seeing;
  }

  lemma WithFamilyToo(es: seq<Event>, n: nat)
    requires n < 20 && Reaches(es, n, n + 1) && Coded(Run(Initial(USER), es).st, n)
    requires 0 in Run(Initial(USER), es).pending && Run(Initial(USER), es).pending[0] == USER
    ensures Reaches(es + [Commit(0, None, Redeem(n))], n + 1, n + 1)
  {
    FamilyStep(Run(Initial(USER), es), n);
    OneMore(Initial(USER), es, Commit(0, None, Redeem(n)), 0);
    hide Run, Step, Fresh, OnTime, After, AllFresh, AllOnTime, Now, Crowd, Seeing, Coded;
  }

  lemma {:induction false} Crowding(n: nat) returns (es: seq<Event>)
    requires n <= 20
    ensures Reaches(es, n, n)
  {
    hide Reaches, Coded, Run;
    if n == 0 {
      SignedIn();
      es := [SignIn()];
    } else {
      es := Crowding(n - 1);
      WithCode(es, n - 1);
      es := es + [GetCode(n - 1)];
      WithRead(es, n - 1);
      es := es + [ReadUser(0)];
      WithFamilyToo(es, n - 1);
      es := es + [Commit(0, None, Redeem(n - 1))];
    }
  }

  /** The run: twenty exchanges, a code, and an exchange that answers with a family it has just revoked. */
  lemma AnExchangeRevokesItsOwnFamily() returns (es: seq<Event>, input: ExchangeInput, f: FamilyId)
    ensures AllFresh(Initial(USER), es) && AllOnTime(0, es) && Now(0, es) <= input.now
    ensures
      var (st', out) := ExchangeCommit(Run(Initial(USER), es).st, USER, None, input);
      out.Exchanged? && out.family == Some(f) && f in st'.families && st'.families[f].revoked.Some?
  {
    es := Crowding(20);
    WithCode(es, 20);
    es := es + [GetCode(20)];
    input, f := Redeem(20), 80;
    var st := Run(Initial(USER), es).st;
    ExchangeHere(st, 20);
    TwentyAbove(st);
    hide Run, AllFresh, AllOnTime, Now, ExchangeCommit, Crowd, Inserted, Overflow;
  }

  lemma TwentyAbove(st: Store)
    requires Coded(st, 20)
    ensures var q := Capped(Inserted(st, 20), 1, 0); 80 in q.families && q.families[80].revoked.Some?
  {
    var family := Inserted(st, 20).families[80];
    IdsAre(20);
    assert SameSecondGreater(st.families, 1, 0, 80) == Ids(20);
    assert LiveFamily(family, 0) && Inserted(st, 20).families == st.families[80 := family];
    hide Inserted, Crowd, Overflow, SameSecondGreater;
    NewestAmong(st.families, 80, family, 0);
  }
}
