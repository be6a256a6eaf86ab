/** A lawful run of CompleteProtocol in which an interaction is aborted and its code issued all the same. */
module CompleteWitness {
  import opened Options
  import I = InteractionModel
  import R = InteractionRuns
  import U = UserModel
  import opened CompleteProtocol

  const DRAFT :=
    I.Draft(I.Authorize, I.LoginRequired, 0, Some(1), Some(I.Request("", [], None, None, {}, None)), None, None)
  const AUTH := I.Auth(1, [], "", None, 0, true)
  const STORE := U.Store(U.User(1, {}, None), map[], map[], map[], map[], map[], Some(0))
  const USERS: Users := map[1 := STORE]
  const VISIT := Visit(0, None, Some(U.Client(1, 0, true, None)), 7, 1, 1, 10, 10, {})

  ghost function SignedIn(): Event { Other(R.Move(I.Authenticate, I.Ready, I.NoPatch.(auth := I.Set(Some(AUTH))), 0)) }

  ghost function Aborting(): Event {
    Other(R.Move(I.Abort, I.Failed, I.NoPatch.(error := I.Set(Some("access_denied"))), 0))
  }

  ghost function Ready(): I.Doc { I.Blank(DRAFT, 0, 100).(status := I.Ready, auth := Some(AUTH)) }

  ghost function Start(): World { Opened(DRAFT, 0, 100, USERS) }

  /** Signed in, then read by a `/complete` request. */
  ghost function Arrived(): World { Step(Step(Start(), SignedIn()), Arrive(1, VISIT)) }

  lemma ArrivedIs()
    ensures Legal(Start(), SignedIn()) && Legal(Step(Start(), SignedIn()), Arrive(1, VISIT))
    ensures Arrived() ==
      World(I.Cell(Some(Ready()), Some(100)), USERS, map[1 := Request(VISIT, Ready(), Got)], Waiting, {7}, [])
  {
    var w := Step(Start(), SignedIn());
    assert w == World(I.Cell(Some(Ready()), Some(100)), USERS, map[], Waiting, {}, []);
    assert {} + {7} == {7};
  }

  /** The abort on the document as it was read. */
  lemma AbortedCell(c: I.Cell)
    requires c == I.Cell(Some(Ready()), Some(100))
    ensures
      var after := R.Next(c, Aborting().event).0.doc;
      after.Some? && after.value.status == I.Failed && after.value.expiresAt == 60 && !after.value.completing
  {
    var p := Aborting().event.patch;
    assert I.CanTransition(I.Ready, I.Abort, I.Failed);
    var moved := I.Moved(Ready(), I.Failed, p, 0);
    assert moved.status == I.Failed && moved.expiresAt == 60 && !moved.completing;
    hide I.Moved, I.CanTransition;
  }

  lemma AbortedIs()
    ensures
      var w := Step(Arrived(), Aborting());
      && Legal(Arrived(), Aborting())
      && w.cell.doc.Some? && w.cell.doc.value.status == I.Failed && w.cell.doc.value.expiresAt == 60
      && !w.cell.doc.value.completing && w.users == USERS && w.issues == []
      && w.requests == map[1 := Request(VISIT, Ready(), Got)]
  {
    ArrivedIs();
    AbortedCell(Arrived().cell);
    hide Arrived, R.Next;
  }

  /** The claim succeeds on the aborted document. */
  lemma ClaimedIs()
    ensures
      var w := Step(Step(Arrived(), Aborting()), Claim(1));
      && w.cell.doc.Some? && w.cell.doc.value.status == I.Failed && w.users == USERS && w.issues == []
      && w.requests == map[1 := Request(VISIT, Ready(), Holding)]
  {
    AbortedIs();
    hide Arrived, Aborting, R.Next;
  }

  lemma CodeComes()
    ensures Work(USERS, Request(VISIT, Ready(), Holding)).1.Issued?
  {
    var input := CreateCall(VISIT, Ready());
    assert U.PurgeIfDue(STORE, 0, U.PURGE_GRACE) == STORE;
    assert U.FinalizeLogin(STORE, input).1.Finalized?;
    hide U.FinalizeLogin;
  }

  lemma {:induction false} OneMore(w: World, es: seq<Event>, e: Event)
    ensures Run(w, es + [e]) == Step(Run(w, es), e)
    ensures AllLegal(w, es + [e]) <==> AllLegal(w, es) && Legal(Run(w, es), e)
    decreases |es|
  {
    hide Step, Legal;
    if es == [] {
      assert [] + [e] == [e] && [e][1..] == [];
    } else {
      OneMore(Step(w, es[0]), es[1..], e);
      assert (es + [e])[1..] == es[1..] + [e];
    }
  }

  lemma ServedIs()
    ensures
      var w := Step(Step(Arrived(), Aborting()), Claim(1));
      |Step(w, Serve(1)).issues| == 1 && Step(w, Serve(1)).cell == w.cell
  {
    ClaimedIs();
    CodeComes();
    hide Arrived, Aborting, R.Next, Work, DoClaim;
  }

  lemma ClaimAndServeAreLegal(w: World)
    ensures Legal(w, Claim(1)) && Legal(w, Serve(1))
  {}

  /** Signed in, read, aborted, claimed, served: one code, on a document that is failed. */
  lemma AbortedAndStillIssued() returns (es: seq<Event>)
    ensures AllLegal(Start(), es)
    ensures var w := Run(Start(), es); |w.issues| == 1 && w.cell.doc.Some? && w.cell.doc.value.status == I.Failed
  {
    hide Step, Legal, Work, Ready;
    ArrivedIs();
    AbortedIs();
    ClaimedIs();
    ServedIs();
    ClaimAndServeAreLegal(Step(Arrived(), Aborting()));
    ClaimAndServeAreLegal(Step(Step(Arrived(), Aborting()), Claim(1)));
    es := [];
    OneMore(Start(), es, SignedIn());
    hide Run, AllLegal;
    es := es + [SignedIn()];
    OneMore(Start(), es, Arrive(1, VISIT));
    es := es + [Arrive(1, VISIT)];
    OneMore(Start(), es, Aborting());
    es := es + [Aborting()];
    OneMore(Start(), es, Claim(1));
    es := es + [Claim(1)];
    OneMore(Start(), es, Serve(1));
    es := es + [Serve(1)];
  }
}
