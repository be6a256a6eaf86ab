/** The handler of src/interaction/complete.ts run by itself on the two objects: the same steps
    that CompleteProtocol interleaves, in the order in which the handler makes its calls. */
module CompleteHandler {
  import opened Options
  import I = InteractionModel
  import U = UserModel
  import P = CompleteProtocol
  import opened InteractionObject
  import opened UserObject

  /** The interaction and the one user object the request talks to. */
  ghost function Before(cell: I.Cell, uid: nat, st: U.Store): P.World {
    P.World(cell, map[uid := st], map[], P.Waiting, {}, [])
  }

  /** Arrive, claim, serve (again when the session to rotate had vanished), settle. */
  ghost function Served(w: P.World, v: P.Visit): P.World {
    var claimed := P.Step(P.Step(w, P.Arrive(0, v)), P.Claim(0));
    P.Step(P.Step(P.Step(claimed, P.Serve(0)), P.Serve(0)), P.Settle(0))
  }

  // ---------------------------------------------------------------- the steps of a holder in one piece

  ghost function Work(users: P.Users, v: P.Visit, doc: I.Doc): (P.Users, P.Phase) {
    var (once, first) := P.Work(users, P.Request(v, doc, P.Holding));
    if first.Replacing? then P.Work(once, P.Request(v, doc, P.Replacing)) else (once, first)
  }

  ghost function Settled(cell: I.Cell, phase: P.Phase, now: int): (I.Cell, P.Phase) {
    if phase.Restarting? then
      var (next, r) := I.Apply(cell, I.Restart, I.LoginRequired, P.Restart(), now);
      (next, if r.Done? then P.Restarted else P.Ended)
    else if phase.Ended? then (cell, P.Ended)
    else (I.Apply(cell, I.Complete, I.Completed, I.NoPatch, now).0, P.Ended)
  }

  ghost function PhaseOf(w: P.World): Option<P.Phase> {
    if 0 in w.requests then Some(w.requests[0].phase) else None
  }

  lemma WorkSettles(users: P.Users, v: P.Visit, doc: I.Doc)
    ensures Work(users, v, doc).1 in {P.Issued, P.Restarting, P.Closing, P.Ended}
  {
    hide P.Authorize, P.Finalize;
  }

  lemma ServedTwice(w: P.World, v: P.Visit, doc: I.Doc)
    requires w.requests == map[0 := P.Request(v, doc, P.Holding)]
    ensures
      var twice := P.Step(P.Step(w, P.Serve(0)), P.Serve(0));
      var (users, phase) := Work(w.users, v, doc);
      twice.users == users && twice.cell == w.cell && twice.requests == map[0 := P.Request(v, doc, phase)]
  {
    WorkSettles(w.users, v, doc);
    hide P.Work;
    assert P.Step(w, P.Serve(0)).requests ==
      map[0 := P.Request(v, doc, P.Work(w.users, P.Request(v, doc, P.Holding)).1)];
  }

  lemma HolderSteps(w: P.World, v: P.Visit, doc: I.Doc)
    requires w.requests == map[0 := P.Request(v, doc, P.Holding)]
    ensures
      var after := P.Step(P.Step(P.Step(w, P.Serve(0)), P.Serve(0)), P.Settle(0));
      var (users, phase) := Work(w.users, v, doc);
      after.users == users
        && (after.cell, PhaseOf(after)) == (Settled(w.cell, phase, v.now).0, Some(Settled(w.cell, phase, v.now).1))
  {
    WorkSettles(w.users, v, doc);
    ServedTwice(w, v, doc);
    hide P.DoServe, Work, I.Apply;
  }

  // ---------------------------------------------------------------- the handler

  /** The user calls of a request whose claim succeeded. */
  method Issue(uid: nat, user: UserDO, v: P.Visit, doc: I.Doc) returns (phase: P.Phase)
    requires P.Uid(doc).Some? ==> P.Uid(doc).value == uid
    modifies user
    ensures (map[uid := user.Contents()], phase) == Work(map[uid := old(user.Contents())], v, doc)
  {
    hide U.AuthorizeWithSession, U.FinalizeLogin;
    if doc.kind == I.Logout || doc.status == I.Failed || v.client.None? || P.Uid(doc).None? {
      return P.Closing;
    }
    if doc.request.None? {
      return P.Ended;
    }
    ghost var st := user.Contents();
    if doc.auth.None? {
      var out := user.AuthorizeWithSession(P.AuthorizeCall(v, doc));
      assert map[uid := st][uid := user.Contents()] == map[uid := user.Contents()];
      return if out.Authorized? then P.Issued else if out.AuthorizeThrown? then P.Ended else P.Restarting;
    }
    var sid: Option<nat> := None;
    if !doc.auth.value.newSession && doc.existing.Some? {
      var rotated := user.FinalizeLogin(P.RotateCall(v, doc));
      assert map[uid := st][uid := user.Contents()] == map[uid := user.Contents()];
      if rotated.Finalized? {
        sid := Some(doc.existing.value.sid);
      } else if rotated != U.FinalizeFailed(U.SessionInvalid) {
        return if rotated.FinalizeThrown? then P.Ended else P.Closing;
      }
    }
    phase := P.Issued;
    if sid.None? {
      ghost var reached := user.Contents();
      var created := user.FinalizeLogin(P.CreateCall(v, doc));
      assert map[uid := reached][uid := user.Contents()] == map[uid := user.Contents()];
      phase := P.AfterCreate(created);
    }
  }

  /** The last call on the interaction: complete it or give it back. */
  method Settle(ix: InteractionDO, reached: P.Phase, now: int) returns (phase: P.Phase)
    modifies ix
    ensures (ix.Contents(), phase) == Settled(old(ix.Contents()), reached, now)
  {
    hide I.Apply;
    phase := P.Ended;
    if reached == P.Restarting {
      var r := ix.Transition(I.Restart, I.LoginRequired, P.Restart(), now);
      if r.Done? {
        phase := P.Restarted;
      }
    } else if reached != P.Ended {
      var _ := ix.Transition(I.Complete, I.Completed, I.NoPatch, now);
    }
  }

  /** The handler undisturbed, `user` being the object of the user the document names. It does
      what its steps of the protocol do one after the other; the phase is absent when the
      request was turned away before it could claim. */
  method Complete(ix: InteractionDO, uid: nat, user: UserDO, v: P.Visit) returns (phase: Option<P.Phase>)
    requires ix.doc.Some? && P.Uid(ix.doc.value).Some? ==> P.Uid(ix.doc.value).value == uid
    modifies ix, user
    ensures
      var w := Served(Before(old(ix.Contents()), uid, old(user.Contents())), v);
      ix.Contents() == w.cell && map[uid := user.Contents()] == w.users && phase == PhaseOf(w)
  {
    hide I.ClaimCompletion, P.DoServe, P.DoSettle, Work, Settled;
    ghost var arrived := P.Step(Before(ix.Contents(), uid, user.Contents()), P.Arrive(0, v));
    var got := ix.Read(v.now);
    if got.Refused? || (got.doc.status != I.Ready && got.doc.status != I.Failed) {
      return None;
    }
    ghost var claimed := P.Step(arrived, P.Claim(0));
    var claim := ix.TakeCompletion(v.now);
    if claim.Refused? {
      return Some(P.Turned);
    }
    HolderSteps(claimed, v, got.doc);
    var reached := Issue(uid, user, v, got.doc);
    var end := Settle(ix, reached, v.now);
    phase := Some(end);
  }
}
