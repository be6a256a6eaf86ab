/** `/complete` (src/interaction/complete.ts) and the pushed-request path of `/authorize`
    (src/oidc/authorize-endpoint.ts) as clients of the interaction object and the user objects.

    Each remote call is one step. Any number of requests take their steps in any order, between
    them every other caller of the interaction acts, the alarm rings, requests die, and the user
    objects change in any way that does not forge a code. A request keeps the clock reading and
    the document of its first step to the end, as the handlers do. */
module CompleteProtocol {
  import opened Options
  import I = InteractionModel
  import R = InteractionRuns
  import U = UserModel

  type Users = map<nat, U.Store>

  /** The digest a request without a matching cookie presents: 32 zero bytes. */
  const NO_SECRET: nat := 0

  // ---------------------------------------------------------------- requests

  /** What a `/complete` request brings along: its clock, cookie, client record and fresh secrets. */
  datatype Visit = Visit(
    now: int, cookie: Option<(nat, nat)>, client: Option<U.Client>, codeHash: nat, newSid: nat, newSecret: nat,
    idleTtl: int, absoluteTtl: int, granted: set<string>)

  datatype Phase =
    | Got          // read a ready or failed document, has not claimed it
    | Turned       // turned away without a claim
    | Holding      // claimed
    | Replacing    // claimed, and the session to rotate had vanished
    | Issued       // a code was issued; the completion is outstanding
    | Restarting   // the session was refused; the restart is outstanding
    | Closing      // an error or logout redirect; the completion is outstanding
    | Restarted    // gave the interaction back
    | Ended        // completed it, or died or failed to give it back

  datatype Request = Request(visit: Visit, doc: I.Doc, phase: Phase)

  /** The `/authorize` request that took the pushed request. */
  datatype Push = Push(
    now: int, client: U.Client, binding: nat, ttl: int, cookie: Option<(nat, nat, nat)>, codeHash: nat, idleTtl: int,
    granted: set<string>)

  datatype Par =
    | Waiting
    | Taken(push: Push, doc: I.Doc)
    | Hit(push: Push)
    | Settling(push: Push, op: I.Operation, to: I.Status, patch: I.Patch)
    | Settled

  /** A code issued for the interaction; `taker` is absent for the pushed request. */
  datatype Issue = Issue(taker: Option<nat>, uid: nat, code: nat)

  datatype World = World(
    cell: I.Cell, users: Users, requests: map<nat, Request>, par: Par, minted: set<nat>, issues: seq<Issue>)

  // ---------------------------------------------------------------- the user calls

  function Uid(doc: I.Doc): Option<nat> {
    if doc.auth.Some? then Some(doc.auth.value.uid)
    else if doc.existing.Some? then Some(doc.existing.value.uid) else None
  }

  function CodeOf(v: Visit, doc: I.Doc): U.CodeInput
    requires doc.request.Some? && v.client.Some?
  {
    var q := doc.request.value;
    U.CodeInput(v.codeHash, v.client.value.clientId, q.redirectUri,
                if doc.consent.Some? then doc.consent.value else q.scope, q.nonce, q.challenge)
  }

  function AuthorizeCall(v: Visit, doc: I.Doc): U.AuthorizeInput
    requires doc.request.Some? && v.client.Some? && doc.existing.Some?
  {
    var sid := doc.existing.value.sid;
    var presented := if v.cookie.Some? && v.cookie.value.0 == sid then v.cookie.value.1 else NO_SECRET;
    var code := CodeOf(v, doc);
    U.AuthorizeInput(sid, presented, v.now, v.client.value, code.scope, false, false, None, Some(code), v.idleTtl,
      v.granted)
  }

  function ClaimsOf(a: I.Auth): U.Claims { U.Claims(a.authTime, a.amr, a.acr) }

  function RotateCall(v: Visit, doc: I.Doc): U.FinalizeInput
    requires doc.request.Some? && v.client.Some? && doc.auth.Some? && doc.existing.Some?
  {
    var a := doc.auth.value;
    U.FinalizeInput(v.now, U.Rotate(doc.existing.value.sid, v.newSecret, ClaimsOf(a), a.upstream),
                    Some(CodeOf(v, doc)), v.client, v.idleTtl)
  }

  function CreateCall(v: Visit, doc: I.Doc): U.FinalizeInput
    requires doc.request.Some? && v.client.Some? && doc.auth.Some?
  {
    var a := doc.auth.value;
    U.FinalizeInput(v.now, U.Create(v.newSid, v.newSecret, ClaimsOf(a), a.upstream, v.idleTtl, v.absoluteTtl),
                    Some(CodeOf(v, doc)), v.client, v.idleTtl)
  }

  /** A user object nobody initialised refuses every call. */
  function Authorize(users: Users, uid: nat, input: U.AuthorizeInput): (Users, U.AuthorizeOutcome) {
    if uid !in users then (users, U.AuthorizeFailed(U.UserDisabled))
    else var (st, out) := U.AuthorizeWithSession(users[uid], input); (users[uid := st], out)
  }

  function Finalize(users: Users, uid: nat, input: U.FinalizeInput): (Users, U.FinalizeOutcome) {
    if uid !in users then (users, U.FinalizeFailed(U.UserDisabled))
    else var (st, out) := U.FinalizeLogin(users[uid], input); (users[uid := st], out)
  }

  function AfterCreate(out: U.FinalizeOutcome): Phase {
    match out
    case Finalized(_, _, _) => Issued
    case FinalizeFailed(_) => Closing
    case FinalizeThrown => Ended
  }

  /** The next user call of a request that holds the claim (complete.ts:119-292). */
  function Work(users: Users, q: Request): (Users, Phase) {
    var (v, doc) := (q.visit, q.doc);
    if doc.kind == I.Logout || doc.status == I.Failed || v.client.None? || Uid(doc).None? then (users, Closing)
    else if doc.request.None? then (users, Ended)
    else if doc.auth.None? then
      var (next, out) := Authorize(users, Uid(doc).value, AuthorizeCall(v, doc));
      (next, if out.Authorized? then Issued else if out.AuthorizeThrown? then Ended else Restarting)
    else if q.phase.Holding? && !doc.auth.value.newSession && doc.existing.Some? then
      var (next, out) := Finalize(users, Uid(doc).value, RotateCall(v, doc));
      (next, if out == U.FinalizeFailed(U.SessionInvalid) then Replacing else AfterCreate(out))
    else
      var (next, out) := Finalize(users, Uid(doc).value, CreateCall(v, doc));
      (next, AfterCreate(out))
  }

  function PushCall(p: Push, doc: I.Doc, sid: nat, secret: nat): U.AuthorizeInput
    requires doc.request.Some?
  {
    var q := doc.request.value;
    U.AuthorizeInput(sid, secret, p.now, p.client, q.scope, "login" in q.prompt, "consent" in q.prompt, q.maxAge,
                     Some(U.CodeInput(p.codeHash, p.client.clientId, q.redirectUri, q.scope, q.nonce, q.challenge)),
                     p.idleTtl, p.granted)
  }

  function Denied(p: Push, error: string): Par {
    Settling(p, I.Fail, I.Failed, I.NoPatch.(error := I.Set(Some(error))))
  }

  function Asked(p: Push, doc: I.Doc, status: I.Status, existing: Option<I.Existing>): Par {
    if doc.request.Some? && "none" in doc.request.value.prompt then
      Denied(p, if status == I.ConsentRequired then "consent_required" else "login_required")
    else Settling(p, I.ConsumePar, status, I.NoPatch.(existing := I.Set(existing)))
  }

  /** Session evaluation after the claim (authorize-endpoint.ts:183-231). */
  function Evaluate(users: Users, p: Push, doc: I.Doc): (Users, Par) {
    if doc.request.None? then (users, Settled)
    else if p.cookie.None? then (users, Asked(p, doc, I.LoginRequired, None))
    else
      var (uid, sid, secret) := p.cookie.value;
      var (next, out) := Authorize(users, uid, PushCall(p, doc, sid, secret));
      match out
      case Authorized(_, _) => (next, Hit(p))
      case AuthorizeThrown => (next, Settled)
      case AuthorizeFailed(error) =>
        (next, if error == U.UserNotAllowed then Denied(p, "access_denied") else Asked(p, doc, I.LoginRequired, None))
      case ConsentRequired(s, _) =>
        (next, Asked(p, doc, I.ConsentRequired, Some(I.Existing(uid, sid, s.row.claims.authTime))))
      case LoginRequired(s, _) => (next,
        Asked(p, doc, I.LoginRequired, Some(I.Existing(uid, sid, s.row.claims.authTime))))
  }

  // ---------------------------------------------------------------- steps

  datatype Event =
    | Arrive(rid: nat, visit: Visit)
    | Claim(rid: nat)
    | Serve(rid: nat)
    | Settle(rid: nat)
    | Die(rid: nat)
    | TakePushed(push: Push)
    | EvaluatePushed
    | SettlePushed
    | DiePushed
    | Other(event: R.Event)
    | Interfere(users: Users)

  function Restart(): I.Patch {
    I.NoPatch.(existing := I.Set(None), consent := I.Set(None), completing := I.Set(false))
  }

  function With(w: World, rid: nat, phase: Phase): World
    requires rid in w.requests
  {
    w.(requests := w.requests[rid := w.requests[rid].(phase := phase)])
  }

  function DoArrive(w: World, rid: nat, v: Visit): World {
    var noted := w.(minted := w.minted + {v.codeHash});
    match I.Get(w.cell, v.now)
    case Refused(_) => noted
    case Done(doc) =>
      if doc.status == I.Ready || doc.status == I.Failed
        then noted.(requests := w.requests[rid := Request(v, doc, Got)])
      else noted
  }

  function DoClaim(w: World, rid: nat): World
    requires rid in w.requests
  {
    var (cell, r) := I.ClaimCompletion(w.cell, w.requests[rid].visit.now);
    With(w.(cell := cell), rid, if r.Done? then Holding else Turned)
  }

  function DoServe(w: World, rid: nat): World
    requires rid in w.requests
  {
    var q := w.requests[rid];
    var (users, phase) := Work(w.users, q);
    var after := With(w.(users := users), rid, phase);
    if phase.Issued? && Uid(q.doc).Some?
      then after.(issues := w.issues + [Issue(Some(rid), Uid(q.doc).value, q.visit.codeHash)])
    else after
  }

  function DoSettle(w: World, rid: nat): World
    requires rid in w.requests
  {
    var q := w.requests[rid];
    if q.phase.Restarting? then
      var (cell, r) := I.Apply(w.cell, I.Restart, I.LoginRequired, Restart(), q.visit.now);
      With(w.(cell := cell), rid, if r.Done? then Restarted else Ended)
    else With(w.(cell := I.Apply(w.cell, I.Complete, I.Completed, I.NoPatch, q.visit.now).0), rid, Ended)
  }

  function DoDie(w: World, rid: nat): World
    requires rid in w.requests
  {
    match w.requests[rid].phase
    case Got => With(w, rid, Turned)
    case Turned => w
    case Restarted => w
    case _ => With(w, rid, Ended)
  }

  function DoTake(w: World, p: Push): World {
    var (cell, r) := I.ClaimPushed(w.cell, p.client.clientId, p.binding, p.now, p.ttl);
    w.(cell := cell, minted := w.minted + {p.codeHash}, par := if r.Done? then Taken(p, r.doc) else w.par)
  }

  function DoEvaluate(w: World): World
    requires w.par.Taken?
  {
    var (users, par) := Evaluate(w.users, w.par.push, w.par.doc);
    var after := w.(users := users, par := par);
    if par.Hit? && w.par.push.cookie.Some? then
      after.(issues := w.issues + [Issue(None, w.par.push.cookie.value.0, w.par.push.codeHash)])
    else after
  }

  function DoSettlePushed(w: World): World {
    match w.par
    case Hit(p) => w.(cell := I.Apply(w.cell, I.ConsumePar, I.Completed, I.NoPatch, p.now).0, par := Settled)
    case Settling(p, op, to, patch) => w.(cell := I.Apply(w.cell, op, to, patch, p.now).0, par := Settled)
    case _ => w
  }

  /** Steps that are not enabled do nothing. */
  function Step(w: World, e: Event): World {
    match e
    case Arrive(rid, visit) => DoArrive(w, rid, visit)
    case Claim(rid) => if rid in w.requests && w.requests[rid].phase.Got? then DoClaim(w, rid) else w
    case Serve(rid) =>
      if rid in w.requests && (w.requests[rid].phase.Holding? || w.requests[rid].phase.Replacing?) then DoServe(w, rid)
        else w
    case Settle(rid) =>
      if rid in w.requests
        && (w.requests[rid].phase.Restarting? || w.requests[rid].phase.Issued? || w.requests[rid].phase.Closing?)
      then DoSettle(w, rid) else w
    case Die(rid) => if rid in w.requests then DoDie(w, rid) else w
    case TakePushed(push) => DoTake(w, push)
    case EvaluatePushed => if w.par.Taken? then DoEvaluate(w) else w
    case SettlePushed => DoSettlePushed(w)
    case DiePushed => if w.par.Waiting? then w else w.(par := Settled)
    case Other(event) => w.(cell := R.Next(w.cell, event).0)
    case Interfere(users) => w.(users := users)
  }

  predicate Unused(w: World, code: nat) {
    code !in w.minted && forall u :: u in w.users ==> code !in w.users[u].codes
  }

  /** Requests have their own identity and a fresh random code; only `/complete` claims and
      releases the completion; only the taker of a pushed request consumes it; nobody else can
      insert a code under a digest minted for this interaction. */
  predicate Legal(w: World, e: Event) {
    match e
    case Arrive(rid, visit) => rid !in w.requests && Unused(w, visit.codeHash)
    case TakePushed(push) => Unused(w, push.codeHash)
    case Other(event) =>
      && !event.TakePush? && !event.TakeCompletion?
      && (event.Move? ==> event.op != I.ConsumePar && event.patch.completing.Keep?)
    case Interfere(users) =>
      forall u, h :: u in users && h in users[u].codes && h in w.minted ==> u in w.users && h in w.users[u].codes
    case _ => true
  }

  function Run(w: World, es: seq<Event>): World
    decreases |es|
  {
    if es == [] then w else Run(Step(w, es[0]), es[1..])
  }

  predicate AllLegal(w: World, es: seq<Event>)
    decreases |es|
  {
    es == [] || (Legal(w, es[0]) && AllLegal(Step(w, es[0]), es[1..]))
  }

  function Opened(d: I.Draft, now: int, ttl: int, users: Users): World {
    World(I.Create(I.Cell(None, None), d, now, ttl).0, users, map[], Waiting, {}, [])
  }

  // ---------------------------------------------------------------- the invariant

  /** Took the completion and has not given it back. */
  predicate Holds(p: Phase) { !p.Got? && !p.Turned? && !p.Restarted? }

  predicate Snapshots(w: World) {
    && (forall r :: r in w.requests ==> w.requests[r].doc.status in {I.Ready, I.Failed})
    && (forall r :: r in w.requests ==> w.requests[r].visit.codeHash in w.minted)
    && (w.par.Taken? ==> w.par.push.codeHash in w.minted)
    && (w.par.Settling? ==> w.par.patch.completing.Keep?)
  }

  predicate OneHolder(w: World) {
    && (forall r, s ::
         r in w.requests && s in w.requests && Holds(w.requests[r].phase) && Holds(w.requests[s].phase) ==> r == s)
    && (forall r :: r in w.requests && Holds(w.requests[r].phase) && w.cell.doc.Some? ==> w.cell.doc.value.completing)
  }

  /** The interaction never got past its pushed request. */
  predicate Unsettled(w: World) {
    && (w.cell.doc.Some? ==> w.cell.doc.value.status in {I.Pushed, I.Failed, I.Completed})
    && (forall r :: r in w.requests ==> w.requests[r].doc.status != I.Ready)
  }

  predicate ParFirst(w: World) {
    && (w.par.Taken? || w.par.Hit? || w.par.Settling? ==> Unsettled(w))
    && (w.cell.doc.Some? && w.cell.doc.value.status == I.Pushed ==>
          Unsettled(w) && (w.par.Waiting? || w.cell.doc.value.parConsumed))
  }

  /** An issue belongs to a ready request that still holds the claim, or to the session hit. */
  predicate Backed(w: World, i: Issue) {
    if i.taker.Some? then
      && i.taker.value in w.requests
      && w.requests[i.taker.value].doc.status == I.Ready
      && (w.requests[i.taker.value].phase.Issued? || w.requests[i.taker.value].phase.Ended?)
    else Unsettled(w) && (w.par.Hit? || w.par.Settled?)
  }

  predicate AtMostOne(w: World) { |w.issues| <= 1 && (|w.issues| == 1 ==> Backed(w, w.issues[0])) }

  /** Every code row under a digest minted for the interaction comes from an issue. */
  predicate RowsIssued(w: World) {
    forall u, h :: u in w.users && h in w.users[u].codes && h in w.minted ==>
      exists i :: i in w.issues && i.uid == u && i.code == h
  }

  predicate Inv(w: World) { Snapshots(w) && OneHolder(w) && ParFirst(w) && AtMostOne(w) && RowsIssued(w) }

  // ---------------------------------------------------------------- what the user calls insert

  /** No code row in `b` that is not in `a`, except `h` of `uid` when `ok`. */
  predicate Inserts(a: Users, b: Users, uid: nat, h: nat, ok: bool) {
    forall u, k :: u in b && k in b[u].codes ==> u in a && (k in a[u].codes || (ok && u == uid && k == h))
  }

  lemma PurgeInsertsNothing(st: U.Store, now: int, window: int)
    ensures U.PurgeIfDue(st, now, window).codes.Keys <= st.codes.Keys
  {
  }

  lemma AuthorizeInserts(users: Users, uid: nat, input: U.AuthorizeInput)
    requires input.code.Some?
    ensures var (next, out) := Authorize(users, uid, input);
      Inserts(users, next, uid, input.code.value.secretHash, out.Authorized?)
  {
    hide U.PurgeIfDue, U.SnapshotOf, U.SessionHit, U.Allowed, U.AdminAllowed;
    if uid in users {
      PurgeInsertsNothing(users[uid], input.now, U.PURGE_GRACE);
    }
  }

  lemma FinalizeInserts(users: Users, uid: nat, input: U.FinalizeInput)
    requires input.code.Some?
    ensures var (next, out) := Finalize(users, uid, input);
      Inserts(users, next, uid, input.code.value.secretHash, out.Finalized?)
  {
    hide U.PurgeIfDue, U.SnapshotOf, U.SecretTaken, U.Allowed, U.AdminAllowed, U.Reauthenticated, U.NewSession;
    if uid in users {
      PurgeInsertsNothing(users[uid], input.now, U.PURGE_GRACE);
    }
  }

  lemma WorkInserts(users: Users, q: Request)
    ensures var (next, phase) := Work(users, q);
      && Inserts(users, next, if Uid(q.doc).Some? then Uid(q.doc).value else 0, q.visit.codeHash, phase.Issued?)
      && Holds(phase) && (phase.Issued? ==> Uid(q.doc).Some? && q.doc.status != I.Failed)
  {
    hide Authorize, Finalize;
    var (v, doc) := (q.visit, q.doc);
    if doc.request.Some? && v.client.Some? && Uid(doc).Some? {
      if doc.auth.None? {
        AuthorizeInserts(users, Uid(doc).value, AuthorizeCall(v, doc));
      } else {
        if doc.existing.Some? {
          FinalizeInserts(users, Uid(doc).value, RotateCall(v, doc));
        }
        FinalizeInserts(users, Uid(doc).value, CreateCall(v, doc));
      }
    }
  }

  lemma EvaluateInserts(users: Users, p: Push, doc: I.Doc)
    ensures var (next, par) := Evaluate(users, p, doc);
      && Inserts(users, next, if p.cookie.Some? then p.cookie.value.0 else 0, p.codeHash, par.Hit?)
      && !par.Taken? && !par.Waiting? && (par.Settling? ==> par.patch.completing.Keep?) && (par.Hit? ==> p.cookie.Some?)
  {
    hide Authorize;
    if doc.request.Some? && p.cookie.Some? {
      var (uid, sid, secret) := p.cookie.value;
      AuthorizeInserts(users, uid, PushCall(p, doc, sid, secret));
    }
  }

  // ---------------------------------------------------------------- every step keeps the invariant

  lemma RowsStayIssued(w: World, v: World, uid: nat, h: nat, ok: bool)
    requires RowsIssued(w) && Inserts(w.users, v.users, uid, h, ok) && v.minted == w.minted
    requires forall i :: i in w.issues ==> i in v.issues
    requires ok ==> exists i :: i in v.issues && i.uid == uid && i.code == h
    ensures RowsIssued(v)
  {
  }

  lemma ServeKeepsRows(w: World, rid: nat)
    requires RowsIssued(w) && rid in w.requests
    ensures RowsIssued(DoServe(w, rid))
  {
    hide Work, RowsIssued, Inserts;
    var q := w.requests[rid];
    WorkInserts(w.users, q);
    var v := DoServe(w, rid);
    if Work(w.users, q).1.Issued? {
      var i := Issue(Some(rid), Uid(q.doc).value, q.visit.codeHash);
      assert i in v.issues && i.uid == Uid(q.doc).value && i.code == q.visit.codeHash;
    }
    var uid := if Uid(q.doc).Some? then Uid(q.doc).value else 0;
    RowsStayIssued(w, v, uid, q.visit.codeHash, Work(w.users, q).1.Issued?);
  }

  lemma ServeKeeps(w: World, rid: nat)
    requires Inv(w) && rid in w.requests && (w.requests[rid].phase.Holding? || w.requests[rid].phase.Replacing?)
    ensures Inv(DoServe(w, rid))
  {
    hide Work, RowsIssued, Inserts;
    WorkInserts(w.users, w.requests[rid]);
    ServeKeepsRows(w, rid);
  }

  lemma EvaluateKeepsRows(w: World)
    requires RowsIssued(w) && w.par.Taken?
    ensures RowsIssued(DoEvaluate(w))
  {
    hide Evaluate, RowsIssued, Inserts;
    var p := w.par.push;
    EvaluateInserts(w.users, p, w.par.doc);
    var v := DoEvaluate(w);
    if v.par.Hit? {
      var i := Issue(None, p.cookie.value.0, p.codeHash);
      assert i in v.issues && i.uid == p.cookie.value.0 && i.code == p.codeHash;
    }
    RowsStayIssued(w, v, if p.cookie.Some? then p.cookie.value.0 else 0, p.codeHash, v.par.Hit?);
  }

  lemma EvaluateKeeps(w: World)
    requires Inv(w) && w.par.Taken?
    ensures Inv(DoEvaluate(w))
  {
    hide Evaluate, RowsIssued, Inserts;
    EvaluateInserts(w.users, w.par.push, w.par.doc);
    EvaluateKeepsRows(w);
  }

  lemma ArriveKeeps(w: World, rid: nat, v: Visit)
    requires Inv(w) && rid !in w.requests && Unused(w, v.codeHash)
    ensures Inv(DoArrive(w, rid, v))
  {
    assert RowsIssued(DoArrive(w, rid, v));
    hide RowsIssued;
  }

  lemma ClaimKeeps(w: World, rid: nat)
    requires Inv(w) && rid in w.requests && w.requests[rid].phase.Got?
    ensures Inv(DoClaim(w, rid))
  {
  }

  /** The claim is kept, nothing becomes pushed or unpushed by a consumption. */
  predicate Follows(a: I.Cell, b: I.Cell) {
    b.doc.Some? ==>
      && a.doc.Some?
      && b.doc.value.completing == a.doc.value.completing
      && (b.doc.value.status == I.Pushed ==>
           a.doc.value.status == I.Pushed && b.doc.value.parConsumed == a.doc.value.parConsumed)
      && (a.doc.value.status in {I.Pushed, I.Failed, I.Completed} ==>
           b.doc.value.status in {I.Pushed, I.Failed, I.Completed})
  }

  lemma TableFollows(from: I.Status, op: I.Operation, to: I.Status)
    requires I.CanTransition(from, op, to) && (op != I.ConsumePar || to == I.Completed)
    ensures to != I.Pushed && (from in {I.Pushed, I.Failed, I.Completed} ==> to in {I.Failed, I.Completed})
  {
  }

  lemma ApplyFollows(c: I.Cell, op: I.Operation, to: I.Status, p: I.Patch, now: int)
    requires p.completing.Keep? && (op != I.ConsumePar || to == I.Completed)
    ensures Follows(c, I.Apply(c, op, to, p, now).0)
  {
    hide I.CanTransition;
    if c.doc.Some? && I.CanTransition(c.doc.value.status, op, to) {
      TableFollows(c.doc.value.status, op, to);
      assert I.Moved(c.doc.value, to, p, now).status == to;
    }
  }

  lemma OtherFollows(c: I.Cell, e: R.Event)
    requires !e.TakePush? && !e.TakeCompletion? && (e.Move? ==> e.op != I.ConsumePar && e.patch.completing.Keep?)
    ensures Follows(c, R.Next(c, e).0)
  {
    if e.Move? {
      ApplyFollows(c, e.op, e.to, e.patch, e.now);
    } else if e.Try? && c.doc.Some? {
      ApplyFollows(c, I.Fail, I.Failed, I.TooMany(c.doc.value.attempts + 1), e.now);
    }
  }

  lemma CellKeeps(w: World, cell: I.Cell)
    requires Inv(w) && Follows(w.cell, cell)
    ensures Inv(w.(cell := cell))
  {
    assert RowsIssued(w.(cell := cell));
    hide RowsIssued;
  }

  lemma EndKeeps(w: World, rid: nat)
    requires Inv(w) && rid in w.requests && Holds(w.requests[rid].phase)
    ensures Inv(With(w, rid, Ended))
  {
    assert RowsIssued(With(w, rid, Ended));
    hide RowsIssued;
  }

  lemma RestartKeeps(w: World, rid: nat)
    requires Inv(w) && rid in w.requests && w.requests[rid].phase.Restarting?
    ensures Inv(DoSettle(w, rid))
  {
    var v := DoSettle(w, rid);
    assert RowsIssued(v);
    hide RowsIssued;
    var q := w.requests[rid];
    if I.Apply(w.cell, I.Restart, I.LoginRequired, Restart(), q.visit.now).1.Refused? {
      EndKeeps(w, rid);
    } else {
      assert w.cell.doc.value.status == I.Ready && v.cell.doc.value.status == I.LoginRequired;
    }
  }

  lemma SettleKeeps(w: World, rid: nat)
    requires Inv(w) && rid in w.requests
    requires w.requests[rid].phase.Restarting? || w.requests[rid].phase.Issued? || w.requests[rid].phase.Closing?
    ensures Inv(DoSettle(w, rid))
  {
    hide Inv, I.Apply;
    if w.requests[rid].phase.Restarting? {
      RestartKeeps(w, rid);
    } else {
      var now := w.requests[rid].visit.now;
      ApplyFollows(w.cell, I.Complete, I.Completed, I.NoPatch, now);
      CellKeeps(w, I.Apply(w.cell, I.Complete, I.Completed, I.NoPatch, now).0);
      EndKeeps(w.(cell := I.Apply(w.cell, I.Complete, I.Completed, I.NoPatch, now).0), rid);
    }
  }

  lemma DieKeeps(w: World, rid: nat)
    requires Inv(w) && rid in w.requests
    ensures Inv(DoDie(w, rid))
  {
    if w.requests[rid].phase.Got? {
      assert RowsIssued(DoDie(w, rid));
      hide RowsIssued;
    } else if Holds(w.requests[rid].phase) {
      hide Inv;
      EndKeeps(w, rid);
    }
  }

  lemma TakeKeeps(w: World, p: Push)
    requires Inv(w) && Unused(w, p.codeHash)
    ensures Inv(DoTake(w, p))
  {
  }

  lemma SettlingKeeps(w: World)
    requires Inv(w) && w.par.Settling?
    ensures Inv(DoSettlePushed(w))
  {
    assert RowsIssued(DoSettlePushed(w));
    hide RowsIssued;
  }

  lemma SettlePushedKeeps(w: World)
    requires Inv(w)
    ensures Inv(DoSettlePushed(w))
  {
    if w.par.Settling? {
      hide Inv;
      SettlingKeeps(w);
    } else if w.par.Hit? {
      ApplyFollows(w.cell, I.ConsumePar, I.Completed, I.NoPatch, w.par.push.now);
      CellKeeps(w, I.Apply(w.cell, I.ConsumePar, I.Completed, I.NoPatch, w.par.push.now).0);
      assert RowsIssued(DoSettlePushed(w));
      hide RowsIssued, I.Apply;
    }
  }

  lemma OtherKeeps(w: World, e: R.Event)
    requires Inv(w) && Legal(w, Other(e))
    ensures Inv(Step(w, Other(e)))
  {
    hide Inv, R.Next;
    OtherFollows(w.cell, e);
    CellKeeps(w, R.Next(w.cell, e).0);
  }

  lemma InterfereKeeps(w: World, users: Users)
    requires Inv(w) && Legal(w, Interfere(users))
    ensures Inv(w.(users := users))
  {
    assert RowsIssued(w.(users := users));
    hide RowsIssued;
  }

  lemma DiePushedKeeps(w: World)
    requires Inv(w)
    ensures Inv(if w.par.Waiting? then w else w.(par := Settled))
  {
    assert RowsIssued(w.(par := Settled));
    hide RowsIssued;
  }


  lemma StepKeeps(w: World, e: Event)
    requires Inv(w) && Legal(w, e)
    ensures Inv(Step(w, e))
  {
    hide Inv, DoArrive, DoClaim, DoServe, DoSettle, DoDie, DoTake, DoEvaluate, DoSettlePushed, R.Next;
    match e
    case Arrive(rid, visit) => ArriveKeeps(w, rid, visit);
    case Claim(rid) => if rid in w.requests && w.requests[rid].phase.Got? { ClaimKeeps(w, rid); }
    case Serve(rid) =>
      if rid in w.requests
        && (w.requests[rid].phase.Holding? || w.requests[rid].phase.Replacing?) { ServeKeeps(w, rid); }
    case Settle(rid) =>
      if rid in w.requests
        && (w.requests[rid].phase.Restarting? || w.requests[rid].phase.Issued? || w.requests[rid].phase.Closing?) {
        SettleKeeps(w, rid);
      }
    case TakePushed(push) => TakeKeeps(w, push);
    case EvaluatePushed => if w.par.Taken? { EvaluateKeeps(w); }
    case SettlePushed => SettlePushedKeeps(w);
    case Die(rid) => if rid in w.requests { DieKeeps(w, rid); }
    case Other(event) => OtherKeeps(w, event);
    case DiePushed => DiePushedKeeps(w);
    case Interfere(users) => InterfereKeeps(w, users);
  }

  lemma {:induction false} RunKeeps(w: World, es: seq<Event>)
    requires Inv(w) && AllLegal(w, es)
    ensures Inv(Run(w, es))
    decreases |es|
  {
    hide Inv, Legal, Step;
    if es != [] {
      StepKeeps(w, es[0]);
      RunKeeps(Step(w, es[0]), es[1..]);
    }
  }

  // ---------------------------------------------------------------- the theorems

  /** A code row of some user object. */
  datatype CodeRow = CodeRow(uid: nat, code: nat)

  ghost predicate HasRow(w: World, r: CodeRow) {
    r.uid in w.users && r.code in w.users[r.uid].codes && r.code in w.minted
  }

  /** Over every interleaving at most one code is issued for an interaction, and at most one
      code row anywhere was ever inserted under a digest minted for it. */
  lemma AtMostOneCodePerInteraction(d: I.Draft, now: int, ttl: int, users: Users, es: seq<Event>)
    requires AllLegal(Opened(d, now, ttl, users), es)
    ensures var w := Run(Opened(d, now, ttl, users), es);
      |w.issues| <= 1 && forall a, b :: HasRow(w, a) && HasRow(w, b) ==> a == b
  {
    var w := Run(Opened(d, now, ttl, users), es);
    RunKeeps(Opened(d, now, ttl, users), es);
    forall a, b | HasRow(w, a) && HasRow(w, b)
      ensures a == b
    {
      var i :| i in w.issues && i.uid == a.uid && i.code == a.code;
      var j :| j in w.issues && j.uid == b.uid && j.code == b.code;
      assert i == w.issues[0] && j == w.issues[0];
    }
  }

  /** How claims end: of all requests that ever took the completion, all but at most one gave it
      back, and one that gave it back issued no code. */
  lemma ClaimsEnd(d: I.Draft, now: int, ttl: int, users: Users, es: seq<Event>)
    requires AllLegal(Opened(d, now, ttl, users), es)
    ensures var w := Run(Opened(d, now, ttl, users), es);
      && (forall r, s ::
           r in w.requests && s in w.requests && Holds(w.requests[r].phase) && Holds(w.requests[s].phase) ==> r == s)
      && (forall r, i :: r in w.requests && w.requests[r].phase.Restarted? && i in w.issues ==> i.taker != Some(r))
      && (forall i :: i in w.issues && i.taker.Some? ==>
            && i.taker.value in w.requests && Holds(w.requests[i.taker.value].phase)
            && (w.cell.doc.Some? ==> w.cell.doc.value.completing))
  {
    RunKeeps(Opened(d, now, ttl, users), es);
    var w := Run(Opened(d, now, ttl, users), es);
    assert forall i :: i in w.issues ==> i == w.issues[0];
  }

  // ---------------------------------------------------------------- what the claim does not check

  function Aborted(w: World, at: int): World {
    Step(w, Other(R.Move(I.Abort, I.Failed, I.NoPatch.(error := I.Set(Some("access_denied"))), at)))
  }

  /** The handler goes by the document it read before its claim (complete.ts:107, 117): an abort
      that lands between the two leaves the outcome as it was, code included, exactly when the
      request's own clock is less than the 60 s of retention past the abort. */
  lemma AbortAfterTheReadIsIgnored(w: World, rid: nat, at: int)
    requires rid in w.requests && w.requests[rid].phase.Got?
    requires I.Live(w.cell, at) && I.Live(w.cell, w.requests[rid].visit.now)
    requires w.cell.doc.value.status == I.Ready && !w.cell.doc.value.completing
    ensures
      var plain, late := Step(w, Claim(rid)), Step(Aborted(w, at), Claim(rid));
      && Aborted(w, at).cell.doc.value.status == I.Failed
      && plain.requests[rid].phase.Holding?
      && (late.requests[rid].phase.Holding? <==> w.requests[rid].visit.now < at + 60)
      && (late.requests[rid].phase.Holding? ==>
            Step(late, Serve(rid)).issues == Step(plain, Serve(rid)).issues
            && Step(late, Serve(rid)).users == Step(plain, Serve(rid)).users)
  {
    hide Work;
  }
}
