/** What is in the code that an interaction ends with: over every run of CompleteProtocol, the terms of the document
    that the request read, the scopes that the user consented to, and the session it was issued on. */
module CompleteIssues {
  import opened Options
  import I = InteractionModel
  import R = InteractionRuns
  import U = UserModel
  import C = UserCases
  import opened CompleteProtocol

  // ---------------------------------------------------------------- what a request read

  datatype Reading = Reading(visit: Visit, doc: I.Doc)

  /** The live document that a request meets when it arrives. */
  ghost function Noted(m: map<nat, Reading>, w: World, e: Event): map<nat, Reading> {
    if e.Arrive? && w.cell.doc.Some? && e.visit.now < w.cell.doc.value.expiresAt
      then m[e.rid := Reading(e.visit, w.cell.doc.value)] else m
  }

  ghost function Readings(w: World, es: seq<Event>, m: map<nat, Reading>): map<nat, Reading>
    decreases |es|
  {
    if es == [] then m else Readings(Step(w, es[0]), es[1..], Noted(m, w, es[0]))
  }

  ghost predicate AllRead(w: World, m: map<nat, Reading>) {
    forall r :: r in w.requests ==> r in m && m[r] == Reading(w.requests[r].visit, w.requests[r].doc)
  }

  lemma StepReads(w: World, e: Event, m: map<nat, Reading>)
    requires AllRead(w, m) && Legal(w, e)
    ensures AllRead(Step(w, e), Noted(m, w, e))
  {
    hide Work, Evaluate, I.Apply, I.ClaimCompletion, I.ClaimPushed, R.Next;
  }

  lemma {:induction false} RunReads(w: World, es: seq<Event>, m: map<nat, Reading>)
    requires AllRead(w, m) && Inv(w) && AllLegal(w, es)
    ensures AllRead(Run(w, es), Readings(w, es, m)) && Inv(Run(w, es))
    decreases |es|
  {
    hide AllRead, Inv, Legal, Step, Noted;
    if es != [] {
      StepReads(w, es[0], m);
      StepKeeps(w, es[0]);
      RunReads(Step(w, es[0]), es[1..], Noted(m, w, es[0]));
    }
  }

  // ---------------------------------------------------------------- the calls on the user object

  /** The code asks for what the request asked, with the scopes the user consented to when he was asked. */
  predicate OnTerms(code: U.CodeInput, hash: nat, client: U.Client, q: I.Request, consent: Option<seq<string>>) {
    && code.secretHash == hash && code.clientId == client.clientId && code.redirectUri == q.redirectUri
    && code.nonce == q.nonce && code.challenge == q.challenge
    && (consent.Some? ==> code.scope == consent.value) && (consent.None? ==> code.scope == q.scope)
  }

  lemma AuthorizeIsOnTerms(v: Visit, doc: I.Doc)
    requires doc.request.Some? && v.client.Some? && doc.existing.Some?
    ensures
      var input, sid := AuthorizeCall(v, doc), doc.existing.value.sid;
      && input.code.Some? && OnTerms(input.code.value, v.codeHash, v.client.value, doc.request.value, doc.consent)
      && input.sid == sid && input.now == v.now && input.client == v.client.value
      && input.scope == input.code.value.scope && input.idleTtl == v.idleTtl && input.granted == v.granted
      && !input.promptLogin && !input.promptConsent && input.maxAge == None
      && (v.cookie.Some? && v.cookie.value.0 == sid ==> input.secretHash == v.cookie.value.1)
      && (v.cookie.None? || v.cookie.value.0 != sid ==> input.secretHash == NO_SECRET)
  {}

  /** The login of the document, under the secret of this request. */
  predicate OnLogin(s: U.SessionInput, v: Visit, a: I.Auth) {
    s.secretHash == v.newSecret && s.claims == U.Claims(a.authTime, a.amr, a.acr) && s.upstream == a.upstream
  }

  lemma RotateIsOnTerms(v: Visit, doc: I.Doc)
    requires doc.request.Some? && v.client.Some? && doc.auth.Some? && doc.existing.Some?
    ensures
      var input := RotateCall(v, doc);
      && input.code.Some? && OnTerms(input.code.value, v.codeHash, v.client.value, doc.request.value, doc.consent)
      && input.session.Rotate? && input.session.sid == doc.existing.value.sid
           && OnLogin(input.session, v, doc.auth.value)
      && input.now == v.now && input.client == v.client && input.idleTtl == v.idleTtl
  {}

  lemma CreateIsOnTerms(v: Visit, doc: I.Doc)
    requires doc.request.Some? && v.client.Some? && doc.auth.Some?
    ensures
      var input := CreateCall(v, doc);
      && input.code.Some? && OnTerms(input.code.value, v.codeHash, v.client.value, doc.request.value, doc.consent)
      && input.session.Create? && input.session.sid == v.newSid && OnLogin(input.session, v, doc.auth.value)
      && input.session.newIdleTtl == v.idleTtl && input.session.absoluteTtl == v.absoluteTtl
      && input.now == v.now && input.client == v.client && input.idleTtl == v.idleTtl
  {}

  // ---------------------------------------------------------------- the row a request inserts

  /** The user the document names: the one who logged in, and otherwise the owner of its session. */
  predicate Names(doc: I.Doc, uid: nat) {
    if doc.auth.Some? then uid == doc.auth.value.uid else doc.existing.Some? && uid == doc.existing.value.uid
  }

  /** The session of the code: without a login the one of the document, opened by the cookie of the request; after a
      login that session or a new one, under the secret and the claims of the login. */
  ghost predicate OnItsSession(st: U.Store, v: Visit, doc: I.Doc, sid: nat)
    requires sid in st.sessions
  {
    var row := st.sessions[sid];
    if doc.auth.None? then
      && doc.existing.Some? && sid == doc.existing.value.sid
      && row.secretHash == if v.cookie.Some? && v.cookie.value.0 == sid then v.cookie.value.1 else NO_SECRET
    else
      var a := doc.auth.value;
      && row.secretHash == v.newSecret && row.claims == U.Claims(a.authTime, a.amr, a.acr) && row.upstream == a.upstream
      && (sid == v.newSid || (!a.newSession && doc.existing.Some? && sid == doc.existing.value.sid))
  }

  ghost predicate RightCode(st: U.Store, v: Visit, doc: I.Doc, code: U.CodeInput, sid: nat) {
    && doc.request.Some? && v.client.Some?
    && OnTerms(code, v.codeHash, v.client.value, doc.request.value, doc.consent)
    && C.HasCode(st, code, sid, v.now) && OnItsSession(st, v, doc, sid)
  }

  lemma WorkInsertsTheCode(users: Users, q: Request)
    requires Work(users, q).1.Issued?
    ensures
      var next := Work(users, q).0;
      && q.doc.kind != I.Logout && q.doc.status != I.Failed && Uid(q.doc).Some? && Names(q.doc, Uid(q.doc).value)
      && Uid(q.doc).value in next
      && exists code, sid :: RightCode(next[Uid(q.doc).value], q.visit, q.doc, code, sid)
  {
    var (v, doc) := (q.visit, q.doc);
    var uid := Uid(doc).value;
    var st := Work(users, q).0[uid];
    hide U.AuthorizeWithSession, U.FinalizeLogin, OnTerms, AuthorizeCall, RotateCall, CreateCall;
    if doc.auth.None? {
      var input := AuthorizeCall(v, doc);
      AuthorizeIsOnTerms(v, doc);
      C.AuthorizedRow(users[uid], input);
      assert RightCode(st, v, doc, input.code.value, input.sid);
    } else if q.phase.Holding? && !doc.auth.value.newSession && doc.existing.Some? {
      var input := RotateCall(v, doc);
      RotateIsOnTerms(v, doc);
      C.FinalizedRow(users[uid], input);
      assert RightCode(st, v, doc, input.code.value, input.session.sid);
    } else {
      var input := CreateCall(v, doc);
      CreateIsOnTerms(v, doc);
      C.FinalizedRow(users[uid], input);
      assert RightCode(st, v, doc, input.code.value, input.session.sid);
    }
  }

  /** Over every run: the step that issues a code issues it to the user the request's document names, on the terms of
      that document and on its session. */
  lemma CodeOfEveryRun(d: I.Draft, now: int, ttl: int, users: Users, es: seq<Event>, rid: nat)
    requires AllLegal(Opened(d, now, ttl, users), es)
    requires var w := Run(Opened(d, now, ttl, users), es); |Step(w, Serve(rid)).issues| != |w.issues|
    ensures
      var w := Run(Opened(d, now, ttl, users), es);
      var m, next := Readings(Opened(d, now, ttl, users), es, map[]), Step(w, Serve(rid));
      && rid in m && m[rid].doc.status == I.Ready && m[rid].doc.kind != I.Logout
      && exists uid, code, sid ::
           && next.issues == w.issues + [Issue(Some(rid), uid, m[rid].visit.codeHash)]
           && Names(m[rid].doc, uid) && uid in next.users
           && RightCode(next.users[uid], m[rid].visit, m[rid].doc, code, sid)
  {
    var start := Opened(d, now, ttl, users);
    var w, m := Run(start, es), Readings(start, es, map[]);
    RunReads(start, es, map[]);
    assert AllRead(w, m) && Snapshots(w);
    hide Run, Readings, AllLegal, Inv, RightCode, Work, Names;
    var q := w.requests[rid];
    assert w.requests[rid].doc.status in {I.Ready, I.Failed} && m[rid] == Reading(q.visit, q.doc);
    assert Work(w.users, q).1.Issued? && Uid(q.doc).Some?;
    WorkInsertsTheCode(w.users, q);
    var uid := Uid(q.doc).value;
    assert Step(w, Serve(rid)).users == Work(w.users, q).0;
    var code, sid :| RightCode(Work(w.users, q).0[uid], q.visit, q.doc, code, sid);
    assert Step(w, Serve(rid)).issues == w.issues + [Issue(Some(rid), uid, m[rid].visit.codeHash)];
  }

  // ---------------------------------------------------------------- arriving and claiming

  /** A request goes on with a live document that is ready or failed, and with no other. */
  lemma ArriveAnswers(w: World, rid: nat, v: Visit)
    requires rid !in w.requests
    ensures
      var next := Step(w, Arrive(rid, v));
      && next == w.(requests := next.requests, minted := w.minted + {v.codeHash})
      && (if w.cell.doc.Some? && v.now < w.cell.doc.value.expiresAt
           && w.cell.doc.value.status in {I.Ready, I.Failed} then
            next.requests == w.requests[rid := Request(v, w.cell.doc.value, Got)]
          else next.requests == w.requests)
  {}

  /** It holds the interaction exactly when its claim succeeds. */
  lemma ClaimAnswers(w: World, rid: nat)
    requires rid in w.requests && w.requests[rid].phase == Got
    ensures
      var next, live := Step(w, Claim(rid)), I.Live(w.cell, w.requests[rid].visit.now);
      var free := live && w.cell.doc.value.status in {I.Ready, I.Failed} && !w.cell.doc.value.completing;
      && next.requests == w.requests[rid := w.requests[rid].(phase := if free then Holding else Turned)]
      && next.cell == (if free then w.cell.(doc := Some(w.cell.doc.value.(completing := true))) else w.cell)
      && next.users == w.users && next.issues == w.issues && next.par == w.par
  {
    hide Work, Evaluate, I.Apply, I.ClaimPushed, R.Next;
  }

  // ---------------------------------------------------------------- how a request goes on

  /** There is nobody to issue a code to: a logout, a failed interaction, a client or user that is gone. */
  predicate NothingToIssue(q: Request) {
    q.doc.kind == I.Logout || q.doc.status == I.Failed || q.visit.client == None
    || (q.doc.auth == None && q.doc.existing == None)
  }

  /** Consent on the old session ends with a code or a restart; a login rotates its session or, when that has vanished
      or is another, opens a new one; a refusal of the user closes the interaction. */
  lemma RequestGoesOn(users: Users, q: Request)
    ensures
      var (next, phase) := Work(users, q);
      && (NothingToIssue(q) ==> next == users && phase == Closing)
      && (!NothingToIssue(q) && q.doc.request.Some? ==>
            var (v, doc) := (q.visit, q.doc);
            var uid := if doc.auth.Some? then doc.auth.value.uid else doc.existing.value.uid;
            if doc.auth.None? then
              var (after, out) := Authorize(users, uid, AuthorizeCall(v, doc));
              && next == after && (phase == Issued <==> out.Authorized?) && (phase == Ended <==> out.AuthorizeThrown?)
              && (phase == Restarting <==> !out.Authorized? && !out.AuthorizeThrown?)
            else if q.phase == Holding && !doc.auth.value.newSession && doc.existing.Some? then
              var (after, out) := Finalize(users, uid, RotateCall(v, doc));
              && next == after && (phase == Issued <==> out.Finalized?) && (phase == Ended <==> out.FinalizeThrown?)
              && (phase == Replacing <==> out == U.FinalizeFailed(U.SessionInvalid))
              && (phase == Closing <==> out.FinalizeFailed? && out.error != U.SessionInvalid)
            else
              var (after, out) := Finalize(users, uid, CreateCall(v, doc));
              && next == after && (phase == Issued <==> out.Finalized?) && (phase == Ended <==> out.FinalizeThrown?)
              && (phase == Closing <==> out.FinalizeFailed?))
  {
    hide U.AuthorizeWithSession, U.FinalizeLogin, AuthorizeCall, RotateCall, CreateCall;
  }

  /** A user call changes only the user it names, and not one that nobody initialised. */
  lemma OnlyTheNamedUser(users: Users, uid: nat, a: U.AuthorizeInput, f: U.FinalizeInput)
    ensures uid !in users ==> Authorize(users, uid, a).0 == users && Authorize(users, uid, a).1.AuthorizeFailed?
    ensures uid !in users ==> Finalize(users, uid, f).0 == users && Finalize(users, uid, f).1.FinalizeFailed?
    ensures uid in users ==>
      && Authorize(users, uid, a) ==
           (users[uid := U.AuthorizeWithSession(users[uid], a).0], U.AuthorizeWithSession(users[uid], a).1)
      && Finalize(users, uid, f) == (users[uid := U.FinalizeLogin(users[uid], f).0], U.FinalizeLogin(users[uid], f).1)
  {
    hide U.AuthorizeWithSession, U.FinalizeLogin;
  }

  /** Given back, the interaction waits for a login, without its session and its consent, and can be claimed again. */
  lemma RestartGivesBack(w: World, rid: nat)
    requires rid in w.requests && w.requests[rid].phase == Restarting
    ensures
      var v, live := Step(w, Settle(rid)), I.Live(w.cell, w.requests[rid].visit.now);
      if live && w.cell.doc.value.status == I.Ready then
        && v.requests[rid].phase == Restarted
        && v.cell == w.cell.(doc := Some(w.cell.doc.value.(
             status := I.LoginRequired, existing := None, consent := None, completing := false)))
      else v.cell == w.cell && v.requests[rid].phase == Ended
  {
    hide I.ClaimCompletion, I.ClaimPushed;
  }

  lemma SettlingCompletes(w: World, rid: nat)
    requires rid in w.requests && w.requests[rid].phase in {Issued, Closing}
    ensures
      var v, now := Step(w, Settle(rid)), w.requests[rid].visit.now;
      && v.requests[rid].phase == Ended
      && if I.Live(w.cell, now) && w.cell.doc.value.status in {I.Ready, I.Failed} then
           var until := if w.cell.doc.value.expiresAt <= now + 60 then w.cell.doc.value.expiresAt else now + 60;
           v.cell == I.Cell(Some(w.cell.doc.value.(status := I.Completed, expiresAt := until)), Some(until))
         else v.cell == w.cell
  {
    hide I.ClaimCompletion, I.ClaimPushed;
  }

  // ---------------------------------------------------------------- the pushed request

  /** Who took the pushed request, and the document he took. */
  ghost function Took(m: Option<(Push, I.Doc)>, w: World, e: Event): Option<(Push, I.Doc)> {
    if e.TakePushed? && I.ClaimPushed(w.cell, e.push.client.clientId, e.push.binding, e.push.now, e.push.ttl).1.Done?
      then Some((e.push, w.cell.doc.value)) else m
  }

  ghost function Takings(w: World, es: seq<Event>, m: Option<(Push, I.Doc)>): Option<(Push, I.Doc)>
    decreases |es|
  {
    if es == [] then m else Takings(Step(w, es[0]), es[1..], Took(m, w, es[0]))
  }

  /** The taker is the client that pushed it, it was not taken before, and he evaluates the request as it was pushed. */
  ghost predicate RightlyTaken(w: World, m: Option<(Push, I.Doc)>) {
    w.par.Taken? ==>
      && m.Some? && m.value.0 == w.par.push
      && var doc := m.value.1;
      && doc.status == I.Pushed && !doc.parConsumed && doc.clientId == Some(w.par.push.client.clientId)
      && w.par.push.now < doc.expiresAt
      && w.par.doc == doc.(kind := I.Authorize, bindingHash := w.par.push.binding, parConsumed := true,
                           expiresAt := w.par.push.now + w.par.push.ttl)
  }

  lemma StepTakes(w: World, e: Event, m: Option<(Push, I.Doc)>)
    requires RightlyTaken(w, m)
    ensures RightlyTaken(Step(w, e), Took(m, w, e))
  {
    hide Work, I.Apply, I.ClaimCompletion, R.Next;
    if e.EvaluatePushed? && w.par.Taken? {
      EvaluateInserts(w.users, w.par.push, w.par.doc);
      hide Evaluate;
    }
  }

  lemma {:induction false} RunTakes(w: World, es: seq<Event>, m: Option<(Push, I.Doc)>)
    requires RightlyTaken(w, m)
    ensures RightlyTaken(Run(w, es), Takings(w, es, m))
    decreases |es|
  {
    hide RightlyTaken, Step, Took;
    if es != [] {
      StepTakes(w, es[0], m);
      RunTakes(Step(w, es[0]), es[1..], Took(m, w, es[0]));
    }
  }

  /** Over every run the session hit of a pushed request issues the code it asked for, on the session of the cookie. */
  lemma PushedCodeOfEveryRun(d: I.Draft, now: int, ttl: int, users: Users, es: seq<Event>)
    requires var w := Run(Opened(d, now, ttl, users), es); |Step(w, EvaluatePushed).issues| != |w.issues|
    ensures
      var w := Run(Opened(d, now, ttl, users), es);
      var m, next := Takings(Opened(d, now, ttl, users), es, None), Step(w, EvaluatePushed);
      && m.Some? && m.value.0.cookie.Some? && m.value.1.request.Some?
      && var (push, doc) := m.value;
      && var (uid, sid, secret) := push.cookie.value;
      && doc.clientId == Some(push.client.clientId) && doc.status == I.Pushed && uid in next.users
      && next.issues == w.issues + [Issue(None, uid, push.codeHash)]
      && sid in next.users[uid].sessions && next.users[uid].sessions[sid].secretHash == secret
      && exists code :: OnTerms(code, push.codeHash, push.client, doc.request.value, None)
           && C.HasCode(next.users[uid], code, sid, push.now)
  {
    var start := Opened(d, now, ttl, users);
    var w := Run(start, es);
    RunTakes(start, es, None);
    hide Run, Takings, U.AuthorizeWithSession, I.Create;
    var (push, doc) := (w.par.push, w.par.doc);
    var (uid, sid, secret) := push.cookie.value;
    var input := PushCall(push, doc, sid, secret);
    assert OnTerms(input.code.value, push.codeHash, push.client, doc.request.value, None);
    C.AuthorizedRow(w.users[uid], input);
  }

  /** What the request asks for when there is no session to answer it: a login or a consent, unless it forbids both. */
  predicate Wants(par: Par, p: Push, q: I.Request, status: I.Status, existing: Option<I.Existing>) {
    && par.Settling? && par.push == p
    && if "none" in q.prompt then
         && par.op == I.Fail && par.to == I.Failed
         && par.patch == I.NoPatch.(error := I.Set(Some(if status == I.LoginRequired then "login_required"
                                                        else "consent_required")))
       else par.op == I.ConsumePar && par.to == status && par.patch == I.NoPatch.(existing := I.Set(existing))
  }

  lemma EvaluateAnswers(users: Users, p: Push, doc: I.Doc)
    requires doc.request.Some?
    ensures
      var (q, (next, par)) := (doc.request.value, Evaluate(users, p, doc));
      if p.cookie.None? then next == users && Wants(par, p, q, I.LoginRequired, None)
      else
        var (uid, sid, secret) := p.cookie.value;
        var code := U.CodeInput(p.codeHash, p.client.clientId, q.redirectUri, q.scope, q.nonce, q.challenge);
        var (after, out) := Authorize(users, uid,
          U.AuthorizeInput(sid, secret, p.now, p.client, q.scope, "login" in q.prompt, "consent" in q.prompt, q.maxAge,
                           Some(code), p.idleTtl, p.granted));
        && next == after
        && match out
           case Authorized(_, _) => par == Hit(p)
           case AuthorizeThrown => par == Settled
           case LoginRequired(s, _) =>
             Wants(par, p, q, I.LoginRequired, Some(I.Existing(uid, sid, s.row.claims.authTime)))
           case ConsentRequired(s, _) =>
             Wants(par, p, q, I.ConsentRequired, Some(I.Existing(uid, sid, s.row.claims.authTime)))
           case AuthorizeFailed(error) =>
             if error == U.UserNotAllowed then
               par == Settling(p, I.Fail, I.Failed, I.NoPatch.(error := I.Set(Some("access_denied"))))
             else Wants(par, p, q, I.LoginRequired, None)
  {
    hide U.AuthorizeWithSession;
  }
}
