/** What the interaction object answers and stores, call by call, in terms of the document before and the input; and,
    over runs, who can take a pushed request. */
module InteractionAnswers {
  import opened Options
  import opened InteractionModel
  import opened InteractionRuns

  // ---------------------------------------------------------------- the table

  datatype Edge3 = Edge3(from: Status, op: Operation, to: Status)

  /** Every permitted move. */
  const PERMITTED: set<Edge3> := {
    Edge3(Pushed, ConsumePar, LoginRequired), Edge3(Pushed, ConsumePar, ConsentRequired),
    Edge3(Pushed, ConsumePar, Completed), Edge3(Pushed, Abort, Failed), Edge3(Pushed, Fail, Failed),
    Edge3(LoginRequired, Authenticate, Ready), Edge3(LoginRequired, Authenticate, ConsentRequired),
    Edge3(LoginRequired, Authenticate, LinkRequired), Edge3(LoginRequired, Authenticate, Failed),
    Edge3(LoginRequired, LogoutDecision, Ready), Edge3(LoginRequired, Abort, Failed),
      Edge3(LoginRequired, Fail, Failed),
    Edge3(LinkRequired, Link, Ready), Edge3(LinkRequired, Link, ConsentRequired), Edge3(LinkRequired, Link, Failed),
    Edge3(LinkRequired, Abort, Failed), Edge3(LinkRequired, Fail, Failed),
    Edge3(ConsentRequired, Consent, Ready), Edge3(ConsentRequired, Consent, Failed),
    Edge3(ConsentRequired, Abort, Failed), Edge3(ConsentRequired, Fail, Failed),
    Edge3(Ready, Abort, Failed), Edge3(Ready, Fail, Failed), Edge3(Ready, Restart, LoginRequired),
    Edge3(Ready, Complete, Completed), Edge3(Failed, Complete, Completed)}

  lemma TheTable(from: Status, op: Operation, to: Status)
    ensures CanTransition(from, op, to) <==> Edge3(from, op, to) in PERMITTED
  {
    match from {
      case Pushed =>
      case LoginRequired =>
      case LinkRequired =>
      case ConsentRequired =>
      case Ready =>
      case Completed =>
      case Failed =>
    }
  }

  // ---------------------------------------------------------------- create

  lemma CreateAnswers(c: Cell, d: Draft, now: Time, ttl: int)
    ensures
      var (after, r) := Create(c, d, now, ttl);
      && (c.doc.Some? ==> after == c && r == Refused(Exists))
      && (c.doc.None? ==>
            && r.Done? && after.doc == Some(r.doc) && after.alarm == Some(r.doc.expiresAt)
            && r.doc.kind == d.kind && r.doc.status == d.status && r.doc.bindingHash == d.bindingHash
            && r.doc.clientId == d.clientId && r.doc.request == d.request && r.doc.existing == d.existing
            && r.doc.logout == d.logout && r.doc.createdAt == now && r.doc.expiresAt == now + ttl
            && r.doc.attempts == 0 && !r.doc.parConsumed && !r.doc.completing
            && r.doc.challenge == None && r.doc.registration == None && r.doc.federation == None && r.doc.link == None
            && r.doc.auth == None && r.doc.consent == None && r.doc.error == None)
  {}

  // ---------------------------------------------------------------- apply and patch

  predicate Became<T(==)>(change: Change<T>, before: T, after: T) {
    match change
    case Keep => after == before
    case Set(value) => after == value
  }

  /** The fields of `p` are those given, where given, and otherwise as before. */
  predicate WorkDone(a: Doc, b: Doc, p: WorkPatch) {
    && Became(p.challenge, a.challenge, b.challenge) && Became(p.registration, a.registration, b.registration)
    && Became(p.federation, a.federation, b.federation) && Became(p.link, a.link, b.link)
    && Became(p.attempts, a.attempts, b.attempts)
  }

  predicate PatchDone(a: Doc, b: Doc, p: Patch) {
    && WorkDone(a, b, p.work)
    && Became(p.clientId, a.clientId, b.clientId) && Became(p.request, a.request, b.request)
    && Became(p.existing, a.existing, b.existing) && Became(p.auth, a.auth, b.auth)
    && Became(p.consent, a.consent, b.consent) && Became(p.logout, a.logout, b.logout)
    && Became(p.error, a.error, b.error) && Became(p.parConsumed, a.parConsumed, b.parConsumed)
    && Became(p.completing, a.completing, b.completing)
  }

  /** Identity, times and status of the document are not the patch's to change. */
  predicate SameFrame(a: Doc, b: Doc) {
    b.kind == a.kind && b.createdAt == a.createdAt && b.bindingHash == a.bindingHash
  }

  /** A permitted move changes what the patch says and the status; an end is kept for a minute at most, and its alarm
      armed for it. Anything else changes nothing. */
  lemma ApplyAnswers(c: Cell, op: Operation, to: Status, p: Patch, now: Time)
    ensures
      var (after, r) := Apply(c, op, to, p, now);
      && (r == Refused(NotFound) <==> !(c.doc.Some? && now < c.doc.value.expiresAt))
      && (r.Done? <==> c.doc.Some? && now < c.doc.value.expiresAt && Edge3(c.doc.value.status, op, to) in PERMITTED)
      && (r.Done? || r in {Refused(NotFound), Refused(InvalidState)})
      && (!r.Done? ==> after == c)
      && (r.Done? ==>
            var prior := c.doc.value;
            var end := to in {Completed, Failed};
            && after.doc == Some(r.doc) && r.doc.status == to && SameFrame(prior, r.doc) && PatchDone(prior, r.doc, p)
            && r.doc.expiresAt == (if end && now + 60 < prior.expiresAt then now + 60 else prior.expiresAt)
            && after.alarm == if end then Some(r.doc.expiresAt) else c.alarm)
  {
    if c.doc.Some? {
      TheTable(c.doc.value.status, op, to);
      MovedIs(c.doc.value, to, p, now);
    }
    hide CanTransition, Moved, PatchDone;
  }

  lemma MovedIs(prior: Doc, to: Status, p: Patch, now: Time)
    ensures
      var next := Moved(prior, to, p, now);
      && next.status == to && SameFrame(prior, next) && PatchDone(prior, next, p)
      && next.expiresAt ==
           (if to in {Completed, Failed} && now + 60 < prior.expiresAt then now + 60 else prior.expiresAt)
  {}

  lemma WorkAnswers(c: Cell, p: WorkPatch, now: Time)
    ensures
      var (after, r) := PatchWork(c, p, now);
      var live := c.doc.Some? && now < c.doc.value.expiresAt;
      && (r == Refused(NotFound) <==> !live)
      && (r == Refused(InvalidState) <==> live && c.doc.value.status in {Completed, Failed})
      && (r.Done? <==> live && c.doc.value.status !in {Completed, Failed})
      && (!r.Done? ==> after == c)
      && (r.Done? ==>
            var prior := c.doc.value;
            && after == c.(doc := Some(r.doc)) && SameFrame(prior, r.doc) && WorkDone(prior, r.doc, p)
            && PatchDone(prior, r.doc, NoPatch.(work := p))
            && r.doc.status == prior.status && r.doc.expiresAt == prior.expiresAt)
  {}

  // ---------------------------------------------------------------- claims, legs and attempts

  lemma ClaimAnswers(c: Cell, now: Time)
    ensures
      var (after, r) := ClaimCompletion(c, now);
      var live := c.doc.Some? && now < c.doc.value.expiresAt;
      && (r == Refused(NotFound) <==> !live)
      && (r.Done? <==> live && c.doc.value.status in {Ready, Failed} && !c.doc.value.completing)
      && (r.Done? || r in {Refused(NotFound), Refused(InvalidState)}) && (!r.Done? ==> after == c)
      && (r.Done? ==> r.doc == c.doc.value.(completing := true) && after == c.(doc := Some(r.doc)))
  {}

  /** The leg is handed over while a login is awaited, to the callback with its state and before its time is up. */
  lemma LegAnswers(c: Cell, stateHash: Hash, now: Time)
    ensures
      var (after, r) := ConsumeFederation(c, stateHash, now);
      var live := c.doc.Some? && now < c.doc.value.expiresAt;
      && (r == Refused(NotFound) <==> !live)
      && (r.Done? <==>
            && live && c.doc.value.status == LoginRequired && c.doc.value.federation.Some?
            && c.doc.value.federation.value.stateHash == stateHash && now < c.doc.value.federation.value.expiresAt)
      && (r.Done? || r in {Refused(NotFound), Refused(InvalidState)}) && (!r.Done? ==> after == c)
      && (r.Done? ==> r.doc == c.doc.value.(federation := None) && after == c.(doc := Some(r.doc)))
  {}

  lemma AttemptAnswers(c: Cell, now: Time, limit: int)
    ensures
      var (after, r) := Attempt(c, now, limit);
      var live := c.doc.Some? && now < c.doc.value.expiresAt;
      var open := live && c.doc.value.status !in {Completed, Failed};
      && (r == Refused(NotFound) <==> !live) && (r == Refused(InvalidState) <==> live && !open)
      && (r == Refused(TooManyAttempts) <==> open && limit <= c.doc.value.attempts)
      && (r.Done? <==> open && c.doc.value.attempts < limit)
      && (r.Done? ==>
            r.doc == c.doc.value.(attempts := c.doc.value.attempts + 1) && after == c.(doc := Some(r.doc)))
      && (r == Refused(TooManyAttempts) ==>
            && after.doc.Some? && after.doc.value.status == Failed
            && after.doc.value.error == Some("too_many_attempts")
            && after.doc.value.attempts == c.doc.value.attempts + 1
            && after.doc.value.expiresAt ==
                 (if now + 60 < c.doc.value.expiresAt then now + 60 else c.doc.value.expiresAt))
      && (r in {Refused(NotFound), Refused(InvalidState)} ==> after == c)
  {
    if c.doc.Some? {
      var p := TooMany(c.doc.value.attempts + 1);
      ApplyAnswers(c, Fail, Failed, p, now);
      TheTable(c.doc.value.status, Fail, Failed);
      hide Apply, CanTransition;
    }
  }

  // ---------------------------------------------------------------- who takes a pushed request

  /** While the document is pushed it is as it was created, but for the one who took it and for working fields. */
  ghost predicate AsPushed(w: World, d: Draft) {
    w.cell.doc.Some? && w.cell.doc.value.status == Pushed ==>
      var doc := w.cell.doc.value;
      && w.h.path == [Pushed] && doc.clientId == d.clientId && doc.request == d.request
      && (doc.parConsumed <==> w.h.pushTakers > 0)
  }

  lemma StepKeepsPushed(w: World, e: Event, d: Draft)
    requires AsPushed(w, d) && PushTakenOnce(w)
    ensures AsPushed(Step(w, e), d)
  {
    if e.Move? && w.cell.doc.Some? {
      TheTable(w.cell.doc.value.status, e.op, e.to);
      hide CanTransition;
    }
  }

  lemma {:induction false} RunKeepsPushed(w: World, es: seq<Event>, d: Draft)
    requires AsPushed(w, d) && PushTakenOnce(w)
    ensures AsPushed(Run(w, es), d)
    decreases |es|
  {
    hide AsPushed, PushTakenOnce, Step;
    if es != [] {
      StepKeepsPushed(w, es[0], d);
      StepKeepsTaker(w, es[0]);
      RunKeepsPushed(Step(w, es[0]), es[1..], d);
    }
  }

  /** Over every run: exactly the client that pushed the request can take it, while it is live, has not moved on and
      nobody took it; he gets the request as it was pushed, under his binding and for his lifetime. */
  lemma WhoTakesAPush(d: Draft, now: Time, ttl: int, es: seq<Event>, limit: nat, client: nat, binding: Hash, at: Time,
      life: int)
    requires !IsTerminal(d.status) && AllLegal(Opened(d, now, ttl), es, limit)
    ensures
      var w := Run(Opened(d, now, ttl), es);
      var (after, r) := ClaimPushed(w.cell, client, binding, at, life);
      && (r.Done? <==>
            && w.cell.doc.Some? && at < w.cell.doc.value.expiresAt
            && w.h.path == [Pushed] && w.h.pushTakers == 0 && d.clientId == Some(client))
      && (!r.Done? ==> after == w.cell && r in {Refused(NotFound), Refused(InvalidState)})
      && (r.Done? ==>
            && after == Cell(Some(r.doc), Some(at + life)) && r.doc.request == d.request
            && r.doc == w.cell.doc.value.(kind := Authorize, bindingHash := binding, parConsumed := true,
                                          expiresAt := at + life))
  {
    EveryRunIsKept(d, now, ttl, es, limit);
    RunKeepsPushed(Opened(d, now, ttl), es, d);
    hide Run, AllLegal, EndsSoon, LegsTakenOnce, TriesCounted, AlarmAtExpiry;
  }
}
