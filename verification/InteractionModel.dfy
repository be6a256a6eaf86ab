/** The interaction document of src/do/InteractionDO.ts as a value: the transition table of
    src/interaction/state-machine.ts, and every remote call as a function on storage.

    Parts of the document that no decision reads are opaque numbers. Times are seconds. */
module InteractionModel {
  import opened Options

  type Time = int
  type Hash = nat

  const RETENTION := 60

  // ---------------------------------------------------------------- the table

  datatype Status = Pushed | LoginRequired | LinkRequired | ConsentRequired | Ready | Completed | Failed

  datatype Operation = ConsumePar | Authenticate | Link | Consent | LogoutDecision | Abort | Fail | Restart | Complete

  predicate IsTerminal(s: Status) { s == Completed || s == Failed }

  /** The statuses `operation` may lead to; empty when it is not permitted. */
  function Targets(from: Status, operation: Operation): set<Status> {
    match (from, operation)
    case (Pushed, ConsumePar) => {LoginRequired, ConsentRequired, Completed}
    case (LoginRequired, Authenticate) => {Ready, ConsentRequired, LinkRequired, Failed}
    case (LoginRequired, LogoutDecision) => {Ready}
    case (LinkRequired, Link) => {Ready, ConsentRequired, Failed}
    case (ConsentRequired, Consent) => {Ready, Failed}
    case (Ready, Restart) => {LoginRequired}
    case (Ready, Complete) => {Completed}
    case (Failed, Complete) => {Completed}
    case (_, Abort) => if IsTerminal(from) then {} else {Failed}
    case (_, Fail) => if IsTerminal(from) then {} else {Failed}
    case _ => {}
  }

  predicate CanTransition(from: Status, operation: Operation, to: Status) { to in Targets(from, operation) }

  // ---------------------------------------------------------------- the document

  datatype Kind = Authorize | Logout | Par

  datatype Request = Request(
    redirectUri: string, scope: seq<string>, nonce: Option<string>, challenge: Option<string>, prompt: set<string>,
    maxAge: Option<int>)

  datatype Existing = Existing(uid: nat, sid: nat, authTime: Time)

  datatype Leg = Leg(alias: string, stateHash: Hash, expiresAt: Time)

  datatype Auth = Auth(
    uid: nat, amr: seq<string>, acr: string, upstream: Option<string>, authTime: Time, newSession: bool)

  datatype Logout = LogoutAsked(sid: Option<nat>, uid: Option<nat>, confirmed: Option<bool>)

  datatype Doc = Doc(
    kind: Kind, status: Status, createdAt: Time, expiresAt: Time, bindingHash: Hash, clientId: Option<nat>,
    request: Option<Request>, existing: Option<Existing>, challenge: Option<nat>, registration: Option<nat>,
    federation: Option<Leg>, link: Option<nat>, auth: Option<Auth>, consent: Option<seq<string>>,
    logout: Option<Logout>, error: Option<string>, attempts: int, parConsumed: bool, completing: bool)

  datatype Draft = Draft(
    kind: Kind, status: Status, bindingHash: Hash, clientId: Option<nat>, request: Option<Request>,
    existing: Option<Existing>, logout: Option<Logout>)

  /** A key of a partial update: absent, or present with a value. */
  datatype Change<T> = Keep | Set(value: T)

  function Value<T>(c: Change<T>, current: T): T { if c.Set? then c.value else current }

  /** `InteractionPatch`: what an update without a transition may carry. */
  datatype WorkPatch = WorkPatch(
    challenge: Change<Option<nat>>, registration: Change<Option<nat>>, federation: Change<Option<Leg>>,
    link: Change<Option<nat>>, attempts: Change<int>)

  /** `TransitionPatch`: everything but the identity, the status and the times. */
  datatype Patch = Patch(
    clientId: Change<Option<nat>>, request: Change<Option<Request>>, existing: Change<Option<Existing>>,
    work: WorkPatch, auth: Change<Option<Auth>>, consent: Change<Option<seq<string>>>,
    logout: Change<Option<Logout>>, error: Change<Option<string>>, parConsumed: Change<bool>,
    completing: Change<bool>)

  const NoWork := WorkPatch(Keep, Keep, Keep, Keep, Keep)
  const NoPatch := Patch(Keep, Keep, Keep, NoWork, Keep, Keep, Keep, Keep, Keep, Keep)

  function Worked(doc: Doc, p: WorkPatch): Doc {
    doc.(challenge := Value(p.challenge, doc.challenge), registration := Value(p.registration, doc.registration),
         federation := Value(p.federation, doc.federation), link := Value(p.link, doc.link),
         attempts := Value(p.attempts, doc.attempts))
  }

  function Patched(doc: Doc, p: Patch): Doc {
    Worked(doc, p.work).(
      clientId := Value(p.clientId, doc.clientId), request := Value(p.request, doc.request),
      existing := Value(p.existing, doc.existing), auth := Value(p.auth, doc.auth),
      consent := Value(p.consent, doc.consent), logout := Value(p.logout, doc.logout),
      error := Value(p.error, doc.error), parConsumed := Value(p.parConsumed, doc.parConsumed),
      completing := Value(p.completing, doc.completing))
  }

  // ---------------------------------------------------------------- storage and calls

  /** The stored document and the armed alarm. */
  datatype Cell = Cell(doc: Option<Doc>, alarm: Option<Time>)

  datatype Refusal = Exists | NotFound | InvalidState | TooManyAttempts

  datatype Answer = Done(doc: Doc) | Refused(why: Refusal)

  predicate Live(c: Cell, now: Time) { c.doc.Some? && c.doc.value.expiresAt > now }

  function Get(c: Cell, now: Time): Answer {
    if Live(c, now) then Done(c.doc.value) else Refused(NotFound)
  }

  function Blank(d: Draft, now: Time, ttl: int): Doc {
    Doc(d.kind, d.status, now, now + ttl, d.bindingHash, d.clientId, d.request, d.existing, None, None, None, None,
        None, None, d.logout, None, 0, false, false)
  }

  function Create(c: Cell, d: Draft, now: Time, ttl: int): (Cell, Answer) {
    if c.doc.Some? then (c, Refused(Exists))
    else (Cell(Some(Blank(d, now, ttl)), Some(now + ttl)), Done(Blank(d, now, ttl)))
  }

  function ClaimPushed(c: Cell, client: nat, binding: Hash, now: Time, ttl: int): (Cell, Answer) {
    if !Live(c, now) then (c, Refused(NotFound))
    else
      var doc := c.doc.value;
      if doc.status != Pushed || doc.parConsumed || doc.clientId != Some(client) then (c, Refused(InvalidState))
      else
        var taken := doc.(kind := Authorize, bindingHash := binding, parConsumed := true, expiresAt := now + ttl);
        (Cell(Some(taken), Some(now + ttl)), Done(taken))
  }

  function Moved(doc: Doc, to: Status, p: Patch, now: Time): Doc {
    var next := Patched(doc, p).(status := to);
    if IsTerminal(to) && next.expiresAt > now + RETENTION then next.(expiresAt := now + RETENTION) else next
  }

  function Apply(c: Cell, op: Operation, to: Status, p: Patch, now: Time): (Cell, Answer) {
    if !Live(c, now) then (c, Refused(NotFound))
    else if !CanTransition(c.doc.value.status, op, to) then (c, Refused(InvalidState))
    else
      var next := Moved(c.doc.value, to, p, now);
      (Cell(Some(next), if IsTerminal(to) then Some(next.expiresAt) else c.alarm), Done(next))
  }

  function ClaimCompletion(c: Cell, now: Time): (Cell, Answer) {
    if !Live(c, now) then (c, Refused(NotFound))
    else
      var doc := c.doc.value;
      if (doc.status != Ready && doc.status != Failed) || doc.completing then (c, Refused(InvalidState))
      else (c.(doc := Some(doc.(completing := true))), Done(doc.(completing := true)))
  }

  /** The leg handed to the caller is the one the document held before. */
  function ConsumeFederation(c: Cell, stateHash: Hash, now: Time): (Cell, Answer) {
    if !Live(c, now) then (c, Refused(NotFound))
    else
      var doc := c.doc.value;
      if doc.federation.None? || doc.federation.value.stateHash != stateHash
        || doc.federation.value.expiresAt <= now then
        (c, Refused(InvalidState))
      else if doc.status != LoginRequired then (c, Refused(InvalidState))
      else (c.(doc := Some(doc.(federation := None))), Done(doc.(federation := None)))
  }

  function PatchWork(c: Cell, p: WorkPatch, now: Time): (Cell, Answer) {
    if !Live(c, now) then (c, Refused(NotFound))
    else if IsTerminal(c.doc.value.status) then (c, Refused(InvalidState))
    else (c.(doc := Some(Worked(c.doc.value, p))), Done(Worked(c.doc.value, p)))
  }

  function TooMany(attempts: int): Patch {
    NoPatch.(work := NoWork.(attempts := Set(attempts)), error := Set(Some("too_many_attempts")))
  }

  function Attempt(c: Cell, now: Time, limit: int): (Cell, Answer) {
    if !Live(c, now) then (c, Refused(NotFound))
    else if IsTerminal(c.doc.value.status) then (c, Refused(InvalidState))
    else
      var attempts := c.doc.value.attempts + 1;
      if attempts > limit then (Apply(c, Fail, Failed, TooMany(attempts), now).0, Refused(TooManyAttempts))
      else (c.(doc := Some(c.doc.value.(attempts := attempts))), Done(c.doc.value.(attempts := attempts)))
  }
}
