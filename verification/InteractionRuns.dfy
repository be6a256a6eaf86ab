/** Runs of one interaction document: any sequence of calls after its creation, the alarm
    ringing whenever it is due. Interaction ids are drawn at random, so none is created twice. */
module InteractionRuns {
  import opened Options
  import opened InteractionModel

  datatype Event =
    | TakePush(client: nat, binding: Hash, now: Time, ttl: int)
    | Move(op: Operation, to: Status, patch: Patch, now: Time)
    | TakeCompletion(now: Time)
    | TakeLeg(stateHash: Hash, now: Time)
    | Work(work: WorkPatch, now: Time)
    | Try(now: Time, limit: int)
    | Ring(now: Time)

  function Next(c: Cell, e: Event): (Cell, Answer) {
    match e
    case TakePush(client, binding, now, ttl) => ClaimPushed(c, client, binding, now, ttl)
    case Move(op, to, patch, now) => Apply(c, op, to, patch, now)
    case TakeCompletion(now) => ClaimCompletion(c, now)
    case TakeLeg(stateHash, now) => ConsumeFederation(c, stateHash, now)
    case Work(work, now) => PatchWork(c, work, now)
    case Try(now, limit) => Attempt(c, now, limit)
    case Ring(now) => (if c.alarm.Some? && c.alarm.value <= now then Cell(None, None) else c, Refused(NotFound))
  }

  /** What happened so far: the statuses held, when a terminal one was first reached, how many
      callers took the pushed request, the legs ever started and taken, the attempts granted. */
  datatype History = History(
    path: seq<Status>, endedAt: Option<Time>, pushTakers: nat, started: set<Hash>, taken: multiset<Hash>, tries: nat)

  datatype World = World(cell: Cell, h: History)

  function StartedBy(p: WorkPatch): set<Hash> {
    if p.federation.Set? && p.federation.value.Some? then {p.federation.value.value.stateHash} else {}
  }

  function LegsOf(e: Event): set<Hash> {
    match e
    case Move(_, _, patch, _) => StartedBy(patch.work)
    case Work(work, _) => StartedBy(work)
    case _ => {}
  }

  /** The status after, when `e` changed it. */
  function Change(c: Cell, e: Event): Option<Status> {
    var after := Next(c, e).0.doc;
    if c.doc.Some? && after.Some? && after.value.status != c.doc.value.status then Some(after.value.status) else None
  }

  function Recorded(h: History, c: Cell, e: Event): History {
    var ok := Next(c, e).1.Done?;
    var change := Change(c, e);
    History(
      if change.Some? then h.path + [change.value] else h.path,
      if change.Some? && IsTerminal(change.value) && h.endedAt.None? then Some(e.now) else h.endedAt,
      if e.TakePush? && ok then h.pushTakers + 1 else h.pushTakers,
      h.started + LegsOf(e),
      if e.TakeLeg? && ok then h.taken + multiset{e.stateHash} else h.taken,
      if e.Try? && ok then h.tries + 1 else h.tries)
  }

  function Step(w: World, e: Event): World { World(Next(w.cell, e).0, Recorded(w.h, w.cell, e)) }

  function Run(w: World, es: seq<Event>): World
    decreases |es|
  {
    if es == [] then w else Run(Step(w, es[0]), es[1..])
  }

  /** How the rest of the system calls the object: every leg has a fresh random state, only
      `attempt` counts attempts, and no caller allows more than `limit` of them. */
  predicate Legal(w: World, e: Event, limit: nat) {
    && LegsOf(e) !! w.h.started
    && (e.Move? ==> e.patch.work.attempts.Keep?)
    && (e.Work? ==> e.work.attempts.Keep?)
    && (e.Try? ==> e.limit <= limit)
  }

  predicate AllLegal(w: World, es: seq<Event>, limit: nat)
    decreases |es|
  {
    es == [] || (Legal(w, es[0], limit) && AllLegal(Step(w, es[0]), es[1..], limit))
  }

  function Opened(d: Draft, now: Time, ttl: int): World {
    World(Create(Cell(None, None), d, now, ttl).0, History([d.status], None, 0, {}, multiset{}, 0))
  }

  // ---------------------------------------------------------------- the invariant

  predicate Edge(a: Status, b: Status) { exists op :: CanTransition(a, op, b) }

  /** Consecutive statuses are edges of the table. */
  predicate IsPath(p: seq<Status>) { forall i :: 0 < i < |p| ==> Edge(p[i - 1], p[i]) }

  predicate AlarmAtExpiry(c: Cell) {
    c.alarm == if c.doc.Some? then Some(c.doc.value.expiresAt) else None
  }

  predicate OnPath(w: World) {
    |w.h.path| > 0 && IsPath(w.h.path) && (w.cell.doc.Some? ==> w.h.path[|w.h.path| - 1] == w.cell.doc.value.status)
  }

  predicate EndsSoon(w: World) {
    w.cell.doc.Some? ==>
      && (IsTerminal(w.cell.doc.value.status) <==> w.h.endedAt.Some?)
      && (w.h.endedAt.Some? ==> w.cell.doc.value.expiresAt <= w.h.endedAt.value + 60)
  }

  predicate PushTakenOnce(w: World) {
    w.h.pushTakers == 0
    || (w.h.pushTakers == 1 && (w.cell.doc.Some? && w.cell.doc.value.status == Pushed ==> w.cell.doc.value.parConsumed))
  }

  predicate LegsTakenOnce(w: World) {
    && (forall s :: s in w.h.taken ==> s in w.h.started && w.h.taken[s] == 1)
    && (w.cell.doc.Some? && w.cell.doc.value.federation.Some? ==>
          var s := w.cell.doc.value.federation.value.stateHash; s in w.h.started && s !in w.h.taken)
  }

  predicate TriesCounted(w: World, limit: nat) {
    && w.h.tries <= limit
    && (w.cell.doc.Some? && !IsTerminal(w.cell.doc.value.status) ==> w.cell.doc.value.attempts == w.h.tries)
  }

  predicate Kept(w: World, limit: nat) {
    AlarmAtExpiry(w.cell) && OnPath(w) && EndsSoon(w) && PushTakenOnce(w) && LegsTakenOnce(w) && TriesCounted(w, limit)
  }

  lemma StepKeepsPath(w: World, e: Event)
    requires OnPath(w)
    ensures OnPath(Step(w, e))
  {
    var change := Change(w.cell, e);
    if change.Some? {
      assert Edge(w.cell.doc.value.status, change.value) by {
        assert CanTransition(w.cell.doc.value.status, if e.Move? then e.op else Fail, change.value);
      }
    }
  }

  lemma StepKeepsExpiry(w: World, e: Event)
    requires AlarmAtExpiry(w.cell) && EndsSoon(w)
    ensures AlarmAtExpiry(Step(w, e).cell) && EndsSoon(Step(w, e))
  {
  }

  lemma StepKeepsTaker(w: World, e: Event)
    requires PushTakenOnce(w)
    ensures PushTakenOnce(Step(w, e))
  {
  }

  lemma StepKeepsLegs(w: World, e: Event)
    requires LegsTakenOnce(w) && LegsOf(e) !! w.h.started
    ensures LegsTakenOnce(Step(w, e))
  {
  }

  lemma StepKeepsTries(w: World, e: Event, limit: nat)
    requires TriesCounted(w, limit) && Legal(w, e, limit)
    ensures TriesCounted(Step(w, e), limit)
  {
  }

  lemma {:induction false} RunKeeps(w: World, es: seq<Event>, limit: nat)
    requires Kept(w, limit) && AllLegal(w, es, limit)
    ensures Kept(Run(w, es), limit)
    decreases |es|
  {
    hide Step, OnPath, EndsSoon, AlarmAtExpiry, PushTakenOnce, LegsTakenOnce, TriesCounted;
    if es != [] {
      StepKeepsPath(w, es[0]);
      StepKeepsExpiry(w, es[0]);
      StepKeepsTaker(w, es[0]);
      StepKeepsLegs(w, es[0]);
      StepKeepsTries(w, es[0], limit);
      RunKeeps(Step(w, es[0]), es[1..], limit);
    }
  }

  /** Every run from every creation. */
  lemma EveryRunIsKept(d: Draft, now: Time, ttl: int, es: seq<Event>, limit: nat)
    requires !IsTerminal(d.status) && AllLegal(Opened(d, now, ttl), es, limit)
    ensures Kept(Run(Opened(d, now, ttl), es), limit)
  {
    RunKeeps(Opened(d, now, ttl), es, limit);
  }

  /** After the limit has been granted, the next attempt on a document still open fails it. */
  lemma OneAttemptTooMany(d: Draft, now: Time, ttl: int, es: seq<Event>, limit: nat, at: Time)
    requires !IsTerminal(d.status) && AllLegal(Opened(d, now, ttl), es, limit)
    requires var w := Run(Opened(d, now, ttl), es);
      Live(w.cell, at) && !IsTerminal(w.cell.doc.value.status)
    ensures var w := Run(Opened(d, now, ttl), es);
      var (c, r) := Attempt(w.cell, at, limit);
      && (r.Done? <==> w.h.tries < limit)
      && (w.h.tries >= limit ==> r == Refused(TooManyAttempts) && c.doc.Some? && c.doc.value.status == Failed)
  {
    EveryRunIsKept(d, now, ttl, es, limit);
    hide Run, AllLegal, OnPath, EndsSoon, PushTakenOnce, LegsTakenOnce, AlarmAtExpiry;
  }

  // ---------------------------------------------------------------- no way back

  /** Statuses only climb, except among the four open ones. */
  function Rank(s: Status): nat {
    match s
    case Pushed => 0
    case Failed => 2
    case Completed => 3
    case _ => 1
  }

  lemma EdgesClimb(a: Status, op: Operation, b: Status)
    requires CanTransition(a, op, b)
    ensures Rank(a) < Rank(b) || Rank(a) == 1 == Rank(b)
  {
  }

  /** From `from`, some path of the table ends in `to`. */
  ghost predicate Reaches(from: Status, to: Status) {
    exists p: seq<Status> :: |p| > 0 && p[0] == from && p[|p| - 1] == to && IsPath(p)
  }

  lemma {:induction false} PathsClimb(p: seq<Status>)
    requires |p| > 0 && IsPath(p)
    ensures MayFollow(p[0], p[|p| - 1])
    decreases |p|
  {
    if |p| > 1 {
      PathsClimb(p[..|p| - 1]);
      assert Edge(p[|p| - 2], p[|p| - 1]);
      var op :| CanTransition(p[|p| - 2], op, p[|p| - 1]);
      EdgesClimb(p[|p| - 2], op, p[|p| - 1]);
    }
  }

  /** A path between the open statuses, and on to the terminal ones. */
  function Witness(from: Status, to: Status): seq<Status> {
    var toLogin := match from
      case Pushed => [Pushed, LoginRequired]
      case LoginRequired => [LoginRequired]
      case LinkRequired => [LinkRequired, Ready, LoginRequired]
      case ConsentRequired => [ConsentRequired, Ready, LoginRequired]
      case Ready => [Ready, LoginRequired]
      case _ => [];
    if from == to then [from]
    else if from == Failed then [Failed, Completed]
    else match to
      case Completed => toLogin + [Ready, Completed]
      case LoginRequired => toLogin
      case _ => toLogin + [to]
  }

  lemma TableEdges()
    ensures Edge(Pushed, LoginRequired) && Edge(LoginRequired, Ready) && Edge(LoginRequired, ConsentRequired)
    ensures Edge(LoginRequired, LinkRequired) && Edge(LoginRequired, Failed) && Edge(Ready, LoginRequired)
    ensures Edge(Ready, Completed) && Edge(LinkRequired, Ready) && Edge(ConsentRequired, Ready)
      && Edge(Failed, Completed)
  {
    assert CanTransition(Pushed, ConsumePar, LoginRequired);
    assert CanTransition(LoginRequired, Authenticate, Ready)
      && CanTransition(LoginRequired, Authenticate, ConsentRequired);
    assert CanTransition(LoginRequired, Authenticate, LinkRequired) && CanTransition(LoginRequired, Fail, Failed);
    assert CanTransition(Ready, Restart, LoginRequired) && CanTransition(Ready, Complete, Completed);
    assert CanTransition(LinkRequired, Link, Ready) && CanTransition(ConsentRequired, Consent, Ready);
    assert CanTransition(Failed, Complete, Completed);
  }

  predicate MayFollow(from: Status, to: Status) {
    from == to || Rank(from) < Rank(to) || Rank(from) == 1 == Rank(to)
  }

  lemma WitnessIsPath(from: Status, to: Status)
    requires MayFollow(from, to)
    ensures var p := Witness(from, to); |p| > 0 && p[0] == from && p[|p| - 1] == to && IsPath(p)
  {
    hide Edge;
    TableEdges();
  }

  /** Exactly which statuses can follow which: `completed` is absorbing, `failed` leads only to
      `completed`, nothing returns to `pushed`, and the four open statuses reach each other. */
  lemma ReachableStatuses(from: Status, to: Status)
    ensures Reaches(from, to) <==> MayFollow(from, to)
  {
    hide IsPath, Witness;
    if Reaches(from, to) {
      var p: seq<Status> :| |p| > 0 && p[0] == from && p[|p| - 1] == to && IsPath(p);
      PathsClimb(p);
    }
    if MayFollow(from, to) {
      WitnessIsPath(from, to);
    }
  }

  /** A completed document is never changed again; it can only be deleted. */
  lemma {:induction false} CompletedIsFrozen(w: World, es: seq<Event>)
    requires w.cell.doc.Some? && w.cell.doc.value.status == Completed
    ensures Run(w, es).cell.doc in {None, w.cell.doc}
    decreases |es|
  {
    if es != [] {
      if Step(w, es[0]).cell.doc.None? {
        NothingComesBack(Step(w, es[0]), es[1..]);
      } else {
        CompletedIsFrozen(Step(w, es[0]), es[1..]);
      }
    }
  }

  lemma {:induction false} NothingComesBack(w: World, es: seq<Event>)
    requires w.cell.doc.None?
    ensures Run(w, es).cell.doc.None?
    decreases |es|
  {
    if es != [] {
      NothingComesBack(Step(w, es[0]), es[1..]);
    }
  }

  predicate PastPush(doc: Doc) { doc.status != Pushed || doc.parConsumed }

  lemma StepShrinksExpiry(c: Cell, e: Event)
    requires c.doc.Some? && PastPush(c.doc.value)
    ensures var after := Next(c, e).0.doc;
      after.Some? ==> PastPush(after.value) && after.value.expiresAt <= c.doc.value.expiresAt
  {
  }

  /** Only taking a pushed request moves the expiry later. */
  lemma {:induction false} ExpiryOnlyShrinks(w: World, es: seq<Event>)
    requires w.cell.doc.Some? && PastPush(w.cell.doc.value)
    ensures var after := Run(w, es).cell.doc; after.Some? ==> after.value.expiresAt <= w.cell.doc.value.expiresAt
    decreases |es|
  {
    hide Next, Recorded;
    if es != [] {
      StepShrinksExpiry(w.cell, es[0]);
      if Step(w, es[0]).cell.doc.None? {
        NothingComesBack(Step(w, es[0]), es[1..]);
      } else {
        ExpiryOnlyShrinks(Step(w, es[0]), es[1..]);
      }
    }
  }

  // ---------------------------------------------------------------- the alarm is invisible

  predicate InOrder(from: Time, es: seq<Event>)
    decreases |es|
  {
    es == [] || (from <= es[0].now && InOrder(es[0].now, es[1..]))
  }

  function Silenced(es: seq<Event>): seq<Event>
    decreases |es|
  {
    if es == [] then [] else if es[0].Ring? then Silenced(es[1..]) else [es[0]] + Silenced(es[1..])
  }

  /** What the callers are answered; the alarm has no caller. */
  function Answers(c: Cell, es: seq<Event>): seq<Answer>
    decreases |es|
  {
    if es == [] then []
    else (if es[0].Ring? then [] else [Next(c, es[0]).1]) + Answers(Next(c, es[0]).0, es[1..])
  }

  /** `a` differs from `b` at most by having lost a document that has expired. */
  predicate Alike(a: Cell, b: Cell, now: Time) {
    a == b || (!Live(a, now) && !Live(b, now) && a.doc.None?)
  }

  lemma StepKeepsAlike(a: Cell, b: Cell, e: Event, now: Time)
    requires Alike(a, b, now) && now <= e.now && AlarmAtExpiry(a) && !e.Ring?
    ensures Next(a, e).1 == Next(b, e).1 && Alike(Next(a, e).0, Next(b, e).0, e.now) && AlarmAtExpiry(Next(a, e).0)
  {
  }

  lemma {:induction false} AnswersAlike(a: Cell, b: Cell, es: seq<Event>, now: Time)
    requires Alike(a, b, now) && AlarmAtExpiry(a) && InOrder(now, es)
    ensures Answers(a, es) == Answers(b, Silenced(es))
    decreases |es|
  {
    if es != [] {
      var a' := Next(a, es[0]).0;
      if es[0].Ring? {
        assert Alike(a', b, es[0].now) && AlarmAtExpiry(a');
        AnswersAlike(a', b, es[1..], es[0].now);
      } else {
        StepKeepsAlike(a, b, es[0], now);
        AnswersAlike(a', Next(b, es[0]).0, es[1..], es[0].now);
        assert ([es[0]] + Silenced(es[1..]))[1..] == Silenced(es[1..]);
      }
    }
  }

  /** Deleting at the alarm changes no answer: with a clock that never goes back, every caller
      hears exactly what it would have heard had the document been kept for ever. */
  lemma DeletionIsInvisible(d: Draft, now: Time, ttl: int, es: seq<Event>)
    requires InOrder(now, es)
    ensures Answers(Opened(d, now, ttl).cell, es) == Answers(Opened(d, now, ttl).cell, Silenced(es))
  {
    AnswersAlike(Opened(d, now, ttl).cell, Opened(d, now, ttl).cell, es, now);
  }
}
