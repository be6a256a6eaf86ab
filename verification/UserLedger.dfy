/** The ledger of a run with fresh secrets: each code is exchanged once, each refresh token
    rotates once, serials count up by one, a reuse is final, and scope never grows. */
module UserLedger {
  import opened Options
  import opened UserModel
  import opened UserSound
  import opened UserRuns
  import opened UserHistory

  // ---------------------------------------------------------------- entries stay true

  /** What an entry of the ledger promises of every later state. */
  ghost predicate EntryHolds(seen: Seen, st: Store, e: Entry) {
    match e
    case CodeIssued(c, _) => c in seen.codes
    case CodeExchanged(c, created, _) => c in seen.codes && Spent(st, c)
      && (created.Some? ==> created.value in seen.families)
    case CodeReplayed(c) => c in seen.codes && CodeDead(st, c)
    case TokenRotated(f, h, _, _, _) =>
      && f in seen.families && TokenKey(f, h) in seen.tokens
      && (TokenKey(f, h) in st.tokens && f in st.families ==>
           st.tokens[TokenKey(f, h)].serial < st.families[f].currentSerial)
    case ReuseSeen(f, sid) =>
      f in seen.families && FamilyDead(st, f) && (sid.Some? ==> sid.value in seen.sids && SessionDead(st, sid.value))
  }

  lemma EntryPersists(seen: Seen, st: Store, st': Store, obs: seq<Entry>, e: Entry)
    requires Known(seen, st) && Evolves(seen, st, st', obs) && EntryHolds(seen, st, e)
    ensures EntryHolds(SeenAfter(seen, st'), st', e)
  {
    match e
    case CodeReplayed(c) =>
      forall g | g in st'.families && st'.families[g].codeHash == c
        ensures st'.families[g].revoked.Some?
      {
        assert g in seen.families || Unspent(st, c);
      }
    case ReuseSeen(f, sid) =>
      forall g | sid.Some? && g in st'.families && st'.families[g].sid == sid
        ensures st'.families[g].revoked.Some?
      {
        assert g in seen.families || Unrevoked(st, sid);
      }
    case _ =>
  }

  lemma EntryEstablished(seen: Seen, st: Store, st': Store, e: Entry)
    requires Known(seen, st) && Evolves(seen, st, st', [e])
    requires e.ReuseSeen? && e.sid.Some? ==> e.sid.value in seen.sids
    ensures EntryHolds(SeenAfter(seen, st'), st', e)
  {
    assert [e][0] == e;
    assert e.TokenRotated? ==> Rotates([e], e.family);
  }

  // ---------------------------------------------------------------- order of entries

  /** No code is exchanged twice and no family is created twice. */
  ghost predicate ExchangedOnce(log: seq<Entry>) {
    forall i, j :: 0 <= i < j < |log| && log[i].CodeExchanged? && log[j].CodeExchanged? ==>
      log[i].code != log[j].code && (log[i].created.Some? ==> log[i].created != log[j].created)
  }

  /** No refresh token rotates twice. */
  ghost predicate RotatedOnce(log: seq<Entry>) {
    forall i, j :: 0 <= i < j < |log| && log[i].TokenRotated? && log[j].TokenRotated? ==>
      log[i].family != log[j].family || log[i].presented != log[j].presented
  }

  /** After a reuse neither the family nor any other family bound to its session rotates again. */
  ghost predicate ReuseIsFinal(log: seq<Entry>) {
    forall i, j :: 0 <= i < j < |log| && log[i].ReuseSeen? && log[j].TokenRotated? ==>
      log[i].family != log[j].family && (log[i].sid.Some? ==> log[i].sid != log[j].sid)
  }

  /** After a replay the code is never exchanged. */
  ghost predicate ReplayIsFinal(log: seq<Entry>) {
    forall i, j :: 0 <= i < j < |log| && log[i].CodeReplayed? && log[j].CodeExchanged? ==> log[i].code != log[j].code
  }

  ghost predicate IssuedBefore(log: seq<Entry>, i: nat, c: Hash, scope: seq<string>) {
    exists k :: 0 <= k < i && k < |log| && log[k] == CodeIssued(c, scope)
  }

  /** Entry `i` created `f` from the code `c`, issued before it with this scope. */
  ghost predicate CreatedAt(log: seq<Entry>, i: nat, f: FamilyId, c: Hash, scope: seq<string>) {
    i < |log| && log[i] == CodeExchanged(c, Some(f), scope) && IssuedBefore(log, i, c, scope)
  }

  ghost predicate CreatedBefore(log: seq<Entry>, j: nat, f: FamilyId, c: Hash, scope: seq<string>) {
    exists i: nat :: i < j && CreatedAt(log, i, f, c, scope)
  }

  /** Every granted scope is within the scope of the code the family descends from. */
  ghost predicate ScopeNeverGrows(log: seq<Entry>) {
    && (forall j: nat :: j < |log| && log[j].CodeExchanged? ==> IssuedBefore(log, j, log[j].code, log[j].scope))
    && (forall j: nat :: j < |log| && log[j].TokenRotated? ==>
          exists c, scope :: CreatedBefore(log, j, log[j].family, c, scope) && Subset(log[j].scope, scope))
  }

  ghost predicate Ordered(log: seq<Entry>) {
    ExchangedOnce(log) && RotatedOnce(log) && ReuseIsFinal(log) && ReplayIsFinal(log) && ScopeNeverGrows(log)
  }

  // ---------------------------------------------------------------- serials

  ghost function Rotations(log: seq<Entry>, f: FamilyId): seq<int> {
    if log == [] then []
    else
      var last := log[|log| - 1];
      Rotations(log[..|log| - 1], f) + (if last.TokenRotated? && last.family == f then [last.serial] else [])
  }

  /** 2, 3, 4 and so on. */
  ghost predicate FromTwo(serials: seq<int>) { forall i :: 0 <= i < |serials| ==> serials[i] == i + 2 }

  ghost predicate Linear(seen: Seen, st: Store, log: seq<Entry>, f: FamilyId) {
    && FromTwo(Rotations(log, f))
    && (f in st.families ==> st.families[f].currentSerial == |Rotations(log, f)| + 1)
    && (f !in seen.families ==> Rotations(log, f) == [])
  }

  // ---------------------------------------------------------------- the invariant

  ghost predicate Rooted(w: World) {
    && (forall c :: c in w.st.codes ==> IssuedBefore(w.log, |w.log|, c, w.st.codes[c].scope))
    && (forall f :: f in w.st.families ==>
          && CreatedBefore(w.log, |w.log|, f, w.st.families[f].codeHash, w.st.families[f].scope)
          && (w.st.families[f].sid.Some? ==> w.st.families[f].sid.value in w.seen.sids)
          && EndsWithSession(w.st, w.st.families[f]))
  }

  ghost predicate Recorded(w: World) {
    && Known(w.seen, w.st)
    && Rooted(w)
    && (forall i :: 0 <= i < |w.log| ==> EntryHolds(w.seen, w.st, w.log[i]))
    && (forall f :: Linear(w.seen, w.st, w.log, f))
    && Ordered(w.log)
  }

  lemma IssuedLater(log: seq<Entry>, obs: seq<Entry>, i: nat, c: Hash, scope: seq<string>)
    requires i <= |log| && IssuedBefore(log, i, c, scope)
    ensures IssuedBefore(log + obs, i, c, scope) && forall j: nat :: i <= j ==> IssuedBefore(log + obs, j, c, scope)
  {
    var k :| 0 <= k < i && k < |log| && log[k] == CodeIssued(c, scope);
    assert (log + obs)[k] == log[k];
  }

  lemma CreatedLater(log: seq<Entry>, obs: seq<Entry>, j: nat, f: FamilyId, c: Hash, scope: seq<string>)
    requires j <= |log| && CreatedBefore(log, j, f, c, scope)
    ensures CreatedBefore(log + obs, j, f, c, scope) && CreatedBefore(log + obs, |log + obs|, f, c, scope)
  {
    var i: nat :| i < j && CreatedAt(log, i, f, c, scope);
    assert (log + obs)[i] == log[i];
    IssuedLater(log, obs, i, c, scope);
    assert CreatedAt(log + obs, i, f, c, scope);
  }

  lemma RotationsAppend(log: seq<Entry>, e: Entry, f: FamilyId)
    ensures Rotations(log + [e], f) == Rotations(log, f) + (if e.TokenRotated? && e.family == f then [e.serial] else [])
  {
    assert (log + [e])[..|log|] == log;
  }

  lemma FromTwoOn(serials: seq<int>, next: int)
    requires FromTwo(serials) && next == |serials| + 2
    ensures FromTwo(serials + [next]) && |serials + [next]| == |serials| + 1
  {}

  /** What a step does to the serial of a family, and when it reports a rotation of it. */
  lemma SerialOfStep(seen: Seen, st: Store, st': Store, obs: seq<Entry>, f: FamilyId)
    requires Known(seen, st) && Evolves(seen, st, st', obs)
    ensures Rotates(obs, f) ==>
      f in st.families && f in seen.families && obs[0].serial == st.families[f].currentSerial + 1
    ensures f in st'.families && f in seen.families ==>
      f in st.families && st'.families[f].currentSerial == st.families[f].currentSerial + if Rotates(obs, f) then 1
        else 0
    ensures f in st'.families && f !in seen.families ==> st'.families[f].currentSerial == 1
    ensures obs == [] || |obs| == 1
  {
    hide SessionsAge, CodesAge, EndsWithSession, Unrevoked, Subset;
  }

  lemma LinearStep(seen: Seen, st: Store, st': Store, log: seq<Entry>, obs: seq<Entry>, f: FamilyId)
    requires Known(seen, st) && Evolves(seen, st, st', obs) && Linear(seen, st, log, f)
    ensures Linear(SeenAfter(seen, st'), st', log + obs, f)
  {
    SerialOfStep(seen, st, st', obs, f);
    hide Known, Evolves, Rotations, FromTwo;
    if obs == [] {
      assert log + obs == log;
    } else {
      assert obs == [obs[0]];
      RotationsAppend(log, obs[0], f);
      if Rotates(obs, f) {
        FromTwoOn(Rotations(log, f), obs[0].serial);
      } else {
        assert Rotations(log, f) + [] == Rotations(log, f);
      }
    }
  }

  lemma RootedStep(w: World, st': Store, obs: seq<Entry>)
    requires Known(w.seen, w.st) && Evolves(w.seen, w.st, st', obs) && Rooted(w)
    ensures Rooted(w.(st := st', seen := SeenAfter(w.seen, st'), log := w.log + obs))
  {
    var log' := w.log + obs;
    forall c | c in st'.codes
      ensures IssuedBefore(log', |log'|, c, st'.codes[c].scope)
    {
      if c in w.seen.codes {
        IssuedLater(w.log, obs, |w.log|, c, w.st.codes[c].scope);
      } else {
        assert log'[|w.log|] == CodeIssued(c, st'.codes[c].scope);
      }
    }
    forall f | f in st'.families
      ensures CreatedBefore(log', |log'|, f, st'.families[f].codeHash, st'.families[f].scope)
    {
      if f in w.seen.families {
        CreatedLater(w.log, obs, |w.log|, f, w.st.families[f].codeHash, w.st.families[f].scope);
      } else {
        var c := st'.families[f].codeHash;
        assert log'[|w.log|] == CodeExchanged(c, Some(f), st'.families[f].scope);
        IssuedLater(w.log, obs, |w.log|, c, w.st.codes[c].scope);
        assert CreatedAt(log', |w.log|, f, c, st'.families[f].scope);
      }
    }
  }

  lemma ScopeStep(w: World, st': Store, e: Entry)
    requires Known(w.seen, w.st) && Evolves(w.seen, w.st, st', [e]) && Rooted(w) && ScopeNeverGrows(w.log)
    ensures ScopeNeverGrows(w.log + [e])
  {
    var log' := w.log + [e];
    forall j: nat | j < |log'| && log'[j].CodeExchanged?
      ensures IssuedBefore(log', j, log'[j].code, log'[j].scope)
    {
      if j < |w.log| {
        IssuedLater(w.log, [e], j, log'[j].code, log'[j].scope);
      } else {
        assert [e][0] == e;
        IssuedLater(w.log, [e], |w.log|, e.code, e.scope);
      }
    }
    forall j: nat | j < |log'| && log'[j].TokenRotated?
      ensures exists c, scope :: CreatedBefore(log', j, log'[j].family, c, scope) && Subset(log'[j].scope, scope)
    {
      if j < |w.log| {
        var c, scope :| CreatedBefore(w.log, j, w.log[j].family, c, scope) && Subset(w.log[j].scope, scope);
        CreatedLater(w.log, [e], j, log'[j].family, c, scope);
      } else {
        assert [e][0] == e;
        CreatedLater(w.log, [e], |w.log|, e.family, w.st.families[e.family].codeHash, w.st.families[e.family].scope);
      }
    }
  }

  lemma OnceStep(w: World, st': Store, e: Entry)
    requires Known(w.seen, w.st) && Evolves(w.seen, w.st, st', [e])
    requires forall i :: 0 <= i < |w.log| ==> EntryHolds(w.seen, w.st, w.log[i])
    requires ExchangedOnce(w.log) && RotatedOnce(w.log) && ReuseIsFinal(w.log) && ReplayIsFinal(w.log)
    ensures var log' := w.log + [e];
      ExchangedOnce(log') && RotatedOnce(log') && ReuseIsFinal(log') && ReplayIsFinal(log')
  {
    assert [e][0] == e;
    var log' := w.log + [e];
    forall i | 0 <= i < |w.log|
      ensures e.CodeExchanged? && log'[i].CodeExchanged? ==>
        log'[i].code != e.code && (log'[i].created.Some? ==> log'[i].created != e.created)
      ensures e.TokenRotated? && log'[i].TokenRotated? ==>
        log'[i].family != e.family || log'[i].presented != e.presented
      ensures e.TokenRotated? && log'[i].ReuseSeen? ==>
        log'[i].family != e.family && (log'[i].sid.Some? ==> log'[i].sid != e.sid)
      ensures e.CodeExchanged? && log'[i].CodeReplayed? ==> log'[i].code != e.code
    {
      assert EntryHolds(w.seen, w.st, w.log[i]);
    }
  }

  lemma EntriesStep(w: World, st': Store, obs: seq<Entry>)
    requires Recorded(w) && Evolves(w.seen, w.st, st', obs)
    ensures forall i :: 0 <= i < |w.log + obs| ==> EntryHolds(SeenAfter(w.seen, st'), st', (w.log + obs)[i])
  {
    forall i | 0 <= i < |w.log + obs|
      ensures EntryHolds(SeenAfter(w.seen, st'), st', (w.log + obs)[i])
    {
      if i < |w.log| {
        EntryPersists(w.seen, w.st, st', obs, w.log[i]);
      } else {
        assert obs == [obs[0]];
        EntryEstablished(w.seen, w.st, st', obs[0]);
      }
    }
  }

  lemma KnownStep(w: World, st': Store)
    requires Known(w.seen, w.st) && TokensOwned(st')
    ensures Known(SeenAfter(w.seen, st'), st')
  {}

  lemma OrderedStep(w: World, st': Store, obs: seq<Entry>)
    requires Recorded(w) && Evolves(w.seen, w.st, st', obs)
    ensures Ordered(w.log + obs)
  {
    if obs == [] {
      assert w.log + obs == w.log;
    } else {
      var e := obs[0];
      assert obs == [e];
      hide Evolves, ScopeNeverGrows, ExchangedOnce, RotatedOnce, ReuseIsFinal, ReplayIsFinal, Rooted, Known;
      OnceStep(w, st', e);
      ScopeStep(w, st', e);
    }
  }

  /** One step of the ledger, from what the step reports alone. */
  lemma RecordedEvolves(w: World, w': World, obs: seq<Entry>)
    requires Recorded(w) && TokensOwned(w'.st) && Evolves(w.seen, w.st, w'.st, obs)
    requires w'.seen == SeenAfter(w.seen, w'.st) && w'.log == w.log + obs
    ensures Recorded(w')
  {
    EntriesStep(w, w'.st, obs);
    KnownStep(w, w'.st);
    OrderedStep(w, w'.st, obs);
    RootedStep(w, w'.st, obs);
    hide EntryHolds, Evolves, Ordered, Known, Rooted, Linear;
    RootedSame(w.(st := w'.st, seen := w'.seen, log := w'.log), w');
    forall f
      ensures Linear(w'.seen, w'.st, w'.log, f)
    {
      LinearStep(w.seen, w.st, w'.st, w.log, obs, f);
    }
  }

  lemma RootedSame(a: World, b: World)
    requires Rooted(a) && a.st == b.st && a.seen == b.seen && a.log == b.log
    ensures Rooted(b)
  {}

  lemma RecordedStep(w: World, e: Event)
    requires Sound(w.st) && Recorded(w) && Fresh(w, e)
    ensures Recorded(Step(w, e)) && Sound(Step(w, e).st)
  {
    assert Known(w.seen, w.st);
    hide Recorded, Evolves, NextStore, Observed, Fresh, Known, SeenAfter;
    StepEvolves(w, e);
    StepKeepsSound(w, e);
    RecordedEvolves(w, Step(w, e), Observed(w, e));
  }

  lemma {:induction false} RunRecorded(w: World, es: seq<Event>)
    requires Sound(w.st) && Recorded(w) && AllFresh(w, es)
    ensures Recorded(Run(w, es)) && Sound(Run(w, es).st)
    decreases |es|
  {
    hide Recorded, Sound, Step, Fresh;
    if es != [] {
      RecordedStep(w, es[0]);
      RunRecorded(Step(w, es[0]), es[1..]);
    }
  }

  lemma InitialRecorded(user: User)
    ensures Recorded(Initial(user)) && Sound(Initial(user).st)
  {}

  // ---------------------------------------------------------------- the theorems

  /** Over every run with fresh secrets: at most once, final, linear, and never wider than the code. */
  lemma LedgerOfEveryRun(user: User, es: seq<Event>)
    requires AllFresh(Initial(user), es)
    ensures
      var w := Run(Initial(user), es);
      && ExchangedOnce(w.log) && RotatedOnce(w.log) && ReuseIsFinal(w.log) && ReplayIsFinal(w.log)
           && ScopeNeverGrows(w.log)
      && (forall f :: FromTwo(Rotations(w.log, f)))
      && (forall f :: f in w.st.families ==> w.st.families[f].currentSerial == |Rotations(w.log, f)| + 1)
  {
    InitialRecorded(user);
    RunRecorded(Initial(user), es);
    var w := Run(Initial(user), es);
    forall f
      ensures FromTwo(Rotations(w.log, f))
      ensures f in w.st.families ==> w.st.families[f].currentSerial == |Rotations(w.log, f)| + 1
    {
      assert Linear(w.seen, w.st, w.log, f);
    }
  }

  lemma OneFamilyPerCode(w: World, f: FamilyId, g: FamilyId)
    requires Rooted(w) && ExchangedOnce(w.log)
    requires f in w.st.families && g in w.st.families && w.st.families[f].codeHash == w.st.families[g].codeHash
    ensures f == g
  {
    var i: nat :| i < |w.log| && CreatedAt(w.log, i, f, w.st.families[f].codeHash, w.st.families[f].scope);
    var j: nat :| j < |w.log| && CreatedAt(w.log, j, g, w.st.families[g].codeHash, w.st.families[g].scope);
    assert i == j;
  }

  lemma EntryInTheEnd(user: User, es: seq<Event>, e: Entry)
    requires AllFresh(Initial(user), es) && e in Run(Initial(user), es).log
    ensures var w := Run(Initial(user), es); EntryHolds(w.seen, w.st, e)
  {
    InitialRecorded(user);
    RunRecorded(Initial(user), es);
    var w := Run(Initial(user), es);
    var i :| 0 <= i < |w.log| && w.log[i] == e;
    assert EntryHolds(w.seen, w.st, w.log[i]);
  }

  /** A code has at most one family, and none unrevoked once it was replayed. */
  lemma FamiliesOfACode(user: User, es: seq<Event>, f: FamilyId)
    requires AllFresh(Initial(user), es) && f in Run(Initial(user), es).st.families
    ensures
      var w := Run(Initial(user), es);
      && (forall g :: g in w.st.families && w.st.families[g].codeHash == w.st.families[f].codeHash ==> g == f)
      && (CodeReplayed(w.st.families[f].codeHash) in w.log ==> w.st.families[f].revoked.Some?)
  {
    var w := Run(Initial(user), es);
    var c := w.st.families[f].codeHash;
    assert Rooted(w) && ExchangedOnce(w.log) by {
      InitialRecorded(user);
      RunRecorded(Initial(user), es);
    }
    hide Rooted, ExchangedOnce, Run, AllFresh;
    forall g | g in w.st.families && w.st.families[g].codeHash == c
      ensures g == f
    {
      OneFamilyPerCode(w, f, g);
    }
    if CodeReplayed(c) in w.log {
      EntryInTheEnd(user, es, CodeReplayed(c));
    }
  }

  /** A family or session killed by a reuse is dead in the state the run ends in. */
  lemma ReuseKillsForever(user: User, es: seq<Event>, f: FamilyId, sid: Option<Sid>)
    requires AllFresh(Initial(user), es)
    requires ReuseSeen(f, sid) in Run(Initial(user), es).log
    ensures
      var st := Run(Initial(user), es).st;
      FamilyDead(st, f) && (sid.Some? ==> SessionDead(st, sid.value))
  {
    EntryInTheEnd(user, es, ReuseSeen(f, sid));
  }

  /** Session and family coupling in every state of every run with fresh ids. */
  lemma SessionsAndFamiliesCoupled(user: User, es: seq<Event>)
    requires AllFresh(Initial(user), es)
    ensures
      var st := Run(Initial(user), es).st;
      && Coupled(st) && IdleWithinAbsolute(st)
      && (forall f :: f in st.families ==> EndsWithSession(st, st.families[f]))
  {
    InitialRecorded(user);
    RunRecorded(Initial(user), es);
  }

  // ---------------------------------------------------------------- columns that never change

  /** The rows known in `w` that are still there in `w'` have aged; none came back. */
  ghost predicate RowsKept(w: World, w': World) {
    && w.seen.sids <= w'.seen.sids && w.seen.families <= w'.seen.families && w.seen.codes <= w'.seen.codes
    && SessionsAge(w.seen, w.st, w'.st) && FamiliesAge(w.seen, w.st, w'.st) && CodesAge(w.seen, w.st, w'.st)
  }

  lemma {:induction false} RunKeepsRows(w: World, es: seq<Event>)
    requires Sound(w.st) && Recorded(w) && AllFresh(w, es)
    ensures RowsKept(w, Run(w, es))
    decreases |es|
  {
    if es != [] {
      var v := Step(w, es[0]);
      StepEvolves(w, es[0]);
      RecordedStep(w, es[0]);
      RunKeepsRows(v, es[1..]);
      hide Step, Recorded, Sound, Fresh, NextStore, Observed;
      RowsKeptTransitive(w, v, Run(v, es[1..]));
    }
  }

  lemma RowsKeptTransitive(a: World, b: World, c: World)
    requires RowsKept(a, b) && RowsKept(b, c)
    ensures RowsKept(a, c)
  {}
}
