/** `pooled` of src/admin/import.ts: workers that share one counter, suspended while they await
    the work on an item. Between two suspensions a worker runs alone, so what it does there is one
    step here; the steps of different workers come in any order.

    The work on item `i` makes `steps[i]` writes of its own before it returns a result. */
module WorkerPool {
  import opened Options

  datatype Worker = Idle | Busy(index: nat, at: nat) | Stopped

  /** The write number `at` of the work on item `index`. */
  datatype Slot = Slot(index: nat, at: nat)

  /** A finished piece of work: which item, and what it gave. */
  datatype Completion<R> = Completion(index: nat, result: R)

  /** `started`, `writes` and `log` record the order in which items were begun, writes made and items finished. */
  datatype Pool<R> = Pool(
    steps: seq<nat>, next: nat, workers: seq<Worker>, results: seq<Option<R>>, started: seq<nat>, writes: seq<Slot>,
    log: seq<Completion<R>>)

  datatype Event<R> = Pull(worker: nat) | Write(worker: nat) | Finish(worker: nat, result: R)

  function Opened<R>(steps: seq<nat>, limit: nat): Pool<R> {
    var n := |steps|;
    Pool(steps, 0, seq(if limit < n then limit else n, i => Idle), seq(n, i => None), [], [], [])
  }

  predicate Enabled<R>(p: Pool<R>, e: Event<R>) {
    && e.worker < |p.workers|
    && var w := p.workers[e.worker];
    if e.Pull? then w.Idle?
    else
      && w.Busy? && w.index < |p.results| == |p.steps|
      && if e.Write? then w.at < p.steps[w.index] else w.at == p.steps[w.index]
  }

  /** `Pull` is the loop test with the increment, `Write` a write of the work, `Finish` the store of its result. */
  function Step<R>(p: Pool<R>, e: Event<R>): Pool<R> {
    if !Enabled(p, e) then p
    else
      var w := p.workers[e.worker];
      match e
      case Write(_) =>
        p.(workers := p.workers[e.worker := Busy(w.index, w.at + 1)], writes := p.writes + [Slot(w.index, w.at)])
      case Finish(_, result) =>
        p.(workers := p.workers[e.worker := Idle], results := p.results[w.index := Some(result)],
           log := p.log + [Completion(w.index, result)])
      case Pull(_) =>
        if p.next < |p.results| then
          p.(next := p.next + 1, workers := p.workers[e.worker := Busy(p.next, 0)], started := p.started + [p.next])
        else p.(workers := p.workers[e.worker := Stopped])
  }

  function Run<R>(p: Pool<R>, es: seq<Event<R>>): Pool<R>
    decreases |es|
  {
    if es == [] then p else Run(Step(p, es[0]), es[1..])
  }

  // ---------------------------------------------------------------- the invariant

  predicate InOrder<R>(p: Pool<R>) {
    && |p.steps| == |p.results| && p.next == |p.started| <= |p.results|
    && forall i :: 0 <= i < p.next ==> p.started[i] == i
  }

  /** Workers are on different items, each begun and unfinished. */
  predicate Exclusive<R>(p: Pool<R>) {
    && (forall w :: 0 <= w < |p.workers| && p.workers[w].Busy? ==>
          p.workers[w].index < p.next <= |p.results| && p.results[p.workers[w].index].None?)
    && (forall v, w :: 0 <= v < w < |p.workers| && p.workers[v].Busy? && p.workers[w].Busy? ==>
          p.workers[v].index != p.workers[w].index)
    && (forall w :: 0 <= w < |p.workers| && p.workers[w].Stopped? ==> p.next == |p.results|)
  }

  /** Somebody works on item `i`. */
  predicate Worked(ws: seq<Worker>, i: nat) { exists w :: 0 <= w < |ws| && ws[w].Busy? && ws[w].index == i }

  /** An item begun is finished or worked on; an item not begun has no result. */
  predicate Accounted<R>(p: Pool<R>) {
    forall i :: 0 <= i < |p.results| ==>
      if i < p.next then p.results[i].Some? || Worked(p.workers, i) else p.results[i].None?
  }

  /** The log holds one completion an item, and the result of an item is the one it gave. */
  ghost predicate Logged<R>(p: Pool<R>) {
    && (forall j :: 0 <= j < |p.log| ==>
          p.log[j].index < |p.results| && p.results[p.log[j].index] == Some(p.log[j].result))
    && (forall j, k :: 0 <= j < k < |p.log| ==> p.log[j].index != p.log[k].index)
    && (forall i :: 0 <= i < |p.results| && p.results[i].Some? ==> exists j :: 0 <= j < |p.log| && p.log[j].index == i)
  }

  predicate IsSlot(steps: seq<nat>, s: Slot) { s.index < |steps| && s.at < steps[s.index] }

  predicate Distinct(writes: seq<Slot>) { forall i, j :: 0 <= i < j < |writes| ==> writes[i] != writes[j] }

  /** Every write so far was made once; a worker has made those before its position, a finished item all of its own. */
  predicate Written<R>(p: Pool<R>) {
    && |p.steps| == |p.results| && Distinct(p.writes)
    && (forall s :: s in p.writes ==> IsSlot(p.steps, s) && s.index < p.next)
    && (forall w :: 0 <= w < |p.workers| && p.workers[w].Busy? ==> HasWritten(p, p.workers[w]))
    && (forall i, a :: 0 <= i < |p.results| && p.results[i].Some? && 0 <= a < p.steps[i] ==> Slot(i, a) in p.writes)
  }

  predicate HasWritten<R>(p: Pool<R>, w: Worker)
    requires w.Busy?
  {
    && w.index < |p.steps| && w.at <= p.steps[w.index]
    && (forall a :: 0 <= a < w.at ==> Slot(w.index, a) in p.writes)
    && (forall s :: s in p.writes && s.index == w.index ==> s.at < w.at)
  }

  ghost predicate Inv<R>(p: Pool<R>) { InOrder(p) && Exclusive(p) && Accounted(p) && Logged(p) && Written(p) }

  lemma StepKeepsOrder<R>(p: Pool<R>, e: Event<R>)
    requires InOrder(p) && Exclusive(p) && Accounted(p)
    ensures InOrder(Step(p, e)) && Exclusive(Step(p, e))
  {
  }

  lemma StepKeepsAccounts<R>(p: Pool<R>, e: Event<R>)
    requires InOrder(p) && Exclusive(p) && Accounted(p)
    ensures Accounted(Step(p, e))
  {
    if Enabled(p, e) {
      var q := Step(p, e);
      forall i | 0 <= i < |q.results| && i < q.next && q.results[i].None?
        ensures Worked(q.workers, i)
      {
        var v := e.worker;
        if i < p.next {
          assert p.results[i].None?;
          v :| 0 <= v < |p.workers| && p.workers[v].Busy? && p.workers[v].index == i;
        }
        assert q.workers[v].Busy? && q.workers[v].index == i;
      }
    }
  }

  lemma StepKeepsLog<R>(p: Pool<R>, e: Event<R>)
    requires Exclusive(p) && Logged(p)
    ensures Logged(Step(p, e))
  {
    if Enabled(p, e) && e.Finish? {
      var q := Step(p, e);
      var index := p.workers[e.worker].index;
      assert p.results[index].None? && q.log[|p.log|].index == index;
      forall i | 0 <= i < |q.results| && q.results[i].Some?
        ensures exists j :: 0 <= j < |q.log| && q.log[j].index == i
      {
        if i != index {
          var j :| 0 <= j < |p.log| && p.log[j].index == i;
          assert q.log[j].index == i;
        }
      }
    }
  }

  lemma StepKeepsWritten<R>(p: Pool<R>, e: Event<R>)
    requires InOrder(p) && Exclusive(p) && Written(p)
    ensures Written(Step(p, e))
  {
    if Enabled(p, e) {
      var q := Step(p, e);
      var w := p.workers[e.worker];
      if e.Write? {
        assert HasWritten(p, w);
        assert Slot(w.index, w.at) !in p.writes;
      }
      forall v | 0 <= v < |q.workers| && q.workers[v].Busy?
        ensures HasWritten(q, q.workers[v])
      {
        if v != e.worker {
          assert HasWritten(p, p.workers[v]) && q.workers[v] == p.workers[v];
        }
      }
      if e.Finish? {
        assert HasWritten(p, w);
      }
    }
  }

  lemma {:induction false} RunKeeps<R>(p: Pool<R>, es: seq<Event<R>>)
    requires Inv(p)
    ensures Inv(Run(p, es)) && |Run(p, es).workers| == |p.workers| && Run(p, es).steps == p.steps
    decreases |es|
  {
    hide InOrder, Exclusive, Accounted, Logged, Written;
    if es != [] {
      StepKeepsOrder(p, es[0]);
      StepKeepsAccounts(p, es[0]);
      StepKeepsLog(p, es[0]);
      StepKeepsWritten(p, es[0]);
      RunKeeps(Step(p, es[0]), es[1..]);
    }
  }

  // ---------------------------------------------------------------- in flight, and the end

  function InFlight(ws: seq<Worker>): nat
    decreases |ws|
  {
    if ws == [] then 0 else (if ws[0].Busy? then 1 else 0) + InFlight(ws[1..])
  }

  lemma {:induction false} InFlightBounded(ws: seq<Worker>)
    ensures InFlight(ws) <= |ws|
    decreases |ws|
  {
    if ws != [] {
      InFlightBounded(ws[1..]);
    }
  }

  predicate AllStopped(ws: seq<Worker>) { forall w :: 0 <= w < |ws| ==> ws[w].Stopped? }

  /** In every interleaving: at most `limit` items in flight, items begun in order and each once,
      each write made at most once, each item finished at most once with its result in its own position. */
  lemma EveryInterleaving<R>(steps: seq<nat>, limit: nat, es: seq<Event<R>>)
    ensures var p := Run(Opened<R>(steps, limit), es);
      Inv(p) && |p.results| == |steps| && InFlight(p.workers) <= limit
  {
    var p := Opened<R>(steps, limit);
    RunKeeps(p, es);
    InFlightBounded(Run(p, es).workers);
  }

  /** When every worker has stopped, every item was begun once, finished once, and has its result,
      exactly when there were workers at all. */
  lemma PoolIsDone<R>(steps: seq<nat>, limit: nat, es: seq<Event<R>>)
    requires AllStopped(Run(Opened<R>(steps, limit), es).workers)
    ensures var p, n := Run(Opened<R>(steps, limit), es), |steps|;
      && |p.results| == n
      && ((forall i :: 0 <= i < n ==> p.results[i].Some?) <==> limit > 0 || n == 0)
      && (limit > 0 ==> |p.started| == n && forall i :: 0 <= i < n ==> p.started[i] == i)
  {
    var start, n := Opened<R>(steps, limit), |steps|;
    var p := Run(start, es);
    RunKeeps(start, es);
    if limit > 0 && n > 0 {
      assert p.workers[0].Stopped?;
      assert forall i :: 0 <= i < n ==> !Worked(p.workers, i);
    } else if n > 0 {
      NoWorkersNoWork(start, es);
      assert p.results[0].None?;
    }
  }

  /** And then every write of every item was made exactly once. */
  lemma EveryWriteOnce<R>(steps: seq<nat>, limit: nat, es: seq<Event<R>>)
    requires limit > 0 && AllStopped(Run(Opened<R>(steps, limit), es).workers)
    ensures var writes := Run(Opened<R>(steps, limit), es).writes;
      Distinct(writes) && forall s :: s in writes <==> IsSlot(steps, s)
  {
    PoolIsDone(steps, limit, es);
    RunKeeps(Opened<R>(steps, limit), es);
    var p := Run(Opened<R>(steps, limit), es);
    forall s | IsSlot(steps, s)
      ensures s in p.writes
    {
      assert p.results[s.index].Some? && Slot(s.index, s.at) in p.writes;
    }
  }

  lemma {:induction false} NoWorkersNoWork<R>(p: Pool<R>, es: seq<Event<R>>)
    requires p.workers == []
    ensures Run(p, es) == p
    decreases |es|
  {
    if es != [] {
      NoWorkersNoWork(p, es[1..]);
    }
  }

  // ---------------------------------------------------------------- every run ends

  function Sum(steps: seq<nat>): nat
    decreases |steps|
  {
    if steps == [] then 0 else steps[0] + Sum(steps[1..])
  }

  function LeftOf(steps: seq<nat>, w: Worker): int {
    match w
    case Busy(index, at) => if index < |steps| then 2 + steps[index] - at else 0
    case Idle => 1
    case Stopped => 0
  }

  function Left(steps: seq<nat>, ws: seq<Worker>): int
    decreases |ws|
  {
    if ws == [] then 0 else LeftOf(steps, ws[0]) + Left(steps, ws[1..])
  }

  /** Steps still to come. */
  function Remaining<R>(p: Pool<R>): int {
    if p.next <= |p.steps| then 2 * (|p.steps| - p.next) + Sum(p.steps[p.next..]) + Left(p.steps, p.workers) else 0
  }

  lemma {:induction false} LeftAfter(steps: seq<nat>, ws: seq<Worker>, w: nat, v: Worker)
    requires w < |ws|
    ensures Left(steps, ws[w := v]) == Left(steps, ws) - LeftOf(steps, ws[w]) + LeftOf(steps, v)
    decreases |ws|
  {
    if w == 0 {
      assert ws[w := v][1..] == ws[1..];
    } else {
      LeftAfter(steps, ws[1..], w - 1, v);
      assert ws[w := v][1..] == ws[1..][w - 1 := v];
    }
  }

  /** Nothing is left exactly when all have stopped. */
  lemma {:induction false} LeftNothing(steps: seq<nat>, ws: seq<Worker>)
    requires forall w :: 0 <= w < |ws| && ws[w].Busy? ==> ws[w].index < |steps| && ws[w].at <= steps[ws[w].index]
    ensures Left(steps, ws) >= 0 && (Left(steps, ws) == 0 <==> AllStopped(ws))
    decreases |ws|
  {
    if ws != [] {
      LeftNothing(steps, ws[1..]);
      assert ws == [ws[0]] + ws[1..];
    }
  }

  lemma StepsRunOut<R>(p: Pool<R>, e: Event<R>)
    requires Inv(p) && Enabled(p, e)
    ensures Remaining(Step(p, e)) == Remaining(p) - 1
  {
    hide Accounted, Logged;
    var q := Step(p, e);
    LeftAfter(p.steps, p.workers, e.worker, q.workers[e.worker]);
    if e.Pull? && p.next < |p.steps| {
      assert p.steps[p.next..][1..] == p.steps[q.next..];
    }
  }

  predicate AllEnabled<R>(p: Pool<R>, es: seq<Event<R>>)
    decreases |es|
  {
    es == [] || (Enabled(p, es[0]) && AllEnabled(Step(p, es[0]), es[1..]))
  }

  lemma {:induction false} RunRemains<R>(p: Pool<R>, es: seq<Event<R>>)
    requires Inv(p) && AllEnabled(p, es)
    ensures Remaining(Run(p, es)) == Remaining(p) - |es|
    decreases |es|
  {
    hide InOrder, Exclusive, Accounted, Logged, Written, Enabled, Remaining;
    if es != [] {
      StepsRunOut(p, es[0]);
      StepKeepsOrder(p, es[0]);
      StepKeepsAccounts(p, es[0]);
      StepKeepsLog(p, es[0]);
      StepKeepsWritten(p, es[0]);
      RunRemains(Step(p, es[0]), es[1..]);
    }
  }

  lemma {:induction false} LeftIdle(steps: seq<nat>, n: nat)
    ensures Left(steps, seq(n, i => Idle)) == n
  {
    if n > 0 {
      LeftIdle(steps, n - 1);
      assert seq(n, i => Idle)[1..] == seq(n - 1, i => Idle);
    }
  }

  /** What a worker that has not stopped can do next. */
  ghost function Onward<R>(p: Pool<R>, w: nat, result: R): Event<R>
    requires w < |p.workers|
  {
    match p.workers[w]
    case Busy(index, at) => if index < |p.steps| && at < p.steps[index] then Write(w) else Finish(w, result)
    case _ => Pull(w)
  }

  /** However its workers interleave, the pool takes two steps an item, one a write and one a worker. Until the
      last of them every worker that has not stopped can go on; after it all have stopped. */
  lemma EveryRunEnds<R>(steps: seq<nat>, limit: nat, es: seq<Event<R>>, result: R)
    requires AllEnabled(Opened<R>(steps, limit), es)
    ensures
      var total := 2 * |steps| + Sum(steps) + if limit < |steps| then limit else |steps|;
      var p := Run(Opened<R>(steps, limit), es);
      && |es| <= total && (|es| == total <==> p.next == |steps| && AllStopped(p.workers))
      && (forall w :: 0 <= w < |p.workers| && !p.workers[w].Stopped? ==> Enabled(p, Onward(p, w, result)))
  {
    var p := Opened<R>(steps, limit);
    RunKeeps(p, es);
    RunRemains(p, es);
    LeftIdle(steps, if limit < |steps| then limit else |steps|);
    assert steps[0..] == steps;
    EndIsReached(Run(p, es), result);
  }

  lemma EndIsReached<R>(p: Pool<R>, result: R)
    requires Inv(p)
    ensures Remaining(p) >= 0 && (Remaining(p) == 0 <==> p.next == |p.steps| && AllStopped(p.workers))
    ensures forall w :: 0 <= w < |p.workers| && !p.workers[w].Stopped? ==> Enabled(p, Onward(p, w, result))
  {
    hide Accounted, Logged;
    forall w | 0 <= w < |p.workers| && p.workers[w].Busy?
      ensures p.workers[w].index < |p.steps| && p.workers[w].at <= p.steps[p.workers[w].index]
    {
      assert HasWritten(p, p.workers[w]);
    }
    hide Written, HasWritten;
    LeftNothing(p.steps, p.workers);
  }
}
