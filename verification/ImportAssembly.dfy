/** How `importUsersHandler` of src/admin/import.ts puts one result a line together: checked lines
    are settled or wait in groups of 25 for their creation, and two groups at a time write their
    results as their awaits allow. */
module ImportAssembly {
  import opened Options
  import opened Partition
  import opened WorkerPool

  const CLAIM_BATCH := 25
  const GROUPS_AT_ONCE := 2

  datatype Status = Created | Unchanged | Conflict | Failed

  datatype Result = Result(line: nat, status: Status, error: Option<string>)

  /** A line that passed its checks. */
  datatype Entry = Entry(line: nat, user: nat)

  datatype Checked = Settled(result: Result) | Wanted(entry: Entry)

  datatype Creatable = Creatable(index: nat, entry: Entry)

  /** What came after a creation: all went well, the invitation asked for was refused, or storage failed. */
  datatype FollowUp = Fine | NoInvitation(error: string) | Broke(message: string)

  /** What became of a creation; `Thrown` for every line of a group whose batch failed. */
  datatype Outcome =
    | Made(followUp: FollowUp)
    | AccountExists
    | IdentityAlreadyLinked
    | Refused(error: string)
    | Thrown(message: string)

  function ResultOf(e: Entry, o: Outcome): Result {
    match o
    case Made(Fine) => Result(e.line, Created, None)
    case Made(NoInvitation(error)) => Result(e.line, Created, Some(error))
    case Made(Broke(message)) => Result(e.line, Failed, Some(message))
    case AccountExists => Result(e.line, Conflict, Some("account_exists"))
    case IdentityAlreadyLinked => Result(e.line, Conflict, Some("identity_already_linked"))
    case Refused(error) => Result(e.line, Failed, Some(error))
    case Thrown(message) => Result(e.line, Failed, Some(message))
  }

  /** A line is told that its user was created when he was, whatever became of the invitation; that it conflicts when
      the account or identity is taken; and otherwise what went wrong. Only a plain success comes without a word. */
  lemma WhatALineIsTold(e: Entry, o: Outcome)
    ensures
      var r := ResultOf(e, o);
      && r.line == e.line && r.status != Unchanged
      && (r.status == Created <==> o.Made? && !o.followUp.Broke?)
      && (r.status == Conflict <==> o in {AccountExists, IdentityAlreadyLinked})
      && (r.error == None <==> o == Made(Fine))
      && (o.Refused? ==> r.error == Some(o.error)) && (o.Thrown? ==> r.error == Some(o.message))
      && (o.Made? && o.followUp.NoInvitation? ==> r.error == Some(o.followUp.error))
      && (o.Made? && o.followUp.Broke? ==> r.error == Some(o.followUp.message))
      && (o.AccountExists? ==> r.error == Some("account_exists"))
      && (o.IdentityAlreadyLinked? ==> r.error == Some("identity_already_linked"))
  {}

  /** The result a line deserves. */
  function Answer(c: Checked, o: Outcome): Result {
    if c.Settled? then c.result else ResultOf(c.entry, o)
  }

  /** The results known before any creation. */
  function Seeds(checked: seq<Checked>): seq<Option<Result>> {
    seq(|checked|, i requires 0 <= i < |checked| => if checked[i].Settled? then Some(checked[i].result) else None)
  }

  predicate Increasing(cs: seq<Creatable>) { forall i, j :: 0 <= i < j < |cs| ==> cs[i].index < cs[j].index }

  /** `cs` lists the waiting lines among the first `n`, each under its own index, in order. */
  predicate ListsWanted(checked: seq<Checked>, cs: seq<Creatable>, n: nat)
    requires n <= |checked|
  {
    && Increasing(cs)
    && (forall j :: 0 <= j < |cs| ==> cs[j].index < n && checked[cs[j].index] == Wanted(cs[j].entry))
    && (forall i :: 0 <= i < n && checked[i].Wanted? ==> Creatable(i, checked[i].entry) in cs)
  }

  method Collect(checked: seq<Checked>) returns (results: seq<Option<Result>>, creatable: seq<Creatable>)
    ensures results == Seeds(checked)
    ensures ListsWanted(checked, creatable, |checked|)
  {
    results := seq(|checked|, i => None);
    creatable := [];
    for index := 0 to |checked|
      invariant |results| == |checked|
      invariant forall i :: 0 <= i < |checked| ==>
        results[i] == if i < index && checked[i].Settled? then Some(checked[i].result) else None
      invariant ListsWanted(checked, creatable, index)
    {
      if checked[index].Settled? {
        results := results[index := Some(checked[index].result)];
      } else {
        creatable := creatable + [Creatable(index, checked[index].entry)];
      }
    }
  }

  // ---------------------------------------------------------------- the groups write

  /** Writes of the work on each group: one a line. */
  function Steps(groups: seq<seq<Creatable>>): (steps: seq<nat>)
    ensures |steps| == |groups| && forall g :: 0 <= g < |groups| ==> steps[g] == |groups[g]|
  {
    seq(|groups|, g requires 0 <= g < |groups| => |groups[g]|)
  }

  predicate InGroup(groups: seq<seq<Creatable>>, s: Slot) { s.index < |groups| && s.at < |groups[s.index]| }

  /** The writes of a pool of two workers, in the order in which a run made them. */
  function WritesOf(groups: seq<seq<Creatable>>, es: seq<Event<()>>): seq<Slot> {
    Run(Opened<()>(Steps(groups), GROUPS_AT_ONCE), es).writes
  }

  predicate Ran(groups: seq<seq<Creatable>>, es: seq<Event<()>>) {
    AllStopped(Run(Opened<()>(Steps(groups), GROUPS_AT_ONCE), es).workers)
  }

  /** However two groups interleave, a pool that has stopped has written every line of every group once. */
  lemma EveryLineWrittenOnce(groups: seq<seq<Creatable>>, es: seq<Event<()>>)
    requires Ran(groups, es)
    ensures Distinct(WritesOf(groups, es)) && forall s :: s in WritesOf(groups, es) <==> InGroup(groups, s)
  {
    EveryWriteOnce(Steps(groups), GROUPS_AT_ONCE, es);
  }

  function At(groups: seq<seq<Creatable>>, s: Slot): Creatable
    requires InGroup(groups, s)
  {
    groups[s.index][s.at]
  }

  /** Where a slot stands in the list that was cut into groups. */
  lemma SlotPosition(groups: seq<seq<Creatable>>, s: Slot)
    requires InGroup(groups, s)
    ensures Cut(groups, s.index) + s.at < |Joined(groups)|
    ensures Joined(groups)[Cut(groups, s.index) + s.at] == At(groups, s)
  {
    PartIsSlice(groups, s.index);
    hide Joined, Cut;
    var c, d := Cut(groups, s.index), Cut(groups, s.index + 1);
    assert Joined(groups)[c..d][s.at] == Joined(groups)[c + s.at];
  }

  lemma {:induction false} CutsGrow<T>(parts: seq<seq<T>>, i: nat, j: nat)
    requires i <= j <= |parts|
    ensures Cut(parts, i) <= Cut(parts, j)
    decreases j
  {
    if i < j {
      CutsGrow(parts, i, j - 1);
      PartIsSlice(parts, j - 1);
    }
  }

  /** Different slots write to different lines. */
  lemma SlotsDiffer(groups: seq<seq<Creatable>>, s: Slot, t: Slot)
    requires InGroup(groups, s) && InGroup(groups, t) && s != t && Increasing(Joined(groups))
    ensures At(groups, s).index != At(groups, t).index
  {
    SlotPosition(groups, s);
    SlotPosition(groups, t);
    PartIsSlice(groups, s.index);
    PartIsSlice(groups, t.index);
    if s.index < t.index {
      CutsGrow(groups, s.index + 1, t.index);
    } else if t.index < s.index {
      CutsGrow(groups, t.index + 1, s.index);
    }
  }

  /** Every line of the list has a slot. */
  lemma {:induction false} SlotOf(groups: seq<seq<Creatable>>, c: Creatable) returns (s: Slot)
    requires c in Joined(groups)
    ensures InGroup(groups, s) && At(groups, s) == c
    decreases |groups|
  {
    var n := |groups| - 1;
    if c in groups[n] {
      var a :| 0 <= a < |groups[n]| && groups[n][a] == c;
      s := Slot(n, a);
    } else {
      s := SlotOf(groups[..n], c);
    }
  }

  /** The line of `c` holds its result. */
  predicate Holds(results: seq<Option<Result>>, c: Creatable, outcomes: nat -> Outcome) {
    c.index < |results| && results[c.index] == Some(ResultOf(c.entry, outcomes(c.index)))
  }

  predicate Waits(cs: seq<Creatable>, i: nat) { exists c :: c in cs && c.index == i }

  /** The results once a run of the pool has stopped, written line by line in the order of the run. */
  method WriteResults(start: seq<Option<Result>>, groups: seq<seq<Creatable>>, outcomes: nat -> Outcome,
      es: seq<Event<()>>)
      returns (results: seq<Option<Result>>)
    requires Ran(groups, es) && Increasing(Joined(groups))
    requires forall c :: c in Joined(groups) ==> c.index < |start|
    ensures |results| == |start|
    ensures forall c :: c in Joined(groups) ==> Holds(results, c, outcomes)
    ensures forall i :: 0 <= i < |start| && !Waits(Joined(groups), i) ==> results[i] == start[i]
  {
    EveryLineWrittenOnce(groups, es);
    hide Joined, Cut, WritesOf, Ran, Increasing;
    var writes := WritesOf(groups, es);
    results := start;
    for k := 0 to |writes|
      invariant |results| == |start|
      invariant forall j :: 0 <= j < k ==> InGroup(groups, writes[j]) && Holds(results, At(groups, writes[j]), outcomes)
      invariant forall i :: 0 <= i < |start| && !Waits(Joined(groups), i) ==> results[i] == start[i]
    {
      assert writes[k] in writes;
      SlotPosition(groups, writes[k]);
      var c := At(groups, writes[k]);
      assert c in Joined(groups);
      forall j | 0 <= j < k
        ensures At(groups, writes[j]).index != c.index
      {
        SlotsDiffer(groups, writes[j], writes[k]);
      }
      results := results[c.index := Some(ResultOf(c.entry, outcomes(c.index)))];
    }
    forall c | c in Joined(groups)
      ensures Holds(results, c, outcomes)
    {
      var s := SlotOf(groups, c);
      assert s in writes;
      var j :| 0 <= j < |writes| && writes[j] == s;
    }
  }

  /** However the groups interleave, every line ends with exactly the result it deserves in its
      own position, and so under its own number. */
  lemma EveryLineAnswered(
      checked: seq<Checked>, start: seq<Option<Result>>, creatable: seq<Creatable>, outcomes: nat -> Outcome,
      results: seq<Option<Result>>)
    requires start == Seeds(checked) && |results| == |checked|
    requires ListsWanted(checked, creatable, |checked|)
    requires forall c :: c in creatable ==> Holds(results, c, outcomes)
    requires forall i :: 0 <= i < |start| && !Waits(creatable, i) ==> results[i] == start[i]
    ensures forall i :: 0 <= i < |checked| ==> results[i] == Some(Answer(checked[i], outcomes(i)))
  {
    forall i | 0 <= i < |checked|
      ensures results[i] == Some(Answer(checked[i], outcomes(i)))
    {
      if checked[i].Wanted? {
        assert Creatable(i, checked[i].entry) in creatable;
      } else {
        assert forall j :: 0 <= j < |creatable| ==> creatable[j].index != i;
        assert !Waits(creatable, i);
      }
    }
  }

  /** The lines of the request, numbered from one. */
  predicate Numbered(checked: seq<Checked>) {
    forall i :: 0 <= i < |checked| ==> i + 1 == if checked[i].Settled? then checked[i].result.line
      else checked[i].entry.line
  }

  method CutIntoGroups(checked: seq<Checked>) returns (start: seq<Option<Result>>, groups: seq<seq<Creatable>>)
    ensures start == Seeds(checked)
    ensures ListsWanted(checked, Joined(groups), |checked|)
    ensures forall g :: 0 <= g < |groups| ==> 0 < |groups[g]| <= 25
  {
    var creatable;
    start, creatable := Collect(checked);
    groups := Chunks(creatable, CLAIM_BATCH);
  }

  /** The import from the checked lines to the results, over every run of its pool. */
  method Assemble(
      checked: seq<Checked>, start: seq<Option<Result>>, groups: seq<seq<Creatable>>, outcomes: nat -> Outcome,
      es: seq<Event<()>>)
      returns (results: seq<Option<Result>>)
    requires start == Seeds(checked) && Numbered(checked)
    requires ListsWanted(checked, Joined(groups), |checked|) && Ran(groups, es)
    ensures |results| == |checked|
    ensures forall i :: 0 <= i < |checked| ==> results[i] == Some(Answer(checked[i], outcomes(i)))
    ensures forall i :: 0 <= i < |checked| ==> results[i].value.line == i + 1
  {
    results := WriteResults(start, groups, outcomes, es);
    EveryLineAnswered(checked, start, Joined(groups), outcomes, results);
  }

  // ---------------------------------------------------------------- the counts of the audit event

  datatype Counts = Counts(made: nat, same: nat, conflicts: nat, failures: nat)

  function CountOf(results: seq<Result>, status: Status): nat
    decreases |results|
  {
    if results == [] then 0
    else CountOf(results[..|results| - 1], status) + if results[|results| - 1].status == status then 1 else 0
  }

  /** Each line counts once, and the import succeeds exactly when no line failed. */
  method Tally(results: seq<Result>) returns (counts: Counts, success: bool)
    ensures counts.made == CountOf(results, Created) && counts.same == CountOf(results, Unchanged)
    ensures counts.conflicts == CountOf(results, Conflict) && counts.failures == CountOf(results, Failed)
    ensures counts.made + counts.same + counts.conflicts + counts.failures == |results|
    ensures success <==> forall i :: 0 <= i < |results| ==> results[i].status != Failed
  {
    counts := Counts(0, 0, 0, 0);
    for i := 0 to |results|
      invariant counts.made == CountOf(results[..i], Created) && counts.same == CountOf(results[..i], Unchanged)
      invariant counts.conflicts == CountOf(results[..i], Conflict) && counts.failures == CountOf(results[..i], Failed)
      invariant counts.made + counts.same + counts.conflicts + counts.failures == i
      invariant counts.failures == 0 <==> forall j :: 0 <= j < i ==> results[j].status != Failed
    {
      assert results[..i + 1][..i] == results[..i];
      match results[i].status
      case Created => counts := counts.(made := counts.made + 1);
      case Unchanged => counts := counts.(same := counts.same + 1);
      case Conflict => counts := counts.(conflicts := counts.conflicts + 1);
      case Failed => counts := counts.(failures := counts.failures + 1);
    }
    assert results[..|results|] == results;
    success := counts.failures == 0;
  }
}
