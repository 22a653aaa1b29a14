/** The migration runner as a step system: any number of runners, each able to stop at any point. */
module Migrations {
  import opened Model

  // ----- the files --------------------------------------------------------------------------------

  predicate LessEq(a: string, b: string) {
    |a| == 0 || (|b| > 0 && (a[0] < b[0] || (a[0] == b[0] && LessEq(a[1..], b[1..]))))
  }

  lemma {:induction false} LessEqTotal(a: string, b: string)
    ensures LessEq(a, b) || LessEq(b, a)
  {
    if |a| > 0 && |b| > 0 && a[0] == b[0] {
      LessEqTotal(a[1..], b[1..]);
    }
  }

  lemma {:induction false} LessEqTransitive(a: string, b: string, c: string)
    requires LessEq(a, b) && LessEq(b, c)
    ensures LessEq(a, c)
  {
    if |a| > 0 && a[0] == b[0] == c[0] {
      LessEqTransitive(a[1..], b[1..], c[1..]);
    }
  }

  /** At the first position where the two differ, `a` has the smaller character. */
  predicate SmallerAt(a: string, b: string, k: nat) {
    k < |a| && k < |b| && a[..k] == b[..k] && a[k] < b[k]
  }

  /** The order of a dictionary: a prefix comes first, otherwise the first difference decides. */
  predicate Precedes(a: string, b: string) {
    a <= b || exists k: nat | k < |a| :: SmallerAt(a, b, k)
  }

  lemma {:induction false} LessEqIff(a: string, b: string)
    ensures LessEq(a, b) <==> Precedes(a, b)
  {
    if |a| > 0 && |b| > 0 {
      if a[0] == b[0] {
        LessEqIff(a[1..], b[1..]);
        assert a == [a[0]] + a[1..] && b == [b[0]] + b[1..];
        if k: nat :| k < |a| && SmallerAt(a, b, k) {
          assert a[..k] == [a[0]] + a[1..][..k - 1] && b[..k] == [b[0]] + b[1..][..k - 1];
          assert SmallerAt(a[1..], b[1..], k - 1);
        }
        if j: nat :| j < |a[1..]| && SmallerAt(a[1..], b[1..], j) {
          assert a[..j + 1] == [a[0]] + a[1..][..j] && b[..j + 1] == [b[0]] + b[1..][..j];
          assert SmallerAt(a, b, j + 1);
        }
      } else {
        assert a[..0] == b[..0];
        assert a[0] < b[0] ==> SmallerAt(a, b, 0);
      }
    }
  }

  predicate Sorted(names: seq<string>) {
    forall i, j | 0 <= i < j < |names| :: LessEq(names[i], names[j])
  }

  function Insert(names: seq<string>, name: string): (r: seq<string>)
    ensures multiset(r) == multiset(names) + multiset{name}
  {
    if |names| == 0 || LessEq(name, names[0]) then
      assert [name] + names == [name] + names[..];
      [name] + names
    else
      assert names == [names[0]] + names[1..];
      [names[0]] + Insert(names[1..], name)
  }

  function Sort(names: seq<string>): (r: seq<string>)
    ensures multiset(r) == multiset(names)
  {
    if |names| == 0 then []
    else
      assert names == names[..|names| - 1] + [names[|names| - 1]];
      Insert(Sort(names[..|names| - 1]), names[|names| - 1])
  }

  lemma {:induction false} InsertSorted(names: seq<string>, name: string)
    requires Sorted(names)
    ensures Sorted(Insert(names, name))
  {
    if |names| == 0 {
    } else if LessEq(name, names[0]) {
      forall j | 0 <= j < |names|
        ensures LessEq(name, names[j])
      {
        if j > 0 {
          LessEqTransitive(name, names[0], names[j]);
        }
      }
    } else {
      LessEqTotal(name, names[0]);
      var rest := Insert(names[1..], name);
      InsertSorted(names[1..], name);
      forall j | 0 <= j < |rest|
        ensures LessEq(names[0], rest[j])
      {
        assert rest[j] in multiset(rest);
        assert rest[j] == name || rest[j] in names[1..];
      }
    }
  }

  lemma {:induction false} SortIsSorted(names: seq<string>)
    ensures Sorted(Sort(names))
  {
    if |names| > 0 {
      SortIsSorted(names[..|names| - 1]);
      InsertSorted(Sort(names[..|names| - 1]), names[|names| - 1]);
    }
  }

  ghost predicate InOrder(names: seq<string>) {
    forall i, j | 0 <= i < j < |names| :: Precedes(names[i], names[j])
  }

  /** The sort puts the same names in the order of a dictionary. */
  lemma SortSorts(names: seq<string>)
    ensures multiset(Sort(names)) == multiset(names) && InOrder(Sort(names))
  {
    SortIsSorted(names);
    var r := Sort(names);
    forall i, j | 0 <= i < j < |r|
      ensures Precedes(r[i], r[j])
    {
      LessEqIff(r[i], r[j]);
    }
  }

  predicate Distinct(names: seq<string>) {
    forall i, j | 0 <= i < j < |names| :: names[i] != names[j]
  }

  // ----- the step system --------------------------------------------------------------------------

  datatype Runner<+S> =
    | Checking(next: nat)               // about to look up file `next`
    | Executing(next: nat)              // about to run file `next` in a transaction
    | Committing(next: nat, result: S)  // about to record the file and commit
    | Succeeded
    | Ended                             // with an error, or cut short

  datatype State<S> = State(applied: seq<string>, schema: S, runners: map<nat, Runner<S>>)

  /** The sorted file names, and what running a file does to a database. */
  datatype Files<!S> = Files(names: seq<string>, effect: (S, string) -> S)

  /** `fails` and `out` say what the database reports; `Stop` is any other way a runner can end early. */
  datatype Op = Start | Check | Execute(fails: bool) | Commit(out: Outcome) | Finish | Stop

  datatype Step = Step(r: nat, op: Op)

  predicate Enabled<S(!new)>(f: Files<S>, s: State<S>, step: Step) {
    var r := step.r;
    match step.op
    case Start => r !in s.runners
    case Check => r in s.runners && s.runners[r].Checking? && s.runners[r].next < |f.names|
    case Execute(_) => r in s.runners && s.runners[r].Executing? && s.runners[r].next < |f.names|
    case Commit(_) => r in s.runners && s.runners[r].Committing? && s.runners[r].next < |f.names|
    case Finish => r in s.runners && s.runners[r].Checking? && s.runners[r].next == |f.names|
    case Stop => r in s.runners && !s.runners[r].Succeeded?
  }

  /** The filename is a primary key, so that a transaction whose file is already recorded cannot
      commit, whatever `out` says. */
  function Effective<S>(s: State<S>, name: string, out: Outcome): Outcome {
    if name in s.applied then Refused else out
  }

  function Apply<S(!new)>(f: Files<S>, s: State<S>, step: Step): State<S>
    requires Enabled(f, s, step)
  {
    var r := step.r;
    match step.op
    case Start => s.(runners := s.runners[r := Checking(0)])
    case Check =>
      var i := s.runners[r].next;
      s.(runners := s.runners[r := if f.names[i] in s.applied then Checking(i + 1) else Executing(i)])
    case Execute(fails) =>
      var i := s.runners[r].next;
      s.(runners := s.runners[r := if fails then Ended else Committing(i, f.effect(s.schema, f.names[i]))])
    case Commit(out) =>
      var i := s.runners[r].next;
      var done := Effective(s, f.names[i], out);
      s.(applied := if done.Applied() then s.applied + [f.names[i]] else s.applied,
         schema := if done.Applied() then s.runners[r].result else s.schema,
         runners := s.runners[r := if done.Done? then Checking(i + 1) else Ended])
    case Finish => s.(runners := s.runners[r := Succeeded])
    case Stop => s.(runners := s.runners[r := Ended])
  }

  ghost predicate CanRun<S(!new)>(f: Files<S>, s: State<S>, steps: seq<Step>)
    decreases |steps|
  {
    |steps| == 0 || (Enabled(f, s, steps[0]) && CanRun(f, Apply(f, s, steps[0]), steps[1..]))
  }

  ghost function Exec<S(!new)>(f: Files<S>, s: State<S>, steps: seq<Step>): State<S>
    requires CanRun(f, s, steps)
    decreases |steps|
  {
    if |steps| == 0 then s else Exec(f, Apply(f, s, steps[0]), steps[1..])
  }

  /** The database after running the first `n` files one after the other. */
  function Fold<S>(f: Files<S>, base: S, n: nat): S
    requires n <= |f.names|
  {
    if n == 0 then base else f.effect(Fold(f, base, n - 1), f.names[n - 1])
  }

  // ----- the invariant ----------------------------------------------------------------------------

  /** The applied files are the first ones of the sorted list, each applied once, and the database is
      what they make of it. */
  ghost predicate Folded<S(!new)>(f: Files<S>, base: S, s: State<S>) {
    && |s.applied| <= |f.names| && s.applied == f.names[..|s.applied|]
    && s.schema == Fold(f, base, |s.applied|)
  }

  ghost predicate RunnerInv<S(!new)>(f: Files<S>, base: S, n: nat, x: Runner<S>) {
    match x
    case Checking(i) => i <= n
    case Executing(i) => i <= n
    case Committing(i, result) => i <= n && (i == n && i < |f.names| ==> result == Fold(f, base, i + 1))
    case Succeeded => n == |f.names|
    case Ended => true
  }

  ghost predicate Inv<S(!new)>(f: Files<S>, base: S, s: State<S>) {
    Folded(f, base, s) && forall r | r in s.runners :: RunnerInv(f, base, |s.applied|, s.runners[r])
  }

  lemma AppliedIff<S(!new)>(f: Files<S>, base: S, s: State<S>, i: nat)
    requires Folded(f, base, s) && Distinct(f.names) && i < |f.names|
    ensures f.names[i] in s.applied <==> i < |s.applied|
  {
    if i < |s.applied| {
      assert s.applied[i] == f.names[i];
    } else {
      forall j | 0 <= j < |s.applied|
        ensures s.applied[j] != f.names[i]
      {
        assert s.applied[j] == f.names[j];
      }
    }
  }

  lemma CommitKeepsInv<S(!new)>(f: Files<S>, base: S, s: State<S>, r: nat, out: Outcome)
    requires Inv(f, base, s) && Distinct(f.names) && Enabled(f, s, Step(r, Commit(out)))
    ensures Inv(f, base, Apply(f, s, Step(r, Commit(out))))
  {
    var i := s.runners[r].next;
    assert RunnerInv(f, base, |s.applied|, s.runners[r]);
    AppliedIff(f, base, s, i);
  }

  lemma StepKeepsInv<S(!new)>(f: Files<S>, base: S, s: State<S>, step: Step)
    requires Inv(f, base, s) && Distinct(f.names) && Enabled(f, s, step)
    ensures Inv(f, base, Apply(f, s, step))
  {
    match step.op
    case Commit(out) => CommitKeepsInv(f, base, s, step.r, out);
    case Check =>
      assert RunnerInv(f, base, |s.applied|, s.runners[step.r]);
      AppliedIff(f, base, s, s.runners[step.r].next);
    case Execute(_) => assert RunnerInv(f, base, |s.applied|, s.runners[step.r]);
    case Finish => assert RunnerInv(f, base, |s.applied|, s.runners[step.r]);
    case _ =>
  }

  lemma {:induction false} RunKeepsInv<S(!new)>(f: Files<S>, base: S, s: State<S>, steps: seq<Step>)
    requires Inv(f, base, s) && Distinct(f.names) && CanRun(f, s, steps)
    ensures Inv(f, base, Exec(f, s, steps))
    decreases |steps|
  {
    if |steps| > 0 {
      StepKeepsInv(f, base, s, steps[0]);
      RunKeepsInv(f, base, Apply(f, s, steps[0]), steps[1..]);
    }
  }

  // ----- main results -----------------------------------------------------------------------------

  function Fresh<S>(base: S): State<S> { State([], base, map[]) }

  /** However many runners there are, and wherever each of them stops or doubts its commit: the
      applied files are always a prefix of the sorted list, each applied once, in order. */
  lemma AlwaysAPrefix<S(!new)>(f: Files<S>, base: S, steps: seq<Step>)
    requires Distinct(f.names) && CanRun(f, Fresh(base), steps)
    ensures Folded(f, base, Exec(f, Fresh(base), steps))
  {
    RunKeepsInv(f, base, Fresh(base), steps);
  }

  /** Once any run has succeeded, the database is the one that a single clean run makes. */
  lemma SuccessIsComplete<S(!new)>(f: Files<S>, base: S, steps: seq<Step>, r: nat)
    requires Distinct(f.names) && CanRun(f, Fresh(base), steps)
    requires
      var s := Exec(f, Fresh(base), steps);
      r in s.runners && s.runners[r].Succeeded?
    ensures
      var s := Exec(f, Fresh(base), steps);
      s.applied == f.names && s.schema == Fold(f, base, |f.names|)
  {
    RunKeepsInv(f, base, Fresh(base), steps);
    var s := Exec(f, Fresh(base), steps);
    assert RunnerInv(f, base, |s.applied|, s.runners[r]);
  }

  /** Runner 0 has got to `x`. */
  ghost predicate RunnerAt<S>(s: State<S>, x: Runner<S>) {
    0 in s.runners && s.runners[0] == x
  }

  /** A single runner deals with the first `n` files. */
  lemma {:induction false} CleanPrefix<S(!new)>(f: Files<S>, base: S, n: nat) returns (steps: seq<Step>)
    requires Distinct(f.names) && n <= |f.names|
    ensures CanRun(f, Fresh(base), steps) && RunnerAt(Exec(f, Fresh(base), steps), Checking(n))
    ensures Exec(f, Fresh(base), steps).applied == f.names[..n]
    decreases n
  {
    if n == 0 {
      ExecSnoc(f, Fresh(base), [], Step(0, Start));
      steps := [] + [Step(0, Start)];
    } else {
      steps := CleanPrefix(f, base, n - 1);
      RunKeepsInv(f, base, Fresh(base), steps);
      AppliedIff(f, base, Exec(f, Fresh(base), steps), n - 1);
      ExecSnoc(f, Fresh(base), steps, Step(0, Check));
      steps := steps + [Step(0, Check)];
      ExecSnoc(f, Fresh(base), steps, Step(0, Execute(false)));
      steps := steps + [Step(0, Execute(false))];
      ExecSnoc(f, Fresh(base), steps, Step(0, Commit(Done)));
      steps := steps + [Step(0, Commit(Done))];
    }
  }

  /** One clean run by a single runner: it succeeds, and makes of the database what all files make of
      it, one after the other. */
  lemma CleanRun<S(!new)>(f: Files<S>, base: S) returns (steps: seq<Step>)
    requires Distinct(f.names)
    ensures CanRun(f, Fresh(base), steps) && RunnerAt(Exec(f, Fresh(base), steps), Succeeded)
    ensures Exec(f, Fresh(base), steps).schema == Fold(f, base, |f.names|)
  {
    steps := CleanPrefix(f, base, |f.names|);
    ExecSnoc(f, Fresh(base), steps, Step(0, Finish));
    steps := steps + [Step(0, Finish)];
    SuccessIsComplete(f, base, steps, 0);
  }

  /** From then on, no run changes anything. */
  lemma {:induction false} CompleteStays<S(!new)>(f: Files<S>, base: S, s: State<S>, steps: seq<Step>)
    requires Inv(f, base, s) && Distinct(f.names) && s.applied == f.names && CanRun(f, s, steps)
    ensures Exec(f, s, steps).applied == f.names && Exec(f, s, steps).schema == s.schema
    decreases |steps|
  {
    if |steps| > 0 {
      StepKeepsInv(f, base, s, steps[0]);
      if steps[0].op.Commit? {
        AppliedIff(f, base, s, s.runners[steps[0].r].next);
      }
      CompleteStays(f, base, Apply(f, s, steps[0]), steps[1..]);
    }
  }

  /** A further run, however it ends, leaves a successfully migrated database alone. */
  lemma FurtherRunsChangeNothing<S(!new)>(f: Files<S>, base: S, steps: seq<Step>, r: nat, more: seq<Step>)
    requires Distinct(f.names) && CanRun(f, Fresh(base), steps) && CanRun(f, Exec(f, Fresh(base), steps), more)
    requires
      var s := Exec(f, Fresh(base), steps);
      r in s.runners && s.runners[r].Succeeded?
    ensures
      var s, t := Exec(f, Fresh(base), steps), Exec(f, Exec(f, Fresh(base), steps), more);
      t.applied == s.applied && t.schema == s.schema
  {
    SuccessIsComplete(f, base, steps, r);
    RunKeepsInv(f, base, Fresh(base), steps);
    CompleteStays(f, base, Exec(f, Fresh(base), steps), more);
  }

  // ----- one runner among others ------------------------------------------------------------------

  lemma {:induction false} ExecSnoc<S(!new)>(f: Files<S>, s: State<S>, steps: seq<Step>, step: Step)
    requires CanRun(f, s, steps) && Enabled(f, Exec(f, s, steps), step)
    ensures CanRun(f, s, steps + [step]) && Exec(f, s, steps + [step]) == Apply(f, Exec(f, s, steps), step)
    decreases |steps|
  {
    if |steps| == 0 {
      assert steps + [step] == [step] && [step][1..] == [];
    } else {
      assert (steps + [step])[0] == steps[0] && (steps + [step])[1..] == steps[1..] + [step];
      ExecSnoc(f, Apply(f, s, steps[0]), steps[1..], step);
    }
  }

  datatype Entry = Entry(name: string, isDir: bool)

  function FileNames(entries: seq<Entry>): seq<string> {
    if |entries| == 0 then []
    else
      var e := entries[|entries| - 1];
      FileNames(entries[..|entries| - 1]) + if e.isDir then [] else [e.name]
  }

  /** A name is among the files exactly if some entry that is not a directory has it. */
  lemma {:induction false} FileNamesIff(entries: seq<Entry>, name: string)
    ensures name in FileNames(entries) <==> exists e | e in entries :: !e.isDir && e.name == name
  {
    if |entries| > 0 {
      var before, last := entries[..|entries| - 1], entries[|entries| - 1];
      FileNamesIff(before, name);
      assert entries == before + [last];
    }
  }

  /** These are exactly the names of the entries that are no directories. */
  ghost predicate NamesFiles(names: seq<string>, entries: seq<Entry>) {
    forall name :: name in names <==> exists e | e in entries :: !e.isDir && e.name == name
  }

  lemma AppliedNames(entries: seq<Entry>)
    ensures NamesFiles(Sort(FileNames(entries)), entries) && InOrder(Sort(FileNames(entries)))
  {
    var names := Sort(FileNames(entries));
    SortSorts(FileNames(entries));
    forall name
      ensures name in names <==> exists e | e in entries :: !e.isDir && e.name == name
    {
      FileNamesIff(entries, name);
      assert name in names <==> name in multiset(names);
      assert name in FileNames(entries) <==> name in multiset(FileNames(entries));
    }
  }

  lemma PrefixInOrder(names: seq<string>, n: nat)
    requires InOrder(names) && n <= |names|
    ensures InOrder(names[..n])
  {}

  lemma CheckLeads<S(!new)>(f: Files<S>, s: State<S>, r: nat, i: nat)
    requires i < |f.names| && r in s.runners && s.runners[r] == Checking(i)
    ensures Enabled(f, s, Step(r, Check))
    ensures
      var t := Apply(f, s, Step(r, Check));
      && t.applied == s.applied && r in t.runners
      && t.runners[r] == if f.names[i] in s.applied then Checking(i + 1) else Executing(i)
  {}

  lemma CommitLeads<S(!new)>(f: Files<S>, s: State<S>, r: nat, i: nat, out: Outcome)
    requires i < |f.names| && r in s.runners && s.runners[r].Committing? && s.runners[r].next == i
    requires f.names[i] in s.applied ==> out.Refused?
    ensures Enabled(f, s, Step(r, Commit(out)))
    ensures
      var t := Apply(f, s, Step(r, Commit(out)));
      && s.applied <= t.applied && r in t.runners
      && if out.Done? then t.runners[r] == Checking(i + 1) && f.names[i] in t.applied else t.runners[r].Ended?
  {
    if out.Applied() {
      var t := Apply(f, s, Step(r, Commit(out)));
      assert t.applied[|s.applied|] == f.names[i];
    }
  }

  /** The errors that the calls of runners have reported so far. */
  class Reports {
    ghost var errors: nat

    constructor ()
      ensures errors == 0
    {
      errors := 0;
    }

    /** A call that may report an error. */
    method Call() returns (failed: bool)
      modifies this
      ensures errors == old(errors) + if failed then 1 else 0
    {
      failed := *;
      errors := errors + if failed then 1 else 0;
    }

    /** Recording a file and committing, which the primary key may keep from having an effect. */
    method Record(name: string, applied: seq<string>) returns (out: Outcome)
      modifies this
      ensures name in applied ==> out.Refused?
      ensures errors == old(errors) + if out.Errs() then 1 else 0
    {
      out := *;
      if name in applied {
        out := Refused;
      }
      errors := errors + if out.Errs() then 1 else 0;
    }
  }

  /** The database, and where each of the runners that share it has got to. */
  class Database<S(!new)> {
    const entries: seq<Entry>
    const f: Files<S>
    const base: S
    const reports: Reports
    var applied: seq<string>
    var schema: S
    var runners: map<nat, Runner<S>>
    ghost var trace: seq<Step>

    function Abs(): State<S>
      reads this
    {
      State(applied, schema, runners)
    }

    ghost predicate Valid()
      reads this
    {
      && f.names == Sort(FileNames(entries)) && Distinct(f.names)
      && CanRun(f, Fresh(base), trace) && Exec(f, Fresh(base), trace) == Abs()
    }

    constructor (entries: seq<Entry>, effect: (S, string) -> S, base: S)
      requires Distinct(Sort(FileNames(entries)))
      ensures Valid() && applied == [] && schema == base && runners == map[]
      ensures this.entries == entries && this.base == base && f.effect == effect && fresh(reports)
    {
      this.reports := new Reports();
      this.entries := entries;
      this.f := Files(Sort(FileNames(entries)), effect);
      this.base := base;
      applied, schema, runners := [], base, map[];
      trace := [];
    }

    method Take(step: Step)
      requires Valid() && Enabled(f, Abs(), step)
      modifies this
      ensures Valid() && Abs() == Apply(f, old(Abs()), step)
    {
      var t := Apply(f, Abs(), step);
      ExecSnoc(f, Fresh(base), trace, step);
      applied, schema, runners := t.applied, t.schema, t.runners;
      trace := trace + [step];
    }

    /** Any number of steps of other runners. */
    method Others(r: nat)
      requires Valid()
      modifies this
      ensures Valid() && old(applied) <= applied
      ensures (r in runners <==> r in old(runners)) && (r in runners ==> runners[r] == old(runners)[r])
    {
      var n: nat := *;
      while n > 0
        invariant Valid() && old(applied) <= applied
        invariant (r in runners <==> r in old(runners)) && (r in runners ==> runners[r] == old(runners)[r])
      {
        var step: Step := *;
        if step.r != r && Enabled(f, Abs(), step) {
          Take(step);
        }
        n := n - 1;
      }
    }

    /** Whatever other runners do meanwhile: the run succeeds exactly if none of its calls reports an
        error. Success means that the database is what a clean run makes of it, failure leaves it
        somewhere on the way there. The files are applied in the order of a dictionary, and they are the
        entries that are no directories. */
    method RunMigrations(r: nat) returns (ok: bool)
      requires Valid() && r !in runners
      modifies this, reports
      ensures Valid() && old(applied) <= applied && r in runners
      ensures ok <==> runners[r].Succeeded?
      ensures ok <==> reports.errors == old(reports.errors)
      ensures ok ==> applied == Sort(FileNames(entries)) && schema == Fold(f, base, |f.names|)
      ensures ok ==> NamesFiles(applied, entries)
      ensures InOrder(applied) && InOrder(f.names) && Folded(f, base, Abs())
    {
      Take(Step(r, Start));
      ok := RunFiles(r);
      RunKeepsInv(f, base, Fresh(base), trace);
      assert RunnerInv(f, base, |applied|, runners[r]);
      AppliedNames(entries);
      PrefixInOrder(f.names, |applied|);
    }

    method RunFiles(r: nat) returns (ok: bool)
      requires Valid() && r in runners && runners[r] == Checking(0)
      modifies this, reports
      ensures Valid() && old(applied) <= applied && r in runners
      ensures ok <==> runners[r].Succeeded?
      ensures ok <==> reports.errors == old(reports.errors)
    {
      var unprepared := reports.Call();  // the table, the lock or the directory could not be had
      if unprepared {
        Take(Step(r, Stop));
        return false;
      }
      var names := [];
      for k := 0 to |entries|
        invariant names == FileNames(entries[..k])
      {
        assert entries[..k + 1][..k] == entries[..k];
        if entries[k].isDir {
          continue;
        }
        names := names + [entries[k].name];
      }
      assert entries[..|entries|] == entries;
      names := Sort(names);

      for i := 0 to |names|
        invariant Valid() && old(applied) <= applied && reports.errors == old(reports.errors)
        invariant r in runners && runners[r] == Checking(i)
      {
        ok := RunFile(r, i);
        if !ok {
          return false;
        }
      }
      Others(r);
      Take(Step(r, Finish));
      return true;
    }

    /** One iteration: the file is found applied, or it is run and recorded in one transaction. */
    method RunFile(r: nat, i: nat) returns (ok: bool)
      requires Valid() && i < |f.names| && r in runners && runners[r] == Checking(i)
      modifies this, reports
      ensures Valid() && old(applied) <= applied && r in runners
      ensures ok ==> runners[r] == Checking(i + 1) && f.names[i] in applied
      ensures !ok ==> runners[r].Ended?
      ensures reports.errors == old(reports.errors) + if ok then 0 else 1
    {
      var known, done := MigrationApplied(r, i);
      if !known {
        return false;
      }
      if done {
        return true;
      }
      ok := ApplyFile(r, i);
    }

    method MigrationApplied(r: nat, i: nat) returns (known: bool, done: bool)
      requires Valid() && i < |f.names| && r in runners && runners[r] == Checking(i)
      modifies this, reports
      ensures Valid() && old(applied) <= applied && r in runners
      ensures known ==>
        runners[r] == (if done then Checking(i + 1) else Executing(i)) && (done <==> f.names[i] in applied)
      ensures !known ==> runners[r].Ended?
      ensures reports.errors == old(reports.errors) + if known then 0 else 1
    {
      Others(r);
      var failed := reports.Call();
      known, done := !failed, false;
      if !known {
        Take(Step(r, Stop));
        return;
      }
      done := f.names[i] in applied;
      CheckLeads(f, Abs(), r, i);
      Take(Step(r, Check));
    }

    /** The file runs and is recorded in one transaction. */
    method ApplyFile(r: nat, i: nat) returns (ok: bool)
      requires Valid() && i < |f.names| && r in runners && runners[r] == Executing(i)
      modifies this, reports
      ensures Valid() && old(applied) <= applied && r in runners
      ensures ok ==> runners[r] == Checking(i + 1) && f.names[i] in applied
      ensures !ok ==> runners[r].Ended?
      ensures reports.errors == old(reports.errors) + if ok then 0 else 1
    {
      Others(r);
      var unreadable := reports.Call();  // the file could not be read, or no transaction begun
      if unreadable {
        Take(Step(r, Stop));
        return false;
      }
      var fails := reports.Call();
      Take(Step(r, Execute(fails)));
      if fails {
        return false;
      }
      ok := Record(r, i);
    }

    /** The end of the transaction: the file name is inserted and the transaction committed. */
    method Record(r: nat, i: nat) returns (ok: bool)
      requires Valid() && i < |f.names| && r in runners && runners[r].Committing? && runners[r].next == i
      modifies this, reports
      ensures Valid() && old(applied) <= applied && r in runners
      ensures ok ==> runners[r] == Checking(i + 1) && f.names[i] in applied
      ensures !ok ==> runners[r].Ended?
      ensures reports.errors == old(reports.errors) + if ok then 0 else 1
    {
      Others(r);
      var out := reports.Record(f.names[i], applied);
      CommitLeads(f, Abs(), r, i, out);
      Take(Step(r, Commit(out)));
      return out.Done?;
    }
  }
}
