/** Supervision of a batch of model downloads, and the rule that commits one artifact. */
module Downloader {
  import opened Common

  datatype Outcome = Done(path: string) | Failed(error: string)

  /** `Checked` is the point between the test of the cancel flag and the start of a transfer:
      the flag is shared with the caller and may be set there. */
  datatype Pc = Filling | Checked | Waiting | Over(answer: Result<seq<string>, string>)

  /** The supervisor of `n` downloads. `finished` lists the observed outcomes in their order and
      `late` counts the transfers started with the cancel flag set; both only record. */
  datatype Batch = Batch(
    n: nat, max: nat, pc: Pc, next: nat, active: set<nat>, results: seq<(nat, string)>,
    failure: Option<string>, cancel: bool, finished: seq<(nat, Outcome)>, late: nat)

  datatype Action = Check | Begin | Abandon | Observe(index: nat, outcome: Outcome) | Conclude

  const CANCELLED := "Model download cancelled"

  function Start(n: nat, max: nat): Batch {
    Batch(n, max, Filling, 0, {}, [], None, false, [], 0)
  }

  predicate MayStart(b: Batch) {
    b.failure.None? && !b.cancel && |b.active| < b.max && b.next < b.n
  }

  function Answer(b: Batch): Result<seq<string>, string> {
    if b.failure.Some? then Err(b.failure.value)
    else if b.cancel then Err(CANCELLED)
    else Ok(Paths(SortByKey(b.results)))
  }

  predicate Enabled(b: Batch, a: Action) {
    match a
    case Check => b.pc.Filling?
    case Begin => b.pc.Checked?
    case Abandon => !b.pc.Over?
    case Observe(i, _) => b.pc.Waiting? && i in b.active
    case Conclude => b.pc.Waiting? && b.active == {}
  }

  function Step(b: Batch, a: Action): Batch
    requires Enabled(b, a)
  {
    match a
    case Check => b.(pc := if MayStart(b) then Checked else Waiting)
    case Begin =>
      b.(pc := Filling, next := b.next + 1, active := b.active + {b.next}, late := b.late + if b.cancel then 1 else 0)
    case Abandon => b.(cancel := true)
    case Observe(i, o) =>
      var seen := b.(pc := Filling, active := b.active - {i}, finished := b.finished + [(i, o)]);
      (match o
       case Done(path) => seen.(results := b.results + [(i, path)])
       case Failed(error) =>
         seen.(failure := if b.failure.None? then Some(error) else b.failure, cancel := true))
    case Conclude => b.(pc := Over(Answer(b)))
  }

  ghost predicate IsRun(run: seq<Batch>, actions: seq<Action>) {
    && |run| == |actions| + 1
    && forall k :: 0 <= k < |actions| ==> Enabled(run[k], actions[k]) && run[k + 1] == Step(run[k], actions[k])
  }

  lemma RunGrows(run: seq<Batch>, actions: seq<Action>, a: Action)
    requires IsRun(run, actions) && Enabled(run[|run| - 1], a)
    ensures IsRun(run + [Step(run[|run| - 1], a)], actions + [a])
  {
    var more, acts := run + [Step(run[|run| - 1], a)], actions + [a];
    forall k | 0 <= k < |acts|
      ensures Enabled(more[k], acts[k]) && more[k + 1] == Step(more[k], acts[k])
    {
      if k < |actions| { assert more[k] == run[k] && more[k + 1] == run[k + 1] && acts[k] == actions[k]; }
    }
  }

  // ---- the invariant -------------------------------------------------------

  ghost predicate Finished(f: seq<(nat, Outcome)>, i: nat) { exists k :: 0 <= k < |f| && f[k].0 == i }

  ghost predicate Distinct(f: seq<(nat, Outcome)>) {
    forall j, k :: 0 <= j < k < |f| ==> f[j].0 != f[k].0
  }

  ghost predicate AllDone(f: seq<(nat, Outcome)>, results: seq<(nat, string)>) {
    && |results| == |f|
    && forall k :: 0 <= k < |f| ==> f[k] == (results[k].0, Done(results[k].1))
  }

  /** `error` is the first failure that was observed. */
  ghost predicate FirstFailure(f: seq<(nat, Outcome)>, error: string) {
    exists k :: 0 <= k < |f| && f[k].1 == Failed(error) && forall j :: 0 <= j < k ==> f[j].1.Done?
  }

  /** Each index is in exactly one of not started, active and finished. */
  ghost predicate Placed(b: Batch) {
    && (forall i :: i in b.active ==> i < b.next && !Finished(b.finished, i))
    && (forall i: nat :: i < b.next ==> i in b.active || Finished(b.finished, i))
    && (forall k :: 0 <= k < |b.finished| ==> b.finished[k].0 < b.next)
    && Distinct(b.finished)
    && |b.active| + |b.finished| == b.next <= b.n
  }

  ghost predicate Bounded(b: Batch) {
    && |b.active| <= b.max
    && b.late <= 1
    && (b.failure.Some? || b.late > 0 ==> b.cancel)
    && (b.pc.Checked? ==> |b.active| < b.max && b.next < b.n && b.failure.None? && b.late == 0)
    && (b.pc.Waiting? && !b.cancel ==> |b.active| == b.max || b.next == b.n)
  }

  ghost predicate Observed(b: Batch) {
    if b.failure.Some? then FirstFailure(b.finished, b.failure.value) else AllDone(b.finished, b.results)
  }

  ghost predicate Ended(b: Batch) {
    b.pc.Over? ==> b.active == {} && b.pc.answer == Answer(b) && (!b.cancel ==> b.next == b.n)
  }

  ghost predicate Inv(b: Batch) { b.max >= 1 && Placed(b) && Bounded(b) && Observed(b) && Ended(b) }

  lemma BeginPlaced(b: Batch)
    requires Placed(b) && b.next < b.n
    ensures Placed(b.(next := b.next + 1, active := b.active + {b.next}))
  {
    assert b.next !in b.active;
  }

  lemma ObservePlaced(b: Batch, i: nat, o: Outcome)
    requires Placed(b) && i in b.active
    ensures Placed(b.(active := b.active - {i}, finished := b.finished + [(i, o)]))
  {
    var f := b.finished + [(i, o)];
    assert f[|f| - 1].0 == i;
    forall j: nat | Finished(b.finished, j)
      ensures Finished(f, j)
    {
      var k :| 0 <= k < |b.finished| && b.finished[k].0 == j;
      assert f[k].0 == j;
    }
    forall j: nat | j in b.active && j != i
      ensures !Finished(f, j)
    {
      assert forall k :: 0 <= k < |b.finished| ==> b.finished[k].0 != j;
    }
    forall k | 0 <= k < |b.finished|
      ensures f[k].0 != i
    {
      assert !Finished(b.finished, i);
    }
  }

  lemma ObserveObserved(b: Batch, i: nat, o: Outcome)
    requires b.pc.Waiting? && i in b.active && Observed(b)
    ensures Observed(Step(b, Observe(i, o)))
  {
    var f := b.finished + [(i, o)];
    if b.failure.Some? {
      var k :| 0 <= k < |b.finished| && b.finished[k].1 == Failed(b.failure.value) && forall j :: 0 <= j < k ==> b.finished[j].1.Done?;
      assert f[k].1 == Failed(b.failure.value) && forall j :: 0 <= j < k ==> f[j].1.Done?;
    } else if o.Failed? {
      assert f[|b.finished|].1 == Failed(o.error) && forall j :: 0 <= j < |b.finished| ==> f[j].1.Done?;
    }
  }

  lemma StepInv(b: Batch, a: Action)
    requires Inv(b) && Enabled(b, a)
    ensures Inv(Step(b, a))
  {
    match a
    case Begin => BeginPlaced(b);
    case Observe(i, o) => ObservePlaced(b, i, o); ObserveObserved(b, i, o);
    case _ =>
  }

  lemma {:induction false} RunInv(run: seq<Batch>, actions: seq<Action>, k: nat, n: nat, max: nat)
    requires IsRun(run, actions) && k < |run| && run[0] == Start(n, max) && max >= 1
    ensures Inv(run[k]) && run[k].n == n && run[k].max == max
  {
    if k > 0 {
      RunInv(run, actions, k - 1, n, max);
      StepInv(run[k - 1], actions[k - 1]);
    }
  }

  // ---- main results -----------------------------------------------------------

  /** In every reachable state an index is in exactly one place, at most `max` are active, and
      at most one transfer, whose check had already passed, starts once the flag is set. */
  lemma Supervised(run: seq<Batch>, actions: seq<Action>, k: nat, n: nat, max: nat, i: nat)
    requires IsRun(run, actions) && k < |run| && run[0] == Start(n, max) && max >= 1 && i < n
    ensures
      var b := run[k];
      && |b.active| <= max && b.late <= 1
      && (i >= b.next || i in b.active || Finished(b.finished, i))
      && !(i >= b.next && i in b.active)
      && !(i >= b.next && Finished(b.finished, i))
      && !(i in b.active && Finished(b.finished, i))
  {
    RunInv(run, actions, k, n, max);
  }

  /** The flag is set and no test of it from before is still to be acted on. */
  predicate Stopped(b: Batch) { b.cancel && !b.pc.Checked? }

  lemma StoppedStep(b: Batch, a: Action)
    requires Stopped(b) && Enabled(b, a)
    ensures Stopped(Step(b, a)) && Step(b, a).next == b.next
  {
  }

  /** Once a failure was observed, or the flag was seen set, no transfer ever starts again. */
  lemma {:induction false} NothingStartsAfter(run: seq<Batch>, actions: seq<Action>, j: nat, k: nat, n: nat, max: nat)
    requires IsRun(run, actions) && j <= k < |run| && run[0] == Start(n, max) && max >= 1
    requires run[j].failure.Some? || Stopped(run[j])
    ensures Stopped(run[k]) && run[k].next == run[j].next
  {
    if k == j {
      RunInv(run, actions, j, n, max);
    } else {
      NothingStartsAfter(run, actions, j, k - 1, n, max);
      StoppedStep(run[k - 1], actions[k - 1]);
    }
  }

  /** With the flag set: how many transfers a run can still start. */
  function LateStarts(from: Batch, to: Batch): nat { if from.pc.Checked? && !to.pc.Checked? then 1 else 0 }

  lemma {:induction false} StartsOnceSet(run: seq<Batch>, actions: seq<Action>, j: nat, k: nat)
    requires IsRun(run, actions) && j <= k < |run| && run[j].cancel
    ensures run[k].cancel && (run[k].pc.Checked? ==> run[j].pc.Checked?)
    ensures run[k].next == run[j].next + LateStarts(run[j], run[k])
    ensures run[k].late == run[j].late + LateStarts(run[j], run[k])
  {
    if j < k { StartsOnceSet(run, actions, j, k - 1); }
  }

  ghost predicate Continues(b: Batch, run: seq<Batch>, actions: seq<Action>) { IsRun(run, actions) && run[0] == b }

  /** Some continuation of the batch starts another transfer. */
  ghost predicate CanStillStart(b: Batch) {
    exists run: seq<Batch>, actions, k :: Continues(b, run, actions) && 0 <= k < |run| && run[k].next > b.next
  }

  /** Exactly when a transfer starts after the flag was set, by a caller or by a failure: when the
      test of the flag had passed and the transfer was about to start. Then every continuation
      that moves on starts exactly that one, and otherwise none starts any. */
  lemma LateStartExactly(b: Batch)
    requires b.cancel
    ensures CanStillStart(b) <==> b.pc.Checked?
    ensures forall run: seq<Batch>, actions, k :: Continues(b, run, actions) && 0 <= k < |run| ==>
              run[k].next == b.next + LateStarts(b, run[k])
  {
    forall run: seq<Batch>, actions, k | Continues(b, run, actions) && 0 <= k < |run|
      ensures run[k].next == b.next + LateStarts(b, run[k])
    {
      StartsOnceSet(run, actions, 0, k);
    }
    if b.pc.Checked? {
      var run, actions := [b, Step(b, Begin)], [Begin];
      assert Continues(b, run, actions) && run[1].next > b.next;
    }
  }

  /** So in a whole run, with the flag first set at step `j`, the late starts are exactly these. */
  lemma LateInRun(run: seq<Batch>, actions: seq<Action>, j: nat, k: nat, n: nat, max: nat)
    requires IsRun(run, actions) && run[0] == Start(n, max) && max >= 1
    requires 0 < j <= k < |run| && !run[j - 1].cancel && run[j].cancel
    ensures run[k].late == LateStarts(run[j], run[k]) && run[k].next == run[j].next + run[k].late
  {
    RunInv(run, actions, j - 1, n, max);
    StartsOnceSet(run, actions, j, k);
  }

  /** The shortest run with a late start: the caller goes away between the test and the start. */
  lemma LateStart() returns (run: seq<Batch>, actions: seq<Action>)
    ensures IsRun(run, actions) && run[0] == Start(1, 1) && actions == [Check, Abandon, Begin]
    ensures run[2].cancel && run[2].active == {} && run[3].active == {0} && run[3].late == 1
  {
    actions := [Check, Abandon, Begin];
    var a := Step(Start(1, 1), Check);
    var b := Step(a, Abandon);
    run := [Start(1, 1), a, b, Step(b, Begin)];
  }

  /** What the caller is told when the supervisor is done: nothing is active any more, the error
      is the first failure or, without one, the cancellation, and on success path `i` is the one
      the transfer of input `i` gave. */
  lemma Concluded(run: seq<Batch>, actions: seq<Action>, k: nat, n: nat, max: nat)
    requires IsRun(run, actions) && k < |run| && run[0] == Start(n, max) && max >= 1
    requires run[k].pc.Over?
    ensures
      var b := run[k];
      && b.active == {}
      && (match b.pc.answer
          case Ok(paths) =>
            !b.cancel && |paths| == n && forall i: nat :: i < n ==> (i, Done(paths[i])) in b.finished
          case Err(error) =>
            if exists f :: f in b.finished && f.1.Failed? then FirstFailure(b.finished, error)
            else b.cancel && error == CANCELLED)
  {
    RunInv(run, actions, k, n, max);
    var b := run[k];
    if b.failure.Some? {
      var j :| 0 <= j < |b.finished| && b.finished[j].1 == Failed(b.failure.value) && forall h :: 0 <= h < j ==> b.finished[h].1.Done?;
      assert b.finished[j] in b.finished;
    } else {
      assert AllDone(b.finished, b.results);
      if !b.cancel { PathsInOrder(b.finished, b.results, n); }
    }
  }

  // ---- an undisturbed batch ---------------------------------------------------------

  /** Nobody goes away, and every transfer that is observed ends as `outcomes` says. */
  ghost predicate Undisturbed(actions: seq<Action>, outcomes: nat -> Outcome) {
    forall k :: 0 <= k < |actions| ==> !actions[k].Abandon? && Reported(actions[k], outcomes)
  }

  predicate Reported(a: Action, outcomes: nat -> Outcome) { a.Observe? ==> a.outcome == outcomes(a.index) }

  ghost predicate AsReported(b: Batch, outcomes: nat -> Outcome) {
    && (forall k :: 0 <= k < |b.finished| ==> b.finished[k].1 == outcomes(b.finished[k].0))
    && (b.cancel ==> b.failure.Some?)
  }

  lemma {:induction false} UndisturbedRun(
    run: seq<Batch>, actions: seq<Action>, k: nat, n: nat, max: nat, outcomes: nat -> Outcome)
    requires IsRun(run, actions) && k < |run| && run[0] == Start(n, max) && Undisturbed(actions, outcomes)
    ensures AsReported(run[k], outcomes)
  {
    if k > 0 {
      UndisturbedRun(run, actions, k - 1, n, max, outcomes);
      assert Reported(actions[k - 1], outcomes);
    }
  }

  /** An undisturbed batch succeeds exactly if every one of its transfers does; then it gives their
      paths in the order of the inputs, and otherwise the error of one that failed. */
  lemma UndisturbedAnswer(run: seq<Batch>, actions: seq<Action>, n: nat, max: nat, outcomes: nat -> Outcome)
    requires IsRun(run, actions) && run[0] == Start(n, max) && max >= 1 && Undisturbed(actions, outcomes)
    requires run[|run| - 1].pc.Over?
    ensures
      var answer := run[|run| - 1].pc.answer;
      && (answer.Ok? <==> forall i: nat :: i < n ==> outcomes(i).Done?)
      && (answer.Ok? ==> |answer.value| == n && forall i: nat :: i < n ==> outcomes(i) == Done(answer.value[i]))
      && (answer.Err? ==> exists i: nat :: i < n && outcomes(i) == Failed(answer.error))
  {
    var k := |run| - 1;
    RunInv(run, actions, k, n, max);
    UndisturbedRun(run, actions, k, n, max, outcomes);
    Concluded(run, actions, k, n, max);
    var b := run[k];
    if b.pc.answer.Ok? {
      forall i: nat | i < n
        ensures outcomes(i) == Done(b.pc.answer.value[i])
      {
        assert (i, Done(b.pc.answer.value[i])) in b.finished;
      }
    } else {
      var f :| 0 <= f < |b.finished| && b.finished[f].1 == Failed(b.failure.value);
      assert b.finished[f].0 < n && outcomes(b.finished[f].0) == Failed(b.pc.answer.error);
    }
  }

  // ---- sorting the results by index ---------------------------------------------

  function Insert(x: (nat, string), s: seq<(nat, string)>): seq<(nat, string)> {
    if s == [] || x.0 < s[0].0 then [x] + s else [s[0]] + Insert(x, s[1..])
  }

  function SortByKey(s: seq<(nat, string)>): seq<(nat, string)> {
    if s == [] then [] else Insert(s[|s| - 1], SortByKey(s[..|s| - 1]))
  }

  function Paths(s: seq<(nat, string)>): seq<string> {
    seq(|s|, k requires 0 <= k < |s| => s[k].1)
  }

  ghost predicate Increasing(s: seq<(nat, string)>) {
    forall j, k :: 0 <= j < k < |s| ==> s[j].0 < s[k].0
  }

  lemma {:induction false} InsertIncreasing(x: (nat, string), s: seq<(nat, string)>)
    requires Increasing(s) && forall y :: y in s ==> y.0 != x.0
    ensures Increasing(Insert(x, s)) && |Insert(x, s)| == |s| + 1
    ensures forall y :: y in Insert(x, s) <==> y == x || y in s
  {
    if s != [] && x.0 >= s[0].0 {
      assert s == [s[0]] + s[1..];
      InsertIncreasing(x, s[1..]);
      var r := Insert(x, s[1..]);
      forall k | 0 <= k < |r|
        ensures s[0].0 < r[k].0
      {
        assert r[k] in r;
      }
    }
  }

  lemma {:induction false} SortIncreasing(s: seq<(nat, string)>)
    requires forall j, k :: 0 <= j < k < |s| ==> s[j].0 != s[k].0
    ensures Increasing(SortByKey(s)) && |SortByKey(s)| == |s|
    ensures forall y :: y in SortByKey(s) <==> y in s
  {
    if s != [] {
      var front := s[..|s| - 1];
      SortIncreasing(front);
      assert s == front + [s[|s| - 1]];
      InsertIncreasing(s[|s| - 1], SortByKey(front));
    }
  }

  /** `n` increasing numbers below `n` are 0, 1, ..., n - 1. */
  lemma {:induction false} IncreasingAt(s: seq<(nat, string)>, k: nat)
    requires Increasing(s) && k < |s| && forall y :: y in s ==> y.0 < |s|
    ensures k <= s[k].0
  {
    if k > 0 { IncreasingAt(s, k - 1); }
  }

  lemma {:induction false} IncreasingFromEnd(s: seq<(nat, string)>, k: nat)
    requires Increasing(s) && k < |s| && forall y :: y in s ==> y.0 < |s|
    ensures s[k].0 <= k
    decreases |s| - k
  {
    if k < |s| - 1 { IncreasingFromEnd(s, k + 1); } else { assert s[k] in s; }
  }

  lemma PathsInOrder(f: seq<(nat, Outcome)>, results: seq<(nat, string)>, n: nat)
    requires AllDone(f, results) && Distinct(f) && |f| == n
    requires forall k :: 0 <= k < |f| ==> f[k].0 < n
    ensures |Paths(SortByKey(results))| == n
    ensures forall i: nat :: i < n ==> (i, Done(Paths(SortByKey(results))[i])) in f
  {
    SortIncreasing(results);
    var s := SortByKey(results);
    forall y | y in s
      ensures y.0 < n
    {
      var k :| 0 <= k < |results| && results[k] == y;
      assert f[k].0 == y.0;
    }
    forall i: nat | i < n
      ensures (i, Done(s[i].1)) in f
    {
      IncreasingAt(s, i);
      IncreasingFromEnd(s, i);
      assert s[i] in s;
      var k :| 0 <= k < |results| && results[k] == s[i];
      assert f[k] == (i, Done(s[i].1));
    }
  }

  // ---- the supervisor ------------------------------------------------------------

  /** The supervisor with its loop. `cancel` is shared with the caller, who goes away between two
      steps if `leaves` says so for the `moment`; transfer `i` ends with `outcomes(i)`, and which one
      ends next is up to the network. The trace lists the states the supervisor went through. */
  class BatchSupervisor {
    const n: nat
    const max: nat
    const leaves: nat -> bool
    const outcomes: nat -> Outcome
    var cancel: bool
    var moment: nat
    ghost var trace: seq<Batch>
    ghost var actions: seq<Action>

    /** The trace is a run that ends in `b`. */
    ghost predicate At(b: Batch)
      reads this
    {
      && max >= 1 && IsRun(trace, actions) && trace[0] == Start(n, max)
      && trace[|trace| - 1] == b && b.cancel == cancel && b.n == n && b.max == max
      && Caused()
    }

    /** Nobody goes away at any moment. */
    ghost predicate Stays() { forall k :: !leaves(k) }

    /** Only what `leaves` and `outcomes` say happens from outside. */
    ghost predicate Caused()
      reads this
    {
      forall k :: 0 <= k < |actions| ==> (Stays() ==> !actions[k].Abandon?) && Reported(actions[k], outcomes)
    }

    constructor (n: nat, maxConcurrent: nat, leaves: nat -> bool, outcomes: nat -> Outcome)
      ensures this.n == n && this.leaves == leaves && this.outcomes == outcomes
      ensures max == (if maxConcurrent > 1 then maxConcurrent else 1)
      ensures At(Start(n, max))
    {
      this.n, this.leaves, this.outcomes, moment := n, leaves, outcomes, 0;
      max := if maxConcurrent > 1 then maxConcurrent else 1;
      cancel := false;
      new;
      trace, actions := [Start(n, max)], [];
    }

    ghost method Record(b: Batch, a: Action) returns (c: Batch)
      requires max >= 1 && IsRun(trace, actions) && trace[0] == Start(n, max) && trace[|trace| - 1] == b
      requires b.n == n && b.max == max && Inv(b) && Enabled(b, a) && Step(b, a).cancel == cancel
      requires Caused() && (a.Abandon? ==> !Stays()) && Reported(a, outcomes)
      modifies this`trace, this`actions
      ensures c == Step(b, a) && At(c) && Inv(c)
    {
      StepInv(b, a);
      c := Step(b, a);
      RunGrows(trace, actions, a);
      trace, actions := trace + [c], actions + [a];
    }

    /** The caller may go away here. */
    method Interrupt(ghost b: Batch) returns (ghost c: Batch)
      requires At(b) && Inv(b) && !b.pc.Over?
      modifies this
      ensures At(c) && Inv(c) && c == b.(cancel := cancel) && cancel == (b.cancel || leaves(old(moment)))
      ensures moment == old(moment) + 1
    {
      c := b;
      moment := moment + 1;
      if leaves(moment - 1) {
        cancel := true;
        c := Record(b, Abandon);
      }
    }

    /** Starts transfers while there is room, something left to start and no reason to stop. */
    method Fill(from: nat, running: set<nat>, failure: Option<string>, ghost b: Batch)
      returns (next: nat, active: set<nat>, ghost c: Batch)
      requires At(b) && Inv(b) && b.pc.Filling? && b.next == from && b.active == running && b.failure == failure
      modifies this
      ensures At(c) && Inv(c) && c.pc.Waiting?
      ensures c.next == next && c.active == active && c.failure == failure && c.results == b.results
      ensures from <= next && next + |running| == from + |active|
    {
      next, active, c := from, running, b;
      while true
        invariant At(c) && Inv(c) && c.pc.Filling?
        invariant c.next == next && c.active == active && c.failure == failure && c.results == b.results
        invariant from <= next && next + |running| == from + |active|
        decreases n - next
      {
        c := Interrupt(c);
        c := Record(c, Check);
        if !(failure.None? && !cancel && |active| < max && next < n) { break; }
        c := Interrupt(c);
        c := Record(c, Begin);
        active, next := active + {next}, next + 1;
      }
      c := Interrupt(c);
    }

    /** Waits for the next transfer that ends. */
    method Join(running: set<nat>, found: seq<(nat, string)>, noted: Option<string>, ghost b: Batch)
      returns (active: set<nat>, results: seq<(nat, string)>, failure: Option<string>, ghost c: Batch)
      requires At(b) && Inv(b) && b.pc.Waiting? && running != {}
      requires b.active == running && b.results == found && b.failure == noted
      modifies this
      ensures At(c) && Inv(c) && c.pc.Filling? && c.next == b.next
      ensures c.active == active && c.results == results && c.failure == failure
      ensures |active| < |running|
    {
      var i :| i in running;
      var outcome := outcomes(i);
      active, results, failure := running - {i}, found, noted;
      match outcome {
        case Done(path) =>
          results := results + [(i, path)];
        case Failed(error) =>
          if failure.None? { failure := Some(error); }
          cancel := true;
      }
      c := Record(b, Observe(i, outcome));
    }

    method Supervise() returns (answer: Result<seq<string>, string>)
      requires At(Start(n, max))
      modifies this
      ensures IsRun(trace, actions) && trace[0] == Start(n, max) && trace[|trace| - 1].pc == Over(answer)
      ensures Stays() ==> (answer.Ok? <==> forall i: nat :: i < n ==> outcomes(i).Done?)
      ensures Stays() && answer.Ok? ==> |answer.value| == n && forall i: nat :: i < n ==> outcomes(i) == Done(answer.value[i])
    {
      var next, active, results, failure := 0, {}, [], None;
      ghost var b := Start(n, max);
      while true
        invariant At(b) && b.pc.Filling? && Inv(b)
        invariant b.next == next && b.active == active && b.results == results && b.failure == failure
        decreases 2 * (n - next) + |active|
      {
        next, active, b := Fill(next, active, failure, b);
        if active == {} { break; }
        active, results, failure, b := Join(active, results, failure, b);
      }
      answer := if failure.Some? then Err(failure.value)
                else if cancel then Err(CANCELLED)
                else Ok(Paths(SortByKey(results)));
      b := Record(b, Conclude);
      if Stays() { UndisturbedAnswer(trace, actions, n, max, outcomes); }
    }
  }

  // ---- committing one artifact -------------------------------------------------------

  type bytes = seq<bv8>

  /** What the body of a response does next: data that is written, or one of the ways to fail. */
  datatype Event = Data(chunk: bytes) | Broken(error: string)

  const U64_MAX: nat := 0xFFFF_FFFF_FFFF_FFFF

  function Body(events: seq<Event>): bytes {
    if events == [] then []
    else Body(events[..|events| - 1]) + (match events[|events| - 1] case Data(chunk) => chunk case Broken(_) => [])
  }

  /** The pinned description of an artifact, with the hash function as a parameter. */
  datatype Pinned = Pinned(size: nat, sha256: string, hash: bytes -> string)

  /** The content is the one that was pinned. */
  predicate Matches(p: Pinned, content: bytes) {
    |content| == p.size && Lower(p.hash(content)) == Lower(p.sha256)
  }

  /** A content matches exactly if it has the pinned length and its hash the pinned digits, in either case. */
  lemma MatchesExactly(p: Pinned, content: bytes)
    ensures Matches(p, content) <==> |content| == p.size && EqualButForCase(p.hash(content), p.sha256)
  {
    LowerExactly(p.hash(content), p.sha256);
  }

  /** A prefix of a body is no longer than the body. */
  lemma {:induction false} BodyGrows(events: seq<Event>, k: nat)
    requires k <= |events|
    ensures |Body(events[..k])| <= |Body(events)|
    decreases |events|
  {
    if k < |events| {
      assert events[..|events| - 1][..k] == events[..k];
      BodyGrows(events[..|events| - 1], k);
    } else {
      assert events[..k] == events;
    }
  }

  /** How server, caller and file system behave: whether the request was answered and the status a
      success, the declared length, and whether each step on the files worked. */
  datatype Conduct = Conduct(
    answered: bool, success: bool, declared: Option<nat>,
    created: bool, synced: bool, cancelled: bool, renamed: bool, removed: bool)

  /** The response is one whose body is read at all. */
  predicate Acceptable(p: Pinned, c: Conduct) {
    c.answered && c.success && (c.declared.Some? ==> c.declared.value == p.size)
  }

  class ArtifactFile {
    var target: Option<bytes>
    var temp: Option<bytes>

    /** The target is replaced exactly by the whole pinned content; the partial file, whose name is
        new, stays behind exactly when the download failed and removing it failed too. */
    method Download(p: Pinned, c: Conduct, events: seq<Event>) returns (r: Result<(), string>)
      requires p.size <= U64_MAX && temp.None?
      modifies this
      ensures r.Ok? <==>
              && Acceptable(p, c) && c.created && c.synced && !c.cancelled && c.renamed
              && (forall e :: e in events ==> e.Data?) && Matches(p, Body(events))
      ensures r.Ok? ==> |Body(events)| == p.size && EqualButForCase(p.hash(Body(events)), p.sha256)
      ensures r.Ok? ==> c.answered && c.success && (c.declared.Some? ==> c.declared.value == |Body(events)|)
      ensures target == if r.Ok? then Some(Body(events)) else old(target)
      ensures temp.Some? <==> r.Err? && Acceptable(p, c) && c.created && !c.removed
    {
      if !c.answered { return Err("Download request failed"); }
      if !c.success { return Err("Download failed with status"); }
      if c.declared.Some? && c.declared.value != p.size {
        return Err("Pinned artifact size does not match Content-Length");
      }
      MatchesExactly(p, Body(events));
      r := Fetch(p, c, events);
      if r.Err? && c.removed { temp := None; }
    }

    /** From the creation of the partial file to the rename. */
    method Fetch(p: Pinned, c: Conduct, events: seq<Event>) returns (r: Result<(), string>)
      requires p.size <= U64_MAX && temp.None?
      modifies this
      ensures r.Ok? <==>
              && c.created && c.synced && !c.cancelled && c.renamed
              && (forall e :: e in events ==> e.Data?) && Matches(p, Body(events))
      ensures target == if r.Ok? then Some(Body(events)) else old(target)
      ensures temp.Some? <==> r.Err? && c.created
    {
      if !c.created { return Err("create failed"); }
      r := Receive(p, events);
      if r.Ok? && !c.synced { r := Err("sync failed"); }
      if r.Ok? && c.cancelled { r := Err(CANCELLED); }
      if r.Ok? && |temp.value| != p.size { r := Err("Downloaded artifact is shorter than pinned size"); }
      if r.Ok? && Lower(p.hash(temp.value)) != Lower(p.sha256) { r := Err("Downloaded artifact SHA-256 mismatch"); }
      if r.Ok? {
        if c.renamed { target, temp := temp, None; } else { r := Err("rename failed"); }
      }
    }

    /** Writes the body to the partial file, but never more than the pinned size. */
    method Receive(p: Pinned, events: seq<Event>) returns (r: Result<(), string>)
      requires p.size <= U64_MAX
      modifies this`temp
      ensures r.Ok? <==> (forall e :: e in events ==> e.Data?) && |Body(events)| <= p.size
      ensures temp.Some? && (r.Ok? ==> temp == Some(Body(events)))
    {
      var written, downloaded := [], 0;
      temp := Some(written);
      for i := 0 to |events|
        invariant forall e :: e in events[..i] ==> e.Data?
        invariant written == Body(events[..i]) && temp == Some(written) && downloaded == |written| <= p.size
      {
        BodyGrows(events, i + 1);
        assert events[..i + 1][..i] == events[..i];
        assert events[i] in events;
        match events[i] {
          case Broken(error) => return Err(error);
          case Data(chunk) =>
            if downloaded + |chunk| > U64_MAX { return Err("Downloaded artifact size overflow"); }
            downloaded := downloaded + |chunk|;
            if downloaded > p.size { return Err("Downloaded artifact exceeds pinned size"); }
            written := written + chunk;
            temp := Some(written);
        }
      }
      assert events[..|events|] == events;
      r := Ok(());
    }
  }
}
