/** The latest-wins save service and the process-wide drain, as interleaved atomic steps. */
module SettingsService {
  import opened Common

  // ---- one service ---------------------------------------------------------

  /** Where the worker task stands: at `notified`, about to take from the slot, inside
      `save_transaction`, between seeing an empty slot and reading `closed`, or gone. */
  datatype Worker = Waiting | Looping | Saving(request: nat) | Checking | Stopped

  /** Requests are numbered in the order of their submission. `notifying` counts callers between
      releasing the slot and `notify_one`; `executed`, `superseded` (request to its replacement)
      and `discarded` record what became of the requests. */
  datatype Service = Service(
    pending: Option<nat>,
    permit: bool,
    notifying: nat,
    closed: bool,
    worker: Worker,
    submitted: nat,
    executed: seq<nat>,
    superseded: map<nat, nat>,
    discarded: set<nat>)

  const Opened := Service(None, false, 0, false, Waiting, 0, [], map[], {})

  datatype Action = Submit | Notify | Close | Wake | Take | Finish | Check | Discard

  predicate Can(s: Service, a: Action) {
    match a
    case Submit => !s.closed
    case Notify => s.notifying > 0
    case Close => !s.closed && s.notifying == 0
    case Wake => s.worker.Waiting? && s.permit
    case Take => s.worker.Looping?
    case Finish => s.worker.Saving?
    case Check => s.worker.Checking?
    case Discard => s.closed && s.notifying == 0 && s.worker.Stopped? && s.pending.Some?
  }

  function Do(s: Service, a: Action): Service
    requires Can(s, a)
  {
    match a
    case Submit =>
      s.(pending := Some(s.submitted),
         submitted := s.submitted + 1,
         notifying := s.notifying + 1,
         superseded := if s.pending.Some? then s.superseded[s.pending.value := s.submitted] else s.superseded)
    case Notify => s.(notifying := s.notifying - 1, permit := true)
    case Close => s.(closed := true, notifying := s.notifying + 1)
    case Wake => s.(permit := false, worker := Looping)
    case Take =>
      if s.pending.Some? then s.(pending := None, worker := Saving(s.pending.value)) else s.(worker := Checking)
    case Finish => s.(executed := s.executed + [s.worker.request], worker := Looping)
    case Check => s.(worker := if s.closed then Stopped else Waiting)
    case Discard => s.(pending := None, discarded := s.discarded + {s.pending.value})
  }

  /** Tickets that a service holds. */
  function Unfinished(s: Service): nat {
    (if s.pending.Some? then 1 else 0) + (if s.worker.Saving? then 1 else 0)
  }

  predicate DropsTicket(s: Service, a: Action) {
    a.Finish? || a.Discard? || (a.Submit? && s.pending.Some?)
  }

  ghost predicate Increasing(xs: seq<nat>) {
    forall i, j :: 0 <= i < j < |xs| ==> xs[i] < xs[j]
  }

  /** Nothing at or after `n` has been taken by the worker so far. */
  ghost predicate TakenBelow(s: Service, n: nat) {
    && (forall i :: 0 <= i < |s.executed| ==> s.executed[i] < n)
    && (s.worker.Saving? ==> s.worker.request < n)
  }

  ghost predicate Ordered(s: Service) {
    && Increasing(s.executed)
    && TakenBelow(s, s.submitted)
    && (s.worker.Saving? ==> forall i :: 0 <= i < |s.executed| ==> s.executed[i] < s.worker.request)
    && (s.pending.Some? ==> s.submitted > 0 && s.pending.value == s.submitted - 1 && TakenBelow(s, s.pending.value))
  }

  /** A superseded request was replaced by a later one and is never run. */
  ghost predicate SupersededOk(s: Service) {
    forall r :: r in s.superseded ==>
      && r < s.superseded[r] < s.submitted
      && r !in s.executed && s.worker != Saving(r) && s.pending != Some(r)
  }

  ghost predicate LatestTracked(s: Service) {
    && (s.discarded != {} ==> s.closed && s.worker.Stopped?)
    && (s.submitted > 0 ==>
          || s.pending == Some(s.submitted - 1)
          || s.worker == Saving(s.submitted - 1)
          || (s.executed != [] && s.executed[|s.executed| - 1] == s.submitted - 1)
          || s.submitted - 1 in s.discarded)
  }

  /** A waiting request always has somebody on the way to it, unless the worker has stopped. */
  ghost predicate NotForgotten(s: Service) {
    && (s.worker.Stopped? ==> s.closed)
    && (s.pending.Some? ==>
          s.permit || s.notifying > 0 || s.worker.Looping? || s.worker.Saving? || s.worker.Stopped?)
  }

  /** Every submission has exactly one fate. */
  ghost predicate Accounted(s: Service) {
    && (forall r :: 0 <= r < s.submitted ==>
          r in s.executed || r in s.superseded || r in s.discarded || s.worker == Saving(r) || s.pending == Some(r))
    && (forall r :: r in s.discarded ==> r !in s.executed && r !in s.superseded && s.pending != Some(r) && r < s.submitted)
  }

  ghost predicate ServiceInv(s: Service) {
    Ordered(s) && SupersededOk(s) && LatestTracked(s) && NotForgotten(s) && Accounted(s)
  }

  lemma OpenedInv()
    ensures ServiceInv(Opened)
  {}

  lemma DoOrdered(s: Service, a: Action)
    requires Can(s, a) && Ordered(s)
    ensures Ordered(Do(s, a))
  {}

  lemma DoSuperseded(s: Service, a: Action)
    requires Can(s, a) && Ordered(s) && SupersededOk(s)
    ensures SupersededOk(Do(s, a))
  {}

  lemma DoTracked(s: Service, a: Action)
    requires Can(s, a) && ServiceInv(s)
    ensures LatestTracked(Do(s, a)) && NotForgotten(Do(s, a))
  {}

  lemma DoAccounted(s: Service, a: Action)
    requires Can(s, a) && ServiceInv(s)
    ensures Accounted(Do(s, a))
  {
    var s' := Do(s, a);
    assert forall r :: r in s.executed ==> r in s'.executed;
  }

  lemma DoInv(s: Service, a: Action)
    requires Can(s, a) && ServiceInv(s)
    ensures ServiceInv(Do(s, a))
  {
    DoOrdered(s, a);
    DoSuperseded(s, a);
    DoTracked(s, a);
    DoAccounted(s, a);
  }

  predicate Quiescent(s: Service) {
    !s.closed && s.worker.Waiting? && !s.permit && s.notifying == 0
  }

  /** An open service at rest holds no request, and the save it ran last is the last submitted. */
  lemma QuiescentRanLast(s: Service)
    requires ServiceInv(s) && Quiescent(s)
    ensures s.pending.None?
    ensures s.submitted > 0 ==> s.executed != [] && s.executed[|s.executed| - 1] == s.submitted - 1
  {}

  // ---- the process-wide counter and its drainers ---------------------------

  /** `Starting` is about to read the counter, `Pausing` saw it non-zero and has not yet polled
      its notification, `Blocked` is registered as a waiter. */
  datatype Drainer = Starting | Pausing | Blocked

  /** `notices` counts dropped tickets whose `notify_one` has not happened yet. That `outstanding`
      is never negative, so that the counter never wraps, is part of what is proved. */
  datatype Drain = Drain(outstanding: int, permit: bool, notices: nat, drainers: map<nat, Drainer>)

  datatype System = System(services: map<nat, Service>, drain: Drain)

  const Start := System(map[], Drain(0, false, 0, map[]))

  datatype Step =
    | Open(service: nat)
    | Serve(service: nat, action: Action)
    | NotifyOne(woken: Option<nat>)
    | BeginDrain(drainer: nat)
    | ReadCounter(drainer: nat)
    | Poll(drainer: nat)

  predicate SomeBlocked(d: Drain) { exists k :: k in d.drainers && d.drainers[k].Blocked? }

  ghost predicate Enabled(y: System, e: Step) {
    match e
    case Open(i) => i !in y.services
    case Serve(i, a) => i in y.services && Can(y.services[i], a)
    case NotifyOne(None) => y.drain.notices > 0 && !SomeBlocked(y.drain)
    case NotifyOne(Some(k)) => y.drain.notices > 0 && k in y.drain.drainers && y.drain.drainers[k].Blocked?
    case BeginDrain(k) => k !in y.drain.drainers
    case ReadCounter(k) => k in y.drain.drainers && y.drain.drainers[k].Starting?
    case Poll(k) => k in y.drain.drainers && y.drain.drainers[k].Pausing?
  }

  predicate Returns(y: System, e: Step) { e.ReadCounter? && y.drain.outstanding == 0 }

  function Ticketed(d: Drain, s: Service, a: Action): Drain {
    var taken := d.outstanding + if a.Submit? then 1 else 0;
    if DropsTicket(s, a) then d.(outstanding := taken - 1, notices := d.notices + 1) else d.(outstanding := taken)
  }

  ghost predicate Counted(y: System) { y.drain.outstanding == Sum(y.services, Unfinished) }

  lemma HoldsItsTickets(y: System, i: nat)
    requires Counted(y) && i in y.services
    ensures Unfinished(y.services[i]) <= y.drain.outstanding
  {
    SumRemove(y.services, Unfinished, i);
  }

  ghost function Apply(y: System, e: Step): System
    requires Enabled(y, e)
  {
    var d := y.drain;
    match e
    case Open(i) => y.(services := y.services[i := Opened])
    case Serve(i, a) =>
      System(y.services[i := Do(y.services[i], a)], Ticketed(d, y.services[i], a))
    case NotifyOne(None) => y.(drain := d.(notices := d.notices - 1, permit := true))
    case NotifyOne(Some(k)) =>
      y.(drain := d.(notices := d.notices - 1, drainers := d.drainers[k := Starting]))
    case BeginDrain(k) => y.(drain := d.(drainers := d.drainers[k := Starting]))
    case ReadCounter(k) =>
      y.(drain := d.(drainers := if d.outstanding == 0 then d.drainers - {k} else d.drainers[k := Pausing]))
    case Poll(k) =>
      y.(drain := if d.permit then d.(permit := false, drainers := d.drainers[k := Starting])
                  else d.(drainers := d.drainers[k := Blocked]))
  }

  ghost predicate SystemInv(y: System) {
    && Counted(y)
    && forall i :: i in y.services ==> ServiceInv(y.services[i])
  }

  lemma ServeCounted(y: System, i: nat, a: Action)
    requires Counted(y) && Enabled(y, Serve(i, a))
    ensures Counted(Apply(y, Serve(i, a)))
  {
    var s := y.services[i];
    var after := y.services[i := Do(s, a)];
    SumRemove(y.services, Unfinished, i);
    SumRemove(after, Unfinished, i);
    assert after - {i} == y.services - {i};
  }

  lemma ServeInv(y: System, i: nat, a: Action)
    requires SystemInv(y) && Enabled(y, Serve(i, a))
    ensures SystemInv(Apply(y, Serve(i, a)))
  {
    ServeCounted(y, i, a);
    DoInv(y.services[i], a);
    assert Apply(y, Serve(i, a)).services == y.services[i := Do(y.services[i], a)];
  }

  lemma OpenInv(y: System, i: nat)
    requires SystemInv(y) && Enabled(y, Open(i))
    ensures SystemInv(Apply(y, Open(i)))
  {
    OpenedInv();
    SumInsert(y.services, Unfinished, i, Opened);
  }

  /** Outstanding tickets equal unfinished requests, and every service keeps its invariant. */
  lemma StepInv(y: System, e: Step)
    requires SystemInv(y) && Enabled(y, e)
    ensures SystemInv(Apply(y, e))
  {
    match e
    case Open(i) => OpenInv(y, i);
    case Serve(i, a) => ServeInv(y, i, a);
    case _ => assert Apply(y, e).services == y.services;
  }

  /** A run in which at most `most` drain calls are under way at any time. */
  ghost predicate Run(y: System, steps: seq<Step>, y': System, most: nat)
    decreases |steps|
  {
    && |y.drain.drainers| <= most
    && if steps == [] then y == y'
       else Enabled(y, steps[0]) && Run(Apply(y, steps[0]), steps[1..], y', most)
  }

  lemma {:induction false} RunInv(y: System, steps: seq<Step>, y': System, most: nat)
    requires SystemInv(y) && Run(y, steps, y', most)
    ensures SystemInv(y')
    decreases |steps|
  {
    if steps != [] {
      StepInv(y, steps[0]);
      RunInv(Apply(y, steps[0]), steps[1..], y', most);
    }
  }

  /** Whatever services do and whenever they are opened: executed saves are a strictly increasing
      subsequence of the submissions, a superseded save gave way to a later one and never ran,
      an open service at rest last ran the last submission, and the tickets are exact. */
  lemma EveryRun(steps: seq<Step>, y: System, most: nat, i: nat)
    requires Run(Start, steps, y, most)
    ensures y.drain.outstanding == Sum(y.services, Unfinished)
    ensures i in y.services ==>
              var s := y.services[i];
              && Increasing(s.executed)
              && (forall r :: r in s.executed ==> r < s.submitted && r !in s.superseded && r !in s.discarded)
              && (forall r :: r in s.superseded ==> r < s.superseded[r] < s.submitted)
              && (Quiescent(s) && s.submitted > 0 ==> s.executed != [] && s.executed[|s.executed| - 1] == s.submitted - 1)
  {
    RunInv(Start, steps, y, most);
    if i in y.services && Quiescent(y.services[i]) { QuiescentRanLast(y.services[i]); }
  }

  /** In every run a drain call that returns does so when no service holds a request. */
  lemma DrainReturnsAtZero(steps: seq<Step>, y: System, most: nat, e: Step, i: nat)
    requires Run(Start, steps, y, most) && Enabled(y, e) && Returns(y, e) && i in y.services
    ensures y.services[i].pending.None? && !y.services[i].worker.Saving?
  {
    RunInv(Start, steps, y, most);
    HoldsItsTickets(y, i);
  }

  // ---- when a drain call can be left blocked at zero ------------------------

  /** Some drain call sleeps although nothing is outstanding and no notification is coming. */
  predicate StuckAtZero(y: System) {
    y.drain.outstanding == 0 && y.drain.notices == 0 && SomeBlocked(y.drain)
  }

  /** With at most one drain call: at zero a sleeper is still to be notified, and one about to
      sleep will find the permit. */
  ghost predicate OneDrainerInv(d: Drain) {
    && |d.drainers| <= 1
    && (d.outstanding == 0 ==> forall k :: k in d.drainers ==>
          && (d.drainers[k].Blocked? ==> d.notices > 0)
          && (d.drainers[k].Pausing? ==> d.permit || d.notices > 0))
  }

  lemma OnlyKey(m: map<nat, Drainer>, j: nat, k: nat)
    requires |m| <= 1 && j in m && k in m
    ensures j == k
  {
    var rest := m.Keys - {j};
    assert |m.Keys| == |m| && |rest| == |m.Keys| - 1;
    assert rest == {};
  }

  lemma OneDrainerStep(y: System, e: Step)
    requires SystemInv(y) && Enabled(y, e) && OneDrainerInv(y.drain)
    requires |Apply(y, e).drain.drainers| <= 1
    ensures OneDrainerInv(Apply(y, e).drain)
  {
    var d, d' := y.drain, Apply(y, e).drain;
    forall k | d'.outstanding == 0 && k in d'.drainers
      ensures d'.drainers[k].Blocked? ==> d'.notices > 0
      ensures d'.drainers[k].Pausing? ==> d'.permit || d'.notices > 0
    {
      match e
      case NotifyOne(Some(j)) => OnlyKey(d'.drainers, j, k);
      case Poll(j) => OnlyKey(d'.drainers, j, k);
      case _ =>
    }
  }

  lemma {:induction false} OneDrainerNeverStuck(y: System, steps: seq<Step>, y': System)
    requires SystemInv(y) && OneDrainerInv(y.drain) && Run(y, steps, y', 1)
    ensures !StuckAtZero(y')
    decreases |steps|
  {
    if steps != [] {
      var next := Apply(y, steps[0]);
      StepInv(y, steps[0]);
      assert Run(next, steps[1..], y', 1);
      OneDrainerStep(y, steps[0]);
      OneDrainerNeverStuck(next, steps[1..], y');
    }
  }

  lemma {:induction false} MoreDrainersAllowed(y: System, steps: seq<Step>, y': System, few: nat, many: nat)
    requires Run(y, steps, y', few) && few <= many
    ensures Run(y, steps, y', many)
    decreases |steps|
  {
    if steps != [] { MoreDrainersAllowed(Apply(y, steps[0]), steps[1..], y', few, many); }
  }

  lemma {:induction false} Extend(y0: System, steps: seq<Step>, y: System, e: Step, next: System, most: nat)
    requires Run(y0, steps, y, most)
    requires Enabled(y, e) && Apply(y, e) == next && |next.drain.drainers| <= most
    ensures Run(y0, steps + [e], next, most)
    decreases |steps|
  {
    if steps == [] {
      assert (steps + [e])[1..] == [];
      assert Run(next, [], next, most);
    } else {
      Extend(Apply(y0, steps[0]), steps[1..], y, e, next, most);
      assert (steps + [e])[1..] == steps[1..] + [e];
    }
  }

  /** A service with one submission, at the given point of its life. */
  function OneSave(pending: Option<nat>, permit: bool, notifying: nat, worker: Worker, executed: seq<nat>): map<nat, Service> {
    map[0 := Service(pending, permit, notifying, false, worker, 1, executed, map[], {})]
  }

  /** The states of the counterexample: two drain calls over one save. */
  function Sleepers(n: nat): map<nat, Drainer> {
    if n == 0 then map[]
    else if n == 1 then map[0 := Starting]
    else if n == 2 then map[0 := Pausing]
    else if n == 3 then map[0 := Blocked]
    else if n == 4 then map[0 := Blocked, 1 := Starting]
    else if n == 5 then map[0 := Blocked, 1 := Pausing]
    else if n == 6 then map[0 := Blocked, 1 := Blocked]
    else map[0 := Starting, 1 := Blocked]
  }

  function StateAt(n: nat): System {
    if n == 0 then Start
    else if n == 1 then System(map[0 := Opened], Start.drain)
    else if n <= 8 then System(OneSave(Some(0), false, 1, Waiting, []), Drain(1, false, 0, Sleepers(n - 2)))
    else if n == 9 then System(OneSave(Some(0), true, 0, Waiting, []), Drain(1, false, 0, Sleepers(6)))
    else if n == 10 then System(OneSave(Some(0), false, 0, Looping, []), Drain(1, false, 0, Sleepers(6)))
    else if n == 11 then System(OneSave(None, false, 0, Saving(0), []), Drain(1, false, 0, Sleepers(6)))
    else if n == 12 then System(OneSave(None, false, 0, Looping, [0]), Drain(0, false, 1, Sleepers(6)))
    else System(OneSave(None, false, 0, Looping, [0]), Drain(0, false, 0, Sleepers(7)))
  }

  /** One save, two drain calls asleep over it, and a single notification when it is done. */
  function StepAt(n: nat): Step {
    if n == 0 then Open(0)
    else if n == 1 then Serve(0, Submit)
    else if n == 2 then BeginDrain(0)
    else if n == 3 then ReadCounter(0)
    else if n == 4 then Poll(0)
    else if n == 5 then BeginDrain(1)
    else if n == 6 then ReadCounter(1)
    else if n == 7 then Poll(1)
    else if n == 8 then Serve(0, Notify)
    else if n == 9 then Serve(0, Wake)
    else if n == 10 then Serve(0, Take)
    else if n == 11 then Serve(0, Finish)
    else NotifyOne(Some(0))
  }

  lemma FewDrainers(n: nat)
    ensures |Sleepers(n)| <= 2
  {
    assert Sleepers(n).Keys == {} || Sleepers(n).Keys == {0} || Sleepers(n).Keys == {0, 1};
  }

  lemma DrainerStepAt(n: nat)
    requires 2 <= n <= 7
    ensures Enabled(StateAt(n), StepAt(n)) && Apply(StateAt(n), StepAt(n)) == StateAt(n + 1)
  {
    assert Apply(StateAt(n), StepAt(n)).drain.drainers == Sleepers(n - 1);
  }

  lemma ServiceStepAt(n: nat)
    requires n <= 1 || 8 <= n <= 11
    ensures Enabled(StateAt(n), StepAt(n)) && Apply(StateAt(n), StepAt(n)) == StateAt(n + 1)
  {
    var y := StateAt(n);
    if n > 0 {
      assert [] + [0] == [0];
      assert Do(y.services[0], StepAt(n).action) == StateAt(n + 1).services[0];
      assert Apply(y, StepAt(n)).services == StateAt(n + 1).services;
    }
  }

  lemma LastStepAt()
    ensures Enabled(StateAt(12), StepAt(12)) && Apply(StateAt(12), StepAt(12)) == StateAt(13)
    ensures StuckAtZero(StateAt(13))
  {
    assert Apply(StateAt(12), StepAt(12)).drain.drainers == Sleepers(7);
    assert Sleepers(7)[1].Blocked?;
  }

  lemma EveryStepAt(n: nat)
    requires n <= 12
    ensures Enabled(StateAt(n), StepAt(n)) && Apply(StateAt(n), StepAt(n)) == StateAt(n + 1)
    ensures |StateAt(n + 1).drain.drainers| <= 2
  {
    if n == 12 { LastStepAt(); FewDrainers(7); }
    else if 2 <= n <= 7 { DrainerStepAt(n); FewDrainers(n - 1); }
    else { ServiceStepAt(n); FewDrainers(6); }
  }

  lemma {:induction false} RunTo(n: nat) returns (steps: seq<Step>)
    requires n <= 13
    ensures Run(Start, steps, StateAt(n), 2)
  {
    if n == 0 {
      steps := [];
    } else {
      var before := RunTo(n - 1);
      EveryStepAt(n - 1);
      Extend(Start, before, StateAt(n - 1), StepAt(n - 1), StateAt(n), 2);
      steps := before + [StepAt(n - 1)];
    }
  }

  ghost predicate CanGetStuck(most: nat) {
    exists steps, y :: Run(Start, steps, y, most) && StuckAtZero(y)
  }

  /** A drain call can be left asleep at zero exactly when two of them may be under way together. */
  lemma StuckExactlyWithTwo(most: nat)
    ensures CanGetStuck(most) <==> most >= 2
  {
    if most >= 2 {
      var steps := RunTo(13);
      LastStepAt();
      MoreDrainersAllowed(Start, steps, StateAt(13), 2, most);
      assert Run(Start, steps, StateAt(13), most) && StuckAtZero(StateAt(13));
    } else {
      forall steps, y | Run(Start, steps, y, most) ensures !StuckAtZero(y) {
        MoreDrainersAllowed(Start, steps, y, most, 1);
        OneDrainerNeverStuck(Start, steps, y);
      }
    }
  }

  // ---- the object ------------------------------------------------------------

  /** The shared slot, the flag, the permit and the worker of one service, updated in place. */
  class SaveService {
    var pending: Option<nat>
    var permit: bool
    var notifying: nat
    var closed: bool
    var worker: Worker
    var submitted: nat
    ghost var executed: seq<nat>
    ghost var superseded: map<nat, nat>
    ghost var discarded: set<nat>

    ghost function State(): Service
      reads this
    {
      Service(pending, permit, notifying, closed, worker, submitted, executed, superseded, discarded)
    }

    constructor ()
      ensures State() == Opened
    {
      pending, permit, notifying, closed, worker, submitted := None, false, 0, false, Waiting, 0;
      executed, superseded, discarded := [], map[], {};
    }

    /** Replaces whatever waits in the slot; the replaced request is reported as superseded. While
        somebody else holds the slot's lock the submission is refused and changes nothing. */
    method SubmitSave(contended: bool) returns (replaced: Result<Option<nat>, string>)
      requires !closed
      modifies this
      ensures replaced == if contended then Err("Settings service busy") else Ok(old(pending))
      ensures State() == if contended then old(State()) else Do(old(State()), Submit)
    {
      if contended { return Err("Settings service busy"); }
      replaced := Ok(pending);
      if pending.Some? { superseded := superseded[pending.value := submitted]; }
      pending := Some(submitted);
      submitted := submitted + 1;
      notifying := notifying + 1;
    }

    method NotifyWorker()
      requires notifying > 0
      modifies this
      ensures State() == Do(old(State()), Notify)
    {
      notifying := notifying - 1;
      permit := true;
    }

    method CloseService()
      requires !closed && notifying == 0
      modifies this
      ensures State() == Do(old(State()), Close)
    {
      closed := true;
      notifying := notifying + 1;
    }

    /** What the worker task does next; false when it has nothing to do. */
    method WorkerTurn() returns (moved: bool)
      modifies this
      ensures !moved ==> State() == old(State()) && (worker.Stopped? || (worker.Waiting? && !permit))
      ensures moved ==> exists a :: Can(old(State()), a) && State() == Do(old(State()), a)
                                    && (a.Wake? || a.Take? || a.Finish? || a.Check?)
    {
      moved := true;
      match worker
      case Waiting =>
        if !permit { return false; }
        permit, worker := false, Looping;
        assert Can(old(State()), Wake) && State() == Do(old(State()), Wake);
      case Looping =>
        var request := pending;
        pending := None;
        worker := if request.Some? then Saving(request.value) else Checking;
        assert Can(old(State()), Take) && State() == Do(old(State()), Take);
      case Saving(request) =>
        executed := executed + [request];
        worker := Looping;
        assert Can(old(State()), Finish) && State() == Do(old(State()), Finish);
      case Checking =>
        worker := if closed then Stopped else Waiting;
        assert Can(old(State()), Check) && State() == Do(old(State()), Check);
      case Stopped =>
        return false;
    }
  }
}
