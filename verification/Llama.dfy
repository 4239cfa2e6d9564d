/** Ownership of the hot llama.cpp worker: it stays in the adapter's slot from its spawn until
    its exit is seen, while requests, cancellations and maintenance come and go. */
module Llama {
  import opened Common

  datatype Worker = Worker(id: nat, key: nat, active: bool, terminated: bool)

  /** Where the one request admitted by the GPU gate is waiting: for the old worker to exit, for
      the new one to become ready (both with the slot lock held), or for an answer. `key` is the
      model that the request is for. */
  datatype Task = Idle | Stopping(key: nat) | Starting(key: nat) | Requesting(key: nat)

  datatype Adapter = Adapter(
    slot: Option<Worker>,
    task: Task,
    spawned: set<nat>,
    confirmed: set<nat>)

  const Empty := Adapter(None, Idle, {}, {})

  datatype Event =
    | Request(key: nat, exited: bool, spawn: Option<nat>)
    | StopEnds(seen: bool, spawn: Option<nat>)
    | StartEnds(ready: bool)
    | RequestEnds(ok: bool)
    | Dropped
    | Maintain(expired: bool)

  predicate Fresh(a: Adapter, spawn: Option<nat>) { spawn.Some? ==> spawn.value !in a.spawned }

  predicate Possible(a: Adapter, e: Event) {
    match e
    case Request(_, _, s) => a.task.Idle? && Fresh(a, s)
    case StopEnds(_, s) => a.task.Stopping? && a.slot.Some? && Fresh(a, s)
    case StartEnds(_) => a.task.Starting? && a.slot.Some?
    case RequestEnds(_) => a.task.Requesting? && a.slot.Some?
    case Dropped => !a.task.Idle? && a.slot.Some?
    case Maintain(_) => true
  }

  predicate CanReuse(w: Worker, key: nat, exited: bool) { w.key == key && !w.terminated && !exited }

  /** The new process is registered in the slot, with its startup guard, before the first wait. */
  function Start(a: Adapter, key: nat, spawn: Option<nat>): Adapter {
    match spawn
    case None => a.(slot := None, task := Idle)
    case Some(id) => a.(slot := Some(Worker(id, key, true, false)), task := Starting(key), spawned := a.spawned + {id})
  }

  function Begin(a: Adapter, key: nat, exited: bool, spawn: Option<nat>): Adapter {
    match a.slot
    case None => Start(a, key, spawn)
    case Some(w) =>
      if CanReuse(w, key, exited) then a.(slot := Some(w.(active := true)), task := Requesting(key))
      else a.(slot := Some(w.(terminated := true)), task := Stopping(key))
  }

  /** An armed guard goes away: the worker is told to stop and stays in the slot. */
  function GuardDropped(a: Adapter): Adapter
    requires a.slot.Some?
  {
    a.(slot := Some(a.slot.value.(active := false, terminated := true)), task := Idle)
  }

  predicate SlotLocked(t: Task) { t.Stopping? || t.Starting? }

  function Maintained(a: Adapter, expired: bool): Adapter {
    if !SlotLocked(a.task) && a.slot.Some? && !a.slot.value.active && expired
    then a.(slot := Some(a.slot.value.(terminated := true)))
    else a
  }

  function Apply(a: Adapter, e: Event): Adapter
    requires Possible(a, e)
  {
    match e
    case Request(key, exited, spawn) => Begin(a, key, exited, spawn)
    case StopEnds(seen, spawn) =>
      if seen then Start(a.(confirmed := a.confirmed + {a.slot.value.id}), a.task.key, spawn) else a.(task := Idle)
    case StartEnds(ready) => if ready then a.(task := Requesting(a.task.key)) else GuardDropped(a)
    case RequestEnds(ok) =>
      if ok then a.(slot := Some(a.slot.value.(active := false)), task := Idle) else GuardDropped(a)
    case Dropped => if a.task.Stopping? then a.(task := Idle) else GuardDropped(a)
    case Maintain(expired) => Maintained(a, expired)
  }

  function Owned(a: Adapter): set<nat> { if a.slot.Some? then {a.slot.value.id} else {} }

  /** The slot owns the only worker whose exit was not seen; a worker in use is marked active
      and has not been told to stop; one being stopped has been told to. */
  ghost predicate Inv(a: Adapter) {
    && a.spawned == a.confirmed + Owned(a)
    && a.confirmed !! Owned(a)
    && (!a.task.Idle? ==> a.slot.Some?)
    && (a.slot.Some? ==> (a.slot.value.active <==> a.task.Starting? || a.task.Requesting?))
    && (a.slot.Some? && a.slot.value.active ==> !a.slot.value.terminated)
    && (a.task.Stopping? ==> a.slot.value.terminated)
    && (a.task.Starting? || a.task.Requesting? ==> a.slot.value.key == a.task.key)
  }

  lemma StepInv(a: Adapter, e: Event)
    requires Inv(a) && Possible(a, e)
    ensures Inv(Apply(a, e))
  {}

  ghost predicate Run(a: Adapter, events: seq<Event>, a': Adapter)
    decreases |events|
  {
    if events == [] then a == a'
    else Possible(a, events[0]) && Run(Apply(a, events[0]), events[1..], a')
  }

  lemma {:induction false} RunInv(a: Adapter, events: seq<Event>, a': Adapter)
    requires Inv(a) && Run(a, events, a')
    ensures Inv(a')
    decreases |events|
  {
    if events != [] {
      StepInv(a, events[0]);
      RunInv(Apply(a, events[0]), events[1..], a');
    }
  }

  /** Over every run, with failed stops and starts and cancellation at any await: the workers not
      seen to exit are exactly the one in the slot, and a worker in use is not told to stop. */
  lemma EveryRun(events: seq<Event>, a: Adapter)
    requires Run(Empty, events, a)
    ensures forall id :: id in a.spawned && id !in a.confirmed <==> a.slot.Some? && a.slot.value.id == id
    ensures a.confirmed <= a.spawned
    ensures a.task.Starting? || a.task.Requesting? ==> a.slot.Some? && a.slot.value.active && !a.slot.value.terminated
  {
    RunInv(Empty, events, a);
  }

  /** A replacement is spawned only after the exit of every earlier worker has been seen, and
      maintenance never stops a worker that a startup or a request is using. */
  lemma ReplacedOnlyAfterExit(events: seq<Event>, a: Adapter, e: Event)
    requires Run(Empty, events, a) && Possible(a, e)
    ensures Apply(a, e).spawned != a.spawned ==> a.spawned <= Apply(a, e).confirmed
    ensures e.Maintain? && !a.task.Idle? ==> Apply(a, e) == a
  {
    RunInv(Empty, events, a);
  }

  /** Over every run a request is answered by a worker of the model it is for, which was not told to stop. */
  lemma AnsweredByItsModel(events: seq<Event>, a: Adapter)
    requires Run(Empty, events, a) && a.task.Requesting?
    ensures a.slot.Some? && a.slot.value.key == a.task.key && !a.slot.value.terminated
  {
    RunInv(Empty, events, a);
  }

  /** What a request does with the worker it finds, in every reachable state: it uses it at once
      exactly if it is of its model, runs, and was not told to stop; otherwise it stops it first.
      Without a worker it starts one. */
  lemma ReusedExactly(events: seq<Event>, a: Adapter, key: nat, exited: bool, spawn: Option<nat>)
    requires Run(Empty, events, a) && Possible(a, Request(key, exited, spawn))
    ensures
      var b := Apply(a, Request(key, exited, spawn));
      match a.slot
      case None =>
        if spawn.Some? then b.task == Starting(key) && b.slot == Some(Worker(spawn.value, key, true, false)) else b == a
      case Some(w) =>
        && b.slot.Some? && b.slot.value.id == w.id && b.spawned == a.spawned
        && (b.task == Requesting(key) <==> w.key == key && !w.terminated && !exited)
        && (b.task != Requesting(key) ==> b.task == Stopping(key) && b.slot.value.terminated)
  {
    RunInv(Empty, events, a);
  }

  /** A worker that answered stays, unused and not told to stop, until a request needs it or it expires. */
  lemma KeptHot(events: seq<Event>, a: Adapter, ok: bool)
    requires Run(Empty, events, a) && Possible(a, RequestEnds(ok))
    ensures
      var b := Apply(a, RequestEnds(ok));
      && b.task.Idle? && b.slot.Some? && b.slot.value.id == a.slot.value.id && b.slot.value.key == a.task.key
      && !b.slot.value.active && (b.slot.value.terminated <==> !ok)
  {
    RunInv(Empty, events, a);
  }

  /** Maintenance tells exactly an expired worker to stop that nobody uses or waits for. */
  lemma ExpiredExactly(events: seq<Event>, a: Adapter, expired: bool)
    requires Run(Empty, events, a)
    ensures
      var b := Apply(a, Maintain(expired));
      if a.task.Idle? && expired && a.slot.Some? then b == a.(slot := Some(a.slot.value.(terminated := true))) else b == a
  {
    RunInv(Empty, events, a);
  }

  /** A start that becomes ready serves its request, one that does not is told to stop. */
  lemma StartedExactly(events: seq<Event>, a: Adapter, ready: bool)
    requires Run(Empty, events, a) && Possible(a, StartEnds(ready))
    ensures
      var b := Apply(a, StartEnds(ready));
      if ready then b.task == Requesting(a.task.key) && b.slot == a.slot
      else b.task.Idle? && b.slot.Some? && b.slot.value.id == a.slot.value.id && b.slot.value.terminated
  {}

  // ---- the object ------------------------------------------------------------

  class LlamaAdapter {
    var slot: Option<Worker>
    var task: Task
    ghost var spawned: set<nat>
    ghost var confirmed: set<nat>

    ghost function State(): Adapter
      reads this
    {
      Adapter(slot, task, spawned, confirmed)
    }

    constructor ()
      ensures State() == Empty
    {
      slot, task, spawned, confirmed := None, Idle, {}, {};
    }

    method Terminate()
      requires slot.Some?
      modifies this`slot
      ensures slot == Some(old(slot).value.(terminated := true))
    {
      slot := Some(slot.value.(terminated := true));
    }

    method StartWorker(key: nat, spawn: Option<nat>)
      modifies this
      ensures State() == Start(old(State()), key, spawn)
    {
      slot := None;
      if spawn.None? {
        task := Idle;
        return;
      }
      spawned := spawned + {spawn.value};
      slot := Some(Worker(spawn.value, key, true, false));
      task := Starting(key);
    }

    method EnsureWorker(key: nat, exited: bool, spawn: Option<nat>)
      modifies this
      ensures State() == Begin(old(State()), key, exited, spawn)
    {
      if slot.None? {
        StartWorker(key, spawn);
        return;
      }
      var w := slot.value;
      if w.key == key && !w.terminated && !exited {
        slot := Some(w.(active := true));
        task := Requesting(key);
        return;
      }
      Terminate();
      task := Stopping(key);
    }

    method DropGuard()
      requires slot.Some?
      modifies this
      ensures State() == GuardDropped(old(State()))
    {
      slot := Some(slot.value.(active := false));
      Terminate();
      task := Idle;
    }

    method Step(e: Event)
      requires Possible(State(), e)
      modifies this
      ensures State() == Apply(old(State()), e)
    {
      match e
      case Request(key, exited, spawn) => EnsureWorker(key, exited, spawn);
      case StopEnds(seen, spawn) =>
        if seen {
          confirmed := confirmed + {slot.value.id};
          StartWorker(task.key, spawn);
        } else {
          task := Idle;
        }
      case StartEnds(ready) => if ready { task := Requesting(task.key); } else { DropGuard(); }
      case RequestEnds(ok) =>
        if ok {
          slot := Some(slot.value.(active := false));
          task := Idle;
        } else {
          DropGuard();
        }
      case Dropped => if task.Stopping? { task := Idle; } else { DropGuard(); }
      case Maintain(expired) =>
        if !SlotLocked(task) && slot.Some? && !slot.value.active && expired { Terminate(); }
    }
  }
}
