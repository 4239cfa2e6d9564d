/** Ownership of the speech-recognition worker process: the adapter's slot, its list of retired
    workers and the guard of the transcription in progress, between any two await points. */
module SenseVoice {
  import opened Common

  /** `key` names the model and token files a worker was started for. */
  datatype Worker = Worker(id: nat, key: nat)

  /** Where the transcription that holds the slot lock is waiting; each waiting point owns one
      worker through the drop guard. `key` is the model that is wanted; `Reaping` clears a retired
      worker before serving it. */
  datatype Task = Idle | Reaping(worker: Worker, key: nat) | Evicting(worker: Worker, key: nat)
                | Working(worker: Worker, key: nat) | Killing(worker: Worker)

  /** `spawned` and `confirmed` record every process started and every exit seen. */
  datatype Adapter = Adapter(
    slot: Option<Worker>,
    retired: seq<Worker>,
    task: Task,
    busy: bool,
    spawned: set<nat>,
    confirmed: set<nat>)

  const Empty := Adapter(None, [], Idle, false, {}, {})

  /** What the environment answers when a segment runs. `running` is the reused worker's own
      status, `spawn` the id of a new process if it starts. */
  datatype Event =
    | Transcribe(key: nat, running: bool, spawn: Option<nat>)
    | ReapEnds(seen: bool, running: bool, spawn: Option<nat>)
    | EvictEnds(seen: bool, spawn: Option<nat>)
    | WorkEnds(ok: bool)
    | KillEnds(seen: bool)
    | Dropped
    | Maintain(exited: set<nat>, expired: bool)

  predicate Possible(a: Adapter, e: Event) {
    match e
    case Transcribe(_, _, s) => a.task.Idle? && Fresh(a, s)
    case ReapEnds(_, _, s) => a.task.Reaping? && Fresh(a, s)
    case EvictEnds(_, s) => a.task.Evicting? && Fresh(a, s)
    case WorkEnds(_) => a.task.Working?
    case KillEnds(_) => a.task.Killing?
    case Dropped => !a.task.Idle?
    case Maintain(_, _) => true
  }

  predicate Fresh(a: Adapter, spawn: Option<nat>) { spawn.Some? ==> spawn.value !in a.spawned }

  function Spawn(a: Adapter, key: nat, spawn: Option<nat>): Adapter {
    match spawn
    case None => a.(task := Idle, busy := false)
    case Some(id) => a.(task := Working(Worker(id, key), key), busy := true, spawned := a.spawned + {id})
  }

  /** From the head of `reap_cancelled` to the next await. */
  function Proceed(a: Adapter, key: nat, running: bool, spawn: Option<nat>): Adapter {
    if a.retired != [] then
      var n := |a.retired| - 1;
      a.(retired := a.retired[..n], task := Reaping(a.retired[n], key))
    else
      match a.slot
      case None => Spawn(a, key, spawn)
      case Some(w) =>
        if w.key == key && running then a.(slot := None, task := Working(w, key), busy := true)
        else a.(slot := None, task := Evicting(w, key), busy := true)
  }

  /** The guard's drop: the worker is retired, not forgotten. */
  function GuardDropped(a: Adapter): Adapter
    requires !a.task.Idle?
  {
    a.(retired := a.retired + [a.task.worker], task := Idle, busy := false)
  }

  function Confirm(a: Adapter, w: Worker): Adapter { a.(confirmed := a.confirmed + {w.id}) }

  function Remaining(ws: seq<Worker>, exited: set<nat>): seq<Worker> {
    if ws == [] then []
    else
      var front, w := Remaining(ws[..|ws| - 1], exited), ws[|ws| - 1];
      if w.id in exited then front else front + [w]
  }

  function Maintained(a: Adapter, exited: set<nat>, expired: bool): Adapter {
    var kept := Remaining(a.retired, exited);
    var seen := set w | w in a.retired && w.id in exited :: w.id;
    var a1 := a.(retired := kept, confirmed := a.confirmed + seen);
    if a.task.Idle? && a.slot.Some? && expired
    then a1.(slot := None, retired := kept + [a.slot.value])
    else a1
  }

  function Apply(a: Adapter, e: Event): Adapter
    requires Possible(a, e)
  {
    match e
    case Transcribe(key, running, spawn) => Proceed(a, key, running, spawn)
    case ReapEnds(seen, running, spawn) =>
      if seen then Proceed(Confirm(a, a.task.worker), a.task.key, running, spawn) else GuardDropped(a)
    case EvictEnds(seen, spawn) =>
      if seen then Spawn(Confirm(a, a.task.worker), a.task.key, spawn) else GuardDropped(a)
    case WorkEnds(ok) =>
      if ok then a.(slot := Some(a.task.worker), task := Idle, busy := false)
      else a.(task := Killing(a.task.worker))
    case KillEnds(seen) =>
      if seen then Confirm(a, a.task.worker).(task := Idle, busy := false) else GuardDropped(a)
    case Dropped => GuardDropped(a)
    case Maintain(exited, expired) => Maintained(a, exited, expired)
  }

  /** Every owner's workers, one entry per owner. */
  function Owned(a: Adapter): seq<Worker> {
    (if a.slot.Some? then [a.slot.value] else [])
    + a.retired
    + (if a.task.Idle? then [] else [a.task.worker])
  }

  /** Exactly the unconfirmed workers have an owner, each a single one, and there is at most one. */
  ghost predicate Inv(a: Adapter) {
    && |Owned(a)| <= 1
    && (forall id :: id in a.spawned && id !in a.confirmed <==> exists w :: w in Owned(a) && w.id == id)
    && a.confirmed <= a.spawned
    && (a.busy <==> a.task.Evicting? || a.task.Working? || a.task.Killing?)
    && (a.task.Working? ==> a.task.worker.key == a.task.key)
  }

  lemma OwnedCases(a: Adapter)
    requires Inv(a)
    ensures a.retired != [] ==> |a.retired| == 1 && a.slot.None? && a.task.Idle?
    ensures a.slot.Some? ==> a.retired == [] && a.task.Idle?
    ensures !a.task.Idle? ==> a.retired == [] && a.slot.None?
    ensures forall w :: w in Owned(a) ==> w.id in a.spawned && w.id !in a.confirmed
  {}

  /** An adapter is described by its one worker, if it has one. */
  lemma FromOwned(a: Adapter)
    requires |Owned(a)| <= 1
    requires Owned(a) == [] ==> a.spawned == a.confirmed
    requires Owned(a) != [] ==> a.spawned == a.confirmed + {Owned(a)[0].id} && Owned(a)[0].id !in a.confirmed
    requires a.busy <==> a.task.Evicting? || a.task.Working? || a.task.Killing?
    requires a.task.Working? ==> a.task.worker.key == a.task.key
    ensures Inv(a)
  {
    forall id | id in a.spawned && id !in a.confirmed
      ensures exists w :: w in Owned(a) && w.id == id
    {
      assert Owned(a)[0] in Owned(a);
    }
  }

  lemma Described(a: Adapter)
    requires Inv(a)
    ensures Owned(a) == [] ==> a.spawned == a.confirmed
    ensures Owned(a) != [] ==> a.spawned == a.confirmed + {Owned(a)[0].id} && Owned(a)[0].id !in a.confirmed
  {
    OwnedCases(a);
    if Owned(a) != [] { assert Owned(a)[0] in Owned(a); }
  }

  lemma ProceedInv(a: Adapter, key: nat, running: bool, spawn: Option<nat>)
    requires a.retired == [] ==> Fresh(a, spawn)
    requires Owned(a.(task := Idle)) == [] ==> a.spawned == a.confirmed
    requires |Owned(a.(task := Idle))| <= 1
    requires var o := Owned(a.(task := Idle));
             o != [] ==> a.spawned == a.confirmed + {o[0].id} && o[0].id !in a.confirmed
    requires !a.busy
    ensures Inv(Proceed(a, key, running, spawn))
  {
    FromOwned(Proceed(a, key, running, spawn));
  }

  lemma StepInv(a: Adapter, e: Event)
    requires Inv(a) && Possible(a, e)
    ensures Inv(Apply(a, e))
  {
    OwnedCases(a);
    Described(a);
    match e
    case Transcribe(key, running, spawn) => ProceedInv(a, key, running, spawn);
    case ReapEnds(seen, running, spawn) =>
      if seen { ProceedInv(Confirm(a, a.task.worker), a.task.key, running, spawn); } else { FromOwned(Apply(a, e)); }
    case Maintain(exited, expired) => MaintainInv(a, exited, expired);
    case _ => FromOwned(Apply(a, e));
  }

  lemma OneRemaining(w: Worker, exited: set<nat>)
    ensures Remaining([w], exited) == if w.id in exited then [] else [w]
  {
    assert [w][..0] == [];
  }

  lemma MaintainRetired(a: Adapter, exited: set<nat>, expired: bool)
    requires Inv(a) && a.retired != []
    ensures Maintained(a, exited, expired) ==
            if a.retired[0].id in exited then a.(retired := [], confirmed := a.confirmed + {a.retired[0].id}) else a
  {
    OwnedCases(a);
    OneRemaining(a.retired[0], exited);
    assert a.retired == [a.retired[0]];
    assert (set w | w in a.retired && w.id in exited :: w.id)
           == if a.retired[0].id in exited then {a.retired[0].id} else {};
  }

  lemma MaintainSlot(a: Adapter, exited: set<nat>, expired: bool)
    requires Inv(a) && a.retired == []
    ensures Maintained(a, exited, expired) ==
            if a.task.Idle? && a.slot.Some? && expired then a.(slot := None, retired := [a.slot.value]) else a
  {
    assert (set w | w in a.retired && w.id in exited :: w.id) == {};
    assert Remaining([], exited) == [];
  }

  lemma MaintainInv(a: Adapter, exited: set<nat>, expired: bool)
    requires Inv(a)
    ensures Inv(Maintained(a, exited, expired))
  {
    OwnedCases(a);
    Described(a);
    if a.retired != [] { MaintainRetired(a, exited, expired); } else { MaintainSlot(a, exited, expired); }
    FromOwned(Maintained(a, exited, expired));
  }

  ghost predicate Run(a: Adapter, events: seq<Event>, a': Adapter)
    decreases |events|
  {
    if events == [] then a == a'
    else Possible(a, events[0]) && Run(Apply(a, events[0]), events[1..], a')
  }

  lemma {:induction false} RunInv(a: Adapter, events: seq<Event>, a': Adapter)
    requires Inv(a) && Run(a, events, a')
    ensures Inv(a')
    decreases |events|
  {
    if events != [] {
      StepInv(a, events[0]);
      RunInv(Apply(a, events[0]), events[1..], a');
    }
  }

  /** Under cancellation at any await, failed kills and idle maintenance in any order: exactly the
      workers whose exit was not seen are owned, by the slot, the list or the transcription's guard,
      and there is never more than one of them. */
  lemma EveryRun(events: seq<Event>, a: Adapter)
    requires Run(Empty, events, a)
    ensures forall id :: id in a.spawned && id !in a.confirmed <==>
              || (a.slot.Some? && a.slot.value.id == id)
              || (exists w :: w in a.retired && w.id == id)
              || (!a.task.Idle? && a.task.worker.id == id)
    ensures (if a.slot.Some? then 1 else 0) + |a.retired| + (if a.task.Idle? then 0 else 1) <= 1
  {
    FromOwned(Empty);
    RunInv(Empty, events, a);
    OwnedCases(a);
  }

  /** Over every run a transcription is done by a worker of the model it is for. */
  lemma WorkedByItsModel(events: seq<Event>, a: Adapter)
    requires Run(Empty, events, a) && a.task.Working?
    ensures a.task.worker.key == a.task.key
  {
    FromOwned(Empty);
    RunInv(Empty, events, a);
  }

  /** What a transcription does with what it finds, in every reachable state: a retired worker is
      cleared away first; the idle worker is used exactly if it runs and is of its model, and
      evicted otherwise; without any a process is started. */
  lemma ReusedExactly(events: seq<Event>, a: Adapter, key: nat, running: bool, spawn: Option<nat>)
    requires Run(Empty, events, a) && Possible(a, Transcribe(key, running, spawn))
    ensures
      var b := Apply(a, Transcribe(key, running, spawn));
      if a.retired != [] then b.task == Reaping(a.retired[0], key) && b.retired == []
      else
        match a.slot
        case Some(w) =>
          && b.slot.None? && b.busy && b.spawned == a.spawned
          && b.task == if w.key == key && running then Working(w, key) else Evicting(w, key)
        case None =>
          b.task == if spawn.Some? then Working(Worker(spawn.value, key), key) else Idle
  {
    FromOwned(Empty);
    RunInv(Empty, events, a);
    OwnedCases(a);
  }

  /** A worker that did its work is kept for the next transcription; one that failed is killed, and
      retired if its exit is not seen. */
  lemma KeptExactly(events: seq<Event>, a: Adapter, ok: bool, seen: bool)
    requires Run(Empty, events, a)
    ensures a.task.Working? ==>
              Apply(a, WorkEnds(ok)) == if ok then a.(slot := Some(a.task.worker), task := Idle, busy := false)
                                        else a.(task := Killing(a.task.worker))
    ensures a.task.Killing? ==>
              var b := Apply(a, KillEnds(seen));
              && b.task.Idle? && !b.busy && b.slot.None?
              && b.retired == (if seen then [] else [a.task.worker])
              && (a.task.worker.id in b.confirmed <==> seen)
  {
    FromOwned(Empty);
    RunInv(Empty, events, a);
    OwnedCases(a);
  }

  /** Maintenance forgets exactly the retired workers that have exited, and retires exactly an
      expired idle worker. */
  lemma MaintainedExactly(events: seq<Event>, a: Adapter, exited: set<nat>, expired: bool)
    requires Run(Empty, events, a)
    ensures
      var b := Maintained(a, exited, expired);
      && (a.slot.Some? && expired ==> b.slot.None? && b.retired == [a.slot.value])
      && (a.slot.Some? && !expired ==> b == a)
      && (a.retired != [] ==> b.retired == (if a.retired[0].id in exited then [] else a.retired)
                              && (a.retired[0].id in b.confirmed <==> a.retired[0].id in exited))
  {
    FromOwned(Empty);
    RunInv(Empty, events, a);
    OwnedCases(a);
    if a.retired != [] { MaintainRetired(a, exited, expired); } else { MaintainSlot(a, exited, expired); }
  }

  /** A process is started only when the exit of every earlier one has been seen. */
  lemma SpawnedOnlyAfterExit(events: seq<Event>, a: Adapter, e: Event)
    requires Run(Empty, events, a) && Possible(a, e)
    requires Apply(a, e).spawned != a.spawned
    ensures a.spawned <= Apply(a, e).confirmed
  {
    FromOwned(Empty);
    RunInv(Empty, events, a);
    OwnedCases(a);
    Described(a);
  }

  /** Maintenance touches neither the worker a transcription is using nor the flag. */
  lemma MaintenanceSparesActive(a: Adapter, exited: set<nat>, expired: bool)
    requires Inv(a) && !a.task.Idle?
    ensures Maintained(a, exited, expired) == a
  {
    OwnedCases(a);
    assert (set w | w in a.retired && w.id in exited :: w.id) == {};
  }

  // ---- the object ------------------------------------------------------------

  class SenseVoiceAdapter {
    var slot: Option<Worker>
    var retired: seq<Worker>
    var task: Task
    var busy: bool
    ghost var spawned: set<nat>
    ghost var confirmed: set<nat>

    ghost function State(): Adapter
      reads this
    {
      Adapter(slot, retired, task, busy, spawned, confirmed)
    }

    constructor ()
      ensures State() == Empty
    {
      slot, retired, task, busy, spawned, confirmed := None, [], Idle, false, {}, {};
    }

    method StartWorker(key: nat, spawn: Option<nat>)
      modifies this
      ensures State() == Spawn(old(State()), key, spawn)
    {
      if spawn.None? {
        task, busy := Idle, false;
        return;
      }
      task, busy := Working(Worker(spawn.value, key), key), true;
      spawned := spawned + {spawn.value};
    }

    method Advance(key: nat, running: bool, spawn: Option<nat>)
      modifies this
      ensures State() == Proceed(old(State()), key, running, spawn)
    {
      if |retired| > 0 {
        var worker := retired[|retired| - 1];
        retired := retired[..|retired| - 1];
        task := Reaping(worker, key);
        return;
      }
      var existing := slot;
      if existing.None? {
        StartWorker(key, spawn);
        return;
      }
      slot, busy := None, true;
      var reuse := existing.value.key == key && running;
      task := if reuse then Working(existing.value, key) else Evicting(existing.value, key);
    }

    method DropGuard()
      requires !task.Idle?
      modifies this
      ensures State() == GuardDropped(old(State()))
    {
      retired := retired + [task.worker];
      task, busy := Idle, false;
    }

    method Step(e: Event)
      requires Possible(State(), e)
      modifies this
      ensures State() == Apply(old(State()), e)
    {
      match e
      case Transcribe(key, running, spawn) => Advance(key, running, spawn);
      case ReapEnds(seen, running, spawn) =>
        if seen {
          confirmed := confirmed + {task.worker.id};
          Advance(task.key, running, spawn);
        } else {
          DropGuard();
        }
      case EvictEnds(seen, spawn) =>
        if seen {
          confirmed := confirmed + {task.worker.id};
          StartWorker(task.key, spawn);
        } else {
          DropGuard();
        }
      case WorkEnds(ok) =>
        if ok {
          slot := Some(task.worker);
          task, busy := Idle, false;
        } else {
          task := Killing(task.worker);
        }
      case KillEnds(seen) =>
        if seen {
          confirmed := confirmed + {task.worker.id};
          task, busy := Idle, false;
        } else {
          DropGuard();
        }
      case Dropped => DropGuard();
      case Maintain(exited, expired) => UnloadIfIdle(exited, expired);
    }

    method UnloadIfIdle(exited: set<nat>, expired: bool)
      modifies this
      ensures State() == Maintained(old(State()), exited, expired)
    {
      confirmed := confirmed + set w | w in retired && w.id in exited :: w.id;
      var kept := [];
      var i := 0;
      while i < |retired|
        invariant i <= |retired| && kept == Remaining(retired[..i], exited)
      {
        if retired[i].id !in exited { kept := kept + [retired[i]]; }
        i := i + 1;
        assert retired[..i][..i - 1] == retired[..i - 1];
      }
      assert retired[..i] == retired;
      retired := kept;
      if task.Idle? && slot.Some? && expired {
        retired := retired + [slot.value];
        slot := None;
      }
    }
  }
}
