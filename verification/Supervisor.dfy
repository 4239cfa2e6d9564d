/** The supervisor of the model daemon: at most one current and one retired instance, a failure
    budget, and a committed configuration. Every operation holds the state lock, so each is one
    atomic action whose environment answers (acknowledgement, exit, start) are parameters. */
module Supervisor {
  import opened Common
  import opened AppConfig

  const MAX_FAILURES: nat := 3

  /** Times are in seconds. `lastHealth` is the time and verdict of the last health check; a start
      is not attempted before `nextStart`. The rest records: which instances connected, which were
      seen to exit, what each one last acknowledged, when a process or a start last failed, and
      whether that went through `RecordFailure`, as every failure but that of the first start does. */
  datatype State = State(
    client: Option<nat>,
    retired: Option<nat>,
    healthFailures: nat,
    healthySince: Option<nat>,
    revision: nat,
    config: Config,
    failures: nat,
    blocked: bool,
    nextStart: nat,
    lastHealth: Option<(nat, bool)>,
    connected: set<nat>,
    confirmed: set<nat>,
    acked: map<nat, (Config, nat)>,
    lastFailure: Option<nat>,
    recorded: bool)

  /** How waiting for an instance's exit ended: seen, not seen in time, or the caller was dropped. */
  datatype Exit = Seen | Unconfirmed | WaitDropped

  /** How a start attempt ended. `Up` connected and was configured; `GivenUp` connected, but did not
      authenticate or acknowledge its configuration in time; `Down` never connected; the caller of
      a dropped start went away, perhaps when an instance had connected. */
  datatype Launch = Up(at: nat) | GivenUp(at: nat) | Down | LaunchDropped(connected: Option<nat>)

  function Connects(launch: Launch): set<nat> {
    match launch
    case Up(i) => {i}
    case GivenUp(i) => {i}
    case Down => {}
    case LaunchDropped(c) => if c.Some? then {c.value} else {}
  }

  /** The state after the first start attempt, which ended at `now`. Its failure is counted but sets
      no back-off. */
  function Initial(config: Config, first: Launch, now: nat): State {
    if first.Up? then
      State(Some(first.at), None, 0, None, 0, config, 0, false, now, None,
            {first.at}, {}, map[first.at := (config, 0)], None, false)
    else
      State(None, None, 0, None, 0, config, 1, false, now, None, Connects(first), {}, map[], Some(now), false)
  }

  datatype Op =
    | UpdateConfig(config: Config, acked: bool, exit: Exit)
    | Connect(alive: bool, exit: Exit, launch: Launch, now: nat, ended: nat)
    | RecordHealth(instance: nat, ok: bool, alive: bool, asked: nat, now: nat)
    | RecordResult(instance: nat, ok: bool, alive: bool, now: nat)
    | Retry

  /** One second, doubled twice. */
  function BackOff(failures: nat): nat { if failures <= 1 then 1 else if failures == 2 then 2 else 4 }

  function RecordFailure(s: State, now: nat): State {
    var n := s.failures + 1;
    s.(failures := n, blocked := s.blocked || n >= MAX_FAILURES, nextStart := now + BackOff(n),
       lastFailure := Some(now), recorded := true)
  }

  function Retire(s: State): State { s.(retired := s.client, client := None) }

  function Commit(s: State, config: Config): State {
    s.(config := config, revision := s.revision + 1, blocked := false, failures := 0,
       healthFailures := 0, healthySince := None, lastHealth := None)
  }

  function Update(s: State, config: Config, acked: bool, exit: Exit): State {
    match s.client
    case None => Commit(s, config)
    case Some(i) =>
      if acked then Commit(s.(acked := s.acked[i := (config, s.revision + 1)]), config)
      else if exit.Seen? then s.(client := None, lastHealth := None, confirmed := s.confirmed + {i})
      else Retire(s).(lastHealth := None)
  }

  /** A start attempt waits for its time. */
  function StartTime(s: State, now: nat): nat { if now < s.nextStart then s.nextStart else now }

  /** An instance that is given up is dropped with its process told to die, and not waited for. */
  function LaunchNext(s: State, launch: Launch, ended: nat): State {
    var s' := s.(connected := s.connected + Connects(launch));
    match launch
    case Up(i) =>
      s'.(client := Some(i), healthFailures := 0, healthySince := None, lastHealth := None,
          acked := s.acked[i := (s.config, s.revision)])
    case LaunchDropped(_) => s'
    case _ => RecordFailure(s', ended)
  }

  /** A dead instance is retired, and a retired one forgotten once its exit is seen. */
  function Cleared(s: State, exit: Exit, now: nat): State {
    var s1 := if s.client.Some? then RecordFailure(Retire(s), now) else s;
    if s1.retired.Some? && exit.Seen?
    then s1.(retired := None, confirmed := s1.confirmed + {s1.retired.value})
    else s1
  }

  predicate MayLaunch(s: State) { s.retired.None? && !s.blocked }

  function Connected(s: State, alive: bool, exit: Exit, launch: Launch, now: nat, ended: nat): State {
    if s.client.Some? && alive then s
    else
      var cleared := Cleared(s, exit, now);
      if MayLaunch(cleared) then LaunchNext(cleared, launch, ended) else cleared
  }

  /** A health check within three seconds of the last one repeats its verdict. */
  function CachedHealth(s: State, now: nat): Option<bool> {
    if s.lastHealth.Some? && now < s.lastHealth.value.0 + 3 then Some(s.lastHealth.value.1) else None
  }

  function Health(s: State, instance: nat, ok: bool, alive: bool, now: nat): State {
    if s.client != Some(instance) then s
    else if ok then
      var since := if s.healthySince.Some? then s.healthySince.value else now;
      s.(lastHealth := Some((now, true)), healthFailures := 0, healthySince := Some(since),
         failures := if now >= since + 60 then 0 else s.failures)
    else
      var s1 := s.(lastHealth := Some((now, false)), healthySince := None, healthFailures := s.healthFailures + 1);
      if s1.healthFailures >= 3 || !alive then RecordFailure(Retire(s1), now) else s1
  }

  function ResultOf(s: State, instance: nat, ok: bool, alive: bool, now: nat): State {
    if s.client == Some(instance) && !ok && !alive then RecordFailure(Retire(s), now) else s
  }

  function Retried(s: State): State {
    if s.blocked then s.(client := None, failures := 0, blocked := false) else s
  }

  /** Whether the operation comes to a start attempt. */
  predicate Attempts(s: State, op: Op) {
    && op.Connect? && !(s.client.Some? && op.alive) && MayLaunch(Cleared(s, op.exit, op.now))
    && op.launch != LaunchDropped(None)
  }

  /** What can happen from time `clock` on. New instances get new ids, a start attempt waits for its
      time, and a caller of `update_config` is not dropped half-way. A health check is made if the
      last verdict was not recent when it was asked for; one check at a time is under way. */
  predicate Possible(s: State, clock: nat, op: Op) {
    match op
    case Connect(_, exit, launch, now, ended) =>
      && clock <= now <= ended && Connects(launch) !! s.connected
      && (Attempts(s, op) ==> StartTime(Cleared(s, exit, now), now) <= ended)
    case RecordHealth(_, _, _, asked, now) => asked <= now && clock <= now && CachedHealth(s, asked).None?
    case RecordResult(_, _, _, now) => clock <= now
    case UpdateConfig(_, _, exit) => !exit.WaitDropped?
    case Retry => true
  }

  function EndOf(clock: nat, op: Op): nat {
    match op
    case Connect(_, _, _, _, ended) => ended
    case RecordHealth(_, _, _, _, now) => now
    case RecordResult(_, _, _, now) => now
    case _ => clock
  }

  function Apply(s: State, op: Op): State {
    match op
    case UpdateConfig(config, acked, exit) => Update(s, config, acked, exit)
    case Connect(alive, exit, launch, now, ended) => Connected(s, alive, exit, launch, now, ended)
    case RecordHealth(i, ok, alive, _, now) => Health(s, i, ok, alive, now)
    case RecordResult(i, ok, alive, now) => ResultOf(s, i, ok, alive, now)
    case Retry => Retried(s)
  }

  function Owned(s: State): set<nat> {
    (if s.client.Some? then {s.client.value} else {}) + (if s.retired.Some? then {s.retired.value} else {})
  }

  /** The last failure is that of the first start, which set no back-off. */
  predicate FirstStartFailed(s: State) { s.lastFailure.Some? && !s.recorded }

  ghost predicate Inv(s: State) {
    && !(s.client.Some? && s.retired.Some?)
    && s.failures <= MAX_FAILURES
    && (s.blocked <==> s.failures == MAX_FAILURES)
    && (s.blocked ==> s.client.None?)
    && (s.client.Some? ==> s.healthFailures < 3)
    && s.acked.Keys == s.confirmed + Owned(s)
    && s.confirmed !! Owned(s)
    && s.acked.Keys <= s.connected
    && (s.client.Some? ==>
          s.client.value in s.acked && s.acked[s.client.value] == (s.config, s.revision))
  }

  /** The times fit together. */
  ghost predicate Timed(s: State, clock: nat) {
    && (s.lastFailure.Some? ==> s.lastFailure.value <= clock)
    && (s.recorded ==>
          && s.lastFailure.Some? && s.nextStart >= s.lastFailure.value + 1
          && (s.failures > 0 ==> s.nextStart == s.lastFailure.value + BackOff(s.failures)))
    && (FirstStartFailed(s) ==> s.nextStart == s.lastFailure.value && s.failures <= 1)
    && (s.lastFailure.None? ==> s.failures == 0)
    && (s.lastHealth.Some? ==> s.lastHealth.value.0 <= clock)
  }

  lemma InitialInv(config: Config, first: Launch, now: nat)
    ensures Inv(Initial(config, first, now)) && Timed(Initial(config, first, now), now)
  {}

  lemma FailureInv(s: State, now: nat)
    requires Inv(s) && s.client.Some?
    ensures Inv(RecordFailure(Retire(s), now))
  {}

  lemma ClearedInv(s: State, exit: Exit, now: nat)
    requires Inv(s)
    ensures Inv(Cleared(s, exit, now)) && Cleared(s, exit, now).client.None?
    ensures Cleared(s, exit, now).connected == s.connected && Cleared(s, exit, now).acked == s.acked
  {
    if s.client.Some? { FailureInv(s, now); }
  }

  lemma LaunchInv(s: State, launch: Launch, ended: nat)
    requires Inv(s) && s.client.None? && MayLaunch(s) && Connects(launch) !! s.connected
    ensures Inv(LaunchNext(s, launch, ended))
  {}

  lemma ConnectInv(s: State, alive: bool, exit: Exit, launch: Launch, now: nat, ended: nat)
    requires Inv(s) && Connects(launch) !! s.connected
    ensures Inv(Connected(s, alive, exit, launch, now, ended))
  {
    ClearedInv(s, exit, now);
    if MayLaunch(Cleared(s, exit, now)) { LaunchInv(Cleared(s, exit, now), launch, ended); }
  }

  lemma HealthInv(s: State, i: nat, ok: bool, alive: bool, now: nat)
    requires Inv(s)
    ensures Inv(Health(s, i, ok, alive, now)) && Inv(ResultOf(s, i, ok, alive, now))
  {}

  lemma StepInv(s: State, clock: nat, op: Op)
    requires Inv(s) && Possible(s, clock, op)
    ensures Inv(Apply(s, op))
  {
    match op
    case Connect(alive, exit, launch, now, ended) => ConnectInv(s, alive, exit, launch, now, ended);
    case RecordHealth(i, ok, alive, _, now) => HealthInv(s, i, ok, alive, now);
    case RecordResult(i, ok, alive, now) => HealthInv(s, i, ok, alive, now);
    case _ =>
  }

  lemma FailureTimed(s: State, clock: nat, now: nat)
    requires Timed(s, clock) && clock <= now
    ensures Timed(RecordFailure(s, now), now)
  {}

  lemma ClearedTimed(s: State, clock: nat, exit: Exit, now: nat)
    requires Timed(s, clock) && clock <= now
    ensures Timed(Cleared(s, exit, now), now)
  {
    if s.client.Some? { FailureTimed(Retire(s), clock, now); }
  }

  lemma LaunchTimed(s: State, launch: Launch, now: nat, ended: nat)
    requires Timed(s, now) && now <= ended
    ensures Timed(s, ended) && Timed(LaunchNext(s, launch, ended), ended)
  {
    FailureTimed(s.(connected := s.connected + Connects(launch)), now, ended);
  }

  lemma ConnectTimed(s: State, clock: nat, alive: bool, exit: Exit, launch: Launch, now: nat, ended: nat)
    requires Timed(s, clock) && clock <= now <= ended
    ensures Timed(Connected(s, alive, exit, launch, now, ended), ended)
  {
    ClearedTimed(s, clock, exit, now);
    LaunchTimed(Cleared(s, exit, now), launch, now, ended);
    assert Timed(s, ended);
  }

  lemma HealthTimed(s: State, clock: nat, i: nat, ok: bool, alive: bool, now: nat)
    requires Timed(s, clock) && clock <= now
    ensures Timed(Health(s, i, ok, alive, now), now) && Timed(ResultOf(s, i, ok, alive, now), now)
  {}

  lemma StepTimed(s: State, clock: nat, op: Op)
    requires Inv(s) && Timed(s, clock) && Possible(s, clock, op)
    ensures Timed(Apply(s, op), EndOf(clock, op)) && clock <= EndOf(clock, op)
  {
    match op
    case Connect(alive, exit, launch, now, ended) => ConnectTimed(s, clock, alive, exit, launch, now, ended);
    case RecordHealth(i, ok, alive, _, now) => HealthTimed(s, clock, i, ok, alive, now);
    case RecordResult(i, ok, alive, now) => HealthTimed(s, clock, i, ok, alive, now);
    case _ =>
  }

  /** A run of operations from time `clock` to time `clock'`. */
  ghost predicate Run(s: State, clock: nat, ops: seq<Op>, s': State, clock': nat)
    decreases |ops|
  {
    if ops == [] then s == s' && clock == clock'
    else Possible(s, clock, ops[0]) && Run(Apply(s, ops[0]), EndOf(clock, ops[0]), ops[1..], s', clock')
  }

  lemma {:induction false} RunInv(s: State, clock: nat, ops: seq<Op>, s': State, clock': nat)
    requires Inv(s) && Timed(s, clock) && Run(s, clock, ops, s', clock')
    ensures Inv(s') && Timed(s', clock')
    decreases |ops|
  {
    if ops != [] {
      StepInv(s, clock, ops[0]);
      StepTimed(s, clock, ops[0]);
      RunInv(Apply(s, ops[0]), EndOf(clock, ops[0]), ops[1..], s', clock');
    }
  }

  /** Some run leads from the first start attempt to `s` at time `clock`. */
  ghost predicate Reachable(s: State, clock: nat) {
    exists config, first, now, ops :: Run(Initial(config, first, now), now, ops, s, clock)
  }

  lemma ReachableInv(s: State, clock: nat)
    requires Reachable(s, clock)
    ensures Inv(s) && Timed(s, clock)
  {
    var config, first, now, ops :| Run(Initial(config, first, now), now, ops, s, clock);
    InitialInv(config, first, now);
    RunInv(Initial(config, first, now), now, ops, s, clock);
  }

  // ---- the object ------------------------------------------------------------

  class SupervisedClient {
    var client: Option<nat>
    var retired: Option<nat>
    var healthFailures: nat
    var healthySince: Option<nat>
    var revision: nat
    var config: Config
    var consecutiveFailures: nat
    var restartBlocked: bool
    ghost var connected: set<nat>
    ghost var confirmed: set<nat>
    var nextStart: nat
    var lastHealth: Option<(nat, bool)>
    ghost var acked: map<nat, (Config, nat)>
    ghost var lastFailure: Option<nat>
    ghost var recorded: bool

    ghost function Now(): State
      reads this
    {
      State(client, retired, healthFailures, healthySince, revision, config,
            consecutiveFailures, restartBlocked, nextStart, lastHealth,
            connected, confirmed, acked, lastFailure, recorded)
    }

    constructor (config: Config, first: Launch, now: nat)
      ensures Now() == Initial(config, first, now)
    {
      this.config, revision, retired := config, 0, None;
      healthFailures, healthySince, restartBlocked := 0, None, false;
      client := if first.Up? then Some(first.at) else None;
      consecutiveFailures := if first.Up? then 0 else 1;
      nextStart, lastHealth := now, None;
      connected, confirmed := Connects(first), {};
      acked := if first.Up? then map[first.at := (config, 0)] else map[];
      lastFailure, recorded := if first.Up? then None else Some(now), false;
    }

    method RecordProcessFailure(now: nat)
      modifies this`consecutiveFailures, this`restartBlocked, this`nextStart, this`lastFailure,
               this`recorded
      ensures Now() == RecordFailure(old(Now()), now)
    {
      consecutiveFailures := consecutiveFailures + 1;
      nextStart, lastFailure, recorded := now + BackOff(consecutiveFailures), Some(now), true;
      if consecutiveFailures >= MAX_FAILURES { restartBlocked := true; }
    }

    method UpdateConfigOn(newConfig: Config, ack: bool, exit: Exit) returns (ok: bool)
      modifies this
      ensures Now() == Update(old(Now()), newConfig, ack, exit)
      ensures ok <==> old(client).None? || ack
    {
      if client.Some? && !ack {
        GiveUp(exit);
        return false;
      }
      if client.Some? { acked := acked[client.value := (newConfig, revision + 1)]; }
      CommitConfig(newConfig);
      return true;
    }

    /** Without an acknowledgement the instance's configuration is unknown: it is retired. */
    method GiveUp(exit: Exit)
      requires client.Some?
      modifies this`client, this`retired, this`lastHealth, this`confirmed
      ensures Now() == Update(old(Now()), config, false, exit)
    {
      var i := client.value;
      client, lastHealth := None, None;
      if exit.Seen? { confirmed := confirmed + {i}; } else { retired := Some(i); }
    }

    method CommitConfig(newConfig: Config)
      modifies this`config, this`revision, this`restartBlocked, this`consecutiveFailures,
               this`healthFailures, this`healthySince, this`lastHealth
      ensures Now() == Commit(old(Now()), newConfig)
    {
      config, revision := newConfig, revision + 1;
      restartBlocked, consecutiveFailures := false, 0;
      healthFailures, healthySince, lastHealth := 0, None, None;
    }

    /** `context` is the instance a request was bound to when it began. */
    method Connection(context: Option<nat>, alive: bool, exit: Exit, launch: Launch, now: nat, ended: nat)
      returns (r: Option<nat>)
      modifies this
      ensures Now() == if context.Some? then old(Now()) else Connected(old(Now()), alive, exit, launch, now, ended)
      ensures context.Some? ==> r == context
      ensures context.None? && old(client).Some? && alive ==> r == old(client)
      ensures context.None? && !(old(client).Some? && alive) ==>
                r == if MayLaunch(Cleared(old(Now()), exit, now)) && launch.Up? then Some(launch.at) else None
    {
      if context.Some? { return context; }
      if client.Some? && alive { return client; }
      r := Replace(exit, launch, now, ended);
    }

    /** Retires a dead instance, confirms its exit and starts the next one. */
    method Replace(exit: Exit, launch: Launch, now: nat, ended: nat) returns (r: Option<nat>)
      modifies this
      ensures Now() == Connected(old(Now()), false, exit, launch, now, ended)
      ensures r == if MayLaunch(Cleared(old(Now()), exit, now)) && launch.Up? then Some(launch.at) else None
    {
      if client.Some? {
        retired, client := client, None;
        RecordProcessFailure(now);
      }
      if retired.Some? {
        if !exit.Seen? { return None; }
        confirmed := confirmed + {retired.value};
        retired := None;
      }
      if restartBlocked { return None; }
      r := Launched(launch, ended);
    }

    /** What a start attempt leaves behind. */
    method Launched(launch: Launch, ended: nat) returns (r: Option<nat>)
      modifies this
      ensures Now() == LaunchNext(old(Now()), launch, ended)
      ensures r == if launch.Up? then Some(launch.at) else None
    {
      connected := connected + Connects(launch);
      match launch
      case Up(i) => TakeOver(i); return client;
      case GivenUp(_) => RecordProcessFailure(ended); return None;
      case Down => RecordProcessFailure(ended); return None;
      case LaunchDropped(_) => return None;
    }

    method TakeOver(i: nat)
      modifies this`client, this`healthFailures, this`healthySince, this`lastHealth, this`acked
      ensures Now() == old(Now()).(client := Some(i), healthFailures := 0, healthySince := None,
                                   lastHealth := None, acked := old(acked)[i := (config, revision)])
    {
      client, healthFailures, healthySince, lastHealth := Some(i), 0, None, None;
      acked := acked[i := (config, revision)];
    }

    /** The verdict of the last check, while it is recent. */
    method RecentHealth(now: nat) returns (r: Option<bool>)
      ensures r == CachedHealth(Now(), now)
    {
      r := None;
      if lastHealth.Some? && now < lastHealth.value.0 + 3 { r := Some(lastHealth.value.1); }
    }

    method RecordHealthOf(instance: nat, ok: bool, alive: bool, now: nat) returns (terminate: bool)
      modifies this
      ensures Now() == Health(old(Now()), instance, ok, alive, now)
      ensures terminate <==> old(client) == Some(instance) && client.None?
      ensures terminate ==> retired == Some(instance)
    {
      if client != Some(instance) { return false; }
      lastHealth := Some((now, ok));
      if ok {
        healthFailures := 0;
        if healthySince.None? { healthySince := Some(now); }
        if now >= healthySince.value + 60 { consecutiveFailures := 0; }
        return false;
      }
      healthySince := None;
      healthFailures := healthFailures + 1;
      if healthFailures >= 3 || !alive {
        retired, client := client, None;
        RecordProcessFailure(now);
        return true;
      }
      return false;
    }

    method RecordResultOf(instance: nat, ok: bool, alive: bool, now: nat)
      modifies this
      ensures Now() == ResultOf(old(Now()), instance, ok, alive, now)
    {
      if client != Some(instance) { return; }
      if !ok && !alive {
        retired, client := client, None;
        RecordProcessFailure(now);
      }
    }

    method RetryAfterUserRequest()
      modifies this
      ensures Now() == Retried(old(Now()))
    {
      if restartBlocked {
        client, consecutiveFailures, restartBlocked := None, 0, false;
      }
    }
  }
}
