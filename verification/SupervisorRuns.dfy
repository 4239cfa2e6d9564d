/** What holds over every run of the supervisor: who owns the instances, when they are replaced, how
    long a start waits, and how far apart the health verdicts are. */
module SupervisorRuns {
  import opened Common
  import opened AppConfig
  import opened Supervisor

  /** After any sequence of operations: never both a current and a retired instance; restarts are
      blocked exactly at three failures, and then there is no current instance; the current one
      has acknowledged exactly the committed configuration; and an instance that connected is the
      current one, the retired one or was seen to exit, and only one of these, exactly if it ever
      acknowledged a configuration. The others were given up while starting. */
  lemma EveryRun(s: State, clock: nat)
    requires Reachable(s, clock)
    ensures s.client.None? || s.retired.None?
    ensures s.failures <= 3 && (s.blocked <==> s.failures == 3) && (s.blocked ==> s.client.None?)
    ensures forall i :: s.client == Some(i) ==> i in s.acked && s.acked[i] == (s.config, s.revision)
    ensures forall i :: i in s.connected ==>
              (i in s.confirmed || s.client == Some(i) || s.retired == Some(i) <==> i in s.acked)
    ensures forall i :: i in s.confirmed ==> s.client != Some(i) && s.retired != Some(i)
  {
    ReachableInv(s, clock);
  }

  lemma NothingLeftOwned(s: State, exit: Exit, now: nat)
    requires Inv(s) && MayLaunch(Cleared(s, exit, now))
    ensures Cleared(s, exit, now).confirmed == s.acked.Keys
  {
    ClearedInv(s, exit, now);
    assert Owned(Cleared(s, exit, now)) == {};
  }

  lemma NewByConnectOnly(s: State, op: Op)
    requires Apply(s, op).client.Some? && Apply(s, op).client != s.client
    ensures op.Connect? && MayLaunch(Cleared(s, op.exit, op.now))
            && Apply(s, op).confirmed == Cleared(s, op.exit, op.now).confirmed
  {}

  /** A new instance becomes current only when every earlier one that ever acknowledged a
      configuration has been seen to exit; for the others no exit is awaited. */
  lemma ReplacedOnlyAfterExit(s: State, clock: nat, op: Op)
    requires Reachable(s, clock) && Possible(s, clock, op)
    requires Apply(s, op).client.Some? && Apply(s, op).client != s.client
    ensures forall i :: i in s.connected ==> (i in Apply(s, op).confirmed <==> i in s.acked)
  {
    ReachableInv(s, clock);
    NewByConnectOnly(s, op);
    NothingLeftOwned(s, op.exit, op.now);
  }

  /** An instance that connected but did not get through its start is replaced without its exit having been seen. */
  lemma GivenUpIsReplaced(config: Config) returns (ops: seq<Op>, s: State)
    ensures Run(Initial(config, Up(6), 0), 0, ops, s, 9)
    ensures s.client == Some(8) && s.connected == {6, 7, 8} && s.confirmed == {6} && s.retired.None? && 7 !in s.acked
  {
    var a, b := Connect(false, Seen, GivenUp(7), 1, 2), Connect(false, Seen, Up(8), 2, 9);
    var s0 := Initial(config, Up(6), 0);
    var s1 := Apply(s0, a);
    s := Apply(s1, b);
    ops := [a, b];
    assert ops[1..] == [b] && [b][1..] == [];
    assert Run(s, 9, [], s, 9) && Run(s1, 2, [b], s, 9);
  }

  /** Every start attempt that is possible now respects the back-off since the last failure: one,
      two or four seconds for one, two or three failures in a row. */
  ghost predicate BacksOff(s: State, clock: nat) {
    forall op :: Possible(s, clock, op) && Attempts(s, op) ==>
      var cleared := Cleared(s, op.exit, op.now);
      cleared.lastFailure.Some? ==>
        StartTime(cleared, op.now) >= cleared.lastFailure.value + BackOff(cleared.failures)
  }

  lemma AttemptWaits(s: State, clock: nat, op: Op)
    requires Inv(s) && Timed(s, clock) && Possible(s, clock, op) && Attempts(s, op)
    requires FirstStartFailed(s) ==> s.client.Some? || clock > s.lastFailure.value
    ensures
      var cleared := Cleared(s, op.exit, op.now);
      cleared.lastFailure.Some? ==>
        StartTime(cleared, op.now) >= cleared.lastFailure.value + BackOff(cleared.failures)
  {}

  /** Exactly when the back-off is respected, whatever the environment answers: unless the last
      failure is that of the first start, which sets none, no instance is there to fail first, and
      no second has passed since. */
  lemma BacksOffExactly(s: State, clock: nat)
    requires Reachable(s, clock)
    ensures BacksOff(s, clock) <==> !(FirstStartFailed(s) && s.client.None? && clock <= s.lastFailure.value)
  {
    ReachableInv(s, clock);
    if FirstStartFailed(s) && s.client.None? && clock <= s.lastFailure.value {
      var op := Connect(false, Seen, Down, clock, clock);
      assert Possible(s, clock, op) && Attempts(s, op);
    } else {
      forall op | Possible(s, clock, op) && Attempts(s, op)
        ensures
          var cleared := Cleared(s, op.exit, op.now);
          cleared.lastFailure.Some? ==>
            StartTime(cleared, op.now) >= cleared.lastFailure.value + BackOff(cleared.failures)
      {
        AttemptWaits(s, clock, op);
      }
    }
  }

  /** After a failed first start the next one follows in the same second. */
  lemma FirstRetryAtOnce(config: Config, now: nat)
    ensures
      var s, op := Initial(config, Down, now), Connect(false, Seen, Up(7), now, now);
      && Possible(s, now, op) && Attempts(s, op)
      && StartTime(Cleared(s, op.exit, now), now) == s.lastFailure.value < s.lastFailure.value + BackOff(s.failures)
  {}

  // ---- health verdicts ---------------------------------------------------------

  /** Since a verdict of instance `i` at time `t` under revision `r`: that one or a later one is
      still kept, or the instance is gone, or another configuration was committed. */
  ghost predicate KeptSince(s: State, i: nat, r: nat, t: nat) {
    && i in s.connected && r <= s.revision
    && (s.client == Some(i) && s.revision == r ==> s.lastHealth.Some? && s.lastHealth.value.0 >= t)
  }

  lemma KeptStep(s: State, clock: nat, op: Op, i: nat, r: nat, t: nat)
    requires Possible(s, clock, op) && KeptSince(s, i, r, t) && t <= clock
    ensures KeptSince(Apply(s, op), i, r, t)
  {}

  lemma {:induction false} KeptRun(s: State, clock: nat, ops: seq<Op>, s': State, clock': nat, i: nat, r: nat, t: nat)
    requires Run(s, clock, ops, s', clock') && KeptSince(s, i, r, t) && t <= clock
    requires Inv(s) && Timed(s, clock)
    ensures KeptSince(s', i, r, t)
    decreases |ops|
  {
    if ops != [] {
      StepInv(s, clock, ops[0]);
      StepTimed(s, clock, ops[0]);
      KeptStep(s, clock, ops[0], i, r, t);
      KeptRun(Apply(s, ops[0]), EndOf(clock, ops[0]), ops[1..], s', clock', i, r, t);
    }
  }

  /** In every run, two verdicts about the same instance are recorded at least three seconds apart,
      as long as no configuration was committed between them. */
  lemma VerdictsApart(s: State, clock: nat, first: Op, ops: seq<Op>, s': State, clock': nat, second: Op)
    requires Reachable(s, clock) && Possible(s, clock, first) && first.RecordHealth?
    requires s.client == Some(first.instance)
    requires Run(Apply(s, first), first.now, ops, s', clock') && Possible(s', clock', second) && second.RecordHealth?
    requires s'.client == Some(second.instance) && second.instance == first.instance
    ensures s'.revision == s.revision ==> second.now >= first.now + 3
    ensures s'.revision >= s.revision
  {
    ReachableInv(s, clock);
    StepInv(s, clock, first);
    StepTimed(s, clock, first);
    KeptRun(Apply(s, first), first.now, ops, s', clock', first.instance, s.revision, first.now);
  }

  /** A commit forgets the verdict, so that the next one may follow at once. */
  lemma VerdictsAroundCommit(config: Config, other: Config) returns (s: State, t: State)
    ensures var first := RecordHealth(6, true, true, 5, 5);
            && Possible(Initial(config, Up(6), 0), 0, first) && s == Apply(Initial(config, Up(6), 0), first)
            && t == Apply(s, UpdateConfig(other, true, Seen))
            && s.client == t.client == Some(6) && !Possible(s, 5, first) && Possible(t, 5, first)
  {
    s := Apply(Initial(config, Up(6), 0), RecordHealth(6, true, true, 5, 5));
    t := Apply(s, UpdateConfig(other, true, Seen));
  }
}
