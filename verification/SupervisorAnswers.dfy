/** What the supervisor gives to those who ask for the daemon, and when it gives an instance up. */
module SupervisorAnswers {
  import opened Common
  import opened AppConfig
  import opened Supervisor

  /** Whoever asks for the connection gets the current instance while it lives, and otherwise a new
      one exactly if the last one's exit was seen, restarts are not blocked and the start succeeds.
      A dead instance counts as a failure, and so does a start that ends without success, but not
      one whose caller went away. */
  lemma ConnectGives(s: State, clock: nat, op: Op)
    requires Reachable(s, clock) && Possible(s, clock, op) && op.Connect?
    ensures
      var t := Apply(s, op);
      if s.client.Some? && op.alive then t == s
      else
        var failures := s.failures + if s.client.Some? then 1 else 0;
        var starts := (s.client.Some? || s.retired.Some? ==> op.exit.Seen?) && failures < 3;
        && t.client == (if starts && op.launch.Up? then Some(op.launch.at) else None)
        && t.failures == failures + (if starts && (op.launch.Down? || op.launch.GivenUp?) then 1 else 0)
        && t.connected == s.connected + (if starts then Connects(op.launch) else {})
  {
    ReachableInv(s, clock);
    if !(s.client.Some? && op.alive) { ClearedExactly(s, op.exit, op.now); }
  }

  /** A dead instance counts; what is left allows a start exactly if no exit is awaited and fewer
      than three failures were counted. */
  lemma ClearedExactly(s: State, exit: Exit, now: nat)
    requires Inv(s)
    ensures
      var t, failures := Cleared(s, exit, now), s.failures + if s.client.Some? then 1 else 0;
      && t.client.None? && t.failures == failures && t.connected == s.connected
      && (MayLaunch(t) <==> (s.client.Some? || s.retired.Some? ==> exit.Seen?) && failures < 3)
  {}

  /** The current instance is given up exactly for these reasons: a configuration it did not
      acknowledge, a dead connection that was noticed when connecting, by a health check or by a
      failed request, or a third failed health check in a row. */
  lemma LeavesExactly(s: State, clock: nat, op: Op, i: nat)
    requires Reachable(s, clock) && Possible(s, clock, op) && s.client == Some(i)
    ensures Apply(s, op).client != Some(i) <==>
              || (op.UpdateConfig? && !op.acked)
              || (op.Connect? && !op.alive)
              || (op.RecordHealth? && op.instance == i && !op.ok && (!op.alive || s.healthFailures == 2))
              || (op.RecordResult? && op.instance == i && !op.ok && !op.alive)
  {
    ReachableInv(s, clock);
  }

  /** A committed configuration, which takes the acknowledgement of the current instance if there is
      one, and the user's retry end a block and clear the count of failures; a retry touches nothing else. */
  lemma UnblocksExactly(s: State, clock: nat, config: Config, acked: bool, exit: Exit)
    requires Reachable(s, clock)
    ensures
      var t := Apply(s, UpdateConfig(config, acked, exit));
      if s.client.None? || acked then
        !t.blocked && t.failures == 0 && t.healthFailures == 0 && t.config == config && t.revision == s.revision + 1
      else t.config == s.config && t.revision == s.revision && t.blocked == s.blocked && t.failures == s.failures
    ensures Apply(s, Retry) == if s.blocked then s.(failures := 0, blocked := false) else s
  {
    ReachableInv(s, clock);
  }

  /** Every failure counts one, the third in a row blocks, and the next start waits 1, 2, 4 seconds. */
  lemma FailuresCount(s: State, now: nat)
    requires s.failures <= 2 && !s.blocked
    ensures
      var t := RecordFailure(s, now);
      && t.failures == s.failures + 1 && (t.blocked <==> s.failures == 2)
      && t.nextStart == now + (if s.failures == 0 then 1 else if s.failures == 1 then 2 else 4)
  {}
}
