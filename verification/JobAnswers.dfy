/** What the protocol answers: which calls are refused, that a reply reaches its caller, that a
    dropped call is not written, and that an undisturbed job goes all the way. */
module JobAnswers {
  import opened Common
  import opened JobClient
  import opened JobDaemon
  import opened JobProtocol
  import opened JobCompletion

  // ---- refusals ------------------------------------------------------------

  /** Permits in use, by calls that are being set up and by pending ones. */
  ghost function SlotsHeld(c: Client): nat { Sum(c.entering, EnvelopeSlots) + Sum(c.pending, EntrySlots) }
  ghost function BytesHeld(c: Client): nat { c.reading + Sum(c.entering, EnvelopeBytes) + Sum(c.pending, EntryBytes) }

  /** A call is let in exactly when the connection lives, a job finds fewer than 32 others, its
      frame is at most 32 MiB, and with it no more than 128 MiB are held; and it is refused as busy
      exactly when it is a job and 32 others hold their slots. */
  lemma RefusedExactly(s: System, e: Envelope)
    requires Reachable(s)
    ensures Refuse(s.client, e) == Accepted <==>
              && s.client.alive && (e.kind.Schedule? ==> SlotsHeld(s.client) < 32)
              && e.frame <= 33554432 && BytesHeld(s.client) + e.frame <= 134217728
    ensures Refuse(s.client, e) == Busy <==> s.client.alive && e.kind.Schedule? && SlotsHeld(s.client) == 32
    ensures Refuse(s.client, e) == Closed <==> !s.client.alive
    ensures Refuse(s.client, e) == InflightLimit ==> BytesHeld(s.client) + e.frame > 134217728
    ensures Refuse(s.client, e) == TooLarge ==> e.frame > 33554432
  {
    ReachableInv(s);
  }

  /** A call that was let in is registered under its own id and its message queued, if the id is
      free and neither map nor queue is full; otherwise it is over and nothing is kept of it, or
      it is on its way back. */
  lemma RegisteredExactly(s: System, n: nat)
    requires Reachable(s) && n in s.client.entering
    ensures
      var c, c', e := s.client, Apply(s, Registers(n)).client, s.client.entering[n];
      if e.id in c.pending || |c.pending| >= 64 then
        c'.calls[n].Over? && c'.pending == c.pending && c'.queue == c.queue
      else
        && c'.pending == c.pending[e.id := Pending(n, e.frame, e.kind.Schedule?)]
        && (if c.queueOpen && |c.queue| < 64 then c'.calls[n] == Waiting(e.id) && c'.queue == c.queue + [e]
            else c'.calls[n] == Unqueued(e.id) && c'.queue == c.queue)
  {}

  // ---- the writer ----------------------------------------------------------

  /** The message of a call that still waits is written next when its turn comes. */
  lemma WaitingIsWritten(s: System, n: nat)
    requires Reachable(s) && Enabled(s, WriterTakes)
    requires n in s.client.calls && s.client.calls[n] == Waiting(s.client.queue[0].id)
    ensures Apply(s, WriterTakes).client.writing == Some(s.client.queue[0])
    ensures Apply(s, WriterTakes).client.pending == s.client.pending
  {
    WaiterOwnsEntry(s, n);
  }

  /** The Schedule of a call that is over and still queued, or given back unwritten. */
  ghost predicate Dropped(s: System, n: nat) {
    && n in s.client.calls && s.client.calls[n].Over?
    && n in s.place && (s.place[n].Queued? || s.place[n].Skipped?)
  }

  lemma DroppedTaken(s: System, n: nat)
    requires Inv(s) && Enabled(s, WriterTakes) && Dropped(s, n)
    ensures Dropped(Apply(s, WriterTakes), n)
  {
    var e := s.client.queue[0];
    assert EnvelopeOk(e, Queued, s.place, s.client.pending);
    if e.id in s.client.pending { assert EntryOk(s.client.calls, e.id, s.client.pending[e.id]); }
  }

  lemma DroppedCall(s: System, e: Step, n: nat)
    requires Inv(s) && Enabled(s, e) && CallStep(e) && Dropped(s, n)
    ensures Dropped(Apply(s, e), n)
  {
    ResolvedByCall(s, e, n);
    if e.Registers? { FreshPlace(s, e.n); }
  }

  lemma DroppedTransport(s: System, e: Step, n: nat)
    requires Enabled(s, e) && !CallStep(e) && !e.WriterTakes? && Dropped(s, n)
    requires e.WriterFinishes? || e.ReaderDelivers? || e.DaemonTakes? || e.DaemonFinishes? ==> Moved(s, e) != Stage(n)
    ensures Dropped(Apply(s, e), n)
  {
    ResolvedByTransport(s, e, n);
  }

  lemma DroppedStep(s: System, e: Step, n: nat)
    requires Inv(s) && Enabled(s, e) && Dropped(s, n)
    ensures Dropped(Apply(s, e), n)
  {
    if CallStep(e) {
      DroppedCall(s, e, n);
    } else if e.WriterTakes? {
      DroppedTaken(s, n);
    } else {
      if e.WriterFinishes? || e.ReaderDelivers? || e.DaemonTakes? || e.DaemonFinishes? { MovedWasWritten(s, e); }
      DroppedTransport(s, e, n);
    }
  }

  /** A job whose caller goes away before its message is written is never written, in any continuation. */
  lemma {:induction false} DroppedNeverWritten(s: System, steps: seq<Step>, s': System, n: nat)
    requires Inv(s) && Run(s, steps, s') && Dropped(s, n)
    ensures !Written(s', n)
    decreases |steps|
  {
    if steps != [] {
      StepInv(s, steps[0]);
      DroppedStep(s, steps[0], n);
      DroppedNeverWritten(Apply(s, steps[0]), steps[1..], s', n);
    }
  }

  // ---- the reader ------------------------------------------------------------

  /** A reply that is read reaches the call that waits for it, with its entry and permits released. */
  lemma ReplyReachesCaller(s: System, n: nat)
    requires Reachable(s) && Enabled(s, ReaderDelivers)
    requires n in s.client.calls && s.client.calls[n] == Waiting(s.toClient[0].id)
    ensures
      var id, c' := s.toClient[0].id, Apply(s, ReaderDelivers).client;
      && c'.calls[n] == Answered(id, Replied(id)) && id !in c'.pending
      && c'.freeBytes == s.client.freeBytes + s.client.reading + s.client.pending[id].bytes
  {
    WaiterOwnsEntry(s, n);
  }

  predicate ToldOfFailureNow(c: Client, c': Client, n: nat) {
    n in c.calls && c.calls[n].Waiting? && n in c'.calls && c'.calls[n] == Answered(c.calls[n].id, Failed)
  }

  lemma NoFailureFromWriter(s: System, n: nat)
    requires Reachable(s) && Enabled(s, WriterTakes) && n in s.client.calls && s.client.calls[n].Waiting?
    ensures !ToldOfFailureNow(s.client, Apply(s, WriterTakes).client, n)
  {
    if s.client.calls[n].id == s.client.queue[0].id { WaitingIsWritten(s, n); } else { WaiterOwnsEntry(s, n); }
  }

  lemma NoFailureFromReader(s: System, n: nat)
    requires Reachable(s) && Enabled(s, ReaderDelivers) && n in s.client.calls && s.client.calls[n].Waiting?
    ensures !ToldOfFailureNow(s.client, Apply(s, ReaderDelivers).client, n)
  {
    if s.client.calls[n].id == s.toClient[0].id { ReplyReachesCaller(s, n); } else { WaiterOwnsEntry(s, n); }
  }

  lemma NoFailureFromDrop(c: Client, m: nat, n: nat)
    requires m in c.calls && (c.calls[m].Unqueued? || c.calls[m].Waiting? || c.calls[m].Answered?)
    requires n in c.calls && c.calls[n].Waiting?
    ensures !ToldOfFailureNow(c, Drop(c, m), n)
  {}

  lemma NoFailureFromRegister(c: Client, m: nat, n: nat)
    requires CallsMatch(c.calls, c.entering) && m in c.entering && n in c.calls && c.calls[n].Waiting?
    ensures !ToldOfFailureNow(c, Register(c, m), n) && !ToldOfFailureNow(c, Abandon(c, m), n)
  {}

  lemma NoFailureFromCall(s: System, e: Step, n: nat)
    requires Enabled(s, e) && CallStep(e) && !e.CleansUp? && !e.RollsBack?
    requires CallsMatch(s.client.calls, s.client.entering) && n in s.client.calls && s.client.calls[n].Waiting?
    ensures !ToldOfFailureNow(s.client, Apply(s, e).client, n)
  {
    match e
    case Begins(_, _) =>
    case Abandons(m) => NoFailureFromRegister(s.client, m, n);
    case Registers(m) => NoFailureFromRegister(s.client, m, n);
    case Drops(m) => NoFailureFromDrop(s.client, m, n);
    case Returns(m) => NoFailureFromDrop(s.client, m, n);
  }

  lemma NoFailureElsewhere(s: System, e: Step, n: nat)
    requires Enabled(s, e) && !CallStep(e) && !e.WriterTakes? && !e.ReaderDelivers? && !e.Drains?
    requires n in s.client.calls && s.client.calls[n].Waiting?
    ensures !ToldOfFailureNow(s.client, Apply(s, e).client, n)
  {}

  /** A waiting caller is told of a failure only when an entry is taken out without a reply: by a
      removal task, by the rollback of a call the queue refused, or by the drain of a dead connection. */
  lemma FailureOnlyWithoutReply(s: System, e: Step, n: nat)
    requires Reachable(s) && Enabled(s, e) && n in s.client.calls && s.client.calls[n].Waiting?
    requires ToldOfFailureNow(s.client, Apply(s, e).client, n)
    ensures e.CleansUp? || e.RollsBack? || (e.Drains? && !s.client.alive)
  {
    ReachableInv(s);
    if CallStep(e) {
      if !e.CleansUp? && !e.RollsBack? { NoFailureFromCall(s, e, n); }
    } else if e.WriterTakes? {
      NoFailureFromWriter(s, n);
    } else if e.ReaderDelivers? {
      NoFailureFromReader(s, n);
    } else if !e.Drains? {
      NoFailureElsewhere(s, e, n);
    }
  }

  // ---- an undisturbed job ------------------------------------------------------

  /** The queue is open as long as the connection lives. */
  lemma {:induction false} OpenWhileAlive(s: System, steps: seq<Step>, s': System)
    requires (s.client.alive ==> s.client.queueOpen) && Run(s, steps, s')
    ensures s'.client.alive ==> s'.client.queueOpen
    decreases |steps|
  {
    if steps != [] {
      OpenStep(s, steps[0]);
      OpenWhileAlive(Apply(s, steps[0]), steps[1..], s');
    }
  }

  lemma OpenStep(s: System, e: Step)
    requires (s.client.alive ==> s.client.queueOpen) && Enabled(s, e)
    ensures Apply(s, e).client.alive ==> Apply(s, e).client.queueOpen
  {}

  /** The steps of one job that nobody interferes with; its reply is `length` bytes long. */
  function Undisturbed(n: nat, e: Envelope, length: nat): seq<Step> {
    [Begins(n, e), Registers(n), WriterTakes, WriterFinishes, DaemonTakes(true),
     DaemonFinishes(0, false, true), ReaderReserves(length), ReaderDelivers]
  }

  /** A client at rest but for finished calls, and what one job makes of it. */
  predicate Resting(c: Client) {
    && c.alive && c.queueOpen && c.freeSlots == JOB_SLOTS && c.freeBytes == BYTE_BUDGET && c.reading == 0
    && c.entering == map[] && c.pending == map[] && c.queue == [] && c.writing == None
  }

  lemma ClientSends(c: Client, n: nat, e: Envelope)
    requires Resting(c) && n !in c.calls && WellFormed(n, e) && e.kind.Schedule? && e.frame <= MAX_FRAME
    ensures
      var b := Begin(c, n, e);
      && n in b.entering && b.entering[n] == e
      && Register(b, n) == c.(freeSlots := JOB_SLOTS - 1, freeBytes := BYTE_BUDGET - e.frame, calls := c.calls[n := Waiting(e.id)],
                              pending := map[e.id := Pending(n, e.frame, true)], queue := [e])
      && WriterTake(Register(b, n)) == Register(b, n).(queue := [], writing := Some(e))
  {
    assert c.entering[n := e] - {n} == map[];
    assert c.calls[n := Entering(e)][n := Waiting(e.id)] == c.calls[n := Waiting(e.id)];
    assert [e][1..] == [];
  }

  lemma ClientReads(c: Client, n: nat, id: Id, p: Pending, length: nat)
    requires c.pending == map[id := p] && p.call == n && n in c.calls && c.calls[n] == Waiting(id)
    requires c.reading == 0 && length <= c.freeBytes
    ensures
      var d := ReaderDeliver(ReaderReserve(c, length), id);
      && ReaderReserve(c, length) == c.(freeBytes := c.freeBytes - length, reading := length)
      && d == c.(freeSlots := c.freeSlots + EntrySlots(p), freeBytes := c.freeBytes + p.bytes,
                 pending := map[], calls := c.calls[n := Answered(id, Replied(id))])
  {
    assert c.pending - {id} == map[];
  }

  lemma DaemonServes(d: Daemon, e: Envelope)
    requires d.running && d.cancellations == map[] && d.jobs == [] && d.admitted == 0
    requires e.kind.Schedule? && e.payload <= MAX_ADMITTED
    ensures
      var d1 := Next(d, Message(e, true)).0;
      && Next(d, Message(e, true)).1 == None
      && d1.running && d1.jobs == [Job(e.id, e.payload, 0)]
      && Next(d1, Finish(0, false, true)).1 == Some(Reply(e.id, JobResult))
      && Next(d1, Finish(0, false, true)).0.running && Next(d1, Finish(0, false, true)).0.jobs == []
  {}

  lemma QuietRests(s: System)
    requires Reachable(s) && s.client.alive && Quiet(s)
    ensures Resting(s.client) && s.daemon.cancellations == map[] && s.daemon.admitted == 0
  {
    QuietMeansFree(s);
    ReachableInv(s);
    KeysAreRunningJobs(s.daemon);
    var steps :| Run(Start, steps, s);
    OpenWhileAlive(Start, steps, s);
    assert s.daemon.cancellations.Keys == {};
  }

  /** From the call to the written message. */
  lemma Sent(s: System, n: nat, e: Envelope) returns (t: System)
    requires Resting(s.client) && n !in s.client.calls && WellFormed(n, e) && e.kind.Schedule? && e.frame <= MAX_FRAME
    requires s.toDaemon == []
    ensures Run(s, Undisturbed(n, e, 1)[..4], t)
    ensures t.toDaemon == [e] && t.daemon == s.daemon && t.toClient == s.toClient
    ensures t.client == s.client.(freeSlots := JOB_SLOTS - 1, freeBytes := BYTE_BUDGET - e.frame,
                                  calls := s.client.calls[n := Waiting(e.id)],
                                  pending := map[e.id := Pending(n, e.frame, true)])
  {
    ClientSends(s.client, n, e);
    var a := Apply(s, Begins(n, e));
    var b := Apply(a, Registers(n));
    var c := Apply(b, WriterTakes);
    t := Apply(c, WriterFinishes);
    Four(s, a, b, c, t, Begins(n, e), Registers(n), WriterTakes, WriterFinishes);
    assert Undisturbed(n, e, 1)[..4] == [Begins(n, e), Registers(n), WriterTakes, WriterFinishes];
  }

  lemma Four(s: System, a: System, b: System, c: System, t: System, e: Step, f: Step, g: Step, h: Step)
    requires Enabled(s, e) && Apply(s, e) == a && Enabled(a, f) && Apply(a, f) == b
    requires Enabled(b, g) && Apply(b, g) == c && Enabled(c, h) && Apply(c, h) == t
    ensures Run(s, [e, f, g, h], t)
  {
    assert [e, f, g, h][1..] == [f, g, h] && [f, g, h][1..] == [g, h] && [g, h][1..] == [h] && [h][1..] == [];
    assert Run(t, [], t) && Run(c, [h], t) && Run(b, [g, h], t) && Run(a, [f, g, h], t);
  }

  /** From the daemon's taking it to its reply. */
  lemma Served(s: System, e: Envelope) returns (t: System)
    requires s.toDaemon == [e] && s.toClient == [] && e.kind.Schedule? && e.payload <= MAX_ADMITTED
    requires s.daemon.running && s.daemon.cancellations == map[] && s.daemon.jobs == [] && s.daemon.admitted == 0
    ensures Run(s, [DaemonTakes(true), DaemonFinishes(0, false, true)], t)
    ensures t.client == s.client && t.toClient == [Reply(e.id, JobResult)] && t.toDaemon == []
  {
    DaemonServes(s.daemon, e);
    var a := Apply(s, DaemonTakes(true));
    t := Apply(a, DaemonFinishes(0, false, true));
    Two(s, a, t, DaemonTakes(true), DaemonFinishes(0, false, true));
  }

  lemma Two(s: System, a: System, t: System, e: Step, f: Step)
    requires Enabled(s, e) && Apply(s, e) == a && Enabled(a, f) && Apply(a, f) == t
    ensures Run(s, [e, f], t)
  {
    assert [e, f][1..] == [f] && [f][1..] == [];
    assert Run(t, [], t) && Run(a, [f], t);
  }

  /** From the reply on the wire to its caller. */
  lemma ReadBack(s: System, n: nat, id: Id, p: Pending, length: nat) returns (t: System)
    requires s.toClient == [Reply(id, JobResult)] && s.client.pending == map[id := p] && s.client.reading == 0
    requires p.call == n && n in s.client.calls && s.client.calls[n] == Waiting(id) && 0 < length <= s.client.freeBytes
    ensures Run(s, [ReaderReserves(length), ReaderDelivers], t)
    ensures t.client == s.client.(freeSlots := s.client.freeSlots + EntrySlots(p), freeBytes := s.client.freeBytes + p.bytes,
                                  pending := map[], calls := s.client.calls[n := Answered(id, Replied(id))])
  {
    ClientReads(s.client, n, id, p, length);
    var a := Apply(s, ReaderReserves(length));
    t := Apply(a, ReaderDelivers);
    Two(s, a, t, ReaderReserves(length), ReaderDelivers);
  }

  lemma RunHead(s: System, x: seq<Step>, t: System)
    requires x != [] && Run(s, x, t)
    ensures Enabled(s, x[0]) && Run(Apply(s, x[0]), x[1..], t)
  {}

  lemma RunFrom(s: System, e: Step, rest: seq<Step>, u: System)
    requires Enabled(s, e) && Run(Apply(s, e), rest, u)
    ensures Run(s, [e] + rest, u)
  {
    assert ([e] + rest)[1..] == rest;
  }

  lemma {:induction false} RunsJoin(s: System, x: seq<Step>, t: System, y: seq<Step>, u: System)
    requires Run(s, x, t) && Run(t, y, u)
    ensures Run(s, x + y, u)
    decreases |x|
  {
    if x == [] {
      assert x + y == y;
    } else {
      RunHead(s, x, t);
      RunsJoin(Apply(s, x[0]), x[1..], t, y, u);
      RunFrom(s, x[0], x[1..] + y, u);
      assert [x[0]] + (x[1..] + y) == x + y;
    }
  }

  lemma ThreeParts(n: nat, e: Envelope, length: nat)
    ensures Undisturbed(n, e, length)
         == Undisturbed(n, e, 1)[..4] + [DaemonTakes(true), DaemonFinishes(0, false, true)] + [ReaderReserves(length), ReaderDelivers]
  {}

  lemma ThreeRuns(s: System, x: seq<Step>, t: System, y: seq<Step>, u: System, z: seq<Step>, v: System)
    requires Run(s, x, t) && Run(t, y, u) && Run(u, z, v)
    ensures Run(s, x + y + z, v)
  {
    RunsJoin(s, x, t, y, u);
    RunsJoin(s, x + y, u, z, v);
  }

  /** The client before and after differ in the finished call only. */
  lemma BackAtRest(c: Client, n: nat, e: Envelope, p: Pending)
    requires Resting(c) && p == Pending(n, e.frame, true) && e.frame <= MAX_FRAME
    ensures
      var mid := c.(freeSlots := JOB_SLOTS - 1, freeBytes := BYTE_BUDGET - e.frame,
                    calls := c.calls[n := Waiting(e.id)], pending := map[e.id := p]);
      mid.(freeSlots := mid.freeSlots + EntrySlots(p), freeBytes := mid.freeBytes + p.bytes,
           pending := map[], calls := mid.calls[n := Answered(e.id, Replied(e.id))])
      == c.(calls := c.calls[n := Answered(e.id, Replied(e.id))])
  {
    assert c.calls[n := Waiting(e.id)][n := Answered(e.id, Replied(e.id))] == c.calls[n := Answered(e.id, Replied(e.id))];
  }

  lemma UndisturbedFromRest(s: System, n: nat, e: Envelope, length: nat) returns (t: System)
    requires Resting(s.client) && s.toDaemon == [] && s.toClient == []
    requires s.daemon.running && s.daemon.cancellations == map[] && s.daemon.jobs == [] && s.daemon.admitted == 0
    requires n !in s.client.calls && WellFormed(n, e) && e.kind.Schedule?
    requires e.frame <= MAX_FRAME && length > 0 && e.frame + length <= BYTE_BUDGET
    ensures Run(s, Undisturbed(n, e, length), t)
    ensures t.client == s.client.(calls := s.client.calls[n := Answered(e.id, Replied(e.id))])
  {
    BackAtRest(s.client, n, e, Pending(n, e.frame, true));
    var sent := Sent(s, n, e);
    var served := Served(sent, e);
    t := ReadBack(served, n, e.id, Pending(n, e.frame, true), length);
    ThreeParts(n, e, length);
    ThreeRuns(s, Undisturbed(n, e, 1)[..4], sent, [DaemonTakes(true), DaemonFinishes(0, false, true)], served,
              [ReaderReserves(length), ReaderDelivers], t);
  }

  /** From every quiet live state, every job whose frame and reply fit the limits can go all the way
      undisturbed; then its caller has its reply and every permit is back. */
  lemma UndisturbedJobIsAnswered(s: System, n: nat, e: Envelope, length: nat) returns (t: System)
    requires Reachable(s) && s.client.alive && Quiet(s)
    requires n !in s.client.calls && WellFormed(n, e) && e.kind.Schedule?
    requires e.frame <= 33554432 && length > 0 && e.frame + length <= 134217728
    ensures Run(s, Undisturbed(n, e, length), t)
    ensures t.client.calls == s.client.calls[n := Answered(Stage(n), Replied(Stage(n)))]
    ensures t.client.freeSlots == 32 && t.client.freeBytes == 134217728 && t.client.pending == map[]
  {
    QuietRests(s);
    t := UndisturbedFromRest(s, n, e, length);
  }
}
