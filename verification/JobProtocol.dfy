/** The two processes together: the client, two FIFO channels and the daemon, one step per
    atomic action, and the invariant that ties both processes and the messages in flight. */
module JobProtocol {
  import opened Common
  import opened JobClient
  import opened JobDaemon

  /** How far the Schedule of a call has travelled. `Skipped` was never written,
      `Settled` had its own reply read. */
  datatype Place = Queued | Skipped | Writing | Wire | Running | Replying | Settled

  /** `place` records the journey of every Schedule that entered the writer queue; no step reads it. */
  datatype System = System(
    client: Client,
    toDaemon: seq<Envelope>,
    daemon: Daemon,
    toClient: seq<Reply>,
    ghost place: map<nat, Place>)

  ghost const Start := System(JobClient.Initial, [], JobDaemon.Fresh, [], map[])

  datatype Step =
    | Begins(n: nat, envelope: Envelope)
    | Abandons(n: nat)
    | Registers(n: nat)
    | RollsBack(n: nat)
    | Drops(n: nat)
    | Returns(n: nat)
    | CleansUp(id: Id)
    | WriterTakes
    | WriterFinishes
    | WriterStops
    | ReaderReserves(length: nat)
    | ReaderDelivers
    | Retires
    | Drains(id: Id)
    | DaemonTakes(sent: bool)
    | DaemonFinishes(index: nat, cancelled: bool, sent: bool)
    | DaemonBreaks

  predicate Enabled(s: System, e: Step) {
    var c := s.client;
    match e
    case Begins(n, env) => n !in c.calls && WellFormed(n, env)
    case Abandons(n) => n in c.entering
    case Registers(n) => n in c.entering
    case RollsBack(n) => n in c.calls && c.calls[n].Unqueued?
    case Drops(n) => n in c.calls && (c.calls[n].Unqueued? || c.calls[n].Waiting? || c.calls[n].Answered?)
    case Returns(n) => n in c.calls && c.calls[n].Answered?
    case CleansUp(id) => id in c.cleanup
    case WriterTakes => c.alive && c.queue != [] && c.writing.None?
    case WriterFinishes => c.writing.Some?
    case WriterStops => !c.alive
    case ReaderReserves(length) => length > 0 && c.reading == 0 && s.toClient != []
    case ReaderDelivers => c.reading > 0 && s.toClient != []
    case Retires => true
    case Drains(id) => !c.alive && id in c.pending
    case DaemonTakes(_) => s.daemon.running && s.toDaemon != []
    case DaemonFinishes(i, cancelled, sent) => Possible(s.daemon, Finish(i, cancelled, sent))
    case DaemonBreaks => s.daemon.running
  }

  function DaemonEvent(s: System, e: Step): Event
    requires Enabled(s, e) && (e.DaemonTakes? || e.DaemonFinishes? || e.DaemonBreaks?)
  {
    match e
    case DaemonTakes(sent) => Message(s.toDaemon[0], sent)
    case DaemonFinishes(i, cancelled, sent) => Finish(i, cancelled, sent)
    case DaemonBreaks => Broken
  }

  ghost function Mark(place: map<nat, Place>, id: Id, at: Place): map<nat, Place> {
    if id.Stage? then place[id.call := at] else place
  }

  ghost function Apply(s: System, e: Step): System
    requires Enabled(s, e)
  {
    var c := s.client;
    match e
    case Begins(n, env) => s.(client := Begin(c, n, env))
    case Abandons(n) => s.(client := Abandon(c, n))
    case Registers(n) =>
      var c' := Register(c, n);
      s.(client := c',
         place := if c'.calls[n].Waiting? then Mark(s.place, c.entering[n].id, Queued) else s.place)
    case RollsBack(n) => s.(client := RollBack(c, n))
    case Drops(n) => s.(client := Drop(c, n))
    case Returns(n) => s.(client := Return(c, n))
    case CleansUp(id) => s.(client := Cleanup(c, id))
    case WriterTakes =>
      var c' := WriterTake(c);
      s.(client := c', place := Mark(s.place, c.queue[0].id, if c'.writing.Some? then Writing else Skipped))
    case WriterFinishes =>
      s.(client := WriterDone(c),
         toDaemon := s.toDaemon + [c.writing.value],
         place := Mark(s.place, c.writing.value.id, Wire))
    case WriterStops => s.(client := WriterStop(c))
    case ReaderReserves(length) => s.(client := ReaderReserve(c, length))
    case ReaderDelivers =>
      s.(client := ReaderDeliver(c, s.toClient[0].id),
         toClient := s.toClient[1..],
         place := Mark(s.place, s.toClient[0].id, Settled))
    case Retires => s.(client := Retire(c))
    case Drains(id) => s.(client := Remove(c, id, Failed))
    case DaemonTakes(_) =>
      var (d', r) := Next(s.daemon, DaemonEvent(s, e));
      s.(daemon := d',
         toDaemon := s.toDaemon[1..],
         toClient := if r.Some? then s.toClient + [r.value] else s.toClient,
         place := Mark(s.place, s.toDaemon[0].id, if r.Some? then Replying else Running))
    case DaemonFinishes(i, _, _) =>
      var (d', r) := Next(s.daemon, DaemonEvent(s, e));
      s.(daemon := d',
         toClient := if r.Some? then s.toClient + [r.value] else s.toClient,
         place := Mark(s.place, s.daemon.jobs[i].id, Replying))
    case DaemonBreaks => s.(daemon := Next(s.daemon, Broken).0)
  }

  ghost predicate Run(s: System, steps: seq<Step>, s': System)
    decreases |steps|
  {
    if steps == [] then s == s'
    else Enabled(s, steps[0]) && Run(Apply(s, steps[0]), steps[1..], s')
  }

  // ---- the global invariant ----------------------------------------------

  /** A message at stage `at` of its journey; while its entry is pending, the entry
      reserves exactly the frame. */
  ghost predicate EnvelopeOk(e: Envelope, at: Place, place: map<nat, Place>, pending: map<Id, Pending>) {
    && e.payload <= e.frame
    && (e.kind.Schedule? <==> e.id.Stage?)
    && (e.id.Stage? ==>
          && e.id.call in place && place[e.id.call] == at
          && (e.id in pending ==> pending[e.id].bytes == e.frame))
  }

  ghost predicate EnvelopesOk(q: seq<Envelope>, at: Place, place: map<nat, Place>, pending: map<Id, Pending>) {
    && (forall i :: 0 <= i < |q| ==> EnvelopeOk(q[i], at, place, pending))
    && (forall i, j :: 0 <= i < j < |q| && q[i].id.Stage? ==> q[i].id != q[j].id)
  }

  ghost predicate RepliesOk(q: seq<Reply>, place: map<nat, Place>) {
    && (forall i :: 0 <= i < |q| && q[i].id.Stage? ==> q[i].id.call in place && place[q[i].id.call] == Replying)
    && (forall i, j :: 0 <= i < j < |q| && q[i].id.Stage? ==> q[i].id != q[j].id)
  }

  ghost predicate NoRejection(q: seq<Reply>) {
    forall i :: 0 <= i < |q| ==> !q[i].code.SchedulerBusy? && !q[i].code.DuplicateRequestId?
  }

  ghost predicate TableOk(table: map<Id, Entry>, place: map<nat, Place>, pending: map<Id, Pending>) {
    forall id :: id in table ==>
      && id.Stage?
      && id.call in place && place[id.call] == Running
      && (id in pending ==> table[id].bytes <= pending[id].bytes)
  }

  ghost predicate CallsOk(calls: map<nat, Phase>, place: map<nat, Place>) {
    forall n :: n in place ==> n in calls && !calls[n].Entering? && !calls[n].Unqueued?
  }

  /** A removal task for a Schedule exists only if the Schedule never entered the queue. */
  ghost predicate CleanupOk(cleanup: multiset<Id>, calls: map<nat, Phase>, place: map<nat, Place>) {
    forall id :: id in cleanup && id.Stage? ==>
      id.call in calls && !calls[id.call].Entering? && id.call !in place
  }

  predicate InFlight(p: Place) { p.Writing? || p.Wire? || p.Running? || p.Replying? }

  /** Every Schedule between the writer and the reader still has its entry, hence its permits. */
  ghost predicate Held(place: map<nat, Place>, pending: map<Id, Pending>) {
    forall n :: n in place && InFlight(place[n]) ==> Stage(n) in pending
  }

  ghost predicate WritingOk(w: Option<Envelope>, place: map<nat, Place>, pending: map<Id, Pending>) {
    w.Some? ==> EnvelopeOk(w.value, Writing, place, pending)
  }

  ghost predicate Linked(s: System) {
    var c := s.client;
    && CallsOk(c.calls, s.place)
    && CleanupOk(c.cleanup, c.calls, s.place)
    && EnvelopesOk(c.queue, Queued, s.place, c.pending)
    && WritingOk(c.writing, s.place, c.pending)
    && EnvelopesOk(s.toDaemon, Wire, s.place, c.pending)
    && TableOk(s.daemon.cancellations, s.place, c.pending)
    && RepliesOk(s.toClient, s.place)
    && (c.alive ==> Held(s.place, c.pending) && NoRejection(s.toClient))
  }

  ghost predicate Inv(s: System) { Valid(s.client) && DaemonInv(s.daemon) && Linked(s) }

  // ---- admission -----------------------------------------------------------

  /** A table whose every entry is covered by a pending job entry of the same id fits both limits. */
  lemma CoveredTableFits(table: map<Id, Entry>, pending: map<Id, Pending>)
    requires Covered(table, pending)
    requires Sum(pending, EntrySlots) <= JOB_SLOTS && Sum(pending, EntryBytes) <= BYTE_BUDGET
    ensures |table| <= MAX_JOBS && Sum(table, EntrySize) <= MAX_ADMITTED
  {
    SumDominated(table, EntrySize, pending, EntryBytes);
    SumDominated(table, EntryOne, pending, EntrySlots);
    SumOfOnes(table, EntryOne);
  }

  ghost predicate Covered(table: map<Id, Entry>, pending: map<Id, Pending>) {
    forall id :: id in table ==> id in pending && table[id].bytes <= pending[id].bytes && pending[id].job
  }

  /** Every entry of the daemon's table has a pending entry of the client that still holds its
      job slot and at least as many bytes. */
  lemma TableIsCovered(s: System)
    requires Inv(s) && s.client.alive
    ensures Covered(s.daemon.cancellations, s.client.pending)
  {
    forall id | id in s.daemon.cancellations
      ensures id in s.client.pending && s.client.pending[id].job
    {
      assert id == Stage(id.call) && InFlight(s.place[id.call]);
      assert EntryOk(s.client.calls, id, s.client.pending[id]);
    }
  }

  lemma ArrivalIsCovered(s: System)
    requires Inv(s) && s.client.alive
    requires s.toDaemon != [] && s.toDaemon[0].kind.Schedule?
    ensures
      var e := s.toDaemon[0];
      && e.id !in s.daemon.cancellations
      && e.id in s.client.pending && e.payload <= s.client.pending[e.id].bytes && s.client.pending[e.id].job
  {
    var e := s.toDaemon[0];
    assert EnvelopeOk(e, Wire, s.place, s.client.pending);
    assert e.id == Stage(e.id.call) && InFlight(s.place[e.id.call]);
    assert EntryOk(s.client.calls, e.id, s.client.pending[e.id]);
  }

  /** The table entries, and one more for the arriving message, are each covered by a
      different pending entry of the client, so the daemon's own limits cannot be hit. */
  lemma AdmissionSucceeds(s: System)
    requires Inv(s) && s.client.alive && s.daemon.running
    requires s.toDaemon != [] && s.toDaemon[0].kind.Schedule?
    ensures Rejection(s.daemon, s.toDaemon[0]) == None
  {
    TableIsCovered(s);
    ArrivalIsCovered(s);
    Fits(s.daemon, s.toDaemon[0], s.client);
  }

  lemma Fits(d: Daemon, e: Envelope, c: Client)
    requires d.running && Accounted(d) && Conserved(c)
    requires Covered(d.cancellations, c.pending)
    requires e.id !in d.cancellations
    requires e.id in c.pending && e.payload <= c.pending[e.id].bytes && c.pending[e.id].job
    ensures Rejection(d, e) == None
  {
    var entry := Entry(true, e.payload);
    CoveredTableFits(d.cancellations[e.id := entry], c.pending);
    SumInsert(d.cancellations, EntrySize, e.id, entry);
    OneMore(d.cancellations, e.id, entry);
  }

  lemma OneMore(table: map<Id, Entry>, id: Id, entry: Entry)
    requires id !in table
    ensures |table[id := entry]| == |table| + 1
  {
    var more := table[id := entry];
    assert more.Keys == table.Keys + {id};
    assert |more| == |more.Keys| && |table| == |table.Keys|;
  }

  // ---- preservation: how one component reacts to a change of another -----

  lemma ShrunkPending(q: seq<Envelope>, at: Place, place: map<nat, Place>, pending: map<Id, Pending>, id: Id)
    requires EnvelopesOk(q, at, place, pending)
    ensures EnvelopesOk(q, at, place, pending - {id})
  {
    forall i | 0 <= i < |q| ensures EnvelopeOk(q[i], at, place, pending - {id}) {
      assert EnvelopeOk(q[i], at, place, pending);
    }
  }

  /** The entry of a call that has no message anywhere yet is invisible to the messages. */
  lemma GrownPending(q: seq<Envelope>, at: Place, place: map<nat, Place>, pending: map<Id, Pending>, id: Id, p: Pending)
    requires EnvelopesOk(q, at, place, pending)
    requires id.Stage? ==> id.call !in place
    ensures EnvelopesOk(q, at, place, pending[id := p])
  {
    forall i | 0 <= i < |q| ensures EnvelopeOk(q[i], at, place, pending[id := p]) {
      assert EnvelopeOk(q[i], at, place, pending);
    }
  }

  /** A mark moves one message and leaves those at other places alone. */
  lemma MarkedElsewhere(q: seq<Envelope>, at: Place, place: map<nat, Place>, pending: map<Id, Pending>, id: Id, to: Place)
    requires EnvelopesOk(q, at, place, pending)
    requires id.Stage? && id.call in place ==> place[id.call] != at
    ensures EnvelopesOk(q, at, Mark(place, id, to), pending)
  {
    forall i | 0 <= i < |q| ensures EnvelopeOk(q[i], at, Mark(place, id, to), pending) {
      assert EnvelopeOk(q[i], at, place, pending);
    }
  }

  lemma Enqueued(q: seq<Envelope>, at: Place, place: map<nat, Place>, pending: map<Id, Pending>, e: Envelope)
    requires EnvelopesOk(q, at, place, pending)
    requires e.payload <= e.frame && (e.kind.Schedule? <==> e.id.Stage?)
    requires e.id.Stage? ==> e.id in pending ==> pending[e.id].bytes == e.frame
    requires e.id.Stage? && e.id.call in place ==> place[e.id.call] != at
    ensures EnvelopesOk(q + [e], at, Mark(place, e.id, at), pending)
  {
    MarkedElsewhere(q, at, place, pending, e.id, at);
    forall i | 0 <= i < |q| && q[i].id.Stage? ensures q[i].id != e.id {
      assert EnvelopeOk(q[i], at, place, pending);
    }
  }

  lemma Dequeued(q: seq<Envelope>, at: Place, place: map<nat, Place>, pending: map<Id, Pending>, to: Place)
    requires EnvelopesOk(q, at, place, pending) && q != []
    ensures EnvelopesOk(q[1..], at, Mark(place, q[0].id, to), pending)
  {
    var rest := q[1..];
    forall i | 0 <= i < |rest| ensures EnvelopeOk(rest[i], at, Mark(place, q[0].id, to), pending) {
      assert EnvelopeOk(q[i + 1], at, place, pending);
    }
  }

  lemma ReplyQueued(q: seq<Reply>, place: map<nat, Place>, r: Reply)
    requires RepliesOk(q, place)
    requires r.id.Stage? && r.id.call in place ==> place[r.id.call] != Replying
    ensures RepliesOk(q + [r], Mark(place, r.id, Replying)) && RepliesOk(q, Mark(place, r.id, Replying))
    ensures NoRejection(q) && !r.code.SchedulerBusy? && !r.code.DuplicateRequestId? ==> NoRejection(q + [r])
  {}

  lemma ReplyTaken(q: seq<Reply>, place: map<nat, Place>)
    requires RepliesOk(q, place) && q != []
    ensures RepliesOk(q[1..], Mark(place, q[0].id, Settled))
  {}

  // ---- preservation, step by step ------------------------------------------

  lemma ShrunkEntries(
    table: map<Id, Entry>, w: Option<Envelope>, place: map<nat, Place>, pending: map<Id, Pending>, id: Id)
    requires TableOk(table, place, pending) && WritingOk(w, place, pending)
    ensures TableOk(table, place, pending - {id}) && WritingOk(w, place, pending - {id})
    ensures Held(place, pending) && (id.Stage? && id.call in place ==> !InFlight(place[id.call]))
            ==> Held(place, pending - {id})
  {}

  /** Telling a caller the outcome is no concern of the messages. */
  lemma RemoveCalls(c: Client, id: Id, o: Outcome, place: map<nat, Place>)
    requires CallsOk(c.calls, place) && CleanupOk(c.cleanup, c.calls, place)
    ensures var r := Remove(c, id, o); CallsOk(r.calls, place) && CleanupOk(r.cleanup, r.calls, place)
  {}

  /** Removing an entry disturbs nothing in flight, as long as a removed Schedule is not in
      flight or the connection is being retired. */
  lemma RemoveLinked(s: System, id: Id, o: Outcome)
    requires Inv(s)
    requires o.Replied? ==> o.id == id
    requires s.client.alive && id.Stage? && id.call in s.place ==> !InFlight(s.place[id.call])
    ensures Inv(s.(client := Remove(s.client, id, o)))
  {
    var c := s.client;
    RemoveValid(c, id, o);
    RemoveCalls(c, id, o, s.place);
    ShrunkEntries(s.daemon.cancellations, c.writing, s.place, c.pending, id);
    ShrunkPending(c.queue, Queued, s.place, c.pending, id);
    ShrunkPending(s.toDaemon, Wire, s.place, c.pending, id);
  }

  lemma BeginsInv(s: System, n: nat, env: Envelope)
    requires Inv(s) && Enabled(s, Begins(n, env))
    ensures Inv(Apply(s, Begins(n, env)))
  {
    BeginValid(s.client, n, env);
  }

  lemma AbandonsInv(s: System, n: nat)
    requires Inv(s) && n in s.client.entering
    ensures Inv(s.(client := Abandon(s.client, n)))
  {
    AbandonValid(s.client, n);
  }

  lemma NewEntryElsewhere(
    table: map<Id, Entry>, w: Option<Envelope>, place: map<nat, Place>, pending: map<Id, Pending>, id: Id, p: Pending)
    requires TableOk(table, place, pending) && WritingOk(w, place, pending)
    requires id.Stage? ==> id.call !in place
    ensures TableOk(table, place, pending[id := p]) && WritingOk(w, place, pending[id := p])
    ensures TableOk(table, Mark(place, id, Queued), pending[id := p])
    ensures WritingOk(w, Mark(place, id, Queued), pending[id := p])
  {}

  /** The new phase of a call agrees with whether its Schedule is on its way. */
  lemma RegisteredCall(calls: map<nat, Phase>, cleanup: multiset<Id>, place: map<nat, Place>, n: nat, id: Id)
    requires CallsOk(calls, place) && CleanupOk(cleanup, calls, place)
    requires n in calls && calls[n].Entering? && (id.Stage? ==> id == Stage(n))
    ensures CallsOk(calls[n := Unqueued(id)], place) && CleanupOk(cleanup, calls[n := Unqueued(id)], place)
    ensures CallsOk(calls[n := Waiting(id)], Mark(place, id, Queued))
    ensures CleanupOk(cleanup, calls[n := Waiting(id)], Mark(place, id, Queued))
  {}

  lemma NewEntryHeld(q: seq<Reply>, place: map<nat, Place>, pending: map<Id, Pending>, id: Id, p: Pending)
    requires RepliesOk(q, place)
    requires id.Stage? ==> id.call !in place
    ensures RepliesOk(q, Mark(place, id, Queued))
    ensures Held(place, pending) ==> Held(place, pending[id := p]) && Held(Mark(place, id, Queued), pending[id := p])
  {}

  predicate Registrable(s: System, n: nat) {
    n in s.client.entering && s.client.entering[n].id !in s.client.pending && |s.client.pending| < MAX_PENDING
  }

  predicate QueueTakes(c: Client) { c.queueOpen && |c.queue| < MAX_PENDING }

  lemma RegistersQueued(s: System, n: nat)
    requires Inv(s) && Registrable(s, n) && QueueTakes(s.client)
    ensures Linked(Apply(s, Registers(n)))
  {
    var c := s.client;
    var e := c.entering[n];
    var p := Pending(n, e.frame, e.kind.Schedule?);
    assert PhaseOk(n, c.calls[n]);
    GrownPending(c.queue, Queued, s.place, c.pending, e.id, p);
    GrownPending(s.toDaemon, Wire, s.place, c.pending, e.id, p);
    NewEntryElsewhere(s.daemon.cancellations, c.writing, s.place, c.pending, e.id, p);
    NewEntryHeld(s.toClient, s.place, c.pending, e.id, p);
    RegisteredCall(c.calls, c.cleanup, s.place, n, e.id);
    Enqueued(c.queue, Queued, s.place, c.pending[e.id := p], e);
    MarkedElsewhere(s.toDaemon, Wire, s.place, c.pending[e.id := p], e.id, Queued);
  }

  lemma RegistersUnqueued(s: System, n: nat)
    requires Inv(s) && Registrable(s, n) && !QueueTakes(s.client)
    ensures Linked(Apply(s, Registers(n)))
  {
    var c := s.client;
    var e := c.entering[n];
    var p := Pending(n, e.frame, e.kind.Schedule?);
    assert PhaseOk(n, c.calls[n]);
    GrownPending(c.queue, Queued, s.place, c.pending, e.id, p);
    GrownPending(s.toDaemon, Wire, s.place, c.pending, e.id, p);
    NewEntryElsewhere(s.daemon.cancellations, c.writing, s.place, c.pending, e.id, p);
    NewEntryHeld(s.toClient, s.place, c.pending, e.id, p);
    RegisteredCall(c.calls, c.cleanup, s.place, n, e.id);
  }

  lemma RegistersInv(s: System, n: nat)
    requires Inv(s) && Enabled(s, Registers(n))
    ensures Inv(Apply(s, Registers(n)))
  {
    RegisterValid(s.client, n);
    if !Registrable(s, n) {
      AbandonsInv(s, n);
    } else if QueueTakes(s.client) {
      RegistersQueued(s, n);
    } else {
      RegistersUnqueued(s, n);
    }
  }

  lemma OverInv(s: System, n: nat)
    requires Inv(s) && n in s.client.calls && !s.client.calls[n].Entering?
    ensures Inv(s.(client := s.client.(calls := s.client.calls[n := Over])))
  {
    OverValid(s.client, n);
  }

  lemma RollsBackInv(s: System, n: nat)
    requires Inv(s) && Enabled(s, RollsBack(n))
    ensures Inv(Apply(s, RollsBack(n)))
  {
    var id := s.client.calls[n].id;
    assert PhaseOk(n, s.client.calls[n]);
    RemoveLinked(s, id, Failed);
    RemoveChanges(s.client, id, Failed);
    OverInv(s.(client := Remove(s.client, id, Failed)), n);
  }

  lemma DropsInv(s: System, n: nat)
    requires Inv(s) && Enabled(s, Drops(n))
    ensures Inv(Apply(s, Drops(n)))
  {
    DropValid(s.client, n);
  }

  lemma ReturnsInv(s: System, n: nat)
    requires Inv(s) && Enabled(s, Returns(n))
    ensures Inv(Apply(s, Returns(n)))
  {
    if s.client.calls[n].outcome.Replied? {
      OverInv(s, n);
    } else {
      DropsInv(s, n);
      assert Apply(s, Returns(n)) == Apply(s, Drops(n));
    }
  }

  lemma LessCleanup(s: System, id: Id)
    requires Inv(s)
    ensures Inv(s.(client := s.client.(cleanup := s.client.cleanup - multiset{id})))
  {}

  lemma CleansUpInv(s: System, id: Id)
    requires Inv(s) && Enabled(s, CleansUp(id))
    ensures Inv(Apply(s, CleansUp(id)))
  {
    RemoveLinked(s, id, Failed);
    var s1 := s.(client := Remove(s.client, id, Failed));
    LessCleanup(s1, id);
    assert Apply(s, CleansUp(id)) == s1.(client := s1.client.(cleanup := s1.client.cleanup - multiset{id}));
  }

  /** The head of the queue leaves it without being written. */
  lemma SkippedLinked(s: System)
    requires Inv(s) && s.client.queue != []
    ensures
      var e := s.client.queue[0];
      Inv(s.(client := s.client.(queue := s.client.queue[1..]), place := Mark(s.place, e.id, Skipped)))
  {
    var c := s.client;
    var e := c.queue[0];
    assert EnvelopeOk(e, Queued, s.place, c.pending);
    Dequeued(c.queue, Queued, s.place, c.pending, Skipped);
    MarkedElsewhere(s.toDaemon, Wire, s.place, c.pending, e.id, Skipped);
  }

  lemma StartedLinked(s: System)
    requires Inv(s) && s.client.queue != [] && s.client.writing.None?
    requires s.client.queue[0].id in s.client.pending
    ensures
      var e := s.client.queue[0];
      Inv(s.(client := s.client.(queue := s.client.queue[1..], writing := Some(e)),
             place := Mark(s.place, e.id, Writing)))
  {
    var c := s.client;
    var e := c.queue[0];
    assert EnvelopeOk(e, Queued, s.place, c.pending);
    Dequeued(c.queue, Queued, s.place, c.pending, Writing);
    MarkedElsewhere(s.toDaemon, Wire, s.place, c.pending, e.id, Writing);
  }

  lemma WriterTakesInv(s: System)
    requires Inv(s) && Enabled(s, WriterTakes)
    ensures Inv(Apply(s, WriterTakes))
  {
    var c := s.client;
    var e := c.queue[0];
    if e.id !in c.pending || ReplyChannelClosed(c, c.pending[e.id]) {
      SkippedLinked(s);
      RemoveLinked(s.(client := c.(queue := c.queue[1..]), place := Mark(s.place, e.id, Skipped)), e.id, Failed);
    } else {
      StartedLinked(s);
    }
  }

  lemma WriterFinishesInv(s: System)
    requires Inv(s) && Enabled(s, WriterFinishes)
    ensures Inv(Apply(s, WriterFinishes))
  {
    var c := s.client;
    var e := c.writing.value;
    Enqueued(s.toDaemon, Wire, s.place, c.pending, e);
    MarkedElsewhere(c.queue, Queued, s.place, c.pending, e.id, Wire);
  }

  /** The reply at the head of the channel leaves it and is read. */
  lemma ReplySettled(s: System)
    requires Inv(s) && s.toClient != []
    ensures
      Inv(s.(toClient := s.toClient[1..], place := Mark(s.place, s.toClient[0].id, Settled)))
  {
    var c := s.client;
    var id := s.toClient[0].id;
    ReplyTaken(s.toClient, s.place);
    MarkedElsewhere(c.queue, Queued, s.place, c.pending, id, Settled);
    MarkedElsewhere(s.toDaemon, Wire, s.place, c.pending, id, Settled);
  }

  lemma ReaderDeliversInv(s: System)
    requires Inv(s) && Enabled(s, ReaderDelivers)
    ensures Inv(Apply(s, ReaderDelivers))
  {
    var id := s.toClient[0].id;
    ReplySettled(s);
    RemoveLinked(s.(toClient := s.toClient[1..], place := Mark(s.place, id, Settled)), id, Replied(id));
    ReaderDeliverValid(s.client, id);
  }

  /** The daemon takes the next message; `to` is where a Schedule goes from the wire. */
  lemma MessageTaken(s: System, to: Place)
    requires Inv(s) && s.toDaemon != [] && (to == Running || to == Replying)
    ensures
      var id := s.toDaemon[0].id;
      Inv(s.(toDaemon := s.toDaemon[1..], place := Mark(s.place, id, to)))
  {
    var c := s.client;
    var e := s.toDaemon[0];
    assert EnvelopeOk(e, Wire, s.place, c.pending);
    Dequeued(s.toDaemon, Wire, s.place, c.pending, to);
    MarkedElsewhere(c.queue, Queued, s.place, c.pending, e.id, to);
  }

  ghost function Taken(s: System, to: Place): System
    requires s.toDaemon != []
  {
    s.(toDaemon := s.toDaemon[1..], place := Mark(s.place, s.toDaemon[0].id, to))
  }

  lemma AdmittedApply(s: System, sent: bool)
    requires Enabled(s, DaemonTakes(sent)) && s.toDaemon[0].kind.Schedule? && Rejection(s.daemon, s.toDaemon[0]).None?
    ensures Apply(s, DaemonTakes(sent)) == Taken(s, Running).(daemon := OnSchedule(s.daemon, s.toDaemon[0]).0)
  {}

  /** An admitted Schedule becomes a running job. */
  lemma ScheduleAdmitted(s: System, sent: bool)
    requires Inv(s) && Enabled(s, DaemonTakes(sent)) && s.toDaemon[0].kind.Schedule?
    requires Rejection(s.daemon, s.toDaemon[0]).None?
    ensures Inv(Apply(s, DaemonTakes(sent)))
  {
    var e := s.toDaemon[0];
    assert EnvelopeOk(e, Wire, s.place, s.client.pending);
    ScheduleInv(s.daemon, e);
    MessageTaken(s, Running);
    AdmittedTable(s.daemon.cancellations, Taken(s, Running).place, s.client.pending, e);
    AdmittedApply(s, sent);
    DaemonReplaced(Taken(s, Running), OnSchedule(s.daemon, e).0, s.toClient);
  }

  lemma AdmittedTable(table: map<Id, Entry>, place: map<nat, Place>, pending: map<Id, Pending>, e: Envelope)
    requires TableOk(table, place, pending) && EnvelopeOk(e, Running, place, pending) && e.id.Stage?
    ensures TableOk(table[e.id := Entry(true, e.payload)], place, pending)
  {}

  lemma RefusedApply(s: System, sent: bool)
    requires Enabled(s, DaemonTakes(sent)) && s.toDaemon[0].kind.Schedule? && Rejection(s.daemon, s.toDaemon[0]).Some?
    ensures
      var e := s.toDaemon[0];
      var d', r := OnSchedule(s.daemon, e).0, Reply(e.id, Rejection(s.daemon, e).value);
      Apply(s, DaemonTakes(sent)) ==
        if sent then Taken(s, Replying).(daemon := d', toClient := s.toClient + [r])
        else Taken(s, Running).(daemon := Stop(d'))
  {}

  lemma RefusedSent(s: System)
    requires Inv(s) && s.daemon.running && s.toDaemon != [] && s.toDaemon[0].kind.Schedule?
    requires Rejection(s.daemon, s.toDaemon[0]).Some? && !s.client.alive
    ensures
      var e := s.toDaemon[0];
      var r := Reply(e.id, Rejection(s.daemon, e).value);
      Inv(Taken(s, Replying).(daemon := OnSchedule(s.daemon, e).0, toClient := s.toClient + [r]))
  {
    var e := s.toDaemon[0];
    var r := Reply(e.id, Rejection(s.daemon, e).value);
    assert EnvelopeOk(e, Wire, s.place, s.client.pending);
    ScheduleInv(s.daemon, e);
    MessageTaken(s, Replying);
    ReplyQueued(s.toClient, s.place, r);
    DaemonReplaced(Taken(s, Replying), OnSchedule(s.daemon, e).0, s.toClient + [r]);
  }

  /** A refusal is possible only once the connection is retired; its reply may not even be queued. */
  lemma ScheduleRefused(s: System, sent: bool)
    requires Inv(s) && Enabled(s, DaemonTakes(sent)) && s.toDaemon[0].kind.Schedule?
    requires Rejection(s.daemon, s.toDaemon[0]).Some? && !s.client.alive
    ensures Inv(Apply(s, DaemonTakes(sent)))
  {
    RefusedApply(s, sent);
    if sent {
      RefusedSent(s);
    } else {
      MessageTaken(s, Running);
      DaemonReplaced(Taken(s, Running), Stop(OnSchedule(s.daemon, s.toDaemon[0]).0), s.toClient);
    }
  }

  lemma ScheduleTakenInv(s: System, sent: bool)
    requires Inv(s) && Enabled(s, DaemonTakes(sent)) && s.toDaemon[0].kind.Schedule?
    ensures Inv(Apply(s, DaemonTakes(sent)))
  {
    if s.client.alive { AdmissionSucceeds(s); }
    if Rejection(s.daemon, s.toDaemon[0]).None? { ScheduleAdmitted(s, sent); } else { ScheduleRefused(s, sent); }
  }

  lemma CancelledTable(d: Daemon, e: Envelope, place: map<nat, Place>, pending: map<Id, Pending>)
    requires !e.kind.Schedule? && TableOk(d.cancellations, place, pending)
    ensures TableOk(OnMessage(d, e).0.cancellations, place, pending)
  {}

  lemma ControlTakenInv(s: System, sent: bool)
    requires Inv(s) && Enabled(s, DaemonTakes(sent)) && !s.toDaemon[0].kind.Schedule?
    ensures Inv(Apply(s, DaemonTakes(sent)))
  {
    var e := s.toDaemon[0];
    assert EnvelopeOk(e, Wire, s.place, s.client.pending);
    MessageTaken(s, Running);
    var s1 := s.(toDaemon := s.toDaemon[1..]);
    assert Inv(s1);
    NextInv(s.daemon, Message(e, sent));
    DaemonAnswers(s1, Message(e, sent));
  }

  /** Only the daemon and its reply channel change. */
  lemma DaemonReplaced(s: System, d': Daemon, q': seq<Reply>)
    requires Inv(s) && DaemonInv(d')
    requires TableOk(d'.cancellations, s.place, s.client.pending)
    requires RepliesOk(q', s.place) && (s.client.alive ==> NoRejection(q'))
    ensures Inv(s.(daemon := d', toClient := q'))
  {}

  lemma ControlReply(d: Daemon, e: Envelope)
    requires !e.kind.Schedule?
    ensures
      var r := OnMessage(d, e).1;
      && r.Some? && r.value.id == e.id
      && !r.value.code.SchedulerBusy? && !r.value.code.DuplicateRequestId?
  {}

  lemma DaemonAnswers(s: System, ev: Event)
    requires Inv(s) && ev.Message? && s.daemon.running
    requires !ev.envelope.kind.Schedule? && ev.envelope.id.Control?
    ensures
      var (d', r) := Next(s.daemon, ev);
      Inv(s.(daemon := d', toClient := if r.Some? then s.toClient + [r.value] else s.toClient))
  {
    NextInv(s.daemon, ev);
    CancelledTable(s.daemon, ev.envelope, s.place, s.client.pending);
    ControlReply(s.daemon, ev.envelope);
    var r := OnMessage(s.daemon, ev.envelope).1.value;
    ReplyQueued(s.toClient, s.place, r);
    var d' := Next(s.daemon, ev).0;
    DaemonReplaced(s, d', s.toClient + [r]);
    DaemonReplaced(s, d', s.toClient);
  }

  /** A job's Schedule turns into its reply. */
  lemma JobReplies(s: System, id: Id, table': map<Id, Entry>)
    requires Inv(s) && id.Stage? && id.call in s.place && s.place[id.call] == Running
    requires TableOk(table', Mark(s.place, id, Replying), s.client.pending)
    ensures
      var place' := Mark(s.place, id, Replying);
      Linked(s.(daemon := s.daemon.(cancellations := table'), place := place'))
  {
    var c := s.client;
    MarkedElsewhere(c.queue, Queued, s.place, c.pending, id, Replying);
    MarkedElsewhere(s.toDaemon, Wire, s.place, c.pending, id, Replying);
  }

  lemma RepliesReplaced(s: System, d': Daemon, q': seq<Reply>)
    requires Linked(s) && d'.cancellations == s.daemon.cancellations
    requires Valid(s.client) && DaemonInv(d')
    requires RepliesOk(q', s.place) && (s.client.alive ==> NoRejection(q'))
    ensures Inv(s.(daemon := d', toClient := q'))
  {}

  lemma FinishReply(d: Daemon, i: nat, cancelled: bool, sent: bool)
    requires Possible(d, Finish(i, cancelled, sent))
    ensures
      var r := OnFinished(d, i, cancelled).1;
      && r.Some? && r.value.id == d.jobs[i].id
      && !r.value.code.SchedulerBusy? && !r.value.code.DuplicateRequestId?
      && Next(d, Finish(i, cancelled, sent)).1 == if sent then r else None
  {}

  lemma FinishedTableNext(d: Daemon, ev: Event, place: map<nat, Place>, pending: map<Id, Pending>)
    requires ev.Finish? && Possible(d, ev) && TableOk(d.cancellations, place, pending)
    ensures TableOk(Next(d, ev).0.cancellations, Mark(place, d.jobs[ev.index].id, Replying), pending)
  {}

  ghost function Finished(s: System, i: nat, d': Daemon): System
    requires i < |s.daemon.jobs|
  {
    s.(daemon := s.daemon.(cancellations := d'.cancellations), place := Mark(s.place, s.daemon.jobs[i].id, Replying))
  }

  lemma FinishedLinked(s: System, i: nat, cancelled: bool, sent: bool)
    requires Possible(s.daemon, Finish(i, cancelled, sent)) && Inv(s)
    ensures
      var d' := Next(s.daemon, Finish(i, cancelled, sent)).0;
      DaemonInv(d') && Linked(Finished(s, i, d'))
  {
    var ev := Finish(i, cancelled, sent);
    FinishedInv(s.daemon, i, cancelled);
    NextInv(s.daemon, ev);
    FinishedTableNext(s.daemon, ev, s.place, s.client.pending);
    JobReplies(s, s.daemon.jobs[i].id, Next(s.daemon, ev).0.cancellations);
  }

  lemma FinishedReplies(s: System, i: nat, cancelled: bool, sent: bool)
    requires Possible(s.daemon, Finish(i, cancelled, sent)) && Inv(s)
    ensures
      var r := Next(s.daemon, Finish(i, cancelled, sent)).1;
      var q' := if r.Some? then s.toClient + [r.value] else s.toClient;
      && RepliesOk(q', Mark(s.place, s.daemon.jobs[i].id, Replying))
      && (s.client.alive ==> NoRejection(q'))
  {
    FinishReply(s.daemon, i, cancelled, sent);
    FinishedPlace(s, i, cancelled);
    ReplyQueued(s.toClient, s.place, OnFinished(s.daemon, i, cancelled).1.value);
  }

  lemma FinishedPlace(s: System, i: nat, cancelled: bool)
    requires Possible(s.daemon, Finish(i, cancelled, true)) && Inv(s)
    ensures var id := s.daemon.jobs[i].id; id.Stage? && id.call in s.place && s.place[id.call] == Running
  {
    FinishedInv(s.daemon, i, cancelled);
  }

  lemma DaemonFinishesInv(s: System, i: nat, cancelled: bool, sent: bool)
    requires Inv(s) && Enabled(s, DaemonFinishes(i, cancelled, sent))
    ensures Inv(Apply(s, DaemonFinishes(i, cancelled, sent)))
  {
    FinishedLinked(s, i, cancelled, sent);
    FinishedReplies(s, i, cancelled, sent);
    var (d', r) := Next(s.daemon, Finish(i, cancelled, sent));
    RepliesReplaced(Finished(s, i, d'), d', if r.Some? then s.toClient + [r.value] else s.toClient);
  }

  lemma RetiresInv(s: System)
    requires Inv(s)
    ensures Inv(s.(client := Retire(s.client)))
  {}

  lemma WriterStopsInv(s: System)
    requires Inv(s)
    ensures Inv(s.(client := WriterStop(s.client)))
  {}

  lemma ReaderReservesInv(s: System, length: nat)
    requires Inv(s) && Enabled(s, ReaderReserves(length))
    ensures Inv(Apply(s, ReaderReserves(length)))
  {
    RetiresInv(s);
  }

  lemma DaemonBreaksInv(s: System)
    requires Inv(s)
    ensures Inv(s.(daemon := Stop(s.daemon)))
  {}

  lemma StepInv(s: System, e: Step)
    requires Inv(s) && Enabled(s, e)
    ensures Inv(Apply(s, e))
  {
    match e
    case Begins(n, env) => BeginsInv(s, n, env);
    case Abandons(n) => AbandonsInv(s, n);
    case Registers(n) => RegistersInv(s, n);
    case RollsBack(n) => RollsBackInv(s, n);
    case Drops(n) => DropsInv(s, n);
    case Returns(n) => ReturnsInv(s, n);
    case CleansUp(id) => CleansUpInv(s, id);
    case WriterTakes => WriterTakesInv(s);
    case WriterFinishes => WriterFinishesInv(s);
    case ReaderDelivers => ReaderDeliversInv(s);
    case DaemonTakes(sent) =>
      if s.toDaemon[0].kind.Schedule? { ScheduleTakenInv(s, sent); } else { ControlTakenInv(s, sent); }
    case DaemonFinishes(i, cancelled, sent) => DaemonFinishesInv(s, i, cancelled, sent);
    case WriterStops => WriterStopsInv(s);
    case ReaderReserves(length) => ReaderReservesInv(s, length);
    case Retires => RetiresInv(s);
    case Drains(id) => RemoveLinked(s, id, Failed);
    case DaemonBreaks => DaemonBreaksInv(s);
  }

  lemma {:induction false} RunInv(s: System, steps: seq<Step>, s': System)
    requires Inv(s) && Run(s, steps, s')
    ensures Inv(s')
    decreases |steps|
  {
    if steps != [] {
      StepInv(s, steps[0]);
      RunInv(Apply(s, steps[0]), steps[1..], s');
    }
  }

  ghost predicate Reachable(s: System) { exists steps :: Run(Start, steps, s) }

  lemma ReachableInv(s: System)
    requires Reachable(s)
    ensures Inv(s)
  {
    var steps :| Run(Start, steps, s);
    InitialValid();
    FreshInv();
    RunInv(Start, steps, s);
  }

  // ---- main results --------------------------------------------------------

  /** However calls, dropped waiters, timeouts, cancels and completions interleave: while the
      connection is alive the daemon admits every Schedule it takes, no refusal is on its way
      back, and every daemon entry is covered by a pending entry that still holds its slot
      and at least as many bytes. */
  lemma NeverRejected(s: System)
    requires Reachable(s) && s.client.alive
    ensures s.daemon.running && s.toDaemon != [] && s.toDaemon[0].kind.Schedule?
            ==> Rejection(s.daemon, s.toDaemon[0]) == None
    ensures NoRejection(s.toClient)
    ensures Covered(s.daemon.cancellations, s.client.pending)
  {
    ReachableInv(s);
    TableIsCovered(s);
    if s.daemon.running && s.toDaemon != [] && s.toDaemon[0].kind.Schedule? { AdmissionSucceeds(s); }
  }

  /** Client conservation: free permits and the permits of entering and pending calls add up
      to the two limits in every reachable state, also after the connection died. */
  lemma PermitsConserved(s: System)
    requires Reachable(s)
    ensures
      var c := s.client;
      && c.freeSlots + Sum(c.entering, EnvelopeSlots) + Sum(c.pending, EntrySlots) == JOB_SLOTS
      && c.freeBytes + c.reading + Sum(c.entering, EnvelopeBytes) + Sum(c.pending, EntryBytes) == BYTE_BUDGET
  {
    ReachableInv(s);
  }

  /** The job slot of call `n` is held, by its local variables or by its pending entry. */
  predicate HoldsSlot(c: Client, n: nat) {
    (n in c.entering && c.entering[n].kind.Schedule?) || Stage(n) in c.pending
  }

  ghost predicate Written(s: System, n: nat) {
    n in s.place && !s.place[n].Queued? && !s.place[n].Skipped?
  }

  ghost predicate Bookkept(s: System) {
    && Tables(s.client)
    && CallsOk(s.client.calls, s.place)
    && CleanupOk(s.client.cleanup, s.client.calls, s.place)
  }

  predicate CallStep(e: Step) {
    e.Begins? || e.Abandons? || e.Registers? || e.RollsBack? || e.Drops? || e.Returns? || e.CleansUp?
  }

  lemma SlotReleasedAbandon(s: System, m: nat, n: nat)
    requires Bookkept(s) && m in s.client.entering
    requires HoldsSlot(s.client, n) && !HoldsSlot(Abandon(s.client, m), n)
    ensures !Written(s, n)
  {
    assert PhaseOk(m, s.client.calls[m]);
  }

  lemma SlotReleasedRegister(s: System, m: nat, n: nat)
    requires Bookkept(s) && Enabled(s, Registers(m))
    requires HoldsSlot(s.client, n) && !HoldsSlot(Register(s.client, m), n)
    ensures !Written(Apply(s, Registers(m)), n)
  {
    assert PhaseOk(m, s.client.calls[m]);
  }

  lemma SlotReleasedRemove(s: System, id: Id, o: Outcome, n: nat)
    requires HoldsSlot(s.client, n) && !HoldsSlot(Remove(s.client, id, o), n)
    ensures id == Stage(n)
  {}

  lemma SlotReleasedByCall(s: System, e: Step, n: nat)
    requires Bookkept(s) && Enabled(s, e) && CallStep(e)
    requires HoldsSlot(s.client, n) && !HoldsSlot(Apply(s, e).client, n)
    ensures !Written(Apply(s, e), n)
  {
    match e
    case Abandons(m) => SlotReleasedAbandon(s, m, n);
    case Registers(m) => SlotReleasedRegister(s, m, n);
    case RollsBack(m) =>
      assert PhaseOk(m, s.client.calls[m]);
      SlotReleasedRemove(s, s.client.calls[m].id, Failed, n);
    case CleansUp(id) => SlotReleasedRemove(s, id, Failed, n);
    case _ =>
  }

  lemma SlotReleasedByTransport(s: System, e: Step, n: nat)
    requires Enabled(s, e) && !CallStep(e)
    requires HoldsSlot(s.client, n) && !HoldsSlot(Apply(s, e).client, n)
    ensures
      || !Written(Apply(s, e), n)
      || (e.ReaderDelivers? && s.toClient[0].id == Stage(n))
      || !s.client.alive
  {
  }

  /** A Schedule's slot comes free only if the Schedule has not been written, or this step
      reads its own reply, or the transport has been retired. */
  lemma SlotRelease(s: System, e: Step, n: nat)
    requires Reachable(s) && Enabled(s, e)
    requires HoldsSlot(s.client, n) && !HoldsSlot(Apply(s, e).client, n)
    ensures
      || !Written(Apply(s, e), n)
      || (e.ReaderDelivers? && s.toClient[0].id == Stage(n))
      || !s.client.alive
  {
    ReachableInv(s);
    if CallStep(e) { SlotReleasedByCall(s, e, n); } else { SlotReleasedByTransport(s, e, n); }
  }

  /** A Schedule that gave its slot back unwritten is never written afterwards, in any run. */
  ghost predicate Forsaken(s: System, n: nat) {
    n in s.client.calls && !HoldsSlot(s.client, n) && !Written(s, n)
  }

  lemma RegisterHolds(c: Client, m: nat, n: nat)
    requires CallsMatch(c.calls, c.entering) && m in c.entering && !HoldsSlot(c, n)
    ensures !HoldsSlot(Register(c, m), n)
    ensures m == n ==> c.entering[m].id.Control?
  {
    assert PhaseOk(m, c.calls[m]);
  }

  lemma RemoveHolds(c: Client, id: Id, o: Outcome, n: nat)
    requires !HoldsSlot(c, n)
    ensures !HoldsSlot(Remove(c, id, o), n)
    ensures n in c.calls ==> n in Remove(c, id, o).calls
  {}

  lemma DropHolds(c: Client, m: nat, n: nat)
    requires m in c.calls && c.calls[m].Answered? && !HoldsSlot(c, n) && n in c.calls
    ensures !HoldsSlot(Return(c, m), n) && n in Return(c, m).calls
  {}

  lemma ForsakenRegister(s: System, m: nat, n: nat)
    requires CallsMatch(s.client.calls, s.client.entering)
    requires Enabled(s, Registers(m)) && Forsaken(s, n)
    ensures Forsaken(Apply(s, Registers(m)), n)
  {
    RegisterHolds(s.client, m, n);
  }

  lemma ForsakenClientStep(s: System, e: Step, n: nat)
    requires CallsMatch(s.client.calls, s.client.entering)
    requires Enabled(s, e) && Forsaken(s, n) && CallStep(e)
    ensures Forsaken(Apply(s, e), n)
  {
    var c := s.client;
    match e
    case Registers(m) => ForsakenRegister(s, m, n);
    case RollsBack(m) => RemoveHolds(c, c.calls[m].id, Failed, n);
    case CleansUp(id) => RemoveHolds(c, id, Failed, n);
    case Returns(m) => DropHolds(c, m, n);
    case _ =>
  }

  /** The Schedule a transport step moves on from a place behind the writer. */
  function Moved(s: System, e: Step): Id
    requires Enabled(s, e) && (e.WriterFinishes? || e.ReaderDelivers? || e.DaemonTakes? || e.DaemonFinishes?)
  {
    match e
    case WriterFinishes => s.client.writing.value.id
    case ReaderDelivers => s.toClient[0].id
    case DaemonTakes(_) => s.toDaemon[0].id
    case DaemonFinishes(i, _, _) => s.daemon.jobs[i].id
  }

  lemma MovedWasWritten(s: System, e: Step)
    requires Inv(s) && Enabled(s, e)
    requires e.WriterFinishes? || e.ReaderDelivers? || e.DaemonTakes? || e.DaemonFinishes?
    ensures Moved(s, e).Stage? ==> Written(s, Moved(s, e).call)
  {
    match e
    case WriterFinishes => assert EnvelopeOk(s.client.writing.value, Writing, s.place, s.client.pending);
    case DaemonTakes(_) => assert EnvelopeOk(s.toDaemon[0], Wire, s.place, s.client.pending);
    case DaemonFinishes(i, _, _) => FinishedInv(s.daemon, i, e.cancelled);
    case ReaderDelivers =>
  }

  predicate DaemonStep(e: Step) { e.DaemonTakes? || e.DaemonFinishes? || e.DaemonBreaks? }

  lemma ForsakenDaemon(s: System, e: Step, n: nat)
    requires Enabled(s, e) && Forsaken(s, n) && DaemonStep(e)
    requires !e.DaemonBreaks? ==> Moved(s, e) != Stage(n)
    ensures Forsaken(Apply(s, e), n)
  {}

  lemma ForsakenTransport(s: System, e: Step, n: nat)
    requires Enabled(s, e) && Forsaken(s, n)
    requires !CallStep(e) && !DaemonStep(e)
    requires e.WriterFinishes? || e.ReaderDelivers? ==> Moved(s, e) != Stage(n)
    ensures Forsaken(Apply(s, e), n)
  {
    var c := s.client;
    match e
    case WriterTakes => RemoveHolds(c.(queue := c.queue[1..]), c.queue[0].id, Failed, n);
    case ReaderDelivers => RemoveHolds(c, s.toClient[0].id, Replied(s.toClient[0].id), n);
    case Drains(id) => RemoveHolds(c, id, Failed, n);
    case _ =>
  }

  lemma ForsakenStep(s: System, e: Step, n: nat)
    requires Inv(s) && Enabled(s, e) && Forsaken(s, n)
    ensures Forsaken(Apply(s, e), n)
  {
    if CallStep(e) {
      ForsakenClientStep(s, e, n);
    } else {
      if e.WriterFinishes? || e.ReaderDelivers? || e.DaemonTakes? || e.DaemonFinishes? { MovedWasWritten(s, e); }
      if DaemonStep(e) { ForsakenDaemon(s, e, n); } else { ForsakenTransport(s, e, n); }
    }
  }

  lemma {:induction false} ForsakenForever(s: System, steps: seq<Step>, s': System, n: nat)
    requires Inv(s) && Run(s, steps, s') && Forsaken(s, n)
    ensures Forsaken(s', n)
    decreases |steps|
  {
    if steps != [] {
      StepInv(s, steps[0]);
      ForsakenStep(s, steps[0], n);
      ForsakenForever(Apply(s, steps[0]), steps[1..], s', n);
    }
  }

  /** The call knows its outcome, or has returned or been dropped. */
  predicate Resolved(c: Client, n: nat) { n in c.calls && (c.calls[n].Answered? || c.calls[n].Over?) }

  /** It keeps its outcome or is over, and stays over. */
  predicate StillResolved(c: Client, c': Client, n: nat) {
    Resolved(c, n) && n in c'.calls && (c'.calls[n] == c.calls[n] || c'.calls[n].Over?)
  }

  lemma RemoveKeepsAnswers(c: Client, id: Id, o: Outcome, n: nat)
    requires Resolved(c, n)
    ensures StillResolved(c, Remove(c, id, o), n)
  {}

  lemma DropKeepsAnswers(c: Client, m: nat, n: nat)
    requires m in c.calls && (c.calls[m].Unqueued? || c.calls[m].Waiting? || c.calls[m].Answered?)
    requires Resolved(c, n)
    ensures StillResolved(c, Drop(c, m), n)
  {}

  lemma RegisterKeepsAnswers(c: Client, m: nat, n: nat)
    requires CallsMatch(c.calls, c.entering) && m in c.entering && Resolved(c, n)
    ensures StillResolved(c, Abandon(c, m), n) && StillResolved(c, Register(c, m), n)
  {}

  lemma ResolvedByCall(s: System, e: Step, n: nat)
    requires CallsMatch(s.client.calls, s.client.entering) && Enabled(s, e) && CallStep(e) && Resolved(s.client, n)
    ensures StillResolved(s.client, Apply(s, e).client, n)
  {
    var c := s.client;
    match e
    case Begins(_, _) =>
    case Abandons(m) => RegisterKeepsAnswers(c, m, n);
    case Registers(m) => RegisterKeepsAnswers(c, m, n);
    case RollsBack(m) => RemoveKeepsAnswers(c, c.calls[m].id, Failed, n);
    case CleansUp(id) => RemoveKeepsAnswers(c, id, Failed, n);
    case Drops(m) => DropKeepsAnswers(c, m, n);
    case Returns(m) => DropKeepsAnswers(c, m, n);
  }

  lemma ResolvedByTransport(s: System, e: Step, n: nat)
    requires Enabled(s, e) && !CallStep(e) && Resolved(s.client, n)
    ensures StillResolved(s.client, Apply(s, e).client, n)
  {
    var c := s.client;
    match e
    case WriterTakes => RemoveKeepsAnswers(c.(queue := c.queue[1..]), c.queue[0].id, Failed, n);
    case ReaderDelivers => RemoveKeepsAnswers(c, s.toClient[0].id, Replied(s.toClient[0].id), n);
    case Drains(id) => RemoveKeepsAnswers(c, id, Failed, n);
    case _ =>
  }

  lemma ResolvedStep(s: System, e: Step, n: nat)
    requires Inv(s) && Enabled(s, e) && Resolved(s.client, n)
    ensures StillResolved(s.client, Apply(s, e).client, n)
  {
    if CallStep(e) { ResolvedByCall(s, e, n); } else { ResolvedByTransport(s, e, n); }
  }

  lemma {:induction false} ResolvedInRun(s: System, steps: seq<Step>, s': System, n: nat)
    requires Inv(s) && Run(s, steps, s') && Resolved(s.client, n)
    ensures StillResolved(s.client, s'.client, n)
    decreases |steps|
  {
    if steps != [] {
      StepInv(s, steps[0]);
      ResolvedStep(s, steps[0], n);
      ResolvedInRun(Apply(s, steps[0]), steps[1..], s', n);
    }
  }

  /** No waiter is resolved twice: in every continuation of every run a known outcome stays the
      same until the call is over, and a call that is over stays over. */
  lemma ResolvedOnce(s: System, steps: seq<Step>, s': System, n: nat)
    requires Reachable(s) && Run(s, steps, s') && Resolved(s.client, n)
    ensures n in s'.client.calls
    ensures s'.client.calls[n] == s.client.calls[n] || s'.client.calls[n].Over?
  {
    ReachableInv(s);
    ResolvedInRun(s, steps, s', n);
  }

  lemma ReplyMatchesStage(s: System, n: nat)
    requires Reachable(s)
    requires n in s.client.calls && s.client.calls[n].Answered? && s.client.calls[n].id.Stage?
    ensures s.client.calls[n].outcome.Replied? ==> s.client.calls[n].outcome.id == Stage(n)
  {
    ReachableInv(s);
    assert PhaseOk(n, s.client.calls[n]);
  }
}
