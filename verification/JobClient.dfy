/** The desktop side of the model-job connection: its pending-reply map, its two
    semaphores, its writer queue, and one transition per atomic action of `call`,
    of the drop guard, and of the reader and writer tasks. */
module JobClient {
  import opened Common

  const JOB_SLOTS: nat := 32
  const MAX_PENDING: nat := 64
  const BYTE_BUDGET: nat := 128 * 1024 * 1024
  const MAX_FRAME: nat := 32 * 1024 * 1024

  /** A Schedule carries an id made for its own call; control messages carry a caller-chosen id. */
  datatype Id = Stage(call: nat) | Control(name: nat)

  datatype Kind =
    | Authenticate | Health | Schedule | Cancel
    | ConfigureRemote | Shutdown | ConfigureModels | ConfigureScheduler

  /** `payload` and `frame` are byte counts; `target` is the job a Cancel names, if it names one. */
  datatype Envelope = Envelope(id: Id, kind: Kind, payload: nat, frame: nat, target: Option<Id>)

  /** The encoded frame contains the payload, and only a Schedule's id is made by `call`. */
  predicate WellFormed(call: nat, e: Envelope) {
    && e.payload <= e.frame
    && (e.kind.Schedule? ==> e.id == Stage(call))
    && (!e.kind.Schedule? ==> e.id.Control?)
  }

  datatype Pending = Pending(call: nat, bytes: nat, job: bool)

  datatype Outcome = Replied(id: Id) | Failed

  /** Where one invocation of `call` stands. `Entering` holds its permits in local
      variables; `Unqueued` is registered but was not accepted by the writer queue;
      `Over` has returned or was dropped, so its reply channel is closed. */
  datatype Phase =
    | Entering(envelope: Envelope)
    | Unqueued(id: Id)
    | Waiting(id: Id)
    | Answered(id: Id, outcome: Outcome)
    | Over

  datatype Client = Client(
    alive: bool,
    queueOpen: bool,
    freeSlots: nat,
    freeBytes: nat,
    reading: nat,
    calls: map<nat, Phase>,
    entering: map<nat, Envelope>,
    pending: map<Id, Pending>,
    cleanup: multiset<Id>,
    queue: seq<Envelope>,
    writing: Option<Envelope>)

  const Initial := Client(true, true, JOB_SLOTS, BYTE_BUDGET, 0, map[], map[], map[], multiset{}, [], None)

  function EntryBytes(p: Pending): nat { p.bytes }
  function EntrySlots(p: Pending): nat { if p.job then 1 else 0 }
  function EnvelopeBytes(e: Envelope): nat { e.frame }
  function EnvelopeSlots(e: Envelope): nat { if e.kind.Schedule? then 1 else 0 }

  // ---- transitions -------------------------------------------------------

  datatype Refusal = Accepted | Closed | Busy | TooLarge | InflightLimit

  /** The checks `call` makes, in its order, before it holds any permit. */
  function Refuse(c: Client, e: Envelope): Refusal {
    if !c.alive then Closed
    else if e.kind.Schedule? && c.freeSlots == 0 then Busy
    else if e.frame > MAX_FRAME then TooLarge
    else if c.freeBytes < e.frame then InflightLimit
    else Accepted
  }

  function Begin(c: Client, n: nat, e: Envelope): Client {
    if Refuse(c, e) != Accepted then c.(calls := c.calls[n := Over])
    else
      c.(freeSlots := c.freeSlots - EnvelopeSlots(e),
         freeBytes := c.freeBytes - e.frame,
         calls := c.calls[n := Entering(e)],
         entering := c.entering[n := e])
  }

  /** Drops the permits a call still holds in its local variables. */
  function Abandon(c: Client, n: nat): Client
    requires n in c.entering
  {
    var e := c.entering[n];
    c.(freeSlots := c.freeSlots + EnvelopeSlots(e),
       freeBytes := c.freeBytes + e.frame,
       calls := c.calls[n := Over],
       entering := c.entering - {n})
  }

  /** One critical section on the pending map followed by `try_send`. */
  function Register(c: Client, n: nat): Client
    requires n in c.entering
  {
    var e := c.entering[n];
    if e.id in c.pending || |c.pending| >= MAX_PENDING then Abandon(c, n)
    else
      var moved := c.(entering := c.entering - {n},
                      pending := c.pending[e.id := Pending(n, e.frame, e.kind.Schedule?)]);
      if c.queueOpen && |c.queue| < MAX_PENDING then
        moved.(calls := c.calls[n := Waiting(e.id)], queue := c.queue + [e])
      else
        moved.(calls := c.calls[n := Unqueued(e.id)])
  }

  /** `pending.remove(id)`: the permits return and a caller still waiting gets `o`. */
  function Remove(c: Client, id: Id, o: Outcome): Client {
    if id !in c.pending then c
    else
      var p := c.pending[id];
      var waits := p.call in c.calls && c.calls[p.call].Waiting?;
      c.(freeSlots := c.freeSlots + EntrySlots(p),
         freeBytes := c.freeBytes + p.bytes,
         pending := c.pending - {id},
         calls := if waits then c.calls[p.call := Answered(id, o)] else c.calls)
  }

  function RollBack(c: Client, n: nat): Client
    requires n in c.calls && c.calls[n].Unqueued?
  {
    var gone := Remove(c, c.calls[n].id, Failed);
    gone.(calls := gone.calls[n := Over])
  }

  /** The drop guard of an unfinished call: a queued Schedule keeps its entry until
      the peer is done with it, everything else leaves a removal task behind. */
  function Drop(c: Client, n: nat): Client
    requires n in c.calls && (c.calls[n].Unqueued? || c.calls[n].Waiting? || c.calls[n].Answered?)
  {
    var id := c.calls[n].id;
    var keep := id.Stage? && !c.calls[n].Unqueued?;
    c.(calls := c.calls[n := Over], cleanup := if keep then c.cleanup else c.cleanup + multiset{id})
  }

  /** The caller takes its answer; only a real reply disarms the guard. */
  function Return(c: Client, n: nat): Client
    requires n in c.calls && c.calls[n].Answered?
  {
    if c.calls[n].outcome.Replied? then c.(calls := c.calls[n := Over]) else Drop(c, n)
  }

  function Cleanup(c: Client, id: Id): Client {
    Remove(c, id, Failed).(cleanup := c.cleanup - multiset{id})
  }

  predicate ReplyChannelClosed(c: Client, p: Pending) {
    p.call in c.calls && c.calls[p.call].Over?
  }

  /** The writer takes one message and skips it when nobody waits for it any more. */
  function WriterTake(c: Client): Client
    requires c.queue != [] && c.writing.None?
  {
    var e := c.queue[0];
    var rest := c.(queue := c.queue[1..]);
    if e.id !in c.pending || ReplyChannelClosed(c, c.pending[e.id]) then Remove(rest, e.id, Failed)
    else rest.(writing := Some(e))
  }

  function WriterDone(c: Client): Client { c.(writing := None) }

  function WriterStop(c: Client): Client { c.(alive := false, queueOpen := false, queue := [], writing := None) }

  /** The reader reserves a frame's length before it reads the frame; a failure ends the connection. */
  function ReaderReserve(c: Client, length: nat): Client
    requires c.reading == 0
  {
    if length <= c.freeBytes then c.(freeBytes := c.freeBytes - length, reading := length) else Retire(c)
  }

  function ReaderDeliver(c: Client, id: Id): Client {
    var gone := Remove(c, id, Replied(id));
    gone.(freeBytes := gone.freeBytes + c.reading, reading := 0)
  }

  function Retire(c: Client): Client { c.(alive := false) }

  // ---- conservation and the shape of the tables --------------------------

  ghost predicate Conserved(c: Client) {
    && c.freeSlots + Sum(c.entering, EnvelopeSlots) + Sum(c.pending, EntrySlots) == JOB_SLOTS
    && c.freeBytes + c.reading + Sum(c.entering, EnvelopeBytes) + Sum(c.pending, EntryBytes) == BYTE_BUDGET
  }

  predicate PhaseOk(n: nat, p: Phase) {
    match p
    case Entering(e) => WellFormed(n, e)
    case Over => true
    case Answered(id, o) => (id.Stage? ==> id == Stage(n)) && (o.Replied? ==> o.id == id)
    case _ => p.id.Stage? ==> p.id == Stage(n)
  }

  /** A registered call and its entry point at each other; an answered call has no entry. */
  predicate EntryOk(calls: map<nat, Phase>, id: Id, p: Pending) {
    && p.call in calls
    && p.job == id.Stage?
    && (id.Stage? ==> p.call == id.call)
    && match calls[p.call]
       case Unqueued(i) => i == id
       case Waiting(i) => i == id
       case Over => true
       case _ => false
  }

  ghost predicate CallsMatch(calls: map<nat, Phase>, entering: map<nat, Envelope>) {
    && (forall n :: n in entering <==> n in calls && calls[n].Entering?)
    && (forall n :: n in entering ==> calls[n] == Entering(entering[n]))
    && (forall n :: n in calls ==> PhaseOk(n, calls[n]))
  }

  ghost predicate EntriesMatch(calls: map<nat, Phase>, pending: map<Id, Pending>) {
    && (forall id :: id in pending ==> EntryOk(calls, id, pending[id]))
    && (forall i, j :: i in pending && j in pending && pending[i].call == pending[j].call ==> i == j)
  }

  ghost predicate Tables(c: Client) {
    CallsMatch(c.calls, c.entering) && EntriesMatch(c.calls, c.pending)
  }

  ghost predicate Valid(c: Client) { Conserved(c) && Tables(c) }

  lemma InitialValid()
    ensures Valid(Initial)
  {}

  lemma BeginTables(c: Client, n: nat, e: Envelope)
    requires Tables(c) && n !in c.calls && WellFormed(n, e)
    ensures Tables(Begin(c, n, e))
  {
    var q := if Refuse(c, e) == Accepted then Entering(e) else Over;
    NewCallMatches(c.calls, c.pending, n, q);
  }

  lemma NewCallMatches(calls: map<nat, Phase>, pending: map<Id, Pending>, n: nat, q: Phase)
    requires EntriesMatch(calls, pending) && n !in calls
    ensures EntriesMatch(calls[n := q], pending)
  {
    forall i | i in pending
      ensures EntryOk(calls[n := q], i, pending[i])
    {
      assert EntryOk(calls, i, pending[i]);
    }
  }

  lemma BeginValid(c: Client, n: nat, e: Envelope)
    requires Valid(c) && n !in c.calls && WellFormed(n, e)
    ensures Valid(Begin(c, n, e))
  {
    BeginTables(c, n, e);
    SumInsert(c.entering, EnvelopeSlots, n, e);
    SumInsert(c.entering, EnvelopeBytes, n, e);
  }

  lemma AbandonConserved(c: Client, n: nat)
    requires Conserved(c) && n in c.entering
    ensures Conserved(Abandon(c, n))
  {
    SumRemove(c.entering, EnvelopeSlots, n);
    SumRemove(c.entering, EnvelopeBytes, n);
  }

  lemma AbandonValid(c: Client, n: nat)
    requires Valid(c) && n in c.entering
    ensures Valid(Abandon(c, n))
  {
    AbandonConserved(c, n);
  }

  lemma RegisterConserved(c: Client, n: nat)
    requires Conserved(c) && n in c.entering && c.entering[n].id !in c.pending && |c.pending| < MAX_PENDING
    ensures Conserved(Register(c, n))
  {
    var e := c.entering[n];
    var p := Pending(n, e.frame, e.kind.Schedule?);
    SumRemove(c.entering, EnvelopeSlots, n);
    SumRemove(c.entering, EnvelopeBytes, n);
    SumInsert(c.pending, EntrySlots, e.id, p);
    SumInsert(c.pending, EntryBytes, e.id, p);
  }

  lemma NewEntryMatches(calls: map<nat, Phase>, pending: map<Id, Pending>, n: nat, id: Id, p: Pending, q: Phase)
    requires EntriesMatch(calls, pending) && id !in pending
    requires n in calls && calls[n].Entering?
    requires p.call == n && p.job == id.Stage? && (id.Stage? ==> id == Stage(n))
    requires q == Waiting(id) || q == Unqueued(id)
    ensures EntriesMatch(calls[n := q], pending[id := p])
  {
    forall i | i in pending
      ensures pending[i].call != n && EntryOk(calls[n := q], i, pending[i])
    {
      assert EntryOk(calls, i, pending[i]);
    }
  }

  lemma EnteredMatches(calls: map<nat, Phase>, entering: map<nat, Envelope>, n: nat, q: Phase)
    requires CallsMatch(calls, entering) && n in entering && !q.Entering? && PhaseOk(n, q)
    ensures CallsMatch(calls[n := q], entering - {n})
  {}

  lemma RegisterTables(c: Client, n: nat)
    requires Tables(c) && n in c.entering && c.entering[n].id !in c.pending && |c.pending| < MAX_PENDING
    ensures Tables(Register(c, n))
  {
    var e := c.entering[n];
    assert PhaseOk(n, c.calls[n]);
    var p := Pending(n, e.frame, e.kind.Schedule?);
    var q := if c.queueOpen && |c.queue| < MAX_PENDING then Waiting(e.id) else Unqueued(e.id);
    NewEntryMatches(c.calls, c.pending, n, e.id, p, q);
    EnteredMatches(c.calls, c.entering, n, q);
  }

  lemma RegisterValid(c: Client, n: nat)
    requires Valid(c) && n in c.entering
    ensures Valid(Register(c, n))
  {
    if c.entering[n].id in c.pending || |c.pending| >= MAX_PENDING {
      AbandonValid(c, n);
    } else {
      RegisterConserved(c, n);
      RegisterTables(c, n);
    }
  }

  lemma RemoveConserved(c: Client, id: Id, o: Outcome)
    requires Conserved(c)
    ensures Conserved(Remove(c, id, o))
  {
    if id in c.pending {
      SumRemove(c.pending, EntrySlots, id);
      SumRemove(c.pending, EntryBytes, id);
    }
  }

  lemma RemoveTables(c: Client, id: Id, o: Outcome)
    requires Tables(c)
    requires o.Replied? ==> o.id == id
    ensures Tables(Remove(c, id, o))
  {
    var r := Remove(c, id, o);
    forall i | i in r.pending
      ensures EntryOk(r.calls, i, r.pending[i])
    {
      assert EntryOk(c.calls, i, c.pending[i]);
    }
    if id in c.pending { assert EntryOk(c.calls, id, c.pending[id]); }
  }

  /** `d` is `c` without the entry `id`: its permits are free again, and of all callers only its
      own, if it still waits, is told the outcome. */
  ghost predicate RemovedOnly(c: Client, d: Client, id: Id, o: Outcome) {
    && d.pending == c.pending - {id} && d.entering == c.entering
    && d.freeSlots == c.freeSlots + (if id in c.pending then EntrySlots(c.pending[id]) else 0)
    && d.freeBytes == c.freeBytes + (if id in c.pending then EntryBytes(c.pending[id]) else 0)
    && d.calls.Keys == c.calls.Keys
    && forall n :: n in c.calls ==>
         d.calls[n] == if id in c.pending && c.pending[id].call == n && c.calls[n].Waiting?
                       then Answered(id, o) else c.calls[n]
  }

  lemma RemoveChanges(c: Client, id: Id, o: Outcome)
    ensures RemovedOnly(c, Remove(c, id, o), id, o)
  {
    if id !in c.pending { assert c.pending - {id} == c.pending; }
  }

  lemma RemoveValid(c: Client, id: Id, o: Outcome)
    requires Valid(c)
    requires o.Replied? ==> o.id == id
    ensures Valid(Remove(c, id, o))
    ensures RemovedOnly(c, Remove(c, id, o), id, o)
  {
    RemoveConserved(c, id, o);
    RemoveTables(c, id, o);
    RemoveChanges(c, id, o);
  }

  /** A phase change that keeps the entry's link to its caller keeps the tables. */
  lemma OverTables(calls: map<nat, Phase>, entering: map<nat, Envelope>, pending: map<Id, Pending>, n: nat)
    requires CallsMatch(calls, entering) && EntriesMatch(calls, pending) && n in calls && !calls[n].Entering?
    ensures CallsMatch(calls[n := Over], entering) && EntriesMatch(calls[n := Over], pending)
  {
    forall i | i in pending
      ensures EntryOk(calls[n := Over], i, pending[i])
    {
      assert EntryOk(calls, i, pending[i]);
    }
  }

  lemma OverValid(c: Client, n: nat)
    requires Valid(c) && n in c.calls && !c.calls[n].Entering?
    ensures Valid(c.(calls := c.calls[n := Over]))
  {
    OverTables(c.calls, c.entering, c.pending, n);
  }

  lemma RollBackValid(c: Client, n: nat)
    requires Valid(c) && n in c.calls && c.calls[n].Unqueued?
    ensures Valid(RollBack(c, n))
  {
    RemoveValid(c, c.calls[n].id, Failed);
    OverValid(Remove(c, c.calls[n].id, Failed), n);
  }

  lemma DropValid(c: Client, n: nat)
    requires Valid(c) && n in c.calls && (c.calls[n].Unqueued? || c.calls[n].Waiting? || c.calls[n].Answered?)
    ensures Valid(Drop(c, n))
  {
    OverValid(c, n);
  }

  lemma ReturnValid(c: Client, n: nat)
    requires Valid(c) && n in c.calls && c.calls[n].Answered?
    ensures Valid(Return(c, n))
  {
    OverValid(c, n);
    DropValid(c, n);
  }

  lemma WriterTakeValid(c: Client)
    requires Valid(c) && c.queue != [] && c.writing.None?
    ensures Valid(WriterTake(c))
  {
    RemoveValid(c.(queue := c.queue[1..]), c.queue[0].id, Failed);
  }

  lemma ReaderDeliverValid(c: Client, id: Id)
    requires Valid(c)
    ensures Valid(ReaderDeliver(c, id))
  {
    RemoveValid(c, id, Replied(id));
  }

  // ---- draining the pending map ------------------------------------------

  /** The call that a drained entry belonged to, if it still waited, has been told of the failure. */
  predicate ToldOfFailure(c: Client, n: nat, left: map<Id, Pending>) {
    && n in c.calls && c.calls[n].Waiting?
    && c.calls[n].id in c.pending && c.calls[n].id !in left
    && c.pending[c.calls[n].id].call == n
  }

  ghost predicate CallsDrained(c: Client, d: Client) {
    && d.calls.Keys == c.calls.Keys
    && forall n :: n in c.calls ==>
         d.calls[n] == if ToldOfFailure(c, n, d.pending) then Answered(c.calls[n].id, Failed) else c.calls[n]
  }

  /** `d` is `c` after some entries have been drained. */
  ghost predicate PartlyDrained(c: Client, d: Client) {
    && Valid(d)
    && d.freeSlots + Sum(d.pending, EntrySlots) == c.freeSlots + Sum(c.pending, EntrySlots)
    && d.freeBytes + Sum(d.pending, EntryBytes) == c.freeBytes + Sum(c.pending, EntryBytes)
    && d.pending.Keys <= c.pending.Keys
    && (forall i :: i in d.pending ==> d.pending[i] == c.pending[i])
    && CallsDrained(c, d)
  }

  lemma DrainCalls(c: Client, d: Client, id: Id)
    requires EntriesMatch(c.calls, c.pending) && EntriesMatch(d.calls, d.pending)
    requires forall i :: i in d.pending ==> i in c.pending && d.pending[i] == c.pending[i]
    requires CallsDrained(c, d) && id in d.pending
    ensures CallsDrained(c, Remove(d, id, Failed))
  {
    var r := Remove(d, id, Failed);
    var p := d.pending[id];
    assert EntryOk(d.calls, id, p) && EntryOk(c.calls, id, p);
    forall n | n in c.calls
      ensures r.calls[n] == if ToldOfFailure(c, n, r.pending) then Answered(c.calls[n].id, Failed) else c.calls[n]
    {
      if c.calls[n].Waiting? && c.calls[n].id == id && n != p.call { assert !ToldOfFailure(c, n, r.pending); }
    }
  }

  lemma DrainStep(c: Client, d: Client, id: Id)
    requires EntriesMatch(c.calls, c.pending)
    requires PartlyDrained(c, d) && id in d.pending
    ensures PartlyDrained(c, Remove(d, id, Failed))
  {
    RemoveValid(d, id, Failed);
    SumRemove(d.pending, EntrySlots, id);
    SumRemove(d.pending, EntryBytes, id);
    DrainCalls(c, d, id);
  }
}
