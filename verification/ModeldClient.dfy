/** The client object, updated in place; every method performs one atomic action of `JobClient`. */
module ModeldClient {
  import opened Common
  import opened JobClient

  class Connection {
    var alive: bool
    var queueOpen: bool
    var jobSlots: nat
    var byteBudget: nat
    var reading: nat
    var calls: map<nat, Phase>
    var entering: map<nat, Envelope>
    var pending: map<Id, Pending>
    var cleanup: multiset<Id>
    var queue: seq<Envelope>
    var writing: Option<Envelope>

    function State(): (c: Client)
      reads this
    {
      Client(alive, queueOpen, jobSlots, byteBudget, reading, calls, entering, pending, cleanup, queue, writing)
    }

    constructor ()
      ensures State() == Initial
    {
      alive, queueOpen := true, true;
      jobSlots, byteBudget, reading := JOB_SLOTS, BYTE_BUDGET, 0;
      calls, entering, pending, cleanup := map[], map[], map[], multiset{};
      queue, writing := [], None;
    }

    /** `call` up to its first wait. */
    method BeginCall(n: nat, e: Envelope) returns (refusal: Refusal)
      requires n !in calls
      modifies this
      ensures refusal == Refuse(old(State()), e)
      ensures State() == Begin(old(State()), n, e)
      ensures Valid(old(State())) && WellFormed(n, e) ==> Valid(State())
    {
      if Valid(State()) && WellFormed(n, e) { BeginValid(State(), n, e); }
      refusal := TakePermits(n, e);
    }

    /** The checks in their order, and the two permits. */
    method TakePermits(n: nat, e: Envelope) returns (refusal: Refusal)
      modifies this`calls, this`jobSlots, this`byteBudget, this`entering
      ensures refusal == Refuse(old(State()), e)
      ensures State() == Begin(old(State()), n, e)
    {
      calls := calls[n := Over];
      if !alive { return Closed; }
      var slots := jobSlots;
      if e.kind.Schedule? {
        if slots == 0 { return Busy; }
        slots := slots - 1;
      }
      if e.frame > MAX_FRAME { return TooLarge; }
      if byteBudget < e.frame { return InflightLimit; }
      jobSlots := slots;
      byteBudget := byteBudget - e.frame;
      calls := calls[n := Entering(e)];
      entering := entering[n := e];
      return Accepted;
    }

    /** The future is dropped while it waits for the lock of the pending map. */
    method AbandonCall(n: nat)
      requires n in entering
      modifies this
      ensures State() == Abandon(old(State()), n)
      ensures Valid(old(State())) ==> Valid(State())
    {
      if Valid(State()) { AbandonValid(State(), n); }
      var e := entering[n];
      if e.kind.Schedule? { jobSlots := jobSlots + 1; }
      byteBudget := byteBudget + e.frame;
      entering := entering - {n};
      calls := calls[n := Over];
    }

    method RegisterCall(n: nat)
      requires n in entering
      modifies this
      ensures State() == Register(old(State()), n)
      ensures Valid(old(State())) ==> Valid(State())
    {
      if Valid(State()) { RegisterValid(State(), n); }
      var id := entering[n].id;
      if id in pending {  // DUPLICATE_REQUEST_ID
        AbandonCall(n);
      } else if |pending| >= MAX_PENDING {  // IPC_QUEUE_FULL
        AbandonCall(n);
      } else {
        InsertAndQueue(n);
      }
    }

    method InsertAndQueue(n: nat)
      requires n in entering && entering[n].id !in pending && |pending| < MAX_PENDING
      modifies this`entering, this`pending, this`queue, this`calls
      ensures State() == Register(old(State()), n)
    {
      var e := entering[n];
      entering := entering - {n};
      pending := pending[e.id := Pending(n, e.frame, e.kind.Schedule?)];
      if queueOpen && |queue| < MAX_PENDING {
        queue := queue + [e];
        calls := calls[n := Waiting(e.id)];
      } else {
        calls := calls[n := Unqueued(e.id)];
      }
    }

    /** Takes one entry out of the pending map and returns its permits. */
    method TakeEntry(id: Id, o: Outcome)
      modifies this`jobSlots, this`byteBudget, this`pending, this`calls
      ensures State() == Remove(old(State()), id, o)
    {
      if id in pending {
        var p := pending[id];
        pending := pending - {id};
        if p.job { jobSlots := jobSlots + 1; }
        byteBudget := byteBudget + p.bytes;
        if p.call in calls && calls[p.call].Waiting? {
          calls := calls[p.call := Answered(id, o)];
        }
      }
    }

    method RollBackCall(n: nat)
      requires n in calls && calls[n].Unqueued?
      modifies this
      ensures State() == RollBack(old(State()), n)
      ensures Valid(old(State())) ==> Valid(State())
    {
      if Valid(State()) { RollBackValid(State(), n); }
      TakeEntry(calls[n].id, Failed);
      calls := calls[n := Over];
    }

    /** The drop guard `PendingCall` of a call that has not completed; `cancels` tells whether its
        task goes on to ask the daemon to cancel, if the connection still lives. */
    method DropCall(n: nat) returns (cancels: bool)
      requires n in calls && (calls[n].Unqueued? || calls[n].Waiting? || calls[n].Answered?)
      modifies this
      ensures State() == Drop(old(State()), n)
      ensures cancels <==> old(calls)[n].id.Stage? && !old(calls)[n].Unqueued?
      ensures Valid(old(State())) ==> Valid(State())
    {
      if Valid(State()) { DropValid(State(), n); }
      var id, queued := calls[n].id, !calls[n].Unqueued?;
      var cancel := id.Stage?;
      if !queued || !cancel { cleanup := cleanup + multiset{id}; }
      calls := calls[n := Over];
      cancels := queued && cancel;
    }

    method ReturnCall(n: nat)
      requires n in calls && calls[n].Answered?
      modifies this
      ensures State() == Return(old(State()), n)
      ensures Valid(old(State())) ==> Valid(State())
    {
      if Valid(State()) { ReturnValid(State(), n); }
      if calls[n].outcome.Replied? { calls := calls[n := Over]; } else { var cancels := DropCall(n); }
    }

    method RunCleanup(id: Id)
      modifies this
      ensures State() == Cleanup(old(State()), id)
      ensures Valid(old(State())) ==> Valid(State())
    {
      if Valid(State()) { RemoveValid(State(), id, Failed); }
      TakeEntry(id, Failed);
      cleanup := cleanup - multiset{id};
    }

    method WriterReceives()
      requires queue != [] && writing.None?
      modifies this
      ensures State() == WriterTake(old(State()))
      ensures Valid(old(State())) ==> Valid(State())
    {
      if Valid(State()) { WriterTakeValid(State()); }
      var e := queue[0];
      queue := queue[1..];
      var skip := e.id !in pending;
      if !skip {
        var owner := pending[e.id].call;
        skip := owner in calls && calls[owner].Over?;
      }
      if skip { TakeEntry(e.id, Failed); } else { writing := Some(e); }
    }

    method ReaderStarts(length: nat)
      requires reading == 0
      modifies this
      ensures State() == ReaderReserve(old(State()), length)
      ensures Valid(old(State())) ==> Valid(State())
    {
      if length <= byteBudget {
        byteBudget, reading := byteBudget - length, length;
      } else {
        alive := false;
      }
    }

    method ReaderEnds(id: Id)
      modifies this
      ensures State() == ReaderDeliver(old(State()), id)
      ensures Valid(old(State())) ==> Valid(State())
    {
      if Valid(State()) { ReaderDeliverValid(State(), id); }
      TakeEntry(id, Replied(id));
      byteBudget, reading := byteBudget + reading, 0;
    }

    /** Retiring the transport: every caller still waiting is told, every permit returns. */
    method RetireAndDrain()
      requires Valid(State())
      modifies this
      ensures !alive && pending == map[]
      ensures PartlyDrained(old(State()), State())
    {
      alive := false;
      while pending != map[]
        invariant !alive && PartlyDrained(old(State()), State())
        decreases |pending|
      {
        assert pending.Keys != {};
        var id :| id in pending;
        DrainStep(old(State()), State(), id);
        TakeEntry(id, Failed);
      }
    }
  }
}
