/** Nothing is lost: every pending entry has something on the way that will remove it, and every
    waiting call has its entry. So a quiet connection has all its permits back, and a drained one
    has told every caller. */
module JobCompletion {
  import opened Common
  import opened JobClient
  import opened JobDaemon
  import opened JobProtocol

  // ---- the invariant, component by component --------------------------------

  /** A call that waits owns the entry through which it will be told. */
  ghost predicate WaitersOk(calls: map<nat, Phase>, pending: map<Id, Pending>) {
    forall n :: n in calls && calls[n].Waiting? ==> calls[n].id in pending && pending[calls[n].id].call == n
  }

  /** Something will remove the entry `id` of call `n`: a rollback, a removal task, the caller's
      reply, or the journey of its Schedule. */
  predicate EntryOwned(calls: map<nat, Phase>, cleanup: multiset<Id>, place: map<nat, Place>, id: Id, n: nat) {
    || id in cleanup
    || (n in calls && (calls[n].Unqueued? || (id.Control? && calls[n].Waiting?)))
    || (id.Stage? && id.call in place)
  }

  ghost predicate EntriesOwned(
    calls: map<nat, Phase>, pending: map<Id, Pending>, cleanup: multiset<Id>, place: map<nat, Place>) {
    forall id :: id in pending ==> EntryOwned(calls, cleanup, place, id, pending[id].call)
  }

  ghost predicate Owned(c: Client, place: map<nat, Place>) {
    WaitersOk(c.calls, c.pending) && EntriesOwned(c.calls, c.pending, c.cleanup, place)
  }

  function EnvelopeIds(q: seq<Envelope>): set<Id> { set e | e in q :: e.id }
  function ReplyIds(q: seq<Reply>): set<Id> { set r | r in q :: r.id }
  function WritingIds(w: Option<Envelope>): set<Id> { if w.Some? then {w.value.id} else {} }

  /** Every Schedule that is at stage `at` of its journey really is there. */
  ghost predicate Listed(place: map<nat, Place>, ids: set<Id>, at: Place) {
    forall n :: n in place && place[n] == at ==> Stage(n) in ids
  }

  predicate Over(p: Place) { p.Skipped? || p.Settled? }

  /** A Schedule whose journey is over has no entry any more. */
  ghost predicate Gone(place: map<nat, Place>, pending: map<Id, Pending>) {
    forall n :: n in place && Over(place[n]) ==> Stage(n) !in pending
  }

  ghost predicate ClientLists(c: Client, place: map<nat, Place>) {
    && Listed(place, EnvelopeIds(c.queue), Queued)
    && Listed(place, WritingIds(c.writing), Writing)
    && Gone(place, c.pending)
  }

  ghost predicate DaemonLists(running: bool, table: map<Id, Entry>, q: seq<Reply>, place: map<nat, Place>) {
    running ==> Listed(place, table.Keys, Running) && Listed(place, ReplyIds(q), Replying)
  }

  ghost predicate Located(s: System) {
    && ClientLists(s.client, s.place)
    && Listed(s.place, EnvelopeIds(s.toDaemon), Wire)
    && DaemonLists(s.daemon.running, s.daemon.cancellations, s.toClient, s.place)
  }

  ghost predicate Complete(s: System) {
    Owned(s.client, s.place) && (s.client.alive ==> Located(s))
  }

  // ---- lists and marks ---------------------------------------------------------

  lemma Marked(place: map<nat, Place>, ids: set<Id>, ids': set<Id>, at: Place, id: Id, to: Place)
    requires Listed(place, ids, at) && ids <= ids' + {id} && (to == at ==> id in ids')
    ensures Listed(Mark(place, id, to), ids', at)
  {}

  lemma HeadId(q: seq<Envelope>)
    requires q != []
    ensures EnvelopeIds(q) <= EnvelopeIds(q[1..]) + {q[0].id}
  {
    assert q == [q[0]] + q[1..];
  }

  lemma HeadReplyId(q: seq<Reply>)
    requires q != []
    ensures ReplyIds(q) <= ReplyIds(q[1..]) + {q[0].id}
  {
    assert q == [q[0]] + q[1..];
  }

  lemma LastId(q: seq<Envelope>, e: Envelope)
    ensures EnvelopeIds(q + [e]) == EnvelopeIds(q) + {e.id}
  {
    assert e in q + [e];
  }

  lemma LastReplyId(q: seq<Reply>, r: Reply)
    ensures ReplyIds(q + [r]) == ReplyIds(q) + {r.id}
  {
    assert r in q + [r];
  }

  /** Marking `id` disturbs none of the lists it is not taken from. */
  lemma MarkedClient(c: Client, place: map<nat, Place>, id: Id, to: Place)
    requires ClientLists(c, place) && to != Queued && to != Writing && (Over(to) ==> id !in c.pending)
    ensures ClientLists(c, Mark(place, id, to))
  {
    Marked(place, EnvelopeIds(c.queue), EnvelopeIds(c.queue), Queued, id, to);
    Marked(place, WritingIds(c.writing), WritingIds(c.writing), Writing, id, to);
  }

  lemma MarkedDaemon(running: bool, table: map<Id, Entry>, q: seq<Reply>, place: map<nat, Place>, id: Id, to: Place)
    requires DaemonLists(running, table, q, place) && to != Running && to != Replying
    ensures DaemonLists(running, table, q, Mark(place, id, to))
  {
    if running {
      Marked(place, table.Keys, table.Keys, Running, id, to);
      Marked(place, ReplyIds(q), ReplyIds(q), Replying, id, to);
    }
  }

  // ---- ownership, transition by transition ---------------------------------------

  lemma RemoveOwned(c: Client, id: Id, o: Outcome, place: map<nat, Place>)
    requires Tables(c) && Owned(c, place)
    ensures Owned(Remove(c, id, o), place)
  {
    var r := Remove(c, id, o);
    forall i | i in r.pending
      ensures EntryOwned(r.calls, r.cleanup, place, i, r.pending[i].call)
    {
      assert EntryOwned(c.calls, c.cleanup, place, i, c.pending[i].call);
      assert EntryOk(c.calls, i, c.pending[i]);
    }
  }

  lemma MoreOwned(c: Client, place: map<nat, Place>, id: Id, to: Place)
    requires Owned(c, place)
    ensures Owned(c, Mark(place, id, to))
  {
    forall i | i in c.pending
      ensures EntryOwned(c.calls, c.cleanup, Mark(place, id, to), i, c.pending[i].call)
    {
      assert EntryOwned(c.calls, c.cleanup, place, i, c.pending[i].call);
    }
  }

  lemma BeginOwned(c: Client, n: nat, e: Envelope, place: map<nat, Place>)
    requires Tables(c) && Owned(c, place) && n !in c.calls
    ensures Owned(Begin(c, n, e), place)
  {
    var b := Begin(c, n, e);
    forall i | i in b.pending
      ensures EntryOwned(b.calls, b.cleanup, place, i, b.pending[i].call)
    {
      assert EntryOwned(c.calls, c.cleanup, place, i, c.pending[i].call);
      assert EntryOk(c.calls, i, c.pending[i]);
    }
  }

  lemma AbandonOwned(c: Client, n: nat, place: map<nat, Place>)
    requires Tables(c) && Owned(c, place) && n in c.entering
    ensures Owned(Abandon(c, n), place)
  {
    var b := Abandon(c, n);
    forall i | i in b.pending
      ensures EntryOwned(b.calls, b.cleanup, place, i, b.pending[i].call)
    {
      assert EntryOwned(c.calls, c.cleanup, place, i, c.pending[i].call);
      assert EntryOk(c.calls, i, c.pending[i]);
    }
  }

  /** The new entry is owned, and the others stay so. */
  lemma GrownOwned(c: Client, n: nat, id: Id, q: Phase, p: Pending, place: map<nat, Place>, place': map<nat, Place>)
    requires Tables(c) && Owned(c, place) && id !in c.pending && n in c.calls && c.calls[n].Entering?
    requires p.call == n && (q == Waiting(id) || q == Unqueued(id)) && place.Keys <= place'.Keys
    requires q.Waiting? && id.Stage? ==> id.call in place'
    ensures WaitersOk(c.calls[n := q], c.pending[id := p])
    ensures EntriesOwned(c.calls[n := q], c.pending[id := p], c.cleanup, place')
  {
    forall i | i in c.pending
      ensures EntryOwned(c.calls[n := q], c.cleanup, place', i, c.pending[i].call)
    {
      assert EntryOwned(c.calls, c.cleanup, place, i, c.pending[i].call);
      assert EntryOk(c.calls, i, c.pending[i]);
    }
  }

  lemma RegisterOwned(c: Client, n: nat, place: map<nat, Place>)
    requires Tables(c) && Owned(c, place) && n in c.entering
    requires c.entering[n].id !in c.pending && |c.pending| < MAX_PENDING
    ensures Owned(Register(c, n), if QueueTakes(c) then Mark(place, c.entering[n].id, Queued) else place)
  {
    var e := c.entering[n];
    var q := if QueueTakes(c) then Waiting(e.id) else Unqueued(e.id);
    GrownOwned(c, n, e.id, q, Pending(n, e.frame, e.kind.Schedule?), place,
               if QueueTakes(c) then Mark(place, e.id, Queued) else place);
  }

  /** An unqueued or waiting call that is dropped leaves a removal task, or its Schedule's journey. */
  lemma DropOwned(c: Client, n: nat, place: map<nat, Place>)
    requires Tables(c) && Owned(c, place)
    requires n in c.calls && (c.calls[n].Unqueued? || c.calls[n].Waiting? || c.calls[n].Answered?)
    ensures Owned(Drop(c, n), place)
  {
    var b := Drop(c, n);
    forall i | i in b.pending
      ensures EntryOwned(b.calls, b.cleanup, place, i, b.pending[i].call)
    {
      assert EntryOwned(c.calls, c.cleanup, place, i, c.pending[i].call);
      assert EntryOk(c.calls, i, c.pending[i]);
    }
  }

  lemma OverOwned(c: Client, n: nat, place: map<nat, Place>)
    requires Tables(c) && Owned(c, place) && n in c.calls
    requires forall i :: i in c.pending ==> c.pending[i].call != n
    ensures Owned(c.(calls := c.calls[n := JobClient.Over]), place)
  {
    var b := c.(calls := c.calls[n := JobClient.Over]);
    forall i | i in b.pending
      ensures EntryOwned(b.calls, b.cleanup, place, i, b.pending[i].call)
    {
      assert EntryOwned(c.calls, c.cleanup, place, i, c.pending[i].call);
    }
  }

  lemma AnsweredHasNoEntry(c: Client, n: nat)
    requires Tables(c) && n in c.calls && c.calls[n].Answered?
    ensures forall i :: i in c.pending ==> c.pending[i].call != n
  {
    forall i | i in c.pending
      ensures c.pending[i].call != n
    {
      assert EntryOk(c.calls, i, c.pending[i]);
    }
  }

  lemma ReturnOwned(c: Client, n: nat, place: map<nat, Place>)
    requires Tables(c) && Owned(c, place) && n in c.calls && c.calls[n].Answered?
    ensures Owned(Return(c, n), place)
  {
    AnsweredHasNoEntry(c, n);
    if c.calls[n].outcome.Replied? { OverOwned(c, n, place); } else { DropOwned(c, n, place); }
  }

  lemma RollBackOwned(c: Client, n: nat, place: map<nat, Place>)
    requires Valid(c) && Owned(c, place) && n in c.calls && c.calls[n].Unqueued?
    ensures Owned(RollBack(c, n), place)
  {
    var id := c.calls[n].id;
    var r := Remove(c, id, Failed);
    RemoveOwned(c, id, Failed, place);
    RemoveValid(c, id, Failed);
    forall i | i in r.pending
      ensures r.pending[i].call != n
    {
      assert EntryOk(c.calls, i, c.pending[i]);
    }
    OverOwned(r, n, place);
  }

  lemma CleanupOwned(c: Client, id: Id, place: map<nat, Place>)
    requires Tables(c) && Owned(c, place)
    ensures Owned(Cleanup(c, id), place)
  {
    var r, b := Remove(c, id, Failed), Cleanup(c, id);
    RemoveOwned(c, id, Failed, place);
    forall i | i in b.pending
      ensures EntryOwned(b.calls, b.cleanup, place, i, b.pending[i].call)
    {
      assert EntryOwned(r.calls, r.cleanup, place, i, r.pending[i].call);
    }
  }

  lemma OwnedCall(s: System, e: Step)
    requires Inv(s) && Enabled(s, e) && Owned(s.client, s.place) && CallStep(e)
    ensures Owned(Apply(s, e).client, Apply(s, e).place)
  {
    var c := s.client;
    match e
    case Begins(n, env) => BeginOwned(c, n, env, s.place);
    case Abandons(n) => AbandonOwned(c, n, s.place);
    case Registers(n) => if Registrable(s, n) { RegisterOwned(c, n, s.place); } else { AbandonOwned(c, n, s.place); }
    case RollsBack(n) => RollBackOwned(c, n, s.place);
    case Drops(n) => DropOwned(c, n, s.place);
    case Returns(n) => ReturnOwned(c, n, s.place);
    case CleansUp(id) => CleanupOwned(c, id, s.place);
  }

  lemma OwnedStep(s: System, e: Step)
    requires Inv(s) && Enabled(s, e) && Owned(s.client, s.place)
    ensures Owned(Apply(s, e).client, Apply(s, e).place)
  {
    if CallStep(e) { OwnedCall(s, e); }
    else if e.Drains? { RemoveOwned(s.client, e.id, Failed, s.place); }
    else { OwnedTransport(s, e); }
  }

  lemma OwnedTransport(s: System, e: Step)
    requires Inv(s) && Enabled(s, e) && Owned(s.client, s.place) && !CallStep(e) && !e.Drains?
    ensures Owned(Apply(s, e).client, Apply(s, e).place)
  {
    var c := s.client;
    match e
    case WriterTakes =>
      var id := c.queue[0].id;
      RemoveOwned(c.(queue := c.queue[1..]), id, Failed, s.place);
      MoreOwned(Apply(s, e).client, s.place, id, if Apply(s, e).client.writing.Some? then Writing else Skipped);
    case WriterFinishes => MoreOwned(c, s.place, c.writing.value.id, Wire);
    case ReaderDelivers =>
      RemoveOwned(c, s.toClient[0].id, Replied(s.toClient[0].id), s.place);
      MoreOwned(ReaderDeliver(c, s.toClient[0].id), s.place, s.toClient[0].id, Settled);
    case DaemonTakes(_) => MoreOwned(c, s.place, s.toDaemon[0].id, if Next(s.daemon, DaemonEvent(s, e)).1.Some? then Replying else Running);
    case DaemonFinishes(i, _, _) => MoreOwned(c, s.place, s.daemon.jobs[i].id, Replying);
    case _ =>
  }

  // ---- location, step by step -------------------------------------------------------

  predicate NewPlace(place: map<nat, Place>, n: nat, id: Id) { id.Stage? ==> id.call == n && n !in place }

  lemma QueuedClient(c: Client, n: nat, place: map<nat, Place>)
    requires ClientLists(c, place) && n in c.entering && QueueTakes(c)
    requires c.entering[n].id !in c.pending && |c.pending| < MAX_PENDING && NewPlace(place, n, c.entering[n].id)
    ensures ClientLists(Register(c, n), Mark(place, c.entering[n].id, Queued))
  {
    var e := c.entering[n];
    LastId(c.queue, e);
    Marked(place, EnvelopeIds(c.queue), EnvelopeIds(c.queue + [e]), Queued, e.id, Queued);
    Marked(place, WritingIds(c.writing), WritingIds(c.writing), Writing, e.id, Queued);
  }

  lemma LocatedQueued(s: System, n: nat)
    requires Located(s) && Registrable(s, n) && QueueTakes(s.client)
    requires NewPlace(s.place, n, s.client.entering[n].id)
    ensures Located(Apply(s, Registers(n)))
  {
    var id := s.client.entering[n].id;
    QueuedClient(s.client, n, s.place);
    Marked(s.place, EnvelopeIds(s.toDaemon), EnvelopeIds(s.toDaemon), Wire, id, Queued);
    MarkedDaemon(s.daemon.running, s.daemon.cancellations, s.toClient, s.place, id, Queued);
  }

  lemma LocatedUnqueued(s: System, n: nat)
    requires Located(s) && n in s.client.entering && !(Registrable(s, n) && QueueTakes(s.client))
    requires NewPlace(s.place, n, s.client.entering[n].id)
    ensures Located(Apply(s, Registers(n)))
  {}

  lemma FreshPlace(s: System, n: nat)
    requires Inv(s) && n in s.client.entering
    ensures NewPlace(s.place, n, s.client.entering[n].id)
  {
    assert PhaseOk(n, s.client.calls[n]);
  }

  lemma LessPending(s: System, id: Id, o: Outcome)
    requires Located(s)
    ensures Located(s.(client := Remove(s.client, id, o)))
  {}

  lemma LocatedCall(s: System, e: Step)
    requires Inv(s) && Located(s) && Enabled(s, e) && CallStep(e)
    ensures Located(Apply(s, e))
  {
    match e
    case Registers(n) =>
      FreshPlace(s, n);
      if Registrable(s, n) && QueueTakes(s.client) { LocatedQueued(s, n); } else { LocatedUnqueued(s, n); }
    case _ => LocatedOtherCall(s, e);
  }

  lemma LocatedOtherCall(s: System, e: Step)
    requires Located(s) && Enabled(s, e) && CallStep(e) && !e.Registers?
    ensures Located(Apply(s, e))
  {
    match e
    case RollsBack(n) => LessPending(s, s.client.calls[n].id, Failed);
    case CleansUp(id) => LessPending(s, id, Failed);
    case _ =>
  }

  predicate Skips(c: Client)
    requires c.queue != []
  {
    c.queue[0].id !in c.pending || ReplyChannelClosed(c, c.pending[c.queue[0].id])
  }

  /** The head of the queue is skipped, and its entry removed. */
  lemma WriterSkipsClient(c: Client, place: map<nat, Place>)
    requires ClientLists(c, place) && c.queue != [] && c.writing.None? && Skips(c)
    ensures ClientLists(WriterTake(c), Mark(place, c.queue[0].id, Skipped))
  {
    var id := c.queue[0].id;
    HeadId(c.queue);
    Marked(place, EnvelopeIds(c.queue), EnvelopeIds(c.queue[1..]), Queued, id, Skipped);
    Marked(place, {}, {}, Writing, id, Skipped);
  }

  /** The head of the queue is about to be written. */
  lemma WriterWritesClient(c: Client, place: map<nat, Place>)
    requires ClientLists(c, place) && c.queue != [] && c.writing.None? && !Skips(c)
    ensures ClientLists(WriterTake(c), Mark(place, c.queue[0].id, Writing))
  {
    var id := c.queue[0].id;
    HeadId(c.queue);
    Marked(place, EnvelopeIds(c.queue), EnvelopeIds(c.queue[1..]), Queued, id, Writing);
    Marked(place, {}, {id}, Writing, id, Writing);
  }

  lemma LocatedWriterTakes(s: System)
    requires Located(s) && Enabled(s, WriterTakes)
    ensures Located(Apply(s, WriterTakes))
  {
    var id := s.client.queue[0].id;
    var to := if Skips(s.client) then Skipped else Writing;
    if Skips(s.client) { WriterSkipsClient(s.client, s.place); } else { WriterWritesClient(s.client, s.place); }
    Marked(s.place, EnvelopeIds(s.toDaemon), EnvelopeIds(s.toDaemon), Wire, id, to);
    MarkedDaemon(s.daemon.running, s.daemon.cancellations, s.toClient, s.place, id, to);
  }

  lemma LocatedWriterFinishes(s: System)
    requires Located(s) && Enabled(s, WriterFinishes)
    ensures Located(Apply(s, WriterFinishes))
  {
    var c, e := s.client, s.client.writing.value;
    LastId(s.toDaemon, e);
    Marked(s.place, EnvelopeIds(c.queue), EnvelopeIds(c.queue), Queued, e.id, Wire);
    Marked(s.place, {e.id}, {}, Writing, e.id, Wire);
    Marked(s.place, EnvelopeIds(s.toDaemon), EnvelopeIds(s.toDaemon + [e]), Wire, e.id, Wire);
    MarkedDaemon(s.daemon.running, s.daemon.cancellations, s.toClient, s.place, e.id, Wire);
  }

  lemma ReaderDeliversClient(c: Client, id: Id, place: map<nat, Place>)
    requires ClientLists(c, place)
    ensures ClientLists(ReaderDeliver(c, id), Mark(place, id, Settled))
  {
    MarkedClient(ReaderDeliver(c, id), place, id, Settled);
  }

  lemma LocatedReaderDelivers(s: System)
    requires Located(s) && Enabled(s, ReaderDelivers)
    ensures Located(Apply(s, ReaderDelivers))
  {
    var id, rest := s.toClient[0].id, s.toClient[1..];
    ReaderDeliversClient(s.client, id, s.place);
    Marked(s.place, EnvelopeIds(s.toDaemon), EnvelopeIds(s.toDaemon), Wire, id, Settled);
    HeadReplyId(s.toClient);
    if s.daemon.running {
      Marked(s.place, s.daemon.cancellations.Keys, s.daemon.cancellations.Keys, Running, id, Settled);
      Marked(s.place, ReplyIds(s.toClient), ReplyIds(rest), Replying, id, Settled);
    }
  }

  lemma LocatedScheduleTaken(s: System, sent: bool)
    requires Located(s) && Enabled(s, DaemonTakes(sent)) && s.toDaemon[0].kind.Schedule?
    requires Rejection(s.daemon, s.toDaemon[0]).None?
    ensures Located(Apply(s, DaemonTakes(sent)))
  {
    var id, d' := s.toDaemon[0].id, OnSchedule(s.daemon, s.toDaemon[0]).0;
    AdmittedApply(s, sent);
    MarkedClient(s.client, s.place, id, Running);
    HeadId(s.toDaemon);
    Marked(s.place, EnvelopeIds(s.toDaemon), EnvelopeIds(s.toDaemon[1..]), Wire, id, Running);
    Marked(s.place, s.daemon.cancellations.Keys, d'.cancellations.Keys, Running, id, Running);
    Marked(s.place, ReplyIds(s.toClient), ReplyIds(s.toClient), Replying, id, Running);
  }

  lemma CancelKeepsKeys(d: Daemon, e: Envelope)
    requires !e.kind.Schedule?
    ensures OnMessage(d, e).0.running ==> OnMessage(d, e).0.cancellations.Keys == d.cancellations.Keys
  {
    if e.kind.Cancel? && e.target.Some? && e.target.value in d.cancellations {
      assert OnMessage(d, e).0.cancellations.Keys == d.cancellations.Keys + {e.target.value};
    }
  }

  lemma ControlApply(s: System, sent: bool)
    requires Enabled(s, DaemonTakes(sent)) && !s.toDaemon[0].kind.Schedule? && s.toDaemon[0].id.Control?
    ensures
      var t, e := Apply(s, DaemonTakes(sent)), s.toDaemon[0];
      && t.client == s.client && t.place == s.place && t.toDaemon == s.toDaemon[1..]
      && (t.daemon.running ==>
            && t.daemon == OnMessage(s.daemon, e).0
            && t.toClient == s.toClient + [OnMessage(s.daemon, e).1.value])
  {
    ControlReply(s.daemon, s.toDaemon[0]);
  }

  lemma LocatedControlTaken(s: System, sent: bool)
    requires Located(s) && Enabled(s, DaemonTakes(sent))
    requires !s.toDaemon[0].kind.Schedule? && s.toDaemon[0].id.Control?
    ensures Located(Apply(s, DaemonTakes(sent)))
  {
    var e := s.toDaemon[0];
    ControlApply(s, sent);
    HeadId(s.toDaemon);
    CancelKeepsKeys(s.daemon, e);
    ControlReply(s.daemon, e);
    LastReplyId(s.toClient, OnMessage(s.daemon, e).1.value);
  }

  lemma FinishApply(s: System, i: nat, cancelled: bool, sent: bool)
    requires Enabled(s, DaemonFinishes(i, cancelled, sent))
    ensures
      var t, id := Apply(s, DaemonFinishes(i, cancelled, sent)), s.daemon.jobs[i].id;
      && t.client == s.client && t.place == Mark(s.place, id, Replying) && t.toDaemon == s.toDaemon
      && (t.daemon.running ==>
            && t.daemon.cancellations.Keys == s.daemon.cancellations.Keys - {id}
            && t.toClient == s.toClient + [OnFinished(s.daemon, i, cancelled).1.value])
  {
    FinishReply(s.daemon, i, cancelled, sent);
  }

  lemma LocatedDaemonFinishes(s: System, i: nat, cancelled: bool, sent: bool)
    requires Located(s) && Enabled(s, DaemonFinishes(i, cancelled, sent))
    ensures Located(Apply(s, DaemonFinishes(i, cancelled, sent)))
  {
    var id, r := s.daemon.jobs[i].id, OnFinished(s.daemon, i, cancelled).1.value;
    FinishApply(s, i, cancelled, sent);
    MarkedClient(s.client, s.place, id, Replying);
    Marked(s.place, EnvelopeIds(s.toDaemon), EnvelopeIds(s.toDaemon), Wire, id, Replying);
    LastReplyId(s.toClient, r);
    if s.daemon.running {
      Marked(s.place, s.daemon.cancellations.Keys, s.daemon.cancellations.Keys - {id}, Running, id, Replying);
      Marked(s.place, ReplyIds(s.toClient), ReplyIds(s.toClient + [r]), Replying, id, Replying);
    }
  }

  lemma LocatedBreaks(s: System)
    requires Located(s) && Enabled(s, DaemonBreaks)
    ensures Located(Apply(s, DaemonBreaks))
  {}

  lemma LocatedTaken(s: System, sent: bool)
    requires Inv(s) && Located(s) && Enabled(s, DaemonTakes(sent)) && s.client.alive
    ensures Located(Apply(s, DaemonTakes(sent)))
  {
    assert EnvelopeOk(s.toDaemon[0], Wire, s.place, s.client.pending);
    if s.toDaemon[0].kind.Schedule? {
      AdmissionSucceeds(s);
      LocatedScheduleTaken(s, sent);
    } else {
      LocatedControlTaken(s, sent);
    }
  }

  lemma LocatedReserves(s: System, length: nat)
    requires Located(s) && Enabled(s, ReaderReserves(length))
    ensures Located(Apply(s, ReaderReserves(length)))
  {}

  lemma LocatedTransport(s: System, e: Step)
    requires Located(s) && Enabled(s, e) && !CallStep(e) && !DaemonStep(e)
    requires !e.WriterStops? && !e.Retires?
    ensures Located(Apply(s, e))
  {
    match e
    case WriterTakes => LocatedWriterTakes(s);
    case WriterFinishes => LocatedWriterFinishes(s);
    case ReaderReserves(length) => LocatedReserves(s, length);
    case ReaderDelivers => LocatedReaderDelivers(s);
    case Drains(id) => LessPending(s, id, Failed);
  }

  lemma NeverRevived(s: System, e: Step)
    requires Enabled(s, e) && Apply(s, e).client.alive
    ensures s.client.alive && !e.WriterStops? && !e.Retires?
  {}

  lemma LocatedDaemon(s: System, e: Step)
    requires Inv(s) && Located(s) && Enabled(s, e) && DaemonStep(e) && s.client.alive
    ensures Located(Apply(s, e))
  {
    match e
    case DaemonTakes(sent) => LocatedTaken(s, sent);
    case DaemonFinishes(i, cancelled, sent) => LocatedDaemonFinishes(s, i, cancelled, sent);
    case DaemonBreaks => LocatedBreaks(s);
  }

  lemma CompleteStep(s: System, e: Step)
    requires Inv(s) && Complete(s) && Enabled(s, e)
    ensures Complete(Apply(s, e))
  {
    OwnedStep(s, e);
    if Apply(s, e).client.alive {
      NeverRevived(s, e);
      if CallStep(e) { LocatedCall(s, e); }
      else if DaemonStep(e) { LocatedDaemon(s, e); }
      else { LocatedTransport(s, e); }
    }
  }

  lemma {:induction false} CompleteRun(s: System, steps: seq<Step>, s': System)
    requires Inv(s) && Complete(s) && Run(s, steps, s')
    ensures Complete(s')
    decreases |steps|
  {
    if steps != [] {
      StepInv(s, steps[0]);
      CompleteStep(s, steps[0]);
      CompleteRun(Apply(s, steps[0]), steps[1..], s');
    }
  }

  lemma ReachableComplete(s: System)
    requires Reachable(s)
    ensures Inv(s) && Complete(s)
  {
    var steps :| Run(Start, steps, s);
    ReachableInv(s);
    InitialValid();
    FreshInv();
    CompleteRun(Start, steps, s);
  }

  // ---- main results ------------------------------------------------------------------

  /** Nobody waits in vain: in every reachable state a waiting call owns the entry through which
      a reply, a removal or the drain will tell it; so once the map is empty nobody waits. */
  lemma WaiterOwnsEntry(s: System, n: nat)
    requires Reachable(s) && n in s.client.calls && s.client.calls[n].Waiting?
    ensures
      var id := s.client.calls[n].id;
      id in s.client.pending && s.client.pending[id].call == n
    ensures s.client.pending != map[]
  {
    ReachableComplete(s);
  }

  /** No message, job, reply or removal is under way, and no call is waiting or being set up. */
  predicate Quiet(s: System) {
    && s.client.entering == map[] && s.client.reading == 0 && s.client.cleanup == multiset{}
    && s.client.queue == [] && s.client.writing == None && s.toDaemon == [] && s.toClient == []
    && s.daemon.running && s.daemon.jobs == []
    && (forall n :: n in s.client.calls && s.client.calls[n].Waiting? ==> s.client.calls[n].id.Stage?)
    && (forall n :: n in s.client.calls ==> !s.client.calls[n].Unqueued?)
  }

  lemma NothingPending(s: System, id: Id)
    requires Inv(s) && Complete(s) && s.client.alive && Quiet(s)
    ensures id !in s.client.pending
  {
    KeysAreRunningJobs(s.daemon);
  }

  /** No permit leaks: however many calls were dropped, refused, cancelled or answered, a quiet
      live connection has every job slot and every byte of its budget back. */
  lemma QuietMeansFree(s: System)
    requires Reachable(s) && s.client.alive && Quiet(s)
    ensures s.client.pending == map[]
    ensures s.client.freeSlots == JOB_SLOTS && s.client.freeBytes == BYTE_BUDGET
  {
    ReachableComplete(s);
    forall id
      ensures id !in s.client.pending
    {
      NothingPending(s, id);
    }
  }
}
