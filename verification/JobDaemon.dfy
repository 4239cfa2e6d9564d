/** The daemon side of the model-job connection: the select loop of `serve_connection`
    over its cancellation table, its running jobs and its admitted-byte counter. */
module JobDaemon {
  import opened Common
  import opened JobClient

  const MAX_JOBS: nat := 32
  const MAX_ADMITTED: nat := 128 * 1024 * 1024

  datatype Code =
    | Done | JobResult | Cancelled | CancelAccepted(accepted: bool)
    | DuplicateRequestId | SchedulerBusy | InvalidCancel

  datatype Reply = Reply(id: Id, code: Code)

  /** `armed` tells whether the stored sender still reaches a job that was not signalled. */
  datatype Entry = Entry(armed: bool, bytes: nat)

  /** `cancels` counts the cancellations that were reported as accepted for this job. */
  datatype Job = Job(id: Id, bytes: nat, cancels: nat)

  /** `consumed` and `answered` count Schedule messages taken and Schedule replies made. */
  datatype Daemon = Daemon(
    running: bool,
    cancellations: map<Id, Entry>,
    jobs: seq<Job>,
    admitted: nat,
    consumed: nat,
    answered: nat)

  const Fresh := Daemon(true, map[], [], 0, 0, 0)

  function EntrySize(e: Entry): nat { e.bytes }
  function EntryOne(e: Entry): nat { 1 }

  function Rejection(d: Daemon, e: Envelope): Option<Code> {
    if e.id in d.cancellations then Some(DuplicateRequestId)
    else if |d.cancellations| >= MAX_JOBS || d.admitted + e.payload > MAX_ADMITTED then Some(SchedulerBusy)
    else None
  }

  function OnSchedule(d: Daemon, e: Envelope): (Daemon, Option<Reply>) {
    match Rejection(d, e)
    case Some(code) =>
      (d.(consumed := d.consumed + 1, answered := d.answered + 1), Some(Reply(e.id, code)))
    case None =>
      (d.(cancellations := d.cancellations[e.id := Entry(true, e.payload)],
          jobs := d.jobs + [Job(e.id, e.payload, 0)],
          admitted := d.admitted + e.payload,
          consumed := d.consumed + 1),
       None)
  }

  function Signal(jobs: seq<Job>, t: Id): (r: seq<Job>)
    ensures |r| == |jobs|
    ensures forall i :: 0 <= i < |r| ==>
              r[i] == if jobs[i].id == t then jobs[i].(cancels := jobs[i].cancels + 1) else jobs[i]
  {
    seq(|jobs|, i requires 0 <= i < |jobs| =>
      if jobs[i].id == t then jobs[i].(cancels := jobs[i].cancels + 1) else jobs[i])
  }

  function OnCancel(d: Daemon, e: Envelope): (Daemon, Option<Reply>) {
    match e.target
    case None => (d, Some(Reply(e.id, InvalidCancel)))
    case Some(t) =>
      if t !in d.cancellations then (d, Some(Reply(e.id, CancelAccepted(false))))
      else
        var entry := d.cancellations[t];
        (d.(cancellations := d.cancellations[t := Entry(false, entry.bytes)],
            jobs := if entry.armed then Signal(d.jobs, t) else d.jobs),
         Some(Reply(e.id, CancelAccepted(entry.armed))))
  }

  /** The state once the loop has ended and its tables were cleared. */
  function Stop(d: Daemon): Daemon { d.(running := false, cancellations := map[], jobs := []) }

  function OnMessage(d: Daemon, e: Envelope): (Daemon, Option<Reply>) {
    match e.kind
    case Schedule => OnSchedule(d, e)
    case Cancel => OnCancel(d, e)
    case Shutdown => (Stop(d), Some(Reply(e.id, Done)))
    case _ => (d, Some(Reply(e.id, Done)))
  }

  /** Job `i` ends. A signalled job may still report its normal result. */
  function OnFinished(d: Daemon, i: nat, cancelled: bool): (Daemon, Option<Reply>)
    requires i < |d.jobs|
    requires cancelled ==> d.jobs[i].cancels > 0
  {
    var id := d.jobs[i].id;
    var freed := if id in d.cancellations then d.cancellations[id].bytes else 0;
    (d.(jobs := d.jobs[..i] + d.jobs[i + 1..],
        cancellations := d.cancellations - {id},
        admitted := if freed <= d.admitted then d.admitted - freed else 0,
        answered := d.answered + 1),
     Some(Reply(id, if cancelled then Cancelled else JobResult)))
  }

  // ---- invariant ---------------------------------------------------------

  function JobIds(jobs: seq<Job>): set<Id> { set j | j in jobs :: j.id }

  predicate JobMatches(table: map<Id, Entry>, j: Job) {
    && j.id in table
    && table[j.id].bytes == j.bytes
    && (table[j.id].armed <==> j.cancels == 0)
    && j.cancels <= 1
  }

  ghost predicate DistinctIds(jobs: seq<Job>) {
    forall i, j :: 0 <= i < j < |jobs| ==> jobs[i].id != jobs[j].id
  }

  ghost predicate TableMatchesJobs(table: map<Id, Entry>, jobs: seq<Job>) {
    && |jobs| == |table|
    && DistinctIds(jobs)
    && (forall i :: 0 <= i < |jobs| ==> JobMatches(table, jobs[i]))
  }

  ghost predicate Accounted(d: Daemon) {
    && d.admitted == Sum(d.cancellations, EntrySize)
    && d.admitted <= MAX_ADMITTED
    && |d.cancellations| <= MAX_JOBS
    && d.consumed == d.answered + |d.jobs|
  }

  ghost predicate DaemonInv(d: Daemon) {
    d.running ==> TableMatchesJobs(d.cancellations, d.jobs) && Accounted(d)
  }

  lemma FreshInv()
    ensures DaemonInv(Fresh)
  {}

  lemma AddedJob(table: map<Id, Entry>, jobs: seq<Job>, id: Id, bytes: nat)
    requires TableMatchesJobs(table, jobs) && id !in table
    ensures TableMatchesJobs(table[id := Entry(true, bytes)], jobs + [Job(id, bytes, 0)])
  {
    forall i | 0 <= i < |jobs|
      ensures jobs[i].id != id && JobMatches(table[id := Entry(true, bytes)], jobs[i])
    {
      assert JobMatches(table, jobs[i]);
    }
  }

  lemma {:induction false} JobIdsCount(jobs: seq<Job>)
    requires DistinctIds(jobs)
    ensures |JobIds(jobs)| == |jobs|
  {
    if jobs != [] {
      var last := jobs[|jobs| - 1];
      var front := jobs[..|jobs| - 1];
      JobIdsCount(front);
      assert forall j :: j in jobs <==> j in front || j == last;
      assert JobIds(jobs) == JobIds(front) + {last.id};
    }
  }

  lemma {:induction false} SubsetOfEqualSize<T>(a: set<T>, b: set<T>)
    requires a <= b && |a| == |b|
    ensures a == b
  {
    if a != b {
      var x :| x in b && x !in a;
      assert a <= b - {x};
      SmallerSubset(a, b - {x});
    }
  }

  lemma {:induction false} SmallerSubset<T>(a: set<T>, b: set<T>)
    requires a <= b
    ensures |a| <= |b|
  {
    if a != {} {
      var x :| x in a;
      SmallerSubset(a - {x}, b - {x});
    }
  }

  /** The keys of the cancellation table are exactly the ids of the running jobs. */
  lemma KeysAreRunningJobs(d: Daemon)
    requires d.running && DaemonInv(d)
    ensures d.cancellations.Keys == JobIds(d.jobs)
  {
    JobIdsCount(d.jobs);
    forall id | id in JobIds(d.jobs) ensures id in d.cancellations.Keys {
      var i :| 0 <= i < |d.jobs| && d.jobs[i].id == id;
      assert JobMatches(d.cancellations, d.jobs[i]);
    }
    SubsetOfEqualSize(JobIds(d.jobs), d.cancellations.Keys);
  }

  lemma SignalledJob(table: map<Id, Entry>, jobs: seq<Job>, t: Id)
    requires TableMatchesJobs(table, jobs) && t in table
    ensures TableMatchesJobs(table[t := Entry(false, table[t].bytes)], if table[t].armed then Signal(jobs, t) else jobs)
  {
    var more := if table[t].armed then Signal(jobs, t) else jobs;
    var next := table[t := Entry(false, table[t].bytes)];
    assert next.Keys == table.Keys;
    forall i | 0 <= i < |more|
      ensures JobMatches(next, more[i])
    {
      assert JobMatches(table, jobs[i]);
    }
  }

  lemma RemovedJob(table: map<Id, Entry>, jobs: seq<Job>, i: nat)
    requires TableMatchesJobs(table, jobs) && i < |jobs|
    ensures TableMatchesJobs(table - {jobs[i].id}, jobs[..i] + jobs[i + 1..])
  {
    var id := jobs[i].id;
    var rest := jobs[..i] + jobs[i + 1..];
    assert JobMatches(table, jobs[i]);
    assert (table - {id}).Keys == table.Keys - {id};
    forall k | 0 <= k < |rest|
      ensures rest[k].id != id && JobMatches(table - {id}, rest[k])
    {
      assert rest[k] == jobs[if k < i then k else k + 1];
      assert JobMatches(table, rest[k]);
    }
  }

  lemma ScheduleInv(d: Daemon, e: Envelope)
    requires d.running && DaemonInv(d)
    ensures DaemonInv(OnSchedule(d, e).0)
  {
    if Rejection(d, e).None? {
      SumInsert(d.cancellations, EntrySize, e.id, Entry(true, e.payload));
      AddedJob(d.cancellations, d.jobs, e.id, e.payload);
    }
  }

  lemma CancelInv(d: Daemon, e: Envelope)
    requires d.running && DaemonInv(d)
    ensures DaemonInv(OnCancel(d, e).0)
  {
    if e.target.Some? && e.target.value in d.cancellations {
      var t := e.target.value;
      var next := d.cancellations[t := Entry(false, d.cancellations[t].bytes)];
      SumRemove(d.cancellations, EntrySize, t);
      SumRemove(next, EntrySize, t);
      assert next - {t} == d.cancellations - {t};
      assert next.Keys == d.cancellations.Keys;
      SignalledJob(d.cancellations, d.jobs, t);
    }
  }

  lemma FinishedInv(d: Daemon, i: nat, cancelled: bool)
    requires d.running && DaemonInv(d)
    requires i < |d.jobs| && (cancelled ==> d.jobs[i].cancels > 0)
    ensures DaemonInv(OnFinished(d, i, cancelled).0)
    ensures d.jobs[i].id in d.cancellations
    ensures d.cancellations[d.jobs[i].id].bytes <= d.admitted  // the saturating subtraction never saturates
  {
    var id := d.jobs[i].id;
    assert JobMatches(d.cancellations, d.jobs[i]);
    SumRemove(d.cancellations, EntrySize, id);
    RemovedJob(d.cancellations, d.jobs, i);
    assert (d.cancellations - {id}).Keys == d.cancellations.Keys - {id};
  }

  lemma MessageInv(d: Daemon, e: Envelope)
    requires d.running && DaemonInv(d)
    ensures DaemonInv(OnMessage(d, e).0)
  {
    match e.kind
    case Schedule => ScheduleInv(d, e);
    case Cancel => CancelInv(d, e);
    case _ =>
  }

  // ---- runs of the daemon alone, against any client ------------------------

  datatype Event =
    | Message(envelope: Envelope, sent: bool)
    | Finish(index: nat, cancelled: bool, sent: bool)
    | Broken

  predicate Possible(d: Daemon, ev: Event) {
    d.running && match ev
                 case Finish(i, cancelled, _) => i < |d.jobs| && (cancelled ==> d.jobs[i].cancels > 0)
                 case _ => true
  }

  /** A reply that cannot be queued ends the loop, as does a reader or writer failure. */
  function Next(d: Daemon, ev: Event): (Daemon, Option<Reply>)
    requires Possible(d, ev)
  {
    var (d', r) := match ev
      case Message(e, _) => OnMessage(d, e)
      case Finish(i, cancelled, _) => OnFinished(d, i, cancelled)
      case Broken => (Stop(d), None);
    if r.Some? && !ev.sent then (Stop(d'), None) else (d', r)
  }

  lemma NextInv(d: Daemon, ev: Event)
    requires Possible(d, ev) && DaemonInv(d)
    ensures DaemonInv(Next(d, ev).0)
  {
    match ev
    case Message(e, _) => MessageInv(d, e);
    case Finish(i, cancelled, _) => FinishedInv(d, i, cancelled);
    case Broken =>
  }

  ghost predicate RunsFrom(d: Daemon, evs: seq<Event>, d': Daemon)
    decreases |evs|
  {
    if evs == [] then d == d'
    else Possible(d, evs[0]) && RunsFrom(Next(d, evs[0]).0, evs[1..], d')
  }

  lemma {:induction false} DaemonRunInv(d: Daemon, evs: seq<Event>, d': Daemon)
    requires DaemonInv(d) && RunsFrom(d, evs, d')
    ensures DaemonInv(d')
    decreases |evs|
  {
    if evs != [] {
      NextInv(d, evs[0]);
      DaemonRunInv(Next(d, evs[0]).0, evs[1..], d');
    }
  }

  /** Over every run against any client at all, while the loop goes on: the table's keys are the
      running jobs, the byte counter is the exact sum, both limits hold, no job had two
      cancellations accepted, and every Schedule taken was answered or is still running. */
  lemma EveryRun(evs: seq<Event>, d: Daemon)
    requires RunsFrom(Fresh, evs, d) && d.running
    ensures d.cancellations.Keys == JobIds(d.jobs) && |d.jobs| == |d.cancellations| <= MAX_JOBS
    ensures d.admitted == Sum(d.cancellations, EntrySize) <= MAX_ADMITTED
    ensures forall i :: 0 <= i < |d.jobs| ==> d.jobs[i].cancels <= 1
    ensures d.consumed == d.answered + |d.jobs|
  {
    FreshInv();
    DaemonRunInv(Fresh, evs, d);
    KeysAreRunningJobs(d);
    assert forall i :: 0 <= i < |d.jobs| ==> JobMatches(d.cancellations, d.jobs[i]);
  }

  /** A reservation is given up by nothing but the end of its own job or of the whole loop:
      in particular a cancelled job keeps it. */
  lemma ReservationKept(d: Daemon, ev: Event, id: Id)
    requires Possible(d, ev) && DaemonInv(d) && id in d.cancellations
    ensures
      var d' := Next(d, ev).0;
      || !d'.running
      || (ev.Finish? && d.jobs[ev.index].id == id && id !in d'.cancellations)
      || (id in d'.cancellations && d'.cancellations[id].bytes == d.cancellations[id].bytes)
  {
    if ev.Finish? { assert JobMatches(d.cancellations, d.jobs[ev.index]); }
  }
}
