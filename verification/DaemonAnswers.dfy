/** What the daemon answers, in terms of the jobs that run: which Schedules it refuses, what a
    Cancel reports, and how a job ends. */
module DaemonAnswers {
  import opened Common
  import opened JobClient
  import opened JobDaemon

  predicate Runs(d: Daemon, id: Id) { exists j :: j in d.jobs && j.id == id }

  /** A job of this id runs and was not told to stop yet. */
  predicate RunsUnsignalled(d: Daemon, id: Id) { exists j :: j in d.jobs && j.id == id && j.cancels == 0 }

  function JobBytes(jobs: seq<Job>): nat {
    if jobs == [] then 0 else JobBytes(jobs[..|jobs| - 1]) + jobs[|jobs| - 1].bytes
  }

  lemma {:induction false} JobBytesSum(table: map<Id, Entry>, jobs: seq<Job>)
    requires TableMatchesJobs(table, jobs)
    ensures Sum(table, EntrySize) == JobBytes(jobs)
    decreases |jobs|
  {
    if jobs != [] {
      var n := |jobs| - 1;
      assert JobMatches(table, jobs[n]);
      RemovedJob(table, jobs, n);
      assert jobs[..n] + jobs[n + 1..] == jobs[..n];
      JobBytesSum(table - {jobs[n].id}, jobs[..n]);
      SumRemove(table, EntrySize, jobs[n].id);
    }
  }

  lemma TableIsJobs(d: Daemon, id: Id)
    requires d.running && DaemonInv(d)
    ensures id in d.cancellations <==> Runs(d, id)
    ensures id in d.cancellations && d.cancellations[id].armed <==> RunsUnsignalled(d, id)
  {
    KeysAreRunningJobs(d);
    if id in JobIds(d.jobs) {
      var i :| 0 <= i < |d.jobs| && d.jobs[i].id == id;
      assert JobMatches(d.cancellations, d.jobs[i]);
    }
    forall j | j in d.jobs && j.id == id
      ensures id in d.cancellations && (d.cancellations[id].armed <==> j.cancels == 0)
    {
      var i :| 0 <= i < |d.jobs| && d.jobs[i] == j;
      assert JobMatches(d.cancellations, d.jobs[i]);
    }
  }

  /** A Schedule is a duplicate exactly if a job of its id runs, and finds the daemon busy exactly
      if it is none and 32 jobs run or its bytes and theirs exceed 128 MiB. */
  lemma RefusedExactly(d: Daemon, e: Envelope)
    requires d.running && DaemonInv(d)
    ensures Rejection(d, e) == Some(DuplicateRequestId) <==> Runs(d, e.id)
    ensures Rejection(d, e) == Some(SchedulerBusy) <==>
              !Runs(d, e.id) && (|d.jobs| >= 32 || JobBytes(d.jobs) + e.payload > 134217728)
    ensures Rejection(d, e) == None || Rejection(d, e) == Some(DuplicateRequestId) || Rejection(d, e) == Some(SchedulerBusy)
  {
    TableIsJobs(d, e.id);
    JobBytesSum(d.cancellations, d.jobs);
  }

  /** A Schedule is answered at once exactly if it is refused; otherwise it runs, unsignalled. */
  lemma ScheduleAnswered(d: Daemon, e: Envelope)
    requires d.running && DaemonInv(d) && e.kind.Schedule?
    ensures
      var (d', r) := Next(d, Message(e, true));
      && d'.running
      && match Rejection(d, e)
         case Some(code) => r == Some(Reply(e.id, code)) && d'.jobs == d.jobs
         case None => r == None && d'.jobs == d.jobs + [Job(e.id, e.payload, 0)] && RunsUnsignalled(d', e.id)
  {
    if Rejection(d, e).None? { assert (d.jobs + [Job(e.id, e.payload, 0)])[|d.jobs|].id == e.id; }
  }

  /** A Cancel is reported as accepted exactly if a job of that id runs and was not signalled
      before; then that job is signalled and no other. Without a target it is invalid. */
  lemma CancelAnswered(d: Daemon, e: Envelope)
    requires d.running && DaemonInv(d) && e.kind.Cancel?
    ensures
      var (d', r) := Next(d, Message(e, true));
      && d'.running && |d'.jobs| == |d.jobs|
      && match e.target
         case None => r == Some(Reply(e.id, InvalidCancel)) && d' == d
         case Some(t) =>
           && r == Some(Reply(e.id, CancelAccepted(RunsUnsignalled(d, t))))
           && forall i :: 0 <= i < |d.jobs| ==>
                d'.jobs[i] == if d.jobs[i].id == t then d.jobs[i].(cancels := 1) else d.jobs[i]
  {
    if e.target.Some? {
      TableIsJobs(d, e.target.value);
      forall i | 0 <= i < |d.jobs|
        ensures JobMatches(d.cancellations, d.jobs[i])
      {
      }
    }
  }

  /** A job that ends is answered under its own id, as cancelled exactly if it stopped for a Cancel,
      which takes an accepted one; the other jobs go on. */
  lemma FinishAnswered(d: Daemon, i: nat, cancelled: bool)
    requires DaemonInv(d) && Possible(d, Finish(i, cancelled, true))
    ensures
      var (d', r) := Next(d, Finish(i, cancelled, true));
      && d'.running && r == Some(Reply(d.jobs[i].id, if cancelled then Cancelled else JobResult))
      && d'.jobs == d.jobs[..i] + d.jobs[i + 1..] && !Runs(d', d.jobs[i].id)
      && (cancelled ==> !RunsUnsignalled(d, d.jobs[i].id))
  {
    assert JobMatches(d.cancellations, d.jobs[i]);
  }

  /** Shutdown is acknowledged and ends every job; the other control requests change nothing here. */
  lemma ControlAnswered(d: Daemon, e: Envelope)
    requires d.running && !e.kind.Schedule? && !e.kind.Cancel?
    ensures
      var (d', r) := Next(d, Message(e, true));
      && r == Some(Reply(e.id, Done))
      && (if e.kind.Shutdown? then !d'.running && d'.jobs == [] && d'.cancellations == map[] else d' == d)
  {}

  // ---- over runs ------------------------------------------------------------

  /** The event cancels `t` and reports success. */
  predicate Accepts(d: Daemon, ev: Event, t: Id) {
    && Possible(d, ev) && ev.Message? && ev.envelope.kind.Cancel? && ev.envelope.target == Some(t)
    && Next(d, ev).1 == Some(Reply(ev.envelope.id, CancelAccepted(true)))
  }

  /** The event ends a job of id `t`, or all of them. */
  predicate Ends(d: Daemon, ev: Event, t: Id)
    requires Possible(d, ev)
  {
    (ev.Finish? && d.jobs[ev.index].id == t) || !Next(d, ev).0.running
  }

  /** No event of the run ends a job of id `t`. */
  ghost predicate NeverEnds(d: Daemon, evs: seq<Event>, t: Id)
    decreases |evs|
  {
    evs != [] ==> Possible(d, evs[0]) && !Ends(d, evs[0], t) && NeverEnds(Next(d, evs[0]).0, evs[1..], t)
  }

  /** A job of id `t` runs, and it was signalled. */
  ghost predicate Signalled(d: Daemon, t: Id) { d.running && DaemonInv(d) && Runs(d, t) && !RunsUnsignalled(d, t) }

  lemma SignalledIsTable(d: Daemon, t: Id)
    requires d.running && DaemonInv(d)
    ensures Signalled(d, t) <==> t in d.cancellations && !d.cancellations[t].armed
  {
    TableIsJobs(d, t);
  }

  lemma StaysSignalled(d: Daemon, ev: Event, t: Id)
    requires Signalled(d, t) && Possible(d, ev) && !Ends(d, ev, t)
    ensures Signalled(Next(d, ev).0, t)
  {
    NextInv(d, ev);
    SignalledIsTable(d, t);
    SignalledIsTable(Next(d, ev).0, t);
  }

  lemma AcceptedSignals(d: Daemon, ev: Event, t: Id)
    requires d.running && DaemonInv(d) && Accepts(d, ev, t) && ev.sent
    ensures Signalled(Next(d, ev).0, t)
  {
    NextInv(d, ev);
    CancelAnswered(d, ev.envelope);
    TableIsJobs(d, t);
    SignalledIsTable(Next(d, ev).0, t);
  }

  lemma {:induction false} SignalledInRun(d: Daemon, evs: seq<Event>, d': Daemon, t: Id)
    requires Signalled(d, t) && RunsFrom(d, evs, d') && NeverEnds(d, evs, t)
    ensures Signalled(d', t)
    decreases |evs|
  {
    if evs != [] {
      StaysSignalled(d, evs[0], t);
      SignalledInRun(Next(d, evs[0]).0, evs[1..], d', t);
    }
  }

  /** At most one Cancel of a job is reported as accepted: between two such reports a job of that id ends. */
  lemma AcceptedOnce(evs: seq<Event>, d: Daemon, first: Event, between: seq<Event>, d': Daemon, second: Event, t: Id)
    requires RunsFrom(Fresh, evs, d) && Accepts(d, first, t)
    requires RunsFrom(Next(d, first).0, between, d') && Accepts(d', second, t)
    ensures !NeverEnds(Next(d, first).0, between, t)
  {
    FreshInv();
    DaemonRunInv(Fresh, evs, d);
    AcceptedSignals(d, first, t);
    if NeverEnds(Next(d, first).0, between, t) {
      SignalledInRun(Next(d, first).0, between, d', t);
      CancelAnswered(d', second.envelope);
    }
  }
}
