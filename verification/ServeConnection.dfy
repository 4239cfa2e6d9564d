/** The daemon's select loop as an object: one method per branch that touches its tables. */
module ServeConnection {
  import opened Common
  import opened JobClient
  import opened JobDaemon

  class SelectLoop {
    var running: bool
    var cancellations: map<Id, Entry>
    var jobs: seq<Job>
    var admittedBytes: nat
    var consumed: nat
    var answered: nat

    function State(): (d: Daemon)
      reads this
    {
      Daemon(running, cancellations, jobs, admittedBytes, consumed, answered)
    }

    constructor ()
      ensures State() == Fresh
    {
      running := true;
      cancellations, jobs := map[], [];
      admittedBytes, consumed, answered := 0, 0, 0;
    }

    method Schedule(e: Envelope) returns (reply: Option<Reply>)
      modifies this
      ensures (State(), reply) == OnSchedule(old(State()), e)
    {
      var bytes := e.payload;
      var code: Option<Code> := None;
      if e.id in cancellations {
        code := Some(DuplicateRequestId);
      } else if |cancellations| >= MAX_JOBS || admittedBytes + bytes > MAX_ADMITTED {
        code := Some(SchedulerBusy);
      }
      consumed := consumed + 1;
      if code.Some? {
        answered := answered + 1;
        return Some(Reply(e.id, code.value));
      }
      cancellations := cancellations[e.id := Entry(true, bytes)];
      admittedBytes := admittedBytes + bytes;
      jobs := jobs + [Job(e.id, bytes, 0)];
      return None;
    }

    /** The taken sender is replaced by one whose receiver is already gone, so the reservation stays. */
    method Cancel(e: Envelope) returns (reply: Option<Reply>)
      modifies this
      ensures (State(), reply) == OnCancel(old(State()), e)
    {
      if e.target.None? { return Some(Reply(e.id, InvalidCancel)); }
      var target := e.target.value;
      var accepted := false;
      if target in cancellations {
        var Entry(armed, bytes) := cancellations[target];
        cancellations := cancellations[target := Entry(false, bytes)];
        if armed {
          SignalJobs(target);
          accepted := true;
        }
      }
      return Some(Reply(e.id, CancelAccepted(accepted)));
    }

    method SignalJobs(target: Id)
      modifies this`jobs
      ensures jobs == Signal(old(jobs), target)
    {
      var i := 0;
      while i < |jobs|
        invariant 0 <= i <= |jobs| == |old(jobs)|
        invariant jobs[..i] == Signal(old(jobs), target)[..i]
        invariant jobs[i..] == old(jobs)[i..]
      {
        var job := jobs[i];
        assert job == old(jobs)[i..][0];
        if job.id == target { jobs := jobs[i := job.(cancels := job.cancels + 1)]; }
        i := i + 1;
      }
    }

    method Clear()
      modifies this
      ensures State() == Stop(old(State()))
    {
      running := false;
      jobs := [];
      cancellations := map[];
    }

    method Receive(e: Envelope) returns (reply: Option<Reply>)
      modifies this
      ensures (State(), reply) == OnMessage(old(State()), e)
      ensures old(running) && DaemonInv(old(State())) ==> DaemonInv(State())
    {
      if running && DaemonInv(State()) { MessageInv(State(), e); }
      match e.kind
      case Schedule => reply := Schedule(e);
      case Cancel => reply := Cancel(e);
      case Shutdown => Clear(); reply := Some(Reply(e.id, Done));
      case _ => reply := Some(Reply(e.id, Done));
    }

    method Finished(i: nat, cancelled: bool) returns (reply: Option<Reply>)
      requires i < |jobs| && (cancelled ==> jobs[i].cancels > 0)
      modifies this
      ensures (State(), reply) == OnFinished(old(State()), i, cancelled)
      ensures old(running) && DaemonInv(old(State())) ==> DaemonInv(State())
    {
      if running && DaemonInv(State()) { FinishedInv(State(), i, cancelled); }
      var id := jobs[i].id;
      jobs := jobs[..i] + jobs[i + 1..];
      if id in cancellations {
        var bytes := cancellations[id].bytes;
        cancellations := cancellations - {id};
        admittedBytes := if bytes <= admittedBytes then admittedBytes - bytes else 0;
      } else {
        assert cancellations - {id} == cancellations;
      }
      answered := answered + 1;
      return Some(Reply(id, if cancelled then Cancelled else JobResult));
    }
  }
}
