/** A job: one run of the workflow runner, with its status record. */
module Jobs {
  import opened Values
  import opened JobStatus

  class Job {
    const jobid: string
    const path: string
    const inputobj: Data
    const name: string
    /** Whether starting the runner succeeded, that is, whether the job has
        a process handle at all. */
    const spawned: bool
    var status: Status
    /** Whether the exit handler has finished; the job's thread is started
        once, so the handler runs at most once. */
    ghost var exited: bool

    /** The record keeps the job's own entries, the log URL follows the job
        URL, a failed start is exactly a system error, and before the exit
        handler has run there is no output and no exit state. */
    ghost predicate Valid()
      reads this
    {
      && status.workflow == path
      && status.input == inputobj
      && status.name == name
      && status.log == status.id + "/log"
      && (status.state == SystemError <==> !spawned)
      && (!exited ==> status.output == Null && status.state != Success && status.state != PermanentFailure)
    }

    /** `__init__` together with `begin`: build the record as running, and
        mark it a system error when the runner could not be started. */
    constructor (jobid: string, path: string, inputobj: Data, name: string, urlRoot: string, spawnOk: bool)
      ensures Valid() && !exited
      ensures this.jobid == jobid && this.path == path && this.inputobj == inputobj && this.name == name
      ensures spawned == spawnOk
      ensures status == Initial(urlRoot, jobid, path, inputobj, name, spawnOk)
    {
      this.jobid := jobid;
      this.path := path;
      this.inputobj := inputobj;
      this.name := name;
      spawned := spawnOk;
      exited := false;
      status := Status(JobUrl(urlRoot, jobid), JobUrl(urlRoot, jobid) + "/log", path, Running, inputobj, Null, name);
      new;
      if !spawnOk {
        status := status.(state := SystemError);
      }
    }

    /** `run`, the exit handler, given the runner's exit code and the parsed
        standard output. Without a process the handler fails at once and the
        record stays as it was. */
    method Run(code: int, parsed: Option<Data>)
      requires Valid() && !exited
      modifies this
      ensures Valid() && exited
      ensures status == if spawned then AfterExit(old(status), code, parsed) else old(status)
    {
      exited := true;
      if spawned {
        if code == 0 {
          match parsed
          case Some(outobj) =>
            status := status.(state := Success);
            status := status.(output := outobj);
          case None =>
        } else {
          status := status.(state := PermanentFailure);
        }
      }
    }

    /** `getstatus`: a copy of the record, which is always consistent. */
    function GetStatus(): (s: Status)
      requires Valid()
      reads this
      ensures s == status
      ensures s.log == s.id + "/log" && s.workflow == path && s.input == inputobj && s.name == name
      ensures s.state == SystemError <==> !spawned
    {
      status
    }

    method Cancel()
      requires Valid()
      modifies this
      ensures Valid() && exited == old(exited)
      ensures status == AfterCancel(old(status))
    {
      if status.state == Running {
        status := status.(state := Cancelled);
      }
    }

    method Pause()
      requires Valid()
      modifies this
      ensures Valid() && exited == old(exited)
      ensures status == AfterPause(old(status))
    {
      if status.state == Running {
        status := status.(state := Paused);
      }
    }

    method Resume()
      requires Valid()
      modifies this
      ensures Valid() && exited == old(exited)
      ensures status == AfterResume(old(status))
    {
      if status.state == Paused {
        status := status.(state := Running);
      }
    }
  }

  /** The status records of a sequence of jobs, in order. */
  function StatusesOf(js: seq<Job>): (r: seq<Status>)
    reads js
    ensures |r| == |js|
    ensures forall k :: 0 <= k < |js| ==> r[k] == js[k].status
    decreases |js|
  {
    if js == [] then [] else StatusesOf(js[..|js| - 1]) + [js[|js| - 1].status]
  }

  /** A cancelled job whose runner then dies of the quit signal (exit code
      -3) ends as a permanent failure: the exit handler overwrites the
      cancellation. */
  method CancelThenKilled(urlRoot: string, path: string, inputobj: Data, name: string) returns (before: State, after: State)
    ensures before == Cancelled && after == PermanentFailure
  {
    var job := new Job("0", path, inputobj, name, urlRoot, true);
    job.Cancel();
    before := job.GetStatus().state;
    job.Run(-3, None);
    after := job.GetStatus().state;
  }
}
