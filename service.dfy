/** The service's job registry and its request handlers: creating a job,
    looking one up by index, listing, streaming a log, cancelling and
    deleting. */
module Service {
  import opened Values
  import opened Strings
  import opened JobStatus
  import opened Jobs
  import opened Logs

  /** A handler's reply: the 404 "Not Found" answer, or a value. */
  datatype Reply<+T> = NotFound | Ok(value: T)

  /** The body of a job request; `input` and `name` may be missing. */
  datatype Request = Request(workflow: string, input: Option<Data>, name: Option<string>)

  /** A Python value, as far as the comparison in `deleteJobById` needs:
      a dictionary (a status record) or a string. */
  datatype PyValue = Dict(status: Status) | Str(s: string)

  /** Python's `jobs[i]` on a list of length `n`: the position it selects,
      or `None` where Python raises `IndexError`. Negative indices count
      from the end. */
  function PyIndex(i: int, n: nat): (r: Option<nat>)
    ensures r.None? <==> (i >= n || i < -(n as int))
    ensures r.Some? ==> r.value < n && r.value == i % n
  {
    if -(n as int) <= i < n then Some(if i >= 0 then i else n + i) else None
  }

  /** The check `status in ('Running', 'Waiting')` before a deletion. It
      compares the whole status record with two strings, which is never
      true. */
  function DeleteCancelsFirst(status: Status): (r: bool)
    ensures !r
  {
    Dict(status) in [Str("Running"), Str("Waiting")]
  }

  /** The JSON texts of a sequence of status records. */
  function Rendered(dumps: Status -> string, ss: seq<Status>): seq<string> {
    seq(|ss|, k requires 0 <= k < |ss| => dumps(ss[k]))
  }

  /** `spool`, the generator of `getJobs`: an opening bracket, each job's
      JSON with a separator before all but the first, a closing bracket. */
  method Spool(jc: seq<Job>, dumps: Status -> string) returns (pieces: seq<string>)
    requires forall k :: 0 <= k < |jc| ==> jc[k].Valid()
    ensures |pieces| == |jc| + 2 && pieces[0] == "[" && pieces[|jc| + 1] == "]"
    ensures forall k :: 0 <= k < |jc| ==> pieces[k + 1] == (if k == 0 then "" else ", ") + dumps(jc[k].status)
    ensures Concat(pieces) == "[" + Join(", ", Rendered(dumps, StatusesOf(jc))) + "]"
  {
    ghost var all := Rendered(dumps, StatusesOf(jc));
    pieces := ["["];
    var first := true;
    for i := 0 to |jc|
      invariant first <==> i == 0
      invariant |pieces| == i + 1 && pieces[0] == "["
      invariant forall k :: 0 <= k < i ==> pieces[k + 1] == (if k == 0 then "" else ", ") + dumps(jc[k].status)
      invariant Concat(pieces) == "[" + Join(", ", all[..i])
    {
      var piece;
      if first {
        piece := dumps(jc[i].GetStatus());
        first := false;
      } else {
        piece := ", " + dumps(jc[i].GetStatus());
      }
      assert all[..i + 1] == all[..i] + [piece[|piece| - |all[i]|..]] by {
        assert piece[|piece| - |all[i]|..] == all[i];
      }
      ConcatAppend(pieces, [piece]);
      JoinAppend(", ", all[..i], all[i]);
      pieces := pieces + [piece];
    }
    ConcatAppend(pieces, ["]"]);
    assert all[..|jc|] == all;
    pieces := pieces + ["]"];
  }

  /** The global job list and the handlers that use it. */
  class Registry {
    var jobs: seq<Job>

    /** Every job is consistent, and no job appears twice. */
    ghost predicate Valid()
      reads this, jobs
    {
      && (forall k :: 0 <= k < |jobs| ==> jobs[k].Valid())
      && (forall a, b :: 0 <= a < b < |jobs| ==> jobs[a] != jobs[b])
    }

    /** The status records of the registered jobs, in list order. */
    function Statuses(): seq<Status>
      reads this, jobs
    {
      StatusesOf(jobs)
    }

    constructor ()
      ensures Valid() && jobs == []
    {
      jobs := [];
    }

    /** `postJob`: the new job's id is the current length of the list; the
        job is started and appended. The reply redirects to the new job. */
    method PostJob(body: Request, urlRoot: string, spawnOk: bool) returns (location: string)
      requires Valid()
      modifies this
      ensures Valid()
      ensures |jobs| == |old(jobs)| + 1 && jobs[..|old(jobs)|] == old(jobs)
      ensures fresh(jobs[|old(jobs)|]) && !jobs[|old(jobs)|].exited
      ensures Statuses() == old(Statuses()) + [Initial(urlRoot, Decimal(|old(jobs)|), body.workflow,
                                                      body.input.GetOr(Object(map[])), body.name.GetOr(""), spawnOk)]
      ensures location == "/jobs/" + Decimal(|old(jobs)|)
    {
      var path := body.workflow;
      var inputobj := body.input.GetOr(Object(map[]));
      var name := body.name.GetOr("");
      var jobid := |jobs|;
      var job := new Job(Decimal(jobid), path, inputobj, name, urlRoot, spawnOk);
      // job.start(): the job's own thread later runs the exit handler, Job.Run
      jobs := jobs + [job];
      location := "/jobs/" + Decimal(jobid);
    }

    /** `getJobById`. */
    method GetJobById(i: int) returns (r: Reply<Status>)
      requires Valid()
      ensures r == if -|jobs| <= i < |jobs| then Ok(Statuses()[i % |jobs|]) else NotFound
    {
      match PyIndex(i, |jobs|)
      case None => r := NotFound;
      case Some(k) => r := Ok(jobs[k].GetStatus());
    }

    /** `getJobLogById`: the log tail of the job at index `i`, given the
        contents of its log file. The first empty read finds the job's
        current state; `later` holds the states found at the empty reads
        after each sleep, while other requests may change the job. */
    method GetJobLogById(i: int, content: string, later: seq<State>) returns (r: Reply<LogTail>)
      requires Valid()
      ensures r.NotFound? <==> (i >= |jobs| || i < -|jobs|)
      ensures r.Ok? ==> r.value.chunks == Chunks(content) && Concat(r.value.chunks) == content
      ensures r.Ok? ==> var st := Statuses()[i % |jobs|].state;
        (r.value.ended <==> st != Running || exists q :: 0 <= q < |later| && later[q] != Running)
      ensures r.Ok? && Statuses()[i % |jobs|].state != Running ==> r.value.ended && r.value.sleeps == 0
    {
      match PyIndex(i, |jobs|)
      case None => r := NotFound;
      case Some(k) =>
        var observed := [jobs[k].GetStatus().state] + later;
        var chunks, ended, sleeps := LogSpooler(content, observed);
        assert ended <==> observed[0] != Running || exists q :: 0 <= q < |later| && later[q] != Running by {
          if exists q :: 0 <= q < |later| && later[q] != Running {
            var q :| 0 <= q < |later| && later[q] != Running;
            assert observed[q + 1] != Running;
          }
        }
        r := Ok(LogTail(chunks, ended, sleeps));
    }

    /** `getJobs`: a copy of the list is taken, then spooled as a JSON array. */
    method GetJobs(dumps: Status -> string) returns (pieces: seq<string>)
      requires Valid()
      ensures Concat(pieces) == "[" + Join(", ", Rendered(dumps, Statuses())) + "]"
      ensures jobs == [] ==> Concat(pieces) == "[]"
    {
      var jobscopy := jobs;
      pieces := Spool(jobscopy, dumps);
    }

    /** `deleteJobById`: the entry at index `i` is removed, which moves every
        later entry down by one. The job is not cancelled first. */
    method DeleteJobById(i: int) returns (r: Reply<()>)
      requires Valid()
      modifies this
      ensures Valid()
      ensures r.NotFound? <==> (i >= |old(jobs)| || i < -|old(jobs)|)
      ensures r.NotFound? ==> jobs == old(jobs)
      ensures r.Ok? ==> var k := i % |old(jobs)|;
        && jobs == old(jobs[..k] + jobs[k + 1..])
        && Statuses() == old(Statuses()[..k] + Statuses()[k + 1..])
        && old(jobs[k]).status == old(jobs[k].status)
    {
      match PyIndex(i, |jobs|)
      case None => r := NotFound;
      case Some(k) =>
        var job := jobs[k];
        var status := job.GetStatus();
        if DeleteCancelsFirst(status) {
          // the call `job.cancel()` is unreachable
          assert false;
        }
        jobs := jobs[..k] + jobs[k + 1..];
        r := Ok(());
    }

    /** `cancelJobById`: cancel the job at index `i` and reply with its
        status. */
    method CancelJobById(i: int) returns (r: Reply<Status>)
      requires Valid()
      modifies jobs
      ensures Valid() && jobs == old(jobs)
      ensures forall k :: 0 <= k < |jobs| ==> jobs[k].exited == old(jobs[k].exited)
      ensures r.NotFound? <==> (i >= |jobs| || i < -|jobs|)
      ensures r.NotFound? ==> Statuses() == old(Statuses())
      ensures r.Ok? ==> var k := i % |jobs|;
        && Statuses() == old(Statuses())[k := AfterCancel(old(Statuses())[k])]
        && r.value == Statuses()[k]
    {
      match PyIndex(i, |jobs|)
      case None => r := NotFound;
      case Some(k) =>
        var job := jobs[k];
        job.Cancel();
        r := Ok(job.GetStatus());
    }
  }

  /** Ids come from the list length, so after the first of two jobs is
      deleted the next job gets the id of the surviving one. */
  method IdReusedAfterDelete(urlRoot: string, body: Request) returns (survivor: string, newcomer: string)
    ensures survivor == newcomer == JobUrl(urlRoot, "1")
  {
    var reg := new Registry();
    var first := reg.PostJob(body, urlRoot, true);
    var second := reg.PostJob(body, urlRoot, true);
    var deleted := reg.DeleteJobById(0);
    var third := reg.PostJob(body, urlRoot, true);
    survivor := reg.Statuses()[0].id;
    newcomer := reg.Statuses()[1].id;
  }

  /** Cancelling a job by index and then letting its runner die of the quit
      signal (exit code -3) leaves a permanent failure in the registry. */
  method CancelByIdThenKilled(urlRoot: string, body: Request) returns (cancelled: Reply<Status>, final: State)
    ensures cancelled.Ok? && cancelled.value.state == Cancelled
    ensures final == PermanentFailure
  {
    var reg := new Registry();
    var location := reg.PostJob(body, urlRoot, true);
    cancelled := reg.CancelJobById(0);
    var job := reg.jobs[0];
    job.Run(-3, None);
    final := job.GetStatus().state;
  }
}
