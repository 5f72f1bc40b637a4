/** The status record of a job and how each event of its life changes it. */
module JobStatus {
  import opened Values
  import opened Strings

  /** The values the `state` entry of a status record takes. */
  datatype State = Running | Paused | Success | PermanentFailure | SystemError | Cancelled

  /** The status record: the dictionary the job keeps and `getstatus` copies. */
  datatype Status = Status(
    id: string,
    log: string,
    workflow: string,
    state: State,
    input: Data,
    output: Data,
    name: string)

  /** The URL of job `jobid` under the service root (`"%sjobs/%s"`). */
  function JobUrl(urlRoot: string, jobid: string): string {
    urlRoot + "jobs/" + jobid
  }

  /** Jobs at different indices under the same root have different URLs. */
  lemma JobUrlsDistinct(urlRoot: string, a: nat, b: nat)
    requires a != b
    ensures JobUrl(urlRoot, Decimal(a)) != JobUrl(urlRoot, Decimal(b))
  {
    var prefix := |urlRoot + "jobs/"|;
    if JobUrl(urlRoot, Decimal(a)) == JobUrl(urlRoot, Decimal(b)) {
      assert JobUrl(urlRoot, Decimal(a))[prefix..] == Decimal(a);
      assert JobUrl(urlRoot, Decimal(b))[prefix..] == Decimal(b);
      DecimalInjective(a, b);
    }
  }

  /** The record `begin` builds; `spawned` says whether starting the runner
      succeeded. */
  function Initial(urlRoot: string, jobid: string, path: string, input: Data, name: string, spawned: bool): (s: Status)
    ensures s.id == JobUrl(urlRoot, jobid) && s.log == s.id + "/log"
    ensures s.workflow == path && s.input == input && s.name == name
    ensures s.output == Null
    ensures s.state == (if spawned then Running else SystemError)
  {
    var s := Status(JobUrl(urlRoot, jobid), JobUrl(urlRoot, jobid) + "/log", path, Running, input, Null, name);
    if spawned then s else s.(state := SystemError)
  }

  /** `cancel`: a running job becomes cancelled; in any other state nothing
      happens. No other entry changes. */
  function AfterCancel(s: Status): (r: Status)
    ensures s.state == Running ==> r.state == Cancelled
    ensures s.state != Running ==> r == s
    ensures r.(state := s.state) == s
  {
    if s.state == Running then s.(state := Cancelled) else s
  }

  /** `pause`: a running job becomes paused; otherwise nothing happens. */
  function AfterPause(s: Status): (r: Status)
    ensures s.state == Running ==> r.state == Paused
    ensures s.state != Running ==> r == s
    ensures r.(state := s.state) == s
  {
    if s.state == Running then s.(state := Paused) else s
  }

  /** `resume`: a paused job runs again; otherwise nothing happens. */
  function AfterResume(s: Status): (r: Status)
    ensures s.state == Paused ==> r.state == Running
    ensures s.state != Paused ==> r == s
    ensures r.(state := s.state) == s
  {
    if s.state == Paused then s.(state := Running) else s
  }

  /** The exit handler `run`, once the runner has exited with `code`.
      `parsed` is what loading its standard output gave: `None` when the
      loader raised, which ends the handler's thread before it writes
      anything. The earlier state is never consulted. */
  function AfterExit(s: Status, code: int, parsed: Option<Data>): (r: Status)
    ensures code == 0 && parsed.Some? ==> r.state == Success && r.output == parsed.value
    ensures code != 0 ==> r.state == PermanentFailure && r.output == s.output
    ensures code == 0 && parsed.None? ==> r == s
    ensures r.(state := s.state, output := s.output) == s
  {
    if code == 0 then
      match parsed
      case Some(out) => s.(state := Success, output := out)
      case None => s
    else
      s.(state := PermanentFailure)
  }

  /** States no lifecycle call leaves. */
  predicate Settled(st: State) {
    st == Success || st == PermanentFailure || st == SystemError || st == Cancelled
  }

  /** Pausing a running job and resuming it gives back the same record. */
  lemma PauseThenResume(s: Status)
    requires s.state == Running
    ensures AfterResume(AfterPause(s)) == s
  {
  }

  /** Each lifecycle call is idempotent. */
  lemma LifecycleIdempotent(s: Status)
    ensures AfterCancel(AfterCancel(s)) == AfterCancel(s)
    ensures AfterPause(AfterPause(s)) == AfterPause(s)
    ensures AfterResume(AfterResume(s)) == AfterResume(s)
  {
  }

  /** The exit handler overwrites whatever state the job is in: two records
      that differ only in their state end up equal. */
  lemma ExitIgnoresPriorState(s: Status, t: Status, code: int, parsed: Option<Data>)
    requires t == s.(state := t.state)
    requires code != 0 || parsed.Some?
    ensures AfterExit(s, code, parsed) == AfterExit(t, code, parsed)
  {
  }

  /** The events that change a status: three lifecycle calls and the exit. */
  datatype Event = Cancel | Pause | Resume | Exit(code: int, parsed: Option<Data>)

  function Apply(s: Status, e: Event): Status {
    match e
    case Cancel => AfterCancel(s)
    case Pause => AfterPause(s)
    case Resume => AfterResume(s)
    case Exit(code, parsed) => AfterExit(s, code, parsed)
  }

  /** The status after the events `evs`, in order. */
  function Replay(s: Status, evs: seq<Event>): Status
    decreases |evs|
  {
    if evs == [] then s else Replay(Apply(s, evs[0]), evs[1..])
  }

  predicate NoExit(evs: seq<Event>) {
    forall k :: 0 <= k < |evs| ==> !evs[k].Exit?
  }

  /** Whatever happens, only `state` and `output` ever change. */
  lemma {:induction false} ReplayKeepsIdentity(s: Status, evs: seq<Event>)
    ensures Replay(s, evs).(state := s.state, output := s.output) == s
    decreases |evs|
  {
    if evs != [] {
      var a := Apply(s, evs[0]);
      assert a.(state := s.state, output := s.output) == s;
      ReplayKeepsIdentity(a, evs[1..]);
    }
  }

  /** Lifecycle calls alone never change `output`, and from a running or
      paused job they only reach running, paused or cancelled. */
  lemma {:induction false} LifecycleStaysLive(s: Status, evs: seq<Event>)
    requires NoExit(evs)
    requires s.state == Running || s.state == Paused
    ensures Replay(s, evs).output == s.output
    ensures Replay(s, evs).state in {Running, Paused, Cancelled}
    decreases |evs|
  {
    if evs != [] {
      var a := Apply(s, evs[0]);
      if a.state == Cancelled {
        LifecycleKeepsSettled(a, evs[1..]);
      } else {
        LifecycleStaysLive(a, evs[1..]);
      }
    }
  }

  /** Once a job is settled, lifecycle calls leave its record as it is. */
  lemma {:induction false} LifecycleKeepsSettled(s: Status, evs: seq<Event>)
    requires NoExit(evs)
    requires Settled(s.state)
    ensures Replay(s, evs) == s
    decreases |evs|
  {
    if evs != [] {
      assert Apply(s, evs[0]) == s;
      LifecycleKeepsSettled(s, evs[1..]);
    }
  }

  /** A settled record stays settled whatever happens next, exits included:
      no event brings it back to running or paused. */
  lemma {:induction false} SettledStaysSettled(s: Status, evs: seq<Event>)
    requires Settled(s.state)
    ensures Settled(Replay(s, evs).state)
    decreases |evs|
  {
    if evs != [] {
      var a := Apply(s, evs[0]);
      assert Settled(a.state);
      SettledStaysSettled(a, evs[1..]);
    }
  }
}
