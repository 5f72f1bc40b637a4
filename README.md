# cwltool-service job lifecycle, modelled in Dafny

This project models the job manager of the Common Workflow Language runner
service (`cwl_flask.py`). A client posts a workflow and its input. The service
starts `cwl-runner` for it, keeps a status record per job, and answers lookups,
log streams, job listings, cancellations and deletions by list index.

Modules, leaves first:

- `Values`: `Option`, and `Data`, the structured data of input and output objects.
- `Strings`: `Decimal` (Python's `str(n)`) with its inverse `DecimalValue`,
  `Concat` (the text a streaming response sends) and `Join` (`str.join`).
- `JobStatus`: the `State` values and the `Status` record (id, log, workflow,
  state, input, output, name). Also the record built at job start and one step
  function per event: cancel, pause, resume, and the runner's exit. `Replay`
  applies a sequence of events, with lemmas about the states that can be reached.
- `Jobs`: class `Job`. Its `status` field is updated in place by `Run` (the
  exit handler), `Cancel`, `Pause` and `Resume`. Each method is specified by
  the step function of `JobStatus`.
- `Logs`: the log tail `LogSpooler`, reading the log in 4096-byte blocks. The file is read in text mode under Python 2, so the log's contents are a string with one character per byte.
- `Service`: class `Registry` holds the global `jobs` list as a `seq<Job>`.
  It has the handlers `postJob`, `getJobById`, `getJobLogById`, `getJobs`
  (with its generator `spool`), `deleteJobById` and `cancelJobById`. Python's
  list indexing is `PyIndex`.

Each handler is one atomic step. The environment is passed in as parameters:

- `urlRoot`: the request's URL root.
- `spawnOk`: whether starting the runner succeeded.
- the runner's exit code, and its standard output after parsing (`None` if the
  YAML loader raised).
- the log file's contents, as a fixed string.
- the job state found at each empty read of the log that follows a sleep. The first empty read sees the job's current state.
- `dumps`: the JSON serialiser.

The model follows the code where it differs from the service's design intent:

- A job id is the list length at creation (`cwl_flask.py:93`), and deletion is
  `del jobs[i]` (`cwl_flask.py:157`). So deleting a job renumbers the later
  ones, and a new job can get the id of a surviving job (`IdReusedAfterDelete`).
- The cancel-before-delete check (`cwl_flask.py:155`) compares the whole status
  record with strings. It is never true, so a deleted job is never cancelled
  (`DeleteCancelsFirst`, `DeleteJobById`).
- The exit handler does not look at the current state. A cancelled or paused
  job is overwritten with `Success` or `PermanentFailure` (`AfterExit`,
  `ExitIgnoresPriorState`, `CancelThenKilled`).
- Index lookups accept negative indices from `-len` to `-1`, as Python does.
  Only `IndexError` becomes "Not Found" (`PyIndex`).
- The log tail stops on an empty read once the state is anything other than
  `Running`, `Paused` included.

## Model

| member | source | states |
|---|---|---|
| `Strings.Decimal` | cwl_flask.py:93-94 | the rendering of an id is a non-empty string of decimal digits, with no leading zero, one digit exactly below ten |
| `Strings.DecimalRoundTrip` | cwl_flask.py:104 | parsing a rendered index back gives the index |
| `Strings.DecimalInjective` | cwl_flask.py:94 | two indices with the same rendering are equal |
| `Strings.JoinAppend` | cwl_flask.py:138-143 | joining one more item appends the separator and the item; a single item is joined alone |
| `JobStatus.JobUrlsDistinct` | cwl_flask.py:34 | under one URL root, jobs at different indices have different URLs |
| `JobStatus.Initial` | cwl_flask.py:29-49 | the record at start: id is the job URL, log is id + "/log", workflow, input and name are the arguments, output is null, state is Running exactly when the runner started and SystemError otherwise |
| `JobStatus.AfterCancel` | cwl_flask.py:68-72 | a Running record becomes Cancelled; every other record is unchanged; no entry but the state changes |
| `JobStatus.AfterPause` | cwl_flask.py:74-78 | a Running record becomes Paused; every other record is unchanged; no entry but the state changes |
| `JobStatus.AfterResume` | cwl_flask.py:80-84 | a Paused record becomes Running; every other record is unchanged; no entry but the state changes |
| `JobStatus.AfterExit` | cwl_flask.py:53-62 | exit code 0 with parsed output gives Success and that output; a nonzero code gives PermanentFailure and keeps the output; a parse failure changes nothing; only state and output can change |
| `JobStatus.PauseThenResume` | cwl_flask.py:74-84 | pausing and then resuming a Running record restores it exactly |
| `JobStatus.LifecycleIdempotent` | cwl_flask.py:68-84 | cancel, pause and resume each give the same record when applied twice |
| `JobStatus.ExitIgnoresPriorState` | cwl_flask.py:55-62 | when the handler writes a state, two records that differ only in state end up equal, so a cancelled or paused job is overwritten |
| `JobStatus.ReplayKeepsIdentity` | cwl_flask.py:53-84 | after any sequence of events, id, log, workflow, input and name are as they were |
| `JobStatus.LifecycleStaysLive` | cwl_flask.py:68-84 | without an exit, a Running or Paused record stays Running, Paused or Cancelled, and its output does not change |
| `JobStatus.LifecycleKeepsSettled` | cwl_flask.py:68-84 | without an exit, a Success, PermanentFailure, SystemError or Cancelled record is never changed by lifecycle calls |
| `JobStatus.SettledStaysSettled` | cwl_flask.py:53-84 | from Success, PermanentFailure, SystemError or Cancelled, no sequence of events, exits included, reaches Running or Paused again |
| `Jobs.Job.constructor` | cwl_flask.py:20-49 | the job keeps its arguments, its status is the start record, and the job invariant holds |
| `Jobs.Job.Run` | cwl_flask.py:53-62 | the new status is the exit step applied to the old one; a job whose runner never started is left as it was; the invariant is kept |
| `Jobs.Job.GetStatus` | cwl_flask.py:64-66 | the copy equals the current record, whose log URL follows its id, which carries the job's own workflow, input and name, and which is SystemError exactly when the runner did not start |
| `Jobs.Job.Cancel` | cwl_flask.py:68-72 | the new status is the cancel step of the old one |
| `Jobs.Job.Pause` | cwl_flask.py:74-78 | the new status is the pause step of the old one |
| `Jobs.Job.Resume` | cwl_flask.py:80-84 | the new status is the resume step of the old one |
| `Jobs.StatusesOf` | cwl_flask.py:134-140 | one status record per job, in list order |
| `Jobs.CancelThenKilled` | cwl_flask.py:53-72 | a job cancelled and then killed by the quit signal (exit code -3) ends as PermanentFailure |
| `Logs.Read` | cwl_flask.py:113 | a read returns the next min(4096, remaining) bytes from the current position, and is empty exactly at the end |
| `Logs.ChunksTile` | cwl_flask.py:110-120 | the blocks a log is read in are non-empty, at most 4096 bytes, all full but the last, and concatenate to the contents |
| `Logs.LogSpooler` | cwl_flask.py:110-120 | the yielded blocks are the log's blocks and concatenate to it; the tail ends exactly at the first empty read that finds a state other than Running, after sleeping once per earlier empty read |
| `Service.PyIndex` | cwl_flask.py:103-106 | Not Found exactly when i >= len or i < -len; otherwise the position is i modulo len |
| `Service.DeleteCancelsFirst` | cwl_flask.py:155 | comparing the status record with 'Running' and 'Waiting' is never true |
| `Service.Spool` | cwl_flask.py:135-144 | the pieces are "[", each job's JSON with ", " before all but the first, then "]"; in all they are "[" + the JSONs joined by ", " + "]" |
| `Service.Registry.constructor` | cwl_flask.py:15-16 | the registry starts empty |
| `Service.Registry.PostJob` | cwl_flask.py:88-97 | exactly one fresh job is appended, with id the old length, earlier entries unchanged, input defaulting to {} and name to ''; the reply redirects to /jobs/<id> |
| `Service.Registry.GetJobById` | cwl_flask.py:101-107 | Not Found exactly for indices outside -len..len-1, otherwise the status of the job at Python index i; the registry is unchanged |
| `Service.Registry.GetJobLogById` | cwl_flask.py:123-129 | Not Found exactly out of range; otherwise the log's blocks, and the stream has ended exactly when the selected job's current state, or a state found after a sleep, is not Running; a job that is not Running ends at the first empty read, without sleeping |
| `Service.Registry.GetJobs` | cwl_flask.py:132-145 | the response text is the JSON array of all statuses, "[]" for an empty registry |
| `Service.Registry.DeleteJobById` | cwl_flask.py:148-157 | in range: exactly that entry is removed and the later ones move down by one, and the removed job is not cancelled; out of range: Not Found and nothing changes |
| `Service.Registry.CancelJobById` | cwl_flask.py:160-167 | in range: only the selected job takes the cancel step, and its new status is returned; out of range: Not Found and no status changes; in both cases no job's exit handler is marked as run |
| `Service.CancelByIdThenKilled` | cwl_flask.py:160-167 | a job cancelled through the registry is Cancelled, and its exit handler later turns it into PermanentFailure |
| `Service.IdReusedAfterDelete` | cwl_flask.py:92-96 | post two jobs, delete the first and post again: the survivor and the newcomer both get the id <root>jobs/1 |

## Left out

- Process handling (`subprocess.Popen`, `communicate`, `send_signal` with SIGQUIT, SIGTSTP and SIGCONT), the temporary log file and working directory (`mkstemp`, `mkdtemp`), and `time.sleep`. These are operating-system I/O. Starting the runner is a boolean. Its exit is a code and a parsed value. Signals are not modelled.
- Failures when sending a signal to a process that has already gone: also OS I/O. The model's lifecycle calls always succeed.
- Threads and locks (`threading.Thread`, `updatelock`, `jobs_lock`), including the unlocked reads in `cancel`, `pause`, `resume` and `deleteJobById`. Each method is one atomic step. The only trace of the job's thread is the ghost flag `exited`: the thread starts once, so the exit handler runs at most once.
- `yaml.load` and `json.dumps` are foreign library calls. The parsed output is a parameter of `Run`, and `dumps` is a function parameter of `Spool` and `GetJobs`.
- Flask and connexion wiring (`redirect`, `Response`, `request.url_root`, the app and its routes). The URL root is a parameter. The redirect is its location string.
- `int(jobId)`: handlers take an integer index. The uncaught `ValueError` on a non-numeric id is not modelled.
- A request body without `workflow`: the `KeyError` is not modelled, because `Request.workflow` is always present.
- Floating-point numbers in structured data.
- Logs.LogSpooler: does not model a log file that grows while it is tailed. The contents are a fixed snapshot, taken before the tail starts.
- Logs.LogSpooler: when every observed state is Running, the model stops after the last observation and reports the stream as not ended. The real generator would go on polling.
- setup.py: packaging metadata, no logic.
