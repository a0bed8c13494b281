# Cluster partition queue simulation and job tracker, modelled in Dafny

The repository studies the job queue of a compute cluster. It has two parts
that matter here:

- a discrete-event simulation of one partition (`src/notebooks/scratch.py`).
  An arrival process draws how many nodes each job requests, redrawing while
  the count exceeds the partition's capacity. It draws an interarrival time
  and waits for it, then starts the job.
  - Each job asks a capacity-limited container of nodes for its node count
    and waits in the container's FIFO queue. It records when the wait ended
    and draws a service time. After waiting that long it puts the nodes back.
  - The container is instrumented: a monitoring callback records usage,
    queue length and their total before every get and put.
  - After the run, each granted job's delay is computed as its grant time
    minus its arrival time.
- a tracker daemon (`bin/squeued.py`). On every pass it takes a snapshot of
  the scheduler's queue and merges it into a shelf of job records keyed by
  job id. It reports the ids it sees for the first time. Tracked jobs that
  have left the queue are marked complete.

Files:

- `instrument.dfy` (module `Instrument`): the wrapper that instruments a
  resource.
  - A resource's operations are modelled as values: a native operation, or
    a wrapper around another operation.
  - Running an operation yields the trace of the calls it makes and its
    return value.
  - The replacement of attributes works in place on an object whose
    attribute table is mutable.
- `container.dfy` (module `Resource`):
  - the node container: a class with its free level and its queue of
    waiting get requests;
  - the functions its methods are proved against;
  - the monitoring record.
- `pending.dfy` (module `Pending`): the environment's clock and its pending
  events. The events are kept in (due time, sequence id) order.
- `semantics.dfy` (module `Semantics`): the whole simulation as functions
  on a state value. It also defines the invariant, which states:
  - capacity conservation (free nodes plus nodes held by jobs equal the
    capacity);
  - FIFO granting;
  - the shape of the recorded lists;
  - the consistency of the pending events.
- `invariant.dfy` (module `Invariant`): every step keeps that invariant and
  lowers a termination measure.
- `simulation.dfy` (module `Simulation`):
  - the imperative engine: a class whose fields the arrival process and the
    jobs append to. Each of its methods is proved to perform exactly the
    step the matching function of `Semantics` describes;
  - the run loop up to the horizon;
  - the post-run reduction to delays.
- `tracker.dfy` (module `Tracker`): one pass of the tracker.
  - A shelf object's `db` map is updated in place, record by record.
  - The pass is proved equal to a pure `Poll` function.
  - The lemmas about `Poll` state what a pass promises.

The process semantics of the simulation library are not part of the
repository. The model assumes the following behaviour and states it in
`Resource` and `Semantics`:

- A get request for a non-positive amount is refused.
- A request joins the back of the queue. Then the queue is walked from its
  head: each head whose whole request the free level covers is granted and
  leaves the queue, and the walk stops at the first request that does not
  fit, even when a request further back would.
- The queue is walked in the same way whenever a put is processed.
- Each grant resumes its job by an event due now, in the order granted.
- A process resumed by a granted request runs at the same time, after the
  events already due then.
- A run to time `until` processes the events due strictly before `until`,
  and a non-positive `until` is refused.
- A negative timeout is refused.

## Model

| member | source | states |
|---|---|---|
| Instrument.PassThrough | src/notebooks/scratch.py:31-44 | however often an operation was wrapped, calling it calls the original operation exactly once, with the caller's positional and keyword arguments, and ends as the original ended: with its return value or with its exception |
| Instrument.Order | src/notebooks/scratch.py:31-44 | for an operation wrapped any number of times, the calls are the `pre` callbacks from the outermost wrapper in, then the one native call, then (only when it returned) the `post` callbacks from the innermost wrapper out; an exception skips every `post` |
| Instrument.PatchedAttributes | src/notebooks/scratch.py:48-50 | only put/get/request/release attributes the resource has are replaced, each by a wrapper around its previous value. The attribute names and every other attribute are unchanged |
| Instrument.PatchNames | src/notebooks/scratch.py:48-50 | instrumenting never adds or removes an attribute name |
| Instrument.PatchOneMore | src/notebooks/scratch.py:48-50 | visiting a new name wraps that attribute when it exists and leaves the table alone when it does not (the `hasattr` test) |
| Instrument.PatchResource | src/notebooks/scratch.py:16-51 | the loop over the four names leaves the resource's attribute table equal to the instrumented table, and the same object is returned |
| Instrument.MonitorOncePerCall | src/notebooks/scratch.py:181-184 | with only the monitor installed as `pre`, a get or put takes exactly one monitor snapshot, before the operation, and ends as the operation ends |
| Resource.Observe | src/notebooks/scratch.py:54-61 | the record's clock is the current time, usage is capacity minus level, queue is the queue length, and total is usage plus queue. While the level is within the capacity, usage is within the capacity |
| Resource.Container.Snapshot | src/notebooks/scratch.py:54-61 | the monitor's record of the container object has usage capacity minus level, the queue length, total usage plus queue, and usage within the capacity for a valid container |
| Resource.ServeAllFifo | src/notebooks/scratch.py:161-162 | a walk of the get queue grants a prefix of the queue, in queue order, and keeps the rest in order. The level drops by exactly the nodes granted, and never below zero. When requests remain, the oldest of them does not fit |
| Resource.Container.constructor | src/notebooks/scratch.py:182 | the container starts full (`init` equal to `capacity`) with an empty queue |
| Resource.Container.TriggerGet | src/notebooks/scratch.py:161-162 | the in-place loop that grants heads while they fit leaves the container and the grants it returns equal to `ServeAll` of the old state, and keeps the container valid |
| Resource.Container.Get | src/notebooks/scratch.py:161-162 | a get is refused iff the amount is not positive, and then changes nothing; otherwise the request is queued at the back and the new state and the grants are those of the walk of the queue (`Request`) |
| Resource.Container.Put | src/notebooks/scratch.py:174-175 | a put that fits raises the level by the amount and keeps the queue |
| Pending.InsertMembers | src/notebooks/scratch.py:153 | scheduling adds exactly the one event to the pending events (as a multiset) |
| Pending.InsertSorted | src/notebooks/scratch.py:153 | scheduling with a fresh sequence id keeps the pending events in (time, sequence id) order |
| Pending.HeadFirst | src/notebooks/scratch.py:186 | the event the loop takes is strictly before every other pending event |
| Pending.Env.constructor | src/notebooks/scratch.py:180 | a new environment is at time 0 with nothing pending |
| Pending.Env.Schedule | src/notebooks/scratch.py:153 | a timeout is scheduled `delay` after now, with the next sequence id |
| Pending.Env.Pop | src/notebooks/scratch.py:186 | the earliest event is taken and the clock advances to its time |
| Semantics.FirstFit | src/notebooks/scratch.py:143-145 | the accepted draw is the first one within the capacity: every earlier draw exceeds it, and with no accepted draw every draw exceeds it |
| Semantics.HeldCovers | src/notebooks/scratch.py:161-175 | a job holding nodes holds no more than all jobs hold together |
| Invariant.StartKeeps | src/notebooks/scratch.py:185 | the arrival process's first iteration establishes the invariant |
| Invariant.SourceKeeps | src/notebooks/scratch.py:141-153 | an arrival iteration keeps the invariant with one more draw recorded ahead of the arrivals. It uses up a node draw and leaves the jobs alone |
| Invariant.JobStartKeeps | src/notebooks/scratch.py:154-162 | a job's start keeps the invariant (its request joins the queue behind all earlier ones) and adds at most the job's own work |
| Invariant.ArriveKeeps | src/notebooks/scratch.py:153-162 | an arrival timeout keeps the invariant and lowers the measure |
| Semantics.TriggerBatch | src/notebooks/scratch.py:161-162 | walking the queue grant by grant, each grant scheduling its job's event, is the container's whole walk followed by the grant events of the requests granted, in the order granted |
| Invariant.GrantHeadKeeps | src/notebooks/scratch.py:161-162 | granting the head of the queue when it fits keeps the invariant and adds no work |
| Invariant.GrantedHead | src/notebooks/scratch.py:162-165 | the earliest pending grant belongs to the oldest job granted and not yet resumed, so the i-th grant time recorded belongs to job i |
| Invariant.GrantedKeeps | src/notebooks/scratch.py:162-171 | a grant event keeps the invariant and lowers the measure |
| Invariant.ReleaseFits | src/notebooks/scratch.py:174 | a job that holds nodes holds a positive count, and returning it keeps the level within the capacity |
| Invariant.ServiceDoneKeeps | src/notebooks/scratch.py:171-174 | a service timeout keeps the invariant and lowers the measure, and the put returns the job's nodes, which fit |
| Invariant.PutDoneKeeps | src/notebooks/scratch.py:174-175 | a processed put keeps the invariant and lowers the measure |
| Invariant.PopKeeps | src/notebooks/scratch.py:186 | taking an event other than a grant keeps the invariant, and the event leaves the pending set |
| Invariant.TriggerKeeps | src/notebooks/scratch.py:161-162 | a whole walk of the get queue, however many requests it grants, keeps the invariant (conservation, FIFO order), adds no work, and leaves the samples and the recorded lists alone |
| Invariant.StepKeeps | src/notebooks/scratch.py:185-186 | every step of the run keeps the invariant and lowers the measure, so the run terminates |
| Simulation.Truncate | src/notebooks/scratch.py:189 | `start_list[:n]` is the first `n` arrival times, or all of them when there are fewer |
| Simulation.Subtract | src/notebooks/scratch.py:190 | the array difference succeeds iff the lengths agree or one operand has one element, and then it is elementwise with that broadcasting |
| Simulation.DelaysPairing | src/notebooks/scratch.py:189-190 | when no job was waited for without arriving, the delays list has one entry per grant and `delays[i] == ends[i] - starts[i]` |
| Simulation.Sampler.Sample | src/notebooks/scratch.py:143 | a draw returns the next supplied value and consumes it; an exhausted sampler returns nothing and is unchanged |
| Simulation.Engine.constructor | src/notebooks/scratch.py:179-185 | the engine starts in the initial state: clock 0, empty lists, and a full container with an empty queue |
| Simulation.Engine.DrawNodes | src/notebooks/scratch.py:143-145 | the redraw loop returns the first draw within the capacity and consumes exactly the draws up to it; with no such draw it fails |
| Simulation.Engine.SourceIteration | src/notebooks/scratch.py:141-153 | one arrival iteration performs exactly `SourceStep`: node count and interarrival time appended, their draws consumed, and the timeout scheduled, or the error |
| Simulation.Engine.MonitoredGet | src/notebooks/scratch.py:161 | the instrumented get appends the monitor's record of the container as it was before the get, then performs `Request`; a refused get leaves the container unchanged |
| Simulation.Engine.MonitoredPut | src/notebooks/scratch.py:174 | the instrumented put appends the monitor's record of the container as it was before the put, then performs `Release` |
| Simulation.Engine.Admit | src/notebooks/scratch.py:154-156 | a started job's arrival time is appended and it takes the next job id |
| Simulation.Engine.Grant | src/notebooks/scratch.py:161-162 | a granted request resumes its job with a grant event due now (`GrantOne`) |
| Simulation.Engine.ScheduleGrants | src/notebooks/scratch.py:161-162 | the loop over one walk's grants schedules their grant events in the order granted (`GrantAll`) |
| Simulation.Engine.Join | src/notebooks/scratch.py:154-161 | the arriving job's get is accepted iff its count is positive; then the job is recorded as queued after the earlier ones and the container's state and the grants returned are those of the walk of the queue |
| Simulation.Engine.JobStart | src/notebooks/scratch.py:154-162 | a job's start performs exactly `JobStart`: a non-positive request is an error; otherwise the job is queued and the queue is walked, each grant scheduling its job's event |
| Simulation.Engine.OnArrive | src/notebooks/scratch.py:153-162 | the arrival timeout performs exactly `OnArrive`: the next arrival iteration, then the start of the job that arrived |
| Simulation.Engine.OnGranted | src/notebooks/scratch.py:162-171 | a grant event performs exactly `OnGranted`: the grant time and a service time are appended and the service timeout is scheduled |
| Simulation.Engine.OnServiceDone | src/notebooks/scratch.py:171-174 | a service timeout performs exactly `OnServiceDone`: the monitor records, the nodes go back, and the put event is scheduled |
| Simulation.Engine.OnPutDone | src/notebooks/scratch.py:174-175 | a processed put performs exactly `OnPutDone`: the job ends and the queue is walked, each grant scheduling its job's event |
| Simulation.Engine.Step | src/notebooks/scratch.py:186 | the engine's step performs exactly `Step` on the earliest pending event |
| Simulation.Simulate | src/notebooks/scratch.py:178-191 | a non-positive capacity or horizon is an error. A run's lists have one interarrival per node count, all counts within the capacity, and one delay per service time, fewer than the node counts, all non-negative. Every monitor record lies within the capacity, has total = usage + queue, is stamped before the horizon, and the records are in time order |
| Tracker.Snapshot | bin/squeued.py:30-31 | every snapshot record keeps its row's id and columns, is stamped with the poll time and is not complete |
| Tracker.Upsert | bin/squeued.py:59-60 | writing records never removes a tracked id |
| Tracker.MarkComplete | bin/squeued.py:69-72 | flagging records complete keeps the set of ids |
| Tracker.UpsertKeys | bin/squeued.py:57-61 | after the merge the tracked ids are the old ones plus the snapshot's ids, and an id outside the snapshot keeps its record |
| Tracker.UpsertLastWins | bin/squeued.py:59-60 | for an id that occurs several times in the snapshot, its last record is the one stored |
| Tracker.UpsertFromSnapshot | bin/squeued.py:59-61 | every snapshot id maps to a snapshot record carrying that id |
| Tracker.UpsertFixed | bin/squeued.py:59-60 | writing a snapshot into a shelf that already holds its last records changes nothing |
| Tracker.PollKeys | bin/squeued.py:57-63 | the ids after a pass are the ids before plus the snapshot's ids; `new_jids` are exactly the snapshot ids not tracked before |
| Tracker.PollDone | bin/squeued.py:68-72 | `done_jids` are exactly the tracked ids missing from the snapshot whose record was not complete. Those become complete with all other fields unchanged, and complete records missing from the snapshot are unchanged |
| Tracker.PollRunning | bin/squeued.py:59-60 | a snapshot id maps to its last snapshot record, so a completed job that reappears is overwritten |
| Tracker.PollIncomplete | bin/squeued.py:30-31 | after a pass over a fresh snapshot, every job in the queue is tracked and not complete |
| Tracker.PollIdempotent | bin/squeued.py:57-72 | a second pass over the same snapshot reports no new and no done ids and leaves the shelf unchanged |
| Tracker.Shelf.constructor | bin/squeued.py:55 | the opened shelf holds the stored records |
| Tracker.Shelf.Merge | bin/squeued.py:59-60 | the record-by-record loop leaves the shelf equal to `Upsert` of the old shelf and the snapshot |
| Tracker.Shelf.MarkDone | bin/squeued.py:69-72 | the loop over the done ids leaves the shelf equal to `MarkComplete` of the old shelf |
| Tracker.Shelf.PollStep | bin/squeued.py:57-72 | one pass of the daemon's loop produces exactly the shelf and the new and done id sets of `Poll` |

## Left out

- The fitted samplers (kernel density estimates over CSV and shelf data) are
  replaced by caller-supplied sequences of the values they would draw.
  - A sampler that runs out ends the run with `SamplesExhausted`. That
    error also bounds the redraw loop.
  - The integer truncation of the node sampler is taken as already applied:
    the node draws are integers.
- The partition's capacity comes from `get_capacity`, which is a count.
  Reading it from the CSV is left out, `round` of an integer is the
  identity, and the model takes the capacity as an integer parameter.
- Real numbers stand for the floating-point clock and durations: rounding of
  floats is not modelled.
- The return value's `DataFrame(data).set_index("clock")` and the
  `.copy()` of the lists are not modelled. The monitoring records are
  returned as a sequence.
- The notebook's calls of `simulate` for each partition, its plots and its
  statistics are left out: they are reporting.
- Of the simulation library, only the contract the notebook relies on is
  modelled. Four things are not:
  - the put queue, because a put here always fits;
  - trigger events in general;
  - the end events of processes;
  - interrupts.
- A job's process is started with an urgent initialization event, due at
  the arrival time. The model runs the job's start right after the arrival
  iteration that spawned it. Nothing else can run in between. The arrival
  time and the job's id are recorded there, on state that the arrival
  iteration does not touch.
- `Simulation.Simulate`: the run loop's result is stated through the
  invariant (conservation, FIFO, list shapes, record bounds), not as a
  closed-form trace of the whole run.
- `Instrument.Run`: argument and return values are integers, an exception
  is named by a string, and the callbacks are taken to return normally.
  An exception raised by `pre` or `post` itself is not modelled.
- `Instrument.PatchResource`: the attribute table stands for the object's
  attributes. `functools.wraps` copying the name is modelled by `OpName`,
  but the other copied metadata is not. Only callbacks named by a string
  are modelled.
- The instrumentation's effect on simulation state is not expressed through
  `Instrument`. The engine's `MonitoredGet` and `MonitoredPut` perform the
  monitored get and put directly; `Instrument.MonitorOncePerCall` states the
  call order they follow.
- The tracker's `squeue` command:
  - the subprocess call, decoding, CSV parsing and the dropped
    `Unnamed: 18` column are left out; a snapshot is a sequence of rows
    given as input;
  - the timestamp is an opaque string parameter;
  - the scheduler's columns are opaque strings;
  - the job id is a string that the row already carries, so `str()` is the
    identity.
- The daemon's argument parsing, logging, shelf opening and flushing, and
  the endless `while True` loop are left out. One pass of the loop is
  modelled.
