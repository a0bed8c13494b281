/** The job simulation's behaviour as a function on a state value: the
    arrival process, each job's lifecycle against the node pool, and the
    event loop's step that takes the earliest pending event. The random
    samplers are replaced by caller-supplied sequences of the values they
    would draw. The invariant the steps keep states capacity conservation,
    FIFO granting and the shape of the recorded lists. */
module Semantics {
  import opened Pending
  import opened Resource

  datatype SimError =
    | InvalidCapacity   // the container refuses a non-positive capacity
    | InvalidHorizon    // the run's `until` is not after the start time 0
    | SamplesExhausted  // a supplied sample sequence ran out
    | NegativeDelay     // a timeout was asked for with a negative delay
    | InvalidAmount     // a get request for a non-positive number of nodes
    | ShapeMismatch     // the delay subtraction's operands cannot be broadcast

  datatype Result<T> = Ok(value: T) | Err(error: SimError)

  // ---------------------------------------------------------------------
  // Job phases and the sums over them

  /** Where a job is in its lifecycle. */
  datatype Phase =
    | Queued     // its get request waits in the container's queue
    | Acquired   // the request was granted; the job has not resumed yet
    | InService  // the job resumed and its service timeout is pending
    | Releasing  // it put its nodes back; the put event is pending
    | Departed   // the put event was processed; the job has ended

  /** The job holds nodes taken from the container. */
  predicate Holds(p: Phase) {
    p == Acquired || p == InService
  }

  /** The events a job in phase `p` has still to go through. */
  function Weight(p: Phase): nat {
    match p
    case Queued => 4
    case Acquired => 3
    case InService => 2
    case Releasing => 1
    case Departed => 0
  }

  /** The kind of event a job in phase `p` waits for. */
  predicate Matches(p: Phase, k: Kind) {
    match k
    case Arrive(_) => false
    case Granted(_, _) => p == Acquired
    case ServiceDone(_, _) => p == InService
    case PutDone(_) => p == Releasing
  }

  /** Nodes held by the jobs: job j holds nodes[j] while Holds(phase[j]). */
  ghost function Held(phase: seq<Phase>, nodes: seq<int>): int
    requires |phase| <= |nodes|
  {
    if phase == [] then 0
    else Held(phase[..|phase| - 1], nodes)
         + (if Holds(phase[|phase| - 1]) then nodes[|phase| - 1] else 0)
  }

  ghost function Work(phase: seq<Phase>): nat {
    if phase == [] then 0 else Work(phase[..|phase| - 1]) + Weight(phase[|phase| - 1])
  }

  lemma {:induction false} HeldUpdate(phase: seq<Phase>, nodes: seq<int>, j: nat, p: Phase)
    requires j < |phase| <= |nodes|
    ensures Held(phase[j := p], nodes)
         == Held(phase, nodes) - (if Holds(phase[j]) then nodes[j] else 0)
                               + (if Holds(p) then nodes[j] else 0)
  {
    var n := |phase|;
    var q := phase[j := p];
    if j == n - 1 {
      assert q[..n - 1] == phase[..n - 1];
    } else {
      assert q[..n - 1] == phase[..n - 1][j := p];
      HeldUpdate(phase[..n - 1], nodes, j, p);
    }
  }

  lemma HeldAppend(phase: seq<Phase>, nodes: seq<int>, p: Phase)
    requires |phase| < |nodes|
    ensures Held(phase + [p], nodes) == Held(phase, nodes) + (if Holds(p) then nodes[|phase|] else 0)
  {
    assert (phase + [p])[..|phase|] == phase;
  }

  /** Held only looks at the node counts of existing jobs. */
  lemma {:induction false} HeldPrefix(phase: seq<Phase>, nodes: seq<int>, more: seq<int>)
    requires |phase| <= |nodes|
    ensures Held(phase, nodes + more) == Held(phase, nodes)
  {
    if phase != [] {
      HeldPrefix(phase[..|phase| - 1], nodes, more);
    }
  }

  /** A job that holds nodes accounts for at most what all jobs hold together. */
  lemma {:induction false} HeldCovers(phase: seq<Phase>, nodes: seq<int>, j: nat)
    requires j < |phase| <= |nodes|
    requires forall i :: 0 <= i < |phase| ==> 0 < nodes[i]
    requires Holds(phase[j])
    ensures nodes[j] <= Held(phase, nodes)
  {
    var n := |phase|;
    HeldNonnegative(phase[..n - 1], nodes);
    if j < n - 1 {
      HeldCovers(phase[..n - 1], nodes, j);
    }
  }

  lemma {:induction false} HeldNonnegative(phase: seq<Phase>, nodes: seq<int>)
    requires |phase| <= |nodes|
    requires forall i :: 0 <= i < |phase| ==> 0 < nodes[i]
    ensures 0 <= Held(phase, nodes)
  {
    if phase != [] {
      HeldNonnegative(phase[..|phase| - 1], nodes);
    }
  }

  lemma {:induction false} WorkUpdate(phase: seq<Phase>, j: nat, p: Phase)
    requires j < |phase|
    ensures Work(phase[j := p]) == Work(phase) - Weight(phase[j]) + Weight(p)
  {
    var n := |phase|;
    var q := phase[j := p];
    if j == n - 1 {
      assert q[..n - 1] == phase[..n - 1];
    } else {
      assert q[..n - 1] == phase[..n - 1][j := p];
      WorkUpdate(phase[..n - 1], j, p);
    }
  }

  lemma WorkAppend(phase: seq<Phase>, p: Phase)
    ensures Work(phase + [p]) == Work(phase) + Weight(p)
  {
    assert (phase + [p])[..|phase|] == phase;
  }

  // ---------------------------------------------------------------------
  // The state of a run

  datatype Sim = Sim(
    // the event loop
    now: real,
    pending: seq<Event>,
    nextEid: nat,
    // the sampler draws not yet consumed
    nodeSamples: seq<int>,
    interSamples: seq<real>,
    serviceSamples: seq<real>,
    // the arrival process's job counter
    count: nat,
    // the lists the run records
    interarrivals: seq<real>,
    numNodes: seq<int>,
    starts: seq<real>,
    ends: seq<real>,
    services: seq<real>,
    data: seq<Record>,
    // the node pool
    pool: Pool,
    // bookkeeping for the proofs: one phase per spawned job (id = index),
    // the number of jobs granted, each job's latest scheduled event and the
    // arrival process's latest timeout
    phase: seq<Phase>,
    granted: nat,
    current: map<nat, Event>,
    arrival: Event)

  function Update(s: seq<Phase>, i: nat, p: Phase): seq<Phase> {
    if i < |s| then s[i := p] else s
  }

  /** A run before anything happened: the pool is full. */
  function Init(capacity: int, nodeSamples: seq<int>, interSamples: seq<real>,
                serviceSamples: seq<real>): Sim
  {
    Sim(0.0, [], 0, nodeSamples, interSamples, serviceSamples, 0,
        [], [], [], [], [], [], Pool(capacity, []), [], 0, map[], Event(0.0, 0, Arrive(0)))
  }

  /** The event scheduled `delay` after now with the next sequence id. */
  function NewEvent(s: Sim, delay: real, kind: Kind): Event {
    Event(s.now + delay, s.nextEid, kind)
  }

  function Schedule(s: Sim, delay: real, kind: Kind): Sim {
    s.(pending := Insert(s.pending, NewEvent(s, delay, kind)), nextEid := s.nextEid + 1)
  }

  /** Job `job` waits for an event `delay` after now. */
  function Continue(s: Sim, delay: real, job: nat, kind: Kind): Sim {
    Schedule(s, delay, kind).(current := s.current[job := NewEvent(s, delay, kind)])
  }

  /** Takes the earliest pending event and advances the clock to it. */
  function Pop(s: Sim): Sim
    requires s.pending != []
  {
    s.(now := s.pending[0].time, pending := s.pending[1..])
  }

  /** The index of the first draw that does not exceed the capacity: the
      arrival process redraws while the node count is above it. */
  function FirstFit(samples: seq<int>, capacity: int): (r: Option<nat>)
    ensures r.Some? ==> r.value < |samples| && samples[r.value] <= capacity
    ensures forall i :: 0 <= i < |samples| && (r.None? || i < r.value) ==> samples[i] > capacity
  {
    if samples == [] then None
    else if samples[0] <= capacity then Some(0)
    else match FirstFit(samples[1..], capacity)
      case None => None
      case Some(k) => Some(k + 1)
  }

  /** One iteration of the arrival loop up to its timeout: a node count
      within the capacity, an interarrival time, both recorded, and the
      timeout scheduled. */
  function SourceStep(s: Sim, capacity: int): Result<Sim> {
    match FirstFit(s.nodeSamples, capacity)
    case None => Err(SamplesExhausted)
    case Some(k) =>
      if s.interSamples == [] then Err(SamplesExhausted)
      else if s.interSamples[0] < 0.0 then Err(NegativeDelay)
      else
        var n := s.nodeSamples[k];
        var inter := s.interSamples[0];
        Ok(Schedule(s.(nodeSamples := s.nodeSamples[k + 1..],
                       numNodes := s.numNodes + [n],
                       interSamples := s.interSamples[1..],
                       interarrivals := s.interarrivals + [inter],
                       arrival := NewEvent(s, inter, Arrive(n))),
                    inter, Arrive(n)))
  }

  /** The bookkeeping of one grant: the job is resumed by a grant event
      due now. */
  function GrantOne(s: Sim, w: Waiter): Sim {
    Continue(s.(phase := Update(s.phase, w.0, Acquired), granted := s.granted + 1),
             0.0, w.0, Granted(w.0, w.1))
  }

  /** The grant events of `gs`, scheduled in order. */
  function GrantAll(s: Sim, gs: seq<Waiter>): Sim
    decreases |gs|
  {
    if gs == [] then s else GrantAll(GrantOne(s, gs[0]), gs[1..])
  }

  /** One iteration of the walk of the get queue: the head is granted if it
      fits. */
  function GrantHead(s: Sim): Sim {
    var (g, p) := ServeHead(s.pool);
    if g.None? then s else GrantOne(s.(pool := p), g.value)
  }

  /** The get queue is walked from its head while the head fits; each grant
      schedules its job's grant event now, in queue order. */
  function Trigger(s: Sim): Sim
    decreases |s.pool.waiters|
  {
    if ServeHead(s.pool).0.None? then s else Trigger(GrantHead(s))
  }

  /** The walk of the queue is the container's walk followed by the grant
      events of the requests it granted, in the order granted. */
  lemma {:induction false} TriggerBatch(s: Sim)
    ensures Trigger(s) == GrantAll(s.(pool := ServeAll(s.pool).1), ServeAll(s.pool).0)
    decreases |s.pool.waiters|
  {
    var (g, p) := ServeHead(s.pool);
    if g.Some? {
      var t := GrantHead(s);
      TriggerBatch(t);
      var all := ServeAll(p);
      assert ServeAll(s.pool).0 == [g.value] + all.0 && ServeAll(s.pool).1 == all.1;
      GrantOnePool(s.(pool := p), all.1, g.value);
      assert ([g.value] + all.0)[1..] == all.0;
    } else {
      assert s.(pool := s.pool) == s;
    }
  }

  /** A grant's bookkeeping does not touch the pool. */
  lemma GrantOnePool(s: Sim, p: Pool, w: Waiter)
    ensures GrantOne(s, w).(pool := p) == GrantOne(s.(pool := p), w)
  {
  }

  /** A job with `nodes` nodes starts at its arrival: the monitor records
      the container, then the job's get request joins the back of the
      queue. */
  function Enqueue(s: Sim, capacity: int, nodes: int): Sim {
    s.(data := s.data + [Observe(capacity, s.pool, s.now)],
       count := s.count + 1,
       starts := s.starts + [s.now],
       phase := s.phase + [Queued],
       pool := Pool(s.pool.level, s.pool.waiters + [(s.count, nodes)]))
  }

  /** The whole start of a job: a request for a non-positive number of
      nodes is refused; otherwise it is queued and the head of the queue is
      examined once. */
  function JobStart(s: Sim, capacity: int, nodes: int): Result<Sim> {
    if nodes <= 0 then Err(InvalidAmount)
    else Ok(Trigger(Enqueue(s, capacity, nodes)))
  }

  /** The arrival timeout fires: the arrival process runs its next
      iteration, then the job it spawned starts. */
  function OnArrive(s: Sim, capacity: int, nodes: int): Result<Sim>
    requires s.pending != []
  {
    match SourceStep(Pop(s), capacity)
    case Err(x) => Err(x)
    case Ok(t) => JobStart(t, capacity, nodes)
  }

  /** A job's grant event fires: it records the end of its wait, draws its
      service time and waits for it. */
  function OnGranted(s: Sim, job: nat, nodes: int): Result<Sim>
    requires s.pending != []
  {
    var t := Pop(s);
    if s.serviceSamples == [] then Err(SamplesExhausted)
    else if s.serviceSamples[0] < 0.0 then Err(NegativeDelay)
    else
      var ser := s.serviceSamples[0];
      Ok(Continue(t.(ends := s.ends + [t.now],
                     serviceSamples := s.serviceSamples[1..],
                     services := s.services + [ser],
                     phase := Update(s.phase, job, InService)),
                  ser, job, ServiceDone(job, nodes)))
  }

  /** A job's service timeout fires: the monitor records the container and
      the job puts its nodes back. */
  function OnServiceDone(s: Sim, capacity: int, job: nat, nodes: int): Sim
    requires s.pending != []
  {
    var t := Pop(s);
    Continue(t.(data := s.data + [Observe(capacity, s.pool, t.now)],
                pool := Release(s.pool, nodes),
                phase := Update(s.phase, job, Releasing)),
             0.0, job, PutDone(job))
  }

  /** A job's put event is processed: the job ends and the head of the get
      queue is examined once. */
  function OnPutDone(s: Sim, job: nat): Sim
    requires s.pending != []
  {
    Trigger(Pop(s).(phase := Update(s.phase, job, Departed)))
  }

  /** Processes the earliest pending event. */
  function Step(s: Sim, capacity: int): Result<Sim>
    requires s.pending != []
  {
    match s.pending[0].kind
    case Arrive(n) => OnArrive(s, capacity, n)
    case Granted(j, n) => OnGranted(s, j, n)
    case ServiceDone(j, n) => Ok(OnServiceDone(s, capacity, j, n))
    case PutDone(j) => Ok(OnPutDone(s, j))
  }

  // ---------------------------------------------------------------------
  // The invariant

  /** The clock and the pending events: sorted, not due before now, and
      with sequence ids below the next one to hand out. */
  ghost predicate ClockOk(s: Sim, until: real) {
    && 0.0 <= s.now < until
    && Sorted(s.pending) && EidsBelow(s.pending, s.nextEid)
    && (forall e :: e in s.pending ==> s.now <= e.time)
  }

  /** The recorded lists. `extra` is the number of node draws recorded for
      arrivals that have not happened yet. */
  ghost predicate ListsOk(s: Sim, capacity: int, extra: nat) {
    && |s.numNodes| == |s.interarrivals| == s.count + extra
    && |s.starts| == s.count
    && (forall i :: 0 <= i < |s.numNodes| ==> s.numNodes[i] <= capacity)
    && (forall i :: 0 <= i < s.count ==> 0 < s.numNodes[i])
    && (forall i :: 0 <= i < |s.starts| ==> s.starts[i] <= s.now)
    && |s.ends| == |s.services| <= s.count
    && (forall i :: 0 <= i < |s.services| ==> 0.0 <= s.services[i])
    && (forall i :: 0 <= i < |s.ends| ==> s.starts[i] <= s.ends[i])
  }

  /** FIFO: the jobs granted are exactly the first `granted` ones; those
      granted and not resumed are the ones after the recorded grants. */
  ghost predicate JobsOk(s: Sim) {
    && |s.phase| == s.count
    && |s.ends| <= s.granted <= s.count
    && (forall j :: 0 <= j < |s.phase| ==> (s.phase[j] == Queued <==> s.granted <= j))
    && (forall j :: 0 <= j < |s.phase| ==> (s.phase[j] == Acquired <==> |s.ends| <= j < s.granted))
  }

  /** The container's queue holds the jobs not yet granted, in id order, and
      conservation: free nodes plus nodes held by jobs make up the capacity. */
  ghost predicate PoolOk(s: Sim, capacity: int) {
    && s.granted + |s.pool.waiters| == s.count <= |s.numNodes|
    && (forall i :: 0 <= i < |s.pool.waiters| ==>
          s.pool.waiters[i] == (s.granted + i, s.numNodes[s.granted + i]))
    && 0 <= s.pool.level
    && |s.phase| <= |s.numNodes|
    && s.pool.level + Held(s.phase, s.numNodes) == capacity
  }

  /** The arrival process has at most its latest timeout pending, and it
      carries the last node count drawn. */
  ghost predicate ArrivalOk(s: Sim) {
    && s.arrival.kind.Arrive?
    && (forall e :: e in s.pending && e.kind.Arrive? ==> e == s.arrival)
    && (s.arrival in s.pending ==>
          |s.numNodes| > 0 && s.arrival.kind.nodes == s.numNodes[|s.numNodes| - 1])
  }

  /** Each pending job event is its job's latest, fits its phase and
      carries its node count. */
  ghost predicate JobEventsOk(s: Sim) {
    forall e :: e in s.pending && !e.kind.Arrive? ==>
      && e.kind.job < |s.phase| && e.kind.job in s.current && s.current[e.kind.job] == e
      && Matches(s.phase[e.kind.job], e.kind)
      && (!e.kind.PutDone? ==> e.kind.job < |s.numNodes| && e.kind.nodes == s.numNodes[e.kind.job])
  }

  /** The jobs granted and not yet resumed have their grant events pending,
      due now and in the order of the job ids. */
  ghost predicate GrantsOk(s: Sim) {
    && s.granted <= |s.numNodes|
    && (forall e :: e in s.pending && e.kind.Granted? ==> e.time <= s.now)
    && (forall j :: |s.ends| <= j < s.granted ==>
          j in s.current && s.current[j] in s.pending && s.current[j].kind == Granted(j, s.numNodes[j]))
    && (forall i, j :: |s.ends| <= i < j < s.granted && i in s.current && j in s.current ==>
          Before(s.current[i], s.current[j]))
  }

  ghost predicate EventsOk(s: Sim) {
    ArrivalOk(s) && JobEventsOk(s) && GrantsOk(s)
  }

  /** The monitoring samples. */
  ghost predicate DataOk(s: Sim, capacity: int) {
    && (forall r :: r in s.data ==>
          0 <= r.usage <= capacity && r.total == r.usage + r.queue && 0.0 <= r.clock <= s.now)
    && (forall i, j :: 0 <= i < j < |s.data| ==> s.data[i].clock <= s.data[j].clock)
  }

  ghost predicate Inv(s: Sim, capacity: int, until: real, extra: nat) {
    && 0 < capacity
    && ClockOk(s, until) && ListsOk(s, capacity, extra) && JobsOk(s)
    && PoolOk(s, capacity) && EventsOk(s) && DataOk(s, capacity)
  }

  ghost function Measure(s: Sim): nat {
    5 * |s.nodeSamples| + Work(s.phase)
  }
}
