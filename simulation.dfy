/** The job simulation as the program runs it: an engine object whose
    fields the arrival process and the jobs update in place, a node pool
    object, the event loop up to a time horizon, and the post-run reduction
    to delays. Each engine operation is proved to perform exactly the step
    the functions of module Semantics describe, so the invariant proved
    there holds of every state the loop reaches. */
module Simulation {
  import opened Pending
  import opened Resource
  import opened Semantics
  import opened Invariant

  /** What a run returns: the monitoring samples and the four sample lists. */
  datatype Output = Output(
    data: seq<Record>,
    interarrivals: seq<real>,
    delays: seq<real>,
    services: seq<real>,
    numNodes: seq<int>)

  // ---------------------------------------------------------------------
  // Post-run reduction

  /** `start_list[:n]`: the first `n` arrival times, or all of them. */
  function Truncate(starts: seq<real>, n: nat): (r: seq<real>)
    ensures |r| == if n <= |starts| then n else |starts|
    ensures r == starts[..|r|]
  {
    if n <= |starts| then starts[..n] else starts
  }

  /** Elementwise `a - b` of two one-dimensional arrays, with the
      broadcasting rule for a length-1 operand; other length mismatches are
      an error. */
  function Subtract(a: seq<real>, b: seq<real>): (r: Result<seq<real>>)
    ensures r.Ok? <==> |a| == |b| || |a| == 1 || |b| == 1
    ensures r.Ok? && |a| == |b| ==>
      |r.value| == |a| && forall i :: 0 <= i < |a| ==> r.value[i] == a[i] - b[i]
    ensures r.Ok? && |a| != |b| && |a| == 1 ==>
      |r.value| == |b| && forall i :: 0 <= i < |b| ==> r.value[i] == a[0] - b[i]
    ensures r.Ok? && |a| != |b| && |a| != 1 ==>
      |r.value| == |a| && forall i :: 0 <= i < |a| ==> r.value[i] == a[i] - b[0]
  {
    if |a| == |b| then Ok(seq(|a|, i requires 0 <= i < |a| => a[i] - b[i]))
    else if |a| == 1 then Ok(seq(|b|, i requires 0 <= i < |b| => a[0] - b[i]))
    else if |b| == 1 then Ok(seq(|a|, i requires 0 <= i < |a| => a[i] - b[0]))
    else Err(ShapeMismatch)
  }

  /** Delays of the jobs that were granted: grant time minus arrival time. */
  function Delays(starts: seq<real>, ends: seq<real>): Result<seq<real>> {
    Subtract(ends, Truncate(starts, |ends|))
  }

  /** When every recorded grant belongs to an arrival, the i-th grant is
      paired with the i-th arrival. */
  lemma DelaysPairing(starts: seq<real>, ends: seq<real>)
    requires |ends| <= |starts|
    ensures Delays(starts, ends).Ok?
    ensures |Delays(starts, ends).value| == |ends|
    ensures forall i :: 0 <= i < |ends| ==> Delays(starts, ends).value[i] == ends[i] - starts[i]
  {
    assert |Truncate(starts, |ends|)| == |ends|;
  }

  /** A step's outcome as the specification states it: the error the run
      stops with, or the state it reaches. */
  ghost function Outcome(err: Option<SimError>, t: Sim): Result<Sim> {
    if err.Some? then Err(err.value) else Ok(t)
  }

  // ---------------------------------------------------------------------
  // The samplers

  /** A sampler of a fitted distribution, given by the draws it returns in
      order. Running out of draws is a failure of the run. */
  class Sampler<T> {
    var draws: seq<T>

    constructor (draws: seq<T>)
      ensures this.draws == draws
    {
      this.draws := draws;
    }

    method Sample() returns (r: Option<T>)
      modifies this
      ensures old(draws) == [] ==> r.None? && draws == []
      ensures old(draws) != [] ==> r == Some(old(draws)[0]) && draws == old(draws)[1..]
    {
      if draws == [] {
        return None;
      }
      r := Some(draws[0]);
      draws := draws[1..];
    }
  }

  // ---------------------------------------------------------------------
  // The engine

  /** The engine's proof bookkeeping: each job's phase, the number of grants
      made, each job's latest event and the arrival process's latest timeout. */
  datatype Book = Book(phase: seq<Phase>, granted: nat, current: map<nat, Event>, arrival: Event)

  class Engine {
    const capacity: int
    const env: Env
    const res: Container
    const nodeSampler: Sampler<int>
    const interSampler: Sampler<real>
    const serviceSampler: Sampler<real>

    // the arrival process's job counter
    var count: nat

    // the lists the run records
    var interarrivals: seq<real>
    var numNodes: seq<int>
    var starts: seq<real>
    var ends: seq<real>
    var services: seq<real>
    var data: seq<Record>

    // bookkeeping for the proofs
    ghost var book: Book

    ghost predicate Valid()
      reads res
    {
      res.Valid() && res.capacity == capacity && interSampler != serviceSampler
    }

    /** The engine's state as a value. */
    ghost function Abs(): Sim
      reads this, env, res, nodeSampler, interSampler, serviceSampler
    {
      Sim(env.now, env.pending, env.nextEid, nodeSampler.draws, interSampler.draws,
          serviceSampler.draws, count, interarrivals, numNodes, starts, ends, services, data,
          res.State(), book.phase, book.granted, book.current, book.arrival)
    }

    /** A fresh run: the container is full and nothing has happened. */
    constructor (capacity: int, nodeSamples: seq<int>, interSamples: seq<real>,
                 serviceSamples: seq<real>)
      requires 0 < capacity
      ensures Valid() && this.capacity == capacity
      ensures fresh(env) && fresh(res) && fresh(nodeSampler) && fresh(interSampler)
      ensures fresh(serviceSampler)
      ensures Abs() == Init(capacity, nodeSamples, interSamples, serviceSamples)
    {
      this.capacity := capacity;
      env := new Env();
      res := new Container(capacity);
      nodeSampler := new Sampler(nodeSamples);
      interSampler := new Sampler(interSamples);
      serviceSampler := new Sampler(serviceSamples);
      count := 0;
      interarrivals := [];
      numNodes := [];
      starts := [];
      ends := [];
      services := [];
      data := [];
      book := Book([], 0, map[], Event(0.0, 0, Arrive(0)));
    }

    /** Draws a node count and draws again while it exceeds the capacity;
        the result is the first draw that fits. */
    method DrawNodes() returns (r: Option<int>)
      modifies nodeSampler
      ensures FirstFit(old(nodeSampler.draws), capacity).None? ==> r.None?
      ensures FirstFit(old(nodeSampler.draws), capacity).Some? ==>
        var k := FirstFit(old(nodeSampler.draws), capacity).value;
        r == Some(old(nodeSampler.draws)[k]) && nodeSampler.draws == old(nodeSampler.draws)[k + 1..]
    {
      ghost var samples := nodeSampler.draws;
      r := nodeSampler.Sample();
      ghost var used: nat := 1;
      while r.Some? && r.value > capacity
        invariant r.None? ==> forall i :: 0 <= i < |samples| ==> samples[i] > capacity
        invariant r.Some? ==> 1 <= used <= |samples| && r.value == samples[used - 1]
        invariant r.Some? ==> nodeSampler.draws == samples[used..]
        invariant r.Some? ==> forall i :: 0 <= i < used - 1 ==> samples[i] > capacity
        decreases |nodeSampler.draws| + if r.Some? then 1 else 0
      {
        r := nodeSampler.Sample();
        used := used + 1;
      }
      if r.Some? {
        assert FirstFit(samples, capacity) == Some(used - 1);
      }
    }

    /** One iteration of the arrival loop up to its timeout. */
    method SourceIteration() returns (err: Option<SimError>)
      requires Valid()
      modifies this`numNodes, this`interarrivals, this`book, env, nodeSampler, interSampler
      ensures Valid()
      ensures Outcome(err, Abs()) == SourceStep(old(Abs()), capacity)
    {
      var n := DrawNodes();
      if n.None? {
        return Some(SamplesExhausted);
      }
      numNodes := numNodes + [n.value];
      var inter := interSampler.Sample();
      if inter.None? {
        return Some(SamplesExhausted);
      }
      interarrivals := interarrivals + [inter.value];
      if inter.value < 0.0 {
        return Some(NegativeDelay);
      }
      var e := env.Schedule(inter.value, Arrive(n.value));
      book := book.(arrival := e);
      err := None;
    }

    /** Bookkeeping for a grant the container has just made: the job's grant
        event is scheduled now. */
    method Grant(w: Waiter)
      requires Valid()
      modifies this`book, env
      ensures Valid()
      ensures Abs() == GrantOne(old(Abs()), w)
    {
      var e := env.Schedule(0.0, Granted(w.0, w.1));
      book := book.(phase := Update(book.phase, w.0, Acquired), granted := book.granted + 1,
                    current := book.current[w.0 := e]);
    }

    /** Bookkeeping for the grants of one walk of the get queue, in the
        order they were made. */
    method ScheduleGrants(gs: seq<Waiter>)
      requires Valid()
      modifies this`book, env
      ensures Valid()
      ensures Abs() == GrantAll(old(Abs()), gs)
    {
      var i := 0;
      while i < |gs|
        invariant 0 <= i <= |gs| && Valid()
        invariant GrantAll(Abs(), gs[i..]) == GrantAll(old(Abs()), gs)
      {
        assert gs[i..][1..] == gs[i + 1..];
        Grant(gs[i]);
        i := i + 1;
      }
    }

    /** The patched container's get: the monitor records the container,
        then the get request is made. */
    method MonitoredGet(job: nat, amount: int) returns (valid: bool, granted: seq<Waiter>)
      requires Valid()
      modifies this`data, res`level, res`waiters
      ensures Valid()
      ensures data == old(data) + [Observe(capacity, old(res.State()), env.now)]
      ensures valid == Request(old(res.State()), job, amount).Some?
      ensures !valid ==> res.State() == old(res.State())
      ensures valid ==> (granted, res.State()) == Request(old(res.State()), job, amount).value
    {
      var snap := res.Snapshot(env.now);
      data := data + [snap];
      valid, granted := res.Get(job, amount);
    }

    /** The patched container's put: the monitor records the container, then
        the nodes are returned. */
    method MonitoredPut(amount: int)
      requires Valid() && 0 < amount && res.level + amount <= capacity
      modifies this`data, res`level
      ensures Valid()
      ensures data == old(data) + [Observe(capacity, old(res.State()), env.now)]
      ensures res.State() == Release(old(res.State()), amount)
    {
      var snap := res.Snapshot(env.now);
      data := data + [snap];
      res.Put(amount);
    }

    /** The arrival is recorded: its time, and the next job id is taken by
        the job, which waits in the queue. */
    method Admit()
      requires Valid()
      modifies this`starts, this`book, this`count
      ensures Valid()
      ensures Abs() == old(Abs()).(starts := old(starts) + [env.now], count := old(count) + 1,
                                   phase := old(book.phase) + [Queued])
    {
      starts := starts + [env.now];
      count := count + 1;
      book := book.(phase := book.phase + [Queued]);
    }

    /** The arriving job issues its get request through the monitor; when
        the request is accepted, the job is recorded as queued behind the
        earlier ones and the container's walk of its queue is returned. */
    method Join(nodes: int) returns (valid: bool, gs: seq<Waiter>)
      requires Valid()
      modifies this`data, this`count, this`starts, this`book, res`level, res`waiters
      ensures Valid()
      ensures valid == (0 < nodes)
      ensures valid ==>
        var u := Enqueue(old(Abs()), capacity, nodes);
        Abs() == u.(pool := ServeAll(u.pool).1) && gs == ServeAll(u.pool).0
    {
      valid, gs := MonitoredGet(count, nodes);
      if valid {
        Admit();
      }
    }

    /** A job with `nodes` nodes starts: the monitor records the container,
        then the job issues its get request. */
    method JobStart(nodes: int) returns (err: Option<SimError>)
      requires Valid()
      modifies this`data, this`count, this`starts, this`book, env, res`level, res`waiters
      ensures Valid()
      ensures Outcome(err, Abs()) == Semantics.JobStart(old(Abs()), capacity, nodes)
    {
      ghost var s := Abs();
      var valid, gs := Join(nodes);
      if !valid {
        return Some(InvalidAmount);
      }
      TriggerBatch(Enqueue(s, capacity, nodes));
      ScheduleGrants(gs);
      err := None;
    }

    /** The arrival timeout fires: the arrival process runs its next
        iteration, then the job it spawned starts. */
    method OnArrive() returns (err: Option<SimError>)
      requires Valid() && env.pending != [] && env.pending[0].kind.Arrive?
      modifies this, env, res`level, res`waiters, nodeSampler, interSampler
      ensures Valid()
      ensures Outcome(err, Abs()) == Semantics.OnArrive(old(Abs()), capacity, old(env.pending[0].kind.nodes))
    {
      var e := env.Pop();
      err := SourceIteration();
      if err.Some? {
        return;
      }
      err := JobStart(e.kind.nodes);
    }

    /** A job's grant event fires: it records the end of its wait, draws its
        service time and waits for it. */
    method OnGranted() returns (err: Option<SimError>)
      requires Valid() && env.pending != [] && env.pending[0].kind.Granted?
      modifies this`ends, this`services, this`book, env, serviceSampler
      ensures Valid()
      ensures Outcome(err, Abs()) == Semantics.OnGranted(old(Abs()), old(env.pending[0].kind.job), old(env.pending[0].kind.nodes))
    {
      var e := env.Pop();
      var j := e.kind.job;
      ends := ends + [env.now];
      var ser := serviceSampler.Sample();
      if ser.None? {
        return Some(SamplesExhausted);
      }
      services := services + [ser.value];
      if ser.value < 0.0 {
        return Some(NegativeDelay);
      }
      var sd := env.Schedule(ser.value, ServiceDone(j, e.kind.nodes));
      book := book.(phase := Update(book.phase, j, InService), current := book.current[j := sd]);
      err := None;
    }

    /** A job's service timeout fires: the monitor records the container and
        the job puts back its nodes. */
    method OnServiceDone()
      requires Valid() && env.pending != [] && env.pending[0].kind.ServiceDone?
      requires 0 < env.pending[0].kind.nodes && res.level + env.pending[0].kind.nodes <= capacity
      modifies this`data, this`book, env, res`level
      ensures Valid()
      ensures Abs() == Semantics.OnServiceDone(old(Abs()), capacity,
                                               old(env.pending[0].kind.job), old(env.pending[0].kind.nodes))
    {
      var e := env.Pop();
      var j := e.kind.job;
      MonitoredPut(e.kind.nodes);
      var pd := env.Schedule(0.0, PutDone(j));
      book := book.(phase := Update(book.phase, j, Releasing), current := book.current[j := pd]);
    }

    /** A job's put event is processed: the job ends and the get queue is
        walked from its head. */
    method OnPutDone()
      requires Valid() && env.pending != [] && env.pending[0].kind.PutDone?
      modifies this`book, env, res`level, res`waiters
      ensures Valid()
      ensures Abs() == Semantics.OnPutDone(old(Abs()), old(env.pending[0].kind.job))
    {
      var e := env.Pop();
      book := book.(phase := Update(book.phase, e.kind.job, Departed));
      ghost var u := Abs();
      TriggerBatch(u);
      var gs := res.TriggerGet();
      ScheduleGrants(gs);
    }

    /** Processes the earliest pending event, which is due before the horizon. */
    method Step(ghost until: real) returns (err: Option<SimError>)
      requires Valid() && env.pending != [] && env.pending[0].time < until
      requires Inv(Abs(), capacity, until, 1)
      modifies this, env, res`level, res`waiters, nodeSampler, interSampler, serviceSampler
      ensures Valid()
      ensures Outcome(err, Abs()) == Semantics.Step(old(Abs()), capacity)
    {
      match env.pending[0].kind {
        case Arrive(_) =>
          err := OnArrive();
        case Granted(_, _) =>
          err := OnGranted();
        case ServiceDone(_, _) =>
          ServiceDoneKeeps(Abs(), capacity, until);
          OnServiceDone();
          err := None;
        case PutDone(_) =>
          OnPutDone();
          err := None;
      }
    }
  }

  // ---------------------------------------------------------------------
  // A whole run

  /** Runs the simulation of a pool of `capacity` nodes until time `until`
      and reduces the recorded lists. */
  method Simulate(capacity: int, until: real, nodeSamples: seq<int>,
                  interSamples: seq<real>, serviceSamples: seq<real>)
    returns (r: Result<Output>)
    ensures capacity <= 0 ==> r == Err(InvalidCapacity)
    ensures 0 < capacity && until <= 0.0 ==> r == Err(InvalidHorizon)
    ensures r.Ok? ==>
      var out := r.value;
      // one node count and one interarrival time per arrival iteration
      && |out.interarrivals| == |out.numNodes|
      && (forall i :: 0 <= i < |out.numNodes| ==> out.numNodes[i] <= capacity)
      && (forall i :: 0 <= i < |out.numNodes| - 1 ==> 0 < out.numNodes[i])
      // one delay and one service time per granted job, each job arrived
      && |out.delays| == |out.services| < |out.numNodes|
      && (forall i :: 0 <= i < |out.delays| ==> 0.0 <= out.delays[i])
      && (forall i :: 0 <= i < |out.services| ==> 0.0 <= out.services[i])
      // the monitoring samples
      && (forall rec :: rec in out.data ==>
            && 0 <= rec.usage <= capacity
            && rec.total == rec.usage + rec.queue
            && 0.0 <= rec.clock < until)
      && (forall i, j :: 0 <= i < j < |out.data| ==> out.data[i].clock <= out.data[j].clock)
  {
    if capacity <= 0 {
      return Err(InvalidCapacity);
    }
    if until <= 0.0 {
      return Err(InvalidHorizon);
    }
    var engine := new Engine(capacity, nodeSamples, interSamples, serviceSamples);
    var err := engine.SourceIteration();
    if err.Some? {
      return Err(err.value);
    }
    StartKeeps(capacity, until, nodeSamples, interSamples, serviceSamples);
    while engine.env.pending != [] && engine.env.pending[0].time < until
      invariant fresh(engine) && fresh(engine.env) && fresh(engine.res)
      invariant fresh(engine.nodeSampler) && fresh(engine.interSampler) && fresh(engine.serviceSampler)
      invariant engine.Valid() && engine.capacity == capacity
      invariant Inv(engine.Abs(), capacity, until, 1)
      decreases Measure(engine.Abs())
    {
      ghost var s := engine.Abs();
      err := engine.Step(until);
      if err.Some? {
        return Err(err.value);
      }
      StepKeeps(s, capacity, until);
    }
    DelaysPairing(engine.starts, engine.ends);
    var delays := Delays(engine.starts, engine.ends).value;
    r := Ok(Output(engine.data, engine.interarrivals, delays, engine.services, engine.numNodes));
  }
}
