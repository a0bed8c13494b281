/** Every step of the simulation keeps the invariant: conservation of the
    pool's nodes, FIFO granting in arrival order, each job's event fitting
    its phase, and the shape of the recorded lists; and every step lowers
    a measure, so a run is a finite sequence of steps. */
module Invariant {
  import opened Pending
  import opened Resource
  import opened Semantics

  /** Removing the head keeps the queue sorted and leaves everything else. */
  lemma PopQueue(q: seq<Event>)
    requires Sorted(q) && q != []
    ensures Sorted(q[1..])
    ensures forall x :: x in q[1..] ==> Before(q[0], x) && x != q[0]
    ensures forall x :: x in q ==> x == q[0] || x in q[1..]
    ensures forall x :: x in q[1..] ==> x in q
  {
    HeadFirst(q);
    assert q == [q[0]] + q[1..];
  }

  /** Scheduling an event with the next sequence id, not due before now. */
  lemma ScheduleQueue(s: Sim, until: real, delay: real, kind: Kind)
    requires ClockOk(s, until) && 0.0 <= delay
    ensures Sorted(Schedule(s, delay, kind).pending)
    ensures EidsBelow(Schedule(s, delay, kind).pending, s.nextEid + 1)
    ensures forall x :: x in Schedule(s, delay, kind).pending <==>
      x in s.pending || x == NewEvent(s, delay, kind)
  {
    var e := NewEvent(s, delay, kind);
    InsertSorted(s.pending, e);
    InsertMembers(s.pending, e);
  }

  /** The recorded lists only speak of the clock through a lower bound. */
  lemma ListsFrame(s: Sim, t: Sim, capacity: int, extra: nat)
    requires ListsOk(s, capacity, extra)
    requires t.numNodes == s.numNodes && t.interarrivals == s.interarrivals && t.count == s.count
    requires t.starts == s.starts && t.ends == s.ends && t.services == s.services
    requires s.now <= t.now
    ensures ListsOk(t, capacity, extra)
  {
  }

  /** Adding a job event and removing events keeps the arrival process's
      invariant. */
  lemma ArrivalFrame(s: Sim, t: Sim, e: Event)
    requires ArrivalOk(s) && !e.kind.Arrive?
    requires forall x :: x in t.pending ==> x in s.pending || x == e
    requires t.arrival == s.arrival && t.numNodes == s.numNodes
    ensures ArrivalOk(t)
  {
  }

  lemma DataFrame(s: Sim, t: Sim, capacity: int)
    requires DataOk(s, capacity)
    requires t.data == s.data && s.now <= t.now
    ensures DataOk(t, capacity)
  {
  }

  /** Taking the earliest event, due before the horizon, keeps the clock's
      invariant. */
  lemma PopClock(s: Sim, until: real)
    requires ClockOk(s, until) && s.pending != [] && s.pending[0].time < until
    ensures ClockOk(Pop(s), until)
    ensures forall x :: x in Pop(s).pending <==> x in s.pending && x != s.pending[0]
  {
    PopQueue(s.pending);
  }

  /** Taking an event that is not a grant keeps the events' invariant. */
  lemma PopEvents(s: Sim, until: real)
    requires ClockOk(s, until) && EventsOk(s)
    requires s.pending != [] && !s.pending[0].kind.Granted?
    ensures EventsOk(Pop(s))
  {
    PopQueue(s.pending);
    var t := Pop(s);
    assert ArrivalOk(t);
    assert JobEventsOk(t);
    forall j | |t.ends| <= j < t.granted
      ensures s.current[j] in t.pending
    {
      assert s.current[j] in s.pending;
    }
  }

  /** Taking an event that is not a grant keeps the invariant. */
  lemma PopKeeps(s: Sim, capacity: int, until: real, extra: nat)
    requires Inv(s, capacity, until, extra)
    requires s.pending != [] && s.pending[0].time < until
    requires !s.pending[0].kind.Granted?
    ensures Inv(Pop(s), capacity, until, extra)
    ensures s.pending[0] !in Pop(s).pending
  {
    PopQueue(s.pending);
    var t := Pop(s);
    PopClock(s, until);
    ListsFrame(s, t, capacity, extra);
    DataFrame(s, t, capacity);
    PopEvents(s, until);
  }

  /** What a grant by the head of the get queue is: the oldest waiting
      job, which was queued and gets exactly its node count. */
  lemma GrantFacts(s: Sim, capacity: int)
    requires JobsOk(s) && PoolOk(s, capacity)
    requires ServeHead(s.pool).0.Some?
    ensures s.granted < s.count && s.granted < |s.numNodes|
    ensures ServeHead(s.pool).0.value == (s.granted, s.numNodes[s.granted])
    ensures s.phase[s.granted] == Queued
    ensures GrantHead(s) == Continue(
      s.(pool := Pool(s.pool.level - s.numNodes[s.granted], s.pool.waiters[1..]),
         phase := s.phase[s.granted := Acquired], granted := s.granted + 1),
      0.0, s.granted, Granted(s.granted, s.numNodes[s.granted]))
  {
    assert s.pool.waiters[0] == (s.granted, s.numNodes[s.granted]);
  }

  lemma GrantHeadClock(s: Sim, until: real)
    requires ClockOk(s, until)
    ensures ClockOk(GrantHead(s), until)
  {
    var (g, p) := ServeHead(s.pool);
    if g.Some? {
      var u := s.(pool := p, phase := Update(s.phase, g.value.0, Acquired), granted := s.granted + 1);
      ScheduleQueue(u, until, 0.0, Granted(g.value.0, g.value.1));
    }
  }

  lemma GrantHeadJobs(s: Sim, capacity: int)
    requires JobsOk(s) && PoolOk(s, capacity)
    ensures JobsOk(GrantHead(s))
  {
    if ServeHead(s.pool).0.Some? {
      GrantFacts(s, capacity);
    }
  }

  lemma GrantHeadPool(s: Sim, capacity: int)
    requires JobsOk(s) && PoolOk(s, capacity)
    ensures PoolOk(GrantHead(s), capacity)
    ensures Work(GrantHead(s).phase) <= Work(s.phase)
  {
    if ServeHead(s.pool).0.Some? {
      GrantFacts(s, capacity);
      var j := s.granted;
      var t := GrantHead(s);
      HeldUpdate(s.phase, s.numNodes, j, Acquired);
      WorkUpdate(s.phase, j, Acquired);
      forall i | 0 <= i < |t.pool.waiters|
        ensures t.pool.waiters[i] == (t.granted + i, t.numNodes[t.granted + i])
      {
        assert t.pool.waiters[i] == s.pool.waiters[i + 1];
      }
    }
  }

  lemma GrantHeadArrival(s: Sim, capacity: int, until: real)
    requires ClockOk(s, until) && JobsOk(s) && PoolOk(s, capacity) && ArrivalOk(s)
    ensures ArrivalOk(GrantHead(s))
  {
    if ServeHead(s.pool).0.Some? {
      GrantFacts(s, capacity);
      var j := s.granted;
      var n := s.numNodes[j];
      var u := s.(pool := Pool(s.pool.level - n, s.pool.waiters[1..]),
                  phase := s.phase[j := Acquired], granted := j + 1);
      ScheduleQueue(u, until, 0.0, Granted(j, n));
    }
  }

  lemma GrantHeadJobEvents(s: Sim, capacity: int, until: real)
    requires ClockOk(s, until) && JobsOk(s) && PoolOk(s, capacity) && JobEventsOk(s)
    ensures JobEventsOk(GrantHead(s))
  {
    if ServeHead(s.pool).0.Some? {
      GrantFacts(s, capacity);
      var j := s.granted;
      var n := s.numNodes[j];
      var u := s.(pool := Pool(s.pool.level - n, s.pool.waiters[1..]),
                  phase := s.phase[j := Acquired], granted := j + 1);
      var e := NewEvent(u, 0.0, Granted(j, n));
      var t := Continue(u, 0.0, j, Granted(j, n));
      ScheduleQueue(u, until, 0.0, Granted(j, n));
      forall x | x in t.pending && !x.kind.Arrive?
        ensures x.kind.job < |t.phase| && x.kind.job in t.current && t.current[x.kind.job] == x
        ensures Matches(t.phase[x.kind.job], x.kind)
        ensures !x.kind.PutDone? ==> x.kind.job < |t.numNodes| && x.kind.nodes == t.numNodes[x.kind.job]
      {
        if x != e {
          assert x in s.pending;
        }
      }
    }
  }

  lemma GrantHeadGrantsPending(s: Sim, capacity: int, until: real)
    requires ClockOk(s, until) && JobsOk(s) && PoolOk(s, capacity) && GrantsOk(s)
    requires ServeHead(s.pool).0.Some?
    ensures var t := GrantHead(s);
      forall i :: |t.ends| <= i < t.granted ==>
        i in t.current && t.current[i] in t.pending && t.current[i].kind == Granted(i, t.numNodes[i])
  {
    GrantFacts(s, capacity);
    var j := s.granted;
    var n := s.numNodes[j];
    var u := s.(pool := Pool(s.pool.level - n, s.pool.waiters[1..]),
                phase := s.phase[j := Acquired], granted := j + 1);
    var t := Continue(u, 0.0, j, Granted(j, n));
    ScheduleQueue(u, until, 0.0, Granted(j, n));
    forall i | |t.ends| <= i < t.granted
      ensures i in t.current && t.current[i] in t.pending
    {
      if i < j {
        assert s.current[i] in s.pending;
      }
    }
  }

  lemma GrantHeadGrantsOrder(s: Sim, capacity: int, until: real)
    requires ClockOk(s, until) && JobsOk(s) && PoolOk(s, capacity) && GrantsOk(s)
    requires ServeHead(s.pool).0.Some?
    ensures var t := GrantHead(s);
      forall i, k :: |t.ends| <= i < k < t.granted && i in t.current && k in t.current ==>
        Before(t.current[i], t.current[k])
  {
    GrantFacts(s, capacity);
    var j := s.granted;
    var n := s.numNodes[j];
    var u := s.(pool := Pool(s.pool.level - n, s.pool.waiters[1..]),
                phase := s.phase[j := Acquired], granted := j + 1);
    var t := Continue(u, 0.0, j, Granted(j, n));
    forall i, k | |t.ends| <= i < k < t.granted && i in t.current && k in t.current
      ensures Before(t.current[i], t.current[k])
    {
      if k == j {
        assert s.current[i] in s.pending;
      }
    }
  }

  lemma GrantHeadGrants(s: Sim, capacity: int, until: real)
    requires ClockOk(s, until) && JobsOk(s) && PoolOk(s, capacity) && GrantsOk(s)
    ensures GrantsOk(GrantHead(s))
  {
    if ServeHead(s.pool).0.Some? {
      GrantFacts(s, capacity);
      var j := s.granted;
      var n := s.numNodes[j];
      var u := s.(pool := Pool(s.pool.level - n, s.pool.waiters[1..]),
                  phase := s.phase[j := Acquired], granted := j + 1);
      ScheduleQueue(u, until, 0.0, Granted(j, n));
      GrantHeadGrantsPending(s, capacity, until);
      GrantHeadGrantsOrder(s, capacity, until);
    }
  }

  /** Granting the head of the get queue, if it fits, keeps the invariant
      and does not add work. */
  lemma GrantHeadKeeps(s: Sim, capacity: int, until: real, extra: nat)
    requires Inv(s, capacity, until, extra)
    ensures Inv(GrantHead(s), capacity, until, extra)
    ensures Work(GrantHead(s).phase) <= Work(s.phase)
  {
    GrantHeadClock(s, until);
    GrantHeadJobs(s, capacity);
    GrantHeadPool(s, capacity);
    GrantHeadArrival(s, capacity, until);
    GrantHeadJobEvents(s, capacity, until);
    GrantHeadGrants(s, capacity, until);
    ListsFrame(s, GrantHead(s), capacity, extra);
    DataFrame(s, GrantHead(s), capacity);
  }

  /** Walking the get queue keeps the invariant and does not add work, and
      it leaves the sample sequences and the recorded lists alone. */
  lemma {:induction false} TriggerKeeps(s: Sim, capacity: int, until: real, extra: nat)
    requires Inv(s, capacity, until, extra)
    ensures var t := Trigger(s);
      && Inv(t, capacity, until, extra)
      && Work(t.phase) <= Work(s.phase)
      && t.nodeSamples == s.nodeSamples && t.interSamples == s.interSamples
      && t.serviceSamples == s.serviceSamples && t.count == s.count
      && t.numNodes == s.numNodes && t.interarrivals == s.interarrivals
      && t.starts == s.starts && t.ends == s.ends && t.services == s.services
      && t.data == s.data && t.now == s.now && t.arrival == s.arrival
    decreases |s.pool.waiters|
  {
    if ServeHead(s.pool).0.Some? {
      GrantHeadKeeps(s, capacity, until, extra);
      TriggerKeeps(GrantHead(s), capacity, until, extra);
    }
  }

  // ---------------------------------------------------------------------
  // The arrival process

  /** Where an arrival iteration's timeout goes: the clock's invariant
      holds after scheduling it. */
  lemma ScheduleClock(s: Sim, t: Sim, until: real, delay: real, kind: Kind)
    requires ClockOk(s, until) && 0.0 <= delay
    requires t.now == s.now && t.nextEid == s.nextEid + 1
    requires t.pending == Insert(s.pending, NewEvent(s, delay, kind))
    ensures ClockOk(t, until)
    ensures forall x :: x in t.pending <==> x in s.pending || x == NewEvent(s, delay, kind)
  {
    ScheduleQueue(s, until, delay, kind);
  }

  /** The state an arrival iteration leaves, field by field. */
  lemma SourceShape(s: Sim, capacity: int)
    requires SourceStep(s, capacity).Ok?
    ensures FirstFit(s.nodeSamples, capacity).Some? && s.interSamples != []
    ensures var t := SourceStep(s, capacity).value;
      var k := FirstFit(s.nodeSamples, capacity).value;
      var n := s.nodeSamples[k];
      var inter := s.interSamples[0];
      var e := NewEvent(s, inter, Arrive(n));
      && n <= capacity && 0.0 <= inter
      && t.now == s.now && t.nextEid == s.nextEid + 1 && t.pending == Insert(s.pending, e)
      && t.nodeSamples == s.nodeSamples[k + 1..] && t.interSamples == s.interSamples[1..]
      && t.serviceSamples == s.serviceSamples
      && t.count == s.count && t.numNodes == s.numNodes + [n]
      && t.interarrivals == s.interarrivals + [inter]
      && t.starts == s.starts && t.ends == s.ends && t.services == s.services && t.data == s.data
      && t.pool == s.pool && t.phase == s.phase && t.granted == s.granted
      && t.current == s.current && t.arrival == e
  {
  }

  lemma SourceLists(s: Sim, t: Sim, capacity: int, extra: nat, n: int, inter: real)
    requires ListsOk(s, capacity, extra) && n <= capacity
    requires t.numNodes == s.numNodes + [n] && t.interarrivals == s.interarrivals + [inter]
    requires t.count == s.count && t.starts == s.starts && t.ends == s.ends
    requires t.services == s.services && t.now == s.now
    ensures ListsOk(t, capacity, extra + 1)
  {
  }

  lemma SourcePool(s: Sim, t: Sim, capacity: int, n: int)
    requires PoolOk(s, capacity)
    requires t.numNodes == s.numNodes + [n] && t.pool == s.pool && t.phase == s.phase
    requires t.granted == s.granted && t.count == s.count
    ensures PoolOk(t, capacity)
  {
    HeldPrefix(s.phase, s.numNodes, [n]);
  }

  lemma SourceEvents(s: Sim, t: Sim, n: int, e: Event)
    requires EventsOk(s) && s.arrival !in s.pending && e.kind == Arrive(n)
    requires forall x :: x in t.pending <==> x in s.pending || x == e
    requires t.numNodes == s.numNodes + [n] && t.arrival == e
    requires t.now == s.now && t.phase == s.phase && t.granted == s.granted
    requires t.current == s.current && t.ends == s.ends
    ensures EventsOk(t)
  {
    assert ArrivalOk(t);
    assert JobEventsOk(t) by {
      forall x | x in t.pending && !x.kind.Arrive?
        ensures x in s.pending
      {
      }
    }
    assert GrantsOk(t) by {
      forall x | x in t.pending && x.kind.Granted?
        ensures x in s.pending
      {
      }
    }
  }

  /** An arrival iteration, taken when no arrival timeout is pending, keeps
      the invariant with one more node draw ahead of the arrivals, and uses
      up at least one node draw. */
  lemma SourceKeeps(s: Sim, capacity: int, until: real, extra: nat)
    requires Inv(s, capacity, until, extra) && s.arrival !in s.pending
    requires SourceStep(s, capacity).Ok?
    ensures var t := SourceStep(s, capacity).value;
      && Inv(t, capacity, until, extra + 1)
      && |t.nodeSamples| < |s.nodeSamples|
      && t.phase == s.phase && t.count == s.count
      && t.numNodes[..|s.numNodes|] == s.numNodes
  {
    SourceShape(s, capacity);
    var t := SourceStep(s, capacity).value;
    var k := FirstFit(s.nodeSamples, capacity).value;
    var n := s.nodeSamples[k];
    var inter := s.interSamples[0];
    var e := NewEvent(s, inter, Arrive(n));
    ScheduleClock(s, t, until, inter, Arrive(n));
    SourceLists(s, t, capacity, extra, n, inter);
    SourcePool(s, t, capacity, n);
    SourceEvents(s, t, n, e);
    DataFrame(s, t, capacity);
    assert t.numNodes[..|s.numNodes|] == s.numNodes;
  }

  // ---------------------------------------------------------------------
  // A job's start

  lemma EnqueueShape(s: Sim, capacity: int, n: int)
    ensures var t := Enqueue(s, capacity, n);
      && t.now == s.now && t.pending == s.pending && t.nextEid == s.nextEid
      && t.nodeSamples == s.nodeSamples && t.interSamples == s.interSamples
      && t.serviceSamples == s.serviceSamples
      && t.count == s.count + 1 && t.numNodes == s.numNodes && t.interarrivals == s.interarrivals
      && t.starts == s.starts + [s.now] && t.ends == s.ends && t.services == s.services
      && t.data == s.data + [Observe(capacity, s.pool, s.now)]
      && t.pool == Pool(s.pool.level, s.pool.waiters + [(s.count, n)])
      && t.phase == s.phase + [Queued] && t.granted == s.granted
      && t.current == s.current && t.arrival == s.arrival
  {
  }

  lemma EnqueueLists(s: Sim, t: Sim, capacity: int, extra: nat)
    requires ListsOk(s, capacity, extra + 1) && 0 < s.numNodes[s.count]
    requires t.count == s.count + 1 && t.starts == s.starts + [s.now]
    requires t.numNodes == s.numNodes && t.interarrivals == s.interarrivals
    requires t.ends == s.ends && t.services == s.services && t.now == s.now
    ensures ListsOk(t, capacity, extra)
  {
  }

  lemma EnqueueJobs(s: Sim, t: Sim)
    requires JobsOk(s)
    requires t.phase == s.phase + [Queued] && t.count == s.count + 1
    requires t.granted == s.granted && t.ends == s.ends
    ensures JobsOk(t)
  {
  }

  lemma EnqueuePool(s: Sim, t: Sim, capacity: int, n: int)
    requires PoolOk(s, capacity) && JobsOk(s) && s.count < |s.numNodes| && n == s.numNodes[s.count]
    requires t.pool == Pool(s.pool.level, s.pool.waiters + [(s.count, n)])
    requires t.phase == s.phase + [Queued] && t.count == s.count + 1
    requires t.granted == s.granted && t.numNodes == s.numNodes
    ensures PoolOk(t, capacity)
  {
    HeldAppend(s.phase, s.numNodes, Queued);
  }

  lemma EnqueueEvents(s: Sim, t: Sim)
    requires EventsOk(s)
    requires t.phase == s.phase + [Queued]
    requires t.pending == s.pending && t.now == s.now && t.numNodes == s.numNodes
    requires t.granted == s.granted && t.ends == s.ends
    requires t.current == s.current && t.arrival == s.arrival
    ensures EventsOk(t)
  {
    assert JobEventsOk(t) by {
      forall x | x in t.pending && !x.kind.Arrive?
        ensures t.phase[x.kind.job] == s.phase[x.kind.job]
      {
      }
    }
  }

  /** A monitoring sample taken now of a pool whose level is in range. */
  lemma DataAppend(s: Sim, t: Sim, capacity: int, pool: Pool)
    requires DataOk(s, capacity) && 0 <= pool.level <= capacity
    requires s.now <= t.now && 0.0 <= t.now
    requires t.data == s.data + [Observe(capacity, pool, t.now)]
    ensures DataOk(t, capacity)
  {
  }

  /** A job's start keeps the invariant, one node draw fewer ahead of the
      arrivals, and adds at most the new job's work. */
  lemma JobStartKeeps(s: Sim, capacity: int, until: real, n: int)
    requires Inv(s, capacity, until, 2) && n == s.numNodes[s.count]
    requires JobStart(s, capacity, n).Ok?
    ensures var t := JobStart(s, capacity, n).value;
      && Inv(t, capacity, until, 1)
      && Work(t.phase) <= Work(s.phase) + 4
      && t.nodeSamples == s.nodeSamples
  {
    var u := Enqueue(s, capacity, n);
    EnqueueShape(s, capacity, n);
    HeldNonnegative(s.phase, s.numNodes);
    EnqueueLists(s, u, capacity, 1);
    EnqueueJobs(s, u);
    EnqueuePool(s, u, capacity, n);
    EnqueueEvents(s, u);
    DataAppend(s, u, capacity, s.pool);
    assert ClockOk(u, until);
    WorkAppend(s.phase, Queued);
    TriggerKeeps(u, capacity, until, 1);
  }

  // ---------------------------------------------------------------------
  // The events

  /** The arrival timeout: the invariant holds after it, and the measure
      has gone down. */
  lemma ArriveKeeps(s: Sim, capacity: int, until: real)
    requires Inv(s, capacity, until, 1)
    requires s.pending != [] && s.pending[0].time < until && s.pending[0].kind.Arrive?
    requires OnArrive(s, capacity, s.pending[0].kind.nodes).Ok?
    ensures Inv(OnArrive(s, capacity, s.pending[0].kind.nodes).value, capacity, until, 1)
    ensures Measure(OnArrive(s, capacity, s.pending[0].kind.nodes).value) < Measure(s)
  {
    var n := s.pending[0].kind.nodes;
    PopKeeps(s, capacity, until, 1);
    var p := Pop(s);
    assert s.pending[0] == s.arrival;
    var t := SourceStep(p, capacity).value;
    SourceKeeps(p, capacity, until, 1);
    assert t.numNodes[p.count] == n by {
      assert t.numNodes[..|p.numNodes|][p.count] == p.numNodes[p.count];
    }
    JobStartKeeps(t, capacity, until, n);
  }

  /** What the earliest pending job event says about its job. */
  lemma HeadJob(s: Sim)
    requires JobEventsOk(s) && s.pending != [] && !s.pending[0].kind.Arrive?
    ensures var e := s.pending[0];
      && e.kind.job < |s.phase| && e.kind.job in s.current && s.current[e.kind.job] == e
      && Matches(s.phase[e.kind.job], e.kind)
      && (!e.kind.PutDone? ==> e.kind.job < |s.numNodes| && e.kind.nodes == s.numNodes[e.kind.job])
  {
    assert s.pending[0] in s.pending;
  }

  /** Grants are resumed in FIFO order: the earliest pending grant event is
      that of the oldest job granted and not yet resumed, so the i-th wait
      end recorded belongs to job i. */
  lemma GrantedHead(s: Sim, until: real)
    requires ClockOk(s, until) && JobsOk(s) && EventsOk(s)
    requires s.pending != [] && s.pending[0].kind.Granted?
    ensures s.pending[0].kind.job == |s.ends| < s.granted
    ensures s.phase[|s.ends|] == Acquired
  {
    var e := s.pending[0];
    var j := e.kind.job;
    HeadJob(s);
    HeadFirst(s.pending);
    var h := |s.ends|;
    assert h <= j < s.granted;
    assert s.current[h] in s.pending;
  }

  lemma GrantedShape(s: Sim)
    requires s.pending != [] && s.pending[0].kind.Granted?
    requires OnGranted(s, s.pending[0].kind.job, s.pending[0].kind.nodes).Ok?
    ensures s.serviceSamples != [] && 0.0 <= s.serviceSamples[0]
    ensures var h := s.pending[0];
      var j := h.kind.job;
      var ser := s.serviceSamples[0];
      var e := NewEvent(Pop(s), ser, ServiceDone(j, h.kind.nodes));
      var t := OnGranted(s, j, h.kind.nodes).value;
      && t.now == h.time && t.nextEid == s.nextEid + 1 && t.pending == Insert(Pop(s).pending, e)
      && t.nodeSamples == s.nodeSamples && t.interSamples == s.interSamples
      && t.serviceSamples == s.serviceSamples[1..]
      && t.count == s.count && t.numNodes == s.numNodes && t.interarrivals == s.interarrivals
      && t.starts == s.starts && t.ends == s.ends + [h.time] && t.services == s.services + [ser]
      && t.data == s.data && t.pool == s.pool && t.phase == Update(s.phase, j, InService)
      && t.granted == s.granted && t.current == s.current[j := e] && t.arrival == s.arrival
  {
  }

  lemma GrantedLists(s: Sim, t: Sim, capacity: int, ser: real)
    requires ListsOk(s, capacity, 1) && |s.ends| < s.count && 0.0 <= ser && s.now <= t.now
    requires t.ends == s.ends + [t.now] && t.services == s.services + [ser]
    requires t.numNodes == s.numNodes && t.interarrivals == s.interarrivals
    requires t.count == s.count && t.starts == s.starts
    ensures ListsOk(t, capacity, 1)
  {
  }

  lemma GrantedJobsPool(s: Sim, t: Sim, capacity: int, j: nat)
    requires JobsOk(s) && PoolOk(s, capacity) && j == |s.ends| < s.granted
    requires t.phase == s.phase[j := InService] && t.ends == s.ends + [t.now]
    requires t.count == s.count && t.granted == s.granted && t.pool == s.pool
    requires t.numNodes == s.numNodes
    ensures JobsOk(t) && PoolOk(t, capacity)
    ensures Work(t.phase) < Work(s.phase)
  {
    HeldUpdate(s.phase, s.numNodes, j, InService);
    WorkUpdate(s.phase, j, InService);
  }

  lemma GrantedJobEvents(s: Sim, t: Sim, j: nat, e: Event)
    requires JobEventsOk(s) && j < |s.phase| && j < |s.numNodes|
    requires s.pending != [] && j in s.current && s.current[j] == s.pending[0]
    requires forall x :: x in t.pending <==> (x in s.pending && x != s.pending[0]) || x == e
    requires e.kind == ServiceDone(j, s.numNodes[j])
    requires t.phase == s.phase[j := InService] && t.current == s.current[j := e]
    requires t.numNodes == s.numNodes
    ensures JobEventsOk(t)
  {
    forall x | x in t.pending && !x.kind.Arrive? && x != e
      ensures x.kind.job != j
    {
      assert x in s.pending;
    }
  }

  lemma GrantedGrants(s: Sim, t: Sim, j: nat, e: Event)
    requires GrantsOk(s) && j == |s.ends|
    requires s.pending != [] && j in s.current && s.current[j] == s.pending[0] && s.now <= t.now
    requires forall x :: x in t.pending <==> (x in s.pending && x != s.pending[0]) || x == e
    requires e.kind.ServiceDone?
    requires t.current == s.current[j := e]
    requires t.ends == s.ends + [t.now] && t.granted == s.granted && t.numNodes == s.numNodes
    ensures GrantsOk(t)
  {
    forall i | |t.ends| <= i < t.granted
      ensures t.current[i] in t.pending
    {
      assert s.current[i] in s.pending;
      assert s.current[i].kind == Granted(i, s.numNodes[i]);
    }
  }

  /** A grant event: the invariant holds after it and the measure has gone
      down. */
  lemma GrantedKeeps(s: Sim, capacity: int, until: real)
    requires Inv(s, capacity, until, 1)
    requires s.pending != [] && s.pending[0].time < until && s.pending[0].kind.Granted?
    requires OnGranted(s, s.pending[0].kind.job, s.pending[0].kind.nodes).Ok?
    ensures Inv(OnGranted(s, s.pending[0].kind.job, s.pending[0].kind.nodes).value, capacity, until, 1)
    ensures Measure(OnGranted(s, s.pending[0].kind.job, s.pending[0].kind.nodes).value) < Measure(s)
  {
    var h := s.pending[0];
    var j := h.kind.job;
    var t := OnGranted(s, j, h.kind.nodes).value;
    GrantedHead(s, until);
    HeadJob(s);
    GrantedShape(s);
    var ser := s.serviceSamples[0];
    var p := Pop(s);
    PopClock(s, until);
    var e := NewEvent(p, ser, ServiceDone(j, h.kind.nodes));
    ScheduleClock(p, t, until, ser, ServiceDone(j, h.kind.nodes));
    GrantedLists(s, t, capacity, ser);
    GrantedJobsPool(s, t, capacity, j);
    GrantedJobEvents(s, t, j, e);
    GrantedGrants(s, t, j, e);
    ArrivalFrame(s, t, e);
    DataFrame(s, t, capacity);
  }

  lemma ServiceShape(s: Sim, capacity: int)
    requires s.pending != [] && s.pending[0].kind.ServiceDone?
    ensures var h := s.pending[0];
      var j := h.kind.job;
      var n := h.kind.nodes;
      var p := Pop(s);
      var e := NewEvent(p, 0.0, PutDone(j));
      var t := OnServiceDone(s, capacity, j, n);
      && t.now == p.now && t.nextEid == s.nextEid + 1 && t.pending == Insert(p.pending, e)
      && t.nodeSamples == s.nodeSamples && t.interSamples == s.interSamples
      && t.serviceSamples == s.serviceSamples
      && t.count == s.count && t.numNodes == s.numNodes && t.interarrivals == s.interarrivals
      && t.starts == s.starts && t.ends == s.ends && t.services == s.services
      && t.data == s.data + [Observe(capacity, s.pool, t.now)]
      && t.pool == Pool(s.pool.level + n, s.pool.waiters)
      && t.phase == Update(s.phase, j, Releasing)
      && t.granted == s.granted && t.current == s.current[j := e] && t.arrival == s.arrival
  {
  }

  /** The nodes a job puts back are the ones it took, and they fit. */
  lemma ReleaseFits(s: Sim, capacity: int, j: nat)
    requires ListsOk(s, capacity, 1) && JobsOk(s) && PoolOk(s, capacity)
    requires j < |s.phase| && Holds(s.phase[j])
    ensures 0 < s.numNodes[j] && s.pool.level + s.numNodes[j] <= capacity
  {
    HeldCovers(s.phase, s.numNodes, j);
  }

  lemma ServiceJobsPool(s: Sim, t: Sim, capacity: int, j: nat, n: int)
    requires JobsOk(s) && PoolOk(s, capacity)
    requires j < |s.phase| && s.phase[j] == InService && n == s.numNodes[j]
    requires t.phase == s.phase[j := Releasing] && t.pool == Pool(s.pool.level + n, s.pool.waiters)
    requires t.count == s.count && t.granted == s.granted && t.ends == s.ends
    requires t.numNodes == s.numNodes && 0 < n
    ensures JobsOk(t) && PoolOk(t, capacity)
    ensures Work(t.phase) < Work(s.phase)
  {
    HeldUpdate(s.phase, s.numNodes, j, Releasing);
    WorkUpdate(s.phase, j, Releasing);
  }

  lemma ServiceJobEvents(s: Sim, t: Sim, j: nat, e: Event)
    requires JobEventsOk(s) && j < |s.phase|
    requires s.pending != [] && j in s.current && s.current[j] == s.pending[0]
    requires forall x :: x in t.pending <==> (x in s.pending && x != s.pending[0]) || x == e
    requires e.kind == PutDone(j)
    requires t.phase == s.phase[j := Releasing] && t.current == s.current[j := e]
    requires t.numNodes == s.numNodes
    ensures JobEventsOk(t)
  {
    forall x | x in t.pending && !x.kind.Arrive? && x != e
      ensures x.kind.job != j
    {
      assert x in s.pending;
    }
  }

  lemma ServiceGrants(s: Sim, t: Sim, j: nat, e: Event)
    requires GrantsOk(s) && JobsOk(s) && j < |s.phase| && s.phase[j] == InService
    requires s.pending != [] && s.now <= t.now && s.pending[0].kind.ServiceDone?
    requires forall x :: x in t.pending <==> (x in s.pending && x != s.pending[0]) || x == e
    requires e.kind.PutDone?
    requires t.current == s.current[j := e]
    requires t.ends == s.ends && t.granted == s.granted && t.numNodes == s.numNodes
    ensures GrantsOk(t)
  {
    forall i | |t.ends| <= i < t.granted
      ensures t.current[i] in t.pending
    {
      assert s.current[i] in s.pending;
    }
  }

  /** A service timeout: the invariant holds after it, the measure has gone
      down, and the job's put returns the nodes it holds, which fit. */
  lemma ServiceDoneKeeps(s: Sim, capacity: int, until: real)
    requires Inv(s, capacity, until, 1)
    requires s.pending != [] && s.pending[0].time < until && s.pending[0].kind.ServiceDone?
    ensures var h := s.pending[0];
      var t := OnServiceDone(s, capacity, h.kind.job, h.kind.nodes);
      && Inv(t, capacity, until, 1)
      && Measure(t) < Measure(s)
      && 0 < h.kind.nodes && s.pool.level + h.kind.nodes <= capacity
  {
    var h := s.pending[0];
    var j := h.kind.job;
    var n := h.kind.nodes;
    var t := OnServiceDone(s, capacity, j, n);
    HeadJob(s);
    ServiceShape(s, capacity);
    ReleaseFits(s, capacity, j);
    HeldNonnegative(s.phase, s.numNodes);
    var p := Pop(s);
    PopClock(s, until);
    var e := NewEvent(p, 0.0, PutDone(j));
    ScheduleClock(p, t, until, 0.0, PutDone(j));
    ListsFrame(s, t, capacity, 1);
    ServiceJobsPool(s, t, capacity, j, n);
    ServiceJobEvents(s, t, j, e);
    ServiceGrants(s, t, j, e);
    ArrivalFrame(s, t, e);
    DataAppend(s, t, capacity, s.pool);
  }

  lemma PutShape(s: Sim)
    requires s.pending != [] && s.pending[0].kind.PutDone?
    ensures var j := s.pending[0].kind.job;
      var p := Pop(s);
      var u := p.(phase := Update(s.phase, j, Departed));
      && OnPutDone(s, j) == Trigger(u)
      && u.now == p.now && u.pending == p.pending && u.nextEid == s.nextEid
      && u.nodeSamples == s.nodeSamples
      && u.count == s.count && u.numNodes == s.numNodes && u.interarrivals == s.interarrivals
      && u.starts == s.starts && u.ends == s.ends && u.services == s.services
      && u.data == s.data && u.pool == s.pool && u.phase == Update(s.phase, j, Departed)
      && u.granted == s.granted && u.current == s.current && u.arrival == s.arrival
  {
  }

  lemma PutJobsPool(s: Sim, t: Sim, capacity: int, j: nat)
    requires JobsOk(s) && PoolOk(s, capacity)
    requires j < |s.phase| && s.phase[j] == Releasing
    requires t.phase == s.phase[j := Departed] && t.pool == s.pool
    requires t.count == s.count && t.granted == s.granted && t.ends == s.ends
    requires t.numNodes == s.numNodes
    ensures JobsOk(t) && PoolOk(t, capacity)
    ensures Work(t.phase) < Work(s.phase)
  {
    HeldUpdate(s.phase, s.numNodes, j, Departed);
    WorkUpdate(s.phase, j, Departed);
  }

  lemma PutEvents(s: Sim, t: Sim, j: nat)
    requires EventsOk(s) && JobsOk(s) && j < |s.phase| && s.phase[j] == Releasing
    requires s.pending != [] && s.pending[0].kind.PutDone?
    requires j in s.current && s.current[j] == s.pending[0] && s.now <= t.now
    requires forall x :: x in t.pending <==> x in s.pending && x != s.pending[0]
    requires t.phase == s.phase[j := Departed] && t.current == s.current
    requires t.ends == s.ends && t.granted == s.granted && t.numNodes == s.numNodes
    requires t.arrival == s.arrival
    ensures EventsOk(t)
  {
    ArrivalFrame(s, t, s.pending[0]);
    assert JobEventsOk(t) by {
      forall x | x in t.pending && !x.kind.Arrive?
        ensures x.kind.job != j
      {
        assert x in s.pending;
      }
    }
    assert GrantsOk(t) by {
      forall i | |t.ends| <= i < t.granted
        ensures t.current[i] in t.pending
      {
        assert s.current[i] in s.pending;
      }
    }
  }

  /** A put event: the invariant holds after it and the measure has gone
      down. */
  lemma PutDoneKeeps(s: Sim, capacity: int, until: real)
    requires Inv(s, capacity, until, 1)
    requires s.pending != [] && s.pending[0].time < until && s.pending[0].kind.PutDone?
    ensures Inv(OnPutDone(s, s.pending[0].kind.job), capacity, until, 1)
    ensures Measure(OnPutDone(s, s.pending[0].kind.job)) < Measure(s)
  {
    var j := s.pending[0].kind.job;
    HeadJob(s);
    PutShape(s);
    var p := Pop(s);
    var u := p.(phase := Update(s.phase, j, Departed));
    PopClock(s, until);
    assert ClockOk(u, until);
    ListsFrame(s, u, capacity, 1);
    PutJobsPool(s, u, capacity, j);
    PutEvents(s, u, j);
    DataFrame(s, u, capacity);
    TriggerKeeps(u, capacity, until, 1);
  }

  // ---------------------------------------------------------------------
  // A run

  /** Every step of a run keeps the invariant and lowers the measure. */
  lemma StepKeeps(s: Sim, capacity: int, until: real)
    requires Inv(s, capacity, until, 1)
    requires s.pending != [] && s.pending[0].time < until
    requires Step(s, capacity).Ok?
    ensures Inv(Step(s, capacity).value, capacity, until, 1)
    ensures Measure(Step(s, capacity).value) < Measure(s)
  {
    match s.pending[0].kind {
      case Arrive(_) => ArriveKeeps(s, capacity, until);
      case Granted(_, _) => GrantedKeeps(s, capacity, until);
      case ServiceDone(_, _) => ServiceDoneKeeps(s, capacity, until);
      case PutDone(_) => PutDoneKeeps(s, capacity, until);
    }
  }

  /** The arrival process's first iteration sets up the invariant. */
  lemma StartKeeps(capacity: int, until: real, nodeSamples: seq<int>,
                   interSamples: seq<real>, serviceSamples: seq<real>)
    requires 0 < capacity && 0.0 < until
    requires SourceStep(Init(capacity, nodeSamples, interSamples, serviceSamples), capacity).Ok?
    ensures Inv(SourceStep(Init(capacity, nodeSamples, interSamples, serviceSamples), capacity).value,
                capacity, until, 1)
  {
    var s := Init(capacity, nodeSamples, interSamples, serviceSamples);
    assert Inv(s, capacity, until, 0);
    SourceKeeps(s, capacity, until, 0);
  }
}
