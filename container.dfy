/** The node pool: a capacity-limited container of interchangeable nodes with
    a FIFO queue of waiting get requests, and the monitoring record taken of
    it. Only the part of a container's contract the simulation relies on is
    modelled. */
module Resource {

  datatype Option<T> = None | Some(value: T)

  /** A waiting get request: (job id, number of nodes). */
  type Waiter = (nat, int)

  /** The container's mutable state: its free level and its get queue. */
  datatype Pool = Pool(level: int, waiters: seq<Waiter>)

  /** One monitoring sample. */
  datatype Record = Record(clock: real, usage: int, queue: nat, total: int)

  /** The monitoring callback's record of a container of `capacity` nodes. */
  function Observe(capacity: int, p: Pool, clock: real): (r: Record)
    ensures r.clock == clock && r.queue == |p.waiters|
    ensures r.usage == capacity - p.level && r.total == r.usage + r.queue
    ensures 0 <= p.level <= capacity ==> 0 <= r.usage <= capacity
  {
    Record(clock, capacity - p.level, |p.waiters|, capacity - p.level + |p.waiters|)
  }

  /** Examines the head of the get queue: if the free level covers its
      whole request it is granted and leaves the queue; otherwise nothing
      happens, even when a request further back would fit. */
  function ServeHead(p: Pool): (Option<Waiter>, Pool) {
    if p.waiters != [] && p.waiters[0].1 <= p.level
    then (Some(p.waiters[0]), Pool(p.level - p.waiters[0].1, p.waiters[1..]))
    else (None, p)
  }

  /** Walks the get queue from its head, granting while the free level
      covers the head's request, and stops at the first request that does
      not fit. Returns the grants in the order they were made. */
  function ServeAll(p: Pool): (seq<Waiter>, Pool)
    decreases |p.waiters|
  {
    var (g, q) := ServeHead(p);
    if g.None? then ([], p)
    else
      var (gs, r) := ServeAll(q);
      ([g.value] + gs, r)
  }

  /** The nodes a sequence of grants takes. */
  function Taken(gs: seq<Waiter>): int {
    if gs == [] then 0 else gs[0].1 + Taken(gs[1..])
  }

  /** A get request for `amount` nodes on behalf of `job`: refused (None)
      when the amount is not positive; otherwise the request joins the back
      of the queue and the queue is walked from its head. */
  function Request(p: Pool, job: nat, amount: int): Option<(seq<Waiter>, Pool)> {
    if amount <= 0 then None
    else Some(ServeAll(Pool(p.level, p.waiters + [(job, amount)])))
  }

  /** A put request returning `amount` nodes, applied at once. */
  function Release(p: Pool, amount: int): Pool {
    Pool(p.level + amount, p.waiters)
  }

  /** FIFO with head-of-line blocking: the grants are the oldest requests,
      in queue order, and the rest of the queue keeps its order; the level
      drops by exactly the nodes granted and never below zero; and when
      requests are left, the oldest of them does not fit, so no later one
      is served either. */
  lemma {:induction false} ServeAllFifo(p: Pool)
    ensures var (gs, q) := ServeAll(p);
      && p.waiters == gs + q.waiters
      && q.level == p.level - Taken(gs)
      && (0 <= p.level ==> 0 <= q.level)
      && (q.waiters != [] ==> q.level < q.waiters[0].1)
    decreases |p.waiters|
  {
    var (g, q) := ServeHead(p);
    if g.Some? {
      ServeAllFifo(q);
      var (gs, r) := ServeAll(q);
      assert ServeAll(p) == ([g.value] + gs, r);
      assert ([g.value] + gs)[1..] == gs;
      assert p.waiters == [p.waiters[0]] + p.waiters[1..];
    }
  }

  class Container {
    const capacity: int
    var level: int
    var waiters: seq<Waiter>

    ghost predicate Valid()
      reads this
    {
      && 0 < capacity
      && 0 <= level <= capacity
      && forall w :: w in waiters ==> 0 < w.1
    }

    /** The container's state as a value. */
    function State(): Pool
      reads this
    {
      Pool(level, waiters)
    }

    /** A container created full (`init` equal to `capacity`). */
    constructor (capacity: int)
      requires 0 < capacity
      ensures Valid()
      ensures this.capacity == capacity && State() == Pool(capacity, [])
    {
      this.capacity := capacity;
      level := capacity;
      waiters := [];
    }

    /** The monitoring callback's record of this container. */
    function Snapshot(clock: real): (r: Record)
      reads this
      ensures r.usage == capacity - level && r.queue == |waiters| && r.total == r.usage + r.queue
      ensures Valid() ==> 0 <= r.usage <= capacity
    {
      Observe(capacity, State(), clock)
    }

    /** Walks the get queue from its head, granting while the head fits. */
    method TriggerGet() returns (granted: seq<Waiter>)
      requires Valid()
      modifies this`level, this`waiters
      ensures Valid()
      ensures (granted, State()) == ServeAll(old(State()))
    {
      granted := [];
      assert granted + ServeAll(State()).0 == ServeAll(State()).0;
      while waiters != [] && waiters[0].1 <= level
        invariant Valid()
        invariant ServeAll(old(State())).0 == granted + ServeAll(State()).0
        invariant ServeAll(old(State())).1 == ServeAll(State()).1
        decreases |waiters|
      {
        ghost var before := State();
        ghost var g0 := granted;
        var w := waiters[0];
        assert forall x :: x in waiters[1..] ==> x in waiters;
        granted := granted + [w];
        level := level - w.1;
        waiters := waiters[1..];
        assert ServeAll(before) == ([w] + ServeAll(State()).0, ServeAll(State()).1);
        assert granted + ServeAll(State()).0 == g0 + ([w] + ServeAll(State()).0);
      }
      assert ServeAll(State()) == ([], State());
      assert granted + [] == granted;
    }

    method Get(job: nat, amount: int) returns (valid: bool, granted: seq<Waiter>)
      requires Valid()
      modifies this`level, this`waiters
      ensures Valid()
      ensures valid == Request(old(State()), job, amount).Some?
      ensures !valid ==> State() == old(State())
      ensures valid ==> (granted, State()) == Request(old(State()), job, amount).value
    {
      valid := 0 < amount;
      if !valid {
        granted := [];
        return;
      }
      waiters := waiters + [(job, amount)];
      granted := TriggerGet();
    }

    /** Every put the simulation makes returns nodes that were taken, so it
        always fits. */
    method Put(amount: int)
      requires Valid()
      requires 0 < amount && level + amount <= capacity
      modifies this`level
      ensures Valid()
      ensures State() == Release(old(State()), amount)
    {
      level := level + amount;
    }
  }
}
