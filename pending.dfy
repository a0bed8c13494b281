/** The simulation engine's pending-event structure: a sequence kept in
    (due time, sequence id) order, so that events due at the same time run
    in the order they were scheduled. */
module Pending {

  /** What a pending event resumes, with the local state the resumed
      process carries: the node count drawn by the arrival process, and a
      job's id and node count. */
  datatype Kind =
    | Arrive(nodes: int)                   // the arrival process's interarrival timeout
    | Granted(job: nat, nodes: int)        // the job's get request has succeeded
    | ServiceDone(job: nat, nodes: int)    // the job's service timeout
    | PutDone(job: nat)                    // the job's put request has been processed

  datatype Event = Event(time: real, eid: nat, kind: Kind)

  /** The engine's strict order on events: earlier due time first, and on
      equal due times the one scheduled first. */
  predicate Before(a: Event, b: Event) {
    a.time < b.time || (a.time == b.time && a.eid < b.eid)
  }

  ghost predicate Sorted(q: seq<Event>) {
    forall i, j :: 0 <= i < j < |q| ==> Before(q[i], q[j])
  }

  /** Every event in `q` was scheduled before sequence id `n` was handed out. */
  ghost predicate EidsBelow(q: seq<Event>, n: nat) {
    forall e :: e in q ==> e.eid < n
  }

  /** Schedules `e`: it goes after every event that is not strictly after it. */
  function Insert(q: seq<Event>, e: Event): (r: seq<Event>)
  {
    if q == [] then [e]
    else if Before(e, q[0]) then [e] + q
    else [q[0]] + Insert(q[1..], e)
  }

  /** Scheduling adds exactly the one event. */
  lemma {:induction false} InsertMembers(q: seq<Event>, e: Event)
    ensures |Insert(q, e)| == |q| + 1
    ensures multiset(Insert(q, e)) == multiset(q) + multiset{e}
    ensures forall x :: x in Insert(q, e) <==> x in q || x == e
  {
    if q != [] && !Before(e, q[0]) {
      InsertMembers(q[1..], e);
      assert q == [q[0]] + q[1..];
    }
  }

  /** Scheduling an event with a fresh sequence id keeps the queue in
      (time, sequence id) order. */
  lemma {:induction false} InsertSorted(q: seq<Event>, e: Event)
    requires Sorted(q) && EidsBelow(q, e.eid)
    ensures Sorted(Insert(q, e))
  {
    if q == [] {
    } else if Before(e, q[0]) {
      var r := [e] + q;
      forall i, j | 0 <= i < j < |r| ensures Before(r[i], r[j]) {
        if i > 0 {
          assert r[i] == q[i - 1] && r[j] == q[j - 1];
        } else {
          assert r[j] == q[j - 1];
          assert j - 1 == 0 || Before(q[0], q[j - 1]);
        }
      }
    } else {
      var t := q[1..];
      assert Sorted(t) by {
        forall i, j | 0 <= i < j < |t| ensures Before(t[i], t[j]) {
          assert t[i] == q[i + 1] && t[j] == q[j + 1];
        }
      }
      assert EidsBelow(t, e.eid) by {
        forall x | x in t ensures x.eid < e.eid { assert x in q; }
      }
      InsertSorted(t, e);
      InsertMembers(t, e);
      var r := [q[0]] + Insert(t, e);
      assert Before(q[0], e) by {
        assert q[0] in q;
      }
      forall i, j | 0 <= i < j < |r| ensures Before(r[i], r[j]) {
        if i == 0 {
          assert r[j] in Insert(t, e);
          if r[j] != e {
            assert r[j] in t;
            var k :| 0 <= k < |t| && t[k] == r[j];
            assert t[k] == q[k + 1];
          }
        } else {
          assert r[i] == Insert(t, e)[i - 1] && r[j] == Insert(t, e)[j - 1];
        }
      }
    }
  }

  /** The head of a sorted queue is strictly before everything behind it,
      so it does not occur again behind itself. */
  lemma HeadFirst(q: seq<Event>)
    requires Sorted(q) && q != []
    ensures forall x :: x in q[1..] ==> Before(q[0], x) && x != q[0]
    ensures Sorted(q[1..])
  {
    var t := q[1..];
    forall i, j | 0 <= i < j < |t| ensures Before(t[i], t[j]) {
      assert t[i] == q[i + 1] && t[j] == q[j + 1];
    }
    forall x | x in q[1..] ensures Before(q[0], x) && x != q[0] {
      var k :| 0 <= k < |q[1..]| && q[1..][k] == x;
      assert q[k + 1] == x;
    }
  }

  /** The environment: its clock, its pending events and the next sequence
      id it hands out. */
  class Env {
    var now: real
    var pending: seq<Event>
    var nextEid: nat

    constructor ()
      ensures now == 0.0 && pending == [] && nextEid == 0
    {
      now := 0.0;
      pending := [];
      nextEid := 0;
    }

    /** Schedules an event `delay` after now with the next sequence id. */
    method Schedule(delay: real, kind: Kind) returns (e: Event)
      modifies this`pending, this`nextEid
      ensures e == Event(now + delay, old(nextEid), kind)
      ensures pending == Insert(old(pending), e) && nextEid == old(nextEid) + 1
    {
      e := Event(now + delay, nextEid, kind);
      pending := Insert(pending, e);
      nextEid := nextEid + 1;
    }

    /** Takes the earliest pending event and advances the clock to it. */
    method Pop() returns (e: Event)
      requires pending != []
      modifies this`now, this`pending
      ensures e == old(pending[0]) && now == e.time && pending == old(pending[1..])
    {
      e := pending[0];
      now := e.time;
      pending := pending[1..];
    }
  }
}
