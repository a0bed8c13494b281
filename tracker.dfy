/** One poll step of the job tracker daemon: the shelf of tracked jobs,
    keyed by job id, is merged with a fresh snapshot of the queue. Jobs in
    the snapshot are inserted or overwritten; the ids seen for the first
    time are reported; tracked jobs that have left the queue and were not
    yet complete are marked complete. */
module Tracker {

  /** One row of the queue listing: the job id and the other columns, which
      the tracker stores without looking at them. */
  datatype Row = Row(jobId: string, columns: seq<string>)

  /** A record as stored in the shelf. */
  datatype Job = Job(jobId: string, columns: seq<string>, lastSeen: string, complete: bool)

  /** The snapshot of one poll: every row stamped with the time it was
      seen and marked incomplete. */
  function Snapshot(rows: seq<Row>, stamp: string): (r: seq<Job>)
    ensures |r| == |rows|
    ensures forall i :: 0 <= i < |r| ==>
      && r[i].jobId == rows[i].jobId && r[i].columns == rows[i].columns
      && r[i].lastSeen == stamp && !r[i].complete
  {
    if rows == [] then []
    else Snapshot(rows[..|rows| - 1], stamp)
         + [Job(rows[|rows| - 1].jobId, rows[|rows| - 1].columns, stamp, false)]
  }

  /** The ids present in a snapshot. */
  function Ids(jobs: seq<Job>): set<string> {
    set j | j in jobs :: j.jobId
  }

  /** The shelf after the records of `jobs` are written one after the other. */
  function Upsert(db: map<string, Job>, jobs: seq<Job>): (r: map<string, Job>)
    ensures db.Keys <= r.Keys
  {
    if jobs == [] then db
    else Upsert(db, jobs[..|jobs| - 1])[jobs[|jobs| - 1].jobId := jobs[|jobs| - 1]]
  }

  /** The shelf with the records of `done` flagged complete. */
  function MarkComplete(db: map<string, Job>, done: set<string>): (r: map<string, Job>)
    ensures r.Keys == db.Keys
  {
    map k | k in db :: if k in done then db[k].(complete := true) else db[k]
  }

  /** No later record of the snapshot carries the id of record `i`. */
  predicate LastOf(jobs: seq<Job>, i: int)
    requires 0 <= i < |jobs|
  {
    forall j :: i < j < |jobs| ==> jobs[j].jobId != jobs[i].jobId
  }

  datatype PollResult = PollResult(db: map<string, Job>, newJids: set<string>, doneJids: set<string>)

  /** The whole poll step on values. */
  function Poll(db: map<string, Job>, jobs: seq<Job>): PollResult {
    var jids := db.Keys;
    var merged := Upsert(db, jobs);
    var running := Ids(jobs);
    var done := set jid | jid in jids - running && !merged[jid].complete;
    PollResult(MarkComplete(merged, done), running - jids, done)
  }

  // ---------------------------------------------------------------------
  // Properties of the merge

  /** The keys after the merge are the keys before and the snapshot's ids;
      a key the snapshot does not mention keeps its record. */
  lemma {:induction false} UpsertKeys(db: map<string, Job>, jobs: seq<Job>)
    ensures Upsert(db, jobs).Keys == db.Keys + Ids(jobs)
    ensures forall k :: k in db && k !in Ids(jobs) ==> Upsert(db, jobs)[k] == db[k]
  {
    if jobs != [] {
      var init := jobs[..|jobs| - 1];
      UpsertKeys(db, init);
      assert jobs == init + [jobs[|jobs| - 1]];
      assert Ids(jobs) == Ids(init) + {jobs[|jobs| - 1].jobId};
    }
  }

  /** When an id occurs more than once in the snapshot, its last record is
      the one stored. */
  lemma {:induction false} UpsertLastWins(db: map<string, Job>, jobs: seq<Job>)
    ensures forall i :: 0 <= i < |jobs| && LastOf(jobs, i) ==>
        jobs[i].jobId in Upsert(db, jobs) && Upsert(db, jobs)[jobs[i].jobId] == jobs[i]
  {
    if jobs != [] {
      var init := jobs[..|jobs| - 1];
      UpsertLastWins(db, init);
      forall i | 0 <= i < |jobs| && LastOf(jobs, i)
        ensures jobs[i].jobId in Upsert(db, jobs) && Upsert(db, jobs)[jobs[i].jobId] == jobs[i]
      {
        if i < |jobs| - 1 {
          assert init[i] == jobs[i];
          assert forall j :: i < j < |init| ==> init[j] == jobs[j];
        }
      }
    }
  }

  /** Every id of the snapshot maps to a record of the snapshot with that id. */
  lemma {:induction false} UpsertFromSnapshot(db: map<string, Job>, jobs: seq<Job>)
    ensures forall k :: k in Ids(jobs) ==>
      k in Upsert(db, jobs) && Upsert(db, jobs)[k] in jobs && Upsert(db, jobs)[k].jobId == k
  {
    if jobs != [] {
      var init := jobs[..|jobs| - 1];
      var last := jobs[|jobs| - 1];
      UpsertFromSnapshot(db, init);
      assert jobs == init + [last];
      forall k | k in Ids(jobs)
        ensures k in Upsert(db, jobs) && Upsert(db, jobs)[k] in jobs && Upsert(db, jobs)[k].jobId == k
      {
        if k != last.jobId {
          var j :| j in jobs && j.jobId == k;
          assert j in init;
        }
      }
    }
  }

  // ---------------------------------------------------------------------
  // Properties of the poll step

  /** The key set grows by exactly the snapshot's ids, and `newJids` is the
      set of snapshot ids that were not tracked before. */
  lemma PollKeys(db: map<string, Job>, jobs: seq<Job>)
    ensures Poll(db, jobs).db.Keys == db.Keys + Ids(jobs)
    ensures forall k :: k in Poll(db, jobs).newJids <==> k in Ids(jobs) && k !in db
  {
    UpsertKeys(db, jobs);
  }

  /** `doneJids` is exactly the set of tracked ids missing from the snapshot
      whose record was not complete; each of those is flagged complete with
      its other fields unchanged, and a complete record missing from the
      snapshot is left as it was. */
  lemma PollDone(db: map<string, Job>, jobs: seq<Job>)
    ensures forall k :: k in Poll(db, jobs).doneJids <==>
      k in db && k !in Ids(jobs) && !db[k].complete
    ensures forall k :: k in Poll(db, jobs).doneJids ==>
      k in Poll(db, jobs).db && Poll(db, jobs).db[k] == db[k].(complete := true)
    ensures forall k :: k in db && k !in Ids(jobs) && db[k].complete ==>
      k in Poll(db, jobs).db && Poll(db, jobs).db[k] == db[k]
  {
    UpsertKeys(db, jobs);
  }

  /** An id of the snapshot maps to its last record in the snapshot, even
      when it was tracked (and perhaps complete) before. */
  lemma PollRunning(db: map<string, Job>, jobs: seq<Job>)
    ensures forall i :: 0 <= i < |jobs| && LastOf(jobs, i) ==>
        jobs[i].jobId in Poll(db, jobs).db && Poll(db, jobs).db[jobs[i].jobId] == jobs[i]
  {
    UpsertKeys(db, jobs);
    UpsertLastWins(db, jobs);
    var p := Poll(db, jobs);
    forall i | 0 <= i < |jobs| && LastOf(jobs, i)
      ensures jobs[i].jobId in p.db && p.db[jobs[i].jobId] == jobs[i]
    {
      assert jobs[i].jobId in Ids(jobs);
    }
  }

  /** A poll of a fresh snapshot leaves every id of the queue incomplete. */
  lemma PollIncomplete(db: map<string, Job>, rows: seq<Row>, stamp: string)
    ensures var jobs := Snapshot(rows, stamp);
      forall k :: k in Ids(jobs) ==> k in Poll(db, jobs).db && !Poll(db, jobs).db[k].complete
  {
    var jobs := Snapshot(rows, stamp);
    UpsertKeys(db, jobs);
    UpsertFromSnapshot(db, jobs);
    forall k | k in Ids(jobs) ensures k in Poll(db, jobs).db && !Poll(db, jobs).db[k].complete {
      var j := Upsert(db, jobs)[k];
      var i :| 0 <= i < |jobs| && jobs[i] == j;
    }
  }

  /** Polling the same snapshot twice in a row reports nothing new the
      second time and leaves the shelf as it was. */
  lemma PollIdempotent(db: map<string, Job>, jobs: seq<Job>)
    ensures var first := Poll(db, jobs);
      var second := Poll(first.db, jobs);
      second.newJids == {} && second.doneJids == {} && second.db == first.db
  {
    var first := Poll(db, jobs);
    PollKeys(db, jobs);
    PollDone(db, jobs);
    PollRunning(db, jobs);
    UpsertFixed(first.db, jobs);
    var second := Poll(first.db, jobs);
    assert second.newJids == {};
    forall k | k in first.db.Keys - Ids(jobs) ensures first.db[k].complete {
      assert k in db;
    }
    assert second.doneJids == {};
    assert second.db == MarkComplete(first.db, {});
  }

  /** A shelf that already holds the last record of every id of the
      snapshot is left as it is by writing the snapshot again. */
  lemma UpsertFixed(db: map<string, Job>, jobs: seq<Job>)
    requires forall i :: 0 <= i < |jobs| && LastOf(jobs, i) ==>
      jobs[i].jobId in db && db[jobs[i].jobId] == jobs[i]
    ensures Upsert(db, jobs) == db
  {
    UpsertKeys(db, jobs);
    UpsertLastWins(db, jobs);
    var again := Upsert(db, jobs);
    forall k | k in Ids(jobs) ensures k in db && again[k] == db[k] {
      LastOccurrence(jobs, k);
      var l :| 0 <= l < |jobs| && jobs[l].jobId == k && LastOf(jobs, l);
    }
    assert again.Keys == db.Keys;
    forall k | k in db ensures again[k] == db[k] {
    }
  }

  /** An id of a snapshot has a last occurrence in it. */
  lemma {:induction false} LastOccurrence(jobs: seq<Job>, k: string)
    requires k in Ids(jobs)
    ensures exists l :: 0 <= l < |jobs| && jobs[l].jobId == k && LastOf(jobs, l)
  {
    var last := jobs[|jobs| - 1];
    if last.jobId != k {
      var init := jobs[..|jobs| - 1];
      var j :| j in jobs && j.jobId == k;
      assert j in init;
      LastOccurrence(init, k);
      var l :| 0 <= l < |init| && init[l].jobId == k && LastOf(init, l);
      assert jobs[l] == init[l];
      assert forall j :: l < j < |init| ==> jobs[j] == init[j];
    } else {
      assert jobs[|jobs| - 1].jobId == k;
    }
  }

  // ---------------------------------------------------------------------
  // The shelf as the daemon holds it open

  class Shelf {
    var db: map<string, Job>

    constructor (db: map<string, Job>)
      ensures this.db == db
    {
      this.db := db;
    }

    /** One pass of the daemon's loop: the snapshot is written record by
        record, then the tracked jobs that have left the queue are flagged
        complete one by one. */
    method PollStep(jobs: seq<Job>) returns (newJids: set<string>, doneJids: set<string>)
      modifies this
      ensures PollResult(db, newJids, doneJids) == Poll(old(db), jobs)
    {
      var jids := db.Keys;
      Merge(jobs);
      var running := Ids(jobs);
      newJids := running - jids;
      doneJids := set jid | jid in jids - running && !db[jid].complete;
      MarkDone(doneJids);
    }

    /** Writes the records of the snapshot into the shelf, in order. */
    method Merge(jobs: seq<Job>)
      modifies this
      ensures db == Upsert(old(db), jobs)
    {
      var i := 0;
      while i < |jobs|
        invariant 0 <= i <= |jobs|
        invariant db == Upsert(old(db), jobs[..i])
      {
        assert jobs[..i + 1][..i] == jobs[..i];
        db := db[jobs[i].jobId := jobs[i]];
        i := i + 1;
      }
      assert jobs[..i] == jobs;
    }

    /** Flags the records of `done` complete, one at a time. */
    method MarkDone(done: set<string>)
      requires done <= db.Keys
      modifies this
      ensures db == MarkComplete(old(db), done)
    {
      var todo := done;
      while todo != {}
        invariant todo <= done
        invariant db == MarkComplete(old(db), done - todo)
        decreases |todo|
      {
        var jid :| jid in todo;
        var tmp := db[jid];
        tmp := tmp.(complete := true);
        db := db[jid := tmp];
        todo := todo - {jid};
      }
    }
  }
}
