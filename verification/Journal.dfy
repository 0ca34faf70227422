/** The agent's durable execution journal (agent_common/journal.py). */
module Journal {
  import opened Text
  import opened Skills
  import opened Server

  datatype Progress = Recorded | Executing | Executed | Reported

  function Rank(p: Progress): nat {
    match p
    case Recorded => 0
    case Executing => 1
    case Executed => 2
    case Reported => 3
  }

  /** One claim attempt. Its `job_id` text determines it: see JobIdInjective. */
  datatype JobRef = JobRef(action: string, attempt: nat)

  datatype Entry = Entry(
    job: JobRef, nonce: string, claimToken: Token, key: string, skillId: string, parameters: Parameters,
    progress: Progress, result: Option<JobResult>, updatedAt: int)

  type Entries = map<JobRef, Entry>

  function Marked(m: Entries, job: JobRef, progress: Progress, result: Option<JobResult>, now: int): Entries {
    if job !in m then m
    else
      var kept := if result.Some? then result else m[job].result;
      m[job := m[job].(progress := progress, result := kept, updatedAt := now)]
  }

  function ReportedJobs(m: Entries): set<JobRef> {
    set job <- m | m[job].progress == Reported
  }

  function PendingJobs(m: Entries): set<JobRef> {
    set job <- m | m[job].progress != Reported
  }

  predicate Ordered(m: Entries, jobs: seq<JobRef>)
    requires forall j <- jobs :: j in m
  {
    forall i, k :: 0 <= i < k < |jobs| ==> m[jobs[i]].updatedAt <= m[jobs[k]].updatedAt
  }

  ghost predicate Distinct<T>(s: seq<T>) {
    forall i, j :: 0 <= i < j < |s| ==> s[i] != s[j]
  }

  /** `drop` is what prune_reported deletes: the oldest reported entries beyond `keep`. */
  ghost predicate OldestExcess(m: Entries, keep: nat, drop: set<JobRef>) {
    && drop <= ReportedJobs(m)
    && |drop| == (if |ReportedJobs(m)| > keep then |ReportedJobs(m)| - keep else 0)
    && forall d <- drop, r <- ReportedJobs(m) - drop :: m[d].updatedAt <= m[r].updatedAt
  }

  /** The same claim, at most as far along, with the same result once there is one. */
  predicate NotAhead(early: Entry, late: Entry) {
    && early.job == late.job && early.claimToken == late.claimToken && early.key == late.key
    && early.skillId == late.skillId && early.parameters == late.parameters
    && Rank(early.progress) <= Rank(late.progress)
    && (early.result.Some? ==> late.result == early.result)
  }

  lemma MinimalExists(m: Entries, jobs: set<JobRef>) returns (job: JobRef)
    requires jobs != {} && jobs <= m.Keys
    ensures job in jobs && forall j <- jobs :: m[job].updatedAt <= m[j].updatedAt
    decreases |jobs|
  {
    job :| job in jobs;
    if jobs != {job} {
      var rest := jobs - {job};
      assert |rest| < |jobs|;
      assert jobs == rest + {job};
      var best := MinimalExists(m, rest);
      if m[best].updatedAt < m[job].updatedAt {
        job := best;
      }
    }
  }

  /** `sorted(..., key=updated_at)` over some of the entries. */
  method SortByAge(m: Entries, jobs: set<JobRef>) returns (order: seq<JobRef>)
    requires jobs <= m.Keys
    ensures forall j :: j in order <==> j in jobs
    ensures |order| == |jobs| && Distinct(order) && Ordered(m, order)
  {
    order := [];
    var rest := jobs;
    while rest != {}
      invariant rest <= jobs
      invariant forall j :: j in order <==> j in jobs - rest
      invariant |order| + |rest| == |jobs|
      invariant Distinct(order) && Ordered(m, order)
      invariant forall j <- order, k <- rest :: m[j].updatedAt <= m[k].updatedAt
      decreases |rest|
    {
      ghost var oldest := MinimalExists(m, rest);
      var next :| next in rest && forall j <- rest :: m[next].updatedAt <= m[j].updatedAt;
      order := order + [next];
      rest := rest - {next};
    }
  }

  /** The in-memory dictionary and the file it is saved to. A save replaces the file atomically or raises
      and leaves it as it was: `writes` is the outcome, and a false `saved` stands for the exception. */
  class ExecutionJournal {
    var entries: Entries
    var disk: Entries

    constructor (file: Entries)
      ensures entries == file && disk == file
    {
      entries, disk := file, file;
    }

    /** A restart of the agent: the dictionary is read back from the file. */
    method Reload()
      modifies this`entries
      ensures entries == disk
    {
      entries := disk;
    }

    method Save(writes: bool) returns (saved: bool)
      modifies this`disk
      ensures saved == writes
      ensures disk == if writes then entries else old(disk)
    {
      if writes {
        disk := entries;
      }
      return writes;
    }

    method Seen(job: JobRef) returns (seen: bool)
      ensures seen <==> job in entries
    {
      return job in entries;
    }

    method RecordClaimed(entry: Entry, now: int, writes: bool) returns (saved: bool)
      modifies this
      ensures entries == old(entries)[entry.job := entry.(progress := Recorded, result := None, updatedAt := now)]
      ensures saved == writes && disk == if writes then entries else old(disk)
    {
      entries := entries[entry.job := entry.(progress := Recorded, result := None, updatedAt := now)];
      saved := Save(writes);
    }

    method Mark(job: JobRef, progress: Progress, result: Option<JobResult>, now: int, writes: bool)
        returns (saved: bool)
      modifies this
      ensures entries == Marked(old(entries), job, progress, result, now)
      ensures disk == if writes && job in entries then entries else old(disk)
      ensures saved <==> writes || job !in entries
    {
      if job !in entries {
        return true;
      }
      var entry := entries[job].(progress := progress, updatedAt := now);
      if result.Some? {
        entry := entry.(result := result);
      }
      entries := entries[job := entry];
      saved := Save(writes);
    }

    method MarkExecuting(job: JobRef, now: int, writes: bool) returns (saved: bool)
      modifies this
      ensures entries == Marked(old(entries), job, Executing, None, now)
      ensures disk == if writes && job in entries then entries else old(disk)
      ensures saved <==> writes || job !in entries
    {
      saved := Mark(job, Executing, None, now, writes);
    }

    method MarkExecuted(job: JobRef, result: JobResult, now: int, writes: bool) returns (saved: bool)
      modifies this
      ensures entries == Marked(old(entries), job, Executed, Some(result), now)
      ensures disk == if writes && job in entries then entries else old(disk)
      ensures saved <==> writes || job !in entries
    {
      saved := Mark(job, Executed, Some(result), now, writes);
    }

    method MarkReported(job: JobRef, now: int, writes: bool) returns (saved: bool)
      modifies this
      ensures entries == Marked(old(entries), job, Reported, None, now)
      ensures disk == if writes && job in entries then entries else old(disk)
      ensures saved <==> writes || job !in entries
    {
      saved := Mark(job, Reported, None, now, writes);
    }

    method Pending() returns (order: seq<JobRef>)
      ensures forall j :: j in order <==> j in PendingJobs(entries)
      ensures Distinct(order) && Ordered(entries, order)
    {
      order := SortByAge(entries, PendingJobs(entries));
    }

    /** Deletes the oldest reported entries beyond `keep`; saves only when it deleted some. */
    method PruneReported(keep: nat, writes: bool) returns (saved: bool, ghost drop: set<JobRef>)
      modifies this
      ensures OldestExcess(old(entries), keep, drop)
      ensures entries == old(entries) - drop
      ensures disk == if writes && drop != {} then entries else old(disk)
      ensures saved <==> writes || drop == {}
    {
      var reported := SortByAge(entries, ReportedJobs(entries));
      var excess := |reported| - keep;
      if excess <= 0 {
        drop := {};
        return true, drop;
      }
      drop := Elements(reported[..excess]);
      PrefixIsOldest(entries, reported, keep);
      assert reported[0] in drop;
      DeleteFirst(reported, excess);
      saved := Save(writes);
    }

    method DeleteFirst(jobs: seq<JobRef>, count: nat)
      requires count <= |jobs|
      modifies this`entries
      ensures entries == old(entries) - Elements(jobs[..count])
    {
      for i := 0 to count
        invariant entries == old(entries) - Elements(jobs[..i])
      {
        assert jobs[..i + 1] == jobs[..i] + [jobs[i]];
        assert Elements(jobs[..i + 1]) == Elements(jobs[..i]) + {jobs[i]};
        entries := entries - {jobs[i]};
      }
    }
  }

  function Elements(jobs: seq<JobRef>): set<JobRef> {
    set job | job in jobs
  }

  lemma {:induction false} ElementsCount(jobs: seq<JobRef>)
    requires Distinct(jobs)
    ensures |Elements(jobs)| == |jobs|
  {
    if jobs != [] {
      var n := |jobs| - 1;
      ElementsCount(jobs[..n]);
      assert jobs == jobs[..n] + [jobs[n]];
      assert Elements(jobs) == Elements(jobs[..n]) + {jobs[n]};
    }
  }

  /** The head of the list sorted by age is what pruning must delete. */
  lemma PrefixIsOldest(m: Entries, reported: seq<JobRef>, keep: nat)
    requires forall j :: j in reported <==> j in ReportedJobs(m)
    requires |reported| == |ReportedJobs(m)| && Distinct(reported) && Ordered(m, reported) && keep < |reported|
    ensures OldestExcess(m, keep, Elements(reported[..|reported| - keep]))
  {
    var excess := |reported| - keep;
    var drop := Elements(reported[..excess]);
    ElementsCount(reported[..excess]);
    assert forall d <- drop :: d in ReportedJobs(m);
    assert forall k :: 0 <= k < excess ==> reported[k] in reported[..excess];
    forall d, r | d in drop && r in ReportedJobs(m) - drop ensures m[d].updatedAt <= m[r].updatedAt {
      var i :| 0 <= i < excess && reported[i] == d;
      var k :| 0 <= k < |reported| && reported[k] == r;
    }
  }
}
