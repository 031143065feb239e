/** The disk cleanup planner (internal/application/services/disk_service.go). The clock is
    read once for one sort, instants are nanoseconds and usage percentages are exact. */
module DiskCleanup {
  import opened Options

  const HOUR: int := 3_600_000_000_000
  const DAY: int := 24 * HOUR

  lemma DayInNanoseconds()
    ensures DAY == 24 * 60 * 60 * 1_000_000_000
  {}

  datatype JobInfo = JobInfo(jobID: string, modTime: int, size: nat, status: string)

  /** Higher is cleaned first. */
  function CleanupPriority(job: JobInfo, emergency: bool, now: int): int
  {
    var age := now - job.modTime;
    if job.status == "FAILED" || job.status == "failed" then 100
    else if job.status == "INTERRUPTED" || job.status == "interrupted" then
      if age > DAY then 90 else 50
    else if job.status == "COMPLETED" || job.status == "completed" then
      if emergency then (if age > 3 * DAY then 80 else 40)
      else (if age > 7 * DAY then 70 else 30)
    else if job.status == "PARTIAL_SUCCESS" || job.status == "partial_success" then
      if age > 7 * DAY then 60 else 25
    else
      if age > 30 * DAY then 50 else 20
  }

  /** The less function handed to sort.Slice. */
  predicate Before(a: JobInfo, b: JobInfo, emergency: bool, now: int)
  {
    var p, q := CleanupPriority(a, emergency, now), CleanupPriority(b, emergency, now);
    if p != q then p > q else a.modTime < b.modTime
  }

  predicate Tied(a: JobInfo, b: JobInfo, emergency: bool, now: int)
  {
    !Before(a, b, emergency, now) && !Before(b, a, emergency, now)
  }

  /** sort.Slice is only meaningful for a strict weak order. */
  lemma BeforeIsStrictWeakOrder(a: JobInfo, b: JobInfo, c: JobInfo, emergency: bool, now: int)
    ensures !Before(a, a, emergency, now)
    ensures Before(a, b, emergency, now) && Before(b, c, emergency, now) ==> Before(a, c, emergency, now)
    ensures Tied(a, b, emergency, now) && Tied(b, c, emergency, now) ==> Tied(a, c, emergency, now)
  {}

  lemma BeforeOneWay(a: JobInfo, b: JobInfo, emergency: bool, now: int)
    ensures !Before(a, b, emergency, now) || !Before(b, a, emergency, now)
  {}

  /** No neighbour is out of order: what sort.Slice leaves, ties in any order. */
  ghost predicate Sorted(jobs: seq<JobInfo>, emergency: bool, now: int)
  {
    forall i :: 0 < i < |jobs| ==> !Before(jobs[i], jobs[i - 1], emergency, now)
  }

  /** In a sorted list no later job goes before an earlier one. */
  lemma {:induction false} SortedThroughout(jobs: seq<JobInfo>, emergency: bool, now: int, i: nat, j: nat)
    requires Sorted(jobs, emergency, now) && i < j < |jobs|
    ensures !Before(jobs[j], jobs[i], emergency, now)
  {
    if i + 1 < j {
      SortedThroughout(jobs, emergency, now, i, j - 1);
    }
  }

  /** Every directory listing can be sorted this way. */
  lemma {:induction false} SortExists(jobs: seq<JobInfo>, emergency: bool, now: int) returns (sorted: seq<JobInfo>)
    ensures Sorted(sorted, emergency, now) && multiset(sorted) == multiset(jobs)
  {
    if jobs == [] {
      sorted := [];
    } else {
      assert jobs == jobs[..|jobs| - 1] + [jobs[|jobs| - 1]];
      sorted := SortExists(jobs[..|jobs| - 1], emergency, now);
      sorted := InsertSorted(sorted, jobs[|jobs| - 1], emergency, now);
    }
  }

  lemma {:induction false} InsertSorted(s: seq<JobInfo>, x: JobInfo, emergency: bool, now: int)
    returns (r: seq<JobInfo>)
    requires Sorted(s, emergency, now)
    ensures Sorted(r, emergency, now) && multiset(r) == multiset(s) + multiset{x}
    ensures r != [] && (r[|r| - 1] == x || (s != [] && r[|r| - 1] == s[|s| - 1]))
  {
    if s == [] || !Before(x, s[|s| - 1], emergency, now) {
      r := s + [x];
    } else {
      var last := s[|s| - 1];
      assert s == s[..|s| - 1] + [last];
      r := InsertSorted(s[..|s| - 1], x, emergency, now);
      BeforeOneWay(x, last, emergency, now);
      AppendSorted(r, last, emergency, now);
      r := r + [last];
    }
  }

  lemma AppendSorted(s: seq<JobInfo>, x: JobInfo, emergency: bool, now: int)
    requires Sorted(s, emergency, now) && s != [] && !Before(x, s[|s| - 1], emergency, now)
    ensures Sorted(s + [x], emergency, now)
  {}

  // ------------------------------------------------------------ the cleaning order

  predicate Failed(j: JobInfo) { j.status in {"FAILED", "failed"} }
  predicate Interrupted(j: JobInfo) { j.status in {"INTERRUPTED", "interrupted"} }
  predicate Completed(j: JobInfo) { j.status in {"COMPLETED", "completed"} }
  predicate Partial(j: JobInfo) { j.status in {"PARTIAL_SUCCESS", "partial_success"} }
  predicate Unknown(j: JobInfo) { !Failed(j) && !Interrupted(j) && !Completed(j) && !Partial(j) }

  predicate Over(j: JobInfo, days: int, now: int) { now - j.modTime > days * DAY }

  /** The groups in the order in which they are cleaned, each with its age limit in days. */
  predicate InGroup(j: JobInfo, group: nat, emergency: bool, now: int)
  {
    match group
    case 0 => Failed(j)
    case 1 => Interrupted(j) && Over(j, 1, now)
    case 2 => Completed(j) && Over(j, if emergency then 3 else 7, now)
    case 3 => Partial(j) && Over(j, 7, now)
    case 4 => (Interrupted(j) && !Over(j, 1, now)) || (Unknown(j) && Over(j, 30, now))
    case 5 => Completed(j) && !Over(j, if emergency then 3 else 7, now)
    case 6 => Partial(j) && !Over(j, 7, now)
    case 7 => Unknown(j) && !Over(j, 30, now)
    case _ => false
  }

  /** Every job is in exactly one group. */
  lemma GroupExists(j: JobInfo, emergency: bool, now: int) returns (group: nat)
    ensures InGroup(j, group, emergency, now)
    ensures forall g: nat :: InGroup(j, g, emergency, now) ==> g == group
  {
    StatusesDiffer();
    group := if Failed(j) then 0 else if Interrupted(j) then (if Over(j, 1, now) then 1 else 4)
             else if Completed(j) then (if Over(j, if emergency then 3 else 7, now) then 2 else 5)
             else if Partial(j) then (if Over(j, 7, now) then 3 else 6) else if Over(j, 30, now) then 4 else 7;
  }

  lemma StatusesDiffer()
    ensures forall j :: Failed(j) ==> !Interrupted(j) && !Completed(j) && !Partial(j)
    ensures forall j :: Interrupted(j) ==> !Completed(j) && !Partial(j)
    ensures forall j :: Completed(j) ==> !Partial(j)
  {
    assert |"FAILED"| == |"failed"| == 6 && |"INTERRUPTED"| == |"interrupted"| == 11;
    assert |"COMPLETED"| == |"completed"| == 9 && |"PARTIAL_SUCCESS"| == |"partial_success"| == 15;
  }

  /** Main result: one job is cleaned before another exactly if its group comes first,
      or the groups are the same and it is older. */
  lemma CleaningOrder(a: JobInfo, b: JobInfo, i: nat, j: nat, emergency: bool, now: int)
    requires InGroup(a, i, emergency, now) && InGroup(b, j, emergency, now)
    ensures Before(a, b, emergency, now) <==> i < j || (i == j && a.modTime < b.modTime)
  {
    GroupDecides(a, i, emergency, now);
    GroupDecides(b, j, emergency, now);
  }

  /** The program's numbers fall from group to group. */
  lemma GroupDecides(j: JobInfo, group: nat, emergency: bool, now: int)
    requires InGroup(j, group, emergency, now)
    ensures CleanupPriority(j, emergency, now)
         == [100, 90, if emergency then 80 else 70, 60, 50, if emergency then 40 else 30, 25, 20][group]
  {
    StatusesDiffer();
  }

  // ---------------------------------------------------------------- AutoCleanup

  /** A failed reading counts as 0. */
  function Level(reading: Option<real>): real { if reading.Some? then reading.value else 0.0 }

  /** The reading taken before the i-th candidate; the first reading decided to clean up. */
  function UsageBefore(reading: nat -> Option<real>, i: nat): real { Level(reading(i + 1)) }

  datatype Outcome =
    | Unreadable                                   // usage or the outputs directory
    | BelowThreshold
    | Cleaned(tried: nat, cleaned: nat, freed: nat)

  /** A failed reading ends the pass unless the target is not positive either. */
  lemma ReadingDecides(reading: nat -> Option<real>, i: nat, target: real)
    ensures reading(i + 1).Some? ==> (UsageBefore(reading, i) >= target <==> reading(i + 1).value >= target)
    ensures reading(i + 1).None? ==> (UsageBefore(reading, i) >= target <==> target <= 0.0)
  {}

  /** The jobs whose files were really deleted among the first n tried. */
  function Deleted(jobs: seq<JobInfo>, n: nat, works: nat -> bool): seq<JobInfo>
    requires n <= |jobs|
  {
    if n == 0 then []
    else if works(n - 1) then Deleted(jobs, n - 1, works) + [jobs[n - 1]]
    else Deleted(jobs, n - 1, works)
  }

  function TotalSize(jobs: seq<JobInfo>): nat
  {
    if jobs == [] then 0 else TotalSize(jobs[..|jobs| - 1]) + jobs[|jobs| - 1].size
  }

  /** Exactly the jobs whose deletion works are deleted, in the order tried. */
  lemma {:induction false} DeletedExactly(jobs: seq<JobInfo>, n: nat, works: nat -> bool) returns (at: seq<nat>)
    requires n <= |jobs|
    ensures |at| == |Deleted(jobs, n, works)|
    ensures forall k :: 0 <= k < |at| ==> at[k] < n && works(at[k]) && Deleted(jobs, n, works)[k] == jobs[at[k]]
    ensures forall k, l :: 0 <= k < l < |at| ==> at[k] < at[l]
    ensures forall i: nat :: i < n && works(i) ==> i in at
  {
    if n == 0 {
      at := [];
    } else {
      at := DeletedExactly(jobs, n - 1, works);
      if works(n - 1) {
        at := at + [n - 1];
      }
    }
  }

  /** The total is the sum of the sizes. */
  lemma {:induction false} TotalSizeAdds(a: seq<JobInfo>, b: seq<JobInfo>)
    ensures TotalSize(a + b) == TotalSize(a) + TotalSize(b)
    ensures |a| == 1 ==> TotalSize(a) == a[0].size
  {
    if b == [] {
      assert a + b == a;
    } else {
      TotalSizeAdds(a, b[..|b| - 1]);
      assert (a + b)[..|a + b| - 1] == a + b[..|b| - 1];
    }
  }

  /** One pass. `reading(k)` is the k-th usage reading, `listing(e)` the sorted output of
      getJobsForCleanup and `works(i)` tells whether deleting the i-th job succeeds. */
  method AutoCleanup(threshold: int, hardLimit: int, now: int, reading: nat -> Option<real>,
                     listing: bool -> Option<seq<JobInfo>>, works: nat -> bool)
    returns (r: Outcome)
    requires forall e :: listing(e).Some? ==> Sorted(listing(e).value, e, now)
    ensures reading(0).None? ==> r.Unreadable?
    ensures reading(0).Some? && reading(0).value < threshold as real ==> r.BelowThreshold?
    ensures reading(0).Some? && reading(0).value >= threshold as real ==>
              var files := listing(reading(0).value >= hardLimit as real);
              var target := threshold as real - (if reading(0).value >= hardLimit as real then 10.0 else 5.0);
              if files.None? then r.Unreadable? else
                && r.Cleaned? && r.tried <= |files.value|
                && (forall i :: 0 <= i < r.tried ==> UsageBefore(reading, i) >= target)
                && (r.tried < |files.value| ==> UsageBefore(reading, r.tried) < target)
                && r.cleaned == |Deleted(files.value, r.tried, works)|
                && r.freed == TotalSize(Deleted(files.value, r.tried, works))
  {
    if reading(0).None? {
      return Unreadable;
    }
    var usage := reading(0).value;
    if usage < threshold as real {
      return BelowThreshold;
    }
    var target := threshold as real - 5.0;
    var emergency := usage >= hardLimit as real;
    if emergency {
      target := threshold as real - 10.0;
    }
    if listing(emergency).None? {
      return Unreadable;
    }
    var jobs := listing(emergency).value;
    var cleaned: nat, freed: nat := 0, 0;
    var i: nat := 0;
    while i < |jobs|
      invariant 0 <= i <= |jobs|
      invariant forall k :: 0 <= k < i ==> UsageBefore(reading, k) >= target
      invariant cleaned == |Deleted(jobs, i, works)|
      invariant freed == TotalSize(Deleted(jobs, i, works))
    {
      if UsageBefore(reading, i) < target {
        break;
      }
      if works(i) {
        var before := Deleted(jobs, i, works);
        assert (before + [jobs[i]])[..|before|] == before && Deleted(jobs, i + 1, works) == before + [jobs[i]];
        cleaned := cleaned + 1;
        freed := freed + jobs[i].size;
      }
      i := i + 1;
    }
    return Cleaned(i, cleaned, freed);
  }

  /** Main result: no job left alone ought to have gone before one that was tried. */
  lemma TriedFirst(jobs: seq<JobInfo>, emergency: bool, now: int, tried: nat, done: nat, left: nat)
    requires Sorted(jobs, emergency, now) && done < tried <= left < |jobs|
    ensures !Before(jobs[left], jobs[done], emergency, now)
    ensures CleanupPriority(jobs[left], emergency, now) <= CleanupPriority(jobs[done], emergency, now)
  {
    SortedThroughout(jobs, emergency, now, done, left);
  }

  /** Main result: no recently finished job is tried while an old finished one is left;
      what is recent for a completed job depends on the emergency. */
  lemma RecentJobsWait(jobs: seq<JobInfo>, emergency: bool, now: int, tried: nat, done: nat, left: nat)
    requires Sorted(jobs, emergency, now) && done < tried <= left < |jobs|
    requires InGroup(jobs[left], 2, emergency, now) || InGroup(jobs[left], 3, emergency, now)
    ensures !InGroup(jobs[done], 5, emergency, now) && !InGroup(jobs[done], 6, emergency, now)
  {
    TriedFirst(jobs, emergency, now, tried, done, left);
    var i := GroupExists(jobs[done], emergency, now);
    var j := GroupExists(jobs[left], emergency, now);
    CleaningOrder(jobs[left], jobs[done], j, i, emergency, now);
  }

  function Percent(used: int, capacity: int): real
    requires capacity > 0
  {
    used as real * 100.0 / capacity as real
  }

  /** The readings of a disk on which nothing else is written or deleted meanwhile. */
  ghost predicate ClosedDisk(jobs: seq<JobInfo>, works: nat -> bool, reading: nat -> Option<real>, used: int,
                             capacity: int)
    requires capacity > 0
  {
    forall i: nat :: i <= |jobs| ==>
      UsageBefore(reading, i) == Percent(used - TotalSize(Deleted(jobs, i, works)), capacity)
  }

  /** Main result: on such a disk a pass ends below the target or with every candidate
      tried, and it never deletes more than it needs: without its last deletion the disk
      would still be at or above the target. */
  lemma CleanupIsMinimal(jobs: seq<JobInfo>, works: nat -> bool, reading: nat -> Option<real>,
                         used: int, capacity: int, target: real, tried: nat)
    requires capacity > 0 && ClosedDisk(jobs, works, reading, used, capacity) && tried <= |jobs|
    requires forall i :: 0 <= i < tried ==> UsageBefore(reading, i) >= target
    requires tried < |jobs| ==> UsageBefore(reading, tried) < target
    ensures var gone := Deleted(jobs, tried, works);
            && (tried < |jobs| ==> Percent(used - TotalSize(gone), capacity) < target)
            && (gone != [] ==> Percent(used - TotalSize(gone[..|gone| - 1]), capacity) >= target)
  {
    LastDeletion(jobs, works, reading, used, capacity, target, tried);
  }

  lemma {:induction false} LastDeletion(jobs: seq<JobInfo>, works: nat -> bool, reading: nat -> Option<real>,
                                        used: int, capacity: int, target: real, tried: nat)
    requires capacity > 0 && ClosedDisk(jobs, works, reading, used, capacity) && tried <= |jobs|
    requires forall i :: 0 <= i < tried ==> UsageBefore(reading, i) >= target
    ensures var gone := Deleted(jobs, tried, works);
            gone != [] ==> Percent(used - TotalSize(gone[..|gone| - 1]), capacity) >= target
  {
    if tried > 0 {
      if works(tried - 1) {
        var before := Deleted(jobs, tried - 1, works);
        assert (before + [jobs[tried - 1]])[..|before|] == before;
        assert UsageBefore(reading, tried - 1) == Percent(used - TotalSize(before), capacity);
      } else {
        LastDeletion(jobs, works, reading, used, capacity, target, tried - 1);
      }
    }
  }

  /** The documented "oldest first" holds for two jobs exactly when the older one is in
      no lower priority class, in particular when they have the same status. */
  lemma OldestFirstWithinRank(older: JobInfo, younger: JobInfo, emergency: bool, now: int)
    requires older.modTime < younger.modTime
    ensures Before(older, younger, emergency, now)
       <==> CleanupPriority(older, emergency, now) >= CleanupPriority(younger, emergency, now)
    ensures older.status == younger.status ==> Before(older, younger, emergency, now)
  {}

  lemma NotOldestFirst(now: int)
    ensures var done, failed := JobInfo("a", now - 365 * DAY, 1, "completed"), JobInfo("b", now, 1, "failed");
            done.modTime < failed.modTime && Before(failed, done, false, now)
  {}
}
