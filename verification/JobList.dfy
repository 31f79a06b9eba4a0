/** The print spooler's doubly linked list of pending jobs, and its job numbers. */
module JobList {
  import opened Common

  /** struct job. */
  class Job {
    const jobid: int
    var prev: Job?
    var next: Job?

    constructor (jobid: int)
      ensures this.jobid == jobid && next == null
    {
      this.jobid := jobid;
      next := null;
    }
  }

  lemma Apart(jobs: seq<Job>, i: nat, j: nat)
    requires Distinct(jobs) && i < |jobs| && j < |jobs| && i != j
    ensures jobs[i] != jobs[j]
  {
  }

  lemma DistinctLess(jobs: seq<Job>, i: nat)
    requires Distinct(jobs) && i < |jobs|
    ensures Distinct(jobs[..i] + jobs[i + 1..]) && jobs[i] !in jobs[..i] + jobs[i + 1..]
  {
  }

  lemma DistinctMore(jobs: seq<Job>, jp: Job)
    requires Distinct(jobs) && jp !in jobs
    ensures Distinct(jobs + [jp]) && Distinct([jp] + jobs)
  {
  }

  ghost function Before(jobs: seq<Job>, i: nat): Job?
    requires i < |jobs|
  {
    if i == 0 then null else jobs[i - 1]
  }

  ghost function After(jobs: seq<Job>, i: nat): Job?
    requires i < |jobs|
  {
    if i == |jobs| - 1 then null else jobs[i + 1]
  }

  /** The job's pointers lead to its neighbours. */
  ghost predicate LinkedAt(jobs: seq<Job>, i: nat)
    requires i < |jobs|
    reads jobs[i]
  {
    jobs[i].prev == Before(jobs, i) && jobs[i].next == After(jobs, i)
  }

  /** jobhead, jobtail and the nodes between them; jobs is the sequence they stand for. */
  class Pending {
    var jobhead: Job?
    var jobtail: Job?
    ghost var jobs: seq<Job>

    ghost predicate Valid()
      reads this, jobs
    {
      && Distinct(jobs)
      && (jobs == [] ==> jobhead == null && jobtail == null)
      && (jobs != [] ==> jobhead == jobs[0] && jobtail == jobs[|jobs| - 1])
      && (forall i :: 0 <= i < |jobs| ==> LinkedAt(jobs, i))
    }

    constructor ()
      ensures Valid() && jobs == []
    {
      jobhead, jobtail, jobs := null, null, [];
    }

    /** add_job: the new job goes to the tail. */
    method AddJob(jobid: int) returns (jp: Job)
      requires Valid()
      modifies this, jobs
      ensures Valid() && fresh(jp) && jp.jobid == jobid
      ensures jobs == old(jobs) + [jp]
    {
      hide Distinct;
      ghost var was := jobs;
      jp := new Job(jobid);
      jp.prev := jobtail;
      if jobtail == null {
        jobhead := jp;
      } else {
        jobtail.next := jp;
      }
      jobtail := jp;
      jobs := jobs + [jp];
      DistinctMore(was, jp);
      forall k | 0 <= k < |jobs|
        ensures LinkedAt(jobs, k)
      {
        if k < |was| {
          assert old(LinkedAt(was, k));
          if k != |was| - 1 { Apart(was, k, |was| - 1); }
        }
      }
    }

    /** replace_job: a job that was taken goes back to the head. */
    method ReplaceJob(jp: Job)
      requires Valid() && jp !in jobs
      modifies this, jobs, jp
      ensures Valid() && jobs == [jp] + old(jobs)
    {
      hide Distinct;
      ghost var was := jobs;
      jp.prev := null;
      jp.next := jobhead;
      if jobhead == null {
        jobtail := jp;
      } else {
        jobhead.prev := jp;
      }
      jobhead := jp;
      jobs := [jp] + jobs;
      DistinctMore(was, jp);
      forall k | 0 <= k < |jobs|
        ensures LinkedAt(jobs, k)
      {
        if k > 0 {
          assert jobs[k] == was[k - 1];
          assert old(LinkedAt(was, k - 1));
          if k > 1 { Apart(was, k - 1, 0); }
        }
      }
    }

    /** remove_job: the job goes, wherever it is; the others keep their order. */
    method RemoveJob(target: Job, ghost i: nat)
      requires Valid() && i < |jobs| && jobs[i] == target
      modifies this, jobs
      ensures Valid() && jobs == old(jobs)[..i] + old(jobs)[i + 1..] && target !in jobs
    {
      hide Distinct;
      ghost var was: seq<Job> := jobs;
      assert LinkedAt(was, i);
      if target.next != null {
        target.next.prev := target.prev;
      } else {
        jobtail := target.prev;
      }
      if target.prev != null {
        target.prev.next := target.next;
      } else {
        jobhead := target.next;
      }
      jobs := jobs[..i] + jobs[i + 1..];
      DistinctLess(was, i);
      forall k | 0 <= k < |jobs|
        ensures LinkedAt(jobs, k)
      {
        ghost var w := if k < i then k else k + 1;
        assert jobs[k] == was[w];
        assert old(LinkedAt(was, w));
        if i + 1 < |was| && w != i + 1 { Apart(was, w, i + 1); }
        if i > 0 && w != i - 1 { Apart(was, w, i - 1); }
      }
    }

    /** The printer thread's take: the head, if there is one. */
    method TakeHead() returns (jp: Job?)
      requires Valid()
      modifies this, jobs
      ensures Valid()
      ensures jp == null <==> old(jobs) == []
      ensures jp == null ==> jobs == []
      ensures jp != null ==> old(jobs) == [jp] + jobs && jp !in jobs
    {
      jp := jobhead;
      if jp != null {
        RemoveJob(jp, 0);
      }
    }
  }

  // ---------------------------------------------------------------- job numbers

  const LONG_MAX: int := 0x7fff_ffff_ffff_ffff
  const LONG_MIN: int := -0x8000_0000_0000_0000

  function Increment(n: int): int {
    if n == LONG_MAX then LONG_MIN else n + 1
  }

  class Counter {
    var nextjob: int

    /** get_newjobno, under the lock: the numbers stay positive through the overflow. */
    method GetNewJobno() returns (jobid: int)
      requires 1 <= nextjob <= LONG_MAX
      modifies this
      ensures jobid == old(nextjob) && nextjob == Numbered(old(nextjob), 1)
      ensures nextjob == if old(nextjob) == 0x7fff_ffff_ffff_ffff then 1 else old(nextjob) + 1
      ensures 1 <= nextjob <= LONG_MAX
    {
      jobid := nextjob;
      nextjob := Increment(nextjob);
      if nextjob <= 0 {
        nextjob := 1;
      }
    }
  }

  /** The number k jobs after n: once round all the positive longs. */
  function Numbered(n: int, k: nat): int
    requires 1 <= n <= LONG_MAX
  {
    (n - 1 + k) % LONG_MAX + 1
  }

  /** Numbered is the counter, step after step. */
  lemma NumberedStep(n: int, k: nat)
    requires 1 <= n <= LONG_MAX
    ensures 1 <= Numbered(n, k) <= LONG_MAX
    ensures Numbered(n, k + 1) == if Increment(Numbered(n, k)) <= 0 then 1 else Increment(Numbered(n, k))
  {
    var a := n - 1 + k;
    assert a == a / LONG_MAX * LONG_MAX + a % LONG_MAX;
    if a % LONG_MAX == LONG_MAX - 1 {
      assert a + 1 == (a / LONG_MAX + 1) * LONG_MAX;
      assert (a + 1) % LONG_MAX == 0;
    } else {
      assert a + 1 == a / LONG_MAX * LONG_MAX + (a % LONG_MAX + 1);
      assert (a + 1) % LONG_MAX == a % LONG_MAX + 1;
    }
  }

  /** No number comes twice within as many jobs as there are positive longs. */
  lemma NumbersDiffer(n: int, j: nat, k: nat)
    requires 1 <= n <= LONG_MAX && j < k < j + LONG_MAX
    ensures Numbered(n, j) != Numbered(n, k)
  {
  }
}
