/** The shell's job list and the numbers it gives its jobs (320sh.c). */
module JobTable {
  import opened Sequences

  // ---------- job numbers ----------

  /** One more than the greatest number in use. */
  function NextId(ids: seq<int>): int {
    if ids == [] then 1 else if ids[|ids| - 1] >= NextId(ids[..|ids| - 1]) then ids[|ids| - 1] + 1 else NextId(ids[..|ids| - 1])
  }

  ghost predicate Rising(ids: seq<int>) {
    (forall i | 0 <= i < |ids| :: ids[i] > 0) && forall i, j | 0 <= i < j < |ids| :: ids[i] < ids[j]
  }

  datatype Change = Add | Remove(at: nat)

  function Apply(ids: seq<int>, c: Change): seq<int> {
    match c
    case Add => ids + [NextId(ids)]
    case Remove(at) => RemoveAt(ids, at)
  }

  function ApplyAll(ids: seq<int>, cs: seq<Change>): seq<int>
    decreases |cs|
  {
    if cs == [] then ids else ApplyAll(Apply(ids, cs[0]), cs[1..])
  }

  lemma {:induction false} NextIdIs(ids: seq<int>, n: int)
    requires n > 0 && (forall i | 0 <= i < |ids| :: ids[i] < n) && (n == 1 || n - 1 in ids)
    ensures NextId(ids) == n
  {
    NextIdAbove(ids);
  }

  lemma {:induction false} NextIdAbove(ids: seq<int>)
    ensures NextId(ids) >= 1 && (forall i | 0 <= i < |ids| :: ids[i] < NextId(ids))
    ensures NextId(ids) == 1 || NextId(ids) - 1 in ids
  {
    if ids != [] {
      NextIdAbove(ids[..|ids| - 1]);
    }
  }

  /** Over every run of additions and removals, numbers are positive and rise from the head of the
      list to its end; so no two jobs share one. */
  lemma {:induction false} NumbersRise(ids: seq<int>, cs: seq<Change>)
    requires Rising(ids)
    ensures Rising(ApplyAll(ids, cs))
    decreases |cs|
  {
    if cs != [] {
      NextIdAbove(ids);
      assert Rising(Apply(ids, cs[0]));
      NumbersRise(Apply(ids, cs[0]), cs[1..]);
    }
  }

  // ---------- the list ----------

  class Job {
    var jpid: int
    var nextJob: Job?

    constructor ()
      ensures jpid == 0 && nextJob == null
    {
      jpid, nextJob := 0, null;
    }
  }

  /** The place of job, or the length of the list if it is not there. */
  ghost function Place(jobs: seq<Job>, job: Job): (at: nat)
    ensures at <= |jobs| && (at < |jobs| ==> jobs[at] == job)
    ensures forall i | 0 <= i < at :: jobs[i] != job
  {
    if jobs == [] || jobs[0] == job then 0 else 1 + Place(jobs[1..], job)
  }

  class Jobs {
    var jobHead: Job?
    ghost var jobs: seq<Job>

    /** jobs is the chain from jobHead. */
    ghost predicate Valid()
      reads this, jobs
    {
      && (forall i, j | 0 <= i < j < |jobs| :: jobs[i] != jobs[j])
      && jobHead == (if jobs == [] then null else jobs[0])
      && (jobs != [] ==> jobs[|jobs| - 1].nextJob == null)
      && forall i | 0 <= i < |jobs| - 1 :: jobs[i].nextJob == jobs[i + 1]
    }

    ghost function Ids(): seq<int>
      reads this, jobs
    {
      seq(|jobs|, i requires 0 <= i < |jobs| reads this, jobs => jobs[i].jpid)
    }

    lemma Link(i: nat)
      requires Valid() && i < |jobs|
      ensures jobs[i].nextJob == if i == |jobs| - 1 then null else jobs[i + 1]
    {
    }

    constructor ()
      ensures Valid() && Ids() == []
    {
      jobHead, jobs := null, [];
    }

    /** The loop of assignJid: a turn either raises counter to the current job's number or goes on
        to the next job. */
    method GreatestJid() returns (counter: int)
      requires Valid() && forall i | 0 <= i < |jobs| :: jobs[i].jpid > 0
      ensures counter + 1 == NextId(Ids())
      ensures (forall job <- jobs :: job.jpid <= counter) && (counter == 0 || exists job <- jobs :: job.jpid == counter)
    {
      var tempJob := jobHead;
      counter := if tempJob != null then tempJob.jpid else 0;
      ghost var i := 0;
      while tempJob != null
        invariant 0 <= i <= |jobs| && tempJob == (if i == |jobs| then null else jobs[i])
        invariant forall j | 0 <= j < i :: jobs[j].jpid <= counter
        invariant if jobs == [] then counter == 0 else exists j | 0 <= j < |jobs| :: jobs[j].jpid == counter
        decreases |jobs| - i, tempJob != null && counter < tempJob.jpid
      {
        if counter < tempJob.jpid {
          counter := tempJob.jpid;
          continue;
        }
        Link(i);
        tempJob := tempJob.nextJob;
        i := i + 1;
      }
      if jobs != [] {
        var j :| 0 <= j < |jobs| && jobs[j].jpid == counter;
        assert Ids()[j] == counter;
      }
      NextIdIs(Ids(), counter + 1);
    }

    method AssignJid(newJob: Job)
      requires Valid() && newJob !in jobs && Rising(Ids())
      modifies newJob
      ensures newJob.jpid == NextId(Ids()) && newJob.nextJob == old(newJob.nextJob)
      ensures (forall job <- jobs :: job.jpid < newJob.jpid) && (newJob.jpid == 1 || exists job <- jobs :: job.jpid + 1 == newJob.jpid)
    {
      forall i | 0 <= i < |jobs| ensures jobs[i].jpid > 0 {
        assert jobs[i].jpid == Ids()[i];
      }
      var counter := GreatestJid();
      newJob.jpid := counter + 1;
    }

    method LastJob() returns (tempJob: Job)
      requires Valid() && jobHead != null
      ensures jobs != [] && tempJob == jobs[|jobs| - 1]
    {
      tempJob := jobHead;
      ghost var i := 0;
      Link(0);
      while tempJob.nextJob != null
        invariant 0 <= i < |jobs| && tempJob == jobs[i]
        invariant tempJob.nextJob == if i == |jobs| - 1 then null else jobs[i + 1]
        decreases |jobs| - i
      {
        tempJob := tempJob.nextJob;
        i := i + 1;
        Link(i);
      }
    }

    method AppendJob(newJob: Job)
      requires Valid() && newJob !in jobs && newJob.nextJob == null
      modifies this, jobs, newJob`nextJob
      ensures Valid() && jobs == old(jobs) + [newJob]
      ensures forall job <- jobs :: job.jpid == old(job.jpid)
    {
      if jobHead == null {
        jobHead := newJob;
      } else {
        var tempJob := LastJob();
        tempJob.nextJob := newJob;
      }
      jobs := jobs + [newJob];
    }

    /** addJobToList */
    method AddJobToList(newJob: Job)
      requires Valid() && newJob !in jobs && newJob.nextJob == null && Rising(Ids())
      modifies this, jobs, newJob
      ensures Valid() && jobs == old(jobs) + [newJob]
      ensures Ids() == Apply(old(Ids()), Add) && Rising(Ids())
      ensures forall job <- old(jobs) :: job.jpid == old(job.jpid) < newJob.jpid
      ensures newJob.jpid == 1 || exists job <- old(jobs) :: job.jpid + 1 == newJob.jpid
    {
      ghost var ids := Ids();
      newJob.jpid := 0;
      AssignJid(newJob);
      AppendJob(newJob);
      AddedIds(ids, Ids());
    }

    /** The job before the given one, or null. */
    method JobBefore(job: Job) returns (tempJob: Job?)
      requires Valid() && jobHead != job
      ensures var at := Place(jobs, job); tempJob == if 0 < at < |jobs| then jobs[at - 1] else null
    {
      tempJob := jobHead;
      ghost var i := 0;
      while tempJob != null
        invariant 0 <= i <= |jobs| && tempJob == (if i == |jobs| then null else jobs[i])
        invariant i < |jobs| ==> i < Place(jobs, job)
        invariant i == |jobs| ==> Place(jobs, job) == |jobs|
        decreases |jobs| - i
      {
        Link(i);
        if tempJob.nextJob == job {
          return;
        }
        tempJob := tempJob.nextJob;
        i := i + 1;
      }
    }

    /** tempJob.nextJob := job.nextJob, or the head's way of it. */
    method Unlink(tempJob: Job?, job: Job, ghost at: nat)
      requires Valid() && at < |jobs| && job == jobs[at] && tempJob == if at == 0 then null else jobs[at - 1]
      modifies this, jobs
      ensures Valid() && jobs == RemoveAt(old(jobs), at)
      ensures forall i | 0 <= i < |jobs| :: jobs[i].jpid == old(Ids())[if i < at then i else i + 1]
      ensures forall other <- old(jobs) :: other.jpid == old(other.jpid)
    {
      Link(at);
      if tempJob == null {
        jobHead := job.nextJob;
      } else {
        tempJob.nextJob := job.nextJob;
      }
      jobs := RemoveAt(jobs, at);
    }

    /** A job goes when the last of its processes has ended; one that is not in the list changes nothing. */
    method CheckAndRemoveFinalProcess(job: Job, isLast: bool)
      requires Valid() && Rising(Ids())
      modifies this, jobs
      ensures var at := if isLast then Place(old(jobs), job) else |old(jobs)|;
              jobs == RemoveAt(old(jobs), at) && Ids() == Apply(old(Ids()), Remove(at))
      ensures Valid() && Rising(Ids())
      ensures forall other <- old(jobs) :: if isLast && other == job then other !in jobs else other in jobs && other.jpid == old(other.jpid)
      ensures forall other <- jobs :: other in old(jobs)
    {
      if !isLast {
        return;
      }
      ghost var ids, at := Ids(), Place(jobs, job);
      OthersStay(jobs, job);
      if jobHead == job {
        Unlink(null, job, at);
      } else {
        var tempJob := JobBefore(job);
        if tempJob == null {
          return;
        }
        Unlink(tempJob, job, at);
      }
      RemovedIds(ids, Ids(), at);
    }
  }

  lemma OthersStay(jobs: seq<Job>, job: Job)
    requires forall i, j | 0 <= i < j < |jobs| :: jobs[i] != jobs[j]
    ensures var rest := RemoveAt(jobs, Place(jobs, job));
      && (forall other <- jobs :: if other == job then other !in rest else other in rest)
      && forall other <- rest :: other in jobs
  {
    var at := Place(jobs, job);
    var rest := RemoveAt(jobs, at);
    forall other | other in jobs && other != job ensures other in rest {
      var i :| 0 <= i < |jobs| && jobs[i] == other;
      if at < |jobs| {
        assert rest[if i < at then i else i - 1] == other;
      }
    }
  }

  lemma AddedIds(ids: seq<int>, more: seq<int>)
    requires Rising(ids) && |more| == |ids| + 1 && more[|ids|] == NextId(ids)
    requires forall i | 0 <= i < |ids| :: more[i] == ids[i]
    ensures more == Apply(ids, Add) && Rising(more)
  {
    NextIdAbove(ids);
  }

  lemma RemovedIds(ids: seq<int>, rest: seq<int>, at: nat)
    requires Rising(ids) && |rest| == |RemoveAt(ids, at)|
    requires forall i | 0 <= i < |rest| :: rest[i] == ids[if i < at then i else i + 1]
    ensures rest == Apply(ids, Remove(at)) && Rising(rest)
  {
  }
}
