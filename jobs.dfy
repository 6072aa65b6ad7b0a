/** The job system: `DoThreaded` records a job and starts its thread, and
    every frame `Update` walks the job list from the back, firing the callback
    of each job whose thread has finished and removing it.

    A thread's liveness is the job's `state`: `Running` while `IsAlive`, and
    `Finished(result)` once the thread has stored the work's result. The
    thread finishing is the environment step `Complete`. The callbacks are
    opaque: firing one appends a `Call` to the `invoked` log. */
module Jobs {

  datatype JobState<R> = Running | Finished(result: R)

  /** `methodToThread`, `onJobFinish`, and how far the thread has got. */
  datatype Job<R, C> = Job(work: () -> R, onJobFinish: C, state: JobState<R>)

  /** `onJobFinish(result)`. */
  datatype Call<R, C> = Call(onJobFinish: C, result: R)

  /** The jobs still running, in list order. */
  function Unfinished<R, C>(jobs: seq<Job<R, C>>): (r: seq<Job<R, C>>)
    ensures |r| <= |jobs|
    ensures forall j :: 0 <= j < |r| ==> r[j].state.Running? && r[j] in jobs
  {
    if jobs == [] then []
    else (if jobs[0].state.Running? then [jobs[0]] else []) + Unfinished(jobs[1..])
  }

  /** The callbacks of the finished jobs, with their results, in list order. */
  function FinishedCalls<R, C>(jobs: seq<Job<R, C>>): seq<Call<R, C>>
  {
    if jobs == [] then []
    else
      (if jobs[0].state.Finished? then [Call(jobs[0].onJobFinish, jobs[0].state.result)] else []) +
      FinishedCalls(jobs[1..])
  }

  /** The same callbacks in the order a walk from the back of the list fires
      them. */
  function BackwardCalls<R, C>(jobs: seq<Job<R, C>>): seq<Call<R, C>>
  {
    if jobs == [] then []
    else
      BackwardCalls(jobs[1..]) +
      (if jobs[0].state.Finished? then [Call(jobs[0].onJobFinish, jobs[0].state.result)] else [])
  }

  function Reverse<T>(s: seq<T>): (r: seq<T>)
    ensures |r| == |s|
  {
    if s == [] then [] else Reverse(s[1..]) + [s[0]]
  }

  lemma {:induction false} ReverseAppend<T>(a: seq<T>, b: seq<T>)
    ensures Reverse(a + b) == Reverse(b) + Reverse(a)
  {
    if a == [] {
      assert a + b == b;
    } else {
      assert (a + b)[1..] == a[1..] + b;
      ReverseAppend(a[1..], b);
    }
  }

  /** The backward walk fires the finished jobs' callbacks last-added first. */
  lemma {:induction false} BackwardIsReversed<R, C>(jobs: seq<Job<R, C>>)
    ensures BackwardCalls(jobs) == Reverse(FinishedCalls(jobs))
  {
    if jobs != [] {
      var head := if jobs[0].state.Finished? then [Call(jobs[0].onJobFinish, jobs[0].state.result)] else [];
      BackwardIsReversed(jobs[1..]);
      ReverseAppend(head, FinishedCalls(jobs[1..]));
      assert Reverse(head) == head;
    }
  }

  /** The positions of the finished jobs in the list. */
  function FinishedIndices<R, C>(jobs: seq<Job<R, C>>): set<nat>
  {
    set k: nat | k < |jobs| && jobs[k].state.Finished?
  }

  /** Every job is either kept or fired, exactly once: a job survives exactly
      when it is still running, one call fires per finished job, and the
      survivors and the calls together account for the whole list. */
  lemma {:induction false} EachJobOnce<R, C>(jobs: seq<Job<R, C>>)
    ensures forall k :: 0 <= k < |jobs| ==> (jobs[k] in Unfinished(jobs) <==> jobs[k].state.Running?)
    ensures |FinishedCalls(jobs)| == |FinishedIndices(jobs)|
    ensures |Unfinished(jobs)| + |FinishedCalls(jobs)| == |jobs|
    ensures |BackwardCalls(jobs)| == |FinishedCalls(jobs)|
  {
    forall k | 0 <= k < |jobs|
      ensures jobs[k] in Unfinished(jobs) <==> jobs[k].state.Running?
    {
      KeptIffRunning(jobs, k);
    }
    FinishedCount(jobs);
    SurvivorsAndCalls(jobs);
  }

  lemma {:induction false} SurvivorsAndCalls<R, C>(jobs: seq<Job<R, C>>)
    ensures |Unfinished(jobs)| + |FinishedCalls(jobs)| == |jobs|
    ensures |BackwardCalls(jobs)| == |FinishedCalls(jobs)|
  {
    if jobs != [] {
      SurvivorsAndCalls(jobs[1..]);
    }
  }

  /** Job `k` is among the survivors exactly when it is still running. */
  lemma KeptIffRunning<R, C>(jobs: seq<Job<R, C>>, k: nat)
    requires k < |jobs|
    ensures jobs[k] in Unfinished(jobs) <==> jobs[k].state.Running?
  {
    if jobs[k].state.Running? {
      assert jobs == jobs[..k] + jobs[k..];
      UnfinishedAppend(jobs[..k], jobs[k..]);
      assert jobs[k..][0] == jobs[k];
    }
  }

  /** One call per finished job. */
  lemma {:induction false} FinishedCount<R, C>(jobs: seq<Job<R, C>>)
    ensures |FinishedCalls(jobs)| == |FinishedIndices(jobs)|
  {
    if jobs != [] {
      var p, last := jobs[..|jobs| - 1], jobs[|jobs| - 1];
      assert jobs == p + [last];
      FinishedCallsAppend(p, [last]);
      FinishedCount(p);
      assert forall k :: 0 <= k < |p| ==> jobs[k] == p[k];
      if last.state.Finished? {
        assert FinishedIndices(jobs) == FinishedIndices(p) + {|p|};
      } else {
        assert FinishedIndices(jobs) == FinishedIndices(p);
      }
    }
  }

  lemma {:induction false} FinishedCallsAppend<R, C>(a: seq<Job<R, C>>, b: seq<Job<R, C>>)
    ensures FinishedCalls(a + b) == FinishedCalls(a) + FinishedCalls(b)
  {
    if a == [] {
      assert a + b == b;
    } else {
      assert (a + b)[1..] == a[1..] + b;
      FinishedCallsAppend(a[1..], b);
    }
  }

  /** Every finished job's callback is among the calls, with its result. */
  lemma {:induction false} FinishedJobFires<R, C>(jobs: seq<Job<R, C>>, k: nat)
    requires k < |jobs| && jobs[k].state.Finished?
    ensures Call(jobs[k].onJobFinish, jobs[k].state.result) in FinishedCalls(jobs)
  {
    if k > 0 {
      assert jobs[1..][k - 1] == jobs[k];
      FinishedJobFires(jobs[1..], k - 1);
    }
  }

  /** Filtering distributes over concatenation, so survivors keep their
      relative order. */
  lemma {:induction false} UnfinishedAppend<R, C>(a: seq<Job<R, C>>, b: seq<Job<R, C>>)
    ensures Unfinished(a + b) == Unfinished(a) + Unfinished(b)
  {
    if a == [] {
      assert a + b == b;
    } else {
      assert (a + b)[1..] == a[1..] + b;
      UnfinishedAppend(a[1..], b);
    }
  }

  /** With no finished job the list is kept whole and nothing fires. */
  lemma {:induction false} NothingFinished<R, C>(jobs: seq<Job<R, C>>)
    requires forall j :: 0 <= j < |jobs| ==> jobs[j].state.Running?
    ensures Unfinished(jobs) == jobs && BackwardCalls(jobs) == []
  {
    if jobs != [] {
      NothingFinished(jobs[1..]);
    }
  }

  /** One step of the backward walk over the list `jobs`, whose jobs after
      `i` have been walked, leaving `current`: a running job `i` stays in front
      of the survivors; a finished one is cut out and its call follows the
      calls already made. */
  lemma WalkStep<R, C>(jobs: seq<Job<R, C>>, i: nat, current: seq<Job<R, C>>)
    requires i < |jobs| && current == jobs[..i + 1] + Unfinished(jobs[i + 1..])
    ensures i < |current| && current[i] == jobs[i]
    ensures jobs[i].state.Running? ==> current == jobs[..i] + Unfinished(jobs[i..])
    ensures jobs[i].state.Finished? ==> current[..i] + current[i + 1..] == jobs[..i] + Unfinished(jobs[i..])
    ensures BackwardCalls(jobs[i..]) == BackwardCalls(jobs[i + 1..]) +
              (if jobs[i].state.Finished? then [Call(jobs[i].onJobFinish, jobs[i].state.result)] else [])
  {
    assert jobs[i..][1..] == jobs[i + 1..];
    assert jobs[..i + 1] == jobs[..i] + [jobs[i]];
    assert current[..i] == jobs[..i];
    assert current[i + 1..] == Unfinished(jobs[i + 1..]);
  }

  class JobSystem<R, C> {
    var currentJobs: seq<Job<R, C>>
    /** The callbacks fired so far, in order. */
    var invoked: seq<Call<R, C>>

    constructor ()
      ensures currentJobs == [] && invoked == []
    {
      currentJobs := [];
      invoked := [];
    }

    /** Records a new running job at the end of the list. */
    method DoThreaded(methodToThread: () -> R, onJobFinish: C)
      modifies this
      ensures currentJobs == old(currentJobs) + [Job(methodToThread, onJobFinish, Running)]
      ensures invoked == old(invoked)
    {
      var newJob := Job(methodToThread, onJobFinish, Running);
      currentJobs := currentJobs + [newJob];
    }

    /** The thread of job `i` runs its work to the end and stores the result. */
    method Complete(i: nat)
      requires i < |currentJobs| && currentJobs[i].state.Running?
      modifies this
      ensures currentJobs == old(currentJobs[i := currentJobs[i].(state := Finished(currentJobs[i].work()))])
      ensures invoked == old(invoked)
    {
      var job := currentJobs[i];
      currentJobs := currentJobs[i := job.(state := Finished(job.work()))];
    }

    /** Walks the list from the back; each job whose thread has finished has
        its callback fired with its result and is removed. */
    method Update()
      modifies this
      ensures currentJobs == Unfinished(old(currentJobs))
      ensures invoked == old(invoked) + BackwardCalls(old(currentJobs))
    {
      ghost var jobs := currentJobs;
      var i := |currentJobs| - 1;
      while i >= 0
        invariant -1 <= i < |jobs|
        invariant currentJobs == jobs[..i + 1] + Unfinished(jobs[i + 1..])
        invariant invoked == old(invoked) + BackwardCalls(jobs[i + 1..])
      {
        Visit(i, jobs, old(invoked));
        i := i - 1;
      }
    }

    /** The body of `Update`'s loop at index `i`: the jobs after `i` have
        been walked already, those up to `i` are as they were. */
    method Visit(i: nat, ghost jobs: seq<Job<R, C>>, ghost before: seq<Call<R, C>>)
      requires i < |jobs|
      requires currentJobs == jobs[..i + 1] + Unfinished(jobs[i + 1..])
      requires invoked == before + BackwardCalls(jobs[i + 1..])
      modifies this
      ensures currentJobs == jobs[..i] + Unfinished(jobs[i..])
      ensures invoked == before + BackwardCalls(jobs[i..])
    {
      WalkStep(jobs, i, currentJobs);
      if !currentJobs[i].state.Running? {
        var job := currentJobs[i];
        invoked := invoked + [Call(job.onJobFinish, job.state.result)];
        currentJobs := currentJobs[..i] + currentJobs[i + 1..];
      }
    }
  }
}
