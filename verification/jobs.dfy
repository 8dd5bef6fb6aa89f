/** The job engine, reduced to what the planner relies on: contexts that prefix job
    ids, and a store that records each defined job with its call and dependencies. */
module Jobs {
  import opened Outcomes
  import opened Registry

  /** A job id, kept as the context names it was defined under followed by its own id. */
  type JobId = seq<string>

  /** A job context; `child(name)` extends the prefix of every job defined through it. */
  datatype Context = Context(path: seq<string>) {
    function Child(name: string): Context
    {
      Context(path + [name])
    }

    /** The id of a job defined in this context with `job_id=local`. */
    function Id(local: string): JobId
    {
      path + [local]
    }
  }

  /** What a job computes: the function the source hands to the engine, with its arguments. */
  datatype Call =
    | GetSpec(master: string, spec: string, fixture: string)
    | InstanceObject(master: string, spec: string, fixture: string)
    | Apply(test: string, dynamic: bool, fixture: string)
    | ApplyPair(test: string, dynamic: bool, fixture1: string, fixture2: string)
    | ReportSingle(test: string, spec: string, results: map<string, JobId>, kind: string)
    | ReportPairs(test: string, spec1: string, spec2: string, pairResults: map<(string, string), JobId>, kind: string)
    | ReportPairsJobs(test: string, spec1: string, spec2: string, pairJobs: map<(string, string), JobId>, kind: string)
    | GetTestObjectsPromises(master: string)
    | DefineTestsFor(master: string, spec: string, pairs: seq<PairBinding>, functions: seq<SingleBinding>,
                     some: seq<SomeBinding>, somePairs: seq<SomePairsBinding>, createReports: bool)

  /** A defined job: its call and the jobs whose results it takes as arguments. */
  datatype Job = Job(call: Call, deps: set<JobId>)

  /** How a planning step ends, and the jobs it defined before ending, by id. */
  datatype Trace = Trace(status: Status, jobs: map<JobId, Job>)

  /** The jobs `a` defined first, then whatever `t` does; a later definition of an id
      replaces an earlier one. */
  function Then(a: map<JobId, Job>, t: Trace): Trace
  {
    Trace(t.status, a + t.jobs)
  }

  /** Step `t`, and when it ends normally, step `u` after it; a failure stops the plan. */
  function AndThen(t: Trace, u: Trace): Trace
  {
    if t.status.Failed? then t else Then(t.jobs, u)
  }

  /** The maps `ms[0]`, ..., `ms[n - 1]` defined in this order: a later one replaces an
      earlier one at the same id. */
  function Stacked(ms: seq<map<JobId, Job>>, n: nat): map<JobId, Job>
    requires n <= |ms|
  {
    if n == 0 then map[] else Stacked(ms, n - 1) + ms[n - 1]
  }

  /** The steps `ts[i]`, `ts[i + 1]`, ... run in order until one of them fails. */
  function Chained(ts: seq<Trace>, i: nat): Trace
    requires i <= |ts|
    decreases |ts| - i
  {
    if i == |ts| then Trace(Done, map[]) else AndThen(ts[i], Chained(ts, i + 1))
  }

  /** A chain ends normally exactly when every step does; when it fails, it fails with the
      error of a step that every earlier step got past. */
  lemma {:induction false} ChainedStatus(ts: seq<Trace>, i: nat)
    requires i <= |ts|
    ensures Chained(ts, i).status.Done? <==> forall k :: i <= k < |ts| ==> ts[k].status.Done?
    ensures Chained(ts, i).status.Failed? ==>
      exists k :: i <= k < |ts| && Chained(ts, i).status == ts[k].status && forall j :: i <= j < k ==> ts[j].status.Done?
    decreases |ts| - i
  {
    if i < |ts| {
      ChainedStatus(ts, i + 1);
      if ts[i].status.Done? && Chained(ts, i + 1).status.Failed? {
        var k :| i + 1 <= k < |ts| && Chained(ts, i + 1).status == ts[k].status
                 && forall j :: i + 1 <= j < k ==> ts[j].status.Done?;
        assert forall j :: i <= j < k ==> ts[j].status.Done?;
      }
    }
  }

  /** A chain of steps that define nothing defines nothing. */
  lemma {:induction false} ChainedNothing(ts: seq<Trace>, i: nat)
    requires i <= |ts|
    requires forall k :: i <= k < |ts| ==> ts[k].jobs == map[]
    ensures Chained(ts, i).jobs == map[]
    decreases |ts| - i
  {
    if i < |ts| {
      ChainedNothing(ts, i + 1);
      assert map[] + Chained(ts, i + 1).jobs == map[];
    }
  }

  /** A step that ends normally and defines nothing can be left out of a chain. */
  lemma DropIdle(ts: seq<Trace>, k: nat)
    requires k < |ts| && ts[k] == Trace(Done, map[])
    ensures Chained(ts, 0) == Chained(ts[..k] + ts[k + 1..], 0)
  {
    DropIdleBefore(ts, k, 0);
  }

  lemma {:induction false} DropIdleBefore(ts: seq<Trace>, k: nat, i: nat)
    requires k < |ts| && ts[k] == Trace(Done, map[]) && i <= k
    ensures Chained(ts, i) == Chained(ts[..k] + ts[k + 1..], i)
    decreases k - i
  {
    var us := ts[..k] + ts[k + 1..];
    if i == k {
      DropIdleAfter(ts, k, k);
      assert map[] + Chained(ts, k + 1).jobs == Chained(ts, k + 1).jobs;
    } else {
      DropIdleBefore(ts, k, i + 1);
      assert us[i] == ts[i];
    }
  }

  lemma {:induction false} DropIdleAfter(ts: seq<Trace>, k: nat, j: nat)
    requires k < |ts| && k <= j <= |ts| - 1
    ensures Chained(ts[..k] + ts[k + 1..], j) == Chained(ts, j + 1)
    decreases |ts| - j
  {
    var us := ts[..k] + ts[k + 1..];
    if j < |us| {
      DropIdleAfter(ts, k, j + 1);
      assert us[j] == ts[j + 1];
    }
  }

  /** Running step `i` of a chain after the jobs `acc`: a failure ends the chain with the
      step's jobs added, a success hands over to the next step. */
  lemma ChainStep(acc: map<JobId, Job>, ts: seq<Trace>, i: nat)
    requires i < |ts|
    ensures ts[i].status.Failed? ==> Then(acc, Chained(ts, i)) == Trace(ts[i].status, acc + ts[i].jobs)
    ensures ts[i].status.Done? ==> Then(acc, Chained(ts, i)) == Then(acc + ts[i].jobs, Chained(ts, i + 1))
  {
    UnionAssoc(acc, ts[i].jobs, Chained(ts, i + 1).jobs);
  }

  /** Defining `a`, then `b`, then `c` is defining `a`, then `b` and `c` together. */
  lemma UnionAssoc(a: map<JobId, Job>, b: map<JobId, Job>, c: map<JobId, Job>)
    ensures (a + b) + c == a + (b + c)
  {
    assert ((a + b) + c).Keys == (a + (b + c)).Keys;
  }

  /** Defining one more job after `m + a` is adding it to `a`. */
  lemma UnionUpdate(m: map<JobId, Job>, a: map<JobId, Job>, id: JobId, job: Job)
    ensures (m + a)[id := job] == m + a[id := job]
  {
    assert (m + a)[id := job].Keys == (m + a[id := job]).Keys;
  }

  /** Defining one job is adding a one-job map. */
  lemma UpdateIsUnion(m: map<JobId, Job>, id: JobId, job: Job)
    ensures m[id := job] == m + map[id := job]
  {
    assert m[id := job].Keys == (m + map[id := job]).Keys;
  }

  /** The engine's job database: every job defined so far. */
  class JobStore {
    var jobs: map<JobId, Job>

    constructor ()
      ensures jobs == map[]
    {
      jobs := map[];
    }

    /** `comp`/`comp_config`/`comp_dynamic`: define a job, replacing one with the same id. */
    method Define(id: JobId, job: Job)
      modifies this
      ensures jobs == old(jobs)[id := job]
    {
      jobs := jobs[id := job];
    }
  }
}
