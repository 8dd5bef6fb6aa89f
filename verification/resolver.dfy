/** `get_testobjects_promises*`: one instance job per test object, and the promise table. */
module Resolver {
  import opened Outcomes
  import opened Lex
  import opened Catalogue
  import opened Jobs

  /** The `job_id` asked for when instancing object `fixture` of spec `spec`. */
  function InstanceName(spec: string, fixture: string): string
  {
    spec + "-instance-" + fixture
  }

  lemma InstanceNameInjective(spec: string, a: string, b: string)
    requires InstanceName(spec, a) == InstanceName(spec, b)
    ensures a == b
  {
    var n := |spec + "-instance-"|;
    assert a == InstanceName(spec, a)[n..];
    assert b == InstanceName(spec, b)[n..];
  }

  /** `get_spec` when the spec has no instance method, `instance_object` when it has one. */
  function InstanceCall(spec: ObjSpec, fixture: string): Call
  {
    if spec.hasInstanceMethod then InstanceObject(spec.master, spec.name, fixture)
    else GetSpec(spec.master, spec.name, fixture)
  }

  function InstanceId(ctx: Context, spec: ObjSpec, fixture: string): JobId
  {
    ctx.Id(InstanceName(spec.name, fixture))
  }

  /** Different objects of a spec get different instance job ids. */
  lemma InstanceIdInjective(ctx: Context, spec: ObjSpec)
    ensures forall a, b :: InstanceId(ctx, spec, a) == InstanceId(ctx, spec, b) ==> a == b
  {
    forall a, b | InstanceId(ctx, spec, a) == InstanceId(ctx, spec, b) ensures a == b {
      assert InstanceName(spec.name, a) == InstanceId(ctx, spec, a)[|ctx.path|];
      assert InstanceName(spec.name, b) == InstanceId(ctx, spec, b)[|ctx.path|];
      InstanceNameInjective(spec.name, a, b);
    }
  }

  /** The instance jobs for the objects `xs`, by job id. */
  function InstanceJobs(ctx: Context, spec: ObjSpec, xs: set<string>): map<JobId, Job>
  {
    InstanceIdInjective(ctx, spec);
    map x | x in xs :: InstanceId(ctx, spec, x) := Job(InstanceCall(spec, x), {})
  }

  /** The promises for the objects `xs`: object id to the id of its instance job. */
  function Promised(ctx: Context, spec: ObjSpec, xs: set<string>): map<string, JobId>
  {
    map x | x in xs :: InstanceId(ctx, spec, x)
  }

  /** Every instance job of a spec. */
  function SpecJobs(ctx: Context, spec: ObjSpec): map<JobId, Job>
  {
    InstanceJobs(ctx, spec, spec.fixtures)
  }

  /** The promise table of a spec. */
  function Promises(ctx: Context, spec: ObjSpec): map<string, JobId>
  {
    Promised(ctx, spec, spec.fixtures)
  }

  /** Handling one more object adds its instance job. */
  lemma InstanceStep(ctx: Context, spec: ObjSpec, xs: set<string>, x: string)
    ensures InstanceJobs(ctx, spec, xs + {x})
         == InstanceJobs(ctx, spec, xs)[InstanceId(ctx, spec, x) := Job(InstanceCall(spec, x), {})]
  {
    InstanceIdInjective(ctx, spec);
    var a := InstanceJobs(ctx, spec, xs + {x});
    var b := InstanceJobs(ctx, spec, xs)[InstanceId(ctx, spec, x) := Job(InstanceCall(spec, x), {})];
    forall id | id in a ensures id in b && a[id] == b[id] {
      var y :| y in xs + {x} && InstanceId(ctx, spec, y) == id;
    }
    assert a.Keys == b.Keys;
  }

  /** Handling one more object adds its promise. */
  lemma PromiseStep(ctx: Context, spec: ObjSpec, xs: set<string>, x: string)
    ensures Promised(ctx, spec, xs + {x}) == Promised(ctx, spec, xs)[x := InstanceId(ctx, spec, x)]
  {
    assert Promised(ctx, spec, xs + {x}).Keys == Promised(ctx, spec, xs)[x := InstanceId(ctx, spec, x)].Keys;
  }

  /** `get_testobjects_promises_for_objspec` */
  method GetTestObjectsPromisesForObjSpec(store: JobStore, ctx: Context, spec: ObjSpec)
    returns (r: Result<map<string, JobId>>)
    modifies store
    ensures spec.fixtures == {} ==> r == Err(NoTestObjects(spec.name)) && store.jobs == old(store.jobs)
    ensures spec.fixtures != {} ==> r == Ok(Promises(ctx, spec)) && store.jobs == old(store.jobs) + SpecJobs(ctx, spec)
  {
    var objects := SortedKeys(spec.fixtures);
    if |objects| == 0 {
      return Err(NoTestObjects(spec.name));
    }
    var promises: map<string, JobId> := map[];
    ghost var done: set<string> := {};
    var i := 0;
    while i < |objects|
      invariant 0 <= i <= |objects|
      invariant done <= spec.fixtures
      invariant forall k :: 0 <= k < i ==> objects[k] in done
      invariant promises == Promised(ctx, spec, done)
      invariant store.jobs == old(store.jobs) + InstanceJobs(ctx, spec, done)
    {
      var x := objects[i];
      var id := InstanceId(ctx, spec, x);
      InstanceStep(ctx, spec, done, x);
      PromiseStep(ctx, spec, done, x);
      UnionUpdate(old(store.jobs), InstanceJobs(ctx, spec, done), id, Job(InstanceCall(spec, x), {}));
      store.Define(id, Job(InstanceCall(spec, x), {}));
      promises := promises[x := id];
      assert x in objects;
      done := done + {x};
      i := i + 1;
    }
    ListedAll(objects, spec.fixtures, done);
    return Ok(promises);
  }

  /** Each promise of a spec names the job the call defined for that object: a job that
      instances the object, depends on nothing, and whose id ends with
      `<spec>-instance-<id>`. The promises are keyed by exactly the spec's object ids. */
  lemma PromisesAreInstanceJobs(ctx: Context, spec: ObjSpec, m: map<JobId, Job>)
    ensures Promises(ctx, spec).Keys == spec.fixtures
    ensures forall x :: x in spec.fixtures ==>
      && Promises(ctx, spec)[x] in m + SpecJobs(ctx, spec)
      && (m + SpecJobs(ctx, spec))[Promises(ctx, spec)[x]] == Job(InstanceCall(spec, x), {})
      && Promises(ctx, spec)[x] == ctx.path + [spec.name + "-instance-" + x]
  {
    InstanceIdInjective(ctx, spec);
    forall x | x in spec.fixtures
      ensures (m + SpecJobs(ctx, spec))[Promises(ctx, spec)[x]] == Job(InstanceCall(spec, x), {})
    {
      assert Promises(ctx, spec)[x] in SpecJobs(ctx, spec);
    }
  }

  lemma {:induction false} InstanceJobsSize(ctx: Context, spec: ObjSpec, xs: set<string>)
    ensures |InstanceJobs(ctx, spec, xs)| == |xs|
    decreases xs
  {
    if xs != {} {
      var x :| x in xs;
      InstanceJobsSize(ctx, spec, xs - {x});
      InstanceStep(ctx, spec, xs - {x}, x);
      assert xs - {x} + {x} == xs;
      InstanceIdInjective(ctx, spec);
    }
  }

  /** Resolving a spec defines one instance job per object: the store gains exactly the
      promised ids, and grows by the number of objects when none of them existed. */
  lemma OneInstanceJobPerObject(ctx: Context, spec: ObjSpec, m: map<JobId, Job>)
    ensures |SpecJobs(ctx, spec)| == |spec.fixtures|
    ensures (m + SpecJobs(ctx, spec)).Keys == m.Keys + Promises(ctx, spec).Values
    ensures (forall x :: x in spec.fixtures ==> Promises(ctx, spec)[x] !in m) ==>
      |m + SpecJobs(ctx, spec)| == |m| + |spec.fixtures|
  {
    InstanceJobsSize(ctx, spec, spec.fixtures);
    var p := Promises(ctx, spec);
    var j := SpecJobs(ctx, spec);
    forall id | id in p.Values ensures id in j {
      var x :| x in p && p[x] == id;
    }
    forall id | id in j ensures id in p.Values {
      var x :| x in spec.fixtures && InstanceId(ctx, spec, x) == id;
      assert p[x] == id;
    }
    assert j.Keys == p.Values;
    if forall x :: x in spec.fixtures ==> p[x] !in m {
      assert m.Keys * j.Keys == {};
      assert (m + j).Keys == m.Keys + j.Keys;
    }
  }

  /** What `get_testobjects_promises` does for the names `names`, in order: it stops at the
      first spec without objects. */
  function ResolveTrace(ctx: Context, cm: ConfigMaster, names: seq<string>): Trace
    requires forall n :: n in names ==> n in cm.specs
    decreases |names|
  {
    if names == [] then Trace(Done, map[])
    else
      var spec := cm.specs[names[0]];
      if spec.fixtures == {} then Trace(Failed(NoTestObjects(spec.name)), map[])
      else Then(SpecJobs(ctx, spec), ResolveTrace(ctx, cm, names[1..]))
  }

  /** The table `get_testobjects_promises` returns: every spec name to its promises. */
  function AllPromises(ctx: Context, cm: ConfigMaster): map<string, map<string, JobId>>
  {
    map n | n in cm.specs :: Promises(ctx, cm.specs[n])
  }

  lemma ResolveStep(ctx: Context, cm: ConfigMaster, names: seq<string>, i: nat, acc: map<JobId, Job>)
    requires forall n :: n in names ==> n in cm.specs
    requires i < |names|
    requires ResolveTrace(ctx, cm, names) == Then(acc, ResolveTrace(ctx, cm, names[i..]))
    ensures cm.specs[names[i]].fixtures == {} ==>
      ResolveTrace(ctx, cm, names).status == Failed(NoTestObjects(cm.specs[names[i]].name))
      && ResolveTrace(ctx, cm, names).jobs == acc
    ensures cm.specs[names[i]].fixtures != {} ==>
      ResolveTrace(ctx, cm, names)
      == Then(acc + SpecJobs(ctx, cm.specs[names[i]]), ResolveTrace(ctx, cm, names[i + 1..]))
  {
    assert names[i..][0] == names[i];
    assert names[i..][1..] == names[i + 1..];
    if cm.specs[names[i]].fixtures == {} {
      assert acc + map[] == acc;
    } else {
      UnionAssoc(acc, SpecJobs(ctx, cm.specs[names[i]]), ResolveTrace(ctx, cm, names[i + 1..]).jobs);
    }
  }

  lemma CompleteTable(ctx: Context, cm: ConfigMaster, names: seq<string>, table: map<string, map<string, JobId>>)
    requires names == SortedKeys(cm.specs.Keys)
    requires forall k :: 0 <= k < |names| ==> names[k] in table
    requires forall n :: n in table ==> n in cm.specs && table[n] == Promises(ctx, cm.specs[n])
    ensures table == AllPromises(ctx, cm)
  {
    ListedAll(names, cm.specs.Keys, table.Keys);
    var all := AllPromises(ctx, cm);
    assert table.Keys == all.Keys;
    forall n | n in table ensures table[n] == all[n] {
    }
  }

  /** The loop of `get_testobjects_promises` over the spec names `names`, in order. */
  method ResolveNames(store: JobStore, ctx: Context, cm: ConfigMaster, names: seq<string>)
    returns (r: Result<map<string, map<string, JobId>>>)
    requires forall n :: n in names ==> n in cm.specs
    modifies store
    ensures store.jobs == old(store.jobs) + ResolveTrace(ctx, cm, names).jobs
    ensures ResolveTrace(ctx, cm, names).status.Failed? ==> r == Err(ResolveTrace(ctx, cm, names).status.error)
    ensures ResolveTrace(ctx, cm, names).status.Done? ==>
      r.Ok? && (forall k :: 0 <= k < |names| ==> names[k] in r.value)
      && (forall n :: n in r.value ==> n in cm.specs && r.value[n] == Promises(ctx, cm.specs[n]))
  {
    ghost var whole := ResolveTrace(ctx, cm, names);
    var table: map<string, map<string, JobId>> := map[];
    ghost var acc: map<JobId, Job> := map[];
    var i := 0;
    while i < |names|
      invariant 0 <= i <= |names|
      invariant whole == Then(acc, ResolveTrace(ctx, cm, names[i..]))
      invariant store.jobs == old(store.jobs) + acc
      invariant forall k :: 0 <= k < i ==> names[k] in table
      invariant forall n :: n in table ==> n in cm.specs && table[n] == Promises(ctx, cm.specs[n])
    {
      var name := names[i];
      var spec := cm.specs[name];
      ResolveStep(ctx, cm, names, i, acc);
      var its := GetTestObjectsPromisesForObjSpec(store, ctx, spec);
      if its.Err? {
        return Err(its.error);
      }
      ghost var added := SpecJobs(ctx, spec);
      assert store.jobs == (old(store.jobs) + acc) + added;
      UnionAssoc(old(store.jobs), acc, added);
      acc := acc + added;
      table := table[name := its.value];
      i := i + 1;
    }
    assert ResolveTrace(ctx, cm, names[i..]) == Trace(Done, map[]);
    assert acc + map[] == acc;
    return Ok(table);
  }

  /** `get_testobjects_promises`: the specs are resolved in the order of their sorted names. */
  method GetTestObjectsPromises(store: JobStore, ctx: Context, cm: ConfigMaster)
    returns (r: Result<map<string, map<string, JobId>>>)
    modifies store
    ensures store.jobs == old(store.jobs) + ResolveTrace(ctx, cm, SortedKeys(cm.specs.Keys)).jobs
    ensures ResolveTrace(ctx, cm, SortedKeys(cm.specs.Keys)).status.Done? ==> r == Ok(AllPromises(ctx, cm))
    ensures ResolveTrace(ctx, cm, SortedKeys(cm.specs.Keys)).status.Failed? ==>
      r == Err(ResolveTrace(ctx, cm, SortedKeys(cm.specs.Keys)).status.error)
  {
    var names := SortedKeys(cm.specs.Keys);
    r := ResolveNames(store, ctx, cm, names);
    if r.Ok? {
      CompleteTable(ctx, cm, names, r.value);
    }
  }

  /** The instance jobs of the specs `names`, defined in this order. */
  function ResolvedJobs(ctx: Context, cm: ConfigMaster, names: seq<string>): map<JobId, Job>
    requires forall n :: n in names ==> n in cm.specs
    decreases |names|
  {
    if names == [] then map[] else SpecJobs(ctx, cm.specs[names[0]]) + ResolvedJobs(ctx, cm, names[1..])
  }

  /** `get_testobjects_promises` succeeds exactly when every spec has objects; otherwise it
      fails on the first spec in order without objects. */
  lemma {:induction false} ResolveTraceStatus(ctx: Context, cm: ConfigMaster, names: seq<string>)
    requires forall n :: n in names ==> n in cm.specs
    ensures ResolveTrace(ctx, cm, names).status.Done? <==> forall n :: n in names ==> cm.specs[n].fixtures != {}
    ensures ResolveTrace(ctx, cm, names).status.Failed? ==>
      exists k :: 0 <= k < |names| && cm.specs[names[k]].fixtures == {}
                  && ResolveTrace(ctx, cm, names).status == Failed(NoTestObjects(cm.specs[names[k]].name))
                  && forall j :: 0 <= j < k ==> cm.specs[names[j]].fixtures != {}
    decreases |names|
  {
    if names != [] {
      var rest := names[1..];
      ResolveTraceStatus(ctx, cm, rest);
      assert forall n :: n in rest ==> n in names;
      assert forall n :: n in names ==> n == names[0] || n in rest;
      if cm.specs[names[0]].fixtures != {} && ResolveTrace(ctx, cm, names).status.Failed? {
        var k' :| 0 <= k' < |rest| && cm.specs[rest[k']].fixtures == {}
                  && ResolveTrace(ctx, cm, rest).status == Failed(NoTestObjects(cm.specs[rest[k']].name))
                  && forall j :: 0 <= j < k' ==> cm.specs[rest[j]].fixtures != {};
        forall j | 0 <= j < k' + 1 ensures cm.specs[names[j]].fixtures != {} {
          if j > 0 { assert names[j] == rest[j - 1]; }
        }
        assert names[k' + 1] == rest[k'];
      }
    }
  }

  /** The jobs `get_testobjects_promises` has defined when it ends: the instance jobs of
      every spec in order, or, when it fails at the first spec without objects, those of the
      specs before it, which stay defined. */
  lemma {:induction false} ResolveTraceJobs(ctx: Context, cm: ConfigMaster, names: seq<string>)
    requires forall n :: n in names ==> n in cm.specs
    ensures var k := FirstEmpty(cm, names);
            ResolveTrace(ctx, cm, names).jobs == ResolvedJobs(ctx, cm, names[..k])
    decreases |names|
  {
    if names != [] && cm.specs[names[0]].fixtures != {} {
      var rest := names[1..];
      assert forall n :: n in rest ==> n in names;
      ResolveTraceJobs(ctx, cm, rest);
      var k := FirstEmpty(cm, names);
      assert names[..k][0] == names[0];
      assert names[..k][1..] == rest[..k - 1];
    }
  }

  /** The position of the first spec in `names` without objects, or `|names|`. */
  function FirstEmpty(cm: ConfigMaster, names: seq<string>): (k: nat)
    requires forall n :: n in names ==> n in cm.specs
    ensures k <= |names|
    ensures forall j :: 0 <= j < k ==> cm.specs[names[j]].fixtures != {}
    ensures k < |names| ==> cm.specs[names[k]].fixtures == {}
    decreases |names|
  {
    if names == [] then 0
    else if cm.specs[names[0]].fixtures == {} then 0
    else
      assert forall n :: n in names[1..] ==> n in names;
      var k' := FirstEmpty(cm, names[1..]);
      assert forall j :: 1 <= j < k' + 1 ==> names[j] == names[1..][j - 1];
      k' + 1
  }
}
