/** `jobs_registrar` and `define_tests_for`: the two dynamic stages that turn the
    registry into jobs. `jobs_registrar` defines the resolver of the object promises and
    one `define_tests_for` job per object spec; each of those, once the promises are
    known, runs the four planners for its spec in a fixed order. */
module Pipeline {
  import opened Outcomes
  import opened Catalogue
  import opened Registry
  import opened Jobs
  import opened Lex
  import opened Matrix
  import opened Single
  import opened Some
  import opened Pairs

  /** What `define_tests_for` does: it looks the spec up in the master (a `KeyError` when
      it is not there), then runs `define_tests_single`, `define_tests_pairs`,
      `define_tests_some_pairs` and `define_tests_some` in this order, the first
      exception ending the run. */
  function ForTrace(ctx: Context, cm: ConfigMaster, name: string, n2t: map<string, map<string, JobId>>,
                    pairs: seq<PairBinding>, functions: seq<SingleBinding>, some: seq<SomeBinding>,
                    somePairs: seq<SomePairsBinding>, expand: Expander, createReports: bool): Trace
  {
    if name !in cm.specs then Trace(Failed(UnknownSpec(name)), map[])
    else
      var spec := cm.specs[name];
      AndThen(SingleTrace(ctx, spec, n2t, functions, createReports),
        AndThen(PairsTrace(ctx, spec, n2t, pairs, createReports),
          AndThen(SomePairsTrace(ctx, spec, n2t, somePairs, expand, createReports),
                  SomeTrace(ctx, spec, n2t, some, expand, createReports))))
  }

  /** `define_tests_for`, run in the spec's own context with the resolved promise table. */
  method DefineTestsFor(store: JobStore, ctx: Context, cm: ConfigMaster, name: string,
                        n2t: map<string, map<string, JobId>>, pairs: seq<PairBinding>,
                        functions: seq<SingleBinding>, some: seq<SomeBinding>,
                        somePairs: seq<SomePairsBinding>, expand: Expander, createReports: bool)
    returns (st: Status)
    modifies store
    ensures st == ForTrace(ctx, cm, name, n2t, pairs, functions, some, somePairs, expand, createReports).status
    ensures store.jobs == old(store.jobs)
                          + ForTrace(ctx, cm, name, n2t, pairs, functions, some, somePairs, expand, createReports).jobs
  {
    ghost var base := store.jobs;
    if name !in cm.specs {
      assert base + map[] == base;
      return Failed(UnknownSpec(name));
    }
    var spec := cm.specs[name];
    ghost var t1 := SingleTrace(ctx, spec, n2t, functions, createReports);
    ghost var t2 := PairsTrace(ctx, spec, n2t, pairs, createReports);
    ghost var t3 := SomePairsTrace(ctx, spec, n2t, somePairs, expand, createReports);
    ghost var t4 := SomeTrace(ctx, spec, n2t, some, expand, createReports);
    st := DefineTestsSingle(store, ctx, spec, n2t, functions, createReports);
    if st.Failed? {
      return;
    }
    st := DefineTestsPairs(store, ctx, spec, n2t, pairs, createReports);
    UnionAssoc(base, t1.jobs, t2.jobs);
    if st.Failed? {
      return;
    }
    st := DefineTestsSomePairs(store, ctx, spec, n2t, somePairs, expand, createReports);
    UnionAssoc(base + t1.jobs, t2.jobs, t3.jobs);
    UnionAssoc(base, t1.jobs, t2.jobs + t3.jobs);
    if st.Failed? {
      return;
    }
    st := DefineTestsSome(store, ctx, spec, n2t, some, expand, createReports);
    UnionAssoc(base + t1.jobs + t2.jobs, t3.jobs, t4.jobs);
    UnionAssoc(base + t1.jobs, t2.jobs, t3.jobs + t4.jobs);
    UnionAssoc(base, t1.jobs, t2.jobs + (t3.jobs + t4.jobs));
  }

  /** `define_tests_for` ends normally exactly when the spec is in the master and all four
      planners do; a failure is the first failing planner's, with the jobs defined up to
      and including it; a spec without a promise table fails in `define_tests_single`
      before defining anything; and after a normal end the jobs are those of the four
      planners, a later one replacing an earlier one at the same id. */
  lemma ForTraceFacts(ctx: Context, cm: ConfigMaster, name: string, n2t: map<string, map<string, JobId>>,
                      pairs: seq<PairBinding>, functions: seq<SingleBinding>, some: seq<SomeBinding>,
                      somePairs: seq<SomePairsBinding>, expand: Expander, createReports: bool)
    ensures var t := ForTrace(ctx, cm, name, n2t, pairs, functions, some, somePairs, expand, createReports);
            && (name !in cm.specs ==> t == Trace(Failed(UnknownSpec(name)), map[]))
            && (name in cm.specs ==>
                  var spec := cm.specs[name];
                  var t1 := SingleTrace(ctx, spec, n2t, functions, createReports);
                  var t2 := PairsTrace(ctx, spec, n2t, pairs, createReports);
                  var t3 := SomePairsTrace(ctx, spec, n2t, somePairs, expand, createReports);
                  var t4 := SomeTrace(ctx, spec, n2t, some, expand, createReports);
                  && (t.status.Done? <==> t1.status.Done? && t2.status.Done? && t3.status.Done? && t4.status.Done?)
                  && (t1.status.Failed? ==> t == t1)
                  && (t1.status.Done? && t2.status.Failed? ==> t == Trace(t2.status, t1.jobs + t2.jobs))
                  && (t1.status.Done? && t2.status.Done? && t3.status.Failed? ==>
                        t == Trace(t3.status, t1.jobs + t2.jobs + t3.jobs))
                  && (t.status.Done? ==> t.jobs == t1.jobs + t2.jobs + t3.jobs + t4.jobs)
                  && (spec.name !in n2t ==> t == Trace(Failed(UnknownSpec(spec.name)), map[])))
  {
    if name in cm.specs {
      var spec := cm.specs[name];
      var t1 := SingleTrace(ctx, spec, n2t, functions, createReports);
      var t2 := PairsTrace(ctx, spec, n2t, pairs, createReports);
      var t3 := SomePairsTrace(ctx, spec, n2t, somePairs, expand, createReports);
      var t4 := SomeTrace(ctx, spec, n2t, some, expand, createReports);
      if t1.status.Done? && t2.status.Done? {
        UnionAssoc(t1.jobs, t2.jobs, t3.jobs);
        UnionAssoc(t1.jobs + t2.jobs, t3.jobs, t4.jobs);
        UnionAssoc(t2.jobs, t3.jobs, t4.jobs);
        UnionAssoc(t1.jobs, t2.jobs, t3.jobs + t4.jobs);
      }
    }
  }

  /** The id of the resolver job `jobs_registrar` defines in the master's context. */
  function ResolverId(c: Context): JobId
  {
    c.Id("get_testobjects_promises")
  }

  /** The id of the `define_tests_for` job of spec `name`, in the spec's child context. */
  function ForId(c: Context, name: string): JobId
  {
    c.Child(name).Id("define_tests_for")
  }

  /** The `define_tests_for` job of spec `name` of master `m`: its id is the context's
      path, both names and `define_tests_for`. */
  lemma ForIdPath(ctx: Context, m: string, name: string)
    ensures ForId(ctx.Child(m), name) == ctx.path + [m, name, "define_tests_for"]
  {
    assert ctx.Child(m).Child(name).path == ctx.path + [m, name];
  }

  /** Different specs get different `define_tests_for` jobs, none of them the resolver. */
  lemma ForIdInjective(c: Context)
    ensures forall a, b :: ForId(c, a) == ForId(c, b) ==> a == b
    ensures forall a :: ForId(c, a) != ResolverId(c)
  {
    forall a, b | ForId(c, a) == ForId(c, b) ensures a == b {
      assert ForId(c, a)[|c.path|] == a;
      assert ForId(c, b)[|c.path|] == b;
    }
    forall a ensures ForId(c, a) != ResolverId(c) {
      assert |ForId(c, a)| != |ResolverId(c)|;
    }
  }

  lemma ForIdApart(c: Context, a: string, b: string)
    requires a != b
    ensures ForId(c, a) != ForId(c, b)
  {
    assert ForId(c, a)[|c.path|] == a;
  }

  /** The `define_tests_for` job of spec `name`: it hands over the spec's four binding
      lists as registered and depends on the resolver's promise table. */
  function ForJob(c: Context, cm: ConfigMaster, name: string, reg: Tables, createReports: bool): Job
  {
    Job(Call.DefineTestsFor(cm.name, name, Lookup(reg.pairs, name), Lookup(reg.tests, name),
                       Lookup(reg.some, name), Lookup(reg.somePairs, name), createReports),
        {ResolverId(c)})
  }

  /** The four registry tables, as `jobs_registrar` reads them. */
  datatype Tables = Tables(tests: map<string, seq<SingleBinding>>, pairs: map<string, seq<PairBinding>>,
                           some: map<string, seq<SomeBinding>>, somePairs: map<string, seq<SomePairsBinding>>)

  /** The `define_tests_for` jobs of the first `n` spec names, defined in this order. */
  function ForJobs(c: Context, cm: ConfigMaster, names: seq<string>, n: nat, reg: Tables, createReports: bool)
    : map<JobId, Job>
    requires n <= |names|
  {
    if n == 0 then map[]
    else ForJobs(c, cm, names, n - 1, reg, createReports)[ForId(c, names[n - 1]) := ForJob(c, cm, names[n - 1], reg, createReports)]
  }

  /** What `jobs_registrar` defines: the resolver in the master's context, then one
      `define_tests_for` job per spec of the master, in sorted order of the names. */
  function RegistrarJobs(ctx: Context, cm: ConfigMaster, reg: Tables, createReports: bool): map<JobId, Job>
  {
    var c := ctx.Child(cm.name);
    var names := SortedKeys(cm.specs.Keys);
    map[ResolverId(c) := Job(GetTestObjectsPromises(cm.name), {})] + ForJobs(c, cm, names, |names|, reg, createReports)
  }

  /** The loop of `jobs_registrar` over the sorted spec names. */
  method DefineForJobs(store: JobStore, c: Context, cm: ConfigMaster, names: seq<string>, reg: Tables,
                       createReports: bool)
    modifies store
    ensures store.jobs == old(store.jobs) + ForJobs(c, cm, names, |names|, reg, createReports)
  {
    ghost var base := store.jobs;
    assert base + map[] == base;
    for i := 0 to |names|
      invariant store.jobs == base + ForJobs(c, cm, names, i, reg, createReports)
    {
      var name := names[i];
      var job := Job(Call.DefineTestsFor(cm.name, name, Lookup(reg.pairs, name), Lookup(reg.tests, name),
                                         Lookup(reg.some, name), Lookup(reg.somePairs, name), createReports),
                     {ResolverId(c)});
      UnionUpdate(base, ForJobs(c, cm, names, i, reg, createReports), ForId(c, name), job);
      store.Define(ForId(c, name), job);
    }
  }

  /** `jobs_registrar`: the resolver job, then a `define_tests_for` job for every spec,
      in sorted order of the spec names, each handed the registry's binding lists. */
  method JobsRegistrar(store: JobStore, ctx: Context, cm: ConfigMaster, reg: Registrar, createReports: bool)
    modifies store
    ensures store.jobs == old(store.jobs)
                          + RegistrarJobs(ctx, cm, Tables(reg.tests, reg.pairs, reg.some, reg.somePairs), createReports)
  {
    var c := ctx.Child(cm.name);
    var names := SortedKeys(cm.specs.Keys);
    var tables := Tables(reg.tests, reg.pairs, reg.some, reg.somePairs);
    ghost var base := store.jobs;
    var resolver := Job(GetTestObjectsPromises(cm.name), {});
    store.Define(ResolverId(c), resolver);
    UpdateIsUnion(base, ResolverId(c), resolver);
    DefineForJobs(store, c, cm, names, tables, createReports);
    UnionAssoc(base, map[ResolverId(c) := resolver], ForJobs(c, cm, names, |names|, tables, createReports));
  }

  /** The first `n` names each have their job, holding their own bindings, and no other
      job is there. */
  lemma ForJobsHas(c: Context, cm: ConfigMaster, names: seq<string>, n: nat, reg: Tables, createReports: bool)
    requires n <= |names|
    ensures forall id :: id in ForJobs(c, cm, names, n, reg, createReports) <==>
                         exists k :: 0 <= k < n && id == ForId(c, names[k])
    ensures forall k :: 0 <= k < n ==>
              ForJobs(c, cm, names, n, reg, createReports)[ForId(c, names[k])] == ForJob(c, cm, names[k], reg, createReports)
  {
    ForJobsKeys(c, cm, names, n, reg, createReports);
    ForJobsValues(c, cm, names, n, reg, createReports);
  }

  lemma {:induction false} ForJobsKeys(c: Context, cm: ConfigMaster, names: seq<string>, n: nat, reg: Tables,
                                       createReports: bool)
    requires n <= |names|
    ensures forall id :: id in ForJobs(c, cm, names, n, reg, createReports) <==>
                         exists k :: 0 <= k < n && id == ForId(c, names[k])
  {
    if n > 0 {
      var prev := ForJobs(c, cm, names, n - 1, reg, createReports);
      ForJobsKeys(c, cm, names, n - 1, reg, createReports);
      forall id
        ensures id in ForJobs(c, cm, names, n, reg, createReports) <==> exists k :: 0 <= k < n && id == ForId(c, names[k])
      {
        if id in prev {
          var k :| 0 <= k < n - 1 && id == ForId(c, names[k]);
          assert 0 <= k < n;
        }
        if exists k :: 0 <= k < n && id == ForId(c, names[k]) {
          var k :| 0 <= k < n && id == ForId(c, names[k]);
          if k < n - 1 {
            assert id in prev;
          }
        }
      }
    }
  }

  lemma {:induction false} ForJobsValues(c: Context, cm: ConfigMaster, names: seq<string>, n: nat, reg: Tables,
                                         createReports: bool)
    requires n <= |names|
    ensures forall k :: 0 <= k < n ==>
              && ForId(c, names[k]) in ForJobs(c, cm, names, n, reg, createReports)
              && ForJobs(c, cm, names, n, reg, createReports)[ForId(c, names[k])] == ForJob(c, cm, names[k], reg, createReports)
  {
    if n > 0 {
      ForJobsValues(c, cm, names, n - 1, reg, createReports);
      forall k | 0 <= k < n
        ensures && ForId(c, names[k]) in ForJobs(c, cm, names, n, reg, createReports)
                && ForJobs(c, cm, names, n, reg, createReports)[ForId(c, names[k])] == ForJob(c, cm, names[k], reg, createReports)
      {
        if names[k] != names[n - 1] {
          ForIdApart(c, names[k], names[n - 1]);
        }
      }
    }
  }


  /** Distinct names get one job each. */
  lemma {:induction false} ForJobsSize(c: Context, cm: ConfigMaster, names: seq<string>, n: nat, reg: Tables,
                                       createReports: bool)
    requires n <= |names|
    requires forall i, j :: 0 <= i < j < n ==> names[i] != names[j]
    ensures |ForJobs(c, cm, names, n, reg, createReports)| == n
  {
    if n > 0 {
      var prev := ForJobs(c, cm, names, n - 1, reg, createReports);
      ForJobsSize(c, cm, names, n - 1, reg, createReports);
      ForJobsKeys(c, cm, names, n - 1, reg, createReports);
      if ForId(c, names[n - 1]) in prev {
        var k :| 0 <= k < n - 1 && ForId(c, names[n - 1]) == ForId(c, names[k]);
        ForIdApart(c, names[k], names[n - 1]);
      }
    }
  }

  /** The jobs of a listing of the spec names: the resolver and one job per spec. */
  lemma ListingPlan(c: Context, cm: ConfigMaster, names: seq<string>, reg: Tables, createReports: bool)
    requires forall x :: x in names <==> x in cm.specs
    ensures var jobs := map[ResolverId(c) := Job(GetTestObjectsPromises(cm.name), {})]
                        + ForJobs(c, cm, names, |names|, reg, createReports);
            && ResolverId(c) in jobs && jobs[ResolverId(c)] == Job(GetTestObjectsPromises(cm.name), {})
            && (forall name :: name in cm.specs ==>
                  ForId(c, name) in jobs && jobs[ForId(c, name)] == ForJob(c, cm, name, reg, createReports))
            && (forall id :: id in jobs ==> id == ResolverId(c) || exists name :: name in cm.specs && id == ForId(c, name))
  {
    var fj := ForJobs(c, cm, names, |names|, reg, createReports);
    ForJobsHas(c, cm, names, |names|, reg, createReports);
    ForIdInjective(c);
    forall name | name in cm.specs
      ensures ForId(c, name) in fj && fj[ForId(c, name)] == ForJob(c, cm, name, reg, createReports)
    {
      var k :| 0 <= k < |names| && names[k] == name;
    }
    forall id | id in fj ensures exists name :: name in cm.specs && id == ForId(c, name) {
      var k :| 0 <= k < |names| && id == ForId(c, names[k]);
      assert names[k] in names;
    }
  }

  /** A listing of the spec names without repeats gives one job per spec, plus the resolver. */
  lemma ListingSize(c: Context, cm: ConfigMaster, names: seq<string>, reg: Tables, createReports: bool)
    requires |names| == |cm.specs|
    requires forall i, j :: 0 <= i < j < |names| ==> names[i] != names[j]
    ensures |map[ResolverId(c) := Job(GetTestObjectsPromises(cm.name), {})]
             + ForJobs(c, cm, names, |names|, reg, createReports)| == |cm.specs| + 1
  {
    ForJobsSize(c, cm, names, |names|, reg, createReports);
    ForJobsHas(c, cm, names, |names|, reg, createReports);
    ForIdInjective(c);
    assert ResolverId(c) !in ForJobs(c, cm, names, |names|, reg, createReports);
  }

  /** What `jobs_registrar` defines: the resolver, depending on nothing, and for every spec
      of the master exactly one `define_tests_for` job, under the spec's own context,
      carrying the spec's registered bindings and depending on the resolver; nothing else. */
  lemma RegistrarPlan(ctx: Context, cm: ConfigMaster, reg: Tables, createReports: bool)
    ensures var jobs := RegistrarJobs(ctx, cm, reg, createReports);
            var c := ctx.Child(cm.name);
            && ResolverId(c) == ctx.path + [cm.name, "get_testobjects_promises"]
            && ResolverId(c) in jobs && jobs[ResolverId(c)] == Job(GetTestObjectsPromises(cm.name), {})
            && (forall name :: name in cm.specs ==>
                  && ForId(c, name) == ctx.path + [cm.name, name, "define_tests_for"]
                  && ForId(c, name) in jobs
                  && jobs[ForId(c, name)].deps == {ResolverId(c)}
                  && jobs[ForId(c, name)].call
                     == Call.DefineTestsFor(cm.name, name, Lookup(reg.pairs, name), Lookup(reg.tests, name),
                                            Lookup(reg.some, name), Lookup(reg.somePairs, name), createReports))
            && (forall id :: id in jobs ==> id == ResolverId(c) || exists name :: name in cm.specs && id == ForId(c, name))
            && |jobs| == |cm.specs| + 1
  {
    var c := ctx.Child(cm.name);
    var names := SortedKeys(cm.specs.Keys);
    ListingPlan(c, cm, names, reg, createReports);
    SortedKeysDistinct(cm.specs.Keys);
    ListingSize(c, cm, names, reg, createReports);
    forall name ensures ForId(c, name) == ctx.path + [cm.name, name, "define_tests_for"] {
      ForIdPath(ctx, cm.name, name);
    }
  }
}
