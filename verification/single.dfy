/** `define_tests_single`: every registered function applied to every object of one spec. */
module Single {
  import opened Outcomes
  import opened Catalogue
  import opened Registry
  import opened Jobs
  import opened Matrix

  /** The jobs one binding defines, in the function's context: one test per object, then
      the `single` report over the results when reports are wanted. */
  function SingleBindingJobs(ctx: Context, spec: ObjSpec, tobj: map<string, JobId>, b: SingleBinding,
                             createReports: bool): map<JobId, Job>
  {
    TestsOf(ctx.Child(b.test.name), b.test.name, b.dynamic, tobj, tobj.Keys, false, spec.name, "single", createReports)
  }

  /** The jobs of each binding of `fs`, in order. */
  function BindingsJobs(ctx: Context, spec: ObjSpec, tobj: map<string, JobId>, fs: seq<SingleBinding>,
                        createReports: bool): seq<map<JobId, Job>>
  {
    seq(|fs|, k requires 0 <= k < |fs| => SingleBindingJobs(ctx, spec, tobj, fs[k], createReports))
  }

  /** The first `n` bindings of `fs` handled in order; a later definition replaces an earlier
      one with the same id. */
  function SingleJobs(ctx: Context, spec: ObjSpec, tobj: map<string, JobId>, fs: seq<SingleBinding>,
                      n: nat, createReports: bool): map<JobId, Job>
    requires n <= |fs|
  {
    Stacked(BindingsJobs(ctx, spec, tobj, fs, createReports), n)
  }

  /** What `define_tests_single` does: it fails when the spec has no promise table, does
      nothing when the spec has no objects, and otherwise handles every binding. */
  function SingleTrace(ctx: Context, spec: ObjSpec, n2t: map<string, map<string, JobId>>,
                       functions: seq<SingleBinding>, createReports: bool): Trace
  {
    if spec.name !in n2t then Trace(Failed(UnknownSpec(spec.name)), map[])
    else if n2t[spec.name] == map[] then Trace(Done, map[])
    else Trace(Done, SingleJobs(ctx, spec, n2t[spec.name], functions, |functions|, createReports))
  }

  /** One turn of the loop of `define_tests_single`: the tests of one function. */
  method DefineSingleBinding(store: JobStore, ctx: Context, spec: ObjSpec, tobj: map<string, JobId>,
                             b: SingleBinding, createReports: bool)
    modifies store
    ensures store.jobs == old(store.jobs) + SingleBindingJobs(ctx, spec, tobj, b, createReports)
  {
    var f := b.test.name;
    var c := ctx.Child(f);
    var results: map<string, JobId> := map[];
    var todo := tobj.Keys;
    ghost var done: set<string> := {};
    while todo != {}
      invariant done + todo == tobj.Keys
      invariant results == Results(c, f, tobj, done, false)
      invariant store.jobs == old(store.jobs) + Apps(c, f, b.dynamic, tobj, done, false)
      decreases todo
    {
      var x :| x in todo;
      var cc := c.Child(x);
      var job := Job(Apply(f, b.dynamic, x), {tobj[x]});
      AppsStep(c, f, b.dynamic, tobj, done, x, false);
      ResultsStep(c, f, tobj, done, x, false);
      UnionUpdate(old(store.jobs), Apps(c, f, b.dynamic, tobj, done, false), cc.Id("f"), job);
      store.Define(cc.Id("f"), job);
      results := results[x := cc.Id("f")];
      done := done + {x};
      todo := todo - {x};
    }
    assert done == tobj.Keys;
    if createReports {
      var report := Job(ReportSingle(f, spec.name, results, "single"), results.Values);
      UnionUpdate(old(store.jobs), Apps(c, f, b.dynamic, tobj, done, false), ReportId(c, "report_results_single"), report);
      store.Define(ReportId(c, "report_results_single"), report);
    }
  }

  /** One turn of the loop of `define_tests_single`: binding `i` extends the jobs of the
      bindings before it. */
  method DefineSingleStep(store: JobStore, ctx: Context, spec: ObjSpec, tobj: map<string, JobId>,
                          functions: seq<SingleBinding>, i: nat, createReports: bool, ghost base: map<JobId, Job>)
    modifies store
    requires i < |functions|
    requires store.jobs == base + SingleJobs(ctx, spec, tobj, functions, i, createReports)
    ensures store.jobs == base + SingleJobs(ctx, spec, tobj, functions, i + 1, createReports)
  {
    DefineSingleBinding(store, ctx, spec, tobj, functions[i], createReports);
    assert BindingsJobs(ctx, spec, tobj, functions, createReports)[i] == SingleBindingJobs(ctx, spec, tobj, functions[i], createReports);
    UnionAssoc(base, SingleJobs(ctx, spec, tobj, functions, i, createReports),
               SingleBindingJobs(ctx, spec, tobj, functions[i], createReports));
  }

  /** `define_tests_single` */
  method DefineTestsSingle(store: JobStore, ctx: Context, spec: ObjSpec, n2t: map<string, map<string, JobId>>,
                           functions: seq<SingleBinding>, createReports: bool)
    returns (st: Status)
    modifies store
    ensures st == SingleTrace(ctx, spec, n2t, functions, createReports).status
    ensures store.jobs == old(store.jobs) + SingleTrace(ctx, spec, n2t, functions, createReports).jobs
  {
    ghost var base := store.jobs;
    assert base + map[] == base;
    if spec.name !in n2t {
      return Failed(UnknownSpec(spec.name));
    }
    var testObjects := n2t[spec.name];
    if |testObjects| == 0 {
      assert testObjects == map[];
      return Done;
    }
    var i := 0;
    while i < |functions|
      invariant 0 <= i <= |functions|
      invariant store.jobs == base + SingleJobs(ctx, spec, testObjects, functions, i, createReports)
    {
      DefineSingleStep(store, ctx, spec, testObjects, functions, i, createReports, base);
      i := i + 1;
    }
    return Done;
  }

  /** The id of the test of function `f` on object `x`: `<ctx>/<f>/<x>/f`. */
  function TestId(ctx: Context, f: string, x: string): JobId
  {
    AppId(ctx.Child(f), f, x, false)
  }

  lemma TestIdInjective(ctx: Context)
    ensures forall f, g, x, y :: TestId(ctx, f, x) == TestId(ctx, g, y) ==> f == g && x == y
  {
    forall f, g, x, y | TestId(ctx, f, x) == TestId(ctx, g, y) ensures f == g && x == y {
      assert TestId(ctx, f, x)[|ctx.path|] == f && TestId(ctx, f, x)[|ctx.path| + 1] == x;
      assert TestId(ctx, g, y)[|ctx.path|] == g && TestId(ctx, g, y)[|ctx.path| + 1] == y;
    }
  }

  /** Every job stored under a test id applies that function to that object and depends on
      exactly the object's instance job. */
  ghost predicate Wired(jobs: map<JobId, Job>, ctx: Context, tobj: map<string, JobId>)
  {
    forall f, x :: TestId(ctx, f, x) in jobs ==>
      && x in tobj
      && jobs[TestId(ctx, f, x)].call.Apply?
      && jobs[TestId(ctx, f, x)].call.test == f
      && jobs[TestId(ctx, f, x)].call.fixture == x
      && jobs[TestId(ctx, f, x)].deps == {tobj[x]}
  }

  /** `jobs` holds a test of `f` for every test object. */
  ghost predicate Covers(jobs: map<JobId, Job>, ctx: Context, f: string, tobj: map<string, JobId>)
  {
    forall x :: x in tobj ==> TestId(ctx, f, x) in jobs
  }

  /** One binding tests its function on every test object, and every test it defines is
      wired to the instance job of its object. */
  lemma BindingWired(ctx: Context, spec: ObjSpec, tobj: map<string, JobId>, b: SingleBinding, createReports: bool)
    ensures Wired(SingleBindingJobs(ctx, spec, tobj, b, createReports), ctx, tobj)
    ensures Covers(SingleBindingJobs(ctx, spec, tobj, b, createReports), ctx, b.test.name, tobj)
  {
    var c := ctx.Child(b.test.name);
    var jobs := SingleBindingJobs(ctx, spec, tobj, b, createReports);
    var apps := Apps(c, b.test.name, b.dynamic, tobj, tobj.Keys, false);
    TestIdInjective(ctx);
    forall f, x | TestId(ctx, f, x) in jobs
      ensures x in tobj && jobs[TestId(ctx, f, x)] == Job(Apply(f, b.dynamic, x), {tobj[x]})
    {
      assert |ReportId(c, "report_results_single")| != |TestId(ctx, f, x)|;
      assert TestId(ctx, f, x) in apps && jobs[TestId(ctx, f, x)] == apps[TestId(ctx, f, x)];
      var y :| y in tobj.Keys && y in tobj && AppId(c, b.test.name, y, false) == TestId(ctx, f, x);
      assert TestId(ctx, b.test.name, y) == TestId(ctx, f, x);
      assert f == b.test.name && x == y;
      AppsHas(c, b.test.name, b.dynamic, tobj, tobj.Keys, y, false);
    }
    forall x | x in tobj ensures TestId(ctx, b.test.name, x) in jobs {
      AppsHas(c, b.test.name, b.dynamic, tobj, tobj.Keys, x, false);
    }
  }

  /** What one binding plans: one test per test object, with id `<ctx>/<f>/<x>/f`,
      applying `f` to the object and depending on its instance job; the `results` table is
      keyed by exactly the test objects and names each object's test; the report over it is
      there iff reports are wanted; and nothing else is defined. */
  lemma SingleBindingPlan(ctx: Context, spec: ObjSpec, tobj: map<string, JobId>, b: SingleBinding, createReports: bool)
    ensures var f := b.test.name;
            var c := ctx.Child(f);
            var jobs := SingleBindingJobs(ctx, spec, tobj, b, createReports);
            var results := Results(c, f, tobj, tobj.Keys, false);
            && (forall x :: x in tobj ==>
                  && TestId(ctx, f, x) == ctx.path + [f, x, "f"]
                  && TestId(ctx, f, x) in jobs
                  && jobs[TestId(ctx, f, x)] == Job(Apply(f, b.dynamic, x), {tobj[x]}))
            && results.Keys == tobj.Keys
            && (forall x :: x in tobj ==> results[x] == TestId(ctx, f, x))
            && (ReportId(c, "report_results_single") in jobs <==> createReports)
            && (createReports ==> jobs[ReportId(c, "report_results_single")]
                                  == Job(ReportSingle(f, spec.name, results, "single"), results.Values))
            && |jobs| == |tobj| + (if createReports then 1 else 0)
  {
    var f := b.test.name;
    TestsOfPlan(ctx.Child(f), f, b.dynamic, tobj, tobj.Keys, false, spec.name, "single", createReports);
    forall x | x in tobj ensures TestId(ctx, f, x) == ctx.path + [f, x, "f"] {
      AppIdPath(ctx, f, x, false);
    }
  }

  lemma WiredUnion(a: map<JobId, Job>, b: map<JobId, Job>, ctx: Context, tobj: map<string, JobId>)
    requires Wired(a, ctx, tobj) && Wired(b, ctx, tobj)
    ensures Wired(a + b, ctx, tobj)
  {
    forall f, x | TestId(ctx, f, x) in a + b
      ensures x in tobj && (a + b)[TestId(ctx, f, x)].call.Apply? && (a + b)[TestId(ctx, f, x)].call.test == f
           && (a + b)[TestId(ctx, f, x)].call.fixture == x && (a + b)[TestId(ctx, f, x)].deps == {tobj[x]}
    {
      if TestId(ctx, f, x) in b {
        assert (a + b)[TestId(ctx, f, x)] == b[TestId(ctx, f, x)];
      } else {
        assert (a + b)[TestId(ctx, f, x)] == a[TestId(ctx, f, x)];
      }
    }
  }

  lemma CoversUnion(a: map<JobId, Job>, b: map<JobId, Job>, ctx: Context, f: string, tobj: map<string, JobId>)
    requires Covers(a, ctx, f, tobj) || Covers(b, ctx, f, tobj)
    ensures Covers(a + b, ctx, f, tobj)
  {
  }

  /** Stacking maps that are each wired and each cover a function yields a map that is
      wired and covers all of those functions. */
  lemma {:induction false} StackedWired(ms: seq<map<JobId, Job>>, names: seq<string>, n: nat,
                                        ctx: Context, tobj: map<string, JobId>)
    requires n <= |ms| == |names|
    requires forall k :: 0 <= k < |ms| ==> Wired(ms[k], ctx, tobj) && Covers(ms[k], ctx, names[k], tobj)
    ensures Wired(Stacked(ms, n), ctx, tobj)
    ensures forall k :: 0 <= k < n ==> Covers(Stacked(ms, n), ctx, names[k], tobj)
  {
    if n > 0 {
      StackedWired(ms, names, n - 1, ctx, tobj);
      WiredUnion(Stacked(ms, n - 1), ms[n - 1], ctx, tobj);
      forall k | 0 <= k < n ensures Covers(Stacked(ms, n - 1) + ms[n - 1], ctx, names[k], tobj) {
        CoversUnion(Stacked(ms, n - 1), ms[n - 1], ctx, names[k], tobj);
      }
    }
  }

  /** After every binding, each registered function has a test of every test object, and
      every test is wired to its object's instance job. */
  lemma SingleJobsWired(ctx: Context, spec: ObjSpec, tobj: map<string, JobId>,
                        fs: seq<SingleBinding>, createReports: bool)
    ensures Wired(SingleJobs(ctx, spec, tobj, fs, |fs|, createReports), ctx, tobj)
    ensures forall k :: 0 <= k < |fs| ==> Covers(SingleJobs(ctx, spec, tobj, fs, |fs|, createReports), ctx, fs[k].test.name, tobj)
  {
    var ms := BindingsJobs(ctx, spec, tobj, fs, createReports);
    var names := seq(|fs|, k requires 0 <= k < |fs| => fs[k].test.name);
    forall k | 0 <= k < |ms| ensures Wired(ms[k], ctx, tobj) && Covers(ms[k], ctx, names[k], tobj) {
      BindingWired(ctx, spec, tobj, fs[k], createReports);
    }
    StackedWired(ms, names, |ms|, ctx, tobj);
    forall k | 0 <= k < |fs| ensures Covers(Stacked(ms, |ms|), ctx, fs[k].test.name, tobj) {
      assert names[k] == fs[k].test.name;
    }
  }

  /** `define_tests_single` fails exactly when the spec has no promise table; with no test
      objects or no functions it defines nothing; otherwise every function gets a test of
      every object, wired to that object's instance job. */
  lemma SingleTraceFacts(ctx: Context, spec: ObjSpec, n2t: map<string, map<string, JobId>>,
                         functions: seq<SingleBinding>, createReports: bool)
    ensures var t := SingleTrace(ctx, spec, n2t, functions, createReports);
            && (t.status.Failed? <==> spec.name !in n2t)
            && (t.status.Failed? ==> t.status == Failed(UnknownSpec(spec.name)) && t.jobs == map[])
            && (spec.name in n2t && (n2t[spec.name] == map[] || functions == []) ==> t.jobs == map[])
            && (spec.name in n2t ==>
                  && Wired(t.jobs, ctx, n2t[spec.name])
                  && forall k :: 0 <= k < |functions| ==> Covers(t.jobs, ctx, functions[k].test.name, n2t[spec.name]))
  {
    if spec.name in n2t && n2t[spec.name] != map[] {
      SingleJobsWired(ctx, spec, n2t[spec.name], functions, createReports);
    }
  }
}
