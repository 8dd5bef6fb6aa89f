/** `define_tests_pairs` and `define_tests_some_pairs`: every registered function applied to
    every pair of an object of one spec with an object of another. */
module Pairs {
  import opened Outcomes
  import opened Catalogue
  import opened Registry
  import opened Jobs
  import opened Matrix

  /** The jobs of `define_tests_some_pairs_`, and of the same loop written out in
      `define_tests_pairs`: a test of every pair of an object of `objs1` with one of
      `objs2`, then, when reports are wanted, the `report_results_pairs_jobs` report over
      the pairs' job ids and the `report_results_pairs` report over their results. */
  function PairMatrixJobs(cx: Context, test: string, dynamic: bool, spec1: string, spec2: string,
                          objs1: map<string, JobId>, objs2: map<string, JobId>, createReports: bool,
                          jobsKind: string, pairsKind: string): map<JobId, Job>
  {
    var ps := Cross(objs1.Keys, objs2.Keys);
    var apps := PairApps(cx, test, dynamic, objs1, objs2, ps);
    if createReports then
      var results := PairResults(cx, objs1, objs2, ps);
      apps[ReportId(cx, "report_results_pairs_jobs") := Job(ReportPairsJobs(test, spec1, spec2, results, jobsKind), {})]
          [ReportId(cx, "report_results_pairs") := Job(ReportPairs(test, spec1, spec2, results, pairsKind), results.Values)]
    else apps
  }

  /** The loop of `define_tests_some_pairs_`: one test per pair, recorded in `results` and
      `jobs` under the pair. */
  method DefinePairTests(store: JobStore, cx: Context, test: string, dynamic: bool,
                         objs1: map<string, JobId>, objs2: map<string, JobId>)
    returns (results: map<(string, string), JobId>, jobs: map<(string, string), JobId>)
    modifies store
    ensures results == PairResults(cx, objs1, objs2, Cross(objs1.Keys, objs2.Keys)) && jobs == results
    ensures store.jobs == old(store.jobs) + PairApps(cx, test, dynamic, objs1, objs2, Cross(objs1.Keys, objs2.Keys))
  {
    var ps := Cross(objs1.Keys, objs2.Keys);
    forall p | p in ps
      ensures p.0 in objs1 && p.1 in objs2
    {
      CrossHas(objs1.Keys, objs2.Keys, p);
    }
    results, jobs := DefineEachPair(store, cx, test, dynamic, objs1, objs2, ps);
  }

  /** The pair loop over the pairs `ps`, whose objects all have a promise. */
  method DefineEachPair(store: JobStore, cx: Context, test: string, dynamic: bool,
                        objs1: map<string, JobId>, objs2: map<string, JobId>, ps: set<(string, string)>)
    returns (results: map<(string, string), JobId>, jobs: map<(string, string), JobId>)
    requires forall p :: p in ps ==> p.0 in objs1 && p.1 in objs2
    modifies store
    ensures results == PairResults(cx, objs1, objs2, ps) && jobs == results
    ensures store.jobs == old(store.jobs) + PairApps(cx, test, dynamic, objs1, objs2, ps)
  {
    results, jobs := map[], map[];
    var todo := ps;
    ghost var done: set<(string, string)> := {};
    while todo != {}
      invariant done + todo == ps
      invariant results == PairResults(cx, objs1, objs2, done) && jobs == results
      invariant store.jobs == old(store.jobs) + PairApps(cx, test, dynamic, objs1, objs2, done)
      decreases todo
    {
      var p :| p in todo;
      var id := DefinePairTest(store, cx, test, dynamic, objs1, objs2, old(store.jobs), done, p);
      PairResultsStep(cx, objs1, objs2, done, p);
      results := results[p := id];
      jobs := jobs[p := id];
      done := done + {p};
      todo := todo - {p};
    }
  }

  /** One turn of the pair loop: the test of `p`, at `f` in the pair's context. */
  method DefinePairTest(store: JobStore, cx: Context, test: string, dynamic: bool,
                        objs1: map<string, JobId>, objs2: map<string, JobId>,
                        ghost base: map<JobId, Job>, ghost done: set<(string, string)>, p: (string, string))
    returns (id: JobId)
    requires p.0 in objs1 && p.1 in objs2
    requires store.jobs == base + PairApps(cx, test, dynamic, objs1, objs2, done)
    modifies store
    ensures id == PairId(cx, p.0, p.1)
    ensures store.jobs == base + PairApps(cx, test, dynamic, objs1, objs2, done + {p})
  {
    var (x, y) := p;
    id := cx.Child(x).Child(y).Id("f");
    var job := Job(ApplyPair(test, dynamic, x, y), {objs1[x], objs2[y]});
    PairAppsStep(cx, test, dynamic, objs1, objs2, done, p);
    UnionUpdate(base, PairApps(cx, test, dynamic, objs1, objs2, done), id, job);
    store.Define(id, job);
  }

  /** `define_tests_some_pairs_`: the tests of every pair, then the two reports. */
  method DefinePairMatrix(store: JobStore, cx: Context, test: string, dynamic: bool, spec1: string, spec2: string,
                          objs1: map<string, JobId>, objs2: map<string, JobId>, createReports: bool,
                          jobsKind: string, pairsKind: string)
    modifies store
    ensures store.jobs == old(store.jobs)
                          + PairMatrixJobs(cx, test, dynamic, spec1, spec2, objs1, objs2, createReports, jobsKind, pairsKind)
  {
    var results, jobs := DefinePairTests(store, cx, test, dynamic, objs1, objs2);
    if createReports {
      ghost var apps := PairApps(cx, test, dynamic, objs1, objs2, Cross(objs1.Keys, objs2.Keys));
      var r1 := Job(ReportPairsJobs(test, spec1, spec2, jobs, jobsKind), {});
      UnionUpdate(old(store.jobs), apps, ReportId(cx, "report_results_pairs_jobs"), r1);
      store.Define(ReportId(cx, "report_results_pairs_jobs"), r1);
      var r2 := Job(ReportPairs(test, spec1, spec2, results, pairsKind), results.Values);
      UnionUpdate(old(store.jobs), apps[ReportId(cx, "report_results_pairs_jobs") := r1], ReportId(cx, "report_results_pairs"), r2);
      store.Define(ReportId(cx, "report_results_pairs"), r2);
    }
  }

  // define_tests_pairs

  /** One binding of `define_tests_pairs`: it fails when the second spec has no promise
      table, is skipped when that spec has no objects, and otherwise defines the pair matrix. */
  function PairBindingTrace(ctx: Context, spec1: ObjSpec, objs1: map<string, JobId>,
                            n2t: map<string, map<string, JobId>>, b: PairBinding, createReports: bool): Trace
  {
    if b.objspec2.name !in n2t then Trace(Failed(UnknownSpec(b.objspec2.name)), map[])
    else if n2t[b.objspec2.name] == map[] then Trace(Done, map[])
    else Trace(Done, PairMatrixJobs(ctx.Child(b.test.name), b.test.name, b.dynamic, spec1.name, b.objspec2.name,
                                    objs1, n2t[b.objspec2.name], createReports, "jobs_pairs", "pairs"))
  }

  function PairTraces(ctx: Context, spec1: ObjSpec, objs1: map<string, JobId>, n2t: map<string, map<string, JobId>>,
                      bs: seq<PairBinding>, createReports: bool): seq<Trace>
  {
    seq(|bs|, k requires 0 <= k < |bs| => PairBindingTrace(ctx, spec1, objs1, n2t, bs[k], createReports))
  }

  /** What `define_tests_pairs` does: it fails when the first spec has no promise table,
      does nothing without bindings, and otherwise runs the bindings in order until one fails. */
  function PairsTrace(ctx: Context, spec1: ObjSpec, n2t: map<string, map<string, JobId>>,
                      pairs: seq<PairBinding>, createReports: bool): Trace
  {
    if spec1.name !in n2t then Trace(Failed(UnknownSpec(spec1.name)), map[])
    else if pairs == [] then Trace(Done, map[])
    else Chained(PairTraces(ctx, spec1, n2t[spec1.name], n2t, pairs, createReports), 0)
  }

  /** One turn of the loop of `define_tests_pairs`. */
  method DefinePairBinding(store: JobStore, ctx: Context, spec1: ObjSpec, objs1: map<string, JobId>,
                           n2t: map<string, map<string, JobId>>, b: PairBinding, createReports: bool)
    returns (st: Status)
    modifies store
    ensures st == PairBindingTrace(ctx, spec1, objs1, n2t, b, createReports).status
    ensures store.jobs == old(store.jobs) + PairBindingTrace(ctx, spec1, objs1, n2t, b, createReports).jobs
  {
    assert old(store.jobs) + map[] == old(store.jobs);
    var cx := ctx.Child(b.test.name);
    if b.objspec2.name !in n2t {
      return Failed(UnknownSpec(b.objspec2.name));
    }
    var objs2 := n2t[b.objspec2.name];
    if |objs2| == 0 {
      assert objs2 == map[];
      return Done;
    }
    DefinePairMatrix(store, cx, b.test.name, b.dynamic, spec1.name, b.objspec2.name, objs1, objs2,
                     createReports, "jobs_pairs", "pairs");
    return Done;
  }

  method DefinePairsStep(store: JobStore, ctx: Context, spec1: ObjSpec, objs1: map<string, JobId>,
                         n2t: map<string, map<string, JobId>>, bs: seq<PairBinding>, i: nat, createReports: bool,
                         ghost base: map<JobId, Job>, ghost acc: map<JobId, Job>)
    returns (st: Status, ghost acc': map<JobId, Job>)
    modifies store
    requires i < |bs|
    requires store.jobs == base + acc
    ensures store.jobs == base + acc'
    ensures var ts := PairTraces(ctx, spec1, objs1, n2t, bs, createReports);
            if st.Failed? then Then(acc, Chained(ts, i)) == Trace(st, acc')
            else Then(acc, Chained(ts, i)) == Then(acc', Chained(ts, i + 1))
  {
    ghost var ts := PairTraces(ctx, spec1, objs1, n2t, bs, createReports);
    assert ts[i] == PairBindingTrace(ctx, spec1, objs1, n2t, bs[i], createReports);
    st := DefinePairBinding(store, ctx, spec1, objs1, n2t, bs[i], createReports);
    acc' := acc + ts[i].jobs;
    UnionAssoc(base, acc, ts[i].jobs);
    ChainStep(acc, ts, i);
  }

  /** The loop of `define_tests_pairs` over its bindings. */
  method DefinePairBindings(store: JobStore, ctx: Context, spec1: ObjSpec, objs1: map<string, JobId>,
                            n2t: map<string, map<string, JobId>>, pairs: seq<PairBinding>, createReports: bool)
    returns (st: Status)
    modifies store
    ensures st == Chained(PairTraces(ctx, spec1, objs1, n2t, pairs, createReports), 0).status
    ensures store.jobs == old(store.jobs) + Chained(PairTraces(ctx, spec1, objs1, n2t, pairs, createReports), 0).jobs
  {
    ghost var base := store.jobs;
    ghost var ts := PairTraces(ctx, spec1, objs1, n2t, pairs, createReports);
    ghost var acc: map<JobId, Job> := map[];
    assert base + map[] == base;
    assert map[] + Chained(ts, 0).jobs == Chained(ts, 0).jobs;
    var i := 0;
    while i < |pairs|
      invariant 0 <= i <= |pairs|
      invariant store.jobs == base + acc
      invariant Chained(ts, 0) == Then(acc, Chained(ts, i))
    {
      st, acc := DefinePairsStep(store, ctx, spec1, objs1, n2t, pairs, i, createReports, base, acc);
      if st.Failed? {
        return;
      }
      i := i + 1;
    }
    assert acc + map[] == acc;
    return Done;
  }

  /** `define_tests_pairs` */
  method DefineTestsPairs(store: JobStore, ctx: Context, spec1: ObjSpec, n2t: map<string, map<string, JobId>>,
                          pairs: seq<PairBinding>, createReports: bool)
    returns (st: Status)
    modifies store
    ensures st == PairsTrace(ctx, spec1, n2t, pairs, createReports).status
    ensures store.jobs == old(store.jobs) + PairsTrace(ctx, spec1, n2t, pairs, createReports).jobs
  {
    assert old(store.jobs) + map[] == old(store.jobs);
    if spec1.name !in n2t {
      return Failed(UnknownSpec(spec1.name));
    }
    var objs1 := n2t[spec1.name];
    if |pairs| == 0 {
      return Done;
    }
    st := DefinePairBindings(store, ctx, spec1, objs1, n2t, pairs, createReports);
  }

  // define_tests_some_pairs

  /** One binding of `define_tests_some_pairs`: it fails when either spec has no promise
      table or either `which` selects nothing; otherwise it defines the pair matrix over ALL
      the objects of both specs, whatever the selections were. */
  function SomePairsBindingTrace(ctx: Context, spec1: ObjSpec, n2t: map<string, map<string, JobId>>,
                                 b: SomePairsBinding, expand: Expander, createReports: bool): Trace
  {
    if spec1.name !in n2t then Trace(Failed(UnknownSpec(spec1.name)), map[])
    else if b.objspec2.name !in n2t then Trace(Failed(UnknownSpec(b.objspec2.name)), map[])
    else
      var all1 := n2t[spec1.name];
      var all2 := n2t[b.objspec2.name];
      if expand(b.which1, all1.Keys) == [] then Trace(Failed(EmptySelection(b.which1)), map[])
      else if expand(b.which2, all2.Keys) == [] then Trace(Failed(EmptySelection(b.which2)), map[])
      else Trace(Done, PairMatrixJobs(ctx.Child(b.test.name), b.test.name, b.dynamic, spec1.name, b.objspec2.name,
                                      all1, all2, createReports, "jobs_pairs_some", "pairs_some"))
  }

  function SomePairsTraces(ctx: Context, spec1: ObjSpec, n2t: map<string, map<string, JobId>>,
                           bs: seq<SomePairsBinding>, expand: Expander, createReports: bool): seq<Trace>
  {
    seq(|bs|, k requires 0 <= k < |bs| => SomePairsBindingTrace(ctx, spec1, n2t, bs[k], expand, createReports))
  }

  /** What `define_tests_some_pairs` does: nothing without bindings, and otherwise the
      bindings in order until one fails. */
  function SomePairsTrace(ctx: Context, spec1: ObjSpec, n2t: map<string, map<string, JobId>>,
                          somePairs: seq<SomePairsBinding>, expand: Expander, createReports: bool): Trace
  {
    if somePairs == [] then Trace(Done, map[])
    else Chained(SomePairsTraces(ctx, spec1, n2t, somePairs, expand, createReports), 0)
  }

  /** One turn of the loop of `define_tests_some_pairs`. */
  method DefineSomePairsBinding(store: JobStore, ctx: Context, spec1: ObjSpec, n2t: map<string, map<string, JobId>>,
                                b: SomePairsBinding, expand: Expander, createReports: bool)
    returns (st: Status)
    modifies store
    ensures st == SomePairsBindingTrace(ctx, spec1, n2t, b, expand, createReports).status
    ensures store.jobs == old(store.jobs) + SomePairsBindingTrace(ctx, spec1, n2t, b, expand, createReports).jobs
  {
    assert old(store.jobs) + map[] == old(store.jobs);
    if spec1.name !in n2t {
      return Failed(UnknownSpec(spec1.name));
    }
    var allobjs1 := n2t[spec1.name];
    if b.objspec2.name !in n2t {
      return Failed(UnknownSpec(b.objspec2.name));
    }
    var allobjs2 := n2t[b.objspec2.name];
    var objs1 := expand(b.which1, allobjs1.Keys);
    var objs2 := expand(b.which2, allobjs2.Keys);
    if |objs1| == 0 {
      return Failed(EmptySelection(b.which1));
    }
    if |objs2| == 0 {
      return Failed(EmptySelection(b.which2));
    }
    var cx := ctx.Child(b.test.name);
    DefinePairMatrix(store, cx, b.test.name, b.dynamic, spec1.name, b.objspec2.name, allobjs1, allobjs2,
                     createReports, "jobs_pairs_some", "pairs_some");
    return Done;
  }

  method DefineSomePairsStep(store: JobStore, ctx: Context, spec1: ObjSpec, n2t: map<string, map<string, JobId>>,
                             bs: seq<SomePairsBinding>, i: nat, expand: Expander, createReports: bool,
                             ghost base: map<JobId, Job>, ghost acc: map<JobId, Job>)
    returns (st: Status, ghost acc': map<JobId, Job>)
    modifies store
    requires i < |bs|
    requires store.jobs == base + acc
    ensures store.jobs == base + acc'
    ensures var ts := SomePairsTraces(ctx, spec1, n2t, bs, expand, createReports);
            if st.Failed? then Then(acc, Chained(ts, i)) == Trace(st, acc')
            else Then(acc, Chained(ts, i)) == Then(acc', Chained(ts, i + 1))
  {
    ghost var ts := SomePairsTraces(ctx, spec1, n2t, bs, expand, createReports);
    assert ts[i] == SomePairsBindingTrace(ctx, spec1, n2t, bs[i], expand, createReports);
    st := DefineSomePairsBinding(store, ctx, spec1, n2t, bs[i], expand, createReports);
    acc' := acc + ts[i].jobs;
    UnionAssoc(base, acc, ts[i].jobs);
    ChainStep(acc, ts, i);
  }

  /** The loop of `define_tests_some_pairs` over its bindings. */
  method DefineSomePairsBindings(store: JobStore, ctx: Context, spec1: ObjSpec, n2t: map<string, map<string, JobId>>,
                                 somePairs: seq<SomePairsBinding>, expand: Expander, createReports: bool)
    returns (st: Status)
    modifies store
    ensures st == Chained(SomePairsTraces(ctx, spec1, n2t, somePairs, expand, createReports), 0).status
    ensures store.jobs == old(store.jobs) + Chained(SomePairsTraces(ctx, spec1, n2t, somePairs, expand, createReports), 0).jobs
  {
    ghost var base := store.jobs;
    ghost var ts := SomePairsTraces(ctx, spec1, n2t, somePairs, expand, createReports);
    ghost var acc: map<JobId, Job> := map[];
    assert base + map[] == base;
    assert map[] + Chained(ts, 0).jobs == Chained(ts, 0).jobs;
    var i := 0;
    while i < |somePairs|
      invariant 0 <= i <= |somePairs|
      invariant store.jobs == base + acc
      invariant Chained(ts, 0) == Then(acc, Chained(ts, i))
    {
      st, acc := DefineSomePairsStep(store, ctx, spec1, n2t, somePairs, i, expand, createReports, base, acc);
      if st.Failed? {
        return;
      }
      i := i + 1;
    }
    assert acc + map[] == acc;
    return Done;
  }

  /** `define_tests_some_pairs` */
  method DefineTestsSomePairs(store: JobStore, ctx: Context, spec1: ObjSpec, n2t: map<string, map<string, JobId>>,
                              somePairs: seq<SomePairsBinding>, expand: Expander, createReports: bool)
    returns (st: Status)
    modifies store
    ensures st == SomePairsTrace(ctx, spec1, n2t, somePairs, expand, createReports).status
    ensures store.jobs == old(store.jobs) + SomePairsTrace(ctx, spec1, n2t, somePairs, expand, createReports).jobs
  {
    assert old(store.jobs) + map[] == old(store.jobs);
    if |somePairs| == 0 {
      return Done;
    }
    st := DefineSomePairsBindings(store, ctx, spec1, n2t, somePairs, expand, createReports);
  }

  /** The tests of a pair matrix: for every object `x` of `objs1` and `y` of `objs2` one
      test with id `<cx>/<x>/<y>/f`, applying the function to both and depending on both
      instance jobs; the `results` and `jobs` tables are keyed by exactly the cross product
      and name each pair's test. */
  lemma PairMatrixTests(cx: Context, test: string, dynamic: bool, spec1: string, spec2: string,
                        objs1: map<string, JobId>, objs2: map<string, JobId>, createReports: bool,
                        jobsKind: string, pairsKind: string)
    ensures var jobs := PairMatrixJobs(cx, test, dynamic, spec1, spec2, objs1, objs2, createReports, jobsKind, pairsKind);
            var results := PairResults(cx, objs1, objs2, Cross(objs1.Keys, objs2.Keys));
            && (forall x, y :: x in objs1 && y in objs2 ==>
                  && PairId(cx, x, y) == cx.path + [x, y, "f"]
                  && PairId(cx, x, y) in jobs
                  && jobs[PairId(cx, x, y)] == Job(ApplyPair(test, dynamic, x, y), {objs1[x], objs2[y]}))
            && (forall p :: p in results <==> p.0 in objs1 && p.1 in objs2)
            && (forall p :: p in results ==> results[p] == PairId(cx, p.0, p.1))
  {
    var ps := Cross(objs1.Keys, objs2.Keys);
    var apps := PairApps(cx, test, dynamic, objs1, objs2, ps);
    PairAppsPlan(cx, test, dynamic, objs1, objs2);
    forall x, y | x in objs1 && y in objs2
      ensures && PairId(cx, x, y) == cx.path + [x, y, "f"]
              && PairId(cx, x, y) in PairMatrixJobs(cx, test, dynamic, spec1, spec2, objs1, objs2, createReports, jobsKind, pairsKind)
              && PairMatrixJobs(cx, test, dynamic, spec1, spec2, objs1, objs2, createReports, jobsKind, pairsKind)[PairId(cx, x, y)]
                 == Job(ApplyPair(test, dynamic, x, y), {objs1[x], objs2[y]})
    {
      PairIdPath(cx, x, y);
      assert PairId(cx, x, y) in apps;
      ReportIdsApart(cx, "report_results_pairs_jobs", test, x, false, x, y);
      ReportIdsApart(cx, "report_results_pairs", test, x, false, x, y);
    }
    forall p ensures p in ps <==> p.0 in objs1 && p.1 in objs2 {
      CrossHas(objs1.Keys, objs2.Keys, p);
    }
  }

  /** The reports of a pair matrix: both are there iff reports are wanted, the first over
      the pairs' job ids and depending on nothing, the second over the results and
      depending on every test. */
  lemma PairMatrixReports(cx: Context, test: string, dynamic: bool, spec1: string, spec2: string,
                          objs1: map<string, JobId>, objs2: map<string, JobId>, createReports: bool,
                          jobsKind: string, pairsKind: string)
    ensures var jobs := PairMatrixJobs(cx, test, dynamic, spec1, spec2, objs1, objs2, createReports, jobsKind, pairsKind);
            var results := PairResults(cx, objs1, objs2, Cross(objs1.Keys, objs2.Keys));
            && (ReportId(cx, "report_results_pairs_jobs") in jobs <==> createReports)
            && (ReportId(cx, "report_results_pairs") in jobs <==> createReports)
            && (createReports ==>
                  && jobs[ReportId(cx, "report_results_pairs_jobs")] == Job(ReportPairsJobs(test, spec1, spec2, results, jobsKind), {})
                  && jobs[ReportId(cx, "report_results_pairs")] == Job(ReportPairs(test, spec1, spec2, results, pairsKind), results.Values))
  {
    PairAppsPlan(cx, test, dynamic, objs1, objs2);
    assert ReportId(cx, "report_results_pairs_jobs")[|cx.path|] != ReportId(cx, "report_results_pairs")[|cx.path|];
  }

  /** A pair matrix holds `|objs1| * |objs2|` tests, plus its two reports when they are wanted. */
  lemma PairMatrixSize(cx: Context, test: string, dynamic: bool, spec1: string, spec2: string,
                       objs1: map<string, JobId>, objs2: map<string, JobId>, createReports: bool,
                       jobsKind: string, pairsKind: string)
    ensures |PairMatrixJobs(cx, test, dynamic, spec1, spec2, objs1, objs2, createReports, jobsKind, pairsKind)|
            == |objs1| * |objs2| + (if createReports then 2 else 0)
  {
    var ps := Cross(objs1.Keys, objs2.Keys);
    var apps := PairApps(cx, test, dynamic, objs1, objs2, ps);
    var results := PairResults(cx, objs1, objs2, ps);
    var rj, rp := ReportId(cx, "report_results_pairs_jobs"), ReportId(cx, "report_results_pairs");
    PairAppsPlan(cx, test, dynamic, objs1, objs2);
    if createReports {
      assert rj[|cx.path|] != rp[|cx.path|];
      var withJobs := apps[rj := Job(ReportPairsJobs(test, spec1, spec2, results, jobsKind), {})];
      assert rj !in apps && rp !in withJobs;
    }
  }

  /** `define_tests_pairs` fails with `KeyError` on the first spec exactly when it has no
      promise table, and otherwise on the first binding whose second spec has none; without
      bindings it defines nothing. */
  lemma PairsTraceStatus(ctx: Context, spec1: ObjSpec, n2t: map<string, map<string, JobId>>,
                         pairs: seq<PairBinding>, createReports: bool)
    ensures var t := PairsTrace(ctx, spec1, n2t, pairs, createReports);
            && (spec1.name !in n2t ==> t == Trace(Failed(UnknownSpec(spec1.name)), map[]))
            && (spec1.name in n2t && pairs == [] ==> t == Trace(Done, map[]))
            && (spec1.name in n2t ==> (t.status.Done? <==> forall k :: 0 <= k < |pairs| ==> pairs[k].objspec2.name in n2t))
            && (spec1.name in n2t && t.status.Failed? ==>
                  exists k :: 0 <= k < |pairs| && t.status == Failed(UnknownSpec(pairs[k].objspec2.name))
                              && pairs[k].objspec2.name !in n2t
                              && forall j :: 0 <= j < k ==> pairs[j].objspec2.name in n2t)
  {
    if spec1.name in n2t && pairs != [] {
      var ts := PairTraces(ctx, spec1, n2t[spec1.name], n2t, pairs, createReports);
      forall k | 0 <= k < |pairs|
        ensures ts[k].status == (if pairs[k].objspec2.name in n2t then Done else Failed(UnknownSpec(pairs[k].objspec2.name)))
      {
        PairBindingStatus(ctx, spec1, n2t[spec1.name], n2t, pairs[k], createReports);
      }
      ChainedFirstUnknown(ts, pairs, n2t);
    }
  }

  /** Bindings that fail exactly on an unknown second spec: their chain fails on the first
      such binding. */
  lemma ChainedFirstUnknown(ts: seq<Trace>, pairs: seq<PairBinding>, n2t: map<string, map<string, JobId>>)
    requires |ts| == |pairs|
    requires forall k :: 0 <= k < |pairs| ==>
      ts[k].status == (if pairs[k].objspec2.name in n2t then Done else Failed(UnknownSpec(pairs[k].objspec2.name)))
    ensures Chained(ts, 0).status.Done? <==> forall k :: 0 <= k < |pairs| ==> pairs[k].objspec2.name in n2t
    ensures Chained(ts, 0).status.Failed? ==>
      exists k :: 0 <= k < |pairs| && Chained(ts, 0).status == Failed(UnknownSpec(pairs[k].objspec2.name))
                  && pairs[k].objspec2.name !in n2t
                  && forall j :: 0 <= j < k ==> pairs[j].objspec2.name in n2t
  {
    ChainedStatus(ts, 0);
    var t := Chained(ts, 0);
    if t.status.Failed? {
      var k :| 0 <= k < |ts| && t.status == ts[k].status && forall j :: 0 <= j < k ==> ts[j].status.Done?;
      assert pairs[k].objspec2.name !in n2t;
    }
  }

  /** A `define_tests_pairs` binding fails exactly when its second spec has no promise table. */
  lemma PairBindingStatus(ctx: Context, spec1: ObjSpec, objs1: map<string, JobId>,
                          n2t: map<string, map<string, JobId>>, b: PairBinding, createReports: bool)
    ensures PairBindingTrace(ctx, spec1, objs1, n2t, b, createReports).status
            == (if b.objspec2.name in n2t then Done else Failed(UnknownSpec(b.objspec2.name)))
  {
  }

  /** A binding whose second spec has no objects is skipped by the `continue`: it ends
      normally and defines nothing. */
  lemma PairBindingSkipsEmpty(ctx: Context, spec1: ObjSpec, objs1: map<string, JobId>,
                              n2t: map<string, map<string, JobId>>, b: PairBinding, createReports: bool)
    requires b.objspec2.name in n2t && n2t[b.objspec2.name] == map[]
    ensures PairBindingTrace(ctx, spec1, objs1, n2t, b, createReports) == Trace(Done, map[])
  {
  }

  /** A binding whose second spec has no objects may be taken out of the list, wherever it
      stands among the bindings that run: `define_tests_pairs` ends and defines the same. */
  lemma PairsSkipBinding(ctx: Context, spec1: ObjSpec, n2t: map<string, map<string, JobId>>,
                         pairs: seq<PairBinding>, k: nat, createReports: bool)
    requires k < |pairs| && pairs[k].objspec2.name in n2t && n2t[pairs[k].objspec2.name] == map[]
    ensures PairsTrace(ctx, spec1, n2t, pairs, createReports)
         == PairsTrace(ctx, spec1, n2t, pairs[..k] + pairs[k + 1..], createReports)
  {
    if spec1.name in n2t {
      var objs1 := n2t[spec1.name];
      var rest := pairs[..k] + pairs[k + 1..];
      var ts := PairTraces(ctx, spec1, objs1, n2t, pairs, createReports);
      var us := PairTraces(ctx, spec1, objs1, n2t, rest, createReports);
      PairBindingSkipsEmpty(ctx, spec1, objs1, n2t, pairs[k], createReports);
      DropIdle(ts, k);
      assert us == ts[..k] + ts[k + 1..] by {
        forall j | 0 <= j < |us| ensures us[j] == (ts[..k] + ts[k + 1..])[j] {
          if j < k { assert rest[j] == pairs[j]; } else { assert rest[j] == pairs[j + 1]; }
        }
      }
      if rest == [] {
        assert Chained(us, 0) == Trace(Done, map[]);
      }
    }
  }

  /** A binding whose second spec has no objects is skipped: when every second spec is
      empty, `define_tests_pairs` defines nothing and ends normally. */
  lemma PairsSkipEmpty(ctx: Context, spec1: ObjSpec, n2t: map<string, map<string, JobId>>,
                       pairs: seq<PairBinding>, createReports: bool)
    requires spec1.name in n2t
    requires forall k :: 0 <= k < |pairs| ==> pairs[k].objspec2.name in n2t && n2t[pairs[k].objspec2.name] == map[]
    ensures PairsTrace(ctx, spec1, n2t, pairs, createReports) == Trace(Done, map[])
  {
    if pairs != [] {
      var ts := PairTraces(ctx, spec1, n2t[spec1.name], n2t, pairs, createReports);
      ChainedStatus(ts, 0);
      forall k | 0 <= k < |pairs| ensures ts[k] == Trace(Done, map[]) {
        assert ts[k] == PairBindingTrace(ctx, spec1, n2t[spec1.name], n2t, pairs[k], createReports);
      }
      ChainedNothing(ts, 0);
    }
  }

  /** A `define_tests_some_pairs` binding ends normally exactly when both specs have a
      promise table and both `which` patterns select something; an empty selection raises
      `ValueError` naming its pattern. When it ends normally it tests every pair of ALL the
      objects of both specs, selected or not, `|objs1| * |objs2|` of them. */
  lemma SomePairsBindingFacts(ctx: Context, spec1: ObjSpec, n2t: map<string, map<string, JobId>>,
                              b: SomePairsBinding, expand: Expander, createReports: bool)
    ensures var t := SomePairsBindingTrace(ctx, spec1, n2t, b, expand, createReports);
            var cx := ctx.Child(b.test.name);
            && (t.status.Done? <==>
                  spec1.name in n2t && b.objspec2.name in n2t
                  && expand(b.which1, n2t[spec1.name].Keys) != [] && expand(b.which2, n2t[b.objspec2.name].Keys) != [])
            && (spec1.name in n2t && b.objspec2.name in n2t && expand(b.which1, n2t[spec1.name].Keys) == [] ==>
                  t.status == Failed(EmptySelection(b.which1)))
            && (spec1.name in n2t && b.objspec2.name in n2t && expand(b.which1, n2t[spec1.name].Keys) != []
                && expand(b.which2, n2t[b.objspec2.name].Keys) == [] ==>
                  t.status == Failed(EmptySelection(b.which2)))
            && (t.status.Done? ==>
                  && (forall x, y :: x in n2t[spec1.name] && y in n2t[b.objspec2.name] ==>
                        && PairId(cx, x, y) in t.jobs
                        && t.jobs[PairId(cx, x, y)]
                           == Job(ApplyPair(b.test.name, b.dynamic, x, y), {n2t[spec1.name][x], n2t[b.objspec2.name][y]}))
                  && |t.jobs| == |n2t[spec1.name]| * |n2t[b.objspec2.name]| + (if createReports then 2 else 0))
  {
    if SomePairsBindingTrace(ctx, spec1, n2t, b, expand, createReports).status.Done? {
      PairMatrixTests(ctx.Child(b.test.name), b.test.name, b.dynamic, spec1.name, b.objspec2.name,
                      n2t[spec1.name], n2t[b.objspec2.name], createReports, "jobs_pairs_some", "pairs_some");
      PairMatrixReports(ctx.Child(b.test.name), b.test.name, b.dynamic, spec1.name, b.objspec2.name,
                        n2t[spec1.name], n2t[b.objspec2.name], createReports, "jobs_pairs_some", "pairs_some");
      PairMatrixSize(ctx.Child(b.test.name), b.test.name, b.dynamic, spec1.name, b.objspec2.name,
                     n2t[spec1.name], n2t[b.objspec2.name], createReports, "jobs_pairs_some", "pairs_some");
    }
  }

  /** Which objects the patterns select does not change what a `define_tests_some_pairs`
      binding defines, as long as both select something. */
  lemma SomePairsIgnoresSelection(ctx: Context, spec1: ObjSpec, n2t: map<string, map<string, JobId>>,
                                  b: SomePairsBinding, expand: Expander, other: Expander, createReports: bool)
    requires spec1.name in n2t && b.objspec2.name in n2t
    requires expand(b.which1, n2t[spec1.name].Keys) != [] && expand(b.which2, n2t[b.objspec2.name].Keys) != []
    requires other(b.which1, n2t[spec1.name].Keys) != [] && other(b.which2, n2t[b.objspec2.name].Keys) != []
    ensures SomePairsBindingTrace(ctx, spec1, n2t, b, expand, createReports)
         == SomePairsBindingTrace(ctx, spec1, n2t, b, other, createReports)
  {
  }
}
