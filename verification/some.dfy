/** `define_tests_some`: every registered function applied to the objects its `which`
    pattern selects. */
module Some {
  import opened Outcomes
  import opened Catalogue
  import opened Registry
  import opened Jobs
  import opened Matrix

  /** The position of the first selected id that has no promise, or `|objects|` when
      every one has. */
  function FirstUnknown(objects: seq<string>, tobj: map<string, JobId>): (k: nat)
    ensures k <= |objects|
    ensures forall j :: 0 <= j < k ==> objects[j] in tobj
    ensures k < |objects| ==> objects[k] !in tobj
  {
    if objects == [] || objects[0] !in tobj then 0
    else 1 + FirstUnknown(objects[1..], tobj)
  }

  /** The first unknown id is the one a scan from the front stops at. */
  lemma FirstUnknownAt(objects: seq<string>, tobj: map<string, JobId>, i: nat)
    requires i <= |objects|
    requires forall j :: 0 <= j < i ==> objects[j] in tobj
    requires i < |objects| ==> objects[i] !in tobj
    ensures FirstUnknown(objects, tobj) == i
  {
  }

  /** What one binding does: it fails when `which` selects nothing; otherwise it defines the
      tests of the selected objects in order, `<function>-<id>` in the object's context, and
      fails at the first selected id without a promise; when every id has one, it adds the
      `some` report over the results if reports are wanted. */
  function SomeBindingTrace(ctx: Context, spec: ObjSpec, tobj: map<string, JobId>, b: SomeBinding,
                            expand: Expander, createReports: bool): Trace
  {
    var c := ctx.Child(b.test.name);
    var objects := expand(b.which, tobj.Keys);
    var k := FirstUnknown(objects, tobj);
    if |objects| == 0 then Trace(Failed(EmptySelection(b.which)), map[])
    else if k < |objects| then Trace(Failed(UnknownFixture(objects[k])), Apps(c, b.test.name, b.dynamic, tobj, Prefix(objects, k), true))
    else Trace(Done, TestsOf(c, b.test.name, b.dynamic, tobj, Prefix(objects, k), true, spec.name, "some", createReports))
  }

  /** The steps of the bindings of `bs`, in order. */
  function SomeTraces(ctx: Context, spec: ObjSpec, tobj: map<string, JobId>, bs: seq<SomeBinding>,
                      expand: Expander, createReports: bool): seq<Trace>
  {
    seq(|bs|, k requires 0 <= k < |bs| => SomeBindingTrace(ctx, spec, tobj, bs[k], expand, createReports))
  }

  /** What `define_tests_some` does: it fails when the spec has no promise table, does
      nothing when the spec has no objects or no bindings, and otherwise runs the bindings
      in order until one fails. */
  function SomeTrace(ctx: Context, spec: ObjSpec, n2t: map<string, map<string, JobId>>, some: seq<SomeBinding>,
                     expand: Expander, createReports: bool): Trace
  {
    if spec.name !in n2t then Trace(Failed(UnknownSpec(spec.name)), map[])
    else if n2t[spec.name] == map[] || some == [] then Trace(Done, map[])
    else Chained(SomeTraces(ctx, spec, n2t[spec.name], some, expand, createReports), 0)
  }

  /** One turn of the loop of `define_tests_some`: the tests of one function. */
  method DefineSomeBinding(store: JobStore, ctx: Context, spec: ObjSpec, tobj: map<string, JobId>,
                           b: SomeBinding, expand: Expander, createReports: bool)
    returns (st: Status)
    modifies store
    ensures st == SomeBindingTrace(ctx, spec, tobj, b, expand, createReports).status
    ensures store.jobs == old(store.jobs) + SomeBindingTrace(ctx, spec, tobj, b, expand, createReports).jobs
  {
    var f := b.test.name;
    var c := ctx.Child(f);
    var objects := expand(b.which, tobj.Keys);
    if |objects| == 0 {
      assert old(store.jobs) + map[] == old(store.jobs);
      return Failed(EmptySelection(b.which));
    }
    var results: map<string, JobId> := map[];
    var i := 0;
    while i < |objects|
      invariant 0 <= i <= |objects|
      invariant forall j :: 0 <= j < i ==> objects[j] in tobj
      invariant results == Results(c, f, tobj, Prefix(objects, i), true)
      invariant store.jobs == old(store.jobs) + Apps(c, f, b.dynamic, tobj, Prefix(objects, i), true)
    {
      var x := objects[i];
      if x !in tobj {
        FirstUnknownAt(objects, tobj, i);
        return Failed(UnknownFixture(x));
      }
      var id := c.Child(x).Id(f + "-" + x);
      var job := Job(Apply(f, b.dynamic, x), {tobj[x]});
      AppsStep(c, f, b.dynamic, tobj, Prefix(objects, i), x, true);
      ResultsStep(c, f, tobj, Prefix(objects, i), x, true);
      UnionUpdate(old(store.jobs), Apps(c, f, b.dynamic, tobj, Prefix(objects, i), true), id, job);
      PrefixStep(objects, i);
      store.Define(id, job);
      results := results[x := id];
      i := i + 1;
    }
    FirstUnknownAt(objects, tobj, i);
    if createReports {
      var report := Job(ReportSingle(f, spec.name, results, "some"), results.Values);
      UnionUpdate(old(store.jobs), Apps(c, f, b.dynamic, tobj, Prefix(objects, i), true),
                  ReportId(c, "report_results_single"), report);
      store.Define(ReportId(c, "report_results_single"), report);
    }
    return Done;
  }

  /** One turn of the loop of `define_tests_some`, as a step of the chain of bindings. */
  method DefineSomeStep(store: JobStore, ctx: Context, spec: ObjSpec, tobj: map<string, JobId>,
                        bs: seq<SomeBinding>, i: nat, expand: Expander, createReports: bool,
                        ghost base: map<JobId, Job>, ghost acc: map<JobId, Job>)
    returns (st: Status, ghost acc': map<JobId, Job>)
    modifies store
    requires i < |bs|
    requires store.jobs == base + acc
    ensures store.jobs == base + acc'
    ensures var ts := SomeTraces(ctx, spec, tobj, bs, expand, createReports);
            if st.Failed? then Then(acc, Chained(ts, i)) == Trace(st, acc')
            else Then(acc, Chained(ts, i)) == Then(acc', Chained(ts, i + 1))
  {
    ghost var ts := SomeTraces(ctx, spec, tobj, bs, expand, createReports);
    assert ts[i] == SomeBindingTrace(ctx, spec, tobj, bs[i], expand, createReports);
    st := DefineSomeBinding(store, ctx, spec, tobj, bs[i], expand, createReports);
    acc' := acc + ts[i].jobs;
    UnionAssoc(base, acc, ts[i].jobs);
    ChainStep(acc, ts, i);
  }

  /** The loop of `define_tests_some` over its bindings. */
  method DefineSomeBindings(store: JobStore, ctx: Context, spec: ObjSpec, tobj: map<string, JobId>,
                            some: seq<SomeBinding>, expand: Expander, createReports: bool)
    returns (st: Status)
    modifies store
    ensures st == Chained(SomeTraces(ctx, spec, tobj, some, expand, createReports), 0).status
    ensures store.jobs == old(store.jobs) + Chained(SomeTraces(ctx, spec, tobj, some, expand, createReports), 0).jobs
  {
    ghost var base := store.jobs;
    ghost var ts := SomeTraces(ctx, spec, tobj, some, expand, createReports);
    ghost var acc: map<JobId, Job> := map[];
    assert base + map[] == base;
    assert map[] + Chained(ts, 0).jobs == Chained(ts, 0).jobs;
    var i := 0;
    while i < |some|
      invariant 0 <= i <= |some|
      invariant store.jobs == base + acc
      invariant Chained(ts, 0) == Then(acc, Chained(ts, i))
    {
      st, acc := DefineSomeStep(store, ctx, spec, tobj, some, i, expand, createReports, base, acc);
      if st.Failed? {
        return;
      }
      i := i + 1;
    }
    assert acc + map[] == acc;
    return Done;
  }

  /** `define_tests_some` */
  method DefineTestsSome(store: JobStore, ctx: Context, spec: ObjSpec, n2t: map<string, map<string, JobId>>,
                         some: seq<SomeBinding>, expand: Expander, createReports: bool)
    returns (st: Status)
    modifies store
    ensures st == SomeTrace(ctx, spec, n2t, some, expand, createReports).status
    ensures store.jobs == old(store.jobs) + SomeTrace(ctx, spec, n2t, some, expand, createReports).jobs
  {
    assert old(store.jobs) + map[] == old(store.jobs);
    if spec.name !in n2t {
      return Failed(UnknownSpec(spec.name));
    }
    var testObjects := n2t[spec.name];
    if |testObjects| == 0 {
      assert testObjects == map[];
      return Done;
    }
    if |some| == 0 {
      return Done;
    }
    st := DefineSomeBindings(store, ctx, spec, testObjects, some, expand, createReports);
  }

  /** What one binding plans. It fails with `ValueError` exactly when `which` selects
      nothing, and with `KeyError` on the first selected id that has no promise. Otherwise
      each selected id gets one test `<function>-<id>` in its own context, applying the
      function to it and depending on its instance job; `results` is keyed by exactly the
      selected ids; the report is there iff reports are wanted; and nothing else is defined. */
  lemma SomeBindingPlan(ctx: Context, spec: ObjSpec, tobj: map<string, JobId>, b: SomeBinding,
                        expand: Expander, createReports: bool)
    ensures var objects := expand(b.which, tobj.Keys);
            var t := SomeBindingTrace(ctx, spec, tobj, b, expand, createReports);
            && (t.status == Failed(EmptySelection(b.which)) <==> objects == [])
            && (t.status.Done? <==> objects != [] && forall j :: 0 <= j < |objects| ==> objects[j] in tobj)
            && (objects != [] && t.status.Failed? ==>
                  exists k :: 0 <= k < |objects| && t.status == Failed(UnknownFixture(objects[k]))
                              && objects[k] !in tobj && forall j :: 0 <= j < k ==> objects[j] in tobj)
  {
    var objects := expand(b.which, tobj.Keys);
    var k := FirstUnknown(objects, tobj);
    if objects != [] && k < |objects| {
      assert SomeBindingTrace(ctx, spec, tobj, b, expand, createReports).status == Failed(UnknownFixture(objects[k]));
    }
  }

  /** The jobs of a binding that ends normally: see `SomeBindingPlan`. */
  lemma SomeBindingJobs(ctx: Context, spec: ObjSpec, tobj: map<string, JobId>, b: SomeBinding,
                        expand: Expander, createReports: bool)
    requires SomeBindingTrace(ctx, spec, tobj, b, expand, createReports).status.Done?
    ensures var objects := expand(b.which, tobj.Keys);
            var t := SomeBindingTrace(ctx, spec, tobj, b, expand, createReports);
            var f := b.test.name;
            var c := ctx.Child(f);
            var results := Results(c, f, tobj, Prefix(objects, |objects|), true);
            && (forall x :: x in objects ==>
                  && AppId(c, f, x, true) == ctx.path + [f, x, f + "-" + x]
                  && AppId(c, f, x, true) in t.jobs
                  && t.jobs[AppId(c, f, x, true)] == Job(Apply(f, b.dynamic, x), {tobj[x]}))
            && (forall x :: x in results <==> x in objects)
            && (forall x :: x in results ==> results[x] == AppId(c, f, x, true))
            && (ReportId(c, "report_results_single") in t.jobs <==> createReports)
            && (createReports ==> t.jobs[ReportId(c, "report_results_single")]
                                  == Job(ReportSingle(f, spec.name, results, "some"), results.Values))
            && |t.jobs| == |results| + (if createReports then 1 else 0)
  {
    var objects := expand(b.which, tobj.Keys);
    var f := b.test.name;
    var selected := Prefix(objects, |objects|);
    assert FirstUnknown(objects, tobj) == |objects|;
    assert selected <= tobj.Keys;
    TestsOfPlan(ctx.Child(f), f, b.dynamic, tobj, selected, true, spec.name, "some", createReports);
    forall x | x in objects ensures x in selected && AppId(ctx.Child(f), f, x, true) == ctx.path + [f, x, f + "-" + x] {
      var j :| 0 <= j < |objects| && objects[j] == x;
      AppIdPath(ctx, f, x, true);
    }
  }

  /** A binding's selection is usable: it selects something, and only ids that have a promise. */
  predicate Selects(tobj: map<string, JobId>, objects: seq<string>)
  {
    objects != [] && forall j :: 0 <= j < |objects| ==> objects[j] in tobj
  }

  /** `define_tests_some` fails with `KeyError` on the spec exactly when it has no promise
      table; it defines nothing when the spec has no objects or no bindings; otherwise it
      ends normally exactly when every binding's selection is usable, and when it fails,
      it fails with the error of the first binding whose selection is not. */
  lemma SomeTraceFacts(ctx: Context, spec: ObjSpec, n2t: map<string, map<string, JobId>>, some: seq<SomeBinding>,
                       expand: Expander, createReports: bool)
    ensures var t := SomeTrace(ctx, spec, n2t, some, expand, createReports);
            && (t.status == Failed(UnknownSpec(spec.name)) <==> spec.name !in n2t)
            && (spec.name in n2t && (n2t[spec.name] == map[] || some == []) ==> t == Trace(Done, map[]))
            && (spec.name in n2t && n2t[spec.name] != map[] ==>
                  && (t.status.Done? <==> forall k :: 0 <= k < |some| ==> Selects(n2t[spec.name], expand(some[k].which, n2t[spec.name].Keys)))
                  && (t.status.Failed? ==>
                        exists k :: 0 <= k < |some|
                          && t.status == SomeBindingTrace(ctx, spec, n2t[spec.name], some[k], expand, createReports).status
                          && !Selects(n2t[spec.name], expand(some[k].which, n2t[spec.name].Keys))
                          && forall j :: 0 <= j < k ==> Selects(n2t[spec.name], expand(some[j].which, n2t[spec.name].Keys))))
  {
    if spec.name in n2t && n2t[spec.name] != map[] && some != [] {
      var tobj := n2t[spec.name];
      var ts := SomeTraces(ctx, spec, tobj, some, expand, createReports);
      ChainedStatus(ts, 0);
      forall k | 0 <= k < |some|
        ensures ts[k] == SomeBindingTrace(ctx, spec, tobj, some[k], expand, createReports)
        ensures ts[k].status.Done? <==> Selects(tobj, expand(some[k].which, tobj.Keys))
        ensures ts[k].status.Failed? ==> ts[k].status.error.EmptySelection? || ts[k].status.error.UnknownFixture?
      {
        SomeBindingPlan(ctx, spec, tobj, some[k], expand, createReports);
      }
    }
  }
}
