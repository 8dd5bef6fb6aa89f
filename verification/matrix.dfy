/** The jobs a test matrix consists of: one application job per object (or pair of
    objects), the `results` table that maps each object to its job, and the report jobs. */
module Matrix {
  import opened Jobs

  /** `expand_string(which, ids)`: the ids a `which` pattern selects among `ids`. The
      expansion itself is not part of this model; any function of this shape will do. */
  type Expander = (string, set<string>) -> seq<string>

  /** The first `n` entries of a list, as a set. */
  function Prefix<T>(xs: seq<T>, n: nat): set<T>
    requires n <= |xs|
  {
    set k | 0 <= k < n :: xs[k]
  }

  lemma PrefixStep<T>(xs: seq<T>, n: nat)
    requires n < |xs|
    ensures Prefix(xs, n + 1) == Prefix(xs, n) + {xs[n]}
  {
    assert xs[n] in Prefix(xs, n + 1);
  }

  /** The `job_id` of the test of object `x`: `f` for the tests of every object,
      `<function>-<x>` for the tests of selected objects. */
  function LocalId(test: string, x: string, tagged: bool): string
  {
    if tagged then test + "-" + x else "f"
  }

  /** The test of object `x` is defined in the child context `x` of the function's context `c`. */
  function AppId(c: Context, test: string, x: string, tagged: bool): JobId
  {
    c.Child(x).Id(LocalId(test, x, tagged))
  }

  /** The test of the pair `(a, b)` is defined in the context `c.child(a).child(b)` with `job_id='f'`. */
  function PairId(c: Context, a: string, b: string): JobId
  {
    c.Child(a).Child(b).Id("f")
  }

  /** A report defined in `c` by a command: its id is the command's name under `c`. */
  function ReportId(c: Context, command: string): JobId
  {
    c.Id(command)
  }

  /** The test of `x` under the function context `ctx.child(test)`: its id is the context's
      path, the function's name, the object's id and the local `job_id`, in that order. */
  lemma AppIdPath(ctx: Context, test: string, x: string, tagged: bool)
    ensures AppId(ctx.Child(test), test, x, tagged) == ctx.path + [test, x, LocalId(test, x, tagged)]
  {
    assert ctx.Child(test).Child(x).path == ctx.path + [test, x];
  }

  /** The test of the pair `(x, y)`: its id is the context's path, both object ids and `f`. */
  lemma PairIdPath(c: Context, x: string, y: string)
    ensures PairId(c, x, y) == c.path + [x, y, "f"]
  {
    assert c.Child(x).Child(y).path == c.path + [x, y];
  }

  /** Different objects get different test jobs. */
  lemma AppIdInjective(c: Context, test: string, tagged: bool)
    ensures forall a, b :: AppId(c, test, a, tagged) == AppId(c, test, b, tagged) ==> a == b
  {
    forall a, b | AppId(c, test, a, tagged) == AppId(c, test, b, tagged) ensures a == b {
      assert AppId(c, test, a, tagged)[|c.path|] == a;
      assert AppId(c, test, b, tagged)[|c.path|] == b;
    }
  }

  /** Different pairs get different test jobs. */
  lemma PairIdInjective(c: Context)
    ensures forall p: (string, string), q: (string, string) :: PairId(c, p.0, p.1) == PairId(c, q.0, q.1) ==> p == q
  {
    forall p: (string, string), q: (string, string) | PairId(c, p.0, p.1) == PairId(c, q.0, q.1)
      ensures p == q
    {
      assert PairId(c, p.0, p.1)[|c.path|] == p.0 && PairId(c, p.0, p.1)[|c.path| + 1] == p.1;
      assert PairId(c, q.0, q.1)[|c.path|] == q.0 && PairId(c, q.0, q.1)[|c.path| + 1] == q.1;
    }
  }

  /** A report id is never the id of a test job defined under the same context. */
  lemma ReportIdsApart(c: Context, command: string, test: string, x: string, tagged: bool, a: string, b: string)
    ensures ReportId(c, command) != AppId(c, test, x, tagged)
    ensures ReportId(c, command) != PairId(c, a, b)
  {
    assert |ReportId(c, command)| < |AppId(c, test, x, tagged)| < |PairId(c, a, b)|;
  }

  /** The test jobs for the objects of `xs` that have a promise in `tobj`: each applies the
      test to the object and depends on the object's instance job. */
  function Apps(c: Context, test: string, dynamic: bool, tobj: map<string, JobId>, xs: set<string>, tagged: bool)
    : map<JobId, Job>
  {
    AppIdInjective(c, test, tagged);
    map x | x in xs && x in tobj :: AppId(c, test, x, tagged) := Job(Apply(test, dynamic, x), {tobj[x]})
  }

  /** The `results` table built alongside: object id to the id of its test job. */
  function Results(c: Context, test: string, tobj: map<string, JobId>, xs: set<string>, tagged: bool)
    : map<string, JobId>
  {
    map x | x in xs && x in tobj :: AppId(c, test, x, tagged)
  }

  lemma AppsStep(c: Context, test: string, dynamic: bool, tobj: map<string, JobId>, xs: set<string>,
                 x: string, tagged: bool)
    requires x in tobj
    ensures Apps(c, test, dynamic, tobj, xs + {x}, tagged)
         == Apps(c, test, dynamic, tobj, xs, tagged)[AppId(c, test, x, tagged) := Job(Apply(test, dynamic, x), {tobj[x]})]
  {
    var a := Apps(c, test, dynamic, tobj, xs + {x}, tagged);
    var b := Apps(c, test, dynamic, tobj, xs, tagged)[AppId(c, test, x, tagged) := Job(Apply(test, dynamic, x), {tobj[x]})];
    AppsStepOld(c, test, dynamic, tobj, xs, x, tagged);
    AppsStepNew(c, test, dynamic, tobj, xs, x, tagged);
    assert a.Keys == b.Keys;
  }

  lemma AppsStepOld(c: Context, test: string, dynamic: bool, tobj: map<string, JobId>, xs: set<string>,
                    x: string, tagged: bool)
    requires x in tobj
    ensures forall id :: id in Apps(c, test, dynamic, tobj, xs, tagged) && id != AppId(c, test, x, tagged) ==>
      id in Apps(c, test, dynamic, tobj, xs + {x}, tagged)
      && Apps(c, test, dynamic, tobj, xs + {x}, tagged)[id] == Apps(c, test, dynamic, tobj, xs, tagged)[id]
  {
    AppIdInjective(c, test, tagged);
    forall id | id in Apps(c, test, dynamic, tobj, xs, tagged) && id != AppId(c, test, x, tagged)
      ensures id in Apps(c, test, dynamic, tobj, xs + {x}, tagged)
      && Apps(c, test, dynamic, tobj, xs + {x}, tagged)[id] == Apps(c, test, dynamic, tobj, xs, tagged)[id]
    {
      var y :| y in xs && y in tobj && AppId(c, test, y, tagged) == id;
      assert y in xs + {x};
    }
  }

  lemma AppsStepNew(c: Context, test: string, dynamic: bool, tobj: map<string, JobId>, xs: set<string>,
                    x: string, tagged: bool)
    requires x in tobj
    ensures forall id :: id in Apps(c, test, dynamic, tobj, xs + {x}, tagged) ==>
      id == AppId(c, test, x, tagged) || id in Apps(c, test, dynamic, tobj, xs, tagged)
    ensures AppId(c, test, x, tagged) in Apps(c, test, dynamic, tobj, xs + {x}, tagged)
    ensures Apps(c, test, dynamic, tobj, xs + {x}, tagged)[AppId(c, test, x, tagged)] == Job(Apply(test, dynamic, x), {tobj[x]})
  {
    AppIdInjective(c, test, tagged);
    forall id | id in Apps(c, test, dynamic, tobj, xs + {x}, tagged)
      ensures id == AppId(c, test, x, tagged) || id in Apps(c, test, dynamic, tobj, xs, tagged)
    {
      var y :| y in xs + {x} && y in tobj && AppId(c, test, y, tagged) == id;
      if y != x {
        assert y in xs;
      }
    }
  }

  lemma ResultsStep(c: Context, test: string, tobj: map<string, JobId>, xs: set<string>, x: string, tagged: bool)
    requires x in tobj
    ensures Results(c, test, tobj, xs + {x}, tagged) == Results(c, test, tobj, xs, tagged)[x := AppId(c, test, x, tagged)]
  {
    assert Results(c, test, tobj, xs + {x}, tagged).Keys
        == Results(c, test, tobj, xs, tagged)[x := AppId(c, test, x, tagged)].Keys;
  }

  /** Every pair of an object of `a` with an object of `b`. */
  function Cross(a: set<string>, b: set<string>): set<(string, string)>
  {
    set x, y | x in a && y in b :: (x, y)
  }

  lemma CrossHas(a: set<string>, b: set<string>, p: (string, string))
    ensures p in Cross(a, b) <==> p.0 in a && p.1 in b
  {
    if p.0 in a && p.1 in b {
      assert (p.0, p.1) in Cross(a, b);
    }
  }

  /** The test jobs for the pairs `ps`: each applies the test to both objects and depends
      on both instance jobs. */
  function PairApps(c: Context, test: string, dynamic: bool, objs1: map<string, JobId>, objs2: map<string, JobId>,
                    ps: set<(string, string)>): map<JobId, Job>
  {
    PairIdInjective(c);
    map p | p in ps && p.0 in objs1 && p.1 in objs2 ::
      PairId(c, p.0, p.1) := Job(ApplyPair(test, dynamic, p.0, p.1), {objs1[p.0], objs2[p.1]})
  }

  /** The `results`/`jobs` tables of a pair matrix: pair to the id of its test job. */
  function PairResults(c: Context, objs1: map<string, JobId>, objs2: map<string, JobId>, ps: set<(string, string)>)
    : map<(string, string), JobId>
  {
    map p | p in ps && p.0 in objs1 && p.1 in objs2 :: PairId(c, p.0, p.1)
  }

  lemma PairAppsStep(c: Context, test: string, dynamic: bool, objs1: map<string, JobId>, objs2: map<string, JobId>,
                     ps: set<(string, string)>, p: (string, string))
    requires p.0 in objs1 && p.1 in objs2
    ensures PairApps(c, test, dynamic, objs1, objs2, ps + {p})
         == PairApps(c, test, dynamic, objs1, objs2, ps)[PairId(c, p.0, p.1) :=
              Job(ApplyPair(test, dynamic, p.0, p.1), {objs1[p.0], objs2[p.1]})]
  {
    var a := PairApps(c, test, dynamic, objs1, objs2, ps + {p});
    var b := PairApps(c, test, dynamic, objs1, objs2, ps)[PairId(c, p.0, p.1) :=
               Job(ApplyPair(test, dynamic, p.0, p.1), {objs1[p.0], objs2[p.1]})];
    PairAppsStepOld(c, test, dynamic, objs1, objs2, ps, p);
    PairAppsStepNew(c, test, dynamic, objs1, objs2, ps, p);
    assert a.Keys == b.Keys;
  }

  lemma PairAppsStepOld(c: Context, test: string, dynamic: bool, objs1: map<string, JobId>, objs2: map<string, JobId>,
                        ps: set<(string, string)>, p: (string, string))
    requires p.0 in objs1 && p.1 in objs2
    ensures forall id :: id in PairApps(c, test, dynamic, objs1, objs2, ps) && id != PairId(c, p.0, p.1) ==>
      id in PairApps(c, test, dynamic, objs1, objs2, ps + {p})
      && PairApps(c, test, dynamic, objs1, objs2, ps + {p})[id] == PairApps(c, test, dynamic, objs1, objs2, ps)[id]
  {
    PairIdInjective(c);
    forall id | id in PairApps(c, test, dynamic, objs1, objs2, ps) && id != PairId(c, p.0, p.1)
      ensures id in PairApps(c, test, dynamic, objs1, objs2, ps + {p})
      && PairApps(c, test, dynamic, objs1, objs2, ps + {p})[id] == PairApps(c, test, dynamic, objs1, objs2, ps)[id]
    {
      var q :| q in ps && q.0 in objs1 && q.1 in objs2 && PairId(c, q.0, q.1) == id;
      assert q in ps + {p};
    }
  }

  lemma PairAppsStepNew(c: Context, test: string, dynamic: bool, objs1: map<string, JobId>, objs2: map<string, JobId>,
                        ps: set<(string, string)>, p: (string, string))
    requires p.0 in objs1 && p.1 in objs2
    ensures forall id :: id in PairApps(c, test, dynamic, objs1, objs2, ps + {p}) ==>
      id == PairId(c, p.0, p.1) || id in PairApps(c, test, dynamic, objs1, objs2, ps)
    ensures PairId(c, p.0, p.1) in PairApps(c, test, dynamic, objs1, objs2, ps + {p})
    ensures PairApps(c, test, dynamic, objs1, objs2, ps + {p})[PairId(c, p.0, p.1)]
         == Job(ApplyPair(test, dynamic, p.0, p.1), {objs1[p.0], objs2[p.1]})
  {
    PairIdInjective(c);
    forall id | id in PairApps(c, test, dynamic, objs1, objs2, ps + {p})
      ensures id == PairId(c, p.0, p.1) || id in PairApps(c, test, dynamic, objs1, objs2, ps)
    {
      var q :| q in ps + {p} && q.0 in objs1 && q.1 in objs2 && PairId(c, q.0, q.1) == id;
      if q != p {
        assert q in ps;
      }
    }
  }

  lemma PairResultsStep(c: Context, objs1: map<string, JobId>, objs2: map<string, JobId>,
                        ps: set<(string, string)>, p: (string, string))
    requires p.0 in objs1 && p.1 in objs2
    ensures PairResults(c, objs1, objs2, ps + {p}) == PairResults(c, objs1, objs2, ps)[p := PairId(c, p.0, p.1)]
  {
    assert PairResults(c, objs1, objs2, ps + {p}).Keys == PairResults(c, objs1, objs2, ps)[p := PairId(c, p.0, p.1)].Keys;
  }

  /** The test of `x` is among the jobs exactly when `x` is one of the objects that have a promise. */
  lemma AppsHas(c: Context, test: string, dynamic: bool, tobj: map<string, JobId>, xs: set<string>,
                x: string, tagged: bool)
    ensures AppId(c, test, x, tagged) in Apps(c, test, dynamic, tobj, xs, tagged) <==> x in xs && x in tobj
    ensures x in xs && x in tobj ==>
      Apps(c, test, dynamic, tobj, xs, tagged)[AppId(c, test, x, tagged)] == Job(Apply(test, dynamic, x), {tobj[x]})
  {
    AppIdInjective(c, test, tagged);
    if AppId(c, test, x, tagged) in Apps(c, test, dynamic, tobj, xs, tagged) {
      var y :| y in xs && y in tobj && AppId(c, test, y, tagged) == AppId(c, test, x, tagged);
    }
  }

  /** One test job per object, when every object has a promise. */
  lemma {:induction false} AppsSize(c: Context, test: string, dynamic: bool, tobj: map<string, JobId>,
                                    xs: set<string>, tagged: bool)
    requires xs <= tobj.Keys
    ensures |Apps(c, test, dynamic, tobj, xs, tagged)| == |xs|
    decreases xs
  {
    if xs != {} {
      var x :| x in xs;
      var rest := xs - {x};
      AppsSize(c, test, dynamic, tobj, rest, tagged);
      assert rest + {x} == xs;
      AppsStep(c, test, dynamic, tobj, rest, x, tagged);
      AppsHas(c, test, dynamic, tobj, rest, x, tagged);
    }
  }

  /** The pairs of one object `x` with every object of `b`. */
  function Row(x: string, b: set<string>): set<(string, string)>
  {
    set y | y in b :: (x, y)
  }

  lemma {:induction false} RowSize(x: string, b: set<string>)
    ensures |Row(x, b)| == |b|
    decreases b
  {
    if b != {} {
      var y :| y in b;
      RowSize(x, b - {y});
      assert Row(x, b) == Row(x, b - {y}) + {(x, y)};
    }
  }

  /** A cross product has `|a| * |b|` pairs. */
  lemma {:induction false} CrossSize(a: set<string>, b: set<string>)
    ensures |Cross(a, b)| == |a| * |b|
    decreases a
  {
    if a != {} {
      var x :| x in a;
      var rest := a - {x};
      CrossSize(rest, b);
      RowSize(x, b);
      CrossSplit(a, b, x);
      DisjointUnionSize(Cross(rest, b), Row(x, b));
      assert |a| == |rest| + 1;
      SuccTimes(|rest|, |b|);
    }
  }

  lemma SuccTimes(n: nat, m: nat)
    ensures (n + 1) * m == n * m + m
  {
  }

  lemma DisjointUnionSize(s: set<(string, string)>, t: set<(string, string)>)
    requires s !! t
    ensures |s + t| == |s| + |t|
  {
    assert s * t == {};
  }

  /** Taking out one object `x` of `a` splits a cross product into the pairs of the rest
      and the pairs of `x`. */
  lemma CrossSplit(a: set<string>, b: set<string>, x: string)
    requires x in a
    ensures Cross(a, b) == Cross(a - {x}, b) + Row(x, b)
    ensures Cross(a - {x}, b) !! Row(x, b)
  {
    forall p | p in Cross(a, b)
      ensures p in Cross(a - {x}, b) + Row(x, b)
    {
      CrossHas(a, b, p);
      if p.0 == x {
        assert p == (x, p.1);
      } else {
        CrossHas(a - {x}, b, p);
      }
    }
    forall p | p in Cross(a - {x}, b) + Row(x, b)
      ensures p in Cross(a, b)
    {
      if p in Row(x, b) {
        CrossHas(a, b, p);
      } else {
        CrossHas(a - {x}, b, p);
        CrossHas(a, b, p);
      }
    }
    forall p | p in Cross(a - {x}, b)
      ensures p !in Row(x, b)
    {
      CrossHas(a - {x}, b, p);
    }
  }

  /** The test of `p` is among the pair jobs exactly when `p` is one of the pairs and both
      its objects have a promise. */
  lemma PairAppsHas(c: Context, test: string, dynamic: bool, objs1: map<string, JobId>, objs2: map<string, JobId>,
                    ps: set<(string, string)>, p: (string, string))
    ensures PairId(c, p.0, p.1) in PairApps(c, test, dynamic, objs1, objs2, ps)
        <==> p in ps && p.0 in objs1 && p.1 in objs2
  {
    PairIdInjective(c);
    if PairId(c, p.0, p.1) in PairApps(c, test, dynamic, objs1, objs2, ps) {
      var q :| q in ps && q.0 in objs1 && q.1 in objs2 && PairId(c, q.0, q.1) == PairId(c, p.0, p.1);
    }
  }

  /** One test job per pair, when both objects of every pair have a promise. */
  lemma {:induction false} PairAppsSize(c: Context, test: string, dynamic: bool, objs1: map<string, JobId>,
                                        objs2: map<string, JobId>, ps: set<(string, string)>)
    requires forall p :: p in ps ==> p.0 in objs1 && p.1 in objs2
    ensures |PairApps(c, test, dynamic, objs1, objs2, ps)| == |ps|
    decreases ps
  {
    if ps != {} {
      var p :| p in ps;
      var rest := ps - {p};
      PairAppsSize(c, test, dynamic, objs1, objs2, rest);
      assert rest + {p} == ps;
      PairAppsStep(c, test, dynamic, objs1, objs2, rest, p);
      PairAppsHas(c, test, dynamic, objs1, objs2, rest, p);
    }
  }

  /** The tests of objects that all have a promise: one per object, each applying the test
      to its object and depending on the object's instance job, none of them at a report's
      id; `results` maps exactly those objects to their tests. */
  lemma AppsPlan(c: Context, test: string, dynamic: bool, tobj: map<string, JobId>, xs: set<string>, tagged: bool)
    requires xs <= tobj.Keys
    ensures forall x :: x in xs ==>
      && AppId(c, test, x, tagged) in Apps(c, test, dynamic, tobj, xs, tagged)
      && Apps(c, test, dynamic, tobj, xs, tagged)[AppId(c, test, x, tagged)] == Job(Apply(test, dynamic, x), {tobj[x]})
    ensures |Apps(c, test, dynamic, tobj, xs, tagged)| == |xs|
    ensures forall command :: ReportId(c, command) !in Apps(c, test, dynamic, tobj, xs, tagged)
    ensures Results(c, test, tobj, xs, tagged).Keys == xs
    ensures forall x :: x in xs ==> Results(c, test, tobj, xs, tagged)[x] == AppId(c, test, x, tagged)
  {
    forall x | x in xs
      ensures AppId(c, test, x, tagged) in Apps(c, test, dynamic, tobj, xs, tagged)
           && Apps(c, test, dynamic, tobj, xs, tagged)[AppId(c, test, x, tagged)] == Job(Apply(test, dynamic, x), {tobj[x]})
    {
      AppsHas(c, test, dynamic, tobj, xs, x, tagged);
    }
    AppsSize(c, test, dynamic, tobj, xs, tagged);
    forall command ensures ReportId(c, command) !in Apps(c, test, dynamic, tobj, xs, tagged) {
      if ReportId(c, command) in Apps(c, test, dynamic, tobj, xs, tagged) {
        var y :| y in xs && y in tobj && AppId(c, test, y, tagged) == ReportId(c, command);
        ReportIdsApart(c, command, test, y, tagged, y, y);
      }
    }
  }

  /** A function's tests of the objects `xs` and, when reports are wanted, the
      `report_results_single` report of kind `kind` over their results. */
  function TestsOf(c: Context, test: string, dynamic: bool, tobj: map<string, JobId>, xs: set<string>,
                   tagged: bool, spec: string, kind: string, createReports: bool): map<JobId, Job>
  {
    var apps := Apps(c, test, dynamic, tobj, xs, tagged);
    if createReports then
      var results := Results(c, test, tobj, xs, tagged);
      apps[ReportId(c, "report_results_single") := Job(ReportSingle(test, spec, results, kind), results.Values)]
    else apps
  }

  /** The tests of objects that all have a promise: one per object, applying the function
      to it and depending on its instance job; `results` is keyed by exactly those objects
      and names their tests; the report is there iff reports are wanted, over `results`;
      and nothing else is defined. */
  lemma TestsOfPlan(c: Context, test: string, dynamic: bool, tobj: map<string, JobId>, xs: set<string>,
                    tagged: bool, spec: string, kind: string, createReports: bool)
    requires xs <= tobj.Keys
    ensures var jobs := TestsOf(c, test, dynamic, tobj, xs, tagged, spec, kind, createReports);
            var results := Results(c, test, tobj, xs, tagged);
            && (forall x :: x in xs ==>
                  AppId(c, test, x, tagged) in jobs && jobs[AppId(c, test, x, tagged)] == Job(Apply(test, dynamic, x), {tobj[x]}))
            && results.Keys == xs
            && (forall x :: x in xs ==> results[x] == AppId(c, test, x, tagged))
            && (ReportId(c, "report_results_single") in jobs <==> createReports)
            && (createReports ==> jobs[ReportId(c, "report_results_single")]
                                  == Job(ReportSingle(test, spec, results, kind), results.Values))
            && |jobs| == |xs| + (if createReports then 1 else 0)
  {
    AppsPlan(c, test, dynamic, tobj, xs, tagged);
    var apps := Apps(c, test, dynamic, tobj, xs, tagged);
    assert ReportId(c, "report_results_single") !in apps;
    forall x | x in xs ensures AppId(c, test, x, tagged) != ReportId(c, "report_results_single") {
      ReportIdsApart(c, "report_results_single", test, x, tagged, x, x);
    }
  }

  /** The tests of every pair of objects of `objs1` and `objs2`: one per pair, applying the
      test to both objects and depending on both instance jobs, none of them at a report's
      id, `|objs1| * |objs2|` in all; the pair table is keyed by exactly the pairs. */
  lemma PairAppsPlan(c: Context, test: string, dynamic: bool, objs1: map<string, JobId>, objs2: map<string, JobId>)
    ensures var ps := Cross(objs1.Keys, objs2.Keys);
            var apps := PairApps(c, test, dynamic, objs1, objs2, ps);
            && (forall x, y :: x in objs1 && y in objs2 ==>
                  PairId(c, x, y) in apps && apps[PairId(c, x, y)] == Job(ApplyPair(test, dynamic, x, y), {objs1[x], objs2[y]}))
            && |apps| == |objs1| * |objs2|
            && (forall command :: ReportId(c, command) !in apps)
            && PairResults(c, objs1, objs2, ps).Keys == ps
            && (forall p :: p in ps ==> PairResults(c, objs1, objs2, ps)[p] == PairId(c, p.0, p.1))
  {
    var ps := Cross(objs1.Keys, objs2.Keys);
    var apps := PairApps(c, test, dynamic, objs1, objs2, ps);
    PairIdInjective(c);
    forall x, y | x in objs1 && y in objs2
      ensures PairId(c, x, y) in apps && apps[PairId(c, x, y)] == Job(ApplyPair(test, dynamic, x, y), {objs1[x], objs2[y]})
    {
      assert (x, y) in ps;
      PairAppsHas(c, test, dynamic, objs1, objs2, ps, (x, y));
    }
    forall p | p in ps ensures p.0 in objs1 && p.1 in objs2 {
      var x, y :| x in objs1.Keys && y in objs2.Keys && p == (x, y);
    }
    PairAppsSize(c, test, dynamic, objs1, objs2, ps);
    CrossSize(objs1.Keys, objs2.Keys);
    forall command ensures ReportId(c, command) !in apps {
      if ReportId(c, command) in apps {
        var q :| q in ps && q.0 in objs1 && q.1 in objs2 && PairId(c, q.0, q.1) == ReportId(c, command);
        ReportIdsApart(c, command, test, q.0, false, q.0, q.1);
      }
    }
  }
}
