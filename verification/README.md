# comptests registrar, modelled in Dafny

This project models `src/comptests/registrar.py`. That module turns registered test
functions into a graph of jobs for the compmake job engine. It works in three parts:

- **Registry.** `ComptestsRegistrar` holds four append-only tables, keyed by object-spec
  name. The `register_*` functions and the `comptests_for_*` decorators fill them.
- **Resolver.** `get_testobjects_promises(_for_objspec)` defines one instance job for each
  test object of each spec. It returns the promise table: spec name to object id to the
  instance job's id.
- **Compiler.** `jobs_registrar` defines the resolver job, plus one `define_tests_for` job
  per spec, in sorted order of the spec names. When `define_tests_for` runs, it calls
  `define_tests_single`, `define_tests_pairs`, `define_tests_some_pairs` and
  `define_tests_some` in that order. Between them they define:
  - the test jobs: one per object, one per selected object, or one per pair of objects,
    each depending on the instance jobs it tests;
  - the optional report jobs over the results.

The job engine is a `JobStore` object. Its map from job id to job is changed only by
`Define`, which models `comp`, `comp_config` and their dynamic variants.

- **Job ids.** A job id is the context path, as a sequence of names, followed by the
  job's own id. So `context.child(x)` appends `x`, and the ids of different objects,
  pairs and specs can be told apart.
- **Planners.** Each planner is an imperative method over the store. It is proved against
  a specification function that returns a `Trace`: how the planner ends (`Done`, or
  `Failed` with the exception it raises) and the jobs it has defined by then.
- **Lemmas.** Lemmas about those functions state what the source promises:
  - every test of every object, or every pair, is defined and wired to the right
    instance jobs;
  - results tables are keyed by exactly the tested objects;
  - a report exists exactly when reports are wanted;
  - job counts;
  - the first failing binding decides the error;
  - nothing is defined that should not be.

Modules, one per file: `Outcomes` (errors and results), `Lex` (Python's `sorted` on
strings), `Catalogue` (object specs, config masters, `get_objspec`), `Registry`, `Jobs`
(contexts, job store, traces), `Resolver`, `Matrix` (ids and the test and pair matrices
shared by the planners), `Single`, `Some`, `Pairs` (both pair planners) and `Pipeline`
(`define_tests_for`, `jobs_registrar`).

In these places the model follows what the code does, which a reader may not expect:

- `define_tests_some_pairs` expands `which1` and `which2` only to check that each selects
  something (lines 353-362). It then hands the *unexpanded* tables `allobjs1` and
  `allobjs2` to `define_tests_some_pairs_` (line 368), so every pair of objects is tested,
  not only the selected ones, and the selected names are never looked up.
  `Pairs.SomePairsBindingFacts` and `Pairs.SomePairsIgnoresSelection` state this.
- The pair reports are defined whenever reports are wanted (lines 325-332 and 394-401),
  even over an empty results table, which happens when the first spec has no objects.
- `define_tests_single` prints a notice but does not return when no functions are
  registered (lines 239-241); the loop then defines nothing.
- A spec without objects makes `get_testobjects_promises_for_objspec` raise (lines
  428-430). That ends `get_testobjects_promises` at that spec, with the instance jobs of
  the earlier specs already defined (`Resolver.ResolveTraceStatus`,
  `Resolver.ResolveTraceJobs`).
- `get_testobjects_promises_for_objspec` keeps no record of earlier calls: each call
  defines its instance jobs again (lines 431-444).

## Model

| member | source | states |
|---|---|---|
| Catalogue.GetObjSpec | src/comptests/registrar.py:464-472 | returns the master's spec exactly when the name is among its specs, and otherwise the "not found" error naming master and spec |
| Registry.Appended | src/comptests/registrar.py:33-34 | appending to a `defaultdict(list)` entry extends that name's list by the binding and leaves every other name's list as it was |
| Registry.Registrar.constructor | src/comptests/registrar.py:23-28 | the four tables start empty |
| Registry.Registrar.RegisterSingle | src/comptests/registrar.py:31-34 | appends `(f, dynamic)` to the spec's list in `objspec2tests`; the other three tables are unchanged |
| Registry.Registrar.RegisterPair | src/comptests/registrar.py:36-38 | appends `(objspec2, f, dynamic)` to the first spec's list in `objspec2pairs`; the other tables are unchanged |
| Registry.Registrar.RegisterForSomePairs | src/comptests/registrar.py:40-43 | appends `(objspec2, f, which1, which2, dynamic)` to the first spec's list in `objspec2testsomepairs`; the other tables are unchanged |
| Registry.Registrar.RegisterForSome | src/comptests/registrar.py:45-48 | appends `(f, which, dynamic)` to the spec's list in `objspec2testsome`; the other tables are unchanged |
| Registry.Registrar.ComptestsForAll | src/comptests/registrar.py:51-65 | registers `f` as a static single test of the spec and returns `f` itself |
| Registry.Registrar.ComptestsForAllDynamic | src/comptests/registrar.py:68-77 | registers `f` as a dynamic single test of the spec and returns `f` itself |
| Registry.Registrar.ComptestsForSome | src/comptests/registrar.py:80-88 | registers `f` with its `which` pattern as a static test of selected objects and returns `f` |
| Registry.Registrar.ComptestsForSomePairs | src/comptests/registrar.py:91-99 | registers `f` with both patterns as a static test of selected pairs and returns `f` |
| Registry.Registrar.ComptestsForAllPairsDynamic | src/comptests/registrar.py:102-107 | registers `f` as a dynamic pair test of the two specs and returns `f` |
| Registry.Registrar.ComptestsForAllPairs | src/comptests/registrar.py:109-114 | registers `f` as a static pair test of the two specs and returns `f` |
| Lex.SortedKeys | src/comptests/registrar.py:122 | `sorted(keys)` lists exactly the keys, as many as there are |
| Lex.SortedKeysDistinct | src/comptests/registrar.py:122 | `sorted(keys)` lists no key twice |
| Lex.SortedKeysAscending | src/comptests/registrar.py:122 | `sorted(keys)` lists the keys in ascending code-point order |
| Jobs.JobStore.Define | src/comptests/registrar.py:436-443 | defining a job records it under the requested id and changes no other id |
| Jobs.ChainedStatus | src/comptests/registrar.py:192-227 | a loop over bindings ends normally exactly when every binding does; otherwise it ends with the error of a binding that every earlier binding got past |
| Resolver.InstanceNameInjective | src/comptests/registrar.py:433 | the requested id `<spec>-instance-<object>` differs for different objects |
| Resolver.InstanceIdInjective | src/comptests/registrar.py:433-443 | different objects of a spec get different instance jobs |
| Resolver.GetTestObjectsPromisesForObjSpec | src/comptests/registrar.py:422-451 | with no objects, fails with the "no test objects" error and defines nothing; otherwise returns the promise table and defines exactly the spec's instance jobs |
| Resolver.PromisesAreInstanceJobs | src/comptests/registrar.py:431-444 | the promise table is keyed by exactly the spec's objects, and each promise names a job that `get_spec` (no instance method) or `instance_object` (instance method) defines for that object, with no dependencies |
| Resolver.OneInstanceJobPerObject | src/comptests/registrar.py:432-444 | one instance job per object; the store gains exactly the promised ids, and grows by the number of objects when none were there |
| Resolver.ResolveNames | src/comptests/registrar.py:144-148 | the loop over the names defines what the resolver trace says; on success every name is in the table, mapped to its spec's promises |
| Resolver.GetTestObjectsPromises | src/comptests/registrar.py:141-149 | returns the table of every spec's promises, or the first failing spec's error, after defining the instance jobs spec by spec in sorted order |
| Resolver.CompleteTable | src/comptests/registrar.py:141-149 | a table holding every sorted name, each with its promises, is the full promise table |
| Resolver.ResolveTraceStatus | src/comptests/registrar.py:141-149 | the resolver succeeds exactly when every spec has objects; otherwise it fails with the "no test objects" error of the first spec in sorted order that has none, every earlier spec having objects |
| Resolver.ResolveTraceJobs | src/comptests/registrar.py:141-149 | the resolver has defined the instance jobs of every spec, in sorted order, up to but not including the first spec without objects; on success, of all specs |
| Resolver.FirstEmpty | src/comptests/registrar.py:145-147 | the position of the first spec without objects in the sorted names, or their number; every spec before it has objects |
| Matrix.AppIdInjective | src/comptests/registrar.py:208-214 | in one function's context, different objects get different test jobs, with or without the `<function>-<id>` job id |
| Matrix.PairIdInjective | src/comptests/registrar.py:303-311 | different pairs get different test jobs |
| Matrix.AppsPlan | src/comptests/registrar.py:253-267 | for selected objects that have promises: one test per object, applying the function and depending on exactly its instance job; as many tests as objects; no report id among them; `results` keyed by exactly those objects, each naming its test |
| Matrix.TestsOfPlan | src/comptests/registrar.py:245-271 | a function's tests plus its report: the tests as in `AppsPlan`; the report exists exactly when reports are wanted, over `results`, depending on every test; the count is the number of objects plus one report |
| Matrix.CrossSize | src/comptests/registrar.py:303-305 | the pairs of two specs number the product of their object counts |
| Matrix.PairAppsPlan | src/comptests/registrar.py:303-321 | one test per pair, applying the function and depending on both instance jobs; the product of the counts in all; no report id among them; `results` keyed by exactly the pairs |
| Single.DefineSingleBinding | src/comptests/registrar.py:245-271 | one turn of the function loop defines exactly that function's tests and optional report |
| Single.DefineSingleStep | src/comptests/registrar.py:245-271 | after turn `i` the store holds the jobs of the first `i + 1` functions, later ones replacing earlier ones |
| Single.DefineTestsSingle | src/comptests/registrar.py:230-271 | `define_tests_single` ends and defines exactly what its trace says |
| Single.TestIdInjective | src/comptests/registrar.py:250-258 | a single test's id `<ctx>/<f>/<x>/f` determines both function and object |
| Single.BindingWired | src/comptests/registrar.py:253-267 | one function's jobs cover every test object, and each test applies that function to that object and depends on its instance job |
| Single.SingleBindingPlan | src/comptests/registrar.py:245-271 | one function's jobs: a test per object at `<ctx>/<f>/<x>/f` with the right call and dependency; `results` keyed by exactly the objects; report iff wanted, over `results`; nothing else |
| Single.SingleJobsWired | src/comptests/registrar.py:245-267 | after all functions, each has a test of every object, and every test is wired to its object's instance job |
| Single.SingleTraceFacts | src/comptests/registrar.py:230-271 | fails (with `KeyError`, defining nothing) exactly when the spec has no promise table; with no objects or no functions defines nothing; otherwise every function tests every object, correctly wired |
| Some.FirstUnknown | src/comptests/registrar.py:209-210 | the position of the first selected id without a promise, or the end; every id before it has one |
| Some.DefineSomeBinding | src/comptests/registrar.py:193-227 | one binding ends and defines exactly what its trace says, including the tests defined before a `KeyError` |
| Some.DefineSomeBindings | src/comptests/registrar.py:192-227 | the binding loop runs the bindings in order and stops at the first failure |
| Some.DefineTestsSome | src/comptests/registrar.py:174-227 | `define_tests_some` ends and defines exactly what its trace says |
| Some.SomeBindingPlan | src/comptests/registrar.py:198-212 | `ValueError` exactly when `which` selects nothing; normal end exactly when every selected id has a promise; otherwise `KeyError` on the first one that does not |
| Some.SomeBindingJobs | src/comptests/registrar.py:208-227 | after a normal end: a test `<ctx>/<f>/<x>/<f>-<x>` per selected id with the right call and dependency; `results` keyed by exactly the selected ids; `some` report iff wanted; nothing else |
| Some.SomeTraceFacts | src/comptests/registrar.py:174-227 | `KeyError` exactly when the spec has no promise table; nothing with no objects or no bindings; otherwise normal end exactly when every selection is usable, else the first unusable binding's error |
| Pairs.DefinePairTests | src/comptests/registrar.py:303-321 | the pair loop defines exactly one test per pair, and `results` and `jobs` map each pair to its test |
| Pairs.DefinePairMatrix | src/comptests/registrar.py:298-332 | defines the pair tests, then the `jobs_pairs` and `pairs` reports when wanted |
| Pairs.DefinePairBinding | src/comptests/registrar.py:285-332 | one binding ends and defines exactly what its trace says |
| Pairs.DefinePairBindings | src/comptests/registrar.py:284-332 | the binding loop runs the bindings in order and stops at the first failure |
| Pairs.DefineTestsPairs | src/comptests/registrar.py:274-332 | `define_tests_pairs` ends and defines exactly what its trace says |
| Pairs.PairMatrixTests | src/comptests/registrar.py:370-391 | every pair `(x, y)` gets a test at `<cx>/<x>/<y>/f` applying the function to both objects and depending on both instance jobs; `results` is keyed by exactly the pairs |
| Pairs.PairMatrixReports | src/comptests/registrar.py:394-401 | both reports exist exactly when reports are wanted; `jobs_pairs` depends on nothing, `pairs` on every test |
| Pairs.PairMatrixSize | src/comptests/registrar.py:370-401 | a pair matrix defines the product of the object counts, plus two reports when wanted |
| Pairs.PairsTraceStatus | src/comptests/registrar.py:274-296 | `KeyError` on the first spec exactly when it has no table, even with no bindings; otherwise a normal end exactly when every second spec has one, else `KeyError` on the first that has none |
| Pairs.PairBindingStatus | src/comptests/registrar.py:293-296 | a binding fails exactly when its second spec has no promise table |
| Pairs.PairsSkipEmpty | src/comptests/registrar.py:293-296 | bindings whose second spec has no objects are skipped: nothing is defined and the run ends normally |
| Pairs.PairBindingSkipsEmpty | src/comptests/registrar.py:293-296 | a binding whose second spec has no objects ends normally and defines nothing |
| Pairs.PairsSkipBinding | src/comptests/registrar.py:284-296 | a binding whose second spec has no objects can be taken out of the list wherever it stands: `define_tests_pairs` ends the same way and defines the same jobs |
| Jobs.DropIdle | src/comptests/registrar.py:284-296 | a step of a loop that ends normally and defines nothing can be left out without changing how the loop ends or what it defines |
| Pairs.DefineSomePairsBinding | src/comptests/registrar.py:344-368 | one binding ends and defines exactly what its trace says |
| Pairs.DefineSomePairsBindings | src/comptests/registrar.py:343-368 | the binding loop runs the bindings in order and stops at the first failure |
| Pairs.DefineTestsSomePairs | src/comptests/registrar.py:335-368 | `define_tests_some_pairs` ends and defines exactly what its trace says |
| Pairs.SomePairsBindingFacts | src/comptests/registrar.py:343-401 | normal end exactly when both specs have tables and both patterns select something, with `ValueError` on `which1` checked first; then every pair of all objects of both specs is tested, with the count of a full matrix |
| Pairs.SomePairsIgnoresSelection | src/comptests/registrar.py:353-368 | two expansions that both select something give the same jobs: the selection only gates |
| Pipeline.DefineTestsFor | src/comptests/registrar.py:152-171 | `define_tests_for` ends and defines exactly what its trace says |
| Pipeline.ForTraceFacts | src/comptests/registrar.py:152-171 | `KeyError` on a missing spec; a normal end exactly when all four planners end normally; a failure stops the later planners; after a normal end, the four planners' jobs in order; with no promise table, `define_tests_single` fails first and nothing is defined |
| Pipeline.ForIdPath | src/comptests/registrar.py:126-138 | the `define_tests_for` job of a spec is defined at `<ctx>/<master>/<spec>/define_tests_for` |
| Pipeline.ForIdInjective | src/comptests/registrar.py:120-138 | different specs get different `define_tests_for` jobs, none of which is the resolver job |
| Pipeline.ForJobsHas | src/comptests/registrar.py:126-138 | after the first `n` names, exactly their `define_tests_for` jobs are there, each carrying its own name's bindings |
| Pipeline.ForJobsSize | src/comptests/registrar.py:126-138 | distinct names give one job each |
| Pipeline.DefineForJobs | src/comptests/registrar.py:126-138 | the loop over the names defines their `define_tests_for` jobs in order |
| Pipeline.JobsRegistrar | src/comptests/registrar.py:116-138 | `jobs_registrar` defines the resolver job, then the `define_tests_for` job of every spec in sorted order |
| Pipeline.ListingPlan | src/comptests/registrar.py:122-138 | for any listing of the spec names, each spec gets its job with its bindings, and only those jobs and the resolver job are defined |
| Pipeline.ListingSize | src/comptests/registrar.py:122-138 | a listing without repeats gives one job per spec plus the resolver job |
| Pipeline.RegistrarPlan | src/comptests/registrar.py:116-138 | the resolver job at `<ctx>/<master>/get_testobjects_promises` depends on nothing. Each spec has exactly one `define_tests_for` job at `<ctx>/<master>/<spec>/define_tests_for`. That job carries the spec's four binding lists and depends only on the resolver job. Nothing else is defined: one job per spec plus the resolver job |

## Left out

- The engine's execution of jobs. `Promise`, the values jobs compute and the running of the
  test and report functions (`wrap_func*`, `report_results_*`) are not modelled. Each is
  represented only by a `Call` value and the job's dependencies.
- The engine's rendering of job ids as dash-joined strings. A job id is the context path
  plus the local id. A report job's engine-generated id is modelled as its command name in
  its context. The engine's counter suffix, which keeps a second `report_results_single`
  in the same context apart, is not modelled.
- `iterate_context_names` and `iterate_context_names_pair` come from another package. They
  are taken to create `child(x)` and `child(x).child(y)` contexts. The job paths stated by
  `Single.SingleBindingPlan`, `Some.SomeBindingJobs`, `Pairs.PairMatrixTests` and
  `Pipeline.ForIdPath`, and the injectivity of `Matrix.AppIdInjective`,
  `Matrix.PairIdInjective`, `Single.TestIdInjective` and `Pipeline.ForIdInjective`, hold
  under this assumption and the path-as-sequence ids; they are not facts about the
  engine's dash-joined id strings.
- Jobs.JobStore.Define: defining an id a second time replaces the earlier job. This can
  happen with the explicit ids `f` and `<f>-<x>` when two registered functions share a
  `__name__` or one function is registered twice; how the engine treats a repeated
  explicit id is not part of this model.
- `expand_string` is not part of this model. It is a parameter `Expander`, given the key
  set of the promise table rather than a list in dict order.
- Dict and `defaultdict` iteration order. Loops over a spec's objects are modelled over
  the key set. Their ids are distinct, so the order does not change the jobs.
- Reading a `defaultdict` entry inserts an empty list. The model reads the tables without
  changing them (`Registry.Lookup`).
- `assert_job_exists`, the `endswith` check in `get_testobjects_promises_for_objspec`
  (lines 448-450) and the `objspec.master.load()` call. The store records every job under
  the id asked for, so the check cannot fail and is left out.
- `GlobalConfig`, `get_spec` and `instance_object` as they run. Only the call that each
  instance job would make is recorded. `get_objspec` is modelled on a given master.
- Printing, `warnings.warn`, `add_extra_report_keys`, `add_report` and the
  `command_name` parameter have no effect on the job graph.
- The difference between `comp_config`, `comp_config_dynamic` and `comp_dynamic` is kept
  only as the `dynamic` flag of a test's call.
- `@contract` argument checks and `isinstance` assertions. The Dafny types take their
  place.

