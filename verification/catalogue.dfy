/** What the planner reads from the fixture catalogue: object specs, their masters, test functions. */
module Catalogue {
  import opened Outcomes

  /** An object spec: a named category of test objects owned by one config master.
      Only its name, its master's name, the ids of its objects and whether it has an
      instance method matter to the planner. */
  datatype ObjSpec = ObjSpec(name: string, master: string, fixtures: set<string>, hasInstanceMethod: bool)

  /** A config master: a named table of object specs. */
  datatype ConfigMaster = ConfigMaster(name: string, specs: map<string, ObjSpec>)

  /** A registered test function; the planner only ever uses its `__name__`. */
  datatype Func = Func(name: string)

  /** `get_objspec`: the object spec called `specName` in `master`, or the error it raises. */
  function GetObjSpec(master: ConfigMaster, specName: string): (r: Result<ObjSpec>)
    ensures r.Ok? <==> specName in master.specs
    ensures r.Ok? ==> r.value == master.specs[specName]
    ensures r.Err? ==> r.error == SpecNotFound(master.name, specName)
  {
    if specName in master.specs then Ok(master.specs[specName])
    else Err(SpecNotFound(master.name, specName))
  }
}
