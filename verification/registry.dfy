/** `ComptestsRegistrar`: the four append-only tables of test bindings, and the decorators that fill them. */
module Registry {
  import opened Catalogue

  /** A test of every object of one spec (`register_single`). */
  datatype SingleBinding = SingleBinding(test: Func, dynamic: bool)

  /** A test of every pair of objects of two specs (`register_pair`). */
  datatype PairBinding = PairBinding(objspec2: ObjSpec, test: Func, dynamic: bool)

  /** A test of the objects a `which` pattern selects (`register_for_some`). */
  datatype SomeBinding = SomeBinding(test: Func, which: string, dynamic: bool)

  /** A test of pairs selected by two patterns (`register_for_some_pairs`). */
  datatype SomePairsBinding =
    SomePairsBinding(objspec2: ObjSpec, test: Func, which1: string, which2: string, dynamic: bool)

  /** Reading a `defaultdict(list)`: a name never registered has the empty list. */
  function Lookup<B>(table: map<string, seq<B>>, name: string): seq<B>
  {
    if name in table then table[name] else []
  }

  /** The table after `table[name].append(b)`. */
  function Appended<B>(table: map<string, seq<B>>, name: string, b: B): (r: map<string, seq<B>>)
    ensures Lookup(r, name) == Lookup(table, name) + [b]
    ensures forall other :: other != name ==> Lookup(r, other) == Lookup(table, other)
  {
    table[name := Lookup(table, name) + [b]]
  }

  /** The registrar's static storage, made an object that is passed around explicitly. */
  class Registrar {
    var tests: map<string, seq<SingleBinding>>          // objspec2tests
    var pairs: map<string, seq<PairBinding>>            // objspec2pairs
    var some: map<string, seq<SomeBinding>>             // objspec2testsome
    var somePairs: map<string, seq<SomePairsBinding>>   // objspec2testsomepairs

    constructor ()
      ensures tests == map[] && pairs == map[] && some == map[] && somePairs == map[]
    {
      tests, pairs, some, somePairs := map[], map[], map[], map[];
    }

    method RegisterSingle(objspec: ObjSpec, f: Func, dynamic: bool)
      modifies this
      ensures tests == Appended(old(tests), objspec.name, SingleBinding(f, dynamic))
      ensures pairs == old(pairs) && some == old(some) && somePairs == old(somePairs)
    {
      tests := Appended(tests, objspec.name, SingleBinding(f, dynamic));
    }

    method RegisterPair(objspec1: ObjSpec, objspec2: ObjSpec, f: Func, dynamic: bool)
      modifies this
      ensures pairs == Appended(old(pairs), objspec1.name, PairBinding(objspec2, f, dynamic))
      ensures tests == old(tests) && some == old(some) && somePairs == old(somePairs)
    {
      pairs := Appended(pairs, objspec1.name, PairBinding(objspec2, f, dynamic));
    }

    method RegisterForSomePairs(objspec1: ObjSpec, objspec2: ObjSpec, f: Func,
                                which1: string, which2: string, dynamic: bool)
      modifies this
      ensures somePairs == Appended(old(somePairs), objspec1.name,
                                    SomePairsBinding(objspec2, f, which1, which2, dynamic))
      ensures tests == old(tests) && pairs == old(pairs) && some == old(some)
    {
      somePairs := Appended(somePairs, objspec1.name, SomePairsBinding(objspec2, f, which1, which2, dynamic));
    }

    method RegisterForSome(objspec: ObjSpec, f: Func, which: string, dynamic: bool)
      modifies this
      ensures some == Appended(old(some), objspec.name, SomeBinding(f, which, dynamic))
      ensures tests == old(tests) && pairs == old(pairs) && somePairs == old(somePairs)
    {
      some := Appended(some, objspec.name, SomeBinding(f, which, dynamic));
    }

    // The decorator factories. Each returns a closure `register(f)`; applying it is
    // modelled as one method that takes the factory's arguments and `f` together.

    /** `comptests_for_all(objspec)(f)` */
    method ComptestsForAll(objspec: ObjSpec, f: Func) returns (g: Func)
      modifies this
      ensures g == f
      ensures tests == Appended(old(tests), objspec.name, SingleBinding(f, false))
      ensures pairs == old(pairs) && some == old(some) && somePairs == old(somePairs)
    {
      RegisterSingle(objspec, f, false);
      g := f;
    }

    /** `comptests_for_all_dynamic(objspec)(f)` */
    method ComptestsForAllDynamic(objspec: ObjSpec, f: Func) returns (g: Func)
      modifies this
      ensures g == f
      ensures tests == Appended(old(tests), objspec.name, SingleBinding(f, true))
      ensures pairs == old(pairs) && some == old(some) && somePairs == old(somePairs)
    {
      RegisterSingle(objspec, f, true);
      g := f;
    }

    /** `comptests_for_some(objspec)(which)(f)` */
    method ComptestsForSome(objspec: ObjSpec, which: string, f: Func) returns (g: Func)
      modifies this
      ensures g == f
      ensures some == Appended(old(some), objspec.name, SomeBinding(f, which, false))
      ensures tests == old(tests) && pairs == old(pairs) && somePairs == old(somePairs)
    {
      RegisterForSome(objspec, f, which, false);
      g := f;
    }

    /** `comptests_for_some_pairs(objspec1, objspec2)(which1, which2)(f)` */
    method ComptestsForSomePairs(objspec1: ObjSpec, objspec2: ObjSpec, which1: string, which2: string, f: Func)
      returns (g: Func)
      modifies this
      ensures g == f
      ensures somePairs == Appended(old(somePairs), objspec1.name,
                                    SomePairsBinding(objspec2, f, which1, which2, false))
      ensures tests == old(tests) && pairs == old(pairs) && some == old(some)
    {
      RegisterForSomePairs(objspec1, objspec2, f, which1, which2, false);
      g := f;
    }

    /** `comptests_for_all_pairs_dynamic(objspec1, objspec2)(f)` */
    method ComptestsForAllPairsDynamic(objspec1: ObjSpec, objspec2: ObjSpec, f: Func) returns (g: Func)
      modifies this
      ensures g == f
      ensures pairs == Appended(old(pairs), objspec1.name, PairBinding(objspec2, f, true))
      ensures tests == old(tests) && some == old(some) && somePairs == old(somePairs)
    {
      RegisterPair(objspec1, objspec2, f, true);
      g := f;
    }

    /** `comptests_for_all_pairs(objspec1, objspec2)(f)` */
    method ComptestsForAllPairs(objspec1: ObjSpec, objspec2: ObjSpec, f: Func) returns (g: Func)
      modifies this
      ensures g == f
      ensures pairs == Appended(old(pairs), objspec1.name, PairBinding(objspec2, f, false))
      ensures tests == old(tests) && some == old(some) && somePairs == old(somePairs)
    {
      RegisterPair(objspec1, objspec2, f, false);
      g := f;
    }
  }
}
