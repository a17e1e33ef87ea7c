/** src/lib/utils/firebase-loader.js: a module-level cache of library loads
    keyed by library name, and loaders that start their loads at most once.
    A load is represented by the number of the script injection that started
    it; the injection itself is browser I/O and is not modelled. */
module FirebaseLoader {
  import opened Js

  /** A started load (the promise `internalLoad` caches): the number of the
      script injection behind it. */
  type LoadHandle = nat

  /** The module-level `libs` dictionary. */
  class LibraryCache {
    var libs: map<string, LoadHandle>
    /** Script injections started so far; each has a distinct handle below it. */
    var started: nat
    /** The library each started load belongs to, by handle. */
    ghost var order: seq<string>

    /** Every cached library has its own load, and every started load is the
        cached load of exactly one library. */
    ghost predicate Valid()
      reads this
    {
      && |order| == started
      && (forall name :: name in libs ==> libs[name] < started && order[libs[name]] == name)
      && (forall h :: 0 <= h < started ==> order[h] in libs && libs[order[h]] == h)
    }

    constructor ()
      ensures Valid() && libs == map[] && started == 0
    {
      libs := map[];
      started := 0;
      order := [];
    }

    /** `internalLoad(library)`: the cached load, or a fresh one recorded under
        `library`. Entries are never replaced or removed. */
    method InternalLoad(library: string) returns (p: LoadHandle)
      requires Valid()
      modifies this
      ensures Valid()
      ensures library in libs && p == libs[library]
      ensures library in old(libs) ==> libs == old(libs) && started == old(started)
      ensures library !in old(libs) ==>
        libs == old(libs)[library := old(started)] && started == old(started) + 1
    {
      if library in libs {
        return libs[library];
      }
      p := started;
      libs := libs[library := p];
      order := order + [library];
      started := started + 1;
    }

    /** `loadFirebase(...names)`: a load for every name, each cached or new. */
    method LoadFirebase(names: seq<string>) returns (ps: seq<LoadHandle>)
      requires Valid()
      modifies this
      ensures Valid()
      ensures |ps| == |names|
      ensures forall i :: 0 <= i < |names| ==> names[i] in libs && ps[i] == libs[names[i]]
      ensures forall name :: name in old(libs) ==> name in libs && libs[name] == old(libs)[name]
      ensures forall name :: name in libs <==> name in old(libs) || name in names
    {
      ps := [];
      var i := 0;
      while i < |names|
        invariant Valid()
        invariant 0 <= i <= |names| && |ps| == i
        invariant forall j :: 0 <= j < i ==> names[j] in libs && ps[j] == libs[names[j]]
        invariant forall name :: name in old(libs) ==> name in libs && libs[name] == old(libs)[name]
        invariant forall name :: name in libs <==> name in old(libs) || name in names[..i]
      {
        var p := InternalLoad(names[i]);
        ps := ps + [p];
        assert names[..i + 1] == names[..i] + [names[i]];
        i := i + 1;
      }
      assert names[..i] == names;
    }
  }

  /** The function `buildLoader(names, handler)` returns, with its captured `p`. */
  class Loader {
    const names: seq<string>
    const cache: LibraryCache
    /** The captured `p`: the combined load, once started. */
    var p: Option<seq<LoadHandle>>
    /** How many times `handler` has been chained onto a load. */
    var handlerChained: nat

    ghost predicate Valid()
      reads this, cache
    {
      && cache.Valid()
      && (p.None? <==> handlerChained == 0)
      && handlerChained <= 1
      && (p.Some? ==> |p.value| == |names|)
      && (p.Some? ==> forall i :: 0 <= i < |names| ==> names[i] in cache.libs && p.value[i] == cache.libs[names[i]])
    }

    constructor (names: seq<string>, cache: LibraryCache)
      requires cache.Valid()
      ensures Valid() && this.names == names && this.cache == cache
      ensures p.None? && handlerChained == 0
    {
      this.names := names;
      this.cache := cache;
      p := None;
      handlerChained := 0;
    }

    /** A call of the built loader: the first call starts the loads and chains
        the handler; every call returns the same `p`. */
    method Call() returns (r: seq<LoadHandle>)
      requires Valid()
      modifies this, cache
      ensures Valid()
      ensures p == Some(r)
      ensures old(p).Some? ==>
        r == old(p).value && handlerChained == old(handlerChained) &&
        cache.libs == old(cache.libs) && cache.started == old(cache.started)
      ensures old(p).None? ==> handlerChained == 1
      ensures old(p).None? ==> forall name :: name in cache.libs <==> name in old(cache.libs) || name in names
      ensures forall name :: name in old(cache.libs) ==> name in cache.libs && cache.libs[name] == old(cache.libs)[name]
      ensures forall i :: 0 <= i < |names| ==> names[i] in cache.libs && r[i] == cache.libs[names[i]]
    {
      if p.None? {
        var loads := cache.LoadFirebase(names);
        p := Some(loads);
        handlerChained := handlerChained + 1;
      }
      r := p.value;
    }
  }

  /** A loader built over a fresh cache and called twice: the second call
      starts no load, chains no second handler and returns the first call's
      loads, one for each name. */
  method CallTwiceScenario(names: seq<string>)
    returns (first: seq<LoadHandle>, second: seq<LoadHandle>, startedAfterFirst: nat,
             startedAfterSecond: nat, handlers: nat)
    ensures first == second && |first| == |names|
    ensures startedAfterFirst == startedAfterSecond && handlers == 1
  {
    var cache := new LibraryCache();
    var loader := new Loader(names, cache);
    first := loader.Call();
    startedAfterFirst := cache.started;
    second := loader.Call();
    startedAfterSecond := cache.started;
    handlers := loader.handlerChained;
  }
}
