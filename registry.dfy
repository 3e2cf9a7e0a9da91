/**
 * The decorator registries (`register` in event_exporter.py, property_bundles.py
 * and file_relationships.py): a module-level dictionary into which each
 * decorated definition is stored under its identifier, at import time, in
 * declaration order.
 */
module Registry {
  import opened Wrappers

  /** The dictionary after the registrations `regs`, in order, on top of `base`. */
  function Registered<K, V>(base: map<K, V>, regs: seq<(K, V)>): map<K, V> {
    if regs == [] then base
    else Registered(base, regs[..|regs| - 1])[regs[|regs| - 1].0 := regs[|regs| - 1].1]
  }

  /** The last registration for `k`, if any. */
  function LastFor<K(==), V>(regs: seq<(K, V)>, k: K): Option<V> {
    if regs == [] then None
    else if regs[|regs| - 1].0 == k then Some(regs[|regs| - 1].1)
    else LastFor(regs[..|regs| - 1], k)
  }

  /** A key is registered when something was registered under it; a later registration overwrites. */
  lemma {:induction false} RegisteredLookup<K, V>(base: map<K, V>, regs: seq<(K, V)>, k: K)
    ensures k in Registered(base, regs) <==> k in base || LastFor(regs, k).Some?
    ensures LastFor(regs, k).Some? ==> Registered(base, regs)[k] == LastFor(regs, k).value
    ensures LastFor(regs, k).None? && k in base ==> Registered(base, regs)[k] == base[k]
  {
    if regs != [] {
      RegisteredLookup(base, regs[..|regs| - 1], k);
    }
  }

  /** A registry dictionary that the decorators update in place. */
  class Registry<K(==), V> {
    var entries: map<K, V>

    constructor ()
      ensures entries == map[]
    {
      entries := map[];
    }

    /** `registry[identifier] = func`. */
    method Register(k: K, v: V)
      modifies this
      ensures entries == old(entries)[k := v]
    {
      entries := entries[k := v];
    }

    /** The decorators of one module, applied in declaration order. */
    method RegisterAll(regs: seq<(K, V)>)
      modifies this
      ensures entries == Registered(old(entries), regs)
    {
      for i := 0 to |regs|
        invariant entries == Registered(old(entries), regs[..i])
      {
        Register(regs[i].0, regs[i].1);
        assert regs[..i + 1][..i] == regs[..i];
      }
      assert regs[..|regs|] == regs;
    }
  }
}
