/** The module-level `messageStores` Map of both adapters: message type -> writable store.
    A store is an object; its identity is modelled by the order in which it was created, so `index[t]` is the
    store registered for `t` and `slots[i]` is the current value of store `i`. */
module MessageRegistry {
  import opened Js

  datatype Registry = Registry(index: map<string, nat>, slots: seq<JsValue>)

  /** `new Map()` */
  const Empty: Registry := Registry(map[], [])

  /** Every registered store exists, and no two types share a store. */
  ghost predicate WellFormed(r: Registry)
  {
    && (forall t :: t in r.index ==> r.index[t] < |r.slots|)
    && (forall t, u :: t in r.index && u in r.index && t != u ==> r.index[t] != r.index[u])
  }

  /** The current value of the store registered for `t`. */
  function ValueOf(r: Registry, t: string): JsValue
    requires WellFormed(r) && t in r.index
  {
    r.slots[r.index[t]]
  }

  /** `after` keeps every type of `before` on the same store and never drops a store. */
  ghost predicate Extends(before: Registry, after: Registry)
  {
    && before.index.Keys <= after.index.Keys
    && (forall t :: t in before.index ==> after.index[t] == before.index[t])
    && |before.slots| <= |after.slots|
  }

  datatype Lookup = Lookup(reg: Registry, slot: nat)

  /** `getMessageStore(type)`: the store registered for `t`, created with value `null` on first use. */
  function GetOrCreate(r: Registry, t: string): (l: Lookup)
    requires WellFormed(r)
    ensures WellFormed(l.reg) && Extends(r, l.reg)
    ensures t in l.reg.index && l.reg.index[t] == l.slot
    ensures l.reg.index.Keys == r.index.Keys + {t}
    ensures forall u :: u in r.index ==> ValueOf(l.reg, u) == ValueOf(r, u)
    ensures t in r.index ==> l.reg == r
    ensures t !in r.index ==> ValueOf(l.reg, t) == Null && forall u :: u in r.index ==> r.index[u] != l.slot
  {
    if t in r.index then Lookup(r, r.index[t])
    else Lookup(Registry(r.index[t := |r.slots|], r.slots + [Null]), |r.slots|)
  }

  /** `messageStores.get(t).set(v)` when `messageStores.has(t)`; nothing otherwise. */
  function Route(r: Registry, t: string, v: JsValue): (r': Registry)
    requires WellFormed(r)
    ensures WellFormed(r') && Extends(r, r') && r'.index == r.index
    ensures t in r.index ==> ValueOf(r', t) == v
    ensures forall u :: u in r.index && u != t ==> ValueOf(r', u) == ValueOf(r, u)
    ensures t !in r.index ==> r' == r
  {
    if t in r.index then Registry(r.index, r.slots[r.index[t] := v]) else r
  }

  lemma ExtendsTransitive(a: Registry, b: Registry, c: Registry)
    requires Extends(a, b) && Extends(b, c)
    ensures Extends(a, c)
  {
  }

  /** Once a type has a store, every later `getMessageStore` for it, after any growth of the registry, returns
      that same store and leaves the registry as it is. */
  lemma SameStoreLater(r: Registry, t: string, later: Registry)
    requires WellFormed(r) && WellFormed(later)
    requires Extends(GetOrCreate(r, t).reg, later)
    ensures GetOrCreate(later, t) == Lookup(later, GetOrCreate(r, t).slot)
  {
  }
}
