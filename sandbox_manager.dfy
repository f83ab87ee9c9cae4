/** The server's registry of E2B sandboxes: one map from a sandbox key to the
    backend instance, and a second map from the same key to the E2B id that
    lets another function instance reconnect. The two maps are changed
    independently, so a key may be in either one or in both. */
module SandboxManager {
  import opened Common
  import M = JsMap

  /** An E2B backend instance: `handle` stands for the object itself, `id`
      for its `id` property (absent or empty when the sandbox has none). */
  datatype Backend = Backend(handle: nat, id: Option<string>)

  /** The key single-user deployments use. */
  const DefaultSandboxId: string := "default"

  /** The contents of the two maps. */
  datatype Registry = Registry(sandboxes: M.Entries<Backend>, ids: M.Entries<string>)

  /** Each map lists a key at most once, as a `Map` does. */
  predicate KeysUnique(r: Registry)
  {
    M.Distinct(r.sandboxes) && M.Distinct(r.ids)
  }

  // ---------------------------------------------------------------------------
  // The operations on the registry's contents
  // ---------------------------------------------------------------------------

  /** `setE2BSandbox`: the instance is always stored; its id only when it
      has a non-empty one. */
  function Stored(r: Registry, key: string, sandbox: Backend): Registry
  {
    Registry(M.Set(r.sandboxes, key, sandbox),
      if Present(sandbox.id) then M.Set(r.ids, key, sandbox.id.value) else r.ids)
  }

  /** `setE2BSandboxId` */
  function IdStored(r: Registry, key: string, e2bId: string): Registry
  {
    r.(ids := M.Set(r.ids, key, e2bId))
  }

  /** `hasE2BSandbox` */
  predicate HasSandbox(r: Registry, key: string)
  {
    M.Has(r.sandboxes, key) || M.Has(r.ids, key)
  }

  /** `removeE2BSandbox`: both maps lose the key; the answer is whether an
      instance was stored under it. */
  function Removed(r: Registry, key: string): (Registry, bool)
  {
    (Registry(M.Delete(r.sandboxes, key), M.Delete(r.ids, key)), M.Has(r.sandboxes, key))
  }

  /** `getActiveE2BSandboxIds` */
  function ActiveIds(r: Registry): seq<string>
  {
    M.Keys(r.ids)
  }

  /** The keys whose `dispose()` throws while the registry is cleared, in the
      order the loop visits the instances; each is logged and the loop goes
      on. */
  function DisposeErrors(sandboxes: M.Entries<Backend>, throws: Backend -> bool): seq<string>
    decreases |sandboxes|
  {
    if sandboxes == [] then []
    else
      var last := sandboxes[|sandboxes| - 1];
      DisposeErrors(sandboxes[..|sandboxes| - 1], throws) + (if throws(last.1) then [last.0] else [])
  }

  // ---------------------------------------------------------------------------
  // Properties
  // ---------------------------------------------------------------------------

  /** After `setE2BSandbox` the instance map answers the new instance for
      the key; the id map answers the new id when the instance has one and
      otherwise keeps whatever id it held. Other keys are unaffected. */
  lemma StoredLookups(r: Registry, key: string, sandbox: Backend, k: string)
    requires KeysUnique(r)
    ensures KeysUnique(Stored(r, key, sandbox))
    ensures M.Get(Stored(r, key, sandbox).sandboxes, k) == if k == key then Some(sandbox) else M.Get(r.sandboxes, k)
    ensures M.Get(Stored(r, key, sandbox).ids, k) ==
      if k == key && Present(sandbox.id) then Some(sandbox.id.value) else M.Get(r.ids, k)
  {
    M.SetGet(r.sandboxes, key, sandbox, k);
    if Present(sandbox.id) {
      M.SetGet(r.ids, key, sandbox.id.value, k);
    }
  }

  /** `setE2BSandboxId` touches only the id map. */
  lemma IdStoredLookups(r: Registry, key: string, e2bId: string, k: string)
    requires KeysUnique(r)
    ensures KeysUnique(IdStored(r, key, e2bId))
    ensures IdStored(r, key, e2bId).sandboxes == r.sandboxes
    ensures M.Get(IdStored(r, key, e2bId).ids, k) == if k == key then Some(e2bId) else M.Get(r.ids, k)
  {
    M.SetGet(r.ids, key, e2bId, k);
  }

  /** A key is known when either map lists it. */
  lemma HasSandboxListed(r: Registry, key: string)
    requires KeysUnique(r)
    ensures HasSandbox(r, key) <==> key in M.Keys(r.sandboxes) || key in ActiveIds(r)
  {
    M.KeysListed(r.sandboxes, key);
    M.KeysListed(r.ids, key);
  }

  /** After `removeE2BSandbox` neither map has the key and the others are
      unaffected; the answer is true exactly when an instance was stored, so
      a key that only had an id answers false. */
  lemma RemovedLookups(r: Registry, key: string, k: string)
    requires KeysUnique(r)
    ensures KeysUnique(Removed(r, key).0)
    ensures !HasSandbox(Removed(r, key).0, key)
    ensures Removed(r, key).1 <==> M.Get(r.sandboxes, key).Some?
    ensures k != key ==>
      (M.Get(Removed(r, key).0.sandboxes, k) == M.Get(r.sandboxes, k) && M.Get(Removed(r, key).0.ids, k) == M.Get(r.ids, k))
    ensures M.Has(r.ids, key) && !M.Has(r.sandboxes, key) ==> !Removed(r, key).1
  {
    M.DeleteGet(r.sandboxes, key, k);
    M.DeleteGet(r.ids, key, k);
    M.DeleteGet(r.sandboxes, key, key);
    M.DeleteGet(r.ids, key, key);
  }

  /** The listing holds exactly the keys with a stored id, once each, and
      not the keys that only have an instance. */
  lemma ActiveIdsAreIdKeys(r: Registry, k: string)
    requires KeysUnique(r)
    ensures k in ActiveIds(r) <==> M.Get(r.ids, k).Some?
    ensures M.Has(r.sandboxes, k) && !M.Has(r.ids, k) ==> k !in ActiveIds(r)
    ensures forall i, j :: 0 <= i < j < |ActiveIds(r)| ==> ActiveIds(r)[i] != ActiveIds(r)[j]
  {
    M.KeysListed(r.ids, k);
  }

  /** An instance whose id is empty does not list its key, and an earlier id
      for the key stays listed. */
  lemma IdlessInstanceKeepsListing(r: Registry, key: string, sandbox: Backend)
    requires !Present(sandbox.id)
    ensures ActiveIds(Stored(r, key, sandbox)) == ActiveIds(r)
  {
  }

  /** Every failing dispose is logged, in map order, and nothing else is. */
  lemma {:induction false} DisposeErrorsAreFailures(sandboxes: M.Entries<Backend>, throws: Backend -> bool, k: string)
    ensures |DisposeErrors(sandboxes, throws)| <= |sandboxes|
    ensures k in DisposeErrors(sandboxes, throws) <==>
      exists i :: 0 <= i < |sandboxes| && sandboxes[i].0 == k && throws(sandboxes[i].1)
    decreases |sandboxes|
  {
    if sandboxes != [] {
      var init := sandboxes[..|sandboxes| - 1];
      DisposeErrorsAreFailures(init, throws, k);
      if exists i :: 0 <= i < |init| && init[i].0 == k && throws(init[i].1) {
        var i :| 0 <= i < |init| && init[i].0 == k && throws(init[i].1);
        assert sandboxes[i] == init[i];
      }
      if exists i :: 0 <= i < |sandboxes| && sandboxes[i].0 == k && throws(sandboxes[i].1) {
        var i :| 0 <= i < |sandboxes| && sandboxes[i].0 == k && throws(sandboxes[i].1);
        if i < |init| {
          assert init[i] == sandboxes[i];
        }
      }
    }
  }

  // ---------------------------------------------------------------------------
  // The module's two maps
  // ---------------------------------------------------------------------------

  class SandboxRegistry {
    var sandboxes: M.Entries<Backend>
    var ids: M.Entries<string>

    function State(): Registry
      reads this
    {
      Registry(sandboxes, ids)
    }

    /** Every key is listed at most once in each map. */
    predicate Valid()
      reads this
    {
      KeysUnique(State())
    }

    constructor ()
      ensures Valid()
      ensures State() == Registry([], [])
    {
      sandboxes := [];
      ids := [];
    }

    method SetE2BSandbox(key: string, sandbox: Backend)
      requires Valid()
      modifies this
      ensures Valid()
      ensures State() == Stored(old(State()), key, sandbox)
    {
      StoredLookups(State(), key, sandbox, key);
      sandboxes := M.Set(sandboxes, key, sandbox);
      if sandbox.id.Some? && sandbox.id.value != "" {
        ids := M.Set(ids, key, sandbox.id.value);
      }
    }

    function GetE2BSandbox(key: string): Option<Backend>
      reads this
    {
      M.Get(sandboxes, key)
    }

    function GetE2BSandboxId(key: string): Option<string>
      reads this
    {
      M.Get(ids, key)
    }

    method SetE2BSandboxId(key: string, e2bId: string)
      requires Valid()
      modifies this
      ensures Valid()
      ensures State() == IdStored(old(State()), key, e2bId)
    {
      IdStoredLookups(State(), key, e2bId, key);
      ids := M.Set(ids, key, e2bId);
    }

    function HasE2BSandbox(key: string): bool
      reads this
    {
      HasSandbox(State(), key)
    }

    method RemoveE2BSandbox(key: string) returns (removed: bool)
      requires Valid()
      modifies this
      ensures Valid()
      ensures (State(), removed) == Removed(old(State()), key)
    {
      RemovedLookups(State(), key, key);
      ids := M.Delete(ids, key);
      removed := M.Has(sandboxes, key);
      sandboxes := M.Delete(sandboxes, key);
    }

    function GetActiveE2BSandboxIds(): seq<string>
      reads this
    {
      ActiveIds(State())
    }

    /** `clearAllE2BSandboxes`: every instance is disposed in map order, a
        dispose that throws is logged (`throws` says which do) and the loop
        goes on; then both maps are emptied. */
    method ClearAllE2BSandboxes(throws: Backend -> bool) returns (logged: seq<string>)
      modifies this
      ensures logged == DisposeErrors(old(sandboxes), throws)
      ensures Valid()
      ensures State() == Registry([], [])
    {
      logged := [];
      var i := 0;
      while i < |sandboxes|
        invariant 0 <= i <= |sandboxes|
        invariant logged == DisposeErrors(sandboxes[..i], throws)
      {
        assert sandboxes[..i + 1][..i] == sandboxes[..i];
        if throws(sandboxes[i].1) {
          logged := logged + [sandboxes[i].0];
        }
        i := i + 1;
      }
      assert sandboxes[..i] == sandboxes;
      sandboxes := [];
      ids := [];
    }
  }
}
