/**
 The shared key-value store (pkg/storage/etcd_storage.go).

 Encoding and decoding round-trip, so the store holds objects. A call to etcd may
 fail at any moment; a failed call has no effect. `flaky` permits failures of
 writes and range reads, `flakyGets` permits failures of single-key reads.
 */
module Storage {
  import opened Wrappers
  import opened Api
  import opened KeyOrder
  import opened Layout

  datatype StorageError = NotFound | Unavailable

  /** The key prefixes of the three registries. */
  const KEYS: Keys := Keys("/pods/", "/replicasets/", "/registry/nodes/", "/replicasets")

  /** None of the prefixes in use is a prefix of another kind's. */
  lemma RegistryKeysAreSeparate()
    ensures KEYS.Separate()
  {
    assert KEYS.pod[1] == 'p' && KEYS.rs[1] == 'r' && KEYS.node[1] == 'r' && KEYS.rsList[1] == 'r';
    assert KEYS.rs[3] == 'p' && KEYS.rsList[3] == 'p' && KEYS.node[3] == 'g';
  }

  function Segments(path: string): (r: seq<string>)
    ensures r != []
  {
    if path == "" then [""]
    else
      var rest := Segments(path[1..]);
      if path[0] == '/' then [""] + rest else [[path[0]] + rest[0]] + rest[1..]
  }

  /** Names that path.Join appends unchanged: no empty or dot segments. */
  predicate CleanPath(name: string) {
    name == "" || forall segment | segment in Segments(name) :: segment != "" && segment != "." && segment != ".."
  }

  /** A registry's key for a name. Nodes use path.Join; with an empty name the trailing slash goes. */
  function KeyFor(keys: Keys, kind: Kind, name: string): string
    requires keys.Separate() && (kind == NodeKind ==> CleanPath(name))
  {
    if kind == NodeKind && name == "" then keys.node[..|keys.node| - 1] else Key(keys.Base(kind), name)
  }

  class EtcdStorage {
    var kv: map<string, Object>
    const keys: Keys
    const flaky: bool
    const flakyGets: bool
    /** The three maps the store holds. */
    ghost var world: World

    ghost predicate Valid()
      reads this
    {
      Holds(kv, world, keys)
    }

    constructor (flaky: bool, flakyGets: bool)
      ensures Valid() && keys == KEYS && world == World(map[], map[], map[])
      ensures this.flaky == flaky && this.flakyGets == flakyGets
    {
      RegistryKeysAreSeparate();
      kv := map[];
      keys := KEYS;
      world := World(map[], map[], map[]);
      this.flaky := flaky;
      this.flakyGets := flakyGets;
      EmptyHolds(KEYS);
    }

    /** Create and Update are the same unconditional put. */
    method Put(key: string, obj: Object) returns (err: Option<StorageError>)
      modifies this`kv
      ensures err.None? ==> kv == old(kv)[key := obj]
      ensures err.Some? ==> flaky && err.value == Unavailable && kv == old(kv)
    {
      var fails: bool := *;
      if flaky && fails {
        return Some(Unavailable);
      }
      kv := kv[key := obj];
      return None;
    }

    method Get(key: string) returns (r: Result<Object, StorageError>)
      ensures r.Ok? ==> Lookup(kv, key) == Some(r.value)
      ensures r == Err(NotFound) ==> Lookup(kv, key) == None
      ensures r.Err? && r != Err(NotFound) ==> flakyGets && r == Err(Unavailable)
    {
      var fails: bool := *;
      if flakyGets && fails {
        return Err(Unavailable);
      }
      if key !in kv {
        return Err(NotFound);
      }
      return Ok(kv[key]);
    }

    method Delete(key: string) returns (err: Option<StorageError>)
      modifies this`kv
      ensures err.None? ==> kv == old(kv) - {key}
      ensures err.Some? ==> flaky && err.value == Unavailable && kv == old(kv)
    {
      var fails: bool := *;
      if flaky && fails {
        return Some(Unavailable);
      }
      kv := kv - {key};
      return None;
    }

    /** etcd's range read: the keys under the prefix, in order. */
    method ReadRange(prefix: string) returns (range: seq<string>)
      ensures range == Range(kv.Keys, prefix)
    {
      var rest := set k | k in kv && HasPrefix(k, prefix);
      ghost var all := rest;
      range := [];
      while rest != {}
        invariant rest <= all
        invariant forall k :: k in range <==> k in all && k !in rest
        invariant Ordered(range)
        invariant forall j, k | j in range && k in rest :: Less(j, k)
        decreases rest
      {
        ghost var least := LeastExists(rest);
        var k :| k in rest && forall j | j in rest && j != k :: Less(k, j);
        AppendIsOrdered(range, k);
        range := range + [k];
        rest := rest - {k};
      }
      OrderedIsUnique(range, Range(kv.Keys, prefix));
    }

    /** The objects a prefix selects, in key order. */
    method List(prefix: string) returns (r: Result<seq<Object>, StorageError>)
      ensures r.Ok? ==>
                var range := Range(kv.Keys, prefix);
                && |r.value| == |range|
                && (forall i | 0 <= i < |range| :: r.value[i] == kv[range[i]])
      ensures r.Err? ==> flaky && r == Err(Unavailable)
    {
      var fails: bool := *;
      if flaky && fails {
        return Err(Unavailable);
      }
      var range := ReadRange(prefix);
      var items: seq<Object> := [];
      for i := 0 to |range|
        invariant |items| == i
        invariant forall j | 0 <= j < i :: items[j] == kv[range[j]]
      {
        items := items + [kv[range[i]]];
      }
      return Ok(items);
    }
  }

  // ---- What the store shows under one key and one prefix ----

  lemma NoObjectUnderTheBareBase(kv: map<string, Object>, w: World, keys: Keys)
    requires Holds(kv, w, keys)
    ensures keys.node[..|keys.node| - 1] !in kv && "" !in w.nodes
  {
    HeldWorldIsWellFormed(kv, w, keys);
    var k := keys.node[..|keys.node| - 1];
    if k in kv {
      assert PlacedAt(k, kv[k], keys);
      BaseOfPrefix(k, keys.Base(KindOf(kv[k])), k);
    }
  }

  lemma ObjectAt(kv: map<string, Object>, w: World, keys: Keys, kind: Kind, name: string)
    requires Holds(kv, w, keys) && (kind == NodeKind ==> CleanPath(name))
    ensures Lookup(kv, KeyFor(keys, kind, name)) == Lookup(w.Objects(kind), name)
  {
    NoObjectUnderTheBareBase(kv, w, keys);
    assert Section(kv, keys.Base(kind), w.Objects(kind));
    assert Lookup(kv, Key(keys.Base(kind), name)) == Lookup(w.Objects(kind), name);
  }

  /** The key of the empty node name holds nothing, so removing it changes nothing. */
  lemma BareRemovalHolds(kv: map<string, Object>, w: World, keys: Keys)
    requires Holds(kv, w, keys)
    ensures kv - {KeyFor(keys, NodeKind, "")} == kv && w.Without(NodeKind, "") == w
  {
    NoObjectUnderTheBareBase(kv, w, keys);
    assert w.nodes - {""} == w.nodes;
  }

  /** Removing the key of a name removes the name. */
  lemma RemovalHolds(kv: map<string, Object>, w: World, keys: Keys, kind: Kind, name: string)
    requires Holds(kv, w, keys) && (kind == NodeKind ==> CleanPath(name))
    ensures Holds(kv - {KeyFor(keys, kind, name)}, w.Without(kind, name), keys)
  {
    if kind == NodeKind && name == "" {
      BareRemovalHolds(kv, w, keys);
    } else {
      RemoveHolds(kv, w, keys, kind, name);
    }
  }

  /** The range under a registry's listing prefix is its own map in the order of names. */
  lemma RangeOf(kv: map<string, Object>, w: World, keys: Keys, kind: Kind)
    requires Holds(kv, w, keys)
    ensures var r := Range(kv.Keys, keys.ListBase(kind));
            |r| == |w.Objects(kind)| && forall i | 0 <= i < |r| :: kv[r[i]] == Values(w.Objects(kind))[i]
  {
    var objects := w.Objects(kind);
    assert Section(kv, keys.Base(kind), objects);
    PrefixSelectsOneBase(kv, keys, kind);
    SectionRange(kv, keys.Base(kind), objects, keys.ListBase(kind));
    forall i | 0 <= i < |objects| ensures kv[Range(kv.Keys, keys.ListBase(kind))[i]] == Values(objects)[i] {
      SectionValues(kv, keys.Base(kind), objects, i);
    }
  }

  lemma ValuesOfObjects(w: World)
    ensures |w.Objects(PodKind)| == |w.pods| && |w.Objects(SetKind)| == |w.sets| && |w.Objects(NodeKind)| == |w.nodes|
    ensures forall i | 0 <= i < |w.pods| :: Values(w.Objects(PodKind))[i] == PodObject(Values(w.pods)[i])
    ensures forall i | 0 <= i < |w.sets| :: Values(w.Objects(SetKind))[i] == SetObject(Values(w.sets)[i])
    ensures forall i | 0 <= i < |w.nodes| :: Values(w.Objects(NodeKind))[i] == NodeObject(Values(w.nodes)[i])
  {
    assert w.Objects(PodKind).Keys == w.pods.Keys;
    assert w.Objects(SetKind).Keys == w.sets.Keys;
    assert w.Objects(NodeKind).Keys == w.nodes.Keys;
  }
}
