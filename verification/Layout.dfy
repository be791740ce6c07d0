/**
 How the three maps of the control plane (pods, replica sets and nodes by name)
 lie side by side in one key space. A key is a base string followed by a name;
 nothing here depends on which bases are used, only on their being unrelated.
 */
module Layout {
  import opened Wrappers
  import opened Api
  import opened KeyOrder

  datatype Object = PodObject(pod: Pod) | SetObject(rs: ReplicaSet) | NodeObject(node: Node)

  datatype Kind = PodKind | SetKind | NodeKind

  datatype World = World(pods: map<string, Pod>, sets: map<string, ReplicaSet>, nodes: map<string, Node>) {
    function Store(o: Object): World {
      match o
      case PodObject(p) => this.(pods := pods[p.meta.name := p])
      case SetObject(rs) => this.(sets := sets[rs.meta.name := rs])
      case NodeObject(n) => this.(nodes := nodes[n.meta.name := n])
    }

    function Without(kind: Kind, name: string): World {
      match kind
      case PodKind => this.(pods := pods - {name})
      case SetKind => this.(sets := sets - {name})
      case NodeKind => this.(nodes := nodes - {name})
    }

    /** The map of one kind, as objects. */
    function Objects(kind: Kind): map<string, Object> {
      match kind
      case PodKind => PodObjects(pods)
      case SetKind => SetObjects(sets)
      case NodeKind => NodeObjects(nodes)
    }
  }

  /** Names agree with their keys; pods and nodes are valid. */
  predicate WellFormed(w: World) {
    && (forall n | n in w.pods :: w.pods[n].meta.name == n && ValidPod(w.pods[n]))
    && (forall n | n in w.sets :: w.sets[n].meta.name == n)
    && (forall n | n in w.nodes :: w.nodes[n].meta.name == n && ValidNode(w.nodes[n]))
  }

  /** Pods and nodes are only stored when they are valid; replica sets are not checked. */
  predicate ValidObject(o: Object) {
    match o
    case PodObject(p) => ValidPod(p)
    case SetObject(_) => true
    case NodeObject(n) => ValidNode(n)
  }

  function PodObjects(m: map<string, Pod>): map<string, Object> {
    map n | n in m :: PodObject(m[n])
  }

  function SetObjects(m: map<string, ReplicaSet>): map<string, Object> {
    map n | n in m :: SetObject(m[n])
  }

  function NodeObjects(m: map<string, Node>): map<string, Object> {
    map n | n in m :: NodeObject(m[n])
  }

  function Key(base: string, name: string): string {
    base + name
  }

  lemma KeyIsInjective(base: string, a: string, b: string)
    ensures Key(base, a) == Key(base, b) <==> a == b
  {
    if Key(base, a) == Key(base, b) {
      assert a == Key(base, a)[|base|..] && b == Key(base, b)[|base|..];
    }
  }

  lemma KeysAreDisjoint(base1: string, base2: string, a: string, b: string)
    requires Unrelated(base1, base2)
    ensures Key(base1, a) != Key(base2, b)
  {
    assert base1 <= Key(base1, a) && base2 <= Key(base2, b);
  }

  /** The bases of the three kinds of keys, and the prefix under which replica sets are listed. */
  datatype Keys = Keys(pod: string, rs: string, node: string, rsList: string) {
    predicate Separate() {
      && pod != rs && pod != node && rs != node
      && Unrelated(pod, rs) && Unrelated(pod, node) && Unrelated(rs, node)
      && HasPrefix(rs, rsList) && Unrelated(rsList, pod) && Unrelated(rsList, node)
      && node != "" && Unrelated(node[..|node| - 1], pod) && Unrelated(node[..|node| - 1], rs)
    }

    function Base(kind: Kind): string {
      match kind
      case PodKind => pod
      case SetKind => rs
      case NodeKind => node
    }

    /** The prefix a kind is listed under. */
    function ListBase(kind: Kind): string {
      if kind == SetKind then rsList else Base(kind)
    }
  }

  function KindOf(o: Object): Kind {
    match o
    case PodObject(_) => PodKind
    case SetObject(_) => SetKind
    case NodeObject(_) => NodeKind
  }

  function NameOf(o: Object): string {
    match o
    case PodObject(p) => p.meta.name
    case SetObject(rs) => rs.meta.name
    case NodeObject(n) => n.meta.name
  }

  predicate PlacedAt(k: string, o: Object, keys: Keys) {
    ValidObject(o) && k == Key(keys.Base(KindOf(o)), NameOf(o))
  }

  /** Every stored object is valid and sits at the key of its own name. */
  predicate Placed(kv: map<string, Object>, keys: Keys) {
    forall k {:trigger PlacedAt(k, kv[k], keys)} | k in kv :: PlacedAt(k, kv[k], keys)
  }

  /** What the store holds under one base, by name. */
  ghost predicate Section(kv: map<string, Object>, base: string, objects: map<string, Object>) {
    forall n :: Lookup(kv, Key(base, n)) == Lookup(objects, n)
  }

  /** The store is the three maps laid out side by side. */
  ghost predicate Holds(kv: map<string, Object>, w: World, keys: Keys) {
    && keys.Separate()
    && Placed(kv, keys)
    && forall kind :: Section(kv, keys.Base(kind), w.Objects(kind))
  }

  lemma EmptyHolds(keys: Keys)
    requires keys.Separate()
    ensures Holds(map[], World(map[], map[], map[]), keys)
  {
  }

  /** A put updates the section of its own base and leaves the section of any other. */
  lemma PutSection(kv: map<string, Object>, base: string, before: map<string, Object>, after: map<string, Object>,
                   other: string, name: string, o: Object)
    requires Section(kv, base, before)
    requires base == other || Unrelated(base, other) || Unrelated(other, base)
    requires after == if base == other then before[name := o] else before
    ensures Section(kv[Key(other, name) := o], base, after)
  {
    forall n ensures Lookup(kv[Key(other, name) := o], Key(base, n)) == Lookup(after, n) {
      if base == other {
        KeyIsInjective(base, n, name);
      } else {
        KeysAreDisjoint(base, other, n, name);
      }
    }
  }

  /** So does a removal. */
  lemma RemoveSection(kv: map<string, Object>, base: string, before: map<string, Object>, after: map<string, Object>,
                      other: string, name: string)
    requires Section(kv, base, before)
    requires base == other || Unrelated(base, other) || Unrelated(other, base)
    requires after == if base == other then before - {name} else before
    ensures Section(kv - {Key(other, name)}, base, after)
  {
    forall n ensures Lookup(kv - {Key(other, name)}, Key(base, n)) == Lookup(after, n) {
      if base == other {
        KeyIsInjective(base, n, name);
      } else {
        KeysAreDisjoint(base, other, n, name);
      }
    }
  }

  lemma ObjectsAfterPut(w: World, o: Object, kind: Kind)
    ensures w.Store(o).Objects(kind) == if KindOf(o) == kind then w.Objects(kind)[NameOf(o) := o] else w.Objects(kind)
  {
  }

  lemma ObjectsAfterRemoval(w: World, removed: Kind, name: string, kind: Kind)
    ensures w.Without(removed, name).Objects(kind) == if removed == kind then w.Objects(kind) - {name} else w.Objects(kind)
  {
  }

  lemma BasesAreSeparate(keys: Keys, a: Kind, b: Kind)
    requires keys.Separate()
    ensures keys.Base(a) == keys.Base(b) <==> a == b
    ensures a != b ==> Unrelated(keys.Base(a), keys.Base(b)) || Unrelated(keys.Base(b), keys.Base(a))
  {
  }

  lemma RemovePlaced(kv: map<string, Object>, keys: Keys, k: string)
    requires Placed(kv, keys)
    ensures Placed(kv - {k}, keys)
  {
  }

  lemma PutPlaced(kv: map<string, Object>, keys: Keys, o: Object)
    requires Placed(kv, keys) && ValidObject(o)
    ensures Placed(kv[Key(keys.Base(KindOf(o)), NameOf(o)) := o], keys)
  {
  }

  /** Storing an object at the key of its name stores it in its own map and leaves the others alone. */
  lemma PutHolds(kv: map<string, Object>, w: World, keys: Keys, o: Object)
    requires Holds(kv, w, keys) && ValidObject(o)
    ensures Holds(kv[Key(keys.Base(KindOf(o)), NameOf(o)) := o], w.Store(o), keys)
  {
    var base, name := keys.Base(KindOf(o)), NameOf(o);
    PutPlaced(kv, keys, o);
    forall kind ensures Section(kv[Key(base, name) := o], keys.Base(kind), w.Store(o).Objects(kind)) {
      ObjectsAfterPut(w, o, kind);
      BasesAreSeparate(keys, kind, KindOf(o));
      PutSection(kv, keys.Base(kind), w.Objects(kind), w.Store(o).Objects(kind), base, name, o);
    }
  }

  /** Removing a key removes the name from the map of its kind and leaves the others alone. */
  lemma RemoveHolds(kv: map<string, Object>, w: World, keys: Keys, removed: Kind, name: string)
    requires Holds(kv, w, keys)
    ensures Holds(kv - {Key(keys.Base(removed), name)}, w.Without(removed, name), keys)
  {
    var base, w' := keys.Base(removed), w.Without(removed, name);
    RemovePlaced(kv, keys, Key(base, name));
    forall kind ensures Section(kv - {Key(base, name)}, keys.Base(kind), w'.Objects(kind)) {
      ObjectsAfterRemoval(w, removed, name, kind);
      BasesAreSeparate(keys, kind, removed);
      RemoveSection(kv, keys.Base(kind), w.Objects(kind), w'.Objects(kind), base, name);
    }
  }

  /** Names agree with their keys, and what is stored is valid. */
  lemma HeldWorldIsWellFormed(kv: map<string, Object>, w: World, keys: Keys)
    requires Holds(kv, w, keys)
    ensures WellFormed(w)
  {
    forall n | n in w.pods ensures w.pods[n].meta.name == n && ValidPod(w.pods[n]) {
      HeldObject(kv, w, keys, PodKind, n);
    }
    forall n | n in w.sets ensures w.sets[n].meta.name == n {
      HeldObject(kv, w, keys, SetKind, n);
    }
    forall n | n in w.nodes ensures w.nodes[n].meta.name == n && ValidNode(w.nodes[n]) {
      HeldObject(kv, w, keys, NodeKind, n);
    }
  }

  lemma HeldObject(kv: map<string, Object>, w: World, keys: Keys, kind: Kind, n: string)
    requires Holds(kv, w, keys) && n in w.Objects(kind)
    ensures var o := w.Objects(kind)[n]; ValidObject(o) && NameOf(o) == n
  {
    var k, o := Key(keys.Base(kind), n), w.Objects(kind)[n];
    assert Section(kv, keys.Base(kind), w.Objects(kind));
    assert Lookup(kv, k) == Some(o);
    assert PlacedAt(k, kv[k], keys);
    KeyIsInjective(keys.Base(kind), n, NameOf(o));
  }

  // ---- Ranges ----

  /** The keys under a prefix, in the order etcd returns them. */
  ghost function Range(keys: set<string>, prefix: string): (r: seq<string>)
    ensures Ordered(r)
    ensures forall k :: k in r <==> k in keys && HasPrefix(k, prefix)
    ensures forall i | 0 <= i < |r| :: r[i] in keys
  {
    Sorted(set k | k in keys && HasPrefix(k, prefix))
  }

  /** The values of a map in the order of their names. */
  ghost function Values<T>(m: map<string, T>): (r: seq<T>)
    ensures |r| == |m|
  {
    var names := Sorted(m.Keys);
    seq(|names|, i requires 0 <= i < |names| => m[names[i]])
  }

  /** A listing holds what the map holds, once for each name, and the names ascend. */
  lemma ValuesByAscendingName<T>(m: map<string, T>) returns (names: seq<string>)
    ensures |names| == |Values(m)| && (forall n :: n in names <==> n in m)
    ensures forall i | 0 <= i < |names| :: names[i] in m && Values(m)[i] == m[names[i]]
    ensures forall i: nat, j: nat | i < j < |names| :: Less(names[i], names[j]) && names[i] != names[j]
  {
    names := Sorted(m.Keys);
    forall i | 0 <= i < |names| ensures names[i] in m && Values(m)[i] == m[names[i]] {
      assert names[i] in names;
    }
    forall i: nat, j: nat | i < j < |names| ensures Less(names[i], names[j]) && names[i] != names[j] {
      assert Precedes(names, i, j);
      OrderedIsDistinct(names, i, j);
    }
  }

  ghost function Prefixed(base: string, names: seq<string>): seq<string> {
    seq(|names|, i requires 0 <= i < |names| => Key(base, names[i]))
  }

  lemma PrefixedIsOrdered(base: string, names: seq<string>)
    requires Ordered(names)
    ensures Ordered(Prefixed(base, names))
  {
    forall i: nat, j: nat | i < j < |names| ensures Precedes(Prefixed(base, names), i, j) {
      assert Precedes(names, i, j);
      LessUnderPrefix(base, names[i], names[j]);
    }
  }

  lemma PrefixedMembers(base: string, names: seq<string>, k: string)
    ensures k in Prefixed(base, names) <==> HasPrefix(k, base) && k[|base|..] in names
  {
    if k in Prefixed(base, names) {
      var i :| 0 <= i < |names| && Prefixed(base, names)[i] == k;
      assert k[|base|..] == names[i];
    }
    if HasPrefix(k, base) && k[|base|..] in names {
      var i :| 0 <= i < |names| && names[i] == k[|base|..];
      assert Prefixed(base, names)[i] == k;
    }
  }

  lemma SectionMember(kv: map<string, Object>, base: string, objects: map<string, Object>, k: string)
    requires Section(kv, base, objects) && HasPrefix(k, base)
    ensures Lookup(kv, k) == Lookup(objects, k[|base|..])
  {
    assert k == Key(base, k[|base|..]);
  }

  /** Under a prefix that only keys with a given base can have, the range holds the section in the order of names. */
  lemma SectionRange(kv: map<string, Object>, base: string, objects: map<string, Object>, prefix: string)
    requires Section(kv, base, objects) && HasPrefix(base, prefix)
    requires forall k | k in kv && HasPrefix(k, prefix) :: HasPrefix(k, base)
    ensures Range(kv.Keys, prefix) == Prefixed(base, Sorted(objects.Keys))
  {
    var names := Sorted(objects.Keys);
    var under, range := Prefixed(base, names), Range(kv.Keys, prefix);
    PrefixedIsOrdered(base, names);
    forall k ensures k in under <==> k in range {
      PrefixedMembers(base, names, k);
      if HasPrefix(k, base) {
        SectionMember(kv, base, objects, k);
      }
    }
    OrderedIsUnique(under, range);
  }

  lemma SectionValues(kv: map<string, Object>, base: string, objects: map<string, Object>, i: nat)
    requires Section(kv, base, objects) && i < |objects|
    ensures var k := Prefixed(base, Sorted(objects.Keys))[i];
            k in kv && kv[k] == Values(objects)[i]
  {
    var n := Sorted(objects.Keys)[i];
    assert Lookup(kv, Key(base, n)) == Lookup(objects, n);
    assert n in Sorted(objects.Keys);
  }

  /** Only the objects of one kind have keys with its listing prefix. */
  lemma PrefixSelectsOneBase(kv: map<string, Object>, keys: Keys, kind: Kind)
    requires keys.Separate() && Placed(kv, keys)
    ensures forall k | k in kv && HasPrefix(k, keys.ListBase(kind)) :: HasPrefix(k, keys.Base(kind))
  {
    forall k | k in kv && HasPrefix(k, keys.ListBase(kind)) ensures HasPrefix(k, keys.Base(kind)) {
      assert PlacedAt(k, kv[k], keys);
      BaseOfPrefix(k, keys.Base(KindOf(kv[k])), keys.ListBase(kind));
    }
  }

  lemma BaseOfPrefix(k: string, base: string, prefix: string)
    requires HasPrefix(k, base) && HasPrefix(k, prefix)
    ensures !Unrelated(base, prefix) && !Unrelated(prefix, base)
  {
  }
}
