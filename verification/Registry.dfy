/**
 The pod, replica set and node registries (pkg/registry) over one shared store.

 Every operation is specified on three independent maps from name to object:
 `Ideal` is its effect and reply when every call to etcd succeeds, `Blind` what
 it does when its existence check fails although etcd is otherwise up.
 */
module Registry {
  import opened Wrappers
  import opened Api
  import opened Layout
  import opened Storage

  datatype RegistryError = AlreadyExists | Missing | Invalid | Internal | ListFailed | StorageFailed

  datatype Op =
    | CreatePod(pod: Pod)
    | GetPod(name: string)
    | UpdatePod(pod: Pod)
    | DeletePod(name: string)
    | ListPods
    | ListPending
    | CreateSet(rs: ReplicaSet)
    | GetSet(name: string)
    | UpdateSet(rs: ReplicaSet)
    | DeleteSet(name: string)
    | ListSets
    | CreateNode(node: Node)
    | GetNode(name: string)
    | UpdateNode(node: Node)
    | DeleteNode(name: string)
    | ListNodes

  datatype Reply =
    | Done
    | Fail(error: RegistryError)
    | APod(pod: Pod)
    | Pods(pods: seq<Pod>)
    | ASet(rs: ReplicaSet)
    | Sets(sets: seq<ReplicaSet>)
    | ANode(node: Node)
    | Nodes(nodes: seq<Node>)

  /** Node names that the key builder takes over unchanged. */
  predicate Admissible(op: Op) {
    match op
    case CreateNode(n) => CleanPath(n.meta.name)
    case UpdateNode(n) => CleanPath(n.meta.name)
    case GetNode(name) => CleanPath(name)
    case DeleteNode(name) => CleanPath(name)
    case _ => true
  }

  /** A pod without a status is stored as Pending. */
  function Defaulted(p: Pod): Pod {
    if p.status == Unset then p.(status := Pending) else p
  }

  function WithStatus(pods: seq<Pod>, status: PodStatus): seq<Pod> {
    if pods == [] then []
    else
      var rest := WithStatus(pods[..|pods| - 1], status);
      var last := pods[|pods| - 1];
      if last.status == status then rest + [last] else rest
  }

  ghost function Ideal(w: World, op: Op): (World, Reply) {
    match op
    case CreatePod(p) => if p.meta.name in w.pods then (w, Fail(AlreadyExists)) else Blind(w, op)
    case GetPod(name) => (w, if name in w.pods then APod(w.pods[name]) else Fail(Missing))
    case UpdatePod(p) => if !ValidPod(p) then (w, Fail(Invalid)) else (w.Store(PodObject(p)), Done)
    case DeletePod(name) => (w.(pods := w.pods - {name}), Done)
    case ListPods => (w, Pods(Values(w.pods)))
    case ListPending => (w, Pods(WithStatus(Values(w.pods), Pending)))
    case CreateSet(rs) => if rs.meta.name in w.sets then (w, Fail(AlreadyExists)) else Blind(w, op)
    case GetSet(name) => (w, if name in w.sets then ASet(w.sets[name]) else Fail(Missing))
    case UpdateSet(rs) => if rs.meta.name !in w.sets then (w, Fail(Missing)) else (w.Store(SetObject(rs)), Done)
    case DeleteSet(name) => (w.(sets := w.sets - {name}), Done)
    case ListSets => (w, Sets(Values(w.sets)))
    case CreateNode(n) => if n.meta.name in w.nodes then (w, Fail(AlreadyExists)) else Blind(w, op)
    case GetNode(name) => (w, if name in w.nodes then ANode(w.nodes[name]) else Fail(Missing))
    case UpdateNode(n) => if !ValidNode(n) then (w, Fail(Invalid)) else (w.Store(NodeObject(n)), Done)
    case DeleteNode(name) => (w.(nodes := w.nodes - {name}), Done)
    case ListNodes => (w, Nodes(Values(w.nodes)))
  }

  /** The outcome when the single-key read of an operation fails. */
  ghost function Blind(w: World, op: Op): (World, Reply) {
    match op
    case CreatePod(p) => if !ValidPod(Defaulted(p)) then (w, Fail(Invalid)) else (w.Store(PodObject(Defaulted(p))), Done)
    case CreateSet(rs) => (w.Store(SetObject(rs)), Done)
    case CreateNode(n) => if !ValidNode(n) then (w, Fail(Invalid)) else (w.Store(NodeObject(n)), Done)
    case GetPod(_) => (w, Fail(Internal))
    case GetNode(_) => (w, Fail(Internal))
    case _ => (w, Fail(Missing))
  }

  predicate ReadsOneKey(op: Op) {
    op.CreatePod? || op.GetPod? || op.CreateSet? || op.GetSet? || op.UpdateSet? || op.CreateNode? || op.GetNode?
  }

  /** The reply when the write or the range read of an operation fails. */
  function Down(op: Op): RegistryError {
    if op.ListPods? || op.ListPending? || op.ListSets? || op.ListNodes? then ListFailed else StorageFailed
  }

  /** The outcomes an operation may have, given which calls may fail. */
  ghost predicate Behaves(w: World, op: Op, w': World, reply: Reply, flaky: bool, flakyGets: bool) {
    var blind := flakyGets && ReadsOneKey(op);
    || (w', reply) == Ideal(w, op)
    || (blind && (w', reply) == Blind(w, op))
    || (&& flaky && !op.GetPod? && !op.GetSet? && !op.GetNode?
        && w' == w && reply == Fail(Down(op))
        && (!Ideal(w, op).1.Fail? || (blind && !Blind(w, op).1.Fail?)))
  }

  function Acknowledge(err: Option<RegistryError>): Reply {
    if err.None? then Done else Fail(err.value)
  }

  function PodReply(r: Result<Pod, RegistryError>): Reply {
    if r.Ok? then APod(r.value) else Fail(r.error)
  }

  function PodsReply(r: Result<seq<Pod>, RegistryError>): Reply {
    if r.Ok? then Pods(r.value) else Fail(r.error)
  }

  function SetReply(r: Result<ReplicaSet, RegistryError>): Reply {
    if r.Ok? then ASet(r.value) else Fail(r.error)
  }

  function SetsReply(r: Result<seq<ReplicaSet>, RegistryError>): Reply {
    if r.Ok? then Sets(r.value) else Fail(r.error)
  }

  function NodeReply(r: Result<Node, RegistryError>): Reply {
    if r.Ok? then ANode(r.value) else Fail(r.error)
  }

  function NodesReply(r: Result<seq<Node>, RegistryError>): Reply {
    if r.Ok? then Nodes(r.value) else Fail(r.error)
  }

  lemma {:induction false} WithStatusSelects(pods: seq<Pod>, status: PodStatus)
    ensures forall p :: p in WithStatus(pods, status) <==> p in pods && p.status == status
  {
    if pods != [] {
      WithStatusSelects(pods[..|pods| - 1], status);
    }
  }

  /** The filter keeps the pods of a status, each where it was and in order. */
  lemma {:induction false} WithStatusInOrder(pods: seq<Pod>, status: PodStatus) returns (at: seq<nat>)
    ensures Positions(at, set i | 0 <= i < |pods| && pods[i].status == status)
    ensures |WithStatus(pods, status)| == |at|
    ensures forall j | 0 <= j < |at| :: at[j] < |pods| && WithStatus(pods, status)[j] == pods[at[j]]
  {
    if pods == [] {
      at := [];
    } else {
      var n := |pods| - 1;
      var pre := pods[..n];
      var before := WithStatusInOrder(pre, status);
      var kept := set i | 0 <= i < |pre| && pre[i].status == status;
      var now := set i | 0 <= i < |pods| && pods[i].status == status;
      if pods[n].status == status {
        OneMorePosition(before, kept, n);
        assert now == kept + {n};
        at := before + [n];
      } else {
        assert now == kept;
        at := before;
      }
    }
  }

  // ---- Calls on the store, by name and kind ----

  method Fetch(storage: EtcdStorage, kind: Kind, name: string) returns (r: Result<Object, StorageError>)
    requires storage.Valid() && (kind == NodeKind ==> CleanPath(name))
    ensures r.Ok? ==> Lookup(storage.world.Objects(kind), name) == Some(r.value)
    ensures r == Err(NotFound) ==> name !in storage.world.Objects(kind)
    ensures r.Err? && r != Err(NotFound) ==> storage.flakyGets && r == Err(Unavailable)
  {
    ObjectAt(storage.kv, storage.world, storage.keys, kind, name);
    r := storage.Get(KeyFor(storage.keys, kind, name));
  }

  /** The put of a key, after which the store holds `world'`, unless it fails. */
  method PutAt(storage: EtcdStorage, key: string, o: Object, ghost world': World) returns (err: Option<RegistryError>)
    requires storage.Valid() && Holds(storage.kv[key := o], world', storage.keys)
    modifies storage
    ensures storage.Valid()
    ensures err.None? ==> storage.world == world'
    ensures err.Some? ==> storage.flaky && err == Some(StorageFailed) && storage.world == old(storage.world)
  {
    var e := storage.Put(key, o);
    if e.Some? {
      return Some(StorageFailed);
    }
    storage.world := world';
    return None;
  }

  /** The put that ends every Create and Update: the object goes into its own map, or nothing happens. */
  method Write(storage: EtcdStorage, o: Object) returns (err: Option<RegistryError>)
    requires storage.Valid() && ValidObject(o)
    modifies storage
    ensures storage.Valid()
    ensures err.None? ==> storage.world == old(storage.world).Store(o)
    ensures err.Some? ==> storage.flaky && err == Some(StorageFailed) && storage.world == old(storage.world)
  {
    ghost var world' := storage.world.Store(o);
    PutHolds(storage.kv, storage.world, storage.keys, o);
    err := PutAt(storage, Key(storage.keys.Base(KindOf(o)), NameOf(o)), o, world');
  }

  /** The delete of a key, after which the store holds `world'`, unless it fails. */
  method RemoveAt(storage: EtcdStorage, key: string, ghost world': World) returns (err: Option<RegistryError>)
    requires storage.Valid() && Holds(storage.kv - {key}, world', storage.keys)
    modifies storage
    ensures storage.Valid()
    ensures err.None? ==> storage.world == world'
    ensures err.Some? ==> storage.flaky && err == Some(StorageFailed) && storage.world == old(storage.world)
  {
    ghost var kv' := storage.kv - {key};
    var e := storage.Delete(key);
    if e.Some? {
      return Some(StorageFailed);
    }
    assert storage.kv == kv';
    storage.world := world';
    return None;
  }

  /** The delete of a name's key: the name leaves its own map, or nothing happens. */
  method Remove(storage: EtcdStorage, kind: Kind, name: string) returns (err: Option<RegistryError>)
    requires storage.Valid() && (kind == NodeKind ==> CleanPath(name))
    modifies storage
    ensures storage.Valid()
    ensures err.None? ==> storage.world == old(storage.world).Without(kind, name)
    ensures err.Some? ==> storage.flaky && err == Some(StorageFailed) && storage.world == old(storage.world)
  {
    RemovalHolds(storage.kv, storage.world, storage.keys, kind, name);
    ghost var world' := storage.world.Without(kind, name);
    err := RemoveAt(storage, KeyFor(storage.keys, kind, name), world');
  }

  method FetchAll(storage: EtcdStorage, kind: Kind) returns (r: Result<seq<Object>, RegistryError>)
    requires storage.Valid()
    ensures r.Ok? ==> r.value == Values(storage.world.Objects(kind))
    ensures r.Err? ==> storage.flaky && r.error == ListFailed
  {
    var listed := storage.List(storage.keys.ListBase(kind));
    if listed.Err? {
      return Err(ListFailed);
    }
    RangeOf(storage.kv, storage.world, storage.keys, kind);
    return Ok(listed.value);
  }

  /** The decoding loop of a list. */
  method Decode<T>(objects: seq<Object>, decoder: Object --> T) returns (values: seq<T>)
    requires forall i | 0 <= i < |objects| :: decoder.requires(objects[i])
    ensures |values| == |objects| && forall i | 0 <= i < |objects| :: values[i] == decoder(objects[i])
  {
    values := [];
    for i := 0 to |objects|
      invariant |values| == i && forall j | 0 <= j < i :: values[j] == decoder(objects[j])
    {
      values := values + [decoder(objects[i])];
    }
  }

  method DecodePods(objects: seq<Object>, ghost w: World) returns (pods: seq<Pod>)
    requires objects == Values(w.Objects(PodKind))
    ensures pods == Values(w.pods)
  {
    ValuesOfObjects(w);
    pods := Decode(objects, (o: Object) requires o.PodObject? => o.pod);
  }

  method DecodeSets(objects: seq<Object>, ghost w: World) returns (sets: seq<ReplicaSet>)
    requires objects == Values(w.Objects(SetKind))
    ensures sets == Values(w.sets)
  {
    ValuesOfObjects(w);
    sets := Decode(objects, (o: Object) requires o.SetObject? => o.rs);
  }

  method DecodeNodes(objects: seq<Object>, ghost w: World) returns (nodes: seq<Node>)
    requires objects == Values(w.Objects(NodeKind))
    ensures nodes == Values(w.nodes)
  {
    ValuesOfObjects(w);
    nodes := Decode(objects, (o: Object) requires o.NodeObject? => o.node);
  }

  // ---- The registries ----

  class PodRegistry {
    const storage: EtcdStorage

    constructor (storage: EtcdStorage)
      ensures this.storage == storage
    {
      this.storage := storage;
    }

    method Create(pod: Pod) returns (err: Option<RegistryError>)
      requires storage.Valid()
      modifies storage
      ensures storage.Valid()
      ensures Behaves(old(storage.world), CreatePod(pod), storage.world, Acknowledge(err), storage.flaky, storage.flakyGets)
    {
      var existing := Fetch(storage, PodKind, pod.meta.name);
      if existing.Ok? {
        return Some(AlreadyExists);
      }
      var stored := pod;
      if stored.status == Unset {
        stored := stored.(status := Pending);
      }
      if !ValidPod(stored) {
        return Some(Invalid);
      }
      err := Write(storage, PodObject(stored));
    }

    method Get(name: string) returns (r: Result<Pod, RegistryError>)
      requires storage.Valid()
      ensures Behaves(storage.world, GetPod(name), storage.world, PodReply(r), storage.flaky, storage.flakyGets)
    {
      var found := Fetch(storage, PodKind, name);
      match found
      case Ok(o) => return Ok(o.pod);
      case Err(NotFound) => return Err(Missing);
      case Err(_) => return Err(Internal);
    }

    method Update(pod: Pod) returns (err: Option<RegistryError>)
      requires storage.Valid()
      modifies storage
      ensures storage.Valid()
      ensures Behaves(old(storage.world), UpdatePod(pod), storage.world, Acknowledge(err), storage.flaky, storage.flakyGets)
    {
      if !ValidPod(pod) {
        return Some(Invalid);
      }
      err := Write(storage, PodObject(pod));
    }

    method Delete(name: string) returns (err: Option<RegistryError>)
      requires storage.Valid()
      modifies storage
      ensures storage.Valid()
      ensures Behaves(old(storage.world), DeletePod(name), storage.world, Acknowledge(err), storage.flaky, storage.flakyGets)
    {
      err := Remove(storage, PodKind, name);
    }

    method List() returns (r: Result<seq<Pod>, RegistryError>)
      requires storage.Valid()
      ensures Behaves(storage.world, ListPods, storage.world, PodsReply(r), storage.flaky, storage.flakyGets)
    {
      var listed := FetchAll(storage, PodKind);
      if listed.Err? {
        return Err(ListFailed);
      }
      var pods := DecodePods(listed.value, storage.world);
      return Ok(pods);
    }

    method ListByStatus(status: PodStatus) returns (r: Result<seq<Pod>, RegistryError>)
      requires storage.Valid()
      ensures r.Ok? ==> r.value == WithStatus(Values(storage.world.pods), status)
      ensures r.Err? ==> storage.flaky && r.error == ListFailed
    {
      var listed := List();
      if listed.Err? {
        return Err(ListFailed);
      }
      var pods := listed.value;
      var filtered := [];
      for i := 0 to |pods|
        invariant filtered == WithStatus(pods[..i], status)
      {
        assert pods[..i + 1][..i] == pods[..i];
        if pods[i].status == status {
          filtered := filtered + [pods[i]];
        }
      }
      assert pods[..|pods|] == pods;
      return Ok(filtered);
    }

    method ListPendingPods() returns (r: Result<seq<Pod>, RegistryError>)
      requires storage.Valid()
      ensures Behaves(storage.world, ListPending, storage.world, PodsReply(r), storage.flaky, storage.flakyGets)
    {
      r := ListByStatus(Pending);
    }
  }

  /** Any outcome of creating a set: refused because it exists, or the outcome of the put. */
  lemma CreateSetBehaves(w: World, rs: ReplicaSet, w': World, err: Option<RegistryError>, flaky: bool, flakyGets: bool)
    requires || (rs.meta.name in w.sets && w' == w && err == Some(AlreadyExists))
             || (&& (rs.meta.name !in w.sets || flakyGets)
                 && if err.None? then w' == w.Store(SetObject(rs)) else flaky && err == Some(StorageFailed) && w' == w)
    ensures Behaves(w, CreateSet(rs), w', Acknowledge(err), flaky, flakyGets)
  {
  }

  class ReplicaSetRegistry {
    const storage: EtcdStorage

    constructor (storage: EtcdStorage)
      ensures this.storage == storage
    {
      this.storage := storage;
    }

    method Create(rs: ReplicaSet) returns (err: Option<RegistryError>)
      requires storage.Valid()
      modifies storage
      ensures storage.Valid()
      ensures Behaves(old(storage.world), CreateSet(rs), storage.world, Acknowledge(err), storage.flaky, storage.flakyGets)
    {
      ghost var w := storage.world;
      var existing := Fetch(storage, SetKind, rs.meta.name);
      if existing.Ok? {
        err := Some(AlreadyExists);
      } else {
        err := Write(storage, SetObject(rs));
      }
      CreateSetBehaves(w, rs, storage.world, err, storage.flaky, storage.flakyGets);
    }

    /** Any failure of the read is reported as a missing replica set. */
    method Get(name: string) returns (r: Result<ReplicaSet, RegistryError>)
      requires storage.Valid()
      ensures Behaves(storage.world, GetSet(name), storage.world, SetReply(r), storage.flaky, storage.flakyGets)
    {
      var found := Fetch(storage, SetKind, name);
      if found.Err? {
        return Err(Missing);
      }
      return Ok(found.value.rs);
    }

    method Update(rs: ReplicaSet) returns (err: Option<RegistryError>)
      requires storage.Valid()
      modifies storage
      ensures storage.Valid()
      ensures Behaves(old(storage.world), UpdateSet(rs), storage.world, Acknowledge(err), storage.flaky, storage.flakyGets)
    {
      var existing := Fetch(storage, SetKind, rs.meta.name);
      if existing.Err? {
        return Some(Missing);
      }
      err := Write(storage, SetObject(rs));
    }

    method Delete(name: string) returns (err: Option<RegistryError>)
      requires storage.Valid()
      modifies storage
      ensures storage.Valid()
      ensures Behaves(old(storage.world), DeleteSet(name), storage.world, Acknowledge(err), storage.flaky, storage.flakyGets)
    {
      err := Remove(storage, SetKind, name);
    }

    method List() returns (r: Result<seq<ReplicaSet>, RegistryError>)
      requires storage.Valid()
      ensures Behaves(storage.world, ListSets, storage.world, SetsReply(r), storage.flaky, storage.flakyGets)
    {
      var listed := FetchAll(storage, SetKind);
      if listed.Err? {
        return Err(ListFailed);
      }
      var sets := DecodeSets(listed.value, storage.world);
      return Ok(sets);
    }
  }

  class NodeRegistry {
    const storage: EtcdStorage

    constructor (storage: EtcdStorage)
      ensures this.storage == storage
    {
      this.storage := storage;
    }

    method Create(node: Node) returns (err: Option<RegistryError>)
      requires storage.Valid() && CleanPath(node.meta.name)
      modifies storage
      ensures storage.Valid()
      ensures Behaves(old(storage.world), CreateNode(node), storage.world, Acknowledge(err), storage.flaky, storage.flakyGets)
    {
      var existing := Fetch(storage, NodeKind, node.meta.name);
      if existing.Ok? {
        return Some(AlreadyExists);
      }
      if !ValidNode(node) {
        return Some(Invalid);
      }
      err := Write(storage, NodeObject(node));
    }

    method Get(name: string) returns (r: Result<Node, RegistryError>)
      requires storage.Valid() && CleanPath(name)
      ensures Behaves(storage.world, GetNode(name), storage.world, NodeReply(r), storage.flaky, storage.flakyGets)
    {
      var found := Fetch(storage, NodeKind, name);
      match found
      case Ok(o) => return Ok(o.node);
      case Err(NotFound) => return Err(Missing);
      case Err(_) => return Err(Internal);
    }

    method Update(node: Node) returns (err: Option<RegistryError>)
      requires storage.Valid() && CleanPath(node.meta.name)
      modifies storage
      ensures storage.Valid()
      ensures Behaves(old(storage.world), UpdateNode(node), storage.world, Acknowledge(err), storage.flaky, storage.flakyGets)
    {
      if !ValidNode(node) {
        return Some(Invalid);
      }
      err := Write(storage, NodeObject(node));
    }

    method Delete(name: string) returns (err: Option<RegistryError>)
      requires storage.Valid() && CleanPath(name)
      modifies storage
      ensures storage.Valid()
      ensures Behaves(old(storage.world), DeleteNode(name), storage.world, Acknowledge(err), storage.flaky, storage.flakyGets)
    {
      err := Remove(storage, NodeKind, name);
    }

    method List() returns (r: Result<seq<Node>, RegistryError>)
      requires storage.Valid()
      ensures Behaves(storage.world, ListNodes, storage.world, NodesReply(r), storage.flaky, storage.flakyGets)
    {
      var listed := FetchAll(storage, NodeKind);
      if listed.Err? {
        return Err(ListFailed);
      }
      var nodes := DecodeNodes(listed.value, storage.world);
      return Ok(nodes);
    }
  }

  // ---- Sequences of operations ----

  ghost function IdealRun(w: World, ops: seq<Op>): (World, seq<Reply>) {
    if ops == [] then (w, [])
    else
      var before := IdealRun(w, ops[..|ops| - 1]);
      var after := Ideal(before.0, ops[|ops| - 1]);
      (after.0, before.1 + [after.1])
  }

  lemma OneMoreReply(w0: World, ops: seq<Op>, i: nat, w: World, replies: seq<Reply>, w': World, reply: Reply)
    requires i < |ops| && (w, replies) == IdealRun(w0, ops[..i]) && (w', reply) == Ideal(w, ops[i])
    ensures (w', replies + [reply]) == IdealRun(w0, ops[..i + 1])
  {
    assert ops[..i + 1][..i] == ops[..i];
  }

  lemma IdealWithoutFailures(w: World, op: Op, w': World, reply: Reply)
    requires Behaves(w, op, w', reply, false, false)
    ensures (w', reply) == Ideal(w, op)
  {
  }

  /** Every operation behaved, each on the store the one before it left. */
  ghost predicate AllBehave(worlds: seq<World>, ops: seq<Op>, replies: seq<Reply>, flaky: bool, flakyGets: bool) {
    && |replies| <= |ops| && |worlds| == |replies| + 1
    && forall i | 0 <= i < |replies| :: Behaves(worlds[i], ops[i], worlds[i + 1], replies[i], flaky, flakyGets)
  }

  lemma OneMoreBehaves(worlds: seq<World>, ops: seq<Op>, replies: seq<Reply>, flaky: bool, flakyGets: bool, w': World, reply: Reply)
    requires AllBehave(worlds, ops, replies, flaky, flakyGets) && |replies| < |ops|
    requires Behaves(worlds[|replies|], ops[|replies|], w', reply, flaky, flakyGets)
    ensures AllBehave(worlds + [w'], ops, replies + [reply], flaky, flakyGets)
  {
    var worlds', replies' := worlds + [w'], replies + [reply];
    forall i | 0 <= i < |replies'| ensures Behaves(worlds'[i], ops[i], worlds'[i + 1], replies'[i], flaky, flakyGets) {
      if i < |replies| {
        assert Behaves(worlds[i], ops[i], worlds[i + 1], replies[i], flaky, flakyGets);
      }
    }
  }

  /** The three registries of a process over one store. */
  class Registries {
    const storage: EtcdStorage
    const pods: PodRegistry
    const sets: ReplicaSetRegistry
    const nodes: NodeRegistry

    ghost predicate Valid()
      reads this, storage
    {
      storage.Valid() && pods.storage == storage && sets.storage == storage && nodes.storage == storage
    }

    constructor (storage: EtcdStorage)
      requires storage.Valid()
      ensures Valid() && this.storage == storage
    {
      this.storage := storage;
      pods := new PodRegistry(storage);
      sets := new ReplicaSetRegistry(storage);
      nodes := new NodeRegistry(storage);
    }

    method Execute(op: Op) returns (reply: Reply)
      requires Valid() && Admissible(op)
      modifies storage
      ensures Valid()
      ensures Behaves(old(storage.world), op, storage.world, reply, storage.flaky, storage.flakyGets)
    {
      match op
      case CreatePod(p) => var e := pods.Create(p); reply := Acknowledge(e);
      case GetPod(name) => var r := pods.Get(name); reply := PodReply(r);
      case UpdatePod(p) => var e := pods.Update(p); reply := Acknowledge(e);
      case DeletePod(name) => var e := pods.Delete(name); reply := Acknowledge(e);
      case ListPods => var r := pods.List(); reply := PodsReply(r);
      case ListPending => var r := pods.ListPendingPods(); reply := PodsReply(r);
      case CreateSet(rs) => var e := sets.Create(rs); reply := Acknowledge(e);
      case GetSet(name) => var r := sets.Get(name); reply := SetReply(r);
      case UpdateSet(rs) => var e := sets.Update(rs); reply := Acknowledge(e);
      case DeleteSet(name) => var e := sets.Delete(name); reply := Acknowledge(e);
      case ListSets => var r := sets.List(); reply := SetsReply(r);
      case CreateNode(n) => var e := nodes.Create(n); reply := Acknowledge(e);
      case GetNode(name) => var r := nodes.Get(name); reply := NodeReply(r);
      case UpdateNode(n) => var e := nodes.Update(n); reply := Acknowledge(e);
      case DeleteNode(name) => var e := nodes.Delete(name); reply := Acknowledge(e);
      case ListNodes => var r := nodes.List(); reply := NodesReply(r);
    }

    /**
     Any sequence of operations behaves as on three separate maps: step by step
     within the outcomes that failing calls allow, and exactly as the ideal run
     when no call fails.
     */
    method ExecuteAll(ops: seq<Op>) returns (replies: seq<Reply>, ghost worlds: seq<World>)
      requires Valid() && forall i | 0 <= i < |ops| :: Admissible(ops[i])
      modifies storage
      ensures Valid()
      ensures |replies| == |ops| && AllBehave(worlds, ops, replies, storage.flaky, storage.flakyGets)
      ensures worlds[0] == old(storage.world) && worlds[|ops|] == storage.world
      ensures !storage.flaky && !storage.flakyGets ==> (storage.world, replies) == IdealRun(old(storage.world), ops)
    {
      replies, worlds := [], [storage.world];
      for i := 0 to |ops|
        invariant Valid()
        invariant |replies| == i && AllBehave(worlds, ops, replies, storage.flaky, storage.flakyGets)
        invariant worlds[0] == old(storage.world) && worlds[i] == storage.world
        invariant !storage.flaky && !storage.flakyGets ==> (storage.world, replies) == IdealRun(old(storage.world), ops[..i])
      {
        ghost var w := storage.world;
        var reply := Execute(ops[i]);
        if !storage.flaky && !storage.flakyGets {
          IdealWithoutFailures(w, ops[i], storage.world, reply);
          OneMoreReply(old(storage.world), ops, i, w, replies, storage.world, reply);
        }
        OneMoreBehaves(worlds, ops, replies, storage.flaky, storage.flakyGets, storage.world, reply);
        replies, worlds := replies + [reply], worlds + [storage.world];
      }
      assert ops[..|ops|] == ops;
    }
  }

  // ---- Properties of the outcomes ----

  predicate OnPods(op: Op) {
    op.CreatePod? || op.GetPod? || op.UpdatePod? || op.DeletePod? || op.ListPods? || op.ListPending?
  }

  predicate OnSets(op: Op) {
    op.CreateSet? || op.GetSet? || op.UpdateSet? || op.DeleteSet? || op.ListSets?
  }

  lemma PodSpecsAreLocal(w1: World, w2: World, op: Op)
    requires OnPods(op) && w1.pods == w2.pods
    ensures var (w', reply) := Ideal(w1, op);
            w' == w1.(pods := w'.pods) && Ideal(w2, op) == (w2.(pods := w'.pods), reply)
    ensures var (w', reply) := Blind(w1, op);
            w' == w1.(pods := w'.pods) && Blind(w2, op) == (w2.(pods := w'.pods), reply)
  {
    match op case CreatePod(_) => case GetPod(_) => case UpdatePod(_) => case DeletePod(_) => case ListPods => case ListPending =>
  }

  /** Two maps agree on every name but one. */
  ghost predicate SameBut<V>(m: map<string, V>, m': map<string, V>, name: string) {
    forall n | n != name :: Lookup(m', n) == Lookup(m, n)
  }

  /** A pod that validation refuses: unnamed, without a container slice, with an incomplete container or a negative count. */
  predicate Refusable(p: Pod) {
    || p.meta.name == ""
    || p.spec.containers == None
    || (exists c :: c in p.spec.Containers() && (c.name == "" || c.image == ""))
    || p.spec.replicas < 0
  }

  lemma RefusableIsInvalid(p: Pod)
    ensures Refusable(p) <==> !ValidPod(p)
  {
    if p.spec.containers.Some? {
      var cs := p.spec.containers.value;
      if c :| c in cs && (c.name == "" || c.image == "") {
        var i :| 0 <= i < |cs| && cs[i] == c;
        assert !ValidContainer(cs[i]);
      }
      if i :| 0 <= i < |cs| && !ValidContainer(cs[i]) {
        assert cs[i] in p.spec.Containers();
      }
    }
  }

  /** Creating a pod, when every call to etcd works. */
  lemma CreatePodLaw(w: World, p: Pod, w': World, reply: Reply)
    requires Behaves(w, CreatePod(p), w', reply, false, false)
    ensures SameBut(w.pods, w'.pods, p.meta.name) && w' == w.(pods := w'.pods)
    ensures reply == Fail(AlreadyExists) <==> p.meta.name in w.pods
    ensures reply == Fail(Invalid) <==> p.meta.name !in w.pods && Refusable(p)
    ensures reply == Done <==> p.meta.name !in w.pods && !Refusable(p)
    ensures Lookup(w'.pods, p.meta.name) ==
            if reply == Done then Some(p.(status := if p.status == Unset then Pending else p.status)) else Lookup(w.pods, p.meta.name)
  {
    IdealWithoutFailures(w, CreatePod(p), w', reply);
    RefusableIsInvalid(p);
    assert ValidPod(Defaulted(p)) <==> ValidPod(p);
    assert Defaulted(p) == p.(status := if p.status == Unset then Pending else p.status);
  }

  /** Updating one: no stored pod is needed. */
  lemma UpdatePodLaw(w: World, p: Pod, w': World, reply: Reply)
    requires Behaves(w, UpdatePod(p), w', reply, false, false)
    ensures SameBut(w.pods, w'.pods, p.meta.name) && w' == w.(pods := w'.pods)
    ensures reply == if Refusable(p) then Fail(Invalid) else Done
    ensures Lookup(w'.pods, p.meta.name) == if Refusable(p) then Lookup(w.pods, p.meta.name) else Some(p)
  {
    IdealWithoutFailures(w, UpdatePod(p), w', reply);
    RefusableIsInvalid(p);
  }

  /** Creating a replica set: it is not validated. */
  lemma CreateSetLaw(w: World, rs: ReplicaSet, w': World, reply: Reply)
    requires Behaves(w, CreateSet(rs), w', reply, false, false)
    ensures SameBut(w.sets, w'.sets, rs.meta.name) && w' == w.(sets := w'.sets)
    ensures reply == if rs.meta.name in w.sets then Fail(AlreadyExists) else Done
    ensures Lookup(w'.sets, rs.meta.name) == if rs.meta.name in w.sets then Lookup(w.sets, rs.meta.name) else Some(rs)
  {
    IdealWithoutFailures(w, CreateSet(rs), w', reply);
  }

  /** Updating one: a stored set is needed. */
  lemma UpdateSetLaw(w: World, rs: ReplicaSet, w': World, reply: Reply)
    requires Behaves(w, UpdateSet(rs), w', reply, false, false)
    ensures SameBut(w.sets, w'.sets, rs.meta.name) && w' == w.(sets := w'.sets)
    ensures reply == if rs.meta.name in w.sets then Done else Fail(Missing)
    ensures Lookup(w'.sets, rs.meta.name) == if rs.meta.name in w.sets then Some(rs) else None
  {
    IdealWithoutFailures(w, UpdateSet(rs), w', reply);
  }

  /** Creating a node: an unnamed one is refused. */
  lemma CreateNodeLaw(w: World, node: Node, w': World, reply: Reply)
    requires Behaves(w, CreateNode(node), w', reply, false, false)
    ensures SameBut(w.nodes, w'.nodes, node.meta.name) && w' == w.(nodes := w'.nodes)
    ensures reply == if node.meta.name in w.nodes then Fail(AlreadyExists) else if node.meta.name == "" then Fail(Invalid) else Done
    ensures Lookup(w'.nodes, node.meta.name) == if reply == Done then Some(node) else Lookup(w.nodes, node.meta.name)
  {
    IdealWithoutFailures(w, CreateNode(node), w', reply);
  }

  /** Updating one: no stored node is needed. */
  lemma UpdateNodeLaw(w: World, node: Node, w': World, reply: Reply)
    requires Behaves(w, UpdateNode(node), w', reply, false, false)
    ensures SameBut(w.nodes, w'.nodes, node.meta.name) && w' == w.(nodes := w'.nodes)
    ensures reply == if node.meta.name == "" then Fail(Invalid) else Done
    ensures Lookup(w'.nodes, node.meta.name) == if node.meta.name == "" then Lookup(w.nodes, node.meta.name) else Some(node)
  {
    IdealWithoutFailures(w, UpdateNode(node), w', reply);
  }

  /** A deletion removes the name from its map, stored or not, and nothing else. */
  lemma DeleteLaws(w: World, name: string, w': World, reply: Reply)
    ensures Behaves(w, DeletePod(name), w', reply, false, false) ==>
              reply == Done && name !in w'.pods && SameBut(w.pods, w'.pods, name) && w' == w.(pods := w'.pods)
    ensures Behaves(w, DeleteSet(name), w', reply, false, false) ==>
              reply == Done && name !in w'.sets && SameBut(w.sets, w'.sets, name) && w' == w.(sets := w'.sets)
    ensures Behaves(w, DeleteNode(name), w', reply, false, false) ==>
              reply == Done && name !in w'.nodes && SameBut(w.nodes, w'.nodes, name) && w' == w.(nodes := w'.nodes)
  {
  }

  /**
   What failing calls to etcd can do: an operation that reports an error has changed nothing, and
   each error has its cause.
   */
  lemma FailureLaws(w: World, op: Op, w': World, reply: Reply, flaky: bool, flakyGets: bool)
    requires Behaves(w, op, w', reply, flaky, flakyGets)
    ensures reply.Fail? ==> w' == w
    ensures reply == Fail(Internal) ==> flakyGets && (op.GetPod? || op.GetNode?)
    ensures reply == Fail(StorageFailed) ==>
              flaky && (op.CreatePod? || op.UpdatePod? || op.DeletePod? || op.CreateSet? || op.UpdateSet? || op.DeleteSet? ||
                        op.CreateNode? || op.UpdateNode? || op.DeleteNode?)
    ensures reply == Fail(ListFailed) ==> flaky && (op.ListPods? || op.ListPending? || op.ListSets? || op.ListNodes?)
    ensures op.UpdateSet? && reply == Fail(Missing) ==> op.rs.meta.name !in w.sets || flakyGets
  {
    match op
    case CreatePod(_) => case GetPod(_) => case UpdatePod(_) => case DeletePod(_) => case ListPods => case ListPending =>
    case CreateSet(_) => case GetSet(_) => case UpdateSet(_) => case DeleteSet(_) => case ListSets =>
    case CreateNode(_) => case GetNode(_) => case UpdateNode(_) => case DeleteNode(_) => case ListNodes =>
  }

  /** A read returns what is stored, or reports the error of its registry. */
  lemma ReadLaws(w: World, op: Op, w': World, reply: Reply, flaky: bool, flakyGets: bool)
    requires Behaves(w, op, w', reply, flaky, flakyGets)
    ensures op.GetPod? ==>
              (flakyGets && reply == Fail(Internal)) || reply == if op.name in w.pods then APod(w.pods[op.name]) else Fail(Missing)
    ensures op.GetNode? ==>
              (flakyGets && reply == Fail(Internal)) || reply == if op.name in w.nodes then ANode(w.nodes[op.name]) else Fail(Missing)
    ensures op.GetSet? ==>
              (flakyGets && reply == Fail(Missing)) || reply == if op.name in w.sets then ASet(w.sets[op.name]) else Fail(Missing)
    ensures op.ListPods? && !flaky ==> reply == Pods(Values(w.pods))
    ensures op.ListPending? && !flaky ==> reply == Pods(WithStatus(Values(w.pods), Pending))
    ensures op.ListSets? && !flaky ==> reply == Sets(Values(w.sets))
    ensures op.ListNodes? && !flaky ==> reply == Nodes(Values(w.nodes))
  {
    match op
    case GetPod(_) => case GetSet(_) => case GetNode(_) =>
    case ListPods => case ListPending => case ListSets => case ListNodes =>
    case _ =>
  }

  /** An operation touches only its own map, whatever fails, and its outcomes depend on that map alone. */
  lemma PodOperationsAreLocal(w1: World, w2: World, op: Op, w': World, reply: Reply, flaky: bool, flakyGets: bool)
    requires OnPods(op) && Behaves(w1, op, w', reply, flaky, flakyGets) && w1.pods == w2.pods
    ensures w' == w1.(pods := w'.pods)
    ensures Behaves(w2, op, w2.(pods := w'.pods), reply, flaky, flakyGets)
  {
    PodSpecsAreLocal(w1, w2, op);
  }

  lemma SetSpecsAreLocal(w1: World, w2: World, op: Op)
    requires OnSets(op) && w1.sets == w2.sets
    ensures var (w', reply) := Ideal(w1, op);
            w' == w1.(sets := w'.sets) && Ideal(w2, op) == (w2.(sets := w'.sets), reply)
    ensures var (w', reply) := Blind(w1, op);
            w' == w1.(sets := w'.sets) && Blind(w2, op) == (w2.(sets := w'.sets), reply)
  {
    match op case CreateSet(_) => case GetSet(_) => case UpdateSet(_) => case DeleteSet(_) => case ListSets =>
  }

  lemma SetOperationsAreLocal(w1: World, w2: World, op: Op, w': World, reply: Reply, flaky: bool, flakyGets: bool)
    requires OnSets(op) && Behaves(w1, op, w', reply, flaky, flakyGets) && w1.sets == w2.sets
    ensures w' == w1.(sets := w'.sets)
    ensures Behaves(w2, op, w2.(sets := w'.sets), reply, flaky, flakyGets)
  {
    SetSpecsAreLocal(w1, w2, op);
  }

  lemma NodeSpecsAreLocal(w1: World, w2: World, op: Op)
    requires !OnPods(op) && !OnSets(op) && w1.nodes == w2.nodes
    ensures var (w', reply) := Ideal(w1, op);
            w' == w1.(nodes := w'.nodes) && Ideal(w2, op) == (w2.(nodes := w'.nodes), reply)
    ensures var (w', reply) := Blind(w1, op);
            w' == w1.(nodes := w'.nodes) && Blind(w2, op) == (w2.(nodes := w'.nodes), reply)
  {
    match op case CreateNode(_) => case GetNode(_) => case UpdateNode(_) => case DeleteNode(_) => case ListNodes =>
  }

  lemma NodeOperationsAreLocal(w1: World, w2: World, op: Op, w': World, reply: Reply, flaky: bool, flakyGets: bool)
    requires !OnPods(op) && !OnSets(op) && Behaves(w1, op, w', reply, flaky, flakyGets) && w1.nodes == w2.nodes
    ensures w' == w1.(nodes := w'.nodes)
    ensures Behaves(w2, op, w2.(nodes := w'.nodes), reply, flaky, flakyGets)
  {
    NodeSpecsAreLocal(w1, w2, op);
  }

  /**
   Creating a pod leaves an existing pod of that name alone if its existence check
   works; if the check fails, exactly the pods that differ from it and are valid
   replace the existing one.
   */
  lemma CreateOverwritesOnlyBlindly(w: World, p: Pod, w': World, reply: Reply, flaky: bool)
    requires p.meta.name in w.pods
    ensures Behaves(w, CreatePod(p), w', reply, flaky, false) ==> w' == w && reply == Fail(AlreadyExists)
    ensures Blind(w, CreatePod(p)).0 != w <==> ValidPod(Defaulted(p)) && Defaulted(p) != w.pods[p.meta.name]
  {
    var n := p.meta.name;
    assert Defaulted(p).meta.name == n;
    if ValidPod(Defaulted(p)) {
      assert Blind(w, CreatePod(p)).0.pods[n] == Defaulted(p);
      if Defaulted(p) == w.pods[n] {
        assert w.pods[n := Defaulted(p)] == w.pods;
      }
    }
  }
}
