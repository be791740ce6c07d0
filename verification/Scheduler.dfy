/** The scheduler (pkg/scheduler/scheduler.go): one pass over the pending pods. */
module Scheduler {
  import opened Wrappers
  import opened Api
  import opened KeyOrder
  import opened Layout
  import opened Storage
  import opened Registry

  datatype SchedulerError = PodsNotListed | NodesNotListed | NoNodes | NotUpdated(name: string)

  /** A pod bound to a node. */
  function Assigned(p: Pod, node: string): Pod {
    p.(nodeName := node, status := Scheduled)
  }

  /** The pods after the first `|picks|` of the listed ones were bound. */
  function AssignAll(pods: map<string, Pod>, listed: seq<Pod>, picks: seq<string>): map<string, Pod>
    requires |picks| <= |listed|
  {
    if picks == [] then pods
    else
      var i := |picks| - 1;
      AssignAll(pods, listed, picks[..i])[listed[i].meta.name := Assigned(listed[i], picks[i])]
  }

  /** The listing the scheduler works from: the pending pods in key order. */
  ghost function PendingPods(pods: map<string, Pod>): seq<Pod> {
    WithStatus(Values(pods), Pending)
  }

  // ---- What the listing holds ----

  /** Stored under its own name. */
  predicate Named(pods: map<string, Pod>) {
    forall n | n in pods :: pods[n].meta.name == n
  }

  lemma ValuesByName(pods: map<string, Pod>, p: Pod)
    requires Named(pods)
    ensures p in Values(pods) <==> p.meta.name in pods && pods[p.meta.name] == p
  {
    var names := Sorted(pods.Keys);
    if p in Values(pods) {
      var i :| 0 <= i < |names| && Values(pods)[i] == p;
      assert names[i] in names;
    }
    if p.meta.name in pods && pods[p.meta.name] == p {
      assert p.meta.name in names;
      var i :| 0 <= i < |names| && names[i] == p.meta.name;
      assert Values(pods)[i] == p;
    }
  }

  /** The listing holds exactly the pending pods. */
  lemma PendingPodsAreThePending(pods: map<string, Pod>, p: Pod)
    requires Named(pods)
    ensures p in PendingPods(pods) <==> p.meta.name in pods && pods[p.meta.name] == p && p.status == Pending
  {
    ValuesByName(pods, p);
    WithStatusSelects(Values(pods), Pending);
  }

  predicate NameOrdered(pods: seq<Pod>) {
    forall i, j | 0 <= i < j < |pods| :: Less(pods[i].meta.name, pods[j].meta.name)
  }

  lemma OneMoreOrdered(pods: seq<Pod>, p: Pod)
    requires NameOrdered(pods) && forall q | q in pods :: Less(q.meta.name, p.meta.name)
    ensures NameOrdered(pods + [p])
  {
  }

  lemma {:induction false} FilterKeepsOrder(pods: seq<Pod>, status: PodStatus)
    requires NameOrdered(pods)
    ensures NameOrdered(WithStatus(pods, status))
  {
    if pods != [] {
      var before, last := pods[..|pods| - 1], pods[|pods| - 1];
      FilterKeepsOrder(before, status);
      WithStatusSelects(before, status);
      forall q | q in before ensures Less(q.meta.name, last.meta.name) {
        var i :| 0 <= i < |before| && pods[i] == q;
      }
      if last.status == status {
        OneMoreOrdered(WithStatus(before, status), last);
      }
    }
  }

  lemma ValuesAreOrdered(pods: map<string, Pod>)
    requires Named(pods)
    ensures NameOrdered(Values(pods))
  {
    var names, values := Sorted(pods.Keys), Values(pods);
    forall i | 0 <= i < |values| ensures values[i].meta.name == names[i] {
      assert names[i] in names;
    }
    forall i, j | 0 <= i < j < |values| ensures Less(values[i].meta.name, values[j].meta.name) {
      assert Precedes(names, i, j);
    }
  }

  /** It holds them in the order of their names, each once. */
  lemma PendingPodsAreOrdered(pods: map<string, Pod>, i: nat, j: nat)
    requires Named(pods) && i < j < |PendingPods(pods)|
    ensures Less(PendingPods(pods)[i].meta.name, PendingPods(pods)[j].meta.name)
    ensures PendingPods(pods)[i].meta.name != PendingPods(pods)[j].meta.name
  {
    ValuesAreOrdered(pods);
    FilterKeepsOrder(Values(pods), Pending);
    var listed := PendingPods(pods);
    assert NameOrdered(listed);
    LessIsAsymmetric(listed[i].meta.name, listed[j].meta.name);
  }

  // ---- What a pass changes ----

  /** Exactly the first `|picks|` pending pods are bound, each to its pick; all other pods are as before. */
  ghost predicate Bound(pods: map<string, Pod>, picks: seq<string>, pods': map<string, Pod>) {
    var listed := PendingPods(pods);
    && |picks| <= |listed|
    && pods'.Keys == pods.Keys
    && (forall i | 0 <= i < |picks| :: Lookup(pods', listed[i].meta.name) == Some(Assigned(listed[i], picks[i])))
    && (forall n | n in pods && (forall i | 0 <= i < |picks| :: listed[i].meta.name != n) :: pods'[n] == pods[n])
  }

  lemma NothingBound(pods: map<string, Pod>)
    ensures Bound(pods, [], pods)
  {
  }

  lemma OneMoreBound(pods: map<string, Pod>, picks: seq<string>, pods': map<string, Pod>, node: string)
    requires Named(pods) && Bound(pods, picks, pods') && |picks| < |PendingPods(pods)|
    ensures var p := PendingPods(pods)[|picks|];
            Bound(pods, picks + [node], pods'[p.meta.name := Assigned(p, node)])
  {
    var listed, i := PendingPods(pods), |picks|;
    assert listed[i] in listed;
    PendingPodsAreThePending(pods, listed[i]);
    forall j | 0 <= j < i ensures listed[j].meta.name != listed[i].meta.name {
      PendingPodsAreOrdered(pods, j, i);
    }
    assert (picks + [node])[i] == node;
  }

  lemma {:induction false} AssignAllBinds(pods: map<string, Pod>, picks: seq<string>)
    requires Named(pods) && |picks| <= |PendingPods(pods)|
    ensures Bound(pods, picks, AssignAll(pods, PendingPods(pods), picks))
  {
    if picks != [] {
      var i := |picks| - 1;
      AssignAllBinds(pods, picks[..i]);
      OneMoreBound(pods, picks[..i], AssignAll(pods, PendingPods(pods), picks[..i]), picks[i]);
      assert picks[..i] + [picks[i]] == picks;
    }
  }

  /** After a complete pass nothing is pending, so a second pass finds nothing to do. */
  lemma CompletePassLeavesNothingPending(pods: map<string, Pod>, picks: seq<string>, pods': map<string, Pod>)
    requires Named(pods) && Bound(pods, picks, pods') && |picks| == |PendingPods(pods)|
    ensures Named(pods')
    ensures forall n | n in pods' :: pods'[n].status != Pending
    ensures PendingPods(pods') == []
  {
    var listed := PendingPods(pods);
    forall n | n in pods' ensures pods'[n].status != Pending && pods'[n].meta.name == n {
      if pods[n].status == Pending {
        PendingPodsAreThePending(pods, pods[n]);
        var i :| 0 <= i < |listed| && listed[i] == pods[n];
        assert Lookup(pods', listed[i].meta.name) == Some(Assigned(listed[i], picks[i]));
      } else {
        forall i | 0 <= i < |picks| ensures listed[i].meta.name != n {
          assert listed[i] in listed;
          PendingPodsAreThePending(pods, listed[i]);
        }
      }
    }
    if PendingPods(pods') != [] {
      var p := PendingPods(pods')[0];
      assert p in PendingPods(pods');
      PendingPodsAreThePending(pods', p);
    }
  }

  /** A pass keeps names, metadata and specs of all pods. */
  lemma PassKeepsSpecs(pods: map<string, Pod>, picks: seq<string>, pods': map<string, Pod>, n: string)
    requires Named(pods) && Bound(pods, picks, pods') && n in pods
    ensures n in pods' && pods'[n].meta == pods[n].meta && pods'[n].spec == pods[n].spec
    ensures pods'[n] == pods[n] || (pods[n].status == Pending && pods'[n].status == Scheduled && pods'[n].nodeName in picks)
  {
    var listed := PendingPods(pods);
    if i :| 0 <= i < |picks| && listed[i].meta.name == n {
      assert listed[i] in listed;
      PendingPodsAreThePending(pods, listed[i]);
      assert Lookup(pods', listed[i].meta.name) == Some(Assigned(listed[i], picks[i]));
    }
  }

  lemma ListedIsWellFormed(w: World)
    requires WellFormed(w)
    ensures Named(w.pods)
    ensures forall i | 0 <= i < |PendingPods(w.pods)| :: ValidPod(PendingPods(w.pods)[i])
    ensures forall i | 0 <= i < |w.nodes| :: Values(w.nodes)[i].meta.name in w.nodes
  {
    var listed := PendingPods(w.pods);
    forall i | 0 <= i < |listed| ensures ValidPod(listed[i]) {
      assert listed[i] in listed;
      PendingPodsAreThePending(w.pods, listed[i]);
    }
    forall i | 0 <= i < |w.nodes| ensures Values(w.nodes)[i].meta.name in w.nodes {
      assert Sorted(w.nodes.Keys)[i] in Sorted(w.nodes.Keys);
    }
  }

  class Scheduler {
    const storage: EtcdStorage
    const pods: PodRegistry
    const nodes: NodeRegistry

    ghost predicate Valid()
      reads this, storage
    {
      storage.Valid() && pods.storage == storage && nodes.storage == storage
    }

    constructor (storage: EtcdStorage)
      requires storage.Valid()
      ensures Valid() && this.storage == storage
    {
      this.storage := storage;
      pods := new PodRegistry(storage);
      nodes := new NodeRegistry(storage);
    }

    method UpdatePod(p: Pod) returns (ok: bool)
      requires Valid() && ValidPod(p)
      modifies storage
      ensures Valid()
      ensures ok ==> storage.world == old(storage.world).(pods := old(storage.world).pods[p.meta.name := p])
      ensures !ok ==> storage.flaky && storage.world == old(storage.world)
    {
      var err := pods.Update(p);
      ok := err.None?;
    }

    /** Binds the listed pods in order to nodes picked at random, until an update fails. */
    method AssignListed(listed: seq<Pod>, available: seq<string>) returns (err: Option<SchedulerError>, ghost picks: seq<string>)
      requires Valid() && available != []
      requires forall i | 0 <= i < |listed| :: ValidPod(listed[i])
      modifies storage
      ensures Valid()
      ensures |picks| <= |listed| && (forall i | 0 <= i < |picks| :: picks[i] in available)
      ensures storage.world == old(storage.world).(pods := AssignAll(old(storage.world.pods), listed, picks))
      ensures err.None? ==> |picks| == |listed|
      ensures err.Some? ==> storage.flaky && |picks| < |listed| && err.value == NotUpdated(listed[|picks|].meta.name)
    {
      picks := [];
      for i := 0 to |listed|
        invariant Valid()
        invariant |picks| == i && (forall j | 0 <= j < i :: picks[j] in available)
        invariant storage.world == old(storage.world).(pods := AssignAll(old(storage.world.pods), listed, picks))
      {
        var r: nat := *;
        var node := available[r % |available|];
        var p := listed[i].(nodeName := node, status := Scheduled);
        var ok := UpdatePod(p);
        if !ok {
          return Some(NotUpdated(p.meta.name)), picks;
        }
        assert (picks + [node])[..i] == picks;
        picks := picks + [node];
      }
      err := None;
    }

    method ListPending() returns (r: Result<seq<Pod>, RegistryError>)
      requires Valid()
      ensures r.Ok? ==> r.value == PendingPods(storage.world.pods)
      ensures r.Err? ==> storage.flaky
    {
      r := pods.ListPendingPods();
    }

    method ListNodes() returns (r: Result<seq<Node>, RegistryError>)
      requires Valid()
      ensures r.Ok? ==> r.value == Values(storage.world.nodes)
      ensures r.Err? ==> storage.flaky
    {
      r := nodes.List();
    }

    /** The names of listed nodes. */
    method NodeNames(listed: seq<Node>) returns (names: seq<string>)
      ensures |names| == |listed| && forall i | 0 <= i < |names| :: names[i] == listed[i].meta.name
    {
      names := [];
      for i := 0 to |listed|
        invariant |names| == i
        invariant forall j | 0 <= j < i :: names[j] == listed[j].meta.name
      {
        names := names + [listed[i].meta.name];
      }
    }

    /** Binding a fresh listing of the pending pods. */
    method BindPending(pending: seq<Pod>, available: seq<string>) returns (err: Option<SchedulerError>, ghost picks: seq<string>)
      requires Valid() && available != [] && pending == PendingPods(storage.world.pods)
      modifies storage
      ensures Valid()
      ensures Bound(old(storage.world.pods), picks, storage.world.pods)
      ensures storage.world.sets == old(storage.world.sets) && storage.world.nodes == old(storage.world.nodes)
      ensures forall i | 0 <= i < |picks| :: picks[i] in available
      ensures err.None? ==> |picks| == |pending|
      ensures err.Some? ==> storage.flaky && |picks| < |pending| && err.value == NotUpdated(pending[|picks|].meta.name)
    {
      ghost var world := storage.world;
      HeldWorldIsWellFormed(storage.kv, storage.world, storage.keys);
      ListedIsWellFormed(world);
      err, picks := AssignListed(pending, available);
      AssignAllBinds(world.pods, picks);
    }

    /** The available nodes are nodes of the store. */
    lemma NodeNamesAreStored(listed: seq<Node>, available: seq<string>)
      requires Valid() && listed == Values(storage.world.nodes)
      requires |available| == |listed| && forall i | 0 <= i < |available| :: available[i] == listed[i].meta.name
      ensures forall n | n in available :: n in storage.world.nodes
    {
      HeldWorldIsWellFormed(storage.kv, storage.world, storage.keys);
      ListedIsWellFormed(storage.world);
    }

    /**
     One pass. Whatever fails, exactly the first `|picks|` pending pods in key order
     are bound to listed nodes and nothing else changes; all of them on success.
     */
    method SchedulePendingPods() returns (err: Option<SchedulerError>, ghost picks: seq<string>)
      requires Valid()
      modifies storage
      ensures Valid()
      ensures Bound(old(storage.world.pods), picks, storage.world.pods)
      ensures storage.world.sets == old(storage.world.sets) && storage.world.nodes == old(storage.world.nodes)
      ensures forall i | 0 <= i < |picks| :: picks[i] in old(storage.world.nodes)
      ensures err.None? ==> |picks| == |PendingPods(old(storage.world.pods))|
      ensures err == Some(NoNodes) ==> picks == [] && old(storage.world.nodes) == map[]
      ensures old(storage.world.nodes) == map[] ==> err.Some? && picks == []
      ensures err.Some? && err != Some(NoNodes) ==> storage.flaky
      ensures err.Some? && err.value.NotUpdated? ==>
                && |picks| < |PendingPods(old(storage.world.pods))|
                && err.value.name == PendingPods(old(storage.world.pods))[|picks|].meta.name
    {
      picks := [];
      NothingBound(storage.world.pods);
      var pending := ListPending();
      if pending.Err? {
        return Some(PodsNotListed), [];
      }
      var listed := ListNodes();
      if listed.Err? {
        return Some(NodesNotListed), [];
      }
      var available := NodeNames(listed.value);
      if |available| == 0 {
        return Some(NoNodes), [];
      }
      NodeNamesAreStored(listed.value, available);
      err, picks := BindPending(pending.value, available);
    }
  }
}
