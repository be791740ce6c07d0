/** The API server's pod handlers as the kubelets use them (pkg/api/handlers/pod.go). */
module Handlers {
  import opened Wrappers
  import opened Api
  import opened Layout
  import opened Registry

  /** The pods of a listing that are bound to a node; without a node name, all of them. */
  function ByNode(pods: seq<Pod>, nodeName: string): seq<Pod> {
    if nodeName == "" || pods == [] then pods
    else
      var rest := ByNode(pods[..|pods| - 1], nodeName);
      var last := pods[|pods| - 1];
      if last.nodeName == nodeName then rest + [last] else rest
  }

  lemma {:induction false} ByNodeSelects(pods: seq<Pod>, nodeName: string)
    ensures forall p :: p in ByNode(pods, nodeName) <==> p in pods && (nodeName == "" || p.nodeName == nodeName)
  {
    if nodeName != "" && pods != [] {
      ByNodeSelects(pods[..|pods| - 1], nodeName);
    }
  }

  /** The positions of the pods of a node. */
  function OnNode(pods: seq<Pod>, nodeName: string): set<nat> {
    set i | 0 <= i < |pods| && pods[i].nodeName == nodeName
  }

  lemma {:induction false} NodeFilterInOrder(pods: seq<Pod>, nodeName: string) returns (at: seq<nat>)
    requires nodeName != ""
    ensures Positions(at, OnNode(pods, nodeName)) && |ByNode(pods, nodeName)| == |at|
    ensures forall j | 0 <= j < |at| :: at[j] < |pods| && ByNode(pods, nodeName)[j] == pods[at[j]]
  {
    if pods == [] {
      at := [];
    } else {
      var n := |pods| - 1;
      var pre := pods[..n];
      var before := NodeFilterInOrder(pre, nodeName);
      if pods[n].nodeName == nodeName {
        OneMorePosition(before, OnNode(pre, nodeName), n);
        assert OnNode(pods, nodeName) == OnNode(pre, nodeName) + {n};
        at := before + [n];
      } else {
        assert OnNode(pods, nodeName) == OnNode(pre, nodeName);
        at := before;
      }
    }
  }

  /** The filter keeps the pods of a node, each where it was and in order; without a node name it keeps all. */
  lemma ByNodeInOrder(pods: seq<Pod>, nodeName: string) returns (at: seq<nat>)
    ensures if nodeName == "" then ByNode(pods, nodeName) == pods
            else && Positions(at, OnNode(pods, nodeName)) && |ByNode(pods, nodeName)| == |at|
                 && forall j | 0 <= j < |at| :: at[j] < |pods| && ByNode(pods, nodeName)[j] == pods[at[j]]
  {
    at := [];
    if nodeName != "" {
      at := NodeFilterInOrder(pods, nodeName);
    }
  }

  datatype HttpError = NotFound404 | BadRequest400 | Server500

  class PodHandler {
    const registry: PodRegistry

    constructor (registry: PodRegistry)
      ensures this.registry == registry
    {
      this.registry := registry;
    }

    method ListPods(nodeName: string) returns (r: Result<seq<Pod>, HttpError>)
      requires registry.storage.Valid()
      ensures r.Ok? ==> r.value == ByNode(Values(registry.storage.world.pods), nodeName)
      ensures r.Err? ==> registry.storage.flaky && r.error == Server500
    {
      var listed := registry.List();
      if listed.Err? {
        return Err(Server500);
      }
      var pods := listed.value;
      if nodeName != "" {
        var filtered := [];
        for i := 0 to |pods|
          invariant filtered == ByNode(pods[..i], nodeName)
        {
          assert pods[..i + 1][..i] == pods[..i];
          if pods[i].nodeName == nodeName {
            filtered := filtered + [pods[i]];
          }
        }
        assert pods[..|pods|] == pods;
        pods := filtered;
      }
      return Ok(pods);
    }

    /**
     PUT /pods/{name}: the stored pod is read, its name is compared with the body's,
     and the body replaces it. Without interference and failures the outcome is
     decided by the stored pods and the body alone.
     */
    method UpdatePod(name: string, updated: Pod) returns (err: Option<HttpError>)
      requires registry.storage.Valid()
      modifies registry.storage
      ensures registry.storage.Valid()
      ensures err.None? ==>
                && name in old(registry.storage.world.pods) && updated.meta.name == name && ValidPod(updated)
                && registry.storage.world == old(registry.storage.world).Store(PodObject(updated))
      ensures err.Some? ==> registry.storage.world == old(registry.storage.world)
      ensures err == Some(NotFound404) ==> name !in old(registry.storage.world.pods)
      ensures err == Some(BadRequest400) ==> updated.meta.name != name || !ValidPod(updated)
      ensures err == Some(Server500) ==> registry.storage.flaky || registry.storage.flakyGets
    {
      var existing := LoadPod(name);
      if existing.Err? {
        return Some(existing.error);
      }
      if existing.value.meta.name != updated.meta.name {
        return Some(BadRequest400);
      }
      err := Replace(updated);
    }

    method LoadPod(name: string) returns (r: Result<Pod, HttpError>)
      requires registry.storage.Valid()
      ensures r.Ok? ==> name in registry.storage.world.pods && r.value == registry.storage.world.pods[name] && r.value.meta.name == name
      ensures r.Err? ==> || (r.error == NotFound404 && name !in registry.storage.world.pods)
                         || (r.error == Server500 && registry.storage.flakyGets)
    {
      HeldWorldIsWellFormed(registry.storage.kv, registry.storage.world, registry.storage.keys);
      var found := registry.Get(name);
      match found
      case Ok(p) => return Ok(p);
      case Err(Missing) => return Err(NotFound404);
      case Err(_) => return Err(Server500);
    }

    method Replace(updated: Pod) returns (err: Option<HttpError>)
      requires registry.storage.Valid()
      modifies registry.storage
      ensures registry.storage.Valid()
      ensures err.None? ==> ValidPod(updated) && registry.storage.world == old(registry.storage.world).Store(PodObject(updated))
      ensures err.Some? ==> registry.storage.world == old(registry.storage.world)
      ensures err.Some? ==> || (err.value == BadRequest400 && !ValidPod(updated))
                            || (err.value == Server500 && registry.storage.flaky)
    {
      var failed := registry.Update(updated);
      match failed
      case None => return None;
      case Some(Invalid) => return Some(BadRequest400);
      case Some(_) => return Some(Server500);
    }
  }
}
