/** The kubelet (pkg/kubelet/kubelet.go): which pods it starts and the status it derives for them. */
module Kubelet {
  import opened Wrappers
  import opened Api

  // ---- The status of a pod ----

  datatype ContainerState = ContainerState(exists_: bool, running: bool, exitCode: int)

  /** What inspecting a container can return: a missing one is neither running nor has an exit code. */
  predicate Observable(s: ContainerState) {
    !s.exists_ ==> !s.running && s.exitCode == 0
  }

  predicate AllContainersSucceeded(states: seq<ContainerState>) {
    states == [] || (states[0].exitCode == 0 && AllContainersSucceeded(states[1..]))
  }

  predicate AnyContainerRunning(states: seq<ContainerState>) {
    states != [] && (states[0].running || AnyContainerRunning(states[1..]))
  }

  predicate AllContainersFailed(states: seq<ContainerState>) {
    states == [] || (!(states[0].exists_ && states[0].exitCode == 0) && AllContainersFailed(states[1..]))
  }

  predicate AnyContainerExists(states: seq<ContainerState>) {
    states != [] && (states[0].exists_ || AnyContainerExists(states[1..]))
  }

  function DeterminePodStatus(states: seq<ContainerState>): PodStatus {
    if AnyContainerRunning(states) then Running
    else if AllContainersFailed(states) && AnyContainerExists(states) then Failed
    else if AllContainersSucceeded(states) then Succeeded
    else Scheduled
  }

  lemma {:induction false} ScansAreQuantifiers(states: seq<ContainerState>)
    ensures AnyContainerRunning(states) <==> exists s :: s in states && s.running
    ensures AnyContainerExists(states) <==> exists s :: s in states && s.exists_
    ensures AllContainersFailed(states) <==> forall s | s in states && s.exists_ :: s.exitCode != 0
    ensures AllContainersSucceeded(states) <==> forall s | s in states :: s.exitCode == 0
  {
    if states != [] {
      ScansAreQuantifiers(states[1..]);
      assert states == [states[0]] + states[1..];
    }
  }

  /** The four outcomes divide all observable lists of states between them; Pending is none of them. */
  lemma StatusIsAPartition(states: seq<ContainerState>)
    requires forall s | s in states :: Observable(s)
    ensures var r := DeterminePodStatus(states);
            var someRun := exists s :: s in states && s.running;
            var someFailed := exists s :: s in states && s.exists_ && s.exitCode != 0;
            var someSucceeded := exists s :: s in states && s.exists_ && s.exitCode == 0;
            && (r == Running <==> someRun)
            && (r == Failed <==> !someRun && someFailed && !someSucceeded)
            && (r == Scheduled <==> !someRun && someFailed && someSucceeded)
            && (r == Succeeded <==> !someRun && !someFailed)
  {
    ScansAreQuantifiers(states);
  }

  /** The status depends only on which states occur, so order and repetition do not matter. */
  lemma StatusIgnoresOrderAndRepetition(a: seq<ContainerState>, b: seq<ContainerState>)
    requires forall s :: s in a <==> s in b
    ensures DeterminePodStatus(a) == DeterminePodStatus(b)
  {
    ScansAreQuantifiers(a);
    ScansAreQuantifiers(b);
  }

  /** Inspecting the containers in turn; the first failing inspection ends the scan. */
  method GetPodStatus(pod: Pod, inspect: seq<Result<ContainerState, string>>) returns (r: Result<PodStatus, string>)
    requires |inspect| == |pod.spec.Containers()|
    ensures r.Err? <==> exists i :: 0 <= i < |inspect| && inspect[i].Err?
    ensures r.Ok? ==> exists states: seq<ContainerState> ::
                        && |states| == |inspect|
                        && (forall i | 0 <= i < |inspect| :: inspect[i] == Ok(states[i]))
                        && r.value == DeterminePodStatus(states)
  {
    var states: seq<ContainerState> := [];
    for i := 0 to |inspect|
      invariant |states| == i
      invariant forall j | 0 <= j < i :: inspect[j] == Ok(states[j])
    {
      if inspect[i].Err? {
        return Err(inspect[i].error);
      }
      states := states + [inspect[i].value];
    }
    return Ok(DeterminePodStatus(states));
  }

  // ---- Starting pods ----

  /** The pods a kubelet knows, and the names of those it started, in order. */
  datatype Known = Known(pods: map<string, Pod>, started: seq<string>) {
    /** An assigned pod is recorded and started unless its name is known. */
    function Admit(p: Pod): Known {
      if p.meta.name in pods then this
      else Known(pods[p.meta.name := p], started + [p.meta.name])
    }

    function AdmitAll(listed: seq<Pod>): Known {
      if listed == [] then this else AdmitAll(listed[..|listed| - 1]).Admit(listed[|listed| - 1])
    }

    /** What is known was started, once. */
    ghost predicate StartedOnce() {
      && (forall n :: n in pods <==> n in started)
      && (forall i, j | 0 <= i < j < |started| :: started[i] != started[j])
    }
  }

  lemma AdmitKeepsStartedOnce(k: Known, p: Pod)
    requires k.StartedOnce()
    ensures k.Admit(p).StartedOnce()
  {
  }

  /** Each pod of a listing is known afterwards; what was known is unchanged; nothing is started twice. */
  lemma {:induction false} AdmitAllStartsOnce(k: Known, listed: seq<Pod>)
    requires k.StartedOnce()
    ensures k.AdmitAll(listed).StartedOnce()
    ensures k.started <= k.AdmitAll(listed).started
    ensures forall n | n in k.pods :: Lookup(k.AdmitAll(listed).pods, n) == Some(k.pods[n])
    ensures forall i | 0 <= i < |listed| :: listed[i].meta.name in k.AdmitAll(listed).pods
  {
    if listed != [] {
      var before, last := listed[..|listed| - 1], listed[|listed| - 1];
      AdmitAllStartsOnce(k, before);
      AdmitKeepsStartedOnce(k.AdmitAll(before), last);
      forall i | 0 <= i < |listed| ensures listed[i].meta.name in k.AdmitAll(listed).pods {
        if i < |before| {
          assert before[i].meta.name in k.AdmitAll(before).pods;
        }
      }
    }
  }

  /** The position of the first pod of a given name in a listing. */
  ghost predicate FirstOfName(listed: seq<Pod>, n: string, i: nat) {
    i < |listed| && listed[i].meta.name == n && forall j | 0 <= j < i :: listed[j].meta.name != n
  }

  /** A newly known pod is the first of its name in the listing. */
  lemma {:induction false} AdmitAllKeepsFirstCopy(k: Known, listed: seq<Pod>, n: string) returns (i: nat)
    requires k.StartedOnce() && n in k.AdmitAll(listed).pods && n !in k.pods
    ensures FirstOfName(listed, n, i) && k.AdmitAll(listed).pods[n] == listed[i]
  {
    var before := listed[..|listed| - 1];
    if n in k.AdmitAll(before).pods {
      i := AdmitAllKeepsFirstCopy(k, before, n);
      assert forall j | 0 <= j <= i :: listed[j] == before[j];
    } else {
      AdmitAllStartsOnce(k, before);
      forall j | 0 <= j < |before| ensures listed[j].meta.name != n {
        assert before[j].meta.name in k.AdmitAll(before).pods;
      }
      i := |before|;
    }
  }

  class Kubelet {
    const nodeName: string
    var pods: map<string, Pod>
    var started: seq<string>

    constructor (nodeName: string)
      ensures this.nodeName == nodeName && pods == map[] && started == []
    {
      this.nodeName := nodeName;
      pods := map[];
      started := [];
    }

    method RunNewPods(listed: seq<Pod>)
      modifies this
      ensures Known(pods, started) == old(Known(pods, started)).AdmitAll(listed)
    {
      for i := 0 to |listed|
        invariant Known(pods, started) == old(Known(pods, started)).AdmitAll(listed[..i])
      {
        assert listed[..i + 1][..i] == listed[..i];
        var p := listed[i];
        if p.meta.name !in pods {
          pods := pods[p.meta.name := p];
          started := started + [p.meta.name];
        }
      }
      assert listed[..|listed|] == listed;
    }

    /**
     The body of the status loop for one known pod: an observed change is recorded in
     the cached pod, and the whole cached pod is what is sent to the API server.
     */
    method UpdateStatus(name: string, observed: Result<PodStatus, string>) returns (sent: Option<Pod>)
      requires name in pods
      modifies this`pods
      ensures pods.Keys == old(pods).Keys
      ensures forall n | n in pods && n != name :: pods[n] == old(pods)[n]
      ensures observed.Err? || observed.value == old(pods)[name].status ==> sent == None && pods == old(pods)
      ensures observed.Ok? && observed.value != old(pods)[name].status ==>
                pods[name] == old(pods)[name].(status := observed.value) && sent == Some(pods[name])
    {
      sent := None;
      if observed.Err? {
        return;
      }
      var p := pods[name];
      if p.status != observed.value {
        p := p.(status := observed.value);
        pods := pods[name := p];
        sent := Some(p);
      }
    }
  }
}
