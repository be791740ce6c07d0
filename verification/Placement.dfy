/**
 The placement protocol: one controller, one scheduler and any number of kubelets
 work on one store, and every single storage call is a step of its own. All
 interleavings are sequences of actions; an action that is not enabled changes
 nothing. Pods are written by these processes only, and no process restarts.
 */
module Placement {
  import opened Wrappers
  import opened Api
  import opened Names
  import opened KeyOrder
  import opened Layout
  import opened Replicas
  import opened Scheduler
  import opened Handlers

  /** Where the controller stands between two storage calls. */
  datatype ControllerState =
    | Idle
    | Passing(todo: seq<string>)
    | Counting(rs: ReplicaSet, todo: seq<string>)
    | Creating(rs: ReplicaSet, i: int, j: nat, todo: seq<string>)
    | Putting(rs: ReplicaSet, i: int, j: nat, pod: Pod, todo: seq<string>)
    | CheckingSet(rs: ReplicaSet, todo: seq<string>)
    | WritingSet(rs: ReplicaSet, todo: seq<string>)
    | Halted

  /** The scheduler holds the pods and then the nodes it listed. */
  datatype SchedulerState =
    | Waiting
    | Listed(pods: seq<Pod>)
    | Assigning(pods: seq<Pod>, nodes: seq<string>)

  /** A status update on its way through the API server. */
  datatype Request = NoRequest | Sent(pod: Pod) | Checked(pod: Pod)

  /** A kubelet's map of known pods, the rest of its last listing and its pending update. */
  datatype KubeletState = KubeletState(cache: map<string, Pod>, listed: seq<Pod>, request: Request)

  /** `starts` records every start as (node, pod); `seen` all nodes the scheduler ever listed. */
  datatype State = State(
    world: World,
    controller: ControllerState,
    scheduler: SchedulerState,
    kubelets: map<string, KubeletState>,
    starts: seq<(string, string)>,
    seen: set<string>)

  datatype Action =
    | ListSets
    | GetSet
    | ListPodsOfSet
    | CheckName(suffix: Suffix)
    | PutPod
    | CheckSet
    | PutSet
    | ControllerFails
    | ListPendingPods
    | ListNodes
    | AssignPod(pick: nat)
    | SchedulerFails
    | ListAssigned(node: string)
    | RunPod(node: string)
    | Observe(node: string, name: string, status: PodStatus)
    | LoadPod(node: string)
    | ReplacePod(node: string)
    | RequestFails(node: string)
    | ChangeNodes(nodes: map<string, Node>)
    | ChangeSets(sets: map<string, ReplicaSet>)

  // ---- The controller ----

  function NextSet(todo: seq<string>): ControllerState {
    if todo == [] then Idle else Passing(todo)
  }

  /** After pod (i, j): the next container, the next replica, or the status update. */
  function NextPod(rs: ReplicaSet, i: int, j: nat, todo: seq<string>): ControllerState {
    if j < |rs.template.Containers()| then Creating(rs, i, j, todo)
    else if i + 1 < rs.replicas && rs.template.Containers() != [] then Creating(rs, i + 1, 0, todo)
    else CheckingSet(rs.(statusReplicas := rs.replicas), todo)
  }

  ghost function ControllerStep(w: World, c: ControllerState, a: Action): (World, ControllerState) {
    match (a, c)
    case (ListSets, Idle) => (w, NextSet(Sorted(w.sets.Keys)))
    case (GetSet, Passing(todo)) =>
      if todo == [] || todo[0] !in w.sets then (w, Halted)
      else (w, Counting(w.sets[todo[0]], todo[1..]))
    case (ListPodsOfSet, Counting(rs, todo)) =>
      var count := Count(w.pods, rs.meta.name);
      if count < rs.replicas then (w, NextPod(rs, count, 0, todo))
      else if count > rs.replicas then (w, CheckingSet(rs.(statusReplicas := rs.replicas), todo))
      else (w, NextSet(todo))
    case (CheckName(suffix), Creating(rs, i, j, todo)) =>
      if j >= |rs.template.Containers()| then (w, Halted)
      else
        var pod := NewPod(rs.meta.name, rs.template.Containers()[j], suffix);
        if pod.meta.name in w.pods || !ValidPod(pod) then (w, Halted)
        else (w, Putting(rs, i, j, pod, todo))
    case (PutPod, Putting(rs, i, j, pod, todo)) =>
      (w.Store(PodObject(pod)), NextPod(rs, i, j + 1, todo))
    case (CheckSet, CheckingSet(rs, todo)) =>
      if rs.meta.name in w.sets then (w, WritingSet(rs, todo)) else (w, Halted)
    case (PutSet, WritingSet(rs, todo)) => (w.Store(SetObject(rs)), NextSet(todo))
    case (ControllerFails, _) => (w, Halted)
    case _ => (w, c)
  }

  // ---- The scheduler ----

  function Continue(pods: seq<Pod>, nodes: seq<string>): SchedulerState {
    if pods == [] || nodes == [] then Waiting else Assigning(pods, nodes)
  }

  ghost function SchedulerStep(w: World, c: SchedulerState, a: Action): (World, SchedulerState) {
    match (a, c)
    case (ListPendingPods, Waiting) => (w, Listed(PendingPods(w.pods)))
    case (ListNodes, Listed(pods)) => (w, Continue(pods, Sorted(w.nodes.Keys)))
    case (AssignPod(pick), Assigning(pods, nodes)) =>
      if pods == [] || nodes == [] then (w, Waiting)
      else
        (w.Store(PodObject(Assigned(pods[0], nodes[pick % |nodes|]))), Continue(pods[1..], nodes))
    case (SchedulerFails, _) => (w, Waiting)
    case _ => (w, c)
  }

  // ---- A kubelet ----

  /** The statuses a kubelet derives from its containers. */
  predicate Derived(s: PodStatus) {
    s == Running || s == Failed || s == Succeeded || s == Scheduled
  }

  ghost function KubeletStep(w: World, k: KubeletState, a: Action): (World, KubeletState, Option<string>) {
    match a
    case ListAssigned(node) =>
      (w, if k.listed == [] then k.(listed := ByNode(Values(w.pods), node)) else k, None)
    case RunPod(_) =>
      if k.listed == [] then (w, k, None)
      else
        var p := k.listed[0];
        if p.meta.name in k.cache then (w, k.(listed := k.listed[1..]), None)
        else (w, k.(cache := k.cache[p.meta.name := p], listed := k.listed[1..]), Some(p.meta.name))
    case Observe(_, name, status) =>
      if k.request != NoRequest || name !in k.cache || !Derived(status) || k.cache[name].status == status then (w, k, None)
      else
        var p := k.cache[name].(status := status);
        (w, k.(cache := k.cache[name := p], request := Sent(p)), None)
    case LoadPod(_) =>
      if !k.request.Sent? then (w, k, None)
      else if k.request.pod.meta.name in w.pods then (w, k.(request := Checked(k.request.pod)), None)
      else (w, k.(request := NoRequest), None)
    case ReplacePod(_) =>
      if !k.request.Checked? then (w, k, None)
      else if !ValidPod(k.request.pod) then (w, k.(request := NoRequest), None)
      else (w.Store(PodObject(k.request.pod)), k.(request := NoRequest), None)
    case RequestFails(_) => (w, k.(request := NoRequest), None)
    case _ => (w, k, None)
  }

  // ---- The system ----

  function NodeOf(a: Action): Option<string> {
    match a
    case ListAssigned(n) => Some(n)
    case RunPod(n) => Some(n)
    case Observe(n, _, _) => Some(n)
    case LoadPod(n) => Some(n)
    case ReplacePod(n) => Some(n)
    case RequestFails(n) => Some(n)
    case _ => None
  }

  predicate IsController(a: Action) {
    a.ListSets? || a.GetSet? || a.ListPodsOfSet? || a.CheckName? || a.PutPod? || a.CheckSet? || a.PutSet? || a.ControllerFails?
  }

  predicate IsScheduler(a: Action) {
    a.ListPendingPods? || a.ListNodes? || a.AssignPod? || a.SchedulerFails?
  }

  ghost function Step(s: State, a: Action): State {
    if IsController(a) then
      var (w, c) := ControllerStep(s.world, s.controller, a);
      s.(world := w, controller := c)
    else if IsScheduler(a) then
      var (w, c) := SchedulerStep(s.world, s.scheduler, a);
      s.(world := w, scheduler := c, seen := if a.ListNodes? && s.scheduler.Listed? then s.seen + s.world.nodes.Keys else s.seen)
    else if NodeOf(a).Some? then
      var n := NodeOf(a).value;
      if n !in s.kubelets then s
      else
        var (w, k, started) := KubeletStep(s.world, s.kubelets[n], a);
        s.(world := w, kubelets := s.kubelets[n := k],
           starts := if started.Some? then s.starts + [(n, started.value)] else s.starts)
    else
      match a
      case ChangeNodes(nodes) =>
        if forall n | n in nodes :: nodes[n].meta.name == n && ValidNode(nodes[n]) then s.(world := s.world.(nodes := nodes)) else s
      case ChangeSets(sets) =>
        if forall n | n in sets :: sets[n].meta.name == n then s.(world := s.world.(sets := sets)) else s
      case _ => s
  }

  ghost function Run(s: State, actions: seq<Action>): State {
    if actions == [] then s else Step(Run(s, actions[..|actions| - 1]), actions[|actions| - 1])
  }

  /** Fresh processes over a store whose pending pods are unbound. */
  ghost predicate Init(s: State) {
    && WellFormed(s.world)
    && (forall n | n in s.world.pods :: s.world.pods[n].status == Pending ==> s.world.pods[n].nodeName == "")
    && s.controller == Idle
    && s.scheduler == Waiting
    && (forall n | n in s.kubelets :: n != "" && s.kubelets[n] == KubeletState(map[], [], NoRequest))
    && s.starts == []
    && s.seen == {}
  }
}
