/** Safety of the placement protocol in every interleaving: one node per pod, one start per pod, coherent caches. */
module PlacementSafety {
  import opened Wrappers
  import opened Api
  import opened KeyOrder
  import opened Layout
  import opened Scheduler
  import opened Handlers
  import opened Placement

  /** Equal but for the status. */
  predicate SameButStatus(p: Pod, q: Pod) {
    p.meta == q.meta && p.spec == q.spec && p.nodeName == q.nodeName
  }

  // ---- The invariant ----

  predicate PodsOk(pods: map<string, Pod>) {
    forall n | n in pods ::
      && pods[n].meta.name == n
      && ValidPod(pods[n])
      && (pods[n].status == Pending ==> pods[n].nodeName == "")
  }

  /** A pod about to be created is pending and unbound, and its name is still free. */
  predicate ControllerOk(w: World, c: ControllerState) {
    c.Putting? ==>
      && c.pod.meta.name !in w.pods
      && ValidPod(c.pod)
      && c.pod.status == Pending
      && c.pod.nodeName == ""
  }

  /** The pods the scheduler still has to bind are exactly as stored, pending, each once. */
  predicate HeldOk(w: World, held: seq<Pod>) {
    && (forall i | 0 <= i < |held| :: Lookup(w.pods, held[i].meta.name) == Some(held[i]) && held[i].status == Pending)
    && (forall i, j | 0 <= i < j < |held| :: held[i].meta.name != held[j].meta.name)
  }

  predicate SchedulerOk(w: World, c: SchedulerState, seen: set<string>) {
    match c
    case Waiting => true
    case Listed(pods) => HeldOk(w, pods)
    case Assigning(pods, nodes) => HeldOk(w, pods) && forall i | 0 <= i < |nodes| :: nodes[i] != "" && nodes[i] in seen
  }

  /** A copy of a pod of node `n`: it agrees with the stored pod but for the status. */
  predicate CopyOk(w: World, n: string, p: Pod) {
    && p.meta.name in w.pods
    && SameButStatus(p, w.pods[p.meta.name])
    && p.nodeName == n
    && p.status != Pending
  }

  predicate CacheOk(w: World, n: string, cache: map<string, Pod>) {
    forall m | m in cache :: cache[m].meta.name == m && CopyOk(w, n, cache[m])
  }

  /** Listed pods not known yet are exactly as stored. */
  predicate ListingOk(w: World, n: string, k: KubeletState) {
    forall i | 0 <= i < |k.listed| ::
      && CopyOk(w, n, k.listed[i])
      && (k.listed[i].meta.name !in k.cache ==> w.pods[k.listed[i].meta.name] == k.listed[i])
  }

  /** An update on its way is the cached pod itself. */
  predicate RequestOk(k: KubeletState) {
    k.request != NoRequest ==> Lookup(k.cache, k.request.pod.meta.name) == Some(k.request.pod)
  }

  predicate KubeletOk(w: World, n: string, k: KubeletState) {
    n != "" && CacheOk(w, n, k.cache) && ListingOk(w, n, k) && RequestOk(k)
  }

  predicate KubeletsOk(w: World, kubelets: map<string, KubeletState>) {
    forall n | n in kubelets :: KubeletOk(w, n, kubelets[n])
  }

  /** Every start is recorded in a cache, and no pod was started twice, on any node. */
  predicate StartsOk(kubelets: map<string, KubeletState>, starts: seq<(string, string)>) {
    && (forall i | 0 <= i < |starts| :: starts[i].0 in kubelets && starts[i].1 in kubelets[starts[i].0].cache)
    && (forall i, j | 0 <= i < j < |starts| :: starts[i].1 != starts[j].1)
  }

  predicate WorldOk(w: World) {
    && PodsOk(w.pods)
    && (forall n | n in w.sets :: w.sets[n].meta.name == n)
    && (forall n | n in w.nodes :: w.nodes[n].meta.name == n && ValidNode(w.nodes[n]))
  }

  predicate Inv(s: State) {
    && WorldOk(s.world)
    && ControllerOk(s.world, s.controller)
    && SchedulerOk(s.world, s.scheduler, s.seen)
    && KubeletsOk(s.world, s.kubelets)
    && StartsOk(s.kubelets, s.starts)
  }

  lemma InitEstablishesInv(s: State)
    requires Init(s)
    ensures Inv(s)
  {
  }

  // ---- What one step does to the pods ----

  /** How a pod may change: it keeps its identity, is bound at most once to a listed node, and never becomes pending again. */
  predicate PodEvolves(p: Pod, p': Pod, seen: set<string>) {
    && p'.meta == p.meta
    && p'.spec == p.spec
    && (p'.nodeName == p.nodeName || (p.nodeName == "" && p.status == Pending && p'.nodeName != "" && p'.nodeName in seen))
    && (p.status != Pending ==> p'.status != Pending)
  }

  predicate PodsEvolve(pods: map<string, Pod>, pods': map<string, Pod>, seen: set<string>) {
    forall n | n in pods :: n in pods' && PodEvolves(pods[n], pods'[n], seen)
  }

  predicate Evolves(s: State, s': State) {
    && PodsEvolve(s.world.pods, s'.world.pods, s'.seen)
    && s.seen <= s'.seen
    && s.starts <= s'.starts
    && s.kubelets.Keys == s'.kubelets.Keys
  }

  lemma EvolvesIsTransitive(a: State, b: State, c: State)
    requires Evolves(a, b) && Evolves(b, c)
    ensures Evolves(a, c)
  {
    forall n | n in a.world.pods ensures n in c.world.pods && PodEvolves(a.world.pods[n], c.world.pods[n], c.seen) {
      assert PodEvolves(a.world.pods[n], b.world.pods[n], b.seen);
      assert PodEvolves(b.world.pods[n], c.world.pods[n], c.seen);
    }
  }

  lemma SamePodsEvolve(pods: map<string, Pod>, seen: set<string>)
    ensures PodsEvolve(pods, pods, seen)
  {
  }

  // ---- Storing one pod ----

  /** Storing a free name leaves all copies as they are. */
  lemma StoreFree(w: World, p: Pod, kubelets: map<string, KubeletState>, c: SchedulerState, seen: set<string>)
    requires KubeletsOk(w, kubelets) && SchedulerOk(w, c, seen) && p.meta.name !in w.pods
    ensures KubeletsOk(w.Store(PodObject(p)), kubelets) && SchedulerOk(w.Store(PodObject(p)), c, seen)
  {
    AllCopiesSurvive(w, w.Store(PodObject(p)), kubelets);
  }

  /** All copies survive a store that keeps the bound pods. */
  lemma AllCopiesSurvive(w: World, w': World, kubelets: map<string, KubeletState>)
    requires KubeletsOk(w, kubelets)
    requires forall m | m in w.pods && w.pods[m].nodeName != "" :: Lookup(w'.pods, m) == Some(w.pods[m])
    ensures KubeletsOk(w', kubelets)
  {
    forall n | n in kubelets ensures KubeletOk(w', n, kubelets[n]) {
      CopiesSurvive(w, w', n, kubelets[n]);
    }
  }

  /** Copies survive any store that keeps the pods bound to their node. */
  lemma CopiesSurvive(w: World, w': World, n: string, k: KubeletState)
    requires KubeletOk(w, n, k)
    requires forall m | m in w.pods && w.pods[m].nodeName == n :: Lookup(w'.pods, m) == Some(w.pods[m])
    ensures KubeletOk(w', n, k)
  {
    forall m | m in k.cache ensures k.cache[m].meta.name == m && CopyOk(w', n, k.cache[m]) {
      assert CopyOk(w, n, k.cache[m]);
      assert Lookup(w'.pods, m) == Some(w.pods[m]);
    }
    forall i | 0 <= i < |k.listed|
      ensures CopyOk(w', n, k.listed[i]) && (k.listed[i].meta.name !in k.cache ==> w'.pods[k.listed[i].meta.name] == k.listed[i])
    {
      assert CopyOk(w, n, k.listed[i]);
      assert Lookup(w'.pods, k.listed[i].meta.name) == Some(w.pods[k.listed[i].meta.name]);
    }
  }

  // ---- The controller ----

  lemma PutPodKeepsInv(s: State)
    requires Inv(s) && s.controller.Putting?
    ensures Inv(Step(s, PutPod)) && Evolves(s, Step(s, PutPod))
  {
    StoreFree(s.world, s.controller.pod, s.kubelets, s.scheduler, s.seen);
  }

  lemma PutSetKeepsInv(s: State)
    requires Inv(s) && s.controller.WritingSet?
    ensures Inv(Step(s, PutSet)) && Evolves(s, Step(s, PutSet))
  {
    var rs := s.controller.rs;
    var w' := s.world.(sets := s.world.sets[rs.meta.name := rs]);
    assert Step(s, PutSet) == s.(world := w', controller := NextSet(s.controller.todo));
    AllCopiesSurvive(s.world, w', s.kubelets);
    SamePodsEvolve(s.world.pods, s.seen);
  }

  lemma ControllerReadKeepsInv(s: State, a: Action)
    requires Inv(s) && IsController(a) && Step(s, a).world == s.world
    ensures Inv(Step(s, a)) && Evolves(s, Step(s, a))
  {
  }

  lemma ControllerKeepsInv(s: State, a: Action)
    requires Inv(s) && IsController(a)
    ensures Inv(Step(s, a)) && Evolves(s, Step(s, a))
  {
    if a.PutPod? && s.controller.Putting? {
      PutPodKeepsInv(s);
    } else if a.PutSet? && s.controller.WritingSet? {
      PutSetKeepsInv(s);
    } else {
      ControllerReadKeepsInv(s, a);
    }
  }

  // ---- The scheduler ----

  lemma ListPendingPodsKeepsInv(s: State)
    requires Inv(s) && s.scheduler.Waiting?
    ensures Inv(Step(s, ListPendingPods)) && Evolves(s, Step(s, ListPendingPods))
  {
    var held := PendingPods(s.world.pods);
    forall i | 0 <= i < |held| ensures Lookup(s.world.pods, held[i].meta.name) == Some(held[i]) && held[i].status == Pending {
      assert held[i] in held;
      PendingPodsAreThePending(s.world.pods, held[i]);
    }
    forall i, j | 0 <= i < j < |held| ensures held[i].meta.name != held[j].meta.name {
      PendingPodsAreOrdered(s.world.pods, i, j);
    }
  }

  lemma ListNodesKeepsInv(s: State)
    requires Inv(s) && s.scheduler.Listed?
    ensures Inv(Step(s, ListNodes)) && Evolves(s, Step(s, ListNodes))
  {
    var nodes := Sorted(s.world.nodes.Keys);
    forall i | 0 <= i < |nodes| ensures nodes[i] != "" && nodes[i] in s.world.nodes.Keys {
      assert nodes[i] in nodes;
    }
  }

  /** Binding a held pod changes no copy: copies are of bound pods only. */
  lemma AssignPodKeepsInv(s: State, pick: nat)
    requires Inv(s) && s.scheduler.Assigning? && s.scheduler.pods != [] && s.scheduler.nodes != []
    ensures Inv(Step(s, AssignPod(pick))) && Evolves(s, Step(s, AssignPod(pick)))
  {
    var i := AssigningStep(s, pick);
    AssigningKeepsInv(s, i, Step(s, AssignPod(pick)));
  }

  /** The state after the first held pod was bound to node number `i` of the listing. */
  ghost predicate AssignedTo(s: State, i: nat, s': State)
    requires s.scheduler.Assigning? && s.scheduler.pods != [] && i < |s.scheduler.nodes|
  {
    var pods, nodes := s.scheduler.pods, s.scheduler.nodes;
    s' == s.(world := s.world.Store(PodObject(Assigned(pods[0], nodes[i]))), scheduler := Continue(pods[1..], nodes))
  }

  lemma AssigningStep(s: State, pick: nat) returns (i: nat)
    requires s.scheduler.Assigning? && s.scheduler.pods != [] && s.scheduler.nodes != []
    ensures i < |s.scheduler.nodes| && AssignedTo(s, i, Step(s, AssignPod(pick)))
  {
    i := pick % |s.scheduler.nodes|;
  }

  lemma AssigningKeepsInv(s: State, i: nat, s': State)
    requires Inv(s) && s.scheduler.Assigning? && s.scheduler.pods != [] && i < |s.scheduler.nodes| && AssignedTo(s, i, s')
    ensures Inv(s') && Evolves(s, s')
  {
    var pods, nodes := s.scheduler.pods, s.scheduler.nodes;
    assert Lookup(s.world.pods, pods[0].meta.name) == Some(pods[0]);
    AssignedPodIsOk(s.world, pods[0], nodes[i], s.seen);
    AllCopiesSurvive(s.world, s'.world, s.kubelets);
    HeldRestOk(s.world, pods, Assigned(pods[0], nodes[i]));
    AfterAssigning(s, s');
  }

  /** The pieces of the invariant after a held pod was bound. */
  lemma AfterAssigning(s: State, s': State)
    requires Inv(s) && s' == s.(world := s.world.(pods := s'.world.pods), scheduler := s'.scheduler)
    requires s'.world.pods.Keys == s.world.pods.Keys && WorldOk(s'.world) && PodsEvolve(s.world.pods, s'.world.pods, s.seen)
    requires SchedulerOk(s'.world, s'.scheduler, s.seen) && KubeletsOk(s'.world, s.kubelets)
    ensures Inv(s') && Evolves(s, s')
  {
    assert ControllerOk(s'.world, s'.controller);
  }

  /** A bound pod stays a good pod and changed as it may. */
  lemma AssignedPodIsOk(w: World, p: Pod, node: string, seen: set<string>)
    requires WorldOk(w) && Lookup(w.pods, p.meta.name) == Some(p) && p.status == Pending && node != "" && node in seen
    ensures var w' := w.Store(PodObject(Assigned(p, node)));
            WorldOk(w') && PodsEvolve(w.pods, w'.pods, seen) && w'.pods.Keys == w.pods.Keys
  {
    var w' := w.Store(PodObject(Assigned(p, node)));
    assert w'.pods.Keys == w.pods.Keys;
  }

  lemma HeldRestOk(w: World, held: seq<Pod>, p: Pod)
    requires HeldOk(w, held) && held != [] && p.meta.name == held[0].meta.name
    ensures HeldOk(w.Store(PodObject(p)), held[1..])
  {
    var rest := held[1..];
    forall i | 0 <= i < |rest| ensures Lookup(w.Store(PodObject(p)).pods, rest[i].meta.name) == Some(rest[i]) {
      assert rest[i] == held[i + 1];
      assert held[0].meta.name != held[i + 1].meta.name;
    }
  }

  lemma SchedulerKeepsInv(s: State, a: Action)
    requires Inv(s) && IsScheduler(a)
    ensures Inv(Step(s, a)) && Evolves(s, Step(s, a))
  {
    match (a, s.scheduler)
    case (ListPendingPods, Waiting) => ListPendingPodsKeepsInv(s);
    case (ListNodes, Listed(_)) => ListNodesKeepsInv(s);
    case (AssignPod(pick), Assigning(pods, nodes)) =>
      if pods != [] && nodes != [] {
        AssignPodKeepsInv(s, pick);
      }
    case _ =>
  }

  // ---- A kubelet ----

  lemma StartsSurvive(kubelets: map<string, KubeletState>, starts: seq<(string, string)>, n: string, k: KubeletState)
    requires StartsOk(kubelets, starts) && n in kubelets && kubelets[n].cache.Keys <= k.cache.Keys
    ensures StartsOk(kubelets[n := k], starts)
  {
  }

  /** What a kubelet's step leaves alone. */
  lemma StepOfKubelet(s: State, a: Action, n: string, w': World, k': KubeletState, started: Option<string>)
    requires NodeOf(a) == Some(n) && n in s.kubelets && KubeletStep(s.world, s.kubelets[n], a) == (w', k', started)
    ensures Step(s, a) == s.(world := w', kubelets := s.kubelets[n := k'],
                             starts := if started.Some? then s.starts + [(n, started.value)] else s.starts)
  {
  }

  /** A kubelet that changes only its own state, forgetting no pod, keeps the invariant if its new state is good. */
  lemma OwnChangeKeepsInv(s: State, n: string, k: KubeletState, s': State)
    requires Inv(s) && n in s.kubelets && KubeletOk(s.world, n, k) && s.kubelets[n].cache.Keys <= k.cache.Keys
    requires s' == s.(kubelets := s.kubelets[n := k])
    ensures Inv(s') && Evolves(s, s')
  {
    SamePodsEvolve(s.world.pods, s.seen);
    StartsSurvive(s.kubelets, s.starts, n, k);
  }

  lemma ListedPodsAreCopies(w: World, n: string)
    requires WorldOk(w) && n != ""
    ensures forall i | 0 <= i < |ByNode(Values(w.pods), n)| ::
              var p := ByNode(Values(w.pods), n)[i];
              CopyOk(w, n, p) && w.pods[p.meta.name] == p
  {
    var listed := ByNode(Values(w.pods), n);
    ByNodeSelects(Values(w.pods), n);
    forall i | 0 <= i < |listed| ensures CopyOk(w, n, listed[i]) && w.pods[listed[i].meta.name] == listed[i] {
      assert listed[i] in listed;
      ValuesByName(w.pods, listed[i]);
    }
  }

  lemma ListAssignedKeepsInv(s: State, n: string)
    requires Inv(s) && n in s.kubelets
    ensures Inv(Step(s, ListAssigned(n))) && Evolves(s, Step(s, ListAssigned(n)))
  {
    var k, s' := s.kubelets[n], Step(s, ListAssigned(n));
    assert KubeletOk(s.world, n, k);
    ListedPodsAreCopies(s.world, n);
    OwnChangeKeepsInv(s, n, s'.kubelets[n], s');
  }

  /** Working off the first listed pod. */
  lemma NextListedOk(w: World, n: string, k: KubeletState, k': KubeletState)
    requires KubeletOk(w, n, k) && k.listed != []
    requires var p := k.listed[0];
             k' == if p.meta.name in k.cache then k.(listed := k.listed[1..])
                   else k.(cache := k.cache[p.meta.name := p], listed := k.listed[1..])
    ensures KubeletOk(w, n, k') && k.cache.Keys <= k'.cache.Keys
  {
    assert CopyOk(w, n, k.listed[0]);
    forall i | 0 <= i < |k'.listed|
      ensures CopyOk(w, n, k'.listed[i]) && (k'.listed[i].meta.name !in k'.cache ==> w.pods[k'.listed[i].meta.name] == k'.listed[i])
    {
      assert k'.listed[i] == k.listed[i + 1];
    }
  }

  /** A pod that its node does not know yet was started nowhere. */
  lemma UnknownIsNotStarted(s: State, n: string, p: Pod)
    requires Inv(s) && n in s.kubelets && CopyOk(s.world, n, p) && p.meta.name !in s.kubelets[n].cache
    ensures forall i | 0 <= i < |s.starts| :: s.starts[i].1 != p.meta.name
  {
    forall i | 0 <= i < |s.starts| ensures s.starts[i].1 != p.meta.name {
      var m := s.starts[i].0;
      assert KubeletOk(s.world, m, s.kubelets[m]);
      assert CopyOk(s.world, m, s.kubelets[m].cache[s.starts[i].1]);
    }
  }

  lemma OneMoreStart(kubelets: map<string, KubeletState>, starts: seq<(string, string)>, n: string, name: string)
    requires StartsOk(kubelets, starts) && n in kubelets && name in kubelets[n].cache
    requires forall i | 0 <= i < |starts| :: starts[i].1 != name
    ensures StartsOk(kubelets, starts + [(n, name)])
  {
  }

  lemma StartKeepsInv(s: State, s': State, n: string, name: string)
    requires Inv(s) && s' == s.(starts := s.starts + [(n, name)]) && StartsOk(s'.kubelets, s'.starts)
    ensures Inv(s') && Evolves(s, s')
  {
    SamePodsEvolve(s.world.pods, s.seen);
  }

  /** A pod is started by the kubelet of its node only, and only when it is not known there. */
  lemma RunPodKeepsInv(s: State, n: string)
    requires Inv(s) && n in s.kubelets
    ensures Inv(Step(s, RunPod(n))) && Evolves(s, Step(s, RunPod(n)))
  {
    var k, s' := s.kubelets[n], Step(s, RunPod(n));
    var k' := s'.kubelets[n];
    var t := s.(kubelets := s.kubelets[n := k']);
    assert KubeletOk(s.world, n, k);
    if k.listed != [] {
      NextListedOk(s.world, n, k, k');
    }
    OwnChangeKeepsInv(s, n, k', t);
    if k.listed != [] && k.listed[0].meta.name !in k.cache {
      var p := k.listed[0];
      UnknownIsNotStarted(s, n, p);
      OneMoreStart(t.kubelets, s.starts, n, p.meta.name);
      StartKeepsInv(t, s', n, p.meta.name);
      EvolvesIsTransitive(s, t, s');
    }
  }

  lemma ObservedKubeletOk(w: World, n: string, k: KubeletState, name: string, status: PodStatus)
    requires KubeletOk(w, n, k) && k.request == NoRequest && name in k.cache && Derived(status)
    ensures var p := k.cache[name].(status := status);
            KubeletOk(w, n, k.(cache := k.cache[name := p], request := Sent(p)))
  {
    assert CopyOk(w, n, k.cache[name]);
  }

  lemma ObserveOk(w: World, n: string, k: KubeletState, a: Action, k': KubeletState)
    requires KubeletOk(w, n, k) && a.Observe? && k' == KubeletStep(w, k, a).1
    ensures KubeletStep(w, k, a) == (w, k', None) && KubeletOk(w, n, k') && k'.cache.Keys == k.cache.Keys
  {
    if k.request == NoRequest && a.name in k.cache && Derived(a.status) && k.cache[a.name].status != a.status {
      ObservedKubeletOk(w, n, k, a.name, a.status);
    }
  }

  lemma ObserveKeepsInv(s: State, a: Action)
    requires Inv(s) && a.Observe? && a.node in s.kubelets
    ensures Inv(Step(s, a)) && Evolves(s, Step(s, a))
  {
    var k := s.kubelets[a.node];
    var k' := KubeletStep(s.world, k, a).1;
    assert KubeletOk(s.world, a.node, k);
    ObserveOk(s.world, a.node, k, a, k');
    StepOfKubelet(s, a, a.node, s.world, k', None);
    OwnChangeKeepsInv(s, a.node, k', Step(s, a));
  }

  /** A pod whose status alone is replaced. */
  function WithNewStatus(pods: map<string, Pod>, name: string, status: PodStatus): map<string, Pod>
    requires name in pods
  {
    pods[name := pods[name].(status := status)]
  }

  lemma ReplaceIsAStatusChange(w: World, n: string, k: KubeletState)
    requires WorldOk(w) && KubeletOk(w, n, k) && k.request.Checked?
    ensures var p := k.request.pod;
            && p.meta.name in w.pods && p.status != Pending && w.pods[p.meta.name].nodeName == n
            && KubeletStep(w, k, ReplacePod(n)) ==
               (w.(pods := WithNewStatus(w.pods, p.meta.name, p.status)), k.(request := NoRequest), None)
  {
    var p := k.request.pod;
    assert CopyOk(w, n, k.cache[p.meta.name]);
    assert p == w.pods[p.meta.name].(status := p.status);
  }

  /** Writing back a whole cached pod changes nothing but its status. */
  lemma ReplaceChangesOnlyStatus(s: State, n: string)
    requires Inv(s) && n in s.kubelets && s.kubelets[n].request.Checked?
    ensures var k := s.kubelets[n];
            var p := k.request.pod;
            && p.meta.name in s.world.pods
            && p.status != Pending
            && Step(s, ReplacePod(n)) ==
               s.(world := s.world.(pods := WithNewStatus(s.world.pods, p.meta.name, p.status)),
                  kubelets := s.kubelets[n := k.(request := NoRequest)])
  {
    var k := s.kubelets[n];
    var p := k.request.pod;
    assert KubeletOk(s.world, n, k);
    ReplaceIsAStatusChange(s.world, n, k);
    StepOfKubelet(s, ReplacePod(n), n, s.world.(pods := WithNewStatus(s.world.pods, p.meta.name, p.status)),
                  k.(request := NoRequest), None);
  }

  lemma ReplacePodKeepsInv(s: State, n: string)
    requires Inv(s) && n in s.kubelets && s.kubelets[n].request.Checked?
    ensures Inv(Step(s, ReplacePod(n))) && Evolves(s, Step(s, ReplacePod(n)))
  {
    ReplaceChangesOnlyStatus(s, n);
    var s', k := Step(s, ReplacePod(n)), s.kubelets[n];
    var p := k.request.pod;
    assert KubeletOk(s.world, n, k) && CopyOk(s.world, n, k.cache[p.meta.name]);
    var mid := s.(kubelets := s.kubelets[n := k.(request := NoRequest)]);
    OwnChangeKeepsInv(s, n, k.(request := NoRequest), mid);
    forall m | m in mid.kubelets ensures KubeletOk(s'.world, m, mid.kubelets[m]) {
      if m == n {
        OwnCopiesSurvive(s.world, s'.world, n, k, p);
      } else {
        CopiesSurvive(s.world, s'.world, m, mid.kubelets[m]);
      }
    }
    StatusChangeKeepsRest(mid, s', p.meta.name, p.status);
  }

  /** A new status of a bound pod does not concern the controller or the scheduler. */
  lemma StatusChangeKeepsRest(s: State, s': State, name: string, status: PodStatus)
    requires Inv(s) && name in s.world.pods && s.world.pods[name].nodeName != "" && status != Pending
    requires s' == s.(world := s.world.(pods := WithNewStatus(s.world.pods, name, status)))
    requires KubeletsOk(s'.world, s'.kubelets)
    ensures Inv(s') && Evolves(s, s')
  {
  }

  lemma OwnCopiesSurvive(w: World, w': World, n: string, k: KubeletState, p: Pod)
    requires KubeletOk(w, n, k) && Lookup(k.cache, p.meta.name) == Some(p)
    requires p.meta.name in w.pods && w' == w.(pods := WithNewStatus(w.pods, p.meta.name, p.status))
    ensures KubeletOk(w', n, k.(request := NoRequest))
  {
    forall m | m in k.cache ensures k.cache[m].meta.name == m && CopyOk(w', n, k.cache[m]) {
      assert CopyOk(w, n, k.cache[m]);
    }
    forall i | 0 <= i < |k.listed|
      ensures CopyOk(w', n, k.listed[i]) && (k.listed[i].meta.name !in k.cache ==> w'.pods[k.listed[i].meta.name] == k.listed[i])
    {
      assert CopyOk(w, n, k.listed[i]);
    }
  }

  lemma KubeletKeepsInv(s: State, a: Action)
    requires Inv(s) && NodeOf(a).Some?
    ensures Inv(Step(s, a)) && Evolves(s, Step(s, a))
  {
    if NodeOf(a).value in s.kubelets {
      match a
      case ListAssigned(n) => ListAssignedKeepsInv(s, n);
      case RunPod(n) => RunPodKeepsInv(s, n);
      case Observe(n, _, _) => ObserveKeepsInv(s, a);
      case ReplacePod(n) =>
        if s.kubelets[n].request.Checked? {
          ReplacePodKeepsInv(s, n);
        } else {
          QuietRequestKeepsInv(s, a);
        }
      case _ => QuietRequestKeepsInv(s, a);
    }
  }

  /** The request steps that write nothing. */
  lemma QuietRequestKeepsInv(s: State, a: Action)
    requires Inv(s) && (a.LoadPod? || a.RequestFails? || (a.ReplacePod? && a.node in s.kubelets && !s.kubelets[a.node].request.Checked?))
    requires a.node in s.kubelets
    ensures Inv(Step(s, a)) && Evolves(s, Step(s, a))
  {
    var k := s.kubelets[a.node];
    var k' := KubeletStep(s.world, k, a).1;
    assert KubeletOk(s.world, a.node, k);
    QuietRequestOk(s.world, a.node, k, a, k');
    StepOfKubelet(s, a, a.node, s.world, k', None);
    OwnChangeKeepsInv(s, a.node, k', Step(s, a));
  }

  lemma QuietRequestOk(w: World, n: string, k: KubeletState, a: Action, k': KubeletState)
    requires KubeletOk(w, n, k) && (a.LoadPod? || a.RequestFails? || (a.ReplacePod? && !k.request.Checked?))
    requires k' == KubeletStep(w, k, a).1
    ensures KubeletStep(w, k, a) == (w, k', None) && KubeletOk(w, n, k') && k'.cache == k.cache
  {
    assert k' == k.(request := k'.request);
  }

  // ---- Every run ----

  lemma StepKeepsInv(s: State, a: Action)
    requires Inv(s)
    ensures Inv(Step(s, a)) && Evolves(s, Step(s, a))
  {
    if IsController(a) {
      ControllerKeepsInv(s, a);
    } else if IsScheduler(a) {
      SchedulerKeepsInv(s, a);
    } else if NodeOf(a).Some? {
      KubeletKeepsInv(s, a);
    } else {
      EnvironmentKeepsInv(s, a);
    }
  }

  lemma EnvironmentKeepsInv(s: State, a: Action)
    requires Inv(s) && (a.ChangeNodes? || a.ChangeSets?)
    ensures Inv(Step(s, a)) && Evolves(s, Step(s, a))
  {
    OtherMapsKeepInv(s, Step(s, a));
  }

  /** Nodes and replica sets may change freely: nothing held depends on them. */
  lemma OtherMapsKeepInv(s: State, s': State)
    requires Inv(s) && s' == s.(world := s'.world) && s'.world.pods == s.world.pods && WorldOk(s'.world)
    ensures Inv(s') && Evolves(s, s')
  {
    SamePodsEvolve(s.world.pods, s.seen);
    forall n | n in s.kubelets ensures KubeletOk(s'.world, n, s.kubelets[n]) {
      CopiesSurvive(s.world, s'.world, n, s.kubelets[n]);
    }
  }

  lemma {:induction false} RunKeepsInv(s: State, actions: seq<Action>)
    requires Inv(s)
    ensures Inv(Run(s, actions)) && Evolves(s, Run(s, actions))
  {
    if actions != [] {
      var before := Run(s, actions[..|actions| - 1]);
      RunKeepsInv(s, actions[..|actions| - 1]);
      StepKeepsInv(before, actions[|actions| - 1]);
      EvolvesIsTransitive(s, before, Run(s, actions));
    }
  }

  lemma {:induction false} RunSplits(s: State, actions: seq<Action>, i: nat)
    requires i <= |actions|
    ensures Run(s, actions) == Run(Run(s, actions[..i]), actions[i..])
    decreases |actions|
  {
    if i == |actions| {
      assert actions[..i] == actions && actions[i..] == [];
    } else {
      var before, rest := actions[..|actions| - 1], actions[i..];
      RunSplits(s, before, i);
      assert before[..i] == actions[..i];
      assert rest[..|rest| - 1] == before[i..] && rest[|rest| - 1] == actions[|actions| - 1];
    }
  }

  /**
   Single placement, in every interleaving and between any two moments of a run:
   a pod stays stored with its metadata and spec; once bound it stays on its node,
   and it is bound only while pending and only to a node the scheduler listed; it
   never becomes pending again. No pod is started twice, by one kubelet or by two,
   and a pod is started only on the node it is bound to.
   */
  lemma SinglePlacement(s: State, actions: seq<Action>, i: nat, j: nat)
    requires Init(s) && i <= j <= |actions|
    ensures var a, b := Run(s, actions[..i]), Run(s, actions[..j]);
            && (forall n | n in a.world.pods ::
                  && n in b.world.pods
                  && var p, q := a.world.pods[n], b.world.pods[n];
                     && q.meta == p.meta && q.spec == p.spec
                     && (p.nodeName != "" ==> q.nodeName == p.nodeName)
                     && (q.nodeName != p.nodeName ==> p.status == Pending && q.nodeName in b.seen)
                     && (p.status != Pending ==> q.status != Pending))
            && a.starts <= b.starts
            && (forall x, y | 0 <= x < y < |b.starts| :: b.starts[x].1 != b.starts[y].1)
            && (forall x | 0 <= x < |b.starts| ::
                  b.starts[x].1 in b.world.pods && b.world.pods[b.starts[x].1].nodeName == b.starts[x].0)
  {
    InitEstablishesInv(s);
    var a, b := Run(s, actions[..i]), Run(s, actions[..j]);
    RunKeepsInv(s, actions[..i]);
    RunSplits(s, actions[..j], i);
    assert actions[..j][..i] == actions[..i];
    RunKeepsInv(a, actions[..j][i..]);
    forall n | n in a.world.pods ensures PodEvolves(a.world.pods[n], b.world.pods[n], b.seen) {
    }
    forall x | 0 <= x < |b.starts|
      ensures b.starts[x].1 in b.world.pods && b.world.pods[b.starts[x].1].nodeName == b.starts[x].0
    {
      var (n, m) := b.starts[x];
      assert KubeletOk(b.world, n, b.kubelets[n]);
      assert CopyOk(b.world, n, b.kubelets[n].cache[m]);
    }
  }

  /**
   Cache coherence: in every reachable state each kubelet's copies agree with the
   stored pods on everything but the status, however old they are, and completing
   an update changes only the status of one pod bound to that kubelet's node.
   */
  lemma CacheCoherence(s: State, actions: seq<Action>, node: string)
    requires Init(s) && node in s.kubelets
    ensures var r := Run(s, actions);
            && node in r.kubelets
            && (forall m | m in r.kubelets[node].cache ::
                  && m in r.world.pods
                  && SameButStatus(r.kubelets[node].cache[m], r.world.pods[m])
                  && r.world.pods[m].nodeName == node)
            && (r.kubelets[node].request.Checked? ==>
                  var p := r.kubelets[node].request.pod;
                  && p.meta.name in r.world.pods
                  && Step(r, ReplacePod(node)).world.pods ==
                     r.world.pods[p.meta.name := r.world.pods[p.meta.name].(status := p.status)])
  {
    InitEstablishesInv(s);
    RunKeepsInv(s, actions);
    var r := Run(s, actions);
    assert KubeletOk(r.world, node, r.kubelets[node]);
    forall m | m in r.kubelets[node].cache ensures CopyOk(r.world, node, r.kubelets[node].cache[m]) {
    }
    if r.kubelets[node].request.Checked? {
      ReplaceChangesOnlyStatus(r, node);
    }
  }
}
