/**
 What the steps of the placement protocol add up to: a process that is not interrupted
 does to the store what its own pass does.
 */
module Passes {
  import opened Wrappers
  import opened Api
  import opened Names
  import opened KeyOrder
  import opened Layout
  import opened Replicas
  import opened Scheduler
  import opened Handlers
  import opened Placement
  import opened PlacementSafety
  import Controller
  import Kubelet

  lemma OneMoreAction(s: State, actions: seq<Action>, a: Action)
    ensures Run(s, actions + [a]) == Step(Run(s, actions), a)
  {
    assert (actions + [a])[..|actions|] == actions;
  }

  /** Sequences of actions that lead from each expected state to the next. */
  lemma {:induction false} Chained(s: State, actions: seq<seq<Action>>, states: seq<State>, n: nat)
    requires n < |actions| == |states| && Run(s, actions[0]) == states[0]
    requires forall i: nat | i < n && Run(s, actions[i]) == states[i] :: Run(s, actions[i + 1]) == states[i + 1]
    ensures Run(s, actions[n]) == states[n]
  {
    if n > 0 {
      Chained(s, actions, states, n - 1);
    }
  }

  lemma TwoMoreActions(s: State, actions: seq<Action>, a: Action, b: Action)
    ensures Run(s, actions + [a, b]) == Step(Step(Run(s, actions), a), b)
  {
    assert actions + [a, b] == (actions + [a]) + [b];
    var s1, s2 := Run(s, actions), Run(s, actions + [a]);
    assert s2 == Step(s1, a) by {
      OneMoreAction(s, actions, a);
    }
    OneMoreAction(s, actions + [a], b);
  }

  lemma TwoActions(s: State, a: Action, b: Action, s1: State, s2: State)
    requires Step(s, a) == s1 && Step(s1, b) == s2
    ensures Run(s, [a, b]) == s2
  {
    assert Run(s, []) == s && [] + [a, b] == [a, b];
    TwoMoreActions(s, [], a, b);
  }

  // ---- The scheduler ----

  /** Both listings, then an assignment for each of the first `n` picks. */
  function Picking(picks: seq<nat>, n: nat): seq<Action>
    requires n <= |picks|
  {
    if n == 0 then [ListPendingPods, ListNodes] else Picking(picks, n - 1) + [AssignPod(picks[n - 1])]
  }

  function SchedulerPass(picks: seq<nat>): seq<Action> {
    Picking(picks, |picks|)
  }

  function Chosen(nodes: seq<string>, picks: seq<nat>): (r: seq<string>)
    requires nodes != []
    ensures |r| == |picks|
  {
    if picks == [] then []
    else Chosen(nodes, picks[..|picks| - 1]) + [nodes[picks[|picks| - 1] % |nodes|]]
  }

  lemma AssignNext(s: State, pods: map<string, Pod>, listed: seq<Pod>, names: seq<string>, nodes: seq<string>, pick: nat)
    requires |names| < |listed| && nodes != []
    requires s.scheduler == Continue(listed[|names|..], nodes) && s.world.pods == AssignAll(pods, listed, names)
    ensures var names' := names + [nodes[pick % |nodes|]];
            Step(s, AssignPod(pick)) ==
            s.(world := s.world.(pods := AssignAll(pods, listed, names')), scheduler := Continue(listed[|names'|..], nodes))
  {
    var names' := names + [nodes[pick % |nodes|]];
    assert names'[..|names|] == names;
    assert listed[|names|..][1..] == listed[|names'|..];
  }

  /** The state after the first pods of a listing were assigned. */
  function AfterPicks(s: State, listed: seq<Pod>, nodes: seq<string>, picks: seq<nat>): State
    requires nodes != [] && |picks| <= |listed|
  {
    s.(world := s.world.(pods := AssignAll(s.world.pods, listed, Chosen(nodes, picks))),
       scheduler := Continue(listed[|picks|..], nodes),
       seen := s.seen + s.world.nodes.Keys)
  }

  /** The two listings on their own. */
  lemma BothListings(s: State)
    requires s.scheduler == Waiting
    ensures Run(s, SchedulerPass([])) ==
            s.(scheduler := Continue(PendingPods(s.world.pods), Sorted(s.world.nodes.Keys)), seen := s.seen + s.world.nodes.Keys)
  {
    var pods := PendingPods(s.world.pods);
    var s1 := s.(scheduler := Listed(pods));
    NodeListing(s1, pods);
    TwoActions(s, ListPendingPods, ListNodes, s1, Step(s1, ListNodes));
  }

  lemma NodeListing(s: State, pods: seq<Pod>)
    requires s.scheduler == Listed(pods)
    ensures Step(s, ListNodes) == s.(scheduler := Continue(pods, Sorted(s.world.nodes.Keys)), seen := s.seen + s.world.nodes.Keys)
  {
  }

  lemma NodesAreListed(nodes: map<string, Node>)
    ensures Sorted(nodes.Keys) == [] <==> nodes == map[]
  {
    if nodes != map[] {
      var n :| n in nodes;
      assert n in Sorted(nodes.Keys);
    }
  }

  lemma NothingAssigned(s: State, listed: seq<Pod>, nodes: seq<string>)
    requires s.scheduler == Waiting && listed == PendingPods(s.world.pods) && nodes == Sorted(s.world.nodes.Keys) && nodes != []
    ensures Run(s, SchedulerPass([])) == AfterPicks(s, listed, nodes, [])
  {
    BothListings(s);
    assert listed[0..] == listed;
  }

  lemma OneMoreAssigned(s: State, listed: seq<Pod>, nodes: seq<string>, picks: seq<nat>, pick: nat)
    requires nodes != [] && |picks| < |listed|
    ensures Step(AfterPicks(s, listed, nodes, picks), AssignPod(pick)) == AfterPicks(s, listed, nodes, picks + [pick])
  {
    assert (picks + [pick])[..|picks|] == picks;
    AssignNext(AfterPicks(s, listed, nodes, picks), s.world.pods, listed, Chosen(nodes, picks), nodes, pick);
  }

  /** The first `n` picks lead where they should. */
  ghost predicate PicksLead(s: State, listed: seq<Pod>, nodes: seq<string>, picks: seq<nat>, n: nat)
    requires nodes != [] && n <= |picks| <= |listed|
  {
    Run(s, Picking(picks, n)) == AfterPicks(s, listed, nodes, picks[..n])
  }

  lemma PicksLeadFurther(s: State, listed: seq<Pod>, nodes: seq<string>, picks: seq<nat>, n: nat)
    requires nodes != [] && n < |picks| <= |listed|
    ensures PicksLead(s, listed, nodes, picks, n) ==> PicksLead(s, listed, nodes, picks, n + 1)
  {
    OneMoreAction(s, Picking(picks, n), AssignPod(picks[n]));
    OneMoreAssigned(s, listed, nodes, picks[..n], picks[n]);
    assert picks[..n + 1] == picks[..n] + [picks[n]];
  }

  /** The actions and the states of a pass, pick by pick. */
  ghost predicate PicksOf(s: State, listed: seq<Pod>, nodes: seq<string>, picks: seq<nat>, actions: seq<seq<Action>>, states: seq<State>, i: nat)
    requires nodes != [] && i <= |picks| <= |listed| && |actions| == |states| == |picks| + 1
  {
    actions[i] == Picking(picks, i) && states[i] == AfterPicks(s, listed, nodes, picks[..i])
  }

  lemma PicksTrace(s: State, listed: seq<Pod>, nodes: seq<string>, picks: seq<nat>) returns (actions: seq<seq<Action>>, states: seq<State>)
    requires nodes != [] && |picks| <= |listed|
    ensures |actions| == |states| == |picks| + 1
    ensures forall i: nat | i <= |picks| :: PicksOf(s, listed, nodes, picks, actions, states, i)
  {
    actions := seq(|picks| + 1, i requires 0 <= i <= |picks| => Picking(picks, i));
    states := seq(|picks| + 1, i requires 0 <= i <= |picks| => AfterPicks(s, listed, nodes, picks[..i]));
  }

  lemma PicksAreChained(s: State, listed: seq<Pod>, nodes: seq<string>, picks: seq<nat>,
                        actions: seq<seq<Action>>, states: seq<State>, i: nat)
    requires nodes != [] && i < |picks| <= |listed| && |actions| == |states| == |picks| + 1
    requires PicksOf(s, listed, nodes, picks, actions, states, i) && PicksOf(s, listed, nodes, picks, actions, states, i + 1)
    ensures Run(s, actions[i]) == states[i] ==> Run(s, actions[i + 1]) == states[i + 1]
  {
    PicksLeadFurther(s, listed, nodes, picks, i);
  }

  lemma PicksFollow(s: State, listed: seq<Pod>, nodes: seq<string>, picks: seq<nat>)
    requires nodes != [] && |picks| <= |listed| && PicksLead(s, listed, nodes, picks, 0)
    ensures PicksLead(s, listed, nodes, picks, |picks|)
  {
    var actions, states := PicksTrace(s, listed, nodes, picks);
    assert PicksOf(s, listed, nodes, picks, actions, states, 0) && PicksOf(s, listed, nodes, picks, actions, states, |picks|);
    forall i: nat | i < |picks| && Run(s, actions[i]) == states[i] ensures Run(s, actions[i + 1]) == states[i + 1] {
      assert PicksOf(s, listed, nodes, picks, actions, states, i) && PicksOf(s, listed, nodes, picks, actions, states, i + 1);
      PicksAreChained(s, listed, nodes, picks, actions, states, i);
    }
    Chained(s, actions, states, |picks|);
  }

  lemma SchedulerPassAssigns(s: State, listed: seq<Pod>, nodes: seq<string>, picks: seq<nat>)
    requires s.scheduler == Waiting && listed == PendingPods(s.world.pods) && nodes == Sorted(s.world.nodes.Keys)
    requires nodes != [] && |picks| <= |listed|
    ensures Run(s, SchedulerPass(picks)) == AfterPicks(s, listed, nodes, picks)
  {
    NothingAssigned(s, listed, nodes);
    assert picks[..0] == [] && picks[..|picks|] == picks;
    PicksFollow(s, listed, nodes, picks);
  }

  /** A scheduler that is not interrupted binds what its pass binds, and no pod stays pending. */
  lemma SchedulerPassBinds(s: State, picks: seq<nat>)
    requires Named(s.world.pods) && s.scheduler == Waiting && s.world.nodes != map[]
    requires |picks| == |PendingPods(s.world.pods)|
    ensures var s' := Run(s, SchedulerPass(picks));
            && s'.scheduler == Waiting && s'.world.sets == s.world.sets && s'.world.nodes == s.world.nodes
            && (exists names :: |names| == |picks| && (forall n | n in names :: n in s.world.nodes) && Bound(s.world.pods, names, s'.world.pods))
            && PendingPods(s'.world.pods) == []
  {
    var listed, nodes := PendingPods(s.world.pods), Sorted(s.world.nodes.Keys);
    NodesAreListed(s.world.nodes);
    SchedulerPassAssigns(s, listed, nodes, picks);
    AllAssigned(s, listed, nodes, picks);
  }

  /** What the assignments amount to. */
  lemma AllAssigned(s: State, listed: seq<Pod>, nodes: seq<string>, picks: seq<nat>)
    requires Named(s.world.pods) && listed == PendingPods(s.world.pods) && nodes == Sorted(s.world.nodes.Keys)
    requires nodes != [] && |picks| == |listed|
    ensures var s', names := AfterPicks(s, listed, nodes, picks), Chosen(nodes, picks);
            && s'.scheduler == Waiting && PendingPods(s'.world.pods) == []
            && (forall n | n in names :: n in s.world.nodes) && Bound(s.world.pods, names, s'.world.pods)
  {
    var names := Chosen(nodes, picks);
    AssignAllBinds(s.world.pods, names);
    ChosenAreNodes(nodes, picks);
    CompletePassLeavesNothingPending(s.world.pods, names, AssignAll(s.world.pods, listed, names));
  }

  /** Without nodes the scheduler gives up and nothing changes. */
  lemma NoNodesNoPass(s: State)
    requires s.scheduler == Waiting && s.world.nodes == map[]
    ensures Run(s, SchedulerPass([])) == s
  {
    BothListings(s);
    NodesAreListed(s.world.nodes);
    assert s.seen + s.world.nodes.Keys == s.seen;
  }

  lemma {:induction false} ChosenAreNodes(nodes: seq<string>, picks: seq<nat>)
    requires nodes != []
    ensures forall n | n in Chosen(nodes, picks) :: n in nodes
  {
    if picks != [] {
      ChosenAreNodes(nodes, picks[..|picks| - 1]);
    }
  }

  // ---- A kubelet ----

  /** A listing of the node's pods and a look at the first `n` of them. */
  function KubeletPass(node: string, n: nat): seq<Action> {
    if n == 0 then [ListAssigned(node)] else KubeletPass(node, n - 1) + [RunPod(node)]
  }

  function StartsOn(node: string, names: seq<string>): seq<(string, string)> {
    if names == [] then [] else StartsOn(node, names[..|names| - 1]) + [(node, names[|names| - 1])]
  }

  /** The state after a kubelet looked at the first `n` pods of a listing. */
  function Admitted(s: State, node: string, listed: seq<Pod>, n: nat): State
    requires node in s.kubelets && n <= |listed|
  {
    var known := Kubelet.Known(s.kubelets[node].cache, []).AdmitAll(listed[..n]);
    s.(kubelets := s.kubelets[node := s.kubelets[node].(cache := known.pods, listed := listed[n..])],
       starts := s.starts + StartsOn(node, known.started))
  }

  lemma ListFirst(s: State, node: string, listed: seq<Pod>)
    requires node in s.kubelets && s.kubelets[node].listed == [] && listed == ByNode(Values(s.world.pods), node)
    ensures Run(s, [ListAssigned(node)]) == Admitted(s, node, listed, 0)
  {
    assert [ListAssigned(node)][..0] == [];
    assert Run(s, []) == s;
    assert listed[0..] == listed;
    assert s.starts + [] == s.starts;
  }

  /** What is known after one more pod of the listing. */
  lemma KnownNext(cache: map<string, Pod>, listed: seq<Pod>, n: nat)
    requires n < |listed|
    ensures Kubelet.Known(cache, []).AdmitAll(listed[..n + 1]) == Kubelet.Known(cache, []).AdmitAll(listed[..n]).Admit(listed[n])
  {
    assert listed[..n + 1][..n] == listed[..n];
  }

  /** One more start in the record. */
  lemma StartsOnNext(node: string, started: seq<string>, name: string)
    ensures StartsOn(node, started + [name]) == StartsOn(node, started) + [(node, name)]
  {
    assert (started + [name])[..|started|] == started;
  }

  lemma RunPodOnKubelet(w: World, k: KubeletState, node: string, known: Kubelet.Known, p: Pod)
    requires k.listed != [] && p == k.listed[0] && k.cache == known.pods
    ensures var known' := known.Admit(p);
            KubeletStep(w, k, RunPod(node)) ==
            (w, k.(cache := known'.pods, listed := k.listed[1..]), if p.meta.name in known.pods then None else Some(p.meta.name))
  {
  }

  /** A look at the first pod of a listing admits it. */
  lemma RunPodAdmits(s: State, node: string, known: Kubelet.Known, starts: seq<(string, string)>)
    requires node in s.kubelets && s.kubelets[node].listed != [] && s.kubelets[node].cache == known.pods
    requires s.starts == starts + StartsOn(node, known.started)
    ensures var k := s.kubelets[node];
            var known' := known.Admit(k.listed[0]);
            Step(s, RunPod(node)) ==
            s.(kubelets := s.kubelets[node := k.(cache := known'.pods, listed := k.listed[1..])],
               starts := starts + StartsOn(node, known'.started))
  {
    var k := s.kubelets[node];
    var p := k.listed[0];
    var known' := known.Admit(p);
    var started := if p.meta.name in known.pods then None else Some(p.meta.name);
    RunPodOnKubelet(s.world, k, node, known, p);
    StepOfKubelet(s, RunPod(node), node, s.world, k.(cache := known'.pods, listed := k.listed[1..]), started);
    if started.Some? {
      StartsOnNext(node, known.started, p.meta.name);
      assert s.starts + [(node, p.meta.name)] == starts + (StartsOn(node, known.started) + [(node, p.meta.name)]);
    }
  }

  lemma AdmitNext(s: State, node: string, listed: seq<Pod>, n: nat)
    requires node in s.kubelets && n < |listed|
    ensures Step(Admitted(s, node, listed, n), RunPod(node)) == Admitted(s, node, listed, n + 1)
  {
    var known := Kubelet.Known(s.kubelets[node].cache, []).AdmitAll(listed[..n]);
    KnownNext(s.kubelets[node].cache, listed, n);
    RunPodAdmits(Admitted(s, node, listed, n), node, known, s.starts);
    assert listed[n..][1..] == listed[n + 1..];
  }

  /** The look at the first `n` pods leads where it should. */
  ghost predicate AdmitsTo(s: State, node: string, listed: seq<Pod>, n: nat)
    requires node in s.kubelets && n <= |listed|
  {
    Run(s, KubeletPass(node, n)) == Admitted(s, node, listed, n)
  }

  lemma AdmitsFurther(s: State, node: string, listed: seq<Pod>, n: nat)
    requires node in s.kubelets && n < |listed|
    ensures AdmitsTo(s, node, listed, n) ==> AdmitsTo(s, node, listed, n + 1)
  {
    OneMoreAction(s, KubeletPass(node, n), RunPod(node));
    AdmitNext(s, node, listed, n);
  }

  /** The actions and the states of a pass, pod by pod. */
  ghost predicate AdmissionsOf(s: State, node: string, listed: seq<Pod>, n: nat, actions: seq<seq<Action>>, states: seq<State>, i: nat)
    requires node in s.kubelets && i <= n <= |listed| && |actions| == |states| == n + 1
  {
    actions[i] == KubeletPass(node, i) && states[i] == Admitted(s, node, listed, i)
  }

  lemma AdmissionsTrace(s: State, node: string, listed: seq<Pod>, n: nat) returns (actions: seq<seq<Action>>, states: seq<State>)
    requires node in s.kubelets && n <= |listed|
    ensures |actions| == |states| == n + 1
    ensures forall i: nat | i <= n :: AdmissionsOf(s, node, listed, n, actions, states, i)
  {
    actions := seq(n + 1, i requires 0 <= i <= n => KubeletPass(node, i));
    states := seq(n + 1, i requires 0 <= i <= n => Admitted(s, node, listed, i));
  }

  lemma AdmissionsAreChained(s: State, node: string, listed: seq<Pod>, n: nat, actions: seq<seq<Action>>, states: seq<State>, i: nat)
    requires node in s.kubelets && i < n <= |listed| && |actions| == |states| == n + 1
    requires AdmissionsOf(s, node, listed, n, actions, states, i) && AdmissionsOf(s, node, listed, n, actions, states, i + 1)
    ensures Run(s, actions[i]) == states[i] ==> Run(s, actions[i + 1]) == states[i + 1]
  {
    AdmitsFurther(s, node, listed, i);
  }

  lemma AdmissionsFollow(s: State, node: string, listed: seq<Pod>, n: nat)
    requires node in s.kubelets && n <= |listed| && AdmitsTo(s, node, listed, 0)
    ensures AdmitsTo(s, node, listed, n)
  {
    var actions, states := AdmissionsTrace(s, node, listed, n);
    assert AdmissionsOf(s, node, listed, n, actions, states, 0) && AdmissionsOf(s, node, listed, n, actions, states, n);
    forall i: nat | i < n && Run(s, actions[i]) == states[i] ensures Run(s, actions[i + 1]) == states[i + 1] {
      assert AdmissionsOf(s, node, listed, n, actions, states, i) && AdmissionsOf(s, node, listed, n, actions, states, i + 1);
      AdmissionsAreChained(s, node, listed, n, actions, states, i);
    }
    Chained(s, actions, states, n);
  }

  /** A kubelet that is not interrupted admits its listing: the same pods become known and the same are started. */
  lemma KubeletPassAdmits(s: State, node: string, listed: seq<Pod>, n: nat)
    requires node in s.kubelets && s.kubelets[node].listed == [] && listed == ByNode(Values(s.world.pods), node) && n <= |listed|
    ensures Run(s, KubeletPass(node, n)) == Admitted(s, node, listed, n)
  {
    ListFirst(s, node, listed);
    AdmissionsFollow(s, node, listed, n);
  }

  /** The statuses the protocol lets a kubelet report are those it derives from container states. */
  lemma ReportedStatusesAreDerived(status: PodStatus)
    ensures Derived(status) <==> exists states :: Kubelet.DeterminePodStatus(states) == status
  {
    var up, done, failed := Kubelet.ContainerState(true, true, 0), Kubelet.ContainerState(true, false, 0), Kubelet.ContainerState(true, false, 1);
    Kubelet.ScansAreQuantifiers([done]);
    Kubelet.ScansAreQuantifiers([failed]);
    assert up in [up] && done in [done] && failed in [failed];
    assert Kubelet.DeterminePodStatus([up]) == Running;
    assert Kubelet.DeterminePodStatus([done]) == Succeeded;
    assert Kubelet.DeterminePodStatus([failed]) == Failed;
    Kubelet.ScansAreQuantifiers([done, failed]);
    assert done in [done, failed] && failed in [done, failed];
    assert Kubelet.DeterminePodStatus([done, failed]) == Scheduled;
  }

  // ---- The controller ----

  /** Reading the set, counting its pods, and the first `n` creations with their existence checks. */
  function Creations(draws: seq<Suffix>, n: nat): seq<Action>
    requires n <= |draws|
  {
    if n == 0 then [GetSet, ListPodsOfSet] else Creations(draws, n - 1) + [CheckName(draws[n - 1]), PutPod]
  }

  /** A pass over one set; the last two steps write its status, if that is what is left to do. */
  function ControllerPass(draws: seq<Suffix>, n: nat): seq<Action>
    requires n <= |draws|
  {
    Creations(draws, n) + [CheckSet, PutSet]
  }

  /** Where the controller stands after `n` creations. */
  function After(rs: ReplicaSet, c: nat, n: nat, todo: seq<string>): ControllerState {
    if n == 0 then
      if c < rs.replicas then NextPod(rs, c, 0, todo)
      else if c > rs.replicas then CheckingSet(rs.(statusReplicas := rs.replicas), todo)
      else NextSet(todo)
    else
      match After(rs, c, n - 1, todo)
      case Creating(_, i, j, _) => NextPod(rs, i, j + 1, todo)
      case other => other
  }

  /** Creation number `n` makes container `j` of replica `i`. */
  lemma {:induction false} CreationsInTurn(rs: ReplicaSet, c: nat, n: nat, todo: seq<string>) returns (i: nat, j: nat)
    requires n < Controller.Shortfall(rs, c)
    ensures After(rs, c, n, todo) == Creating(rs, i, j, todo)
    ensures c <= i < rs.replicas && j < |rs.template.Containers()|
    ensures n == Controller.Times(i - c, |rs.template.Containers()|) + j
  {
    Controller.NoShortfallWithoutContainers(rs, c);
    if n == 0 {
      i, j := c, 0;
    } else {
      i, j := CreationsInTurn(rs, c, n - 1, todo);
      if j + 1 < |rs.template.Containers()| {
        j := j + 1;
      } else {
        Controller.TimesIsProduct(rs.replicas - c, |rs.template.Containers()|);
        assert n == Controller.Times(i + 1 - c, |rs.template.Containers()|);
        i, j := i + 1, 0;
      }
    }
  }

  /** After the last creation only the status is left to write. */
  lemma CreationsEnd(rs: ReplicaSet, c: nat, todo: seq<string>)
    ensures After(rs, c, Controller.Shortfall(rs, c), todo) ==
            if c == rs.replicas then NextSet(todo) else CheckingSet(rs.(statusReplicas := rs.replicas), todo)
  {
    var n, k := Controller.Shortfall(rs, c), |rs.template.Containers()|;
    if n > 0 {
      Controller.NoShortfallWithoutContainers(rs, c);
      var i, j := CreationsInTurn(rs, c, n - 1, todo);
      Controller.TimesIsProduct(rs.replicas - c, k);
      if i + 1 < rs.replicas {
        Controller.TimesIsMonotone(i - c + 1, rs.replicas - c - 1, k);
      }
    }
  }

  /** The state after `n` creations of a pass over one set. */
  function Halfway(s: State, rs: ReplicaSet, draws: seq<Suffix>, n: nat, todo: seq<string>): State
    requires n <= |draws|
  {
    s.(world := s.world.(pods := Created(s.world.pods, rs.meta.name, rs.template.Containers(), draws, n)),
       controller := After(rs, Count(s.world.pods, rs.meta.name), n, todo))
  }

  lemma ReadingStep(s: State, name: string, rs: ReplicaSet, todo: seq<string>)
    requires s.controller == Passing([name] + todo) && name in s.world.sets && s.world.sets[name] == rs
    ensures Step(s, GetSet) == s.(controller := Counting(rs, todo))
  {
    assert ([name] + todo)[1..] == todo;
  }

  lemma CountingStep(s: State, rs: ReplicaSet, draws: seq<Suffix>, todo: seq<string>)
    ensures Step(s.(controller := Counting(rs, todo)), ListPodsOfSet) == Halfway(s, rs, draws, 0, todo)
  {
  }

  lemma CountFirst(s: State, name: string, rs: ReplicaSet, draws: seq<Suffix>, todo: seq<string>)
    requires s.controller == Passing([name] + todo) && name in s.world.sets && s.world.sets[name] == rs
    ensures Run(s, [GetSet, ListPodsOfSet]) == Halfway(s, rs, draws, 0, todo)
  {
    ReadingStep(s, name, rs, todo);
    CountingStep(s, rs, draws, todo);
    TwoActions(s, GetSet, ListPodsOfSet, s.(controller := Counting(rs, todo)), Halfway(s, rs, draws, 0, todo));
  }

  /** One more creation, by what it stores and where the controller goes. */
  lemma HalfwayNext(s: State, rs: ReplicaSet, draws: seq<Suffix>, n: nat, todo: seq<string>, i: nat, j: nat, p: Pod)
    requires n < |draws| && j < |rs.template.Containers()|
    requires After(rs, Count(s.world.pods, rs.meta.name), n, todo) == Creating(rs, i, j, todo)
    requires p == Creation(rs.meta.name, rs.template.Containers(), draws, n)
    ensures var half := Halfway(s, rs, draws, n, todo);
            Halfway(s, rs, draws, n + 1, todo) ==
            half.(world := half.world.(pods := half.world.pods[p.meta.name := p]), controller := NextPod(rs, i, j + 1, todo))
  {
  }

  lemma CreateNextAt(s: State, rs: ReplicaSet, draws: seq<Suffix>, n: nat, todo: seq<string>, i: nat, j: nat, half: State)
    requires n < |draws| && j < |rs.template.Containers()| && half == Halfway(s, rs, draws, n, todo)
    requires After(rs, Count(s.world.pods, rs.meta.name), n, todo) == Creating(rs, i, j, todo)
    requires Turn(rs.template.Containers(), n) == rs.template.Containers()[j] && ValidContainer(rs.template.Containers()[j])
    requires GeneratedName(rs.meta.name, draws[n]) !in half.world.pods
    ensures Step(Step(half, CheckName(draws[n])), PutPod) == Halfway(s, rs, draws, n + 1, todo)
  {
    HalfwayNext(s, rs, draws, n, todo, i, j, Creation(rs.meta.name, rs.template.Containers(), draws, n));
    CreationSteps(half, rs, i, j, draws[n], todo);
  }

  lemma CreateNext(s: State, rs: ReplicaSet, draws: seq<Suffix>, n: nat, todo: seq<string>)
    requires n < Controller.Shortfall(rs, Count(s.world.pods, rs.meta.name)) && n < |draws|
    requires !Taken(s.world.pods, rs.meta.name, rs.template.Containers(), draws, n)
    requires Controller.Complete(rs.template.Containers(), |rs.template.Containers()|)
    ensures Step(Step(Halfway(s, rs, draws, n, todo), CheckName(draws[n])), PutPod) == Halfway(s, rs, draws, n + 1, todo)
  {
    var c, containers := Count(s.world.pods, rs.meta.name), rs.template.Containers();
    var i, j := CreationsInTurn(rs, c, n, todo);
    Controller.TurnOfRound(containers, i - c, j);
    CreateNextAt(s, rs, draws, n, todo, i, j, Halfway(s, rs, draws, n, todo));
  }

  /** The check of a free name and the put that follows it. */
  lemma CreationSteps(s: State, rs: ReplicaSet, i: nat, j: nat, suffix: Suffix, todo: seq<string>)
    requires s.controller == Creating(rs, i, j, todo) && j < |rs.template.Containers()|
    requires GeneratedName(rs.meta.name, suffix) !in s.world.pods && ValidContainer(rs.template.Containers()[j])
    ensures var p := NewPod(rs.meta.name, rs.template.Containers()[j], suffix);
            Step(Step(s, CheckName(suffix)), PutPod) ==
            s.(world := s.world.(pods := s.world.pods[p.meta.name := p]), controller := NextPod(rs, i, j + 1, todo))
  {
    var p := NewPod(rs.meta.name, rs.template.Containers()[j], suffix);
    Controller.MadePodIsValid(rs.meta.name, rs.template.Containers()[j], suffix);
    assert Step(s, CheckName(suffix)) == s.(controller := Putting(rs, i, j, p, todo));
  }

  lemma OneMoreCreation(s: State, rs: ReplicaSet, draws: seq<Suffix>, n: nat, todo: seq<string>, actions: seq<Action>)
    requires n < Controller.Shortfall(rs, Count(s.world.pods, rs.meta.name)) && n < |draws|
    requires !Taken(s.world.pods, rs.meta.name, rs.template.Containers(), draws, n)
    requires Controller.Complete(rs.template.Containers(), |rs.template.Containers()|)
    requires Run(s, actions) == Halfway(s, rs, draws, n, todo)
    ensures Run(s, actions + [CheckName(draws[n]), PutPod]) == Halfway(s, rs, draws, n + 1, todo)
  {
    TwoMoreActions(s, actions, CheckName(draws[n]), PutPod);
    CreateNext(s, rs, draws, n, todo);
  }

  /** The first `n` creations of a pass lead where they should. */
  ghost predicate LeadsTo(s: State, rs: ReplicaSet, draws: seq<Suffix>, n: nat, todo: seq<string>)
    requires n <= |draws|
  {
    Run(s, Creations(draws, n)) == Halfway(s, rs, draws, n, todo)
  }

  /** The first `n` creations are wanted, their names are free and their containers complete. */
  ghost predicate Doable(s: State, rs: ReplicaSet, draws: seq<Suffix>, n: nat) {
    && n <= Controller.Shortfall(rs, Count(s.world.pods, rs.meta.name))
    && Controller.Clear(s.world.pods, rs.meta.name, rs.template.Containers(), draws, n)
  }

  lemma LeadsFurther(s: State, rs: ReplicaSet, draws: seq<Suffix>, i: nat, n: nat, todo: seq<string>)
    requires i < n <= |draws|
    ensures Doable(s, rs, draws, n) && LeadsTo(s, rs, draws, i, todo) ==> LeadsTo(s, rs, draws, i + 1, todo)
  {
    if Doable(s, rs, draws, n) && LeadsTo(s, rs, draws, i, todo) {
      FreeAt(s.world.pods, rs.meta.name, rs.template.Containers(), draws, n, i);
      OneMoreCreation(s, rs, draws, i, todo, Creations(draws, i));
    }
  }

  /** The actions and the states of a pass, creation by creation. */
  ghost predicate CreationsOf(s: State, rs: ReplicaSet, draws: seq<Suffix>, n: nat, todo: seq<string>,
                              actions: seq<seq<Action>>, states: seq<State>, i: nat)
    requires i <= n <= |draws| && |actions| == |states| == n + 1
  {
    actions[i] == Creations(draws, i) && states[i] == Halfway(s, rs, draws, i, todo)
  }

  lemma CreationsTrace(s: State, rs: ReplicaSet, draws: seq<Suffix>, n: nat, todo: seq<string>)
    returns (actions: seq<seq<Action>>, states: seq<State>)
    requires n <= |draws|
    ensures |actions| == |states| == n + 1
    ensures forall i: nat | i <= n :: CreationsOf(s, rs, draws, n, todo, actions, states, i)
  {
    actions := seq(n + 1, i requires 0 <= i <= n => Creations(draws, i));
    states := seq(n + 1, i requires 0 <= i <= n => Halfway(s, rs, draws, i, todo));
  }

  lemma CreationsAreChained(s: State, rs: ReplicaSet, draws: seq<Suffix>, n: nat, todo: seq<string>,
                            actions: seq<seq<Action>>, states: seq<State>, i: nat)
    requires i < n <= |draws| && |actions| == |states| == n + 1 && Doable(s, rs, draws, n)
    requires CreationsOf(s, rs, draws, n, todo, actions, states, i) && CreationsOf(s, rs, draws, n, todo, actions, states, i + 1)
    ensures Run(s, actions[i]) == states[i] ==> Run(s, actions[i + 1]) == states[i + 1]
  {
    LeadsFurther(s, rs, draws, i, n, todo);
  }

  lemma CreationsFollow(s: State, rs: ReplicaSet, draws: seq<Suffix>, n: nat, todo: seq<string>)
    requires n <= |draws| && Doable(s, rs, draws, n) && LeadsTo(s, rs, draws, 0, todo)
    ensures LeadsTo(s, rs, draws, n, todo)
  {
    var actions, states := CreationsTrace(s, rs, draws, n, todo);
    assert CreationsOf(s, rs, draws, n, todo, actions, states, 0) && CreationsOf(s, rs, draws, n, todo, actions, states, n);
    forall i: nat | i < n && Run(s, actions[i]) == states[i] ensures Run(s, actions[i + 1]) == states[i + 1] {
      assert CreationsOf(s, rs, draws, n, todo, actions, states, i) && CreationsOf(s, rs, draws, n, todo, actions, states, i + 1);
      CreationsAreChained(s, rs, draws, n, todo, actions, states, i);
    }
    Chained(s, actions, states, n);
  }

  lemma CreationsCreate(s: State, name: string, rs: ReplicaSet, draws: seq<Suffix>, n: nat, todo: seq<string>)
    requires s.controller == Passing([name] + todo) && name in s.world.sets && s.world.sets[name] == rs && rs.meta.name == name
    requires n <= Controller.Shortfall(rs, Count(s.world.pods, name)) && n <= |draws|
    requires Free(s.world.pods, name, rs.template.Containers(), draws, n)
    requires n > 0 ==> Controller.Complete(rs.template.Containers(), |rs.template.Containers()|)
    ensures Run(s, Creations(draws, n)) == Halfway(s, rs, draws, n, todo)
  {
    CountFirst(s, name, rs, draws, todo);
    CreationsFollow(s, rs, draws, n, todo);
  }

  lemma WriteStatus(s: State, name: string, rs: ReplicaSet, draws: seq<Suffix>, n: nat, todo: seq<string>)
    requires name in s.world.sets && s.world.sets[name] == rs && rs.meta.name == name
    requires n == Controller.Shortfall(rs, Count(s.world.pods, name)) && n <= |draws|
    ensures Step(Step(Halfway(s, rs, draws, n, todo), CheckSet), PutSet) ==
            s.(world := Controller.AfterPass(s.world, name, draws), controller := NextSet(todo))
  {
    CreationsEnd(rs, Count(s.world.pods, name), todo);
  }

  /** A controller that is not interrupted reconciles the set and goes on to the next one, whenever the pass goes. */
  lemma ControllerPassReconciles(s: State, name: string, draws: seq<Suffix>, todo: seq<string>)
    requires s.controller == Passing([name] + todo) && Controller.Goes(s.world, name, draws)
    requires s.world.sets[name].meta.name == name
    ensures var n := Controller.Shortfall(s.world.sets[name], Count(s.world.pods, name));
            var s' := Run(s, ControllerPass(draws, n));
            && Controller.Reconciled(s.world, name, s'.world, draws)
            && s' == s.(world := s'.world, controller := NextSet(todo))
  {
    var rs := s.world.sets[name];
    var n := Controller.Shortfall(rs, Count(s.world.pods, name));
    CreationsCreate(s, name, rs, draws, n, todo);
    TwoMoreActions(s, Creations(draws, n), CheckSet, PutSet);
    WriteStatus(s, name, rs, draws, n, todo);
  }

  // ---- A status report ----

  /** A changed status on its way: cached by the kubelet, loaded by the API server, stored. */
  function Report(node: string, name: string, status: PodStatus): seq<Action> {
    [Observe(node, name, status), LoadPod(node), ReplacePod(node)]
  }

  lemma ObserveStep(s: State, node: string, name: string, status: PodStatus)
    requires node in s.kubelets && s.kubelets[node].request == NoRequest && name in s.kubelets[node].cache
    requires Derived(status) && s.kubelets[node].cache[name].status != status
    ensures var k, p := s.kubelets[node], s.kubelets[node].cache[name].(status := status);
            Step(s, Observe(node, name, status)) ==
            s.(kubelets := s.kubelets[node := k.(cache := k.cache[name := p], request := Sent(p))])
  {
  }

  lemma LoadStep(s: State, node: string, p: Pod)
    requires node in s.kubelets && s.kubelets[node].request == Sent(p) && p.meta.name in s.world.pods
    ensures Step(s, LoadPod(node)) == s.(kubelets := s.kubelets[node := s.kubelets[node].(request := Checked(p))])
  {
  }

  lemma ReplaceStep(s: State, node: string, p: Pod)
    requires node in s.kubelets && s.kubelets[node].request == Checked(p) && ValidPod(p)
    ensures Step(s, ReplacePod(node)) ==
            s.(world := s.world.(pods := s.world.pods[p.meta.name := p]),
               kubelets := s.kubelets[node := s.kubelets[node].(request := NoRequest)])
  {
  }

  lemma CachedPodIsStored(s: State, node: string, name: string)
    requires Inv(s) && node in s.kubelets && name in s.kubelets[node].cache
    ensures var p := s.kubelets[node].cache[name];
            p.meta.name == name && name in s.world.pods && ValidPod(p) && p == s.world.pods[name].(status := p.status)
  {
    var p := s.kubelets[node].cache[name];
    assert KubeletOk(s.world, node, s.kubelets[node]);
    assert CopyOk(s.world, node, p);
    assert p == s.world.pods[name].(status := p.status);
  }

  lemma ThreeActions(s: State, a: Action, b: Action, c: Action, s1: State, s2: State)
    requires Step(s, a) == s1 && Step(s1, b) == s2
    ensures Run(s, [a, b, c]) == Step(s2, c)
  {
    TwoActions(s, a, b, s1, s2);
    OneMoreAction(s, [a, b], c);
    assert [a, b] + [c] == [a, b, c];
  }

  /**
   A report that is not interrupted stores the observed status of the pod, and nothing else
   of it; the kubelet caches the same status, and all other pods and states are as before.
   */
  lemma StatusIsReported(s: State, node: string, name: string, status: PodStatus)
    requires Inv(s) && node in s.kubelets && s.kubelets[node].request == NoRequest && name in s.kubelets[node].cache
    requires Derived(status) && s.kubelets[node].cache[name].status != status
    ensures var k := s.kubelets[node];
            && name in s.world.pods
            && Run(s, Report(node, name, status)) ==
               s.(world := s.world.(pods := s.world.pods[name := s.world.pods[name].(status := status)]),
                  kubelets := s.kubelets[node := k.(cache := k.cache[name := k.cache[name].(status := status)])])
  {
    CachedPodIsStored(s, node, name);
    var p := s.kubelets[node].cache[name].(status := status);
    assert p == s.world.pods[name].(status := status);
    ReportSteps(s, node, name, status, p);
  }

  /** The three steps of a report of pod `p`, whatever it is. */
  lemma ReportSteps(s: State, node: string, name: string, status: PodStatus, p: Pod)
    requires node in s.kubelets && s.kubelets[node].request == NoRequest && name in s.kubelets[node].cache
    requires Derived(status) && s.kubelets[node].cache[name].status != status
    requires p == s.kubelets[node].cache[name].(status := status) && p.meta.name in s.world.pods && ValidPod(p)
    ensures var k := s.kubelets[node];
            Run(s, Report(node, name, status)) ==
            s.(world := s.world.(pods := s.world.pods[p.meta.name := p]), kubelets := s.kubelets[node := k.(cache := k.cache[name := p])])
  {
    var k := s.kubelets[node];
    var k1 := k.(cache := k.cache[name := p], request := Sent(p));
    var s1 := s.(kubelets := s.kubelets[node := k1]);
    var s2 := s.(kubelets := s.kubelets[node := k1.(request := Checked(p))]);
    ObserveStep(s, node, name, status);
    LoadStep(s1, node, p);
    assert s1.kubelets[node := k1.(request := Checked(p))] == s2.kubelets;
    ThreeActions(s, Observe(node, name, status), LoadPod(node), ReplacePod(node), s1, s2);
    ReplaceStep(s2, node, p);
    assert s2.kubelets[node := k1.(request := NoRequest)] == s.kubelets[node := k.(cache := k.cache[name := p])];
  }

  /** A status that did not change is not reported. */
  lemma UnchangedStatusIsNotReported(s: State, node: string, name: string, status: PodStatus)
    requires node in s.kubelets && name in s.kubelets[node].cache && s.kubelets[node].cache[name].status == status
    ensures Step(s, Observe(node, name, status)) == s
  {
    assert s.kubelets[node := s.kubelets[node]] == s.kubelets;
  }

  lemma DropStep(s: State, node: string)
    requires node in s.kubelets
    ensures Step(s, RequestFails(node)) == s.(kubelets := s.kubelets[node := s.kubelets[node].(request := NoRequest)])
  {
  }

  /**
   A report that fails on its way is lost: the store keeps the old status, and since the new one
   is already cached, seeing it again sends nothing.
   */
  lemma FailedReportIsNotRepeated(s: State, node: string, name: string, status: PodStatus)
    requires node in s.kubelets && s.kubelets[node].request == NoRequest && name in s.kubelets[node].cache
    requires Derived(status) && s.kubelets[node].cache[name].status != status
    ensures var k, s' := s.kubelets[node], Run(s, [Observe(node, name, status), RequestFails(node)]);
            && s' == s.(kubelets := s.kubelets[node := k.(cache := k.cache[name := k.cache[name].(status := status)])])
            && Step(s', Observe(node, name, status)) == s'
  {
    var k := s.kubelets[node];
    var p := k.cache[name].(status := status);
    var k1 := k.(cache := k.cache[name := p], request := Sent(p));
    var s1 := s.(kubelets := s.kubelets[node := k1]);
    var s2 := s.(kubelets := s.kubelets[node := k.(cache := k.cache[name := p])]);
    ObserveStep(s, node, name, status);
    DropStep(s1, node);
    assert s1.kubelets[node := k1.(request := NoRequest)] == s2.kubelets;
    TwoActions(s, Observe(node, name, status), RequestFails(node), s1, s2);
    UnchangedStatusIsNotReported(s2, node, name, status);
  }

  // ---- What the environment may do ----

  /** A process may fail at any of its storage calls; the store is as the calls before left it. */
  lemma ProcessesMayFail(s: State)
    ensures Step(s, ControllerFails) == s.(controller := Halted)
    ensures Step(s, SchedulerFails) == s.(scheduler := Waiting)
  {
  }

  /** Nodes and sets may be replaced by any others at any time. */
  lemma OthersMayEdit(s: State, nodes: map<string, Node>, sets: map<string, ReplicaSet>)
    ensures (forall n | n in nodes :: nodes[n].meta.name == n && n != "") ==>
              Step(s, ChangeNodes(nodes)) == s.(world := s.world.(nodes := nodes))
    ensures (forall n | n in sets :: sets[n].meta.name == n) ==>
              Step(s, ChangeSets(sets)) == s.(world := s.world.(sets := sets))
  {
  }

  // ---- A tick of the controller ----

  lemma RunConcat(s: State, a: seq<Action>, b: seq<Action>)
    ensures Run(s, a + b) == Run(Run(s, a), b)
  {
    RunSplits(s, a + b, |a|);
    assert (a + b)[..|a|] == a && (a + b)[|a|..] == b;
  }

  /** The pass over one set in a given store. */
  ghost function PassOver(w: World, name: string, draws: seq<Suffix>): seq<Action> {
    if Controller.Goes(w, name, draws) then ControllerPass(draws, Controller.Shortfall(w.sets[name], Count(w.pods, name))) else []
  }

  /** The listing of the sets and the passes over the first `i` of them, each in the store the ones before it leave. */
  ghost function Tick(w: World, order: seq<string>, draws: Controller.Draws, i: nat): seq<Action>
    requires i <= |order|
  {
    if i == 0 then [ListSets]
    else
      Tick(w, order, draws, i - 1) +
      PassOver(Controller.AfterAll(w, order, draws, i - 1), order[i - 1], Controller.DrawsOf(draws, order[i - 1]))
  }

  predicate SetsNamed(w: World) {
    forall n | n in w.sets :: w.sets[n].meta.name == n
  }

  lemma {:induction false} PassesKeepNames(w: World, order: seq<string>, draws: Controller.Draws, i: nat)
    requires SetsNamed(w) && i <= |order|
    ensures SetsNamed(Controller.AfterAll(w, order, draws, i))
  {
    if i > 0 {
      PassesKeepNames(w, order, draws, i - 1);
    }
  }

  lemma {:induction false} GoesAt(w: World, order: seq<string>, draws: Controller.Draws, n: nat, i: nat)
    requires i < n <= |order| && Controller.AllGo(w, order, draws, n)
    ensures Controller.Goes(Controller.AfterAll(w, order, draws, i), order[i], Controller.DrawsOf(draws, order[i]))
  {
    if i < n - 1 {
      GoesAt(w, order, draws, n - 1, i);
    }
  }

  /** The controller between two passes, in a given store and with a given rest of the listing. */
  function Between(s: State, w: World, rest: seq<string>): State {
    s.(world := w, controller := NextSet(rest))
  }

  lemma ListingStep(s: State, order: seq<string>)
    requires s.controller == Idle && order == Sorted(s.world.sets.Keys)
    ensures Run(s, [ListSets]) == Between(s, s.world, order)
  {
    OneMoreAction(s, [], ListSets);
    assert [] + [ListSets] == [ListSets];
  }

  /** One pass of a tick, as `ControllerPassReconciles` has it. */
  lemma PassInTick(s: State, w: World, name: string, draws: seq<Suffix>, rest: seq<string>)
    requires Controller.Goes(w, name, draws) && SetsNamed(w)
    ensures Run(Between(s, w, [name] + rest), PassOver(w, name, draws)) ==
            Between(s, Controller.AfterPass(w, name, draws), rest)
  {
    ControllerPassReconciles(Between(s, w, [name] + rest), name, draws, rest);
  }

  lemma AfterOneMore(w: World, order: seq<string>, draws: Controller.Draws, i: nat, before: World)
    requires i < |order| && before == Controller.AfterAll(w, order, draws, i)
    requires Controller.Goes(before, order[i], Controller.DrawsOf(draws, order[i]))
    ensures Controller.AfterAll(w, order, draws, i + 1) == Controller.AfterPass(before, order[i], Controller.DrawsOf(draws, order[i]))
  {
  }

  /** Pass number `i` of a tick, after any actions that led to it. */
  lemma NextPass(s: State, order: seq<string>, draws: Controller.Draws, i: nat, w: World, actions: seq<Action>)
    requires i < |order| && w == Controller.AfterAll(s.world, order, draws, i) && SetsNamed(w)
    requires Controller.Goes(w, order[i], Controller.DrawsOf(draws, order[i])) && Run(s, actions) == Between(s, w, order[i..])
    ensures Run(s, actions + PassOver(w, order[i], Controller.DrawsOf(draws, order[i]))) ==
            Between(s, Controller.AfterAll(s.world, order, draws, i + 1), order[i + 1..])
  {
    var name, stretch := order[i], Controller.DrawsOf(draws, order[i]);
    assert order[i..] == [name] + order[i + 1..];
    RunConcat(s, actions, PassOver(w, name, stretch));
    PassInTick(s, w, name, stretch, order[i + 1..]);
    AfterOneMore(s.world, order, draws, i, w);
  }

  lemma TickSteps(s: State, order: seq<string>, draws: Controller.Draws, i: nat)
    requires i < |order| && SetsNamed(s.world) && Controller.AllGo(s.world, order, draws, |order|)
    requires Run(s, Tick(s.world, order, draws, i)) == Between(s, Controller.AfterAll(s.world, order, draws, i), order[i..])
    ensures Run(s, Tick(s.world, order, draws, i + 1)) == Between(s, Controller.AfterAll(s.world, order, draws, i + 1), order[i + 1..])
  {
    var w := Controller.AfterAll(s.world, order, draws, i);
    GoesAt(s.world, order, draws, |order|, i);
    PassesKeepNames(s.world, order, draws, i);
    NextPass(s, order, draws, i, w, Tick(s.world, order, draws, i));
  }

  /** The actions and the states of a tick, pass by pass. */
  ghost predicate TickOf(s: State, order: seq<string>, draws: Controller.Draws, actions: seq<seq<Action>>, states: seq<State>, i: nat)
    requires i <= |order| && |actions| == |states| == |order| + 1
  {
    && actions[i] == Tick(s.world, order, draws, i)
    && states[i] == Between(s, Controller.AfterAll(s.world, order, draws, i), order[i..])
  }

  lemma TickIsChained(s: State, order: seq<string>, draws: Controller.Draws, actions: seq<seq<Action>>, states: seq<State>, i: nat)
    requires |actions| == |states| == |order| + 1 && i < |order|
    requires SetsNamed(s.world) && Controller.AllGo(s.world, order, draws, |order|)
    requires TickOf(s, order, draws, actions, states, i) && TickOf(s, order, draws, actions, states, i + 1)
    ensures Run(s, actions[i]) == states[i] ==> Run(s, actions[i + 1]) == states[i + 1]
  {
    if Run(s, actions[i]) == states[i] {
      TickSteps(s, order, draws, i);
    }
  }

  lemma TickTrace(s: State, order: seq<string>, draws: Controller.Draws) returns (actions: seq<seq<Action>>, states: seq<State>)
    ensures |actions| == |states| == |order| + 1
    ensures forall i: nat | i <= |order| :: TickOf(s, order, draws, actions, states, i)
  {
    actions := seq(|order| + 1, i requires 0 <= i <= |order| => Tick(s.world, order, draws, i));
    states := seq(|order| + 1, i requires 0 <= i <= |order| => Between(s, Controller.AfterAll(s.world, order, draws, i), order[i..]));
  }

  /**
   From idle, an uninterrupted tick lists the sets and passes over every stored one in the order
   of names; it does to the store what `Run` does, whenever all passes go, and is idle again.
   */
  lemma TickReconcilesAll(s: State, order: seq<string>, draws: Controller.Draws)
    requires s.controller == Idle && SetsNamed(s.world) && order == Sorted(s.world.sets.Keys)
    requires Controller.AllGo(s.world, order, draws, |order|)
    ensures Run(s, Tick(s.world, order, draws, |order|)) ==
            s.(world := Controller.AfterAll(s.world, order, draws, |order|))
    ensures forall n | n in s.world.sets :: n in order
  {
    var actions, states := TickTrace(s, order, draws);
    ListingStep(s, order);
    assert TickOf(s, order, draws, actions, states, 0) && TickOf(s, order, draws, actions, states, |order|);
    assert order[0..] == order && order[|order|..] == [];
    forall i: nat | i < |order| && Run(s, actions[i]) == states[i] ensures Run(s, actions[i + 1]) == states[i + 1] {
      assert TickOf(s, order, draws, actions, states, i) && TickOf(s, order, draws, actions, states, i + 1);
      TickIsChained(s, order, draws, actions, states, i);
    }
    Chained(s, actions, states, |order|);
  }

  /** What makes a step of the controller give up, and only that: a set that is gone, a name that is taken, an incomplete container. */
  lemma ControllerGivesUpWhen(s: State, a: Action)
    requires IsController(a) && !a.ControllerFails? && s.controller != Halted
    requires s.controller.Passing? ==> s.controller.todo != []
    requires s.controller.Creating? ==> s.controller.j < |s.controller.rs.template.Containers()|
    ensures Step(s, a).controller == Halted <==>
            || (a.GetSet? && s.controller.Passing? && s.controller.todo[0] !in s.world.sets)
            || (a.CheckSet? && s.controller.CheckingSet? && s.controller.rs.meta.name !in s.world.sets)
            || (&& a.CheckName? && s.controller.Creating?
                && (|| GeneratedName(s.controller.rs.meta.name, a.suffix) in s.world.pods
                    || !ValidContainer(s.controller.rs.template.Containers()[s.controller.j])))
    ensures Step(s, a).controller == Halted ==> Step(s, a).world == s.world
  {
    if a.CheckName? && s.controller.Creating? {
      Controller.MadePodIsValid(s.controller.rs.meta.name, s.controller.rs.template.Containers()[s.controller.j], a.suffix);
    }
  }
}
