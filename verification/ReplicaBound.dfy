/**
 No over-provisioning: while the specs of the replica sets stay fixed and failed
 pods stay failed, a set that wants `d` replicas of `k` containers never has more than
 `d * k` active pods, or than it started with, not even in the middle of a pass of the
 controller. For a one-container template that is the desired count.
 */
module ReplicaBound {
  import opened Wrappers
  import opened Api
  import opened Names
  import opened Layout
  import opened Replicas
  import opened Scheduler
  import opened Placement
  import opened PlacementSafety
  import C = Controller

  // ---- Counting after one store ----

  /** Replacing a pod by one that is active and owned only if the old one was does not raise the count. */
  lemma ReplacingKeepsCount(pods: map<string, Pod>, n: string, p: Pod, owner: string)
    requires n in pods && (IsPodActiveAndOwnedBy(p, owner) ==> IsPodActiveAndOwnedBy(pods[n], owner))
    ensures Count(pods[n := p], owner) <= Count(pods, owner)
  {
    SubsetIsSmaller(ActiveOwned(pods[n := p], owner), ActiveOwned(pods, owner));
  }

  lemma AddingRaisesCountByOne(pods: map<string, Pod>, n: string, p: Pod, owner: string)
    ensures Count(pods[n := p], owner) <= Count(pods, owner) + 1
    ensures !IsPodActiveAndOwnedBy(p, owner) ==> Count(pods[n := p], owner) <= Count(pods, owner)
  {
    SubsetIsSmaller(ActiveOwned(pods[n := p], owner), ActiveOwned(pods, owner) + {n});
    if !IsPodActiveAndOwnedBy(p, owner) {
      SubsetIsSmaller(ActiveOwned(pods[n := p], owner), ActiveOwned(pods, owner));
    }
  }

  lemma {:induction false} SubsetIsSmaller(a: set<string>, b: set<string>)
    requires a <= b
    ensures |a| <= |b|
  {
    if a != {} {
      var x :| x in a;
      SubsetIsSmaller(a - {x}, b - {x});
    }
  }

  // ---- The invariant ----

  function HeldSet(c: ControllerState): Option<ReplicaSet> {
    match c
    case Counting(rs, _) => Some(rs)
    case Creating(rs, _, _, _) => Some(rs)
    case Putting(rs, _, _, _, _) => Some(rs)
    case CheckingSet(rs, _) => Some(rs)
    case WritingSet(rs, _) => Some(rs)
    case _ => None
  }

  /** The set in hand has the stored spec; a pod in hand was made for it. */
  ghost predicate HandOk(sets: map<string, ReplicaSet>, c: ControllerState) {
    && (HeldSet(c).Some? ==>
          var rs := HeldSet(c).value;
          rs.meta.name in sets && C.Spec(rs) == C.Spec(sets[rs.meta.name]))
    && (c.Creating? || c.Putting? ==> c.i < c.rs.replicas && c.j < |c.rs.template.Containers()|)
    && (c.Putting? ==> exists container :: MadeFor(c.pod, c.rs.meta.name, container))
  }

  /** How many more pods the pass in progress may create for a set that wants `d` replicas of `k` containers. */
  function Planned(c: ControllerState, owner: string, d: int, k: nat): int {
    if (c.Creating? || c.Putting?) && c.rs.meta.name == owner && c.i < d then C.Times(d - c.i, k) - c.j else 0
  }

  /** What it plans for a stored set. */
  function PlannedFor(c: ControllerState, sets: map<string, ReplicaSet>, owner: string): int
    requires owner in sets
  {
    Planned(c, owner, sets[owner].replicas, |sets[owner].template.Containers()|)
  }

  /** What is stored as failed is failed in the copies. */
  predicate FailuresKnown(w: World, kubelets: map<string, KubeletState>) {
    forall n, m | n in kubelets && m in kubelets[n].cache ::
      m in w.pods && w.pods[m].status == Failed ==> kubelets[n].cache[m].status == Failed
  }

  ghost predicate Bounded(s: State, sets: map<string, ReplicaSet>, owner: string, bound: int) {
    && owner in sets
    && C.SameSpecs(sets, s.world.sets)
    && HandOk(s.world.sets, s.controller)
    && FailuresKnown(s.world, s.kubelets)
    && 0 <= PlannedFor(s.controller, sets, owner)
    && Count(s.world.pods, owner) + PlannedFor(s.controller, sets, owner) <= bound
  }

  /** The sets are isolated, and `bound` leaves room for all pods that `owner` wants. */
  predicate Suitable(sets: map<string, ReplicaSet>, owner: string, bound: int) {
    && C.Isolated(sets.Keys)
    && (forall n | n in sets :: sets[n].meta.name == n)
    && owner in sets
    && C.Needs(sets[owner]) <= bound
  }

  /** No replica set is edited, and no kubelet sees a failed pod recover. */
  predicate Calm(s: State, a: Action) {
    && !a.ChangeSets?
    && (a.Observe? && a.node in s.kubelets ==>
          var cache := s.kubelets[a.node].cache;
          a.name in cache && cache[a.name].status == Failed ==> a.status == Failed)
  }

  lemma SpecFixesTheRest(rs1: ReplicaSet, rs2: ReplicaSet)
    requires C.Spec(rs1) == C.Spec(rs2)
    ensures rs1.meta == rs2.meta && rs1.replicas == rs2.replicas && rs1.template == rs2.template
  {
    assert C.Spec(rs1).meta == rs1.meta && C.Spec(rs1).replicas == rs1.replicas && C.Spec(rs1).template == rs1.template;
    assert C.Spec(rs2).meta == rs2.meta && C.Spec(rs2).replicas == rs2.replicas && C.Spec(rs2).template == rs2.template;
  }

  /** Copies are of bound pods, so changes of other pods do not concern them. */
  lemma FailuresSurvive(s: State, w': World)
    requires Inv(s) && FailuresKnown(s.world, s.kubelets)
    requires forall m | m in s.world.pods && s.world.pods[m].nodeName != "" :: Lookup(w'.pods, m) == Some(s.world.pods[m])
    ensures FailuresKnown(w', s.kubelets)
  {
    forall n, m | n in s.kubelets && m in s.kubelets[n].cache
      ensures m in w'.pods && w'.pods[m].status == Failed ==> s.kubelets[n].cache[m].status == Failed
    {
      assert KubeletOk(s.world, n, s.kubelets[n]);
      assert CopyOk(s.world, n, s.kubelets[n].cache[m]);
      assert Lookup(w'.pods, m) == Some(s.world.pods[m]);
    }
  }

  // ---- The controller ----

  lemma HandMatches(s: State, sets: map<string, ReplicaSet>, owner: string, bound: int)
    requires Bounded(s, sets, owner, bound) && HeldSet(s.controller).Some?
    ensures var rs := HeldSet(s.controller).value;
            && rs.meta.name in sets
            && rs.replicas == sets[rs.meta.name].replicas
            && rs.template == sets[rs.meta.name].template
  {
    var rs := HeldSet(s.controller).value;
    assert rs.meta.name in s.world.sets.Keys;
    SpecFixesTheRest(rs, s.world.sets[rs.meta.name]);
    SpecFixesTheRest(s.world.sets[rs.meta.name], sets[rs.meta.name]);
  }

  /** A pod made for another isolated set is not counted. */
  lemma OthersPodIsNotCounted(pods: map<string, Pod>, p: Pod, names: set<string>, name: string, owner: string)
    requires C.Isolated(names) && name in names && owner in names && name != owner
    requires exists container :: MadeFor(p, name, container)
    ensures Count(pods[p.meta.name := p], owner) <= Count(pods, owner)
  {
    var container :| MadeFor(p, name, container);
    OwnersOfMadePod(p, name, container, owner);
    AddingRaisesCountByOne(pods, p.meta.name, p, owner);
  }

  /** The sum of counted and planned pods did not grow, and the rest of the bound still holds. */
  lemma NoMoreThanBefore(s: State, s': State, sets: map<string, ReplicaSet>, owner: string, bound: int)
    requires Bounded(s, sets, owner, bound) && C.SameSpecs(sets, s'.world.sets)
    requires HandOk(s'.world.sets, s'.controller) && FailuresKnown(s'.world, s'.kubelets)
    requires 0 <= PlannedFor(s'.controller, sets, owner)
    requires Count(s'.world.pods, owner) + PlannedFor(s'.controller, sets, owner) <=
             Count(s.world.pods, owner) + PlannedFor(s.controller, sets, owner)
    ensures Bounded(s', sets, owner, bound)
  {
  }

  /** After a creation the pass plans one pod less for its own set. */
  lemma CreationPlans(sets: map<string, ReplicaSet>, c: ControllerState, c': ControllerState, owner: string, d: int, k: nat)
    requires c.Putting? && HandOk(sets, c) && c' == NextPod(c.rs, c.i, c.j + 1, c.todo)
    requires c.rs.meta.name == owner ==> c.rs.replicas == d && |c.rs.template.Containers()| == k
    ensures HandOk(sets, c') && 0 <= Planned(c', owner, d, k)
    ensures Planned(c', owner, d, k) <= Planned(c, owner, d, k) - if c.rs.meta.name == owner then 1 else 0
  {
    assert C.Spec(c.rs.(statusReplicas := c.rs.replicas)) == C.Spec(c.rs);
    assert c.rs.meta.name == owner ==> C.Times(d - c.i, k) == C.Times(d - c.i - 1, k) + k;
  }

  /** And its own set may count one more. */
  lemma CreationCounts(pods: map<string, Pod>, p: Pod, names: set<string>, name: string, owner: string)
    requires C.Isolated(names) && name in names && owner in names && exists container :: MadeFor(p, name, container)
    ensures Count(pods[p.meta.name := p], owner) <= Count(pods, owner) + if name == owner then 1 else 0
  {
    if name == owner {
      AddingRaisesCountByOne(pods, p.meta.name, p, owner);
    } else {
      OthersPodIsNotCounted(pods, p, names, name, owner);
    }
  }

  lemma PutPodStep(s: State)
    requires s.controller.Putting?
    ensures var c, p := s.controller, s.controller.pod;
            Step(s, PutPod) == s.(world := s.world.(pods := s.world.pods[p.meta.name := p]), controller := NextPod(c.rs, c.i, c.j + 1, c.todo))
  {
  }

  lemma FreePodKeepsFailures(s: State, p: Pod)
    requires Inv(s) && FailuresKnown(s.world, s.kubelets) && p.meta.name !in s.world.pods
    ensures FailuresKnown(s.world.(pods := s.world.pods[p.meta.name := p]), s.kubelets)
  {
    FailuresSurvive(s, s.world.(pods := s.world.pods[p.meta.name := p]));
  }

  /** Creating a pod moves one from planned to counted for its own set and touches no other count. */
  lemma PutPodKeepsBound(s: State, sets: map<string, ReplicaSet>, owner: string, bound: int)
    requires Inv(s) && Bounded(s, sets, owner, bound) && Suitable(sets, owner, bound) && s.controller.Putting?
    ensures Bounded(Step(s, PutPod), sets, owner, bound)
  {
    var c, p := s.controller, s.controller.pod;
    PutPodStep(s);
    FreePodKeepsFailures(s, p);
    HandMatches(s, sets, owner, bound);
    CreationPlans(s.world.sets, c, NextPod(c.rs, c.i, c.j + 1, c.todo), owner,
                  sets[owner].replicas, |sets[owner].template.Containers()|);
    CreationCounts(s.world.pods, p, sets.Keys, c.rs.meta.name, owner);
    NoMoreThanBefore(s, Step(s, PutPod), sets, owner, bound);
  }

  lemma PutSetKeepsBound(s: State, sets: map<string, ReplicaSet>, owner: string, bound: int)
    requires Inv(s) && Bounded(s, sets, owner, bound) && s.controller.WritingSet?
    ensures Bounded(Step(s, PutSet), sets, owner, bound)
  {
    var rs := s.controller.rs;
    var w' := s.world.(sets := s.world.sets[rs.meta.name := rs]);
    assert Step(s, PutSet) == s.(world := w', controller := NextSet(s.controller.todo));
    assert C.SameSpecs(sets, w'.sets);
    NoMoreThanBefore(s, Step(s, PutSet), sets, owner, bound);
  }

  /** A controller step that writes nothing. */
  lemma PlanKeepsBound(s: State, a: Action, c: ControllerState, sets: map<string, ReplicaSet>, owner: string, bound: int)
    requires Bounded(s, sets, owner, bound) && IsController(a) && ControllerStep(s.world, s.controller, a) == (s.world, c)
    requires HandOk(s.world.sets, c) && 0 <= PlannedFor(c, sets, owner)
    requires Count(s.world.pods, owner) + PlannedFor(c, sets, owner) <= bound
    ensures Bounded(Step(s, a), sets, owner, bound)
  {
    assert Step(s, a) == s.(controller := c);
  }

  lemma CheckNamePlans(w: World, c: ControllerState, suffix: Suffix, c': ControllerState, owner: string, d: int, k: nat)
    requires c.Creating? && HandOk(w.sets, c) && 0 <= Planned(c, owner, d, k)
    requires c' == ControllerStep(w, c, CheckName(suffix)).1
    ensures ControllerStep(w, c, CheckName(suffix)) == (w, c') && HandOk(w.sets, c')
    ensures 0 <= Planned(c', owner, d, k) <= Planned(c, owner, d, k)
  {
    if c.j < |c.rs.template.Containers()| {
      var container := c.rs.template.Containers()[c.j];
      assert MadeFor(NewPod(c.rs.meta.name, container, suffix), c.rs.meta.name, container);
    }
  }

  lemma CheckNameKeepsBound(s: State, suffix: Suffix, sets: map<string, ReplicaSet>, owner: string, bound: int)
    requires Inv(s) && Bounded(s, sets, owner, bound) && s.controller.Creating?
    ensures Bounded(Step(s, CheckName(suffix)), sets, owner, bound)
  {
    var c := ControllerStep(s.world, s.controller, CheckName(suffix)).1;
    CheckNamePlans(s.world, s.controller, suffix, c, owner, sets[owner].replicas, |sets[owner].template.Containers()|);
    PlanKeepsBound(s, CheckName(suffix), c, sets, owner, bound);
  }

  /** However many of `d` replicas are there, filling up to `d` with `k` pods each exceeds `d * k` by none. */
  lemma {:induction false} FillingStaysWithin(c: nat, d: nat, k: nat)
    requires c <= d && 1 <= k
    ensures c + C.Times(d - c, k) <= C.Times(d, k)
  {
    if c > 0 {
      FillingStaysWithin(c - 1, d, k);
    }
  }

  lemma CountingPlans(w: World, c: ControllerState, c': ControllerState, owner: string, d: int, k: nat, bound: int)
    requires c.Counting? && HandOk(w.sets, c) && Count(w.pods, owner) <= bound && C.Times(Max(0, d), k) <= bound
    requires c.rs.meta.name == owner ==> c.rs.replicas == d && |c.rs.template.Containers()| == k
    requires c' == ControllerStep(w, c, ListPodsOfSet).1
    ensures ControllerStep(w, c, ListPodsOfSet) == (w, c') && HandOk(w.sets, c')
    ensures 0 <= Planned(c', owner, d, k) && Count(w.pods, owner) + Planned(c', owner, d, k) <= bound
  {
    assert C.Spec(c.rs.(statusReplicas := c.rs.replicas)) == C.Spec(c.rs);
    if Count(w.pods, owner) < d && k >= 1 {
      FillingStaysWithin(Count(w.pods, owner), d, k);
    }
  }

  lemma CountingKeepsBound(s: State, sets: map<string, ReplicaSet>, owner: string, bound: int)
    requires Inv(s) && Bounded(s, sets, owner, bound) && Suitable(sets, owner, bound) && s.controller.Counting?
    ensures Bounded(Step(s, ListPodsOfSet), sets, owner, bound)
  {
    var c := ControllerStep(s.world, s.controller, ListPodsOfSet).1;
    HandMatches(s, sets, owner, bound);
    C.TimesIsProduct(Max(0, sets[owner].replicas), |sets[owner].template.Containers()|);
    CountingPlans(s.world, s.controller, c, owner, sets[owner].replicas, |sets[owner].template.Containers()|, bound);
    PlanKeepsBound(s, ListPodsOfSet, c, sets, owner, bound);
  }

  /** The remaining controller steps neither write nor plan. */
  lemma QuietControllerKeepsBound(s: State, a: Action, sets: map<string, ReplicaSet>, owner: string, bound: int)
    requires Inv(s) && Bounded(s, sets, owner, bound)
    requires a.ListSets? || a.GetSet? || a.CheckSet? || a.ControllerFails?
    ensures Bounded(Step(s, a), sets, owner, bound)
  {
    var c := ControllerStep(s.world, s.controller, a).1;
    QuietHand(s.world, s.controller, a, owner, sets[owner].replicas, |sets[owner].template.Containers()|);
    PlanKeepsBound(s, a, c, sets, owner, bound);
  }

  lemma QuietHand(w: World, c: ControllerState, a: Action, owner: string, d: int, k: nat)
    requires WorldOk(w) && HandOk(w.sets, c) && 0 <= Planned(c, owner, d, k)
    requires a.ListSets? || a.GetSet? || a.CheckSet? || a.ControllerFails?
    ensures ControllerStep(w, c, a).0 == w
    ensures HandOk(w.sets, ControllerStep(w, c, a).1)
    ensures Planned(ControllerStep(w, c, a).1, owner, d, k) <= Planned(c, owner, d, k)
  {
  }

  lemma ControllerKeepsBound(s: State, a: Action, sets: map<string, ReplicaSet>, owner: string, bound: int)
    requires Inv(s) && Bounded(s, sets, owner, bound) && Suitable(sets, owner, bound) && IsController(a)
    ensures Bounded(Step(s, a), sets, owner, bound)
  {
    match a
    case PutPod => if s.controller.Putting? { PutPodKeepsBound(s, sets, owner, bound); }
    case PutSet => if s.controller.WritingSet? { PutSetKeepsBound(s, sets, owner, bound); }
    case CheckName(suffix) => if s.controller.Creating? { CheckNameKeepsBound(s, suffix, sets, owner, bound); }
    case ListPodsOfSet => if s.controller.Counting? { CountingKeepsBound(s, sets, owner, bound); }
    case _ => QuietControllerKeepsBound(s, a, sets, owner, bound);
  }

  // ---- The scheduler and the kubelets ----

  /** Binding replaces a pending pod by a scheduled one of the same name: both are active. */
  lemma AssignPodKeepsBound(s: State, pick: nat, sets: map<string, ReplicaSet>, owner: string, bound: int)
    requires Inv(s) && Bounded(s, sets, owner, bound)
    requires s.scheduler.Assigning? && s.scheduler.pods != [] && s.scheduler.nodes != []
    ensures Bounded(Step(s, AssignPod(pick)), sets, owner, bound)
  {
    var s' := Step(s, AssignPod(pick));
    var p, node := s.scheduler.pods[0], s.scheduler.nodes[pick % |s.scheduler.nodes|];
    assert Lookup(s.world.pods, p.meta.name) == Some(p);
    ReplacingKeepsCount(s.world.pods, p.meta.name, Assigned(p, node), owner);
    FailuresSurvive(s, s'.world);
  }

  lemma SchedulerKeepsBound(s: State, a: Action, sets: map<string, ReplicaSet>, owner: string, bound: int)
    requires Inv(s) && Bounded(s, sets, owner, bound) && IsScheduler(a)
    ensures Bounded(Step(s, a), sets, owner, bound)
  {
    if a.AssignPod? && s.scheduler.Assigning? && s.scheduler.pods != [] && s.scheduler.nodes != [] {
      AssignPodKeepsBound(s, a.pick, sets, owner, bound);
    }
  }

  /** Every copy of a pod agrees with the one the update carries on being failed. */
  lemma UpdateKeepsFailuresKnown(s: State, node: string, w': World)
    requires Inv(s) && FailuresKnown(s.world, s.kubelets) && node in s.kubelets && s.kubelets[node].request != NoRequest
    requires var p := s.kubelets[node].request.pod;
             p.meta.name in s.world.pods && w' == s.world.(pods := WithNewStatus(s.world.pods, p.meta.name, p.status))
    ensures FailuresKnown(w', s.kubelets)
  {
    var k := s.kubelets[node];
    var p := k.request.pod;
    assert KubeletOk(s.world, node, k) && CopyOk(s.world, node, k.cache[p.meta.name]);
    forall n, m | n in s.kubelets && m in s.kubelets[n].cache
      ensures m in w'.pods && w'.pods[m].status == Failed ==> s.kubelets[n].cache[m].status == Failed
    {
      assert KubeletOk(s.world, n, s.kubelets[n]);
      assert CopyOk(s.world, n, s.kubelets[n].cache[m]);
    }
  }

  /** It never revives a failed pod, so no count grows. */
  lemma UpdateKeepsCount(s: State, node: string, owner: string)
    requires Inv(s) && FailuresKnown(s.world, s.kubelets) && node in s.kubelets && s.kubelets[node].request != NoRequest
    requires s.kubelets[node].request.pod.meta.name in s.world.pods
    ensures var p := s.kubelets[node].request.pod;
            Count(WithNewStatus(s.world.pods, p.meta.name, p.status), owner) <= Count(s.world.pods, owner)
  {
    var k := s.kubelets[node];
    var p := k.request.pod;
    assert KubeletOk(s.world, node, k) && k.cache[p.meta.name] == p;
    ReplacingKeepsCount(s.world.pods, p.meta.name, s.world.pods[p.meta.name].(status := p.status), owner);
  }

  lemma UpdateKeepsBound(s: State, s': State, sets: map<string, ReplicaSet>, owner: string, bound: int)
    requires Bounded(s, sets, owner, bound) && s'.world.sets == s.world.sets && s'.controller == s.controller
    requires FailuresKnown(s'.world, s'.kubelets) && Count(s'.world.pods, owner) <= Count(s.world.pods, owner)
    ensures Bounded(s', sets, owner, bound)
  {
  }

  lemma ReplacePodKeepsBound(s: State, node: string, sets: map<string, ReplicaSet>, owner: string, bound: int)
    requires Inv(s) && Bounded(s, sets, owner, bound) && node in s.kubelets && s.kubelets[node].request.Checked?
    ensures Bounded(Step(s, ReplacePod(node)), sets, owner, bound)
  {
    var s' := Step(s, ReplacePod(node));
    ReplaceChangesOnlyStatus(s, node);
    UpdateKeepsCount(s, node, owner);
    UpdateKeepsFailuresKnown(s, node, s'.world);
    SameCachesKnow(s'.world, s.kubelets, node, s'.kubelets);
    UpdateKeepsBound(s, s', sets, owner, bound);
  }

  lemma SameCachesKnow(w: World, kubelets: map<string, KubeletState>, n: string, kubelets': map<string, KubeletState>)
    requires FailuresKnown(w, kubelets) && n in kubelets && n in kubelets' && kubelets' == kubelets[n := kubelets'[n]]
    requires kubelets'[n].cache == kubelets[n].cache
    ensures FailuresKnown(w, kubelets')
  {
  }

  /** A kubelet step that writes nothing, forgets nothing and keeps failed copies failed. */
  lemma OwnChangeKeepsBound(s: State, n: string, s': State, sets: map<string, ReplicaSet>, owner: string, bound: int)
    requires Inv(s) && Bounded(s, sets, owner, bound) && n in s.kubelets && n in s'.kubelets
    requires s' == s.(kubelets := s.kubelets[n := s'.kubelets[n]], starts := s'.starts)
    requires forall m | m in s'.kubelets[n].cache && m in s.world.pods && s.world.pods[m].status == Failed ::
               s'.kubelets[n].cache[m].status == Failed
    ensures Bounded(s', sets, owner, bound)
  {
  }

  lemma RunPodKeepsBound(s: State, n: string, sets: map<string, ReplicaSet>, owner: string, bound: int)
    requires Inv(s) && Bounded(s, sets, owner, bound) && n in s.kubelets
    ensures Bounded(Step(s, RunPod(n)), sets, owner, bound)
  {
    var k := s.kubelets[n];
    assert KubeletOk(s.world, n, k);
    if k.listed != [] {
      assert CopyOk(s.world, n, k.listed[0]);
    }
    OwnChangeKeepsBound(s, n, Step(s, RunPod(n)), sets, owner, bound);
  }

  lemma ObserveKeepsBound(s: State, a: Action, sets: map<string, ReplicaSet>, owner: string, bound: int)
    requires Inv(s) && Bounded(s, sets, owner, bound) && a.Observe? && a.node in s.kubelets && Calm(s, a)
    ensures Bounded(Step(s, a), sets, owner, bound)
  {
    OwnChangeKeepsBound(s, a.node, Step(s, a), sets, owner, bound);
  }

  predicate IsQuiet(k: KubeletState, a: Action) {
    a.ListAssigned? || a.LoadPod? || a.RequestFails? || (a.ReplacePod? && !k.request.Checked?)
  }

  lemma QuietKubelet(w: World, k: KubeletState, a: Action)
    requires IsQuiet(k, a)
    ensures var (w', k', started) := KubeletStep(w, k, a); w' == w && k'.cache == k.cache && started.None?
  {
  }

  lemma QuietKubeletKeepsBound(s: State, a: Action, sets: map<string, ReplicaSet>, owner: string, bound: int)
    requires Inv(s) && Bounded(s, sets, owner, bound) && NodeOf(a).Some? && NodeOf(a).value in s.kubelets
    requires IsQuiet(s.kubelets[NodeOf(a).value], a)
    ensures Bounded(Step(s, a), sets, owner, bound)
  {
    var n, s' := NodeOf(a).value, Step(s, a);
    QuietKubelet(s.world, s.kubelets[n], a);
    SameCachesKnow(s.world, s.kubelets, n, s'.kubelets);
  }

  lemma KubeletKeepsBound(s: State, a: Action, sets: map<string, ReplicaSet>, owner: string, bound: int)
    requires Inv(s) && Bounded(s, sets, owner, bound) && NodeOf(a).Some? && Calm(s, a)
    ensures Bounded(Step(s, a), sets, owner, bound)
  {
    if NodeOf(a).value in s.kubelets {
      match a
      case RunPod(n) => RunPodKeepsBound(s, n, sets, owner, bound);
      case Observe(_, _, _) => ObserveKeepsBound(s, a, sets, owner, bound);
      case ReplacePod(n) =>
        if s.kubelets[n].request.Checked? {
          ReplacePodKeepsBound(s, n, sets, owner, bound);
        } else {
          QuietKubeletKeepsBound(s, a, sets, owner, bound);
        }
      case _ => QuietKubeletKeepsBound(s, a, sets, owner, bound);
    }
  }

  // ---- Every run ----

  lemma StepKeepsBound(s: State, a: Action, sets: map<string, ReplicaSet>, owner: string, bound: int)
    requires Inv(s) && Bounded(s, sets, owner, bound) && Suitable(sets, owner, bound) && Calm(s, a)
    ensures Bounded(Step(s, a), sets, owner, bound)
  {
    if IsController(a) {
      ControllerKeepsBound(s, a, sets, owner, bound);
    } else if IsScheduler(a) {
      SchedulerKeepsBound(s, a, sets, owner, bound);
    } else if NodeOf(a).Some? {
      KubeletKeepsBound(s, a, sets, owner, bound);
    } else {
      ChangeNodesKeepsBound(s, a, sets, owner, bound);
    }
  }

  lemma ChangeNodesKeepsBound(s: State, a: Action, sets: map<string, ReplicaSet>, owner: string, bound: int)
    requires Inv(s) && Bounded(s, sets, owner, bound) && a.ChangeNodes?
    ensures Bounded(Step(s, a), sets, owner, bound)
  {
    ChangeNodesStep(s, a);
    NoMoreThanBefore(s, Step(s, a), sets, owner, bound);
  }

  lemma ChangeNodesStep(s: State, a: Action)
    requires a.ChangeNodes?
    ensures Step(s, a) == s.(world := s.world.(nodes := Step(s, a).world.nodes))
  {
  }

  ghost predicate CalmRun(s: State, actions: seq<Action>) {
    forall i | 0 <= i < |actions| :: Calm(Run(s, actions[..i]), actions[i])
  }

  lemma CalmSoFar(s: State, actions: seq<Action>)
    requires CalmRun(s, actions) && actions != []
    ensures CalmRun(s, actions[..|actions| - 1])
    ensures Calm(Run(s, actions[..|actions| - 1]), actions[|actions| - 1])
  {
    var before := actions[..|actions| - 1];
    forall i | 0 <= i < |before| ensures Calm(Run(s, before[..i]), before[i]) {
      assert before[..i] == actions[..i];
    }
  }

  lemma {:induction false} RunKeepsBound(s: State, actions: seq<Action>, sets: map<string, ReplicaSet>, owner: string, bound: int)
    requires Inv(s) && Bounded(s, sets, owner, bound) && Suitable(sets, owner, bound) && CalmRun(s, actions)
    ensures Bounded(Run(s, actions), sets, owner, bound)
  {
    if actions != [] {
      var n := |actions| - 1;
      var before := actions[..n];
      CalmSoFar(s, actions);
      RunKeepsBound(s, before, sets, owner, bound);
      RunKeepsInv(s, before);
      StepKeepsBound(Run(s, before), actions[n], sets, owner, bound);
    }
  }

  /**
   In every interleaving and every reachable state, also midway through a pass, the active
   pods of a set and what the pass still plans for it are no more than `d * k`, or than the
   set started with.
   */
  lemma NoOverProvisioning(s: State, actions: seq<Action>, owner: string)
    requires Init(s) && C.Isolated(s.world.sets.Keys) && owner in s.world.sets && CalmRun(s, actions)
    ensures var r, rs := Run(s, actions), s.world.sets[owner];
            && 0 <= PlannedFor(r.controller, s.world.sets, owner)
            && Count(r.world.pods, owner) + PlannedFor(r.controller, s.world.sets, owner) <=
               Max(Count(s.world.pods, owner), Max(0, rs.replicas) * |rs.template.Containers()|)
  {
    InitEstablishesInv(s);
    RunKeepsBound(s, actions, s.world.sets, owner, Max(Count(s.world.pods, owner), C.Needs(s.world.sets[owner])));
  }

  /** With a one-container template a set that starts with at most the desired number never has more. */
  lemma DesiredCountIsNotExceeded(s: State, actions: seq<Action>, owner: string)
    requires Init(s) && C.Isolated(s.world.sets.Keys) && owner in s.world.sets && CalmRun(s, actions)
    requires |s.world.sets[owner].template.Containers()| == 1 && Count(s.world.pods, owner) <= s.world.sets[owner].replicas
    ensures Count(Run(s, actions).world.pods, owner) <= s.world.sets[owner].replicas
  {
    NoOverProvisioning(s, actions, owner);
  }
}
