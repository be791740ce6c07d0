/** The replica set controller (pkg/controller/replica_set_controller.go). */
module Controller {
  import opened Wrappers
  import opened Api
  import opened Names
  import opened KeyOrder
  import opened Layout
  import opened Storage
  import opened Registry
  import opened Replicas

  /** The number of pods one pass makes for a set of which `c` active pods were found. */
  function Shortfall(rs: ReplicaSet, c: nat): nat {
    Max(0, rs.replicas - c) * |rs.template.Containers()|
  }

  /** Enough random suffixes for any pass over a set. */
  function Needs(rs: ReplicaSet): nat {
    Max(0, rs.replicas) * |rs.template.Containers()|
  }

  /** The store after a pass that returned no error, with the suffixes drawn during the pass. */
  function AfterPass(w: World, name: string, draws: seq<Suffix>): World
    requires name in w.sets && Shortfall(w.sets[name], Count(w.pods, name)) <= |draws|
  {
    var rs, c := w.sets[name], Count(w.pods, name);
    World(Created(w.pods, name, rs.template.Containers(), draws, Shortfall(rs, c)),
          if c == rs.replicas then w.sets else w.sets[name := rs.(statusReplicas := rs.replicas)],
          w.nodes)
  }

  ghost predicate Reconciled(w: World, name: string, w': World, draws: seq<Suffix>) {
    && name in w.sets
    && Shortfall(w.sets[name], Count(w.pods, name)) <= |draws|
    && w' == AfterPass(w, name, draws)
  }

  /** A pass that failed: the first `made` pods are there and nothing else changed. */
  ghost predicate Interrupted(w: World, name: string, w': World, draws: seq<Suffix>, made: nat) {
    if name !in w.sets then w' == w && made == 0
    else
      && made <= Shortfall(w.sets[name], Count(w.pods, name))
      && made <= |draws|
      && w' == w.(pods := Created(w.pods, name, w.sets[name].template.Containers(), draws, made))
  }

  // ---- When a pass succeeds ----

  /** Why creation number `t` may fail: its name is taken, its container is incomplete, or etcd fails. */
  ghost predicate CreationFails(e: RegistryError, pods: map<string, Pod>, owner: string, containers: seq<Container>,
                                draws: seq<Suffix>, t: nat, flaky: bool)
    requires t < |draws|
  {
    match e
    case AlreadyExists => Taken(pods, owner, containers, draws, t)
    case Invalid => containers != [] && !ValidContainer(Turn(containers, t))
    case StorageFailed => flaky
    case _ => false
  }

  /** Why a pass that made `made` pods may have failed. */
  ghost predicate Cause(e: RegistryError, w: World, name: string, draws: seq<Suffix>, made: nat, flaky: bool, flakyGets: bool) {
    || (e == Missing && (name !in w.sets || flakyGets))
    || ((e == ListFailed || e == StorageFailed) && flaky)
    || (&& name in w.sets
        && made < Shortfall(w.sets[name], Count(w.pods, name))
        && made < |draws|
        && CreationFails(e, w.pods, name, w.sets[name].template.Containers(), draws, made, flaky))
  }

  /** The first `n` containers are complete. */
  predicate Complete(containers: seq<Container>, n: nat)
    requires n <= |containers|
  {
    forall i | 0 <= i < n :: ValidContainer(containers[i])
  }

  lemma OneMoreComplete(containers: seq<Container>, n: nat)
    requires n < |containers| && Complete(containers, n) && ValidContainer(containers[n])
    ensures Complete(containers, n + 1)
  {
  }

  /** Nothing stands in the way of `n` creations: no name is or becomes taken and the containers are complete. */
  ghost predicate Clear(pods: map<string, Pod>, owner: string, containers: seq<Container>, draws: seq<Suffix>, n: nat) {
    n <= |draws| && Free(pods, owner, containers, draws, n) && (n > 0 ==> Complete(containers, |containers|))
  }

  /** What decides a pass when etcd works: the set is stored and its missing pods can be created. */
  ghost predicate Goes(w: World, name: string, draws: seq<Suffix>) {
    && name in w.sets
    && Clear(w.pods, name, w.sets[name].template.Containers(), draws, Shortfall(w.sets[name], Count(w.pods, name)))
  }

  /** A pass that returned no error and met no taken name. */
  ghost predicate FreshPass(w: World, name: string, w': World, draws: seq<Suffix>) {
    && Reconciled(w, name, w', draws)
    && Free(w.pods, name, w.sets[name].template.Containers(), draws, Shortfall(w.sets[name], Count(w.pods, name)))
  }

  /** No creation of a clear pass can fail while etcd works. */
  lemma ClearHasNoCause(e: RegistryError, w: World, name: string, draws: seq<Suffix>, made: nat)
    requires Goes(w, name, draws)
    ensures !Cause(e, w, name, draws, made, false, false)
  {
    var containers, n := w.sets[name].template.Containers(), Shortfall(w.sets[name], Count(w.pods, name));
    if made < n {
      NoShortfallWithoutContainers(w.sets[name], Count(w.pods, name));
      FreeAt(w.pods, name, containers, draws, n, made);
      TurnIsOneOf(containers, made);
    }
  }

  lemma NoShortfallWithoutContainers(rs: ReplicaSet, c: nat)
    requires Shortfall(rs, c) > 0
    ensures rs.template.Containers() != [] && c < rs.replicas
  {
  }

  // ---- Consequences for the counts ----

  /**
   A successful pass with working existence checks keeps every existing pod and adds
   to each count the new pods it owns: to its own, those whose name keeps the set's name;
   to a set apart from it, none.
   */
  lemma ReconcileCounts(w: World, name: string, w': World, draws: seq<Suffix>)
    requires FreshPass(w, name, w', draws)
    ensures forall n | n in w.pods :: n in w'.pods && w'.pods[n] == w.pods[n]
    ensures |w'.pods| == |w.pods| + Shortfall(w.sets[name], Count(w.pods, name))
    ensures Count(w'.pods, name) == Count(w.pods, name) + NumKeeping(name, draws, Shortfall(w.sets[name], Count(w.pods, name)))
    ensures forall other | Apart(name, other) :: Count(w'.pods, other) == Count(w.pods, other)
  {
    var containers, n := w.sets[name].template.Containers(), Shortfall(w.sets[name], Count(w.pods, name));
    if n > 0 {
      NoShortfallWithoutContainers(w.sets[name], Count(w.pods, name));
      CountsAfterCreations(w.pods, name, containers, draws, n, name);
      OwnAmongMade(name, draws, n);
      forall other | Apart(name, other) ensures Count(w'.pods, other) == Count(w.pods, other) {
        CountsAfterCreations(w.pods, name, containers, draws, n, other);
        ApartOwnNone(name, draws, n, other);
      }
    }
  }

  /**
   The pods a successful pass makes: number `t` runs the template's container number t
   modulo the size of the template, under its drawn name, and is pending and unbound.
   */
  lemma PassMakesTheTemplate(w: World, name: string, w': World, draws: seq<Suffix>, t: nat)
    requires FreshPass(w, name, w', draws) && t < Shortfall(w.sets[name], Count(w.pods, name))
    ensures var containers, pod := w.sets[name].template.Containers(), GeneratedName(name, draws[t]);
            && containers != [] && pod in w'.pods && w'.pods[pod].meta.name == pod
            && w'.pods[pod].spec.Containers() == [containers[t % |containers|]] && w'.pods[pod].spec.replicas == 0
            && w'.pods[pod].nodeName == "" && w'.pods[pod].status == Pending
  {
    var n := Shortfall(w.sets[name], Count(w.pods, name));
    NoShortfallWithoutContainers(w.sets[name], Count(w.pods, name));
    NewPodsRunTheTemplate(w.pods, name, w.sets[name].template.Containers(), draws, n, t);
  }

  /** The rest of a successful pass: the status of the set, if its count was off, and nothing else. */
  lemma PassWritesTheStatus(w: World, name: string, w': World, draws: seq<Suffix>)
    requires Reconciled(w, name, w', draws)
    ensures w'.nodes == w.nodes && w'.sets.Keys == w.sets.Keys && forall n | n in w.sets && n != name :: w'.sets[n] == w.sets[n]
    ensures var rs, rs' := w.sets[name], w'.sets[name];
            && rs'.meta == rs.meta && rs'.replicas == rs.replicas && rs'.template == rs.template
            && rs'.statusReplicas == if Count(w.pods, name) == rs.replicas then rs.statusReplicas else rs.replicas
  {
  }

  lemma {:induction false} ProductIsLarger(a: nat, k: nat)
    requires 0 < k
    ensures a <= a * k
  {
    if k > 1 {
      ProductIsLarger(a, k - 1);
      assert a * k == a * (k - 1) + a;
    }
  }

  /** After a pass no pods are missing. */
  lemma NoShortfallTwice(rs: ReplicaSet, c: nat)
    ensures Shortfall(rs, c + Shortfall(rs, c)) == 0
  {
    var k := |rs.template.Containers()|;
    if c < rs.replicas && 0 < k {
      ProductIsLarger(rs.replicas - c, k);
    }
  }

  /**
   A pass meets the desired count exactly when it already did, or fewer were found and as
   many of the new names as were missing keep the set's name; up to 58 bytes that means one
   container in the template, above 63 bytes it never happens.
   */
  lemma MeetsTheDesiredCountWhen(w: World, name: string, w': World, draws: seq<Suffix>)
    requires FreshPass(w, name, w', draws)
    ensures var rs, c := w.sets[name], Count(w.pods, name);
            var kept, k := NumKeeping(name, draws, Shortfall(rs, c)), |rs.template.Containers()|;
            && (Count(w'.pods, name) == rs.replicas <==> c == rs.replicas || (c < rs.replicas && kept == rs.replicas - c))
            && (Count(w'.pods, name) > rs.replicas <==> c > rs.replicas || (c < rs.replicas && kept > rs.replicas - c))
            && (|name| <= MAX_GENERATED_NAME_LENGTH && c < rs.replicas ==>
                  (kept == rs.replicas - c <==> k == 1) && (kept > rs.replicas - c <==> k >= 2))
            && (|name| > MAX_NAME_LENGTH ==> Count(w'.pods, name) == c)
  {
    var rs, c := w.sets[name], Count(w.pods, name);
    assert Count(w'.pods, name) == c + NumKeeping(name, draws, Shortfall(rs, c)) by {
      ReconcileCounts(w, name, w', draws);
    }
    if c < rs.replicas {
      ShortfallComparesBy(rs, c);
    }
  }

  /** A store that holds one set and no pods. */
  function LoneSet(name: string, replicas: int, containers: seq<Container>): World {
    World(map[], map[name := ReplicaSet(BareMeta(name), replicas, PodSpec(Some(containers), replicas), 0)], map[])
  }

  lemma EmptyStoreCountsNone(name: string, replicas: int, containers: seq<Container>)
    ensures Count(LoneSet(name, replicas, containers).pods, name) == 0
  {
    assert ActiveOwned(map[], name) == {};
  }

  lemma TwoNamesAreFree(name: string, containers: seq<Container>, draws: seq<Suffix>)
    requires |draws| == 2 && draws[0] != draws[1] && containers != []
    ensures Free(map[], name, containers, draws, |draws|)
  {
    var last := |draws| - 1;
    GeneratedNamesAreUnique(name, draws[last - 1], name, draws[last]);
    assert Created(map[], name, containers, draws, last - 1) == map[];
    assert Free(map[], name, containers, draws, last - 1) && !Taken(map[], name, containers, draws, last - 1);
    assert !Taken(map[], name, containers, draws, last);
  }

  /** A set "a" that wants one pod of a two-container template gets two. */
  lemma TwoContainersExceedTheCount(draws: seq<Suffix>)
    requires draws == ["bbbbb", "ccccc"]
    ensures var w := LoneSet("a", 1, [Container("web", "nginx"), Container("log", "fluentd")]);
            Goes(w, "a", draws) && Count(AfterPass(w, "a", draws).pods, "a") == 2
  {
    var containers := [Container("web", "nginx"), Container("log", "fluentd")];
    var w := LoneSet("a", 1, containers);
    EmptyStoreCountsNone("a", 1, containers);
    assert draws[0][0] == 'b' && draws[1][0] == 'c';
    TwoNamesAreFree("a", containers, draws);
    ReconcileCounts(w, "a", AfterPass(w, "a", draws), draws);
  }

  /** A set with a name of 64 bytes that wants one pod gets one and still has none. */
  lemma LongNameIsNeverServed(name: string, draws: seq<Suffix>)
    requires name == seq(64, _ => 'a') && draws == ["bbbbb"]
    ensures var w := LoneSet(name, 1, [Container("web", "nginx")]);
            && Goes(w, name, draws)
            && |AfterPass(w, name, draws).pods| == 1
            && Count(AfterPass(w, name, draws).pods, name) == 0
  {
    var containers := [Container("web", "nginx")];
    var w := LoneSet(name, 1, containers);
    EmptyStoreCountsNone(name, 1, containers);
    ReconcileCounts(w, name, AfterPass(w, name, draws), draws);
  }

  lemma ShortfallComparesBy(rs: ReplicaSet, c: nat)
    requires c < rs.replicas
    ensures Shortfall(rs, c) == rs.replicas - c <==> |rs.template.Containers()| == 1
    ensures Shortfall(rs, c) > rs.replicas - c <==> |rs.template.Containers()| >= 2
  {
    var k := |rs.template.Containers()|;
    if k >= 2 {
      ProductIsLarger(rs.replicas - c, k - 1);
      assert (rs.replicas - c) * k == (rs.replicas - c) * (k - 1) + (rs.replicas - c);
    }
  }

  /** A set with nothing missing whose status, if its count is off, was already written. */
  ghost predicate Settled(w: World, name: string) {
    && name in w.sets
    && var rs, c := w.sets[name], Count(w.pods, name);
       Shortfall(rs, c) == 0 && (c != rs.replicas ==> rs.statusReplicas == rs.replicas)
  }

  /** Nothing was missing, nothing can be made, or as many of the new names as were missing keep the set's name. */
  predicate Suffices(w: World, name: string, draws: seq<Suffix>)
    requires name in w.sets && Shortfall(w.sets[name], Count(w.pods, name)) <= |draws|
  {
    var rs, c := w.sets[name], Count(w.pods, name);
    c >= rs.replicas || rs.template.Containers() == [] || NumKeeping(name, draws, Shortfall(rs, c)) >= rs.replicas - c
  }

  /** Every pass over a name of at most 58 bytes suffices. */
  lemma ShortNamesSuffice(w: World, name: string, draws: seq<Suffix>)
    requires name in w.sets && Shortfall(w.sets[name], Count(w.pods, name)) <= |draws|
    requires |name| <= MAX_GENERATED_NAME_LENGTH
    ensures Suffices(w, name, draws)
  {
    var rs, c := w.sets[name], Count(w.pods, name);
    if c < rs.replicas && rs.template.Containers() != [] {
      ProductIsLarger(rs.replicas - c, |rs.template.Containers()|);
    }
  }

  lemma SettledBy(rs: ReplicaSet, c: nat)
    ensures Shortfall(rs, c) == 0 <==> c >= rs.replicas || rs.template.Containers() == []
  {
    if c < rs.replicas && rs.template.Containers() != [] {
      ProductIsLarger(rs.replicas - c, |rs.template.Containers()|);
    }
  }

  /** Exactly when nothing is missing after a pass; the status is then written if the count is off. */
  lemma ReconciledIsSettledWhen(w: World, name: string, w': World, draws: seq<Suffix>)
    requires FreshPass(w, name, w', draws)
    ensures Settled(w', name) <==> Suffices(w, name, draws)
  {
    var rs, c := w.sets[name], Count(w.pods, name);
    assert Count(w'.pods, name) == c + NumKeeping(name, draws, Shortfall(rs, c)) by {
      ReconcileCounts(w, name, w', draws);
    }
    SettledBy(rs, c);
    SettledBy(w'.sets[name], Count(w'.pods, name));
  }

  lemma SettledStays(w: World, name: string, w': World, draws: seq<Suffix>)
    requires Settled(w, name) && Reconciled(w, name, w', draws)
    ensures w' == w
  {
    var rs := w.sets[name];
    if rs.statusReplicas == rs.replicas {
      assert rs.(statusReplicas := rs.replicas) == rs;
      assert w.sets[name := rs] == w.sets;
    }
  }

  lemma UnsettledMoves(w: World, name: string, w': World, draws: seq<Suffix>)
    requires FreshPass(w, name, w', draws) && Shortfall(w.sets[name], Count(w.pods, name)) > 0
    ensures w' != w
  {
    assert |w'.pods| > |w.pods| by {
      ReconcileCounts(w, name, w', draws);
    }
  }

  /** Exactly when a second pass changes no stored value: iff the first one sufficed. */
  lemma ReconcileIsIdempotentWhen(w: World, name: string, w1: World, draws1: seq<Suffix>, w2: World, draws2: seq<Suffix>)
    requires FreshPass(w, name, w1, draws1) && FreshPass(w1, name, w2, draws2)
    ensures w2 == w1 <==> Suffices(w, name, draws1)
  {
    ReconciledIsSettledWhen(w, name, w1, draws1);
    if Settled(w1, name) {
      SettledStays(w1, name, w2, draws2);
    } else if Shortfall(w1.sets[name], Count(w1.pods, name)) > 0 {
      UnsettledMoves(w1, name, w2, draws2);
    }
  }

  /** In particular it is idempotent up to 58 bytes, whatever names the second pass would draw. */
  lemma ReconcileIsIdempotent(w: World, name: string, w1: World, draws1: seq<Suffix>, w2: World, draws2: seq<Suffix>)
    requires |name| <= MAX_GENERATED_NAME_LENGTH && FreshPass(w, name, w1, draws1)
    requires Reconciled(w1, name, w2, draws2)
    ensures w2 == w1
  {
    ShortNamesSuffice(w, name, draws1);
    ReconciledIsSettledWhen(w, name, w1, draws1);
    SettledStays(w1, name, w2, draws2);
  }

  /** Such passes in a row over one set. */
  ghost predicate Rounds(worlds: seq<World>, name: string, draws: seq<seq<Suffix>>) {
    && |worlds| == |draws| + 1
    && forall i | 0 <= i < |draws| :: FreshPass(worlds[i], name, worlds[i + 1], draws[i])
  }

  /** The part of a set the controller never writes. */
  function Spec(rs: ReplicaSet): ReplicaSet {
    rs.(statusReplicas := 0)
  }

  lemma LongNameRound(w: World, name: string, w': World, draws: seq<Suffix>)
    requires |name| > MAX_NAME_LENGTH && FreshPass(w, name, w', draws)
    ensures name in w'.sets && Spec(w'.sets[name]) == Spec(w.sets[name])
    ensures Count(w'.pods, name) == Count(w.pods, name)
    ensures |w'.pods| == |w.pods| + Shortfall(w.sets[name], Count(w.pods, name))
  {
    ReconcileCounts(w, name, w', draws);
  }

  lemma ShortfallIgnoresStatus(rs1: ReplicaSet, rs2: ReplicaSet, c: nat)
    requires Spec(rs1) == Spec(rs2)
    ensures Shortfall(rs1, c) == Shortfall(rs2, c)
  {
    assert Spec(rs1).template == rs1.template && Spec(rs2).template == rs2.template;
    assert Spec(rs1).replicas == rs1.replicas && Spec(rs2).replicas == rs2.replicas;
  }

  /** Where passes over such a name stand: `pods` more pods, and the set and its count as they were. */
  ghost predicate Grown(w0: World, w: World, name: string, pods: nat) {
    && name in w0.sets && name in w.sets && Spec(w.sets[name]) == Spec(w0.sets[name])
    && Count(w.pods, name) == Count(w0.pods, name) && |w.pods| == |w0.pods| + pods
  }

  /** A further pass over such a name adds as many pods as the first one. */
  lemma LongNameGrows(w0: World, w: World, name: string, w': World, draws: seq<Suffix>, pods: nat)
    requires |name| > MAX_NAME_LENGTH && FreshPass(w, name, w', draws) && Grown(w0, w, name, pods)
    ensures Grown(w0, w', name, pods + Shortfall(w0.sets[name], Count(w0.pods, name)))
  {
    LongNameRound(w, name, w', draws);
    ShortfallIgnoresStatus(w.sets[name], w0.sets[name], Count(w0.pods, name));
  }

  lemma {:induction false} LongNameRounds(worlds: seq<World>, name: string, draws: seq<seq<Suffix>>, n: nat, m: nat)
    requires |name| > MAX_NAME_LENGTH && Rounds(worlds, name, draws) && n <= |draws|
    requires name in worlds[0].sets && m == Shortfall(worlds[0].sets[name], Count(worlds[0].pods, name))
    ensures Grown(worlds[0], worlds[n], name, Times(n, m))
  {
    if n > 0 {
      LongNameRounds(worlds, name, draws, n - 1, m);
      assert FreshPass(worlds[n - 1], name, worlds[n], draws[n - 1]);
      LongNameGrows(worlds[0], worlds[n - 1], name, worlds[n], draws[n - 1], Times(n - 1, m));
    }
  }

  /** Above 63 bytes the pods of a set grow without bound: n passes add n * max(0, d - c) * k of them and count none. */
  lemma LongNamesGrowForever(worlds: seq<World>, name: string, draws: seq<seq<Suffix>>, n: nat)
    requires |name| > MAX_NAME_LENGTH && Rounds(worlds, name, draws) && name in worlds[0].sets && n <= |draws|
    ensures name in worlds[n].sets && Spec(worlds[n].sets[name]) == Spec(worlds[0].sets[name])
    ensures Count(worlds[n].pods, name) == Count(worlds[0].pods, name)
    ensures |worlds[n].pods| == |worlds[0].pods| + n * Shortfall(worlds[0].sets[name], Count(worlds[0].pods, name))
  {
    var m := Shortfall(worlds[0].sets[name], Count(worlds[0].pods, name));
    LongNameRounds(worlds, name, draws, n, m);
    TimesIsProduct(n, m);
  }

  // ---- Passes over many sets ----

  /** The suffixes drawn during the pass over each set. */
  type Draws = map<string, seq<Suffix>>

  function DrawsOf(draws: Draws, name: string): seq<Suffix> {
    if name in draws then draws[name] else []
  }

  /** The generator never runs dry. */
  predicate Enough(draws: Draws, sets: map<string, ReplicaSet>) {
    forall n | n in sets :: n in draws && Needs(sets[n]) <= |draws[n]|
  }

  /** The store after clear passes over the first `i` sets of an order; a pass that does not go leaves it as it is. */
  ghost function AfterAll(w: World, order: seq<string>, draws: Draws, i: nat): World
    requires i <= |order|
  {
    if i == 0 then w
    else
      var before := AfterAll(w, order, draws, i - 1);
      if Goes(before, order[i - 1], DrawsOf(draws, order[i - 1])) then AfterPass(before, order[i - 1], DrawsOf(draws, order[i - 1]))
      else before
  }

  /** All of them go, each in the store the ones before it leave. */
  ghost predicate AllGo(w: World, order: seq<string>, draws: Draws, i: nat)
    requires i <= |order|
  {
    i == 0 ||
    (AllGo(w, order, draws, i - 1) && Goes(AfterAll(w, order, draws, i - 1), order[i - 1], DrawsOf(draws, order[i - 1])))
  }

  /** Set names that are pairwise apart. */
  predicate Isolated(names: set<string>) {
    forall a, b | a in names && b in names && a != b :: Apart(a, b)
  }

  /** The sets in `done` got the new pods that keep their name, the others kept their count; no pod and no spec was touched. */
  ghost predicate Progress(w0: World, w: World, draws: Draws, done: set<string>) {
    && SameSpecs(w0.sets, w.sets)
    && w.nodes == w0.nodes
    && (forall n | n in w0.pods :: n in w.pods && w.pods[n] == w0.pods[n])
    && (forall n | n in w0.sets :: Count(w.pods, n) == Count(w0.pods, n) + if n in done then Gain(w0, draws, n) else 0)
  }

  /** How many active pods a pass adds to a set: all it makes if the name has at most 58 bytes, none above 63. */
  function Gain(w: World, draws: Draws, name: string): (g: nat)
    requires name in w.sets
    ensures var n := Shortfall(w.sets[name], Count(w.pods, name));
            n <= |DrawsOf(draws, name)| ==>
              && (|name| <= MAX_GENERATED_NAME_LENGTH ==> g == n)
              && (|name| > MAX_NAME_LENGTH ==> g == 0)
  {
    var n := Shortfall(w.sets[name], Count(w.pods, name));
    if n <= |DrawsOf(draws, name)| then NumKeeping(name, DrawsOf(draws, name), n) else 0
  }

  function Elements(names: seq<string>): set<string> {
    set n | n in names
  }

  lemma OneMoreElement(names: seq<string>, i: nat)
    requires i < |names|
    ensures Elements(names[..i + 1]) == Elements(names[..i]) + {names[i]}
  {
    assert names[..i + 1] == names[..i] + [names[i]];
  }

  /** Every set keeps the part the controller never writes. */
  predicate SameSpecs(sets0: map<string, ReplicaSet>, sets: map<string, ReplicaSet>) {
    sets.Keys == sets0.Keys && forall n | n in sets0 :: Spec(sets[n]) == Spec(sets0[n])
  }

  lemma SpecFixesPass(w0: World, w: World, name: string)
    requires name in w0.sets && SameSpecs(w0.sets, w.sets) && Count(w.pods, name) == Count(w0.pods, name)
    ensures w.sets[name].template == w0.sets[name].template && w.sets[name].replicas == w0.sets[name].replicas
    ensures Shortfall(w.sets[name], Count(w.pods, name)) == Shortfall(w0.sets[name], Count(w0.pods, name))
    ensures Needs(w.sets[name]) == Needs(w0.sets[name])
  {
    var rs, rs0 := w.sets[name], w0.sets[name];
    assert Spec(rs).template == rs.template && Spec(rs0).template == rs0.template;
    assert Spec(rs).replicas == rs.replicas && Spec(rs0).replicas == rs0.replicas;
  }

  lemma ClearDependsOnTaken(pods0: map<string, Pod>, pods: map<string, Pod>, owner: string,
                            containers: seq<Container>, draws: seq<Suffix>, n: nat)
    requires SameTaken(pods, pods0, owner)
    ensures Clear(pods, owner, containers, draws, n) <==> Clear(pods0, owner, containers, draws, n)
  {
    if n <= |draws| {
      FreeDependsOnTaken(pods, pods0, owner, containers, draws, n);
    }
  }

  lemma PassKeepsTaken(w: World, name: string, draws: seq<Suffix>, pods0: map<string, Pod>, other: string)
    requires name in w.sets && Shortfall(w.sets[name], Count(w.pods, name)) <= |draws| && Cut(name) != Cut(other)
    ensures SameTaken(w.pods, pods0, other) ==> SameTaken(AfterPass(w, name, draws).pods, pods0, other)
  {
    var n := Shortfall(w.sets[name], Count(w.pods, name));
    forall s: Suffix
      ensures GeneratedName(other, s) in AfterPass(w, name, draws).pods <==> GeneratedName(other, s) in w.pods
    {
      CreationsTakeNoForeignName(w.pods, name, w.sets[name].template.Containers(), draws, n, other, s);
    }
  }

  /** What passes over other sets leave alone for a set: its count, its spec and the names it may generate. */
  ghost predicate Untouched(w0: World, w: World, name: string) {
    Count(w.pods, name) == Count(w0.pods, name) && SameTaken(w.pods, w0.pods, name)
  }

  lemma UntouchedGoesAlike(w0: World, w: World, name: string, draws: seq<Suffix>)
    requires SameSpecs(w0.sets, w.sets) && (name in w0.sets ==> Untouched(w0, w, name))
    ensures Goes(w, name, draws) <==> Goes(w0, name, draws)
  {
    if name in w0.sets {
      SpecFixesPass(w0, w, name);
      ClearDependsOnTaken(w0.pods, w.pods, name, w0.sets[name].template.Containers(), draws,
                          Shortfall(w0.sets[name], Count(w0.pods, name)));
    }
  }

  /** Where the passes over the sets in `done` have got to. */
  ghost predicate Standing(w0: World, w: World, draws: Draws, done: set<string>) {
    && Progress(w0, w, draws, done)
    && forall n | n in w0.sets && n !in done :: Untouched(w0, w, n)
  }

  lemma PassKeepsSpecs(w0: World, w: World, name: string, draws: seq<Suffix>)
    requires name in w.sets && Shortfall(w.sets[name], Count(w.pods, name)) <= |draws|
    ensures SameSpecs(w0.sets, w.sets) ==> SameSpecs(w0.sets, AfterPass(w, name, draws).sets)
  {
  }

  /** The count of each set after one more pass. */
  lemma CountAfterPass(w0: World, w: World, draws: Draws, name: string, w': World, n: string)
    requires Isolated(w0.sets.Keys) && SameSpecs(w0.sets, w.sets) && n in w0.sets
    requires FreshPass(w, name, w', DrawsOf(draws, name)) && Count(w.pods, name) == Count(w0.pods, name)
    ensures Count(w'.pods, n) == Count(w.pods, n) + if n == name then Gain(w0, draws, n) else 0
  {
    ReconcileCounts(w, name, w', DrawsOf(draws, name));
    SpecFixesPass(w0, w, name);
    if n != name {
      assert Apart(name, n);
    }
  }

  lemma PassKeepsPods(pods0: map<string, Pod>, w: World, name: string, draws: seq<Suffix>, w': World)
    requires FreshPass(w, name, w', draws) && forall n | n in pods0 :: n in w.pods && w.pods[n] == pods0[n]
    ensures w'.nodes == w.nodes && forall n | n in pods0 :: n in w'.pods && w'.pods[n] == pods0[n]
  {
    ReconcileCounts(w, name, w', draws);
  }

  lemma OneMoreGain(w0: World, w: World, draws: Draws, done: set<string>, name: string, w': World)
    requires Isolated(w0.sets.Keys) && Progress(w0, w, draws, done) && name !in done
    requires FreshPass(w, name, w', DrawsOf(draws, name))
    ensures Progress(w0, w', draws, done + {name})
  {
    PassKeepsSpecs(w0, w, name, DrawsOf(draws, name));
    PassKeepsPods(w0.pods, w, name, DrawsOf(draws, name), w');
    forall n | n in w0.sets
      ensures Count(w'.pods, n) == Count(w0.pods, n) + if n in done + {name} then Gain(w0, draws, n) else 0
    {
      CountAfterPass(w0, w, draws, name, w', n);
    }
  }

  lemma OthersStayUntouched(w0: World, w: World, name: string, draws: seq<Suffix>, w': World, other: string)
    requires FreshPass(w, name, w', draws) && Apart(name, other) && Untouched(w0, w, other)
    ensures Untouched(w0, w', other)
  {
    ReconcileCounts(w, name, w', draws);
    PassKeepsTaken(w, name, draws, w0.pods, other);
  }

  /** Reconciling one isolated set gives it its gain and disturbs no other. */
  lemma ReconcilingOneSet(w0: World, w: World, done: set<string>, draws: Draws, name: string, w': World)
    requires name !in done && Isolated(w0.sets.Keys) && Standing(w0, w, draws, done)
    requires FreshPass(w, name, w', DrawsOf(draws, name))
    ensures Standing(w0, w', draws, done + {name})
  {
    OneMoreGain(w0, w, draws, done, name, w');
    assert name in w.sets.Keys;
    forall n | n in w0.sets && n !in done + {name} ensures Untouched(w0, w', n) {
      assert Apart(name, n);
      OthersStayUntouched(w0, w, name, DrawsOf(draws, name), w', n);
    }
  }

  predicate Distinct(order: seq<string>) {
    forall i, j | 0 <= i < j < |order| :: order[i] != order[j]
  }

  /** One more pass of a run over isolated sets. */
  lemma OneMorePass(w0: World, w: World, done: set<string>, draws: Draws, name: string)
    requires name !in done && Isolated(w0.sets.Keys) && Standing(w0, w, draws, done)
    ensures Goes(w, name, DrawsOf(draws, name)) <==> Goes(w0, name, DrawsOf(draws, name))
    ensures Goes(w, name, DrawsOf(draws, name)) ==>
              Standing(w0, AfterPass(w, name, DrawsOf(draws, name)), draws, done + {name})
  {
    UntouchedGoesAlike(w0, w, name, DrawsOf(draws, name));
    if Goes(w, name, DrawsOf(draws, name)) {
      ReconcilingOneSet(w0, w, done, draws, name, AfterPass(w, name, DrawsOf(draws, name)));
    }
  }

  lemma NextInOrder(w: World, before: World, order: seq<string>, draws: Draws, i: nat)
    requires i < |order| && Distinct(order) && Isolated(w.sets.Keys)
    requires Standing(w, before, draws, Elements(order[..i]))
    ensures Goes(before, order[i], DrawsOf(draws, order[i])) <==> Goes(w, order[i], DrawsOf(draws, order[i]))
    ensures Goes(before, order[i], DrawsOf(draws, order[i])) ==>
              Standing(w, AfterPass(before, order[i], DrawsOf(draws, order[i])), draws, Elements(order[..i + 1]))
  {
    OneMoreElement(order, i);
    OneMorePass(w, before, Elements(order[..i]), draws, order[i]);
  }

  lemma NothingDone(w: World, order: seq<string>, draws: Draws)
    ensures Standing(w, w, draws, Elements(order[..0]))
  {
    assert Elements(order[..0]) == {};
  }

  /** Every single pass goes in one and the same store. */
  ghost predicate EachGoes(w: World, order: seq<string>, draws: Draws, i: nat)
    requires i <= |order|
  {
    forall j | 0 <= j < i :: Goes(w, order[j], DrawsOf(draws, order[j]))
  }

  lemma OneMoreGoing(w: World, order: seq<string>, draws: Draws, i: nat)
    requires i < |order|
    ensures EachGoes(w, order, draws, i + 1) <==> EachGoes(w, order, draws, i) && Goes(w, order[i], DrawsOf(draws, order[i]))
  {
  }

  lemma AllGoStep(w: World, order: seq<string>, draws: Draws, i: nat, before: World)
    requires i < |order| && before == AfterAll(w, order, draws, i)
    ensures AllGo(w, order, draws, i + 1) <==> AllGo(w, order, draws, i) && Goes(before, order[i], DrawsOf(draws, order[i]))
    ensures Goes(before, order[i], DrawsOf(draws, order[i])) ==>
              AfterAll(w, order, draws, i + 1) == AfterPass(before, order[i], DrawsOf(draws, order[i]))
  {
  }

  /** The first `i` passes of a run are decided by the store it starts from. */
  ghost predicate Judged(w: World, order: seq<string>, draws: Draws, i: nat)
    requires i <= |order|
  {
    && (AllGo(w, order, draws, i) <==> EachGoes(w, order, draws, i))
    && (AllGo(w, order, draws, i) ==> Standing(w, AfterAll(w, order, draws, i), draws, Elements(order[..i])))
  }

  lemma JudgedAtFirst(w: World, order: seq<string>, draws: Draws)
    ensures Judged(w, order, draws, 0)
  {
    NothingDone(w, order, draws);
  }

  lemma JudgedNext(w: World, order: seq<string>, draws: Draws, i: nat)
    requires i < |order| && Distinct(order) && Isolated(w.sets.Keys) && Judged(w, order, draws, i)
    ensures Judged(w, order, draws, i + 1)
  {
    var before := AfterAll(w, order, draws, i);
    AllGoStep(w, order, draws, i, before);
    OneMoreGoing(w, order, draws, i);
    if AllGo(w, order, draws, i) {
      NextInOrder(w, before, order, draws, i);
    }
  }

  lemma {:induction false} JudgedFrom(w: World, order: seq<string>, draws: Draws, i: nat, j: nat)
    requires i <= j <= |order| && Distinct(order) && Isolated(w.sets.Keys) && Judged(w, order, draws, i)
    ensures Judged(w, order, draws, j)
    decreases j - i
  {
    if i < j {
      JudgedNext(w, order, draws, i);
      JudgedFrom(w, order, draws, i + 1, j);
    }
  }

  /**
   For sets that are pairwise apart a whole run is decided by the store it starts from: it
   goes through exactly when every single pass would go in that store.
   */
  lemma IsolatedRun(w: World, order: seq<string>, draws: Draws, i: nat)
    requires i <= |order| && Distinct(order) && Isolated(w.sets.Keys)
    ensures AllGo(w, order, draws, i) <==> EachGoes(w, order, draws, i)
    ensures AllGo(w, order, draws, i) ==> Standing(w, AfterAll(w, order, draws, i), draws, Elements(order[..i]))
  {
    JudgedAtFirst(w, order, draws);
    JudgedFrom(w, order, draws, 0, i);
  }

  // ---- One more pod ----

  /** `n` rounds of `k` pods each. */
  function Times(n: nat, k: nat): nat {
    if n == 0 then 0 else Times(n - 1, k) + k
  }

  lemma {:induction false} TimesIsProduct(n: nat, k: nat)
    ensures Times(n, k) == n * k
  {
    if n > 0 {
      TimesIsProduct(n - 1, k);
      assert n * k == (n - 1) * k + k;
    }
  }

  lemma {:induction false} TimesIsMonotone(m: nat, n: nat, k: nat)
    requires m <= n
    ensures Times(m, k) <= Times(n, k)
  {
    if m < n {
      TimesIsMonotone(m, n - 1, k);
    }
  }

  /** Container `j` of round `a`. */
  lemma {:induction false} TurnOfRound(containers: seq<Container>, a: nat, j: nat)
    requires j < |containers|
    ensures Turn(containers, Times(a, |containers|) + j) == containers[j]
  {
    if a > 0 {
      TurnOfRound(containers, a - 1, j);
    }
  }

  lemma {:induction false} TurnIsOneOf(containers: seq<Container>, t: nat)
    requires containers != []
    ensures Turn(containers, t) in containers
  {
    if t >= |containers| {
      TurnIsOneOf(containers, t - |containers|);
    }
  }

  /** The first `made` creations of a pass on top of `base`. */
  ghost predicate Halfway(base: map<string, Pod>, pods: map<string, Pod>, owner: string, containers: seq<Container>,
                          draws: seq<Suffix>, made: nat, flakyGets: bool) {
    && made <= |draws|
    && pods == Created(base, owner, containers, draws, made)
    && (flakyGets || Free(base, owner, containers, draws, made))
  }

  /** What one creation does to the pods, and exactly why it fails. */
  lemma CreateOutcome(w: World, p: Pod, w': World, err: Option<RegistryError>, flaky: bool, flakyGets: bool)
    requires Behaves(w, CreatePod(p), w', Acknowledge(err), flaky, flakyGets)
    ensures err.None? ==> w' == w.(pods := w.pods[p.meta.name := Defaulted(p)]) && ValidPod(Defaulted(p))
    ensures err.None? && !flakyGets ==> p.meta.name !in w.pods
    ensures err.Some? ==> w' == w
    ensures err == Some(AlreadyExists) ==> p.meta.name in w.pods
    ensures err == Some(Invalid) ==> !ValidPod(Defaulted(p))
    ensures err == Some(StorageFailed) ==> flaky
    ensures err.Some? ==> err.value.AlreadyExists? || err.value.Invalid? || err.value.StorageFailed?
  {
  }

  /** A new pod is valid exactly if its container is. */
  lemma MadePodIsValid(owner: string, container: Container, suffix: Suffix)
    ensures ValidPod(NewPod(owner, container, suffix)) <==> ValidContainer(container)
  {
    assert [container][0] == container;
  }

  lemma NeedsCoverShortfall(rs: ReplicaSet, c: nat)
    ensures Shortfall(rs, c) <= Needs(rs)
  {
    TimesIsProduct(Max(0, rs.replicas - c), |rs.template.Containers()|);
    TimesIsProduct(Max(0, rs.replicas), |rs.template.Containers()|);
    TimesIsMonotone(Max(0, rs.replicas - c), Max(0, rs.replicas), |rs.template.Containers()|);
  }

  /** A pass that fails before its first creation. */
  lemma NothingMade(w: World, name: string, draws: seq<Suffix>)
    requires name in w.sets
    ensures Interrupted(w, name, w, draws, 0)
  {
  }

  /** A pass whose creation number `made` failed. */
  lemma CreatedSome(w: World, name: string, w1: World, draws: seq<Suffix>, made: nat, e: RegistryError, flaky: bool, flakyGets: bool)
    requires name in w.sets && made < Shortfall(w.sets[name], Count(w.pods, name)) <= |draws| && w1 == w.(pods := w1.pods)
    requires Halfway(w.pods, w1.pods, name, w.sets[name].template.Containers(), draws, made, flakyGets)
    requires CreationFails(e, w.pods, name, w.sets[name].template.Containers(), draws, made, flaky)
    ensures Interrupted(w, name, w1, draws, made) && Cause(e, w, name, draws, made, flaky, flakyGets)
  {
  }

  /** A pass that made all missing pods and has its status still to write. */
  lemma CreatedAll(w: World, name: string, w1: World, draws: seq<Suffix>, flakyGets: bool)
    requires name in w.sets && Count(w.pods, name) < w.sets[name].replicas && w1 == w.(pods := w1.pods)
    requires Shortfall(w.sets[name], Count(w.pods, name)) <= |draws| && Complete(w.sets[name].template.Containers(), |w.sets[name].template.Containers()|)
    requires Halfway(w.pods, w1.pods, name, w.sets[name].template.Containers(), draws,
                     Shortfall(w.sets[name], Count(w.pods, name)), flakyGets)
    ensures Interrupted(w, name, w1, draws, Shortfall(w.sets[name], Count(w.pods, name)))
    ensures var rs := w.sets[name]; AfterPass(w, name, draws) == w1.(sets := w1.sets[name := rs.(statusReplicas := rs.replicas)])
    ensures !flakyGets ==> Goes(w, name, draws)
  {
  }

  /** A pass that finds enough pods. */
  lemma NothingMissing(w: World, name: string, draws: seq<Suffix>)
    requires name in w.sets && Count(w.pods, name) >= w.sets[name].replicas
    ensures Shortfall(w.sets[name], Count(w.pods, name)) == 0 && Goes(w, name, draws) && Interrupted(w, name, w, draws, 0)
    ensures var rs := w.sets[name];
            AfterPass(w, name, draws) ==
            if Count(w.pods, name) == rs.replicas then w else w.(sets := w.sets[name := rs.(statusReplicas := rs.replicas)])
  {
  }

  lemma EnoughForOne(w: World, name: string, draws: Draws)
    requires Enough(draws, w.sets)
    ensures name in w.sets ==> Shortfall(w.sets[name], Count(w.pods, name)) <= |DrawsOf(draws, name)|
  {
    if name in w.sets {
      NeedsCoverShortfall(w.sets[name], Count(w.pods, name));
    }
  }

  lemma PassKeepsEnough(w: World, name: string, stretch: seq<Suffix>, draws: Draws)
    requires name in w.sets && Shortfall(w.sets[name], Count(w.pods, name)) <= |stretch|
    ensures Enough(draws, w.sets) ==> Enough(draws, AfterPass(w, name, stretch).sets)
  {
    var rs := w.sets[name];
    assert Needs(rs.(statusReplicas := rs.replicas)) == Needs(rs);
  }

  /** A run that got through its first `i` passes. */
  ghost predicate Reached(w0: World, order: seq<string>, draws: Draws, i: nat, w: World) {
    i <= |order| && AllGo(w0, order, draws, i) && w == AfterAll(w0, order, draws, i)
  }

  lemma OneMoreGoes(w0: World, order: seq<string>, draws: Draws, i: nat, w: World, w': World)
    requires i < |order| && Reached(w0, order, draws, i, w)
    requires Goes(w, order[i], DrawsOf(draws, order[i])) && Reconciled(w, order[i], w', DrawsOf(draws, order[i]))
    ensures Reached(w0, order, draws, i + 1, w')
  {
  }

  lemma {:induction false} StoppedRun(w: World, order: seq<string>, draws: Draws, i: nat, j: nat)
    requires i <= j <= |order|
    ensures !AllGo(w, order, draws, i) ==> !AllGo(w, order, draws, j)
  {
    if i < j {
      StoppedRun(w, order, draws, i, j - 1);
    }
  }

  class ReplicaSetController {
    const storage: EtcdStorage
    const sets: ReplicaSetRegistry
    const pods: PodRegistry

    ghost predicate Valid()
      reads this, storage
    {
      storage.Valid() && sets.storage == storage && pods.storage == storage
    }

    constructor (storage: EtcdStorage)
      requires storage.Valid()
      ensures Valid() && this.storage == storage
    {
      this.storage := storage;
      sets := new ReplicaSetRegistry(storage);
      pods := new PodRegistry(storage);
    }

    method GetPodsForReplicaSet(owner: string, allPods: seq<Pod>) returns (active: seq<Pod>)
      ensures active == OwnedIn(allPods, owner)
    {
      active := [];
      for i := 0 to |allPods|
        invariant active == OwnedIn(allPods[..i], owner)
      {
        assert allPods[..i + 1][..i] == allPods[..i];
        if IsPodActiveAndOwnedBy(allPods[i], owner) {
          active := active + [allPods[i]];
        }
      }
      assert allPods[..|allPods|] == allPods;
    }

    /** One creation. */
    method CreateOne(owner: string, container: Container, suffix: Suffix) returns (err: Option<RegistryError>)
      requires Valid()
      modifies storage
      ensures Valid()
      ensures var p, pods := NewPod(owner, container, suffix), old(storage.world.pods);
              if err.None? then
                && storage.world == old(storage.world).(pods := pods[p.meta.name := p])
                && ValidContainer(container)
                && (p.meta.name in pods ==> storage.flakyGets)
              else
                && storage.world == old(storage.world)
                && (|| (err.value == AlreadyExists && p.meta.name in pods)
                    || (err.value == Invalid && !ValidContainer(container))
                    || (err.value == StorageFailed && storage.flaky))
    {
      var pod := Pod(BareMeta(GeneratedName(owner, suffix)), PodSpec(Some([container]), 0), "", Unset);
      ghost var world := storage.world;
      err := pods.Create(pod);
      CreateOutcome(world, pod, storage.world, err, storage.flaky, storage.flakyGets);
      assert Defaulted(pod) == NewPod(owner, container, suffix);
      MadePodIsValid(owner, container, suffix);
    }

    /** Creation number `j` of a round. */
    method CreateNext(owner: string, containers: seq<Container>, draws: seq<Suffix>, t: nat, j: nat,
                      ghost base: map<string, Pod>, ghost round: nat)
      returns (err: Option<RegistryError>)
      requires Valid() && j < |containers| && t == Times(round, |containers|) + j < |draws|
      requires Halfway(base, storage.world.pods, owner, containers, draws, t, storage.flakyGets)
      modifies storage
      ensures Valid() && storage.world == old(storage.world).(pods := storage.world.pods)
      ensures err.None? ==>
                Halfway(base, storage.world.pods, owner, containers, draws, t + 1, storage.flakyGets) && ValidContainer(containers[j])
      ensures err.Some? ==>
                storage.world == old(storage.world) && CreationFails(err.value, base, owner, containers, draws, t, storage.flaky)
    {
      TurnOfRound(containers, round, j);
      err := CreateOne(owner, containers[j], draws[t]);
    }

    /** The inner loop: one pod for every container of the template. */
    method CreateReplica(owner: string, containers: seq<Container>, draws: seq<Suffix>, first: nat,
                         ghost base: map<string, Pod>, ghost round: nat)
      returns (err: Option<RegistryError>, ghost made: nat)
      requires Valid() && first == Times(round, |containers|) && first + |containers| <= |draws|
      requires Halfway(base, storage.world.pods, owner, containers, draws, first, storage.flakyGets)
      modifies storage
      ensures Valid() && storage.world == old(storage.world).(pods := storage.world.pods)
      ensures first <= made <= first + |containers|
      ensures Halfway(base, storage.world.pods, owner, containers, draws, made, storage.flakyGets)
      ensures err.Some? ==>
                && made < first + |containers|
                && CreationFails(err.value, base, owner, containers, draws, made, storage.flaky)
      ensures err.None? ==> made == first + |containers| && Complete(containers, |containers|)
    {
      var next := first;
      for j := 0 to |containers|
        invariant Valid() && storage.world == old(storage.world).(pods := storage.world.pods)
        invariant next == first + j
        invariant Halfway(base, storage.world.pods, owner, containers, draws, next, storage.flakyGets)
        invariant Complete(containers, j)
      {
        err := CreateNext(owner, containers, draws, next, j, base, round);
        if err.Some? {
          return err, next;
        }
        OneMoreComplete(containers, j);
        next := next + 1;
      }
      return None, next;
    }

    /** The outer loop: one replica after the other until the desired count. */
    method CreateReplicas(owner: string, containers: seq<Container>, draws: seq<Suffix>, current: nat, desired: int)
      returns (err: Option<RegistryError>, ghost made: nat)
      requires Valid() && current <= desired && Times(desired - current, |containers|) <= |draws|
      modifies storage
      ensures Valid() && storage.world == old(storage.world).(pods := storage.world.pods)
      ensures made <= Times(desired - current, |containers|)
      ensures Halfway(old(storage.world.pods), storage.world.pods, owner, containers, draws, made, storage.flakyGets)
      ensures err.Some? ==>
                && made < Times(desired - current, |containers|)
                && CreationFails(err.value, old(storage.world.pods), owner, containers, draws, made, storage.flaky)
      ensures err.None? ==> made == Times(desired - current, |containers|) && (current < desired ==> Complete(containers, |containers|))
    {
      ghost var base, k := storage.world.pods, |containers|;
      made := 0;
      var next := 0;
      for i := current to desired
        invariant Valid() && storage.world == old(storage.world).(pods := storage.world.pods)
        invariant next == made == Times(i - current, k) && (current < i ==> Complete(containers, |containers|))
        invariant Halfway(base, storage.world.pods, owner, containers, draws, made, storage.flakyGets)
      {
        TimesIsMonotone(i + 1 - current, desired - current, k);
        err, made := CreateReplica(owner, containers, draws, next, base, i - current);
        if err.Some? {
          return;
        }
        next := next + |containers|;
      }
      err := None;
    }

    method CurrentSet(name: string) returns (r: Result<ReplicaSet, RegistryError>)
      requires Valid()
      ensures r.Ok? ==> name in storage.world.sets && r.value == storage.world.sets[name] && r.value.meta.name == name
      ensures r.Err? ==> r.error == Missing && (name !in storage.world.sets || storage.flakyGets)
    {
      HeldWorldIsWellFormed(storage.kv, storage.world, storage.keys);
      r := sets.Get(name);
    }

    /** Lists all pods and counts the active ones the set owns. */
    method CountActive(owner: string) returns (r: Result<nat, RegistryError>)
      requires Valid()
      ensures r.Ok? ==> r.value == Count(storage.world.pods, owner)
      ensures r.Err? ==> r.error == ListFailed && storage.flaky
    {
      var all := pods.List();
      if all.Err? {
        return Err(all.error);
      }
      var active := GetPodsForReplicaSet(owner, all.value);
      ListingCounts(storage.world.pods, owner);
      return Ok(|active|);
    }

    method UpdateStatus(rs: ReplicaSet, count: int) returns (err: Option<RegistryError>)
      requires Valid()
      modifies storage
      ensures Valid()
      ensures err.None? ==>
                storage.world == old(storage.world).Store(SetObject(rs.(statusReplicas := count)))
      ensures err.Some? ==> storage.world == old(storage.world)
      ensures err.Some? ==>
                || (err.value.StorageFailed? && storage.flaky)
                || (err.value == Missing && (rs.meta.name !in storage.world.sets || storage.flakyGets))
    {
      err := sets.Update(rs.(statusReplicas := count));
    }

    /**
     One pass over a set with the suffixes that are drawn during it. Success and failure
     leave the store as `Reconciled` and `Interrupted` say, and a failure has its cause at
     creation number `made`. While etcd works, whether the pass succeeds is decided by the
     store and the draws.
     */
    method Reconcile(name: string, draws: seq<Suffix>) returns (err: Option<RegistryError>, ghost made: nat)
      requires Valid()
      requires name in storage.world.sets ==> Shortfall(storage.world.sets[name], Count(storage.world.pods, name)) <= |draws|
      modifies storage
      ensures Valid()
      ensures err.None? ==> Reconciled(old(storage.world), name, storage.world, draws)
      ensures err.Some? ==> Interrupted(old(storage.world), name, storage.world, draws, made)
      ensures err.Some? ==> Cause(err.value, old(storage.world), name, draws, made, storage.flaky, storage.flakyGets)
      ensures err.None? && !storage.flakyGets ==> Goes(old(storage.world), name, draws)
      ensures !storage.flaky && !storage.flakyGets ==> (err.None? <==> Goes(old(storage.world), name, draws))
    {
      ghost var w := storage.world;
      var current := CurrentSet(name);
      if current.Err? {
        return Some(current.error), 0;
      }
      var active := CountActive(current.value.meta.name);
      if active.Err? {
        NothingMade(w, name, draws);
        return Some(active.error), 0;
      }
      err, made := Fill(current.value, active.value, draws);
      if err.Some? && !storage.flaky && !storage.flakyGets && Goes(w, name, draws) {
        ClearHasNoCause(err.value, w, name, draws, made);
      }
    }

    /** The rest of a pass: the missing pods, then the status. */
    method Fill(rs: ReplicaSet, count: nat, draws: seq<Suffix>) returns (err: Option<RegistryError>, ghost made: nat)
      requires Valid() && Lookup(storage.world.sets, rs.meta.name) == Some(rs)
      requires count == Count(storage.world.pods, rs.meta.name) && Shortfall(rs, count) <= |draws|
      modifies storage
      ensures Valid()
      ensures err.None? ==> Reconciled(old(storage.world), rs.meta.name, storage.world, draws)
      ensures err.Some? ==> Interrupted(old(storage.world), rs.meta.name, storage.world, draws, made)
      ensures err.Some? ==> Cause(err.value, old(storage.world), rs.meta.name, draws, made, storage.flaky, storage.flakyGets)
      ensures err.None? && !storage.flakyGets ==> Goes(old(storage.world), rs.meta.name, draws)
    {
      made := 0;
      ghost var w, containers := storage.world, rs.template.Containers();
      var desired := rs.replicas;
      if count < desired {
        TimesIsProduct(desired - count, |rs.template.Containers()|);
        err, made := CreateReplicas(rs.meta.name, rs.template.Containers(), draws, count, desired);
        if err.Some? {
          CreatedSome(w, rs.meta.name, storage.world, draws, made, err.value, storage.flaky, storage.flakyGets);
          return;
        }
        CreatedAll(w, rs.meta.name, storage.world, draws, storage.flakyGets);
        err := UpdateStatus(rs, desired);
      } else {
        NothingMissing(w, rs.meta.name, draws);
        if count > desired {
          err := UpdateStatus(rs, desired);
        } else {
          err := None;
        }
      }
    }

    /** Passes over sets in any order, until one fails. */
    method InOrder(order: seq<string>, draws: Draws) returns (ok: bool)
      requires Valid() && Enough(draws, storage.world.sets)
      modifies storage
      ensures Valid()
      ensures ok && !storage.flakyGets ==>
                && AllGo(old(storage.world), order, draws, |order|)
                && storage.world == AfterAll(old(storage.world), order, draws, |order|)
      ensures !ok && !storage.flaky && !storage.flakyGets ==> !AllGo(old(storage.world), order, draws, |order|)
    {
      ghost var w0 := storage.world;
      for i := 0 to |order|
        invariant Valid() && Enough(draws, storage.world.sets)
        invariant !storage.flakyGets ==> Reached(w0, order, draws, i, storage.world)
      {
        ok := ReconcileNext(order, i, draws, w0);
        if !ok {
          StoppedRun(w0, order, draws, i + 1, |order|);
          return false;
        }
      }
      return true;
    }

    /** The same for distinct sets, and what it means when they are isolated. */
    method ReconcileAll(order: seq<string>, draws: Draws) returns (ok: bool)
      requires Valid() && Distinct(order) && Enough(draws, storage.world.sets)
      modifies storage
      ensures Valid()
      ensures ok && !storage.flakyGets ==> storage.world == AfterAll(old(storage.world), order, draws, |order|)
      ensures !storage.flaky && !storage.flakyGets ==> (ok <==> AllGo(old(storage.world), order, draws, |order|))
      ensures !storage.flaky && !storage.flakyGets && Isolated(old(storage.world.sets.Keys)) ==>
                (ok <==> forall j | 0 <= j < |order| :: Goes(old(storage.world), order[j], DrawsOf(draws, order[j])))
      ensures ok && !storage.flakyGets && Isolated(old(storage.world.sets.Keys)) ==>
                Progress(old(storage.world), storage.world, draws, Elements(order))
    {
      ghost var w0 := storage.world;
      ok := InOrder(order, draws);
      if Isolated(w0.sets.Keys) {
        IsolatedRun(w0, order, draws, |order|);
        assert order[..|order|] == order;
      }
    }

    /** Pass number `i` of a run, with the draws of its set. */
    method ReconcileNext(order: seq<string>, i: nat, draws: Draws, ghost w0: World) returns (ok: bool)
      requires Valid() && i < |order| && Enough(draws, storage.world.sets)
      requires !storage.flakyGets ==> Reached(w0, order, draws, i, storage.world)
      modifies storage
      ensures Valid() && Enough(draws, storage.world.sets)
      ensures ok && !storage.flakyGets ==> Reached(w0, order, draws, i + 1, storage.world)
      ensures !ok && !storage.flaky && !storage.flakyGets ==> !AllGo(w0, order, draws, i + 1)
    {
      ghost var w := storage.world;
      var name := order[i];
      EnoughForOne(w, name, draws);
      var stretch := if name in draws then draws[name] else [];
      var err, made := Reconcile(name, stretch);
      ok := err.None?;
      if ok {
        PassKeepsEnough(w, name, stretch, draws);
        if !storage.flakyGets {
          OneMoreGoes(w0, order, draws, i, w, storage.world);
        }
      }
    }

    /**
     One tick of the controller. An error ends the process (`ok` is false). While etcd
     works the tick goes through exactly when every pass goes, and sets that are pairwise
     apart can be judged one by one in the store the tick starts from.
     */
    method Run(draws: Draws) returns (ok: bool)
      requires Valid() && Enough(draws, storage.world.sets)
      modifies storage
      ensures Valid()
      ensures ok && !storage.flakyGets ==>
                storage.world == AfterAll(old(storage.world), Sorted(old(storage.world.sets.Keys)), draws, |old(storage.world.sets)|)
      ensures !storage.flaky && !storage.flakyGets ==>
                (ok <==> AllGo(old(storage.world), Sorted(old(storage.world.sets.Keys)), draws, |old(storage.world.sets)|))
      ensures !storage.flaky && !storage.flakyGets && Isolated(old(storage.world.sets.Keys)) ==>
                (ok <==> forall n | n in old(storage.world.sets) :: Goes(old(storage.world), n, DrawsOf(draws, n)))
      ensures ok && !storage.flakyGets && Isolated(old(storage.world.sets.Keys)) ==>
                Progress(old(storage.world), storage.world, draws, old(storage.world.sets.Keys))
    {
      var names := ListNames();
      if names.Err? {
        return false;
      }
      assert forall n :: n in names.value <==> n in storage.world.sets;
      ok := ReconcileAll(names.value, draws);
    }

    /** The names of the listed sets; only these are used by the passes. */
    method ListNames() returns (r: Result<seq<string>, RegistryError>)
      requires Valid()
      ensures r.Err? ==> storage.flaky
      ensures r.Ok? ==> r.value == Sorted(storage.world.sets.Keys) && Distinct(r.value) && Elements(r.value) == storage.world.sets.Keys
    {
      var listed := sets.List();
      if listed.Err? {
        return Err(listed.error);
      }
      ghost var sorted := Sorted(storage.world.sets.Keys);
      assert forall i | 0 <= i < |sorted| :: listed.value[i].meta.name == sorted[i] by {
        HeldWorldIsWellFormed(storage.kv, storage.world, storage.keys);
      }
      var names := NamesOf(listed.value);
      assert names == sorted;
      forall i, j | 0 <= i < j < |sorted| ensures sorted[i] != sorted[j] {
        OrderedIsDistinct(sorted, i, j);
      }
      return Ok(names);
    }

    method NamesOf(listed: seq<ReplicaSet>) returns (names: seq<string>)
      ensures |names| == |listed| && forall i | 0 <= i < |names| :: names[i] == listed[i].meta.name
    {
      names := [];
      for i := 0 to |listed|
        invariant |names| == i && forall j | 0 <= j < i :: names[j] == listed[j].meta.name
      {
        names := names + [listed[i].meta.name];
      }
    }
  }
}
