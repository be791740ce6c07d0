/**
 Counting the pods of a replica set (pkg/api/pod.go) and what adding freshly
 named pods does to the counts of all sets.
 */
module Replicas {
  import opened Wrappers
  import opened Api
  import opened Names
  import opened KeyOrder
  import opened Layout

  /** The names of the active pods a replica set owns by prefix. */
  function ActiveOwned(pods: map<string, Pod>, owner: string): set<string> {
    set n | n in pods && IsPodActiveAndOwnedBy(pods[n], owner)
  }

  function Count(pods: map<string, Pod>, owner: string): nat {
    |ActiveOwned(pods, owner)|
  }

  /** The active owned pods of a listing. */
  function OwnedIn(pods: seq<Pod>, owner: string): seq<Pod> {
    if pods == [] then []
    else
      var rest := OwnedIn(pods[..|pods| - 1], owner);
      var last := pods[|pods| - 1];
      if IsPodActiveAndOwnedBy(last, owner) then rest + [last] else rest
  }

  /** Filtering the listing of a store counts the same pods. */
  lemma ListingCounts(pods: map<string, Pod>, owner: string)
    ensures |OwnedIn(Values(pods), owner)| == Count(pods, owner)
  {
    var names := Sorted(pods.Keys);
    PartialCount(pods, names, Values(pods), owner, |names|);
    assert Values(pods)[..|names|] == Values(pods) && names[..|names|] == names;
    assert OwnedAmong(pods, names, owner) == ActiveOwned(pods, owner);
  }

  function OwnedAmong(pods: map<string, Pod>, names: seq<string>, owner: string): set<string> {
    set n | n in names && n in pods && IsPodActiveAndOwnedBy(pods[n], owner)
  }

  lemma OneMoreName(pods: map<string, Pod>, names: seq<string>, n: string, owner: string)
    requires n in pods && n !in names
    ensures OwnedAmong(pods, names + [n], owner) ==
            OwnedAmong(pods, names, owner) + if IsPodActiveAndOwnedBy(pods[n], owner) then {n} else {}
    ensures n !in OwnedAmong(pods, names, owner)
  {
  }

  lemma {:induction false} PartialCount(pods: map<string, Pod>, names: seq<string>, values: seq<Pod>, owner: string, i: nat)
    requires Ordered(names) && i <= |names| == |values|
    requires forall j | 0 <= j < |names| :: names[j] in pods && values[j] == pods[names[j]]
    ensures |OwnedIn(values[..i], owner)| == |OwnedAmong(pods, names[..i], owner)|
  {
    if i > 0 {
      PartialCount(pods, names, values, owner, i - 1);
      assert values[..i][..i - 1] == values[..i - 1];
      assert names[..i] == names[..i - 1] + [names[i - 1]];
      NotBefore(names, i - 1);
      OneMoreName(pods, names[..i - 1], names[i - 1], owner);
    }
  }

  // ---- New pods ----

  /** The pod the controller makes of one template container. */
  function NewPod(owner: string, container: Container, suffix: Suffix): Pod {
    Pod(BareMeta(GeneratedName(owner, suffix)), PodSpec(Some([container]), 0), "", Pending)
  }

  ghost predicate MadeFor(p: Pod, owner: string, container: Container) {
    exists s: Suffix :: p == NewPod(owner, container, s)
  }

  /** Whatever the suffix, a new pod is active, and a set apart from its owner does not own it. */
  lemma OwnersOfMadePod(p: Pod, owner: string, container: Container, other: string)
    requires MadeFor(p, owner, container) && Apart(owner, other)
    ensures p.IsActive() && !IsOwnedBy(p, other)
  {
    var s: Suffix :| p == NewPod(owner, container, s);
    ForeignBoundary(owner, other, s);
  }

  /** Neither of two names is a prefix of the other, and they are not cut to the same 58 bytes. */
  predicate Apart(a: string, b: string) {
    Unrelated(a, b) && Cut(a) != Cut(b)
  }

  /** The containers of a template in turn, round after round. */
  function Turn(containers: seq<Container>, t: nat): Container
    requires containers != []
  {
    if t < |containers| then containers[t] else Turn(containers, t - |containers|)
  }

  /** Creation number `t` of a pass: the next container in turn, under a name with the next random suffix. */
  function Creation(owner: string, containers: seq<Container>, draws: seq<Suffix>, t: nat): Pod
    requires t < |draws| && containers != []
  {
    NewPod(owner, Turn(containers, t), draws[t])
  }

  /** The pods after the first `n` creations of a pass. */
  function Created(base: map<string, Pod>, owner: string, containers: seq<Container>, draws: seq<Suffix>, n: nat): map<string, Pod>
    requires n <= |draws|
  {
    if n == 0 || containers == [] then base
    else
      var p := Creation(owner, containers, draws, n - 1);
      Created(base, owner, containers, draws, n - 1)[p.meta.name := p]
  }

  /** The name of creation number `t` is taken when its turn comes, by an old pod or by an earlier new one. */
  predicate Taken(base: map<string, Pod>, owner: string, containers: seq<Container>, draws: seq<Suffix>, t: nat)
    requires t < |draws|
  {
    GeneratedName(owner, draws[t]) in Created(base, owner, containers, draws, t)
  }

  /** None of the first `n` names is. */
  predicate Free(base: map<string, Pod>, owner: string, containers: seq<Container>, draws: seq<Suffix>, n: nat)
    requires n <= |draws|
  {
    n == 0 || (Free(base, owner, containers, draws, n - 1) && !Taken(base, owner, containers, draws, n - 1))
  }

  lemma {:induction false} FreeAt(base: map<string, Pod>, owner: string, containers: seq<Container>, draws: seq<Suffix>, n: nat, t: nat)
    requires t < n <= |draws| && Free(base, owner, containers, draws, n)
    ensures !Taken(base, owner, containers, draws, t)
  {
    if t < n - 1 {
      FreeAt(base, owner, containers, draws, n - 1, t);
    }
  }

  // ---- What the new pods are ----

  lemma ProductsKeepOrder(a: int, b: int, k: nat)
    ensures a <= b ==> a * k <= b * k
  {
  }

  lemma RemainderIsUnique(t: nat, q: int, r: nat, k: nat)
    requires t == q * k + r && r < k
    ensures t % k == r
  {
    var q' := t / k;
    assert t == q' * k + t % k;
    ProductsKeepOrder(q + 1, q', k);
    ProductsKeepOrder(q' + 1, q, k);
    assert (q + 1) * k == q * k + k && (q' + 1) * k == q' * k + k;
  }

  lemma RemainderAfterRound(t: nat, k: nat)
    requires 0 < k <= t
    ensures (t - k) % k == t % k
  {
    var q := t / k;
    assert t == q * k + t % k;
    assert (q - 1) * k == q * k - k;
    RemainderIsUnique(t - k, q - 1, t % k, k);
  }

  /** The containers take turns by position. */
  lemma {:induction false} TurnByRemainder(containers: seq<Container>, t: nat)
    requires containers != []
    ensures Turn(containers, t) == containers[t % |containers|]
  {
    if t >= |containers| {
      TurnByRemainder(containers, t - |containers|);
      RemainderAfterRound(t, |containers|);
    }
  }

  /** A pod created under a free name is not replaced by a later creation. */
  lemma {:induction false} CreationStays(base: map<string, Pod>, owner: string, containers: seq<Container>,
                                         draws: seq<Suffix>, n: nat, t: nat)
    requires t < n <= |draws| && containers != [] && Free(base, owner, containers, draws, n)
    ensures Lookup(Created(base, owner, containers, draws, n), GeneratedName(owner, draws[t])) ==
            Some(Creation(owner, containers, draws, t))
  {
    if t < n - 1 {
      CreationStays(base, owner, containers, draws, n - 1, t);
    }
  }

  /**
   New pod number `t` is found under its drawn name after the pass: unbound and pending, with
   one container, which is the template's number t modulo the size of the template.
   */
  lemma NewPodsRunTheTemplate(base: map<string, Pod>, owner: string, containers: seq<Container>, draws: seq<Suffix>, n: nat, t: nat)
    requires t < n <= |draws| && containers != [] && Free(base, owner, containers, draws, n)
    ensures var pods, name := Created(base, owner, containers, draws, n), GeneratedName(owner, draws[t]);
            && name in pods && pods[name].meta.name == name
            && pods[name].spec.containers == Some([containers[t % |containers|]]) && pods[name].spec.replicas == 0
            && pods[name].nodeName == "" && pods[name].status == Pending
  {
    CreationStays(base, owner, containers, draws, n, t);
    TurnByRemainder(containers, t);
  }

  /** The positions of the owned ones in a listing, which the filter keeps in order. */
  lemma {:induction false} OwnedInOrder(pods: seq<Pod>, owner: string) returns (at: seq<nat>)
    ensures Positions(at, set i | 0 <= i < |pods| && HasPrefix(pods[i].meta.name, owner) && pods[i].status != Failed)
    ensures |OwnedIn(pods, owner)| == |at|
    ensures forall j | 0 <= j < |at| :: at[j] < |pods| && OwnedIn(pods, owner)[j] == pods[at[j]]
  {
    if pods == [] {
      at := [];
    } else {
      var n := |pods| - 1;
      var pre := pods[..n];
      var before := OwnedInOrder(pre, owner);
      var kept := set i | 0 <= i < |pre| && HasPrefix(pre[i].meta.name, owner) && pre[i].status != Failed;
      var now := set i | 0 <= i < |pods| && HasPrefix(pods[i].meta.name, owner) && pods[i].status != Failed;
      if IsPodActiveAndOwnedBy(pods[n], owner) {
        OneMorePosition(before, kept, n);
        assert now == kept + {n};
        at := before + [n];
      } else {
        assert now == kept;
        at := before;
      }
    }
  }

  // ---- Counts after a pass ----

  /** How many of the first `n` names carry `other` as a prefix. */
  function NumCarrying(owner: string, draws: seq<Suffix>, n: nat, other: string): nat
    requires n <= |draws|
  {
    if n == 0 then 0
    else NumCarrying(owner, draws, n - 1, other) + if HasPrefix(GeneratedName(owner, draws[n - 1]), other) then 1 else 0
  }

  /** How many of the first `n` suffixes give names that keep the base. */
  function NumKeeping(owner: string, draws: seq<Suffix>, n: nat): (r: nat)
    requires n <= |draws|
    ensures r <= n
    ensures |owner| <= MAX_GENERATED_NAME_LENGTH ==> r == n
    ensures |owner| > MAX_NAME_LENGTH ==> r == 0
  {
    if n == 0 then 0 else NumKeeping(owner, draws, n - 1) + if KeepsBase(owner, draws[n - 1]) then 1 else 0
  }

  /** A set owns exactly the pods made for it whose name keeps the set's name. */
  lemma {:induction false} OwnAmongMade(owner: string, draws: seq<Suffix>, n: nat)
    requires n <= |draws|
    ensures NumCarrying(owner, draws, n, owner) == NumKeeping(owner, draws, n)
  {
    if n > 0 {
      OwnAmongMade(owner, draws, n - 1);
      OwnershipBoundary(owner, draws[n - 1]);
    }
  }

  /** A set owns none of the pods made for a name apart from its own. */
  lemma {:induction false} ApartOwnNone(owner: string, draws: seq<Suffix>, n: nat, other: string)
    requires n <= |draws| && Apart(owner, other)
    ensures NumCarrying(owner, draws, n, other) == 0
  {
    if n > 0 {
      ApartOwnNone(owner, draws, n - 1, other);
      ForeignBoundary(owner, other, draws[n - 1]);
    }
  }

  lemma AddingOneFreshPod(pods: map<string, Pod>, p: Pod, owner: string)
    requires p.meta.name !in pods
    ensures var after := pods[p.meta.name := p];
            && |after| == |pods| + 1
            && Count(after, owner) == Count(pods, owner) + if IsPodActiveAndOwnedBy(p, owner) then 1 else 0
  {
    var after := pods[p.meta.name := p];
    if IsPodActiveAndOwnedBy(p, owner) {
      assert ActiveOwned(after, owner) == ActiveOwned(pods, owner) + {p.meta.name};
    } else {
      assert ActiveOwned(after, owner) == ActiveOwned(pods, owner);
    }
  }

  /** Creations under free names keep every existing pod and raise each set's count by the new names that carry its name. */
  lemma {:induction false} CountsAfterCreations(base: map<string, Pod>, owner: string, containers: seq<Container>,
                                                draws: seq<Suffix>, n: nat, other: string)
    requires n <= |draws| && containers != [] && Free(base, owner, containers, draws, n)
    ensures forall m | m in base :: m in Created(base, owner, containers, draws, n)
    ensures forall m | m in base :: Created(base, owner, containers, draws, n)[m] == base[m]
    ensures |Created(base, owner, containers, draws, n)| == |base| + n
    ensures Count(Created(base, owner, containers, draws, n), other) == Count(base, other) + NumCarrying(owner, draws, n, other)
  {
    if n > 0 {
      CountsAfterCreations(base, owner, containers, draws, n - 1, other);
      AddingOneFreshPod(Created(base, owner, containers, draws, n - 1), Creation(owner, containers, draws, n - 1), other);
    }
  }

  // ---- Which names are taken ----

  /** The names a set may generate are taken in both maps or in neither. */
  ghost predicate SameTaken(pods1: map<string, Pod>, pods2: map<string, Pod>, owner: string) {
    forall s: Suffix :: GeneratedName(owner, s) in pods1 <==> GeneratedName(owner, s) in pods2
  }

  lemma {:induction false} CreationsKeepSameTaken(base1: map<string, Pod>, base2: map<string, Pod>, owner: string,
                                                  containers: seq<Container>, draws: seq<Suffix>, n: nat)
    requires n <= |draws| && SameTaken(base1, base2, owner)
    ensures SameTaken(Created(base1, owner, containers, draws, n), Created(base2, owner, containers, draws, n), owner)
  {
    if n > 0 && containers != [] {
      CreationsKeepSameTaken(base1, base2, owner, containers, draws, n - 1);
    }
  }

  /** Whether all names are free depends only on which of the set's names are taken to begin with. */
  lemma {:induction false} FreeDependsOnTaken(base1: map<string, Pod>, base2: map<string, Pod>, owner: string,
                                              containers: seq<Container>, draws: seq<Suffix>, n: nat)
    requires n <= |draws| && SameTaken(base1, base2, owner)
    ensures Free(base1, owner, containers, draws, n) <==> Free(base2, owner, containers, draws, n)
  {
    if n > 0 {
      FreeDependsOnTaken(base1, base2, owner, containers, draws, n - 1);
      CreationsKeepSameTaken(base1, base2, owner, containers, draws, n - 1);
    }
  }

  /** A pass takes none of the names of a set that is cut differently. */
  lemma {:induction false} CreationsTakeNoForeignName(base: map<string, Pod>, owner: string, containers: seq<Container>,
                                                      draws: seq<Suffix>, n: nat, other: string, s: Suffix)
    requires n <= |draws| && Cut(owner) != Cut(other)
    ensures GeneratedName(other, s) in Created(base, owner, containers, draws, n) <==> GeneratedName(other, s) in base
  {
    if n > 0 && containers != [] {
      CreationsTakeNoForeignName(base, owner, containers, draws, n - 1, other, s);
      GeneratedNamesAreUnique(owner, draws[n - 1], other, s);
    }
  }
}
