/**
 The objects of the control plane (pkg/api). A Go string is a byte string:
 every `char` here stands for one byte, so lengths are lengths in bytes.
 */
module Api {
  import opened Wrappers

  datatype PodStatus =
    | Unset
    | Pending
    | Scheduled
    | Running
    | Succeeded
    | Failed
    | Other(text: string)

  datatype ObjectMeta = ObjectMeta(
    name: string,
    namespace: string,
    uid: string,
    resourceVersion: string,
    creationTimestamp: int)

  datatype Container = Container(name: string, image: string)

  /** `containers` is `None` for a slice that was never given (nil in Go). */
  datatype PodSpec = PodSpec(containers: Option<seq<Container>>, replicas: int) {
    /** What ranging over the container slice visits; nothing for nil. */
    function Containers(): seq<Container> {
      match containers
      case None => []
      case Some(cs) => cs
    }
  }

  datatype Pod = Pod(meta: ObjectMeta, spec: PodSpec, nodeName: string, status: PodStatus) {
    /** Every status but Failed counts as active, Succeeded included. */
    predicate IsActive() {
      status != Failed
    }
  }

  datatype ReplicaSet = ReplicaSet(meta: ObjectMeta, replicas: int, template: PodSpec, statusReplicas: int)

  datatype Node = Node(meta: ObjectMeta, status: string)

  predicate ValidContainer(c: Container) {
    c.name != "" && c.image != ""
  }

  /** The struct tags of Pod: a name, a container slice, complete containers, no negative replicas. */
  predicate ValidPod(p: Pod) {
    && p.meta.name != ""
    && p.spec.containers.Some?
    && (forall i | 0 <= i < |p.spec.containers.value| :: ValidContainer(p.spec.containers.value[i]))
    && 0 <= p.spec.replicas
  }

  predicate ValidNode(n: Node) {
    n.meta.name != ""
  }

  /** Go's strings.HasPrefix. */
  predicate HasPrefix(s: string, prefix: string) {
    prefix <= s
  }

  predicate IsOwnedBy(p: Pod, owner: string) {
    HasPrefix(p.meta.name, owner)
  }

  predicate IsPodActiveAndOwnedBy(p: Pod, owner: string) {
    IsOwnedBy(p, owner) && p.IsActive()
  }

  function BareMeta(name: string): ObjectMeta {
    ObjectMeta(name, "", "", "", 0)
  }

  /** Neither name is a prefix of the other. */
  predicate Unrelated(a: string, b: string) {
    !(a <= b) && !(b <= a)
  }

  /** Unrelated sets own disjoint pods. */
  lemma UnrelatedOwnersAreDisjoint(p: Pod, a: string, b: string)
    requires Unrelated(a, b) && IsOwnedBy(p, a)
    ensures !IsOwnedBy(p, b)
  {
  }
}
