/** The `create` subcommand of the older top-level create.go: for each name it tries a Pod,
    then a DaemonSet, StatefulSet, Deployment, CronJob and beta CronJob of that name, and
    builds a VerticalPodAutoscaler document for the first one found. The cluster GETs are
    parameters; the document is a value (its encoding is not modelled). */
module Create {
  import opened Wrappers
  import Args
  import opened Collections

  const NoNamesMessage := "no names specified"

  /** `CreateArgs.Verify`: at least one name is required. */
  function CreateVerify(names: seq<string>): (err: Option<string>)
    ensures err.None? <==> |names| > 0
    ensures err.Some? ==> err.value == NoNamesMessage
  {
    if |names| == 0 then Some(NoNamesMessage) else None
  }

  // ---------------------------------------------------------------------------
  // The document.
  // ---------------------------------------------------------------------------

  datatype ContainerPolicy = ContainerPolicy(containerName: string, minCpu: string, minMemory: string, mode: string)

  datatype VpaTarget = VpaTarget(apiVersion: string, kind: string, name: string)

  datatype VpaRoot = VpaRoot(apiVersion: string, kind: string, name: string, namespace: string,
                             containerPolicies: seq<ContainerPolicy>, targetRef: VpaTarget, updateMode: string)

  const DocApiVersion := "autoscaling.k8s.io/v1"
  const DocKind := "VerticalPodAutoscaler"

  /** Every policy, the wildcard included, is Auto with a 10m / 10Mi floor. */
  function Policy(containerName: string): ContainerPolicy
  {
    ContainerPolicy(containerName, "10m", "10Mi", "Auto")
  }

  /** The kind switch of createVPA: the target kind and api version for a supported kind. */
  function KindTarget(kind: string): (r: Option<(string, string)>)
    ensures r.None? <==> kind !in {"ReplicaSet", "Deployment", "Job", "StatefulSet", "DaemonSet", "CronJob", "CronJobBeta"}
    ensures r.Some? ==> r.value.1 != ""
    ensures kind == "ReplicaSet" || kind == "Deployment" ==> r == Some(("Deployment", "apps/v1"))
    ensures kind == "Job" || kind == "CronJobBeta" ==> r == Some(("CronJob", "batch/v1beta1"))
    ensures kind == "StatefulSet" || kind == "DaemonSet" ==> r == Some((kind, "apps/v1"))
    ensures kind == "CronJob" ==> r == Some(("CronJob", "batch/v1"))
  {
    if kind == "ReplicaSet" || kind == "Deployment" then Some(("Deployment", "apps/v1"))
    else if kind == "Job" then Some(("CronJob", "batch/v1beta1"))
    else if kind == "StatefulSet" || kind == "DaemonSet" then Some((kind, "apps/v1"))
    else if kind == "CronJob" then Some(("CronJob", "batch/v1"))
    else if kind == "CronJobBeta" then Some(("CronJob", "batch/v1beta1"))
    else None
  }

  /** The document for a target: the VPA is named and placed like the target, points at it
      with the mapped kind and version, carries the given mode's name, and has the wildcard
      policy followed by one policy per container, in order. None for an unsupported kind. */
  function Document(mode: Args.ModeEnum, kind: string, ns: string, name: string, containers: seq<string>): (d: Option<VpaRoot>)
    ensures d.None? <==> KindTarget(kind).None?
    ensures d.Some? ==>
              var doc := d.value;
              && doc.apiVersion == DocApiVersion && doc.kind == DocKind
              && doc.name == name && doc.namespace == ns
              && doc.targetRef == VpaTarget(KindTarget(kind).value.1, KindTarget(kind).value.0, name)
              && doc.updateMode == Args.ModeString(mode)
              && |doc.containerPolicies| == 1 + |containers|
              && doc.containerPolicies[0] == Policy("*")
              && forall i :: 0 <= i < |containers| ==> doc.containerPolicies[i + 1] == Policy(containers[i])
  {
    var t := KindTarget(kind);
    if t.None? then None
    else
      Some(VpaRoot(DocApiVersion, DocKind, name, ns, [Policy("*")] + seq(|containers|, i requires 0 <= i < |containers| => Policy(containers[i])),
                   VpaTarget(t.value.1, t.value.0, name), Args.ModeString(mode)))
  }

  /** `createVPA`: the kind switch, then the policy loop. */
  method CreateVpa(mode: Args.ModeEnum, kind: string, ns: string, name: string, containers: seq<string>)
    returns (doc: Option<VpaRoot>)
    ensures doc == Document(mode, kind, ns, name, containers)
  {
    var version := "";
    var targetKind := kind;
    if kind == "ReplicaSet" || kind == "Deployment" {
      targetKind, version := "Deployment", "apps/v1";
    } else if kind == "Job" {
      targetKind, version := "CronJob", "batch/v1beta1";
    } else if kind == "StatefulSet" || kind == "DaemonSet" {
      version := "apps/v1";
    } else if kind == "CronJob" {
      version := "batch/v1";
    } else if kind == "CronJobBeta" {
      targetKind, version := "CronJob", "batch/v1beta1";
    } else {
      return None;
    }
    var policies := [Policy("*")];
    var i := 0;
    while i < |containers|
      invariant 0 <= i <= |containers|
      invariant |policies| == 1 + i && policies[0] == Policy("*")
      invariant forall j :: 0 <= j < i ==> policies[j + 1] == Policy(containers[j])
    {
      policies := policies + [Policy(containers[i])];
      i := i + 1;
    }
    assert policies == [Policy("*")] + seq(|containers|, j requires 0 <= j < |containers| => Policy(containers[j]));
    doc := Some(VpaRoot(DocApiVersion, DocKind, name, ns, policies, VpaTarget(version, targetKind, name), Args.ModeString(mode)));
  }

  // ---------------------------------------------------------------------------
  // What the lookups return, and the createForX functions.
  // ---------------------------------------------------------------------------

  datatype OwnerRef = OwnerRef(kind: string, name: string)

  /** A pod as createForPod reads it. */
  datatype PodInfo = PodInfo(namespace: string, name: string, owners: seq<OwnerRef>, containers: seq<string>)

  /** The arguments createForX hands to createVPA. */
  datatype Target = Target(kind: string, namespace: string, name: string, containers: seq<string>)

  /** The kind createForPod asks for: the last owner's kind (the pod's own "Pod" without
      owners), with ReplicaSet asked for as Deployment and Job as CronJob. */
  function PodTarget(p: PodInfo): (t: Target)
    ensures t.namespace == p.namespace && t.containers == p.containers
    ensures p.owners == [] ==> t.kind == "Pod" && t.name == p.name
    ensures p.owners != [] ==> t.name == p.owners[|p.owners| - 1].name
    ensures p.owners != [] ==>
              var k := p.owners[|p.owners| - 1].kind;
              t.kind == if k == "ReplicaSet" then "Deployment" else if k == "Job" then "CronJob" else k
  {
    var kind := if p.owners == [] then "Pod" else p.owners[|p.owners| - 1].kind;
    var name := if p.owners == [] then p.name else p.owners[|p.owners| - 1].name;
    Target(if kind == "ReplicaSet" then "Deployment" else if kind == "Job" then "CronJob" else kind,
           p.namespace, name, p.containers)
  }

  /** Unlike the comparison engine, the owner name is kept whole: a ReplicaSet
      "web-7d8f9c6b5" is asked for as the Deployment "web-7d8f9c6b5". */
  lemma PodTargetKeepsName()
    ensures PodTarget(PodInfo("ns", "web-7d8f9c6b5-x2x4z", [OwnerRef("ReplicaSet", "web-7d8f9c6b5")], ["app"]))
            == Target("Deployment", "ns", "web-7d8f9c6b5", ["app"])
  {
  }

  /** `createForPod` after its GET: the owner loop keeps the last owner. */
  method CreateForPod(p: PodInfo) returns (t: Target)
    ensures t == PodTarget(p)
  {
    var kind := "Pod";
    var name := p.name;
    var i := 0;
    while i < |p.owners|
      invariant 0 <= i <= |p.owners|
      invariant i == 0 ==> kind == "Pod" && name == p.name
      invariant i > 0 ==> kind == p.owners[i - 1].kind && name == p.owners[i - 1].name
    {
      kind := p.owners[i].kind;
      name := p.owners[i].name;
      i := i + 1;
    }
    if kind == "ReplicaSet" {
      kind := "Deployment";
    } else if kind == "Job" {
      kind := "CronJob";
    }
    var cnames: seq<string> := [];
    var j := 0;
    while j < |p.containers|
      invariant 0 <= j <= |p.containers|
      invariant cnames == p.containers[..j]
    {
      cnames := cnames + [p.containers[j]];
      j := j + 1;
    }
    assert p.containers[..|p.containers|] == p.containers;
    t := Target(kind, p.namespace, name, cnames);
  }

  // ---------------------------------------------------------------------------
  // The lookup chain.
  // ---------------------------------------------------------------------------

  datatype Lookup = PodLookup | DaemonSetLookup | StatefulSetLookup | DeploymentLookup | CronJobLookup | CronJobBetaLookup

  /** The order of the cases of Exec's `switch true`. */
  const LookupOrder: seq<Lookup> := [PodLookup, DaemonSetLookup, StatefulSetLookup, DeploymentLookup, CronJobLookup, CronJobBetaLookup]

  /** The kind each workload lookup hands to createVPA. */
  function LookupKind(l: Lookup): string
  {
    match l
    case PodLookup => "Pod"
    case DaemonSetLookup => "DaemonSet"
    case StatefulSetLookup => "StatefulSet"
    case DeploymentLookup => "Deployment"
    case CronJobLookup => "CronJob"
    case CronJobBetaLookup => "CronJobBeta"
  }

  /** The cluster GETs: a pod, or the container names of a workload's pod template. */
  datatype Cluster = Cluster(getPod: (string, string) -> Option<PodInfo>,
                             getWorkload: (Lookup, string, string) -> Option<seq<string>>)

  /** One createForX call: None when its GET fails, else what it hands to createVPA. */
  function TryLookup(c: Cluster, l: Lookup, ns: string, name: string): Option<Target>
  {
    if l == PodLookup then
      var p := c.getPod(ns, name);
      if p.Some? then Some(PodTarget(p.value)) else None
    else
      var cs := c.getWorkload(l, ns, name);
      if cs.Some? then Some(Target(LookupKind(l), ns, name, cs.value)) else None
  }

  /** The first lookup in `order` whose GET succeeds, with what it found. */
  function FirstFound(c: Cluster, order: seq<Lookup>, ns: string, name: string): (r: Option<(nat, Target)>)
    ensures r.None? <==> forall i :: 0 <= i < |order| ==> TryLookup(c, order[i], ns, name).None?
    ensures r.Some? ==> r.value.0 < |order| && TryLookup(c, order[r.value.0], ns, name) == Some(r.value.1)
    ensures r.Some? ==> forall i :: 0 <= i < r.value.0 ==> TryLookup(c, order[i], ns, name).None?
  {
    if order == [] then None
    else
      var t := TryLookup(c, order[0], ns, name);
      if t.Some? then Some((0, t.value))
      else
        var rest := FirstFound(c, order[1..], ns, name);
        assert forall i :: 1 <= i < |order| ==> order[i] == order[1..][i - 1];
        if rest.None? then None else Some((rest.value.0 + 1, rest.value.1))
  }

  datatype NameOutcome =
    | Created(doc: VpaRoot)
    | Unsupported(kind: string)
    | NotLocated(namespace: string, name: string)

  /** What Exec does for one name: the first lookup found decides; createVPA then writes a
      document, or logs the kind as unsupported; when nothing is found an error names ns/name. */
  function OutcomeFor(c: Cluster, mode: Args.ModeEnum, ns: string, name: string): NameOutcome
  {
    var f := FirstFound(c, LookupOrder, ns, name);
    if f.None? then NotLocated(ns, name)
    else
      var t := f.value.1;
      var d := Document(mode, t.kind, t.namespace, t.name, t.containers);
      if d.Some? then Created(d.value) else Unsupported(t.kind)
  }

  /** A pod without owners is found first and stops the chain, although "Pod" is not a kind
      createVPA supports: no DaemonSet or other workload of that name is tried. */
  lemma OwnerlessPodStopsChain(c: Cluster, mode: Args.ModeEnum, ns: string, name: string)
    requires c.getPod(ns, name).Some? && c.getPod(ns, name).value.owners == []
    ensures OutcomeFor(c, mode, ns, name) == Unsupported("Pod")
  {
    assert TryLookup(c, LookupOrder[0], ns, name).Some?;
  }

  /** When the pod GET fails, a Deployment of that name is used only if no DaemonSet or
      StatefulSet of that name exists. */
  lemma DeploymentLookupOrder(c: Cluster, mode: Args.ModeEnum, ns: string, name: string)
    requires c.getPod(ns, name).None? && c.getWorkload(DaemonSetLookup, ns, name).None?
    requires c.getWorkload(StatefulSetLookup, ns, name).None?
    requires c.getWorkload(DeploymentLookup, ns, name).Some?
    ensures OutcomeFor(c, mode, ns, name).Created?
    ensures OutcomeFor(c, mode, ns, name).doc.targetRef ==
              VpaTarget("apps/v1", "Deployment", name)
  {
    var f := FirstFound(c, LookupOrder, ns, name);
    assert TryLookup(c, LookupOrder[0], ns, name).None?;
    assert TryLookup(c, LookupOrder[1], ns, name).None?;
    assert TryLookup(c, LookupOrder[2], ns, name).None?;
    assert TryLookup(c, LookupOrder[3], ns, name).Some?;
    assert f.Some? && f.value.0 == 3;
  }

  /** Exec's `switch true` for one name: the lookups in order, stopping at the first found. */
  method Locate(c: Cluster, ns: string, name: string) returns (found: Option<Target>)
    ensures found.None? <==> FirstFound(c, LookupOrder, ns, name).None?
    ensures found.Some? ==> found.value == FirstFound(c, LookupOrder, ns, name).value.1
  {
    var k := 0;
    while k < |LookupOrder|
      invariant 0 <= k <= |LookupOrder|
      invariant forall i :: 0 <= i < k ==> TryLookup(c, LookupOrder[i], ns, name).None?
    {
      var l := LookupOrder[k];
      var t: Option<Target>;
      if l == PodLookup {
        var p := c.getPod(ns, name);
        if p.Some? {
          var pt := CreateForPod(p.value);
          t := Some(pt);
        } else {
          t := None;
        }
      } else {
        var cs := c.getWorkload(l, ns, name);
        t := if cs.Some? then Some(Target(LookupKind(l), ns, name, cs.value)) else None;
      }
      if t.Some? {
        FirstFoundAt(c, LookupOrder, ns, name, k);
        return t;
      }
      k := k + 1;
    }
    return None;
  }

  /** The first found lookup is the only one with every earlier lookup failing. */
  lemma FirstFoundAt(c: Cluster, order: seq<Lookup>, ns: string, name: string, k: nat)
    requires k < |order| && TryLookup(c, order[k], ns, name).Some?
    requires forall i :: 0 <= i < k ==> TryLookup(c, order[i], ns, name).None?
    ensures FirstFound(c, order, ns, name) == Some((k, TryLookup(c, order[k], ns, name).value))
  {
    var f := FirstFound(c, order, ns, name);
    assert f.Some? by { assert TryLookup(c, order[k], ns, name).Some?; }
    assert !(f.value.0 < k) by { assert TryLookup(c, order[f.value.0], ns, name).Some?; }
    assert !(k < f.value.0);
  }

  /** What Exec reports for one argument: getParts, then the lookup chain and createVPA. */
  function ArgOutcome(c: Cluster, mode: Args.ModeEnum, namespace: string, arg: string): NameOutcome
  {
    var parts := Args.GetParts(namespace, arg);
    OutcomeFor(c, mode, parts.ns, parts.name)
  }

  /** One iteration of Exec's loop. */
  method CreateFor(c: Cluster, mode: Args.ModeEnum, namespace: string, arg: string) returns (outcome: NameOutcome)
    ensures outcome == ArgOutcome(c, mode, namespace, arg)
  {
    var parts := Args.GetParts(namespace, arg);
    var found := Locate(c, parts.ns, parts.name);
    if found.None? {
      outcome := NotLocated(parts.ns, parts.name);
    } else {
      var t := found.value;
      var doc := CreateVpa(mode, t.kind, t.namespace, t.name, t.containers);
      outcome := if doc.Some? then Created(doc.value) else Unsupported(t.kind);
    }
  }

  /** Exec's loop over the names: one outcome per name, in order. */
  method CreateAll(c: Cluster, mode: Args.ModeEnum, namespace: string, names: seq<string>)
    returns (outcomes: seq<NameOutcome>)
    ensures |outcomes| == |names|
    ensures forall i :: 0 <= i < |names| ==> outcomes[i] == ArgOutcome(c, mode, namespace, names[i])
  {
    var outcomeOf := (a: string) => ArgOutcome(c, mode, namespace, a);
    outcomes := [];
    var i := 0;
    while i < |names|
      invariant 0 <= i <= |names|
      invariant outcomes == Mapped(names[..i], outcomeOf)
    {
      var outcome := CreateFor(c, mode, namespace, names[i]);
      assert names[..i + 1][..i] == names[..i];
      outcomes := outcomes + [outcome];
      i := i + 1;
    }
    assert names[..i] == names;
    MappedAt(names, outcomeOf);
  }

  /** `CreateArgs` of create.go. */
  class CreateArgs {
    var names: seq<string>
    var mode: Args.ModeEnum

    constructor (names: seq<string>, mode: Args.ModeEnum)
      ensures this.names == names && this.mode == mode
    {
      this.names, this.mode := names, mode;
    }

    /** `CreateArgs.Exec`: for each name, split into namespace and name, locate it, and
        build its document; one outcome per name, in order. */
    method Exec(namespace: string, c: Cluster) returns (outcomes: seq<NameOutcome>)
      ensures |outcomes| == |names|
      ensures forall i :: 0 <= i < |names| ==> outcomes[i] == ArgOutcome(c, mode, namespace, names[i])
    {
      outcomes := CreateAll(c, mode, namespace, names);
    }
  }
}
