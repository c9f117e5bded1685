/** The pod-versus-VPA comparison engine of internal/app/compare.go: it indexes the
    VerticalPodAutoscaler objects by workload key, normalises each running pod's owner
    to that key, joins pods and containers to recommendations, computes percentage
    deviations and decides, row by row, what the report shows. */
module Compare {
  import opened Wrappers
  import opened Text
  import opened Collections
  import Args

  // ---------------------------------------------------------------------------
  // What the two cluster listings deliver (the fields the engine reads).
  // ---------------------------------------------------------------------------

  datatype TargetRef = TargetRef(apiVersion: string, kind: string, name: string)

  datatype UpdatePolicy = UpdatePolicy(updateMode: Option<string>)

  /** One container recommendation: getCPU / getMemory of its Target["cpu"] and
      Target["memory"] quantities, None when the key is absent. */
  datatype ContainerRecommendation =
    ContainerRecommendation(containerName: string, targetCpu: Option<int>, targetMemory: Option<int>)

  /** A VerticalPodAutoscaler object; `recommendation` is None when its status has none. */
  datatype Vpa = Vpa(namespace: string, targetRef: Option<TargetRef>, updatePolicy: Option<UpdatePolicy>,
                     recommendation: Option<seq<ContainerRecommendation>>)

  datatype OwnerRef = OwnerRef(apiVersion: string, kind: string, name: string)

  /** A pod container with getCPU / getMemory of its requests (0 when unset). */
  datatype PodContainer = PodContainer(name: string, cpu: int, memory: int)

  datatype Pod = Pod(name: string, namespace: string, phase: string, owners: seq<OwnerRef>,
                     containers: seq<PodContainer>)

  const PodRunning := "Running"

  // ---------------------------------------------------------------------------
  // The engine's records and the workload key.
  // ---------------------------------------------------------------------------

  /** (api version, lower-cased kind, namespace, name) of a workload. */
  datatype WorkloadKey = WorkloadKey(api: string, kind: string, namespace: string, name: string)

  datatype VpaContainerData = VpaContainerData(cpu: int, memory: int)

  datatype VpaData = VpaData(api: string, kind: string, namespace: string, name: string, mode: string,
                             containers: map<string, VpaContainerData>)

  datatype ContainerData = ContainerData(vpa: Option<VpaContainerData>, cpu: int, memory: int)

  datatype PodData = PodData(name: string, namespace: string, ownerApi: string, ownerKind: string,
                             ownerName: string, vpa: Option<VpaData>, containers: map<string, ContainerData>)

  function VpaKey(v: VpaData): WorkloadKey
  {
    WorkloadKey(v.api, v.kind, v.namespace, v.name)
  }

  function PodKey(p: PodData): WorkloadKey
  {
    WorkloadKey(p.ownerApi, p.ownerKind, p.namespace, p.ownerName)
  }

  /** The source's own key, "api:kind@namespace/name", with no escaping of the delimiters. */
  function KeyString(k: WorkloadKey): string
  {
    k.api + ":" + k.kind + "@" + k.namespace + "/" + k.name
  }

  /** The string key identifies a workload as the tuple does, provided the api version has
      no ':', the kind no '@' and the namespace no '/' (true of Kubernetes names). */
  lemma KeyStringInjective(k1: WorkloadKey, k2: WorkloadKey)
    requires ':' !in k1.api && ':' !in k2.api
    requires '@' !in k1.kind && '@' !in k2.kind
    requires '/' !in k1.namespace && '/' !in k2.namespace
    ensures KeyString(k1) == KeyString(k2) <==> k1 == k2
  {
    if KeyString(k1) == KeyString(k2) {
      var r1 := k1.kind + "@" + k1.namespace + "/" + k1.name;
      var r2 := k2.kind + "@" + k2.namespace + "/" + k2.name;
      assert KeyString(k1) == k1.api + [':'] + r1;
      assert KeyString(k2) == k2.api + [':'] + r2;
      SplitUnique(k1.api, r1, k2.api, r2, ':');
      var s1 := k1.namespace + "/" + k1.name;
      var s2 := k2.namespace + "/" + k2.name;
      assert r1 == k1.kind + ['@'] + s1 && r2 == k2.kind + ['@'] + s2;
      SplitUnique(k1.kind, s1, k2.kind, s2, '@');
      assert s1 == k1.namespace + ['/'] + k1.name && s2 == k2.namespace + ['/'] + k2.name;
      SplitUnique(k1.namespace, k1.name, k2.namespace, k2.name, '/');
    }
  }

  /** Without that proviso two different workloads share one string key. */
  lemma KeyStringCollision()
    ensures WorkloadKey("v1", "a@b", "c", "d") != WorkloadKey("v1", "a", "b@c", "d")
    ensures KeyString(WorkloadKey("v1", "a@b", "c", "d")) == KeyString(WorkloadKey("v1", "a", "b@c", "d"))
  {
  }

  // ---------------------------------------------------------------------------
  // Verify: the mode filter.
  // ---------------------------------------------------------------------------

  datatype CompareFilter = CompareFilter(filter: bool, showOff: bool, showInitial: bool, showAuto: bool)

  const NoFilter := CompareFilter(false, false, false, false)

  predicate IsNamedMode(m: Args.ModeEnum)
  {
    m == Args.ModeOff || m == Args.ModeInitial || m == Args.ModeAuto
  }

  /** One iteration of Verify's switch: a named mode turns on filtering and its own flag. */
  function ApplyMode(f: CompareFilter, m: Args.ModeEnum): CompareFilter
  {
    if m == Args.ModeOff then f.(filter := true, showOff := true)
    else if m == Args.ModeInitial then f.(filter := true, showInitial := true)
    else if m == Args.ModeAuto then f.(filter := true, showAuto := true)
    else f
  }

  function ApplyModes(f: CompareFilter, modes: seq<Args.ModeEnum>): CompareFilter
  {
    if modes == [] then f else ApplyMode(ApplyModes(f, modes[..|modes| - 1]), modes[|modes| - 1])
  }

  /** The filter Verify leaves: the modes applied in turn, then invert with nothing
      selected turns on all three modes. */
  function VerifiedFilter(f: CompareFilter, modes: seq<Args.ModeEnum>, invert: bool): CompareFilter
  {
    var g := ApplyModes(f, modes);
    if invert && !g.filter then CompareFilter(true, true, true, true) else g
  }

  ghost predicate AnyNamedMode(modes: seq<Args.ModeEnum>)
  {
    exists i :: 0 <= i < |modes| && IsNamedMode(modes[i])
  }

  /** Starting from no filter, each given mode sets exactly its own flag, and filtering is
      on iff some mode was given. */
  lemma {:induction false} ApplyModesFromNone(modes: seq<Args.ModeEnum>)
    ensures var g := ApplyModes(NoFilter, modes);
            && (g.filter <==> AnyNamedMode(modes))
            && (g.showOff <==> Args.ModeOff in modes)
            && (g.showInitial <==> Args.ModeInitial in modes)
            && (g.showAuto <==> Args.ModeAuto in modes)
  {
    if modes != [] {
      var init := modes[..|modes| - 1];
      ApplyModesFromNone(init);
      assert modes == init + [modes[|modes| - 1]];
      if AnyNamedMode(init) {
        var i :| 0 <= i < |init| && IsNamedMode(init[i]);
        assert modes[i] == init[i];
      }
      if AnyNamedMode(modes) {
        var i :| 0 <= i < |modes| && IsNamedMode(modes[i]);
        if i < |init| { assert init[i] == modes[i]; }
      }
    }
  }

  /** After Verify on a fresh filter: filtering is on iff some mode was given or invert is
      set; each given mode sets its own flag; invert with no modes sets all three. */
  lemma VerifiedFilterFromNone(modes: seq<Args.ModeEnum>, invert: bool)
    ensures var g := VerifiedFilter(NoFilter, modes, invert);
            && (g.filter <==> AnyNamedMode(modes) || invert)
            && (g.showOff <==> Args.ModeOff in modes || (invert && !AnyNamedMode(modes)))
            && (g.showInitial <==> Args.ModeInitial in modes || (invert && !AnyNamedMode(modes)))
            && (g.showAuto <==> Args.ModeAuto in modes || (invert && !AnyNamedMode(modes)))
  {
    ApplyModesFromNone(modes);
  }

  // ---------------------------------------------------------------------------
  // Indexing the VPAs.
  // ---------------------------------------------------------------------------

  /** Missing recommendation values are stored as 0. */
  function ValueOrZero(v: Option<int>): int
  {
    if v.Some? then v.value else 0
  }

  function RecData(r: ContainerRecommendation): VpaContainerData
  {
    VpaContainerData(ValueOrZero(r.targetCpu), ValueOrZero(r.targetMemory))
  }

  /** The per-container recommendations of one VPA, keyed by container name, last wins. */
  function RecContainers(recs: seq<ContainerRecommendation>): map<string, VpaContainerData>
  {
    Assign(recs, (r: ContainerRecommendation) => true, (r: ContainerRecommendation) => r.containerName, RecData)
  }

  /** The update mode, or "" when the update policy or its mode is nil. */
  function ModeOf(v: Vpa): string
  {
    if v.updatePolicy.Some? && v.updatePolicy.value.updateMode.Some? then v.updatePolicy.value.updateMode.value else ""
  }

  /** The record built for a VPA that has a target reference (only such VPAs are used). */
  function VpaDataOf(v: Vpa): VpaData
  {
    var t := if v.targetRef.Some? then v.targetRef.value else TargetRef("", "", "");
    VpaData(t.apiVersion, ToLower(t.kind), v.namespace, t.name, ModeOf(v),
            if v.recommendation.Some? then RecContainers(v.recommendation.value) else map[])
  }

  predicate HasTarget(v: Vpa)
  {
    v.targetRef.Some?
  }

  function IndexKey(v: Vpa): WorkloadKey
  {
    VpaKey(VpaDataOf(v))
  }

  /** The `vpas` map built at the head of Exec. */
  function VpaIndex(items: seq<Vpa>): map<WorkloadKey, VpaData>
  {
    Assign(items, HasTarget, IndexKey, VpaDataOf)
  }

  /** Every entry of an index is stored under its own key. */
  ghost predicate WellKeyed(vpas: map<WorkloadKey, VpaData>)
  {
    forall k :: k in vpas ==> VpaKey(vpas[k]) == k
  }

  /** Only VPAs with a target reference are indexed, under (target api, lower-cased target
      kind, the VPA's namespace, target name), each entry under its own key. */
  lemma VpaIndexSpec(items: seq<Vpa>, k: WorkloadKey)
    ensures k in VpaIndex(items) <==>
              exists i :: 0 <= i < |items| && items[i].targetRef.Some? && IndexKey(items[i]) == k
    ensures k in VpaIndex(items) ==>
              exists i :: 0 <= i < |items| && items[i].targetRef.Some? && VpaIndex(items)[k] == VpaDataOf(items[i])
    ensures k in VpaIndex(items) ==> VpaKey(VpaIndex(items)[k]) == k
  {
    AssignDomain(items, HasTarget, IndexKey, VpaDataOf, k);
    if k in VpaIndex(items) {
      AssignValue(items, HasTarget, IndexKey, VpaDataOf, k);
    }
  }

  lemma VpaIndexWellKeyed(items: seq<Vpa>)
    ensures WellKeyed(VpaIndex(items))
  {
    forall k | k in VpaIndex(items) ensures VpaKey(VpaIndex(items)[k]) == k {
      VpaIndexSpec(items, k);
    }
  }

  /** A later VPA with an equal key replaces an earlier one: the entry is the last one's. */
  lemma VpaIndexLastWins(items: seq<Vpa>, j: nat)
    requires j < |items| && items[j].targetRef.Some?
    requires forall i :: j < i < |items| && items[i].targetRef.Some? ==> IndexKey(items[i]) != IndexKey(items[j])
    ensures IndexKey(items[j]) in VpaIndex(items)
    ensures VpaIndex(items)[IndexKey(items[j])] == VpaDataOf(items[j])
  {
    AssignLastWins(items, HasTarget, IndexKey, VpaDataOf, j);
  }

  /** A recommendation's container entry is the last one with that name, missing values as 0. */
  lemma RecContainersLastWins(recs: seq<ContainerRecommendation>, j: nat)
    requires j < |recs|
    requires forall i :: j < i < |recs| ==> recs[i].containerName != recs[j].containerName
    ensures recs[j].containerName in RecContainers(recs)
    ensures RecContainers(recs)[recs[j].containerName] ==
              VpaContainerData(ValueOrZero(recs[j].targetCpu), ValueOrZero(recs[j].targetMemory))
  {
    AssignLastWins(recs, (r: ContainerRecommendation) => true, (r: ContainerRecommendation) => r.containerName, RecData, j);
  }

  /** The recommendation map of one VPA, filled in a loop. */
  method CollectRecommendations(recs: seq<ContainerRecommendation>) returns (containers: map<string, VpaContainerData>)
    ensures containers == RecContainers(recs)
  {
    containers := map[];
    var i := 0;
    while i < |recs|
      invariant 0 <= i <= |recs|
      invariant containers == RecContainers(recs[..i])
    {
      var values := recs[i];
      var cpu, memory := 0, 0;
      if values.targetCpu.Some? { cpu := values.targetCpu.value; }
      if values.targetMemory.Some? { memory := values.targetMemory.value; }
      containers := containers[values.containerName := VpaContainerData(cpu, memory)];
      assert recs[..i + 1][..i] == recs[..i];
      i := i + 1;
    }
    assert recs[..|recs|] == recs;
  }

  /** The loop at the head of Exec that fills the `vpas` map. */
  method IndexVpas(items: seq<Vpa>) returns (vpas: map<WorkloadKey, VpaData>)
    ensures vpas == VpaIndex(items)
    ensures WellKeyed(vpas)
  {
    vpas := map[];
    var i := 0;
    while i < |items|
      invariant 0 <= i <= |items|
      invariant vpas == VpaIndex(items[..i])
    {
      var v := items[i];
      if v.targetRef.Some? {
        var target := v.targetRef.value;
        var mode := "";
        if v.updatePolicy.Some? && v.updatePolicy.value.updateMode.Some? {
          mode := v.updatePolicy.value.updateMode.value;
        }
        var containers := map[];
        if v.recommendation.Some? {
          containers := CollectRecommendations(v.recommendation.value);
        }
        var vpadata := VpaData(target.apiVersion, ToLower(target.kind), v.namespace, target.name, mode, containers);
        vpas := vpas[VpaKey(vpadata) := vpadata];
      }
      assert items[..i + 1][..i] == items[..i];
      i := i + 1;
    }
    assert items[..|items|] == items;
    VpaIndexWellKeyed(items);
  }

  // ---------------------------------------------------------------------------
  // Normalising pods and joining them to the index.
  // ---------------------------------------------------------------------------

  datatype Owner = Owner(api: string, kind: string, name: string)

  /** What the owner loop leaves: the last owner reference with its kind lower-cased,
      or empty strings when there is none. */
  function LastOwner(owners: seq<OwnerRef>): Owner
  {
    if owners == [] then Owner("", "", "")
    else
      var o := owners[|owners| - 1];
      Owner(o.apiVersion, ToLower(o.kind), o.name)
  }

  /** Cut a generated suffix: the name up to its last '-', when that '-' is not at index 0. */
  function TrimGenerated(name: string): (r: string)
    ensures r <= name
    ensures r == name <==> forall i :: 0 < i < |name| ==> name[i] != '-'
    ensures r != name ==> 0 < |r| < |name| && name[|r|] == '-' && forall j :: |r| < j < |name| ==> name[j] != '-'
  {
    var i := LastIndexOf(name, '-');
    if i > 0 then
      name[..i]
    else
      assert forall j :: 0 < j < |name| ==> name[j] != '-' by {
        forall j | 0 < j < |name| ensures name[j] != '-' {
          if i == 0 { assert name[j] in name[1..]; }
        }
      }
      name
  }

  /** Jobs are reported as their CronJob and ReplicaSets as their Deployment, each with the
      generated suffix cut from the name; the api version and all other kinds are kept. */
  function NormalizeOwner(o: Owner): (r: Owner)
    ensures r.api == o.api
    ensures r.kind != "job" && r.kind != "replicaset"
    ensures o.kind == "job" ==> r == Owner(o.api, "cronjob", TrimGenerated(o.name))
    ensures o.kind == "replicaset" ==> r == Owner(o.api, "deployment", TrimGenerated(o.name))
    ensures o.kind != "job" && o.kind != "replicaset" ==> r == o
  {
    var o1 := if o.kind == "job" then Owner(o.api, "cronjob", TrimGenerated(o.name)) else o;
    if o1.kind == "replicaset" then Owner(o1.api, "deployment", TrimGenerated(o1.name)) else o1
  }

  /** Normalising is idempotent, since the result is never a Job or a ReplicaSet. */
  lemma NormalizeOwnerIdempotent(o: Owner)
    ensures NormalizeOwner(NormalizeOwner(o)) == NormalizeOwner(o)
  {
  }

  /** Worked case: a ReplicaSet's pod-template hash is cut. */
  lemma NormalizeReplicaSetExample()
    ensures NormalizeOwner(Owner("apps/v1", "replicaset", "foo-7d8f9c6b5")) == Owner("apps/v1", "deployment", "foo")
  {
    assert "foo-7d8f9c6b5" == "foo" + "-" + "7d8f9c6b5";
    TrimGeneratedSuffix("foo", "7d8f9c6b5");
  }

  /** Worked case: a Job's schedule timestamp is cut. */
  lemma NormalizeJobExample()
    ensures NormalizeOwner(Owner("batch/v1", "job", "mycron-1699999999")) == Owner("batch/v1", "cronjob", "mycron")
  {
    assert "mycron-1699999999" == "mycron" + "-" + "1699999999";
    TrimGeneratedSuffix("mycron", "1699999999");
  }

  /** Worked case: a name without '-' is kept whole. */
  lemma NormalizeNoSuffixExample()
    ensures NormalizeOwner(Owner("apps/v1", "replicaset", "foo")) == Owner("apps/v1", "deployment", "foo")
  {
    assert forall i :: 0 < i < |"foo"| ==> "foo"[i] != '-';
  }

  /** The suffix cut is exactly the part after the last '-'. */
  lemma TrimGeneratedSuffix(stem: string, suffix: string)
    requires stem != [] && '-' !in suffix
    ensures TrimGenerated(stem + "-" + suffix) == stem
  {
    var name := stem + "-" + suffix;
    assert name[|stem|] == '-';
    assert forall j :: |stem| < j < |name| ==> name[j] == suffix[j - |stem| - 1];
    assert name[..|stem|] == stem;
  }

  /** The pod's container entry: its requests, and the VPA's entry for the same name when
      the pod matched a VPA. */
  function ContainerOf(c: PodContainer, vpa: Option<VpaData>): ContainerData
  {
    ContainerData(if vpa.Some? && c.name in vpa.value.containers then Some(vpa.value.containers[c.name]) else None,
                  c.cpu, c.memory)
  }

  function JoinContainers(cs: seq<PodContainer>, vpa: Option<VpaData>): map<string, ContainerData>
  {
    Assign(cs, (c: PodContainer) => true, (c: PodContainer) => c.name, (c: PodContainer) => ContainerOf(c, vpa))
  }

  /** The record Exec builds for one running pod. */
  function PodRecord(p: Pod, vpas: map<WorkloadKey, VpaData>): PodData
  {
    var o := NormalizeOwner(LastOwner(p.owners));
    var key := WorkloadKey(o.api, o.kind, p.namespace, o.name);
    var vpa := if key in vpas then Some(vpas[key]) else None;
    PodData(p.name, p.namespace, o.api, o.kind, o.name, vpa, JoinContainers(p.containers, vpa))
  }

  /** A pod gets a VPA exactly when its normalised key is in the index, and then the VPA
      names the pod's own owner; each container gets the VPA's entry for exactly its name,
      and none when the pod did not match. */
  lemma PodRecordJoin(p: Pod, vpas: map<WorkloadKey, VpaData>, n: string)
    requires WellKeyed(vpas)
    ensures var d := PodRecord(p, vpas);
            && (d.vpa.Some? <==> PodKey(d) in vpas)
            && (d.vpa.Some? ==> d.vpa.value == vpas[PodKey(d)] && VpaKey(d.vpa.value) == PodKey(d))
            && d.ownerKind != "job" && d.ownerKind != "replicaset"
            && (n in d.containers <==> exists i :: 0 <= i < |p.containers| && p.containers[i].name == n)
            && (n in d.containers ==>
                  (d.containers[n].vpa.Some? <==> d.vpa.Some? && n in d.vpa.value.containers)
                  && (d.containers[n].vpa.Some? ==> d.containers[n].vpa.value == d.vpa.value.containers[n]))
  {
    var d := PodRecord(p, vpas);
    var keep := (c: PodContainer) => true;
    var key := (c: PodContainer) => c.name;
    var val := (c: PodContainer) => ContainerOf(c, d.vpa);
    AssignDomain(p.containers, keep, key, val, n);
    if n in d.containers {
      AssignValue(p.containers, keep, key, val, n);
    }
  }

  /** The owner loop and the two kind rewrites of Exec, on one pod's owner references. */
  method NormalizeOwnerRefs(owners: seq<OwnerRef>) returns (o: Owner)
    ensures o == NormalizeOwner(LastOwner(owners))
  {
    var ownerApi, ownerKind, ownerName := "", "", "";
    var j := 0;
    while j < |owners|
      invariant 0 <= j <= |owners|
      invariant Owner(ownerApi, ownerKind, ownerName) == LastOwner(owners[..j])
    {
      var owner := owners[j];
      ownerApi := owner.apiVersion;
      ownerKind := ToLower(owner.kind);
      ownerName := owner.name;
      j := j + 1;
    }
    assert owners[..|owners|] == owners;
    if ownerKind == "job" {
      ownerKind := "cronjob";
      var i := LastIndexOf(ownerName, '-');
      if i > 0 { ownerName := ownerName[..i]; }
    }
    if ownerKind == "replicaset" {
      ownerKind := "deployment";
      var i := LastIndexOf(ownerName, '-');
      if i > 0 { ownerName := ownerName[..i]; }
    }
    o := Owner(ownerApi, ownerKind, ownerName);
  }

  /** The container loop of Exec: each container's requests, with the VPA's entry for its
      name when the pod matched. */
  method JoinPodContainers(cs: seq<PodContainer>, vpa: Option<VpaData>) returns (containers: map<string, ContainerData>)
    ensures containers == JoinContainers(cs, vpa)
  {
    containers := map[];
    var k := 0;
    while k < |cs|
      invariant 0 <= k <= |cs|
      invariant containers == JoinContainers(cs[..k], vpa)
    {
      var c := cs[k];
      var cvpa := None;
      if vpa.Some? && c.name in vpa.value.containers {
        cvpa := Some(vpa.value.containers[c.name]);
      }
      containers := containers[c.name := ContainerData(cvpa, c.cpu, c.memory)];
      assert cs[..k + 1][..k] == cs[..k];
      k := k + 1;
    }
    assert cs[..|cs|] == cs;
  }

  /** The Exec step for one running pod: the owner, the index lookup and the containers. */
  method NormalizePod(p: Pod, vpas: map<WorkloadKey, VpaData>) returns (pod: PodData)
    ensures pod == PodRecord(p, vpas)
  {
    var o := NormalizeOwnerRefs(p.owners);
    var key := WorkloadKey(o.api, o.kind, p.namespace, o.name);
    var vpa := if key in vpas then Some(vpas[key]) else None;
    var containers := JoinPodContainers(p.containers, vpa);
    pod := PodData(p.name, p.namespace, o.api, o.kind, o.name, vpa, containers);
  }

  /** The `podList` of Exec: the records of the Running pods, in listing order. */
  function PodList(pods: seq<Pod>, vpas: map<WorkloadKey, VpaData>): seq<PodData>
  {
    if pods == [] then []
    else
      var last := pods[|pods| - 1];
      PodList(pods[..|pods| - 1], vpas) + (if last.phase == PodRunning then [PodRecord(last, vpas)] else [])
  }

  /** Every Running pod's record is in the list. */
  lemma {:induction false} PodListHas(pods: seq<Pod>, vpas: map<WorkloadKey, VpaData>, i: nat)
    requires i < |pods| && pods[i].phase == PodRunning
    ensures PodRecord(pods[i], vpas) in PodList(pods, vpas)
  {
    var init := pods[..|pods| - 1];
    if i < |init| {
      assert init[i] == pods[i];
      PodListHas(init, vpas, i);
    }
  }

  /** Every record in the list comes from a Running pod. */
  lemma {:induction false} PodListSource(pods: seq<Pod>, vpas: map<WorkloadKey, VpaData>, d: PodData) returns (i: nat)
    requires d in PodList(pods, vpas)
    ensures i < |pods| && pods[i].phase == PodRunning && d == PodRecord(pods[i], vpas)
  {
    var init := pods[..|pods| - 1];
    if d in PodList(init, vpas) {
      i := PodListSource(init, vpas, d);
      assert init[i] == pods[i];
    } else {
      i := |pods| - 1;
    }
  }

  /** The list is no longer than the listing, and as long when every pod is Running. */
  lemma {:induction false} PodListLength(pods: seq<Pod>, vpas: map<WorkloadKey, VpaData>)
    ensures |PodList(pods, vpas)| <= |pods|
    ensures (forall i :: 0 <= i < |pods| ==> pods[i].phase == PodRunning) ==> |PodList(pods, vpas)| == |pods|
  {
    if pods != [] {
      var init := pods[..|pods| - 1];
      PodListLength(init, vpas);
      if forall i :: 0 <= i < |pods| ==> pods[i].phase == PodRunning {
        assert forall i :: 0 <= i < |init| ==> init[i].phase == PodRunning by {
          forall i | 0 <= i < |init| ensures init[i].phase == PodRunning { assert init[i] == pods[i]; }
        }
      }
    }
  }

  /** Only Running pods are kept, each once, in listing order. */
  lemma PodListSpec(pods: seq<Pod>, vpas: map<WorkloadKey, VpaData>)
    ensures |PodList(pods, vpas)| <= |pods|
    ensures forall d :: d in PodList(pods, vpas) <==>
              exists i :: 0 <= i < |pods| && pods[i].phase == PodRunning && d == PodRecord(pods[i], vpas)
    ensures (forall i :: 0 <= i < |pods| ==> pods[i].phase == PodRunning) ==> |PodList(pods, vpas)| == |pods|
  {
    PodListLength(pods, vpas);
    forall d ensures d in PodList(pods, vpas) <==>
                       exists i :: 0 <= i < |pods| && pods[i].phase == PodRunning && d == PodRecord(pods[i], vpas) {
      if d in PodList(pods, vpas) {
        var i := PodListSource(pods, vpas, d);
      }
      if exists i :: 0 <= i < |pods| && pods[i].phase == PodRunning && d == PodRecord(pods[i], vpas) {
        var i :| 0 <= i < |pods| && pods[i].phase == PodRunning && d == PodRecord(pods[i], vpas);
        PodListHas(pods, vpas, i);
      }
    }
  }

  /** The pod loop of Exec. */
  method CollectPods(pods: seq<Pod>, vpas: map<WorkloadKey, VpaData>) returns (podList: seq<PodData>)
    ensures podList == PodList(pods, vpas)
  {
    podList := [];
    var i := 0;
    while i < |pods|
      invariant 0 <= i <= |pods|
      invariant podList == PodList(pods[..i], vpas)
    {
      var p := pods[i];
      if p.phase == PodRunning {
        var pod := NormalizePod(p, vpas);
        podList := podList + [pod];
      }
      assert pods[..i + 1][..i] == pods[..i];
      i := i + 1;
    }
    assert pods[..|pods|] == pods;
  }

  // ---------------------------------------------------------------------------
  // Diff arithmetic.
  // ---------------------------------------------------------------------------

  function Abs(x: int): nat
  {
    if x < 0 then -x else x
  }

  /** Go's integer `/`: the quotient truncated toward zero, so the remainder has the sign
      of the dividend (Dafny's own `/` is Euclidean). */
  function TruncDiv(a: int, b: int): (q: int)
    requires b != 0
    ensures a >= 0 ==> 0 <= a - q * b < Abs(b)
    ensures a < 0 ==> 0 <= q * b - a < Abs(b)
  {
    var n, d := Abs(a), Abs(b);
    var q0 := n / d;
    DivBounds(n, d);
    var q := if (a < 0) == (b < 0) then q0 else -q0;
    assert a - q * b == if a < 0 then -(n - q0 * d) else n - q0 * d by {
      MulSigns(q0, d, a < 0, b < 0);
    }
    q
  }

  lemma DivBounds(n: nat, d: nat)
    requires d > 0
    ensures 0 <= n - (n / d) * d < d
  {
  }

  /** How a product of magnitudes relates to the product with signs restored. */
  lemma MulSigns(q: int, d: int, aNeg: bool, bNeg: bool)
    ensures var b := if bNeg then -d else d;
            var qq := if aNeg == bNeg then q else -q;
            qq * b == if aNeg then -(q * d) else q * d
  {
    if bNeg {
      assert q * (-d) == -(q * d);
      assert (-q) * (-d) == q * d;
    } else {
      assert (-q) * d == -(q * d);
    }
  }

  /** The percentage by which a request deviates from its recommendation, truncated; the
      source divides unconditionally, so a zero recommendation is excluded here. */
  function PercentDiff(req: int, rec: int): int
    requires rec != 0
  {
    TruncDiv((req - rec) * 100, rec)
  }

  /** For a positive recommendation: a positive diff means the request exceeds the
      recommendation, a negative one that it falls short, zero that the deviation is under
      one percent, and it never overstates the deviation. */
  lemma PercentDiffSign(req: int, rec: int)
    requires rec > 0
    ensures PercentDiff(req, rec) > 0 ==> req > rec
    ensures PercentDiff(req, rec) < 0 ==> req < rec
    ensures PercentDiff(req, rec) == 0 <==> 100 * Abs(req - rec) < rec
    ensures Abs(PercentDiff(req, rec)) * rec <= 100 * Abs(req - rec)
  {
    var n := (req - rec) * 100;
    var q := PercentDiff(req, rec);
    MulBound(q, rec);
    if n < 0 {
      assert Abs(q) * rec == -(q * rec) by { MulSigns(-q, rec, false, false); }
    }
  }

  /** A multiple of a positive number is at least that number away from zero unless zero. */
  lemma MulBound(q: int, r: int)
    requires r > 0
    ensures q > 0 ==> q * r >= r
    ensures q < 0 ==> q * r <= -r
    ensures q == 0 ==> q * r == 0
  {
  }

  /** Worked cases: 150 against 100 is +50; 1 against 3 truncates to -66 where Euclidean
      division would give -67. */
  lemma PercentDiffExamples()
    ensures PercentDiff(150, 100) == 50
    ensures PercentDiff(1, 3) == -66
    ensures ((1 - 3) * 100) / 3 == -67
  {
  }

  /** Rounding a non-negative n/d half up: (2n + d) div 2d lies within half a unit of n/d,
      below it by exactly a half only when n > 0. */
  lemma RoundUpBounds(n: int, d: int)
    requires n >= 0 && d > 0
    ensures var q := (2 * n + d) / (2 * d);
            -d <= 2 * (n - q * d) < d && (2 * (n - q * d) == -d ==> n > 0)
  {
    var q := (2 * n + d) / (2 * d);
    var rem := (2 * n + d) % (2 * d);
    assert 2 * n + d == 2 * d * q + rem && 0 <= rem < 2 * d;
    assert 2 * d * q == 2 * (q * d);
    if n == 0 {
      assert rem == d;
    }
  }

  /** `math.Round` on a ratio: the nearest integer to n/d, halves away from zero. */
  function RoundHalfAway(n: int, d: int): (r: int)
    requires d > 0
    ensures -d <= 2 * (n - r * d) <= d
    ensures 2 * (n - r * d) == d ==> n < 0
    ensures 2 * (n - r * d) == -d ==> n > 0
  {
    if n >= 0 then
      RoundUpBounds(n, d);
      (2 * n + d) / (2 * d)
    else
      var q := (2 * (-n) + d) / (2 * d);
      RoundUpBounds(-n, d);
      assert (-q) * d == -(q * d);
      -q
  }

  const MiB := 1048576

  /** `mem2mb` in integer tenths of a MiB: round(v * 10 / 1048576); the final /10 of the
      source only places the decimal point. */
  function MemTenths(v: int): (t: int)
    ensures -MiB <= 2 * (10 * v - t * MiB) <= MiB
  {
    RoundHalfAway(v * 10, MiB)
  }

  /** Two MiB display as 2.0, i.e. 20 tenths; half a tenth rounds up. */
  lemma MemTenthsExamples()
    ensures MemTenths(2 * MiB) == 20
    ensures MemTenths(52428) == 0 && MemTenths(52429) == 1
    ensures MemTenths(0) == 0
  {
  }

  // ---------------------------------------------------------------------------
  // Rows and the emit decision.
  // ---------------------------------------------------------------------------

  const NoVpaMode := "---"

  /** One report line before rendering; None is a nil (empty) cell. Memory is in tenths of a MiB. */
  datatype Row = Row(namespace: string, name: string, mode: string, container: string,
                     reqCpu: int, vpaCpu: Option<int>, cpuDiff: Option<int>,
                     reqMem: int, vpaMem: Option<int>, memDiff: Option<int>, score: Option<int>)

  /** `haveVPA`: both the pod and the container matched. */
  predicate HaveVpa(pod: PodData, c: ContainerData)
  {
    pod.vpa.Some? && c.vpa.Some?
  }

  /** The row's diffs would divide by zero: the Go program panics here. */
  predicate Faults(pod: PodData, c: ContainerData)
  {
    HaveVpa(pod, c) && (c.vpa.value.cpu == 0 || c.vpa.value.memory == 0)
  }

  function BuildRow(pod: PodData, cname: string, c: ContainerData): (r: Row)
    requires !Faults(pod, c)
    ensures r.namespace == pod.namespace && r.name == pod.name && r.container == cname
    ensures r.mode == if pod.vpa.Some? then pod.vpa.value.mode else NoVpaMode
    ensures r.reqCpu == c.cpu && r.reqMem == MemTenths(c.memory)
    ensures r.vpaCpu.Some? == r.cpuDiff.Some? == r.vpaMem.Some? == r.memDiff.Some? == r.score.Some? == HaveVpa(pod, c)
    ensures HaveVpa(pod, c) ==>
              && r.vpaCpu == Some(c.vpa.value.cpu) && r.vpaMem == Some(MemTenths(c.vpa.value.memory))
              && r.cpuDiff == Some(PercentDiff(c.cpu, c.vpa.value.cpu))
              && r.memDiff == Some(PercentDiff(c.memory, c.vpa.value.memory))
              && r.score == Some(r.cpuDiff.value + r.memDiff.value)
  {
    if pod.vpa.Some? then
      if c.vpa.Some? then
        var diffCpu := PercentDiff(c.cpu, c.vpa.value.cpu);
        var diffMemory := PercentDiff(c.memory, c.vpa.value.memory);
        Row(pod.namespace, pod.name, pod.vpa.value.mode, cname, c.cpu, Some(c.vpa.value.cpu), Some(diffCpu),
            MemTenths(c.memory), Some(MemTenths(c.vpa.value.memory)), Some(diffMemory), Some(diffCpu + diffMemory))
      else
        Row(pod.namespace, pod.name, pod.vpa.value.mode, cname, c.cpu, None, None, MemTenths(c.memory), None, None, None)
    else
      Row(pod.namespace, pod.name, NoVpaMode, cname, c.cpu, None, None, MemTenths(c.memory), None, None, None)
  }

  /** The settings that decide emission. */
  datatype Selection = Selection(allPods: bool, invert: bool, filter: CompareFilter)

  predicate ModeSelected(f: CompareFilter, mode: string)
  {
    (f.showOff && mode == Args.ModeOffText)
    || (f.showInitial && mode == Args.ModeInitialText)
    || (f.showAuto && mode == Args.ModeAutoText)
  }

  /** `show`: with filtering on, only a matched pod whose VPA mode is selected. */
  predicate Show(f: CompareFilter, pod: PodData)
  {
    if f.filter then pod.vpa.Some? && ModeSelected(f, pod.vpa.value.mode) else true
  }

  /** A row is emitted iff (AllPods or haveVPA or invert) and (show XOR invert). */
  predicate Emits(s: Selection, pod: PodData, c: ContainerData)
  {
    (s.allPods || HaveVpa(pod, c) || s.invert) && (Show(s.filter, pod) != s.invert)
  }

  /** The emit decision of a selection, as a predicate on rows. */
  function EmitOf(s: Selection): (PodData, ContainerData) -> bool
  {
    (pod: PodData, c: ContainerData) => Emits(s, pod, c)
  }

  /** The mode texts selected by a list of modes. */
  function SelectedTexts(modes: seq<Args.ModeEnum>): set<string>
  {
    set i | 0 <= i < |modes| && IsNamedMode(modes[i]) :: Args.ModeString(modes[i])
  }

  lemma SelectedTextsSpec(modes: seq<Args.ModeEnum>)
    ensures Args.ModeOffText in SelectedTexts(modes) <==> Args.ModeOff in modes
    ensures Args.ModeInitialText in SelectedTexts(modes) <==> Args.ModeInitial in modes
    ensures Args.ModeAutoText in SelectedTexts(modes) <==> Args.ModeAuto in modes
    ensures SelectedTexts(modes) <= {Args.ModeOffText, Args.ModeInitialText, Args.ModeAutoText}
  {
    if Args.ModeOff in modes {
      var i :| 0 <= i < |modes| && modes[i] == Args.ModeOff;
      assert Args.ModeString(modes[i]) in SelectedTexts(modes);
    }
    if Args.ModeInitial in modes {
      var i :| 0 <= i < |modes| && modes[i] == Args.ModeInitial;
      assert Args.ModeString(modes[i]) in SelectedTexts(modes);
    }
    if Args.ModeAuto in modes {
      var i :| 0 <= i < |modes| && modes[i] == Args.ModeAuto;
      assert Args.ModeString(modes[i]) in SelectedTexts(modes);
    }
  }

  /** The decision table, from the flags the user gives (modes, invert, all-pods) after Verify:
      no modes and no invert emits every matched row (every row with all-pods); modes without
      invert emit matched-pod rows whose VPA mode is selected; invert with no modes emits the
      rows with no VPA or a VPA whose mode is none of Off, Initial and Auto; invert with modes
      emits every row that the modes do not select. */
  lemma EmitDecisionTable(modes: seq<Args.ModeEnum>, invert: bool, allPods: bool, pod: PodData, c: ContainerData)
    ensures var s := Selection(allPods, invert, VerifiedFilter(NoFilter, modes, invert));
            var selected := pod.vpa.Some? && pod.vpa.value.mode in SelectedTexts(modes);
            && (!AnyNamedMode(modes) && !invert ==> (Emits(s, pod, c) <==> allPods || HaveVpa(pod, c)))
            && (AnyNamedMode(modes) && !invert ==> (Emits(s, pod, c) <==> (allPods || HaveVpa(pod, c)) && selected))
            && (!AnyNamedMode(modes) && invert ==>
                  (Emits(s, pod, c) <==>
                     pod.vpa.None? || pod.vpa.value.mode !in {Args.ModeOffText, Args.ModeInitialText, Args.ModeAutoText}))
            && (AnyNamedMode(modes) && invert ==> (Emits(s, pod, c) <==> !selected))
  {
    VerifiedFilterFromNone(modes, invert);
    SelectedTextsSpec(modes);
  }

  // ---------------------------------------------------------------------------
  // The output loop.
  // ---------------------------------------------------------------------------

  /** The brief identity: namespace, then the VPA's target name, else the owner name, else the pod name. */
  function BriefName(pod: PodData): string
  {
    pod.namespace + "/" +
    (if pod.vpa.Some? then pod.vpa.value.name else if pod.ownerName != "" then pod.ownerName else pod.name)
  }

  /** Some container of the pod is emitted. */
  ghost predicate PodEmits(emit: (PodData, ContainerData) -> bool, pod: PodData)
  {
    exists n :: n in pod.containers && emit(pod, pod.containers[n])
  }

  /** Some container of the pod would make the diffs divide by zero. */
  ghost predicate PodFaults(pod: PodData)
  {
    exists n :: n in pod.containers && Faults(pod, pod.containers[n])
  }

  /** The brief output: each pod's brief identity, if it emits a row, printed once at its
      first emission. */
  ghost function BriefLines(emit: (PodData, ContainerData) -> bool, pods: seq<PodData>): seq<string>
  {
    if pods == [] then []
    else
      var prev := BriefLines(emit, pods[..|pods| - 1]);
      var last := pods[|pods| - 1];
      if PodEmits(emit, last) then AddOnce(prev, BriefName(last)) else prev
  }

  /** Brief mode prints each identity at most once, and exactly the identities of the pods
      that emit at least one row. */
  lemma {:induction false} BriefLinesSpec(emit: (PodData, ContainerData) -> bool, pods: seq<PodData>, x: string)
    ensures NoDup(BriefLines(emit, pods))
    ensures x in BriefLines(emit, pods) <==> exists i :: 0 <= i < |pods| && PodEmits(emit, pods[i]) && BriefName(pods[i]) == x
  {
    if pods != [] {
      var init := pods[..|pods| - 1];
      BriefLinesSpec(emit, init, x);
      if exists i :: 0 <= i < |init| && PodEmits(emit, init[i]) && BriefName(init[i]) == x {
        var i :| 0 <= i < |init| && PodEmits(emit, init[i]) && BriefName(init[i]) == x;
        assert pods[i] == init[i];
      }
      if exists i :: 0 <= i < |pods| && PodEmits(emit, pods[i]) && BriefName(pods[i]) == x {
        var i :| 0 <= i < |pods| && PodEmits(emit, pods[i]) && BriefName(pods[i]) == x;
        if i < |init| { assert init[i] == pods[i]; }
      }
    }
  }

  /** Lines once printed stay printed, in place: the brief output for the first `k` pods
      is a prefix of the brief output for all of them. */
  lemma {:induction false} BriefLinesPrefix(emit: (PodData, ContainerData) -> bool, pods: seq<PodData>, k: nat)
    requires k <= |pods|
    ensures BriefLines(emit, pods[..k]) <= BriefLines(emit, pods)
  {
    if k < |pods| {
      var init := pods[..|pods| - 1];
      assert pods[..k] == init[..k];
      BriefLinesPrefix(emit, init, k);
    } else {
      assert pods[..k] == pods;
    }
  }

  /** Each line is printed at its first emission: when pod `i` emits and its identity was
      not printed for the pods before it, it follows those pods' lines directly. */
  lemma BriefFirstEmission(emit: (PodData, ContainerData) -> bool, pods: seq<PodData>, i: nat)
    requires i < |pods| && PodEmits(emit, pods[i])
    requires BriefName(pods[i]) !in BriefLines(emit, pods[..i])
    ensures BriefLines(emit, pods[..i]) + [BriefName(pods[i])] <= BriefLines(emit, pods)
  {
    assert pods[..i + 1][..i] == pods[..i];
    BriefLinesPrefix(emit, pods, i + 1);
  }

  /** An identity already printed for earlier pods is not printed again: a pod that repeats
      it leaves the output as it was. */
  lemma BriefRepeatSilent(emit: (PodData, ContainerData) -> bool, pods: seq<PodData>, i: nat)
    requires i < |pods| && BriefName(pods[i]) in BriefLines(emit, pods[..i])
    ensures BriefLines(emit, pods[..i + 1]) == BriefLines(emit, pods[..i])
  {
    assert pods[..i + 1][..i] == pods[..i];
  }

  /** A matched pod's brief identity is its owner's: the VPA's target name is the owner name. */
  lemma BriefNameOfMatchedPod(p: Pod, vpas: map<WorkloadKey, VpaData>)
    requires WellKeyed(vpas)
    requires PodRecord(p, vpas).vpa.Some?
    ensures BriefName(PodRecord(p, vpas)) == p.namespace + "/" + PodRecord(p, vpas).ownerName
  {
    var d := PodRecord(p, vpas);
    assert VpaKey(vpas[PodKey(d)]) == PodKey(d);
  }

  ghost predicate ContainersOf(pod: PodData, names: seq<string>)
  {
    forall i :: 0 <= i < |names| ==> names[i] in pod.containers && !Faults(pod, pod.containers[names[i]])
  }

  /** The rows one pod writes when its containers are visited in the order `names`. */
  ghost function PodRows(emit: (PodData, ContainerData) -> bool, pod: PodData, names: seq<string>): seq<Row>
    requires ContainersOf(pod, names)
  {
    if names == [] then []
    else
      var n := names[|names| - 1];
      var c := pod.containers[n];
      PodRows(emit, pod, names[..|names| - 1]) + (if emit(pod, c) then [BuildRow(pod, n, c)] else [])
  }

  /** Every row a pod writes is the row of an emitted container, and each emitted container
      writes its row. */
  lemma {:induction false} PodRowsSpec(emit: (PodData, ContainerData) -> bool, pod: PodData, names: seq<string>, r: Row)
    requires ContainersOf(pod, names)
    ensures r in PodRows(emit, pod, names) <==>
              exists n :: n in names && n in pod.containers && emit(pod, pod.containers[n])
                          && !Faults(pod, pod.containers[n]) && r == BuildRow(pod, n, pod.containers[n])
  {
    if names != [] {
      var init, last := names[..|names| - 1], names[|names| - 1];
      assert names == init + [last];
      assert ContainersOf(pod, init) by {
        forall i | 0 <= i < |init| ensures init[i] in pod.containers && !Faults(pod, pod.containers[init[i]]) {
          assert init[i] == names[i];
        }
      }
      PodRowsSpec(emit, pod, init, r);
    }
  }

  ghost predicate Orders(pods: seq<PodData>, orders: seq<seq<string>>)
  {
    |orders| == |pods|
    && forall i :: 0 <= i < |pods| ==> Enumerates(orders[i], pods[i].containers) && ContainersOf(pods[i], orders[i])
  }

  /** The table rows, pod by pod, each pod's containers in the order given. */
  ghost function TableRows(emit: (PodData, ContainerData) -> bool, pods: seq<PodData>, orders: seq<seq<string>>): seq<Row>
    requires Orders(pods, orders)
  {
    if pods == [] then []
    else
      var k := |pods| - 1;
      assert Orders(pods[..k], orders[..k]) by {
        forall i | 0 <= i < k
          ensures Enumerates(orders[..k][i], pods[..k][i].containers) && ContainersOf(pods[..k][i], orders[..k][i])
        {
          assert orders[..k][i] == orders[i] && pods[..k][i] == pods[i];
        }
      }
      TableRows(emit, pods[..k], orders[..k]) + PodRows(emit, pods[k], orders[k])
  }

  /** `r` is the row of one of the pod's containers that the decision emits (and whose
      diffs can be computed). */
  ghost predicate RowOfPod(emit: (PodData, ContainerData) -> bool, pod: PodData, r: Row)
  {
    exists n :: n in pod.containers && emit(pod, pod.containers[n]) && !Faults(pod, pod.containers[n])
                && r == BuildRow(pod, n, pod.containers[n])
  }

  /** Visiting all of a pod's containers writes exactly the rows of its emitted containers. */
  lemma PodRowsOf(emit: (PodData, ContainerData) -> bool, pod: PodData, order: seq<string>, r: Row)
    requires Enumerates(order, pod.containers) && ContainersOf(pod, order)
    ensures r in PodRows(emit, pod, order) <==> RowOfPod(emit, pod, r)
  {
    PodRowsSpec(emit, pod, order, r);
    if RowOfPod(emit, pod, r) {
      var n :| n in pod.containers && emit(pod, pod.containers[n]) && !Faults(pod, pod.containers[n])
               && r == BuildRow(pod, n, pod.containers[n]);
      assert n in order;
    }
  }

  /** The table holds exactly the rows of every pod's emitted containers: each row written
      is the row of some pod's emitted container, and each such row is written. */
  lemma {:induction false} TableRowsSpec(emit: (PodData, ContainerData) -> bool, pods: seq<PodData>,
                                         orders: seq<seq<string>>, r: Row)
    requires Orders(pods, orders)
    ensures r in TableRows(emit, pods, orders) <==> exists i :: 0 <= i < |pods| && RowOfPod(emit, pods[i], r)
  {
    if pods != [] {
      var k := |pods| - 1;
      var init, initOrders := pods[..k], orders[..k];
      OrdersPrefix(pods, orders, k);
      assert TableRows(emit, pods, orders) == TableRows(emit, init, initOrders) + PodRows(emit, pods[k], orders[k]);
      TableRowsSpec(emit, init, initOrders, r);
      PodRowsOf(emit, pods[k], orders[k], r);
      assert forall i :: 0 <= i < k ==> init[i] == pods[i];
    }
  }

  /** Visiting orders for all the pods are visiting orders for any prefix of them. */
  lemma OrdersPrefix(pods: seq<PodData>, orders: seq<seq<string>>, k: nat)
    requires Orders(pods, orders) && k <= |pods|
    ensures Orders(pods[..k], orders[..k])
  {
    forall i | 0 <= i < k
      ensures Enumerates(orders[..k][i], pods[..k][i].containers) && ContainersOf(pods[..k][i], orders[..k][i])
    {
      assert orders[..k][i] == orders[i] && pods[..k][i] == pods[i];
    }
  }

  /** Head/Tail/Sort requests handed to the renderer, in the order Exec makes them. */
  datatype RenderCall = Head(n: nat) | Tail(n: nat) | Sort(columns: seq<int>)

  /** Head and Tail only when non-negative; Sort by the given columns, else by (1, 2, 4):
      namespace, name, container. */
  function RenderCalls(head: int, tail: int, sort: seq<int>): (calls: seq<RenderCall>)
    ensures |calls| >= 1 && calls[|calls| - 1].Sort?
    ensures calls[|calls| - 1].columns == if |sort| > 0 then sort else [1, 2, 4]
    ensures (exists n :: Head(n) in calls) <==> head >= 0
    ensures (exists n :: Tail(n) in calls) <==> tail >= 0
    ensures head >= 0 && tail >= 0 ==> calls[0] == Head(head) && calls[1] == Tail(tail)
    ensures |calls| == (if head >= 0 then 1 else 0) + (if tail >= 0 then 1 else 0) + 1
    ensures head >= 0 ==> calls[0] == Head(head)
    ensures tail >= 0 ==> calls[if head >= 0 then 1 else 0] == Tail(tail)
  {
    (if head >= 0 then [Head(head)] else [])
    + (if tail >= 0 then [Tail(tail)] else [])
    + [Sort(if |sort| > 0 then sort else [1, 2, 4])]
  }

  /** Visiting one more non-faulting container keeps the visited prefix valid, and adds
      that container's row, if emitted, to the pod's rows. */
  lemma VisitStep(emit: (PodData, ContainerData) -> bool, pod: PodData, order: seq<string>, k: nat)
    requires k < |order| && ContainersOf(pod, order[..k])
    requires order[k] in pod.containers && !Faults(pod, pod.containers[order[k]])
    ensures ContainersOf(pod, order[..k + 1])
    ensures AnyEmits(emit, pod, order[..k + 1]) <==> AnyEmits(emit, pod, order[..k]) || emit(pod, pod.containers[order[k]])
    ensures PodRows(emit, pod, order[..k + 1]) ==
              PodRows(emit, pod, order[..k])
              + (if emit(pod, pod.containers[order[k]]) then [BuildRow(pod, order[k], pod.containers[order[k]])] else [])
  {
    var p := order[..k + 1];
    assert p[..k] == order[..k];
    assert forall i :: 0 <= i < k ==> p[i] == order[..k][i];
  }

  /** One more pod's visit order extends the orders of the pods before it. */
  lemma OrdersStep(pods: seq<PodData>, i: nat, orders: seq<seq<string>>, order: seq<string>)
    requires i < |pods| && Orders(pods[..i], orders)
    requires Enumerates(order, pods[i].containers) && ContainersOf(pods[i], order)
    ensures Orders(pods[..i + 1], orders + [order])
  {
    var orders' := orders + [order];
    forall j | 0 <= j < i + 1
      ensures Enumerates(orders'[j], pods[..i + 1][j].containers) && ContainersOf(pods[..i + 1][j], orders'[j])
    {
      assert pods[..i + 1][j] == pods[j];
      if j < i { assert pods[..i][j] == pods[j] && orders'[j] == orders[j]; }
    }
  }

  /** No pod of the list faults, stated pod by pod along the list. */
  ghost predicate FaultFree(pods: seq<PodData>)
  {
    pods == [] || (FaultFree(pods[..|pods| - 1]) && !PodFaults(pods[|pods| - 1]))
  }

  lemma {:induction false} FaultFreeSpec(pods: seq<PodData>)
    ensures FaultFree(pods) <==> forall j :: 0 <= j < |pods| ==> !PodFaults(pods[j])
  {
    if pods != [] {
      var init := pods[..|pods| - 1];
      FaultFreeSpec(init);
      assert forall j :: 0 <= j < |init| ==> init[j] == pods[j];
    }
  }

  /** The Head, Tail and Sort requests at the end of Exec. */
  method PlanRender(head: int, tail: int, sort: seq<int>) returns (calls: seq<RenderCall>)
    ensures calls == RenderCalls(head, tail, sort)
  {
    calls := [];
    if head >= 0 {
      calls := calls + [Head(head)];
    }
    if tail >= 0 {
      calls := calls + [Tail(tail)];
    }
    if |sort| > 0 {
      calls := calls + [Sort(sort)];
    } else {
      calls := calls + [Sort([1, 2, 4])];
    }
  }

  /** Some container among `names` is emitted, stated name by name along the list. */
  ghost predicate AnyEmits(emit: (PodData, ContainerData) -> bool, pod: PodData, names: seq<string>)
  {
    names != []
    && (AnyEmits(emit, pod, names[..|names| - 1])
        || (names[|names| - 1] in pod.containers && emit(pod, pod.containers[names[|names| - 1]])))
  }

  lemma {:induction false} AnyEmitsSpec(emit: (PodData, ContainerData) -> bool, pod: PodData, names: seq<string>)
    ensures AnyEmits(emit, pod, names) <==>
              exists j :: 0 <= j < |names| && names[j] in pod.containers && emit(pod, pod.containers[names[j]])
  {
    if names != [] {
      var init := names[..|names| - 1];
      AnyEmitsSpec(emit, pod, init);
      assert forall j :: 0 <= j < |init| ==> init[j] == names[j];
    }
  }

  /** Once every container of an enumeration has been visited without a fault, the pod has
      no faulting container, and it emits exactly when one of the visited containers did. */
  lemma VisitedAll(emit: (PodData, ContainerData) -> bool, pod: PodData, order: seq<string>)
    requires Enumerates(order, pod.containers) && ContainersOf(pod, order)
    ensures !PodFaults(pod)
    ensures PodEmits(emit, pod) <==> AnyEmits(emit, pod, order)
  {
    forall n | n in pod.containers ensures !Faults(pod, pod.containers[n]) {
      var j :| 0 <= j < |order| && order[j] == n;
    }
    AnyEmitsSpec(emit, pod, order);
    if PodEmits(emit, pod) {
      var n :| n in pod.containers && emit(pod, pod.containers[n]);
      var j :| 0 <= j < |order| && order[j] == n;
    }
  }

  /** Brief mode's `printed` check: a line is written only the first time. */
  method PrintOnce(lines0: seq<string>, printed0: set<string>, b: string) returns (lines: seq<string>, printed: set<string>)
    requires forall x :: x in printed0 <==> x in lines0
    ensures lines == AddOnce(lines0, b)
    ensures forall x :: x in printed <==> x in lines
  {
    lines, printed := lines0, printed0;
    if b !in printed {
      lines := lines + [b];
      printed := printed + {b};
    }
  }

  /** What the inner loop keeps after visiting the containers `names`: none of them faulted,
      `printed` is the set of lines written, `emitted` says whether one of them was emitted,
      and the output so far is the brief line once (brief mode) or their rows (table mode). */
  ghost predicate Visited(emit: (PodData, ContainerData) -> bool, brief: bool, pod: PodData, names: seq<string>,
                          rows0: seq<Row>, lines0: seq<string>, rows: seq<Row>, lines: seq<string>, printed: set<string>, emitted: bool)
  {
    && ContainersOf(pod, names)
    && (forall x :: x in printed <==> x in lines)
    && (emitted <==> AnyEmits(emit, pod, names))
    && (brief ==> rows == rows0 && lines == if emitted then AddOnce(lines0, BriefName(pod)) else lines0)
    && (!brief ==> lines == lines0 && rows == rows0 + PodRows(emit, pod, names))
  }

  /** One pass of the inner loop over a container that does not fault: print the brief line
      once or append the container's row, when the container is emitted. */
  method VisitOne(emit: (PodData, ContainerData) -> bool, brief: bool, pod: PodData, order: seq<string>, k: nat,
                  rows0: seq<Row>, lines0: seq<string>, rows: seq<Row>, lines: seq<string>, printed: set<string>, emitted: bool)
    returns (rows': seq<Row>, lines': seq<string>, printed': set<string>, emitted': bool)
    requires k < |order| && order[k] in pod.containers && !Faults(pod, pod.containers[order[k]])
    requires Visited(emit, brief, pod, order[..k], rows0, lines0, rows, lines, printed, emitted)
    ensures Visited(emit, brief, pod, order[..k + 1], rows0, lines0, rows', lines', printed', emitted')
  {
    VisitStep(emit, pod, order, k);
    rows', lines', printed', emitted' := rows, lines, printed, emitted;
    var c := pod.containers[order[k]];
    if emit(pod, c) {
      if brief {
        lines', printed' := PrintOnce(lines, printed, BriefName(pod));
      } else {
        rows' := rows + [BuildRow(pod, order[k], c)];
      }
      emitted' := true;
    }
  }

  /** The inner output loop for one pod, over its container names in the given order: stops
      at the first container whose diffs divide by zero, and otherwise writes the emitted rows
      (table mode) or prints the pod's brief identity once (brief mode). */
  method VisitContainers(emit: (PodData, ContainerData) -> bool, brief: bool, pod: PodData, order: seq<string>,
                         rows0: seq<Row>, lines0: seq<string>, printed0: set<string>)
    returns (rows: seq<Row>, lines: seq<string>, printed: set<string>, fault: bool)
    requires forall j :: 0 <= j < |order| ==> order[j] in pod.containers
    requires forall x :: x in printed0 <==> x in lines0
    ensures fault ==> exists j :: 0 <= j < |order| && Faults(pod, pod.containers[order[j]])
    ensures !fault ==> ContainersOf(pod, order)
    ensures !fault ==> forall x :: x in printed <==> x in lines
    ensures !fault && brief ==> rows == rows0 && lines == if AnyEmits(emit, pod, order) then AddOnce(lines0, BriefName(pod)) else lines0
    ensures !fault && !brief ==> lines == lines0 && rows == rows0 + PodRows(emit, pod, order)
  {
    rows, lines, printed, fault := rows0, lines0, printed0, false;
    var emitted := false;
    var k := 0;
    while k < |order|
      invariant 0 <= k <= |order|
      invariant Visited(emit, brief, pod, order[..k], rows0, lines0, rows, lines, printed, emitted)
    {
      if Faults(pod, pod.containers[order[k]]) {
        fault := true;
        return;
      }
      rows, lines, printed, emitted := VisitOne(emit, brief, pod, order, k, rows0, lines0, rows, lines, printed, emitted);
      k := k + 1;
    }
    assert order[..k] == order;
  }

  /** One pod of the output loop: its containers in Go's map order (any order, each once),
      then the inner loop over them. */
  method ReportPod(emit: (PodData, ContainerData) -> bool, brief: bool, pod: PodData, rows0: seq<Row>, lines0: seq<string>, printed0: set<string>)
    returns (rows: seq<Row>, lines: seq<string>, printed: set<string>, order: seq<string>, fault: bool)
    requires forall x :: x in printed0 <==> x in lines0
    ensures fault <==> PodFaults(pod)
    ensures !fault ==> Enumerates(order, pod.containers) && ContainersOf(pod, order)
    ensures !fault ==> forall x :: x in printed <==> x in lines
    ensures !fault && brief ==> rows == rows0 && lines == if PodEmits(emit, pod) then AddOnce(lines0, BriefName(pod)) else lines0
    ensures !fault && !brief ==> lines == lines0 && rows == rows0 + PodRows(emit, pod, order)
  {
    order := MapKeys(pod.containers);
    rows, lines, printed, fault := VisitContainers(emit, brief, pod, order, rows0, lines0, printed0);
    if fault {
      var j :| 0 <= j < |order| && Faults(pod, pod.containers[order[j]]);
      assert order[j] in pod.containers;
    } else {
      VisitedAll(emit, pod, order);
    }
  }

  /** The outer output loop: the pods in listing order, stopping at the first pod that
      faults; one visiting order per pod reported. */
  method ReportAll(emit: (PodData, ContainerData) -> bool, brief: bool, podList: seq<PodData>)
    returns (rows: seq<Row>, lines: seq<string>, orders: seq<seq<string>>, fault: bool)
    ensures fault <==> exists i :: 0 <= i < |podList| && PodFaults(podList[i])
    ensures !fault && brief ==> rows == [] && lines == BriefLines(emit, podList)
    ensures !fault && !brief ==> lines == [] && Orders(podList, orders) && rows == TableRows(emit, podList, orders)
  {
    rows, lines, orders, fault := [], [], [], false;
    var printed: set<string> := {};
    var i := 0;
    while i < |podList|
      invariant 0 <= i <= |podList|
      invariant FaultFree(podList[..i])
      invariant forall x :: x in printed <==> x in lines
      invariant Orders(podList[..i], orders)
      invariant brief ==> rows == [] && lines == BriefLines(emit, podList[..i])
      invariant !brief ==> lines == [] && rows == TableRows(emit, podList[..i], orders)
    {
      var order;
      ghost var prevOrders := orders;
      rows, lines, printed, order, fault := ReportPod(emit, brief, podList[i], rows, lines, printed);
      if fault {
        return;
      }
      assert FaultFree(podList[..i + 1]) by {
        assert podList[..i + 1][..i] == podList[..i];
      }
      OrdersStep(podList, i, orders, order);
      orders := orders + [order];
      assert podList[..i + 1][..i] == podList[..i];
      assert orders[..i] == prevOrders;
      i := i + 1;
    }
    assert podList[..|podList|] == podList;
    FaultFreeSpec(podList);
  }

  /** The `compare` subcommand's arguments; Verify updates `filter` in place. */
  class CompareArgs {
    var allPods: bool
    var modes: seq<Args.ModeEnum>
    var invertFilter: bool
    var brief: bool
    var head: int
    var tail: int
    var sort: seq<int>
    var sum: bool
    var filter: CompareFilter

    /** The parsed flags, before Verify: no filter. */
    constructor (allPods: bool, modes: seq<Args.ModeEnum>, invertFilter: bool, brief: bool,
                 head: int, tail: int, sort: seq<int>, sum: bool)
      ensures this.allPods == allPods && this.modes == modes && this.invertFilter == invertFilter
      ensures this.brief == brief && this.head == head && this.tail == tail && this.sort == sort && this.sum == sum
      ensures filter == NoFilter
    {
      this.allPods, this.modes, this.invertFilter, this.brief := allPods, modes, invertFilter, brief;
      this.head, this.tail, this.sort, this.sum := head, tail, sort, sum;
      filter := NoFilter;
    }

    /** `compareArgs.Verify`: fold the modes into the filter, then apply the invert rule.
        It never fails. */
    method Verify() returns (err: Option<string>)
      modifies this`filter
      ensures err == None
      ensures filter == VerifiedFilter(old(filter), modes, invertFilter)
    {
      var i := 0;
      while i < |modes|
        invariant 0 <= i <= |modes|
        invariant filter == ApplyModes(old(filter), modes[..i])
      {
        var mode := modes[i];
        if mode == Args.ModeOff {
          filter := filter.(filter := true, showOff := true);
        } else if mode == Args.ModeInitial {
          filter := filter.(filter := true, showInitial := true);
        } else if mode == Args.ModeAuto {
          filter := filter.(filter := true, showAuto := true);
        }
        assert modes[..i + 1][..i] == modes[..i];
        i := i + 1;
      }
      assert modes[..|modes|] == modes;
      if invertFilter && !filter.filter {
        filter := CompareFilter(true, true, true, true);
      }
      err := None;
    }

    function Selected(): Selection
      reads this
    {
      Selection(allPods, invertFilter, filter)
    }

    /** `compareArgs.Exec` on the two listings: index the VPAs, collect the running pods,
        then, pod by pod and container by container in map order, fault on a zero
        recommendation, or write the emitted rows (table) or brief identities (brief). */
    method Exec(pods: seq<Pod>, vpaItems: seq<Vpa>)
      returns (rows: seq<Row>, lines: seq<string>, orders: seq<seq<string>>, fault: bool, calls: seq<RenderCall>)
      ensures !fault ==> calls == if brief then [] else RenderCalls(head, tail, sort)
      ensures var podList := PodList(pods, VpaIndex(vpaItems));
              && (fault <==> exists i :: 0 <= i < |podList| && PodFaults(podList[i]))
              && (!fault && brief ==> rows == [] && lines == BriefLines(EmitOf(Selected()), podList))
              && (!fault && !brief ==>
                    lines == [] && Orders(podList, orders) && rows == TableRows(EmitOf(Selected()), podList, orders))
    {
      var vpas := IndexVpas(vpaItems);
      var podList := CollectPods(pods, vpas);
      var emit := EmitOf(Selection(allPods, invertFilter, filter));
      calls := [];
      rows, lines, orders, fault := ReportAll(emit, brief, podList);
      if fault {
        return;
      }
      if !brief {
        calls := PlanRender(head, tail, sort);
      }
    }
  }
}
