/** The comparison of the older top-level compare.go. Its indexing, owner normalisation,
    join and diff code is the same as internal/app/compare.go's and is shared with that
    module; its emit decision differs: there is no invert flag and no brief mode, and a pod
    without a VPA passes the mode filter. */
module LegacyCompare {
  import opened Collections
  import Compare
  import LegacyArgs

  /** `show` of compare.go: with filtering on, a matched pod passes only if its VPA mode is
      selected; a pod without a VPA always passes. */
  predicate LegacyShow(f: Compare.CompareFilter, pod: Compare.PodData)
  {
    if f.filter && pod.vpa.Some? then Compare.ModeSelected(f, pod.vpa.value.mode) else true
  }

  /** A row is written iff (AllPods or haveVPA) and show. */
  predicate LegacyEmits(allPods: bool, f: Compare.CompareFilter, pod: Compare.PodData, c: Compare.ContainerData)
  {
    (allPods || Compare.HaveVpa(pod, c)) && LegacyShow(f, pod)
  }

  function LegacyEmitOf(allPods: bool, f: Compare.CompareFilter): (Compare.PodData, Compare.ContainerData) -> bool
  {
    (pod: Compare.PodData, c: Compare.ContainerData) => LegacyEmits(allPods, f, pod, c)
  }

  /** The decision table after the legacy Verify with known modes: no modes writes every
      matched row (every row with all-pods); with modes, a matched pod's rows need a selected
      mode and a pod without a VPA passes whenever all-pods lets it in. */
  lemma LegacyDecisionTable(modes: seq<string>, allPods: bool, pod: Compare.PodData, c: Compare.ContainerData)
    requires LegacyArgs.FirstUnknown(modes) == |modes|
    ensures var f := Compare.ApplyModes(Compare.NoFilter, LegacyArgs.Parsed(modes));
            && (modes == [] ==> (LegacyEmits(allPods, f, pod, c) <==> allPods || Compare.HaveVpa(pod, c)))
            && (modes != [] && pod.vpa.None? ==> (LegacyEmits(allPods, f, pod, c) <==> allPods))
            && (modes != [] && pod.vpa.Some? ==>
                  (LegacyEmits(allPods, f, pod, c) <==>
                     (allPods || Compare.HaveVpa(pod, c)) && Compare.ModeSelected(f, pod.vpa.value.mode)))
  {
    LegacyArgs.LegacyVerifyFromNone(modes);
  }

  /** Where the two engines part: with all-pods and a mode filter, a pod without a VPA is
      written by compare.go but not by internal/app/compare.go; with no invert, they agree
      on every other row. */
  lemma LegacyVersusCurrent(allPods: bool, f: Compare.CompareFilter, pod: Compare.PodData, c: Compare.ContainerData)
    ensures f.filter && allPods && pod.vpa.None? ==>
              LegacyEmits(allPods, f, pod, c) && !Compare.Emits(Compare.Selection(allPods, false, f), pod, c)
    ensures LegacyEmits(allPods, f, pod, c) <==>
              Compare.Emits(Compare.Selection(allPods, false, f), pod, c) || (f.filter && allPods && pod.vpa.None?)
  {
  }

  /** `compare` of compare.go on the two listings: the shared index and pod loops, then the
      output loop with the legacy decision, faulting on a zero recommendation, followed by
      the Head/Tail/Sort requests. */
  method LegacyExec(args: LegacyArgs.LegacyCompareArgs, pods: seq<Compare.Pod>, vpaItems: seq<Compare.Vpa>)
    returns (rows: seq<Compare.Row>, orders: seq<seq<string>>, fault: bool, calls: seq<Compare.RenderCall>)
    ensures var podList := Compare.PodList(pods, Compare.VpaIndex(vpaItems));
            && (fault <==> exists i :: 0 <= i < |podList| && Compare.PodFaults(podList[i]))
            && (!fault ==>
                  && Compare.Orders(podList, orders)
                  && rows == Compare.TableRows(LegacyEmitOf(args.allPods, args.filter), podList, orders)
                  && calls == Compare.RenderCalls(args.head, args.tail, args.sort))
  {
    var vpas := Compare.IndexVpas(vpaItems);
    var podList := Compare.CollectPods(pods, vpas);
    var emit := LegacyEmitOf(args.allPods, args.filter);
    rows, orders, fault, calls := [], [], false, [];
    var i := 0;
    while i < |podList|
      invariant 0 <= i <= |podList|
      invariant forall j :: 0 <= j < i ==> !Compare.PodFaults(podList[j])
      invariant Compare.Orders(podList[..i], orders)
      invariant rows == Compare.TableRows(emit, podList[..i], orders)
    {
      var order;
      var lines, printed;
      ghost var prevOrders := orders;
      rows, lines, printed, order, fault := Compare.ReportPod(emit, false, podList[i], rows, [], {});
      if fault {
        return;
      }
      Compare.OrdersStep(podList, i, orders, order);
      orders := orders + [order];
      assert podList[..i + 1][..i] == podList[..i];
      assert orders[..i] == prevOrders;
      i := i + 1;
    }
    assert podList[..|podList|] == podList;
    calls := Compare.PlanRender(args.head, args.tail, args.sort);
  }
}
