/** The resource metrics provider: CPU and memory usage of pods (per
    container) and of nodes, each read from the backend by a pair of
    configured queries. Pods are queried one namespace at a time and a
    namespace whose queries fail is skipped; nodes are queried all at once and
    a failure fails the whole call. */
module ResourceMetrics {
  import opened Wrappers
  import opened Model
  import opened Foreign
  import opened Config
  import opened ResourceConversion
  import opened MetricsQueries
  import MetricNaming

  /** The two resources a usage list reports. */
  datatype ResourceName = Cpu | Memory

  /** A usage list: a quantity per resource, in thousandths. */
  type ResourceList = map<ResourceName, int>

  datatype ContainerMetrics = ContainerMetrics(name: string, usage: ResourceList)

  /** When a usage was measured, and over which window. */
  datatype TimeInfo = TimeInfo(timestamp: Time, window: Duration)

  /** The zero `TimeInfo` an entry keeps when nothing is assigned to it. */
  const ZeroTimeInfo: TimeInfo := TimeInfo(ZeroTime, 0)

  /** The samples of one query, grouped by the value of the resource label. */
  type QueryResults = map<string, seq<Sample>>

  /** The answers of both queries for one namespace, or the error of the
      first that failed; on an error both groupings are nil. */
  datatype NsQueryResults = NsQueryResults(namespace: string, cpu: QueryResults, mem: QueryResults, err: Option<Error>)

  /** Every group holds at least one sample. */
  predicate Grouped(q: QueryResults)
  {
    forall k :: k in q ==> |q[k]| >= 1
  }

  // ---------------------------------------------------------------------------
  // The configured queries of one resource

  /** The label outcomes a query of `resource` depends on: the label of the
      namespaces resource and the label of `resource` itself. */
  datatype LabelView = LabelView(namespaceLabel: Result<LabelName, Error>, resourceLabel: Result<LabelName, Error>)

  /** A converter with the container and node queries built on it, and the
      label that names a sample's container. */
  datatype ResourceQuery = ResourceQuery(converter: ResourceConverter, contQuery: MetricsQuery, nodeQuery: MetricsQuery,
                                         containerLabel: string)
  {
    /** Both queries ask the converter of this rule. */
    ghost predicate Valid()
      reads converter
    {
      && converter.Valid()
      && contQuery.converter == converter
      && nodeQuery.converter == converter
    }

    /** The label outcomes of the converter that a query of `resource` uses. */
    function View(resource: GroupResource): LabelView
      reads converter
    {
      LabelView(converter.LabelOutcome(NamespacesResource), converter.LabelOutcome(resource))
    }
  }

  /** A resource rule yields queries: its resource mapping gives a converter
      and both query templates parse. */
  predicate QueryBuilds(re: RegexEngine, te: TemplateEngine, mapper: Mapper, cfg: ResourceRule)
  {
    && MetricNaming.ConverterBuilds(re, te, mapper, cfg.resources)
    && te.parses(cfg.containerQuery)
    && te.parses(cfg.nodeQuery)
  }

  /** `newResourceQuery`: the converter of the rule's resource mapping, then the
      container query, then the node query; the first failure is reported,
      wrapped to say which part failed. */
  method NewResourceQuery(re: RegexEngine, te: TemplateEngine, mapper: Mapper, cfg: ResourceRule)
    returns (r: Result<ResourceQuery, Error>)
    requires re.Valid()
    ensures r.Ok? ==>
      && fresh(r.value.converter) && r.value.Valid()
      && r.value.contQuery == MetricsQuery(r.value.converter, cfg.containerQuery, te)
      && r.value.nodeQuery == MetricsQuery(r.value.converter, cfg.nodeQuery, te)
      && r.value.containerLabel == cfg.containerLabel
      && r.value.converter.mapper == mapper
    ensures r.Ok? ==> te.parses(cfg.containerQuery) && te.parses(cfg.nodeQuery)
    ensures r.Err? ==>
      || r.error.ConverterBuildError?
      || (!te.parses(cfg.containerQuery) && r.error == ContainerQueryError(TemplateParseError(cfg.containerQuery)))
      || (te.parses(cfg.containerQuery) && !te.parses(cfg.nodeQuery) &&
          r.error == NodeQueryError(TemplateParseError(cfg.nodeQuery)))
    ensures r.Ok? <==> QueryBuilds(re, te, mapper, cfg)
    ensures !MetricNaming.ConverterBuilds(re, te, mapper, cfg.resources) ==>
      r.Err? && r.error.ConverterBuildError? && MetricNaming.ConverterError(re, te, mapper, cfg.resources, r.error.cause)
    ensures MetricNaming.ConverterBuilds(re, te, mapper, cfg.resources) && !te.parses(cfg.containerQuery) ==>
      r == Err(ContainerQueryError(TemplateParseError(cfg.containerQuery)))
    ensures MetricNaming.ConverterBuilds(re, te, mapper, cfg.resources) && te.parses(cfg.containerQuery) && !te.parses(cfg.nodeQuery) ==>
      r == Err(NodeQueryError(TemplateParseError(cfg.nodeQuery)))
  {
    var converter := ResourceConverter.NewResourceConverter(re, te, mapper, cfg.resources.template, cfg.resources.overrides);
    if converter.Err? {
      return Err(ConverterBuildError(converter.error));
    }
    var contQuery := NewMetricsQuery(te, cfg.containerQuery, converter.value);
    if contQuery.Err? {
      return Err(ContainerQueryError(contQuery.error));
    }
    var nodeQuery := NewMetricsQuery(te, cfg.nodeQuery, converter.value);
    if nodeQuery.Err? {
      return Err(NodeQueryError(nodeQuery.error));
    }
    r := Ok(ResourceQuery(converter.value, contQuery.value, nodeQuery.value, cfg.containerLabel));
  }

  // ---------------------------------------------------------------------------
  // One query: build, run, group

  /** The non-nil samples of `v` whose resource label reads `k`, in order. */
  function SamplesWith(v: Vector, lbl: LabelName, k: string): (r: seq<Sample>)
    ensures forall s :: s in r <==> Some(s) in v && LabelValueOf(s.metric, lbl) == k
  {
    if |v| == 0 then []
    else
      var rest := SamplesWith(v[..|v| - 1], lbl, k);
      assert v == v[..|v| - 1] + [v[|v| - 1]];
      match v[|v| - 1]
      case None => rest
      case Some(s) => if LabelValueOf(s.metric, lbl) == k then rest + [s] else rest
  }

  /** The grouping loop of `runQuery`: each non-nil sample is appended to the
      group of its resource label value. */
  function GroupByLabel(v: Vector, lbl: LabelName): (m: QueryResults)
    ensures Grouped(m)
  {
    if |v| == 0 then map[]
    else
      var m := GroupByLabel(v[..|v| - 1], lbl);
      match v[|v| - 1]
      case None => m
      case Some(s) =>
        var key := LabelValueOf(s.metric, lbl);
        m[key := (if key in m then m[key] else []) + [s]]
  }

  /** There is a group for exactly the label values some non-nil sample has,
      and each group is the subsequence of the samples with that value, in
      the order the backend returned them. */
  lemma {:induction false} GroupByLabelFilters(v: Vector, lbl: LabelName, k: string)
    ensures var m := GroupByLabel(v, lbl);
      && (k in m <==> SamplesWith(v, lbl, k) != [])
      && (k in m ==> m[k] == SamplesWith(v, lbl, k))
  {
    if |v| > 0 {
      GroupByLabelFilters(v[..|v| - 1], lbl, k);
    }
  }

  /** `GroupByLabelFilters` for every label value at once. */
  lemma GroupByLabelAll(v: Vector, lbl: LabelName)
    ensures forall k :: k in GroupByLabel(v, lbl) <==> SamplesWith(v, lbl, k) != []
    ensures forall k :: k in GroupByLabel(v, lbl) ==> GroupByLabel(v, lbl)[k] == SamplesWith(v, lbl, k)
  {
    forall k ensures k in GroupByLabel(v, lbl) <==> SamplesWith(v, lbl, k) != [] {
      GroupByLabelFilters(v, lbl, k);
    }
    forall k | k in GroupByLabel(v, lbl) ensures GroupByLabel(v, lbl)[k] == SamplesWith(v, lbl, k) {
      GroupByLabelFilters(v, lbl, k);
    }
  }

  /** The query `runQuery` builds: for nodes the node query with no extra
      grouping, for anything else the container query grouped also by the
      container label; `Build` is asked for the series "". */
  function BuiltQuery(q: ResourceQuery, view: LabelView, resource: GroupResource, namespace: string, names: seq<string>)
    : (r: Result<Selector, Error>)
    requires |names| >= 1
    ensures r.Ok? ==> view.resourceLabel.Ok? && (namespace == "" || view.namespaceLabel.Ok?)
    ensures r.Ok? ==>
      var mq := if resource == NodesResource then q.nodeQuery else q.contQuery;
      var ns := if namespace != "" then Some((view.namespaceLabel.value, namespace)) else None;
      var args := QueryArgsFor("", ns, view.resourceLabel.value, if resource == NodesResource then [] else [q.containerLabel], names);
      && Some(r.value) == mq.te.executeQuery(mq.template, args)
      && args.labelValuesByName[view.resourceLabel.value] == names
      && args.groupBySlice ==
         (if resource == NodesResource then [view.resourceLabel.value] else [view.resourceLabel.value, q.containerLabel])
  {
    if resource == NodesResource then
      BuildOutcome(q.nodeQuery.te, q.nodeQuery.template, view.namespaceLabel, view.resourceLabel, "", namespace, [], names)
    else
      BuildOutcome(q.contQuery.te, q.contQuery.template, view.namespaceLabel, view.resourceLabel, "", namespace,
                   [q.containerLabel], names)
  }

  /** The vector the backend answers a built query with, when it answers
      without error, with the vector type and a non-nil vector. */
  function VectorFor(prom: Client, now: Time, built: Result<Selector, Error>): Option<Vector>
  {
    if built.Err? then None
    else match prom.query(now, built.value)
      case Err(_) => None
      case Ok(raw) => if raw.resultType == ValVector then raw.vector else None
  }

  /** What `runQuery` answers, given the converter's label outcomes. */
  function RunAnswer(prom: Client, now: Time, q: ResourceQuery, view: LabelView, resource: GroupResource,
                     namespace: string, names: seq<string>): (r: Result<QueryResults, Error>)
    requires |names| >= 1
    ensures r.Ok? <==> VectorFor(prom, now, BuiltQuery(q, view, resource, namespace, names)).Some?
    ensures r.Ok? ==> Grouped(r.value)
    ensures var built := BuiltQuery(q, view, resource, namespace, names);
      built.Err? ==> r == Err(QueryConstructionError(built.error))
    ensures var built := BuiltQuery(q, view, resource, namespace, names);
      built.Ok? && prom.query(now, built.value).Err? ==> r == Err(QueryExecutionError(prom.query(now, built.value).error))
    ensures var built := BuiltQuery(q, view, resource, namespace, names);
      built.Ok? && prom.query(now, built.value).Ok? && VectorFor(prom, now, built).None? ==>
        r == Err(NonVectorResult(prom.query(now, built.value).value.resultType))
  {
    match BuiltQuery(q, view, resource, namespace, names)
    case Err(e) => Err(QueryConstructionError(e))
    case Ok(query) =>
      match prom.query(now, query)
      case Err(e) => Err(QueryExecutionError(e))
      case Ok(raw) =>
        if raw.resultType != ValVector || raw.vector.None? then Err(NonVectorResult(raw.resultType))
        else match view.resourceLabel
          case Err(e) => Err(ResourceLabelError(resource, e))
          case Ok(lbl) => Ok(GroupByLabel(raw.vector.value, lbl))
  }

  /** A successful query groups the non-nil samples of the backend's vector by
      the value of the resource label: a group per value that occurs, holding
      the samples with that value in their original order. */
  lemma RunAnswerGroups(prom: Client, now: Time, q: ResourceQuery, view: LabelView, resource: GroupResource,
                        namespace: string, names: seq<string>)
    requires |names| >= 1
    ensures var r := RunAnswer(prom, now, q, view, resource, namespace, names);
      r.Ok? ==>
        var vec := VectorFor(prom, now, BuiltQuery(q, view, resource, namespace, names)).value;
        && view.resourceLabel.Ok?
        && (forall k :: k in r.value <==> exists s :: Some(s) in vec && LabelValueOf(s.metric, view.resourceLabel.value) == k)
        && (forall k :: k in r.value ==> r.value[k] == SamplesWith(vec, view.resourceLabel.value, k))
  {
    var r := RunAnswer(prom, now, q, view, resource, namespace, names);
    if r.Ok? {
      var vec := VectorFor(prom, now, BuiltQuery(q, view, resource, namespace, names)).value;
      var lbl := view.resourceLabel.value;
      GroupByLabelAll(vec, lbl);
      forall k ensures k in r.value <==> exists s :: Some(s) in vec && LabelValueOf(s.metric, lbl) == k {
        if k !in r.value {
          assert SamplesWith(vec, lbl, k) == [];
        } else {
          assert SamplesWith(vec, lbl, k)[0] in SamplesWith(vec, lbl, k);
        }
      }
    }
  }

  /** What `queryBoth` answers: both queries run; a CPU failure is reported
      before a memory failure. */
  function BothAnswer(prom: Client, now: Time, cpu: ResourceQuery, mem: ResourceQuery, cpuView: LabelView, memView: LabelView,
                      resource: GroupResource, namespace: string, names: seq<string>): (r: NsQueryResults)
    requires |names| >= 1
    ensures r.namespace == namespace
    ensures var c := RunAnswer(prom, now, cpu, cpuView, resource, namespace, names);
      var m := RunAnswer(prom, now, mem, memView, resource, namespace, names);
      && (r.err.None? <==> c.Ok? && m.Ok?)
      && (c.Err? ==> r.err == Some(CpuFetchError(c.error)))
      && (c.Ok? && m.Err? ==> r.err == Some(MemoryFetchError(m.error)))
      && (r.err.None? ==> r.cpu == c.value && r.mem == m.value)
    ensures r.err.None? ==> Grouped(r.cpu) && Grouped(r.mem)
  {
    var c := RunAnswer(prom, now, cpu, cpuView, resource, namespace, names);
    var m := RunAnswer(prom, now, mem, memView, resource, namespace, names);
    if c.Err? then NsQueryResults(namespace, map[], map[], Some(CpuFetchError(c.error)))
    else if m.Err? then NsQueryResults(namespace, map[], map[], Some(MemoryFetchError(m.error)))
    else NsQueryResults(namespace, c.value, m.value, None)
  }

  // ---------------------------------------------------------------------------
  // Pods

  /** The names of the pods of namespace `ns`, in request order. */
  function NamesIn(pods: seq<NamespacedName>, ns: string): (r: seq<string>)
    ensures forall n :: n in r <==> NamespacedName(ns, n) in pods
  {
    if |pods| == 0 then []
    else
      var rest := NamesIn(pods[..|pods| - 1], ns);
      var last := pods[|pods| - 1];
      assert pods == pods[..|pods| - 1] + [last];
      if last.namespace == ns then rest + [last.name] else rest
  }

  /** The grouping loop of `GetContainerMetrics`: each pod's name is appended
      to the list of its namespace. */
  function PodsByNamespace(pods: seq<NamespacedName>): (m: map<string, seq<string>>)
    ensures forall ns :: ns in m ==> |m[ns]| >= 1
  {
    if |pods| == 0 then map[]
    else
      var m := PodsByNamespace(pods[..|pods| - 1]);
      var last := pods[|pods| - 1];
      m[last.namespace := (if last.namespace in m then m[last.namespace] else []) + [last.name]]
  }

  /** Each namespace some pod is in gets exactly the names of its pods, in
      request order, and no other namespace gets a list. */
  lemma {:induction false} PodsByNamespaceOrder(pods: seq<NamespacedName>, ns: string)
    ensures var m := PodsByNamespace(pods);
      && (ns in m <==> NamesIn(pods, ns) != [])
      && (ns in m ==> m[ns] == NamesIn(pods, ns))
  {
    if |pods| > 0 {
      PodsByNamespaceOrder(pods[..|pods| - 1], ns);
    }
  }

  /** Both answers of every namespace. */
  function AnswersByNs(prom: Client, now: Time, cpu: ResourceQuery, mem: ResourceQuery, cpuView: LabelView, memView: LabelView,
                       byNs: map<string, seq<string>>): (a: map<string, NsQueryResults>)
    requires forall ns :: ns in byNs ==> |byNs[ns]| >= 1
    ensures a.Keys == byNs.Keys
    ensures forall ns :: ns in a ==> a[ns].err.None? ==> Grouped(a[ns].cpu) && Grouped(a[ns].mem)
  {
    map ns | ns in byNs :: BothAnswer(prom, now, cpu, mem, cpuView, memView, PodsResource, ns, byNs[ns])
  }

  /** The answers without an error. */
  function Succeeded(answers: map<string, NsQueryResults>): (r: map<string, NsQueryResults>)
    ensures forall ns :: ns in r <==> ns in answers && answers[ns].err.None?
    ensures forall ns :: ns in r ==> r[ns] == answers[ns]
  {
    map ns | ns in answers && answers[ns].err.None? :: answers[ns]
  }

  /** The namespaces whose queries both succeeded, each with its answers; a
      namespace with a failed query is dropped. */
  function ResultsByNs(prom: Client, now: Time, cpu: ResourceQuery, mem: ResourceQuery, cpuView: LabelView, memView: LabelView,
                       byNs: map<string, seq<string>>): (r: map<string, NsQueryResults>)
    requires forall ns :: ns in byNs ==> |byNs[ns]| >= 1
    ensures forall ns :: ns in r ==> r[ns].err.None? && Grouped(r[ns].cpu) && Grouped(r[ns].mem)
  {
    Succeeded(AnswersByNs(prom, now, cpu, mem, cpuView, memView, byNs))
  }

  /** The answers gathered after the namespaces `done` were queried. */
  ghost predicate Collected(answers: map<string, NsQueryResults>, done: seq<string>, results: map<string, NsQueryResults>)
  {
    && (forall ns :: ns in results <==> ns in done && ns in answers && answers[ns].err.None?)
    && (forall ns :: ns in results ==> results[ns] == answers[ns])
  }

  /** Querying one more namespace keeps its answers exactly when both
      queries succeed. */
  lemma CollectedStep(answers: map<string, NsQueryResults>, order: seq<string>, i: nat,
                      results: map<string, NsQueryResults>)
    requires i < |order| && order[i] in answers && Collected(answers, order[..i], results)
    ensures var ns := order[i];
      Collected(answers, order[..i + 1], if answers[ns].err.Some? then results else results[ns := answers[ns]])
  {
    assert order[..i + 1] == order[..i] + [order[i]];
  }

  /** Once every namespace has been queried, the answers gathered are the
      successful ones. */
  lemma CollectedAll(answers: map<string, NsQueryResults>, done: seq<string>, results: map<string, NsQueryResults>)
    requires Collected(answers, done, results) && forall ns :: ns in answers ==> ns in done
    ensures results == Succeeded(answers)
  {
  }

  /** Index of the last sample whose label `lbl` reads `name`, or -1. */
  function LastWith(samples: seq<Sample>, lbl: LabelName, name: string): (i: int)
    ensures -1 <= i < |samples|
    ensures i >= 0 ==> LabelValueOf(samples[i].metric, lbl) == name
    ensures forall j :: i < j < |samples| ==> LabelValueOf(samples[j].metric, lbl) != name
  {
    if |samples| == 0 then -1
    else if LabelValueOf(samples[|samples| - 1].metric, lbl) == name then |samples| - 1
    else LastWith(samples[..|samples| - 1], lbl, name)
  }

  /** One loop of `assignForPod`: each sample sets the quantity `rn` of the
      container its label `lbl` names, creating the container if needed. */
  function Merged(cm: map<string, ResourceList>, samples: seq<Sample>, lbl: LabelName, rn: ResourceName)
    : map<string, ResourceList>
  {
    if |samples| == 0 then cm
    else
      var prev := Merged(cm, samples[..|samples| - 1], lbl, rn);
      var s := samples[|samples| - 1];
      var name := LabelValueOf(s.metric, lbl);
      prev[name := (if name in prev then prev[name] else map[])[rn := Milli(s.value)]]
  }

  /** After the loop, a container exists for every name some sample has; its
      quantity `rn` is the value of the last such sample, and a container no
      sample names is left as it was. */
  lemma {:induction false} MergedUsage(cm: map<string, ResourceList>, samples: seq<Sample>, lbl: LabelName,
                                       rn: ResourceName, name: string)
    ensures var r := Merged(cm, samples, lbl, rn);
      var i := LastWith(samples, lbl, name);
      && (name in r <==> name in cm || i >= 0)
      && (i >= 0 ==> r[name] == (if name in cm then cm[name] else map[])[rn := Milli(samples[i].value)])
      && (i < 0 && name in cm ==> r[name] == cm[name])
  {
    if |samples| > 0 {
      var n := |samples| - 1;
      MergedUsage(cm, samples[..n], lbl, rn, name);
      if LabelValueOf(samples[n].metric, lbl) != name {
        assert LastWith(samples, lbl, name) == LastWith(samples[..n], lbl, name);
      }
    }
  }

  /** The containers of a pod: its CPU samples merged first, then its memory
      samples. */
  function PodContainers(cpus: seq<Sample>, mems: seq<Sample>, cpuLbl: LabelName, memLbl: LabelName)
    : map<string, ResourceList>
  {
    Merged(Merged(map[], cpus, cpuLbl, Cpu), mems, memLbl, Memory)
  }

  /** Exactly one container per container name among the CPU and memory
      samples; it has a CPU quantity iff some CPU sample names it, the last
      such sample's, and likewise for memory. */
  lemma PodContainersUsage(cpus: seq<Sample>, mems: seq<Sample>, cpuLbl: LabelName, memLbl: LabelName, name: string)
    ensures var r := PodContainers(cpus, mems, cpuLbl, memLbl);
      var i := LastWith(cpus, cpuLbl, name);
      var j := LastWith(mems, memLbl, name);
      && (name in r <==> i >= 0 || j >= 0)
      && (name in r ==> (Cpu in r[name] <==> i >= 0) && (Memory in r[name] <==> j >= 0))
      && (name in r && i >= 0 ==> r[name][Cpu] == Milli(cpus[i].value))
      && (name in r && j >= 0 ==> r[name][Memory] == Milli(mems[j].value))
  {
    MergedUsage(map[], cpus, cpuLbl, Cpu, name);
    MergedUsage(Merged(map[], cpus, cpuLbl, Cpu), mems, memLbl, Memory, name);
  }

  /** The earliest of `t` and the samples' timestamps, found by keeping the
      current one unless a sample is strictly before it. */
  function Earliest(t: Time, samples: seq<Sample>): (e: Time)
    ensures e <= t
    ensures forall i :: 0 <= i < |samples| ==> e <= samples[i].timestamp
    ensures e == t || exists i :: 0 <= i < |samples| && e == samples[i].timestamp
  {
    if |samples| == 0 then t
    else
      var n := |samples| - 1;
      var p := Earliest(t, samples[..n]);
      assert forall i :: 0 <= i < n ==> samples[..n][i] == samples[i];
      if samples[n].timestamp < p then samples[n].timestamp else p
  }

  /** What `assignForPod` fills in for a pod: its timestamp and containers. */
  datatype PodMetrics = PodMetrics(time: TimeInfo, containers: map<string, ResourceList>)

  /** What `assignForPod` assigns to a pod, or `None` when the pod is left
      empty because its namespace, its CPU or its memory result is missing. */
  function PodAnswer(cpuLbl: LabelName, memLbl: LabelName, window: Duration, pod: NamespacedName,
                     results: map<string, NsQueryResults>): (r: Option<PodMetrics>)
    ensures r.Some? <==>
      pod.namespace in results && pod.name in results[pod.namespace].cpu && pod.name in results[pod.namespace].mem
    ensures r.Some? ==>
      var t := r.value.time;
      var cpus := results[pod.namespace].cpu[pod.name];
      var mems := results[pod.namespace].mem[pod.name];
      && t.window == window
      && (forall i :: 0 <= i < |cpus| ==> t.timestamp <= cpus[i].timestamp)
      && (forall i :: 0 <= i < |mems| ==> t.timestamp <= mems[i].timestamp)
      && (|| t.timestamp == Latest
          || (exists i :: 0 <= i < |cpus| && t.timestamp == cpus[i].timestamp)
          || (exists i :: 0 <= i < |mems| && t.timestamp == mems[i].timestamp))
  {
    if pod.namespace !in results then None
    else
      var nsRes := results[pod.namespace];
      if pod.name !in nsRes.cpu then None
      else if pod.name !in nsRes.mem then None
      else
        var cpus := nsRes.cpu[pod.name];
        var mems := nsRes.mem[pod.name];
        Some(PodMetrics(TimeInfo(Earliest(Earliest(Latest, cpus), mems), window), PodContainers(cpus, mems, cpuLbl, memLbl)))
  }

  /** A listing of the containers `cm`: one entry per container, each with its
      name and usage. */
  predicate Lists(list: seq<ContainerMetrics>, cm: map<string, ResourceList>)
  {
    && (forall k :: 0 <= k < |list| ==> list[k].name in cm && list[k].usage == cm[list[k].name])
    && (forall name :: name in cm ==> exists k :: 0 <= k < |list| && list[k].name == name)
    && (forall j, k :: 0 <= j < k < |list| ==> list[j].name != list[k].name)
  }

  /** What a pod's entries hold after `assignForPod`. */
  predicate Assigned(answer: Option<PodMetrics>, time: TimeInfo, list: seq<ContainerMetrics>)
  {
    match answer
    case None => time == ZeroTimeInfo && list == []
    case Some(pm) => time == pm.time && Lists(list, pm.containers)
  }

  // ---------------------------------------------------------------------------
  // Nodes

  /** What `GetNodeMetrics` assigns to a node: a zero entry when its CPU or
      memory result is missing; otherwise the first sample of each, stamped
      with the memory sample's time and the provider's window when that is
      strictly earlier, else with the CPU sample's time and one minute. */
  function NodeAnswer(window: Duration, res: NsQueryResults, node: string): (r: (TimeInfo, ResourceList))
    requires Grouped(res.cpu) && Grouped(res.mem)
    ensures node !in res.cpu || node !in res.mem ==> r == (ZeroTimeInfo, map[])
    ensures node in res.cpu && node in res.mem ==>
      var c := res.cpu[node][0];
      var m := res.mem[node][0];
      && r.1 == map[Cpu := Milli(c.value), Memory := Milli(m.value)]
      && r.0.timestamp <= c.timestamp && r.0.timestamp <= m.timestamp
      && (r.0.timestamp == c.timestamp || r.0.timestamp == m.timestamp)
      && r.0.window == (if m.timestamp < c.timestamp then window else OneMinute)
  {
    if node !in res.cpu || node !in res.mem then (ZeroTimeInfo, map[])
    else
      var rawMem := res.mem[node][0];
      var rawCpu := res.cpu[node][0];
      var usage := map[Cpu := Milli(rawCpu.value), Memory := Milli(rawMem.value)];
      if rawMem.timestamp < rawCpu.timestamp then (TimeInfo(rawMem.timestamp, window), usage)
      else (TimeInfo(rawCpu.timestamp, OneMinute), usage)
  }

  // ---------------------------------------------------------------------------
  // Loops with no state of the provider

  /** The grouping loop of `runQuery`. */
  method GroupSamples(v: Vector, lbl: LabelName) returns (res: QueryResults)
    ensures res == GroupByLabel(v, lbl)
  {
    res := map[];
    for i := 0 to |v|
      invariant res == GroupByLabel(v[..i], lbl)
    {
      assert v[..i + 1][..i] == v[..i];
      if v[i].Some? {
        var key := LabelValueOf(v[i].value.metric, lbl);
        var group := if key in res then res[key] else [];
        res := res[key := group + [v[i].value]];
      }
    }
    assert v[..|v|] == v;
  }

  /** The grouping loop of `GetContainerMetrics`. */
  method GroupPods(pods: seq<NamespacedName>) returns (byNs: map<string, seq<string>>)
    ensures byNs == PodsByNamespace(pods)
  {
    byNs := map[];
    for i := 0 to |pods|
      invariant byNs == PodsByNamespace(pods[..i])
    {
      assert pods[..i + 1][..i] == pods[..i];
      var names := if pods[i].namespace in byNs then byNs[pods[i].namespace] else [];
      byNs := byNs[pods[i].namespace := names + [pods[i].name]];
    }
    assert pods[..|pods|] == pods;
  }

  /** One more sample: merged into its container, and lowering the earliest
      timestamp when it is earlier. */
  lemma AddSampleStep(cm: map<string, ResourceList>, earliest: Time, samples: seq<Sample>, lbl: LabelName,
                      rn: ResourceName, i: nat)
    requires i < |samples|
    ensures var prev, s := Merged(cm, samples[..i], lbl, rn), samples[i];
      var name := LabelValueOf(s.metric, lbl);
      var present := if name in prev then prev else prev[name := map[]];
      Merged(cm, samples[..i + 1], lbl, rn) == present[name := present[name][rn := Milli(s.value)]]
    ensures var e := Earliest(earliest, samples[..i]);
      Earliest(earliest, samples[..i + 1]) == if samples[i].timestamp < e then samples[i].timestamp else e
  {
    assert samples[..i + 1][..i] == samples[..i];
  }

  /** One sample loop of `assignForPod`: the containers are merged and the
      earliest timestamp lowered. */
  method AddSamples(cm: map<string, ResourceList>, earliest: Time, samples: seq<Sample>, lbl: LabelName, rn: ResourceName)
    returns (merged: map<string, ResourceList>, ts: Time)
    ensures merged == Merged(cm, samples, lbl, rn)
    ensures ts == Earliest(earliest, samples)
  {
    merged, ts := cm, earliest;
    for i := 0 to |samples|
      invariant merged == Merged(cm, samples[..i], lbl, rn)
      invariant ts == Earliest(earliest, samples[..i])
    {
      AddSampleStep(cm, earliest, samples, lbl, rn, i);
      var s := samples[i];
      var name := LabelValueOf(s.metric, lbl);
      if name !in merged {
        merged := merged[name := map[]];
      }
      merged := merged[name := merged[name][rn := Milli(s.value)]];
      if s.timestamp < ts {
        ts := s.timestamp;
      }
    }
    assert samples[..|samples|] == samples;
  }

  /** The final loop of `assignForPod`: the containers in map order. */
  method ListContainers(cm: map<string, ResourceList>) returns (list: seq<ContainerMetrics>)
    ensures Lists(list, cm)
  {
    var order := Enumerate(cm.Keys);
    list := [];
    for i := 0 to |order|
      invariant |list| == i
      invariant forall k :: 0 <= k < i ==> list[k] == ContainerMetrics(order[k], cm[order[k]])
    {
      list := list + [ContainerMetrics(order[i], cm[order[i]])];
    }
    forall name | name in cm ensures exists k :: 0 <= k < |list| && list[k].name == name {
      var k :| 0 <= k < |order| && order[k] == name;
      assert list[k].name == name;
    }
  }

  // ---------------------------------------------------------------------------
  // The provider

  class ResourceProvider {
    const prom: Client
    const cpu: ResourceQuery
    const mem: ResourceQuery
    const window: Duration

    /** Both rules' queries ask their own converter. */
    ghost predicate Valid()
      reads cpu.converter, mem.converter
    {
      cpu.Valid() && mem.Valid()
    }

    constructor (prom: Client, cpu: ResourceQuery, mem: ResourceQuery, window: Duration)
      ensures this.prom == prom && this.cpu == cpu && this.mem == mem && this.window == window
    {
      this.prom := prom;
      this.cpu := cpu;
      this.mem := mem;
      this.window := window;
    }

    /** `runQuery`: the query is built and run; a construction failure, a
        backend failure, an answer that is not a non-nil vector and a missing
        resource label are errors; otherwise the samples are grouped. */
    method RunQuery(now: Time, q: ResourceQuery, resource: GroupResource, namespace: string, names: seq<string>)
      returns (r: Result<QueryResults, Error>)
      requires q.Valid() && |names| >= 1
      modifies q.converter
      ensures q.Valid()
      ensures r == RunAnswer(prom, now, q, old(q.View(resource)), resource, namespace, names)
      ensures forall g :: q.converter.LabelOutcome(g) == old(q.converter.LabelOutcome(g))
    {
      var query: Result<Selector, Error>;
      if resource == NodesResource {
        query := q.nodeQuery.Build("", resource, namespace, [], names);
      } else {
        query := q.contQuery.Build("", resource, namespace, [q.containerLabel], names);
      }
      if query.Err? {
        return Err(QueryConstructionError(query.error));
      }
      var rawRes := prom.query(now, query.value);
      if rawRes.Err? {
        return Err(QueryExecutionError(rawRes.error));
      }
      if rawRes.value.resultType != ValVector || rawRes.value.vector.None? {
        return Err(NonVectorResult(rawRes.value.resultType));
      }
      var resourceLbl := q.converter.LabelForResource(resource);
      if resourceLbl.Err? {
        // Build has just made this label, so the lookup hits the cache.
        assert false;
      }
      var res := GroupSamples(rawRes.value.vector.value, resourceLbl.value);
      r := Ok(res);
    }

    /** `queryBoth`: the CPU query, then the memory query, for the same
        objects; a CPU failure is reported before a memory failure. */
    method QueryBoth(now: Time, resource: GroupResource, namespace: string, names: seq<string>) returns (r: NsQueryResults)
      requires Valid() && |names| >= 1
      modifies cpu.converter, mem.converter
      ensures Valid()
      ensures r == BothAnswer(prom, now, cpu, mem, old(cpu.View(resource)), old(mem.View(resource)), resource, namespace, names)
      ensures forall g :: cpu.converter.LabelOutcome(g) == old(cpu.converter.LabelOutcome(g))
      ensures forall g :: mem.converter.LabelOutcome(g) == old(mem.converter.LabelOutcome(g))
    {
      var cpuRes := RunQuery(now, cpu, resource, namespace, names);
      assert mem.View(resource) == old(mem.View(resource));
      var memRes := RunQuery(now, mem, resource, namespace, names);
      if cpuRes.Err? {
        return NsQueryResults(namespace, map[], map[], Some(CpuFetchError(cpuRes.error)));
      }
      if memRes.Err? {
        return NsQueryResults(namespace, map[], map[], Some(MemoryFetchError(memRes.error)));
      }
      r := NsQueryResults(namespace, cpuRes.value, memRes.value, None);
    }

    /** One namespace of the loop of `GetContainerMetrics`: its answers are
        kept when both queries succeed. */
    method QueryNamespace(now: Time, byNs: map<string, seq<string>>, ghost cpuView: LabelView, ghost memView: LabelView,
                          ghost answers: map<string, NsQueryResults>, order: seq<string>, i: nat,
                          results: map<string, NsQueryResults>)
      returns (next: map<string, NsQueryResults>)
      requires Valid() && i < |order| && forall n :: n in byNs ==> |byNs[n]| >= 1
      requires order[i] in byNs && order[i] in answers
      requires answers[order[i]] ==
        BothAnswer(prom, now, cpu, mem, cpuView, memView, PodsResource, order[i], byNs[order[i]])
      requires cpu.View(PodsResource) == cpuView && mem.View(PodsResource) == memView
      requires Collected(answers, order[..i], results)
      modifies cpu.converter, mem.converter
      ensures Valid()
      ensures cpu.View(PodsResource) == cpuView && mem.View(PodsResource) == memView
      ensures Collected(answers, order[..i + 1], next)
    {
      var ns := order[i];
      var res := QueryBoth(now, PodsResource, ns, byNs[ns]);
      assert res == answers[ns];
      CollectedStep(answers, order, i, results);
      if res.err.Some? {
        return results;
      }
      next := results[res.namespace := res];
    }

    /** The namespace loop of `GetContainerMetrics`: both queries for the pods
        of each namespace, in map order; a namespace whose queries fail is
        skipped. */
    method QueryNamespaces(now: Time, byNs: map<string, seq<string>>) returns (results: map<string, NsQueryResults>)
      requires Valid() && forall ns :: ns in byNs ==> |byNs[ns]| >= 1
      modifies cpu.converter, mem.converter
      ensures Valid()
      ensures results ==
        ResultsByNs(prom, now, cpu, mem, old(cpu.View(PodsResource)), old(mem.View(PodsResource)), byNs)
    {
      ghost var answers := AnswersByNs(prom, now, cpu, mem, cpu.View(PodsResource), mem.View(PodsResource), byNs);
      var order := Enumerate(byNs.Keys);
      results := QueryInOrder(now, byNs, cpu.View(PodsResource), mem.View(PodsResource), answers, order);
      CollectedAll(answers, order, results);
    }

    /** The loop itself, over the namespaces in the order `order`. */
    method QueryInOrder(now: Time, byNs: map<string, seq<string>>, ghost cpuView: LabelView, ghost memView: LabelView,
                        ghost answers: map<string, NsQueryResults>, order: seq<string>)
      returns (results: map<string, NsQueryResults>)
      requires Valid() && forall ns :: ns in byNs ==> |byNs[ns]| >= 1
      requires cpu.View(PodsResource) == cpuView && mem.View(PodsResource) == memView
      requires forall ns :: ns in order ==>
        ns in byNs && ns in answers && answers[ns] == BothAnswer(prom, now, cpu, mem, cpuView, memView, PodsResource, ns, byNs[ns])
      modifies cpu.converter, mem.converter
      ensures Valid()
      ensures Collected(answers, order, results)
    {
      results := map[];
      for i := 0 to |order|
        invariant Valid()
        invariant cpu.View(PodsResource) == cpuView && mem.View(PodsResource) == memView
        invariant Collected(answers, order[..i], results)
      {
        results := QueryNamespace(now, byNs, cpuView, memView, answers, order, i, results);
      }
      assert order[..|order|] == order;
    }

    /** `assignForPod`: nothing when the pod's namespace, CPU or memory result
        is missing; otherwise its containers and its earliest timestamp,
        starting from the latest time. */
    method AssignForPod(pod: NamespacedName, resultsByNs: map<string, NsQueryResults>)
      returns (time: TimeInfo, containers: seq<ContainerMetrics>)
      ensures Assigned(PodAnswer(cpu.containerLabel, mem.containerLabel, window, pod, resultsByNs), time, containers)
    {
      if pod.namespace !in resultsByNs {
        return ZeroTimeInfo, [];
      }
      var nsRes := resultsByNs[pod.namespace];
      if pod.name !in nsRes.cpu {
        return ZeroTimeInfo, [];
      }
      var cpuRes := nsRes.cpu[pod.name];
      if pod.name !in nsRes.mem {
        return ZeroTimeInfo, [];
      }
      var memRes := nsRes.mem[pod.name];
      var containerMetrics, earliestTs := AddSamples(map[], Latest, cpuRes, cpu.containerLabel, Cpu);
      containerMetrics, earliestTs := AddSamples(containerMetrics, earliestTs, memRes, mem.containerLabel, Memory);
      time := TimeInfo(earliestTs, window);
      containers := ListContainers(containerMetrics);
    }

    /** The final loop of `GetContainerMetrics`: each pod's entries, at its
        own index. */
    method AssignPods(pods: seq<NamespacedName>, resultsByNs: map<string, NsQueryResults>)
      returns (times: seq<TimeInfo>, metrics: seq<seq<ContainerMetrics>>)
      ensures |times| == |pods| && |metrics| == |pods|
      ensures forall i :: 0 <= i < |pods| ==>
        Assigned(PodAnswer(cpu.containerLabel, mem.containerLabel, window, pods[i], resultsByNs), times[i], metrics[i])
    {
      times, metrics := [], [];
      for i := 0 to |pods|
        invariant |times| == i && |metrics| == i
        invariant forall k :: 0 <= k < i ==>
          Assigned(PodAnswer(cpu.containerLabel, mem.containerLabel, window, pods[k], resultsByNs), times[k], metrics[k])
      {
        var t, c := AssignForPod(pods[i], resultsByNs);
        times, metrics := times + [t], metrics + [c];
      }
    }

    /** `GetContainerMetrics`: nothing for no pods; otherwise the pods are
        grouped by namespace, each namespace is queried, and every pod gets
        the entries `assignForPod` gives it, at its own index. The call never
        fails. */
    method GetContainerMetrics(now: Time, pods: seq<NamespacedName>)
      returns (times: seq<TimeInfo>, metrics: seq<seq<ContainerMetrics>>)
      requires Valid()
      modifies cpu.converter, mem.converter
      ensures Valid()
      ensures |times| == |pods| && |metrics| == |pods|
      ensures forall i :: 0 <= i < |pods| ==>
        Assigned(PodAnswer(cpu.containerLabel, mem.containerLabel, window, pods[i],
                           ResultsByNs(prom, now, cpu, mem, old(cpu.View(PodsResource)), old(mem.View(PodsResource)),
                                       PodsByNamespace(pods))),
                 times[i], metrics[i])
    {
      if |pods| == 0 {
        return [], [];
      }
      var podsByNs := GroupPods(pods);
      var resultsByNs := QueryNamespaces(now, podsByNs);
      times, metrics := AssignPods(pods, resultsByNs);
    }

    /** The assignment loop of `GetNodeMetrics`: every entry starts at zero,
        and a node with both a CPU and a memory result gets the entries of
        their first samples. */
    method AssignNodes(qRes: NsQueryResults, nodes: seq<string>) returns (times: seq<TimeInfo>, usages: seq<ResourceList>)
      requires Grouped(qRes.cpu) && Grouped(qRes.mem)
      ensures |times| == |nodes| && |usages| == |nodes|
      ensures forall i :: 0 <= i < |nodes| ==> (times[i], usages[i]) == NodeAnswer(window, qRes, nodes[i])
    {
      times := seq(|nodes|, _ => ZeroTimeInfo);
      usages := seq(|nodes|, _ => map[]);
      for i := 0 to |nodes|
        invariant |times| == |nodes| && |usages| == |nodes|
        invariant forall k :: 0 <= k < i ==> (times[k], usages[k]) == NodeAnswer(window, qRes, nodes[k])
        invariant forall k :: i <= k < |nodes| ==> times[k] == ZeroTimeInfo && usages[k] == map[]
      {
        var nodeName := nodes[i];
        if nodeName !in qRes.cpu {
          continue;
        }
        var rawCpus := qRes.cpu[nodeName];
        if nodeName !in qRes.mem {
          continue;
        }
        var rawMems := qRes.mem[nodeName];
        var rawMem := rawMems[0];
        var rawCpu := rawCpus[0];
        usages := usages[i := map[Cpu := Milli(rawCpu.value), Memory := Milli(rawMem.value)]];
        if rawMem.timestamp < rawCpu.timestamp {
          times := times[i := TimeInfo(rawMem.timestamp, window)];
        } else {
          times := times[i := TimeInfo(rawCpu.timestamp, OneMinute)];
        }
      }
    }

    /** `GetNodeMetrics`: nothing for no nodes; otherwise both queries for all
        nodes at once, whose failure fails the call, and then every node gets
        the entries of its first CPU and memory samples, or zero entries when
        either is missing. */
    method GetNodeMetrics(now: Time, nodes: seq<string>)
      returns (times: seq<TimeInfo>, usages: seq<ResourceList>, err: Option<Error>)
      requires Valid()
      modifies cpu.converter, mem.converter
      ensures Valid()
      ensures |nodes| == 0 ==> times == [] && usages == [] && err == None
      ensures |nodes| > 0 ==>
        var res := BothAnswer(prom, now, cpu, mem, old(cpu.View(NodesResource)), old(mem.View(NodesResource)),
                              NodesResource, "", nodes);
        && err == res.err
        && (err.Some? ==> times == [] && usages == [])
        && (err.None? ==>
              && |times| == |nodes| && |usages| == |nodes|
              && forall i :: 0 <= i < |nodes| ==> (times[i], usages[i]) == NodeAnswer(window, res, nodes[i]))
    {
      if |nodes| == 0 {
        return [], [], None;
      }
      var qRes := QueryBoth(now, NodesResource, "", nodes);
      if qRes.err.Some? {
        return [], [], qRes.err;
      }
      times, usages := AssignNodes(qRes, nodes);
      err := None;
    }
  }

  /** `NewProvider`: the CPU rule's queries, then the memory rule's; a failure
      of either is reported, wrapped to say which. */
  method NewProvider(re: RegexEngine, te: TemplateEngine, mapper: Mapper, prom: Client, cfg: ResourceRules)
    returns (r: Result<ResourceProvider, Error>)
    requires re.Valid()
    ensures r.Ok? ==>
      && fresh(r.value) && fresh(r.value.cpu.converter) && fresh(r.value.mem.converter)
      && r.value.cpu.converter != r.value.mem.converter
      && r.value.Valid()
      && r.value.prom == prom && r.value.window == cfg.window
      && r.value.cpu.contQuery.template == cfg.cpu.containerQuery && r.value.cpu.nodeQuery.template == cfg.cpu.nodeQuery
      && r.value.mem.contQuery.template == cfg.memory.containerQuery && r.value.mem.nodeQuery.template == cfg.memory.nodeQuery
      && r.value.cpu.containerLabel == cfg.cpu.containerLabel && r.value.mem.containerLabel == cfg.memory.containerLabel
    ensures r.Err? ==> r.error.CpuQuerierError? || r.error.MemoryQuerierError?
    ensures r.Err? && r.error.MemoryQuerierError? ==> te.parses(cfg.cpu.containerQuery) && te.parses(cfg.cpu.nodeQuery)
    ensures r.Ok? <==> QueryBuilds(re, te, mapper, cfg.cpu) && QueryBuilds(re, te, mapper, cfg.memory)
    ensures r.Err? ==> (r.error.CpuQuerierError? <==> !QueryBuilds(re, te, mapper, cfg.cpu))
    ensures r.Err? && r.error.MemoryQuerierError? ==> QueryBuilds(re, te, mapper, cfg.cpu)
  {
    var cpuQuery := NewResourceQuery(re, te, mapper, cfg.cpu);
    if cpuQuery.Err? {
      return Err(CpuQuerierError(cpuQuery.error));
    }
    var memQuery := NewResourceQuery(re, te, mapper, cfg.memory);
    if memQuery.Err? {
      return Err(MemoryQuerierError(memQuery.error));
    }
    var p := new ResourceProvider(prom, cpuQuery.value, memQuery.value, cfg.window);
    r := Ok(p);
  }
}
