/** The discovery configuration: series discovery rules (selector, filters,
    resource mapping, naming, query template), the CPU/memory resource rules,
    and the default rule set the configuration generator emits. */
module Config {
  import opened Wrappers
  import opened Model
  import opened Text
  import opened Helpers
  import opened Foreign

  /** A series filter: exactly one of the two patterns is meant to be set. */
  datatype RegexFilter = RegexFilter(isPattern: string, isNotPattern: string)

  /** How labels map to resources: a label template, and fixed label overrides. */
  datatype ResourceMapping = ResourceMapping(template: string, overrides: map<string, GroupResource>)

  /** How a series name becomes a metric name: a pattern and a replacement. */
  datatype NameMapping = NameMapping(matches: string, asTemplate: string)

  datatype DiscoveryRule = DiscoveryRule(
    seriesQuery: string,
    seriesFilters: seq<RegexFilter>,
    resources: ResourceMapping,
    name: NameMapping,
    metricsQuery: string)

  datatype ResourceRule = ResourceRule(
    containerQuery: string,
    nodeQuery: string,
    resources: ResourceMapping,
    containerLabel: string)

  datatype ResourceRules = ResourceRules(cpu: ResourceRule, memory: ResourceRule, window: Duration)

  /** The whole configuration; the resource rules may be absent (a nil pointer). */
  datatype MetricsDiscoveryConfig = MetricsDiscoveryConfig(rules: seq<DiscoveryRule>, resourceRules: Option<ResourceRules>)

  // ---------------------------------------------------------------------------
  // The default rule set

  // The strings the default rules pass to the selector builders.
  const ContainerPattern: string := "^container_.*"
  const ContainerNameLabel: LabelName := "container_name"
  const PauseContainer: string := "POD"
  const NamespaceLabel: LabelName := "namespace"
  const PodNameLabel: LabelName := "pod_name"

  /** The label expressions of the container selector. */
  function ContainerExpressions(): seq<string>
  {
    [NameMatches(ContainerPattern), LabelNeq(ContainerNameLabel, PauseContainer),
     LabelNeq(NamespaceLabel, ""), LabelNeq(PodNameLabel, "")]
  }

  /** Series of the container metrics that belong to a real container of a named pod. */
  function ContainerSeriesQuery(): Selector
  {
    MatchSeries("", ContainerExpressions())
  }

  /** The label expressions of the namespaced selector. */
  function NamespacedExpressions(labelPrefix: string): seq<string>
  {
    [LabelNeq(labelPrefix + NamespaceLabel, ""), NameNotMatches(ContainerPattern)]
  }

  /** Namespaced series other than the container metrics. */
  function NamespacedSeriesQuery(labelPrefix: string): Selector
  {
    MatchSeries("", NamespacedExpressions(labelPrefix))
  }

  // The name patterns of the six default rules.
  const ContainerSecondsName: string := "^container_(.*)_seconds_total$"
  const ContainerTotalName: string := "^container_(.*)_total$"
  const ContainerGaugeName: string := "^container_(.*)$"
  const TotalName: string := "^(.*)_total$"
  const SecondsName: string := "^(.*)_seconds_total$"

  const ContainerOverrides: map<string, GroupResource> :=
    map["namespace" := GroupResource("", "namespace"), "pod_name" := GroupResource("", "pod")]

  const ResourceOverrides: map<string, GroupResource> :=
    ContainerOverrides["instance" := GroupResource("", "node")]

  function ContainerRule(seriesQuery: Selector, filters: seq<RegexFilter>, matches: string, metricsQuery: string): DiscoveryRule
  {
    DiscoveryRule(seriesQuery, filters, ResourceMapping("", ContainerOverrides), NameMapping(matches, ""), metricsQuery)
  }

  function NamespacedRule(seriesQuery: Selector, labelPrefix: string, filters: seq<RegexFilter>, matches: string, metricsQuery: string): DiscoveryRule
  {
    DiscoveryRule(seriesQuery, filters, ResourceMapping(labelPrefix + ResourceTemplateTail, map[]),
                  NameMapping(matches, ""), metricsQuery)
  }

  // The query templates of the default rules, around the rate window.
  const ContainerRateHead: string := "sum(rate(<<.Series>>{<<.LabelMatchers>>,container_name!=\"POD\"}["
  const PlainRateHead: string := "sum(rate(<<.Series>>{<<.LabelMatchers>>}["
  const RateTail: string := "])) by (<<.GroupBy>>)"
  const ContainerGaugeQuery: string := "sum(<<.Series>>{<<.LabelMatchers>>,container_name!=\"POD\"}) by (<<.GroupBy>>)"
  const PlainGaugeQuery: string := "sum(<<.Series>>{<<.LabelMatchers>>}) by (<<.GroupBy>>)"
  const CpuContainerHead: string := "sum(rate(container_cpu_usage_seconds_total{<<.LabelMatchers>>}["
  const CpuNodeHead: string := "sum(rate(container_cpu_usage_seconds_total{<<.LabelMatchers>>, id='/'}["
  const MemoryContainerQuery: string := "sum(container_memory_working_set_bytes{<<.LabelMatchers>>}) by (<<.GroupBy>>)"
  const MemoryNodeQuery: string := "sum(container_memory_working_set_bytes{<<.LabelMatchers>>,id='/'}) by (<<.GroupBy>>)"
  const ResourceTemplateTail: string := "<<.Resource>>"

  // The series filters of the default rules.
  const NotContainerSeconds: string := "^container_.*_seconds_total$"
  const NotContainerTotal: string := "^container_.*_total$"
  const NotTotal: string := ".*_total$"
  const NotSeconds: string := ".*_seconds_total"

  /** The six default discovery rules over the two selectors they share. */
  function DefaultRules(containerQuery: Selector, namespacedQuery: Selector, labelPrefix: string, window: string): (r: seq<DiscoveryRule>)
    ensures |r| == 6
    ensures forall i :: 0 <= i < 3 ==> r[i].seriesQuery == containerQuery
    ensures forall i :: 3 <= i < 6 ==> r[i].seriesQuery == namespacedQuery
    ensures forall i, j :: 0 <= i < |r| && 0 <= j < |r[i].seriesFilters| ==> r[i].seriesFilters[j].isPattern == ""
  {
    var rate := ContainerRateHead + window + RateTail;
    var plainRate := PlainRateHead + window + RateTail;
    [ ContainerRule(containerQuery, [], ContainerSecondsName, rate),
      ContainerRule(containerQuery, [RegexFilter("", NotContainerSeconds)], ContainerTotalName, rate),
      ContainerRule(containerQuery, [RegexFilter("", NotContainerTotal)], ContainerGaugeName, ContainerGaugeQuery),
      NamespacedRule(namespacedQuery, labelPrefix, [RegexFilter("", NotTotal)], "", PlainGaugeQuery),
      NamespacedRule(namespacedQuery, labelPrefix, [RegexFilter("", NotSeconds)], TotalName, plainRate),
      NamespacedRule(namespacedQuery, labelPrefix, [], SecondsName, plainRate)
    ]
  }

  /** The default CPU and memory rules. */
  function DefaultResourceRules(rateInterval: Duration, labelPrefix: string, window: string): (r: ResourceRules)
    ensures r.window == rateInterval
    ensures r.cpu.resources == r.memory.resources == ResourceMapping("", ResourceOverrides)
    ensures r.cpu.containerLabel == r.memory.containerLabel == labelPrefix + ContainerNameLabel
    ensures |CpuContainerHead| <= |r.cpu.containerQuery| && window <= r.cpu.containerQuery[|CpuContainerHead|..]
    ensures |CpuNodeHead| <= |r.cpu.nodeQuery| && window <= r.cpu.nodeQuery[|CpuNodeHead|..]
  {
    var cpuContainer := CpuContainerHead + window + RateTail;
    var cpuNode := CpuNodeHead + window + RateTail;
    assert cpuContainer[|CpuContainerHead|..] == window + RateTail;
    assert cpuNode[|CpuNodeHead|..] == window + RateTail;
    ResourceRules(
      ResourceRule(cpuContainer, cpuNode,
                   ResourceMapping("", ResourceOverrides), labelPrefix + ContainerNameLabel),
      ResourceRule(MemoryContainerQuery, MemoryNodeQuery,
                   ResourceMapping("", ResourceOverrides), labelPrefix + ContainerNameLabel),
      rateInterval)
  }

  /** The generator's default configuration. `window` is the rate interval as
      the query language writes a duration (`pmodel.Duration.String`, not part
      of this model). */
  function DefaultConfig(rateInterval: Duration, labelPrefix: string, window: string): (c: MetricsDiscoveryConfig)
    ensures |c.rules| == 6
    ensures c.resourceRules.Some? && c.resourceRules.value.window == rateInterval
  {
    MetricsDiscoveryConfig(
      DefaultRules(ContainerSeriesQuery(), NamespacedSeriesQuery(labelPrefix), labelPrefix, window),
      Some(DefaultResourceRules(rateInterval, labelPrefix, window)))
  }

  /** The rules draw on exactly two selectors, the container one and the
      namespaced one, so discovery fetches at most two selectors. */
  lemma DefaultSelectorsShared(containerQuery: Selector, namespacedQuery: Selector, labelPrefix: string, window: string)
    ensures var rules := DefaultRules(containerQuery, namespacedQuery, labelPrefix, window);
      (set i | 0 <= i < |rules| :: rules[i].seriesQuery) == {containerQuery, namespacedQuery}
  {
    var rules := DefaultRules(containerQuery, namespacedQuery, labelPrefix, window);
    assert rules[0].seriesQuery == containerQuery && rules[3].seriesQuery == namespacedQuery;
  }

  /** Every default filter sets exactly one of `is` and `isNot`. */
  lemma DefaultFiltersWellFormed(containerQuery: Selector, namespacedQuery: Selector, labelPrefix: string, window: string)
    ensures var rules := DefaultRules(containerQuery, namespacedQuery, labelPrefix, window);
      forall i, j :: 0 <= i < |rules| && 0 <= j < |rules[i].seriesFilters| ==>
        (rules[i].seriesFilters[j].isPattern == "") != (rules[i].seriesFilters[j].isNotPattern == "")
  {
    // Every default filter is an exclusion with a non-empty expression.
  }

  /** Every default name pattern is a plain pattern with exactly one capture
      group, except the empty one of the fourth rule, and none sets `as`: the
      default replacement is always defined. */
  lemma DefaultNamePatterns(containerQuery: Selector, namespacedQuery: Selector, labelPrefix: string, window: string)
    ensures var rules := DefaultRules(containerQuery, namespacedQuery, labelPrefix, window);
      forall i :: 0 <= i < |rules| ==>
        rules[i].name.asTemplate == "" && SimplePattern(rules[i].name.matches) &&
        CaptureGroups(rules[i].name.matches) == (if rules[i].name.matches == "" then 0 else 1)
  {
    var rules := DefaultRules(containerQuery, namespacedQuery, labelPrefix, window);
    forall i | 0 <= i < |rules|
      ensures rules[i].name.asTemplate == "" && SimplePattern(rules[i].name.matches) &&
        CaptureGroups(rules[i].name.matches) == (if rules[i].name.matches == "" then 0 else 1)
    {
      if i == 0 {
        ContainerSecondsPattern();
      } else if i == 1 {
        ContainerTotalPattern();
      } else if i == 2 {
        ContainerGaugePattern();
      } else if i == 3 {
        ScanNoGroup("", 0);
      } else if i == 4 {
        TotalPattern();
      } else {
        SecondsPattern();
      }
    }
  }

  lemma ContainerSecondsPattern()
    ensures SimplePattern(ContainerSecondsName) && CaptureGroups(ContainerSecondsName) == 1
  {
    ScanOneGroup(ContainerSecondsName, 0, 11);
  }

  lemma ContainerTotalPattern()
    ensures SimplePattern(ContainerTotalName) && CaptureGroups(ContainerTotalName) == 1
  {
    ScanOneGroup(ContainerTotalName, 0, 11);
  }

  lemma ContainerGaugePattern()
    ensures SimplePattern(ContainerGaugeName) && CaptureGroups(ContainerGaugeName) == 1
  {
    ScanOneGroup(ContainerGaugeName, 0, 11);
  }

  lemma TotalPattern()
    ensures SimplePattern(TotalName) && CaptureGroups(TotalName) == 1
  {
  }

  lemma SecondsPattern()
    ensures SimplePattern(SecondsName) && CaptureGroups(SecondsName) == 1
  {
    ScanOneGroup(SecondsName, 0, 1);
  }

  /** The container rules map `namespace` and `pod_name`; the other discovery
      rules use the prefixed resource template. */
  lemma DefaultRuleMappings(containerQuery: Selector, namespacedQuery: Selector, labelPrefix: string, window: string)
    ensures var rules := DefaultRules(containerQuery, namespacedQuery, labelPrefix, window);
      && (forall i :: 0 <= i < 3 ==> rules[i].resources == ResourceMapping("", ContainerOverrides))
      && (forall i :: 3 <= i < 6 ==> rules[i].resources == ResourceMapping(labelPrefix + "<<.Resource>>", map[]))
  {
    var rules := DefaultRules(containerQuery, namespacedQuery, labelPrefix, window);
    assert rules[0].resources == rules[1].resources == rules[2].resources == ResourceMapping("", ContainerOverrides);
    assert rules[3].resources == rules[4].resources == rules[5].resources ==
      ResourceMapping(labelPrefix + "<<.Resource>>", map[]);
  }

  /** The override maps: `namespace` to namespaces and `pod_name` to pods, and
      in the resource rules also `instance` to nodes; both resource rules read
      containers from the prefixed `container_name` label. */
  lemma DefaultResourceMappings(rateInterval: Duration, labelPrefix: string, window: string)
    ensures ContainerOverrides.Keys == {"namespace", "pod_name"}
    ensures ContainerOverrides["namespace"] == GroupResource("", "namespace")
    ensures ContainerOverrides["pod_name"] == GroupResource("", "pod")
    ensures ResourceOverrides.Keys == {"namespace", "pod_name", "instance"}
    ensures ResourceOverrides["instance"] == GroupResource("", "node")
    ensures var rr := DefaultResourceRules(rateInterval, labelPrefix, window);
      && rr.window == rateInterval
      && rr.cpu.resources.overrides == ResourceOverrides
      && rr.memory.resources.overrides == ResourceOverrides
      && rr.cpu.containerLabel == labelPrefix + "container_name"
      && rr.memory.containerLabel == labelPrefix + "container_name"
  {
  }
}
