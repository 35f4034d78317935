/** The metric namer of a discovery rule: the series query it discovers with,
    the regex filters a series name must pass, the name pattern and the `as`
    template that turn a series name into a metric name, and the converter and
    metrics query it answers queries with. */
module MetricNaming {
  import opened Wrappers
  import opened Model
  import opened Foreign
  import opened LabelExtraction
  import opened ResourceConversion
  import opened MetricsQueries
  import opened Config

  // ---------------------------------------------------------------------------
  // Regex filters

  /** A compiled filter: the series name must match (`positive`) or must not
      match the expression. */
  datatype ReMatcher = ReMatcher(regex: string, positive: bool)

  /** `newReMatcher`: exactly one of `is` and `isNot` must be set, and it must compile. */
  function NewReMatcher(re: RegexEngine, cfg: RegexFilter): (r: Result<ReMatcher, Error>)
    ensures cfg.isPattern != "" && cfg.isNotPattern != "" ==> r == Err(BothIsAndIsNot)
    ensures cfg.isPattern == "" && cfg.isNotPattern == "" ==> r == Err(NeitherIsNorIsNot)
    ensures r.Ok? <==>
      (cfg.isPattern == "") != (cfg.isNotPattern == "") &&
      re.compiles(if cfg.isPattern != "" then cfg.isPattern else cfg.isNotPattern)
    ensures (cfg.isPattern == "") != (cfg.isNotPattern == "") && r.Err? ==>
      r.error == RegexCompileError(if cfg.isPattern != "" then cfg.isPattern else cfg.isNotPattern)
    ensures r.Ok? ==> (r.value.positive <==> cfg.isPattern != "")
  {
    if cfg.isPattern != "" && cfg.isNotPattern != "" then Err(BothIsAndIsNot)
    else if cfg.isPattern == "" && cfg.isNotPattern == "" then Err(NeitherIsNorIsNot)
    else
      var positive := cfg.isPattern != "";
      var regexRaw := if positive then cfg.isPattern else cfg.isNotPattern;
      if !re.compiles(regexRaw) then Err(RegexCompileError(regexRaw))
      else Ok(ReMatcher(regexRaw, positive))
  }

  /** `reMatcher.Matches`: the match result agrees with the polarity. */
  function Matches(re: RegexEngine, m: ReMatcher, val: string): (r: bool)
    ensures m.positive ==> (r <==> re.matchString(m.regex, val))
    ensures !m.positive ==> (r <==> !re.matchString(m.regex, val))
  {
    re.matchString(m.regex, val) == m.positive
  }

  /** A filter built from `is` accepts exactly the names its expression
      matches; one built from `isNot` exactly those it does not. */
  lemma MatchesPolarity(re: RegexEngine, cfg: RegexFilter, val: string)
    requires NewReMatcher(re, cfg).Ok?
    ensures cfg.isPattern != "" ==> (Matches(re, NewReMatcher(re, cfg).value, val) <==> re.matchString(cfg.isPattern, val))
    ensures cfg.isPattern == "" ==> (Matches(re, NewReMatcher(re, cfg).value, val) <==> !re.matchString(cfg.isNotPattern, val))
  {
  }

  /** A series name passes the chain when every filter accepts it. */
  predicate Accepts(re: RegexEngine, matchers: seq<ReMatcher>, name: string)
  {
    forall k :: 0 <= k < |matchers| ==> Matches(re, matchers[k], name)
  }

  /** The series every filter accepts, in their original order. */
  function Filtered(re: RegexEngine, matchers: seq<ReMatcher>, series: seq<Series>): (r: seq<Series>)
    ensures |r| <= |series|
  {
    if |series| == 0 then []
    else
      var last := series[|series| - 1];
      Filtered(re, matchers, series[..|series| - 1]) + (if Accepts(re, matchers, last.name) then [last] else [])
  }

  /** A series is kept exactly when it is among the input and every filter accepts its name. */
  lemma {:induction false} FilteredMembers(re: RegexEngine, matchers: seq<ReMatcher>, series: seq<Series>, s: Series)
    ensures s in Filtered(re, matchers, series) <==> s in series && Accepts(re, matchers, s.name)
  {
    if |series| > 0 {
      var init := series[..|series| - 1];
      FilteredMembers(re, matchers, init, s);
      assert series == init + [series[|series| - 1]];
    }
  }

  /** Filtering keeps order: filtering a concatenation filters each part. */
  lemma {:induction false} FilteredAppend(re: RegexEngine, matchers: seq<ReMatcher>, a: seq<Series>, b: seq<Series>)
    ensures Filtered(re, matchers, a + b) == Filtered(re, matchers, a) + Filtered(re, matchers, b)
  {
    if |b| == 0 {
      assert a + b == a;
    } else {
      var init := b[..|b| - 1];
      FilteredAppend(re, matchers, a, init);
      assert (a + b)[..|a + b| - 1] == a + init;
    }
  }

  /** When every filter accepts every series, nothing is dropped. */
  lemma {:induction false} FilteredAllAccepted(re: RegexEngine, matchers: seq<ReMatcher>, series: seq<Series>)
    requires forall i :: 0 <= i < |series| ==> Accepts(re, matchers, series[i].name)
    ensures Filtered(re, matchers, series) == series
  {
    if |series| > 0 {
      FilteredAllAccepted(re, matchers, series[..|series| - 1]);
    }
  }

  /** Without filters, filtering is the identity. */
  lemma FilteredNoMatchers(re: RegexEngine, series: seq<Series>)
    ensures Filtered(re, [], series) == series
  {
    FilteredAllAccepted(re, [], series);
  }

  /** Filtering twice filters nothing more. */
  lemma FilteredIdempotent(re: RegexEngine, matchers: seq<ReMatcher>, series: seq<Series>)
    ensures Filtered(re, matchers, Filtered(re, matchers, series)) == Filtered(re, matchers, series)
  {
    var once := Filtered(re, matchers, series);
    forall i | 0 <= i < |once| ensures Accepts(re, matchers, once[i].name) {
      FilteredMembers(re, matchers, series, once[i]);
    }
    FilteredAllAccepted(re, matchers, once);
  }

  // ---------------------------------------------------------------------------
  // Names

  /** The name pattern of a rule: `.*` when none is configured. */
  function NamePattern(matches: string): (p: string)
    ensures matches != "" ==> p == matches
    ensures matches == "" ==> p == ".*"
  {
    if matches != "" then matches else ".*"
  }

  /** The `as` template used when a rule gives none: the whole match when the
      pattern has no group, the one group when it has one, an error otherwise. */
  function DefaultAs(re: RegexEngine, rule: DiscoveryRule): (r: Result<string, Error>)
    ensures |re.subexpNames(NamePattern(rule.name.matches))| == 1 ==> r == Ok("$0")
    ensures |re.subexpNames(NamePattern(rule.name.matches))| == 2 ==> r == Ok("$1")
    ensures r.Err? <==> |re.subexpNames(NamePattern(rule.name.matches))| !in {1, 2}
    ensures r.Err? ==> r.error == AmbiguousName(rule.name.matches, rule.seriesQuery)
  {
    var subexpNames := re.subexpNames(NamePattern(rule.name.matches));
    if |subexpNames| == 1 then Ok("$0")
    else if |subexpNames| == 2 then Ok("$1")
    else Err(AmbiguousName(rule.name.matches, rule.seriesQuery))
  }

  /** A simple name pattern with at most one group always has a default `as`:
      `$0` without a group, `$1` with one. */
  lemma DefaultAsForSimple(re: RegexEngine, rule: DiscoveryRule)
    requires re.Valid()
    requires rule.name.matches != "" ==> SimplePattern(rule.name.matches) && CaptureGroups(rule.name.matches) <= 1
    ensures DefaultAs(re, rule).Ok?
    ensures rule.name.matches == "" ==> DefaultAs(re, rule) == Ok("$0")
    ensures rule.name.matches != "" ==>
      DefaultAs(re, rule) == Ok(if CaptureGroups(rule.name.matches) == 0 then "$0" else "$1")
  {
    ScanNoGroup(".*", 0);
  }

  /** Every rule of the default configuration leaves `as` to the default, and
      the default is `$1`, the one group of its name pattern, or `$0` for the
      rule without a name pattern. */
  lemma DefaultRulesNamed(re: RegexEngine, containerQuery: Selector, namespacedQuery: Selector, labelPrefix: string, window: string)
    requires re.Valid()
    ensures var rules := DefaultRules(containerQuery, namespacedQuery, labelPrefix, window);
      forall i :: 0 <= i < |rules| ==>
        rules[i].name.asTemplate == "" && DefaultAs(re, rules[i]) == Ok(if rules[i].name.matches == "" then "$0" else "$1")
  {
    var rules := DefaultRules(containerQuery, namespacedQuery, labelPrefix, window);
    DefaultNamePatterns(containerQuery, namespacedQuery, labelPrefix, window);
    forall i | 0 <= i < |rules|
      ensures rules[i].name.asTemplate == "" && DefaultAs(re, rules[i]) == Ok(if rules[i].name.matches == "" then "$0" else "$1")
    {
      DefaultAsForSimple(re, rules[i]);
    }
  }

  // ---------------------------------------------------------------------------
  // The namer

  /** A metric namer; it shares its converter with its metrics query. */
  datatype MetricNamer = MetricNamer(
    seriesQuery: Selector,
    metricsQuery: MetricsQuery,
    nameMatches: string,
    nameAs: string,
    seriesMatchers: seq<ReMatcher>,
    converter: ResourceConverter,
    re: RegexEngine)
  {
    /** The metrics query asks the namer's own converter, and every series
        name the filters pass matches the name pattern: the pattern is `.*` or
        is itself one of the positive filters. */
    ghost predicate WellFormed()
    {
      && re.Valid()
      && metricsQuery.converter == converter
      && (nameMatches == ".*" || ReMatcher(nameMatches, true) in seriesMatchers)
    }

    /** `FilterSeries`: the series every filter accepts, in order. */
    method FilterSeries(initialSeries: seq<Series>) returns (finalSeries: seq<Series>)
      ensures finalSeries == Filtered(re, seriesMatchers, initialSeries)
    {
      if |seriesMatchers| == 0 {
        FilteredNoMatchers(re, initialSeries);
        return initialSeries;
      }
      finalSeries := [];
      label SeriesLoop:
      for i := 0 to |initialSeries|
        invariant finalSeries == Filtered(re, seriesMatchers, initialSeries[..i])
      {
        var series := initialSeries[i];
        assert initialSeries[..i + 1][..i] == initialSeries[..i];
        for k := 0 to |seriesMatchers|
          invariant forall j :: 0 <= j < k ==> Matches(re, seriesMatchers[j], series.name)
        {
          if !Matches(re, seriesMatchers[k], series.name) {
            continue SeriesLoop;
          }
        }
        finalSeries := finalSeries + [series];
      }
      assert initialSeries[..|initialSeries|] == initialSeries;
    }

    /** `MetricNameForSeries`: the `as` template expanded with the groups of the
        name pattern's match, or an error when the pattern does not match. */
    function MetricNameForSeries(series: Series): (r: Result<string, Error>)
      requires re.Valid()
      ensures r.Err? <==> !re.matchString(nameMatches, series.name)
      ensures r.Err? ==> r.error == NameMismatch(series.name, nameMatches)
      ensures r.Ok? ==> r.value == re.expand(nameMatches, nameAs, series.name, re.findSubmatch(nameMatches, series.name).value)
    {
      match re.findSubmatch(nameMatches, series.name)
      case None => Err(NameMismatch(series.name, nameMatches))
      case Some(matches) => Ok(re.expand(nameMatches, nameAs, series.name, matches))
    }

    /** Every series the filters pass can be named. */
    lemma FilteredSeriesNamed(series: seq<Series>, s: Series)
      requires WellFormed()
      requires s in Filtered(re, seriesMatchers, series)
      ensures MetricNameForSeries(s).Ok?
    {
      FilteredMembers(re, seriesMatchers, series, s);
      if nameMatches != ".*" {
        var k :| 0 <= k < |seriesMatchers| && seriesMatchers[k] == ReMatcher(nameMatches, true);
        assert Matches(re, seriesMatchers[k], s.name);
      }
    }

    /** `QueryForSeries`: the metrics query for the objects `names`, with no extra grouping. */
    method QueryForSeries(series: string, resource: GroupResource, namespace: string, names: seq<string>)
      returns (r: Result<Selector, Error>)
      requires |names| >= 1 && metricsQuery.converter.Valid()
      modifies metricsQuery.converter
      ensures metricsQuery.converter.Valid()
      ensures r == BuildOutcome(metricsQuery.te, metricsQuery.template,
                                old(metricsQuery.converter.LabelOutcome(NamespacesResource)),
                                old(metricsQuery.converter.LabelOutcome(resource)),
                                series, namespace, [], names)
      ensures forall g :: metricsQuery.converter.LabelOutcome(g) == old(metricsQuery.converter.LabelOutcome(g))
    {
      r := metricsQuery.Build(series, resource, namespace, [], names);
    }
  }

  // ---------------------------------------------------------------------------
  // Building namers from the configuration

  /** Index of the first filter that does not compile, or the number of filters. */
  function FirstBadFilter(re: RegexEngine, filters: seq<RegexFilter>): (i: nat)
    ensures i <= |filters|
    ensures forall j :: 0 <= j < i ==> NewReMatcher(re, filters[j]).Ok?
    ensures i < |filters| ==> NewReMatcher(re, filters[i]).Err?
  {
    if |filters| == 0 then 0
    else if NewReMatcher(re, filters[0]).Err? then 0
    else 1 + FirstBadFilter(re, filters[1..])
  }

  /** The compiled filters, when all compile. */
  function Compiled(re: RegexEngine, filters: seq<RegexFilter>): (ms: seq<ReMatcher>)
    requires forall j :: 0 <= j < |filters| ==> NewReMatcher(re, filters[j]).Ok?
    ensures |ms| == |filters|
    ensures forall j :: 0 <= j < |filters| ==> ms[j] == NewReMatcher(re, filters[j]).value
  {
    if |filters| == 0 then [] else [NewReMatcher(re, filters[0]).value] + Compiled(re, filters[1..])
  }

  /** The filter loop of `NamersFromConfig`: each configured filter compiled
      in order, the first one that fails giving its error. */
  method CompileFilters(re: RegexEngine, filters: seq<RegexFilter>) returns (r: Result<seq<ReMatcher>, Error>)
    ensures r.Ok? <==> FirstBadFilter(re, filters) == |filters|
    ensures r.Ok? ==> r.value == Compiled(re, filters)
    ensures r.Err? ==> r.error == NewReMatcher(re, filters[FirstBadFilter(re, filters)]).error
  {
    var seriesMatchers: seq<ReMatcher> := [];
    for i := 0 to |filters|
      invariant |seriesMatchers| == i
      invariant forall j :: 0 <= j < i ==> NewReMatcher(re, filters[j]).Ok? && seriesMatchers[j] == NewReMatcher(re, filters[j]).value
    {
      var matcher := NewReMatcher(re, filters[i]);
      if matcher.Err? {
        return Err(matcher.error);
      }
      seriesMatchers := seriesMatchers + [matcher.value];
    }
    return Ok(seriesMatchers);
  }

  /** The filter a non-empty name pattern adds after the configured ones. */
  function NameFilter(matches: string): (ms: seq<ReMatcher>)
    ensures matches == "" ==> ms == []
    ensures matches != "" ==> ms == [ReMatcher(matches, true)]
  {
    if matches != "" then [ReMatcher(matches, true)] else []
  }

  /** The resource mapping of a rule gives a converter. */
  predicate ConverterBuilds(re: RegexEngine, te: TemplateEngine, mapper: Mapper, rm: ResourceMapping)
  {
    && (rm.template == "" || (te.parses(rm.template) && ExtractorFor(re, te, rm.template).Ok?))
    && (forall l :: l in rm.overrides ==> NormalizedOverride(mapper, rm.overrides, l).Some?)
  }

  /** `e` is an error the converter construction of `rm` can report. */
  predicate ConverterError(re: RegexEngine, te: TemplateEngine, mapper: Mapper, rm: ResourceMapping, e: Error)
  {
    if rm.template != "" && !te.parses(rm.template) then e == TemplateParseError(rm.template)
    else if rm.template != "" && ExtractorFor(re, te, rm.template).Err? then
      e == ExtractorBuildError(rm.template, ExtractorFor(re, te, rm.template).error)
    else exists l :: l in rm.overrides && NormalizedOverride(mapper, rm.overrides, l).None? && e == NormalizeError(rm.overrides[l])
  }

  /** A rule yields a namer: its converter builds, its metrics query parses,
      every filter and the name pattern compile, and an `as` is given or defaults. */
  predicate RuleOk(re: RegexEngine, te: TemplateEngine, mapper: Mapper, rule: DiscoveryRule)
  {
    && ConverterBuilds(re, te, mapper, rule.resources)
    && te.parses(rule.metricsQuery)
    && FirstBadFilter(re, rule.seriesFilters) == |rule.seriesFilters|
    && (rule.name.matches == "" || re.compiles(rule.name.matches))
    && (rule.name.asTemplate != "" || DefaultAs(re, rule).Ok?)
  }

  /** `e` is the error a rule that yields no namer reports: that of the first
      stage that fails, each stage's error wrapped with the rule's series query. */
  predicate RuleError(re: RegexEngine, te: TemplateEngine, mapper: Mapper, rule: DiscoveryRule, e: Error)
  {
    if !ConverterBuilds(re, te, mapper, rule.resources) then ConverterError(re, te, mapper, rule.resources, e)
    else if !te.parses(rule.metricsQuery) then e == MetricsQueryError(rule.seriesQuery, TemplateParseError(rule.metricsQuery))
    else if FirstBadFilter(re, rule.seriesFilters) < |rule.seriesFilters| then
      e == SeriesFilterError(rule.seriesQuery, NewReMatcher(re, rule.seriesFilters[FirstBadFilter(re, rule.seriesFilters)]).error)
    else if rule.name.matches != "" && !re.compiles(rule.name.matches) then
      e == NameFilterError(rule.seriesQuery, RegexCompileError(rule.name.matches))
    else rule.name.asTemplate == "" && DefaultAs(re, rule).Err? && e == DefaultAs(re, rule).error
  }

  /** The namer a rule yields, its converter aside. */
  ghost predicate NamerOf(re: RegexEngine, te: TemplateEngine, mapper: Mapper, rule: DiscoveryRule, n: MetricNamer)
    requires RuleOk(re, te, mapper, rule)
  {
    && n.seriesQuery == rule.seriesQuery
    && n.metricsQuery == MetricsQuery(n.converter, rule.metricsQuery, te)
    && n.nameMatches == NamePattern(rule.name.matches)
    && n.nameAs == (if rule.name.asTemplate != "" then rule.name.asTemplate else DefaultAs(re, rule).value)
    && n.seriesMatchers == Compiled(re, rule.seriesFilters) + NameFilter(rule.name.matches)
    && n.re == re
    && n.converter.re == re && n.converter.te == te && n.converter.mapper == mapper
    && n.converter.labelTemplate == (if rule.resources.template == "" then None else Some(rule.resources.template))
  }

  /** `n` is the well-formed namer `rule` yields. */
  ghost predicate Built(re: RegexEngine, te: TemplateEngine, mapper: Mapper, rule: DiscoveryRule, n: MetricNamer)
  {
    RuleOk(re, te, mapper, rule) && NamerOf(re, te, mapper, rule, n) && n.WellFormed()
  }

  /** Index of the first rule that yields no namer, or the number of rules. */
  function FirstBadRule(re: RegexEngine, te: TemplateEngine, mapper: Mapper, rules: seq<DiscoveryRule>): (i: nat)
    ensures i <= |rules|
    ensures forall j :: 0 <= j < i ==> RuleOk(re, te, mapper, rules[j])
    ensures i < |rules| ==> !RuleOk(re, te, mapper, rules[i])
  {
    if |rules| == 0 then 0
    else if !RuleOk(re, te, mapper, rules[0]) then 0
    else 1 + FirstBadRule(re, te, mapper, rules[1..])
  }

  /** One iteration of `NamersFromConfig`: the namer of one rule. */
  method NamerForRule(re: RegexEngine, te: TemplateEngine, mapper: Mapper, rule: DiscoveryRule)
    returns (r: Result<MetricNamer, Error>)
    requires re.Valid()
    ensures r.Ok? <==> RuleOk(re, te, mapper, rule)
    ensures r.Err? ==> RuleError(re, te, mapper, rule, r.error)
    ensures r.Ok? ==> Built(re, te, mapper, rule, r.value) && fresh(r.value.converter) && r.value.converter.Valid()
  {
    var resConv := ResourceConverter.NewResourceConverter(re, te, mapper, rule.resources.template, rule.resources.overrides);
    if resConv.Err? {
      return Err(resConv.error);
    }
    var metricsQuery := NewMetricsQuery(te, rule.metricsQuery, resConv.value);
    if metricsQuery.Err? {
      return Err(MetricsQueryError(rule.seriesQuery, metricsQuery.error));
    }
    var seriesMatchers := CompileFilters(re, rule.seriesFilters);
    if seriesMatchers.Err? {
      return Err(SeriesFilterError(rule.seriesQuery, seriesMatchers.error));
    }
    var matchers := seriesMatchers.value;
    if rule.name.matches != "" {
      var matcher := NewReMatcher(re, RegexFilter(rule.name.matches, ""));
      if matcher.Err? {
        return Err(NameFilterError(rule.seriesQuery, matcher.error));
      }
      matchers := matchers + [matcher.value];
    }
    // The name pattern was compiled just above when it is set, so compiling it
    // again cannot fail; an empty one becomes `.*`.
    var nameMatches := NamePattern(rule.name.matches);
    var nameAs := rule.name.asTemplate;
    if nameAs == "" {
      var defaultAs := DefaultAs(re, rule);
      if defaultAs.Err? {
        return Err(defaultAs.error);
      }
      nameAs := defaultAs.value;
    }
    r := Ok(MetricNamer(rule.seriesQuery, metricsQuery.value, nameMatches, nameAs, matchers, resConv.value, re));
  }

  /** `NamersFromConfig`: one namer per rule, in rule order, each with a
      converter of its own; the first rule that yields none fails the whole
      construction with its error. */
  method NamersFromConfig(rules: seq<DiscoveryRule>, re: RegexEngine, te: TemplateEngine, mapper: Mapper)
    returns (r: Result<seq<MetricNamer>, Error>)
    requires re.Valid()
    ensures r.Ok? <==> FirstBadRule(re, te, mapper, rules) == |rules|
    ensures r.Err? ==> RuleError(re, te, mapper, rules[FirstBadRule(re, te, mapper, rules)], r.error)
    ensures r.Ok? ==>
      && |r.value| == |rules|
      && (forall i :: 0 <= i < |rules| ==> Built(re, te, mapper, rules[i], r.value[i]))
      && (forall i :: 0 <= i < |rules| ==> r.value[i].converter.Valid())
  {
    var namers: seq<MetricNamer> := [];
    for i := 0 to |rules|
      invariant |namers| == i && i <= FirstBadRule(re, te, mapper, rules)
      invariant forall k :: 0 <= k < i ==> Built(re, te, mapper, rules[k], namers[k])
      invariant forall k :: 0 <= k < i ==> namers[k].converter.Valid()
    {
      var next := AddNamer(re, te, mapper, rules, namers);
      if next.Err? {
        return Err(next.error);
      }
      namers := next.value;
    }
    return Ok(namers);
  }

  /** One step of `NamersFromConfig`: the namer of the next rule, or its error. */
  method AddNamer(re: RegexEngine, te: TemplateEngine, mapper: Mapper, rules: seq<DiscoveryRule>, namers: seq<MetricNamer>)
    returns (r: Result<seq<MetricNamer>, Error>)
    requires re.Valid() && |namers| < |rules| && |namers| <= FirstBadRule(re, te, mapper, rules)
    requires forall k :: 0 <= k < |namers| ==> Built(re, te, mapper, rules[k], namers[k])
    requires forall k :: 0 <= k < |namers| ==> namers[k].converter.Valid()
    ensures r.Err? ==> FirstBadRule(re, te, mapper, rules) == |namers| && RuleError(re, te, mapper, rules[|namers|], r.error)
    ensures r.Ok? ==>
      && |r.value| == |namers| + 1 && |r.value| <= FirstBadRule(re, te, mapper, rules)
      && (forall k :: 0 <= k < |r.value| ==> Built(re, te, mapper, rules[k], r.value[k]))
      && (forall k :: 0 <= k < |r.value| ==> r.value[k].converter.Valid())
  {
    var namer := NamerForRule(re, te, mapper, rules[|namers|]);
    if namer.Err? {
      FirstBadRuleAt(re, te, mapper, rules, |namers|);
      return Err(namer.error);
    }
    NamersStep(re, te, mapper, rules, namers, namer.value);
    r := Ok(namers + [namer.value]);
  }

  /** A rule that yields no namer, with every earlier one yielding one, is the first bad rule. */
  lemma FirstBadRuleAt(re: RegexEngine, te: TemplateEngine, mapper: Mapper, rules: seq<DiscoveryRule>, i: nat)
    requires i < |rules| && i <= FirstBadRule(re, te, mapper, rules) && !RuleOk(re, te, mapper, rules[i])
    ensures FirstBadRule(re, te, mapper, rules) == i
  {
  }

  /** One more namer built keeps the namers aligned with the rules. */
  lemma NamersStep(re: RegexEngine, te: TemplateEngine, mapper: Mapper, rules: seq<DiscoveryRule>,
                   namers: seq<MetricNamer>, n: MetricNamer)
    requires |namers| < |rules| && |namers| <= FirstBadRule(re, te, mapper, rules)
    requires forall k :: 0 <= k < |namers| ==> Built(re, te, mapper, rules[k], namers[k])
    requires Built(re, te, mapper, rules[|namers|], n)
    ensures |namers| + 1 <= FirstBadRule(re, te, mapper, rules)
    ensures forall k :: 0 <= k < |namers| + 1 ==> Built(re, te, mapper, rules[k], (namers + [n])[k])
  {
  }
}
