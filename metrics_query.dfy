/** Building the backend query of a metric: the series name, a matcher on the
    namespace label, a matcher on the resource label naming the objects asked
    for, and the group-by clause are handed to the rule's metrics query
    template, whose output is the query. */
module MetricsQueries {
  import opened Wrappers
  import opened Model
  import opened Text
  import opened Helpers
  import opened Foreign
  import opened ResourceConversion

  /** The matcher on the resource label: equality for a single object name,
      an alternation regex of all names for several. */
  function ResourceMatcher(lbl: LabelName, names: seq<string>): (r: string)
    requires |names| >= 1
    ensures |r| > |lbl| && r[..|lbl|] == lbl
  {
    if |names| > 1 then LabelMatches(lbl, Join(names, "|")) else LabelEq(lbl, names[0])
  }

  /** The resource matcher reads back as an equality on the one name, or as a
      regex match whose alternatives are exactly the names asked for. */
  lemma ResourceMatcherParses(lbl: LabelName, names: seq<string>)
    requires |names| >= 1 && PlainLabel(lbl)
    requires forall i :: 0 <= i < |names| ==> '|' !in names[i]
    ensures |names| == 1 ==> ParseMatcher(ResourceMatcher(lbl, names)) == Some(Matcher(lbl, Equal, names[0]))
    ensures |names| > 1 ==>
      && ParseMatcher(ResourceMatcher(lbl, names)) == Some(Matcher(lbl, RegexMatch, Join(names, "|")))
      && Split(Join(names, "|"), '|') == names
  {
    BuildersParse(lbl, names[0]);
    BuildersParse(lbl, Join(names, "|"));
    SplitJoin(names, '|');
  }

  /** A character absent from the label and the names, that neither quoting nor
      an operator nor the alternation introduces, is absent from the matcher. */
  lemma ResourceMatcherAvoids(lbl: LabelName, names: seq<string>, c: char)
    requires |names| >= 1 && c !in lbl && c !in "=!~\"\\|"
    requires forall i :: 0 <= i < |names| ==> c !in names[i]
    ensures c !in ResourceMatcher(lbl, names)
  {
    JoinAvoids(names, "|", c);
    BuildersAvoid(lbl, names[0], c);
    BuildersAvoid(lbl, Join(names, "|"), c);
  }

  /** The label expressions of a query: the namespace matcher, when a namespace
      is given with its label, then the resource matcher. */
  function QueryExpressions(ns: Option<(LabelName, string)>, resourceLbl: LabelName, names: seq<string>): (r: seq<string>)
    requires |names| >= 1
    ensures |r| == if ns.Some? then 2 else 1
    ensures ns.Some? ==> r[0] == LabelEq(ns.value.0, ns.value.1)
    ensures r[|r| - 1] == ResourceMatcher(resourceLbl, names)
  {
    (if ns.Some? then [LabelEq(ns.value.0, ns.value.1)] else []) + [ResourceMatcher(resourceLbl, names)]
  }

  /** The arguments `Build` executes the template with. */
  function QueryArgsFor(series: string, ns: Option<(LabelName, string)>, resourceLbl: LabelName,
                        extraGroupBy: seq<string>, names: seq<string>): (a: QueryArgs)
    requires |names| >= 1
    ensures a.series == series
    ensures a.labelValuesByName.Keys == {resourceLbl} + (if ns.Some? then {ns.value.0} else {})
    ensures a.labelValuesByName[resourceLbl] == names
    ensures ns.Some? && ns.value.0 != resourceLbl ==> a.labelValuesByName[ns.value.0] == [ns.value.1]
    ensures |a.groupBySlice| == 1 + |extraGroupBy|
    ensures a.groupBySlice[0] == resourceLbl && a.groupBySlice[1..] == extraGroupBy
  {
    var valuesByName: map<string, seq<string>> := if ns.Some? then map[ns.value.0 := [ns.value.1]] else map[];
    var groupBy := [resourceLbl] + extraGroupBy;
    QueryArgs(series, Join(QueryExpressions(ns, resourceLbl, names), ","), valuesByName[resourceLbl := names],
              Join(groupBy, ","), groupBy)
  }

  /** The group-by clause reads back as the resource label followed by the
      extra labels, when no label holds a comma. */
  lemma GroupByRoundTrip(series: string, ns: Option<(LabelName, string)>, resourceLbl: LabelName,
                         extraGroupBy: seq<string>, names: seq<string>)
    requires |names| >= 1 && ',' !in resourceLbl
    requires forall i :: 0 <= i < |extraGroupBy| ==> ',' !in extraGroupBy[i]
    ensures var a := QueryArgsFor(series, ns, resourceLbl, extraGroupBy, names);
      Split(a.groupBy, ',') == [resourceLbl] + extraGroupBy
  {
    var groupBy := [resourceLbl] + extraGroupBy;
    assert forall i :: 0 <= i < |groupBy| ==> ',' !in groupBy[i] by {
      forall i | 0 <= i < |groupBy| ensures ',' !in groupBy[i] {
        if i > 0 { assert groupBy[i] == extraGroupBy[i - 1]; }
      }
    }
    SplitJoin(groupBy, ',');
  }

  /** The label matchers of a query split back into the namespace equality
      (when a namespace is given) and the resource matcher, each of which reads
      back as the matcher it stands for, when labels are plain and no label,
      namespace or name holds a comma or a `|`. */
  lemma LabelMatchersRoundTrip(series: string, ns: Option<(LabelName, string)>, resourceLbl: LabelName,
                               extraGroupBy: seq<string>, names: seq<string>)
    requires |names| >= 1 && PlainLabel(resourceLbl) && ',' !in resourceLbl
    requires forall i :: 0 <= i < |names| ==> ',' !in names[i] && '|' !in names[i]
    requires ns.Some? ==> PlainLabel(ns.value.0) && ',' !in ns.value.0 && ',' !in ns.value.1
    ensures var a := QueryArgsFor(series, ns, resourceLbl, extraGroupBy, names);
      var parts := Split(a.labelMatchers, ',');
      && parts == QueryExpressions(ns, resourceLbl, names)
      && (ns.Some? ==> ParseMatcher(parts[0]) == Some(Matcher(ns.value.0, Equal, ns.value.1)))
      && (|names| == 1 ==> ParseMatcher(parts[|parts| - 1]) == Some(Matcher(resourceLbl, Equal, names[0])))
      && (|names| > 1 ==> ParseMatcher(parts[|parts| - 1]) == Some(Matcher(resourceLbl, RegexMatch, Join(names, "|"))))
  {
    ExpressionsSplit(ns, resourceLbl, names);
    ResourceMatcherParses(resourceLbl, names);
    if ns.Some? {
      BuildersParse(ns.value.0, ns.value.1);
    }
  }

  /** The comma-joined matchers split back into the matchers themselves. */
  lemma ExpressionsSplit(ns: Option<(LabelName, string)>, resourceLbl: LabelName, names: seq<string>)
    requires |names| >= 1 && ',' !in resourceLbl
    requires forall i :: 0 <= i < |names| ==> ',' !in names[i]
    requires ns.Some? ==> ',' !in ns.value.0 && ',' !in ns.value.1
    ensures Split(Join(QueryExpressions(ns, resourceLbl, names), ","), ',') == QueryExpressions(ns, resourceLbl, names)
  {
    var exprs := QueryExpressions(ns, resourceLbl, names);
    var last := ResourceMatcher(resourceLbl, names);
    ResourceMatcherAvoids(resourceLbl, names, ',');
    if ns.Some? {
      BuildersAvoid(ns.value.0, ns.value.1, ',');
      assert exprs == [LabelEq(ns.value.0, ns.value.1), last];
    } else {
      assert exprs == [last];
    }
    SplitJoin(exprs, ',');
  }

  /** What `Build` produces from the labels the converter gives for the
      namespaces resource and for the resource asked for (the namespace label
      is consulted only when a namespace is given). */
  function BuildOutcome(te: TemplateEngine, template: string, nsLabel: Result<LabelName, Error>,
                        resLabel: Result<LabelName, Error>, series: string, namespace: string,
                        extraGroupBy: seq<string>, names: seq<string>): (r: Result<Selector, Error>)
    requires |names| >= 1
    ensures namespace != "" && nsLabel.Err? ==> r == Err(nsLabel.error)
    ensures (namespace == "" || nsLabel.Ok?) && resLabel.Err? ==> r == Err(resLabel.error)
    ensures r.Ok? <==>
      && (namespace == "" || nsLabel.Ok?) && resLabel.Ok?
      && var out := te.executeQuery(template, QueryArgsFor(series, if namespace != "" then Some((nsLabel.value, namespace)) else None,
                                                          resLabel.value, extraGroupBy, names));
      && out.Some? && out.value != ""
    ensures r.Ok? ==> r.value != ""
    ensures r.Ok? ==>
      Some(r.value) == te.executeQuery(template, QueryArgsFor(series, if namespace != "" then Some((nsLabel.value, namespace)) else None,
                                                              resLabel.value, extraGroupBy, names))
  {
    if namespace != "" && nsLabel.Err? then Err(nsLabel.error)
    else if resLabel.Err? then Err(resLabel.error)
    else
      var ns := if namespace != "" then Some((nsLabel.value, namespace)) else None;
      match te.executeQuery(template, QueryArgsFor(series, ns, resLabel.value, extraGroupBy, names))
      case None => Err(TemplateExecError)
      case Some(q) => if q == "" then Err(EmptyQuery) else Ok(q)
  }

  /** A parsed metrics query template and the converter it asks for labels. */
  datatype MetricsQuery = MetricsQuery(converter: ResourceConverter, template: string, te: TemplateEngine)
  {
    /** `Build`: the query for the objects `names` of `resource`, in
        `namespace` when it is not empty. Labels are asked of the converter,
        which may cache them; the answer is what the converter's state before
        the call determines. */
    method Build(series: string, resource: GroupResource, namespace: string, extraGroupBy: seq<string>, names: seq<string>)
      returns (r: Result<Selector, Error>)
      requires |names| >= 1 && converter.Valid()
      modifies converter
      ensures converter.Valid()
      ensures r == BuildOutcome(te, template, old(converter.LabelOutcome(NamespacesResource)), old(converter.LabelOutcome(resource)),
                                series, namespace, extraGroupBy, names)
      ensures forall g :: converter.LabelOutcome(g) == old(converter.LabelOutcome(g))
    {
      var ns: Option<(LabelName, string)> := None;
      if namespace != "" {
        var namespaceLbl := converter.LabelForResource(NamespacesResource);
        if namespaceLbl.Err? {
          return Err(namespaceLbl.error);
        }
        ns := Some((namespaceLbl.value, namespace));
      }
      var resourceLbl := converter.LabelForResource(resource);
      if resourceLbl.Err? {
        return Err(resourceLbl.error);
      }
      var args := QueryArgsFor(series, ns, resourceLbl.value, extraGroupBy, names);
      var queryBuff := te.executeQuery(template, args);
      if queryBuff.None? {
        return Err(TemplateExecError);
      }
      if |queryBuff.value| == 0 {
        return Err(EmptyQuery);
      }
      r := Ok(queryBuff.value);
    }
  }

  /** `NewMetricsQuery`: a template that does not parse is an error. */
  function NewMetricsQuery(te: TemplateEngine, queryTemplate: string, converter: ResourceConverter): (r: Result<MetricsQuery, Error>)
    ensures r.Ok? <==> te.parses(queryTemplate)
    ensures r.Err? ==> r.error == TemplateParseError(queryTemplate)
    ensures r.Ok? ==> r.value.converter == converter && r.value.template == queryTemplate && r.value.te == te
  {
    if te.parses(queryTemplate) then Ok(MetricsQuery(converter, queryTemplate, te))
    else Err(TemplateParseError(queryTemplate))
  }
}
