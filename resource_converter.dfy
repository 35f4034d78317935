/** The two-way cache between label names and the resources they stand for.
    It is seeded from a rule's static overrides, and a label template fills it
    lazily in both directions: a resource is rendered into a label on demand,
    and a series label is read back into a resource through the template's
    extractor. Entries are only ever added. */
module ResourceConversion {
  import opened Wrappers
  import opened Model
  import opened Text
  import opened Foreign
  import opened LabelExtraction

  /** The canonical identity of an override's resource, if the mapper knows it. */
  function NormalizedOverride(mapper: Mapper, overrides: map<string, GroupResource>, l: string): Option<GroupResource>
    requires l in overrides
  {
    mapper.normalize(overrides[l])
  }

  /** The override loop of `NewResourceConverter`: each override label is
      cached in both directions under its normalized resource, in Go's map
      order; the first normalization failure ends the loop with its error. */
  method SeedOverrides(mapper: Mapper, overrides: map<string, GroupResource>)
    returns (err: Option<Error>, l2r: map<LabelName, GroupResource>, r2l: map<GroupResource, LabelName>)
    ensures err.Some? <==> exists l :: l in overrides && NormalizedOverride(mapper, overrides, l).None?
    ensures err.Some? ==> exists l :: l in overrides && NormalizedOverride(mapper, overrides, l).None? &&
                                      err.value == NormalizeError(overrides[l])
    ensures err.None? ==>
      && l2r.Keys == overrides.Keys
      && (forall l :: l in l2r ==> Some(l2r[l]) == NormalizedOverride(mapper, overrides, l))
      && (forall l :: l in overrides ==> NormalizedOverride(mapper, overrides, l).value in r2l)
      && (forall g :: g in r2l ==> var l := r2l[g]; l in overrides && NormalizedOverride(mapper, overrides, l) == Some(g))
  {
    var order := Enumerate(overrides.Keys);
    l2r, r2l := map[], map[];
    for i := 0 to |order|
      invariant forall l :: l in l2r <==> l in order[..i]
      invariant forall l :: l in l2r ==> Some(l2r[l]) == NormalizedOverride(mapper, overrides, l)
      invariant forall l :: l in l2r ==> l2r[l] in r2l
      invariant forall g :: g in r2l ==> var l := r2l[g]; l in overrides && NormalizedOverride(mapper, overrides, l) == Some(g)
    {
      var lbl := order[i];
      var info := mapper.normalize(overrides[lbl]);
      if info.None? {
        return Some(NormalizeError(overrides[lbl])), l2r, r2l;
      }
      assert order[..i + 1] == order[..i] + [lbl];
      l2r := l2r[lbl := info.value];
      r2l := r2l[info.value := lbl];
    }
    assert order[..|order|] == order;
    err := None;
  }

  class ResourceConverter {
    var labelToResource: map<LabelName, GroupResource>
    var resourceToLabel: map<GroupResource, LabelName>
    /** The parsed label template, when the rule has one. */
    const labelTemplate: Option<string>
    /** The extractor compiled from the label template. */
    const extractor: Option<Extractor>
    const mapper: Mapper
    const re: RegexEngine
    const te: TemplateEngine

    /** The extractor indexes the captures of its own expression. */
    ghost predicate ExtractorOk()
    {
      && re.Valid()
      && (extractor.Some? ==> extractor.value.Indexes(re.subexpNames(extractor.value.regex)))
    }

    /** A template always comes with its extractor, and every cached label of a
        resource is also cached as a label. */
    ghost predicate Valid()
      reads this
    {
      && ExtractorOk()
      && (labelTemplate.Some? <==> extractor.Some?)
      && (forall g :: g in resourceToLabel ==> resourceToLabel[g] in labelToResource)
    }

    constructor (re: RegexEngine, te: TemplateEngine, mapper: Mapper, labelTemplate: Option<string>, extractor: Option<Extractor>)
      ensures this.re == re && this.te == te && this.mapper == mapper
      ensures this.labelTemplate == labelTemplate && this.extractor == extractor
      ensures labelToResource == map[] && resourceToLabel == map[]
    {
      this.re := re;
      this.te := te;
      this.mapper := mapper;
      this.labelTemplate := labelTemplate;
      this.extractor := extractor;
      labelToResource := map[];
      resourceToLabel := map[];
    }

    /** `NewResourceConverter`: a non-empty template is parsed and compiled into
        an extractor; then each override label is cached in both directions
        under its normalized resource, a normalization failure failing the whole
        construction. Overrides are visited in Go's map order, which decides
        which label a resource named by two overrides keeps. */
    static method NewResourceConverter(re: RegexEngine, te: TemplateEngine, mapper: Mapper,
                                       resourceTemplate: string, overrides: map<string, GroupResource>)
      returns (r: Result<ResourceConverter, Error>)
      requires re.Valid()
      ensures resourceTemplate != "" && !te.parses(resourceTemplate) ==>
        r == Err(TemplateParseError(resourceTemplate))
      ensures resourceTemplate != "" && te.parses(resourceTemplate) && ExtractorFor(re, te, resourceTemplate).Err? ==>
        r == Err(ExtractorBuildError(resourceTemplate, ExtractorFor(re, te, resourceTemplate).error))
      ensures (resourceTemplate == "" || (te.parses(resourceTemplate) && ExtractorFor(re, te, resourceTemplate).Ok?)) ==>
        && (r.Err? <==> exists l :: l in overrides && NormalizedOverride(mapper, overrides, l).None?)
        && (r.Err? ==> exists l :: l in overrides && NormalizedOverride(mapper, overrides, l).None? &&
                                   r.error == NormalizeError(overrides[l]))
      ensures r.Ok? ==>
        && fresh(r.value) && r.value.Valid()
        && r.value.re == re && r.value.te == te && r.value.mapper == mapper
        && r.value.labelTemplate == (if resourceTemplate == "" then None else Some(resourceTemplate))
        && r.value.extractor == (if resourceTemplate == "" then None else Some(ExtractorFor(re, te, resourceTemplate).value))
        && (forall l :: l in overrides ==>
              l in r.value.labelToResource && Some(r.value.labelToResource[l]) == NormalizedOverride(mapper, overrides, l))
        && r.value.labelToResource.Keys == overrides.Keys
        && (forall l :: l in overrides ==> NormalizedOverride(mapper, overrides, l).value in r.value.resourceToLabel)
        && (forall g :: g in r.value.resourceToLabel ==>
              var l := r.value.resourceToLabel[g]; l in overrides && NormalizedOverride(mapper, overrides, l) == Some(g))
    {
      var labelTemplate: Option<string> := None;
      var extractor: Option<Extractor> := None;
      if resourceTemplate != "" {
        if !te.parses(resourceTemplate) {
          return Err(TemplateParseError(resourceTemplate));
        }
        labelTemplate := Some(resourceTemplate);
        var e := NewLabelGroupResExtractor(re, te, resourceTemplate);
        if e.Err? {
          return Err(ExtractorBuildError(resourceTemplate, e.error));
        }
        extractor := Some(e.value);
      }
      var c := new ResourceConverter(re, te, mapper, labelTemplate, extractor);
      var err, l2r, r2l := SeedOverrides(mapper, overrides);
      if err.Some? {
        return Err(err.value);
      }
      c.labelToResource, c.resourceToLabel := l2r, r2l;
      r := Ok(c);
    }

    /** The resource a template renders with: the group sanitized and the
        resource singularized. */
    function Converted(resource: GroupResource, singular: string): (g: GroupResource)
      ensures '.' !in g.group && '-' !in g.group && |g.group| == |resource.group|
      ensures g.resource == singular
    {
      SanitizeGroupIdempotent(resource.group);
      GroupResource(SanitizeGroup(resource.group), singular)
    }

    /** What rendering a label for `resource` yields, caches aside. */
    function RenderLabel(resource: GroupResource): (r: Result<LabelName, Error>)
      ensures labelTemplate.None? ==> r == Err(NoLabelTemplate)
      ensures labelTemplate.Some? && mapper.singularize(resource.resource).None? ==> r == Err(SingularizeError(resource))
      ensures r.Ok? <==>
        && labelTemplate.Some? && mapper.singularize(resource.resource).Some?
        && var out := te.executeResource(labelTemplate.value, Converted(resource, mapper.singularize(resource.resource).value));
        && out.Some? && out.value != ""
      ensures r.Ok? ==> r.value != ""
      ensures r.Ok? ==>
        Some(r.value) == te.executeResource(labelTemplate.value, Converted(resource, mapper.singularize(resource.resource).value))
    {
      if labelTemplate.None? then Err(NoLabelTemplate)
      else match mapper.singularize(resource.resource)
        case None => Err(SingularizeError(resource))
        case Some(singular) =>
          match te.executeResource(labelTemplate.value, Converted(resource, singular))
          case None => Err(TemplateExecError)
          case Some(lbl) => if lbl == "" then Err(EmptyLabel) else Ok(lbl)
    }

    /** What `LabelForResource` answers in the current state: the cached label,
        or the rendered one, its error wrapped. */
    function LabelOutcome(resource: GroupResource): (r: Result<LabelName, Error>)
      reads this
      ensures resource in resourceToLabel ==> r == Ok(resourceToLabel[resource])
      ensures resource !in resourceToLabel ==>
        (r.Ok? <==> RenderLabel(resource).Ok?) &&
        (r.Ok? ==> r.value == RenderLabel(resource).value) &&
        (r.Err? ==> r.error == LabelConversionError(resource, RenderLabel(resource).error))
    {
      if resource in resourceToLabel then Ok(resourceToLabel[resource])
      else match RenderLabel(resource)
        case Ok(lbl) => Ok(lbl)
        case Err(e) => Err(LabelConversionError(resource, e))
    }

    /** `makeLabelForResource`: renders the label and, on success, caches it in
        both directions, keyed by the resource as given. */
    method MakeLabelForResource(resource: GroupResource) returns (r: Result<LabelName, Error>)
      requires Valid()
      modifies this
      ensures Valid()
      ensures r == RenderLabel(resource)
      ensures r.Ok? ==>
        && resourceToLabel == old(resourceToLabel)[resource := r.value]
        && labelToResource == old(labelToResource)[r.value := resource]
      ensures r.Err? ==> unchanged(this)
    {
      if labelTemplate.None? {
        return Err(NoLabelTemplate);
      }
      var singularRes := mapper.singularize(resource.resource);
      if singularRes.None? {
        return Err(SingularizeError(resource));
      }
      var convResource := Converted(resource, singularRes.value);
      var buff := te.executeResource(labelTemplate.value, convResource);
      if buff.None? {
        return Err(TemplateExecError);
      }
      if |buff.value| == 0 {
        return Err(EmptyLabel);
      }
      var lbl := buff.value;
      resourceToLabel := resourceToLabel[resource := lbl];
      labelToResource := labelToResource[lbl := resource];
      r := Ok(lbl);
    }

    /** `LabelForResource`: a cached label is returned without any change;
        otherwise the label is made and cached. Caching never changes what any
        later call answers, and no entry is ever dropped. */
    method LabelForResource(resource: GroupResource) returns (r: Result<LabelName, Error>)
      requires Valid()
      modifies this
      ensures Valid()
      ensures r == old(LabelOutcome(resource))
      ensures resource in old(resourceToLabel) ==> unchanged(this)
      ensures r.Ok? ==> resource in resourceToLabel && resourceToLabel[resource] == r.value
      ensures forall g :: LabelOutcome(g) == old(LabelOutcome(g))
      ensures old(resourceToLabel).Keys <= resourceToLabel.Keys
      ensures old(labelToResource).Keys <= labelToResource.Keys
    {
      if resource in resourceToLabel {
        return Ok(resourceToLabel[resource]);
      }
      var made := MakeLabelForResource(resource);
      if made.Err? {
        return Err(LabelConversionError(resource, made.error));
      }
      r := made;
    }

    /** What a series label resolves to against the cache `known`: the cached
        resource, else the extractor's group and resource, normalized. */
    function Resolve(known: map<LabelName, GroupResource>, lbl: LabelName): Option<GroupResource>
      requires ExtractorOk()
    {
      if lbl in known then Some(known[lbl])
      else if extractor.Some? then
        var (gr, ok) := GroupResourceForLabel(re, extractor.value, lbl);
        if ok then mapper.normalize(gr) else None
      else None
    }

    /** The resources of the labels in `order` that resolve, in that order. */
    function ResolvedAll(known: map<LabelName, GroupResource>, order: seq<LabelName>): (r: seq<GroupResource>)
      requires ExtractorOk()
      ensures |r| <= |order|
    {
      if |order| == 0 then []
      else
        var init := ResolvedAll(known, order[..|order| - 1]);
        var last := Resolve(known, order[|order| - 1]);
        if last.Some? then init + [last.value] else init
    }

    /** A resource is among the resolved ones exactly when some label resolves to it. */
    lemma {:induction false} ResolvedAllMembers(known: map<LabelName, GroupResource>, order: seq<LabelName>, g: GroupResource)
      requires ExtractorOk()
      ensures g in ResolvedAll(known, order) <==> exists i :: 0 <= i < |order| && Resolve(known, order[i]) == Some(g)
    {
      if |order| > 0 {
        var init := order[..|order| - 1];
        ResolvedAllMembers(known, init, g);
        assert forall i :: 0 <= i < |init| ==> init[i] == order[i];
        if g in ResolvedAll(known, order) && g !in ResolvedAll(known, init) {
          assert Resolve(known, order[|order| - 1]) == Some(g);
        }
      }
    }

    /** The cache entries resolving `labels` adds to `known`. */
    function NewlyResolved(known: map<LabelName, GroupResource>, labels: set<LabelName>): (m: map<LabelName, GroupResource>)
      requires ExtractorOk()
      ensures forall l :: l in m <==> l in labels && l !in known && Resolve(known, l).Some?
      ensures forall l :: l in m ==> Some(m[l]) == Resolve(known, l)
    {
      map l | l in labels && l !in known && Resolve(known, l).Some? :: Resolve(known, l).value
    }

    /** `ResourcesForSeries`: each label of the series, in Go's map order, is
        resolved from the cache or through the extractor and the mapper, a label
        failing normalization being skipped; the series is namespaced when one
        of its resources is the namespaces resource. Newly resolved labels are
        then added to the label cache. */
    method ResourcesForSeries(series: Series) returns (resources: seq<GroupResource>, namespaced: bool, ghost order: seq<LabelName>)
      requires Valid()
      modifies this
      ensures Valid()
      ensures Distinct(order) && forall l :: l in order <==> l in series.labels
      ensures resources == ResolvedAll(old(labelToResource), order)
      ensures namespaced <==> NamespacesResource in resources
      ensures labelToResource == old(labelToResource) + NewlyResolved(old(labelToResource), series.labels.Keys)
      ensures resourceToLabel == old(resourceToLabel)
    {
      var updates;
      resources, namespaced, updates, order := CollectResources(series);
      AddLabels(updates);
    }

    /** The read-only loop of `ResourcesForSeries`: the resolved resources, the
        namespaced flag, and the labels to add to the cache. */
    method CollectResources(series: Series)
      returns (resources: seq<GroupResource>, namespaced: bool, updates: map<LabelName, GroupResource>, order: seq<LabelName>)
      requires ExtractorOk()
      ensures Distinct(order) && forall l :: l in order <==> l in series.labels
      ensures resources == ResolvedAll(labelToResource, order)
      ensures namespaced <==> NamespacesResource in resources
      ensures updates == NewlyResolved(labelToResource, series.labels.Keys)
    {
      order := Enumerate(series.labels.Keys);
      ghost var seen: set<LabelName> := {};
      resources := [];
      namespaced := false;
      updates := map[];
      for i := 0 to |order|
        invariant forall l :: l in seen <==> l in order[..i]
        invariant resources == ResolvedAll(labelToResource, order[..i])
        invariant namespaced <==> NamespacesResource in resources
        invariant updates == NewlyResolved(labelToResource, seen)
      {
        var lbl := order[i];
        var found, isNamespaces := ResolveLabel(lbl);
        ghost var resources0, namespaced0, updates0 := resources, namespaced, updates;
        if found.Some? {
          resources := resources + [found.value];
          if lbl !in labelToResource {
            updates := updates[lbl := found.value];
          }
        }
        if isNamespaces {
          namespaced := true;
        }
        assert order[..i + 1] == order[..i] + [lbl];
        CollectStep(labelToResource, order[..i], seen, lbl, resources0, namespaced0, updates0, resources, namespaced, updates);
        seen := seen + {lbl};
      }
      assert order[..|order|] == order;
      assert seen == series.labels.Keys;
    }

    /** One step of `ResourcesForSeries`: the label's cached resource, else its
        extracted resource normalized (`None` when extraction or normalization
        fails), and whether the step meets the namespaces resource. */
    method ResolveLabel(lbl: LabelName) returns (found: Option<GroupResource>, isNamespaces: bool)
      requires ExtractorOk()
      ensures found == Resolve(labelToResource, lbl)
      ensures isNamespaces <==> found == Some(NamespacesResource)
    {
      var groupRes := GroupResource("", "");
      found := None;
      if lbl in labelToResource {
        groupRes := labelToResource[lbl];
        found := Some(groupRes);
      } else if extractor.Some? {
        var extracted := GroupResourceForLabel(re, extractor.value, lbl);
        groupRes := extracted.0;
        if extracted.1 {
          var info := mapper.normalize(groupRes);
          if info.None? {
            return None, false;
          }
          groupRes := info.value;
          found := Some(groupRes);
        }
      }
      isNamespaces := groupRes == NamespacesResource;
    }

    /** Adds every entry of `updates` to the label cache, in Go's map order. */
    method AddLabels(updates: map<LabelName, GroupResource>)
      requires Valid()
      modifies this
      ensures Valid()
      ensures labelToResource == old(labelToResource) + updates
      ensures resourceToLabel == old(resourceToLabel)
    {
      var order := Enumerate(updates.Keys);
      ghost var added: set<LabelName> := {};
      for i := 0 to |order|
        invariant forall l :: l in added <==> l in order[..i]
        invariant forall l :: l in labelToResource <==> l in old(labelToResource) || l in added
        invariant forall l :: l in labelToResource ==>
          labelToResource[l] == if l in added then updates[l] else old(labelToResource)[l]
        invariant resourceToLabel == old(resourceToLabel)
        invariant Valid()
      {
        assert order[..i + 1] == order[..i] + [order[i]];
        labelToResource := labelToResource[order[i] := updates[order[i]]];
        added := added + {order[i]};
      }
      assert order[..|order|] == order;
      assert added == updates.Keys;
    }

    /** One iteration of `CollectResources` keeps its three invariants. */
    lemma CollectStep(known: map<LabelName, GroupResource>, order: seq<LabelName>, seen: set<LabelName>, lbl: LabelName,
                      resources0: seq<GroupResource>, namespaced0: bool, updates0: map<LabelName, GroupResource>,
                      resources: seq<GroupResource>, namespaced: bool, updates: map<LabelName, GroupResource>)
      requires ExtractorOk() && lbl !in seen
      requires resources0 == ResolvedAll(known, order)
      requires namespaced0 <==> NamespacesResource in resources0
      requires updates0 == NewlyResolved(known, seen)
      requires resources == resources0 + (if Resolve(known, lbl).Some? then [Resolve(known, lbl).value] else [])
      requires namespaced <==> namespaced0 || Resolve(known, lbl) == Some(NamespacesResource)
      requires updates == if lbl !in known && Resolve(known, lbl).Some? then updates0[lbl := Resolve(known, lbl).value] else updates0
      ensures resources == ResolvedAll(known, order + [lbl])
      ensures namespaced <==> NamespacesResource in resources
      ensures updates == NewlyResolved(known, seen + {lbl})
    {
      ResolvedAllSnoc(known, order, lbl);
      NewlyResolvedAdd(known, seen, lbl);
    }

    lemma ResolvedAllSnoc(known: map<LabelName, GroupResource>, order: seq<LabelName>, l: LabelName)
      requires ExtractorOk()
      ensures ResolvedAll(known, order + [l]) ==
        ResolvedAll(known, order) + (if Resolve(known, l).Some? then [Resolve(known, l).value] else [])
    {
      assert (order + [l])[..|order|] == order;
    }

    lemma NewlyResolvedAdd(known: map<LabelName, GroupResource>, labels: set<LabelName>, l: LabelName)
      requires ExtractorOk()
      requires l !in labels
      ensures NewlyResolved(known, labels + {l}) ==
        if l !in known && Resolve(known, l).Some? then NewlyResolved(known, labels)[l := Resolve(known, l).value]
        else NewlyResolved(known, labels)
    {
    }

    /** Caching resolved labels is transparent: every label resolves against the
        grown cache exactly as against the old one. */
    lemma CacheTransparent(known: map<LabelName, GroupResource>, labels: set<LabelName>)
      requires ExtractorOk()
      ensures forall l :: Resolve(known + NewlyResolved(known, labels), l) == Resolve(known, l)
    {
    }
  }
}
