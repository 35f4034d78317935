/** The label template of a resource rule read backwards: the template is
    rendered with named captures in place of the group and resource, anchored,
    and compiled, and a label is turned back into the group and resource it
    names by matching it against that expression. */
module LabelExtraction {
  import opened Wrappers
  import opened Model
  import opened Foreign

  /** The group and resource the template is rendered with: lazily matching named captures. */
  const CaptureResource: GroupResource := GroupResource("(?P<group>.+?)", "(?P<resource>.+?)")

  /** The capture names the extractor looks for. */
  const GroupName: string := "group"
  const ResourceName: string := "resource"

  /** A compiled extractor: the anchored expression and the indices of its
      `resource` capture and (when present) its `group` capture. */
  datatype Extractor = Extractor(regex: string, resourceInd: nat, groupInd: Option<nat>)
  {
    /** The indices name the `resource` and `group` captures of `names`. */
    predicate Indexes(names: seq<string>)
    {
      && resourceInd < |names| && names[resourceInd] == ResourceName
      && (groupInd.Some? ==> groupInd.value < |names| && names[groupInd.value] == GroupName)
    }
  }

  /** The last index at which `name` occurs, if it occurs. */
  function LastIndex(names: seq<string>, name: string): (r: Option<nat>)
    ensures r.None? <==> name !in names
    ensures r.Some? ==> r.value < |names| && names[r.value] == name
    ensures r.Some? ==> forall j :: r.value < j < |names| ==> names[j] != name
  {
    if |names| == 0 then None
    else if names[|names| - 1] == name then Some(|names| - 1)
    else LastIndex(names[..|names| - 1], name)
  }

  /** The anchored expression source for a rendered template. */
  function Anchored(rendered: string): (src: string)
    ensures |src| == |rendered| + 2 && src[0] == '^' && src[|src| - 1] == '$'
    ensures src[1..|src| - 1] == rendered
  {
    "^" + rendered + "$"
  }

  /** What constructing an extractor from `labelTemplate` yields. */
  function ExtractorFor(re: RegexEngine, te: TemplateEngine, labelTemplate: string): (r: Result<Extractor, Error>)
    ensures te.executeResource(labelTemplate, CaptureResource).None? ==> r == Err(TemplateExecError)
    ensures te.executeResource(labelTemplate, CaptureResource) == Some("") ==> r == Err(EmptyLabelTemplate)
    ensures te.executeResource(labelTemplate, CaptureResource).Some? && te.executeResource(labelTemplate, CaptureResource).value != "" ==>
      var src := Anchored(te.executeResource(labelTemplate, CaptureResource).value);
      && (!re.compiles(src) ==> r == Err(RegexCompileError(src)))
      && (re.compiles(src) && ResourceName !in re.subexpNames(src) ==> r == Err(MissingResourceCapture))
    ensures r.Ok? <==>
      && te.executeResource(labelTemplate, CaptureResource).Some?
      && var rendered := te.executeResource(labelTemplate, CaptureResource).value;
      && rendered != ""
      && re.compiles(Anchored(rendered))
      && ResourceName in re.subexpNames(Anchored(rendered))
    ensures r.Ok? ==>
      && r.value.regex == Anchored(te.executeResource(labelTemplate, CaptureResource).value)
      && r.value.Indexes(re.subexpNames(r.value.regex))
      && r.value.resourceInd == LastIndex(re.subexpNames(r.value.regex), ResourceName).value
      && r.value.groupInd == LastIndex(re.subexpNames(r.value.regex), GroupName)
  {
    match te.executeResource(labelTemplate, CaptureResource)
    case None => Err(TemplateExecError)
    case Some(rendered) =>
      if rendered == "" then Err(EmptyLabelTemplate)
      else
        var src := Anchored(rendered);
        if !re.compiles(src) then Err(RegexCompileError(src))
        else
          var names := re.subexpNames(src);
          match LastIndex(names, ResourceName)
          case None => Err(MissingResourceCapture)
          case Some(resInd) => Ok(Extractor(src, resInd, LastIndex(names, GroupName)))
  }

  /** The scan over the capture names: the last `group` and the last
      `resource` capture. */
  method ScanCaptures(names: seq<string>) returns (groupInd: Option<nat>, resInd: Option<nat>)
    ensures groupInd == LastIndex(names, GroupName)
    ensures resInd == LastIndex(names, ResourceName)
  {
    groupInd, resInd := None, None;
    var i := 0;
    while i < |names|
      invariant 0 <= i <= |names|
      invariant groupInd == LastIndex(names[..i], GroupName)
      invariant resInd == LastIndex(names[..i], ResourceName)
    {
      assert names[..i + 1][..i] == names[..i];
      if names[i] == GroupName {
        groupInd := Some(i);
      } else if names[i] == ResourceName {
        resInd := Some(i);
      }
      i := i + 1;
    }
    assert names[..i] == names;
  }

  /** `newLabelGroupResExtractor`: renders the template with the captures,
      anchors and compiles it, then scans the capture names, the last
      `group` and the last `resource` capture winning. */
  method NewLabelGroupResExtractor(re: RegexEngine, te: TemplateEngine, labelTemplate: string)
    returns (r: Result<Extractor, Error>)
    ensures r == ExtractorFor(re, te, labelTemplate)
  {
    var rendered := te.executeResource(labelTemplate, CaptureResource);
    if rendered.None? {
      return Err(TemplateExecError);
    }
    if |rendered.value| == 0 {
      return Err(EmptyLabelTemplate);
    }
    var src := Anchored(rendered.value);
    if !re.compiles(src) {
      return Err(RegexCompileError(src));
    }
    var groupInd, resInd := ScanCaptures(re.subexpNames(src));
    if resInd.None? {
      return Err(MissingResourceCapture);
    }
    r := Ok(Extractor(src, resInd.value, groupInd));
  }

  /** `GroupResourceForLabel`: the group and resource captures of a matching
      label (the group being "" without a group capture), or the zero value and
      `false` when the label does not match. */
  function GroupResourceForLabel(re: RegexEngine, e: Extractor, lbl: LabelName): (r: (GroupResource, bool))
    requires re.Valid() && e.Indexes(re.subexpNames(e.regex))
    ensures r.1 <==> re.matchString(e.regex, lbl)
    ensures !r.1 ==> r.0 == GroupResource("", "")
    ensures r.1 ==>
      var m := re.findSubmatch(e.regex, lbl).value;
      && r.0.resource == m[e.resourceInd]
      && r.0.group == (if e.groupInd.Some? then m[e.groupInd.value] else "")
  {
    match re.findSubmatch(e.regex, lbl)
    case Some(m) =>
      var group := if e.groupInd.Some? then m[e.groupInd.value] else "";
      (GroupResource(group, m[e.resourceInd]), true)
    case None => (GroupResource("", ""), false)
  }
}
