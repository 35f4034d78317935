/** The libraries the adapter calls but that are not part of this model: Go's
    `regexp` package, `text/template` (with `<<`/`>>` delimiters), and the host
    platform's REST mapper. Each is a record of functions; what the model
    assumes of them is stated by a `Valid` predicate, required where used. */
module Foreign {
  import opened Wrappers
  import opened Model

  /** Number of capture groups of a pattern: each `(` that does not open a
      `(?` group, and each named group `(?P<` or `(?<`. */
  function CaptureGroups(src: string): nat
  {
    GroupsFrom(src, 0)
  }

  function GroupsFrom(src: string, i: nat): nat
    decreases |src| - i
  {
    if i >= |src| then 0
    else (if OpensGroupAt(src, i) then 1 else 0) + GroupsFrom(src, i + 1)
  }

  /** Does a capturing `(` stand at index `i`? */
  predicate OpensGroupAt(src: string, i: nat)
    requires i < |src|
  {
    src[i] == '(' &&
    (i + 1 == |src| || src[i + 1] != '?' || (i + 2 < |src| && src[i + 2] == '<') ||
     (i + 3 < |src| && src[i + 2] == 'P' && src[i + 3] == '<'))
  }

  /** A pattern without escapes or character classes, in which every `(` opens a group. */
  predicate SimplePattern(src: string)
  {
    SimpleFrom(src, 0)
  }

  predicate SimpleFrom(src: string, i: nat)
    decreases |src| - i
  {
    i >= |src| || (src[i] != '\\' && src[i] != '[' && SimpleFrom(src, i + 1))
  }

  /** A pattern holding no escape, no class and a single capturing `(` at `k`
      is simple and has exactly one capture group. */
  lemma {:induction false} ScanOneGroup(src: string, i: nat, k: nat)
    requires i <= k < |src| && OpensGroupAt(src, k)
    requires forall j :: i <= j < |src| ==> src[j] != '\\' && src[j] != '[' && (src[j] != '(' || j == k)
    ensures SimpleFrom(src, i) && GroupsFrom(src, i) == 1
    decreases |src| - i
  {
    if i == k {
      ScanNoGroup(src, i + 1);
    } else {
      ScanOneGroup(src, i + 1, k);
    }
  }

  /** A pattern holding no escape, no class and no `(` is simple and has no capture group. */
  lemma {:induction false} ScanNoGroup(src: string, i: nat)
    requires forall j :: i <= j < |src| ==> src[j] != '\\' && src[j] != '[' && src[j] != '('
    ensures SimpleFrom(src, i) && GroupsFrom(src, i) == 0
    decreases |src| - i
  {
    if i < |src| {
      ScanNoGroup(src, i + 1);
    }
  }

  /** Go's `regexp`, a compiled expression being identified by its source. */
  datatype RegexEngine = RegexEngine(
    compiles: string -> bool,
    /** `MatchString`: does the pattern match somewhere in the input? */
    matchString: (string, string) -> bool,
    /** `SubexpNames`: index 0 stands for the whole match, then one name per group ("" when unnamed). */
    subexpNames: string -> seq<string>,
    /** `FindStringSubmatch`: the whole match and each group's text, or nil. */
    findSubmatch: (string, string) -> Option<seq<string>>,
    /** `ExpandString` of pattern `src`: `expand(src, template, input, match)` is the
        template with `$0`, `$1`, `${name}` replaced by the groups of `match`. */
    expand: (string, string, string, seq<string>) -> string)
  {
    ghost predicate Valid()
    {
      && (forall src, s :: findSubmatch(src, s).Some? == matchString(src, s))
      && (forall src, s :: findSubmatch(src, s).Some? ==> |findSubmatch(src, s).value| == |subexpNames(src)|)
      && (forall src :: |subexpNames(src)| >= 1 && subexpNames(src)[0] == "")
      && compiles(".*")
      && (forall s :: matchString(".*", s))
      && (forall src :: SimplePattern(src) ==> |subexpNames(src)| == 1 + CaptureGroups(src))
    }
  }

  /** Go's `text/template` with the delimiters `<<` and `>>`. Execution fails with `None`. */
  datatype TemplateEngine = TemplateEngine(
    parses: string -> bool,
    executeResource: (string, GroupResource) -> Option<string>,
    executeQuery: (string, QueryArgs) -> Option<string>)

  /** The host platform's REST mapper. */
  datatype Mapper = Mapper(
    /** Canonical (group, plural resource) for a resource spelling, or an error. */
    normalize: GroupResource -> Option<GroupResource>,
    /** `ResourceSingularizer`. */
    singularize: string -> Option<string>,
    /** `helpers.ReferenceFor`: the object reference for a named object of a resource. */
    referenceFor: (GroupResource, NamespacedName) -> Option<ObjectReference>)
  {
    /** Normalizing a canonical identity gives it back. */
    ghost predicate Valid()
    {
      forall gr :: normalize(gr).Some? ==> normalize(normalize(gr).value) == normalize(gr)
    }
  }

  /** `CustomMetricInfo.Normalized`: the identity with its resource canonicalized. */
  function NormalizeInfo(mapper: Mapper, info: MetricInfo): (r: Option<MetricInfo>)
    ensures r.Some? <==> mapper.normalize(info.groupResource).Some?
    ensures r.Some? ==> r.value.namespaced == info.namespaced && r.value.metric == info.metric
  {
    match mapper.normalize(info.groupResource)
    case Some(gr) => Some(info.(groupResource := gr))
    case None => None
  }
}
