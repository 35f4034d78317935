/** The values the adapter passes around: label sets and series of the metrics
    backend, its query results, the resource identities of the host platform,
    the arguments of a query template, the errors of every component, and the
    backend client interface. */
module Model {
  import opened Wrappers

  type LabelName = string
  type LabelValue = string
  /** A Prometheus label set: label names are unique keys. */
  type LabelSet = map<LabelName, LabelValue>

  /** The label that carries a series' metric name. */
  const MetricNameLabel: LabelName := "__name__"

  /** Reading a label the way Go reads a map: a missing label reads as "". */
  function LabelValueOf(ls: LabelSet, l: LabelName): LabelValue
  {
    if l in ls then ls[l] else ""
  }

  /** No element occurs twice: an enumeration order of a Go map or set. */
  predicate Distinct<T(==)>(xs: seq<T>)
  {
    forall i, j :: 0 <= i < j < |xs| ==> xs[i] != xs[j]
  }

  /** The keys of a Go map (or the members of a set) in iteration order, which
      Go leaves unspecified: each member exactly once, in some order. */
  method Enumerate<T(==)>(s: set<T>) returns (order: seq<T>)
    ensures Distinct(order) && forall x :: x in order <==> x in s
  {
    order := [];
    var remaining := s;
    while remaining != {}
      invariant remaining <= s
      invariant forall i :: 0 <= i < |order| ==> order[i] in s && order[i] !in remaining
      invariant forall x :: x in s ==> x in remaining || x in order
      invariant Distinct(order)
      decreases |remaining|
    {
      var x :| x in remaining;
      order := order + [x];
      remaining := remaining - {x};
    }
  }

  /** A backend query or series selector. */
  type Selector = string

  /** Backend time: milliseconds since the epoch (a 64-bit integer). */
  type Time = int
  /** A Go duration: nanoseconds. */
  type Duration = int

  const NanosPerMilli: Duration := 1_000_000
  const OneMinute: Duration := 60_000_000_000
  /** The latest representable backend time (the largest 64-bit integer). */
  const Latest: Time := 0x7fff_ffff_ffff_ffff
  /** The Go zero `time.Time` (year 1), expressed in milliseconds since the epoch. */
  const ZeroTime: Time := -62_135_596_800_000

  /** Go's integer division, which truncates toward zero: the remainder takes the sign of the dividend. */
  function TruncDiv(a: int, b: int): (q: int)
    requires b > 0
    ensures a >= 0 ==> 0 <= a - q * b < b
    ensures a < 0 ==> -b < a - q * b <= 0
  {
    if a >= 0 then a / b else -((-a) / b)
  }

  /** Time.Add: a duration is added at millisecond precision. */
  function AddDuration(t: Time, d: Duration): (r: Time)
    ensures r == t + TruncDiv(d, NanosPerMilli)
    ensures d >= 0 ==> t <= r && (r - t) * NanosPerMilli <= d < (r - t + 1) * NanosPerMilli
    ensures d < 0 ==> r <= t && (r - t - 1) * NanosPerMilli < d <= (r - t) * NanosPerMilli
  {
    t + TruncDiv(d, NanosPerMilli)
  }

  datatype Interval = Interval(start: Time, end: Time)
  datatype Range = Range(start: Time, end: Time, step: Duration)

  /** A resource kind of the host platform. */
  datatype GroupResource = GroupResource(group: string, resource: string)

  const NamespacesResource: GroupResource := GroupResource("", "namespaces")
  const NodesResource: GroupResource := GroupResource("", "nodes")
  const PodsResource: GroupResource := GroupResource("", "pods")

  /** A discovered series: its name, and every other label. */
  datatype Series = Series(name: string, labels: LabelSet)

  /** Sample values are floating point in the source; the model treats them as opaque. */
  type SampleValue = real

  datatype Sample = Sample(metric: LabelSet, value: SampleValue, timestamp: Time)

  /** `int64(value*1000.0)`: the value in thousandths, truncated toward zero. */
  function Milli(v: SampleValue): (m: int)
    ensures v >= 0.0 ==> m as real <= v * 1000.0 < m as real + 1.0
    ensures v < 0.0 ==> m as real - 1.0 < v * 1000.0 <= m as real
  {
    if v >= 0.0 then (v * 1000.0).Floor else -((-v * 1000.0).Floor)
  }

  /** A query result vector; an entry may be a nil pointer. */
  type Vector = seq<Option<Sample>>

  datatype ScalarValue = ScalarValue(value: SampleValue, timestamp: Time)
  datatype SampleStream = SampleStream(metric: LabelSet, values: seq<ScalarValue>)
  type Matrix = seq<SampleStream>

  /** The result-type tag of a query response. */
  datatype ValueType = ValNone | ValScalar | ValVector | ValMatrix | ValString

  /** A query response: the tag and at most one populated payload. */
  datatype QueryResult = QueryResult(
    resultType: ValueType,
    vector: Option<Vector>,
    scalar: Option<ScalarValue>,
    matrix: Option<Matrix>)

  const EmptyQueryResult := QueryResult(ValNone, None, None, None)

  /** The metric identity the host platform asks about. */
  datatype MetricInfo = MetricInfo(groupResource: GroupResource, namespaced: bool, metric: string)

  /** A namespaced object name. */
  datatype NamespacedName = NamespacedName(namespace: string, name: string)

  /** A reference to an object of the host platform, as the metrics API reports it. */
  datatype ObjectReference = ObjectReference(kind: string, apiVersion: string, namespace: string, name: string)

  /** The variables a metrics query template is executed with. */
  datatype QueryArgs = QueryArgs(
    series: string,
    labelMatchers: string,
    labelValuesByName: map<string, seq<string>>,
    groupBy: string,
    groupBySlice: seq<string>)

  /** Every error the core reports, one constructor per distinct condition. */
  datatype Error =
    | BackendError(message: string)
    | DecodeError
    | UnexpectedValueType(valueType: ValueType)
    | IntervalOutOfRange(interval: Interval)
    | TimeOutOfRange(time: Time)
    | TemplateParseError(template: string)
    | TemplateExecError
    | EmptyLabelTemplate
    | ExtractorBuildError(template: string, cause: Error)
    | RegexCompileError(source: string)
    | MissingResourceCapture
    | NormalizeError(resource: GroupResource)
    | NoLabelTemplate
    | SingularizeError(resource: GroupResource)
    | EmptyLabel
    | LabelConversionError(resource: GroupResource, cause: Error)
    | EmptyQuery
    | BothIsAndIsNot
    | NeitherIsNorIsNot
    | NameMismatch(seriesName: string, pattern: string)
    | AmbiguousName(matches: string, seriesQuery: Selector)
    | MetricsQueryError(seriesQuery: Selector, cause: Error)
    | SeriesFilterError(seriesQuery: Selector, cause: Error)
    | NameFilterError(seriesQuery: Selector, cause: Error)
    | SeriesCountMismatch
    | FetchError(selector: Selector, cause: Error)
    | NoSeriesFetched(selector: Selector)
    | MetricNotFound(resource: GroupResource, metric: string)
    | MetricNotFoundFor(resource: GroupResource, metric: string, name: string)
    | InternalError
    | ReferenceError(resource: GroupResource, name: string)
    | QueryConstructionError(cause: Error)
    | QueryExecutionError(cause: Error)
    | NonVectorResult(valueType: ValueType)
    | ResourceLabelError(resource: GroupResource, cause: Error)
    | CpuFetchError(cause: Error)
    | MemoryFetchError(cause: Error)
    | ConverterBuildError(cause: Error)
    | ContainerQueryError(cause: Error)
    | NodeQueryError(cause: Error)
    | CpuQuerierError(cause: Error)
    | MemoryQuerierError(cause: Error)

  /** The backend client interface: `Series`, `Query` and `QueryRange`. A
      series list may be nil (`None`), which is not the same as empty. */
  datatype Client = Client(
    series: (Interval, seq<Selector>) -> Result<Option<seq<Series>>, Error>,
    query: (Time, Selector) -> Result<QueryResult, Error>,
    queryRange: (Range, Selector) -> Result<QueryResult, Error>)
}
