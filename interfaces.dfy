/** Decoding of backend responses: a series' label set loses its `__name__`
    label to the series name, a query result is dispatched on its result-type
    tag, and a series prints as `name{l1="v1",...}`. */
module ClientDecoding {
  import opened Wrappers
  import opened Model
  import opened Text
  import opened Helpers

  /** The series a decoded label set yields over the series `prev` being decoded into. */
  function SeriesFromMetric(prev: Series, raw: LabelSet): (s: Series)
    ensures MetricNameLabel !in s.labels
    ensures MetricNameLabel in raw ==> s.name == raw[MetricNameLabel]
    ensures MetricNameLabel !in raw ==> s.name == prev.name && s.labels == raw
    ensures forall l :: l in raw && l != MetricNameLabel ==> l in s.labels && s.labels[l] == raw[l]
    ensures s.labels.Keys <= raw.Keys
  {
    if MetricNameLabel in raw then Series(raw[MetricNameLabel], raw - {MetricNameLabel})
    else Series(prev.name, raw)
  }

  /** The label set of a series as the backend sends it: its labels plus `__name__`. */
  function MetricOfSeries(s: Series): LabelSet
  {
    s.labels[MetricNameLabel := s.name]
  }

  /** Decoding the label set of a series gives the series back, whatever it is decoded into. */
  lemma MetricRoundTrip(prev: Series, s: Series)
    requires MetricNameLabel !in s.labels
    ensures SeriesFromMetric(prev, MetricOfSeries(s)) == s
  {
    assert MetricOfSeries(s) - {MetricNameLabel} == s.labels;
  }

  /** `Series.UnmarshalJSON`: `decoded` is the label set JSON decoding produced,
      or its error, in which case the series is left as it was. */
  method UnmarshalSeries(s: Series, decoded: Result<LabelSet, Error>) returns (r: Series, err: Option<Error>)
    ensures decoded.Err? ==> r == s && err == Some(decoded.error)
    ensures decoded.Ok? ==> err.None? && r == SeriesFromMetric(s, decoded.value)
  {
    r, err := s, None;
    if decoded.Err? {
      return s, Some(decoded.error);
    }
    var rawMetric := decoded.value;
    if MetricNameLabel in rawMetric {
      r := r.(name := rawMetric[MetricNameLabel]);
      rawMetric := rawMetric - {MetricNameLabel};
    }
    r := r.(labels := rawMetric);
  }

  /** What the `result` payload of a response decodes to as each result type
      (`None` when it does not decode as that type). */
  datatype RawPayload = RawPayload(asScalar: Option<ScalarValue>, asVector: Option<Vector>, asMatrix: Option<Matrix>)

  /** The outer object of a query response: the result-type tag and the
      `result` payload. */
  datatype Envelope = Envelope(resultType: ValueType, payload: RawPayload)

  /** `QueryResult.UnmarshalJSON`: `envelope` is the outer object JSON decoding
      produced, or its error, in which case the result is left as it was.
      Otherwise the tag is recorded, then exactly the field matching it is
      populated; a payload that does not decode leaves that field empty and
      reports the error. */
  method UnmarshalQueryResult(qr: QueryResult, envelope: Result<Envelope, Error>)
    returns (r: QueryResult, err: Option<Error>)
    ensures envelope.Err? ==> r == qr && err == Some(envelope.error)
    ensures envelope.Ok? ==> r.resultType == envelope.value.resultType
    ensures envelope.Ok? && envelope.value.resultType == ValScalar ==>
      var payload := envelope.value.payload;
      r == qr.(resultType := ValScalar, scalar := Some(payload.asScalar.GetOr(ScalarValue(0.0, 0))))
      && (err.None? <==> payload.asScalar.Some?)
    ensures envelope.Ok? && envelope.value.resultType == ValVector ==>
      var payload := envelope.value.payload;
      r == qr.(resultType := ValVector, vector := Some(payload.asVector.GetOr([])))
      && (err.None? <==> payload.asVector.Some?)
    ensures envelope.Ok? && envelope.value.resultType == ValMatrix ==>
      var payload := envelope.value.payload;
      r == qr.(resultType := ValMatrix, matrix := Some(payload.asMatrix.GetOr([])))
      && (err.None? <==> payload.asMatrix.Some?)
    ensures envelope.Ok? && envelope.value.resultType !in {ValScalar, ValVector, ValMatrix} ==>
      var resultType := envelope.value.resultType;
      r == qr.(resultType := resultType) && err == Some(UnexpectedValueType(resultType))
  {
    if envelope.Err? {
      return qr, Some(envelope.error);
    }
    var resultType, payload := envelope.value.resultType, envelope.value.payload;
    r := qr.(resultType := resultType);
    match resultType
    case ValScalar =>
      r := r.(scalar := Some(payload.asScalar.GetOr(ScalarValue(0.0, 0))));
      err := if payload.asScalar.Some? then None else Some(DecodeError);
    case ValVector =>
      r := r.(vector := Some(payload.asVector.GetOr([])));
      err := if payload.asVector.Some? then None else Some(DecodeError);
    case ValMatrix =>
      r := r.(matrix := Some(payload.asMatrix.GetOr([])));
      err := if payload.asMatrix.Some? then None else Some(DecodeError);
    case _ =>
      err := Some(UnexpectedValueType(resultType));
  }

  /** The `k="v"` entries of the labels, in the given order. */
  function Entries(order: seq<LabelName>, labels: LabelSet): (r: seq<string>)
    requires forall i :: 0 <= i < |order| ==> order[i] in labels
    ensures |r| == |order|
    ensures forall i :: 0 <= i < |order| ==> r[i] == LabelEq(order[i], labels[order[i]])
  {
    if |order| == 0 then [] else [LabelEq(order[0], labels[order[0]])] + Entries(order[1..], labels)
  }

  /** `Series.String`: `name{k1="v1",...}` with one entry per label, in Go's
      (unspecified) map order, which `order` reports. */
  method SeriesString(s: Series) returns (out: string, order: seq<LabelName>)
    ensures Distinct(order) && forall l :: l in s.labels <==> l in order
    ensures out == s.name + "{" + Join(Entries(order, s.labels), ",") + "}"
  {
    var lblStrings: seq<string> := [];
    var remaining := s.labels.Keys;
    order := [];
    while remaining != {}
      invariant remaining <= s.labels.Keys
      invariant forall i :: 0 <= i < |order| ==> order[i] in s.labels && order[i] !in remaining
      invariant forall l :: l in s.labels ==> l in remaining || l in order
      invariant Distinct(order)
      invariant |lblStrings| == |order|
      invariant forall i :: 0 <= i < |order| ==> lblStrings[i] == LabelEq(order[i], s.labels[order[i]])
      decreases |remaining|
    {
      var k :| k in remaining;
      lblStrings := lblStrings + [LabelEq(k, s.labels[k])];
      order := order + [k];
      remaining := remaining - {k};
    }
    assert lblStrings == Entries(order, s.labels);
    out := s.name + "{" + Join(lblStrings, ",") + "}";
  }

  /** Each entry of a printed series reads back as the equality matcher of its label and value. */
  lemma EntriesParse(order: seq<LabelName>, labels: LabelSet, i: nat)
    requires forall j :: 0 <= j < |order| ==> order[j] in labels
    requires i < |order| && PlainLabel(order[i])
    ensures ParseMatcher(Entries(order, labels)[i]) == Some(Matcher(order[i], Equal, labels[order[i]]))
  {
    BuildersParse(order[i], labels[order[i]]);
  }
}
