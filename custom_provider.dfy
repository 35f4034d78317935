/** The custom metrics provider: it answers the host platform's questions
    about a named object or a list of objects by asking the series registry
    for a query, running it on the backend and matching the samples back to
    object names; and the caching lister behind it, which periodically
    rediscovers the series of every rule and replaces the registry. */
module CustomProvider {
  import opened Wrappers
  import opened Model
  import opened Foreign
  import opened MetricNaming
  import opened SeriesRegistries

  /** A metric value as the metrics API reports it; the quantity is kept in
      thousandths. */
  datatype MetricValue = MetricValue(describedObject: ObjectReference, metricName: string, timestamp: Time, milliValue: int)

  /** `metricFor`: the value of one object, described by the mapper's
      reference to it and stamped with the current time. */
  function MetricFor(mapper: Mapper, value: SampleValue, name: NamespacedName, info: MetricInfo, now: Time)
    : (r: Result<MetricValue, Error>)
    ensures r.Err? <==> mapper.referenceFor(info.groupResource, name).None?
    ensures r.Err? ==> r.error == ReferenceError(info.groupResource, name.name)
    ensures r.Ok? ==>
      && r.value.describedObject == mapper.referenceFor(info.groupResource, name).value
      && r.value.metricName == info.metric && r.value.timestamp == now
      && r.value.milliValue == Milli(value)
  {
    match mapper.referenceFor(info.groupResource, name)
    case None => Err(ReferenceError(info.groupResource, name.name))
    case Some(ref) => Ok(MetricValue(ref, info.metric, now, Milli(value)))
  }

  // ---------------------------------------------------------------------------
  // Values for a list of objects

  /** The requested names that have a value, in request order. */
  function Kept(names: seq<string>, values: map<string, SampleValue>): (ks: seq<string>)
    ensures |ks| <= |names|
    ensures forall x :: x in ks <==> x in names && x in values
  {
    if |names| == 0 then []
    else
      var rest := Kept(names[..|names| - 1], values);
      var last := names[|names| - 1];
      assert names == names[..|names| - 1] + [last];
      if last in values then rest + [last] else rest
  }

  /** The value reported for a requested name that has one. */
  function Reported(mapper: Mapper, values: map<string, SampleValue>, info: MetricInfo, namespace: string, now: Time,
                    name: string): Result<MetricValue, Error>
    requires name in values
  {
    MetricFor(mapper, values[name], NamespacedName(namespace, name), info, now)
  }

  /** The values reported for the names `ks`, in order, the first failing
      reference failing the list. */
  function Reports(mapper: Mapper, values: map<string, SampleValue>, info: MetricInfo, namespace: string, now: Time,
                   ks: seq<string>): Result<seq<MetricValue>, Error>
    requires forall k :: 0 <= k < |ks| ==> ks[k] in values
  {
    if |ks| == 0 then Ok([])
    else match Reports(mapper, values, info, namespace, now, ks[..|ks| - 1])
      case Err(e) => Err(e)
      case Ok(vs) =>
        match Reported(mapper, values, info, namespace, now, ks[|ks| - 1])
        case Err(e) => Err(e)
        case Ok(v) => Ok(vs + [v])
  }

  /** The loop of `metricsFor`: a value for each requested name that has one,
      in request order, the first failing reference failing the list. */
  function ValuesFor(mapper: Mapper, values: map<string, SampleValue>, info: MetricInfo, namespace: string,
                     names: seq<string>, now: Time): Result<seq<MetricValue>, Error>
  {
    Reports(mapper, values, info, namespace, now, Kept(names, values))
  }

  /** Index of the first name whose value cannot be reported, or the number of names. */
  function FirstUnreported(mapper: Mapper, values: map<string, SampleValue>, info: MetricInfo, namespace: string,
                           now: Time, ks: seq<string>): (i: nat)
    requires forall k :: 0 <= k < |ks| ==> ks[k] in values
    ensures i <= |ks|
    ensures forall j :: 0 <= j < i ==> Reported(mapper, values, info, namespace, now, ks[j]).Ok?
    ensures i < |ks| ==> Reported(mapper, values, info, namespace, now, ks[i]).Err?
  {
    if |ks| == 0 then 0
    else
      var n := |ks| - 1;
      var p := FirstUnreported(mapper, values, info, namespace, now, ks[..n]);
      if p < n then p
      else if Reported(mapper, values, info, namespace, now, ks[n]).Err? then n
      else n + 1
  }

  /** The reported list has one entry per name, in order, and fails exactly
      when the reference of a name cannot be made, with the error of the
      first such name. */
  lemma {:induction false} ReportsAll(mapper: Mapper, values: map<string, SampleValue>, info: MetricInfo,
                                      namespace: string, now: Time, ks: seq<string>)
    requires forall k :: 0 <= k < |ks| ==> ks[k] in values
    ensures var r := Reports(mapper, values, info, namespace, now, ks);
      var bad := FirstUnreported(mapper, values, info, namespace, now, ks);
      && (r.Ok? <==> bad == |ks|)
      && (r.Err? ==> r.error == Reported(mapper, values, info, namespace, now, ks[bad]).error)
      && (r.Ok? ==> |r.value| == |ks|)
      && (r.Ok? ==> forall k :: 0 <= k < |ks| ==> r.value[k] == Reported(mapper, values, info, namespace, now, ks[k]).value)
  {
    if |ks| > 0 {
      var n := |ks| - 1;
      ReportsAll(mapper, values, info, namespace, now, ks[..n]);
      assert forall k :: 0 <= k < n ==> ks[..n][k] == ks[k];
    }
  }

  /** A failure on a prefix of the names fails the whole list with the same error. */
  lemma {:induction false} ReportsPrefix(mapper: Mapper, values: map<string, SampleValue>, info: MetricInfo,
                                         namespace: string, now: Time, ks: seq<string>, n: nat)
    requires forall k :: 0 <= k < |ks| ==> ks[k] in values
    requires n <= |ks| && Reports(mapper, values, info, namespace, now, ks[..n]).Err?
    ensures Reports(mapper, values, info, namespace, now, ks) == Reports(mapper, values, info, namespace, now, ks[..n])
    decreases |ks| - n
  {
    if n < |ks| {
      assert ks[..n + 1][..n] == ks[..n];
      ReportsPrefix(mapper, values, info, namespace, now, ks, n + 1);
    } else {
      assert ks[..n] == ks;
    }
  }

  /** The names kept from a prefix of the request are a prefix of the names kept. */
  lemma {:induction false} KeptPrefix(names: seq<string>, values: map<string, SampleValue>, n: nat)
    requires n <= |names|
    ensures |Kept(names[..n], values)| <= |Kept(names, values)|
    ensures Kept(names, values)[..|Kept(names[..n], values)|] == Kept(names[..n], values)
    decreases |names| - n
  {
    if n < |names| {
      var m := |names| - 1;
      assert names[..m][..n] == names[..n];
      KeptPrefix(names[..m], values, n);
      var ks := Kept(names, values);
      var ks0 := Kept(names[..m], values);
      assert ks == if names[m] in values then ks0 + [names[m]] else ks0;
    } else {
      assert names[..n] == names;
    }
  }

  /** One more requested name: kept exactly when it has a value. */
  lemma KeptStep(names: seq<string>, values: map<string, SampleValue>, i: nat)
    requires i < |names|
    ensures Kept(names[..i + 1], values) ==
      if names[i] in values then Kept(names[..i], values) + [names[i]] else Kept(names[..i], values)
  {
    assert names[..i + 1][..i] == names[..i];
  }

  /** One more reported name: its value is added, or its failure fails the
      list. */
  lemma ReportsStep(mapper: Mapper, values: map<string, SampleValue>, info: MetricInfo, namespace: string, now: Time,
                    ks: seq<string>, k: string)
    requires k in values && forall j :: 0 <= j < |ks| ==> ks[j] in values
    requires Reports(mapper, values, info, namespace, now, ks).Ok?
    ensures var v := Reported(mapper, values, info, namespace, now, k);
      Reports(mapper, values, info, namespace, now, ks + [k]) ==
        if v.Ok? then Ok(Reports(mapper, values, info, namespace, now, ks).value + [v.value]) else Err(v.error)
  {
    assert (ks + [k])[..|ks|] == ks;
  }

  /** A requested name whose value cannot be reported, all kept names before
      it reported, fails the whole list with its error. */
  lemma ValuesFail(mapper: Mapper, values: map<string, SampleValue>, info: MetricInfo, namespace: string,
                   names: seq<string>, now: Time, i: nat)
    requires i < |names| && names[i] in values
    requires Reports(mapper, values, info, namespace, now, Kept(names[..i + 1], values)).Err?
    ensures ValuesFor(mapper, values, info, namespace, names, now) ==
      Reports(mapper, values, info, namespace, now, Kept(names[..i + 1], values))
  {
    var kept, pre := Kept(names, values), Kept(names[..i + 1], values);
    KeptPrefix(names, values, i + 1);
    assert kept[..|pre|] == pre;
    ReportsPrefix(mapper, values, info, namespace, now, kept, |pre|);
  }

  /** The loop of `metricsFor`. */
  method CollectValues(mapper: Mapper, values: map<string, SampleValue>, info: MetricInfo, namespace: string,
                       names: seq<string>, now: Time) returns (r: Result<seq<MetricValue>, Error>)
    ensures r == ValuesFor(mapper, values, info, namespace, names, now)
  {
    var res: seq<MetricValue> := [];
    for i := 0 to |names|
      invariant Reports(mapper, values, info, namespace, now, Kept(names[..i], values)) == Ok(res)
    {
      KeptStep(names, values, i);
      var name := names[i];
      if name !in values {
        continue;
      }
      ReportsStep(mapper, values, info, namespace, now, Kept(names[..i], values), name);
      var value := Reported(mapper, values, info, namespace, now, name);
      if value.Err? {
        ValuesFail(mapper, values, info, namespace, names, now, i);
        return Err(value.error);
      }
      res := res + [value.value];
    }
    assert names[..|names|] == names;
    return Ok(res);
  }

  /** What `buildQuery` makes of the registry's query: not found without one,
      an internal error when the backend fails or answers with anything but a
      vector, and otherwise the vector. */
  function QueryAnswer(client: Client, now: Time, info: MetricInfo, query: Option<Selector>): (r: Result<Vector, Error>)
    ensures query.None? ==> r == Err(MetricNotFound(info.groupResource, info.metric))
    ensures r.Ok? <==>
      && query.Some? && client.query(now, query.value).Ok?
      && client.query(now, query.value).value.resultType == ValVector
      && client.query(now, query.value).value.vector.Some?
    ensures r.Ok? ==> r.value == client.query(now, query.value).value.vector.value
    ensures query.Some? && r.Err? ==> r.error == InternalError
  {
    match query
    case None => Err(MetricNotFound(info.groupResource, info.metric))
    case Some(q) =>
      match client.query(now, q)
      case Err(_) => Err(InternalError)
      case Ok(res) =>
        if res.resultType != ValVector || res.vector.None? then Err(InternalError) else Ok(res.vector.value)
  }

  // ---------------------------------------------------------------------------
  // The provider

  class PrometheusProvider {
    const mapper: Mapper
    const client: Client
    /** The registry the caching lister keeps up to date. */
    const registry: SeriesRegistry

    constructor (mapper: Mapper, client: Client, registry: SeriesRegistry)
      ensures this.mapper == mapper && this.client == client && this.registry == registry
    {
      this.mapper := mapper;
      this.client := client;
      this.registry := registry;
    }

    /** What `buildQuery` answers in the current state. */
    function BuildQueryOutcome(info: MetricInfo, namespace: string, names: seq<string>, now: Time): Result<Vector, Error>
      reads registry, registry.converters
      requires registry.Valid()
    {
      QueryAnswer(client, now, info, registry.QueryOutcome(info, namespace, names))
    }

    /** `buildQuery`: the registry's query for the objects, run at `now`. */
    method BuildQuery(info: MetricInfo, namespace: string, names: seq<string>, now: Time) returns (r: Result<Vector, Error>)
      requires registry.Valid()
      modifies registry.converters
      ensures registry.Valid()
      ensures r == old(BuildQueryOutcome(info, namespace, names, now))
      ensures forall c, g :: c in registry.converters ==> c.LabelOutcome(g) == old(c.LabelOutcome(g))
    {
      var query := registry.QueryForMetric(info, namespace, names);
      if query.None? {
        return Err(MetricNotFound(info.groupResource, info.metric));
      }
      var answer := client.query(now, query.value);
      if answer.Err? {
        return Err(InternalError);
      }
      if answer.value.resultType != ValVector || answer.value.vector.None? {
        return Err(InternalError);
      }
      return Ok(answer.value.vector.value);
    }

    /** What `metricsFor` answers in the current state. */
    function MetricsForOutcome(valueSet: Vector, info: MetricInfo, namespace: string, names: seq<string>, now: Time)
      : Result<seq<MetricValue>, Error>
      reads registry, registry.converters
      requires registry.Valid()
    {
      match registry.MatchOutcome(info, valueSet)
      case None => Err(MetricNotFound(info.groupResource, info.metric))
      case Some(values) => ValuesFor(mapper, values, info, namespace, names, now)
    }

    /** `metricsFor`: the samples matched to object names, then a value for
        each requested name that has one, in request order. */
    method MetricsFor(valueSet: Vector, info: MetricInfo, namespace: string, names: seq<string>, now: Time)
      returns (r: Result<seq<MetricValue>, Error>)
      requires registry.Valid()
      modifies registry.converters
      ensures registry.Valid()
      ensures r == old(MetricsForOutcome(valueSet, info, namespace, names, now))
      ensures forall c, g :: c in registry.converters ==> c.LabelOutcome(g) == old(c.LabelOutcome(g))
    {
      var values := registry.MatchValuesToNames(info, valueSet);
      if values.None? {
        return Err(MetricNotFound(info.groupResource, info.metric));
      }
      r := CollectValues(mapper, values.value, info, namespace, names, now);
    }

    /** What `GetMetricByName` answers in the current state. */
    function ByNameOutcome(name: NamespacedName, info: MetricInfo, now: Time): Result<MetricValue, Error>
      reads registry, registry.converters
      requires registry.Valid()
    {
      match BuildQueryOutcome(info, name.namespace, [name.name], now)
      case Err(e) => Err(e)
      case Ok(results) =>
        if |results| < 1 then Err(MetricNotFoundFor(info.groupResource, info.metric, name.name))
        else match registry.MatchOutcome(info, results)
          case None => Err(MetricNotFound(info.groupResource, info.metric))
          case Some(named) =>
            if name.name !in named then Err(MetricNotFoundFor(info.groupResource, info.metric, name.name))
            else MetricFor(mapper, named[name.name], name, info, now)
    }

    /** `GetMetricByName`: the value of one named object. */
    method GetMetricByName(name: NamespacedName, info: MetricInfo, now: Time) returns (r: Result<MetricValue, Error>)
      requires registry.Valid()
      modifies registry.converters
      ensures registry.Valid()
      ensures r == old(ByNameOutcome(name, info, now))
      ensures forall c, g :: c in registry.converters ==> c.LabelOutcome(g) == old(c.LabelOutcome(g))
    {
      var results := BuildQuery(info, name.namespace, [name.name], now);
      if results.Err? {
        return Err(results.error);
      }
      if |results.value| < 1 {
        return Err(MetricNotFoundFor(info.groupResource, info.metric, name.name));
      }
      var named := registry.MatchValuesToNames(info, results.value);
      if named.None? {
        return Err(MetricNotFound(info.groupResource, info.metric));
      }
      if name.name !in named.value {
        return Err(MetricNotFoundFor(info.groupResource, info.metric, name.name));
      }
      r := MetricFor(mapper, named.value[name.name], name, info, now);
    }

    /** What `GetMetricBySelector` answers in the current state, given what
        listing the selected objects answered. */
    function BySelectorOutcome(namespace: string, listed: Result<seq<string>, Error>, info: MetricInfo, now: Time)
      : Result<seq<MetricValue>, Error>
      reads registry, registry.converters
      requires registry.Valid()
    {
      match listed
      case Err(_) => Err(InternalError)
      case Ok(names) =>
        match BuildQueryOutcome(info, namespace, names, now)
        case Err(e) => Err(e)
        case Ok(results) => MetricsForOutcome(results, info, namespace, names, now)
    }

    /** `GetMetricBySelector`: the values of the objects the selector lists
        (the listing is passed in). */
    method GetMetricBySelector(namespace: string, listed: Result<seq<string>, Error>, info: MetricInfo, now: Time)
      returns (r: Result<seq<MetricValue>, Error>)
      requires registry.Valid()
      modifies registry.converters
      ensures registry.Valid()
      ensures r == old(BySelectorOutcome(namespace, listed, info, now))
      ensures forall c, g :: c in registry.converters ==> c.LabelOutcome(g) == old(c.LabelOutcome(g))
    {
      if listed.Err? {
        return Err(InternalError);
      }
      var results := BuildQuery(info, namespace, listed.value, now);
      if results.Err? {
        return Err(results.error);
      }
      r := MetricsFor(results.value, info, namespace, listed.value, now);
    }

    /** A value reported for a named object describes that object, names the
        requested metric, and is one of the samples the registry's query
        returned; no query for the object means the metric is not found. */
    lemma ByNameFromSample(name: NamespacedName, info: MetricInfo, now: Time)
      requires registry.Valid()
      ensures registry.QueryOutcome(info, name.namespace, [name.name]).None? ==>
        ByNameOutcome(name, info, now) == Err(MetricNotFound(info.groupResource, info.metric))
      ensures ByNameOutcome(name, info, now).Ok? ==>
        var v := ByNameOutcome(name, info, now).value;
        var results := BuildQueryOutcome(info, name.namespace, [name.name], now).value;
        && BuildQueryOutcome(info, name.namespace, [name.name], now).Ok?
        && v.describedObject == mapper.referenceFor(info.groupResource, name).value
        && v.metricName == info.metric && v.timestamp == now
        && exists i :: 0 <= i < |results| && results[i].Some? && v.milliValue == Milli(results[i].value.value)
    {
      var r := ByNameOutcome(name, info, now);
      if r.Ok? {
        var results := BuildQueryOutcome(info, name.namespace, [name.name], now).value;
        var named := registry.MatchOutcome(info, results).value;
        var m := NormalizeInfo(registry.mapper, info).value;
        var lbl := registry.info[m].namer.converter.LabelOutcome(m.groupResource).value;
        assert named == Matched(results, lbl);
        MatchedLastWins(results, lbl, name.name);
      }
    }
  }

  // ---------------------------------------------------------------------------
  // Series discovery

  /** The interval discovery asks about: from `maxAge` before `now` to the
      backend's time zero. */
  function DiscoveryInterval(now: Time, maxAge: Duration): (iv: Interval)
    ensures iv.end == 0
    ensures maxAge >= 0 ==> iv.start <= now && (now - iv.start) * NanosPerMilli <= maxAge < (now - iv.start + 1) * NanosPerMilli
    ensures maxAge < 0 ==> now <= iv.start && (iv.start - now) * NanosPerMilli <= -maxAge < (iv.start - now + 1) * NanosPerMilli
  {
    Interval(AddDuration(now, -maxAge), 0)
  }

  /** The fetch for one selector. */
  function Answer(client: Client, iv: Interval, sel: Selector): Result<Option<seq<Series>>, Error>
  {
    client.series(iv, [sel])
  }

  /** The fetch for a selector succeeds with a series list (possibly empty, not nil). */
  predicate Fetched(client: Client, iv: Interval, sel: Selector)
  {
    Answer(client, iv, sel).Ok? && Answer(client, iv, sel).value.Some?
  }

  /** The selector of each namer. */
  function SelectorsOf(namers: seq<MetricNamer>): (sels: seq<Selector>)
    ensures |sels| == |namers| && forall i :: 0 <= i < |namers| ==> sels[i] == namers[i].seriesQuery
  {
    seq(|namers|, i requires 0 <= i < |namers| => namers[i].seriesQuery)
  }

  /** What each namer's turn of the launch loop leaves behind: nothing for a
      selector an earlier namer already fetches, else the selector's answer. */
  function Launches(client: Client, iv: Interval, sels: seq<Selector>): (r: seq<Option<Result<Option<seq<Series>>, Error>>>)
    ensures |r| == |sels|
  {
    if |sels| == 0 then []
    else
      var n := |sels| - 1;
      Launches(client, iv, sels[..n]) + [if sels[n] in sels[..n] then None else Some(Answer(client, iv, sels[n]))]
  }

  /** Namer `i`'s turn fetches its selector unless an earlier namer has it. */
  lemma {:induction false} LaunchesAt(client: Client, iv: Interval, sels: seq<Selector>, i: nat)
    requires i < |sels|
    ensures Launches(client, iv, sels)[i] == if sels[i] in sels[..i] then None else Some(Answer(client, iv, sels[i]))
  {
    var n := |sels| - 1;
    if i < n {
      LaunchesAt(client, iv, sels[..n], i);
      assert sels[..n][..i] == sels[..i];
    }
  }

  /** Each selector is fetched once: by the first namer that has it. */
  lemma LaunchedOnce(client: Client, iv: Interval, sels: seq<Selector>, sel: Selector)
    ensures sel in sels <==> exists i :: 0 <= i < |sels| && sels[i] == sel && Launches(client, iv, sels)[i].Some?
    ensures forall i, j :: 0 <= i < j < |sels| && sels[i] == sel && sels[j] == sel ==> Launches(client, iv, sels)[j].None?
  {
    var ls := Launches(client, iv, sels);
    if sel in sels {
      var i := FirstIndex(sels, sel);
      LaunchesAt(client, iv, sels, i);
    }
    forall i, j | 0 <= i < j < |sels| && sels[i] == sel && sels[j] == sel ensures ls[j].None? {
      LaunchesAt(client, iv, sels, j);
      assert sels[..j][i] == sel;
    }
  }

  /** The first index of a member. */
  function FirstIndex(sels: seq<Selector>, sel: Selector): (i: nat)
    requires sel in sels
    ensures i < |sels| && sels[i] == sel && sel !in sels[..i]
  {
    if sels[0] == sel then 0
    else
      var i := FirstIndex(sels[1..], sel);
      assert sels[..i + 1] == [sels[0]] + sels[1..][..i];
      i + 1
  }

  /** The reading loop of `updateMetrics`: the answers in namer order, the
      first failure failing the update, non-nil series cached by selector. */
  function CacheOf(sels: seq<Selector>, launches: seq<Option<Result<Option<seq<Series>>, Error>>>)
    : Result<map<Selector, seq<Series>>, Error>
    requires |launches| == |sels|
  {
    if |sels| == 0 then Ok(map[])
    else
      var n := |sels| - 1;
      match CacheOf(sels[..n], launches[..n])
      case Err(e) => Err(e)
      case Ok(cache) =>
        match launches[n]
        case None => Ok(cache)
        case Some(Err(e)) => Err(FetchError(sels[n], e))
        case Some(Ok(None)) => Ok(cache)
        case Some(Ok(Some(series))) => Ok(cache[sels[n] := series])
  }

  /** Reading the answers succeeds exactly when every selector's fetch
      succeeds; the cache then holds the series of exactly the selectors whose
      answer is not nil. */
  lemma {:induction false} CacheOfAnswers(client: Client, iv: Interval, sels: seq<Selector>)
    ensures var r := CacheOf(sels, Launches(client, iv, sels));
      && (r.Ok? <==> forall i :: 0 <= i < |sels| ==> Answer(client, iv, sels[i]).Ok?)
      && (r.Ok? ==> forall sel :: sel in r.value <==> sel in sels && Fetched(client, iv, sel))
      && (r.Ok? ==> forall sel :: sel in r.value ==> r.value[sel] == Answer(client, iv, sel).value.value)
  {
    if |sels| > 0 {
      var n := |sels| - 1;
      var init, last := sels[..n], sels[n];
      CacheOfAnswers(client, iv, init);
      var ls := Launches(client, iv, sels);
      assert ls[..n] == Launches(client, iv, init);
      assert ls[n] == if last in init then None else Some(Answer(client, iv, last));
      var r0 := CacheOf(init, ls[..n]);
      var r := CacheOf(sels, ls);
      assert forall i :: 0 <= i < n ==> init[i] == sels[i];
      assert forall sel :: sel in sels <==> sel in init || sel == last;
      if r0.Err? {
        assert r == r0;
        var i :| 0 <= i < n && Answer(client, iv, init[i]).Err?;
      } else if last in init {
        assert r == r0;
        var j :| 0 <= j < n && init[j] == last;
      } else if Answer(client, iv, last).Err? {
        assert r.Err?;
      } else if Answer(client, iv, last).value.None? {
        assert r == r0;
      } else {
        assert r == Ok(r0.value[last := Answer(client, iv, last).value.value]);
      }
    }
  }

  /** A failed read carries the error of the first selector whose fetch
      failed. */
  lemma {:induction false} CacheOfFailure(client: Client, iv: Interval, sels: seq<Selector>)
    ensures var r := CacheOf(sels, Launches(client, iv, sels));
      r.Err? ==>
        exists i :: 0 <= i < |sels| && Answer(client, iv, sels[i]).Err? &&
          (forall j :: 0 <= j < i ==> Answer(client, iv, sels[j]).Ok?) &&
          r.error == FetchError(sels[i], Answer(client, iv, sels[i]).error)
  {
    if |sels| > 0 {
      var n := |sels| - 1;
      var init, last := sels[..n], sels[n];
      CacheOfFailure(client, iv, init);
      CacheOfAnswers(client, iv, init);
      var ls := Launches(client, iv, sels);
      assert ls[..n] == Launches(client, iv, init);
      assert ls[n] == if last in init then None else Some(Answer(client, iv, last));
      var r0 := CacheOf(init, ls[..n]);
      var r := CacheOf(sels, ls);
      assert forall i :: 0 <= i < n ==> init[i] == sels[i];
      if r0.Err? {
        assert r == r0;
        var i :| 0 <= i < n && Answer(client, iv, init[i]).Err? &&
          (forall j :: 0 <= j < i ==> Answer(client, iv, init[j]).Ok?) &&
          r0.error == FetchError(init[i], Answer(client, iv, init[i]).error);
      } else if last !in init && Answer(client, iv, last).Err? {
        assert r == Err(FetchError(last, Answer(client, iv, last).error));
      }
    }
  }

  /** The series handed to the registry: for each namer, the filtered
      series of its selector; the first namer whose selector has none fails
      the update. */
  function NewSeries(namers: seq<MetricNamer>, cache: map<Selector, seq<Series>>): (r: Result<seq<seq<Series>>, Error>)
    ensures r.Ok? ==> |r.value| == |namers|
  {
    if |namers| == 0 then Ok([])
    else
      var n := |namers| - 1;
      match NewSeries(namers[..n], cache)
      case Err(e) => Err(e)
      case Ok(ns) =>
        var sel := namers[n].seriesQuery;
        if sel !in cache then Err(NoSeriesFetched(sel))
        else Ok(ns + [Filtered(namers[n].re, namers[n].seriesMatchers, cache[sel])])
  }

  /** The series list succeeds exactly when every namer's selector is
      cached, and then holds each namer's filtered series; otherwise it names
      the first namer's selector that is not. */
  lemma {:induction false} NewSeriesFiltered(namers: seq<MetricNamer>, cache: map<Selector, seq<Series>>)
    ensures var r := NewSeries(namers, cache);
      && (r.Ok? <==> forall i :: 0 <= i < |namers| ==> namers[i].seriesQuery in cache)
      && (r.Ok? ==>
            forall i :: 0 <= i < |namers| ==>
              r.value[i] == Filtered(namers[i].re, namers[i].seriesMatchers, cache[namers[i].seriesQuery]))
      && (r.Err? ==>
            exists i :: 0 <= i < |namers| && namers[i].seriesQuery !in cache &&
              (forall j :: 0 <= j < i ==> namers[j].seriesQuery in cache) &&
              r.error == NoSeriesFetched(namers[i].seriesQuery))
  {
    if |namers| > 0 {
      var n := |namers| - 1;
      NewSeriesFiltered(namers[..n], cache);
      assert forall i :: 0 <= i < n ==> namers[..n][i] == namers[i];
    }
  }

  /** What an update computes: the answers read into the cache, then the
      series per namer. */
  function UpdateOutcome(client: Client, iv: Interval, namers: seq<MetricNamer>): (r: Result<seq<seq<Series>>, Error>)
    ensures r.Ok? ==> |r.value| == |namers|
  {
    var sels := SelectorsOf(namers);
    match CacheOf(sels, Launches(client, iv, sels))
    case Err(e) => Err(e)
    case Ok(cache) => NewSeries(namers, cache)
  }

  /** An update succeeds exactly when every namer's selector answers with a
      non-nil series list, and then hands each namer its selector's series,
      filtered. A failing fetch fails it with a fetch error; when every fetch
      succeeds, a nil answer fails it naming that namer's selector. */
  lemma UpdateSucceeds(client: Client, iv: Interval, namers: seq<MetricNamer>)
    ensures var r := UpdateOutcome(client, iv, namers);
      && (r.Ok? <==> forall i :: 0 <= i < |namers| ==> Fetched(client, iv, namers[i].seriesQuery))
      && (r.Ok? ==>
            forall i :: 0 <= i < |namers| ==>
              r.value[i] == Filtered(namers[i].re, namers[i].seriesMatchers, Answer(client, iv, namers[i].seriesQuery).value.value))
      && ((exists i :: 0 <= i < |namers| && Answer(client, iv, namers[i].seriesQuery).Err?) ==> r.Err? && r.error.FetchError?)
      && (r.Err? && (forall i :: 0 <= i < |namers| ==> Answer(client, iv, namers[i].seriesQuery).Ok?) ==>
            exists i :: 0 <= i < |namers| && Answer(client, iv, namers[i].seriesQuery) == Ok(None) &&
              r.error == NoSeriesFetched(namers[i].seriesQuery))
  {
    var sels := SelectorsOf(namers);
    CacheOfAnswers(client, iv, sels);
    CacheOfFailure(client, iv, sels);
    var c := CacheOf(sels, Launches(client, iv, sels));
    if c.Ok? {
      NewSeriesFiltered(namers, c.value);
      assert forall i :: 0 <= i < |namers| ==> (namers[i].seriesQuery in c.value <==> Fetched(client, iv, namers[i].seriesQuery));
    }
  }

  /** The launch loop of `updateMetrics`: each selector not yet seen is
      fetched; every namer's turn leaves its answer or nothing. */
  method Launch(client: Client, iv: Interval, namers: seq<MetricNamer>)
    returns (launches: seq<Option<Result<Option<seq<Series>>, Error>>>)
    ensures launches == Launches(client, iv, SelectorsOf(namers))
  {
    ghost var sels := SelectorsOf(namers);
    var selectors: set<Selector> := {};
    launches := [];
    for i := 0 to |namers|
      invariant forall s :: s in selectors <==> s in sels[..i]
      invariant launches == Launches(client, iv, sels[..i])
    {
      assert sels[..i + 1][..i] == sels[..i];
      var sel := namers[i].seriesQuery;
      if sel in selectors {
        launches := launches + [None];
        continue;
      }
      selectors := selectors + {sel};
      var answer := client.series(iv, [sel]);
      launches := launches + [Some(answer)];
    }
    assert sels[..|namers|] == sels;
  }

  /** The reading loop of `updateMetrics`. */
  method ReadAnswers(sels: seq<Selector>, launches: seq<Option<Result<Option<seq<Series>>, Error>>>)
    returns (r: Result<map<Selector, seq<Series>>, Error>)
    requires |launches| == |sels|
    ensures r == CacheOf(sels, launches)
  {
    var cache: map<Selector, seq<Series>> := map[];
    for i := 0 to |sels|
      invariant CacheOf(sels[..i], launches[..i]) == Ok(cache)
    {
      assert sels[..i + 1][..i] == sels[..i] && launches[..i + 1][..i] == launches[..i];
      match launches[i]
      case None =>
      case Some(answer) =>
        if answer.Err? {
          CacheOfPrefix(sels, launches, i + 1);
          return Err(FetchError(sels[i], answer.error));
        }
        if answer.value.Some? {
          cache := cache[sels[i] := answer.value.value];
        }
    }
    assert sels[..|sels|] == sels && launches[..|launches|] == launches;
    return Ok(cache);
  }

  /** A failure on a prefix of the answers fails the whole reading with the same error. */
  lemma {:induction false} CacheOfPrefix(sels: seq<Selector>, launches: seq<Option<Result<Option<seq<Series>>, Error>>>, n: nat)
    requires |launches| == |sels| && n <= |sels| && CacheOf(sels[..n], launches[..n]).Err?
    ensures CacheOf(sels, launches) == CacheOf(sels[..n], launches[..n])
    decreases |sels| - n
  {
    if n < |sels| {
      assert sels[..n + 1][..n] == sels[..n] && launches[..n + 1][..n] == launches[..n];
      CacheOfPrefix(sels, launches, n + 1);
    } else {
      assert sels[..n] == sels && launches[..n] == launches;
    }
  }

  /** The last loop of `updateMetrics`: each namer's cached series, filtered. */
  method CollectSeries(namers: seq<MetricNamer>, cache: map<Selector, seq<Series>>) returns (r: Result<seq<seq<Series>>, Error>)
    ensures r == NewSeries(namers, cache)
  {
    var newSeries: seq<seq<Series>> := [];
    for i := 0 to |namers|
      invariant NewSeries(namers[..i], cache) == Ok(newSeries)
    {
      assert namers[..i + 1][..i] == namers[..i];
      var sel := namers[i].seriesQuery;
      if sel !in cache {
        NewSeriesPrefix(namers, cache, i + 1);
        return Err(NoSeriesFetched(sel));
      }
      var filtered := namers[i].FilterSeries(cache[sel]);
      newSeries := newSeries + [filtered];
    }
    assert namers[..|namers|] == namers;
    return Ok(newSeries);
  }

  /** A failure on a prefix of the namers fails the whole list with the same error. */
  lemma {:induction false} NewSeriesPrefix(namers: seq<MetricNamer>, cache: map<Selector, seq<Series>>, n: nat)
    requires n <= |namers| && NewSeries(namers[..n], cache).Err?
    ensures NewSeries(namers, cache) == NewSeries(namers[..n], cache)
    decreases |namers| - n
  {
    if n < |namers| {
      assert namers[..n + 1][..n] == namers[..n];
      NewSeriesPrefix(namers, cache, n + 1);
    } else {
      assert namers[..n] == namers;
    }
  }

  /** The discovery of `updateMetrics`: fetch, read, filter. */
  method Discover(client: Client, iv: Interval, namers: seq<MetricNamer>) returns (r: Result<seq<seq<Series>>, Error>)
    ensures r == UpdateOutcome(client, iv, namers)
  {
    var launches := Launch(client, iv, namers);
    var cache := ReadAnswers(SelectorsOf(namers), launches);
    if cache.Err? {
      return Err(cache.error);
    }
    r := CollectSeries(namers, cache.value);
  }

  /** The lister that keeps the registry up to date. */
  class CachingMetricsLister {
    const registry: SeriesRegistry
    const client: Client
    const updateInterval: Duration
    const maxAge: Duration
    const namers: seq<MetricNamer>

    constructor (registry: SeriesRegistry, client: Client, updateInterval: Duration, maxAge: Duration, namers: seq<MetricNamer>)
      ensures this.registry == registry && this.client == client
      ensures this.updateInterval == updateInterval && this.maxAge == maxAge && this.namers == namers
    {
      this.registry := registry;
      this.client := client;
      this.updateInterval := updateInterval;
      this.maxAge := maxAge;
      this.namers := namers;
    }

    /** `updateMetrics`: rediscovers the series of every namer over the
        interval ending at time zero and starting `maxAge` before `now`, and
        replaces the registry with them; on any failure the registry is left
        as it was. */
    method UpdateMetrics(now: Time) returns (err: Option<Error>)
      requires Ready(namers) && Usable(namers)
      modifies registry, ConvertersOf(namers)
      ensures var out := UpdateOutcome(client, DiscoveryInterval(now, maxAge), namers);
        && (err.Some? <==> out.Err?)
        && (out.Err? ==> err == Some(out.error) && unchanged(registry))
        && (out.Ok? ==> registry.Valid() && registry.converters == ConvertersOf(namers))
        && (out.Ok? ==> Registers(registry.info, namers, out.value, old(Caches(namers))))
      ensures forall i :: 0 <= i < |namers| ==> namers[i].converter.Valid()
    {
      forall c | c in ConvertersOf(namers) ensures allocated(c) {
        ConvertersOfMembers(namers, c);
      }
      var newSeries := Discover(client, DiscoveryInterval(now, maxAge), namers);
      if newSeries.Err? {
        return Some(newSeries.error);
      }
      assert |newSeries.value| == |namers|;
      err := registry.SetSeries(newSeries.value, namers);
    }
  }

  /** `NewPrometheusProvider`: a registry for the mapper, a lister that keeps
      it up to date, and a provider that answers from it. */
  method NewPrometheusProvider(mapper: Mapper, client: Client, namers: seq<MetricNamer>, updateInterval: Duration, maxAge: Duration)
    returns (p: PrometheusProvider, lister: CachingMetricsLister)
    ensures fresh(p) && fresh(lister) && fresh(p.registry)
    ensures p.registry == lister.registry && p.registry.Valid() && p.registry.info == map[]
    ensures p.mapper == mapper && p.client == client && p.registry.mapper == mapper
    ensures lister.client == client && lister.namers == namers
    ensures lister.updateInterval == updateInterval && lister.maxAge == maxAge
  {
    var registry := new SeriesRegistry(mapper);
    lister := new CachingMetricsLister(registry, client, updateInterval, maxAge, namers);
    p := new PrometheusProvider(mapper, client, registry);
  }
}
