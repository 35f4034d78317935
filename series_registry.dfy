/** The series registry: the metrics the discovered series provide, each
    remembered with the series and the namer that answer queries for it. */
module SeriesRegistries {
  import opened Wrappers
  import opened Model
  import opened Foreign
  import opened ResourceConversion
  import opened MetricsQueries
  import opened MetricNaming

  /** The series a metric is served from, and the namer of its rule. */
  datatype SeriesInfo = SeriesInfo(seriesName: string, namer: MetricNamer)

  // ---------------------------------------------------------------------------
  // What registering a series means

  /** Two label caches that resolve every label alike. */
  ghost predicate SameResolution(c: ResourceConverter, a: map<LabelName, GroupResource>, b: map<LabelName, GroupResource>)
    requires c.ExtractorOk()
  {
    forall l :: c.Resolve(a, l) == c.Resolve(b, l)
  }

  /** The resources the labels of a series resolve to against the cache `known`. */
  function ResourceSet(c: ResourceConverter, known: map<LabelName, GroupResource>, labels: set<LabelName>): set<GroupResource>
    requires c.ExtractorOk()
  {
    set l | l in labels && c.Resolve(known, l).Some? :: c.Resolve(known, l).value
  }

  /** The identity a metric is registered under: the namespaces resource itself
      is never namespaced. */
  function InfoKey(g: GroupResource, namespaced: bool, name: string): (k: MetricInfo)
    ensures k.groupResource == g && k.metric == name
    ensures k.namespaced <==> namespaced && g != NamespacesResource
  {
    MetricInfo(g, g != NamespacesResource && namespaced, name)
  }

  /** The identities of metric `name` on each of the resources `rs`. */
  function KeysFor(rs: set<GroupResource>, namespaced: bool, name: string): set<MetricInfo>
  {
    set g | g in rs :: InfoKey(g, namespaced, name)
  }

  /** The identities one series registers when resolved against `known`: none
      when its name cannot be turned into a metric name; otherwise the metric on
      every resource one of its labels resolves to, namespaced when one of them
      is the namespaces resource. */
  function SeriesKeys(namer: MetricNamer, known: map<LabelName, GroupResource>, s: Series): set<MetricInfo>
    requires namer.re.Valid() && namer.converter.ExtractorOk()
  {
    match namer.MetricNameForSeries(s)
    case Err(_) => {}
    case Ok(name) =>
      var rs := ResourceSet(namer.converter, known, s.labels.Keys);
      KeysFor(rs, NamespacesResource in rs, name)
  }

  /** A label's resource is among the series' resources exactly when one of
      its labels resolves to it. */
  lemma ResourceSetMembers(c: ResourceConverter, known: map<LabelName, GroupResource>, labels: set<LabelName>, g: GroupResource)
    requires c.ExtractorOk()
    ensures g in ResourceSet(c, known, labels) <==> exists l :: l in labels && c.Resolve(known, l) == Some(g)
  {
  }

  /** A series registers the metric its name gives on exactly the resources
      its labels resolve to, namespaced when one of them is the namespaces
      resource but never on the namespaces resource itself; a series that
      cannot be named registers nothing. */
  lemma SeriesKeysMembers(namer: MetricNamer, known: map<LabelName, GroupResource>, s: Series, k: MetricInfo)
    requires namer.re.Valid() && namer.converter.ExtractorOk()
    ensures namer.MetricNameForSeries(s).Err? ==> SeriesKeys(namer, known, s) == {}
    ensures k in SeriesKeys(namer, known, s) <==>
      var rs := ResourceSet(namer.converter, known, s.labels.Keys);
      && namer.MetricNameForSeries(s) == Ok(k.metric)
      && k.groupResource in rs
      && (k.namespaced <==> k.groupResource != NamespacesResource && NamespacesResource in rs)
  {
  }

  /** The registry entries of one series: `v` under each identity it registers. */
  function SeriesEntries(keys: set<MetricInfo>, v: SeriesInfo): map<MetricInfo, SeriesInfo>
  {
    map k | k in keys :: v
  }

  /** `info` with the entries of every series of one namer added in order,
      `keys[j]` being the identities series `j` registers: a later series
      replaces the entry of an earlier one. */
  function SliceInfo(info: map<MetricInfo, SeriesInfo>, namer: MetricNamer, keys: seq<set<MetricInfo>>,
                     series: seq<Series>): map<MetricInfo, SeriesInfo>
    requires |keys| == |series|
  {
    if |series| == 0 then info
    else
      SliceInfo(info, namer, keys[..|keys| - 1], series[..|series| - 1])
        + SeriesEntries(keys[|keys| - 1], SeriesInfo(series[|series| - 1].name, namer))
  }

  /** Every namer can name series and resolve labels. */
  ghost predicate Usable(namers: seq<MetricNamer>)
  {
    forall i :: 0 <= i < |namers| ==> namers[i].re.Valid() && namers[i].converter.ExtractorOk()
  }

  /** The identities each series of a namer registers, its labels resolved
      against the cache `known`. */
  function KeysOf(namer: MetricNamer, known: map<LabelName, GroupResource>, series: seq<Series>): (ks: seq<set<MetricInfo>>)
    requires namer.re.Valid() && namer.converter.ExtractorOk()
    ensures |ks| == |series|
  {
    if |series| == 0 then []
    else KeysOf(namer, known, series[..|series| - 1]) + [SeriesKeys(namer, known, series[|series| - 1])]
  }

  /** Entry `j` of `KeysOf` is the identities series `j` registers. */
  lemma {:induction false} KeysOfAt(namer: MetricNamer, known: map<LabelName, GroupResource>, series: seq<Series>, j: nat)
    requires namer.re.Valid() && namer.converter.ExtractorOk()
    requires j < |series|
    ensures KeysOf(namer, known, series)[j] == SeriesKeys(namer, known, series[j])
  {
    if j < |series| - 1 {
      KeysOfAt(namer, known, series[..|series| - 1], j);
    }
  }

  /** The identities each series of each namer registers, namer `i`
      resolving against the cache `knowns[i]`. */
  function AllKeys(namers: seq<MetricNamer>, slices: seq<seq<Series>>, knowns: seq<map<LabelName, GroupResource>>)
    : (ks: seq<seq<set<MetricInfo>>>)
    requires |slices| == |namers| && |knowns| == |namers| && Usable(namers)
    ensures |ks| == |namers|
    ensures forall i :: 0 <= i < |namers| ==> ks[i] == KeysOf(namers[i], knowns[i], slices[i])
  {
    seq(|namers|, i requires 0 <= i < |namers| => KeysOf(namers[i], knowns[i], slices[i]))
  }

  /** One key set per series. */
  predicate Aligned(slices: seq<seq<Series>>, keys: seq<seq<set<MetricInfo>>>)
  {
    |keys| == |slices| && forall i :: 0 <= i < |slices| ==> |keys[i]| == |slices[i]|
  }

  /** The registry built from the series of the first `n` namers. */
  function Registered(namers: seq<MetricNamer>, slices: seq<seq<Series>>, keys: seq<seq<set<MetricInfo>>>, n: nat)
    : map<MetricInfo, SeriesInfo>
    requires |slices| == |namers| && Aligned(slices, keys) && n <= |namers|
  {
    if n == 0 then map[]
    else SliceInfo(Registered(namers, slices, keys, n - 1), namers[n - 1], keys[n - 1], slices[n - 1])
  }

  /** `info` is the registry the series `slices` give, namer `i` resolving
      labels against the cache `knowns[i]`. */
  ghost predicate Registers(info: map<MetricInfo, SeriesInfo>, namers: seq<MetricNamer>, slices: seq<seq<Series>>,
                            knowns: seq<map<LabelName, GroupResource>>)
    requires |slices| == |namers| && |knowns| == |namers| && Usable(namers)
  {
    var keys := AllKeys(namers, slices, knowns);
    Aligned(slices, keys) && info == Registered(namers, slices, keys, |namers|)
  }

  /** A metric is in a namer's part of the registry exactly when it was there
      before or one of the namer's series registers it; its entry is then the
      earlier one or names such a series. */
  lemma {:induction false} SliceInfoMembers(info: map<MetricInfo, SeriesInfo>, namer: MetricNamer,
                                            keys: seq<set<MetricInfo>>, series: seq<Series>, k: MetricInfo)
    requires |keys| == |series|
    ensures k in SliceInfo(info, namer, keys, series) <==> k in info || exists j :: 0 <= j < |series| && k in keys[j]
    ensures k in SliceInfo(info, namer, keys, series) ==>
      || (k in info && SliceInfo(info, namer, keys, series)[k] == info[k])
      || exists j :: 0 <= j < |series| && k in keys[j] && SliceInfo(info, namer, keys, series)[k] == SeriesInfo(series[j].name, namer)
  {
    if |series| > 0 {
      var n := |series| - 1;
      SliceInfoMembers(info, namer, keys[..n], series[..n], k);
      assert forall j :: 0 <= j < n ==> keys[..n][j] == keys[j] && series[..n][j] == series[j];
    }
  }

  /** A metric is in the registry exactly when some series of some namer
      registers it, and its entry names such a series and that series' namer. */
  lemma {:induction false} RegisteredMembers(namers: seq<MetricNamer>, slices: seq<seq<Series>>,
                                             keys: seq<seq<set<MetricInfo>>>, n: nat, k: MetricInfo)
    requires |slices| == |namers| && Aligned(slices, keys) && n <= |namers|
    ensures k in Registered(namers, slices, keys, n) <==>
      exists i, j :: 0 <= i < n && 0 <= j < |slices[i]| && k in keys[i][j]
    ensures k in Registered(namers, slices, keys, n) ==>
      exists i, j :: 0 <= i < n && 0 <= j < |slices[i]| && k in keys[i][j] &&
        Registered(namers, slices, keys, n)[k] == SeriesInfo(slices[i][j].name, namers[i])
  {
    if n > 0 {
      var before := Registered(namers, slices, keys, n - 1);
      var now := Registered(namers, slices, keys, n);
      var namer, ks, series := namers[n - 1], keys[n - 1], slices[n - 1];
      assert now == SliceInfo(before, namer, ks, series);
      RegisteredMembers(namers, slices, keys, n - 1, k);
      SliceInfoMembers(before, namer, ks, series, k);
      if k in now {
        if k in before && now[k] == before[k] {
          var i, j :| 0 <= i < n - 1 && 0 <= j < |slices[i]| && k in keys[i][j] && before[k] == SeriesInfo(slices[i][j].name, namers[i]);
        } else {
          var j :| 0 <= j < |series| && k in ks[j] && now[k] == SeriesInfo(series[j].name, namer);
          assert k in keys[n - 1][j] && now[k] == SeriesInfo(slices[n - 1][j].name, namers[n - 1]);
        }
      } else {
        forall i, j | 0 <= i < n && 0 <= j < |slices[i]| ensures k !in keys[i][j] {
          if i == n - 1 {
            assert keys[i][j] == ks[j];
          }
        }
      }
    }
  }

  /** A metric is registered exactly when some series of some namer
      registers it: the series is named by the namer and one of its labels
      resolves to the metric's resource. Its entry names such a series and that
      series' namer. */
  lemma RegisteredSeries(info: map<MetricInfo, SeriesInfo>, namers: seq<MetricNamer>, slices: seq<seq<Series>>,
                         knowns: seq<map<LabelName, GroupResource>>, k: MetricInfo)
    requires |slices| == |namers| && |knowns| == |namers| && Usable(namers)
    requires Registers(info, namers, slices, knowns)
    ensures k in info <==>
      exists i, j :: 0 <= i < |namers| && 0 <= j < |slices[i]| && k in SeriesKeys(namers[i], knowns[i], slices[i][j])
    ensures k in info ==>
      exists i, j :: 0 <= i < |namers| && 0 <= j < |slices[i]| &&
        k in SeriesKeys(namers[i], knowns[i], slices[i][j]) && info[k] == SeriesInfo(slices[i][j].name, namers[i])
  {
    var keys := AllKeys(namers, slices, knowns);
    RegisteredMembers(namers, slices, keys, |namers|, k);
    if k in info {
      var i, j :| 0 <= i < |namers| && 0 <= j < |slices[i]| && k in keys[i][j] && info[k] == SeriesInfo(slices[i][j].name, namers[i]);
      KeysOfAt(namers[i], knowns[i], slices[i], j);
    } else {
      forall i, j | 0 <= i < |namers| && 0 <= j < |slices[i]| ensures k !in SeriesKeys(namers[i], knowns[i], slices[i][j]) {
        KeysOfAt(namers[i], knowns[i], slices[i], j);
      }
    }
  }

  /** The cache entries a series adds do not change how any label resolves, so
      the resources of a series do not depend on what was cached before it. */
  lemma ResolvedAllSet(c: ResourceConverter, known: map<LabelName, GroupResource>, cur: map<LabelName, GroupResource>,
                       order: seq<LabelName>, labels: set<LabelName>)
    requires c.ExtractorOk() && SameResolution(c, known, cur)
    requires forall l :: l in order <==> l in labels
    ensures forall g :: g in c.ResolvedAll(cur, order) <==> g in ResourceSet(c, known, labels)
  {
    forall g ensures g in c.ResolvedAll(cur, order) <==> g in ResourceSet(c, known, labels) {
      c.ResolvedAllMembers(cur, order, g);
      if g in ResourceSet(c, known, labels) {
        var l :| l in labels && c.Resolve(known, l) == Some(g);
        var i :| 0 <= i < |order| && order[i] == l;
        assert c.Resolve(cur, order[i]) == Some(g);
      }
    }
  }

  // ---------------------------------------------------------------------------
  // The loops of `SetSeries`

  /** The innermost loop: the metric on each resource of the series. */
  method AddResources(info: map<MetricInfo, SeriesInfo>, resources: seq<GroupResource>, namespaced: bool, name: string,
                      v: SeriesInfo) returns (next: map<MetricInfo, SeriesInfo>)
    ensures forall k :: k in next <==> k in info || (k.groupResource in resources && k == InfoKey(k.groupResource, namespaced, name))
    ensures forall k :: k in next ==>
      next[k] == if k.groupResource in resources && k == InfoKey(k.groupResource, namespaced, name) then v else info[k]
  {
    next := info;
    for j := 0 to |resources|
      invariant forall k :: k in next <==> k in info || (k.groupResource in resources[..j] && k == InfoKey(k.groupResource, namespaced, name))
      invariant forall k :: k in next ==>
        next[k] == if k.groupResource in resources[..j] && k == InfoKey(k.groupResource, namespaced, name) then v else info[k]
    {
      assert resources[..j + 1] == resources[..j] + [resources[j]];
      next := next[InfoKey(resources[j], namespaced, name) := v];
    }
    assert resources[..|resources|] == resources;
  }

  /** One series of the middle loop: its resources are resolved (which may
      cache labels), its name is computed, and a series that cannot be named is
      skipped. */
  method RegisterSeries(namer: MetricNamer, ghost known: map<LabelName, GroupResource>, info: map<MetricInfo, SeriesInfo>, s: Series)
    returns (next: map<MetricInfo, SeriesInfo>)
    requires namer.re.Valid() && namer.converter.Valid()
    requires SameResolution(namer.converter, known, namer.converter.labelToResource)
    modifies namer.converter
    ensures namer.converter.Valid()
    ensures SameResolution(namer.converter, known, namer.converter.labelToResource)
    ensures namer.converter.resourceToLabel == old(namer.converter.resourceToLabel)
    ensures next == info + SeriesEntries(SeriesKeys(namer, known, s), SeriesInfo(s.name, namer))
  {
    var c := namer.converter;
    ghost var before := c.labelToResource;
    var resources, namespaced, order := c.ResourcesForSeries(s);
    c.CacheTransparent(before, s.labels.Keys);
    var name := namer.MetricNameForSeries(s);
    if name.Err? {
      assert SeriesKeys(namer, known, s) == {};
      return info;
    }
    ResolvedAllSet(c, known, before, order, s.labels.Keys);
    next := AddResources(info, resources, namespaced, name.value, SeriesInfo(s.name, namer));
    forall k
      ensures k in next <==> k in info || k in SeriesKeys(namer, known, s)
      ensures k in next ==> next[k] == if k in SeriesKeys(namer, known, s) then SeriesInfo(s.name, namer) else info[k]
    {
      SeriesKeysMembers(namer, known, s, k);
    }
    UpdatedWith(info, SeriesKeys(namer, known, s), SeriesInfo(s.name, namer), next);
  }

  /** A map that holds `v` on `keys` and agrees with `info` elsewhere is `info`
      updated with `v` on `keys`. */
  lemma UpdatedWith<K, V>(info: map<K, V>, keys: set<K>, v: V, next: map<K, V>)
    requires forall k :: k in next <==> k in info || k in keys
    requires forall k :: k in next ==> next[k] == if k in keys then v else info[k]
    ensures next == info + map k | k in keys :: v
  {
  }

  /** The middle loop: every series of one namer, in order. */
  method RegisterSlice(namer: MetricNamer, ghost known: map<LabelName, GroupResource>, ghost keys: seq<set<MetricInfo>>,
                       info: map<MetricInfo, SeriesInfo>, series: seq<Series>) returns (next: map<MetricInfo, SeriesInfo>)
    requires namer.re.Valid() && namer.converter.Valid()
    requires namer.converter.ExtractorOk() && keys == KeysOf(namer, known, series)
    requires SameResolution(namer.converter, known, namer.converter.labelToResource)
    modifies namer.converter
    ensures namer.converter.Valid()
    ensures SameResolution(namer.converter, old(namer.converter.labelToResource), namer.converter.labelToResource)
    ensures namer.converter.resourceToLabel == old(namer.converter.resourceToLabel)
    ensures next == SliceInfo(info, namer, keys, series)
  {
    next := info;
    for j := 0 to |series|
      invariant namer.converter.Valid()
      invariant SameResolution(namer.converter, known, namer.converter.labelToResource)
      invariant namer.converter.resourceToLabel == old(namer.converter.resourceToLabel)
      invariant next == SliceInfo(info, namer, keys[..j], series[..j])
    {
      next := SliceStep(namer, known, keys, info, series, j, next);
    }
    assert series[..|series|] == series && keys[..|keys|] == keys;
  }

  /** One step of the middle loop: series `j` of the namer. */
  method SliceStep(namer: MetricNamer, ghost known: map<LabelName, GroupResource>, ghost keys: seq<set<MetricInfo>>,
                   ghost info: map<MetricInfo, SeriesInfo>, series: seq<Series>, j: nat, acc: map<MetricInfo, SeriesInfo>)
    returns (next: map<MetricInfo, SeriesInfo>)
    requires j < |series| && namer.re.Valid() && namer.converter.Valid()
    requires namer.converter.ExtractorOk() && keys == KeysOf(namer, known, series)
    requires SameResolution(namer.converter, known, namer.converter.labelToResource)
    requires acc == SliceInfo(info, namer, keys[..j], series[..j])
    modifies namer.converter
    ensures namer.converter.Valid()
    ensures SameResolution(namer.converter, known, namer.converter.labelToResource)
    ensures namer.converter.resourceToLabel == old(namer.converter.resourceToLabel)
    ensures next == SliceInfo(info, namer, keys[..j + 1], series[..j + 1])
  {
    assert series[..j + 1][..j] == series[..j] && keys[..j + 1][..j] == keys[..j];
    KeysOfAt(namer, known, series, j);
    next := RegisterSeries(namer, known, acc, series[j]);
  }

  /** The converters of the namers. */
  function ConvertersOf(namers: seq<MetricNamer>): (cs: set<ResourceConverter>)
    ensures forall i :: 0 <= i < |namers| ==> namers[i].converter in cs
  {
    if |namers| == 0 then {} else ConvertersOf(namers[..|namers| - 1]) + {namers[|namers| - 1].converter}
  }

  /** Every converter of the namers is some namer's. */
  lemma {:induction false} ConvertersOfMembers(namers: seq<MetricNamer>, c: ResourceConverter)
    requires c in ConvertersOf(namers)
    ensures exists i :: 0 <= i < |namers| && namers[i].converter == c
  {
    if c != namers[|namers| - 1].converter {
      ConvertersOfMembers(namers[..|namers| - 1], c);
      var i :| 0 <= i < |namers| - 1 && namers[..|namers| - 1][i].converter == c;
      assert namers[i].converter == c;
    }
  }

  /** The label caches of the namers' converters. */
  ghost function Caches(namers: seq<MetricNamer>): (r: seq<map<LabelName, GroupResource>>)
    reads ConvertersOf(namers)
    ensures |r| == |namers|
    ensures forall i :: 0 <= i < |namers| ==> r[i] == namers[i].converter.labelToResource
  {
    if |namers| == 0 then []
    else
      assert ConvertersOf(namers[..|namers| - 1]) <= ConvertersOf(namers);
      Caches(namers[..|namers| - 1]) + [namers[|namers| - 1].converter.labelToResource]
  }

  /** The namer's metrics query asks its own converter, one of `cs`. */
  predicate Serves(namer: MetricNamer, cs: set<ResourceConverter>)
  {
    namer.metricsQuery.converter == namer.converter && namer.converter in cs
  }

  /** The namers a registry may be given: each well formed, with a consistent converter. */
  ghost predicate Ready(namers: seq<MetricNamer>)
    reads ConvertersOf(namers)
  {
    forall i :: 0 <= i < |namers| ==> namers[i].WellFormed() && namers[i].converter.Valid()
  }

  /** Every namer's converter is consistent and resolves labels as the
      cache `knowns[k]` it started from did. */
  ghost predicate Resolving(namers: seq<MetricNamer>, knowns: seq<map<LabelName, GroupResource>>)
    reads ConvertersOf(namers)
    requires |knowns| == |namers|
  {
    forall k :: 0 <= k < |namers| ==>
      namers[k].converter.Valid() && SameResolution(namers[k].converter, knowns[k], namers[k].converter.labelToResource)
  }

  /** One step of the outer loop: the series of namer `i`. */
  method CollectStep(namers: seq<MetricNamer>, slices: seq<seq<Series>>, ghost knowns: seq<map<LabelName, GroupResource>>,
                     ghost keys: seq<seq<set<MetricInfo>>>, i: nat, info: map<MetricInfo, SeriesInfo>)
    returns (next: map<MetricInfo, SeriesInfo>)
    requires i < |namers| == |slices| == |knowns| && Aligned(slices, keys) && Usable(namers)
    requires keys[i] == KeysOf(namers[i], knowns[i], slices[i])
    requires Resolving(namers, knowns)
    requires info == Registered(namers, slices, keys, i)
    modifies ConvertersOf(namers)
    ensures Resolving(namers, knowns)
    ensures next == Registered(namers, slices, keys, i + 1)
  {
    next := RegisterSlice(namers[i], knowns[i], keys[i], info, slices[i]);
  }

  /** The outer loop of `SetSeries`: the registry entries of every namer's
      series, in order. */
  method CollectInfo(newSeriesSlices: seq<seq<Series>>, namers: seq<MetricNamer>) returns (newInfo: map<MetricInfo, SeriesInfo>)
    requires Ready(namers) && |newSeriesSlices| == |namers|
    modifies ConvertersOf(namers)
    ensures Usable(namers)
    ensures Registers(newInfo, namers, newSeriesSlices, old(Caches(namers)))
    ensures forall i :: 0 <= i < |namers| ==> namers[i].converter.Valid()
  {
    ghost var knowns := Caches(namers);
    ghost var keys := AllKeys(namers, newSeriesSlices, knowns);
    newInfo := CollectSlices(namers, newSeriesSlices, knowns, keys);
  }

  /** The loop of `CollectInfo`. */
  method CollectSlices(namers: seq<MetricNamer>, slices: seq<seq<Series>>, ghost knowns: seq<map<LabelName, GroupResource>>,
                       ghost keys: seq<seq<set<MetricInfo>>>)
    returns (info: map<MetricInfo, SeriesInfo>)
    requires |namers| == |slices| == |knowns| && Aligned(slices, keys) && Usable(namers)
    requires forall i :: 0 <= i < |namers| ==> keys[i] == KeysOf(namers[i], knowns[i], slices[i])
    requires Resolving(namers, knowns)
    modifies ConvertersOf(namers)
    ensures Resolving(namers, knowns)
    ensures info == Registered(namers, slices, keys, |namers|)
  {
    info := map[];
    for i := 0 to |namers|
      invariant Resolving(namers, knowns)
      invariant info == Registered(namers, slices, keys, i)
    {
      info := CollectStep(namers, slices, knowns, keys, i, info);
    }
  }

  /** Every registered entry is served by one of the namers. */
  lemma RegisteredServed(namers: seq<MetricNamer>, slices: seq<seq<Series>>, keys: seq<seq<set<MetricInfo>>>)
    requires |slices| == |namers| && Aligned(slices, keys)
    requires forall i :: 0 <= i < |namers| ==> namers[i].metricsQuery.converter == namers[i].converter
    ensures forall m :: m in Registered(namers, slices, keys, |namers|) ==>
      Serves(Registered(namers, slices, keys, |namers|)[m].namer, ConvertersOf(namers))
  {
    forall m | m in Registered(namers, slices, keys, |namers|)
      ensures Serves(Registered(namers, slices, keys, |namers|)[m].namer, ConvertersOf(namers))
    {
      RegisteredMembers(namers, slices, keys, |namers|, m);
    }
  }

  // ---------------------------------------------------------------------------
  // Matching sample values to object names

  /** The value of each sample under the object name its resource label
      carries, nil samples skipped and a later sample replacing an earlier one. */
  function Matched(values: Vector, lbl: LabelName): map<string, SampleValue>
  {
    if |values| == 0 then map[]
    else
      var rest := Matched(values[..|values| - 1], lbl);
      var last := values[|values| - 1];
      if last.None? then rest else rest[LabelValueOf(last.value.metric, lbl) := last.value.value]
  }

  /** An object name is matched exactly when a sample carries it, and its value
      is that of the last sample carrying it. */
  lemma {:induction false} MatchedLastWins(values: Vector, lbl: LabelName, name: string)
    ensures name in Matched(values, lbl) <==>
      exists i :: 0 <= i < |values| && values[i].Some? && LabelValueOf(values[i].value.metric, lbl) == name
    ensures name in Matched(values, lbl) ==>
      exists i :: 0 <= i < |values| && values[i].Some? && LabelValueOf(values[i].value.metric, lbl) == name &&
        Matched(values, lbl)[name] == values[i].value.value &&
        forall j :: i < j < |values| && values[j].Some? ==> LabelValueOf(values[j].value.metric, lbl) != name
  {
    if |values| > 0 {
      var init := values[..|values| - 1];
      MatchedLastWins(init, lbl, name);
      assert forall i :: 0 <= i < |init| ==> init[i] == values[i];
      var last := values[|values| - 1];
      if last.Some? && LabelValueOf(last.value.metric, lbl) == name {
        assert Matched(values, lbl)[name] == last.value.value;
      }
    }
  }

  /** The loop of `MatchValuesToNames`. */
  method MatchValues(values: Vector, lbl: LabelName) returns (res: map<string, SampleValue>)
    ensures res == Matched(values, lbl)
  {
    res := map[];
    for i := 0 to |values|
      invariant res == Matched(values[..i], lbl)
    {
      assert values[..i + 1][..i] == values[..i];
      var val := values[i];
      if val.None? {
        continue;
      }
      res := res[LabelValueOf(val.value.metric, lbl) := val.value.value];
    }
    assert values[..|values|] == values;
  }

  /** A query outcome as the found flag reports it. */
  function Found(r: Result<Selector, Error>): (o: Option<Selector>)
    ensures o.Some? <==> r.Ok?
    ensures o.Some? ==> o.value == r.value
  {
    if r.Ok? then Some(r.value) else None
  }

  // ---------------------------------------------------------------------------
  // The registry

  class SeriesRegistry {
    var info: map<MetricInfo, SeriesInfo>
    var metrics: seq<MetricInfo>
    const mapper: Mapper
    /** The converters of the namers of the registered metrics. */
    ghost var converters: set<ResourceConverter>

    /** The metric list enumerates the registered metrics, and every entry's
        namer is well formed with a consistent converter. */
    ghost predicate Valid()
      reads this, converters
    {
      && Distinct(metrics)
      && (forall m :: m in metrics <==> m in info)
      && (forall m :: m in info ==> Serves(info[m].namer, converters))
      && (forall c :: c in converters ==> c.Valid())
    }

    /** An empty registry. */
    constructor (mapper: Mapper)
      ensures Valid()
      ensures this.mapper == mapper && info == map[] && metrics == [] && converters == {}
    {
      this.mapper := mapper;
      info := map[];
      metrics := [];
      converters := {};
    }

    /** `SetSeries`: one slice of series per namer, or an error and nothing
        changed. Every series is resolved to its resources and named, and the
        metric is registered on each resource, later series replacing earlier
        ones; the registry is then wholly replaced and its metric list lists
        the registered metrics once each, in Go's map order. Resolving may cache
        labels in the converters, but never changes what a label resolves to. */
    method SetSeries(newSeriesSlices: seq<seq<Series>>, namers: seq<MetricNamer>) returns (err: Option<Error>)
      requires Ready(namers)
      modifies this, ConvertersOf(namers)
      ensures err.Some? <==> |newSeriesSlices| != |namers|
      ensures err.Some? ==> err == Some(SeriesCountMismatch) && unchanged(this)
      ensures err.Some? ==> forall i :: 0 <= i < |namers| ==> unchanged(namers[i].converter)
      ensures err.None? ==> Valid() && converters == ConvertersOf(namers)
      ensures err.None? ==> Usable(namers) && Registers(info, namers, newSeriesSlices, old(Caches(namers)))
      ensures forall i :: 0 <= i < |namers| ==> namers[i].converter.Valid()
    {
      if |newSeriesSlices| != |namers| {
        return Some(SeriesCountMismatch);
      }
      var newInfo := CollectInfo(newSeriesSlices, namers);
      RegisteredServed(namers, newSeriesSlices, AllKeys(namers, newSeriesSlices, old(Caches(namers))));
      var newMetrics := Enumerate(newInfo.Keys);
      info, metrics, converters := newInfo, newMetrics, ConvertersOf(namers);
      forall c | c in converters ensures c.Valid() {
        ConvertersOfMembers(namers, c);
      }
      err := None;
    }

    /** `ListAllMetrics`: every registered metric, once each. */
    function ListAllMetrics(): (ms: seq<MetricInfo>)
      reads this, converters
      requires Valid()
      ensures Distinct(ms)
      ensures forall m :: m in ms <==> m in info
    {
      metrics
    }

    /** What `QueryForMetric` answers in the current state: nothing for no
        object names, an identity that does not normalize or is not
        registered, or a query that cannot be built; otherwise the query the
        entry's namer builds for its series. */
    function QueryOutcome(metricInfo: MetricInfo, namespace: string, resourceNames: seq<string>): (r: Option<Selector>)
      reads this, converters
      requires Valid()
      ensures |resourceNames| == 0 ==> r == None
      ensures NormalizeInfo(mapper, metricInfo).None? ==> r == None
      ensures NormalizeInfo(mapper, metricInfo).Some? && NormalizeInfo(mapper, metricInfo).value !in info ==> r == None
      ensures r.Some? ==> r.value != ""
      ensures r.Some? ==>
        && NormalizeInfo(mapper, metricInfo).Some? && NormalizeInfo(mapper, metricInfo).value in info
        && var m := NormalizeInfo(mapper, metricInfo).value;
        && var q := info[m].namer.metricsQuery;
        && BuildOutcome(q.te, q.template, q.converter.LabelOutcome(NamespacesResource), q.converter.LabelOutcome(m.groupResource),
                        info[m].seriesName, namespace, [], resourceNames) == Ok(r.value)
      ensures (&& |resourceNames| > 0
               && NormalizeInfo(mapper, metricInfo).Some? && NormalizeInfo(mapper, metricInfo).value in info
               && var m := NormalizeInfo(mapper, metricInfo).value;
               && var q := info[m].namer.metricsQuery;
               && BuildOutcome(q.te, q.template, q.converter.LabelOutcome(NamespacesResource), q.converter.LabelOutcome(m.groupResource),
                               info[m].seriesName, namespace, [], resourceNames).Ok?) ==> r.Some?
    {
      if |resourceNames| == 0 then None
      else match NormalizeInfo(mapper, metricInfo)
        case None => None
        case Some(m) =>
          if m !in info then None
          else
            var e := info[m];
            var q := e.namer.metricsQuery;
            Found(BuildOutcome(q.te, q.template, q.converter.LabelOutcome(NamespacesResource),
                               q.converter.LabelOutcome(m.groupResource), e.seriesName, namespace, [], resourceNames))
    }

    /** `QueryForMetric`: the query for the objects `resourceNames` of a
        registered metric, built by the namer of its series; asking may cache
        labels but changes no answer. */
    method QueryForMetric(metricInfo: MetricInfo, namespace: string, resourceNames: seq<string>) returns (r: Option<Selector>)
      requires Valid()
      modifies converters
      ensures Valid()
      ensures r == old(QueryOutcome(metricInfo, namespace, resourceNames))
      ensures forall c, g :: c in converters ==> c.LabelOutcome(g) == old(c.LabelOutcome(g))
    {
      if |resourceNames| == 0 {
        return None;
      }
      var normalized := NormalizeInfo(mapper, metricInfo);
      if normalized.None? {
        return None;
      }
      var m := normalized.value;
      if m !in info {
        return None;
      }
      var e := info[m];
      var query := e.namer.QueryForSeries(e.seriesName, m.groupResource, namespace, resourceNames);
      return Found(query);
    }

    /** What `MatchValuesToNames` answers in the current state: nothing for an
        identity that does not normalize or is not registered, or a resource
        without a label; otherwise each sample's value under its object name. */
    function MatchOutcome(metricInfo: MetricInfo, values: Vector): (r: Option<map<string, SampleValue>>)
      reads this, converters
      requires Valid()
      ensures NormalizeInfo(mapper, metricInfo).None? ==> r == None
      ensures NormalizeInfo(mapper, metricInfo).Some? && NormalizeInfo(mapper, metricInfo).value !in info ==> r == None
      ensures r.Some? <==>
        && NormalizeInfo(mapper, metricInfo).Some? && NormalizeInfo(mapper, metricInfo).value in info
        && info[NormalizeInfo(mapper, metricInfo).value].namer.converter.LabelOutcome(NormalizeInfo(mapper, metricInfo).value.groupResource).Ok?
      ensures r.Some? ==>
        var m := NormalizeInfo(mapper, metricInfo).value;
        r.value == Matched(values, info[m].namer.converter.LabelOutcome(m.groupResource).value)
    {
      match NormalizeInfo(mapper, metricInfo)
      case None => None
      case Some(m) =>
        if m !in info then None
        else match info[m].namer.converter.LabelOutcome(m.groupResource)
          case Err(_) => None
          case Ok(lbl) => Some(Matched(values, lbl))
    }

    /** `MatchValuesToNames`: the values of a query result keyed by the object
        names its resource label carries. */
    method MatchValuesToNames(metricInfo: MetricInfo, values: Vector) returns (r: Option<map<string, SampleValue>>)
      requires Valid()
      modifies converters
      ensures Valid()
      ensures r == old(MatchOutcome(metricInfo, values))
      ensures forall c, g :: c in converters ==> c.LabelOutcome(g) == old(c.LabelOutcome(g))
    {
      var normalized := NormalizeInfo(mapper, metricInfo);
      if normalized.None? {
        return None;
      }
      var m := normalized.value;
      if m !in info {
        return None;
      }
      var resourceLbl := info[m].namer.converter.LabelForResource(m.groupResource);
      if resourceLbl.Err? {
        return None;
      }
      var res := MatchValues(values, resourceLbl.value);
      return Some(res);
    }
  }
}
