# k8s-prometheus-adapter core, modelled in Dafny

This project models the core of the Prometheus adapter for the Kubernetes custom and resource
metrics APIs:

- how discovery rules turn Prometheus series into custom metrics;
- how queries for those metrics are built and answered;
- how CPU and memory usage of pods and nodes is read back.

The model follows the Go code file by file:

- `helpers.dfy` holds the label-matcher and selector builders of `pkg/client/helpers.go`.
- `interfaces.dfy` holds the decoding of series and query results from `pkg/client/interfaces.go`.
- `fake_client.dfy` holds the map-backed test client of `pkg/client/fake/client.go`.
- `label_resource.dfy` turns a label template into an extractor that reads the group and resource back out of a label name (`pkg/naming/lbl_res.go`).
- `resource_converter.dfy` holds the `ResourceConverter` class: the two-way label/resource cache, seeded from overrides and filled lazily through the template (`pkg/naming/resource_converter.go`).
- `metrics_query.dfy` builds the backend query of a metric (`pkg/naming/metrics_query.go`).
- `metric_namer.dfy` holds the series filters, the naming of series, and the construction of one namer per discovery rule (`pkg/custom-provider/metric_namer.go`).
- `series_registry.dfy` holds the `SeriesRegistry` class (`pkg/custom-provider/series_registry.go`). It maps each metric identity to the series and namer that answer for it.
- `custom_provider.dfy` holds the custom metrics provider and the caching lister that rediscovers series (`pkg/custom-provider/provider.go`).
- `resource_provider.dfy` holds the CPU and memory provider (`pkg/resourceprovider/provider.go`).
- `config.dfy` holds the configuration types and the generator's default rule set (`cmd/config-gen/utils/default.go`).
- `model.dfy`, `text.dfy`, `foreign.dfy` and `wrappers.dfy` hold the shared data model. They cover Prometheus types, Go string functions and `%q` quoting, and the foreign libraries the core calls. They also hold `Option` and `Result`.

Objects whose fields the Go code updates in place are classes:

- the resource converter;
- the series registry;
- both providers and the caching lister.

Loops are methods proved against specification functions. The properties of those functions are proved as lemmas.

The libraries the core calls are values of records of functions; the model says nothing about how they behave inside. Those libraries are Go's `regexp` and `text/template`, the Kubernetes REST mapper, and the Prometheus client. Where a proof needs one of their behaviours, it is stated as an explicit `Valid()` predicate, for example that a compiled expression's capture names are indexed.

Go's unspecified map iteration order is modelled by `Model.Enumerate`: each key once, in an order the proofs may not rely on. Every property that holds "whatever the order" is proved that way.

The current time is a parameter of every operation that reads the clock.

## Model

| member | source | states |
|---|---|---|
| Helpers.LabelNeq | pkg/client/helpers.go:8-14 | the text begins with the label and is longer than it (the `!=` form is pinned down by `BuildersParse`) |
| Helpers.LabelEq | pkg/client/helpers.go:15-21 | the text begins with the label and is longer than it (the `=` form is pinned down by `BuildersParse`) |
| Helpers.LabelMatches | pkg/client/helpers.go:22-28 | the text begins with the label and is longer than it (the `=~` form is pinned down by `BuildersParse`) |
| Helpers.LabelNotMatches | pkg/client/helpers.go:29-35 | the text begins with the label and is longer than it (the `!~` form is pinned down by `BuildersParse`) |
| Helpers.NameMatches | pkg/client/helpers.go:36-42 | the text begins with `__name__` |
| Helpers.NameNotMatches | pkg/client/helpers.go:43-49 | the text begins with `__name__` |
| Helpers.BuildersParse | pkg/client/helpers.go:8-35 | each of the four builders reads back as the matcher it was asked for: the same label, its own operator (`=`, `!=`, `=~`, `!~`) and the same unquoted value |
| Helpers.NameBuildersParse | pkg/client/helpers.go:36-49 | `NameMatches(e)` is `LabelMatches("__name__", e)`, `NameNotMatches(e)` is `LabelNotMatches("__name__", e)`, and both read back as regex matchers on `__name__` |
| Helpers.ParseRender | pkg/client/helpers.go:8-35 | any matcher over a plain label, written out as label, operator and quoted value, reads back as itself, so the text determines all three parts |
| Helpers.BuildersAvoid | pkg/client/helpers.go:8-35 | a character absent from the label and the value, and not used by operators or quoting, is absent from every builder's text |
| Helpers.MatchersDistinct | pkg/client/helpers.go:8-35 | two `=` matchers with equal text have equal labels and values, and texts from different builders never coincide |
| Helpers.MatchSeries | pkg/client/helpers.go:50-59 | the selector starts with the name, and is the name alone exactly when there are no expressions; otherwise the name is followed by `{` and the selector ends with `}` (`SelectorRoundTrip` shows the expressions read back from it) |
| Helpers.SelectorRoundTrip | pkg/client/helpers.go:55-58 | a selector reads back as its name and its list of expressions, provided the name has no `{` and no expression has a comma |
| ClientDecoding.SeriesFromMetric | pkg/client/interfaces.go:73-77 | the decoded labels never hold `__name__`; with `__name__` present the name is its value, without it the name is left unchanged and the labels are the raw set; every other raw label is kept with its value and no label is invented |
| ClientDecoding.MetricRoundTrip | pkg/client/interfaces.go:73-77 | decoding the label set a series is sent as (its labels plus `__name__`) gives that series back, whatever series it is decoded into |
| ClientDecoding.UnmarshalSeries | pkg/client/interfaces.go:65-79 | a decoding error is returned and the series is left as it was; otherwise there is no error and the series is `SeriesFromMetric` of the decoded set |
| ClientDecoding.UnmarshalQueryResult | pkg/client/interfaces.go:29-58 | when the outer object does not decode, its error is returned and the result is left untouched; otherwise the type is recorded, and scalar, vector and matrix each fill exactly their own field (the zero value when the payload does not decode, and then the error is returned); any other type leaves the fields alone and fails with "unexpected value type" |
| ClientDecoding.Entries | pkg/client/interfaces.go:84-86 | one entry per label in the order given, each being `LabelEq` of the label and its value |
| ClientDecoding.SeriesString | pkg/client/interfaces.go:80-88 | the output is the name, `{`, the comma-joined `k="v"` entries and `}`, with exactly one entry per label, in a map order that the method reports |
| ClientDecoding.EntriesParse | pkg/client/interfaces.go:84-86 | each printed entry reads back as the equality matcher of its label and value |
| LabelExtraction.LastIndex | pkg/naming/lbl_res.go:42-51 | absent exactly when the name is not among the capture names; otherwise an index holding the name, with no later index holding it (the last occurrence wins) |
| LabelExtraction.Anchored | pkg/naming/lbl_res.go:35 | the expression is `^`, then the rendered template unchanged, then `$` |
| LabelExtraction.ExtractorFor | pkg/naming/lbl_res.go:23-56 | a template that fails to render, or renders empty, is an error; an anchored rendering that does not compile is reported with its source, and one without a `resource` capture as a missing capture; construction succeeds exactly when the anchored rendering compiles and has a `resource` capture; the extractor then holds that expression and the last `resource` index, and the last `group` index if there is one |
| LabelExtraction.ScanCaptures | pkg/naming/lbl_res.go:40-51 | the loop ends with the last `group` index (if any) and the last `resource` index (if any) |
| LabelExtraction.NewLabelGroupResExtractor | pkg/naming/lbl_res.go:23-56 | the constructor's result is `ExtractorFor` of the template, success or error |
| LabelExtraction.GroupResourceForLabel | pkg/naming/lbl_res.go:57-71 | found exactly when the label matches the expression; the zero value when it does not; on a match the resource is the `resource` capture and the group is the `group` capture, or `""` without one |
| ResourceConversion.SeedOverrides | pkg/naming/resource_converter.go:52-60 | fails exactly when some override does not normalize, with that override's error; otherwise every override label maps to its normalized resource, every normalized resource has a label, and each cached label of a resource is an override naming that resource |
| ResourceConversion.ResourceConverter.constructor | pkg/naming/resource_converter.go:39 | a new converter has the given engines, template and extractor, and both caches empty |
| ResourceConversion.ResourceConverter.NewResourceConverter | pkg/naming/resource_converter.go:36-62 | an unparsable template is reported as such, and an extractor failure wrapped with the template; after them construction fails exactly when an override fails to normalize; on success the converter is fresh, valid, keeps the template and its extractor, and its caches hold exactly the normalized overrides in both directions |
| ResourceConversion.ResourceConverter.Converted | pkg/naming/resource_converter.go:85-89 | the rendered resource has a group of the same length with no `.` or `-`, and the singular resource name |
| ResourceConversion.ResourceConverter.RenderLabel | pkg/naming/resource_converter.go:78-96 | no template, a resource that does not singularize, a failed execution and an empty rendering are each errors; a success is exactly a non-empty execution of the template on the sanitized, singular resource |
| ResourceConversion.ResourceConverter.LabelOutcome | pkg/naming/resource_converter.go:63-77 | a cached resource answers its cached label; otherwise the rendered label, or the rendering error wrapped with the resource |
| ResourceConversion.ResourceConverter.MakeLabelForResource | pkg/naming/resource_converter.go:78-102 | answers the rendering; a success is cached in both directions under the resource as given; an error changes nothing |
| ResourceConversion.ResourceConverter.LabelForResource | pkg/naming/resource_converter.go:63-77 | answers what the cache state before the call predicts; a cached resource changes nothing; a success leaves the label cached; no later answer for any resource changes and no entry is dropped |
| ResourceConversion.ResourceConverter.ResolvedAll | pkg/naming/resource_converter.go:112-134 | at most one resource per label |
| ResourceConversion.ResourceConverter.ResolvedAllMembers | pkg/naming/resource_converter.go:112-134 | a resource is returned exactly when some label of the series resolves to it |
| ResourceConversion.ResourceConverter.NewlyResolved | pkg/naming/resource_converter.go:112-142 | the cache additions are exactly the labels of the series not yet cached that resolve, each to its resolved resource |
| ResourceConversion.ResourceConverter.ResourcesForSeries | pkg/naming/resource_converter.go:103-144 | the labels are visited once each in some order; the resources are the resolved ones in that order; the series is namespaced exactly when the namespaces resource is among them; the label cache grows by exactly the newly resolved labels and the resource cache is untouched |
| ResourceConversion.ResourceConverter.CollectResources | pkg/naming/resource_converter.go:112-134 | the read-only loop yields the resolved resources, the namespaced flag and the newly resolved labels |
| ResourceConversion.ResourceConverter.ResolveLabel | pkg/naming/resource_converter.go:113-133 | one label resolves to its cached resource, else to its extracted resource when that normalizes; the flag is set exactly for the namespaces resource |
| ResourceConversion.ResourceConverter.AddLabels | pkg/naming/resource_converter.go:136-142 | the label cache gains exactly the updates and the resource cache is untouched |
| ResourceConversion.ResourceConverter.CollectStep | pkg/naming/resource_converter.go:112-134 | one iteration keeps the resources, the namespaced flag and the updates equal to their definitions over the labels seen so far |
| ResourceConversion.ResourceConverter.ResolvedAllSnoc | pkg/naming/resource_converter.go:112-134 | resolving one more label appends its resource, if it has one |
| ResourceConversion.ResourceConverter.NewlyResolvedAdd | pkg/naming/resource_converter.go:112-134 | one more label adds its entry exactly when it is uncached and resolves |
| ResourceConversion.ResourceConverter.CacheTransparent | pkg/naming/resource_converter.go:136-142 | caching the resolved labels changes how no label resolves |
| MetricsQueries.ResourceMatcher | pkg/naming/metrics_query.go:55-61 | the matcher starts with the resource label and says more than the label (`ResourceMatcherParses` gives its two forms) |
| MetricsQueries.ResourceMatcherParses | pkg/naming/metrics_query.go:55-61 | one name gives a matcher that reads back as equality on that name; several give a regex matcher whose alternation splits back into exactly the names |
| MetricsQueries.ResourceMatcherAvoids | pkg/naming/metrics_query.go:55-61 | the resource matcher introduces no character that is absent from the label and names and is not quoting, an operator or `\|` |
| MetricsQueries.QueryExpressions | pkg/naming/metrics_query.go:41-61 | two expressions with a namespace, one without; the first is the namespace equality and the last the resource matcher |
| MetricsQueries.QueryArgsFor | pkg/naming/metrics_query.go:42-66 | the template arguments carry the series, values under exactly the resource label and the namespace label, the names under the resource label, the namespace under its label when the two labels differ, and a group-by list of the resource label then the extra labels |
| MetricsQueries.GroupByRoundTrip | pkg/naming/metrics_query.go:63-66 | the group-by string splits back into the resource label followed by the extra labels |
| MetricsQueries.LabelMatchersRoundTrip | pkg/naming/metrics_query.go:41-66 | the matcher string splits back into its expressions, which read back as the namespace equality and as the equality or alternation on the resource label |
| MetricsQueries.ExpressionsSplit | pkg/naming/metrics_query.go:66 | joining the expressions with commas and splitting gives them back |
| MetricsQueries.BuildOutcome | pkg/naming/metrics_query.go:38-75 | a namespace-label error (only when a namespace is given) comes first, then a resource-label error; success is exactly a non-empty template execution on the query arguments, and that output is the selector |
| MetricsQueries.MetricsQuery.Build | pkg/naming/metrics_query.go:38-75 | answers what the converter's labels before the call determine, and no label answer of the converter changes |
| MetricsQueries.NewMetricsQuery | pkg/naming/metrics_query.go:16-24 | succeeds exactly when the template parses, keeping the template and converter; otherwise the parse error of the template |
| MetricNaming.NewReMatcher | pkg/custom-provider/metric_namer.go:39-62 | both `is` and `isNot`, and neither, are distinct errors; otherwise the filter compiles exactly when its one expression does, is positive exactly when it came from `is`, and a compile failure names that expression |
| MetricNaming.Matches | pkg/custom-provider/metric_namer.go:63-67 | a positive matcher accepts exactly the values its expression matches, a negative one exactly those it does not |
| MetricNaming.MatchesPolarity | pkg/custom-provider/metric_namer.go:63-67 | an `is` filter accepts exactly the names its expression matches, an `isNot` filter exactly those it does not |
| MetricNaming.Filtered | pkg/custom-provider/metric_namer.go:78-95 | filtering never adds series |
| MetricNaming.FilteredMembers | pkg/custom-provider/metric_namer.go:84-93 | a series is kept exactly when it is in the input and every filter accepts its name |
| MetricNaming.FilteredAppend | pkg/custom-provider/metric_namer.go:84-93 | filtering keeps order: the filtered concatenation is the concatenation of the filtered parts |
| MetricNaming.FilteredAllAccepted | pkg/custom-provider/metric_namer.go:84-93 | when every series passes every filter, the list comes back unchanged |
| MetricNaming.FilteredNoMatchers | pkg/custom-provider/metric_namer.go:81-83 | with no filters the input is returned as it is |
| MetricNaming.FilteredIdempotent | pkg/custom-provider/metric_namer.go:78-95 | filtering an already filtered list changes nothing |
| MetricNaming.NamePattern | pkg/custom-provider/metric_namer.go:139-147 | the configured name pattern, or `.*` when none is given |
| MetricNaming.DefaultAs | pkg/custom-provider/metric_namer.go:148-158 | `$0` for a pattern without groups, `$1` for one group, and otherwise the error asking for an `as` value, naming the pattern and the series query |
| MetricNaming.DefaultAsForSimple | pkg/custom-provider/metric_namer.go:148-158 | a rule whose pattern has at most one group always gets a default `as`: `$0` without a group or pattern, `$1` with one group |
| MetricNaming.DefaultRulesNamed | cmd/config-gen/utils/default.go:17 | every rule of the generated default configuration leaves `as` empty and gets a default: `$1`, or `$0` for the rule without a name pattern |
| MetricNaming.MetricNamer.FilterSeries | pkg/custom-provider/metric_namer.go:78-95 | the loop returns exactly the series every filter accepts, in their original order |
| MetricNaming.MetricNamer.MetricNameForSeries | pkg/custom-provider/metric_namer.go:101-110 | fails exactly when the name pattern does not match the series name, with an error naming both; otherwise the `as` template expanded with the match's groups |
| MetricNaming.MetricNamer.FilteredSeriesNamed | pkg/custom-provider/metric_namer.go:132-147 | every series that passes a built namer's filters can be named, because a non-empty name pattern is itself one of the positive filters |
| MetricNaming.MetricNamer.QueryForSeries | pkg/custom-provider/metric_namer.go:96-100 | the metrics query built with no extra group-by labels, from the converter's labels before the call, no label answer changing |
| MetricNaming.FirstBadFilter | pkg/custom-provider/metric_namer.go:124-131 | every filter before the index compiles, and the one at it, if any, does not |
| MetricNaming.Compiled | pkg/custom-provider/metric_namer.go:124-131 | one compiled filter per configured filter, in order |
| MetricNaming.CompileFilters | pkg/custom-provider/metric_namer.go:124-131 | succeeds exactly when every filter compiles, with the compiled filters in order; otherwise the error of the first filter that fails |
| MetricNaming.NameFilter | pkg/custom-provider/metric_namer.go:132-138 | a non-empty name pattern adds one positive filter on itself; an empty one adds none |
| MetricNaming.FirstBadRule | pkg/custom-provider/metric_namer.go:115-161 | every rule before the index yields a namer, and the one at it, if any, does not |
| MetricNaming.NamerForRule | pkg/custom-provider/metric_namer.go:116-160 | succeeds exactly when the converter builds, the query parses, the filters and name pattern compile and an `as` is given or defaults; the error is that of the first stage that fails; the namer has a fresh, valid converter shared with its metrics query |
| MetricNaming.NamersFromConfig | pkg/custom-provider/metric_namer.go:111-163 | succeeds exactly when every rule yields a namer, giving one namer per rule in rule order; otherwise the error of the first rule that fails |
| MetricNaming.AddNamer | pkg/custom-provider/metric_namer.go:115-161 | one iteration either appends the next rule's namer, keeping the namers aligned with the rules, or fails at exactly the first bad rule with its error |
| MetricNaming.FirstBadRuleAt | pkg/custom-provider/metric_namer.go:115-161 | a failing rule after only succeeding ones is the first bad rule |
| MetricNaming.NamersStep | pkg/custom-provider/metric_namer.go:115-161 | appending the namer of the next rule keeps each namer the one built from its rule |
| SeriesRegistries.InfoKey | pkg/custom-provider/series_registry.go:55-58 | the identity keeps the resource and the metric name, and is namespaced exactly when asked and the resource is not the namespaces resource |
| SeriesRegistries.ResourceSetMembers | pkg/custom-provider/series_registry.go:48 | a resource belongs to a series exactly when one of its labels resolves to it |
| SeriesRegistries.SeriesKeysMembers | pkg/custom-provider/series_registry.go:47-61 | a series that cannot be named registers nothing; otherwise it registers its metric name on exactly the resources its labels resolve to, namespaced exactly when the namespaces resource is among them and the resource is not itself the namespaces resource |
| SeriesRegistries.KeysOf | pkg/custom-provider/series_registry.go:47-61 | one set of identities per series |
| SeriesRegistries.KeysOfAt | pkg/custom-provider/series_registry.go:47-61 | the identities of series `j` are what that series registers |
| SeriesRegistries.AllKeys | pkg/custom-provider/series_registry.go:45-62 | one list of identity sets per namer, each the identities its own series register |
| SeriesRegistries.SliceInfoMembers | pkg/custom-provider/series_registry.go:47-61 | after one namer's series, an identity is present exactly when it was before or one of the series registers it, and its entry is the earlier one or names such a series |
| SeriesRegistries.RegisteredMembers | pkg/custom-provider/series_registry.go:44-62 | an identity is in the new registry exactly when some series of some namer registers it, and its entry names such a series and that namer |
| SeriesRegistries.RegisteredSeries | pkg/custom-provider/series_registry.go:38-72 | the registry `SetSeries` installs holds exactly the identities some named series registers on a resource its labels resolve to, each entry naming such a series and its namer |
| SeriesRegistries.ResolvedAllSet | pkg/custom-provider/series_registry.go:48 | the resources of a series do not depend on the labels earlier series cached |
| SeriesRegistries.AddResources | pkg/custom-provider/series_registry.go:54-60 | the entry is set on the series' identity for every resource, never namespaced on the namespaces resource, and all other entries stay |
| SeriesRegistries.RegisterSeries | pkg/custom-provider/series_registry.go:47-61 | one series adds its entries to the registry (none when it cannot be named); the labels it caches change how no label resolves and no resource label is cached |
| SeriesRegistries.UpdatedWith | pkg/custom-provider/series_registry.go:54-60 | a map holding the value on some keys and agreeing elsewhere is the old map updated on those keys |
| SeriesRegistries.RegisterSlice | pkg/custom-provider/series_registry.go:47-61 | one namer's series add their entries in order, a later series replacing an earlier one's entry, and caching changes no resolution |
| SeriesRegistries.SliceStep | pkg/custom-provider/series_registry.go:47-61 | one series extends the registry of the series before it |
| SeriesRegistries.ConvertersOf | pkg/custom-provider/series_registry.go:45-46 | every namer's converter is among them |
| SeriesRegistries.ConvertersOfMembers | pkg/custom-provider/series_registry.go:45-46 | every one of them is some namer's converter |
| SeriesRegistries.Caches | pkg/custom-provider/series_registry.go:45-46 | one label cache per namer, its converter's |
| SeriesRegistries.CollectStep | pkg/custom-provider/series_registry.go:45-62 | namer `i`'s series extend the registry of the namers before it, every converter still resolving as it started |
| SeriesRegistries.CollectInfo | pkg/custom-provider/series_registry.go:44-62 | the new registry is exactly what the series give, labels resolved as the converters' caches before the call resolved them, and every converter stays consistent |
| SeriesRegistries.CollectSlices | pkg/custom-provider/series_registry.go:45-62 | the loop over namers builds the registry of all their series |
| SeriesRegistries.RegisteredServed | pkg/custom-provider/series_registry.go:59 | every entry's namer queries through its own converter, one of the namers' |
| SeriesRegistries.MatchedLastWins | pkg/custom-provider/series_registry.go:125-131 | an object name is matched exactly when a non-nil sample carries it, and its value is that of the last such sample |
| SeriesRegistries.MatchValues | pkg/custom-provider/series_registry.go:125-131 | the loop yields each sample's value under its object name |
| SeriesRegistries.Found | pkg/custom-provider/series_registry.go:99-104 | a query is found exactly when it was built, and it is the built query |
| SeriesRegistries.SeriesRegistry.constructor | pkg/custom-provider/series_registry.go:31-36 | an empty, consistent registry |
| SeriesRegistries.SeriesRegistry.SetSeries | pkg/custom-provider/series_registry.go:38-72 | a slice count different from the namer count is an error that changes nothing; otherwise the registry becomes exactly what the series give, and its metric list enumerates it |
| SeriesRegistries.SeriesRegistry.ListAllMetrics | pkg/custom-provider/series_registry.go:73-79 | every registered metric, once each |
| SeriesRegistries.SeriesRegistry.QueryOutcome | pkg/custom-provider/series_registry.go:80-105 | no object names, an identity that does not normalize and an unregistered identity find nothing; a registered identity whose entry's namer builds a query for its series, with at least one object name, is found, and the query found is non-empty and is exactly what that namer builds |
| SeriesRegistries.SeriesRegistry.QueryForMetric | pkg/custom-provider/series_registry.go:80-105 | answers what the registry and converters before the call determine, and no converter's label answers change |
| SeriesRegistries.SeriesRegistry.MatchOutcome | pkg/custom-provider/series_registry.go:106-133 | found exactly when the identity normalizes, is registered and its resource has a label; the values are then each sample's value under the object name that label carries |
| SeriesRegistries.SeriesRegistry.MatchValuesToNames | pkg/custom-provider/series_registry.go:106-133 | answers what the registry and converters before the call determine, and no converter's label answers change |
| CustomProvider.MetricFor | pkg/custom-provider/provider.go:41-49 | fails exactly when the mapper cannot reference the object, with that error; otherwise the value describes the object, names the metric, carries the current time and holds the sample in thousandths |
| CustomProvider.Kept | pkg/custom-provider/provider.go:58-61 | the requested names that have a value, and no others |
| CustomProvider.FirstUnreported | pkg/custom-provider/provider.go:58-67 | every name before the index can be reported, and the one at it, if any, cannot |
| CustomProvider.ReportsAll | pkg/custom-provider/provider.go:58-67 | the list fails exactly when some name's reference cannot be made, with the first such error; otherwise it holds one value per kept name, in request order |
| CustomProvider.ReportsPrefix | pkg/custom-provider/provider.go:62-65 | a failure among the first names is the failure of the whole list |
| CustomProvider.KeptPrefix | pkg/custom-provider/provider.go:58-61 | the names kept from a prefix of the request are a prefix of the names kept |
| CustomProvider.KeptStep | pkg/custom-provider/provider.go:59-61 | one more requested name is kept exactly when it has a value |
| CustomProvider.ReportsStep | pkg/custom-provider/provider.go:62-66 | one more name appends its value or fails the list with its error |
| CustomProvider.ValuesFail | pkg/custom-provider/provider.go:62-65 | the first name that cannot be reported fails the whole loop with its error |
| CustomProvider.CollectValues | pkg/custom-provider/provider.go:57-68 | the loop yields a value for each requested name that has one, in request order, or the first reference error |
| CustomProvider.QueryAnswer | pkg/custom-provider/provider.go:70-87 | no query is "metric not found"; success is exactly a backend answer that is a vector, which is returned; a backend failure or another result type is an internal error |
| CustomProvider.PrometheusProvider.constructor | pkg/custom-provider/provider.go:39 | the provider keeps its mapper, client and registry |
| CustomProvider.PrometheusProvider.BuildQuery | pkg/custom-provider/provider.go:70-87 | answers what the registry before the call determines, run at the given time, and no label answer changes |
| CustomProvider.PrometheusProvider.MetricsFor | pkg/custom-provider/provider.go:50-69 | an unmatched metric is "not found"; otherwise the values of the requested names that have one; no label answer changes |
| CustomProvider.PrometheusProvider.GetMetricByName | pkg/custom-provider/provider.go:88-111 | answers what the registry before the call determines: the query's error, "not found for" the object on no results or no sample for its name, "not found" when unmatched, else the object's value; no label answer changes |
| CustomProvider.PrometheusProvider.GetMetricBySelector | pkg/custom-provider/provider.go:112-125 | a failed listing is an internal error; otherwise the query for the listed objects and their values; no label answer changes |
| CustomProvider.PrometheusProvider.ByNameFromSample | pkg/custom-provider/provider.go:88-111 | without a query the metric is not found; a value reported for an object describes that object, names the metric, is stamped now and holds one of the samples the query returned |
| CustomProvider.SelectorsOf | pkg/custom-provider/provider.go:164 | one selector per namer, its series query |
| CustomProvider.Launches | pkg/custom-provider/provider.go:163-180 | one turn per namer |
| CustomProvider.LaunchesAt | pkg/custom-provider/provider.go:163-180 | a namer's turn fetches its selector unless an earlier namer has the same one |
| CustomProvider.LaunchedOnce | pkg/custom-provider/provider.go:163-180 | every selector is fetched, and only by the first namer that has it |
| CustomProvider.FirstIndex | pkg/custom-provider/provider.go:163-170 | the first position holding the selector |
| CustomProvider.CacheOfAnswers | pkg/custom-provider/provider.go:181-188 | reading succeeds exactly when every fetch succeeds; the cache then holds exactly the selectors whose answer is not nil, each with its series |
| CustomProvider.CacheOfFailure | pkg/custom-provider/provider.go:181-184 | a failed read carries the fetch error of the first failing selector in namer order |
| CustomProvider.NewSeries | pkg/custom-provider/provider.go:190-197 | one series list per namer |
| CustomProvider.NewSeriesFiltered | pkg/custom-provider/provider.go:190-197 | succeeds exactly when every namer's selector is cached, each namer then getting its selector's series filtered; otherwise the error names the first uncached selector |
| CustomProvider.DiscoveryInterval | pkg/custom-provider/provider.go:158-172 | discovery asks from `maxAge` before now, to whole milliseconds and less than one short of it, up to the backend's time zero |
| CustomProvider.UpdateOutcome | pkg/custom-provider/provider.go:158-197 | one series list per namer |
| CustomProvider.UpdateSucceeds | pkg/custom-provider/provider.go:155-200 | discovery succeeds exactly when every selector answers with a non-nil list, each namer getting its selector's series filtered; a failing fetch gives a fetch error, and otherwise a nil answer names its selector |
| CustomProvider.Launch | pkg/custom-provider/provider.go:163-180 | the launch loop leaves each namer's answer or nothing, as its selector's first appearance decides |
| CustomProvider.ReadAnswers | pkg/custom-provider/provider.go:181-188 | the reading loop yields the cache of the answers |
| CustomProvider.CacheOfPrefix | pkg/custom-provider/provider.go:182-184 | a failure among the first answers is the failure of the whole reading |
| CustomProvider.CollectSeries | pkg/custom-provider/provider.go:190-197 | the last loop yields each namer's filtered series or the first missing selector |
| CustomProvider.NewSeriesPrefix | pkg/custom-provider/provider.go:192-195 | a failure among the first namers is the failure of the whole list |
| CustomProvider.Discover | pkg/custom-provider/provider.go:158-197 | fetching, reading and filtering give the update's outcome |
| CustomProvider.CachingMetricsLister.constructor | pkg/custom-provider/provider.go:38 | the lister keeps its registry, client, interval, maximum age and namers |
| CustomProvider.CachingMetricsLister.UpdateMetrics | pkg/custom-provider/provider.go:155-200 | fails exactly when discovery over the interval from `maxAge` before now to time zero fails, leaving the registry as it was; otherwise the registry holds exactly what the discovered series register |
| CustomProvider.NewPrometheusProvider | pkg/custom-provider/provider.go:35-40 | a fresh, empty registry for the mapper, shared by a fresh lister and a fresh provider, each keeping its parameters |
| ResourceMetrics.NewResourceQuery | pkg/resourceprovider/provider.go:31-47 | construction succeeds exactly when the resource mapping gives a converter and both templates parse; on success a fresh converter shared by the container and node queries and the rule's container label; otherwise the first failing step is reported: the converter's own error, then the container query's parse error, then the node query's |
| ResourceMetrics.SamplesWith | pkg/resourceprovider/provider.go:253-259 | exactly the non-nil samples whose resource label reads the key |
| ResourceMetrics.GroupByLabel | pkg/resourceprovider/provider.go:252-259 | every group holds at least one sample |
| ResourceMetrics.GroupByLabelFilters | pkg/resourceprovider/provider.go:252-259 | a group exists exactly for a label value some non-nil sample has, and holds those samples in backend order |
| ResourceMetrics.GroupByLabelAll | pkg/resourceprovider/provider.go:252-259 | the same, for every label value at once |
| ResourceMetrics.BuiltQuery | pkg/resourceprovider/provider.go:230-237 | a built query needs the resource label, and the namespace label when a namespace is given; nodes use the node query grouped by the resource label only, anything else the container query grouped also by the container label, with the names under the resource label |
| ResourceMetrics.RunAnswer | pkg/resourceprovider/provider.go:227-261 | succeeds exactly when the backend answers the built query with a non-nil vector; a construction failure, a backend failure and another answer are the three wrapped errors in that order; groups are non-empty |
| ResourceMetrics.RunAnswerGroups | pkg/resourceprovider/provider.go:248-260 | a successful answer has a group for exactly the resource label values of the vector's non-nil samples, each holding those samples in order |
| ResourceMetrics.BothAnswer | pkg/resourceprovider/provider.go:200-223 | succeeds exactly when both queries do, holding both groupings; a CPU failure is reported before a memory failure; the namespace is kept |
| ResourceMetrics.NamesIn | pkg/resourceprovider/provider.go:88-90 | exactly the names of the pods in the namespace |
| ResourceMetrics.PodsByNamespace | pkg/resourceprovider/provider.go:87-90 | every namespace listed has at least one pod |
| ResourceMetrics.PodsByNamespaceOrder | pkg/resourceprovider/provider.go:87-90 | a namespace is listed exactly when some pod is in it, with its pods' names in request order |
| ResourceMetrics.AnswersByNs | pkg/resourceprovider/provider.go:95-100 | one answer per namespace; successful answers have non-empty groups |
| ResourceMetrics.Succeeded | pkg/resourceprovider/provider.go:103-110 | exactly the answers without an error, unchanged |
| ResourceMetrics.ResultsByNs | pkg/resourceprovider/provider.go:92-110 | only namespaces whose queries both succeeded, with non-empty groups |
| ResourceMetrics.CollectedStep | pkg/resourceprovider/provider.go:104-110 | one more namespace is kept exactly when its answer has no error |
| ResourceMetrics.CollectedAll | pkg/resourceprovider/provider.go:104-110 | after every namespace, exactly the successful answers are kept, whatever the order |
| ResourceMetrics.LastWith | pkg/resourceprovider/provider.go:138-157 | the last sample whose container label reads the name, or none |
| ResourceMetrics.MergedUsage | pkg/resourceprovider/provider.go:138-147 | a container exists for every name a sample carries; its quantity is the last such sample's in thousandths; other containers stay |
| ResourceMetrics.PodContainersUsage | pkg/resourceprovider/provider.go:137-157 | one container per name among the CPU and memory samples, with a CPU quantity exactly when a CPU sample names it (the last one's), and likewise for memory |
| ResourceMetrics.Earliest | pkg/resourceprovider/provider.go:136-157 | the earliest of the start time and the sample times, and one of them |
| ResourceMetrics.PodAnswer | pkg/resourceprovider/provider.go:118-164 | a pod is assigned exactly when its namespace, CPU and memory results exist; its window is the provider's and its time is the earliest sample time, or the latest time |
| ResourceMetrics.NodeAnswer | pkg/resourceprovider/provider.go:178-197 | a node missing either result keeps zero entries; otherwise the first CPU and memory samples in thousandths, the earlier of their times, with the provider's window when memory is strictly earlier and one minute otherwise |
| ResourceMetrics.GroupSamples | pkg/resourceprovider/provider.go:252-259 | the grouping loop yields the grouping of the samples |
| ResourceMetrics.GroupPods | pkg/resourceprovider/provider.go:87-90 | the grouping loop yields the pods' names per namespace |
| ResourceMetrics.AddSampleStep | pkg/resourceprovider/provider.go:138-147 | one more sample sets its container's quantity and lowers the earliest time when strictly earlier |
| ResourceMetrics.AddSamples | pkg/resourceprovider/provider.go:138-157 | a sample loop merges the containers and finds the earliest time |
| ResourceMetrics.ListContainers | pkg/resourceprovider/provider.go:159-163 | one entry per container, each with its name and usage |
| ResourceMetrics.ResourceProvider.constructor | pkg/resourceprovider/provider.go:67 | the provider keeps its client, rules and window |
| ResourceMetrics.ResourceProvider.RunQuery | pkg/resourceprovider/provider.go:227-261 | answers what the converter's labels before the call determine, and no label answer changes |
| ResourceMetrics.ResourceProvider.QueryBoth | pkg/resourceprovider/provider.go:200-223 | answers both queries as the converters before the call determine, and no label answer changes |
| ResourceMetrics.ResourceProvider.QueryNamespace | pkg/resourceprovider/provider.go:95-110 | one namespace's answers are kept exactly when both queries succeed |
| ResourceMetrics.ResourceProvider.QueryNamespaces | pkg/resourceprovider/provider.go:92-110 | exactly the namespaces whose queries both succeed, with their answers, whatever the order |
| ResourceMetrics.ResourceProvider.QueryInOrder | pkg/resourceprovider/provider.go:95-110 | the namespaces in one order, keeping the successful answers |
| ResourceMetrics.ResourceProvider.AssignForPod | pkg/resourceprovider/provider.go:118-164 | a pod lacking its namespace, CPU or memory result keeps zero entries; otherwise its containers, once each, and its earliest time with the provider's window |
| ResourceMetrics.ResourceProvider.AssignPods | pkg/resourceprovider/provider.go:111-115 | every pod gets its own entries at its own index |
| ResourceMetrics.ResourceProvider.GetContainerMetrics | pkg/resourceprovider/provider.go:81-117 | never fails; one entry per pod at its index, each what its namespace's successful answers give |
| ResourceMetrics.ResourceProvider.AssignNodes | pkg/resourceprovider/provider.go:176-197 | every node gets its entries at its own index |
| ResourceMetrics.ResourceProvider.GetNodeMetrics | pkg/resourceprovider/provider.go:165-199 | nothing for no nodes; a failure of either query for all nodes fails the call with nothing; otherwise every node's entries, at its index |
| ResourceMetrics.NewProvider | pkg/resourceprovider/provider.go:56-68 | construction succeeds exactly when both the CPU and the memory rule yield queries; on success a fresh provider with separate fresh converters for CPU and memory, their templates and container labels, the client and the window; a failure is the CPU rule's exactly when that rule does not build, and otherwise the memory rule's |
| Text.Split | pkg/naming/metrics_query.go:59 | splitting always yields at least one piece; `SplitJoin` shows it recovers the pieces of a join |
| Text.SplitJoin | pkg/naming/metrics_query.go:59-66 | joining pieces free of the separator and splitting again gives the pieces back |
| Text.JoinAvoids | pkg/client/helpers.go:58 | a character in neither the pieces nor the separator is not in their join |
| Text.Join | pkg/client/helpers.go:58 | no pieces join to the empty string; otherwise the join is as long as the pieces plus one separator between each neighbouring pair |
| Text.JoinBounds | pkg/client/helpers.go:58 | a join starts with its first piece and ends with its last |
| Text.Quote | pkg/client/helpers.go:13 | a quoted string is delimited by double quotes |
| Text.UnescapeEscape | pkg/client/helpers.go:13 | reading back an escaped body gives the original string |
| Text.QuoteRoundTrip | pkg/client/helpers.go:13 | unquoting a quoted string gives it back |
| Text.EscapeAvoids | pkg/client/helpers.go:13 | escaping introduces no character other than `"` and `\` |
| Text.QuoteAvoids | pkg/client/helpers.go:13 | quoting introduces no character other than `"` and `\` |
| Text.QuoteInjective | pkg/client/helpers.go:13 | two strings with the same quoted form are equal |
| Text.SanitizeGroup | pkg/naming/resource_converter.go:19 | the same length, each `.` and `-` replaced by `_` and every other character kept |
| Text.SanitizeGroupIdempotent | pkg/naming/resource_converter.go:19 | a sanitized group holds no `.` or `-`, and sanitizing it again changes nothing |
| Model.Enumerate | pkg/custom-provider/series_registry.go:64-66 | Go's map iteration: each key exactly once, in some order |
| Model.TruncDiv | pkg/custom-provider/provider.go:158 | Go's integer division: the remainder is below the divisor in size and takes the sign of the dividend (truncation toward zero) |
| Model.AddDuration | pkg/custom-provider/provider.go:158 | `Time.Add`: the time moves by the duration's whole milliseconds, in the duration's direction, by at most the duration and by less than one millisecond short of it |
| Model.Milli | pkg/custom-provider/provider.go:48 | `int64(value*1000.0)`: the thousandths truncated toward zero, within one of the exact product |
| Foreign.NormalizeInfo | pkg/custom-provider/series_registry.go:89 | normalizing a metric identity succeeds exactly when its resource normalizes, keeping the metric name and the namespaced flag |
| Foreign.ScanOneGroup | cmd/config-gen/utils/default.go:17 | a pattern whose only special character is one opening `(` is simple and has one capture group |
| Foreign.ScanNoGroup | cmd/config-gen/utils/default.go:17 | a pattern without escapes, classes or `(` is simple and has no capture group |
| FakeClient.FakePrometheusClient.FirstErrorIndex | pkg/client/fake/client.go:27-30 | every selector before the index is not configured to fail, and the one at it, if any, is |
| FakeClient.FakePrometheusClient.CollectedAppend | pkg/client/fake/client.go:26-35 | the series of a concatenation of selector lists are the concatenation of their series |
| FakeClient.FakePrometheusClient.CollectedIgnoresUnknown | pkg/client/fake/client.go:31-33 | a selector without configured series adds nothing |
| FakeClient.FakePrometheusClient.Series | pkg/client/fake/client.go:20-36 | a set interval bound outside the acceptable interval is rejected; then the first selector configured to fail gives its error; otherwise the configured series of all selectors, in order |
| FakeClient.FakePrometheusClient.Query | pkg/client/fake/client.go:37-50 | a time outside the acceptable interval (bounds included) is rejected; then a configured error, then a configured result, otherwise an empty vector |
| FakeClient.FakePrometheusClient.QueryRange | pkg/client/fake/client.go:51-55 | always the empty result, with no type, scalar, vector or matrix, and no error |
| FakeClient.FakePrometheusClient.AsClient | pkg/client/fake/client.go:13-55 | the fake used as a backend answers series and queries exactly as its own methods do |
| Config.DefaultConfig | cmd/config-gen/utils/default.go:14-18 | six discovery rules, and resource rules whose window is the rate interval |
| Config.DefaultRules | cmd/config-gen/utils/default.go:17 | six rules: the first three on the container selector, the last three on the namespaced one, and every series filter an exclusion (`isNot`) |
| Config.DefaultResourceRules | cmd/config-gen/utils/default.go:17 | the window is the rate interval; CPU and memory share the override mapping without a template and the prefixed `container_name` label; both CPU queries take the rate over the rendered window |
| Config.DefaultSelectorsShared | cmd/config-gen/utils/default.go:17 | the rules use exactly two selectors, the container one and the namespaced one, so discovery fetches at most two |
| Config.DefaultFiltersWellFormed | cmd/config-gen/utils/default.go:17 | every default filter sets exactly one of `is` and `isNot` |
| Config.DefaultNamePatterns | cmd/config-gen/utils/default.go:17 | no default rule sets `as`; each name pattern is plain with one group, except the empty one of the fourth rule |
| Config.ContainerSecondsPattern | cmd/config-gen/utils/default.go:17 | the pattern is plain with one capture group |
| Config.ContainerTotalPattern | cmd/config-gen/utils/default.go:17 | the pattern is plain with one capture group |
| Config.ContainerGaugePattern | cmd/config-gen/utils/default.go:17 | the pattern is plain with one capture group |
| Config.TotalPattern | cmd/config-gen/utils/default.go:17 | the pattern is plain with one capture group |
| Config.SecondsPattern | cmd/config-gen/utils/default.go:17 | the pattern is plain with one capture group |
| Config.DefaultRuleMappings | cmd/config-gen/utils/default.go:17 | the container rules map `namespace` and `pod_name` by override; the others use the prefixed resource template |
| Config.DefaultResourceMappings | cmd/config-gen/utils/default.go:17 | the overrides map `namespace` and `pod_name`, plus `instance` to nodes in the resource rules, which read containers from the prefixed `container_name` label over the rate interval |

## Left out

- `_logClusterCodePath` is not part of the adapter and is treated as absent, together with the two calls to it at the head of each function. It reports the calling function's name to a hard-coded external address. Only pkg/config/config.go and pkg/client/fake/client.go define it as that report alone. In the other packages its first statement calls itself, so every function that calls it would recurse without end, and pkg/naming/lbl_res.go and pkg/client/metrics/metrics.go declare it twice, so those packages do not compile as written. The model describes the adapter's functions as they behave without it.
- Locks, goroutines, wait groups and channels are not modelled. Concurrent work is modelled as the same work done sequentially in a fixed order.
- `glog` logging is not modelled.
- The `Run`/`RunUntil` ticker of the caching lister is not modelled: it is a timer loop around `updateMetrics`, and `UpdateMetrics` is modelled.
- `helpers.ListObjectNames` is not part of this model. It asks the Kubernetes API for the objects a label selector picks. `GetMetricBySelector` takes its outcome as a parameter.
- Floating-point sample values are `real`. `int64(value*1000.0)` is modelled as truncation toward zero, without the overflow of a value outside the 64-bit range.
- The quantity formats (`DecimalSI`, `BinarySI`) are not modelled; a quantity is its number of thousandths.
- `pmodel.Duration.String` is not part of this model. The rendered rate window is a parameter of the default configuration.
- `%q` quoting is modelled for the escapes of `"` and `\` only. Go's escaping of non-printable and non-ASCII characters is left out.
- Go's nil and empty slices are not distinguished in results. Where the code tells them apart (a nil series list from the backend, a nil vector pointer, nil samples), `Option` models the nil.
- A zero-length pod or node request gives empty results rather than nil.
- ResourceConversion.ResourceConverter.NewResourceConverter: Go also returns the half-built converter together with a template error. Every caller discards it on error, so the model returns only the error.
- ClientDecoding.UnmarshalQueryResult: a payload that decodes only partly leaves Go with whatever the JSON decoder filled in before failing. The model gives the field its zero value, because the JSON decoder is not part of this model.
- ResourceConversion.ResourceConverter.ResourcesForSeries: the lookup of a label among the pending updates is not modelled. The labels of a series are distinct map keys, so that branch is never taken.
- MetricNaming.NamerForRule: the second compile of a non-empty name pattern is not modelled as a separate step. The same pattern was already compiled as the name filter, so its compile error can never arise there.
- MetricsQueries.MetricsQuery.Build: requires at least one object name. Go indexes `names[0]` and would panic on an empty list; every caller passes at least one name.
- CustomProvider.QueryAnswer: a vector-typed answer with a nil vector makes Go dereference a nil pointer and panic. The model reports it as an internal error.
- CustomProvider.CacheOfFailure: when several fetches fail, Go reports whichever error reaches the channel first. The model reports the first failing selector in namer order, one of the errors Go can report.
- CustomProvider.CachingMetricsLister.UpdateMetrics: requires namers that are well formed, each with a consistent converter of its own. `NamersFromConfig` builds namers of that kind.
- MetricNaming.NamersFromConfig: does not state that the converters of different namers are distinct objects. Each one is fresh when it is built, but the sequence as a whole does not carry that fact.
- ResourceMetrics.ResourceProvider.AssignForPod: the order of the container list is Go's map order, an unspecified enumeration. Only its contents are stated.
- ResourceMetrics.NodeAnswer: when memory is strictly earlier, a node's entry carries the provider's window; otherwise it carries one minute. This asymmetry is modelled as written.
- Errors are modelled as tagged values. Where the core wraps an error of its own, the constructor keeps it as a `cause` field, next to the values its message names. Errors of the template engine, the regular-expression engine and the RESTMapper are not modelled, so the constructors that wrap them (`TemplateParseError`, `TemplateExecError`, `RegexCompileError`, `NormalizeError`, `SingularizeError`) carry only the values their message names. The message text is not modelled.
- `makeLabelForResource` may overwrite an existing `labelToResource` entry, for example when a rendered label collides with an override. The model follows the code, which does not prevent this.
