# signalfx-collectd-plugin in Dafny

A Dafny model of the core of the SignalFx collectd plugins, with proofs about it.

- **The write plugin** (`collectd_to_sf.dfy`, module `CollectdToSf`). It turns collectd value lists into SignalFx data points:
  - it whitelists the characters of names;
  - it reads collectd's `types.db`;
  - it builds the metric name and chooses the source;
  - it puts points on a bounded queue that drops on overflow;
  - one drain iteration of a flushing worker registers the new metrics of a batch and uploads the points whose metric is registered;
  - it counts what it does for its self-monitoring `read` callback.
- **The ingest client** (`datapoint_uploader.dfy`, module `DatapointUploader`):
  - the data point record and its dimensions;
  - the endpoint derived from the URL;
  - the lazily opened connection;
  - how the replies to the registration, version 1 and version 2 data point, and source-tagging requests are read, and the bodies sent.
- **The DogStatsD adapter** (`collectd_dogstatsd.dfy`, module `CollectdDogstatsd`):
  - its configuration;
  - tags to dimensions;
  - dimension sanitising and the `[k=v,...]` plugin-instance text;
  - the collectd sender and the direct SignalFx sender, with the rule that nothing is sent before the host is known.
- **The metadata plugin's tables**:
  - `utilization.dfy` (module `MetadataUtilization`): the time-bucketed memory, CPU and per-partition disk utilization tables, and the CPU difference calculator;
  - `totals.dfy` (module `MetadataTotals`): the network and disk-operation totals and the overall disk utilization, with their warm-up threshold, wrap-aware cumulative sums and partition probation.
- **The metadata plugin's helpers** (`metadata_helpers.dfy`, module `MetadataHelpers`):
  - the host-info diff, severities and priorities;
  - the maximum response time;
  - the AWS dimension on the post URLs;
  - the metadata send schedule and the host name taken from notifications.
- **The process-watch plugin** (`process_watch.dfy`, module `ProcessWatch`):
  - the per-process metric map and its `types.db` lines;
  - process names and the docker container id of a cgroup line;
  - the configuration and the filter that decides which processes are reported.

Support modules:

- `Wrappers`: `Option`.
- `Text`: the Python string operations used, over `seq<char>`.
- `Dicts`: Python dictionaries as association lists in insertion order.
- `CollectdConfig`: configuration nodes and Python's `int()`/`bool()`/`str()` on their values.

How the source is modelled:

- Objects whose fields the source updates become classes. Each method states its new state through a specification function of the old state, and the properties are lemmas about those functions.
  - Examples: `SignalFxPlugin`, `Uploader`, the utilization and total tables, `ResponseTimes`, `PostUrls`, `MetadataState`, `ProcessWatchConfig`.
- A table read walks its time keys in increasing order. The loop is proved equal to a run of the per-bucket step function over the ascending keys.
- Time keys are whole tenths of a second, as `round(t, 1)` buckets them.
- The HTTP replies, the clock, the random draws, the regular-expression matchers and `camel_case_to_snake_case` are parameters.

Where the code and the repository's own description of it differ, the model follows the code:

- A drain worker that takes a `None` at its blocking `get` only `continue`s. It leaves its loop only once `is_shutdown` is already set, not on consuming a sentinel.
- A sentinel met mid-batch returns without flushing the batch and without disconnecting.
- `shutdown` uses `put_nowait`, so a full queue raises `Full` part-way and `is_shutdown` stays unset. `write` swallows `Full`.
- No drop counter exists.
- `metrics_written` counts the points handed to `addDatapoints`, whether or not the upload succeeds. `signalboost_errors` is never incremented.
- A queue size of 0 or less is unbounded, as for Python's `Queue`.

## Model

| member | source | states |
|---|---|---|
| CollectdToSf.KeepAllowed | src/collectdtosf.py:28-31 | the kept string is no longer than the input and holds whitelisted characters only |
| CollectdToSf.KeepAllowedUnchanged | src/collectdtosf.py:19-31 | a string of whitelisted characters passes the filter whole |
| CollectdToSf.WhitelistField | src/collectdtosf.py:22-32 | the character loop computes strip, spaces to `_`, then the whitelist filter |
| CollectdToSf.WhitelistAllowed | src/collectdtosf.py:19-32 | a whitelisted name holds letters, digits and `._-:` only |
| CollectdToSf.AllowedIsClean | src/collectdtosf.py:19-27 | a string of whitelisted characters has no white space, so strip and the space replacement leave it alone |
| CollectdToSf.WhitelistIdempotent | src/collectdtosf.py:22-32 | whitelisting a whitelisted name changes nothing |
| CollectdToSf.WhitelistSpace | src/collectdtosf.py:27-31 | a space between two clean words becomes `_` |
| CollectdToSf.ParseDataSources | src/collectdtosf.py:67-81 | the inner loop keeps, in order, the `name:TYPE:min:max` fields with four parts and a known type, converted |
| CollectdToSf.TypesOfStep | src/collectdtosf.py:55-83 | one more line sets its name's entry when it parses and changes nothing otherwise |
| CollectdToSf.ParseTypesFile | src/collectdtosf.py:35-85 | the line loop builds the same table as the line-by-line definition |
| CollectdToSf.TypesOfLastWins | src/collectdtosf.py:55-83 | a type has an entry exactly when some line defines it, and the last such line wins |
| CollectdToSf.DataSourceOf | src/collectdtosf.py:43-81 | a well-formed data source field reads back as its name and converted type |
| CollectdToSf.ParseLineOf | src/collectdtosf.py:55-83 | a line `name ds` separated by white space reads back as that one data source |
| CollectdToSf.IncludePatterns | src/collectdtosf.py:107-114 | a non-empty pattern list comes only from a string split on `,` |
| CollectdToSf.UnknownKeysIgnored | src/collectdtosf.py:178-182 | option nodes whose snake-case key is unknown leave the configuration alone and raise nothing |
| CollectdConfig.FloatOptions | src/collectdtosf.py:139-155 | collectd's float option values read through `int()` truncate toward zero, and through `str()` keep their decimal digits or `.0` |
| CollectdToSf.Str2BoolIgnoresCase | src/collectdtosf.py:101-104 | `str2bool` ignores case and accepts `y`; only a value without `lower()` raises |
| CollectdToSf.NonEmpty | src/collectdtosf.py:206-211 | the kept name parts are all non-empty and no more than given |
| CollectdToSf.NonEmptyUnchanged | src/collectdtosf.py:206-211 | parts that are all non-empty are all kept |
| CollectdToSf.MetricNameSingle | src/collectdtosf.py:206-227 | with one sample and every part present, the metric name is the five parts joined by the separator |
| CollectdToSf.SourceOf | src/collectdtosf.py:213-214 | the source is the configured source, else the value's host, else `CollectD`, and never empty |
| CollectdToSf.TypeFor | src/collectdtosf.py:191-199 | a known type uses its `types.db` entry; an unknown one becomes one unnamed gauge per sample |
| CollectdToSf.Candidates | src/collectdtosf.py:216-242 | no more points than samples |
| CollectdToSf.CandidatesWellFormed | src/collectdtosf.py:213-242 | every point has a whitelisted metric, the value list's source and its time |
| CollectdToSf.CandidatesAll | src/collectdtosf.py:216-242 | with no include patterns and no missing or NaN sample there is one point per sample, in order |
| CollectdToSf.Taken | src/collectdtosf.py:243-246 | an unbounded queue takes every point; a bounded one takes points until it is full |
| CollectdToSf.TakenStep | src/collectdtosf.py:243-246 | one more point is taken exactly when the queue still has room |
| CollectdToSf.OfferOne | src/collectdtosf.py:243-246 | offering one more point appends it exactly when the queue is not full |
| CollectdToSf.Collect | src/collectdtosf.py:285-292 | the non-blocking loop consumes a prefix of the queue |
| CollectdToSf.CollectBound | src/collectdtosf.py:285 | a batch never grows past the flush size |
| CollectdToSf.CollectKeeps | src/collectdtosf.py:283-290 | a batch keeps the point it started with |
| CollectdToSf.CollectConsumes | src/collectdtosf.py:285-292 | one queue entry is consumed per point added, plus the sentinel that ends the worker |
| CollectdToSf.CollectTakes | src/collectdtosf.py:285-292 | the points added are the points at the front of the queue, in order |
| CollectdToSf.ToRegister | src/collectdtosf.py:296-303 | each point to register comes from the batch and has an unregistered metric |
| CollectdToSf.ToRegisterDistinctComplete | src/collectdtosf.py:296-303 | the registration list names each metric once, and every unregistered metric of the batch |
| CollectdToSf.CountTrue | src/collectdtosf.py:310-313 | no more metrics counted as registered than flags returned |
| CollectdToSf.Survivors | src/collectdtosf.py:318 | the kept items come from the batch and none has a failed metric |
| CollectdToSf.SurvivorsAreRegistered | src/collectdtosf.py:294-318 | an item survives iff its metric was registered before or accepted now |
| CollectdToSf.UploadedAreRegistered | src/collectdtosf.py:294-318 | newly accepted metrics are new, and every uploaded point's metric is registered |
| CollectdToSf.Flush | src/collectdtosf.py:294-327 | a batch is uploaded iff points survive registration, and every uploaded point is a registered metric of the batch |
| CollectdToSf.Dispatched | src/collectdtosf.py:347-350 | a counter is reported as `collectd-signalfx`, the separator and the counter name, with its value |
| CollectdToSf.SignalFxPlugin.constructor | src/collectdtosf.py:138-171 | the plugin starts with the default configuration, an empty queue, no registered series and zero counters |
| CollectdToSf.SignalFxPlugin.Configure | src/collectdtosf.py:174-182 | the configuration is the defaults with each known option node applied in turn until one raises |
| CollectdToSf.SignalFxPlugin.ParseTypes | src/collectdtosf.py:185-186 | the type table is the parse of the configured file's lines |
| CollectdToSf.SignalFxPlugin.PutNowait | src/collectdtosf.py:243-246 | an item is appended unless the queue is bounded and full, which raises `Full` |
| CollectdToSf.SignalFxPlugin.PointFor | src/collectdtosf.py:216-242 | one iteration of the sample loop computes the point for that sample |
| CollectdToSf.SignalFxPlugin.Write | src/collectdtosf.py:188-246 | `write` counts the call, records the type, drops a value list of the wrong arity, and enqueues the points that fit |
| CollectdToSf.SignalFxPlugin.Shutdown | src/collectdtosf.py:248-252 | one sentinel per flushing thread; if the queue fills part-way `Full` is raised and `is_shutdown` stays unset |
| CollectdToSf.SignalFxPlugin.CollectBatch | src/collectdtosf.py:283-292 | the batch and the remaining queue are those of `Collect` |
| CollectdToSf.SignalFxPlugin.RegistrationList | src/collectdtosf.py:294-303 | the registration loop computes the list of unregistered metrics, each once |
| CollectdToSf.SignalFxPlugin.RecordRegistration | src/collectdtosf.py:304-316 | accepted metrics join the registered series and are counted; rejected ones are returned |
| CollectdToSf.SignalFxPlugin.KeepRegistered | src/collectdtosf.py:318 | the comprehension keeps the items whose metric did not fail |
| CollectdToSf.SignalFxPlugin.FlushBatch | src/collectdtosf.py:294-327 | registration then upload change the series and counters as `Flush` says |
| CollectdToSf.SignalFxPlugin.DrainOnce | src/collectdtosf.py:278-327 | one drain iteration: exit after shutdown, skip a sentinel at the blocking get, die at a sentinel mid-batch without flushing, else flush the batch |
| CollectdToSf.SignalFxPlugin.DrainBatch | src/collectdtosf.py:283-327 | after the first point: a sentinel mid-batch ends the worker with nothing posted and no counter changed; otherwise the batch collected by `Collect` is flushed as `Flush` says, ending crashed, with nothing to upload, or uploaded |
| CollectdToSf.SignalFxPlugin.Report | src/collectdtosf.py:336-350 | `read` reports the six counters, each under the plugin name and the separator, with the current values |
| DatapointUploader.GetDimensions | src/datapointuploader.py:44-49 | the dimensions plus `sf_source`; a point's own dimension wins over its source |
| DatapointUploader.EndpointFor | src/datapointuploader.py:57-71 | a URL without host or with another scheme is refused; otherwise host, https flag, and the explicit port or 443/80 |
| DatapointUploader.Falses | src/datapointuploader.py:123 | a failed registration answers `False` for every series |
| DatapointUploader.Registration | src/datapointuploader.py:103-140 | a failed request gives all `False`; otherwise one flag per reply entry, true unless its code is not 409 |
| DatapointUploader.ConflictAccepted | src/datapointuploader.py:126-131 | code 409 (already exists) counts as registered |
| DatapointUploader.OtherCodeRejected | src/datapointuploader.py:126-129 | any other code counts as not registered |
| DatapointUploader.InterpretEntries | src/datapointuploader.py:124-134 | the reply loop succeeds iff every code parses, and then gives one flag per entry |
| DatapointUploader.TimestampOf | src/datapointuploader.py:209-210 | a timestamp is sent iff it is not 0 |
| DatapointUploader.GroupedIsSelect | src/datapointuploader.py:238-249 | the v2 body has a key per lower-cased type present, holding that type's points in order |
| DatapointUploader.GroupedHoldsEvery | src/datapointuploader.py:238-249 | every point appears under its lower-cased type |
| DatapointUploader.TagBody | src/datapointuploader.py:153-156 | the tags posted are those the source does not already carry with the same value |
| DatapointUploader.TagBodySettles | src/datapointuploader.py:153-156 | once posted tags are applied, nothing is left to post |
| DatapointUploader.FirstToTag | src/datapointuploader.py:152-158 | the source posted to is the first with tags left to add |
| DatapointUploader.Uploader.constructor | src/datapointuploader.py:57-77 | an uploader for a valid URL starts disconnected at the computed endpoint |
| DatapointUploader.Uploader.Connect | src/datapointuploader.py:85-97 | connecting keeps an existing connection or opens one to the endpoint |
| DatapointUploader.Uploader.Disconnect | src/datapointuploader.py:142-145 | afterwards there is no connection |
| DatapointUploader.Uploader.RegisterMultipleSeries | src/datapointuploader.py:103-140 | the flags are `Registration` of the reply; a failure disconnects |
| DatapointUploader.Uploader.AddDatapoints | src/datapointuploader.py:201-232 | the v1 body holds one entry per point; the result is true only for status 200 and body `"OK"`, and anything else disconnects |
| DatapointUploader.Uploader.AddDatapointsV2 | src/datapointuploader.py:234-266 | the v2 body groups the points by lower-cased type; a failure disconnects |
| DatapointUploader.Uploader.GetSourcesFromName | src/datapointuploader.py:177-199 | a successful lookup gives the server's sources and leaves the connection open; a failed one gives none and disconnects |
| DatapointUploader.Uploader.TagSource | src/datapointuploader.py:147-175 | after the lookup, nothing is posted when no source needs tags (disconnected only if the lookup failed); otherwise the first such source with an `sf_id` gets the missing tags, and the result reflects status 200 |
| DatapointUploader.Uploader.PostTags | src/datapointuploader.py:158-172 | the post goes to the source's `sf_id` with the missing tags (a source without one raises and nothing is posted); the result is whether the status was 200, and the connection is dropped on every outcome but success |
| DatapointUploader.PostResult | src/datapointuploader.py:216-232 | true iff status 200 and body `"OK"`; `None` on an exception or an empty 200 body |
| CollectdDogstatsd.CollectdType | src/collectd_dogstatsd.py:51-54 | a DogStatsD `rate` becomes collectd `absolute`; every other type becomes `gauge` |
| CollectdDogstatsd.FilterSignalfxDimension | src/collectd_dogstatsd.py:92-100 | same length; each of `[],=:` becomes `_`, every other character is kept |
| CollectdDogstatsd.FilterClean | src/collectd_dogstatsd.py:92-100 | the result holds none of `[],=:` |
| CollectdDogstatsd.FilterIdempotent | src/collectd_dogstatsd.py:92-100 | filtering twice is filtering once |
| CollectdDogstatsd.FilterUnchanged | src/collectd_dogstatsd.py:92-100 | a string with none of `[],=:` is unchanged |
| CollectdDogstatsd.TagPair | src/collectd_dogstatsd.py:108-124 | a tag without `:` is a label and is dropped; otherwise it splits at its first `:` into a key without `:` and the rest |
| CollectdDogstatsd.TagSplitsInOneOrTwo | src/collectd_dogstatsd.py:108-122 | `split(":", 1)` gives the whole tag or two parts joined back by `:`, so the malformed branch is never taken |
| CollectdDogstatsd.DimsFromTags | src/collectd_dogstatsd.py:103-106 | no tags or an empty list give no dimensions |
| CollectdDogstatsd.DimsDistinct | src/collectd_dogstatsd.py:103-125 | the dimensions form a dict: each key once |
| CollectdDogstatsd.DimsKeys | src/collectd_dogstatsd.py:107-124 | a key is present iff some tag has it |
| CollectdDogstatsd.DimsLastWins | src/collectd_dogstatsd.py:107-124 | a repeated key keeps the value of its last tag |
| CollectdDogstatsd.ValueKeepsColons | src/collectd_dogstatsd.py:108-124 | a value may itself hold colons: only the first `:` splits |
| CollectdDogstatsd.DimTexts | src/collectd_dogstatsd.py:132-134 | one `key=value` text per dimension, in order |
| CollectdDogstatsd.CombineDimsShape | src/collectd_dogstatsd.py:128-135 | empty dimensions give the empty string; otherwise the text is bracketed |
| CollectdDogstatsd.CombineDimsParses | src/collectd_dogstatsd.py:128-135 | reading the bracketed text back gives each dimension with its key and value filtered |
| CollectdDogstatsd.CombineDimsRoundTrip | src/collectd_dogstatsd.py:128-135 | dimensions free of `[],=:` read back exactly |
| CollectdDogstatsd.CombineDimsExample | src/collectd_dogstatsd.py:128-135 | `{country: china}` becomes `[country=china]` |
| CollectdDogstatsd.DogstatsDConfig.constructor | src/collectd_dogstatsd.py:59-69 | the settings start at their defaults |
| CollectdDogstatsd.DogstatsDConfig.ConfigureCallback | src/collectd_dogstatsd.py:71-89 | the settings are the old ones with each child applied in turn until one raises |
| CollectdDogstatsd.ApplyOption | src/collectd_dogstatsd.py:73-89 | an unknown key changes nothing; a known key with no value raises; a key sets its own setting and no other |
| CollectdDogstatsd.ApplyAllRaised | src/collectd_dogstatsd.py:71-89 | once a child raises, later children are not applied |
| CollectdDogstatsd.VerboseFalseStringIsTrue | src/collectd_dogstatsd.py:78-79 | `bool("false")` is true, so `Verbose "false"` turns verbose logging on |
| CollectdDogstatsd.CdSendSameFrom | src/collectd_dogstatsd.py:199-225 | the loop depends on what was sent so far, not on how |
| CollectdDogstatsd.BadMetricSkipped | src/collectd_dogstatsd.py:200-225 | a metric without type, name or points is logged and skipped without affecting the others |
| CollectdDogstatsd.CollectDPointSender.constructor | src/collectd_dogstatsd.py:192-197 | the sender keeps its configuration and plugin name |
| CollectdDogstatsd.CollectDPointSender.SendPoints | src/collectd_dogstatsd.py:199-225 | the loop dispatches what `CdSend` says and stops where an uncaught error is raised |
| CollectdDogstatsd.CdSendRaised | src/collectd_dogstatsd.py:199-225 | after an uncaught error nothing more is dispatched |
| CollectdDogstatsd.SfxDimsMeaning | src/collectd_dogstatsd.py:163-166 | the dimensions are the tags, plus the sender's host when no tag names one |
| CollectdDogstatsd.SentHaveHost | src/collectd_dogstatsd.py:148-185 | every point sent has a non-empty host, and every counter comes from a rate metric |
| CollectdDogstatsd.NoHostSendsNothing | src/collectd_dogstatsd.py:165-169 | before the host is known, a valid metric without a host tag stops the whole send |
| CollectdDogstatsd.EnvProdTag | src/collectd_dogstatsd.py:103-125 | the tag `env:[prod]` gives the dimension `env` = `[prod]` |
| CollectdDogstatsd.SignalFxKeepsBrackets | src/collectd_dogstatsd.py:148-178 | the SignalFx sender keeps `[prod]` unfiltered |
| CollectdDogstatsd.CollectdSanitisesBrackets | src/collectd_dogstatsd.py:199-221 | the collectd sender puts `[env=_prod_]` in the plugin instance |
| CollectdDogstatsd.BracketsCombined | src/collectd_dogstatsd.py:128-135 | combining `env` = `[prod]` gives `[env=_prod_]` |
| CollectdDogstatsd.ProdSanitised | src/collectd_dogstatsd.py:92-100 | `[prod]` filters to `_prod_` |
| CollectdDogstatsd.SignalfxPointSender.constructor | src/collectd_dogstatsd.py:139-142 | the sender starts with an empty host |
| CollectdDogstatsd.SignalfxPointSender.SetHost | src/collectd_dogstatsd.py:187-188 | the host is the one given |
| CollectdDogstatsd.SignalfxPointSender.SendPoints | src/collectd_dogstatsd.py:148-185 | the loop gathers the gauges and counters `SfxGather` says, or stops without sending |
| CollectdDogstatsd.SfxGatherStopped | src/collectd_dogstatsd.py:165-169 | once the send is stopped, later metrics change nothing |
| MetadataUtilization.TimeKey | src/signalfx_metadata.py:145-146 | a time is bucketed by rounding to a tenth of a second (the key counts tenths), within half a tenth |
| MetadataUtilization.AddFlatFiles | src/signalfx_metadata.py:165-178 | adding a value creates or reuses its time bucket, files the values under `type.type_instance`, and leaves other buckets and names alone |
| MetadataUtilization.AddNestedFiles | src/signalfx_metadata.py:227-242 | the same, one level down under the value's plugin instance |
| MetadataUtilization.IntervalSetOnce | src/signalfx_metadata.py:158-161 | the interval is taken from the first matching value, else the plugin default of 10, and never changes afterwards |
| MetadataUtilization.PercentInRange | src/signalfx_metadata.py:193-196 | a used amount between zero and a positive total gives a percentage between 0 and 100 |
| MetadataUtilization.EmitUtilization | src/signalfx_metadata.py:180-215 | a percentage is dispatched iff it lies in [0, 100] and the time is not older than the last one emitted, which then becomes that time |
| MetadataUtilization.AscendingSorted | src/signalfx_metadata.py:263 | the time keys are visited once each, in increasing order |
| MetadataUtilization.LargestSize | src/signalfx_metadata.py:312-314 | the expected size is the largest number of metrics in any bucket |
| MetadataUtilization.MemoryRunKeeps | src/signalfx_metadata.py:318-336 | the read loop touches only the buckets it visits and, when nothing raises, deletes every one of them |
| MetadataUtilization.MemoryUtilization.constructor | src/signalfx_metadata.py:297-299 | no metrics, last time 0, no interval and no size yet |
| MetadataUtilization.MemoryUtilization.Write | src/signalfx_metadata.py:148-163 | only `memory`/`memory` values are stored, and the interval is set from the first |
| MetadataUtilization.MemoryUtilization.Read | src/signalfx_metadata.py:304-336 | nothing happens until three buckets are seen; then the size is fixed to the largest bucket and every bucket is emitted or dropped in time order |
| MetadataUtilization.MemoryReadEmpties | src/signalfx_metadata.py:318-336 | a read that does not raise leaves no bucket behind |
| MetadataUtilization.FirstCalculationSilent | src/signalfx_metadata.py:344-368 | the first calculation answers nothing |
| MetadataUtilization.CpuPercentInRange | src/signalfx_metadata.py:348-372 | when idle time does not go backwards the CPU percentage lies between 0 and 100 |
| MetadataUtilization.CalculateMerges | src/signalfx_metadata.py:355 | `last.update(metric)`: a counter takes its new reading if present, else keeps the old one |
| MetadataUtilization.CpuUtilizationCalculator.constructor | src/signalfx_metadata.py:341-346 | no readings and zero totals |
| MetadataUtilization.CpuUtilizationCalculator.CalculateUtilization | src/signalfx_metadata.py:348-372 | the new state and the answer are those of `Calculate` |
| MetadataUtilization.CpuRunKeeps | src/signalfx_metadata.py:469-490 | the CPU read loop touches only the buckets it visits |
| MetadataUtilization.CpuStepKeeps | src/signalfx_metadata.py:470-490 | one step touches only its own bucket |
| MetadataUtilization.CpuSkipOnceThenDrop | src/signalfx_metadata.py:481-487 | an incomplete bucket is skipped once and dropped the next time |
| MetadataUtilization.CpuUtilization.constructor | src/signalfx_metadata.py:449-451 | no metrics and a fresh calculator |
| MetadataUtilization.CpuUtilization.Write | src/signalfx_metadata.py:148-163 | only `aggregation`/`cpu`/`cpu-average` values are stored |
| MetadataUtilization.CpuUtilization.Read | src/signalfx_metadata.py:458-490 | every bucket is processed in time order as `CpuRun` says |
| MetadataUtilization.CpuUtilization.ReadCpuBucket | src/signalfx_metadata.py:470-490 | one bucket: a complete one is calculated and deleted, an incomplete one skipped once then dropped, an old one dropped |
| MetadataUtilization.DfPartitionsLookup | src/signalfx_metadata.py:266-283 | after a bucket's pass a partition is gone when emitted or dropped, or kept and marked skipped |
| MetadataUtilization.DfPartitionsKeeps | src/signalfx_metadata.py:266-275 | the pass only appends emissions at the bucket's time, each between 0 and 100 |
| MetadataUtilization.DfRunKeeps | src/signalfx_metadata.py:263-288 | the df read loop touches only the buckets it visits |
| MetadataUtilization.DfSkipOnceThenDrop | src/signalfx_metadata.py:276-283 | an incomplete partition is skipped once and dropped the next time |
| MetadataUtilization.DfUtilization.constructor | src/signalfx_metadata.py:251-252 | no metrics and last time 0 |
| MetadataUtilization.DfUtilization.Write | src/signalfx_metadata.py:148-163 | only `df`/`df_complex` values are stored, per plugin instance |
| MetadataUtilization.DfUtilization.Read | src/signalfx_metadata.py:257-288 | every bucket is processed in time order as `DfRun` says |
| MetadataUtilization.DfUtilization.ReadDfBucket | src/signalfx_metadata.py:264-288 | one bucket is processed as `DfStep` says, and no other bucket changes |
| MetadataTotals.CheckThreshold | src/signalfx_metadata.py:519-540 | ready iff a size is known or three buckets are seen; when the size is first fixed it is the largest bucket, only buckets of that size are kept, and the current plugin instances are those of a kept bucket |
| MetadataTotals.Kept | src/signalfx_metadata.py:530-532 | exactly the buckets of the given size survive, unchanged |
| MetadataTotals.Currents | src/signalfx_metadata.py:562-564 | one summed reading per plugin instance, in the bucket's order, or a `KeyError` |
| MetadataTotals.Diffs | src/signalfx_metadata.py:565-582 | one difference per current plugin instance, in order |
| MetadataTotals.DiffNonNegative | src/signalfx_metadata.py:566-582 | a difference is never negative: a new instance counts 0 and a wrapped counter counts its new value |
| MetadataTotals.AccumulatedSum | src/signalfx_metadata.py:514-590 | adding the differences raises the emitted total by exactly their sum |
| MetadataTotals.AccumulatedGrows | src/signalfx_metadata.py:588-590 | no instance's running total goes down |
| MetadataTotals.TotalNeverDecreases | src/signalfx_metadata.py:542-591 | the cumulative total never goes down, even when an instance stops reporting or wraps |
| MetadataTotals.DiffsSumNonNegative | src/signalfx_metadata.py:514 | a sum of non-negative differences is non-negative |
| MetadataTotals.TotalStepDispatches | src/signalfx_metadata.py:556-592 | a bucket that emits appends one total at its time, equal to the old totals plus this bucket's differences, and records the current readings as previous |
| MetadataTotals.Total.constructor | src/signalfx_metadata.py:499-504 | no metrics, totals, previous readings or instances, and no size |
| MetadataTotals.Total.Write | src/signalfx_metadata.py:148-163 | only `interface`/`if_octets` (network) or `disk`/`disk_ops` (disk) values are stored, per plugin instance |
| MetadataTotals.Total.Read | src/signalfx_metadata.py:542-597 | nothing until the threshold is met; then the threshold's table is processed in time order as `TotalRun` says |
| MetadataTotals.Total.ReadTotalBucket | src/signalfx_metadata.py:556-597 | one bucket is processed as `TotalStep` says, and no other bucket changes |
| MetadataTotals.CurrentSums | src/signalfx_metadata.py:562-564 | the loop computes `Currents` |
| MetadataTotals.DiffsOf | src/signalfx_metadata.py:565-582 | the loop computes `Diffs` |
| MetadataTotals.AddDiffs | src/signalfx_metadata.py:588-590 | the loop adds each difference to its total and records each current reading |
| MetadataTotals.ProbationTwice | src/signalfx_metadata.py:659-675 | a partition missing from two incomplete buckets is first put on probation and then removed |
| MetadataTotals.ProbationOnlyDrops | src/signalfx_metadata.py:662-675 | probation only removes partitions, only missing ones already on probation, and touches no other partition's probation |
| MetadataTotals.SummaryStepInstances | src/signalfx_metadata.py:627-679 | a bucket leaves the current partitions alone, grows them to a bucket's larger set (and its size), or drops missing partitions that were on probation |
| MetadataTotals.SummaryStepKeeps | src/signalfx_metadata.py:628-689 | one step touches only its own bucket |
| MetadataTotals.SummaryRunKeeps | src/signalfx_metadata.py:627-689 | the read loop touches only the buckets it visits |
| MetadataTotals.DfTotalUtilization.constructor | src/signalfx_metadata.py:606-608 | no metrics, partitions or probation |
| MetadataTotals.DfTotalUtilization.Write | src/signalfx_metadata.py:610-611 | only `df`/`df_complex` values are stored, per plugin instance |
| MetadataTotals.DfTotalUtilization.Read | src/signalfx_metadata.py:613-689 | nothing until the threshold is met; then the threshold's table, with the partitions of one of its kept buckets as the current ones when it was first met, is processed in time order as `SummaryRun` says |
| MetadataTotals.DfTotalUtilization.ReadSummaryBucket | src/signalfx_metadata.py:628-689 | one bucket is processed as `SummaryStep` says, and no other bucket changes |
| MetadataTotals.KeysOf | src/signalfx_metadata.py:634 | `set(pm.keys())`: the keys of a bucket |
| MetadataTotals.SumPartitions | src/signalfx_metadata.py:642-656 | the loop over current partitions computes `SummaryPartitions` |
| MetadataTotals.ProbateAll | src/signalfx_metadata.py:662-675 | the loop over missing partitions computes `Probate` |
| MetadataTotals.ProbateOneMore | src/signalfx_metadata.py:665-675 | one more missing partition is removed if on probation, else put on probation |
| MetadataHelpers.MapDiff | src/signalfx_metadata.py:1467-1478 | the loop collects the entries that are new or changed, as `Changed` |
| MetadataHelpers.ChangedLookup | src/signalfx_metadata.py:1467-1478 | a key is in the diff iff it is new or its value changed, with the new value; removals are not reported |
| MetadataHelpers.ChangedApplies | src/signalfx_metadata.py:1467-1478 | applying the diff to the old host info gives the new host info on every key the new one has, and keeps the old value elsewhere |
| MetadataHelpers.Severity | src/signalfx_metadata.py:1582-1593 | codes 1, 2 and 4 have a severity name; every other code raises `KeyError` |
| MetadataHelpers.SeverityInjective | src/signalfx_metadata.py:1589-1593 | two codes with the same severity name are the same code |
| MetadataHelpers.ParsePriority | src/signalfx_metadata.py:1321-1328 | a priority that parses as an integer is that integer; anything else is 99 |
| MetadataHelpers.PriorityOfNumber | src/signalfx_metadata.py:1325-1326 | every printed integer priority reads back as itself |
| MetadataHelpers.PriorityOfRealTime | src/signalfx_metadata.py:1322-1328 | `rt` reads as 99 |
| MetadataHelpers.MaxOfIsMax | src/signalfx_metadata.py:1596-1606 | the recorded maximum is at least 0, at least every response time, and is 0 or one of them |
| MetadataHelpers.ResponseTimes.constructor | src/signalfx_metadata.py:111 | no response time seen and a maximum of 0 |
| MetadataHelpers.ResponseTimes.Update | src/signalfx_metadata.py:1596-1606 | recording a response time keeps the maximum equal to the largest seen |
| MetadataHelpers.ResponseTimes.TakeMax | src/signalfx_metadata.py:1539-1543 | the maximum is read as the largest response time seen since the last read, and then reset to 0 |
| MetadataHelpers.QueryAppend | src/signalfx_metadata.py:1191-1197 | appending to a URL that has a query extends that query |
| MetadataHelpers.QueryNone | src/signalfx_metadata.py:1191-1196 | a URL without `?` has an empty query |
| MetadataHelpers.QueryOpen | src/signalfx_metadata.py:1191-1199 | appending `?` and a text to a URL without a query makes that text the query |
| MetadataHelpers.WithAwsDimInQuery | src/signalfx_metadata.py:1190-1199 | after the update the URL's query holds `sfxdim_AWSUniqueId` |
| MetadataHelpers.WithAwsDimOnce | src/signalfx_metadata.py:1190-1199 | a URL that already carries the dimension is left alone, so the update is idempotent |
| MetadataHelpers.PostUrls.constructor | src/signalfx_metadata.py:65-99 | the URLs as configured, AWS not yet set |
| MetadataHelpers.PostUrls.SetAwsUrl | src/signalfx_metadata.py:1187-1201 | with AWS on and not yet set, every URL gets the dimension once, and AWS counts as set iff there was a URL; otherwise nothing changes |
| MetadataHelpers.SendKeepsSchedulable | src/signalfx_metadata.py:978-1016 | with a usable clock, `send` never pops an empty interval list and keeps at least one interval |
| MetadataHelpers.FirstSendDithers | src/signalfx_metadata.py:997-1009 | the first send schedules after the dither and notifies only if that moment has already passed |
| MetadataHelpers.SendAdvances | src/signalfx_metadata.py:1003-1009 | a due send notifies and reschedules by the next interval, keeping the last interval for ever |
| MetadataHelpers.DefaultScheduleGaps | src/signalfx_metadata.py:88-92 | with the default intervals, metadata goes out after the dither, then a minute, an hour and a day later, then daily |
| MetadataHelpers.HostIsStable | src/signalfx_metadata.py:1609-1641 | the host is taken from the first notification that has one and never changes afterwards; the schedule is reset only when it differs from the saved host |
| MetadataHelpers.ResetSchedulable | src/signalfx_metadata.py:1019-1025 | resetting the schedule to fresh default intervals keeps it schedulable |
| MetadataHelpers.MetadataState.constructor | src/signalfx_metadata.py:84-118 | no send scheduled, no host, no saved host |
| MetadataHelpers.MetadataState.Send | src/signalfx_metadata.py:978-1016 | one `send` changes the schedule as `SendStep` says |
| MetadataHelpers.MetadataState.StealHost | src/signalfx_metadata.py:1609-1641 | one notification changes the host and schedule as `StealHostStep` says |
| ProcessWatch.MetricTable | src/collectd_ps_plugin.py:48-62 | the nine process metrics with their external names, types and bounds |
| ProcessWatch.ExternalNamesDistinct | src/collectd_ps_plugin.py:48-62 | no two metrics share an external name |
| ProcessWatch.SetThenGet | src/collectd_ps_plugin.py:65-70 | setting a known metric then getting it gives the value back, stores its kind, and leaves the other metrics alone; an unknown metric raises |
| ProcessWatch.ProcessMetricMap.constructor | src/collectd_ps_plugin.py:152 | an empty metric map |
| ProcessWatch.ProcessMetricMap.Set | src/collectd_ps_plugin.py:65-66 | `set_process_metric_val` raises iff the metric is unknown, and otherwise stores the value under the external name |
| ProcessWatch.WriteTypesDb | src/collectd_ps_plugin.py:73-76 | the loop writes the lines of `TypesDb` |
| ProcessWatch.TypesDbJoin | src/collectd_ps_plugin.py:73-76 | the output is one entry per metric, each followed by a newline |
| ProcessWatch.EntryOneLine | src/collectd_ps_plugin.py:75 | an entry of one-line fields holds no newline |
| ProcessWatch.TypesDbLines | src/collectd_ps_plugin.py:73-76 | splitting the output at newlines gives back exactly one `name\tvalue:TYPE:min:max` line per metric |
| ProcessWatch.DockerLineNamesContainer | src/collectd_ps_plugin.py:87-91 | a cgroup line `h/docker/ID` gives the right-stripped ID |
| ProcessWatch.NotDockerLine | src/collectd_ps_plugin.py:87-91 | a line with at most two components, or whose second is not `docker`, gives none |
| ProcessWatch.NoSlashNoContainer | src/collectd_ps_plugin.py:87-91 | a line without `/` gives none |
| ProcessWatch.Mangle | src/collectd_ps_plugin.py:117 | the mangled name has the same length and no `/` or `-` |
| ProcessWatch.DockerContainerNameAsWritten | src/collectd_ps_plugin.py:94-98 | as written, the lookup never yields a container name: a docker process raises before the lookup |
| ProcessWatch.DockerLookupRaises | src/collectd_ps_plugin.py:94-108 | for a process in container `abc` named `/web`, the lookup as written raises, and the corrected one gives `web` |
| ProcessWatch.DockerContainerNameReported | src/collectd_ps_plugin.py:94-108 | the corrected lookup gives the daemon's container name without its leading `/` for a docker process, and the empty name outside docker or when the lookup raises |
| ProcessWatch.MkProcessName | src/collectd_ps_plugin.py:111-122 | the name is built step by step into `ProcessName`, with the corrected lookup's container name only when reporting is on |
| ProcessWatch.NameParts | src/collectd_ps_plugin.py:118-121 | the name is followed by `[pid=`, the container part appears only when non-empty, and the name ends with `]` |
| ProcessWatch.ProcessNameShape | src/collectd_ps_plugin.py:111-122 | the process name is the mangled name, `[pid=P,ppid=Q`, `,containername=N` only for a non-empty N, and `]` |
| ProcessWatch.Str2BoolRejectsY | src/collectd_ps_plugin.py:200-201 | this `str2bool` ignores case but, unlike the upload plugin's, does not accept `y` |
| ProcessWatch.PercentOption | src/collectd_ps_plugin.py:220-227 | an accepted percentage is non-zero and at most 100 |
| ProcessWatch.ConfigStep | src/collectd_ps_plugin.py:211-233 | an option node is accepted iff its key is known and its value converts and is in range |
| ProcessWatch.FractionalPercent | src/collectd_ps_plugin.py:220-223 | collectd's floats are truncated by `int()`: `MinCPUPercent 0.5` raises and `MinCPUPercent 50.7` sets 50 |
| ProcessWatch.ConfigRaisesIff | src/collectd_ps_plugin.py:211-233 | the configuration raises iff some node is an unknown key or a bad value |
| ProcessWatch.ConfigKeepsPercents | src/collectd_ps_plugin.py:220-227 | the minimum percentages stay valid, and a changed one is never 0 |
| ProcessWatch.ProcessWatchConfig.constructor | src/collectd_ps_plugin.py:34-38 | the defaults: no minimum runtime or percentages, filtering on, no container names |
| ProcessWatch.ProcessWatchConfig.Configure | src/collectd_ps_plugin.py:204-235 | the settings are the nodes applied in turn until one raises; the read callback is registered only when none raised |
| ProcessWatch.FilterDefaults | src/collectd_ps_plugin.py:148-151 | with filtering off every process is reported, and with the default thresholds every process with non-negative runtime and CPU is |
| ProcessWatch.ReportedMonotone | src/collectd_ps_plugin.py:148-151 | a process using more runtime, CPU or memory than a reported one is reported too |
| ProcessWatch.ProcessMetricsRead | src/collectd_ps_plugin.py:152-166 | each metric reads back as the figure it came from; the I/O counters are present exactly when readable |
| ProcessWatch.PopulateProcessMetrics | src/collectd_ps_plugin.py:125-169 | a process gets a name and a metric map iff it passes the filter, with the mangled name (and the corrected lookup's container name) and the map of `ProcessMetrics` |

## Left out

- Threads, locks and thread start-up are not modelled. Each callback and each drain iteration is one sequential step.
  - In the write plugin: the registration and metrics locks, and the `flushing_threads` workers.
  - In the metadata plugin: `METRIC_LOCK` around the utilization tables' `write` and `read`, and `RESPONSE_LOCK`.
- MetadataHelpers.ResponseTimes.TakeMax: reads `MAX_RESPONSE` and resets it to 0 without taking `RESPONSE_LOCK`, while `update_response_times` takes it. A response time recorded between the read and the reset is lost. The model treats `Update` and `TakeMax` as atomic, so it does not capture that loss.
- Logging, the `/tmp/flush_times` debug file and `logging.config` are not modelled: they only produce output.
- The write plugin's `init` is not modelled as one operation. Its parts:
  - the `types.db` parse is `SignalFxPlugin.ParseTypes`;
  - the queue's bound is `maxQueueSize`, which `Taken` and `PutNowait` use;
  - raising when the parse fails is not modelled;
  - registering the write callback, registering `read` only when `self_monitor` is set, and starting the `flushing_threads` workers are not modelled. They are collectd registrations and thread start-up.
- The metadata plugin's `init` is not modelled as one operation. Its `get_aws_info` call updates the post URLs, which is `PostUrls.SetAwsUrl`. Its callback registrations, `restore_sigchld` and the DogStatsD `init_callback` are not modelled.
- `camel_case_to_snake_case` and the compiling and matching of `include_regex` are regular-expression work. They are function parameters.
- The HTTP and JSON exchange is not modelled. Each uploader call takes the server's reply, or the fact that the exchange raised, as a parameter. The same holds for the source list `getSourcesFromName` fetches (or the failure of that lookup), for `get_aws_instance_id` and the `__main__` command line.
- DatapointUploader.Uploader.AddDatapoints: returns the body as a sequence of records, not the concatenated JSON text, because JSON encoding is not modelled.
- Python dictionary iteration order is taken to be insertion order:
  - `Dicts` keeps entries in that order, and `read`'s six counters are reported in a fixed order;
  - the process plugin's metric table is written in a given order;
  - `DfTotalUtilization.read` walks the current partitions in the bucket's entry order instead of set order.
- MetadataTotals.CheckThreshold: states only that the current plugin instances are those of some bucket of the fixed size, not which one. Which bucket comes last in the table's iteration order is not modelled.
- The DogStatsD UDP server, the aggregator, `serialize_metrics` and the `DogstatsDCollectD` wrapper (registration, `read_callback`, `init_callback`, shutdown) are not modelled. They are sockets, threads and code outside this model. The SignalFx client's `send` is the outcome value `SendPoints` returns.
- Floating point is modelled as exact reals. NaN, infinities and rounding of the percentages are not modelled, and neither is `round(memory_percent, 1)` in the process plugin.
- The darwin branches of the memory and CPU tables are not modelled. The model follows the Linux path: `memory.used`, and at least 8 CPU metrics.
- `CpuUtilizationPerCore`, `UtilizationFactory` and the `dims` argument of `emit_utilization` are not modelled. The core takes each table on its own, and no modelled caller passes dimensions.
- `put_val` is recorded as an emission record (plugin instance, metric, value, time, interval) appended to `dispatched`. The collectd dispatch itself is not modelled.
- In `Total.read`, the `t <= self.last_time` branch inside `if t > self.last_time` can never run, so no model of it is needed. The `del prev[k]` acts on a copy and has no effect.
- Host probing is not modelled: interfaces, CPU, memory, kernel and OS version, `popen`, `psutil`, the AWS metadata request, `send_top`, `send_datapoints` and notifications.
- The metadata plugin's configuration, persistence files (`load_persistent_data`, `save_persistent_data`), `receive_notifications` and `restore_sigchld` are not modelled.
- In `send`, the model keeps only the metadata schedule. `send_datapoints`, the DogStatsD `read_callback` and `send_top` happen before it and touch none of its state. `send_notifications` is the `notify` flag.
- The clock is a parameter of `send`: `started` for the dither, `now` for every later reading within one call.
- `random.randint` draws are parameters: the dither and jitters of `DefaultIntervals`, and the intervals `StealHost` installs on a reset.
- The `__main__` branches of `steal_host_from_notifications` and of the process plugin are not modelled.
- The process plugin's process access is a `ProcessInfo` record:
  - `psutil`'s process enumeration and `as_dict` are not modelled;
  - a vanished process is not modelled;
  - access-denied fields other than the file-descriptor count and the I/O counters are not modelled.
- The first line of `/proc/<pid>/cgroup` and the docker daemon's `inspect_container` answer are parameters of `MkProcessName`: the file read and the docker client are not modelled.
- `get_processes_info`, `write_val`, `write_metrics`, `send_metrics` and `process_watch_init` are not modelled. They are dispatch loops over psutil results and a docker client.
- ProcessWatch.ConfigStep: a `FilterProcesses` or `ReportDockerContainerNames` node with a numeric value makes `str2bool` raise. The source has already stored the number in the global by then, and the model keeps the earlier value.
- CollectdConfig.ToStr: writes every float in plain decimal digits, at most 17 after the point, with `.0` for a whole number. The plugins run under Python 2, whose `str(float)` is `%.12g` (plus `.0` for a whole number): it rounds to 12 significant digits and switches to exponent notation from 1e12 up or below 1e-4. That rounding and that exponent notation are not modelled, so for example `3.14159265358979` and `1e12` are written differently from Python 2.
- Dafny's integers are unbounded. Nowhere here does the source depend on a fixed width.

## Findings

| source | as written | input that shows it | evidently intended | confidence | as-written member | corrected member |
|---|---|---|---|---|---|---|
| src/collectd_ps_plugin.py:98 | `'... %d' % (pid, dc_id)` formats the container id, a string, with `%d`, which raises TypeError; nothing up to `send_metrics` catches it | `ReportDockerContainerNames true` and a process whose cgroup line is `12:cpu,cpuacct:/docker/abc` | the id logged with `%s`, then the daemon's container name reported as `,containername=N` | high; not executed | ProcessWatch.DockerContainerNameAsWritten, ProcessWatch.DockerLookupRaises | ProcessWatch.DockerContainerName, ProcessWatch.DockerContainerNameReported |
