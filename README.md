# metrics-receiver, modelled in Dafny

metrics-receiver accepts metrics in the InfluxDB line protocol over HTTP. It
parses each request into points and groups the points by measurement. Each
configured output then prepares the groups in its own way: unknown
measurements are refused, ignored ones are skipped, the output's tag filters
are applied, tags are enriched from a cache of CMDB (omnikeeper) data, and
configured tags are added. The prepared groups are written to TimescaleDB (one
transaction, one COPY per measurement) or to InfluxDB (one write per point).

An output with the write strategy `commit` is critical: its failure ends the
request with an error. Failures of the other outputs are only collected. The
receiver also counts the messages, lines and bytes it accepts. It turns these
counters into points of its own and flushes them through the same outputs. A
refresh loop fills the enrichment cache and gives up after a configured
number of failed fetches.

The repository also holds two older entry points, and both are modelled:

- `cmd/metrics-receiver-ng/main.go` builds INSERT statements with bind
  parameters. It answers the HTTP request itself.
- `main.go` at the top level reads an untyped JSON configuration. It builds
  one INSERT statement for the first measurement group only.

The model follows the code's own form:

- Loops become methods with loop invariants. Each method is proved equal to a
  specification function.
- The promises of those functions are proved as lemmas.
- The internal-metrics record and the enrichment cache are classes whose
  methods update their fields.
- Database drivers, the InfluxDB client and the enrichment fetch are not
  called. Their outcomes are inputs, written as functions of the call index.
- A Go panic (a failed type assertion, an index out of range) is an error
  value of kind `Panic`.

| Dafny file | models |
|---|---|
| `errors.dfy` | error kinds, `Option`, `Result` |
| `text.dfy` | the `strings`/`strconv` behaviour the code relies on: `Split`, `Join`, `ReplaceAll`, `Index`, `LastIndex`, `Itoa`, `Atoi` |
| `points.dfy` | points, legacy points (text timestamp), point groups |
| `config.dfy` | `pkg/config/config.go` |
| `line_protocol.dfy`, `line_protocol_props.dfy` | `pkg/influx/InfluxLineProtocolParser.go` |
| `line_protocol_escapes.dfy`, `line_protocol_escaped_lines.dfy` | the backslash escapes of `pkg/influx/InfluxLineProtocolParser.go`: a line written with escapes parses back to the texts it was written from |
| `line_protocol_test_lines.dfy`, `line_protocol_escape_tests.dfy` | `TestEscaping1` and `TestEscaping2` in `pkg/influx/InfluxLineProtocolParser_test.go`, line by line and as whole inputs |
| `filter.dfy` | `pkg/general/filterPoints.go`, the filter in `pkg/general/processMeasurementPoints.go` |
| `grouping.dfy` | `pkg/general/splitPointsByMeasurement.go`, both `measurementSplitter`s |
| `enrichments.dfy` | `pkg/enrichments/omnikeeper.go` |
| `prepare.dfy` | `pkg/general/processMeasurementPoints.go` |
| `timescale_write.dfy` | `pkg/timescale/write.go` |
| `influx_write.dfy` | `pkg/influx/write.go` |
| `receiver.dfy` | `cmd/metrics-receiver/main.go` |
| `receiver_ng.dfy` | `cmd/metrics-receiver-ng/main.go` |
| `legacy_main.dfy` | `main.go` |

Where the code and its documentation disagree, the model follows the code:

- A group whose measurement is unknown makes `PreparePointGroups` fail for the
  whole output, so the known groups of that request are not written to it
  either.
- A successful enrichment fetch never resets the retry counter.
- The enrichment set is looked up before the `ignore` setting is read, so an
  ignored measurement whose enrichment set is unknown is still an error.
- `pkg/influx/write.go` passes a pointer to `FilterPoints`, whose type switch
  only knows configuration values. The Influx sink of the current receiver
  therefore does not filter. The ng receiver passes a value and does filter.

## Model

| member | source | states |
|---|---|---|
| `Text.SplitJoin` | pkg/influx/InfluxLineProtocolParser.go:104 | splitting a join of separator-free parts on the separator gives the parts back |
| `Text.NatToStringDigits` | pkg/timescale/write.go:209 | the decimal rendering of a natural number is a non-empty string of digits |
| `Text.AtoiOfIntToString` | pkg/influx/InfluxLineProtocolParser.go:238 | `Atoi` reads back every 64-bit integer from its decimal rendering, with or without ignoring the error |
| `Text.AtoiIgnoringErrorOfNonNumeric` | pkg/influx/InfluxLineProtocolParser.go:238 | text that does not start with a digit or sign is not a number, and reads as 0 when the error is ignored |
| `Config.TimescaleMeasurementLookup` | pkg/config/config.go:60-65 | a measurement's config is found exactly when its name is configured; the getters return the configured added tags, ignore flags, enrichment name and tag filters |
| `Config.InfluxMeasurementLookup` | pkg/config/config.go:81-86 | the same lookup and getter guarantees for an Influx output |
| `LineProtocol.Tokenize` | pkg/influx/InfluxLineProtocolParser.go:64-102 | a line without a space, or one containing a newline, is rejected; otherwise the head and timestamp hold no space, and the line is head, fields and timestamp joined by single spaces (timestamp empty when there is only one space) |
| `LineProtocol.FirstPlaceholder` | pkg/influx/InfluxLineProtocolParser.go:189-194 | a placeholder index found in a field value is a digit string |
| `LineProtocol.SuffixedDigits` | pkg/influx/InfluxLineProtocolParser.go:212-223 | the digits matched before an `i` or `u` suffix are a non-empty digit string |
| `LineProtocol.ParsedLinesErrorStays` | pkg/influx/InfluxLineProtocolParser.go:30-34 | once a line fails, the later lines do not change the outcome |
| `LineProtocol.FieldsOfErrorStays` | pkg/influx/InfluxLineProtocolParser.go:225-227 | once a field fails, the later fields do not change the outcome |
| `LineProtocol.Parse` | pkg/influx/InfluxLineProtocolParser.go:14-40 | the loop computes the specification `Parsed` of the input |
| `LineProtocol.ParsePoint` | pkg/influx/InfluxLineProtocolParser.go:42-245 | the method computes the specification `ParsedPoint` of the line |
| `LineProtocol.ParseTags` | pkg/influx/InfluxLineProtocolParser.go:120-152 | the tag loop computes `TagsOf` of the tag pieces |
| `LineProtocol.ParseFields` | pkg/influx/InfluxLineProtocolParser.go:169-233 | the field loop computes `FieldsOf`, including its first error |
| `LineProtocol.CutQuotedStrings` | pkg/influx/InfluxLineProtocolParser.go:156-167 | quoted runs are replaced by numbered placeholders; each captured string is the FIRST quoted run of the segment, once per match |
| `LineProtocol.ArrayShift` | pkg/influx/InfluxLineProtocolParser.go:247-255 | an empty slice gives `""` and stays empty; otherwise the first element and the rest rebuild the slice |
| `LineProtocol.Index` | pkg/influx/InfluxLineProtocolParser.go:257-264 | -1 exactly when the item is absent; otherwise the position of its first occurrence |
| `LineProtocolProps.KeptLines` | pkg/influx/InfluxLineProtocolParser.go:21-28 | the lines parsed are exactly the non-empty lines not starting with `#` |
| `LineProtocolProps.ParsedLinesInOrder` | pkg/influx/InfluxLineProtocolParser.go:21-39 | parsing succeeds iff every kept line parses, and then yields one point per kept line in order; on failure the error is that of the first failing line |
| `LineProtocolProps.LinesOfInput` | pkg/influx/InfluxLineProtocolParser.go:16-18 | no line holds `\r` or `\n`, and joining the lines gives the input without carriage returns |
| `LineProtocolProps.EscapeKeepsNoSpace` | pkg/influx/InfluxLineProtocolParser.go:49-62 | escaping does not introduce a space |
| `LineProtocolProps.NoSpaceIsInvalid` | pkg/influx/InfluxLineProtocolParser.go:99-102 | a line without a space fails with "invalid number of tokens" |
| `LineProtocolProps.SpaceFreeInputFails` | pkg/influx/InfluxLineProtocolParser.go:14-40 | a single non-comment line without a space makes the whole request fail with "invalid number of tokens" |
| `LineProtocolProps.IncorrectStringFails` | pkg/influx/InfluxLineProtocolParser_test.go:66-79 | the input `assafasfasfasfafa` is rejected |
| `LineProtocolProps.TagPieceKept` | pkg/influx/InfluxLineProtocolParser.go:138-150 | a tag piece is kept exactly when, after unescaping, it holds exactly one `=` |
| `LineProtocolProps.TagsOfKeys` | pkg/influx/InfluxLineProtocolParser.go:124-152 | the tag keys are exactly the keys of the kept tag pieces |
| `LineProtocolProps.TagsOfLastWins` | pkg/influx/InfluxLineProtocolParser.go:149 | for a repeated tag key the last piece's value wins |
| `LineProtocolProps.PlaceholderHasNoQuote` | pkg/influx/InfluxLineProtocolParser.go:163 | a string placeholder holds no double quote |
| `LineProtocolProps.CutFromQuotes` | pkg/influx/InfluxLineProtocolParser.go:159-166 | every match removes exactly two quotes, and at most one quote is left after cutting |
| `LineProtocolProps.QuotedSegment` | pkg/influx/InfluxLineProtocolParser.go:156-167 | a segment starting with a quote is left alone; otherwise there is one captured string per pair of quotes, each equal to the first quoted run, and at most one quote is left |
| `LineProtocolProps.TypeValueOfInteger` | pkg/influx/InfluxLineProtocolParser.go:214-216 | a rendered 64-bit integer is stored as an `int` field |
| `LineProtocolProps.TypeValueOfMarkedNumeral` | pkg/influx/InfluxLineProtocolParser.go:221-228 | digits with an `i` or `u` suffix become an `int64` field, or a range error above the 64-bit maximum |
| `LineProtocolProps.TypeValueDropsSignOfMarkedNumeral` | pkg/influx/InfluxLineProtocolParser.go:221-223 | a negative suffixed integer loses its sign, because the regular expression captures only the digits |
| `LineProtocolProps.FloatOfUnreadDecimal` | pkg/influx/InfluxLineProtocolParser.go:217-220 | a decimal that is not an integer is stored as a float field |
| `LineProtocolProps.TypeValueOfDecimal` | pkg/influx/InfluxLineProtocolParser.go:214-220 | an optionally negative `digits.digits` value is a float field |
| `LineProtocolProps.TypeValueOfText` | pkg/influx/InfluxLineProtocolParser.go:229-231 | a value without digits that is not a float special is stored as a string field |
| `LineProtocolProps.TimestampCases` | pkg/influx/InfluxLineProtocolParser.go:236-242 | a missing timestamp takes the current time, a rendered 64-bit integer is read back, and non-numeric text becomes 0 |
| `LineProtocolProps.ReinsertPlaceholder` | pkg/influx/InfluxLineProtocolParser.go:189-194 | placeholder k is replaced by the k-th captured string, and an index past the captures panics |
| `LineProtocolProps.FieldPieceDropped` | pkg/influx/InfluxLineProtocolParser.go:180-182 | a field piece is dropped exactly when, after unescaping, it does not hold exactly one `=` |
| `LineProtocolProps.TokensOfThree` | pkg/influx/InfluxLineProtocolParser.go:71-84 | a three-part line is split at its first and last space |
| `LineProtocolProps.PlainHead` | pkg/influx/InfluxLineProtocolParser.go:104-152 | the head `m,k=v` of plain names yields the measurement m and the tags {k: v} |
| `LineProtocolProps.PlainFields` | pkg/influx/InfluxLineProtocolParser.go:169-233 | the field set `f=n` yields {f: int n} |
| `LineProtocolProps.PlainLineRoundTrip` | pkg/influx/InfluxLineProtocolParser_test.go:12-30 | rendering a point with plain names, one integer field and a timestamp as a line, then parsing it, gives the point back |
| `LineProtocolEscapes.EscapedConcat` | pkg/influx/InfluxLineProtocolParser.go:49-62 | a writer escapes a concatenation part by part |
| `LineProtocolEscapes.EscapedPlain` | pkg/influx/InfluxLineProtocolParser.go:49-62 | text without characters to escape is written as it is |
| `LineProtocolEscapes.EscapePair` | pkg/influx/InfluxLineProtocolParser.go:49-62 | each escaped special character becomes its own sentinel |
| `LineProtocolEscapes.EscapeConcat` | pkg/influx/InfluxLineProtocolParser.go:49-62 | the substitutions act on a concatenation part by part when the first part does not end in a backslash |
| `LineProtocolEscapes.EscapeEscaped` | pkg/influx/InfluxLineProtocolParser.go:49-62 | the substitutions turn every escape a writer made into its sentinel and leave the rest |
| `LineProtocolEscapes.RenderedRestored` | pkg/influx/InfluxLineProtocolParser.go:108-118 | once every escaped character is restored the text is the one written |
| `LineProtocolEscapes.RenderedBackslash` | pkg/influx/InfluxLineProtocolParser.go:108-118 | with every escape restored except the backslash, each backslash of the text stands as the backslash sentinel |
| `LineProtocolEscapes.MeasurementStage` | pkg/influx/InfluxLineProtocolParser.go:108-118 | the measurement restores space, comma, `=` and `"`, and not the backslash |
| `LineProtocolEscapes.TagStage` | pkg/influx/InfluxLineProtocolParser.go:124-150 | an escaped `k=v` tag piece reads back as the tag k with the value v |
| `LineProtocolEscapes.FieldStage` | pkg/influx/InfluxLineProtocolParser.go:172-208 | an escaped field key, `=` and a plain value read back as that key with the typed value |
| `LineProtocolEscapes.FieldKeyStage` | pkg/influx/InfluxLineProtocolParser.go:196-207 | a field key comes back with every escape restored |
| `LineProtocolEscapes.CaptureStage` | pkg/influx/InfluxLineProtocolParser.go:196-205 | a reinserted quoted string comes back with its escaped `=`, `"` and backslashes restored |
| `LineProtocolEscapes.QuotedStage` | pkg/influx/InfluxLineProtocolParser.go:156-167 | one quoted string after text without quotes is cut out, recorded and replaced by the first placeholder |
| `LineProtocolEscapes.QuotedFieldStage` | pkg/influx/InfluxLineProtocolParser.go:180-208 | a key and the first placeholder read back as that key with the recorded string, restored and typed |
| `LineProtocolEscapedLines.EscapedHead` | pkg/influx/InfluxLineProtocolParser.go:104-152 | the escaped head `m,k=v` yields the measurement with its backslashes as sentinels and the tags {k: v} |
| `LineProtocolEscapedLines.EscapedFields` | pkg/influx/InfluxLineProtocolParser.go:154-233 | the escaped field set `f=value` yields {f: typed value} |
| `LineProtocolEscapedLines.EscapedStringFields` | pkg/influx/InfluxLineProtocolParser.go:154-233 | an escaped key and one quoted string yield {f: typed string} |
| `LineProtocolEscapedLines.EscapedTwoFields` | pkg/influx/InfluxLineProtocolParser.go:154-233 | an unquoted field and a quoted-string field yield both, or the first typing error |
| `LineProtocolEscapedLines.EscapedLineRoundTrip` | pkg/influx/InfluxLineProtocolParser.go:42-245 | a line written from a measurement, a tag, a field and a timestamp with every special character escaped parses back to them; the measurement keeps each backslash as the backslash sentinel |
| `LineProtocolEscapedLines.EscapedIntegerLine` | pkg/influx/InfluxLineProtocolParser.go:42-245 | the same line with an integer value and timestamp parses to exactly those |
| `LineProtocolEscapedLines.EscapedStringLineRoundTrip` | pkg/influx/InfluxLineProtocolParser.go:42-245 | a line whose field is a quoted string with escapes parses back to the texts written |
| `LineProtocolEscapedLines.EscapedTwoFieldLineRoundTrip` | pkg/influx/InfluxLineProtocolParser.go:42-245 | a line with an unquoted field and an escaped quoted string parses back to both fields |
| `LineProtocolEscapedLines.QuotedNamesRoundTrip` | pkg/influx/InfluxLineProtocolParser.go:42-245 | a line without backslashes whose names hold double quotes parses to its texts as written |
| `LineProtocolEscapeTests.TestValues` | pkg/influx/InfluxLineProtocolParser_test.go:42-43 | the test values type as the int 82 and as strings |
| `LineProtocolEscapeTests.TestTimestamps` | pkg/influx/InfluxLineProtocolParser_test.go:42-60 | the test timestamps read back as the integers written |
| `LineProtocolEscapeTests.Escaping1aParsed` | pkg/influx/InfluxLineProtocolParser_test.go:34 | the first line of TestEscaping1 parses to the point expected at line 42 |
| `LineProtocolEscapeTests.Escaping1bParsed` | pkg/influx/InfluxLineProtocolParser_test.go:35 | the second line of TestEscaping1 parses to the point expected at line 43 |
| `LineProtocolEscapeTests.Escaping2aParsed` | pkg/influx/InfluxLineProtocolParser_test.go:51 | the first line of TestEscaping2 parses to the point expected at line 59 |
| `LineProtocolEscapeTests.Escaping2bParsed` | pkg/influx/InfluxLineProtocolParser_test.go:52 | the second line of TestEscaping2 parses to the point expected at line 60 |
| `LineProtocolEscapeTests.TwoLinesParsed` | pkg/influx/InfluxLineProtocolParser.go:14-40 | two lines that parse, joined by a line break, give their two points in order |
| `LineProtocolEscapeTests.TestEscaping1` | pkg/influx/InfluxLineProtocolParser_test.go:32-47 | the joined input of TestEscaping1 parses to the two expected points |
| `LineProtocolEscapeTests.TestEscaping2` | pkg/influx/InfluxLineProtocolParser_test.go:49-64 | the joined input of TestEscaping2 parses to the two expected points |
| `Filter.StagesCompose` | pkg/general/filterPoints.go:24-68 | the include stage followed by the block stage is the selection |
| `Filter.EmptyIncludeOnlyBlocks` | pkg/general/filterPoints.go:25-27 | without include rules, only blocking removes points |
| `Filter.NoRulesKeepsAll` | pkg/general/filterPoints.go:24-68 | without rules every point is kept, in order |
| `Filter.SelectedCounts` | pkg/general/filterPoints.go:9-69 | every point that passes the filter keeps all its occurrences and every other point loses them all |
| `Filter.SelectedMembers` | pkg/general/filterPoints.go:29-66 | a point is selected iff it is in the input, matches an include rule (or there are none) and matches no block rule |
| `Filter.SelectedIsSubsequence` | pkg/general/filterPoints.go:61-66 | the selection keeps the input order |
| `Filter.SelectedIdempotent` | pkg/general/filterPoints.go:9-69 | filtering twice is filtering once |
| `Filter.Contains` | pkg/general/filterPoints.go:71-78 | true iff the element occurs |
| `Filter.HitsAny` | pkg/general/filterPoints.go:33-38 | true iff a rule value is `*` or equals the tag value |
| `Filter.TagsMatch` | pkg/general/filterPoints.go:31-40 | true iff some tag of the point hits a rule for its key |
| `Filter.IncludeStage` | pkg/general/filterPoints.go:24-42 | the include loop computes `Included` |
| `Filter.BlockedIndices` | pkg/general/filterPoints.go:44-59 | the indices collected are exactly those of points that match a block rule |
| `Filter.BlockStage` | pkg/general/filterPoints.go:61-66 | the copy loop drops exactly the blocked points |
| `Filter.FilterByRules` | pkg/general/filterPoints.go:24-68 | include then block computes `Selected` |
| `Filter.FilterPoints` | pkg/general/filterPoints.go:9-69 | a configuration value applies its rules; any other argument leaves the points unchanged |
| `Filter.FilterOutput` | pkg/general/processMeasurementPoints.go:81-129 | the output's include and block rules select the points |
| `Grouping.GroupedIsWithName` | pkg/general/splitPointsByMeasurement.go:5-10 | the map has one key per measurement present, and each entry holds that measurement's points in input order, never empty |
| `Grouping.WithNameMembers` | pkg/general/splitPointsByMeasurement.go:7-10 | a group holds exactly the input points of its measurement |
| `Grouping.WithNameIsSubsequence` | pkg/general/splitPointsByMeasurement.go:7-10 | a group keeps the input order |
| `Grouping.GroupingPreservesCount` | pkg/general/splitPointsByMeasurement.go:3-19 | the groups hold as many points as the input |
| `Grouping.PointInOwnGroup` | pkg/general/splitPointsByMeasurement.go:3-19 | every input point is in the group of its measurement and in no other group |
| `Grouping.EmptyInputNoGroups` | pkg/general/splitPointsByMeasurement.go:3-19 | no points give no groups |
| `Grouping.GroupPoints` | pkg/general/splitPointsByMeasurement.go:5-10 | the append loop computes `Grouped` |
| `Grouping.CopyGroups` | pkg/general/splitPointsByMeasurement.go:12-16 | one group per map entry, with distinct measurements and the entry's points |
| `Grouping.SplitBy` | pkg/general/splitPointsByMeasurement.go:3-19 | the result is a grouping of the input by the given name |
| `Grouping.SplitPointsByMeasurement` | pkg/general/splitPointsByMeasurement.go:3-19 | the result is a grouping of the points by measurement |
| `Grouping.MeasurementSplitter` | cmd/metrics-receiver-ng/main.go:150-167 | the result is a grouping of the legacy points by measurement; main.go:122-139 is the same code |
| `Enrichments.Flattened` | pkg/enrichments/omnikeeper.go:69-78 | flattening fails iff a non-array attribute has no value; the result drops `ciid` and array attributes and keeps the first value of every other attribute |
| `Enrichments.FlattenedResult` | pkg/enrichments/omnikeeper.go:65-81 | one flattened item per fetched entity, failing iff some entity fails |
| `Enrichments.DiedStays` | pkg/enrichments/omnikeeper.go:57-59 | once the refresh has died, later sets change nothing |
| `Enrichments.RetryNeverDecreases` | pkg/enrichments/omnikeeper.go:56-63 | the retry counter never goes down |
| `Enrichments.RetryWithinLimit` | pkg/enrichments/omnikeeper.go:57-60 | starting within the limit, the retry counter stays within it |
| `Enrichments.FailuresCounted` | pkg/enrichments/omnikeeper.go:56-63 | with enough retries left, each failed fetch adds one retry and nothing else changes |
| `Enrichments.ExhaustedRetriesDie` | pkg/enrichments/omnikeeper.go:57-58 | failing past the limit dies with the counter at the limit and the cache unchanged |
| `Enrichments.OtherEntriesUntouched` | pkg/enrichments/omnikeeper.go:52-85 | cache entries of sets not refreshed stay as they were |
| `Enrichments.SuccessfulSetsCached` | pkg/enrichments/omnikeeper.go:65-83 | after a run that did not die, a fetched set not listed again later holds its flattened result |
| `Enrichments.FlattenAttributes` | pkg/enrichments/omnikeeper.go:69-78 | the attribute loop computes `Flattened` |
| `Enrichments.FlattenResult` | pkg/enrichments/omnikeeper.go:65-81 | the entity loop computes `FlattenedResult` |
| `Enrichments.EnrichmentCache.constructor` | pkg/enrichments/omnikeeper.go:138-141 | the cache starts empty with no retries counted |
| `Enrichments.EnrichmentCache.SetEnrichmentsCacheValues` | pkg/enrichments/omnikeeper.go:158-160 | the set's entry is replaced and nothing else changes |
| `Enrichments.EnrichmentCache.EnrichMetrics` | pkg/enrichments/omnikeeper.go:52-85 | the new counter, cache and verdict are those of the refresh specification `Refreshed` |
| `Enrichments.IntListToStringList` | pkg/enrichments/omnikeeper.go:129-136 | one string per number, each reading back as that number |
| `Enrichments.FindEnrichmentSetByName` | pkg/general/processMeasurementPoints.go:25-31 | found iff a set has that name, and then it is such a set; otherwise the error names the enrichment |
| `Enrichments.EnrichTags` | pkg/general/processMeasurementPoints.go:54-60 | fails iff the set is not cached; otherwise keeps every tag and adds exactly the allow-listed attributes of the looked-up item that are not already tags |
| `Enrichments.BasicEnrichment` | pkg/enrichments/omnikeeper_test.go:10-41 | the test's lookup adds `test=foo` to the tags |
| `Prepare.EnrichedPointsShape` | pkg/general/processMeasurementPoints.go:49-71 | enrichment fails iff there are points and the set is not cached; otherwise one point per input point, with the same measurement, fields and timestamp, and tags that are the enriched tags overlaid with the added tags |
| `Prepare.AddedTagsWin` | pkg/general/processMeasurementPoints.go:62-64 | added tags override the point's tags; tags not added are kept |
| `Prepare.PreparedErrorStays` | pkg/general/processMeasurementPoints.go:12-19 | once a group fails, later groups do not change the outcome |
| `Prepare.FailingGroupFailsAll` | pkg/general/processMeasurementPoints.go:10-79 | any failing group fails the whole preparation |
| `Prepare.UnknownMeasurementFails` | pkg/general/processMeasurementPoints.go:17-19 | a group with an unconfigured measurement fails the whole preparation |
| `Prepare.UnknownEnrichmentFails` | pkg/general/processMeasurementPoints.go:25-31 | a named but unconfigured enrichment set fails the group with that name |
| `Prepare.IgnoredGroupDropped` | pkg/general/processMeasurementPoints.go:33-36 | an ignored measurement whose enrichment resolves is dropped |
| `Prepare.PreparedGroupShape` | pkg/general/processMeasurementPoints.go:12-77 | an emitted group is configured and not ignored, keeps its measurement, is non-empty, has one point per filtered candidate (all points when filtering is off) with the candidate's fields and timestamp, and carries every added tag |
| `Prepare.PreparedAllGroups` | pkg/general/processMeasurementPoints.go:10-79 | a successful preparation succeeded for every group |
| `Prepare.PreparedIsEmitted` | pkg/general/processMeasurementPoints.go:10-79 | a successful preparation yields exactly the emitted groups |
| `Prepare.EmittedInInputOrder` | pkg/general/processMeasurementPoints.go:43-46 | emitted groups are non-empty and keep the input's group order |
| `Prepare.EnrichPoints` | pkg/general/processMeasurementPoints.go:49-71 | the point loop computes `EnrichedPoints` |
| `Prepare.EnrichedPointsErrorStays` | pkg/general/processMeasurementPoints.go:57-59 | once a point fails, later points do not change the outcome |
| `Prepare.PrepareGroup` | pkg/general/processMeasurementPoints.go:13-76 | one loop round computes `PreparedGroup` |
| `Prepare.PreparePointGroups` | pkg/general/processMeasurementPoints.go:10-79 | the group loop computes `Prepared` |
| `Timescale.ConcatLength` | pkg/timescale/write.go:185-189 | the merged length is the sum of the lengths |
| `Timescale.MergedLaterWins` | pkg/timescale/write.go:196-204 | a key is in the merge iff it is in some map, and the last map holding it gives its value |
| `Timescale.ColumnsLayout` | pkg/timescale/write.go:129-132 | the columns are `time`, `data`, the field columns, then the tag columns |
| `Timescale.RowMatchesColumns` | pkg/timescale/write.go:119-124 | a row has one value per column: the timestamp first, then each field column's value or nil, then each tag column's value or nil |
| `Timescale.RowDataContents` | pkg/timescale/write.go:91-117 | `data` holds exactly the tags and fields not mapped to columns, a field winning over a tag of the same name |
| `Timescale.RowsShape` | pkg/timescale/write.go:64-138 | one row set per group, with its configured layout, one row per point and every row as wide as the columns |
| `Timescale.RowsFail` | pkg/timescale/write.go:70-72 | building fails iff some measurement is unconfigured |
| `Timescale.ArrayMerge` | pkg/timescale/write.go:184-194 | the result is the concatenation and its length the sum; cmd/metrics-receiver-ng/main.go:491-501 and main.go:349-359 are the same code |
| `Timescale.MergeInto` | pkg/timescale/write.go:198-202 | copying a map into another lets the copied entries win; the same loop overlays the added tags in pkg/general/processMeasurementPoints.go:62-64, pkg/influx/write.go:57-61 and ng main.go |
| `Timescale.MapsMerge` | pkg/timescale/write.go:196-204 | the loop computes the right-biased merge; cmd/metrics-receiver-ng/main.go:503-511 and main.go:361-369 are the same code |
| `Timescale.CreateBindParameterList` | pkg/timescale/write.go:206-212 | fails (Go's make panics) iff the length is negative; otherwise one `$n` per number from min to max in order; cmd/metrics-receiver-ng/main.go:513-519 and MakeRange at main.go:371-377 are the same code |
| `Timescale.TagColumnValues` | pkg/timescale/write.go:82-89 | the loop computes each tag column's value or nil |
| `Timescale.TagDataValues` | pkg/timescale/write.go:92-97 | the loop keeps the tags not mapped to columns |
| `Timescale.FieldColumnValues` | pkg/timescale/write.go:100-107 | the loop computes each field column's value or nil |
| `Timescale.FieldDataValues` | pkg/timescale/write.go:110-115 | the loop keeps the fields not mapped to columns |
| `Timescale.BuildRow` | pkg/timescale/write.go:79-127 | one point's row is `RowOf` |
| `Timescale.BuildGroupRows` | pkg/timescale/write.go:66-134 | one group's rows are `GroupRows` |
| `Timescale.BuildDBRowsTimescale` | pkg/timescale/write.go:64-138 | the group loop computes `RowsOf`, stopping at the first unknown measurement |
| `Timescale.RowsErrorStays` | pkg/timescale/write.go:70-72 | once a group fails, later groups do not change the outcome |
| `Timescale.CopyCallsStop` | pkg/timescale/write.go:163-172 | the copies succeed iff every COPY copies all its rows; then one COPY per table in order; never commit, release or rollback inside the loop |
| `Timescale.InsertedAllOrNothing` | pkg/timescale/write.go:149-182 | success iff acquire, begin, every copy and commit succeed; commit is issued iff all before it succeeded; release only on success; after a begin the deferred rollback is the last call |
| `Timescale.CopyErrorStays` | pkg/timescale/write.go:165-171 | once a copy fails, later tables are not copied |
| `Timescale.InsertRowsTimescale` | pkg/timescale/write.go:149-182 | the calls made and the error returned are those of `Inserted` |
| `Timescale.WriteErrorCases` | pkg/timescale/write.go:48-62 | a write succeeds iff the rows build and, when there are groups, the transaction succeeds |
| `Timescale.Write` | pkg/timescale/write.go:48-62 | the error is `WriteError`; no driver call on a build failure or with no rows, otherwise the insert's calls |
| `InfluxWrite.InfluxPointsFail` | pkg/influx/write.go:35-37 | building fails iff some measurement is unconfigured |
| `InfluxWrite.InfluxPointsShape` | pkg/influx/write.go:29-73 | one point per point of the non-ignored groups, each of a configured, non-ignored measurement and carrying its added tags |
| `InfluxWrite.InfluxPointsStep` | pkg/influx/write.go:31-70 | a further group appends its relabelled points, or nothing when it is ignored |
| `InfluxWrite.InfluxPointsErrorStays` | pkg/influx/write.go:35-37 | once a group fails, later groups do not change the outcome |
| `InfluxWrite.RelabelPoints` | pkg/influx/write.go:53-69 | each point keeps its fields and timestamp, takes the group's measurement and gets its tags overlaid with the added tags |
| `InfluxWrite.BuildDBPointsInflux` | pkg/influx/write.go:29-73 | the group loop computes `InfluxPoints` |
| `InfluxWrite.WriteCallsStop` | pkg/influx/write.go:83-93 | writing succeeds iff every point is written; on failure the points up to the first failing one were attempted, in order |
| `InfluxWrite.WriteErrorStays` | pkg/influx/write.go:89-92 | once a write fails, later points are not written |
| `InfluxWrite.InsertRowsInflux` | pkg/influx/write.go:75-98 | the calls made and the error returned are those of `InsertedInflux` |
| `InfluxWrite.WriteErrorCases` | pkg/influx/write.go:13-27 | a write succeeds iff the points build and every write succeeds |
| `InfluxWrite.Write` | pkg/influx/write.go:13-27 | the error is `WriteError`; no client call on a build failure or with no points, otherwise the insert's calls |
| `Receiver.VerdictStep` | cmd/metrics-receiver/main.go:246-288 | each output attempt updates the verdict by one step |
| `Receiver.TimescaleAttemptAt` | cmd/metrics-receiver/main.go:246-266 | the i-th attempt is the i-th Timescale output's stage with its strategy |
| `Receiver.InfluxAttemptAt` | cmd/metrics-receiver/main.go:269-288 | the Influx outputs follow the Timescale ones, in order |
| `Receiver.RecordedAppend` | cmd/metrics-receiver/main.go:252-263 | a failing best-effort attempt appends its error; anything else appends nothing |
| `Receiver.NoCriticalIffCommitsSucceed` | cmd/metrics-receiver/main.go:241-291 | there is no critical error iff every commit output succeeds, and then the non-critical errors are all best-effort failures in order |
| `Receiver.CriticalIsFirstFailingCommit` | cmd/metrics-receiver/main.go:249-250 | a critical error comes from the first failing commit output, with the best-effort errors recorded before it |
| `Receiver.CriticalStays` | cmd/metrics-receiver/main.go:250 | after a critical error later outputs are not attempted |
| `Receiver.TimescaleCriticalSkipsInflux` | cmd/metrics-receiver/main.go:246-290 | a critical Timescale failure means no Influx output is attempted |
| `Receiver.TimescaleTurn` | cmd/metrics-receiver/main.go:247-265 | one Timescale output's prepare-and-write is `TimescaleStage` |
| `Receiver.InfluxTurn` | cmd/metrics-receiver/main.go:270-287 | one Influx output's prepare-and-write is `InfluxStage` |
| `Receiver.WriteOutputs` | cmd/metrics-receiver/main.go:241-291 | the points are grouped by measurement and the result is the verdict of all attempts |
| `Receiver.WriteGroups` | cmd/metrics-receiver/main.go:243-290 | both output loops give the verdict of all attempts |
| `Receiver.AttemptsLength` | cmd/metrics-receiver/main.go:246-288 | one attempt per configured output |
| `Receiver.WriteTimescaleOutputs` | cmd/metrics-receiver/main.go:246-266 | the Timescale loop gives the verdict of the Timescale attempts, or the final verdict when it ends critically |
| `Receiver.WriteInfluxOutputs` | cmd/metrics-receiver/main.go:269-290 | continuing from the Timescale verdict, the Influx loop gives the verdict of all attempts |
| `Receiver.CountersPointFields` | cmd/metrics-receiver/main.go:113-122 | the counters point has the measurement, no tags, the collection time and exactly the three counter fields |
| `Receiver.InternalMetrics.constructor` | cmd/metrics-receiver/main.go:42-50 | no metrics and zero counters |
| `Receiver.InternalMetrics.RecordRequest` | cmd/metrics-receiver/main.go:213-224 | the request is parsed; on success one message, the UTF-8 bytes of the body and its lines are counted; on failure nothing is counted |
| `Text.Utf8Length` | cmd/metrics-receiver/main.go:222 | `len(buf)`: at least one and at most four bytes per character |
| `Text.Utf8LengthConcat` | cmd/metrics-receiver/main.go:222 | the bytes of a concatenation are the sum of the bytes of its parts |
| `Text.Utf8LengthAscii` | cmd/metrics-receiver/main.go:222 | a body has as many bytes as characters exactly when it is ASCII |
| `Receiver.InternalMetrics.Collect` | cmd/metrics-receiver/main.go:110-128 | the counters are appended as a point and reset to zero |
| `Receiver.InternalMetrics.Flush` | cmd/metrics-receiver/main.go:136-151 | the collected metrics are written through all outputs, then cleared; the counters are untouched |
| `ReceiverNg.LegacyRowsFail` | cmd/metrics-receiver-ng/main.go:175-177 | building rows fails iff some measurement is unconfigured |
| `ReceiverNg.LegacyInfluxFail` | cmd/metrics-receiver-ng/main.go:293-295 | building Influx points fails iff some measurement is unconfigured |
| `ReceiverNg.LegacyRowsFromKeptGroups` | cmd/metrics-receiver-ng/main.go:169-285 | every row set comes from a configured, non-ignored group and targets its table |
| `ReceiverNg.PlaceholdersReadBack` | cmd/metrics-receiver-ng/main.go:513-519 | the i-th placeholder is `$` followed by the number i+1 |
| `ReceiverNg.PlaceholdersCommaFree` | cmd/metrics-receiver-ng/main.go:277 | no placeholder holds a comma, so the joined list splits back |
| `ReceiverNg.InsertSqlLists` | cmd/metrics-receiver-ng/main.go:273-279 | the comma-joined column list and placeholder list split back into the columns and `$1`…`$n` |
| `ReceiverNg.LegacyRowFillsStatement` | cmd/metrics-receiver-ng/main.go:252-275 | a row supplies exactly one value per placeholder |
| `ReceiverNg.LegacyDataContents` | cmd/metrics-receiver-ng/main.go:219-250 | unlike the current receiver, `data` holds exactly the tags and fields that ARE mapped to columns, a field winning over a tag |
| `ReceiverNg.LegacyInfluxFromKeptPoints` | cmd/metrics-receiver-ng/main.go:287-331 | every point written passed the output's filter, comes from a configured, non-ignored group and carries its added tags |
| `ReceiverNg.LegacyFilterPoints` | cmd/metrics-receiver-ng/main.go:411-471 | a configuration value applies its rules; any other argument leaves the points unchanged |
| `ReceiverNg.MappedDataValues` | cmd/metrics-receiver-ng/main.go:219-227 | the double loop keeps the entries whose key is a column |
| `ReceiverNg.BuildLegacyRow` | cmd/metrics-receiver-ng/main.go:198-259 | one point's row is `LegacyRow` |
| `ReceiverNg.BuildInsertSql` | cmd/metrics-receiver-ng/main.go:262-279 | the statement is `InsertSql` of the table and columns |
| `ReceiverNg.BuildLegacyGroupRows` | cmd/metrics-receiver-ng/main.go:185-281 | one group's statement and rows are `LegacyGroupRows` |
| `ReceiverNg.LegacyRowsErrorStays` | cmd/metrics-receiver-ng/main.go:175-177 | once a group fails, later groups do not change the outcome |
| `ReceiverNg.LegacyBuildDBRowsTimescale` | cmd/metrics-receiver-ng/main.go:169-285 | the group loop computes `LegacyRowsOf` |
| `ReceiverNg.LegacyInfluxErrorStays` | cmd/metrics-receiver-ng/main.go:293-295 | once a group fails, later groups do not change the outcome |
| `ReceiverNg.RelabelLegacy` | cmd/metrics-receiver-ng/main.go:311-327 | each point is relabelled with the group's measurement and the added tags |
| `ReceiverNg.LegacyBuildDBPointsInflux` | cmd/metrics-receiver-ng/main.go:287-331 | the group loop computes `LegacyInfluxPoints` |
| `ReceiverNg.FirstAbortNone` | cmd/metrics-receiver-ng/main.go:86-134 | there is no abort iff no output aborts; otherwise the abort is that of the first aborting output |
| `ReceiverNg.FirstAbortAt` | cmd/metrics-receiver-ng/main.go:86-134 | the first aborting output decides the response |
| `ReceiverNg.BestEffortNeverAborts` | cmd/metrics-receiver-ng/main.go:92-95 | an output whose strategy is not `commit` never ends the request |
| `ReceiverNg.TimescaleAbortAt` | cmd/metrics-receiver-ng/main.go:87-110 | the i-th abort is that of the i-th Timescale output |
| `ReceiverNg.InfluxAbortAt` | cmd/metrics-receiver-ng/main.go:113-134 | the Influx outputs follow the Timescale ones |
| `ReceiverNg.AbortIsNotSuccess` | cmd/metrics-receiver-ng/main.go:93-129 | an abort is never a 204 |
| `ReceiverNg.NoContentIff` | cmd/metrics-receiver-ng/main.go:86-136 | the answer is 204 iff no Timescale and no Influx output aborts |
| `ReceiverNg.HandleParsed` | cmd/metrics-receiver-ng/main.go:84-136 | the points are grouped by measurement and the response is `HandlerResponse` |
| `ReceiverNg.TimescaleTurnNg` | cmd/metrics-receiver-ng/main.go:88-109 | one Timescale output's build-and-insert gives `TimescaleAbort` |
| `ReceiverNg.InfluxTurnNg` | cmd/metrics-receiver-ng/main.go:114-133 | one Influx output's build-and-write gives `InfluxAbort` |
| `ReceiverNg.HandleWrite` | cmd/metrics-receiver-ng/main.go:77-136 | a parse failure answers 400 with the parse message and writes nothing; otherwise the groups and response of `HandleParsed` |
| `LegacyMain.OnlyFirstGroup` | main.go:142-268 | only the first group decides the flow; later groups are never looked at |
| `LegacyMain.FirstGroupOutcomes` | main.go:147-155 | an unknown first measurement fails with the uninterpolated `{$measurement}` message; an ignored one gives no statement and no error |
| `LegacyMain.OverlaidOk` | main.go:182-193 | overlaying the added tags succeeds iff every object among them has only string values |
| `LegacyMain.OverlaidClosedForm` | main.go:182-193 | on success the tags are overlaid by the objects' entries in order, later objects winning; other values are skipped |
| `LegacyMain.PresentCellsShape` | main.go:194-200 | only present columns give a value, so there are at most as many values as columns, as many exactly when all are present, and then in column order |
| `LegacyMain.PresentTagsAreColumns` | main.go:196-200 | when every tag column is present the values are those of the current receiver |
| `LegacyMain.PresentFieldsAreColumns` | main.go:215-219 | when every field column is present the values are those of the current receiver |
| `LegacyMain.RowTimestamp` | main.go:170-178 | an empty timestamp formats the current time, a rendered integer formats itself, non-numeric text formats 0 |
| `LegacyMain.RowWidth` | main.go:194-238 | a row supplies at most one value per column, and exactly one iff every column is present in the point |
| `LegacyMain.ColumnsCount` | main.go:243-246 | the column list is `time`, `data` and the configured columns |
| `LegacyMain.StringEntriesCount` | main.go:248-257 | non-string columns are skipped, so the names are as many as the columns iff all are strings |
| `LegacyMain.FlowSqlAsNg` | main.go:259-265 | with string columns the statement is the ng receiver's |
| `LegacyMain.RowsAllOk` | main.go:168-241 | the rows build iff every point's row builds, and then one row per point in order |
| `LegacyMain.ColumnsMustBeStrings` | main.go:243-267 | a group with points that builds has string columns only, the ng statement and one row per point |
| `LegacyMain.OverlaidErrStays` | main.go:187 | once a non-string value panics, later objects do not change the outcome |
| `LegacyMain.OverlayObject` | main.go:185-188 | one object overlays its string values, or panics on a non-string one |
| `LegacyMain.OverlayAddedTags` | main.go:182-193 | the loop computes `Overlaid` |
| `LegacyMain.PresentValues` | main.go:196-200 | the loop computes `PresentCells` |
| `LegacyMain.ColumnNames` | main.go:196-197 | the column names, or a panic when one is not a string |
| `LegacyMain.BuildRow` | main.go:168-240 | one point's row is `RowOf` |
| `LegacyMain.RowsErrStays` | main.go:168-241 | once a point panics, later points do not change the outcome |
| `LegacyMain.BuildRows` | main.go:166-241 | the point loop computes `RowsOf` |
| `LegacyMain.StringColumns` | main.go:248-257 | the loop keeps exactly the string columns |
| `LegacyMain.BuildWriteFlow` | main.go:141-270 | the function computes `Flow` |
| `LegacyMain.InArray` | main.go:379-403 | membership for a string, int or int64 needle in a slice of its type; a slice of another type panics; any other needle is not found |
| `LegacyMain.IndexIn` | main.go:382-386 | true iff the key occurs |

## Left out

- HTTP handling: routes, methods, gzip bodies and status codes. `HandleWrite`
  stands in for the ng handler from the parse onward, and `RecordRequest` and
  `WriteOutputs` stand in for the current handler.
- The configuration file, command-line flags and logging.
- The database and InfluxDB drivers, the connection pools and the network.
  Each driver call's outcome is an input: `TxOutcomes`, `ok: nat -> bool`, and
  `nat -> Option<Error>` per output in the ng handler.
- The omnikeeper client, OAuth and the HTTP fetch. Each set's fetch result or
  failure is an input. The `FetchEnrichments` entry point that the current
  receiver calls is not part of this model; the model follows
  `EnrichMetrics` in `pkg/enrichments/omnikeeper.go`.
- `EnrichTags`, `FindEnrichmentSetByName` and `ForceSetEnrichmentCache` are
  not part of this model's sources. Their behaviour is taken from their callers
  and from `pkg/enrichments/omnikeeper_test.go`.
- Enrichments.EnrichTags: its error condition, an error exactly when the set
  has no cache entry, is an assumption of the model. Neither the callers nor
  `omnikeeper_test.go` states when the missing function fails.
- Concurrency: the goroutines, the tickers and the mutexes.
  `InternalMetrics` and `EnrichmentCache` are single-threaded objects.
- Clocks: `time.Now` is the parameter `now`, and `time.Format` is an
  uninterpreted `format` function.
- LegacyMain.Instant, LegacyMain.RowsOf and LegacyMain.BuildRows: main.go
  reads the clock again for every point without a timestamp (main.go:175).
  The model hands all such points of one request the same `now`, so points
  read at different instants are not modelled.
- LineProtocol.IsFloatLiteral: `strconv.ParseFloat` is modelled by this
  predicate, which decides decimal literals with an optional exponent and the
  NaN and Inf spellings. It differs from Go on three kinds of input. An
  out-of-range literal such as `1e400` is a float in the model, while Go
  reports a range error and the field becomes a string. A hexadecimal float
  such as `0x1p3` and a literal with digit separators such as `1_000.5` are
  strings in the model, while Go reads them as floats.
- JSON encoding of the `data` column: a row holds the merged map itself.
- Aliasing: the code writes added tags into the caller's tag map in place.
  The model works on values, so a tag map shared between outputs is not
  modelled as changed by an earlier output.
- Receiver.InternalMetrics.RecordRequest: the counters are unbounded integers, so
  int64 wrap-around is not modelled. The body is a string of Unicode scalar
  values, so a body that is not valid UTF-8 is not modelled; its bytes are
  counted as those of its UTF-8 encoding.
- Go's map iteration order: the grouping methods choose keys in any order,
  and they are specified up to `IsGrouping` (every order is allowed).
- LineProtocolEscapedLines.EscapedLineRoundTrip, EscapedStringLineRoundTrip
  and EscapedTwoFieldLineRoundTrip: the escape round trip is proved for lines
  with one tag and one field, or an unquoted field followed by a quoted
  string. Lines with more tags or fields are not covered.
- LineProtocolEscapedLines.EscapedLineRoundTrip and its siblings: the texts
  hold no capital `E` (it could start a sentinel), no line break, and do not
  end in a backslash (its escape would take the following separator). A
  quoted string escapes only characters among `=`, `"` and the backslash.
  Other texts are not covered.
- LineProtocolEscapedLines.QuotedNamesRoundTrip: proved only when the field
  key holds no double quote or starts with one (then the field section is not
  searched for quoted strings), and the value holds none.
- Timescale.Write: the `enrichmentSets` parameter is unused by the code and
  ignored by the model.
- InfluxWrite.Write: `Write` in pkg/influx/write.go takes the groups and the
  configuration only. The model's extra `sets` parameter stands for the third
  argument the current receiver passes (cmd/metrics-receiver/main.go:280), and
  it is ignored.
- The error paths of `insertRowsTimescale` after `Acquire` never release the
  connection. The model records exactly the calls made, so the missing release
  is visible in `InsertedAllOrNothing` but not reported as a finding.
- The ng `insertRowsTimescale`/`insertRowsInflux` and main.go's `insertRows`
  (prepared statements and per-row writes) are abstract outcomes per output.
- The code is in the middle of a refactoring and does not all compile.
  The current receiver calls `PreparePointGroups` with an extra logger
  argument and `influx.Write` with three arguments. The ng receiver formats a
  text timestamp, so its `format` takes text. main.go calls `Parse` with one
  argument, and its handler drops the parse error. The model follows each
  body as written.
- A field value read with `Atoi` is kept as the `int` variant and one read by
  `ParseInt` as the `int64` variant, matching the dynamic types the code
  stores. Floats keep their literal text.
- main.go's HTTP handler and `influxQueryHandler`.
- The unused drafts under `Influx/`, `test.go`, `pkg/general/timing.go` and
  the omnikeeper response type, `EffectiveTraitsResponse.go`.
