/** pkg/config/config.go: the configuration records the core reads, and the
    OutputConfig / MeasurementConfig interfaces with their getters.  A map or
    slice that is absent from the JSON (nil in Go) is the empty map or sequence. */
module Config {
  import opened Errors

  /** Tag filter rules: tag key to the list of accepted (or blocked) values. */
  type Rules = map<string, seq<string>>

  datatype MeasurementTimescale = MeasurementTimescale(
    addedTags: map<string, string>,
    ignore: bool,
    ignoreFiltering: bool,
    fieldsAsColumns: seq<string>,
    tagsAsColumns: seq<string>,
    targetTable: string,
    enrichment: string)

  datatype MeasurementInflux = MeasurementInflux(
    addedTags: map<string, string>,
    ignore: bool,
    ignoreFiltering: bool,
    enrichment: string)

  datatype OutputTimescale = OutputTimescale(
    tagfilterInclude: Rules,
    tagfilterBlock: Rules,
    writeStrategy: string,
    measurements: map<string, MeasurementTimescale>,
    connection: string)

  datatype OutputInflux = OutputInflux(
    tagfilterInclude: Rules,
    tagfilterBlock: Rules,
    writeStrategy: string,
    measurements: map<string, MeasurementInflux>,
    connection: string,
    dbName: string,
    version: int,
    org: string,
    authToken: string,
    username: string,
    password: string)

  datatype EnrichmentSet = EnrichmentSet(
    name: string,
    traitId: string,
    traitAttributeIdentifier: string,
    traitAttributeList: seq<string>,
    layerIds: seq<string>,
    lookupTag: string,
    caseInsensitiveMatching: bool)

  datatype Enrichment = Enrichment(
    sets: seq<EnrichmentSet>,
    retryCount: int,
    collectInterval: int,
    serverUrl: string,
    username: string,
    password: string,
    authUrl: string,
    tokenUrl: string,
    clientId: string)

  datatype Configuration = Configuration(
    port: int,
    logLevel: string,
    internalMetricsCollectInterval: int,
    internalMetricsFlushCycle: int,
    internalMetricsMeasurement: string,
    enrichment: Enrichment,
    outputsTimescale: seq<OutputTimescale>,
    outputsInflux: seq<OutputInflux>)

  /** The write strategy that makes an output's failure abort the request;
      every other value is best-effort. */
  const CommitStrategy: string := "commit"

  /** A MeasurementConfig interface value: the measurement settings of either
      output kind, read through the four getters. */
  datatype MeasurementConfig =
    | TimescaleMeasurement(ts: MeasurementTimescale)
    | InfluxMeasurement(influx: MeasurementInflux)
  {
    function GetAddedTags(): map<string, string>
    {
      match this
      case TimescaleMeasurement(m) => m.addedTags
      case InfluxMeasurement(m) => m.addedTags
    }

    function GetIgnore(): bool
    {
      match this
      case TimescaleMeasurement(m) => m.ignore
      case InfluxMeasurement(m) => m.ignore
    }

    function GetIgnoreFiltering(): bool
    {
      match this
      case TimescaleMeasurement(m) => m.ignoreFiltering
      case InfluxMeasurement(m) => m.ignoreFiltering
    }

    function GetEnrichment(): string
    {
      match this
      case TimescaleMeasurement(m) => m.enrichment
      case InfluxMeasurement(m) => m.enrichment
    }
  }

  /** An OutputConfig interface value: a pointer to either output kind (the
      getters have pointer receivers, so only *OutputTimescale and
      *OutputInflux implement the interface). */
  datatype OutputConfig =
    | TimescaleOutput(ts: OutputTimescale)
    | InfluxOutput(influx: OutputInflux)
  {
    function GetTagfilterInclude(): Rules
    {
      match this
      case TimescaleOutput(o) => o.tagfilterInclude
      case InfluxOutput(o) => o.tagfilterInclude
    }

    function GetTagfilterBlock(): Rules
    {
      match this
      case TimescaleOutput(o) => o.tagfilterBlock
      case InfluxOutput(o) => o.tagfilterBlock
    }

    /** The `(MeasurementConfig, bool)` lookup; None is `ok == false`. */
    function GetMeasurementConfig(name: string): Option<MeasurementConfig>
    {
      match this
      case TimescaleOutput(o) =>
        if name in o.measurements then Some(TimescaleMeasurement(o.measurements[name])) else None
      case InfluxOutput(o) =>
        if name in o.measurements then Some(InfluxMeasurement(o.measurements[name])) else None
    }
  }

  /** The Timescale lookup answers ok exactly for the configured measurement
      names, and the getters of what it returns give the stored settings. */
  lemma TimescaleMeasurementLookup(o: OutputTimescale, name: string)
    ensures TimescaleOutput(o).GetMeasurementConfig(name).Some? <==> name in o.measurements
    ensures name in o.measurements ==>
      var mc := TimescaleOutput(o).GetMeasurementConfig(name).value;
      && mc.GetAddedTags() == o.measurements[name].addedTags
      && mc.GetIgnore() == o.measurements[name].ignore
      && mc.GetIgnoreFiltering() == o.measurements[name].ignoreFiltering
      && mc.GetEnrichment() == o.measurements[name].enrichment
    ensures TimescaleOutput(o).GetTagfilterInclude() == o.tagfilterInclude
    ensures TimescaleOutput(o).GetTagfilterBlock() == o.tagfilterBlock
  {
  }

  /** The Influx lookup answers ok exactly for the configured measurement
      names, and the getters of what it returns give the stored settings. */
  lemma InfluxMeasurementLookup(o: OutputInflux, name: string)
    ensures InfluxOutput(o).GetMeasurementConfig(name).Some? <==> name in o.measurements
    ensures name in o.measurements ==>
      var mc := InfluxOutput(o).GetMeasurementConfig(name).value;
      && mc.GetAddedTags() == o.measurements[name].addedTags
      && mc.GetIgnore() == o.measurements[name].ignore
      && mc.GetIgnoreFiltering() == o.measurements[name].ignoreFiltering
      && mc.GetEnrichment() == o.measurements[name].enrichment
    ensures InfluxOutput(o).GetTagfilterInclude() == o.tagfilterInclude
    ensures InfluxOutput(o).GetTagfilterBlock() == o.tagfilterBlock
  {
  }
}
