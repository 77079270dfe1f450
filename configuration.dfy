/**
  The configuration records of the bridge and their validation: every
  `Validate` is a sequence of guarded returns, so the first failing check
  decides the error reported.
*/
module Configuration {
  import opened Wrappers
  import opened Errors

  /** One label of a metric, as configured. */
  datatype MetricAttribute = MetricAttribute(name: string, value: string)

  /** attribute.KeyValue with a string value: one label as the metrics library sees it. */
  datatype KeyValue = KeyValue(key: string, value: string)

  /** A gauge handle handed out by the metrics library; its identity is all the model uses. */
  datatype Gauge = Gauge(handle: nat)

  /**
    One bus-address-to-metric binding. The first five fields are configured;
    `gauge` and `attributeSet` are filled in during setup (nil and empty until then).
  */
  datatype Mapping = Mapping(
    metricName: string,
    metricType: int,
    metricDescription: string,
    metricAttributes: seq<MetricAttribute>,
    knxGroupAddress: string,
    gauge: Option<Gauge>,
    attributeSet: seq<KeyValue>)

  /** knxrpc.AuthConfig, the fields the bridge reads. */
  datatype AuthConfig = AuthConfig(enabled: bool, header: string, scheme: string, secretKey: string)

  /** knxrpc.ClientConfig: its fields belong to the bus client library and are not interpreted here. */
  datatype ClientConfig = ClientConfig(settings: map<string, string>)

  datatype ServerConfig = ServerConfig(host: string, port: int, path: string, logRequests: bool, auth: AuthConfig)

  datatype Config = Config(knxrpc: ClientConfig, server: ServerConfig, mappings: seq<Mapping>)

  /** The validators of the bus client library, ClientConfig.Validate and AuthConfig.Validate. */
  datatype ForeignValidators = ForeignValidators(
    client: ClientConfig -> Option<Error>,
    auth: AuthConfig -> Option<Error>)

  /** Mapping.Validate: name, then type, then group address must be present. */
  function ValidateMapping(m: Mapping): (r: Option<Error>)
    ensures r == None <==> |m.metricName| > 0 && m.metricType != 0 && |m.knxGroupAddress| > 0
    ensures r == Some(MissingMetricName) <==> |m.metricName| == 0
    ensures r == Some(MissingMetricType) <==> |m.metricName| > 0 && m.metricType == 0
    ensures r == Some(MissingKnxGroupAddress) <==>
      |m.metricName| > 0 && m.metricType != 0 && |m.knxGroupAddress| == 0
  {
    if |m.metricName| == 0 then Some(MissingMetricName)
    else if m.metricType == 0 then Some(MissingMetricType)
    else if |m.knxGroupAddress| == 0 then Some(MissingKnxGroupAddress)
    else None
  }

  /** ServerConfig.Validate: host, then port, then path, then the auth settings. */
  function ValidateServer(c: ServerConfig, v: ForeignValidators): (r: Option<Error>)
    ensures r == None <==> |c.host| > 0 && c.port != 0 && |c.path| > 0 && v.auth(c.auth) == None
    ensures |c.host| == 0 ==> r == Some(MissingServerHost)
    ensures |c.host| > 0 && c.port == 0 ==> r == Some(MissingServerPort)
    ensures |c.host| > 0 && c.port != 0 && |c.path| == 0 ==> r == Some(MissingServerPath)
    ensures |c.host| > 0 && c.port != 0 && |c.path| > 0 ==> r == v.auth(c.auth)
  {
    if |c.host| == 0 then Some(MissingServerHost)
    else if c.port == 0 then Some(MissingServerPort)
    else if |c.path| == 0 then Some(MissingServerPath)
    else v.auth(c.auth)
  }

  /** The index of the first mapping that fails validation, if any. */
  function FirstInvalidMapping(ms: seq<Mapping>): (k: Option<nat>)
    ensures k.None? <==> forall i :: 0 <= i < |ms| ==> ValidateMapping(ms[i]) == None
    ensures k.Some? ==> k.value < |ms| && ValidateMapping(ms[k.value]).Some?
    ensures k.Some? ==> forall i :: 0 <= i < k.value ==> ValidateMapping(ms[i]) == None
  {
    if ms == [] then None
    else if ValidateMapping(ms[0]).Some? then Some(0)
    else match FirstInvalidMapping(ms[1..])
      case None => None
      case Some(k) => Some(k + 1)
  }

  /**
    Config.Validate: the bus client settings, then the server settings, then
    at least one mapping, then every mapping in order. The first invalid
    mapping is reported with its index and name. Nothing compares the
    mappings with each other.
  */
  function ValidateConfig(c: Config, v: ForeignValidators): (r: Option<Error>)
    ensures r == None <==>
      && v.client(c.knxrpc) == None
      && ValidateServer(c.server, v) == None
      && |c.mappings| > 0
      && forall i :: 0 <= i < |c.mappings| ==> ValidateMapping(c.mappings[i]) == None
    ensures v.client(c.knxrpc) != None ==> r == v.client(c.knxrpc)
    ensures v.client(c.knxrpc) == None && ValidateServer(c.server, v) != None ==>
      r == ValidateServer(c.server, v)
    ensures v.client(c.knxrpc) == None && ValidateServer(c.server, v) == None && |c.mappings| == 0 ==>
      r == Some(MissingMappings)
    ensures v.client(c.knxrpc) == None && ValidateServer(c.server, v) == None ==>
      forall k ::
        (0 <= k < |c.mappings| && ValidateMapping(c.mappings[k]).Some? &&
         (forall i :: 0 <= i < k ==> ValidateMapping(c.mappings[i]) == None)) ==>
        r == Some(MappingFailed(k, c.mappings[k].metricName, ValidateMapping(c.mappings[k]).value))
  {
    if v.client(c.knxrpc).Some? then v.client(c.knxrpc)
    else if ValidateServer(c.server, v).Some? then ValidateServer(c.server, v)
    else if |c.mappings| == 0 then Some(MissingMappings)
    else match FirstInvalidMapping(c.mappings)
      case None => None
      case Some(k) => Some(MappingFailed(k, c.mappings[k].metricName, ValidateMapping(c.mappings[k]).value))
  }

  /** Any non-zero metric type passes mapping validation, whether or not a decoder exists for it. */
  lemma AnyNonZeroTypeValid(m: Mapping, metricType: int)
    requires |m.metricName| > 0 && |m.knxGroupAddress| > 0 && metricType != 0
    ensures ValidateMapping(m.(metricType := metricType)) == None
  {
  }

  /** Validation does not reject a mapping list that repeats a group address. */
  lemma DuplicateAddressesAccepted(c: Config, v: ForeignValidators, j: nat, m: Mapping)
    requires ValidateConfig(c, v) == None
    requires j < |c.mappings| && ValidateMapping(m) == None
    requires m.knxGroupAddress == c.mappings[j].knxGroupAddress
    ensures ValidateConfig(c.(mappings := c.mappings + [m]), v) == None
  {
  }
}
