/**
  The value-level part of the server setup: the attribute lists and gauges
  bound to the mappings, the metrics routes, and the static-secret check of
  the metrics endpoint. Server.SetupOpenTelemetry and Server.SetupWebserver
  are proved against these functions.
*/
module ServerSetup {
  import opened Wrappers
  import opened Errors
  import opened Strings
  import opened Configuration
  import opened Knx

  /** What meter.Float64Gauge returns: an instrument, and an error that is nil on success. */
  datatype GaugeResult = GaugeResult(gauge: Gauge, err: Option<Error>)

  /** The OpenTelemetry meter, seen as a function of a metric's name and description. */
  type Meter = (string, string) -> GaugeResult

  /** The configured attributes as key/value pairs, one per attribute, in order. */
  function KeyValues(attrs: seq<MetricAttribute>): seq<KeyValue> {
    seq(|attrs|, i requires 0 <= i < |attrs| => KeyValue(attrs[i].name, attrs[i].value))
  }

  /** The append loop that builds a mapping's key/value list. */
  method KeyValueList(attrs: seq<MetricAttribute>) returns (kvs: seq<KeyValue>)
    ensures kvs == KeyValues(attrs)
  {
    kvs := [];
    for i := 0 to |attrs|
      invariant |kvs| == i
      invariant forall j :: 0 <= j < i ==> kvs[j] == KeyValue(attrs[j].name, attrs[j].value)
    {
      kvs := kvs + [KeyValue(attrs[i].name, attrs[i].value)];
    }
  }

  function GaugeFor(m: Mapping, meter: Meter): GaugeResult {
    meter(m.metricName, m.metricDescription)
  }

  /** The index of the first mapping whose gauge cannot be created, if any. */
  function FirstGaugeFailure(ms: seq<Mapping>, meter: Meter): (k: Option<nat>)
    ensures k.None? <==> forall i :: 0 <= i < |ms| ==> GaugeFor(ms[i], meter).err == None
    ensures k.Some? ==> k.value < |ms| && GaugeFor(ms[k.value], meter).err.Some?
    ensures k.Some? ==> forall i :: 0 <= i < k.value ==> GaugeFor(ms[i], meter).err == None
  {
    if ms == [] then None
    else if GaugeFor(ms[0], meter).err.Some? then Some(0)
    else match FirstGaugeFailure(ms[1..], meter)
      case None => None
      case Some(k) => Some(k + 1)
  }

  /** A mapping with its gauge and attribute set in place. */
  function Bind(m: Mapping, meter: Meter): Mapping {
    m.(gauge := Some(GaugeFor(m, meter).gauge), attributeSet := KeyValues(m.metricAttributes))
  }

  /** The configured part of a mapping, everything but what setup fills in. */
  predicate SameConfiguration(a: Mapping, b: Mapping) {
    && a.metricName == b.metricName
    && a.metricType == b.metricType
    && a.metricDescription == b.metricDescription
    && a.metricAttributes == b.metricAttributes
    && a.knxGroupAddress == b.knxGroupAddress
  }

  /** The mappings after the telemetry step, and the step's error. */
  datatype Telemetry = Telemetry(mappings: seq<Mapping>, err: Option<Error>)

  /**
    The gauge loop: mappings are bound in order; at the first failure the
    failing mapping takes the instrument it was handed but keeps the attribute
    set it already had, the later ones are left as they were, and the error
    names the failing index.
  */
  function BindGauges(ms: seq<Mapping>, meter: Meter): (t: Telemetry)
    ensures |t.mappings| == |ms|
    ensures forall i :: 0 <= i < |ms| ==> SameConfiguration(t.mappings[i], ms[i])
  {
    match FirstGaugeFailure(ms, meter)
    case None =>
      Telemetry(seq(|ms|, i requires 0 <= i < |ms| => Bind(ms[i], meter)), None)
    case Some(k) =>
      Telemetry(
        seq(|ms|, i requires 0 <= i < |ms| =>
          if i < k then Bind(ms[i], meter)
          else if i == k then ms[i].(gauge := Some(GaugeFor(ms[i], meter).gauge))
          else ms[i]),
        Some(MappingFailed(k, ms[k].metricName, GaugeFor(ms[k], meter).err.value)))
  }

  /** setupOpenTelemetry: the exporter first, then the gauge loop. */
  function TelemetrySetup(ms: seq<Mapping>, exporter: Option<Error>, meter: Meter): (t: Telemetry)
    ensures exporter.Some? ==> t.mappings == ms && t.err == exporter
    ensures t.err == None <==> exporter == None && FirstGaugeFailure(ms, meter) == None
    ensures |t.mappings| == |ms|
    ensures forall i :: 0 <= i < |ms| ==> SameConfiguration(t.mappings[i], ms[i])
  {
    if exporter.Some? then Telemetry(ms, exporter) else BindGauges(ms, meter)
  }

  /** A successful telemetry step binds every mapping, with its attributes listed in their configured order. */
  lemma TelemetrySuccessBindsAll(ms: seq<Mapping>, meter: Meter)
    requires BindGauges(ms, meter).err == None
    ensures Bound(BindGauges(ms, meter).mappings)
    ensures forall i :: 0 <= i < |ms| ==>
      && BindGauges(ms, meter).mappings[i].gauge == Some(GaugeFor(ms[i], meter).gauge)
      && |BindGauges(ms, meter).mappings[i].attributeSet| == |ms[i].metricAttributes|
    ensures forall i, j :: 0 <= i < |ms| && 0 <= j < |ms[i].metricAttributes| ==>
      BindGauges(ms, meter).mappings[i].attributeSet[j] ==
        KeyValue(ms[i].metricAttributes[j].name, ms[i].metricAttributes[j].value)
  {
  }

  /** The telemetry step fails exactly when some gauge cannot be created, and then names the first such mapping. */
  lemma TelemetryFailureNamesFirst(ms: seq<Mapping>, meter: Meter, k: nat)
    requires k < |ms| && GaugeFor(ms[k], meter).err.Some?
    requires forall i :: 0 <= i < k ==> GaugeFor(ms[i], meter).err == None
    ensures BindGauges(ms, meter).err == Some(MappingFailed(k, ms[k].metricName, GaugeFor(ms[k], meter).err.value))
    ensures forall i :: 0 <= i < k ==> BindGauges(ms, meter).mappings[i] == Bind(ms[i], meter)
    ensures BindGauges(ms, meter).mappings[k] == ms[k].(gauge := Some(GaugeFor(ms[k], meter).gauge))
    ensures forall i :: k < i < |ms| ==> BindGauges(ms, meter).mappings[i] == ms[i]
  {
  }

  /** Binding gauges does not change what validation says about the configuration. */
  lemma BindingKeepsValidity(c: Config, v: ForeignValidators, ms: seq<Mapping>)
    requires |ms| == |c.mappings|
    requires forall i :: 0 <= i < |ms| ==> SameConfiguration(ms[i], c.mappings[i])
    ensures ValidateConfig(c.(mappings := ms), v) == ValidateConfig(c, v)
  {
  }

  /** The settings of echo's key-auth middleware on the metrics group: where the key is looked up and the scheme it carries. */
  datatype KeyAuth = KeyAuth(keyLookup: string, authScheme: string)

  /**
    The routes of the webserver: the metrics group (on the configured path),
    its optional key-auth middleware, and the target of the root redirect.
  */
  datatype Routes = Routes(metricsGroup: string, keyAuth: Option<KeyAuth>, redirectTarget: string)

  /** The joined metrics path with one trailing slash removed. */
  function MetricsPath(joined: string): (r: string)
    ensures |joined| - 1 <= |r| <= |joined| && r == joined[..|r|]
    ensures HasSuffix(joined, "/") ==> r + "/" == joined
    ensures !HasSuffix(joined, "/") ==> r == joined
  {
    TrimSuffix(joined, "/")
  }

  /** setupWebserver, with url.JoinPath("/", path) given as `joinPath`. */
  function WebserverRoutes(server: ServerConfig, joinPath: string -> Result<string, Error>): (r: Result<Routes, Error>)
    ensures r.Failure? <==> joinPath(server.path).Failure?
    ensures r.Failure? ==> r.error == MetricsPathFailed(joinPath(server.path).error)
    ensures r.Success? ==> r.value.metricsGroup == server.path && HasSuffix(r.value.redirectTarget, "/")
    ensures r.Success? ==> (r.value.keyAuth.Some? <==> server.auth.enabled)
    ensures r.Success? && server.auth.enabled ==>
      r.value.keyAuth == Some(KeyAuth("header:" + server.auth.header, server.auth.scheme))
  {
    match joinPath(server.path)
    case Failure(e) => Failure(MetricsPathFailed(e))
    case Success(joined) =>
      var keyAuth := if server.auth.enabled
        then Some(KeyAuth("header:" + server.auth.header, server.auth.scheme))
        else None;
      Success(Routes(server.path, keyAuth, MetricsPath(joined) + "/"))
  }

  /**
    The trim removes at most one trailing slash and the redirect puts one
    back: the target is the joined path if it already ended in a slash, and
    the joined path plus a slash otherwise.
  */
  lemma RedirectEndsInSlash(server: ServerConfig, joinPath: string -> Result<string, Error>)
    requires joinPath(server.path).Success?
    ensures var joined := joinPath(server.path).value;
      && WebserverRoutes(server, joinPath).Success?
      && HasSuffix(WebserverRoutes(server, joinPath).value.redirectTarget, "/")
      && WebserverRoutes(server, joinPath).value.redirectTarget ==
           (if HasSuffix(joined, "/") then joined else joined + "/")
  {
  }

  /**
    authenticateStaticSecretKey: strip one leading "<scheme> ", trim white
    space, and accept exactly when what is left equals the secret key.
  */
  function AuthenticateStaticSecretKey(auth: AuthConfig, val: string): (r: Option<Error>)
    ensures r == None <==> TrimSpace(CutPrefix(val, auth.scheme + " ").0) == auth.secretKey
    ensures r != None ==> r == Some(InvalidAuthCredentials)
  {
    var stripped := CutPrefix(val, auth.scheme + " ").0;
    if TrimSpace(stripped) != auth.secretKey then Some(InvalidAuthCredentials) else None
  }

  /** "<scheme> " followed by the secret, padded with white space, is accepted. */
  lemma AcceptsSchemeAndSecret(auth: AuthConfig, before: string, after: string)
    requires AllSpace(before) && AllSpace(after) && Trimmed(auth.secretKey)
    ensures AuthenticateStaticSecretKey(auth, auth.scheme + " " + before + auth.secretKey + after) == None
  {
    var prefix := auth.scheme + " ";
    var rest := before + auth.secretKey + after;
    assert auth.scheme + " " + before + auth.secretKey + after == prefix + rest;
    assert (prefix + rest)[|prefix|..] == rest;
    TrimSpacePadded(before, auth.secretKey, after);
  }

  /** Without the scheme prefix the value is compared after trimming alone. */
  lemma AcceptsBareSecret(auth: AuthConfig, before: string, after: string)
    requires AllSpace(before) && AllSpace(after) && Trimmed(auth.secretKey)
    requires !(auth.scheme + " " <= before + auth.secretKey + after)
    ensures AuthenticateStaticSecretKey(auth, before + auth.secretKey + after) == None
  {
    TrimSpacePadded(before, auth.secretKey, after);
  }

  /**
    Only one scheme prefix is stripped: the scheme written twice in front of
    the secret is rejected, for a scheme that does not start with white space.
  */
  lemma RejectsRepeatedScheme(auth: AuthConfig)
    requires |auth.scheme| > 0 && !IsSpace(auth.scheme[0])
    ensures AuthenticateStaticSecretKey(auth, auth.scheme + " " + auth.scheme + " " + auth.secretKey) ==
      Some(InvalidAuthCredentials)
  {
    var prefix := auth.scheme + " ";
    var x := prefix + auth.secretKey;
    var val := prefix + x;
    assert auth.scheme + " " + auth.scheme + " " + auth.secretKey == val;
    assert CutPrefix(val, prefix).0 == x by {
      assert val[|prefix|..] == x;
    }
    assert prefix[0] == auth.scheme[0];
    TrimSpaceNotSuffix(prefix, auth.secretKey);
  }
}
