/**
  The bridge's server: the configuration whose mappings setup binds to
  gauges, the bus client, the metrics routes, and the samples the gauges
  have recorded. Its methods are the state-changing steps of setup and of
  the bus subscription.
*/
module KnxMetrics {
  import opened Wrappers
  import opened Errors
  import opened Configuration
  import opened Knx
  import opened ServerSetup

  /** A bus RPC client handle; only its presence matters here. */
  datatype Client = Client(handle: nat)

  class Server {
    var config: Config
    /** The datapoint library's decoders. */
    const dpt: Datapoints
    var rpcClient: Option<Client>
    var routes: Option<Routes>
    /** Every Record call made on the mappings' gauges, oldest first. */
    var samples: seq<Sample>

    constructor (config: Config, dpt: Datapoints)
      ensures this.config == config && this.dpt == dpt
      ensures rpcClient == None && routes == None && samples == []
    {
      this.config := config;
      this.dpt := dpt;
      rpcClient := None;
      routes := None;
      samples := [];
    }

    /** setup: client, then telemetry, then webserver; the first error stops it. */
    method Setup(
      newClient: Result<Client, Error>,
      exporter: Option<Error>,
      meter: Meter,
      joinPath: string -> Result<string, Error>)
      returns (err: Option<Error>)
      modifies this`rpcClient, this`config, this`routes
      ensures rpcClient == (if newClient.Success? then Some(newClient.value) else None)
      ensures newClient.Failure? ==>
        err == Some(newClient.error) && config == old(config) && routes == old(routes)
      ensures newClient.Success? ==>
        var t := TelemetrySetup(old(config).mappings, exporter, meter);
        && config == old(config).(mappings := t.mappings)
        && (t.err.Some? ==> err == t.err && routes == old(routes))
        && (t.err.None? ==>
              match WebserverRoutes(old(config).server, joinPath)
              case Success(r) => err == None && routes == Some(r)
              case Failure(e) => err == Some(e) && routes == None)
    {
      err := SetupKNXRPCClient(newClient);
      if err.Some? {
        return;
      }
      err := SetupOpenTelemetry(exporter, meter);
      if err.Some? {
        return;
      }
      err := SetupWebserver(joinPath);
    }

    /** setupKNXRPCClient: keep the new client, or none when creating it failed. */
    method SetupKNXRPCClient(newClient: Result<Client, Error>) returns (err: Option<Error>)
      modifies this`rpcClient
      ensures rpcClient == (if newClient.Success? then Some(newClient.value) else None)
      ensures err == (if newClient.Failure? then Some(newClient.error) else None)
    {
      match newClient
      case Success(c) =>
        rpcClient := Some(c);
        err := None;
      case Failure(e) =>
        rpcClient := None;
        err := Some(e);
    }

    /**
      setupOpenTelemetry: after the exporter, bind each mapping in order to a
      gauge named after it and to its attribute list.
    */
    method SetupOpenTelemetry(exporter: Option<Error>, meter: Meter) returns (err: Option<Error>)
      modifies this`config
      ensures var t := TelemetrySetup(old(config).mappings, exporter, meter);
        config == old(config).(mappings := t.mappings) && err == t.err
    {
      if exporter.Some? {
        return exporter;
      }
      ghost var ms := config.mappings;
      for i := 0 to |config.mappings|
        invariant |config.mappings| == |ms|
        invariant config == old(config).(mappings := config.mappings)
        invariant forall j :: 0 <= j < i ==> config.mappings[j] == Bind(ms[j], meter)
        invariant forall j :: i <= j < |ms| ==> config.mappings[j] == ms[j]
        invariant forall j :: 0 <= j < i ==> GaugeFor(ms[j], meter).err == None
      {
        var mapping := config.mappings[i];
        var created := meter(mapping.metricName, mapping.metricDescription);
        mapping := mapping.(gauge := Some(created.gauge));
        config := config.(mappings := config.mappings[i := mapping]);
        if created.err.Some? {
          assert FirstGaugeFailure(ms, meter) == Some(i);
          assert config.mappings == BindGauges(ms, meter).mappings;
          return Some(MappingFailed(i, mapping.metricName, created.err.value));
        }
        var kvs := KeyValueList(mapping.metricAttributes);
        mapping := mapping.(attributeSet := kvs);
        config := config.(mappings := config.mappings[i := mapping]);
      }
      assert config.mappings == BindGauges(ms, meter).mappings;
      return None;
    }

    /** setupWebserver: the metrics group, its optional key auth, and the root redirect. */
    method SetupWebserver(joinPath: string -> Result<string, Error>) returns (err: Option<Error>)
      modifies this`routes
      ensures match WebserverRoutes(config.server, joinPath)
        case Success(r) => err == None && routes == Some(r)
        case Failure(e) => err == Some(e) && routes == None
    {
      // echo.New() replaces the previous instance, and its routes, before the path is built
      routes := None;
      var joined := joinPath(config.server.path);
      if joined.Failure? {
        return Some(MetricsPathFailed(joined.error));
      }
      var metricsPath := MetricsPath(joined.value);
      var keyAuth := None;
      if config.server.auth.enabled {
        keyAuth := Some(KeyAuth("header:" + config.server.auth.header, config.server.auth.scheme));
      }
      routes := Some(Routes(config.server.path, keyAuth, metricsPath + "/"));
      err := None;
    }

    /**
      startKNXSubscriber: subscribe through the stored bus client to the
      mappings' addresses, dispatch every
      read response and write in stream order, and classify how the stream
      ended.
    */
    method StartKNXSubscriber(subscribe: (Client, SubscribeRequest) -> Result<Stream, Error>) returns (err: Option<Error>)
      requires rpcClient.Some?
      requires Bound(config.mappings)
      modifies this`samples
      ensures var s := subscribe(rpcClient.value, SubscribeRequest(AddressesOf(config.mappings), Unspecified));
        && (s.Failure? ==> err == Some(s.error) && samples == old(samples))
        && (s.Success? ==>
              && err == StreamResult(s.value.err)
              && samples == old(samples) + DispatchAll(config.mappings, dpt, Received(s.value.messages)))
    {
      var groupAddresses := GroupAddresses(config.mappings);
      var stream := subscribe(rpcClient.value, SubscribeRequest(groupAddresses, Unspecified));
      if stream.Failure? {
        return Some(stream.error);
      }
      var messages := stream.value.messages;
      ghost var ms := config.mappings;
      for i := 0 to |messages|
        invariant config.mappings == ms
        invariant samples == old(samples) + DispatchAll(ms, dpt, Received(messages[..i]))
      {
        var res := messages[i];
        ghost var before := Received(messages[..i]);
        ReceivedStep(messages, i);
        if res.event != Response && res.event != Write {
          assert Received(messages[..i + 1]) == before;
          continue;
        }
        assert Received(messages[..i + 1]) == before + [res];
        DispatchAllStep(ms, dpt, before, res);
        ghost var prev := samples;
        var e := DispatchBusMessage(res);
        assert samples == prev + DispatchEffect(ms, dpt, res);
        assert samples == old(samples) + DispatchAll(ms, dpt, before + [res]);
        if e.Some? {
          assert false;
        }
      }
      assert messages[..|messages|] == messages;
      var streamErr := stream.value.err;
      if streamErr.Some? && !IsCanceled(streamErr.value) {
        return Some(StreamClosed(streamErr.value));
      }
      return None;
    }

    /**
      dispatchBusMessage: find the first mapping for the message's address,
      decode by its metric type, and record the value on its gauge.
    */
    method DispatchBusMessage(res: SubscribeResponse) returns (err: Option<Error>)
      requires Bound(config.mappings)
      modifies this`samples
      ensures err == None
      ensures samples == old(samples) + DispatchEffect(config.mappings, dpt, res)
    {
      var found := FindMapping(config.mappings, res.groupAddress);
      if found.None? {
        // unknown group address
        return None;
      }
      var mapping := config.mappings[found.value];
      var f: real := 0.0;
      var i := mapping.metricType;
      if 1000 < i < 2000 {
        var v := dpt.unpackSwitch(res.data);
        if v.Some? {
          if v.value {
            f := 1.0;
          } else {
            f := 0.0;
          }
        }
      } else if i == 5001 {
        var v := dpt.unpackScaling(res.data);
        if v.Some? {
          f := v.value;
        }
      } else if i == 9001 {
        var v := dpt.unpackTemperature(res.data);
        if v.Some? {
          f := v.value;
        }
      } else if i == 9004 {
        var v := dpt.unpackIlluminance(res.data);
        if v.Some? {
          f := v.value;
        }
      } else if i == 9005 {
        var v := dpt.unpackWindSpeed(res.data);
        if v.Some? {
          f := v.value;
        }
      } else {
        // unknown datapoint type
        return None;
      }
      samples := samples + [Sample(mapping.gauge.value, f, mapping.attributeSet)];
      return None;
    }
  }
}
