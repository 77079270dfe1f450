# knxmetrics in Dafny

knxmetrics bridges a KNX building-automation bus to a Prometheus scrape
endpoint. It subscribes to the group addresses named in its configuration.
It decodes each read response or write event by the datapoint type that the
matching mapping declares. It then records the value on that mapping's
OpenTelemetry gauge, with the mapping's attributes.

This project models the sequential core of the bridge and proves properties
about it:

- **Configuration** (`configuration.dfy`, pure). This covers the `Mapping`,
  `MetricAttribute`, `ServerConfig` and `Config` records and their three
  `Validate` methods. Each validator is a chain of guarded returns, and the
  first failing check decides the error.
- **Dispatch** (`knx.dfy`). This covers the first-match lookup of a mapping,
  the choice of decoder from the metric type, and the samples that one
  message records (`DispatchEffect`). It also covers the receive loop's event
  filter (`Received`), the samples a whole stream records (`DispatchAll`), the
  subscribed address list, and how the end of the stream is classified.
- **Setup** (`server_setup.dfy`). This covers the attribute key/value lists,
  binding gauges to mappings, the metrics path and root redirect, and the
  static-secret check of the metrics endpoint.
- **The server** (`knxmetrics.dfy`). This is the class `Server`, which holds
  the state that the Go `Server` updates in place:
  - the configuration, whose mappings receive their gauge and attribute set
    during setup;
  - the bus client;
  - the routes;
  - the log of every `Record` call made on the gauges.

  Its methods are the imperative steps. `DispatchBusMessage` and
  `StartKNXSubscriber` come from `knx.go`. `Setup`, `SetupKNXRPCClient`,
  `SetupOpenTelemetry` and `SetupWebserver` come from `setup.go`. Each
  method is proved against the functions above.
- **Support modules.** `strings.dfy` models the Go `strings` functions the
  code uses (`CutPrefix`, `TrimSuffix`, `TrimSpace` with `unicode.IsSpace`).
  `errors.dfy` models the error values. In this model,
  `errors.Is(err, context.Canceled)` follows only wrapping errors, because
  `fmt.Errorf` with `%s` does not wrap.
  `wrappers.dfy` holds `Option` and `Result`.

Code outside the model is passed in as parameters:

- the datapoint `Unpack` functions (fields of `Datapoints`, each a partial
  function of the payload);
- the meter that creates gauges;
- `knxrpc.NewClient`, `prometheus.New` and `url.JoinPath("/", …)`;
- the bus `Subscribe` RPC (a function from the client and the request to a stream of
  messages and a final error);
- the `Validate` methods of the bus client library.

Three behaviours of the code are easy to misread:

- The boolean range is `1000 < type < 2000`, so type 1000 has no decoder.
- When `Unpack` fails for a recognised type, `f` keeps its initial 0 and that
  0 is still recorded. Only an unrecognised type skips the record.
- `dispatchBusMessage` does not filter event kinds. The receive loop drops
  everything that is not a RESPONSE or a WRITE, and subscribes with
  `EVENT_UNSPECIFIED`.

## Model

| member | source | states |
|---|---|---|
| `Configuration.ValidateMapping` | config.go:113-125 | A mapping is valid iff its name is non-empty, its type is non-zero and its group address is non-empty. The error reported is the first missing field, in the order name, type, address. |
| `Configuration.AnyNonZeroTypeValid` | config.go:117-119 | Any non-zero metric type passes, including negative codes and codes with no decoder. |
| `Configuration.ValidateServer` | config.go:82-97 | Valid iff the host is non-empty, the port is non-zero, the path is non-empty and the auth settings pass. An empty host is reported first, then port 0, then an empty path. After those, the auth validator's own result is returned. |
| `Configuration.FirstInvalidMapping` | config.go:54-58 | Returns the lowest index whose mapping fails validation, or none when every mapping is valid. |
| `Configuration.ValidateConfig` | config.go:44-61 | Succeeds iff the client settings, the server settings, a non-empty mapping list and every mapping are valid. The first failing stage is reported. A mapping failure names the lowest invalid index, that mapping's name and its error. |
| `Configuration.DuplicateAddressesAccepted` | config.go:44-61 | Adding a valid mapping that repeats an existing group address keeps a valid configuration valid. |
| `Knx.Lookup` | knx.go:75-81 | Gives the first index whose group address equals the message's address. Every earlier mapping has a different address. The result is none iff no mapping has the address. |
| `Knx.FindMapping` | knx.go:75-81 | The loop that stops at the first match returns exactly `Lookup`. |
| `Knx.LaterMappingsNeverSelected` | knx.go:75-81 | Appending mappings after one that already matches changes neither the lookup nor what the message records. Later duplicates are never selected. |
| `Knx.DatapointFor` | knx.go:99-131 | Types strictly between 1000 and 2000 get the switch decoder. 5001, 9001, 9004 and 9005 get their own decoders. Every other type gets none, and each of these is an iff. |
| `Knx.SwitchRangeBounds` | knx.go:101 | 1000 and 2000 have no decoder; 1001 and 1999 get the switch decoder. |
| `Knx.Unpack` | knx.go:102-108 | A switch payload decodes to 1 for true and 0 for false. Decoding fails exactly when the boolean unpack fails. |
| `Knx.DispatchEffect` | knx.go:73-136 | One message records at most one sample. |
| `Knx.UnknownAddressRecordsNothing` | knx.go:82-87 | A message for an address that no mapping has records nothing. |
| `Knx.SwitchRecordsOneOrZero` | knx.go:97-108 | A switch-type mapping records exactly one sample, on its gauge with its attribute set. The value is 1 when the payload unpacks to true and 0 otherwise, including a malformed payload. |
| `Knx.RecognisedTypeRecordsOnce` | knx.go:97-133 | A recognised type records exactly one sample, on the matching mapping's gauge with its attribute set. The value is the decoded one, or 0 when unpacking fails. |
| `Knx.UnrecognisedTypeRecordsNothing` | knx.go:125-130 | A type outside the range and the four codes records nothing. |
| `Knx.UnknownTypeValidButSilent` | knx.go:125-130 | A mapping with type 4242 passes validation, but its messages record nothing. |
| `Knx.DispatchTwice` | knx.go:133 | The same message dispatched twice records its effect twice: two equal samples when the message records one, none otherwise. Nothing is deduplicated. |
| `Knx.Received` | knx.go:49-56 | Keeps only responses and writes, and every such message of the stream is kept. |
| `Knx.OtherEventsRecordNothing` | knx.go:53-56 | A stream with no response or write dispatches nothing and records nothing. |
| `Knx.DispatchAll` | knx.go:49-63 | A stream records at most one sample per message. |
| `Knx.GroupAddresses` | knx.go:33-36 | The subscribed list is the mappings' addresses, in configuration order, repeats included. |
| `Knx.StreamResult` | knx.go:64-69 | The loop ends in success iff the stream had no error or its error is a cancellation. Any other error is returned as "knxrpc stream closed" around the stream's error. |
| `Strings.CutPrefix` | setup.go:152 | Reports whether the prefix is there. If it is, prefix plus result is the input; if not, the input is returned unchanged. |
| `Strings.TrimSpace` | setup.go:153 | The result is no longer than the input and neither starts nor ends with white space. |
| `Strings.TrimSpacePadded` | setup.go:153 | A string that is already trimmed, padded with white space on either side, trims back to itself. |
| `Strings.TrimSpaceNotSuffix` | setup.go:152-153 | Text that starts with a non-space rune, put in front of a string, is never trimmed away to leave that string. |
| `Strings.TrimSuffix` | setup.go:113 | Removes one trailing suffix when there is one; otherwise the input is unchanged. |
| `ServerSetup.AuthenticateStaticSecretKey` | setup.go:150-162 | Accepts iff the value, with one leading "scheme plus space" cut off and then trimmed, equals the secret key exactly. Any other value gets `ErrInvalidAuthCredentials`. |
| `ServerSetup.AcceptsSchemeAndSecret` | setup.go:152-153 | For a secret that neither starts nor ends with white space, "scheme plus space", then the secret padded with white space, is accepted. |
| `ServerSetup.AcceptsBareSecret` | setup.go:152-153 | For a secret that neither starts nor ends with white space, a value without the scheme prefix is compared after trimming only, so the padded secret alone is accepted. |
| `ServerSetup.RejectsRepeatedScheme` | setup.go:152 | Only one prefix is removed: for a non-empty scheme that does not start with white space, the scheme written twice before the secret is rejected. |
| `ServerSetup.KeyValueList` | setup.go:81-87 | The key/value list has one pair per configured attribute, in the same order, with key = name and value = value. |
| `ServerSetup.FirstGaugeFailure` | setup.go:76-80 | Gives the first index whose gauge cannot be created. Every earlier gauge was created. The result is none iff every gauge was created. |
| `ServerSetup.BindGauges` | setup.go:76-89 | Binding keeps the number of mappings and leaves every configured field of every mapping as it was. |
| `ServerSetup.TelemetrySuccessBindsAll` | setup.go:76-89 | When no gauge creation fails, every mapping gets its gauge and an attribute list equal to its attributes, pair by pair in order. |
| `ServerSetup.TelemetryFailureNamesFirst` | setup.go:76-80 | At the first failing index k, the error is "mapping k (name)" around the meter's error. Mappings before k keep their bound gauges and attribute lists. The mapping at k gets the instrument it was handed and keeps its earlier attribute list. Mappings after k are untouched. |
| `ServerSetup.BindingKeepsValidity` | setup.go:76-89 | Filling in gauges and attribute sets does not change whether the configuration validates. |
| `ServerSetup.TelemetrySetup` | setup.go:68-92 | An exporter error is returned first and leaves the mappings as they were. Otherwise the step yields the gauge loop's result. It succeeds iff the exporter and every gauge creation succeed. It keeps the number of mappings and their configured fields. |
| `ServerSetup.MetricsPath` | setup.go:113 | The joined path loses at most one trailing "/": the result is a prefix of it, one "/" shorter when it ends in "/", and unchanged otherwise. |
| `ServerSetup.WebserverRoutes` | setup.go:109-141 | Fails iff the path join fails, with "unable to build metrics.path" around the join's error. On success the metrics group is the raw configured path and the redirect target ends in "/". Key auth is installed iff auth is enabled, looking up "header:" plus the configured header with the configured scheme. |
| `Errors.IsCanceled` | knx.go:65 | In this model, `errors.Is(err, context.Canceled)` holds only for `context.Canceled` itself or an error that wraps another. |
| `Errors.IsCanceledOnChain` | knx.go:65 | In this model, `errors.Is(err, context.Canceled)` holds iff `context.Canceled` is on the error's single unwrap chain. Errors formatted with `%s` end the chain. |
| `ServerSetup.RedirectEndsInSlash` | setup.go:109-141 | The redirect target ends in "/". It equals the joined path when that already ends in "/", and the joined path plus "/" otherwise. |
| `KnxMetrics.Server.DispatchBusMessage` | knx.go:73-136 | Always returns nil. It appends exactly `DispatchEffect` of the message to the recorded samples and changes nothing else. |
| `KnxMetrics.Server.StartKNXSubscriber` | knx.go:31-70 | Subscribes through the stored bus client with the mappings' addresses and `EVENT_UNSPECIFIED`. A failed subscription is returned and records nothing. Otherwise the samples are extended by exactly those of the stream's responses and writes, in stream order. The result is `StreamResult` of the stream's final error. |
| `KnxMetrics.Server.SetupKNXRPCClient` | setup.go:58-65 | Stores the created client, or none on failure, and returns the creation error. |
| `KnxMetrics.Server.SetupOpenTelemetry` | setup.go:68-92 | An exporter failure is returned with nothing changed. Otherwise the mappings become exactly `BindGauges` of the old mappings, other configuration is unchanged, and the error is that of `BindGauges`. |
| `KnxMetrics.Server.SetupWebserver` | setup.go:95-146 | Installs the routes on success. On failure it returns the wrapped join error with no routes left, because the fresh echo instance has already replaced the earlier one and its routes. |
| `KnxMetrics.Server.Setup` | setup.go:43-55 | Runs the client, telemetry and webserver steps in that order. The first error is returned and the later steps leave their state untouched. A failing webserver step leaves no routes. |

## Left out

- `server.go` is not part of this model. `Start` runs the subscriber, the
  HTTP server and the initial value reads concurrently under an `errgroup`,
  with `context.AfterFunc` shutdown hooks and a timed log line. `New` is a
  nil check plus `ValidateConfig`.
- Cancellation appears only as the stream's final error.
  `context.AfterFunc(s.ctx, stream.Close)` and the context passed to the
  RPCs are left out.
- The datapoint `Unpack` internals belong to the knx-go library. Each one is a
  partial function supplied in `Datapoints`, and its float32/float64 values
  are reals.
- `attribute.NewSet` sorts and deduplicates its key/values, and that code is
  not visible here. The attribute set is the ordered key/value list built from
  the configuration.
- The OpenTelemetry and Prometheus pipeline is left out: the exporter, the
  meter provider and the meter name. A gauge is an opaque handle. Its `Record`
  calls are the server's `samples` log.
- `knxrpc.NewClient` and `prometheus.New` are parameters, and so is the
  `Validate` of `knxrpc.ClientConfig` and `AuthConfig`. `SetupKNXRPCClient`
  stores no client when creation fails, on the assumption that the library
  returns a nil client with its error.
- `url.JoinPath` is a parameter. Echo's internals are left out. Of
  `echo.New()`, only the dropping of the earlier routes is kept. Also left
  out are the Recover, RequestID and Logger middleware, the `LogRequests` switch, the
  Prometheus handler and the HTTP serving. The routes are kept as data: the
  metrics group on the configured path, its key-auth settings and the
  redirect target.
- Logging (the warnings for an unknown address or type, and the trace
  events) is left out.
- `subtle.ConstantTimeCompare` is modelled only by its equality result, not
  its timing.
- Strings are sequences of runes. Go compares and trims UTF-8 bytes, and
  invalid UTF-8 is not modelled.
- Go's 64-bit `int` for the metric type and the port is an unbounded integer.
  The code only compares them with constants, so no wrap-around can arise.
- `Config.Mappings` holds pointers in Go. The model keeps the mappings as
  values inside the server's configuration, so aliasing with the caller's
  `Config` is not modelled. The model also has no nil mapping entries. A
  `[]*Mapping` can hold a nil pointer, for example from a `null` list entry,
  and Go then panics where it reads that mapping's fields: in
  `Config.Validate` (config.go:54-55, through config.go:114), in the
  subscriber's address loop (knx.go:34-35), in the dispatch lookup
  (knx.go:76-77) and in the gauge loop (setup.go:76-77).
- `Mapping.MetricAttributes` is a `[]*MetricAttribute` in Go (config.go:104)
  and can likewise hold a nil entry. `Mapping.Validate` never looks at the
  attributes, so such a configuration validates. Go then panics in the
  attribute loop of `setupOpenTelemetry` where it reads `kv.Name`
  (setup.go:82-85). The model has no nil attribute entries.
- `Errors.IsCanceled` models `errors.Is` only for the error shapes of this
  model: single wrapping through `Unwrap() error`. A foreign error with its
  own `Is(error) bool` method, and errors that wrap several others through
  `Unwrap() []error` (`errors.Join`, `fmt.Errorf` with several `%w`), are not
  modelled.
- `KnxMetrics.Server.DispatchBusMessage` and `KnxMetrics.Server.StartKNXSubscriber`
  require every mapping to have a gauge, and `StartKNXSubscriber` also
  requires a stored bus client. In Go, `Record` on an unset gauge and
  `Subscribe` on a nil client would panic, and a successful setup stores the
  client and binds all gauges before the subscriber starts.
- Strings.TrimSpace: its contract states only that the result is trimmed and
  no longer than the input. That it removes nothing but surrounding white
  space is proved only for padded strings, by `TrimSpacePadded`.
