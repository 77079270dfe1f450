/**
  What one bus message does to the gauges, and what a whole subscription
  stream does: the specification that Server.DispatchBusMessage and
  Server.StartKNXSubscriber are proved against, and the two loops of that
  file that only read (the mapping lookup and the address list).
*/
module Knx {
  import opened Wrappers
  import opened Errors
  import opened Configuration

  type byte = bv8

  /** The event kinds of the bus RPC service. */
  datatype Event = Unspecified | Read | Response | Write

  /** One message of the subscription stream. */
  datatype SubscribeResponse = SubscribeResponse(groupAddress: string, event: Event, data: seq<byte>)

  /** The subscription request: the addresses of interest and an event filter. */
  datatype SubscribeRequest = SubscribeRequest(groupAddresses: seq<string>, event: Event)

  /** A subscription stream: the messages it delivers, in order, then its final error (nil if none). */
  datatype Stream = Stream(messages: seq<SubscribeResponse>, err: Option<Error>)

  /** One Record call on a gauge: the value and the attribute set it was recorded with. */
  datatype Sample = Sample(gauge: Gauge, value: real, attributes: seq<KeyValue>)

  /** The datapoint decoders the bridge knows, one per branch of its type switch. */
  datatype Datapoint =
    | Switch       // DPT 1.001, boolean
    | Scaling      // DPT 5.001, percent
    | Temperature  // DPT 9.001, degrees Celsius
    | Illuminance  // DPT 9.004, lux
    | WindSpeed    // DPT 9.005, metres per second

  /**
    The Unpack methods of the datapoint library, each a partial function of
    the payload (None when Unpack returns an error). Floats are reals here.
  */
  datatype Datapoints = Datapoints(
    unpackSwitch: seq<byte> -> Option<bool>,
    unpackScaling: seq<byte> -> Option<real>,
    unpackTemperature: seq<byte> -> Option<real>,
    unpackIlluminance: seq<byte> -> Option<real>,
    unpackWindSpeed: seq<byte> -> Option<real>)

  /** Every mapping has its gauge (setup has bound them all). */
  predicate Bound(ms: seq<Mapping>) {
    forall i :: 0 <= i < |ms| ==> ms[i].gauge.Some?
  }

  /** The index of the first mapping configured for `address`, if any. */
  function Lookup(ms: seq<Mapping>, address: string): (k: Option<nat>)
    ensures k.None? <==> forall i :: 0 <= i < |ms| ==> ms[i].knxGroupAddress != address
    ensures k.Some? ==> k.value < |ms| && ms[k.value].knxGroupAddress == address
    ensures k.Some? ==> forall i :: 0 <= i < k.value ==> ms[i].knxGroupAddress != address
  {
    if ms == [] then None
    else if ms[0].knxGroupAddress == address then Some(0)
    else match Lookup(ms[1..], address)
      case None => None
      case Some(k) => Some(k + 1)
  }

  /** The lookup loop of the dispatcher: a linear search that stops at the first match. */
  method FindMapping(ms: seq<Mapping>, address: string) returns (found: Option<nat>)
    ensures found == Lookup(ms, address)
  {
    found := None;
    for i := 0 to |ms|
      invariant found == None
      invariant forall j :: 0 <= j < i ==> ms[j].knxGroupAddress != address
    {
      if ms[i].knxGroupAddress == address {
        found := Some(i);
        break;
      }
    }
  }

  /**
    The decoder chosen for a metric type: any type strictly between 1000 and
    2000 is a switch, four exact codes are numeric, every other type has none.
  */
  function DatapointFor(metricType: int): (d: Option<Datapoint>)
    ensures d == Some(Switch) <==> 1000 < metricType < 2000
    ensures d == Some(Scaling) <==> metricType == 5001
    ensures d == Some(Temperature) <==> metricType == 9001
    ensures d == Some(Illuminance) <==> metricType == 9004
    ensures d == Some(WindSpeed) <==> metricType == 9005
    ensures d == None <==> !(1000 < metricType < 2000) && metricType !in {5001, 9001, 9004, 9005}
  {
    if 1000 < metricType < 2000 then Some(Switch)
    else if metricType == 5001 then Some(Scaling)
    else if metricType == 9001 then Some(Temperature)
    else if metricType == 9004 then Some(Illuminance)
    else if metricType == 9005 then Some(WindSpeed)
    else None
  }

  /** The payload decoded by `d`: a switch reads as 1 or 0; None when Unpack fails. */
  function Unpack(dpt: Datapoints, d: Datapoint, data: seq<byte>): (v: Option<real>)
    ensures d == Switch ==> (v.None? <==> dpt.unpackSwitch(data).None?)
    ensures d == Switch && v.Some? ==> v.value == (if dpt.unpackSwitch(data).value then 1.0 else 0.0)
  {
    match d
    case Switch => (match dpt.unpackSwitch(data) case Some(b) => Some(if b then 1.0 else 0.0) case None => None)
    case Scaling => dpt.unpackScaling(data)
    case Temperature => dpt.unpackTemperature(data)
    case Illuminance => dpt.unpackIlluminance(data)
    case WindSpeed => dpt.unpackWindSpeed(data)
  }

  /**
    What dispatching one message records: nothing for an unknown address or
    an unrecognised type, otherwise one sample on the first matching
    mapping's gauge, holding the decoded value, or 0 when decoding failed.
  */
  function DispatchEffect(ms: seq<Mapping>, dpt: Datapoints, msg: SubscribeResponse): (r: seq<Sample>)
    requires Bound(ms)
    ensures |r| <= 1
  {
    match Lookup(ms, msg.groupAddress)
    case None => []
    case Some(k) =>
      match DatapointFor(ms[k].metricType)
      case None => []
      case Some(d) => [Sample(ms[k].gauge.value, Unpack(dpt, d, msg.data).GetOr(0.0), ms[k].attributeSet)]
  }

  /** The receive loop's filter: only read responses and writes are dispatched. */
  predicate Relevant(e: Event) {
    e == Response || e == Write
  }

  /** The messages the receive loop dispatches, in stream order. */
  function Received(msgs: seq<SubscribeResponse>): (r: seq<SubscribeResponse>)
    ensures |r| <= |msgs|
    ensures forall m :: m in r ==> m in msgs && Relevant(m.event)
    ensures forall m :: m in msgs && Relevant(m.event) ==> m in r
  {
    if msgs == [] then []
    else
      var last := msgs[|msgs| - 1];
      Received(msgs[..|msgs| - 1]) + (if Relevant(last.event) then [last] else [])
  }

  /** The samples recorded by dispatching `msgs` one after the other. */
  function DispatchAll(ms: seq<Mapping>, dpt: Datapoints, msgs: seq<SubscribeResponse>): (r: seq<Sample>)
    requires Bound(ms)
    ensures |r| <= |msgs|
  {
    if msgs == [] then []
    else DispatchAll(ms, dpt, msgs[..|msgs| - 1]) + DispatchEffect(ms, dpt, msgs[|msgs| - 1])
  }

  /** The group addresses of the mappings, in configuration order, repeats included. */
  function AddressesOf(ms: seq<Mapping>): seq<string> {
    seq(|ms|, i requires 0 <= i < |ms| => ms[i].knxGroupAddress)
  }

  /** The loop that builds the subscription's address list. */
  method GroupAddresses(ms: seq<Mapping>) returns (addrs: seq<string>)
    ensures addrs == AddressesOf(ms)
  {
    addrs := [];
    for i := 0 to |ms|
      invariant |addrs| == i
      invariant forall j :: 0 <= j < i ==> addrs[j] == ms[j].knxGroupAddress
    {
      addrs := addrs + [ms[i].knxGroupAddress];
    }
  }

  /** How the receive loop ends: cancellation and a clean end are success, anything else is wrapped. */
  function StreamResult(err: Option<Error>): (r: Option<Error>)
    ensures r == None <==> err == None || IsCanceled(err.value)
    ensures r != None ==> r == Some(StreamClosed(err.value))
  {
    if err.Some? && !IsCanceled(err.value) then Some(StreamClosed(err.value)) else None
  }

  lemma ReceivedStep(msgs: seq<SubscribeResponse>, i: nat)
    requires i < |msgs|
    ensures Received(msgs[..i + 1]) ==
      Received(msgs[..i]) + (if Relevant(msgs[i].event) then [msgs[i]] else [])
  {
    assert msgs[..i + 1][..i] == msgs[..i];
  }

  lemma DispatchAllStep(ms: seq<Mapping>, dpt: Datapoints, msgs: seq<SubscribeResponse>, m: SubscribeResponse)
    requires Bound(ms)
    ensures DispatchAll(ms, dpt, msgs + [m]) == DispatchAll(ms, dpt, msgs) + DispatchEffect(ms, dpt, m)
  {
  }

  /**
    Mappings after the first one for an address are never consulted: the
    effect of a message is the same with or without them.
  */
  lemma {:induction false} LaterMappingsNeverSelected(
    ms: seq<Mapping>, rest: seq<Mapping>, dpt: Datapoints, msg: SubscribeResponse)
    requires Bound(ms + rest)
    requires exists i :: 0 <= i < |ms| && ms[i].knxGroupAddress == msg.groupAddress
    ensures Bound(ms)
    ensures Lookup(ms + rest, msg.groupAddress) == Lookup(ms, msg.groupAddress)
    ensures DispatchEffect(ms + rest, dpt, msg) == DispatchEffect(ms, dpt, msg)
  {
    assert forall i :: 0 <= i < |ms| ==> (ms + rest)[i] == ms[i];
    var k := Lookup(ms, msg.groupAddress).value;
    var k' := Lookup(ms + rest, msg.groupAddress);
    assert k'.Some? && k'.value <= k by {
      assert (ms + rest)[k].knxGroupAddress == msg.groupAddress;
    }
    assert k'.value == k;
  }

  /** A message for an address no mapping has records nothing. */
  lemma UnknownAddressRecordsNothing(ms: seq<Mapping>, dpt: Datapoints, msg: SubscribeResponse)
    requires Bound(ms)
    requires forall i :: 0 <= i < |ms| ==> ms[i].knxGroupAddress != msg.groupAddress
    ensures DispatchEffect(ms, dpt, msg) == []
  {
  }

  /** The switch branch is taken for 1001..1999 only; 1000 and 2000 are unrecognised. */
  lemma SwitchRangeBounds()
    ensures DatapointFor(1000) == None && DatapointFor(2000) == None
    ensures DatapointFor(1001) == Some(Switch) && DatapointFor(1999) == Some(Switch)
  {
  }

  /** A switch-type mapping records 1 for a true payload and 0 for anything else, including a malformed one. */
  lemma SwitchRecordsOneOrZero(ms: seq<Mapping>, dpt: Datapoints, msg: SubscribeResponse, k: nat)
    requires Bound(ms)
    requires Lookup(ms, msg.groupAddress) == Some(k)
    requires 1000 < ms[k].metricType < 2000
    ensures DispatchEffect(ms, dpt, msg) ==
      [Sample(ms[k].gauge.value, if dpt.unpackSwitch(msg.data) == Some(true) then 1.0 else 0.0, ms[k].attributeSet)]
  {
  }

  /**
    A recognised type records exactly one sample, on the matching mapping's
    gauge with its attribute set, holding the decoded value or 0 when
    decoding failed.
  */
  lemma RecognisedTypeRecordsOnce(ms: seq<Mapping>, dpt: Datapoints, msg: SubscribeResponse, k: nat, d: Datapoint)
    requires Bound(ms)
    requires Lookup(ms, msg.groupAddress) == Some(k)
    requires DatapointFor(ms[k].metricType) == Some(d)
    ensures |DispatchEffect(ms, dpt, msg)| == 1
    ensures DispatchEffect(ms, dpt, msg)[0].gauge == ms[k].gauge.value
    ensures DispatchEffect(ms, dpt, msg)[0].attributes == ms[k].attributeSet
    ensures Unpack(dpt, d, msg.data).None? ==> DispatchEffect(ms, dpt, msg)[0].value == 0.0
    ensures Unpack(dpt, d, msg.data).Some? ==> DispatchEffect(ms, dpt, msg)[0].value == Unpack(dpt, d, msg.data).value
  {
  }

  /** A type outside the allow-list records nothing. */
  lemma UnrecognisedTypeRecordsNothing(ms: seq<Mapping>, dpt: Datapoints, msg: SubscribeResponse, k: nat)
    requires Bound(ms)
    requires Lookup(ms, msg.groupAddress) == Some(k)
    requires !(1000 < ms[k].metricType < 2000) && ms[k].metricType !in {5001, 9001, 9004, 9005}
    ensures DispatchEffect(ms, dpt, msg) == []
  {
  }

  /** A mapping with an unknown type such as 4242 passes validation, yet its messages record nothing. */
  lemma UnknownTypeValidButSilent(m: Mapping, dpt: Datapoints, msg: SubscribeResponse)
    requires |m.metricName| > 0 && m.metricType == 4242 && m.gauge.Some?
    requires |m.knxGroupAddress| > 0 && m.knxGroupAddress == msg.groupAddress
    ensures ValidateMapping(m) == None
    ensures DispatchEffect([m], dpt, msg) == []
  {
  }

  /** The same message dispatched twice records two equal samples: nothing is deduplicated. */
  lemma DispatchTwice(ms: seq<Mapping>, dpt: Datapoints, msg: SubscribeResponse)
    requires Bound(ms)
    ensures DispatchAll(ms, dpt, [msg, msg]) == DispatchEffect(ms, dpt, msg) + DispatchEffect(ms, dpt, msg)
  {
  }

  /** A stream holding no response or write records nothing. */
  lemma {:induction false} OtherEventsRecordNothing(ms: seq<Mapping>, dpt: Datapoints, msgs: seq<SubscribeResponse>)
    requires Bound(ms)
    requires forall i :: 0 <= i < |msgs| ==> !Relevant(msgs[i].event)
    ensures Received(msgs) == []
    ensures DispatchAll(ms, dpt, Received(msgs)) == []
  {
    if msgs != [] {
      OtherEventsRecordNothing(ms, dpt, msgs[..|msgs| - 1]);
    }
  }
}
