/** Values exchanged over the Flutter platform channels "system_audio_recorder/methods"
    and "system_audio_recorder/events", shared by the Windows runner and the Android app. */
module Channel {

  type byte = b: int | 0 <= b < 256

  datatype Option<T> = None | Some(value: T)

  /** The part of Flutter's EncodableValue that the core sends or receives. */
  datatype Value =
    | Null
    | Bool(b: bool)
    | Int32(i: int)
    | Int64(i: int)
    | Str(s: string)
    | Bytes(bytes: seq<byte>)
    | Doubles(samples: seq<real>)
    | List(items: seq<Value>)
    | Map(entries: map<string, Value>)

  /** One notification on the events channel, before it is encoded as a map. */
  datatype Event =
    | Audio(data: Value)
    | State(value: string)
    | Error(message: string)
    | DevicesInfo(devices: seq<Value>)

  /** One map handed to an attached event sink; sinks are told apart by an identity. */
  datatype Delivery = Delivery(sink: nat, value: Value)

  /** The tagged map each event is sent as: {type:"audio", data}, {type:"state", value},
      {type:"error", message} or {type:"devicesInfo", devices}. */
  function Encode(e: Event): (v: Value)
    ensures v.Map? && "type" in v.entries && v.entries["type"].Str?
    ensures |v.entries.Keys| == 2
  {
    match e
    case Audio(data) =>
      var m := map["type" := Str("audio"), "data" := data];
      assert m.Keys == {"type", "data"};
      Map(m)
    case State(value) =>
      var m := map["type" := Str("state"), "value" := Str(value)];
      assert m.Keys == {"type", "value"};
      Map(m)
    case Error(message) =>
      var m := map["type" := Str("error"), "message" := Str(message)];
      assert m.Keys == {"type", "message"};
      Map(m)
    case DevicesInfo(devices) =>
      var m := map["type" := Str("devicesInfo"), "devices" := List(devices)];
      assert m.Keys == {"type", "devices"};
      Map(m)
  }

  /** How a listener reads an event map back: the "type" tag selects the payload key. */
  function Decode(v: Value): (r: Option<Event>)
    ensures r.Some? ==> v.Map? && "type" in v.entries
  {
    if !v.Map? || "type" !in v.entries || !v.entries["type"].Str? then None
    else
      var m := v.entries;
      var tag := m["type"].s;
      if tag == "audio" && m.Keys == {"type", "data"} then
        Some(Audio(m["data"]))
      else if tag == "state" && m.Keys == {"type", "value"} && m["value"].Str? then
        Some(State(m["value"].s))
      else if tag == "error" && m.Keys == {"type", "message"} && m["message"].Str? then
        Some(Error(m["message"].s))
      else if tag == "devicesInfo" && m.Keys == {"type", "devices"} && m["devices"].List? then
        Some(DevicesInfo(m["devices"].items))
      else None
  }

  /** Every event map decodes to the event it was built from. */
  lemma DecodeEncode(e: Event)
    ensures Decode(Encode(e)) == Some(e)
  {
    var v := Encode(e);
    match e
    case Audio(data) =>
      assert v.entries.Keys == {"type", "data"};
    case State(value) =>
      assert v.entries.Keys == {"type", "value"};
    case Error(message) =>
      assert v.entries.Keys == {"type", "message"};
    case DevicesInfo(devices) =>
      assert v.entries.Keys == {"type", "devices"};
  }

  /** Distinct events are sent as distinct maps. */
  lemma EncodeInjective(e1: Event, e2: Event)
    requires Encode(e1) == Encode(e2)
    ensures e1 == e2
  {
    DecodeEncode(e1);
    DecodeEncode(e2);
  }

  /** What one send produces: one map for the attached sink, or nothing when no listener
      is attached (the event is dropped, not kept for a later listener). */
  function Emit(sink: Option<nat>, e: Event): (out: seq<Delivery>)
    ensures sink.None? ==> out == []
    ensures sink.Some? ==> |out| == 1 && out[0].sink == sink.value && Decode(out[0].value) == Some(e)
  {
    DecodeEncode(e);
    if sink.Some? then [Delivery(sink.value, Encode(e))] else []
  }
}
