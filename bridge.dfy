/** RecordingBridge, the Android app's single holder of the Flutter event sink. */
module Bridge {
  import opened Channel

  /** One call of a RecordingBridge send function. sendAudio is handed the list of mono samples
      the capture job cuts, so its payload is a list of doubles. */
  datatype Outgoing =
    | OutAudio(samples: seq<real>)
    | OutState(state: string)
    | OutError(message: string)

  /** The map a send function builds. */
  function EventOf(o: Outgoing): (e: Event)
    ensures o.OutAudio? ==> e == Audio(Doubles(o.samples))
    ensures o.OutState? ==> e == State(o.state)
    ensures o.OutError? ==> e == Error(o.message)
  {
    match o
    case OutAudio(samples) => Audio(Doubles(samples))
    case OutState(state) => State(state)
    case OutError(message) => Error(message)
  }

  /** What a sequence of sends delivers to a fixed sink. */
  function Deliveries(sink: Option<nat>, outs: seq<Outgoing>): (ds: seq<Delivery>)
    ensures sink.None? ==> ds == []
    ensures sink.Some? ==> |ds| == |outs|
  {
    if outs == [] then [] else Deliveries(sink, outs[..|outs| - 1]) + Emit(sink, EventOf(outs[|outs| - 1]))
  }

  /** A single send delivers what that send emits. */
  lemma DeliveriesOfOne(sink: Option<nat>, o: Outgoing)
    ensures Deliveries(sink, [o]) == Emit(sink, EventOf(o))
  {
    assert [o][..0] == [];
  }

  /** Two runs of sends deliver what each delivers, one after the other. */
  lemma {:induction false} DeliveriesAppend(sink: Option<nat>, a: seq<Outgoing>, b: seq<Outgoing>)
    ensures Deliveries(sink, a + b) == Deliveries(sink, a) + Deliveries(sink, b)
    decreases |b|
  {
    if b == [] {
      assert a + b == a;
    } else {
      var n := |b| - 1;
      assert (a + b)[..|a + b| - 1] == a + b[..n];
      assert (a + b)[|a + b| - 1] == b[n];
      DeliveriesAppend(sink, a, b[..n]);
    }
  }

  /** With a listener attached, the i-th send is delivered as the i-th map, decoding to its event. */
  lemma {:induction false} DeliveriesInOrder(sink: Option<nat>, outs: seq<Outgoing>)
    requires sink.Some?
    ensures forall i :: 0 <= i < |outs| ==>
              Deliveries(sink, outs)[i].sink == sink.value &&
              Decode(Deliveries(sink, outs)[i].value) == Some(EventOf(outs[i]))
  {
    if outs != [] {
      var n := |outs| - 1;
      DeliveriesInOrder(sink, outs[..n]);
      var ds := Deliveries(sink, outs);
      var before := Deliveries(sink, outs[..n]);
      forall i | 0 <= i < |outs|
        ensures ds[i].sink == sink.value && Decode(ds[i].value) == Some(EventOf(outs[i]))
      {
        if i < n {
          assert ds[i] == before[i] && outs[i] == outs[..n][i];
        }
      }
    }
  }

  class RecordingBridge {
    /** The sink handed over by onListen, if any. */
    var eventSink: Option<nat>
    /** Every map handed to a sink so far. */
    var delivered: seq<Delivery>

    /** No sink is attached until a listener subscribes. */
    constructor ()
      ensures eventSink == None && delivered == []
    {
      eventSink := None;
      delivered := [];
    }

    /** onListen: the sink (possibly null) replaces the previous one. */
    method OnListen(events: Option<nat>)
      modifies this`eventSink
      ensures eventSink == events
    {
      eventSink := events;
    }

    /** onCancel: the sink is dropped. */
    method OnCancel()
      modifies this`eventSink
      ensures eventSink == None
    {
      eventSink := None;
    }

    /** sendAudio: one {type:"audio", data} map for an attached sink, nothing otherwise. */
    method SendAudio(samples: seq<real>)
      modifies this`delivered
      ensures delivered == old(delivered) + Emit(eventSink, Audio(Doubles(samples)))
    {
      if eventSink.Some? {
        delivered := delivered + [Delivery(eventSink.value, Encode(Audio(Doubles(samples))))];
      }
    }

    /** sendState: one {type:"state", value} map for an attached sink, nothing otherwise. */
    method SendState(state: string)
      modifies this`delivered
      ensures delivered == old(delivered) + Emit(eventSink, State(state))
    {
      if eventSink.Some? {
        delivered := delivered + [Delivery(eventSink.value, Encode(State(state)))];
      }
    }

    /** sendError: one {type:"error", message} map for an attached sink, nothing otherwise. */
    method SendError(message: string)
      modifies this`delivered
      ensures delivered == old(delivered) + Emit(eventSink, Error(message))
    {
      if eventSink.Some? {
        delivered := delivered + [Delivery(eventSink.value, Encode(Error(message)))];
      }
    }

    /** The send function that an outgoing call names. */
    method Send(o: Outgoing)
      modifies this`delivered
      ensures delivered == old(delivered) + Emit(eventSink, EventOf(o))
    {
      match o {
        case OutAudio(samples) => SendAudio(samples);
        case OutState(state) => SendState(state);
        case OutError(message) => SendError(message);
      }
    }

    /** A run of sends, in order, all through the sink attached at the time. */
    method SendAll(outs: seq<Outgoing>)
      modifies this`delivered
      ensures delivered == old(delivered) + Deliveries(eventSink, outs)
    {
      for i := 0 to |outs|
        invariant delivered == old(delivered) + Deliveries(eventSink, outs[..i])
      {
        assert outs[..i + 1][..i] == outs[..i];
        Send(outs[i]);
      }
      assert outs[..|outs|] == outs;
    }
  }
}
