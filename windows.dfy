/** The Windows runner's audio capture controller (FlutterWindow in windows/runner/flutter_window.cpp):
    method-call handling, WASAPI session setup and capture loop over a scripted driver,
    endpoint enumeration, and the posted-event bookkeeping that hands events to the UI thread. */
module WindowsCapture {
  import opened Channel

  // ---------------------------------------------------------------------------
  // HRESULTs and integer casts

  const S_OK: int := 0
  const S_FALSE: int := 1

  /** The FAILED macro: an HRESULT is a failure iff it is negative as a 32-bit value. */
  predicate Failed(hr: int) { hr < 0 }

  const WORD_LIMIT: nat := 0x1_0000
  const DWORD_LIMIT: nat := 0x1_0000_0000

  /** static_cast<WORD>: keeps the low 16 bits (modulo 2^16, also for negative ints). */
  function Word(x: int): (w: nat)
    ensures w < WORD_LIMIT && (x - w) % WORD_LIMIT == 0
    ensures 0 <= x < WORD_LIMIT ==> w == x
  {
    x % WORD_LIMIT
  }

  /** Unsigned 32-bit arithmetic (DWORD, UINT32) wraps modulo 2^32. */
  function Dword(x: int): (d: nat)
    ensures d < DWORD_LIMIT && (x - d) % DWORD_LIMIT == 0
    ensures 0 <= x < DWORD_LIMIT ==> d == x
  {
    x % DWORD_LIMIT
  }

  // ---------------------------------------------------------------------------
  // startRecording arguments

  datatype MethodError = MethodError(code: string, message: string)

  datatype StartRequest = StartRequest(
    deviceId: string, captureType: string, sampleRate: int, channels: int, bitsPerSample: int)

  datatype ParseResult = Accepted(request: StartRequest) | Rejected(error: MethodError)

  const INVALID_ARGUMENTS := MethodError("INVALID_ARGUMENTS", "Expected argument map for startRecording")
  const MISSING_DEVICE_ID := MethodError("MISSING_ARGUMENT", "Missing required argument: deviceId")
  const MISSING_CAPTURE_TYPE :=
    MethodError("MISSING_ARGUMENT", "Missing required argument: captureType - capture | loopback")

  const DEFAULT_SAMPLE_RATE: int := 44100
  const DEFAULT_CHANNELS: int := 1
  const DEFAULT_BITS_PER_SAMPLE: int := 16

  /** getStringArg: the string stored under the key, if the key is present and holds a string. */
  function StringArg(args: map<string, Value>, key: string): (r: Option<string>)
    ensures r.Some? <==> key in args && args[key].Str?
    ensures r.Some? ==> r.value == args[key].s
  {
    if key in args && args[key].Str? then Some(args[key].s) else None
  }

  /** getIntArg: the value stored under the key if it is a 32-bit int, else the default. */
  function IntArg(args: map<string, Value>, key: string, default: int): (r: int)
    ensures key in args && args[key].Int32? ==> r == args[key].i
    ensures !(key in args && args[key].Int32?) ==> r == default
  {
    if key in args && args[key].Int32? then args[key].i else default
  }

  /** The key holds a non-empty string. */
  predicate HasText(args: map<string, Value>, key: string) {
    key in args && args[key].Str? && args[key].s != ""
  }

  /** Validation of the startRecording argument map, with its integer defaults. */
  function ParseStartArgs(arguments: Value): (r: ParseResult)
    ensures !arguments.Map? ==> r == Rejected(INVALID_ARGUMENTS)
    ensures arguments.Map? && !HasText(arguments.entries, "deviceId") ==> r == Rejected(MISSING_DEVICE_ID)
    ensures (arguments.Map? && HasText(arguments.entries, "deviceId") &&
             !HasText(arguments.entries, "captureType")) ==> r == Rejected(MISSING_CAPTURE_TYPE)
    ensures r.Accepted? <==>
              arguments.Map? && HasText(arguments.entries, "deviceId") && HasText(arguments.entries, "captureType")
    ensures r.Accepted? ==>
              var args := arguments.entries;
              r.request.deviceId == args["deviceId"].s && r.request.captureType == args["captureType"].s &&
              r.request.sampleRate == IntArg(args, "sampleRate", 44100) &&
              r.request.channels == IntArg(args, "channels", 1) &&
              r.request.bitsPerSample == IntArg(args, "bitsPerSample", 16)
  {
    if !arguments.Map? then Rejected(INVALID_ARGUMENTS)
    else
      var args := arguments.entries;
      var deviceId := StringArg(args, "deviceId");
      var captureType := StringArg(args, "captureType");
      if deviceId.None? || deviceId.value == "" then Rejected(MISSING_DEVICE_ID)
      else if captureType.None? || captureType.value == "" then Rejected(MISSING_CAPTURE_TYPE)
      else
        Accepted(StartRequest(deviceId.value, captureType.value,
                              IntArg(args, "sampleRate", DEFAULT_SAMPLE_RATE),
                              IntArg(args, "channels", DEFAULT_CHANNELS),
                              IntArg(args, "bitsPerSample", DEFAULT_BITS_PER_SAMPLE)))
  }

  /** A numeric argument that is absent, or not a 32-bit int, takes its default. */
  lemma StartArgsDefaults(args: map<string, Value>, deviceId: string, captureType: string)
    requires deviceId != "" && captureType != ""
    requires forall key :: key in args ==> key == "deviceId" || key == "captureType" || !args[key].Int32?
    ensures ParseStartArgs(Map(args["deviceId" := Str(deviceId)]["captureType" := Str(captureType)]))
            == Accepted(StartRequest(deviceId, captureType, 44100, 1, 16))
  {
    var m := args["deviceId" := Str(deviceId)]["captureType" := Str(captureType)];
    assert HasText(m, "deviceId") && HasText(m, "captureType");
    assert !("sampleRate" in m && m["sampleRate"].Int32?);
    assert !("channels" in m && m["channels"].Int32?);
    assert !("bitsPerSample" in m && m["bitsPerSample"].Int32?);
  }

  // ---------------------------------------------------------------------------
  // The requested wave format (WAVEFORMATEX) and its negotiation

  const WAVE_FORMAT_PCM: nat := 1

  datatype WaveFormat = WaveFormat(
    formatTag: nat, channels: nat, samplesPerSec: nat, avgBytesPerSec: nat,
    blockAlign: nat, bitsPerSample: nat, cbSize: nat)

  /** The format CaptureAudio asks for. Every field goes through a WORD cast, the sample rate
      included, and the two derived fields follow the WAVEFORMATEX rules for PCM. */
  function RequestedFormat(sampleRate: int, channels: int, bitsPerSample: int): (f: WaveFormat)
    ensures f.formatTag == WAVE_FORMAT_PCM && f.cbSize == 0
    ensures f.channels == Word(channels) && f.bitsPerSample == Word(bitsPerSample)
    ensures f.samplesPerSec == Word(sampleRate)
    ensures f.blockAlign == Word(f.channels * f.bitsPerSample / 8)
    ensures f.avgBytesPerSec == Dword(f.samplesPerSec * f.blockAlign)
  {
    var nChannels := Word(channels);
    var nSamplesPerSec := Word(sampleRate);
    var wBitsPerSample := Word(bitsPerSample);
    var nBlockAlign := Word(nChannels * wBitsPerSample / 8);
    var nAvgBytesPerSec := Dword(nSamplesPerSec * nBlockAlign);
    WaveFormat(WAVE_FORMAT_PCM, nChannels, nSamplesPerSec, nAvgBytesPerSec, nBlockAlign, wBitsPerSample, 0)
  }

  /** The PCM consistency rules of WAVEFORMATEX: a frame is one sample per channel, and the
      byte rate is the frame size times the frame rate. */
  predicate PcmConsistent(f: WaveFormat) {
    f.formatTag == WAVE_FORMAT_PCM &&
    f.blockAlign * 8 == f.channels * f.bitsPerSample &&
    f.avgBytesPerSec == f.samplesPerSec * f.blockAlign
  }

  /** In range, the requested format is exactly the PCM format the caller asked for. */
  lemma PcmFrameSize(channels: nat, bytesPerSample: nat)
    requires 1 <= channels <= 8 && 1 <= bytesPerSample <= 4
    ensures channels * (8 * bytesPerSample) / 8 == channels * bytesPerSample <= 32
  {
    assert channels * (8 * bytesPerSample) == 8 * (channels * bytesPerSample);
    assert channels * bytesPerSample <= 8 * bytesPerSample;
  }

  lemma ByteRateFits(rate: nat, align: nat)
    requires rate < WORD_LIMIT && align <= 32
    ensures rate * align < DWORD_LIMIT
  {
    assert rate * align <= rate * 32;
  }

  lemma RequestedFormatIsPcm(sampleRate: int, channels: int, bytesPerSample: int)
    requires 0 <= sampleRate < WORD_LIMIT
    requires 1 <= channels <= 8 && 1 <= bytesPerSample <= 4
    ensures var f := RequestedFormat(sampleRate, channels, 8 * bytesPerSample);
            PcmConsistent(f) && f.samplesPerSec == sampleRate &&
            f.channels == channels && f.bitsPerSample == 8 * bytesPerSample
  {
    var f := RequestedFormat(sampleRate, channels, 8 * bytesPerSample);
    PcmFrameSize(channels, bytesPerSample);
    assert f.blockAlign == channels * bytesPerSample;
    ByteRateFits(sampleRate, f.blockAlign);
  }

  /** The WORD cast keeps only the low 16 bits of the rate: 48000 survives, 96000 becomes 30464. */
  lemma RequestedRateIsTruncated()
    ensures RequestedFormat(48000, 2, 16).samplesPerSec == 48000
    ensures RequestedFormat(96000, 2, 16).samplesPerSec == 30464
    ensures RequestedFormat(96000, 2, 16).avgBytesPerSec == 30464 * 4
  {
  }

  /** The IsFormatSupported decision: S_FALSE with a closest format adopts that format, a FAILED
      result rejects the request, and any other result keeps the requested format verbatim. */
  function Negotiate(requested: WaveFormat, hr: int, closest: Option<WaveFormat>): (n: Option<WaveFormat>)
    ensures n.None? <==> Failed(hr)
    ensures hr == S_FALSE && closest.Some? ==> n == closest
    ensures !Failed(hr) && !(hr == S_FALSE && closest.Some?) ==> n == Some(requested)
  {
    if hr == S_FALSE && closest.Some? then closest
    else if Failed(hr) then None
    else Some(requested)
  }

  // ---------------------------------------------------------------------------
  // The scripted driver

  /** One packet as the driver reports it: the size GetNextPacketSize announced for it, then
      GetBuffer's HRESULT, frame count and the bytes at the address it returned. */
  datatype Packet = Packet(announced: nat, hr: int, frames: nat, memory: nat -> byte)

  /** One return of WaitForSingleObject: whether the event was signalled, and the packets
      queued at that point. */
  datatype Wake = Wake(signalled: bool, packets: seq<Packet>)

  /** What the OS answers during one session: the HRESULT of each setup step, then the wakes of
      the capture loop. liveReads is how many reads of is_capturing_ return true before the
      stop request lands (the flag only goes from true to false while a thread runs). */
  datatype SessionEnv = SessionEnv(
    getDeviceHr: int, activateHr: int, formatHr: int, closest: Option<WaveFormat>,
    eventCreated: bool, initializeHr: int, setEventHandleHr: int, getServiceHr: int,
    wakes: seq<Wake>, liveReads: nat)

  /** The driver signals at least once for every wait the thread enters while capturing. */
  predicate DriverKeepsSignalling(env: SessionEnv) {
    env.liveReads <= |env.wakes|
  }

  // ---------------------------------------------------------------------------
  // Session setup (AudioCaptureThread and the first half of CaptureAudio)

  const AUDCLNT_STREAMFLAGS_LOOPBACK: nat := 0x0002_0000
  const AUDCLNT_STREAMFLAGS_EVENTCALLBACK: nat := 0x0004_0000
  /** The Initialize buffer duration, in 100-ns units: one second. */
  const BUFFER_DURATION: nat := 10_000_000

  predicate HasFlag(flags: nat, bit: nat)
    requires bit > 0
  {
    (flags / bit) % 2 == 1
  }

  /** The arguments CaptureAudio passes to IAudioClient::Initialize. */
  datatype StreamInit = StreamInit(flags: nat, bufferDuration: nat, format: WaveFormat)

  datatype Setup =
    | SetupFailed(error: string, audioClientSet: bool)
    | SetupSkipped
    | SetupReady(init: StreamInit)

  /** The setup sequence: every failing step stops it with its own error message; an unknown
      capture type does nothing; otherwise the stream is initialised and capture starts. */
  function SetupSession(hasEnumerator: bool, req: StartRequest, env: SessionEnv): Setup
  {
    if !hasEnumerator then SetupFailed("Device enumerator not available", false)
    else if Failed(env.getDeviceHr) then SetupFailed("Failed to get audio device", false)
    else if req.captureType != "capture" && req.captureType != "loopback" then SetupSkipped
    else
      var loopback := req.captureType == "loopback";
      if Failed(env.activateHr) then SetupFailed("Failed to activate audio client", false)
      else
        var requested := RequestedFormat(req.sampleRate, req.channels, req.bitsPerSample);
        match Negotiate(requested, env.formatHr, env.closest)
        case None => SetupFailed("Requested audio format not supported", true)
        case Some(format) =>
          if !env.eventCreated then SetupFailed("Failed to create event handle", true)
          else if Failed(env.initializeHr) then
            SetupFailed(if loopback then "Failed to initialize audio client (system loopback)"
                        else "Failed to initialize audio client (microphone)", true)
          else if Failed(env.setEventHandleHr) then SetupFailed("Failed to set event handle", true)
          else if Failed(env.getServiceHr) then SetupFailed("Failed to get capture client", true)
          else
            var flags := if loopback then AUDCLNT_STREAMFLAGS_LOOPBACK + AUDCLNT_STREAMFLAGS_EVENTCALLBACK
                         else AUDCLNT_STREAMFLAGS_EVENTCALLBACK;
            SetupReady(StreamInit(flags, BUFFER_DURATION, format))
  }

  /** Setup succeeds iff every step does; only an unknown capture type skips it; a rejected format
      stops setup with its own message. */
  lemma SetupOutcome(hasEnumerator: bool, req: StartRequest, env: SessionEnv)
    ensures var s := SetupSession(hasEnumerator, req, env);
            var recognised := req.captureType == "capture" || req.captureType == "loopback";
            (s.SetupReady? <==>
               hasEnumerator && !Failed(env.getDeviceHr) && recognised &&
               !Failed(env.activateHr) && !Failed(env.formatHr) && env.eventCreated &&
               !Failed(env.initializeHr) && !Failed(env.setEventHandleHr) && !Failed(env.getServiceHr)) &&
            (s.SetupSkipped? <==> hasEnumerator && !Failed(env.getDeviceHr) && !recognised) &&
            ((hasEnumerator && !Failed(env.getDeviceHr) && recognised && !Failed(env.activateHr) &&
              Failed(env.formatHr)) ==> s == SetupFailed("Requested audio format not supported", true))
  {
    var recognised := req.captureType == "capture" || req.captureType == "loopback";
    if hasEnumerator && !Failed(env.getDeviceHr) && recognised && !Failed(env.activateHr) {
      var requested := RequestedFormat(req.sampleRate, req.channels, req.bitsPerSample);
      assert Negotiate(requested, env.formatHr, env.closest).None? <==> Failed(env.formatHr);
    }
  }

  /** A successful setup asks for event-driven buffering of one second, in loopback mode iff the
      capture type says so, with the negotiated format. */
  lemma SetupStreamInit(hasEnumerator: bool, req: StartRequest, env: SessionEnv)
    requires SetupSession(hasEnumerator, req, env).SetupReady?
    ensures var init := SetupSession(hasEnumerator, req, env).init;
            HasFlag(init.flags, AUDCLNT_STREAMFLAGS_EVENTCALLBACK) &&
            (HasFlag(init.flags, AUDCLNT_STREAMFLAGS_LOOPBACK) <==> req.captureType == "loopback") &&
            init.bufferDuration == 10_000_000 &&
            Some(init.format) ==
              Negotiate(RequestedFormat(req.sampleRate, req.channels, req.bitsPerSample), env.formatHr, env.closest)
  {
    assert (AUDCLNT_STREAMFLAGS_LOOPBACK + AUDCLNT_STREAMFLAGS_EVENTCALLBACK) / AUDCLNT_STREAMFLAGS_EVENTCALLBACK == 1;
    assert (AUDCLNT_STREAMFLAGS_LOOPBACK + AUDCLNT_STREAMFLAGS_EVENTCALLBACK) / AUDCLNT_STREAMFLAGS_LOOPBACK == 3;
    assert AUDCLNT_STREAMFLAGS_EVENTCALLBACK / AUDCLNT_STREAMFLAGS_LOOPBACK == 2;
  }

  // ---------------------------------------------------------------------------
  // The capture loop (second half of CaptureAudio)

  /** What the capture loop does with the driver: the audio payloads it sends, and the frame
      counts of the packets it acquired (GetBuffer) and released (ReleaseBuffer), in order. */
  datatype Trace = Trace(audio: seq<seq<byte>>, acquired: seq<nat>, released: seq<nat>)

  const NoTrace := Trace([], [], [])

  function Then(a: Trace, b: Trace): Trace {
    Trace(a.audio + b.audio, a.acquired + b.acquired, a.released + b.released)
  }

  lemma ThenAssociative(a: Trace, b: Trace, c: Trace)
    ensures Then(Then(a, b), c) == Then(a, Then(b, c))
  {
    assert (a.audio + b.audio) + c.audio == a.audio + (b.audio + c.audio);
    assert (a.acquired + b.acquired) + c.acquired == a.acquired + (b.acquired + c.acquired);
    assert (a.released + b.released) + c.released == a.released + (b.released + c.released);
  }

  lemma ThenNoTrace(a: Trace)
    ensures Then(a, NoTrace) == a && Then(NoTrace, a) == a
  {
    assert a.audio + [] == a.audio && [] + a.audio == a.audio;
    assert a.acquired + [] == a.acquired && [] + a.acquired == a.acquired;
    assert a.released + [] == a.released && [] + a.released == a.released;
  }

  /** buffer_size = frames_available * nBlockAlign, computed in UINT32. */
  function PacketBytes(frames: nat, blockAlign: nat): (n: nat)
    ensures n < DWORD_LIMIT
    ensures frames * blockAlign < DWORD_LIMIT ==> n == frames * blockAlign
  {
    Dword(frames * blockAlign)
  }

  /** The copy std::vector<uint8_t>(data, data + n) makes of a packet's bytes. */
  function Copy(p: Packet, n: nat): (bytes: seq<byte>)
    ensures |bytes| == n && forall i :: 0 <= i < n ==> bytes[i] == p.memory(i)
  {
    seq<byte>(n, i requires 0 <= i < n => p.memory(i))
  }

  /** One round of the inner loop: a successful GetBuffer yields one audio payload when it holds
      any bytes, and the packet is released with its own frame count. */
  function PacketStep(p: Packet, blockAlign: nat): (t: Trace)
    ensures Failed(p.hr) ==> t == NoTrace
    ensures !Failed(p.hr) ==> t.acquired == [p.frames] && t.released == [p.frames]
    ensures !Failed(p.hr) ==>
              t.audio == (if PacketBytes(p.frames, blockAlign) > 0 then [Copy(p, PacketBytes(p.frames, blockAlign))] else [])
  {
    if Failed(p.hr) then NoTrace
    else
      var n := PacketBytes(p.frames, blockAlign);
      Trace(if n > 0 then [Copy(p, n)] else [], [p.frames], [p.frames])
  }

  /** GetNextPacketSize before packet k of a wake: zero once the wake's packets are used up. */
  function NextPacketSize(packets: seq<Packet>, k: nat): nat {
    if k < |packets| then packets[k].announced else 0
  }

  /** The inner loop from packet k on, with `live` reads of the flag still returning true:
      what it does, and how many true reads are left afterwards. */
  function Drain(packets: seq<Packet>, k: nat, live: nat, blockAlign: nat): (r: (Trace, nat))
    ensures r.1 <= live
    decreases |packets| - k
  {
    if NextPacketSize(packets, k) != 0 && live > 0 then
      var rest := Drain(packets, k + 1, live - 1, blockAlign);
      (Then(PacketStep(packets[k], blockAlign), rest.0), rest.1)
    else (NoTrace, live)
  }

  /** The outer loop from wake i on: one flag read at the top, one more after a signalled wait,
      then the drain. It ends exactly when a read of the flag returns false. */
  function Loop(wakes: seq<Wake>, i: nat, live: nat, blockAlign: nat): Trace
    requires i + live <= |wakes|
    decreases live
  {
    if live == 0 then NoTrace
    else if wakes[i].signalled && live - 1 > 0 then
      var d := Drain(wakes[i].packets, 0, live - 2, blockAlign);
      Then(d.0, Loop(wakes, i + 1, d.1, blockAlign))
    else Loop(wakes, i + 1, live - 1, blockAlign)
  }

  /** One GetBuffer / ReleaseBuffer round: the acquired frame count, the copied payload when it holds
      any bytes, and the released frame count are appended to the trace so far. */
  method HandlePacket(p: Packet, blockAlign: nat, t0: Trace) returns (t: Trace)
    ensures t == Then(t0, PacketStep(p, blockAlign))
  {
    t := t0;
    if !Failed(p.hr) {
      t := t.(acquired := t.acquired + [p.frames]);
      var bufferSize := PacketBytes(p.frames, blockAlign);
      if bufferSize > 0 {
        var audioData := Copy(p, bufferSize);
        t := t.(audio := t.audio + [audioData]);
      }
      t := t.(released := t.released + [p.frames]);
    } else {
      ThenNoTrace(t0);
    }
  }

  /** The inner loop of CaptureAudio over the packets of one wake, with `live0` true reads of the
      flag left: it extends the trace by the drain and leaves the reads the drain did not use. */
  method DrainPackets(packets: seq<Packet>, live0: nat, blockAlign: nat, t0: Trace) returns (t: Trace, live: nat)
    ensures t == Then(t0, Drain(packets, 0, live0, blockAlign).0)
    ensures live == Drain(packets, 0, live0, blockAlign).1
  {
    ghost var total := Drain(packets, 0, live0, blockAlign);
    ThenNoTrace(t0);
    t, live := t0, live0;
    var k: nat := 0;
    var packetLength := NextPacketSize(packets, 0);
    while packetLength != 0 && live > 0
      invariant k <= |packets|
      invariant packetLength == NextPacketSize(packets, k)
      invariant Then(t, Drain(packets, k, live, blockAlign).0) == Then(t0, total.0)
      invariant Drain(packets, k, live, blockAlign).1 == total.1
      decreases |packets| - k
    {
      ghost var before := t;
      ghost var rest := Drain(packets, k + 1, live - 1, blockAlign);
      ghost var step := PacketStep(packets[k], blockAlign);
      assert Drain(packets, k, live, blockAlign) == (Then(step, rest.0), rest.1);
      live := live - 1;
      t := HandlePacket(packets[k], blockAlign, t);
      ThenAssociative(before, step, rest.0);
      k := k + 1;
      packetLength := NextPacketSize(packets, k);
    }
    ThenNoTrace(t);
  }

  /** The nested capture loop of CaptureAudio, run against the scripted driver. */
  method CaptureLoop(wakes: seq<Wake>, liveReads: nat, blockAlign: nat) returns (t: Trace)
    requires liveReads <= |wakes|
    ensures t == Loop(wakes, 0, liveReads, blockAlign)
  {
    ghost var total := Loop(wakes, 0, liveReads, blockAlign);
    ThenNoTrace(total);
    t := NoTrace;
    var live: nat := liveReads;
    var i: nat := 0;
    while live > 0
      invariant i + live <= |wakes|
      invariant Then(t, Loop(wakes, i, live, blockAlign)) == total
      decreases live
    {
      live := live - 1;
      var w := wakes[i];
      i := i + 1;
      if w.signalled && live > 0 {
        live := live - 1;
        ghost var before := t;
        ghost var d := Drain(w.packets, 0, live, blockAlign);
        t, live := DrainPackets(w.packets, live, blockAlign, t);
        ThenAssociative(before, d.0, Loop(wakes, i, d.1, blockAlign));
      }
    }
    ThenNoTrace(t);
  }

  /** Every packet the drain acquires it releases, with the same frame count, in the same order. */
  lemma {:induction false} DrainReleasesWhatItAcquires(packets: seq<Packet>, k: nat, live: nat, blockAlign: nat)
    ensures Drain(packets, k, live, blockAlign).0.released == Drain(packets, k, live, blockAlign).0.acquired
    decreases |packets| - k
  {
    if NextPacketSize(packets, k) != 0 && live > 0 {
      DrainReleasesWhatItAcquires(packets, k + 1, live - 1, blockAlign);
    }
  }

  lemma {:induction false} LoopReleasesWhatItAcquires(wakes: seq<Wake>, i: nat, live: nat, blockAlign: nat)
    requires i + live <= |wakes|
    ensures Loop(wakes, i, live, blockAlign).released == Loop(wakes, i, live, blockAlign).acquired
    decreases live
  {
    if live == 0 {
    } else if wakes[i].signalled && live - 1 > 0 {
      var d := Drain(wakes[i].packets, 0, live - 2, blockAlign);
      DrainReleasesWhatItAcquires(wakes[i].packets, 0, live - 2, blockAlign);
      LoopReleasesWhatItAcquires(wakes, i + 1, d.1, blockAlign);
    } else {
      LoopReleasesWhatItAcquires(wakes, i + 1, live - 1, blockAlign);
    }
  }

  /** Each handled packet costs one true read of the flag, and the drain never reads past a
      packet whose announced size is zero. */
  lemma {:induction false} DrainStopsAtEmptyOrStop(packets: seq<Packet>, k: nat, j: nat, live: nat, blockAlign: nat)
    requires k <= j && NextPacketSize(packets, j) == 0
    ensures var d := Drain(packets, k, live, blockAlign);
            |d.0.acquired| <= live - d.1 && |d.0.acquired| <= j - k
    decreases |packets| - k
  {
    if NextPacketSize(packets, k) != 0 && live > 0 {
      DrainStopsAtEmptyOrStop(packets, k + 1, j, live - 1, blockAlign);
    }
  }

  /** The inner loop does not stop early: it ends only when the flag reads false (no true reads
      left) or when GetNextPacketSize announces zero for the packet after the handled ones. */
  lemma {:induction false} DrainRunsToEmptyOrStop(packets: seq<Packet>, k: nat, live: nat, blockAlign: nat)
    ensures var d := Drain(packets, k, live, blockAlign);
            d.1 == 0 || NextPacketSize(packets, k + (live - d.1)) == 0
    decreases |packets| - k
  {
    if NextPacketSize(packets, k) != 0 && live > 0 {
      DrainRunsToEmptyOrStop(packets, k + 1, live - 1, blockAlign);
    }
  }

  /** Every audio payload holds at least one byte and fewer than 2^32, and there are never more
      payloads than acquired packets. */
  ghost predicate AudioWellSized(t: Trace) {
    |t.audio| <= |t.acquired| && forall j :: 0 <= j < |t.audio| ==> 0 < |t.audio[j]| < DWORD_LIMIT
  }

  lemma ThenWellSized(a: Trace, b: Trace)
    requires AudioWellSized(a) && AudioWellSized(b)
    ensures AudioWellSized(Then(a, b))
  {
    var c := Then(a, b);
    forall j | 0 <= j < |c.audio|
      ensures 0 < |c.audio[j]| < DWORD_LIMIT
    {
      if j < |a.audio| {
        assert c.audio[j] == a.audio[j];
      } else {
        assert c.audio[j] == b.audio[j - |a.audio|];
      }
    }
  }

  lemma {:induction false} DrainAudioWellSized(packets: seq<Packet>, k: nat, live: nat, blockAlign: nat)
    ensures AudioWellSized(Drain(packets, k, live, blockAlign).0)
    decreases |packets| - k
  {
    if NextPacketSize(packets, k) != 0 && live > 0 {
      DrainAudioWellSized(packets, k + 1, live - 1, blockAlign);
      ThenWellSized(PacketStep(packets[k], blockAlign), Drain(packets, k + 1, live - 1, blockAlign).0);
    }
  }

  lemma {:induction false} LoopAudioWellSized(wakes: seq<Wake>, i: nat, live: nat, blockAlign: nat)
    requires i + live <= |wakes|
    ensures AudioWellSized(Loop(wakes, i, live, blockAlign))
    decreases live
  {
    if live == 0 {
    } else if wakes[i].signalled && live - 1 > 0 {
      var d := Drain(wakes[i].packets, 0, live - 2, blockAlign);
      DrainAudioWellSized(wakes[i].packets, 0, live - 2, blockAlign);
      LoopAudioWellSized(wakes, i + 1, d.1, blockAlign);
      ThenWellSized(d.0, Loop(wakes, i + 1, d.1, blockAlign));
    } else {
      LoopAudioWellSized(wakes, i + 1, live - 1, blockAlign);
    }
  }

  // ---------------------------------------------------------------------------
  // The capture thread

  /** One call of a Send*Event function. */
  datatype Send =
    | SendAudio(data: seq<byte>)
    | SendState(state: string)
    | SendError(message: string)
    | SendDevices(devices: seq<Value>)

  function AudioSends(audio: seq<seq<byte>>): (sends: seq<Send>)
    ensures |sends| == |audio|
    ensures forall i :: 0 <= i < |audio| ==> sends[i] == SendAudio(audio[i])
  {
    seq(|audio|, i requires 0 <= i < |audio| => SendAudio(audio[i]))
  }

  /** The events the capture thread sends during one session, in order. */
  function ThreadSends(hasEnumerator: bool, req: StartRequest, env: SessionEnv): seq<Send>
    requires DriverKeepsSignalling(env)
  {
    match SetupSession(hasEnumerator, req, env)
    case SetupFailed(error, _) => [SendError(error)]
    case SetupSkipped => []
    case SetupReady(init) =>
      [SendState("recordingStarted")] + AudioSends(Loop(env.wakes, 0, env.liveReads, init.format.blockAlign).audio)
  }

  /** "recordingStarted" is sent iff every setup step succeeded; a failing step sends exactly one
      error and nothing else; an unknown capture type sends nothing. */
  lemma ThreadSendsAnnounceOutcome(hasEnumerator: bool, req: StartRequest, env: SessionEnv)
    requires DriverKeepsSignalling(env)
    ensures var sends := ThreadSends(hasEnumerator, req, env);
            var s := SetupSession(hasEnumerator, req, env);
            (SendState("recordingStarted") in sends <==> s.SetupReady?) &&
            (s.SetupFailed? ==> sends == [SendError(s.error)]) &&
            (s.SetupSkipped? ==> sends == []) &&
            (s.SetupReady? ==> sends[0] == SendState("recordingStarted") &&
                               forall j :: 1 <= j < |sends| ==> sends[j].SendAudio?)
  {
    var s := SetupSession(hasEnumerator, req, env);
    if s.SetupReady? {
      var audio := AudioSends(Loop(env.wakes, 0, env.liveReads, s.init.format.blockAlign).audio);
      assert forall x :: x in audio ==> x.SendAudio?;
    }
  }

  /** What one capture thread leaves behind: the events it sent, whether it left audio_client_ and
      capture_client_ set, the Initialize call it made, and its packet trace. */
  datatype ThreadRun = ThreadRun(
    sends: seq<Send>, audioClientSet: bool, captureClientSet: bool,
    init: Option<StreamInit>, acquired: seq<nat>, released: seq<nat>)

  /** How a thread's client pointers, Initialize call and packet trace follow from its setup. */
  ghost predicate RunFollowsSetup(run: ThreadRun, hasEnumerator: bool, req: StartRequest, env: SessionEnv)
    requires DriverKeepsSignalling(env)
  {
    match SetupSession(hasEnumerator, req, env)
    case SetupFailed(_, clientSet) =>
      run.audioClientSet == clientSet && !run.captureClientSet && run.init.None? && run.acquired == []
    case SetupSkipped =>
      !run.audioClientSet && !run.captureClientSet && run.init.None? && run.acquired == []
    case SetupReady(init) =>
      run.audioClientSet && run.captureClientSet && run.init == Some(init) &&
      run.acquired == Loop(env.wakes, 0, env.liveReads, init.format.blockAlign).acquired
  }

  /** AudioCaptureThread with CaptureAudio: setup, then the capture loop with the negotiated block alignment. */
  method AudioCaptureThread(hasEnumerator: bool, req: StartRequest, env: SessionEnv) returns (run: ThreadRun)
    requires DriverKeepsSignalling(env)
    ensures run.sends == ThreadSends(hasEnumerator, req, env)
    ensures run.released == run.acquired
    ensures RunFollowsSetup(run, hasEnumerator, req, env)
  {
    var setup := SetupSession(hasEnumerator, req, env);
    match setup {
      case SetupFailed(error, clientSet) =>
        run := ThreadRun([SendError(error)], clientSet, false, None, [], []);
      case SetupSkipped =>
        run := ThreadRun([], false, false, None, [], []);
      case SetupReady(init) =>
        var t := CaptureLoop(env.wakes, env.liveReads, init.format.blockAlign);
        LoopReleasesWhatItAcquires(env.wakes, 0, env.liveReads, init.format.blockAlign);
        run := ThreadRun([SendState("recordingStarted")] + AudioSends(t.audio), true, true, Some(init),
                         t.acquired, t.released);
    }
  }

  // ---------------------------------------------------------------------------
  // Endpoint enumeration

  datatype Role = CaptureRole | RenderRole

  /** One Item(i) lookup of a device collection: its HRESULT and, when it succeeds, the
      device's id, friendly name and description. */
  datatype Item = Item(hr: int, id: string, name: string, description: string)

  /** What EnumAudioEndpoints and GetDefaultAudioEndpoint answer for one data flow. */
  datatype RoleScript = RoleScript(enumHr: int, defaultId: Option<string>, items: seq<Item>)

  datatype Directory = Directory(capture: RoleScript, render: RoleScript)

  function RoleName(role: Role): string {
    if role == CaptureRole then "input" else "output"
  }

  /** The map EnumerateDevices builds for one device. */
  function DeviceRecord(item: Item, role: Role, defaultId: Option<string>): Value {
    Map(map["id" := Str(item.id), "name" := Str(item.name), "description" := Str(item.description),
            "isActive" := Bool(true), "isDefault" := Bool(defaultId.Some? && defaultId.value == item.id),
            "type" := Str(RoleName(role))])
  }

  /** A device record carries exactly the six documented keys: the device's id, name and
      description, isActive always true, isDefault iff the id is the default endpoint's, and the
      type of its data flow. */
  lemma DeviceRecordFields(item: Item, role: Role, defaultId: Option<string>)
    ensures var v := DeviceRecord(item, role, defaultId);
            v.Map? && v.entries.Keys == {"id", "name", "description", "isActive", "isDefault", "type"} &&
            v.entries["id"] == Str(item.id) && v.entries["name"] == Str(item.name) &&
            v.entries["description"] == Str(item.description) && v.entries["isActive"] == Bool(true) &&
            v.entries["isDefault"] == Bool(defaultId.Some? && defaultId.value == item.id) &&
            v.entries["type"] == Str(if role == CaptureRole then "input" else "output")
  {
  }

  /** The records of the items whose lookup succeeded, in collection order. */
  function Records(items: seq<Item>, role: Role, defaultId: Option<string>): seq<Value> {
    if items == [] then []
    else
      var last := items[|items| - 1];
      Records(items[..|items| - 1], role, defaultId) +
      (if Failed(last.hr) then [] else [DeviceRecord(last, role, defaultId)])
  }

  /** The items whose Item(i) lookup succeeds, in collection order. */
  function Found(items: seq<Item>): (found: seq<Item>)
    ensures forall it :: it in found ==> it in items && !Failed(it.hr)
    ensures forall it :: it in items && !Failed(it.hr) ==> it in found
  {
    if items == [] then []
    else if Failed(items[0].hr) then Found(items[1..])
    else [items[0]] + Found(items[1..])
  }

  lemma {:induction false} FoundSnoc(items: seq<Item>, last: Item)
    ensures Found(items + [last]) == Found(items) + (if Failed(last.hr) then [] else [last])
  {
    if items == [] {
      assert items + [last] == [last];
      assert [last][1..] == [];
    } else {
      assert (items + [last])[0] == items[0];
      assert (items + [last])[1..] == items[1..] + [last];
      FoundSnoc(items[1..], last);
    }
  }

  lemma SplitLast<T>(s: seq<T>)
    requires s != []
    ensures s == s[..|s| - 1] + [s[|s| - 1]]
  {
  }

  /** Two runs of records that each describe their items pointwise describe the joined items. */
  lemma RecordsJoin(r1: seq<Value>, f1: seq<Item>, r2: seq<Value>, f2: seq<Item>, role: Role, defaultId: Option<string>)
    requires |r1| == |f1| && forall j :: 0 <= j < |f1| ==> r1[j] == DeviceRecord(f1[j], role, defaultId)
    requires |r2| == |f2| && forall j :: 0 <= j < |f2| ==> r2[j] == DeviceRecord(f2[j], role, defaultId)
    ensures |r1 + r2| == |f1 + f2|
    ensures forall j :: 0 <= j < |f1 + f2| ==> (r1 + r2)[j] == DeviceRecord((f1 + f2)[j], role, defaultId)
  {
    forall j | 0 <= j < |f1 + f2|
      ensures (r1 + r2)[j] == DeviceRecord((f1 + f2)[j], role, defaultId)
    {
      if j < |f1| {
        assert (r1 + r2)[j] == r1[j] && (f1 + f2)[j] == f1[j];
      } else {
        assert (r1 + r2)[j] == r2[j - |f1|] && (f1 + f2)[j] == f2[j - |f1|];
      }
    }
  }

  /** One record per successful lookup, in collection order: Records is the device record of each
      found item, so every record is active, of the role's type, and default iff its id is the
      default endpoint's. */
  lemma {:induction false} RecordsDescribeLookups(items: seq<Item>, role: Role, defaultId: Option<string>)
    ensures |Records(items, role, defaultId)| == |Found(items)|
    ensures forall j :: 0 <= j < |Found(items)| ==>
              Records(items, role, defaultId)[j] == DeviceRecord(Found(items)[j], role, defaultId)
  {
    if items != [] {
      var n := |items| - 1;
      var prefix, last := items[..n], items[n];
      RecordsDescribeLookups(prefix, role, defaultId);
      SplitLast(items);
      FoundSnoc(prefix, last);
      var r2: seq<Value> := if Failed(last.hr) then [] else [DeviceRecord(last, role, defaultId)];
      var f2: seq<Item> := if Failed(last.hr) then [] else [last];
      assert Records(items, role, defaultId) == Records(prefix, role, defaultId) + r2;
      RecordsJoin(Records(prefix, role, defaultId), Found(prefix), r2, f2, role, defaultId);
    }
  }

  function RoleDevices(hasEnumerator: bool, role: Role, script: RoleScript): seq<Value> {
    if !hasEnumerator || Failed(script.enumHr) then [] else Records(script.items, role, script.defaultId)
  }

  function AllDevices(hasEnumerator: bool, dir: Directory): seq<Value> {
    RoleDevices(hasEnumerator, CaptureRole, dir.capture) + RoleDevices(hasEnumerator, RenderRole, dir.render)
  }

  /** EnumerateDevices: nothing without an enumerator or when enumeration fails; otherwise one
      record per item whose lookup succeeds. */
  method EnumerateDevices(hasEnumerator: bool, role: Role, script: RoleScript) returns (devices: seq<Value>)
    ensures devices == RoleDevices(hasEnumerator, role, script)
    ensures !hasEnumerator || Failed(script.enumHr) ==> devices == []
  {
    devices := [];
    if !hasEnumerator {
      return;
    }
    if !Failed(script.enumHr) {
      var deviceCount := |script.items|;
      for i := 0 to deviceCount
        invariant devices == Records(script.items[..i], role, script.defaultId)
      {
        var item := script.items[i];
        assert script.items[..i + 1][..i] == script.items[..i];
        if !Failed(item.hr) {
          devices := devices + [DeviceRecord(item, role, script.defaultId)];
        }
      }
      assert script.items[..deviceCount] == script.items;
    }
  }

  /** EnumerateAudioDevices: the input devices followed by the output devices. */
  method EnumerateAudioDevices(hasEnumerator: bool, dir: Directory) returns (devices: seq<Value>)
    ensures devices == AllDevices(hasEnumerator, dir)
    ensures |devices| == |RoleDevices(hasEnumerator, CaptureRole, dir.capture)| +
                         |RoleDevices(hasEnumerator, RenderRole, dir.render)|
  {
    var inputDevices := EnumerateDevices(hasEnumerator, CaptureRole, dir.capture);
    var outputDevices := EnumerateDevices(hasEnumerator, RenderRole, dir.render);
    devices := [];
    devices := devices + inputDevices;
    devices := devices + outputDevices;
  }

  // ---------------------------------------------------------------------------
  // Posted-event bookkeeping

  datatype Kind = AudioKind | StateKind | ErrorKind | DevicesKind

  function KindOf(s: Send): Kind {
    match s
    case SendAudio(_) => AudioKind
    case SendState(_) => StateKind
    case SendError(_) => ErrorKind
    case SendDevices(_) => DevicesKind
  }

  /** The event map the UI thread's handler builds for a payload. */
  function EventOf(s: Send): (e: Event)
    ensures s.SendAudio? ==> e == Audio(Bytes(s.data))
    ensures s.SendState? ==> e == State(s.state)
    ensures s.SendError? ==> e == Error(s.message)
    ensures s.SendDevices? ==> e == DevicesInfo(s.devices)
  {
    match s
    case SendAudio(data) => Audio(Bytes(data))
    case SendState(state) => State(state)
    case SendError(message) => Error(message)
    case SendDevices(devices) => DevicesInfo(devices)
  }

  /** A posted WM_FLUTTER_* message: its kind and the payload's address carried as WPARAM (0 is null). */
  datatype Message = Message(kind: Kind, ptr: nat)

  /** A shared_ptr kept in a posted_*_events_ list: the address and the object it keeps alive. */
  datatype Entry = Entry(ptr: nat, payload: Send)

  /** The entries that the queued messages of one kind keep alive, in queue order. */
  function Pending(messages: seq<Message>, payloads: seq<Send>, k: Kind): seq<Entry>
    requires |messages| == |payloads|
  {
    if messages == [] then []
    else
      (if messages[0].kind == k then [Entry(messages[0].ptr, payloads[0])] else []) +
      Pending(messages[1..], payloads[1..], k)
  }

  lemma {:induction false} PendingAppend(messages: seq<Message>, payloads: seq<Send>, m: Message, p: Send, k: Kind)
    requires |messages| == |payloads|
    ensures Pending(messages + [m], payloads + [p], k) ==
            Pending(messages, payloads, k) + (if m.kind == k then [Entry(m.ptr, p)] else [])
  {
    if messages == [] {
      assert messages + [m] == [m] && payloads + [p] == [p];
    } else {
      assert (messages + [m])[1..] == messages[1..] + [m];
      assert (payloads + [p])[1..] == payloads[1..] + [p];
      PendingAppend(messages[1..], payloads[1..], m, p, k);
    }
  }

  /** The erase(remove_if(...)) idiom: drop every entry with the given address. */
  function Erase(entries: seq<Entry>, ptr: nat): (r: seq<Entry>)
    ensures forall e :: e in r <==> e in entries && e.ptr != ptr
  {
    if entries == [] then []
    else (if entries[0].ptr == ptr then [] else [entries[0]]) + Erase(entries[1..], ptr)
  }

  lemma {:induction false} EraseAbsent(entries: seq<Entry>, ptr: nat)
    requires forall e :: e in entries ==> e.ptr != ptr
    ensures Erase(entries, ptr) == entries
  {
    if entries != [] {
      EraseAbsent(entries[1..], ptr);
    }
  }

  /** The message queue is well formed: one payload per message, of the message's kind; addresses
      are handed out consecutively, so the queued messages hold the addresses just below the next
      fresh one, oldest first, and none is null. */
  ghost predicate QueueOk(messages: seq<Message>, payloads: seq<Send>, nextPtr: nat) {
    |messages| == |payloads| && |messages| < nextPtr &&
    (forall i :: 0 <= i < |messages| ==> messages[i].kind == KindOf(payloads[i])) &&
    (forall i :: 0 <= i < |messages| ==> messages[i].ptr == nextPtr - |messages| + i)
  }

  lemma QueuePush(messages: seq<Message>, payloads: seq<Send>, nextPtr: nat, s: Send)
    requires QueueOk(messages, payloads, nextPtr)
    ensures QueueOk(messages + [Message(KindOf(s), nextPtr)], payloads + [s], nextPtr + 1)
  {
    var ms := messages + [Message(KindOf(s), nextPtr)];
    var ps := payloads + [s];
    forall i | 0 <= i < |ms|
      ensures ms[i].kind == KindOf(ps[i]) && ms[i].ptr == nextPtr + 1 - |ms| + i
    {
      if i < |messages| {
        assert ms[i] == messages[i] && ps[i] == payloads[i];
      }
    }
  }

  lemma {:induction false} PendingAbove(messages: seq<Message>, payloads: seq<Send>, k: Kind, bound: nat)
    requires |messages| == |payloads|
    requires forall i :: 0 <= i < |messages| ==> messages[i].ptr > bound
    ensures forall e :: e in Pending(messages, payloads, k) ==> e.ptr > bound
  {
    if messages != [] {
      var rest := messages[1..];
      assert forall i :: 0 <= i < |rest| ==> rest[i] == messages[i + 1];
      PendingAbove(rest, payloads[1..], k, bound);
    }
  }

  /** Handling the oldest message: its entry heads the list of its kind and erasing its address
      leaves exactly the entries of the remaining messages; the other lists are already those. */
  lemma QueuePop(messages: seq<Message>, payloads: seq<Send>, nextPtr: nat, k: Kind)
    requires QueueOk(messages, payloads, nextPtr) && messages != []
    ensures QueueOk(messages[1..], payloads[1..], nextPtr)
    ensures messages[0].kind == k ==>
              var p := Pending(messages, payloads, k);
              p != [] && p[0] == Entry(messages[0].ptr, payloads[0]) &&
              Erase(p, messages[0].ptr) == Pending(messages[1..], payloads[1..], k)
    ensures messages[0].kind != k ==> Pending(messages[1..], payloads[1..], k) == Pending(messages, payloads, k)
  {
    var rest, restPayloads := messages[1..], payloads[1..];
    forall i | 0 <= i < |rest|
      ensures rest[i].kind == KindOf(restPayloads[i]) && rest[i].ptr == nextPtr - |rest| + i
      ensures rest[i].ptr > messages[0].ptr
    {
      assert rest[i] == messages[i + 1] && restPayloads[i] == payloads[i + 1];
    }
    PendingAbove(rest, restPayloads, k, messages[0].ptr);
    var tail := Pending(rest, restPayloads, k);
    EraseAbsent(tail, messages[0].ptr);
    assert ([Entry(messages[0].ptr, payloads[0])] + tail)[1..] == tail;
  }

  lemma AppendAssoc<T>(a: seq<T>, b: seq<T>, c: seq<T>)
    ensures a + b + c == a + (b + c)
  {
  }

  /** Each kind's list of entries is exactly what the queued messages of that kind keep alive. */
  ghost predicate PostedMatches(posted: map<Kind, seq<Entry>>, messages: seq<Message>, payloads: seq<Send>)
    requires |messages| == |payloads|
  {
    forall k :: k in posted && posted[k] == Pending(messages, payloads, k)
  }

  /** Handling the oldest message finds its payload at the head of its kind's list, under a
      non-null address, and erasing that address keeps the lists matching the rest of the queue. */
  lemma PostedPop(posted: map<Kind, seq<Entry>>, messages: seq<Message>, payloads: seq<Send>, nextPtr: nat)
    requires QueueOk(messages, payloads, nextPtr) && messages != []
    requires PostedMatches(posted, messages, payloads)
    ensures messages[0].ptr != 0
    ensures posted[messages[0].kind] != [] && posted[messages[0].kind][0].payload == payloads[0]
    ensures QueueOk(messages[1..], payloads[1..], nextPtr)
    ensures var m := messages[0];
            PostedMatches(posted[m.kind := Erase(posted[m.kind], m.ptr)], messages[1..], payloads[1..])
  {
    var m := messages[0];
    var after := posted[m.kind := Erase(posted[m.kind], m.ptr)];
    forall k
      ensures k in after && after[k] == Pending(messages[1..], payloads[1..], k)
    {
      QueuePop(messages, payloads, nextPtr, k);
    }
    QueuePop(messages, payloads, nextPtr, m.kind);
  }

  /** The reply a method call receives. */
  datatype Reply = ReplySuccess | ReplyError(code: string, message: string) | ReplyNotImplemented

  /** The part of FlutterWindow that the audio core uses. `inFlight` is the abstract view of the
      message queue: the payload each queued message points at. */
  class FlutterWindow {
    /** GetHandle() is non-null. */
    const hasHandle: bool
    /** The constructor's CoCreateInstance produced device_enumerator_. */
    const hasEnumerator: bool

    var eventSink: Option<nat>
    var isCapturing: bool
    /** The joinable capture thread, with everything it does during its session. */
    var captureThread: Option<ThreadRun>
    var currentDeviceId: string
    var currentCaptureType: string
    var sampleRate: int
    var channels: int
    var bitsPerSample: int
    var audioClient: bool
    var captureClient: bool

    /** posted_audio_events_, posted_state_events_, posted_error_events_ and
        posted_devices_events_, one list per kind. */
    var posted: map<Kind, seq<Entry>>
    /** The window's queue of posted WM_FLUTTER_* messages, oldest first. */
    var messages: seq<Message>
    /** The next fresh payload address. */
    var nextPtr: nat
    ghost var inFlight: seq<Send>

    /** The maps the event sink received, and the replies method calls received. */
    var delivered: seq<Delivery>
    var replies: seq<Reply>

    /** Every queued message points at a live payload of its kind, kept by exactly one entry;
        every entry belongs to a queued message; addresses are fresh and increasing. */
    ghost predicate Valid()
      reads this`messages, this`inFlight, this`nextPtr, this`posted
    {
      QueueOk(messages, inFlight, nextPtr) &&
      PostedMatches(posted, messages, inFlight) &&
      (!hasHandle ==> messages == [])
    }

    /** The capture-session fields: the flag, the thread, both clients and the recorded request. */
    ghost function Session(): (bool, Option<ThreadRun>, bool, bool, string, string, int, int, int)
      reads this`isCapturing, this`captureThread, this`audioClient, this`captureClient,
            this`currentDeviceId, this`currentCaptureType, this`sampleRate, this`channels, this`bitsPerSample
    {
      (isCapturing, captureThread, audioClient, captureClient,
       currentDeviceId, currentCaptureType, sampleRate, channels, bitsPerSample)
    }

    /** A session for req is running: the flag is raised, the request is recorded, the thread is
        the one AudioCaptureThread describes for req, and the clients are as that thread left them. */
    ghost predicate Started(req: StartRequest, env: SessionEnv)
      requires DriverKeepsSignalling(env)
      reads this`isCapturing, this`captureThread, this`audioClient, this`captureClient,
            this`currentDeviceId, this`currentCaptureType, this`sampleRate, this`channels, this`bitsPerSample
    {
      isCapturing && captureThread.Some? &&
      captureThread.value.sends == ThreadSends(hasEnumerator, req, env) &&
      RunFollowsSetup(captureThread.value, hasEnumerator, req, env) &&
      currentDeviceId == req.deviceId && currentCaptureType == req.captureType &&
      sampleRate == req.sampleRate && channels == req.channels && bitsPerSample == req.bitsPerSample &&
      audioClient == captureThread.value.audioClientSet && captureClient == captureThread.value.captureClientSet
    }

    /** No session: the flag is down, no thread is joinable and both clients are released. */
    ghost predicate Stopped()
      reads this`isCapturing, this`captureThread, this`audioClient, this`captureClient
    {
      !isCapturing && captureThread == None && !audioClient && !captureClient
    }

    /** The state fields and their initial values as declared in flutter_window.h. */
    constructor (hasHandle: bool, hasEnumerator: bool)
      ensures Valid()
      ensures this.hasHandle == hasHandle && this.hasEnumerator == hasEnumerator
      ensures eventSink == None && !isCapturing && captureThread == None
      ensures sampleRate == 44100 && channels == 2 && bitsPerSample == 16
      ensures !audioClient && !captureClient
      ensures messages == [] && inFlight == [] && delivered == [] && replies == []
    {
      this.hasHandle := hasHandle;
      this.hasEnumerator := hasEnumerator;
      eventSink := None;
      isCapturing := false;
      captureThread := None;
      currentDeviceId := "";
      currentCaptureType := "";
      sampleRate := 44100;
      channels := 2;
      bitsPerSample := 16;
      audioClient := false;
      captureClient := false;
      posted := map[AudioKind := [], StateKind := [], ErrorKind := [], DevicesKind := []];
      messages := [];
      nextPtr := 1;
      inFlight := [];
      delivered := [];
      replies := [];
      new;
      forall k ensures k in posted && posted[k] == Pending(messages, inFlight, k) {
        match k
        case AudioKind =>
        case StateKind =>
        case ErrorKind =>
        case DevicesKind =>
      }
    }

    /** OnStreamListen: attaches a sink (possibly null). */
    method OnStreamListen(events: Option<nat>)
      modifies this`eventSink
      ensures eventSink == events
    {
      eventSink := events;
    }

    /** OnStreamCancel: detaches the sink. */
    method OnStreamCancel()
      modifies this`eventSink
      ensures eventSink == None
    {
      eventSink := None;
    }

    /** SendAudioDataEvent, SendStateEvent, SendErrorEvent and SendDevicesInfoEvent: without a
        window handle nothing happens; otherwise one message is posted and one shared entry
        keeping its payload alive is appended to the list of its kind. */
    method SendEvent(s: Send)
      requires Valid()
      modifies this`messages, this`nextPtr, this`inFlight,
               this`posted
      ensures Valid()
      ensures inFlight == old(inFlight) + (if hasHandle then [s] else [])
      ensures messages == old(messages) + (if hasHandle then [Message(KindOf(s), old(nextPtr))] else [])
    {
      if !hasHandle {
        return;
      }
      var m := Message(KindOf(s), nextPtr);
      QueuePush(messages, inFlight, nextPtr, s);
      forall k {
        PendingAppend(messages, inFlight, m, s, k);
      }
      messages := messages + [m];
      inFlight := inFlight + [s];
      posted := posted[m.kind := posted[m.kind] + [Entry(m.ptr, s)]];
      nextPtr := nextPtr + 1;
    }

    /** The Send*Event calls of one capture thread, in order. */
    method SendAll(sends: seq<Send>)
      requires Valid()
      modifies this`messages, this`nextPtr, this`inFlight,
               this`posted
      ensures Valid()
      ensures inFlight == old(inFlight) + (if hasHandle then sends else [])
    {
      ghost var start := inFlight;
      for i := 0 to |sends|
        invariant Valid()
        invariant hasHandle ==> inFlight == start + sends[..i]
        invariant !hasHandle ==> inFlight == start
      {
        SendEvent(sends[i]);
        assert sends[..i + 1] == sends[..i] + [sends[i]];
      }
      assert sends[..|sends|] == sends;
    }

    /** The window procedure handling the oldest WM_FLUTTER_* message: the payload is delivered
        as an event map only if a sink is attached, and the entries for its address are erased
        whether or not it was delivered. */
    method DispatchNext() returns (handled: bool)
      requires Valid()
      modifies this`messages, this`inFlight, this`delivered,
               this`posted
      ensures Valid()
      ensures handled == (old(messages) != [])
      ensures !handled ==> inFlight == old(inFlight) && delivered == old(delivered)
      ensures handled ==> inFlight == old(inFlight)[1..] && messages == old(messages)[1..]
      ensures handled ==> delivered == old(delivered) + Emit(eventSink, EventOf(old(inFlight)[0]))
    {
      if messages == [] {
        return false;
      }
      handled := true;
      var m := messages[0];
      PostedPop(posted, messages, inFlight, nextPtr);
      var payload := posted[m.kind][0].payload;
      posted := posted[m.kind := Erase(posted[m.kind], m.ptr)];
      if eventSink.Some? && m.ptr != 0 {
        delivered := delivered + [Delivery(eventSink.value, Encode(EventOf(payload)))];
      }
      messages := messages[1..];
      inFlight := inFlight[1..];
    }

    /** StopAudioCapture: clears the flag, joins the thread, drops both clients, and always sends
        "recordingStopped", even when nothing was running. */
    method StopAudioCapture()
      requires Valid()
      modifies this`isCapturing, this`captureThread, this`audioClient, this`captureClient,
               this`messages, this`nextPtr, this`inFlight, this`posted
      ensures Valid()
      ensures !isCapturing && captureThread == None && !audioClient && !captureClient
      ensures inFlight == old(inFlight) + (if hasHandle then [SendState("recordingStopped")] else [])
    {
      isCapturing := false;
      // join() when joinable, then release both clients (the audio client is stopped first)
      captureThread, captureClient, audioClient := None, false, false;
      SendEvent(SendState("recordingStopped"));
    }

    /** The std::thread running AudioCaptureThread over the current request: its events are posted
        in order, and the client pointers are left as the thread leaves them. */
    method SpawnCaptureThread(req: StartRequest, env: SessionEnv)
      requires Valid() && DriverKeepsSignalling(env)
      modifies this`captureThread, this`audioClient, this`captureClient,
               this`messages, this`nextPtr, this`inFlight, this`posted
      ensures Valid()
      ensures captureThread.Some? && captureThread.value.sends == ThreadSends(hasEnumerator, req, env)
      ensures RunFollowsSetup(captureThread.value, hasEnumerator, req, env)
      ensures audioClient == captureThread.value.audioClientSet && captureClient == captureThread.value.captureClientSet
      ensures inFlight == old(inFlight) + (if hasHandle then ThreadSends(hasEnumerator, req, env) else [])
    {
      var run := AudioCaptureThread(hasEnumerator, req, env);
      captureThread, audioClient, captureClient := Some(run), run.audioClientSet, run.captureClientSet;
      SendAll(run.sends);
    }

    /** StartAudioCapture: stops any session first, records the request, raises the flag and
        runs one capture thread. The flag stays raised even when the thread's setup fails. */
    method StartAudioCapture(req: StartRequest, env: SessionEnv)
      requires Valid() && DriverKeepsSignalling(env)
      modifies this`isCapturing, this`captureThread, this`audioClient, this`captureClient,
               this`currentDeviceId, this`currentCaptureType, this`sampleRate, this`channels, this`bitsPerSample,
               this`messages, this`nextPtr, this`inFlight, this`posted
      ensures Valid()
      ensures isCapturing && captureThread.Some?
      ensures captureThread.value.sends == ThreadSends(hasEnumerator, req, env)
      ensures RunFollowsSetup(captureThread.value, hasEnumerator, req, env)
      ensures currentDeviceId == req.deviceId && currentCaptureType == req.captureType
      ensures sampleRate == req.sampleRate && channels == req.channels && bitsPerSample == req.bitsPerSample
      ensures audioClient == captureThread.value.audioClientSet && captureClient == captureThread.value.captureClientSet
      ensures inFlight == old(inFlight) +
                (if hasHandle then [SendState("recordingStopped")] + ThreadSends(hasEnumerator, req, env) else [])
    {
      StopAudioCapture();
      ghost var stopped := inFlight;
      RecordRequest(req);
      isCapturing := true;
      SpawnCaptureThread(req, env);
      ghost var sends := if hasHandle then ThreadSends(hasEnumerator, req, env) else [];
      assert stopped == old(inFlight) + (if hasHandle then [SendState("recordingStopped")] else []);
      assert inFlight == stopped + sends;
      AppendAssoc(old(inFlight), if hasHandle then [SendState("recordingStopped")] else [], sends);
    }

    /** The request fields StartAudioCapture keeps for the session. */
    method RecordRequest(req: StartRequest)
      modifies this`currentDeviceId, this`currentCaptureType, this`sampleRate, this`channels, this`bitsPerSample
      ensures currentDeviceId == req.deviceId && currentCaptureType == req.captureType
      ensures sampleRate == req.sampleRate && channels == req.channels && bitsPerSample == req.bitsPerSample
    {
      currentDeviceId, currentCaptureType := req.deviceId, req.captureType;
      sampleRate, channels, bitsPerSample := req.sampleRate, req.channels, req.bitsPerSample;
    }

    /** HandleMethodCall: requestDeviceList, startRecording, stopRecording, or not implemented. */
    method HandleMethodCall(name: string, arguments: Value, dir: Directory, env: SessionEnv)
      requires Valid() && DriverKeepsSignalling(env)
      modifies this`isCapturing, this`captureThread, this`audioClient, this`captureClient,
               this`currentDeviceId, this`currentCaptureType, this`sampleRate, this`channels, this`bitsPerSample,
               this`messages, this`nextPtr, this`inFlight, this`posted, this`replies
      ensures Valid()
      ensures name == "requestDeviceList" ==>
                replies == old(replies) + [ReplySuccess] &&
                inFlight == old(inFlight) + (if hasHandle then [SendDevices(AllDevices(hasEnumerator, dir))] else []) &&
                Session() == old(Session())
      ensures name == "startRecording" && ParseStartArgs(arguments).Rejected? ==>
                var e := ParseStartArgs(arguments).error;
                replies == old(replies) + [ReplyError(e.code, e.message)] &&
                inFlight == old(inFlight) && Session() == old(Session())
      ensures name == "startRecording" && ParseStartArgs(arguments).Accepted? ==>
                var req := ParseStartArgs(arguments).request;
                replies == old(replies) + [ReplySuccess] && Started(req, env) &&
                inFlight == old(inFlight) +
                  (if hasHandle then [SendState("recordingStopped")] + ThreadSends(hasEnumerator, req, env) else [])
      ensures name == "stopRecording" ==>
                replies == old(replies) + [ReplySuccess] && Stopped() &&
                inFlight == old(inFlight) + (if hasHandle then [SendState("recordingStopped")] else [])
      ensures name != "requestDeviceList" && name != "startRecording" && name != "stopRecording" ==>
                replies == old(replies) + [ReplyNotImplemented] && inFlight == old(inFlight) &&
                Session() == old(Session())
    {
      if name == "requestDeviceList" {
        RequestDeviceList(dir);
      } else if name == "startRecording" {
        StartRecording(arguments, env);
      } else if name == "stopRecording" {
        StopRecording();
      } else {
        replies := replies + [ReplyNotImplemented];
      }
    }

    /** The stopRecording branch: the session is stopped, then success is replied. */
    method StopRecording()
      requires Valid()
      modifies this`isCapturing, this`captureThread, this`audioClient, this`captureClient,
               this`messages, this`nextPtr, this`inFlight, this`posted, this`replies
      ensures Valid()
      ensures replies == old(replies) + [ReplySuccess] && Stopped()
      ensures inFlight == old(inFlight) + (if hasHandle then [SendState("recordingStopped")] else [])
    {
      StopAudioCapture();
      replies := replies + [ReplySuccess];
    }

    /** The requestDeviceList branch: one devicesInfo event with both roles' devices, then success. */
    method RequestDeviceList(dir: Directory)
      requires Valid()
      modifies this`messages, this`nextPtr, this`inFlight, this`posted, this`replies
      ensures Valid()
      ensures replies == old(replies) + [ReplySuccess]
      ensures inFlight == old(inFlight) + (if hasHandle then [SendDevices(AllDevices(hasEnumerator, dir))] else [])
    {
      var devices := EnumerateAudioDevices(hasEnumerator, dir);
      SendEvent(SendDevices(devices));
      replies := replies + [ReplySuccess];
    }

    /** The startRecording branch: rejected arguments get their error reply and nothing starts;
        accepted ones start a session and get success. */
    method StartRecording(arguments: Value, env: SessionEnv)
      requires Valid() && DriverKeepsSignalling(env)
      modifies this`isCapturing, this`captureThread, this`audioClient, this`captureClient,
               this`currentDeviceId, this`currentCaptureType, this`sampleRate, this`channels, this`bitsPerSample,
               this`messages, this`nextPtr, this`inFlight, this`posted, this`replies
      ensures Valid()
      ensures ParseStartArgs(arguments).Rejected? ==>
                var e := ParseStartArgs(arguments).error;
                replies == old(replies) + [ReplyError(e.code, e.message)] &&
                inFlight == old(inFlight) && Session() == old(Session())
      ensures ParseStartArgs(arguments).Accepted? ==>
                var req := ParseStartArgs(arguments).request;
                replies == old(replies) + [ReplySuccess] && Started(req, env) &&
                inFlight == old(inFlight) +
                  (if hasHandle then [SendState("recordingStopped")] + ThreadSends(hasEnumerator, req, env) else [])
    {
      match ParseStartArgs(arguments) {
        case Rejected(e) =>
          replies := replies + [ReplyError(e.code, e.message)];
        case Accepted(req) =>
          StartAudioCapture(req, env);
          replies := replies + [ReplySuccess];
      }
    }
  }
}
