/** RecordingService, the Android foreground service: its start/stop commands, the capture job
    that reads float PCM blocks from an AudioRecord, down-mixes them to mono and cuts them into
    fixed-size blocks, and the fields those commands and the job reassign. */
module Service {
  import opened Channel
  import Bridge

  /** Build.VERSION_CODES.Q, the first release with AudioPlaybackCapture. */
  const SDK_Q: int := 29
  /** Service.START_STICKY. */
  const START_STICKY: int := 1
  /** Kotlin's Int is 32-bit two's complement. */
  const INT_MIN: int := -0x8000_0000
  const INT_MAX: int := 0x7fff_ffff

  // ---------------------------------------------------------------------------
  // Intents

  datatype Action = ActionStart | ActionStop | ActionUpdateNotification | ActionPause | ActionResume

  /** The MediaProjection consent Intent, told apart by an identity. */
  type ProjectionData = nat

  /** An Intent addressed to the service; each extra is present or absent. */
  datatype Intent = Intent(
    action: Option<Action>, captureType: Option<string>, channels: Option<int>, sampleRate: Option<int>,
    blockSize: Option<int>, resultCode: Option<int>, resultData: Option<ProjectionData>)

  /** The start parameters after the defaults are applied. */
  datatype StartParams = StartParams(
    captureType: string, channels: int, sampleRate: int, blockSize: int,
    resultCode: int, resultData: Option<ProjectionData>)

  function OrElse<T>(o: Option<T>, default: T): (r: T)
    ensures o.Some? ==> r == o.value
    ensures o.None? ==> r == default
  {
    if o.Some? then o.value else default
  }

  /** The extras the start command reads, with getStringExtra ?: "loopback" and getIntExtra defaults. */
  function StartParamsOf(intent: Intent): StartParams {
    StartParams(OrElse(intent.captureType, "loopback"), OrElse(intent.channels, 2), OrElse(intent.sampleRate, 44100),
                OrElse(intent.blockSize, 1024), OrElse(intent.resultCode, 0), intent.resultData)
  }

  /** Missing extras fall back to loopback capture, two channels, 44100 Hz and 1024-sample blocks;
      an extra that is present is used as given. */
  lemma StartParamsDefaults(intent: Intent)
    ensures var p := StartParamsOf(intent);
            (intent.captureType.None? ==> p.captureType == "loopback") &&
            (intent.channels.None? ==> p.channels == 2) &&
            (intent.sampleRate.None? ==> p.sampleRate == 44100) &&
            (intent.blockSize.None? ==> p.blockSize == 1024) &&
            (intent.resultCode.None? ==> p.resultCode == 0) &&
            (intent.captureType.Some? ==> p.captureType == intent.captureType.value) &&
            (intent.channels.Some? ==> p.channels == intent.channels.value) &&
            (intent.sampleRate.Some? ==> p.sampleRate == intent.sampleRate.value) &&
            (intent.blockSize.Some? ==> p.blockSize == intent.blockSize.value) &&
            (intent.resultCode.Some? ==> p.resultCode == intent.resultCode.value) &&
            p.resultData == intent.resultData
  {
  }

  // ---------------------------------------------------------------------------
  // AudioRecord configuration

  datatype ChannelMask = ChannelInMono | ChannelInStereo

  /** Stereo iff exactly two channels are asked for; any other count records mono. */
  function ChannelMaskFor(numChannels: int): (m: ChannelMask)
    ensures m == ChannelInStereo <==> numChannels == 2
  {
    if numChannels == 2 then ChannelInStereo else ChannelInMono
  }

  /** getMinBufferSize(...).coerceAtLeast(blockSize * numChannels * 4): room for at least one
      block of 4-byte floats, and never less than the platform minimum. */
  function BufferSizeInBytes(minBufferSize: int, blockSize: int, numChannels: int): (n: int)
    ensures n >= minBufferSize && n >= blockSize * numChannels * 4
    ensures n == minBufferSize || n == blockSize * numChannels * 4
  {
    var blockBytes := blockSize * numChannels * 4;
    if minBufferSize < blockBytes then blockBytes else minBufferSize
  }

  datatype AudioSource = PlaybackCapture(projection: ProjectionData) | Microphone

  /** What AudioRecord.Builder was given, and whether the record reached STATE_INITIALIZED. */
  datatype RecordConfig = RecordConfig(
    source: AudioSource, sampleRate: int, channelMask: ChannelMask, bufferSizeInBytes: int, initialized: bool)

  // ---------------------------------------------------------------------------
  // Reads, down-mixing and block slicing

  /** One AudioRecord.read into tempBuffer: the count it returns (negative for an error code)
      and the floats it wrote to the front of the buffer. */
  datatype ReadResult = ReadResult(count: int, samples: seq<real>)

  /** A read never returns more floats than it was asked for, and writes as many as it returns. */
  predicate ReadFits(r: ReadResult, size: int) {
    r.count <= size && (r.count > 0 ==> |r.samples| == r.count)
  }

  predicate ReadsFit(results: seq<ReadResult>, size: int) {
    forall k :: 0 <= k < |results| ==> ReadFits(results[k], size)
  }

  /** tempBuffer after one read: the floats read replace its front, the rest keep their values. */
  function Overwrite(buf: seq<real>, r: ReadResult): (b: seq<real>)
    requires ReadFits(r, |buf|)
    ensures |b| == |buf|
  {
    if r.count > 0 then r.samples + buf[r.count..] else buf
  }

  /** tempBuffer after a run of reads; FloatArray starts zero-filled. */
  function BufferAfter(results: seq<ReadResult>, size: nat): (b: seq<real>)
    requires ReadsFit(results, size)
    ensures |b| == size
  {
    if results == [] then seq(size, _ => 0.0)
    else
      var n := |results| - 1;
      assert ReadsFit(results[..n], size) by {
        forall k | 0 <= k < n ensures ReadFits(results[..n][k], size) { assert results[..n][k] == results[k]; }
      }
      assert ReadFits(results[n], size);
      Overwrite(BufferAfter(results[..n], size), results[n])
  }

  /** The samples a read of readCount floats appends: one average per stereo pair (x[i], x[i+1])
      for even i below readCount, or the readCount floats themselves for any other channel count. */
  function Downmix(buf: seq<real>, readCount: nat, numChannels: int): (out: seq<real>)
    requires readCount <= |buf| && (numChannels == 2 ==> |buf| % 2 == 0)
    ensures numChannels == 2 ==> |out| == (readCount + 1) / 2
    ensures numChannels != 2 ==> |out| == readCount
  {
    if numChannels == 2 then
      seq((readCount + 1) / 2, j requires 0 <= j < (readCount + 1) / 2 => (buf[2 * j] + buf[2 * j + 1]) * 0.5)
    else buf[..readCount]
  }

  /** Everything the reads append to the accumulator, in order. */
  function Produced(results: seq<ReadResult>, size: nat, numChannels: int): seq<real>
    requires ReadsFit(results, size) && (numChannels == 2 ==> size % 2 == 0)
  {
    if results == [] then []
    else
      var n := |results| - 1;
      assert ReadsFit(results[..n], size) by {
        forall k | 0 <= k < n ensures ReadFits(results[..n][k], size) { assert results[..n][k] == results[k]; }
      }
      assert ReadFits(results[n], size);
      Produced(results[..n], size, numChannels) +
      (if results[n].count > 0 then Downmix(BufferAfter(results, size), results[n].count, numChannels) else [])
  }

  /** A read that fills tempBuffer, blockSize*numChannels floats, appends exactly one block of
      samples, for mono and for stereo alike. */
  lemma FullReadAddsOneBlock(buf: seq<real>, blockSize: nat, numChannels: int)
    requires numChannels == 1 || numChannels == 2
    requires |buf| == blockSize * numChannels
    ensures |Downmix(buf, |buf|, numChannels)| == blockSize
  {
  }

  /** A read that returns nothing, or an error code, appends nothing. */
  lemma NonPositiveReadAddsNothing(results: seq<ReadResult>, r: ReadResult, size: nat, numChannels: int)
    requires ReadsFit(results + [r], size) && (numChannels == 2 ==> size % 2 == 0) && r.count <= 0
    ensures ReadsFit(results, size)
    ensures Produced(results + [r], size, numChannels) == Produced(results, size, numChannels)
  {
    assert (results + [r])[..|results|] == results;
    forall k | 0 <= k < |results| ensures ReadFits(results[k], size) {
      assert results[k] == (results + [r])[k];
    }
  }

  function Flatten(blocks: seq<seq<real>>): seq<real> {
    if blocks == [] then [] else blocks[0] + Flatten(blocks[1..])
  }

  lemma {:induction false} FlattenAppend(a: seq<seq<real>>, b: seq<seq<real>>)
    ensures Flatten(a + b) == Flatten(a) + Flatten(b)
  {
    if a == [] {
      assert a + b == b;
    } else {
      assert (a + b)[0] == a[0] && (a + b)[1..] == a[1..] + b;
      FlattenAppend(a[1..], b);
    }
  }

  /** The blocks of n samples cut from the front of s, and what is left after them. */
  function Chunks(s: seq<real>, n: nat): seq<seq<real>>
    requires n > 0
    decreases |s|
  {
    if |s| < n then [] else [s[..n]] + Chunks(s[n..], n)
  }

  function Remainder(s: seq<real>, n: nat): seq<real>
    requires n > 0
    decreases |s|
  {
    if |s| < n then s else Remainder(s[n..], n)
  }

  /** Blocks of exactly n samples followed by fewer than n samples determine the cut: they are
      Chunks and Remainder of their concatenation. */
  lemma {:induction false} CutIsUnique(blocks: seq<seq<real>>, rest: seq<real>, n: nat)
    requires n > 0 && |rest| < n
    requires forall k :: 0 <= k < |blocks| ==> |blocks[k]| == n
    ensures Chunks(Flatten(blocks) + rest, n) == blocks
    ensures Remainder(Flatten(blocks) + rest, n) == rest
  {
    if blocks == [] {
      assert Flatten(blocks) + rest == rest;
    } else {
      var b, more := blocks[0], blocks[1..];
      assert blocks == [b] + more;
      assert forall k :: 0 <= k < |more| ==> |more[k]| == n by {
        forall k | 0 <= k < |more| ensures |more[k]| == n {
          assert more[k] == blocks[k + 1];
        }
      }
      CutIsUnique(more, rest, n);
      assert Flatten(blocks) + rest == b + (Flatten(more) + rest);
      CutFront(b, Flatten(more) + rest, n);
    }
  }

  lemma CutFront(block: seq<real>, tail: seq<real>, n: nat)
    requires n > 0 && |block| == n
    ensures Chunks(block + tail, n) == [block] + Chunks(tail, n)
    ensures Remainder(block + tail, n) == Remainder(tail, n)
  {
    assert (block + tail)[..n] == block && (block + tail)[n..] == tail;
  }

  /** The two for-loops of the read handler: append the down-mixed samples of one read. */
  method AppendRead(tempBuffer: array<real>, readCount: int, numChannels: int, accumulator: seq<real>)
    returns (acc: seq<real>)
    requires 0 < readCount <= tempBuffer.Length
    requires numChannels == 2 ==> tempBuffer.Length % 2 == 0
    ensures acc == accumulator + Downmix(tempBuffer[..], readCount, numChannels)
  {
    acc := accumulator;
    if numChannels == 2 {
      var i := 0;
      while i < readCount
        invariant 0 <= i <= tempBuffer.Length && i % 2 == 0 && (i <= readCount || i == readCount + 1)
        invariant acc == accumulator + Downmix(tempBuffer[..], i, 2)
        decreases readCount - i
      {
        var mono := (tempBuffer[i] + tempBuffer[i + 1]) * 0.5;
        ghost var before := Downmix(tempBuffer[..], i, 2);
        assert Downmix(tempBuffer[..], i + 2, 2) == before + [mono];
        acc := acc + [mono];
        i := i + 2;
      }
      assert Downmix(tempBuffer[..], i, 2) == Downmix(tempBuffer[..], readCount, 2);
    } else {
      for i := 0 to readCount
        invariant acc == accumulator + tempBuffer[..i]
      {
        assert tempBuffer[..i + 1] == tempBuffer[..i] + [tempBuffer[i]];
        acc := acc + [tempBuffer[i]];
      }
    }
  }

  /** The slicing loop: while a whole block is buffered, take blockSize samples from the front
      (repeat(blockSize) { removeFirst() }) and send them. */
  method SliceBlocks(accumulator: seq<real>, blockSize: int) returns (blocks: seq<seq<real>>, rest: seq<real>)
    requires blockSize > 0
    ensures Flatten(blocks) + rest == accumulator
    ensures forall k :: 0 <= k < |blocks| ==> |blocks[k]| == blockSize
    ensures |rest| < blockSize
  {
    blocks, rest := [], accumulator;
    while |rest| >= blockSize
      invariant Flatten(blocks) + rest == accumulator
      invariant forall k :: 0 <= k < |blocks| ==> |blocks[k]| == blockSize
      decreases |rest|
    {
      ghost var front := rest;
      var out: seq<real> := [];
      var n := 0;
      while n < blockSize
        invariant 0 <= n <= blockSize && |out| == n && out + rest == front && |rest| >= blockSize - n
      {
        out := out + [rest[0]];
        rest := rest[1..];
        n := n + 1;
      }
      FlattenAppend(blocks, [out]);
      assert Flatten([out]) == out + Flatten([]);
      blocks := blocks + [out];
    }
  }

  /** One pass of the read loop after the read: a positive count appends and slices; anything
      else leaves the accumulator as it was and sends nothing. With a negative blockSize the
      slicing loop's condition holds at once and ArrayList(blockSize) throws. */
  method ProcessRead(tempBuffer: array<real>, readCount: int, numChannels: int, blockSize: int, accumulator: seq<real>)
    returns (blocks: seq<seq<real>>, rest: seq<real>, thrown: bool)
    requires readCount <= tempBuffer.Length
    requires numChannels == 2 ==> tempBuffer.Length % 2 == 0
    requires readCount > 0 ==> blockSize != 0
    ensures thrown <==> readCount > 0 && blockSize < 0
    ensures readCount <= 0 ==> blocks == [] && rest == accumulator
    ensures readCount > 0 && blockSize > 0 ==>
              Flatten(blocks) + rest == accumulator + Downmix(tempBuffer[..], readCount, numChannels) &&
              (forall k :: 0 <= k < |blocks| ==> |blocks[k]| == blockSize) && |rest| < blockSize
  {
    thrown := false;
    if readCount > 0 {
      var acc := AppendRead(tempBuffer, readCount, numChannels, accumulator);
      if blockSize < 0 {
        blocks, rest, thrown := [], acc, true;
      } else {
        blocks, rest := SliceBlocks(acc, blockSize);
      }
    } else {
      blocks, rest := [], accumulator;
    }
  }

  /** Some read of the run returns samples. */
  predicate SomePositive(results: seq<ReadResult>) {
    exists k :: 0 <= k < |results| && results[k].count > 0
  }

  /** One more read extends tempBuffer and the produced samples as the definitions say. */
  lemma ReadStep(done: seq<ReadResult>, r: ReadResult, size: nat, numChannels: int)
    requires ReadsFit(done, size) && ReadFits(r, size) && (numChannels == 2 ==> size % 2 == 0)
    ensures ReadsFit(done + [r], size)
    ensures BufferAfter(done + [r], size) == Overwrite(BufferAfter(done, size), r)
    ensures Produced(done + [r], size, numChannels) ==
              Produced(done, size, numChannels) +
              (if r.count > 0 then Downmix(BufferAfter(done + [r], size), r.count, numChannels) else [])
  {
    var all := done + [r];
    forall j | 0 <= j < |all| ensures ReadFits(all[j], size) {
      if j < |done| { assert all[j] == done[j]; }
    }
    assert all[..|done|] == done && all[|done|] == r;
  }

  /** AudioRecord.read(tempBuffer, 0, size, READ_BLOCKING): the floats read land at the front. */
  method ReadInto(tempBuffer: array<real>, r: ReadResult)
    requires ReadFits(r, tempBuffer.Length)
    modifies tempBuffer
    ensures tempBuffer[..] == Overwrite(old(tempBuffer[..]), r)
  {
    if r.count > 0 {
      forall j | 0 <= j < r.count {
        tempBuffer[j] := r.samples[j];
      }
      assert tempBuffer[..] == r.samples + old(tempBuffer[..])[r.count..];
    }
  }

  /** What holds between passes of the read loop once the reads in `done` are handled. */
  ghost predicate LoopState(buffer: seq<real>, done: seq<ReadResult>, size: nat, numChannels: int,
                            blockSize: int, blocks: seq<seq<real>>, accumulator: seq<real>)
  {
    ReadsFit(done, size) && (numChannels == 2 ==> size % 2 == 0) &&
    buffer == BufferAfter(done, size) &&
    Flatten(blocks) + accumulator == Produced(done, size, numChannels) &&
    (forall j :: 0 <= j < |blocks| ==> |blocks[j]| == blockSize) &&
    (blockSize > 0 ==> |accumulator| < blockSize) &&
    (blockSize <= 0 ==> blocks == [])
  }

  /** Handling one more read, as ProcessRead does it, keeps the loop state. */
  lemma PassKeepsLoopState(done: seq<ReadResult>, r: ReadResult, size: nat, numChannels: int, blockSize: int,
                           blocks: seq<seq<real>>, accumulator: seq<real>, cut: seq<seq<real>>, rest: seq<real>)
    requires ReadsFit(done, size) && ReadFits(r, size) && (r.count > 0 ==> blockSize > 0)
    requires LoopState(BufferAfter(done, size), done, size, numChannels, blockSize, blocks, accumulator)
    requires ReadsFit(done + [r], size)
    requires r.count <= 0 ==> cut == [] && rest == accumulator
    requires r.count > 0 ==>
               Flatten(cut) + rest == accumulator + Downmix(BufferAfter(done + [r], size), r.count, numChannels) &&
               (forall k :: 0 <= k < |cut| ==> |cut[k]| == blockSize) && |rest| < blockSize
    ensures LoopState(BufferAfter(done + [r], size), done + [r], size, numChannels, blockSize, blocks + cut, rest)
  {
    ReadStep(done, r, size, numChannels);
    var added := if r.count > 0 then Downmix(BufferAfter(done + [r], size), r.count, numChannels) else [];
    CutStep(blocks, accumulator, cut, rest, Produced(done, size, numChannels), added);
    BlocksSized(blocks, cut, blockSize);
  }

  lemma CutStep(blocks: seq<seq<real>>, accumulator: seq<real>, cut: seq<seq<real>>, rest: seq<real>,
                produced: seq<real>, added: seq<real>)
    requires Flatten(blocks) + accumulator == produced
    requires Flatten(cut) + rest == accumulator + added
    ensures Flatten(blocks + cut) + rest == produced + added
  {
    FlattenAppend(blocks, cut);
    calc {
      Flatten(blocks + cut) + rest;
      Flatten(blocks) + (Flatten(cut) + rest);
      (Flatten(blocks) + accumulator) + added;
    }
  }

  lemma BlocksSized(blocks: seq<seq<real>>, cut: seq<seq<real>>, n: int)
    requires forall k :: 0 <= k < |blocks| ==> |blocks[k]| == n
    requires forall k :: 0 <= k < |cut| ==> |cut[k]| == n
    ensures forall k :: 0 <= k < |blocks + cut| ==> |(blocks + cut)[k]| == n
  {
  }

  /** One pass of the read loop: read into tempBuffer, then append and slice. */
  method ReadPass(tempBuffer: array<real>, ghost done: seq<ReadResult>, r: ReadResult, numChannels: int,
                  blockSize: int, blocks: seq<seq<real>>, accumulator: seq<real>)
    returns (blocks': seq<seq<real>>, accumulator': seq<real>, thrown: bool)
    requires ReadFits(r, tempBuffer.Length) && (tempBuffer.Length > 0 ==> blockSize != 0)
    requires LoopState(tempBuffer[..], done, tempBuffer.Length, numChannels, blockSize, blocks, accumulator)
    modifies tempBuffer
    ensures thrown <==> r.count > 0 && blockSize < 0
    ensures thrown ==> blocks' == blocks
    ensures !thrown ==>
              LoopState(tempBuffer[..], done + [r], tempBuffer.Length, numChannels, blockSize, blocks', accumulator')
  {
    ghost var size := tempBuffer.Length;
    ReadStep(done, r, size, numChannels);
    ReadInto(tempBuffer, r);
    var cut, rest;
    cut, rest, thrown := ProcessRead(tempBuffer, r.count, numChannels, blockSize, accumulator);
    if thrown {
      return blocks, rest, thrown;
    }
    PassKeepsLoopState(done, r, size, numChannels, blockSize, blocks, accumulator, cut, rest);
    blocks', accumulator' := blocks + cut, rest;
  }

  /** The read loop of a capture job, one scripted read per pass until the stop is observed or
      an exception ends the job. The blocks sent are exactly the blockSize cuts of everything
      the reads produce, in order; a negative blockSize throws at the first read with samples. */
  method CaptureJobLoop(numChannels: int, blockSize: int, size: nat, results: seq<ReadResult>)
    returns (blocks: seq<seq<real>>, leftover: seq<real>, thrown: bool)
    requires (size > 0 ==> blockSize != 0) && (numChannels == 2 ==> size == 2 * blockSize)
    requires ReadsFit(results, size)
    ensures numChannels == 2 ==> size % 2 == 0
    ensures thrown <==> blockSize < 0 && SomePositive(results)
    ensures blockSize <= 0 ==> blocks == []
    ensures !thrown ==> Flatten(blocks) + leftover == Produced(results, size, numChannels)
    ensures forall k :: 0 <= k < |blocks| ==> |blocks[k]| == blockSize
    ensures blockSize > 0 ==> blocks == Chunks(Produced(results, size, numChannels), blockSize)
    ensures blockSize > 0 ==> leftover == Remainder(Produced(results, size, numChannels), blockSize)
  {
    var tempBuffer := new real[size](_ => 0.0);
    assert results[..0] == [];
    assert tempBuffer[..] == BufferAfter([], size);
    var accumulator: seq<real> := [];
    blocks, thrown := [], false;
    var k := 0;
    while k < |results| && !thrown
      invariant 0 <= k <= |results| && tempBuffer.Length == size
      invariant !thrown ==> LoopState(tempBuffer[..], results[..k], size, numChannels, blockSize, blocks, accumulator)
      invariant !thrown && blockSize < 0 ==> forall j :: 0 <= j < k ==> results[j].count <= 0
      invariant thrown ==> blockSize < 0 && SomePositive(results) && blocks == []
    {
      var r := results[k];
      assert ReadFits(r, size);
      blocks, accumulator, thrown := ReadPass(tempBuffer, results[..k], r, numChannels, blockSize, blocks, accumulator);
      assert results[..k + 1] == results[..k] + [r];
      k := k + 1;
    }
    if !thrown {
      assert results[..k] == results;
      if blockSize > 0 {
        CutIsUnique(blocks, accumulator, blockSize);
      }
    }
    leftover := accumulator;
  }

  // ---------------------------------------------------------------------------
  // The capture job

  datatype BuildOutcome = BuildThrows | Built(initialized: bool)

  /** What the platform answers one capture job: getMinBufferSize, the AudioRecord build, and the
      reads performed before the stop is observed. */
  datatype JobEnv = JobEnv(minBufferSize: int, build: BuildOutcome, results: seq<ReadResult>)

  /** The buffer arithmetic stays within Kotlin's Int, and the driver's reads fit tempBuffer. */
  predicate JobParamsOk(numChannels: int, blockSize: int, env: JobEnv) {
    INT_MIN <= blockSize * numChannels * 4 <= INT_MAX &&
    (blockSize * numChannels >= 0 ==> ReadsFit(env.results, blockSize * numChannels))
  }

  /** What one launched job does: the sends it queues for the main thread, the AudioRecord it
      assigns to the field (None when the assignment is never reached), and whether it is still
      in its read loop when the scripted reads run out (it leaves that loop only when stopped). */
  datatype JobRun = JobRun(sends: seq<Bridge.Outgoing>, recordSet: Option<RecordConfig>, running: bool)

  function FailureMessage(loopback: bool): string {
    if loopback then "loopback_failed" else "mic_failed"
  }

  function AudioSends(blocks: seq<seq<real>>): (sends: seq<Bridge.Outgoing>)
    ensures |sends| == |blocks|
    ensures forall k :: 0 <= k < |blocks| ==> sends[k] == Bridge.OutAudio(blocks[k])
  {
    seq(|blocks|, k requires 0 <= k < |blocks| => Bridge.OutAudio(blocks[k]))
  }

  /** Whether `mediaProjection!!` throws before the AudioRecord is built. */
  predicate ProjectionMissing(loopback: bool, projection: Option<ProjectionData>) {
    loopback && projection.None?
  }

  /** The AudioRecord the job assigns, if it gets that far. */
  function JobRecord(loopback: bool, projection: Option<ProjectionData>, numChannels: int, sampleRate: int,
                     blockSize: int, env: JobEnv): Option<RecordConfig>
  {
    if ProjectionMissing(loopback, projection) || env.build.BuildThrows? then None
    else
      var source := if loopback then PlaybackCapture(projection.value) else Microphone;
      Some(RecordConfig(source, sampleRate, ChannelMaskFor(numChannels),
                        BufferSizeInBytes(env.minBufferSize, blockSize, numChannels), env.build.initialized))
  }

  /** The job stays in its read loop iff the record is built initialised, tempBuffer can be
      allocated, and no read with samples meets a negative blockSize. */
  predicate JobKeepsRunning(loopback: bool, projection: Option<ProjectionData>, numChannels: int, blockSize: int,
                            env: JobEnv) {
    !ProjectionMissing(loopback, projection) && env.build == Built(true) && blockSize * numChannels >= 0 &&
    !(blockSize < 0 && SomePositive(env.results))
  }

  /** The sends of one job, in order. */
  function JobSends(loopback: bool, projection: Option<ProjectionData>, numChannels: int, blockSize: int,
                    env: JobEnv): seq<Bridge.Outgoing>
    requires JobParamsOk(numChannels, blockSize, env)
  {
    if ProjectionMissing(loopback, projection) || env.build.BuildThrows? then [Bridge.OutError(FailureMessage(loopback))]
    else if !env.build.initialized then [Bridge.OutError("audio_init_failed")]
    else if blockSize * numChannels < 0 then [Bridge.OutError(FailureMessage(loopback))]
    else if blockSize < 0 && SomePositive(env.results) then [Bridge.OutError(FailureMessage(loopback))]
    else if blockSize > 0 then
      AudioSends(Chunks(Produced(env.results, blockSize * numChannels, numChannels), blockSize))
    else []
  }

  /** A job that ends sends exactly one error; a job that keeps running sends only audio blocks of
      exactly blockSize samples. Neither sends a state event. */
  lemma JobSendsShape(loopback: bool, projection: Option<ProjectionData>, numChannels: int, blockSize: int, env: JobEnv)
    requires JobParamsOk(numChannels, blockSize, env)
    ensures var sends := JobSends(loopback, projection, numChannels, blockSize, env);
            (!JobKeepsRunning(loopback, projection, numChannels, blockSize, env) ==>
               |sends| == 1 && sends[0].OutError?) &&
            (JobKeepsRunning(loopback, projection, numChannels, blockSize, env) ==>
               forall k :: 0 <= k < |sends| ==> sends[k].OutAudio? && |sends[k].samples| == blockSize) &&
            (forall k :: 0 <= k < |sends| ==> !sends[k].OutState?)
  {
    if JobKeepsRunning(loopback, projection, numChannels, blockSize, env) && blockSize > 0 {
      var s := Produced(env.results, blockSize * numChannels, numChannels);
      ChunksHaveBlockSize(s, blockSize);
    }
  }

  lemma {:induction false} ChunksHaveBlockSize(s: seq<real>, n: nat)
    requires n > 0
    ensures forall k :: 0 <= k < |Chunks(s, n)| ==> |Chunks(s, n)[k]| == n
    decreases |s|
  {
    if |s| >= n {
      ChunksHaveBlockSize(s[n..], n);
      var c := Chunks(s, n);
      assert c == [s[..n]] + Chunks(s[n..], n);
      forall k | 1 <= k < |c| ensures |c[k]| == n {
        assert c[k] == Chunks(s[n..], n)[k - 1];
      }
    }
  }

  /** The coroutine launched on Dispatchers.IO by startLoopbackRecording or startMicRecording. */
  method RunCaptureJob(loopback: bool, projection: Option<ProjectionData>, numChannels: int, sampleRate: int,
                       blockSize: int, env: JobEnv) returns (run: JobRun)
    requires JobParamsOk(numChannels, blockSize, env)
    ensures run.sends == JobSends(loopback, projection, numChannels, blockSize, env)
    ensures run.recordSet == JobRecord(loopback, projection, numChannels, sampleRate, blockSize, env)
    ensures run.running == JobKeepsRunning(loopback, projection, numChannels, blockSize, env)
  {
    if ProjectionMissing(loopback, projection) {
      // mediaProjection!! throws; the catch block sends the failure on the main thread
      return JobRun([Bridge.OutError(FailureMessage(loopback))], None, false);
    }
    var channelMask := ChannelMaskFor(numChannels);
    var minBuf := BufferSizeInBytes(env.minBufferSize, blockSize, numChannels);
    if env.build.BuildThrows? {
      return JobRun([Bridge.OutError(FailureMessage(loopback))], None, false);
    }
    var source := if loopback then PlaybackCapture(projection.value) else Microphone;
    var audioRecord := RecordConfig(source, sampleRate, channelMask, minBuf, env.build.initialized);
    if !audioRecord.initialized {
      return JobRun([Bridge.OutError("audio_init_failed")], Some(audioRecord), false);
    }
    var size := blockSize * numChannels;
    if size < 0 {
      // FloatArray(blockSize * numChannels) throws NegativeArraySizeException
      return JobRun([Bridge.OutError(FailureMessage(loopback))], Some(audioRecord), false);
    }
    var blocks, leftover, thrown := CaptureJobLoop(numChannels, blockSize, size, env.results);
    if thrown {
      // new ArrayList<Double>(blockSize) throws IllegalArgumentException
      return JobRun([Bridge.OutError(FailureMessage(loopback))], Some(audioRecord), false);
    }
    run := JobRun(AudioSends(blocks), Some(audioRecord), true);
  }

  // ---------------------------------------------------------------------------
  // The service

  /** How startLoopbackRecording ends before a job is launched, or that it launches one. */
  datatype LoopbackGate = AlreadyActive | NotSupported | PermissionDenied | Launch

  function LoopbackGateFor(jobActive: bool, sdkInt: int, resultData: Option<ProjectionData>): LoopbackGate {
    if jobActive then AlreadyActive
    else if sdkInt < SDK_Q then NotSupported
    else if resultData.None? then PermissionDenied
    else Launch
  }

  /** MediaProjectionManager.getMediaProjection: a projection, null, or an exception. */
  datatype ProjectionOutcome = ProjectionGranted(token: ProjectionData) | ProjectionNull | ProjectionThrows

  /** The mediaProjection field after the attempt; a throwing call leaves it as it was. */
  function ProjectionAfter(before: Option<ProjectionData>, outcome: ProjectionOutcome): Option<ProjectionData> {
    match outcome
    case ProjectionGranted(token) => Some(token)
    case ProjectionNull => None
    case ProjectionThrows => before
  }

  /** The errors a start command's start routine sends directly on the main thread. */
  function StartDirectSends(p: StartParams, jobActive: bool, sdkInt: int, outcome: ProjectionOutcome)
    : seq<Bridge.Outgoing>
  {
    if p.captureType != "loopback" then []
    else
      match LoopbackGateFor(jobActive, sdkInt, p.resultData)
      case AlreadyActive => []
      case NotSupported => [Bridge.OutError("not_supported")]
      case PermissionDenied => [Bridge.OutError("permission_denied")]
      case Launch => if outcome.ProjectionThrows? then [Bridge.OutError("projection_failed")] else []
  }

  /** Whether a start command launches a new job: loopback past its guards, or the microphone
      while no job is active. */
  predicate StartLaunches(p: StartParams, jobActive: bool, sdkInt: int) {
    if p.captureType == "loopback" then LoopbackGateFor(jobActive, sdkInt, p.resultData) == Launch
    else !jobActive
  }

  /** The sends the job a start command launches queues for the main thread. */
  function StartJobSends(p: StartParams, jobActive: bool, sdkInt: int, projectionBefore: Option<ProjectionData>,
                         outcome: ProjectionOutcome, env: JobEnv): seq<Bridge.Outgoing>
    requires JobParamsOk(p.channels, p.blockSize, env)
  {
    if !StartLaunches(p, jobActive, sdkInt) then []
    else if p.captureType == "loopback" then
      JobSends(true, ProjectionAfter(projectionBefore, outcome), p.channels, p.blockSize, env)
    else JobSends(false, None, p.channels, p.blockSize, env)
  }

  /** Everything a start command sends, in delivery order: the direct errors, then
      "recordingStarted", then the queued sends of the job it launches. */
  function StartSends(p: StartParams, jobActive: bool, sdkInt: int, projectionBefore: Option<ProjectionData>,
                      outcome: ProjectionOutcome, env: JobEnv): seq<Bridge.Outgoing>
    requires JobParamsOk(p.channels, p.blockSize, env)
  {
    StartDirectSends(p, jobActive, sdkInt, outcome) + [Bridge.OutState("recordingStarted")] +
    StartJobSends(p, jobActive, sdkInt, projectionBefore, outcome, env)
  }

  /** The fields a start command can change besides the flags: the capture job, the AudioRecord
      and the projection. */
  datatype Capture = Capture(job: Option<Job>, record: Option<RecordConfig>, projection: Option<ProjectionData>)

  /** The fields after a job over the given projection is launched: the job is kept, the AudioRecord
      field takes the record the job assigns (or keeps its value), and a loopback launch keeps the
      projection it was given. */
  function Launched(loopback: bool, projection: Option<ProjectionData>, before: Capture, numChannels: int,
                    sampleRate: int, blockSize: int, env: JobEnv): (after: Capture)
    requires JobParamsOk(numChannels, blockSize, env)
    ensures after.job.Some? && after.job.value.run.sends == JobSends(loopback, projection, numChannels, blockSize, env)
    ensures after.job.value.run.running == JobKeepsRunning(loopback, projection, numChannels, blockSize, env)
    ensures after.record == (if after.job.value.run.recordSet.Some? then after.job.value.run.recordSet else before.record)
    ensures after.projection == (if loopback then projection else before.projection)
  {
    var job := Job(JobRun(JobSends(loopback, projection, numChannels, blockSize, env),
                          JobRecord(loopback, projection, numChannels, sampleRate, blockSize, env),
                          JobKeepsRunning(loopback, projection, numChannels, blockSize, env)));
    Capture(Some(job), if job.run.recordSet.Some? then job.run.recordSet else before.record,
            if loopback then projection else before.projection)
  }

  /** The fields after startLoopbackRecording: unchanged unless its guards let it launch, and then
      the projection the request produced and the loopback job over it. */
  function LoopbackAfter(jobActive: bool, sdkInt: int, resultData: Option<ProjectionData>, before: Capture,
                         outcome: ProjectionOutcome, numChannels: int, sampleRate: int, blockSize: int,
                         env: JobEnv): Capture
    requires JobParamsOk(numChannels, blockSize, env)
  {
    if LoopbackGateFor(jobActive, sdkInt, resultData) != Launch then before
    else Launched(true, ProjectionAfter(before.projection, outcome), before, numChannels, sampleRate, blockSize, env)
  }

  /** The fields after startMicRecording: unchanged while a job is active, otherwise a microphone job. */
  function MicAfter(jobActive: bool, before: Capture, numChannels: int, sampleRate: int, blockSize: int,
                    env: JobEnv): Capture
    requires JobParamsOk(numChannels, blockSize, env)
  {
    if jobActive then before else Launched(false, None, before, numChannels, sampleRate, blockSize, env)
  }

  /** The fields after the start routine the capture type selects. */
  function StartCapture(p: StartParams, jobActive: bool, sdkInt: int, before: Capture, outcome: ProjectionOutcome,
                        env: JobEnv): Capture
    requires JobParamsOk(p.channels, p.blockSize, env)
  {
    if p.captureType == "loopback" then
      LoopbackAfter(jobActive, sdkInt, p.resultData, before, outcome, p.channels, p.sampleRate, p.blockSize, env)
    else MicAfter(jobActive, before, p.channels, p.sampleRate, p.blockSize, env)
  }

  /** A start command launches a job iff StartLaunches says so; the job it then holds is the one
      whose sends StartJobSends lists, and it is active iff that job keeps running. Without a
      launch the fields stay as they were. */
  lemma StartCaptureLaunches(p: StartParams, jobActive: bool, sdkInt: int, before: Capture,
                             outcome: ProjectionOutcome, env: JobEnv)
    requires JobParamsOk(p.channels, p.blockSize, env)
    ensures var after := StartCapture(p, jobActive, sdkInt, before, outcome, env);
            (!StartLaunches(p, jobActive, sdkInt) ==> after == before) &&
            (StartLaunches(p, jobActive, sdkInt) ==>
               after.job.Some? &&
               after.job.value.run.sends == StartJobSends(p, jobActive, sdkInt, before.projection, outcome, env))
  {
  }

  /** While a job is active, a second start command launches nothing and changes none of the fields:
      it sends only "recordingStarted". */
  lemma StartWhileActiveOnlyAnnounces(p: StartParams, sdkInt: int, before: Capture, outcome: ProjectionOutcome,
                                      env: JobEnv)
    requires JobParamsOk(p.channels, p.blockSize, env)
    ensures StartCapture(p, true, sdkInt, before, outcome, env) == before
    ensures StartSends(p, true, sdkInt, before.projection, outcome, env) == [Bridge.OutState("recordingStarted")]
  {
  }

  /** Errors, then one state event, then sends that hold no state event: the state event is the
      only one, and everything before it is an error. */
  lemma AnnouncedOnce(prefix: seq<Bridge.Outgoing>, state: string, job: seq<Bridge.Outgoing>)
    requires forall j :: 0 <= j < |prefix| ==> prefix[j].OutError?
    requires forall j :: 0 <= j < |job| ==> !job[j].OutState?
    ensures var sends := prefix + [Bridge.OutState(state)] + job;
            exists k :: 0 <= k < |sends| && sends[k] == Bridge.OutState(state) &&
              (forall j :: 0 <= j < k ==> sends[j].OutError?) &&
              (forall j :: k < j < |sends| ==> !sends[j].OutState?)
  {
    var sends := prefix + [Bridge.OutState(state)] + job;
    var k := |prefix|;
    assert sends[k] == Bridge.OutState(state);
    forall j | 0 <= j < k ensures sends[j].OutError? {
      assert sends[j] == prefix[j];
    }
    forall j | k < j < |sends| ensures !sends[j].OutState? {
      assert sends[j] == job[j - k - 1];
    }
  }

  /** A start command always sends "recordingStarted" exactly once, after any direct error and
      before every send of the job it launches; a refused loopback start sends one error first. */
  lemma StartAlwaysAnnounces(p: StartParams, jobActive: bool, sdkInt: int, projectionBefore: Option<ProjectionData>,
                             outcome: ProjectionOutcome, env: JobEnv)
    requires JobParamsOk(p.channels, p.blockSize, env)
    ensures var sends := StartSends(p, jobActive, sdkInt, projectionBefore, outcome, env);
            exists k :: 0 <= k < |sends| && sends[k] == Bridge.OutState("recordingStarted") &&
              (forall j :: 0 <= j < k ==> sends[j].OutError?) &&
              (forall j :: k < j < |sends| ==> !sends[j].OutState?)
    ensures p.captureType == "loopback" && LoopbackGateFor(jobActive, sdkInt, p.resultData) == NotSupported ==>
              StartSends(p, jobActive, sdkInt, projectionBefore, outcome, env) ==
                [Bridge.OutError("not_supported"), Bridge.OutState("recordingStarted")]
    ensures p.captureType == "loopback" && LoopbackGateFor(jobActive, sdkInt, p.resultData) == PermissionDenied ==>
              StartSends(p, jobActive, sdkInt, projectionBefore, outcome, env) ==
                [Bridge.OutError("permission_denied"), Bridge.OutState("recordingStarted")]
  {
    var prefix := StartDirectSends(p, jobActive, sdkInt, outcome);
    var job := StartJobSends(p, jobActive, sdkInt, projectionBefore, outcome, env);
    assert |prefix| <= 1 && (|prefix| == 1 ==> prefix[0].OutError?);
    if StartLaunches(p, jobActive, sdkInt) {
      if p.captureType == "loopback" {
        JobSendsShape(true, ProjectionAfter(projectionBefore, outcome), p.channels, p.blockSize, env);
      } else {
        JobSendsShape(false, None, p.channels, p.blockSize, env);
      }
    }
    AnnouncedOnce(prefix, "recordingStarted", job);
    assert StartSends(p, jobActive, sdkInt, projectionBefore, outcome, env) ==
           prefix + [Bridge.OutState("recordingStarted")] + job;
  }

  lemma Regroup<T>(d: seq<T>, a: seq<T>, b: seq<T>, c: seq<T>)
    ensures d + a + b + c == d + (a + b + c)
  {
  }

  /** The capture job the service holds; it is active while it runs its read loop. */
  datatype Job = Job(run: JobRun)

  class RecordingService {
    /** Build.VERSION.SDK_INT. */
    const sdkInt: int
    /** The RecordingBridge object. */
    const bridge: Bridge.RecordingBridge

    var audioRecord: Option<RecordConfig>
    var mediaProjection: Option<ProjectionData>
    var captureJob: Option<Job>
    /** The companion object's isRecording flag. */
    var isRecording: bool
    /** Whether startForeground is in effect. */
    var foreground: bool
    /** Sends a job has queued with withContext(Dispatchers.Main), waiting for the main thread. */
    var mainQueue: seq<Bridge.Outgoing>

    constructor (sdkInt: int, bridge: Bridge.RecordingBridge)
      ensures this.sdkInt == sdkInt && this.bridge == bridge
      ensures audioRecord == None && mediaProjection == None && captureJob == None
      ensures !isRecording && !foreground && mainQueue == []
    {
      this.sdkInt := sdkInt;
      this.bridge := bridge;
      audioRecord, mediaProjection, captureJob := None, None, None;
      isRecording, foreground := false, false;
      mainQueue := [];
    }

    /** The job, AudioRecord and projection fields together. */
    ghost function Current(): Capture
      reads this`captureJob, this`audioRecord, this`mediaProjection
    {
      Capture(captureJob, audioRecord, mediaProjection)
    }

    /** captureJob?.isActive == true. */
    predicate JobActive()
      reads this
    {
      captureJob.Some? && captureJob.value.run.running
    }

    /** Launches a job and keeps it: the job's sends wait for the main thread, and the AudioRecord
        field takes the record the job assigns. */
    method LaunchJob(loopback: bool, numChannels: int, sampleRate: int, blockSize: int, env: JobEnv)
      requires JobParamsOk(numChannels, blockSize, env)
      modifies this`captureJob, this`audioRecord, this`mainQueue
      ensures captureJob == Some(Job(JobRun(JobSends(loopback, if loopback then mediaProjection else None, numChannels, blockSize, env),
                                            JobRecord(loopback, if loopback then mediaProjection else None, numChannels, sampleRate, blockSize, env),
                                            JobKeepsRunning(loopback, if loopback then mediaProjection else None, numChannels, blockSize, env))))
      ensures mainQueue == old(mainQueue) + captureJob.value.run.sends
      ensures audioRecord == (if captureJob.value.run.recordSet.Some? then captureJob.value.run.recordSet else old(audioRecord))
      ensures Current() == Launched(loopback, if loopback then mediaProjection else None, old(Current()),
                                    numChannels, sampleRate, blockSize, env)
    {
      var run := RunCaptureJob(loopback, if loopback then mediaProjection else None, numChannels, sampleRate, blockSize, env);
      captureJob := Some(Job(run));
      mainQueue := mainQueue + run.sends;
      if run.recordSet.Some? {
        audioRecord := run.recordSet;
      }
    }

    /** startLoopbackRecording: an active job, an SDK before Q or missing consent data stop it;
        otherwise the projection is requested (a failure is reported but does not stop it), the
        flag is raised and a job is launched. */
    method StartLoopbackRecording(resultCode: int, resultData: Option<ProjectionData>, numChannels: int,
                                  sampleRate: int, blockSize: int, outcome: ProjectionOutcome, env: JobEnv)
      requires JobParamsOk(numChannels, blockSize, env)
      modifies this`captureJob, this`audioRecord, this`mainQueue, this`mediaProjection, this`isRecording,
               bridge`delivered
      ensures var gate := LoopbackGateFor(old(JobActive()), sdkInt, resultData);
              (gate != Launch ==>
                 captureJob == old(captureJob) && audioRecord == old(audioRecord) && mainQueue == old(mainQueue) &&
                 mediaProjection == old(mediaProjection) && isRecording == old(isRecording)) &&
              (gate == AlreadyActive ==> bridge.delivered == old(bridge.delivered)) &&
              (gate == NotSupported ==>
                 bridge.delivered == old(bridge.delivered) + Emit(bridge.eventSink, Error("not_supported"))) &&
              (gate == PermissionDenied ==>
                 bridge.delivered == old(bridge.delivered) + Emit(bridge.eventSink, Error("permission_denied"))) &&
              (gate == Launch ==>
                 mediaProjection == ProjectionAfter(old(mediaProjection), outcome) && isRecording &&
                 bridge.delivered == old(bridge.delivered) +
                   (if outcome.ProjectionThrows? then Emit(bridge.eventSink, Error("projection_failed")) else []) &&
                 captureJob.Some? &&
                 captureJob.value.run.sends == JobSends(true, mediaProjection, numChannels, blockSize, env) &&
                 captureJob.value.run.running == JobKeepsRunning(true, mediaProjection, numChannels, blockSize, env) &&
                 mainQueue == old(mainQueue) + captureJob.value.run.sends)
      ensures Current() == LoopbackAfter(old(JobActive()), sdkInt, resultData, old(Current()), outcome,
                                         numChannels, sampleRate, blockSize, env)
    {
      if JobActive() {
        return;
      }
      if sdkInt < SDK_Q {
        bridge.SendError("not_supported");
        return;
      }
      if resultData.None? {
        bridge.SendError("permission_denied");
        return;
      }
      match outcome {
        case ProjectionGranted(token) => mediaProjection := Some(token);
        case ProjectionNull => mediaProjection := None;
        case ProjectionThrows => bridge.SendError("projection_failed");
      }
      isRecording := true;
      LaunchJob(true, numChannels, sampleRate, blockSize, env);
    }

    /** startMicRecording: an active job stops it; otherwise a microphone job is launched. */
    method StartMicRecording(numChannels: int, sampleRate: int, blockSize: int, env: JobEnv)
      requires JobParamsOk(numChannels, blockSize, env)
      modifies this`captureJob, this`audioRecord, this`mainQueue
      ensures old(JobActive()) ==>
                captureJob == old(captureJob) && audioRecord == old(audioRecord) && mainQueue == old(mainQueue)
      ensures !old(JobActive()) ==>
                captureJob.Some? &&
                captureJob.value.run.sends == JobSends(false, None, numChannels, blockSize, env) &&
                captureJob.value.run.running == JobKeepsRunning(false, None, numChannels, blockSize, env) &&
                mainQueue == old(mainQueue) + captureJob.value.run.sends
      ensures Current() == MicAfter(old(JobActive()), old(Current()), numChannels, sampleRate, blockSize, env)
    {
      if JobActive() {
        return;
      }
      LaunchJob(false, numChannels, sampleRate, blockSize, env);
    }

    /** stopCapture: lowers the flag, cancels and drops the job, and releases and drops the
        AudioRecord and the projection. */
    method StopCapture()
      modifies this`isRecording, this`captureJob, this`audioRecord, this`mediaProjection
      ensures !isRecording && captureJob == None && audioRecord == None && mediaProjection == None
    {
      isRecording := false;
      captureJob := None;
      audioRecord := None;
      mediaProjection := None;
    }

    /** The main thread runs the blocks the job queued, in order. */
    method DrainMainQueue()
      modifies this`mainQueue, bridge`delivered
      ensures mainQueue == []
      ensures bridge.delivered == old(bridge.delivered) + Bridge.Deliveries(bridge.eventSink, old(mainQueue))
    {
      bridge.SendAll(mainQueue);
      mainQueue := [];
    }

    /** The ACTION_START branch up to its state event: go to the foreground, raise the flag, and
        run the start routine the capture type selects. */
    method StartRoutine(p: StartParams, outcome: ProjectionOutcome, env: JobEnv)
      requires JobParamsOk(p.channels, p.blockSize, env)
      modifies this`foreground, this`isRecording, this`captureJob, this`audioRecord, this`mainQueue,
               this`mediaProjection, bridge`delivered
      ensures isRecording && foreground
      ensures mainQueue == old(mainQueue) + StartJobSends(p, old(JobActive()), sdkInt, old(mediaProjection), outcome, env)
      ensures bridge.delivered ==
                old(bridge.delivered) + Bridge.Deliveries(bridge.eventSink, StartDirectSends(p, old(JobActive()), sdkInt, outcome))
      ensures Current() == StartCapture(p, old(JobActive()), sdkInt, old(Current()), outcome, env)
    {
      ghost var direct := StartDirectSends(p, JobActive(), sdkInt, outcome);
      if |direct| == 1 {
        Bridge.DeliveriesOfOne(bridge.eventSink, direct[0]);
        assert direct == [direct[0]];
      }
      foreground := true;
      isRecording := true;
      if p.captureType == "loopback" {
        StartLoopbackRecording(p.resultCode, p.resultData, p.channels, p.sampleRate, p.blockSize, outcome, env);
      } else {
        StartMicRecording(p.channels, p.sampleRate, p.blockSize, env);
      }
    }

    /** The ACTION_START branch: the start routine, the state event, and then the sends the job
        has queued as the main thread reaches them. */
    method StartCommand(p: StartParams, outcome: ProjectionOutcome, env: JobEnv)
      requires JobParamsOk(p.channels, p.blockSize, env) && mainQueue == []
      modifies this`foreground, this`isRecording, this`captureJob, this`audioRecord, this`mainQueue,
               this`mediaProjection, bridge`delivered
      ensures isRecording && foreground && mainQueue == []
      ensures bridge.delivered == old(bridge.delivered) +
                Bridge.Deliveries(bridge.eventSink, StartSends(p, old(JobActive()), sdkInt, old(mediaProjection), outcome, env))
      ensures Current() == StartCapture(p, old(JobActive()), sdkInt, old(Current()), outcome, env)
    {
      ghost var direct := StartDirectSends(p, JobActive(), sdkInt, outcome);
      ghost var job := StartJobSends(p, JobActive(), sdkInt, mediaProjection, outcome, env);
      ghost var started := [Bridge.OutState("recordingStarted")];
      ghost var sink := bridge.eventSink;
      StartRoutine(p, outcome, env);
      ghost var d1 := bridge.delivered;
      bridge.SendState("recordingStarted");
      assert bridge.delivered == d1 + Bridge.Deliveries(sink, started) by {
        assert started[..0] == [];
      }
      ghost var d2 := bridge.delivered;
      assert mainQueue == job && bridge.eventSink == sink;
      DrainMainQueue();
      assert bridge.delivered == d2 + Bridge.Deliveries(sink, job);
      Bridge.DeliveriesAppend(sink, direct, started);
      Bridge.DeliveriesAppend(sink, direct + started, job);
      assert StartSends(p, old(JobActive()), sdkInt, old(mediaProjection), outcome, env) == direct + started + job;
      Regroup(old(bridge.delivered), Bridge.Deliveries(sink, direct), Bridge.Deliveries(sink, started),
              Bridge.Deliveries(sink, job));
    }

    /** The ACTION_STOP branch: stop capturing, leave the foreground and announce the stop. */
    method StopCommand()
      modifies this`foreground, this`isRecording, this`captureJob, this`audioRecord, this`mediaProjection,
               bridge`delivered
      ensures !isRecording && !foreground && captureJob == None && audioRecord == None && mediaProjection == None
      ensures bridge.delivered == old(bridge.delivered) + Emit(bridge.eventSink, State("recordingStopped"))
    {
      StopCapture();
      isRecording := false;
      foreground := false;
      bridge.SendState("recordingStopped");
    }

    /** onStartCommand: start, stop, or refresh the notification; other intents are ignored.
        The service always asks to be restarted (START_STICKY). */
    method OnStartCommand(intent: Option<Intent>, outcome: ProjectionOutcome, env: JobEnv) returns (r: int)
      requires mainQueue == []
      requires intent.Some? && intent.value.action == Some(ActionStart) ==>
                 JobParamsOk(StartParamsOf(intent.value).channels, StartParamsOf(intent.value).blockSize, env)
      modifies this`foreground, this`isRecording, this`captureJob, this`audioRecord, this`mainQueue,
               this`mediaProjection, bridge`delivered
      ensures r == START_STICKY && mainQueue == []
      ensures intent.Some? && intent.value.action == Some(ActionStart) ==>
                isRecording && foreground &&
                bridge.delivered == old(bridge.delivered) +
                  Bridge.Deliveries(bridge.eventSink,
                    StartSends(StartParamsOf(intent.value), old(JobActive()), sdkInt, old(mediaProjection), outcome, env)) &&
                Current() == StartCapture(StartParamsOf(intent.value), old(JobActive()), sdkInt, old(Current()), outcome, env)
      ensures intent.Some? && intent.value.action == Some(ActionStop) ==>
                !isRecording && !foreground && captureJob == None && audioRecord == None && mediaProjection == None &&
                bridge.delivered == old(bridge.delivered) + Emit(bridge.eventSink, State("recordingStopped"))
      ensures !(intent.Some? && intent.value.action.Some? && intent.value.action.value in {ActionStart, ActionStop}) ==>
                bridge.delivered == old(bridge.delivered) && isRecording == old(isRecording) &&
                foreground == old(foreground) && Current() == old(Current())
    {
      r := START_STICKY;
      if intent.None? || intent.value.action.None? {
        return;
      }
      match intent.value.action.value {
        case ActionStart =>
          StartCommand(StartParamsOf(intent.value), outcome, env);
        case ActionStop =>
          StopCommand();
        case ActionUpdateNotification =>
        case ActionPause =>
        case ActionResume =>
      }
    }
  }
}
