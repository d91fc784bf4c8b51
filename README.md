# System audio capture core, modelled in Dafny

This project models the capture core of a Flutter app that streams system or microphone audio
to Dart. It covers the two native hosts.

- **Windows runner** (module `WindowsCapture`, file `windows.dfy`). `FlutterWindow` answers the
  method channel `system_audio_recorder/methods` with:
  - `requestDeviceList`, which enumerates WASAPI capture and render endpoints;
  - `startRecording`, which parses the arguments, tears down any previous session and starts a
    capture thread;
  - `stopRecording`.

  The capture thread sets up a shared-mode WASAPI stream, in loopback mode or not, and negotiates
  the wave format. It then pulls packets until the capture flag drops. Every event posts a window
  message and keeps its payload in a "posted" list. The window procedure hands the payload to the
  event sink and erases it from that list.
- **Android app** (modules `Service`, `Activity` and `Bridge`):
  - `MainActivity` obtains MediaProjection consent and turns method calls into Intents.
  - `RecordingService` runs a capture job. The job reads floats from an `AudioRecord`,
    down-mixes stereo to mono, slices the result into blocks of `blockSize` samples, and hands
    each block to the main thread.
  - `RecordingBridge` holds the event sink and sends `audio`, `state` and `error` maps.
- **Event maps** (module `Channel`, file `channel.dfy`). Both hosts send the same tagged maps on
  `system_audio_recorder/events`. This module gives them one encoding and proves that it
  decodes back.

State that the source mutates is modelled as classes with `modifies` frames:
- `FlutterWindow`, with its posted lists, message queue, replies and delivered maps;
- `RecordingService`, `MainActivity` and `RecordingBridge`.

Loops become methods proved against recursive specification functions:
- the WASAPI pull loop: `CaptureLoop` and `DrainPackets` against `Loop` and `Drain`;
- device enumeration: `EnumerateDevices` against `Records`;
- the Android read, down-mix and slice loop: `CaptureJobLoop`, `ReadPass`, `AppendRead` and
  `SliceBlocks` against `Produced`, `Chunks` and `Remainder`.

The in-place `tempBuffer` stays an `array<real>`.

Some inputs from the environment become parameters:
- Driver behaviour: HRESULTs, packets, wakes of the event handle, `AudioRecord.read` results,
  `getMediaProjection` outcomes, the SDK level, and whether a window handle and a device
  enumerator exist.
- The capture flag (`is_capturing_`, or `isRecording && isActive`) is a budget of reads that
  still return true. A thread stops at the first read that returns false. This stands in for a
  stop that some other thread requests at an unknown time.

Facts about the code that the model keeps as written:
- The Windows code keeps no ring buffer. Each packet's `frames * nBlockAlign` bytes become one
  audio event, with no silence substitution and no slicing into blocks (flutter_window.cpp:719-731).
- The stream buffer duration is always one second: 10 000 000 units of 100 ns
  (flutter_window.cpp:661-667).
- A `captureType` other than "capture" or "loopback" makes the capture thread do nothing and
  send no error (flutter_window.cpp:579-586).
- A device record has exactly six keys: id, name, description, isActive, isDefault and type.
  It carries no sample rate (flutter_window.cpp:470-480).
- Two threads touch the posted lists, and no lock guards them (flutter_window.cpp:190 and
  386).
- The sample rate goes through `static_cast<WORD>`, so a rate of 96000 is requested as 30464
  (flutter_window.cpp:612, shown by `RequestedRateIsTruncated`).

## Model

| member | source | states |
|---|---|---|
| Channel.Encode | windows/runner/flutter_window.cpp:179-250 | every event becomes a two-key map whose "type" entry is a string tag |
| Channel.DecodeEncode | windows/runner/flutter_window.cpp:179-250 | every event map a host sends decodes back to the event it was built from (audio, state, error, devicesInfo) |
| Channel.EncodeInjective | windows/runner/flutter_window.cpp:179-250 | distinct events are sent as distinct maps |
| Channel.Emit | android/app/src/main/kotlin/in/drdna/ledfx/RecordingBridge.kt:32-43 | with no listener an event is dropped; with one, exactly one map goes to that sink and decodes to the event |
| Bridge.EventOf | android/app/src/main/kotlin/in/drdna/ledfx/RecordingBridge.kt:32-43 | sendAudio, sendState and sendError build the audio, state and error events with the payload given |
| Bridge.Deliveries | android/app/src/main/kotlin/in/drdna/ledfx/RecordingBridge.kt:32-43 | a run of sends delivers nothing without a sink, and one map per send with one |
| Bridge.DeliveriesAppend | android/app/src/main/kotlin/in/drdna/ledfx/RecordingBridge.kt:32-43 | two runs of sends deliver what each delivers, in order |
| Bridge.DeliveriesInOrder | android/app/src/main/kotlin/in/drdna/ledfx/RecordingBridge.kt:32-43 | with a sink attached, the i-th send is the i-th delivered map, goes to that sink and decodes to its event |
| Bridge.RecordingBridge.constructor | android/app/src/main/kotlin/in/drdna/ledfx/RecordingBridge.kt:7 | no sink is attached and nothing has been delivered |
| Bridge.RecordingBridge.OnListen | android/app/src/main/kotlin/in/drdna/ledfx/RecordingBridge.kt:21-23 | the sink handed over (possibly null) replaces the old one |
| Bridge.RecordingBridge.OnCancel | android/app/src/main/kotlin/in/drdna/ledfx/RecordingBridge.kt:24-26 | the sink is dropped |
| Bridge.RecordingBridge.SendAudio | android/app/src/main/kotlin/in/drdna/ledfx/RecordingBridge.kt:32-34 | appends one audio map for an attached sink and nothing otherwise |
| Bridge.RecordingBridge.SendState | android/app/src/main/kotlin/in/drdna/ledfx/RecordingBridge.kt:36-39 | appends one state map for an attached sink and nothing otherwise |
| Bridge.RecordingBridge.SendError | android/app/src/main/kotlin/in/drdna/ledfx/RecordingBridge.kt:41-43 | appends one error map for an attached sink and nothing otherwise |
| Bridge.RecordingBridge.Send | android/app/src/main/kotlin/in/drdna/ledfx/RecordingBridge.kt:32-43 | one send appends what that send emits |
| Bridge.RecordingBridge.SendAll | android/app/src/main/kotlin/in/drdna/ledfx/RecordingBridge.kt:32-43 | a run of sends appends exactly Deliveries of that run, in order |
| WindowsCapture.Word | windows/runner/flutter_window.cpp:611-613 | static_cast<WORD> keeps the value modulo 2^16 and is the identity on 16-bit values |
| WindowsCapture.Dword | windows/runner/flutter_window.cpp:615 | unsigned 32-bit arithmetic: the result is below 2^32 and congruent to the value modulo 2^32, and is the value itself when it fits |
| WindowsCapture.StringArg | windows/runner/flutter_window.cpp:295-306 | an argument is found iff its key is present with a string value, and then it is that string |
| WindowsCapture.IntArg | windows/runner/flutter_window.cpp:308-319 | a 32-bit int argument is used as given; an absent or differently typed one takes the default |
| WindowsCapture.ParseStartArgs | windows/runner/flutter_window.cpp:286-337 | a non-map is INVALID_ARGUMENTS; a missing or empty deviceId, then captureType, gives its MISSING_ARGUMENT error; the call is accepted iff both are non-empty strings, with the int arguments read by IntArg |
| WindowsCapture.StartArgsDefaults | windows/runner/flutter_window.cpp:335-337 | without int arguments the request is 44100 Hz, one channel, 16 bits |
| WindowsCapture.RequestedFormat | windows/runner/flutter_window.cpp:609-616 | a PCM WAVEFORMATEX whose fields are the WORD casts of the request, with the block align and byte rate derived from them |
| WindowsCapture.PcmFrameSize | windows/runner/flutter_window.cpp:614 | helper of RequestedFormatIsPcm: on its range, channels*(8*bytes)/8 equals channels*bytes |
| WindowsCapture.ByteRateFits | windows/runner/flutter_window.cpp:615 | helper of RequestedFormatIsPcm: a 16-bit rate times a block align of at most 32 stays below 2^32 |
| WindowsCapture.RequestedFormatIsPcm | windows/runner/flutter_window.cpp:609-616 | for a 16-bit rate and 1-8 channels of whole bytes the requested format is consistent PCM: block align = channels*bytes and byte rate = rate*block align |
| WindowsCapture.RequestedRateIsTruncated | windows/runner/flutter_window.cpp:612 | two examples of Word applied to the rate: 48000 Hz is requested unchanged, 96000 Hz as 30464 Hz |
| WindowsCapture.Negotiate | windows/runner/flutter_window.cpp:619-635 | negotiation fails iff IsFormatSupported fails; S_FALSE with a closest format uses it; otherwise the requested format is used |
| WindowsCapture.SetupOutcome | windows/runner/flutter_window.cpp:564-698 | setup is ready iff the enumerator exists, every COM step succeeds and the capture type is "capture" or "loopback"; it is skipped iff only the capture type is unknown; a rejected format stops it with "Requested audio format not supported" |
| WindowsCapture.SetupStreamInit | windows/runner/flutter_window.cpp:655-667 | a ready setup initialises an event-driven stream, in loopback mode iff the capture type is "loopback", with a one-second buffer and the negotiated format |
| WindowsCapture.PacketBytes | windows/runner/flutter_window.cpp:722 | buffer_size is frames*nBlockAlign as a UINT32: below 2^32, exact when the product fits |
| WindowsCapture.Copy | windows/runner/flutter_window.cpp:726 | the copied payload holds exactly the first n bytes of the packet's memory |
| WindowsCapture.PacketStep | windows/runner/flutter_window.cpp:719-731 | a failed GetBuffer does nothing; a successful one acquires and releases the packet's frame count and sends its bytes iff there are any |
| WindowsCapture.Drain | windows/runner/flutter_window.cpp:713-734 | the inner loop uses up no more true reads of the flag than it has |
| WindowsCapture.HandlePacket | windows/runner/flutter_window.cpp:719-731 | one GetBuffer/ReleaseBuffer round extends the trace by exactly PacketStep |
| WindowsCapture.DrainPackets | windows/runner/flutter_window.cpp:713-734 | the inner while loop extends the trace by exactly Drain and leaves the flag reads Drain leaves |
| WindowsCapture.CaptureLoop | windows/runner/flutter_window.cpp:705-736 | the outer capture loop produces exactly the trace of the Loop specification |
| WindowsCapture.DrainReleasesWhatItAcquires | windows/runner/flutter_window.cpp:719-731 | every buffer the inner loop acquires is released with the same frame count, in order |
| WindowsCapture.LoopReleasesWhatItAcquires | windows/runner/flutter_window.cpp:705-736 | the whole capture loop releases exactly the frame counts it acquires |
| WindowsCapture.DrainStopsAtEmptyOrStop | windows/runner/flutter_window.cpp:713-734 | each handled packet costs one true read of the flag, and the drain never goes past a packet whose announced size is zero |
| WindowsCapture.DrainRunsToEmptyOrStop | windows/runner/flutter_window.cpp:713-734 | the inner loop stops only when no true flag read is left or GetNextPacketSize announces zero for the packet after the handled ones |
| WindowsCapture.DrainAudioWellSized | windows/runner/flutter_window.cpp:722-728 | every audio payload of a drain holds 1 to 2^32-1 bytes, and there is at most one per acquired packet |
| WindowsCapture.LoopAudioWellSized | windows/runner/flutter_window.cpp:705-736 | the same holds for the whole capture loop |
| WindowsCapture.AudioSends | windows/runner/flutter_window.cpp:726-727 | one audio event per copied payload, in order |
| WindowsCapture.ThreadSendsAnnounceOutcome | windows/runner/flutter_window.cpp:562-702 | "recordingStarted" is sent iff setup is ready, and first, followed only by audio; a failed setup sends exactly its one error; an unknown capture type sends nothing |
| WindowsCapture.AudioCaptureThread | windows/runner/flutter_window.cpp:562-598 | a thread sends ThreadSends, releases every buffer it acquires, and leaves client pointers and its Initialize call as its setup outcome says |
| WindowsCapture.DeviceRecordFields | windows/runner/flutter_window.cpp:470-478 | a device record has exactly the keys id, name, description, isActive (true), isDefault (iff its id is the default endpoint's) and type ("input" for capture, "output" for render) |
| WindowsCapture.Found | windows/runner/flutter_window.cpp:460-465 | exactly the items whose lookup succeeds are found |
| WindowsCapture.FoundSnoc | windows/runner/flutter_window.cpp:460-465 | one more item adds itself to the found items iff its lookup succeeds |
| WindowsCapture.RecordsDescribeLookups | windows/runner/flutter_window.cpp:460-485 | there is one record per successful lookup, in collection order, and each is that item's device record |
| WindowsCapture.EnumerateDevices | windows/runner/flutter_window.cpp:436-496 | the loop over the collection returns exactly RoleDevices; without an enumerator or with a failed EnumAudioEndpoints it returns nothing |
| WindowsCapture.EnumerateAudioDevices | windows/runner/flutter_window.cpp:426-434 | the capture devices followed by the render devices |
| WindowsCapture.EventOf | windows/runner/flutter_window.cpp:179-250 | each kind of posted message becomes the event of that kind with the posted payload |
| WindowsCapture.PendingAppend | windows/runner/flutter_window.cpp:374-424 | posting one message adds its payload to the end of its kind's posted list only |
| WindowsCapture.Erase | windows/runner/flutter_window.cpp:190-194 | erasing by pointer keeps exactly the entries with another pointer |
| WindowsCapture.EraseAbsent | windows/runner/flutter_window.cpp:190-194 | erasing a pointer that is not in the list changes nothing |
| WindowsCapture.QueuePush | windows/runner/flutter_window.cpp:374-424 | posting a message with the next fresh pointer keeps the queue's bookkeeping consistent |
| WindowsCapture.QueuePop | windows/runner/flutter_window.cpp:179-250 | handling the oldest message removes exactly that payload from its kind's posted list and leaves the others |
| WindowsCapture.PostedPop | windows/runner/flutter_window.cpp:179-250 | the oldest message's payload is at the head of its kind's posted list, with a non-null pointer, and erasing it keeps every posted list equal to the pending messages of its kind |
| WindowsCapture.FlutterWindow.constructor | windows/runner/flutter_window.h:51-67 | a fresh window: no sink, not capturing, no thread or clients, 44100 Hz, 2 channels, 16 bits, nothing posted or delivered |
| WindowsCapture.FlutterWindow.OnStreamListen | windows/runner/flutter_window.cpp:746-749 | the sink handed over replaces the old one |
| WindowsCapture.FlutterWindow.OnStreamCancel | windows/runner/flutter_window.cpp:751-755 | the sink is dropped |
| WindowsCapture.FlutterWindow.SendEvent | windows/runner/flutter_window.cpp:374-424 | without a window handle nothing is posted; with one, the message is queued with a fresh pointer and its payload is kept |
| WindowsCapture.FlutterWindow.SendAll | windows/runner/flutter_window.cpp:374-424 | a run of Send*Event calls posts all of them in order, or none without a window handle |
| WindowsCapture.FlutterWindow.DispatchNext | windows/runner/flutter_window.cpp:179-250 | the window procedure handles the oldest posted message: it delivers that event to the attached sink, or drops it without one, and forgets its payload |
| WindowsCapture.FlutterWindow.StopAudioCapture | windows/runner/flutter_window.cpp:537-560 | capture is off, the thread is joined, both clients are released, and "recordingStopped" is posted |
| WindowsCapture.FlutterWindow.SpawnCaptureThread | windows/runner/flutter_window.cpp:533-534 | the new thread's sends are posted after what was already in flight, and its client pointers follow its setup |
| WindowsCapture.FlutterWindow.StartAudioCapture | windows/runner/flutter_window.cpp:522-535 | the previous session is stopped first ("recordingStopped"), then the request is stored, capture is on and the new thread's sends follow |
| WindowsCapture.FlutterWindow.RecordRequest | windows/runner/flutter_window.cpp:527-531 | the device id, capture type, rate, channels and bits become those of the request |
| WindowsCapture.FlutterWindow.HandleMethodCall | windows/runner/flutter_window.cpp:256-371 | requestDeviceList posts the device list and replies success; a rejected startRecording replies its error; neither touches the session fields. An accepted startRecording posts "recordingStopped" and then the new thread's events, leaves a session running for the parsed request (Started) and replies success. stopRecording leaves no session (Stopped), posts "recordingStopped" and replies success. Any other method is not implemented and changes nothing |
| WindowsCapture.FlutterWindow.RequestDeviceList | windows/runner/flutter_window.cpp:261-276 | one devicesInfo event with both roles' devices is posted, then success is replied |
| WindowsCapture.FlutterWindow.StartRecording | windows/runner/flutter_window.cpp:277-353 | rejected arguments reply their error and leave the session fields and the events unchanged; accepted ones leave a session running for the parsed request (Started) and reply success |
| WindowsCapture.FlutterWindow.StopRecording | windows/runner/flutter_window.cpp:354-366 | the session is stopped (flag down, no thread, both clients released), "recordingStopped" is posted and success is replied |
| Service.OrElse | android/app/src/main/kotlin/in/drdna/ledfx/RecordingService.kt:38-42 | an extra that is present is used, and a missing one takes its default |
| Service.StartParamsDefaults | android/app/src/main/kotlin/in/drdna/ledfx/RecordingService.kt:38-48 | defaults "loopback", 2 channels, 44100 Hz, 1024 samples, result code 0; extras that are present are used as given |
| Service.ChannelMaskFor | android/app/src/main/kotlin/in/drdna/ledfx/RecordingService.kt:125-127 | the stereo mask is used iff two channels are asked for |
| Service.BufferSizeInBytes | android/app/src/main/kotlin/in/drdna/ledfx/RecordingService.kt:136-142 | the record buffer is the larger of the minimum buffer and blockSize*numChannels*4 bytes |
| Service.Overwrite | android/app/src/main/kotlin/in/drdna/ledfx/RecordingService.kt:164-170 | a read overwrites tempBuffer without changing its length |
| Service.BufferAfter | android/app/src/main/kotlin/in/drdna/ledfx/RecordingService.kt:160-170 | tempBuffer keeps its allocated size through every read |
| Service.Downmix | android/app/src/main/kotlin/in/drdna/ledfx/RecordingService.kt:172-183 | stereo reads give one sample per pair (rounded up); mono reads give the read samples |
| Service.FullReadAddsOneBlock | android/app/src/main/kotlin/in/drdna/ledfx/RecordingService.kt:160-183 | a read that fills tempBuffer adds exactly one block of samples, mono or stereo |
| Service.NonPositiveReadAddsNothing | android/app/src/main/kotlin/in/drdna/ledfx/RecordingService.kt:171 | a read returning zero or an error code adds nothing |
| Service.FlattenAppend | android/app/src/main/kotlin/in/drdna/ledfx/RecordingService.kt:185-190 | the samples of two runs of blocks are those of each, in order |
| Service.CutIsUnique | android/app/src/main/kotlin/in/drdna/ledfx/RecordingService.kt:185-190 | blocks of exactly n samples followed by a shorter rest are the only such cut: Chunks and Remainder recover them |
| Service.ChunksHaveBlockSize | android/app/src/main/kotlin/in/drdna/ledfx/RecordingService.kt:185-190 | every chunk holds exactly n samples |
| Service.AppendRead | android/app/src/main/kotlin/in/drdna/ledfx/RecordingService.kt:172-183 | the accumulator grows by exactly the down-mix of tempBuffer |
| Service.SliceBlocks | android/app/src/main/kotlin/in/drdna/ledfx/RecordingService.kt:185-190 | the blocks followed by the rest are the accumulator; every block has blockSize samples and the rest is shorter |
| Service.ProcessRead | android/app/src/main/kotlin/in/drdna/ledfx/RecordingService.kt:171-191 | a non-positive read changes nothing; a positive one throws iff blockSize is negative, and otherwise cuts the grown accumulator into blocks and a short rest |
| Service.ReadStep | android/app/src/main/kotlin/in/drdna/ledfx/RecordingService.kt:164-183 | one more read overwrites the buffer and adds its down-mix to what the reads produced |
| Service.ReadInto | android/app/src/main/kotlin/in/drdna/ledfx/RecordingService.kt:164-170 | AudioRecord.read overwrites tempBuffer in place as the read result says |
| Service.ReadPass | android/app/src/main/kotlin/in/drdna/ledfx/RecordingService.kt:163-191 | one pass of the read loop throws iff samples meet a negative blockSize, and otherwise keeps the loop invariant |
| Service.CaptureJobLoop | android/app/src/main/kotlin/in/drdna/ledfx/RecordingService.kt:160-192 | the read loop throws iff blockSize is negative and some read has samples; otherwise its blocks are exactly the blockSize chunks of everything the reads produced, with the remainder left over |
| Service.AudioSends | android/app/src/main/kotlin/in/drdna/ledfx/RecordingService.kt:189 | one sendAudio per block, in order |
| Service.JobSendsShape | android/app/src/main/kotlin/in/drdna/ledfx/RecordingService.kt:116-206 | a job that ends sends exactly one error; a job that keeps running sends only audio blocks of exactly blockSize samples; no job sends a state event |
| Service.RunCaptureJob | android/app/src/main/kotlin/in/drdna/ledfx/RecordingService.kt:116-206 | the job body sends JobSends, assigns JobRecord and keeps running iff JobKeepsRunning |
| Service.AnnouncedOnce | android/app/src/main/kotlin/in/drdna/ledfx/RecordingService.kt:59-64 | errors, then one state event, then no state event: that state event is the only one |
| Service.StartAlwaysAnnounces | android/app/src/main/kotlin/in/drdna/ledfx/RecordingService.kt:37-65 | a start command sends "recordingStarted" exactly once, after any direct error and before all job sends; an SDK below Q or missing consent sends that one error first |
| Service.Launched | android/app/src/main/kotlin/in/drdna/ledfx/RecordingService.kt:116-120 | a launched job is kept with its JobSends and JobKeepsRunning; the record field takes the job's record if it assigns one; a loopback launch keeps its projection |
| Service.StartCaptureLaunches | android/app/src/main/kotlin/in/drdna/ledfx/RecordingService.kt:37-65 | without a launch the job, record and projection fields stay as they were; with one, the job held is the one whose sends StartJobSends lists |
| Service.StartWhileActiveOnlyAnnounces | android/app/src/main/kotlin/in/drdna/ledfx/RecordingService.kt:94 | while a job is active, a start command of either capture type changes no field and sends only "recordingStarted" |
| Service.RecordingService.constructor | android/app/src/main/kotlin/in/drdna/ledfx/RecordingService.kt:16-18 | no record, projection or job, not recording, not in the foreground, and nothing queued |
| Service.RecordingService.LaunchJob | android/app/src/main/kotlin/in/drdna/ledfx/RecordingService.kt:116-117 | the launched job is kept and its sends wait for the main thread. The record field takes the record the job assigns; the job, record and projection fields become Launched of the old ones |
| Service.RecordingService.StartLoopbackRecording | android/app/src/main/kotlin/in/drdna/ledfx/RecordingService.kt:87-207 | an active job, an SDK below Q or missing consent stop it: the latter two send not_supported and permission_denied, and none of the three changes any field. Otherwise the projection is requested (projection_failed on an exception), the flag is raised and a loopback job is launched. The job, record and projection fields become LoopbackAfter of the old ones |
| Service.RecordingService.StartMicRecording | android/app/src/main/kotlin/in/drdna/ledfx/RecordingService.kt:209-295 | an active job stops it with nothing changed; otherwise a microphone job is launched. The job, record and projection fields become MicAfter of the old ones |
| Service.RecordingService.StopCapture | android/app/src/main/kotlin/in/drdna/ledfx/RecordingService.kt:297-311 | the flag is lowered and the job, the record and the projection are dropped |
| Service.RecordingService.DrainMainQueue | android/app/src/main/kotlin/in/drdna/ledfx/RecordingService.kt:189 | the main thread runs every queued send, in order |
| Service.RecordingService.StartRoutine | android/app/src/main/kotlin/in/drdna/ledfx/RecordingService.kt:50-63 | the service is in the foreground and recording. The direct errors are delivered, the job's sends are queued, and the job, record and projection fields become StartCapture of the old ones |
| Service.RecordingService.StartCommand | android/app/src/main/kotlin/in/drdna/ledfx/RecordingService.kt:37-65 | a start delivers exactly StartSends: the direct errors, then "recordingStarted", then the job's sends. The job, record and projection fields become StartCapture of the old ones |
| Service.RecordingService.StopCommand | android/app/src/main/kotlin/in/drdna/ledfx/RecordingService.kt:66-76 | capture is stopped, the foreground is left and "recordingStopped" is sent |
| Service.RecordingService.OnStartCommand | android/app/src/main/kotlin/in/drdna/ledfx/RecordingService.kt:35-85 | START_STICKY always. ACTION_START delivers StartSends and leaves the StartCapture fields. ACTION_STOP stops capture and sends "recordingStopped". Any other or missing action sends nothing and changes no flag, job, record or projection |
| Activity.ActionIntent | android/app/src/main/kotlin/in/drdna/ledfx/MainActivity.kt:72-74 | the Intent carries the action and no extra |
| Activity.StartIntentParams | android/app/src/main/kotlin/in/drdna/ledfx/MainActivity.kt:60-64 | the start Intent makes the service capture system audio in 2 channels at 44100 Hz in blocks of 1024 samples, with the kept consent |
| Activity.MainActivity.constructor | android/app/src/main/kotlin/in/drdna/ledfx/MainActivity.kt:21-23 | no pending result, no kept consent, nothing replied or sent |
| Activity.MainActivity.OnProjectionResult | android/app/src/main/kotlin/in/drdna/ledfx/MainActivity.kt:29-39 | RESULT_OK with data is kept and answers true; anything else keeps the old consent and answers false; the pending result is answered once and dropped |
| Activity.MainActivity.OnMethodCall | android/app/src/main/kotlin/in/drdna/ledfx/MainActivity.kt:51-94 | requestProjection waits for consent; startRecording starts the foreground service iff a consent is kept and answers whether it did; stop, pause and resume send their action; anything else is not implemented |

## Left out

- Threads and timing. A capture thread or job is computed when it is spawned or launched. Its events are appended at that point (Windows) or delivered after onStartCommand returns (Android). Races are not modelled, including the unlocked access to the posted lists from two threads (flutter_window.cpp:190 and 386).
- The infinite `WaitForSingleObject` and the stop request from another thread. These are modelled as scripted wakes and a budget of flag reads that return true.
- WindowsCapture.FlutterWindow.StartAudioCapture: requires `DriverKeepsSignalling` (at least as many wakes as true flag reads). A driver that stops signalling would block the thread forever, and the model does not represent that state.
- COM reference counting, `CoInitializeEx`, `audio_client_->Start/Stop`, and the lifetime of the event handle and of the closest format. These are not modelled, including the `CoTaskMemFree(mix_format)` at flutter_window.cpp:685. When the requested format is used, that call frees the address of a stack variable.
- Exceptions. The `catch` blocks of HandleMethodCall (flutter_window.cpp:271-275, 348-352, 361-365) and of AudioCaptureThread (588-591) are left out, because the model never throws. DEVICE_ENUMERATION_ERROR, CAPTURE_START_ERROR, CAPTURE_STOP_ERROR and "Capture error" are therefore not produced.
- Device name and description come from `GetDeviceProperty`, which is not part of this model (utils.cpp and the property store). They are inputs of each enumerated item.
- The window's other messages, such as WM_FONTCHANGE and window sizing, and the Flutter engine set-up in OnCreate/OnDestroy.
- Floating point. Samples are `real`. The stereo average is exact, and rounding of `Float` and `Double` is not modelled.
- Bridge.RecordingBridge.SendAudio: the payload is a list of doubles. The Kotlin signature's `ByteArray`/`List<Double>` conversion is not modelled.
- Service.RecordingService.OnStartCommand: requires that `blockSize*numChannels*4` fits a Kotlin `Int` and that no scripted read is longer than tempBuffer. The Int wrap-around of that product is not modelled.
- Service.RunCaptureJob: `audio_init_failed` is queued with the job's other sends. The source sends it from the IO thread directly (RecordingService.kt:152 and 242), so it may reach the sink before "recordingStarted". That ordering is not modelled.
- Service.RecordingService.LaunchJob: the job reads `mediaProjection` when it is launched. The source reads it when the coroutine reaches line 120, so a stop in between is not modelled.
- The `finally` blocks of the jobs (RecordingService.kt:198-205 and 286-293) stop and release the record but assign no field. The model leaves `audioRecord` set after a job ends, as LaunchJob does. Releasing native resources, and `onDestroy` (313-317, which calls stopCapture and cancels the scope), are not modelled.
- NotificationHelper, the notification text, and ACTION_UPDATE_NOTIFICATION beyond "sends nothing and changes no capture state". `stopForeground`/`stopSelf` are modelled only as the foreground flag.
- ACTION_PAUSE and ACTION_RESUME are sent by MainActivity but not handled by the service's `when`. The model treats them as ignored actions.
- MainActivity's start Intent has no sample-rate, channel or block-size extra, so the service's defaults apply (StartIntentParams).
- A second `requestProjection` replaces the pending result. The old result is never answered, and the model shows this only by dropping it.
- Message pointers are modelled as consecutive fresh numbers. The posted lists are a map from message kind to entries.
- The `std::map` types in two member declarations of flutter_window.h (lines 80 and 84). The definitions in flutter_window.cpp take a vector, and the model follows the definitions.
- `getMediaProjection` may return null or throw. Both are inputs (`ProjectionOutcome`).
