/** MainActivity, the Android entry point: it asks for MediaProjection consent, keeps the granted
    consent, and turns the method calls on "system_audio_recorder/methods" into Intents for
    RecordingService. */
module Activity {
  import opened Channel
  import Service

  /** Activity.RESULT_OK. */
  const RESULT_OK: int := -1

  /** A MethodChannel.Result waiting for its answer, told apart by an identity. */
  type ResultId = nat

  datatype Answer = Success(value: Value) | NotImplemented

  /** The answer given to one pending result. */
  datatype Reply = Reply(to: ResultId, answer: Answer)

  /** startForegroundService or startService with the Intent given. */
  datatype ServiceStart = Foreground(intent: Service.Intent) | Background(intent: Service.Intent)

  /** An Intent for RecordingService that carries an action and no extras. */
  function ActionIntent(action: Service.Action): (intent: Service.Intent)
    ensures intent.action == Some(action)
    ensures intent.captureType.None? && intent.channels.None? && intent.sampleRate.None?
    ensures intent.blockSize.None? && intent.resultCode.None? && intent.resultData.None?
  {
    Service.Intent(Some(action), None, None, None, None, None, None)
  }

  /** The start Intent: ACTION_START with the consent's result code and data, and no other extra. */
  function StartIntent(resultCode: int, resultData: Service.ProjectionData): Service.Intent {
    Service.Intent(Some(Service.ActionStart), None, None, None, None, Some(resultCode), Some(resultData))
  }

  /** The start Intent the activity sends makes the service capture system audio in two channels
      at 44100 Hz in blocks of 1024 samples, with the consent it carries. */
  lemma StartIntentParams(resultCode: int, resultData: Service.ProjectionData)
    ensures Service.StartParamsOf(StartIntent(resultCode, resultData)) ==
              Service.StartParams("loopback", 2, 44100, 1024, resultCode, Some(resultData))
  {
    Service.StartParamsDefaults(StartIntent(resultCode, resultData));
  }

  class MainActivity {
    /** The result of the last requestProjection call, until the consent screen answers. */
    var pendingResult: Option<ResultId>
    var lastResultCode: int
    /** The consent Intent of the last granted request. */
    var lastResultData: Option<Service.ProjectionData>
    /** Every answer given to a method call so far. */
    var replies: seq<Reply>
    /** Every Intent sent to RecordingService so far. */
    var serviceStarts: seq<ServiceStart>
    /** How many times the screen-capture consent screen was launched. */
    var projectionRequests: nat

    constructor ()
      ensures pendingResult == None && lastResultCode == 0 && lastResultData == None
      ensures replies == [] && serviceStarts == [] && projectionRequests == 0
    {
      pendingResult, lastResultCode, lastResultData := None, 0, None;
      replies, serviceStarts, projectionRequests := [], [], 0;
    }

    /** The answer of the consent screen: a granted consent (RESULT_OK with data) is kept and the
        waiting result gets true; anything else leaves the kept consent and answers false. The
        waiting result is answered once and then dropped. */
    method OnProjectionResult(resultCode: int, data: Option<Service.ProjectionData>)
      modifies this`lastResultCode, this`lastResultData, this`pendingResult, this`replies
      ensures var granted := resultCode == RESULT_OK && data.Some?;
              (granted ==> lastResultCode == resultCode && lastResultData == data) &&
              (!granted ==> lastResultCode == old(lastResultCode) && lastResultData == old(lastResultData)) &&
              replies == old(replies) +
                (if old(pendingResult).Some? then [Reply(old(pendingResult).value, Success(Bool(granted)))] else [])
      ensures pendingResult == None
    {
      var granted := resultCode == RESULT_OK && data.Some?;
      if granted {
        lastResultCode, lastResultData := resultCode, data;
      }
      if pendingResult.Some? {
        replies := replies + [Reply(pendingResult.value, Success(Bool(granted)))];
      }
      pendingResult := None;
    }

    /** The method-call handler. requestProjection waits for the consent screen; startRecording
        starts the foreground service iff a consent is kept; stop, pause and resume each send
        their action; any other method is not implemented. */
    method OnMethodCall(name: string, result: ResultId)
      modifies this`pendingResult, this`replies, this`serviceStarts, this`projectionRequests
      ensures name == "requestProjection" ==>
                pendingResult == Some(result) && projectionRequests == old(projectionRequests) + 1 &&
                replies == old(replies) && serviceStarts == old(serviceStarts)
      ensures name != "requestProjection" ==>
                pendingResult == old(pendingResult) && projectionRequests == old(projectionRequests)
      ensures name == "startRecording" && lastResultData.Some? ==>
                serviceStarts == old(serviceStarts) + [Foreground(StartIntent(lastResultCode, lastResultData.value))] &&
                replies == old(replies) + [Reply(result, Success(Bool(true)))]
      ensures name == "startRecording" && lastResultData.None? ==>
                serviceStarts == old(serviceStarts) && replies == old(replies) + [Reply(result, Success(Bool(false)))]
      ensures name == "stopRecording" ==>
                serviceStarts == old(serviceStarts) + [Background(ActionIntent(Service.ActionStop))] &&
                replies == old(replies) + [Reply(result, Success(Null))]
      ensures name == "pauseRecording" ==>
                serviceStarts == old(serviceStarts) + [Background(ActionIntent(Service.ActionPause))] &&
                replies == old(replies) + [Reply(result, Success(Null))]
      ensures name == "resumeRecording" ==>
                serviceStarts == old(serviceStarts) + [Background(ActionIntent(Service.ActionResume))] &&
                replies == old(replies) + [Reply(result, Success(Null))]
      ensures name !in {"requestProjection", "startRecording", "stopRecording", "pauseRecording", "resumeRecording"} ==>
                serviceStarts == old(serviceStarts) && replies == old(replies) + [Reply(result, NotImplemented)]
    {
      if name == "requestProjection" {
        pendingResult := Some(result);
        projectionRequests := projectionRequests + 1;
      } else if name == "startRecording" {
        if lastResultData.Some? {
          serviceStarts := serviceStarts + [Foreground(StartIntent(lastResultCode, lastResultData.value))];
          replies := replies + [Reply(result, Success(Bool(true)))];
        } else {
          replies := replies + [Reply(result, Success(Bool(false)))];
        }
      } else if name == "stopRecording" {
        serviceStarts := serviceStarts + [Background(ActionIntent(Service.ActionStop))];
        replies := replies + [Reply(result, Success(Null))];
      } else if name == "pauseRecording" {
        serviceStarts := serviceStarts + [Background(ActionIntent(Service.ActionPause))];
        replies := replies + [Reply(result, Success(Null))];
      } else if name == "resumeRecording" {
        serviceStarts := serviceStarts + [Background(ActionIntent(Service.ActionResume))];
        replies := replies + [Reply(result, Success(Null))];
      } else {
        replies := replies + [Reply(result, NotImplemented)];
      }
    }
  }
}
