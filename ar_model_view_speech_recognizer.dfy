/**
 * The voice trigger of the placement screen: speech authorization and
 * availability decide whether the record button is enabled, the button starts
 * and stops a recording, and every recognized transcript is handed to
 * `addFurniture`.  The audio engine, its input tap and the recognizer are
 * reduced to the fields of the view model that record their state.
 */
module SpeechRecognition {
  import opened Wrappers
  import opened ModelView
  import opened AnchorNames

  const PlaceFurnitureLabel := "Place a furniture."
  const DeniedLabel := "User denied access to speech recognition."
  const RestrictedLabel := "Speech recognition restricted on this device."
  const NotDeterminedLabel := "Speech recognition not yet authorized."
  const StartRecordingLabel := "Start Recording"
  const NotAvailableLabel := "Recognition Not Available"
  const ListeningLabel := "(Go ahead, I'm listening)"
  const StoppingLabel := "Stopping"
  const StopRecordingLabel := "Stop Recording"
  const RecordingNotAvailableLabel := "Recording Not Available"

  /** `SFSpeechRecognizerAuthorizationStatus`, including values a later system may add. */
  datatype AuthorizationStatus = NotDetermined | Denied | Restricted | Authorized | UnknownStatus(raw: int)

  /** The label shown for a status; a status the app does not know leaves the label as it was. */
  function AuthorizationLabel(status: AuthorizationStatus): (r: Option<string>)
    ensures r.None? <==> status.UnknownStatus?
    ensures r.Some? ==> |r.value| > 0
  {
    match status
    case Authorized => Some(PlaceFurnitureLabel)
    case Denied => Some(DeniedLabel)
    case Restricted => Some(RestrictedLabel)
    case NotDetermined => Some(NotDeterminedLabel)
    case UnknownStatus(_) => None
  }

  /** Each known status has a label of its own, so the label tells the user which one applies. */
  lemma AuthorizationLabelsDistinct(s: AuthorizationStatus, t: AuthorizationStatus)
    requires AuthorizationLabel(s).Some? && AuthorizationLabel(t).Some?
    ensures AuthorizationLabel(s) == AuthorizationLabel(t) <==> s == t
  {
    assert PlaceFurnitureLabel[0] == 'P' && DeniedLabel[0] == 'U';
    assert RestrictedLabel[19] == 'r' && NotDeterminedLabel[19] == 'n';
  }

  /**
   * The states the recording can be in: while the engine runs there is an
   * open request and its task with the tap installed; the current task is
   * never one that was cancelled; task identifiers are handed out in order.
   */
  predicate RecordingValid(vm: ARViewModel)
    reads vm
  {
    && (vm.audioEngineRunning ==>
          && vm.recognitionRequest.Some? && vm.recognitionTask.Some? && vm.tapInstalled
          && !vm.recognitionRequest.value.audioEnded
          && vm.recognitionRequest.value.id == vm.recognitionTask.value)
    && (vm.recognitionTask.Some? ==>
          vm.recognitionTask.value < vm.nextRecognitionId && vm.recognitionTask.value !in vm.cancelledTasks)
    && (forall i :: 0 <= i < |vm.cancelledTasks| ==> vm.cancelledTasks[i] < vm.nextRecognitionId)
  }

  /** The authorization callback of `initSpeechRecognizer`: recording is enabled exactly when authorized. */
  method AuthorizationDecided(vm: ARViewModel, status: AuthorizationStatus)
    modifies vm`recordEnabled, vm`speechInfoLabel
    ensures vm.recordEnabled <==> status == Authorized
    ensures AuthorizationLabel(status).Some? ==> vm.speechInfoLabel == AuthorizationLabel(status).value
    ensures AuthorizationLabel(status).None? ==> vm.speechInfoLabel == old(vm.speechInfoLabel)
  {
    match status
    case Authorized =>
      vm.recordEnabled := true;
      vm.speechInfoLabel := PlaceFurnitureLabel;
    case Denied =>
      vm.recordEnabled := false;
      vm.speechInfoLabel := DeniedLabel;
    case Restricted =>
      vm.recordEnabled := false;
      vm.speechInfoLabel := RestrictedLabel;
    case NotDetermined =>
      vm.recordEnabled := false;
      vm.speechInfoLabel := NotDeterminedLabel;
    case UnknownStatus(_) =>
      vm.recordEnabled := false;
  }

  /** `speechRecognizer(_:availabilityDidChange:)`. */
  method AvailabilityDidChange(vm: ARViewModel, available: bool)
    modifies vm`recordEnabled, vm`speechInfoLabel
    ensures vm.recordEnabled == available
    ensures vm.speechInfoLabel == if available then StartRecordingLabel else NotAvailableLabel
  {
    if available {
      vm.recordEnabled := true;
      vm.speechInfoLabel := StartRecordingLabel;
    } else {
      vm.recordEnabled := false;
      vm.speechInfoLabel := NotAvailableLabel;
    }
  }

  /** Where starting a recording can throw: configuring the audio session, or starting the engine. */
  datatype AudioOutcome = AudioReady | CategoryFailed | ActivationFailed | EngineStartFailed

  /**
   * `startRecording()`: cancels and forgets the previous task, configures the
   * audio session, opens a new request with its task, installs the tap and
   * starts the engine.  Returns false where the source throws; the steps done
   * before the failure stay done.
   */
  method StartRecording(vm: ARViewModel, outcome: AudioOutcome) returns (started: bool)
    requires RecordingValid(vm) && !vm.audioEngineRunning
    modifies vm`recognitionTask, vm`cancelledTasks, vm`recognitionRequest, vm`nextRecognitionId,
      vm`tapInstalled, vm`audioEngineRunning, vm`speechInfoLabel
    ensures RecordingValid(vm)
    ensures started <==> outcome == AudioReady
    ensures vm.audioEngineRunning == started
    ensures vm.cancelledTasks
            == old(vm.cancelledTasks) + if old(vm.recognitionTask).Some? then [old(vm.recognitionTask).value] else []
    ensures outcome in {CategoryFailed, ActivationFailed} ==>
      && vm.recognitionTask.None? && vm.recognitionRequest == old(vm.recognitionRequest)
      && vm.nextRecognitionId == old(vm.nextRecognitionId) && vm.tapInstalled == old(vm.tapInstalled)
    ensures outcome in {AudioReady, EngineStartFailed} ==>
      && vm.recognitionRequest == Some(RecognitionRequest(old(vm.nextRecognitionId), false))
      && vm.recognitionTask == Some(old(vm.nextRecognitionId))
      && vm.nextRecognitionId == old(vm.nextRecognitionId) + 1 && vm.tapInstalled
    ensures vm.speechInfoLabel == if started then ListeningLabel else old(vm.speechInfoLabel)
  {
    if vm.recognitionTask.Some? {
      vm.cancelledTasks := vm.cancelledTasks + [vm.recognitionTask.value];
    }
    vm.recognitionTask := None;

    if outcome == CategoryFailed || outcome == ActivationFailed {
      return false;
    }

    var id := vm.nextRecognitionId;
    vm.recognitionRequest := Some(RecognitionRequest(id, false));
    vm.recognitionTask := Some(id);
    vm.nextRecognitionId := id + 1;
    vm.tapInstalled := true;

    if outcome == EngineStartFailed {
      return false;
    }
    vm.audioEngineRunning := true;
    vm.speechInfoLabel := ListeningLabel;
    started := true;
  }

  /** `recordButtonTapped()`: stops a running recording, or starts one. */
  method RecordButtonTapped(vm: ARViewModel, outcome: AudioOutcome)
    requires RecordingValid(vm)
    modifies vm`recordEnabled, vm`recognitionTask, vm`cancelledTasks, vm`recognitionRequest,
      vm`nextRecognitionId, vm`tapInstalled, vm`audioEngineRunning, vm`speechInfoLabel
    ensures RecordingValid(vm)
    ensures old(vm.audioEngineRunning) ==>
      && !vm.audioEngineRunning && !vm.recordEnabled && vm.speechInfoLabel == StoppingLabel
      && vm.recognitionRequest == Some(old(vm.recognitionRequest).value.(audioEnded := true))
      && vm.recognitionTask == old(vm.recognitionTask) && vm.cancelledTasks == old(vm.cancelledTasks)
      && vm.nextRecognitionId == old(vm.nextRecognitionId) && vm.tapInstalled == old(vm.tapInstalled)
    ensures !old(vm.audioEngineRunning) ==>
      && vm.recordEnabled == old(vm.recordEnabled)
      && vm.audioEngineRunning == (outcome == AudioReady)
      && vm.speechInfoLabel == (if outcome == AudioReady then StopRecordingLabel else RecordingNotAvailableLabel)
      && vm.cancelledTasks
         == old(vm.cancelledTasks) + if old(vm.recognitionTask).Some? then [old(vm.recognitionTask).value] else []
    ensures !old(vm.audioEngineRunning) && outcome in {CategoryFailed, ActivationFailed} ==>
      && vm.recognitionTask.None? && vm.recognitionRequest == old(vm.recognitionRequest)
      && vm.nextRecognitionId == old(vm.nextRecognitionId) && vm.tapInstalled == old(vm.tapInstalled)
    ensures !old(vm.audioEngineRunning) && outcome in {AudioReady, EngineStartFailed} ==>
      && vm.recognitionRequest == Some(RecognitionRequest(old(vm.nextRecognitionId), false))
      && vm.recognitionTask == Some(old(vm.nextRecognitionId))
      && vm.nextRecognitionId == old(vm.nextRecognitionId) + 1 && vm.tapInstalled
  {
    if vm.audioEngineRunning {
      vm.audioEngineRunning := false;
      vm.recognitionRequest := Some(vm.recognitionRequest.value.(audioEnded := true));
      vm.recordEnabled := false;
      vm.speechInfoLabel := StoppingLabel;
    } else {
      var started := StartRecording(vm, outcome);
      if started {
        vm.speechInfoLabel := StopRecordingLabel;
      } else {
        vm.speechInfoLabel := RecordingNotAvailableLabel;
      }
    }
  }

  /** A recognition result: the best transcription and whether it is final. */
  datatype RecognitionResult = RecognitionResult(transcript: string, isFinal: bool)

  /**
   * The result handler of the recognition task.  A result's transcript goes to
   * `addFurniture`; an error or a final result stops the engine, removes the
   * tap, forgets the request and the task and enables the button again.
   */
  method RecognitionCallback(vm: ARViewModel, result: Option<RecognitionResult>, hasError: bool)
    requires vm.Valid() && RecordingValid(vm)
    modifies vm`placingFurniture, vm`currentFurnitureName, vm`currentFurniture, vm`currentFurniturePreview,
      vm`nextEntityId, vm`audioEngineRunning, vm`tapInstalled, vm`recognitionRequest, vm`recognitionTask,
      vm`recordEnabled, vm`speechInfoLabel
    ensures vm.Valid() && RecordingValid(vm)
    ensures result.Some? && IsBookshelfCommand(result.value.transcript) ==>
      && vm.placingFurniture && vm.currentFurnitureName == Bookshelf
      && vm.currentFurniture == Some(FurnitureClone(old(vm.nextEntityId), Bookshelf, false))
      && vm.currentFurniturePreview == Some(FurnitureClone(old(vm.nextEntityId) + 1, BookshelfPreview, true))
      && vm.nextEntityId == old(vm.nextEntityId) + 2
    ensures (result.None? || !IsBookshelfCommand(result.value.transcript)) ==>
      && vm.placingFurniture == old(vm.placingFurniture) && vm.currentFurnitureName == old(vm.currentFurnitureName)
      && vm.currentFurniture == old(vm.currentFurniture)
      && vm.currentFurniturePreview == old(vm.currentFurniturePreview)
      && vm.nextEntityId == old(vm.nextEntityId)
    ensures (hasError || (result.Some? && result.value.isFinal)) ==>
      && !vm.audioEngineRunning && !vm.tapInstalled
      && vm.recognitionRequest.None? && vm.recognitionTask.None?
      && vm.recordEnabled && vm.speechInfoLabel == StartRecordingLabel
    ensures !(hasError || (result.Some? && result.value.isFinal)) ==>
      && vm.audioEngineRunning == old(vm.audioEngineRunning) && vm.tapInstalled == old(vm.tapInstalled)
      && vm.recognitionRequest == old(vm.recognitionRequest) && vm.recognitionTask == old(vm.recognitionTask)
      && vm.recordEnabled == old(vm.recordEnabled) && vm.speechInfoLabel == old(vm.speechInfoLabel)
  {
    var isFinal := false;
    if result.Some? {
      isFinal := result.value.isFinal;
      ghost var before := (vm.audioEngineRunning, vm.tapInstalled, vm.recognitionRequest, vm.recognitionTask,
        vm.cancelledTasks, vm.nextRecognitionId);
      vm.AddFurniture(result.value.transcript);
      assert before == (vm.audioEngineRunning, vm.tapInstalled, vm.recognitionRequest, vm.recognitionTask,
        vm.cancelledTasks, vm.nextRecognitionId);
    }
    if hasError || isFinal {
      EndRecognition(vm);
    }
  }

  /** The reset at the end of a recognition; no placement state changes. */
  method EndRecognition(vm: ARViewModel)
    requires vm.Valid() && RecordingValid(vm)
    modifies vm`audioEngineRunning, vm`tapInstalled, vm`recognitionRequest, vm`recognitionTask,
      vm`recordEnabled, vm`speechInfoLabel
    ensures vm.Valid() && RecordingValid(vm)
    ensures !vm.audioEngineRunning && !vm.tapInstalled && vm.recognitionRequest.None? && vm.recognitionTask.None?
    ensures vm.recordEnabled && vm.speechInfoLabel == StartRecordingLabel
  {
    vm.audioEngineRunning := false;
    vm.tapInstalled := false;
    vm.recognitionRequest := None;
    vm.recognitionTask := None;
    vm.recordEnabled := true;
    vm.speechInfoLabel := StartRecordingLabel;
  }
}
