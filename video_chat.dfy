/**
 * The recording session of the interview screen (src/components/ImprovedVideoChat.tsx):
 * start and stop of webcam recording, the buffer of recorded chunks, the one-second timer,
 * the local save of a finished recording and the append-only session log.
 *
 * The browser is not modelled. What `getUserMedia`, the `MediaRecorder` constructor, its
 * `start`, `isTypeSupported` and the local download do is passed in as success or failure;
 * the recorder's `dataavailable` and `stop` events and the timer's tick are methods the
 * platform calls.
 */
module VideoChat {
  import opened Options
  import opened Sequences
  import Languages
  import TimeFormat

  datatype MessageKind = User | Assistant | System

  /** One entry of the session log. */
  datatype Message = Message(kind: MessageKind, text: string)

  /** A piece of recorded media; its size is the number of bytes it holds. */
  datatype Chunk = Chunk(bytes: seq<bv8>)

  /** What a failing call rejects with: an `Error` (its name and message) or a value that is not one. */
  datatype Thrown = ErrorObject(name: string, message: string) | OtherValue

  /** Whether a browser call returns normally or throws. */
  datatype Step = Succeeds | Throws(thrown: Thrown)

  /** The results of the browser calls made by one press of the start button. */
  datatype StartInputs = StartInputs(
    getUserMedia: Step,       // navigator.mediaDevices.getUserMedia({video: true, audio: false})
    createRecorder: Step,     // new MediaRecorder(stream, options)
    startRecorder: Step,      // mediaRecorder.start(1000)
    supportedTypes: set<string>) // the mime types MediaRecorder.isTypeSupported accepts

  /** The state of the platform recorder held in `mediaRecorderRef`. */
  datatype RecorderState = Inactive | Recording

  /** The fixed texts for the platform error names the start handler recognises. */
  const KnownStartErrors: map<string, string> := map[
    "NotAllowedError" := "Permission denied. Please allow access to camera.",
    "NotFoundError" := "Camera not found. Please check your connection.",
    "NotReadableError" := "Could not access your camera. It might be in use by another application.",
    "NotSupportedError" := "Your browser doesn't support the required recording features."]

  /** The text shown for a start failure. */
  function StartErrorMessage(t: Thrown): (m: string)
    ensures t.ErrorObject? && t.name in KnownStartErrors ==> m == KnownStartErrors[t.name]
    ensures t.ErrorObject? && t.name !in KnownStartErrors ==> m == t.message
    ensures t.OtherValue? ==> m == "Failed to start recording"
  {
    match t {
      case OtherValue => "Failed to start recording"
      case ErrorObject(name, message) =>
        if name == "NotAllowedError" then "Permission denied. Please allow access to camera."
        else if name == "NotFoundError" then "Camera not found. Please check your connection."
        else if name == "NotReadableError" then "Could not access your camera. It might be in use by another application."
        else if name == "NotSupportedError" then "Your browser doesn't support the required recording features."
        else message
    }
  }

  /** The recorder formats, most preferred first. */
  const MimePreference: seq<string> := ["video/webm;codecs=vp9", "video/webm;codecs=vp8", "video/webm"]

  /** getSupportedMimeType: the first supported format in order of preference, or '' when none is. */
  function SupportedMimeType(supported: set<string>): (m: string)
    ensures m == "" <==> forall i | 0 <= i < |MimePreference| :: MimePreference[i] !in supported
    ensures m != "" ==> exists i | 0 <= i < |MimePreference| ::
      && MimePreference[i] == m && m in supported
      && forall j | 0 <= j < i :: MimePreference[j] !in supported
  {
    if MimePreference[0] in supported then MimePreference[0]
    else if MimePreference[1] in supported then MimePreference[1]
    else if MimePreference[2] in supported then MimePreference[2]
    else ""
  }

  /** The chunks the `dataavailable` handler keeps: those with size > 0, in arrival order. */
  function Buffered(arrivals: seq<Chunk>): (r: seq<Chunk>)
    ensures |r| <= |arrivals|
    ensures forall i | 0 <= i < |r| :: |r[i].bytes| > 0
  {
    Filter((c: Chunk) => |c.bytes| > 0, arrivals)
  }

  /** Whether all three start calls succeed. */
  predicate StartSucceeds(inputs: StartInputs) {
    inputs.getUserMedia.Succeeds? && inputs.createRecorder.Succeeds? && inputs.startRecorder.Succeeds?
  }

  /** The error of the first start call that throws. */
  function FirstStartFailure(inputs: StartInputs): Thrown
    requires !StartSucceeds(inputs)
  {
    if inputs.getUserMedia.Throws? then inputs.getUserMedia.thrown
    else if inputs.createRecorder.Throws? then inputs.createRecorder.thrown
    else inputs.startRecorder.thrown
  }

  /** The buffer grows by a chunk exactly when the chunk is non-empty, and keeps its order. */
  lemma BufferedAppend(arrivals: seq<Chunk>, c: Chunk)
    ensures Buffered(arrivals + [c]) == if |c.bytes| > 0 then Buffered(arrivals) + [c] else Buffered(arrivals)
  {
    FilterAppend((c: Chunk) => |c.bytes| > 0, arrivals, c);
  }

  /** Everything buffered arrived, is non-empty, and keeps the arrival order. */
  lemma BufferedIsOrderedSelection(arrivals: seq<Chunk>)
    ensures IsSubsequence(Buffered(arrivals), arrivals)
    ensures forall c :: c in Buffered(arrivals) <==> c in arrivals && |c.bytes| > 0
  {
    var p := (c: Chunk) => |c.bytes| > 0;
    FilterIsSubsequence(p, arrivals);
    forall c ensures c in Buffered(arrivals) <==> c in arrivals && |c.bytes| > 0 {
      FilterMembership(p, arrivals, c);
    }
  }

  /** The state of one interview screen. */
  class Session {
    var isRecording: bool
    var recordingTime: nat
    var streamError: Option<string>
    var code: string
    var messages: seq<Message>
    /** `webcamStreamRef.current` is set: a camera stream whose tracks are live. */
    var webcamHeld: bool
    /** The preview element shows the camera stream (`srcObject` is set). */
    var previewAttached: bool
    /** `mediaRecorderRef.current`, by its state. */
    var recorder: Option<RecorderState>
    /** The mime type the current recorder was created with. */
    var mimeType: string
    /** `recordedChunksRef.current`. */
    var chunks: seq<Chunk>
    /** The recordings handed to the local download, oldest first. */
    var saved: seq<seq<Chunk>>
    /** Every chunk delivered since the buffer was last emptied. */
    ghost var arrivals: seq<Chunk>

    ghost predicate Valid()
      reads this
    {
      chunks == Buffered(arrivals)
    }

    constructor ()
      ensures Valid()
      ensures !isRecording && recordingTime == 0 && streamError == None
      ensures code == Languages.LanguageOptions[1].defaultCode
      ensures messages == [] && chunks == [] && saved == []
      ensures !webcamHeld && !previewAttached && recorder == None
      ensures mimeType == "" && arrivals == []
    {
      isRecording, recordingTime, streamError := false, 0, None;
      code := Languages.LanguageOptions[1].defaultCode;
      messages := [];
      webcamHeld, previewAttached, recorder, mimeType := false, false, None, "";
      chunks, saved, arrivals := [], [], [];
    }

    /** addMessage: one entry at the end of the log; the others keep their place. */
    method AddMessage(kind: MessageKind, text: string)
      modifies this
      ensures messages == old(messages) + [Message(kind, text)]
      ensures isRecording == old(isRecording) && recordingTime == old(recordingTime)
      ensures streamError == old(streamError) && code == old(code)
      ensures webcamHeld == old(webcamHeld) && previewAttached == old(previewAttached)
      ensures recorder == old(recorder) && mimeType == old(mimeType)
      ensures chunks == old(chunks) && saved == old(saved) && arrivals == old(arrivals)
    {
      messages := messages + [Message(kind, text)];
    }

    /**
     * startRecording. On success the camera is held, a fresh recorder is recording into an
     * empty buffer and "Recording started" is logged. On a failure of any of the three calls
     * the camera is released, `isRecording` keeps its value, the error text is shown and
     * "Recording error: <text>" is logged.
     */
    method StartRecording(inputs: StartInputs) returns (started: bool)
      requires Valid()
      modifies this
      ensures Valid()
      ensures started == StartSucceeds(inputs)
      ensures recordingTime == old(recordingTime) && code == old(code) && saved == old(saved)
      ensures started ==>
        && isRecording && webcamHeld && previewAttached
        && recorder == Some(Recording) && chunks == []
        && mimeType == SupportedMimeType(inputs.supportedTypes)
        && streamError == None
        && messages == old(messages) + [Message(System, "Recording started")]
      ensures !started ==>
        && !webcamHeld && isRecording == old(isRecording)
        && streamError == Some(StartErrorMessage(FirstStartFailure(inputs)))
        && messages == old(messages) + [Message(System, "Recording error: " + StartErrorMessage(FirstStartFailure(inputs)))]
      // Where the failure happened decides what the recorder and the buffer look like.
      ensures inputs.getUserMedia.Throws? ==>
        && recorder == old(recorder) && chunks == old(chunks) && mimeType == old(mimeType)
        && previewAttached == old(previewAttached)
      ensures inputs.getUserMedia.Succeeds? && inputs.createRecorder.Throws? ==>
        recorder == old(recorder) && chunks == old(chunks) && mimeType == old(mimeType) && previewAttached
      ensures inputs.getUserMedia.Succeeds? && inputs.createRecorder.Succeeds? && inputs.startRecorder.Throws? ==>
        && recorder == Some(Inactive) && chunks == [] && previewAttached
        && mimeType == SupportedMimeType(inputs.supportedTypes)
    {
      var failure := OpenCamera(inputs);
      if failure == None {
        isRecording := true;
        AddMessage(System, "Recording started");
        started := true;
      } else {
        var errorMessage := StartErrorMessage(failure.value);
        if webcamHeld {
          webcamHeld := false; // every track of the stream is stopped
        }
        streamError := Some(errorMessage);
        AddMessage(System, "Recording error: " + errorMessage);
        started := false;
      }
    }

    /**
     * The calls of startRecording up to the first one that throws: the camera, then
     * setupMediaRecorder, then `start`. The result is the error that stopped them.
     */
    method OpenCamera(inputs: StartInputs) returns (failure: Option<Thrown>)
      requires Valid()
      modifies this
      ensures Valid()
      ensures failure.None? <==> StartSucceeds(inputs)
      ensures failure.Some? ==> failure.value == FirstStartFailure(inputs)
      ensures streamError == None
      ensures isRecording == old(isRecording) && recordingTime == old(recordingTime)
      ensures code == old(code) && saved == old(saved) && messages == old(messages)
      ensures inputs.getUserMedia.Throws? ==>
        && recorder == old(recorder) && chunks == old(chunks) && mimeType == old(mimeType)
        && previewAttached == old(previewAttached) && webcamHeld == old(webcamHeld)
      ensures inputs.getUserMedia.Succeeds? ==> webcamHeld && previewAttached
      ensures inputs.getUserMedia.Succeeds? && inputs.createRecorder.Throws? ==>
        recorder == old(recorder) && chunks == old(chunks) && mimeType == old(mimeType)
      ensures inputs.getUserMedia.Succeeds? && inputs.createRecorder.Succeeds? ==>
        && chunks == [] && mimeType == SupportedMimeType(inputs.supportedTypes)
        && recorder == Some(if inputs.startRecorder.Throws? then Inactive else Recording)
    {
      streamError := None;
      failure := None;
      if inputs.getUserMedia.Throws? {
        failure := Some(inputs.getUserMedia.thrown);
        return;
      }
      webcamHeld := true;
      previewAttached := true;
      // setupMediaRecorder
      var options := SupportedMimeType(inputs.supportedTypes);
      if inputs.createRecorder.Throws? {
        failure := Some(inputs.createRecorder.thrown);
        return;
      }
      recorder := Some(Inactive);
      mimeType := options;
      chunks := [];
      arrivals := [];
      if inputs.startRecorder.Throws? {
        failure := Some(inputs.startRecorder.thrown);
      } else {
        recorder := Some(Recording);
      }
    }

    /** The recorder's `dataavailable` event: a non-empty chunk joins the end of the buffer. */
    method DataAvailable(c: Chunk)
      requires Valid()
      modifies this
      ensures Valid()
      ensures chunks == if |c.bytes| > 0 then old(chunks) + [c] else old(chunks)
      ensures arrivals == old(arrivals) + [c]
      ensures messages == old(messages) && saved == old(saved) && recorder == old(recorder)
      ensures isRecording == old(isRecording) && recordingTime == old(recordingTime)
      ensures webcamHeld == old(webcamHeld) && previewAttached == old(previewAttached)
      ensures streamError == old(streamError) && code == old(code) && mimeType == old(mimeType)
    {
      BufferedAppend(arrivals, c);
      if |c.bytes| > 0 {
        chunks := chunks + [c];
      }
      arrivals := arrivals + [c];
    }

    /**
     * The recorder's `stop` event. A non-empty buffer becomes one recording that is handed to
     * the local download (`saveFails` is its error, if it throws, which is logged) and the
     * buffer is emptied; an empty buffer saves nothing.
     */
    method RecorderStopped(saveFails: Option<Thrown>)
      requires Valid()
      modifies this
      ensures Valid()
      ensures chunks == []
      ensures old(chunks) == [] ==> saved == old(saved) && messages == old(messages)
      ensures old(chunks) != [] && saveFails.None? ==> saved == old(saved) + [old(chunks)] && messages == old(messages)
      ensures old(chunks) != [] && saveFails.Some? ==>
        && saved == old(saved)
        && messages == old(messages) + [Message(System, "Error saving locally: " + SaveErrorText(saveFails.value))]
      ensures isRecording == old(isRecording) && recordingTime == old(recordingTime)
      ensures webcamHeld == old(webcamHeld) && recorder == old(recorder)
      ensures previewAttached == old(previewAttached) && streamError == old(streamError)
      ensures code == old(code) && mimeType == old(mimeType)
    {
      if |chunks| > 0 {
        if saveFails.None? {
          saved := saved + [chunks];
        } else {
          AddMessage(System, "Error saving locally: " + SaveErrorText(saveFails.value));
        }
        chunks := [];
        arrivals := [];
      }
    }

    /**
     * stopRecording (also run when the screen is unmounted). The recorder is stopped only if
     * it is recording; the camera is released, the preview detached, the timer reset and
     * "Recording stopped" logged, on every call.
     */
    method StopRecording() returns (stopCalled: bool)
      requires Valid()
      modifies this
      ensures Valid()
      ensures stopCalled == (old(recorder) == Some(Recording))
      ensures recorder == if stopCalled then Some(Inactive) else old(recorder)
      ensures !webcamHeld && !previewAttached
      ensures !isRecording && recordingTime == 0
      ensures messages == old(messages) + [Message(System, "Recording stopped")]
      ensures chunks == old(chunks) && saved == old(saved) && streamError == old(streamError)
      ensures code == old(code) && mimeType == old(mimeType)
    {
      stopCalled := recorder == Some(Recording);
      if stopCalled {
        recorder := Some(Inactive);
      }
      if webcamHeld {
        webcamHeld := false; // every track of the stream is stopped
      }
      previewAttached := false;
      isRecording := false;
      recordingTime := 0;
      AddMessage(System, "Recording stopped");
    }

    /**
     * The timer shown while recording. The component's own `formatTime` is the same
     * expression as src/utils/formatTime.ts, so it is that function.
     */
    function TimerLabel(): (shown: string)
      reads this
      ensures TimeFormat.ParseTime(shown) == Some(recordingTime)
      ensures recordingTime < 6000 ==> |shown| == 5
    {
      TimeFormat.FormatTimeRoundTrip(recordingTime);
      TimeFormat.FormatTimeShort(recordingTime);
      TimeFormat.FormatTime(recordingTime)
    }

    /** One second of the interval timer, which runs only while recording. */
    method Tick()
      modifies this
      ensures recordingTime == if old(isRecording) then old(recordingTime) + 1 else old(recordingTime)
      ensures isRecording == old(isRecording) && messages == old(messages) && chunks == old(chunks)
      ensures arrivals == old(arrivals) && saved == old(saved) && recorder == old(recorder)
      ensures webcamHeld == old(webcamHeld) && previewAttached == old(previewAttached)
      ensures streamError == old(streamError) && code == old(code) && mimeType == old(mimeType)
    {
      if isRecording {
        recordingTime := recordingTime + 1;
      }
    }

    /** The embedded editor's `onChange`: the session's code becomes the edited text. */
    method SetCode(text: string)
      modifies this
      ensures code == text
      ensures isRecording == old(isRecording) && recordingTime == old(recordingTime)
      ensures messages == old(messages) && chunks == old(chunks) && arrivals == old(arrivals)
      ensures saved == old(saved) && recorder == old(recorder) && mimeType == old(mimeType)
      ensures webcamHeld == old(webcamHeld) && previewAttached == old(previewAttached)
      ensures streamError == old(streamError)
    {
      code := text;
    }
  }

  /** The text logged when the local download throws. */
  function SaveErrorText(t: Thrown): (s: string)
    ensures t.ErrorObject? ==> s == t.message
    ensures t.OtherValue? ==> s == "Unknown error occurred"
  {
    match t {
      case ErrorObject(_, message) => message
      case OtherValue => "Unknown error occurred"
    }
  }
}
