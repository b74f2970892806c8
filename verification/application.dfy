/** The `Application` controller of the installation: the recording handle and
    its id, the four display properties it writes, and the three public steps
    of a visit (start recording, stop recording, generate). */
module App {

  import opened Wrappers
  import opened Naming
  import opened Prompting

  /** What a remote step hands back: its value, or a thrown error. */
  datatype Reply = Delivered(value: string) | Failed

  /** `this.recording`: undefined before the first start; afterwards the
      recorder, capturing until it is stopped. */
  datatype Recorder = Unset | Capturing | Stopped

  /** How one run of `generate` ended. */
  datatype GenerateOutcome =
    | TranscriptionFailed
    | ImageFailed(transcript: string, prompt: string)
    | ImageShown(transcript: string, prompt: string, url: string)

  /** How `stopRecording` ended: it throws when there is no recorder to stop;
      otherwise it hands the audio path to `generate`, which runs to its end. */
  datatype StopOutcome =
    | StopThrew
    | Generated(audioPath: string, outcome: GenerateOutcome)

  /** The outcome `generate` reaches for an audio path, given what the
      transcription step and the image step reply. */
  function Generation(audioPath: string, transcribe: string -> Reply, draw: string -> Reply): (o: GenerateOutcome)
    ensures o.TranscriptionFailed? <==> transcribe(audioPath).Failed?
    ensures !o.TranscriptionFailed? ==> transcribe(audioPath) == Delivered(o.transcript) && o.prompt == Prompt(o.transcript)
    ensures o.ImageShown? <==> !o.TranscriptionFailed? && draw(o.prompt).Delivered?
    ensures o.ImageShown? ==> draw(o.prompt) == Delivered(o.url)
  {
    match transcribe(audioPath)
    case Failed => TranscriptionFailed
    case Delivered(transcript) =>
      var prompt := Prompt(transcript);
      match draw(prompt)
      case Failed => ImageFailed(transcript, prompt)
      case Delivered(url) => ImageShown(transcript, prompt, url)
  }

  /** Whenever the image step is asked, what it is asked is the template around
      the transcript, and the transcript can be read back out of it verbatim. */
  lemma ImageRequestCarriesTranscript(audioPath: string, transcribe: string -> Reply, draw: string -> Reply)
    ensures var o := Generation(audioPath, transcribe, draw);
            !o.TranscriptionFailed? ==> TranscriptOf(o.prompt) == Some(transcribe(audioPath).value)
  {
    var o := Generation(audioPath, transcribe, draw);
    if !o.TranscriptionFailed? {
      PromptRoundTrip(o.transcript);
    }
  }

  class Application {
    /** `preferences.audioRecordingFormat`, read from the same configuration
        by both `startRecording` and `stopRecording`. */
    const audioFormat: string

    var recordingId: Option<string>
    var recording: Recorder

    /** `style.display` of the start and stop buttons ("block" is shown). */
    var startShown: bool
    var stopShown: bool
    /** `style.opacity` of the video and of the image, and the image's `src`. */
    var videoOpacity: int
    var imageOpacity: int
    var imageSrc: string

    /** A recorder is only ever created together with its id. */
    ghost predicate Valid()
      reads this
    {
      recording != Unset ==> recordingId.Some?
    }

    /** Start hidden, stop shown: a recording is under way. */
    predicate RecordingControls()
      reads this
    {
      !startShown && stopShown
    }

    /** Both buttons hidden, the video in front of the image: generation is under way. */
    predicate BusyDisplay()
      reads this
    {
      !startShown && !stopShown && videoOpacity == 1 && imageOpacity == 0
    }

    /** Start shown, stop hidden, the image in front of the video: ready for a visitor. */
    predicate IdleDisplay()
      reads this
    {
      startShown && !stopShown && videoOpacity == 0 && imageOpacity == 1
    }

    /** The display `generate` leaves behind for an outcome, given the image
        source it found: a failed transcription leaves the busy display; every
        other outcome restores the idle display, and only a delivered image
        changes the source. */
    predicate DisplayAfter(o: GenerateOutcome, srcBefore: string)
      reads this
    {
      match o
      case TranscriptionFailed => BusyDisplay() && imageSrc == srcBefore
      case ImageFailed(_, _) => IdleDisplay() && imageSrc == srcBefore
      case ImageShown(_, _, url) => IdleDisplay() && imageSrc == url
    }

    /** A new controller: no recording yet, over the page's initial display. */
    constructor (audioFormat: string, startShown: bool, stopShown: bool,
                 videoOpacity: int, imageOpacity: int, imageSrc: string)
      ensures Valid()
      ensures this.audioFormat == audioFormat
      ensures recordingId == None && recording == Unset
      ensures this.startShown == startShown && this.stopShown == stopShown
      ensures this.videoOpacity == videoOpacity && this.imageOpacity == imageOpacity
      ensures this.imageSrc == imageSrc
    {
      this.audioFormat := audioFormat;
      recordingId := None;
      recording := Unset;
      this.startShown := startShown;
      this.stopShown := stopShown;
      this.videoOpacity := videoOpacity;
      this.imageOpacity := imageOpacity;
      this.imageSrc := imageSrc;
    }

    /** Hides the start button and shows the stop button. */
    method ShowRecordingControls()
      modifies this`startShown, this`stopShown
      ensures RecordingControls()
    {
      startShown := false;
      stopShown := true;
    }

    /** Hides both buttons and brings the video to the front. */
    method ShowBusy()
      modifies this`startShown, this`stopShown, this`videoOpacity, this`imageOpacity
      ensures BusyDisplay()
    {
      startShown := false;
      stopShown := false;
      videoOpacity := 1;
      imageOpacity := 0;
    }

    /** Shows the start button only and brings the image to the front. */
    method ShowIdle()
      modifies this`startShown, this`stopShown, this`videoOpacity, this`imageOpacity
      ensures IdleDisplay()
    {
      startShown := true;
      stopShown := false;
      videoOpacity := 0;
      imageOpacity := 1;
    }

    /** Starts a recording. There is no guard: a recording already under way is
        replaced, id and all. Returns the path the audio is written to. */
    method StartRecording(timestamp: string, random: string) returns (path: string)
      modifies this
      ensures Valid()
      ensures recordingId == Some(RecordingId(timestamp, random))
      ensures recording == Capturing
      ensures path == AudioPath(RecordingId(timestamp, random), audioFormat)
      ensures RecordingControls()
      ensures videoOpacity == old(videoOpacity) && imageOpacity == old(imageOpacity)
      ensures imageSrc == old(imageSrc)
    {
      ShowRecordingControls();
      var id := RecordingId(timestamp, random);
      recordingId := Some(id);
      var filename := AudioFileName(id, audioFormat);
      path := JoinPath(RecordingsFolder, filename);
      recording := Capturing;
    }

    /** Runs one generation for a finished audio file: transcribe it, build the
        prompt, ask for an image, show it. A failed transcription returns at
        once, before the display is reset; a failed image request is caught and
        the display is reset all the same. */
    method Generate(audioPath: string, transcribe: string -> Reply, draw: string -> Reply)
      returns (outcome: GenerateOutcome)
      modifies this
      ensures recordingId == old(recordingId) && recording == old(recording)
      ensures outcome == Generation(audioPath, transcribe, draw)
      ensures DisplayAfter(outcome, old(imageSrc))
    {
      ShowBusy();
      var transcription := transcribe(audioPath);
      if transcription.Failed? {
        return TranscriptionFailed;
      }
      var transcript := transcription.value;
      var prompt := Prompt(transcript);
      var image := draw(prompt);
      if image.Delivered? {
        imageSrc := image.value;
        outcome := ImageShown(transcript, prompt, image.value);
      } else {
        outcome := ImageFailed(transcript, prompt);
      }
      ShowIdle();
    }

    /** Stops the recording and generates from its audio file. The buttons are
        set as during recording first; with no recorder the call to `stop`
        throws and nothing else happens. */
    method StopRecording(transcribe: string -> Reply, draw: string -> Reply)
      returns (result: StopOutcome)
      requires Valid()
      modifies this
      ensures Valid()
      ensures recordingId == old(recordingId)
      ensures result.StopThrew? <==> old(recording) == Unset
      ensures result.StopThrew? ==>
                && recording == Unset && RecordingControls()
                && videoOpacity == old(videoOpacity) && imageOpacity == old(imageOpacity)
                && imageSrc == old(imageSrc)
      ensures result.Generated? ==>
                && recording == Stopped
                && result.audioPath == AudioPath(old(recordingId).value, audioFormat)
                && result.outcome == Generation(result.audioPath, transcribe, draw)
                && DisplayAfter(result.outcome, old(imageSrc))
    {
      ShowRecordingControls();
      if recording == Unset {
        return StopThrew;
      }
      recording := Stopped;
      var filename := AudioFileName(recordingId.value, audioFormat);
      var path := JoinPath(RecordingsFolder, filename);
      var outcome := Generate(path, transcribe, draw);
      result := Generated(path, outcome);
    }
  }

  /** One visit: the start button, then the stop button. The file generation
      reads is the file recording wrote. */
  method Visit(app: Application, timestamp: string, random: string,
               transcribe: string -> Reply, draw: string -> Reply)
    returns (recordedPath: string, result: StopOutcome)
    requires app.Valid()
    modifies app
    ensures app.Valid()
    ensures app.recordingId == Some(RecordingId(timestamp, random)) && app.recording == Stopped
    ensures result == Generated(recordedPath, Generation(recordedPath, transcribe, draw))
    ensures app.DisplayAfter(result.outcome, old(app.imageSrc))
  {
    recordedPath := app.StartRecording(timestamp, random);
    result := app.StopRecording(transcribe, draw);
  }

  /** The start button pressed twice before stop: generation reads the second
      file, and the first is read only if the two ids coincide. */
  method VisitRestarted(app: Application, t1: string, r1: string, t2: string, r2: string,
                        transcribe: string -> Reply, draw: string -> Reply)
    returns (firstPath: string, secondPath: string, result: StopOutcome)
    requires app.Valid()
    requires IsTimestamp(t1) && IsTimestamp(t2)
    modifies app
    ensures result.Generated? && result.audioPath == secondPath
    ensures result.audioPath == firstPath <==> t1 == t2 && RandomSuffix(r1) == RandomSuffix(r2)
  {
    firstPath := app.StartRecording(t1, r1);
    secondPath := app.StartRecording(t2, r2);
    result := app.StopRecording(transcribe, draw);
    AudioPathInjective(RecordingId(t1, r1), RecordingId(t2, r2), app.audioFormat);
    RecordingIdInjective(t1, r1, t2, r2);
  }

  /** A visit whose transcription fails leaves no button on screen: neither a
      new visit nor a stop can be started from the display. */
  method VisitTranscriptionFails(app: Application, timestamp: string, random: string,
                                 transcribe: string -> Reply, draw: string -> Reply)
    returns (result: StopOutcome)
    requires app.Valid()
    requires transcribe(AudioPath(RecordingId(timestamp, random), app.audioFormat)).Failed?
    modifies app
    ensures result.Generated? && result.outcome == TranscriptionFailed
    ensures !app.startShown && !app.stopShown
    ensures app.videoOpacity == 1 && app.imageOpacity == 0
  {
    var _ := app.StartRecording(timestamp, random);
    result := app.StopRecording(transcribe, draw);
  }

}
