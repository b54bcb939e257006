/**
 * Voice capture: the `isRecording` flag and the `MediaRecorder` it guards
 * (`startVoiceRecording`, `stopVoiceRecording`, the voice button, the
 * recorder's `onstop` and the recogniser's `onend`), and the separate
 * microphone toggle (`toggleMicrophone`).
 *
 * The browser devices are abstract: whether `getUserMedia` grants access is
 * a parameter, and the callbacks the browser fires are methods.
 */
module Capture {

  /** The state of the recorder the `mediaRecorder` variable refers to. */
  datatype RecorderState = NoRecorder | Recording | Inactive

  class VoiceRecorder {
    /** The source's `isRecording`. */
    var isRecording: bool
    /** The recorder `mediaRecorder` refers to. */
    var current: RecorderState
    /** Recorders that were stopped and whose `onstop` has not run yet; each still holds its stream. */
    var pendingStops: nat
    /** Recorders that `mediaRecorder` stopped referring to while they were still recording. */
    var orphaned: nat
    /** Streams whose `onstop` threw before releasing them. */
    var leaked: nat
    /** Microphone streams acquired by voice capture whose tracks are not yet stopped. */
    var liveStreams: nat
    /** The speech recogniser is running. */
    var listening: bool
    /**
     * A `SpeechRecognition` object exists. Without one the voice button is
     * disabled at start-up, so its clicks do nothing.
     */
    const hasRecognition: bool

    /**
     * Every live stream belongs to the current recording, to a stopped
     * recorder awaiting `onstop`, to an orphaned recorder, or to a recorder
     * whose `onstop` threw; and the flag is set only while the current
     * recorder records.
     */
    ghost predicate Valid()
      reads this
    {
      liveStreams == pendingStops + orphaned + leaked + (if current == Recording then 1 else 0) &&
      (isRecording ==> current == Recording)
    }

    constructor (hasRecognition: bool)
      ensures Valid()
      ensures !isRecording && current == NoRecorder && !listening && this.hasRecognition == hasRecognition
      ensures pendingStops == 0 && orphaned == 0 && leaked == 0 && liveStreams == 0
    {
      isRecording := false;
      current := NoRecorder;
      pendingStops, orphaned, leaked, liveStreams := 0, 0, 0, 0;
      listening := false;
      this.hasRecognition := hasRecognition;
    }

    /**
     * `startVoiceRecording`, with `granted` the outcome of `getUserMedia`.
     * On success a fresh stream is recorded and the flag is raised; on
     * failure nothing changes. A recorder still recording is replaced.
     */
    method StartVoiceRecording(granted: bool)
      requires Valid()
      modifies this
      ensures Valid()
      ensures isRecording == (granted || old(isRecording))
      ensures current == (if granted then Recording else old(current))
      ensures liveStreams == old(liveStreams) + (if granted then 1 else 0)
      ensures orphaned == old(orphaned) + (if granted && old(current) == Recording then 1 else 0)
      ensures pendingStops == old(pendingStops) && leaked == old(leaked) && listening == old(listening)
    {
      if !granted {
        return;
      }
      if current == Recording {
        orphaned := orphaned + 1;
      }
      current := Recording;
      liveStreams := liveStreams + 1;
      isRecording := true;
    }

    /** `stopVoiceRecording`: only while recording, stop the recorder and clear the flag. */
    method StopVoiceRecording()
      requires Valid()
      modifies this
      ensures Valid()
      ensures !isRecording
      ensures old(isRecording) ==> current == Inactive && pendingStops == old(pendingStops) + 1
      ensures !old(isRecording) ==> current == old(current) && pendingStops == old(pendingStops)
      ensures liveStreams == old(liveStreams) && orphaned == old(orphaned) && leaked == old(leaked)
      ensures listening == old(listening)
    {
      if current != NoRecorder && isRecording {
        current := Inactive;
        pendingStops := pendingStops + 1;
        isRecording := false;
      }
    }

    /**
     * The voice button: disabled without a recogniser; otherwise start when
     * not recording and stop when recording. A start while the current
     * recorder still records (after `onend` cleared the flag) orphans it.
     */
    method Click(granted: bool)
      requires Valid()
      modifies this
      ensures Valid()
      ensures !hasRecognition ==>
        isRecording == old(isRecording) && current == old(current) && pendingStops == old(pendingStops) &&
        liveStreams == old(liveStreams) && orphaned == old(orphaned)
      ensures hasRecognition ==> isRecording == (!old(isRecording) && granted)
      ensures hasRecognition ==>
        current == (if old(isRecording) then Inactive else if granted then Recording else old(current))
      ensures hasRecognition ==>
        orphaned == old(orphaned) + (if !old(isRecording) && granted && old(current) == Recording then 1 else 0)
      ensures hasRecognition && old(isRecording) ==>
        pendingStops == old(pendingStops) + 1 && liveStreams == old(liveStreams)
      ensures hasRecognition && !old(isRecording) ==>
        pendingStops == old(pendingStops) && liveStreams == old(liveStreams) + (if granted then 1 else 0)
      ensures leaked == old(leaked) && listening == old(listening)
    {
      if !hasRecognition {
        return;
      }
      if !isRecording {
        StartVoiceRecording(granted);
      } else {
        StopVoiceRecording();
      }
    }

    /**
     * A stopped recorder's `onstop`: `recognition.start()`, then release of
     * that recorder's stream. Starting a recogniser that is already running
     * throws, and the throw skips the release: the stream stays live.
     */
    method OnRecorderStop()
      requires Valid() && pendingStops > 0
      modifies this
      ensures Valid()
      ensures pendingStops == old(pendingStops) - 1
      ensures hasRecognition && old(listening) ==> leaked == old(leaked) + 1 && liveStreams == old(liveStreams)
      ensures !(hasRecognition && old(listening)) ==> leaked == old(leaked) && liveStreams == old(liveStreams) - 1
      ensures listening == (old(listening) || hasRecognition)
      ensures isRecording == old(isRecording) && current == old(current) && orphaned == old(orphaned)
    {
      pendingStops := pendingStops - 1;
      if hasRecognition {
        if listening {
          leaked := leaked + 1;
          return;
        }
        listening := true;
      }
      liveStreams := liveStreams - 1;
    }

    /** The recogniser's `onend`: recognition is over and the flag is cleared, whatever the recorder is doing. */
    method OnRecognitionEnd()
      requires Valid()
      modifies this
      ensures Valid()
      ensures !isRecording && !listening
      ensures current == old(current) && pendingStops == old(pendingStops)
      ensures liveStreams == old(liveStreams) && orphaned == old(orphaned) && leaked == old(leaked)
    {
      listening := false;
      isRecording := false;
    }
  }

  /**
   * Recording once, stopping, and the recorder's `onstop` release the
   * recording's stream, unless recognition of an earlier recording is still
   * running, in which case that stream is leaked.
   */
  method RecordOnce(r: VoiceRecorder)
    requires r.Valid() && r.liveStreams == 0 && !r.isRecording && r.hasRecognition
    modifies r
    ensures r.Valid() && !r.isRecording && r.listening
    ensures r.liveStreams == (if old(r.listening) then 1 else 0)
    ensures r.leaked == (if old(r.listening) then 1 else 0)
  {
    r.Click(true);
    r.Click(false);
    r.OnRecorderStop();
  }

  /**
   * `onend` clears the flag even while a newer recording runs, so the next
   * click starts another recorder instead of stopping the running one; the
   * replaced recorder is never stopped and its stream is never released.
   */
  method OrphanedRecording() returns (r: VoiceRecorder)
    ensures fresh(r)
    ensures r.Valid() && r.orphaned == 1 && r.liveStreams == 2
    ensures r.isRecording && r.current == Recording
  {
    r := new VoiceRecorder(true);
    r.Click(true);
    r.Click(true);
    r.OnRecorderStop();
    r.Click(true);
    r.OnRecognitionEnd();
    r.Click(true);
  }

  /**
   * A second recording stopped while recognition of the first still runs:
   * its `onstop` throws on `recognition.start()` and its stream is never released.
   */
  method LeakedOnBusyRecogniser() returns (r: VoiceRecorder)
    ensures fresh(r)
    ensures r.Valid() && r.leaked == 1 && r.liveStreams == 1 && !r.isRecording
    ensures r.listening
  {
    r := new VoiceRecorder(true);
    r.Click(true);
    r.Click(true);
    r.OnRecorderStop();
    r.Click(true);
    r.Click(true);
    r.OnRecorderStop();
  }

  /** The microphone toggle: `userAudioStream` is either held or null. */
  class Microphone {
    var held: bool

    constructor ()
      ensures !held
    {
      held := false;
    }

    /** `toggleMicrophone`: acquire when none is held (and the browser grants it), release otherwise. */
    method Toggle(granted: bool)
      modifies this
      ensures held == (!old(held) && granted)
    {
      if !held {
        if granted {
          held := true;
        }
      } else {
        held := false;
      }
    }
  }
}
