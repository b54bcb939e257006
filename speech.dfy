/**
 * The speech-output channel (`speakText`): the browser's `speechSynthesis`
 * is modelled as its queue of pending utterances. `cancel` empties the
 * queue, `speak` appends to it, and the end (or error) of the utterance
 * being spoken removes it from the front.
 */
module Speech {
  import opened Records

  /** A voice the browser offers: its name and BCP 47 language tag. */
  datatype Voice = Voice(name: string, lang: string)

  /** What `speakText` hands to the synthesiser. */
  datatype Utterance = Utterance(text: string, lang: string, rate: real, volume: real, voice: Option<Voice>)

  /** The language every utterance is tagged with. */
  const UtteranceLang: string := "ru-RU"

  /** The voice test the source passes to `find`. */
  predicate SourceVoiceTest(v: Voice) {
    "ru-RU" <= v.lang || "ru" <= v.lang
  }

  /** A Russian voice: its tag starts with "ru" (which every tag starting with "ru-RU" does). */
  predicate IsRussian(v: Voice) {
    "ru" <= v.lang
  }

  /**
   * `voices.find(...)`, as an index: the first voice in list order that
   * passes the source's test, which is exactly the first Russian voice.
   */
  function FindRussian(voices: seq<Voice>): (r: Option<nat>)
    ensures r.Some? ==> r.value < |voices| && IsRussian(voices[r.value])
    ensures r.Some? ==> forall j :: 0 <= j < r.value ==> !IsRussian(voices[j])
    ensures r.None? <==> forall j :: 0 <= j < |voices| ==> !IsRussian(voices[j])
  {
    if voices == [] then None
    else if SourceVoiceTest(voices[0]) then Some(0)
    else
      match FindRussian(voices[1..])
      case None => None
      case Some(i) => Some(i + 1)
  }

  /** The voice an utterance gets: the first Russian voice, or the default voice (`None`) if there is none. */
  function ChooseVoice(voices: seq<Voice>): (v: Option<Voice>)
    ensures v.Some? <==> exists j :: 0 <= j < |voices| && IsRussian(voices[j])
    ensures v.Some? ==> exists j :: 0 <= j < |voices| && voices[j] == v.value && IsRussian(voices[j]) &&
                                     forall i :: 0 <= i < j ==> !IsRussian(voices[i])
  {
    if |voices| > 0 then
      match FindRussian(voices)
      case Some(i) => Some(voices[i])
      case None => None
    else
      None
  }

  class SpeechChannel {
    /** `'speechSynthesis' in window`. */
    const supported: bool
    /** What `speechSynthesis.getVoices()` currently returns. */
    var voices: seq<Voice>
    /** Utterances queued with the synthesiser; the first is being spoken. */
    var queue: seq<Utterance>

    constructor (supported: bool, voices: seq<Voice>)
      ensures this.supported == supported && this.voices == voices && queue == []
    {
      this.supported := supported;
      this.voices := voices;
      queue := [];
    }

    /** True while the synthesiser has something to say. */
    function Speaking(): bool
      reads this
    {
      queue != []
    }

    /** The utterance `speakText(text, rate)` builds from the current voice list. */
    function Utter(text: string, rate: real): Utterance
      reads this
    {
      Utterance(text, UtteranceLang, rate, 1.0, ChooseVoice(voices))
    }

    /** The queue after `speakText` is given `text` (or, for `None`, after nothing is spoken). */
    function QueueAfter(text: Option<string>, rate: real): seq<Utterance>
      reads this
    {
      if supported && text.Some? then [Utter(text.value, rate)] else queue
    }

    /** `speechSynthesis.cancel()`. */
    method Cancel()
      modifies this`queue
      ensures queue == []
    {
      queue := [];
    }

    /**
     * `speakText`: without synthesis nothing happens; otherwise whatever was
     * queued is cancelled and the new utterance is the only one left.
     */
    method Speak(text: string, rate: real)
      modifies this`queue
      ensures !supported ==> queue == old(queue)
      ensures supported ==> queue == [old(Utter(text, rate))]
      ensures queue == old(QueueAfter(Some(text), rate))
    {
      if !supported {
        return;
      }
      Cancel();
      queue := queue + [Utter(text, rate)];
    }

    /** The utterance being spoken ends or fails (`onend`, `onerror`). */
    method Finish()
      requires queue != []
      modifies this`queue
      ensures queue == old(queue[1..])
    {
      queue := queue[1..];
    }

    /** The browser's list of voices changes (voices load asynchronously). */
    method SetVoices(vs: seq<Voice>)
      modifies this`voices
      ensures voices == vs
    {
      voices := vs;
    }
  }

  /** Two `speakText` calls in a row leave exactly the second utterance: the first is cancelled, not queued. */
  method SpeakTwice(c: SpeechChannel, first: string, second: string)
    modifies c`queue
    ensures c.supported ==> c.queue == [c.Utter(second, 1.0)]
    ensures c.supported ==> c.Speaking() && |c.queue| == 1
    ensures !c.supported ==> c.queue == old(c.queue)
  {
    c.Speak(first, 1.0);
    c.Speak(second, 1.0);
  }
}
