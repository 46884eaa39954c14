/**
 * The voice hook of src/hooks/useVoice.ts: one `VoiceState` record updated
 * by the speech-recognition and speech-synthesis event handlers and by the
 * actions the hook hands to the UI. The platform objects themselves are not
 * modelled: their events are the methods `OnStart`, `OnResult`, ... below,
 * and the calls the hook makes into them are recorded in `sent`.
 */
module VoiceControl {
  import opened Wrappers
  import opened JsText
  import opened VoiceSelection

  /** The hook's state record (`VoiceState`); `error == None` stands for `null`. */
  datatype VoiceState = VoiceState(
    isListening: bool,
    isSpeaking: bool,
    isSupported: bool,
    error: Option<string>,
    transcript: string,
    supportedLanguages: seq<string>,
    availableVoices: seq<Voice>)

  const SupportedLanguages: seq<string> := ["en-US", "es-ES", "fr-FR"]

  /** The hook's `defaultLanguage` parameter, which defaults to `en-US` when it is not given. */
  function DefaultLanguageOf(language: Option<string>): string
  {
    language.GetOr("en-US")
  }

  // ---------------------------------------------------------------------
  // Recognition results and errors

  /** One entry of a recognition event's result list: its first alternative's text and its `isFinal` flag. */
  datatype SpeechResult = SpeechResult(transcript: string, isFinal: bool)

  /** The transcripts of the results whose `isFinal` flag is `final`, concatenated in order. */
  function Joined(results: seq<SpeechResult>, final: bool): string
  {
    if results == [] then ""
    else
      var last := results[|results| - 1];
      Joined(results[..|results| - 1], final) + (if last.isFinal == final then last.transcript else "")
  }

  /** The results a handler visits: those from `resultIndex` on. */
  function FromIndex(resultIndex: nat, results: seq<SpeechResult>): seq<SpeechResult>
  {
    if resultIndex <= |results| then results[resultIndex..] else []
  }

  /** What `onresult` stores: the final text if it is non-empty, otherwise the interim text. */
  function HeardText(resultIndex: nat, results: seq<SpeechResult>): string
  {
    var finalText := Joined(FromIndex(resultIndex, results), true);
    if finalText != "" then finalText else Joined(FromIndex(resultIndex, results), false)
  }

  /** The loop of `onresult`: accumulate final and interim transcripts from `resultIndex` on. */
  method CollectTranscripts(resultIndex: nat, results: seq<SpeechResult>)
    returns (finalText: string, interimText: string)
    ensures finalText == Joined(FromIndex(resultIndex, results), true)
    ensures interimText == Joined(FromIndex(resultIndex, results), false)
  {
    finalText, interimText := "", "";
    var i := resultIndex;
    while i < |results|
      invariant resultIndex <= |results| ==> resultIndex <= i <= |results|
      invariant resultIndex <= |results| ==> finalText == Joined(results[resultIndex..i], true)
      invariant resultIndex <= |results| ==> interimText == Joined(results[resultIndex..i], false)
      invariant resultIndex > |results| ==> finalText == "" && interimText == ""
    {
      assert results[resultIndex..i + 1][..i - resultIndex] == results[resultIndex..i];
      var transcript := results[i].transcript;
      if results[i].isFinal {
        finalText := finalText + transcript;
      } else {
        interimText := interimText + transcript;
      }
      i := i + 1;
    }
    if resultIndex <= |results| {
      assert results[resultIndex..i] == results[resultIndex..];
    }
  }

  /** The concatenation is empty exactly when every selected transcript is empty. */
  lemma {:induction false} JoinedIsEmpty(results: seq<SpeechResult>, final: bool)
    ensures Joined(results, final) == "" <==>
      forall k :: 0 <= k < |results| && results[k].isFinal == final ==> results[k].transcript == ""
  {
    if results != [] {
      var front := results[..|results| - 1];
      JoinedIsEmpty(front, final);
      assert forall k :: 0 <= k < |front| ==> front[k] == results[k];
    }
  }

  /**
   * `onresult` keeps the final text whenever some final result from
   * `resultIndex` on carries text, and falls back to the interim text
   * only when none does.
   */
  lemma HeardTextPrefersFinal(resultIndex: nat, results: seq<SpeechResult>)
    ensures (exists k :: resultIndex <= k < |results| && results[k].isFinal && results[k].transcript != "")
      ==> HeardText(resultIndex, results) == Joined(FromIndex(resultIndex, results), true) != ""
    ensures (forall k :: resultIndex <= k < |results| && results[k].isFinal ==> results[k].transcript == "")
      ==> HeardText(resultIndex, results) == Joined(FromIndex(resultIndex, results), false)
  {
    var visited := FromIndex(resultIndex, results);
    JoinedIsEmpty(visited, true);
    if resultIndex <= |results| {
      assert forall k :: 0 <= k < |visited| ==> visited[k] == results[resultIndex + k];
      if exists k :: resultIndex <= k < |results| && results[k].isFinal && results[k].transcript != "" {
        var k :| resultIndex <= k < |results| && results[k].isFinal && results[k].transcript != "";
        assert visited[k - resultIndex] == results[k];
      }
    }
  }

  /** The message `onerror` stores for a recognition error code. */
  function RecognitionErrorMessage(code: string): string
  {
    match code
    case "no-speech" => "No speech detected. Please try again."
    case "audio-capture" => "Microphone not found or not accessible."
    case "not-allowed" => "Microphone permission denied."
    case "network" => "Network error occurred."
    case _ => "Speech recognition error: " + code
  }

  /** The four codes `onerror` has a message of its own for. */
  predicate IsKnownRecognitionError(code: string)
  {
    code == "no-speech" || code == "audio-capture" || code == "not-allowed" || code == "network"
  }

  /** Exactly the codes without a message of their own get the generic `Speech recognition error: ` message. */
  lemma RecognitionErrorMessageHead(code: string)
    ensures !IsKnownRecognitionError(code) <==> "Speech recognition error: " <= RecognitionErrorMessage(code)
  {
    var m := RecognitionErrorMessage(code);
    if !IsKnownRecognitionError(code) {
      assert m == "Speech recognition error: " + code;
    } else {
      // each of the four fixed messages is too short or starts with another letter
      assert |m| < 26 || m[0] != 'S';
    }
  }

  /** Distinct recognition error codes give distinct messages: the message identifies the code. */
  lemma RecognitionErrorMessageInjective(a: string, b: string)
    requires RecognitionErrorMessage(a) == RecognitionErrorMessage(b)
    ensures a == b
  {
    var prefix := "Speech recognition error: ";
    var m := RecognitionErrorMessage(a);
    RecognitionErrorMessageHead(a);
    RecognitionErrorMessageHead(b);
    if IsKnownRecognitionError(a) && IsKnownRecognitionError(b) {
      // the four messages have four different lengths
      assert |m| == |RecognitionErrorMessage(b)|;
    } else if !IsKnownRecognitionError(a) && !IsKnownRecognitionError(b) {
      assert m == prefix + a && m == prefix + b;
      assert a == m[|prefix|..] == b;
    }
  }

  // ---------------------------------------------------------------------
  // Synthesis

  /** The options `speak` reads; rate, pitch and volume are left out. */
  datatype SpeechOptions = SpeechOptions(language: Option<string>)

  /** `options.language || 'en-US'`: an absent or empty language falls back to `en-US`. */
  function RequestedLanguage(options: SpeechOptions): (lang: string)
    ensures lang != ""
  {
    match options.language
    case Some(l) => if l != "" then l else "en-US"
    case None => "en-US"
  }

  /** A synthesis utterance as `speak` configures it. */
  datatype Utterance = Utterance(text: string, voice: Option<Voice>, lang: string)

  /** The utterance `speak(text, options)` hands to the platform, given the voices known so far. */
  function UtteranceFor(text: string, options: SpeechOptions, voices: seq<Voice>): Utterance
  {
    var language := RequestedLanguage(options);
    var voice := BestVoice(language, voices);
    Utterance(text, voice, if voice.Some? then voice.value.lang else language)
  }

  /**
   * The utterance speaks the chosen voice's language; only when no voice is
   * known does it fall back to the requested language, itself defaulting to
   * `en-US`.
   */
  lemma UtteranceLanguage(text: string, options: SpeechOptions, voices: seq<Voice>)
    ensures UtteranceFor(text, options, voices).text == text
    ensures voices != [] ==>
      var u := UtteranceFor(text, options, voices);
      u.voice.Some? && u.voice.value in voices && u.lang == u.voice.value.lang
    ensures voices == [] ==>
      UtteranceFor(text, options, voices) == Utterance(text, None, RequestedLanguage(options))
  {
    BestVoiceIsVoice(RequestedLanguage(options), voices);
  }

  // ---------------------------------------------------------------------
  // Calls into the speech platform

  /** A call the hook makes on the platform's recognition or synthesis object. */
  datatype PlatformCall =
    | StartRecognition(lang: string)
    | StopRecognition
    | CancelSpeech
    | SpeakUtterance(utterance: Utterance)

  /** The utterances handed to the synthesis queue since the most recent `cancel()`. */
  function UtterancesSinceCancel(calls: seq<PlatformCall>): seq<Utterance>
  {
    if calls == [] then []
    else
      var front := calls[..|calls| - 1];
      match calls[|calls| - 1]
      case CancelSpeech => []
      case SpeakUtterance(u) => UtterancesSinceCancel(front) + [u]
      case _ => UtterancesSinceCancel(front)
  }

  /** Cancelling before speaking leaves exactly the new utterance queued, whatever was queued before. */
  lemma CancelThenSpeak(calls: seq<PlatformCall>, u: Utterance)
    ensures UtterancesSinceCancel(calls + [CancelSpeech, SpeakUtterance(u)]) == [u]
  {
    var after := calls + [CancelSpeech, SpeakUtterance(u)];
    assert after[..|after| - 1] == calls + [CancelSpeech];
  }

  /** A recognizer object; only its `lang` field is modelled. */
  datatype Recognizer = Recognizer(lang: string)

  // ---------------------------------------------------------------------
  // The hook

  class VoiceController {
    /** Whether the platform offers speech recognition and speech synthesis. */
    const recognitionSupported: bool
    const synthesisSupported: bool
    /** The hook's `defaultLanguage` argument. */
    const defaultLanguage: string

    /** The hook's state. */
    var state: VoiceState
    /** `recognitionRef.current`. */
    var recognition: Option<Recognizer>
    /** Whether `synthesisRef.current` is set. */
    var synthesisReady: bool
    /** Every call made on the platform objects, oldest first. */
    var sent: seq<PlatformCall>

    ghost predicate Valid()
      reads this
    {
      && state.isSupported == (recognitionSupported && synthesisSupported)
      && state.supportedLanguages == SupportedLanguages
      && (recognition.Some? ==> recognitionSupported)
      && (synthesisReady ==> synthesisSupported)
      && (state.isListening ==> recognition.Some?)
      && (state.isSpeaking ==> synthesisReady)
      && |UtterancesSinceCancel(sent)| <= 1
    }

    /** The hook's first render: the initial state, before the mount effect runs. */
    constructor (language: Option<string>, recognitionSupported: bool, synthesisSupported: bool)
      ensures Valid()
      ensures this.recognitionSupported == recognitionSupported
      ensures this.synthesisSupported == synthesisSupported
      ensures defaultLanguage == DefaultLanguageOf(language)
      ensures state == VoiceState(false, false, recognitionSupported && synthesisSupported,
                                  None, "", SupportedLanguages, [])
      ensures recognition == None && !synthesisReady && sent == []
    {
      this.recognitionSupported := recognitionSupported;
      this.synthesisSupported := synthesisSupported;
      defaultLanguage := DefaultLanguageOf(language);
      state := VoiceState(false, false, recognitionSupported && synthesisSupported,
                          None, "", SupportedLanguages, []);
      recognition := None;
      synthesisReady := false;
      sent := [];
    }

    /** `initializeRecognition`: create a recognizer in the default language, or report that there is none. */
    method InitializeRecognition()
      requires Valid()
      modifies this`state, this`recognition
      ensures Valid()
      ensures !recognitionSupported ==>
        state == old(state).(error := Some("Speech recognition not supported")) && recognition == old(recognition)
      ensures recognitionSupported ==>
        state == old(state) && recognition == Some(Recognizer(defaultLanguage))
    {
      if !recognitionSupported {
        state := state.(error := Some("Speech recognition not supported"));
        return;
      }
      recognition := Some(Recognizer(defaultLanguage));
    }

    /** `loadVoices`, run on initialisation and on every `voiceschanged` event. */
    method LoadVoices(voices: seq<Voice>)
      requires Valid() && synthesisReady
      modifies this`state
      ensures Valid()
      ensures state == old(state).(availableVoices := voices)
    {
      state := state.(availableVoices := voices);
    }

    /** `initializeSynthesis`: take the platform's synthesis object and load its voices, or report that there is none. */
    method InitializeSynthesis(voices: seq<Voice>)
      requires Valid()
      modifies this`state, this`synthesisReady
      ensures Valid()
      ensures !synthesisSupported ==>
        state == old(state).(error := Some("Speech synthesis not supported")) && synthesisReady == old(synthesisReady)
      ensures synthesisSupported ==>
        state == old(state).(availableVoices := voices) && synthesisReady
    {
      if !synthesisSupported {
        state := state.(error := Some("Speech synthesis not supported"));
        return;
      }
      synthesisReady := true;
      LoadVoices(voices);
    }

    /** The mount effect: recognition first, then synthesis with the voices the platform lists. */
    method Mount(voices: seq<Voice>)
      requires Valid()
      modifies this`state, this`recognition, this`synthesisReady
      ensures Valid()
      ensures recognition == if recognitionSupported then Some(Recognizer(defaultLanguage)) else old(recognition)
      ensures synthesisReady == (synthesisSupported || old(synthesisReady))
      ensures state.availableVoices == if synthesisSupported then voices else old(state.availableVoices)
      ensures state.error ==
        if !synthesisSupported then Some("Speech synthesis not supported")
        else if !recognitionSupported then Some("Speech recognition not supported")
        else old(state.error)
      ensures state.(error := old(state.error), availableVoices := old(state.availableVoices)) == old(state)
    {
      InitializeRecognition();
      InitializeSynthesis(voices);
    }

    // --- recognition events

    /** Recognition `onstart`: listening, with any earlier error cleared. */
    method OnStart()
      requires Valid() && recognition.Some?
      modifies this`state
      ensures Valid()
      ensures state == old(state).(isListening := true, error := None)
    {
      state := state.(isListening := true, error := None);
    }

    /** Recognition `onresult`: the transcript becomes the text heard from `resultIndex` on; nothing else changes. */
    method OnResult(resultIndex: nat, results: seq<SpeechResult>)
      requires Valid() && recognition.Some?
      modifies this`state
      ensures Valid()
      ensures state == old(state).(transcript := HeardText(resultIndex, results))
    {
      var finalText, interimText := CollectTranscripts(resultIndex, results);
      state := state.(transcript := if finalText != "" then finalText else interimText);
    }

    /** Recognition `onerror`: report the classified message and stop listening. */
    method OnError(code: string)
      requires Valid() && recognition.Some?
      modifies this`state
      ensures Valid()
      ensures state == old(state).(error := Some(RecognitionErrorMessage(code)), isListening := false)
    {
      state := state.(error := Some(RecognitionErrorMessage(code)), isListening := false);
    }

    /** Recognition `onend`: no longer listening. */
    method OnEnd()
      requires Valid() && recognition.Some?
      modifies this`state
      ensures Valid()
      ensures state == old(state).(isListening := false)
    {
      state := state.(isListening := false);
    }

    // --- actions

    /**
     * `startListening(language)`: switch the recognizer to a non-empty
     * `language`, clear the transcript and the error, and start it. When the
     * platform's `start()` throws (`startThrows`), report it and mark the
     * session as not listening.
     */
    method StartListening(language: Option<string>, startThrows: bool)
      requires Valid()
      modifies this`state, this`recognition, this`sent
      ensures Valid()
      ensures old(recognition).None? ==>
        state == old(state).(error := Some("Speech recognition not initialized"))
        && recognition == old(recognition) && sent == old(sent)
      ensures old(recognition).Some? ==>
        && recognition == (if language.Some? && language.value != "" then Some(Recognizer(language.value))
                           else old(recognition))
        && sent == old(sent) + [StartRecognition(recognition.value.lang)]
        && state == (if startThrows
                     then old(state).(transcript := "", error := Some("Failed to start speech recognition"), isListening := false)
                     else old(state).(transcript := "", error := None))
    {
      if recognition.None? {
        state := state.(error := Some("Speech recognition not initialized"));
        return;
      }
      if language.Some? && language.value != "" {
        recognition := Some(Recognizer(language.value));
      }
      state := state.(transcript := "", error := None);
      sent := sent + [StartRecognition(recognition.value.lang)];
      assert UtterancesSinceCancel(sent) == UtterancesSinceCancel(old(sent)) by {
        assert sent[..|sent| - 1] == old(sent);
      }
      if startThrows {
        state := state.(error := Some("Failed to start speech recognition"), isListening := false);
      }
    }

    /** `stopListening`: ask the recognizer to stop, only while listening; the state changes on `onend`. */
    method StopListening()
      requires Valid()
      modifies this`sent
      ensures Valid()
      ensures sent == if old(recognition).Some? && state.isListening then old(sent) + [StopRecognition] else old(sent)
    {
      if recognition.Some? && state.isListening {
        sent := sent + [StopRecognition];
        assert sent[..|sent| - 1] == old(sent);
      }
    }

    /**
     * `speak(text, options)`: cancel whatever is being spoken, then speak one
     * utterance in the best voice for the requested language.
     */
    method Speak(text: string, options: SpeechOptions)
      requires Valid()
      modifies this`state, this`sent
      ensures Valid()
      ensures !synthesisReady ==>
        state == old(state).(error := Some("Speech synthesis not available")) && sent == old(sent)
      ensures synthesisReady ==>
        && state == old(state)
        && sent == old(sent) + [CancelSpeech, SpeakUtterance(UtteranceFor(text, options, state.availableVoices))]
        && UtterancesSinceCancel(sent) == [UtteranceFor(text, options, state.availableVoices)]
    {
      if !synthesisReady {
        state := state.(error := Some("Speech synthesis not available"));
        return;
      }
      sent := sent + [CancelSpeech];
      var selectedLanguage := RequestedLanguage(options);
      var bestVoice := FindBestVoice(selectedLanguage, state.availableVoices);
      var utterance := Utterance(text, bestVoice,
                                 if bestVoice.Some? then bestVoice.value.lang else selectedLanguage);
      sent := sent + [SpeakUtterance(utterance)];
      CancelThenSpeak(old(sent), utterance);
    }

    // --- utterance events

    /** Utterance `onstart`: speaking, with any earlier error cleared. */
    method OnUtteranceStart()
      requires Valid() && synthesisReady
      modifies this`state
      ensures Valid()
      ensures state == old(state).(isSpeaking := true, error := None)
    {
      state := state.(isSpeaking := true, error := None);
    }

    /** Utterance `onend`: no longer speaking. */
    method OnUtteranceEnd()
      requires Valid() && synthesisReady
      modifies this`state
      ensures Valid()
      ensures state == old(state).(isSpeaking := false)
    {
      state := state.(isSpeaking := false);
    }

    /** Utterance `onerror`: an interruption only stops speaking; any other code is also reported. */
    method OnUtteranceError(code: string)
      requires Valid() && synthesisReady
      modifies this`state
      ensures Valid()
      ensures code == "interrupted" ==> state == old(state).(isSpeaking := false)
      ensures code != "interrupted" ==>
        state == old(state).(error := Some("Speech synthesis error: " + code), isSpeaking := false)
    {
      if code != "interrupted" {
        state := state.(error := Some("Speech synthesis error: " + code), isSpeaking := false);
      } else {
        state := state.(isSpeaking := false);
      }
    }

    /** `stopSpeaking`: cancel speech and stop speaking, when synthesis is available. */
    method StopSpeaking()
      requires Valid()
      modifies this`state, this`sent
      ensures Valid()
      ensures synthesisReady ==>
        state == old(state).(isSpeaking := false) && sent == old(sent) + [CancelSpeech]
        && UtterancesSinceCancel(sent) == []
      ensures !synthesisReady ==> state == old(state) && sent == old(sent)
    {
      if synthesisReady {
        sent := sent + [CancelSpeech];
        state := state.(isSpeaking := false);
      }
    }

    /** `clearError`. */
    method ClearError()
      requires Valid()
      modifies this`state
      ensures Valid()
      ensures state == old(state).(error := None)
    {
      state := state.(error := None);
    }

    /** `getTranscript`: hand out the current transcript and clear it, so it is consumed once. */
    method GetTranscript() returns (transcript: string)
      requires Valid()
      modifies this`state
      ensures Valid()
      ensures transcript == old(state.transcript)
      ensures state == old(state).(transcript := "")
    {
      transcript := state.transcript;
      state := state.(transcript := "");
    }
  }
}
