# Voice chat widget core, modelled in Dafny

This project models the logic behind an embeddable chat widget. The widget
talks to a text-generation service, can listen to the user through the
browser's speech recognition and can read answers aloud through the browser's
speech synthesis. Three source files hold that logic. Each becomes one or two
Dafny modules:

- `VoiceSelection` (`voice_selection.dfy`) covers `findBestVoice` from
  `src/hooks/useVoice.ts`. It is a fallback chain over the voices the
  platform lists: exact locale, then language family, then a table of
  regional equivalents, then any English voice, then the first voice, then
  none. `BestVoice` is the reference definition of the chain. The method
  `FindBestVoice` keeps the source's sequence of `find` calls and its loop
  over the regional alternatives, and is proved equal to it. The lemmas then
  prove each step of the chain. One of them, `RegionalTableIsRedundant`,
  shows that the regional table can never change the result: every
  alternative it lists shares the requested language's family, so the
  family step always picks a voice first.
- `VoiceControl` (`voice_control.dfy`) covers the rest of the `useVoice`
  hook. The class `VoiceController` holds the hook's `VoiceState` record,
  the recognizer reference (`recognitionRef`) and the synthesis reference
  (`synthesisRef`). Each event handler and each action the hook returns is
  a method that changes exactly the fields the source changes. The hook's
  calls into the platform (`start`, `stop`, `cancel`, `speak`) are recorded
  in order in the field `sent`. The class invariant `Valid()` keeps seven
  facts:
  - `isSupported` holds exactly when both recognition and synthesis are offered;
  - `supportedLanguages` stays `en-US`, `es-ES`, `fr-FR`;
  - a recognizer exists only when recognition is offered;
  - synthesis is available only when it is offered;
  - listening needs a recognizer;
  - speaking needs synthesis;
  - at most one utterance has been queued since the last `cancel()`.

  The transcript loop of `onresult` is the method `CollectTranscripts`. The
  error-code classifier is `RecognitionErrorMessage`, proved injective.
- `GeminiClient` (`gemini_client.dfy`) covers `GeminiApiService` from
  `src/services/geminiApi.ts`:
  - the system prompt, with its `context || default persona` choice;
  - the request body: the system prompt as a leading `user` turn, then each
    turn mapped to the `user`/`model` wire roles (`BuildContents` keeps the
    source's push loop);
  - the classification of the reply: network or decoding failure, 429,
    other non-OK status, first candidate's first part, or no response.

  `fetch` and JSON decoding are not modelled: their outcome is the input
  `FetchReply`.
- `Chat` (`chat.dfy`) covers the `useChat` hook. The class `Conversation`
  holds the append-only message list and the loading flag. `SendMessage`
  does the following, in order:
  1. guards against blank input and a request in flight;
  2. appends the user's trimmed message;
  3. builds the history with `History`;
  4. calls the client;
  5. appends either the reply or the fixed apology;
  6. clears the loading flag.
- `JsText` (`jstext.dfy`) holds the JavaScript string operations the code
  relies on, written out over characters: `trim`, `split('-')[0]` and
  `startsWith`. `Wrappers` holds `Option` and `Result`.

A few facts about the hooks that shape the model:
- recognition `onerror` has four fixed messages and one generic message that
  embeds the code (src/hooks/useVoice.ts:139-154);
- `useChat` appends the same apology for every failure, whatever its kind,
  and never calls `speak` (src/hooks/useChat.ts:62-70);
- `startListening` does not refuse a second start; a `start()` that throws
  is the parameter `startThrows` (src/hooks/useVoice.ts:209-218).

## Model

| member | source | states |
|---|---|---|
| JsText.Trim | src/hooks/useChat.ts:26 | `trim()` removes only leading and trailing JavaScript whitespace: the input is some whitespace, then the result, then only whitespace; the result is empty exactly when every character is whitespace, and otherwise starts and ends with a non-whitespace character |
| JsText.FirstDashField | src/hooks/useVoice.ts:235 | `language.split('-')[0]` is a prefix of the language holding no `-`, and is followed by a `-` unless it is the whole language |
| VoiceSelection.FindIndex | src/hooks/useVoice.ts:231 | the position `find` stops at is the first voice that passes the test; there is none exactly when no voice passes |
| VoiceSelection.Find | src/hooks/useVoice.ts:231 | `voices.find(...)` returns the first voice in the list that passes the test, and returns nothing exactly when no voice passes |
| VoiceSelection.Alternatives | src/hooks/useVoice.ts:240-249 | definition of `languageMap[language] \|\| []`; `AlternativesShareFamily` states its property |
| VoiceSelection.FirstRegional | src/hooks/useVoice.ts:250-253 | definition of the loop over the alternatives; `FirstRegionalIsVoice` and `FirstRegionalMisses` state its properties, and `FindBestVoice` proves the loop equal to it |
| VoiceSelection.BestVoice | src/hooks/useVoice.ts:229-261 | definition of the whole fallback chain; `BestVoiceIsVoice`, `ExactMatchWins`, `FamilyMatchWins`, `RegionalTableIsRedundant`, `EnglishFallback` and `FirstVoiceLastResort` state its properties |
| VoiceSelection.FindBestVoice | src/hooks/useVoice.ts:229-261 | the method's chain of `find`s and its loop over the regional alternatives compute the reference chain `BestVoice`; the result is `null` exactly when there are no voices, and otherwise one of the voices |
| VoiceSelection.BestVoiceIsVoice | src/hooks/useVoice.ts:256-260 | the selection yields no voice only for an empty list, and any voice it yields is in the list |
| VoiceSelection.FirstRegionalIsVoice | src/hooks/useVoice.ts:249-253 | a voice found through the regional alternatives is in the list |
| VoiceSelection.ExactMatchWins | src/hooks/useVoice.ts:231-232 | when some voice's `lang` equals the requested language, the first such voice is chosen |
| VoiceSelection.FamilyMatchWins | src/hooks/useVoice.ts:235-237 | with no exact match, the first voice whose `lang` starts with the text before the first `-` is chosen |
| VoiceSelection.AlternativesShareFamily | src/hooks/useVoice.ts:240-249 | every alternative in the regional table starts with its language's family |
| VoiceSelection.FirstRegionalMisses | src/hooks/useVoice.ts:250-253 | the loop over the alternatives finds nothing when no voice has any of their tags |
| VoiceSelection.RegionalTableIsRedundant | src/hooks/useVoice.ts:235-253 | the selection equals the same chain without the regional step, so the table never changes the result |
| VoiceSelection.EnglishFallback | src/hooks/useVoice.ts:255-257 | with no voice of the requested locale or family, the first voice whose `lang` starts with `en` is chosen |
| VoiceSelection.FirstVoiceLastResort | src/hooks/useVoice.ts:259-260 | with no locale, family or English voice, the first voice is chosen |
| VoiceControl.CollectTranscripts | src/hooks/useVoice.ts:118-128 | the loop from `resultIndex` concatenates, in order, the final results' transcripts and the interim results' transcripts separately |
| VoiceControl.JoinedIsEmpty | src/hooks/useVoice.ts:121-128 | a concatenation is empty exactly when every selected transcript is empty |
| VoiceControl.HeardText | src/hooks/useVoice.ts:130-133 | definition of `finalTranscript \|\| interimTranscript`; `HeardTextPrefersFinal` states its properties |
| VoiceControl.HeardTextPrefersFinal | src/hooks/useVoice.ts:130-133 | `finalTranscript \|\| interimTranscript` keeps the final text whenever some final result carries text, and the interim text otherwise |
| VoiceControl.RecognitionErrorMessage | src/hooks/useVoice.ts:139-154 | definition of the `switch`; `RecognitionErrorMessageHead` and `RecognitionErrorMessageInjective` state its properties |
| VoiceControl.RecognitionErrorMessageHead | src/hooks/useVoice.ts:139-154 | a code's message starts with `Speech recognition error: ` exactly when the code is not one of the four known ones |
| VoiceControl.RecognitionErrorMessageInjective | src/hooks/useVoice.ts:139-154 | two codes that give the same message are the same code |
| VoiceControl.RequestedLanguage | src/hooks/useVoice.ts:276 | `options.language \|\| 'en-US'` is never empty |
| VoiceControl.UtteranceFor | src/hooks/useVoice.ts:273-287 | definition of the utterance `speak` builds; `UtteranceLanguage` states its properties |
| VoiceControl.UtteranceLanguage | src/hooks/useVoice.ts:273-287 | the utterance carries the text; with any voices known it uses a listed voice and that voice's `lang`; with none it uses the requested language |
| VoiceControl.CancelThenSpeak | src/hooks/useVoice.ts:271-313 | a `cancel()` followed by `speak(u)` leaves exactly `u` queued, whatever was queued before |
| VoiceControl.VoiceController.constructor | src/hooks/useVoice.ts:84-96 | the initial state: not listening or speaking, supported only when both platforms are, no error, empty transcript, the three supported languages, no voices, no platform objects |
| VoiceControl.VoiceController.InitializeRecognition | src/hooks/useVoice.ts:99-111 | without recognition only the error is set; otherwise a recognizer in the default language is installed and the state is unchanged |
| VoiceControl.VoiceController.LoadVoices | src/hooks/useVoice.ts:180-183 | only the voice list changes |
| VoiceControl.VoiceController.InitializeSynthesis | src/hooks/useVoice.ts:171-190 | without synthesis only the error is set; otherwise synthesis becomes available and the voices are loaded |
| VoiceControl.VoiceController.Mount | src/hooks/useVoice.ts:193-196 | the mount effect installs what the platform offers; a missing synthesis overrides a missing recognition in `error`; nothing else in the state changes |
| VoiceControl.VoiceController.OnStart | src/hooks/useVoice.ts:113-115 | listening, error cleared, nothing else changed |
| VoiceControl.VoiceController.OnResult | src/hooks/useVoice.ts:117-134 | only the transcript changes, to the final text from `resultIndex` on or else the interim text |
| VoiceControl.VoiceController.OnError | src/hooks/useVoice.ts:136-161 | the classified message is stored and listening stops; nothing else changes |
| VoiceControl.VoiceController.OnEnd | src/hooks/useVoice.ts:163-165 | listening stops; nothing else changes |
| VoiceControl.VoiceController.StartListening | src/hooks/useVoice.ts:199-219 | without a recognizer only the error is set and no call is made; otherwise a non-empty language replaces the recognizer's, the transcript and error are cleared and `start` is called; if `start` throws, the failure is reported and listening is off |
| VoiceControl.VoiceController.StopListening | src/hooks/useVoice.ts:222-226 | `stop` is called exactly when a recognizer exists and the hook is listening; the state is untouched |
| VoiceControl.VoiceController.Speak | src/hooks/useVoice.ts:264-314 | without synthesis only the error is set; otherwise `cancel` then `speak` of the utterance for the best voice, leaving that utterance the only one queued, with the state unchanged |
| VoiceControl.VoiceController.OnUtteranceStart | src/hooks/useVoice.ts:293-295 | speaking, error cleared, nothing else changed |
| VoiceControl.VoiceController.OnUtteranceEnd | src/hooks/useVoice.ts:297-299 | speaking stops; nothing else changes |
| VoiceControl.VoiceController.OnUtteranceError | src/hooks/useVoice.ts:301-311 | an `interrupted` error only stops speaking; any other code also stores `Speech synthesis error: <code>` |
| VoiceControl.VoiceController.StopSpeaking | src/hooks/useVoice.ts:317-322 | with synthesis, `cancel` is called, nothing stays queued, and only `isSpeaking` changes (to false, so a second call leaves the state as it is); without synthesis nothing happens |
| VoiceControl.VoiceController.ClearError | src/hooks/useVoice.ts:325-327 | only `error` changes, to none (so the call is idempotent) |
| VoiceControl.VoiceController.GetTranscript | src/hooks/useVoice.ts:330-334 | returns the current transcript and leaves it empty, so a second call with no result in between returns the empty string |
| GeminiClient.WithGuidance | src/services/geminiApi.ts:108-141 | appending the guidance lines keeps the text it is appended to as a prefix |
| GeminiClient.BaseContext | src/services/geminiApi.ts:106 | definition of `context \|\| default persona`; `CreateSystemPrompt` states what the prompt starts with |
| GeminiClient.CreateSystemPrompt | src/services/geminiApi.ts:105-108 | the prompt starts with the context when it is non-empty, and with the default persona when it is absent or empty |
| GeminiClient.WireRoundTrip | src/services/geminiApi.ts:46-58 | the turn mapping loses nothing: reading the wire messages back gives the turns, in order |
| GeminiClient.BuildContents | src/services/geminiApi.ts:36-58 | the pushed list has one more element than the turns: the system prompt as a `user` turn, then each turn with `user`→`user`, `assistant`→`model` and its text as the only part, in order |
| GeminiClient.SendMessage | src/services/geminiApi.ts:30-103 | the request carries the system prompt for the context and then the conversation, and the outcome is the classification of the fetch reply |
| GeminiClient.FirstText | src/services/geminiApi.ts:86-96 | definition of `candidates[0].content.parts[0].text` behind its guards; `ExtractsFirstPart` states its properties |
| GeminiClient.ReadReply | src/services/geminiApi.ts:77-98 | definition of the reply classification; `StatusClassification`, `ExtractsFirstPart` and `FailuresPropagate` state its properties |
| GeminiClient.StatusClassification | src/services/geminiApi.ts:77-82 | a non-OK 429 fails with `QUOTA_EXCEEDED`, any other non-OK status with an error carrying that status, and an OK status with neither |
| GeminiClient.ExtractsFirstPart | src/services/geminiApi.ts:84-98 | an OK reply succeeds exactly when there is a first candidate with a first part, yielding that part's text; otherwise it fails with "No response" |
| GeminiClient.FailuresPropagate | src/services/geminiApi.ts:99-102 | a failure of `fetch` or of decoding reaches the caller unchanged |
| GeminiClient.ErrorMessage | src/services/geminiApi.ts:79-98 | definition of the thrown errors' messages; `StatusMessageIdentifiesStatus` states its property |
| GeminiClient.DecimalStringInjective | src/services/geminiApi.ts:81 | two statuses with the same decimal text are equal |
| GeminiClient.StatusMessageIdentifiesStatus | src/services/geminiApi.ts:81 | the `Gemini API error: <status>` message determines the status |
| Chat.Accepts | src/hooks/useChat.ts:26 | definition of the guard; the contracts of `Conversation.BeginSend` and `Conversation.SendMessage` state what it lets through |
| Chat.ReplyText | src/hooks/useChat.ts:54-70 | definition of the text of the message appended after the call; `FailuresCollapse` states its properties |
| Chat.TurnsOf | src/hooks/useChat.ts:40-43 | one turn per message, in order, with role `user` exactly for the user's messages and the message's text as content |
| Chat.History | src/hooks/useChat.ts:40-49 | the history has one more entry than the messages: each earlier message in order, mapped to its role, then the new input as a `user` turn |
| Chat.Conversation.constructor | src/hooks/useChat.ts:12-20 | the conversation opens with exactly one non-user greeting with id `"1"` and is not loading |
| Chat.Conversation.BeginSend | src/hooks/useChat.ts:26-49 | blank or busy input changes nothing and yields no history; otherwise exactly one user message with the trimmed text is appended, loading is set, and the history is built from the messages before the append |
| Chat.Conversation.FinishSend | src/hooks/useChat.ts:54-73 | exactly one non-user message is appended, holding the reply or the apology, and loading is cleared |
| Chat.Conversation.SendMessage | src/hooks/useChat.ts:25-74 | a guarded call changes nothing and sends nothing; an accepted call sends the history and appends exactly the user's message and one reply (the reply text, or the apology for any failure), and loading ends false |
| Chat.FailuresCollapse | src/hooks/useChat.ts:62-70 | every kind of failure appends the same apology; a success appends the reply itself |

## Left out

- The Web Speech objects (`SpeechRecognition`, `speechSynthesis`, `SpeechSynthesisUtterance`) are not modelled. Their events are methods of `VoiceController`, and the hook's calls into them are recorded in `sent`. Whether the platform offers recognition or synthesis is a constructor parameter. The voice list is a parameter of `Mount` and `LoadVoices`. A throwing `start()` is the parameter `startThrows`.
- The recognizer's `continuous`, `interimResults` and `maxAlternatives` settings are left out. They only configure the platform. Each result's transcript is the first alternative's transcript.
- `rate`, `pitch` and `volume` are left out, because they are floating-point settings the logic never reads. `options.voice` is left out too, because `speak` ignores it.
- `fetch`, the URL, the API key, `API_CONFIG` (model name, token limit, temperature) and JSON encoding are left out. The outcome of the request is the input `FetchReply`: a rejection, or a status with a decoded or undecodable body.
- A part whose `text` is missing is not modelled. Neither is a `null` entry in the candidate list. Every part carries a string.
- `Date.now()` ids and `new Date()` timestamps are parameters of the chat methods. The `console.error` logging is left out.
- React's asynchronous state updates are left out. Each handler is one atomic transition on the current state, and `useCallback` closures never see stale state.
- `VoiceSelection.Alternatives` looks the regional table up as a map. The source indexes a plain object. For a language named like an inherited property (such as `constructor` or `toString`), the lookup yields a function, so the `for ... of` loop throws a `TypeError` after `cancel()` has already run. This is not modelled, and `RegionalTableIsRedundant` holds only for the map lookup. The language list of the settings panel (src/components/VoiceSettings.tsx:66-77) offers no such name.
- Strings are sequences of Unicode scalar values, not UTF-16 code units.
- The settings panel and the presentational components are not part of this model: `src/components/*.tsx`, `src/AgentWidget.tsx`, the `loader/embed.js` bootstrapping and the build configuration.
- `GeminiClient.CreateSystemPrompt`: its contract states only how the prompt starts. The exact guidance text that follows is given by `GuidanceLine` and `WithGuidance` and is not restated in the contract.
