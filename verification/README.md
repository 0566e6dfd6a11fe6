# Real-time translator: a verified model of the transcript pipeline

The application listens to English speech in the browser and shows each
finished utterance, its Spanish translation and, when the utterance is a
question, a generated answer. This project models the three pieces of that
pipeline that hold logic, and proves what each of them promises.

- **The speech capture hook** (`SpeechRecognition`). It wraps a continuous
  recogniser. Each result event is split into final and interim text. The
  final text is appended, with a trailing space, to an append-only final
  transcript. The interim text replaces the interim transcript. When the
  engine stops on its own, the hook restarts it unless the user pressed stop
  (the `manualStop` flag). `Apply` is the effect of each handler as a
  function of the hook's state. The class `Capture` holds that state in
  fields, and each of its handler methods is proved to have exactly that
  effect. The `onresult` loop is the method `SplitResults`, proved equal to
  the two fold functions `FinalText` and `InterimText`.
- **The component's per-utterance step** (`App`). A watermark records how
  much of the final transcript has been consumed. Each call of
  `processTranscript` does the following:
  - it trims the suffix past the watermark;
  - it shows that text as a Transcription entry;
  - it asks the language service to classify and to translate the text;
  - it appends the translation to a newline-joined log;
  - it adds an Answer entry for a question;
  - it moves the watermark to the end of the transcript only when nothing
    threw.

  `Step` is one call as a function of the state. The class `Session`
  holds the state in fields, and its methods are proved to have exactly the
  effect of `Step` and `Reset` (`handleStart`). The `Reconciled` invariant
  says that the consumed transcript is cut into non-blank segments with
  nothing skipped and nothing repeated, and that the Transcription entries
  are those segments, trimmed. Starting a session establishes the invariant,
  and every step whose requests do not throw keeps it. The code clears
  `error` before the blank-suffix test (App.tsx:40), so a blank suffix also
  dismisses an earlier error message. The model follows the code here.
- **The language service client** (`GeminiService`). It models the prompt
  each request sends and how each outcome of the backend call becomes the
  returned value: the trimmed text on success, a fixed sentinel (or
  `false`) on any failure. The answer prompt carries the context block
  exactly when the context is present and not blank.

`JsRuntime` holds the JavaScript behaviour these rely on:
- `String.prototype.trim` over the ECMAScript whitespace set, characterised
  by `TrimOfPadded`;
- promises that resolve or reject;
- the truthiness of a parsed JSON value.

`Types` holds the message entries.

The environment is abstract:
- The backend call is a parameter `Backend` (prompt to reply or failure).
- `JSON.parse` is a parameter (text to value or failure).
- The three requests as the component awaits them are a `Services` value
  whose results may be `Rejected`. `LiveServices` builds that value from the
  client, and `App.LiveStepNeverFails` shows that the client's requests
  never reject.
- The two clock readings behind message ids are the parameters `now1` and
  `now2`.

## Model

| member | source | states |
|---|---|---|
| JsRuntime.Trim | App.tsx:42 | `trim` returns a text that neither starts nor ends with whitespace |
| JsRuntime.TrimSlice | App.tsx:42 | what `trim` keeps is one contiguous slice of the input, and everything dropped on either side is whitespace |
| JsRuntime.TrimOfPadded | App.tsx:42 | any whitespace around a text that has no whitespace at its ends trims back to exactly that text |
| JsRuntime.TrimEmptyIff | App.tsx:43 | a trimmed text is empty if and only if the original is all whitespace, which is the blank-suffix test |
| JsRuntime.TrimIdempotent | services/geminiService.ts:20 | trimming twice is trimming once |
| JsRuntime.TrimIgnoresTrailingSpace | App.tsx:42 | trailing whitespace never changes the result of `trim` |
| Types.ViewsOfAppend | types.ts:2-11 | appending one entry extends exactly one of the Transcription and Answer views, by that entry's text |
| GeminiService.TranslateText | services/geminiService.ts:9-25 | on failure the result is exactly `[Translation Error]`; on success it is the response text, trimmed; either way the result is already trimmed |
| GeminiService.DetectQuestion | services/geminiService.ts:27-54 | true if and only if the call succeeds, the response parses to an object and its `is_question` member is present and truthy; a failed call, unparseable text or a `null` document give false |
| GeminiService.GenerateAnswer | services/geminiService.ts:56-82 | on failure the result is exactly `[Could not generate an answer]`; on success it is the response text to the answer prompt, trimmed; the result is already trimmed |
| GeminiService.HasContextIff | services/geminiService.ts:62 | a context counts if and only if it is present and not all whitespace |
| GeminiService.HasContextTrimmed | services/geminiService.ts:62 | the empty-string test is subsumed by the trimmed test |
| GeminiService.AnswerPromptFrame | services/geminiService.ts:58-66 | every answer prompt starts with the fixed preamble and ends with the line `Question: "<question>"` |
| GeminiService.BlockIsNotQuestionLine | services/geminiService.ts:63-66 | the context block and the question line differ at their third character |
| GeminiService.ContextBlockFollowsPreamble | services/geminiService.ts:62-64 | with a non-blank context, the block holding the trimmed context follows the preamble directly |
| GeminiService.NoContextBlockWhenBlank | services/geminiService.ts:62-66 | without a non-blank context the prompt is the preamble followed directly by the question line, and no context block of any text appears after the preamble |
| GeminiService.AnswerPromptContextIff | services/geminiService.ts:62-64 | the prompt carries the block with the trimmed context, right after the preamble, if and only if the context is present and not blank |
| GeminiService.AnswerPromptSeesTrimmedContext | services/geminiService.ts:62-63 | only the trimmed context reaches the prompt: two contexts that trim alike give the same prompt, and an absent context gives the same prompt as a blank one |
| GeminiService.PromptsQuoteText | services/geminiService.ts:11-29 | the translate and classify prompts carry the text verbatim at a fixed offset |
| SpeechRecognition.Apply | hooks/useSpeechRecognition.ts:88-155 | every event keeps the recogniser flag and only extends the log of engine calls. Only `startListening` can shorten the final transcript, and only a result event or `startListening` can change it. An end event restarts the engine if and only if there is a recogniser and no manual stop. End and error events clear listening |
| SpeechRecognition.SplitResults | hooks/useSpeechRecognition.ts:89-98 | the loop from `resultIndex` yields exactly the in-order concatenations of the final and of the non-final transcripts of the visited slots |
| SpeechRecognition.FinalTextOfAppend | hooks/useSpeechRecognition.ts:89-98 | the final text of two consecutive runs of slots is the concatenation of their final texts |
| SpeechRecognition.InterimTextOfAppend | hooks/useSpeechRecognition.ts:89-98 | the interim text of two consecutive runs of slots is the concatenation of their interim texts |
| SpeechRecognition.SplitLosesNothing | hooks/useSpeechRecognition.ts:91-97 | every slot's transcript lands on exactly one side: the two lengths add up to the whole, and an all-final or all-interim batch puts everything on one side |
| SpeechRecognition.FinalTextEmptyIff | hooks/useSpeechRecognition.ts:99-101 | the final text is non-empty if and only if some final slot has a non-empty transcript |
| SpeechRecognition.ResultEventEffect | hooks/useSpeechRecognition.ts:88-103 | a result event appends the final text and a space exactly when some final slot is non-empty. It always replaces the interim transcript, even with an empty text. Nothing else changes |
| SpeechRecognition.CallbacksKeepFinalTranscript | hooks/useSpeechRecognition.ts:105-126 | `onstart` sets listening and clears the interim text. `onend` clears listening and the interim text. `onerror` only clears listening. None of them touches the final transcript |
| SpeechRecognition.StartListeningGuard | hooks/useSpeechRecognition.ts:136-148 | `startListening` acts if and only if a recogniser exists and is not listening. When it acts, it clears both transcripts and the stop flag and calls `start()` |
| SpeechRecognition.StopListeningGuard | hooks/useSpeechRecognition.ts:150-155 | `stopListening` acts if and only if a recogniser exists and is listening. When it acts, it sets the stop flag and calls `stop()`, and nothing else changes |
| SpeechRecognition.FinalTranscriptAppendOnly | hooks/useSpeechRecognition.ts:99-101 | over any run of events without `startListening`, the old final transcript stays a prefix of the new one |
| SpeechRecognition.ManualStopSuppressesRestart | hooks/useSpeechRecognition.ts:110-121 | after a manual stop, and until the user starts again, the engine is never restarted |
| SpeechRecognition.StopThenEndDoesNotRestart | hooks/useSpeechRecognition.ts:150-155 | a stop while listening followed by the engine's end records only the `stop()` call |
| SpeechRecognition.Capture.constructor | hooks/useSpeechRecognition.ts:70-74 | the hook mounts not listening, with empty transcripts and the stop flag clear |
| SpeechRecognition.Capture.OnResult | hooks/useSpeechRecognition.ts:88-103 | the handler's effect on the fields is exactly `Apply` of the result event |
| SpeechRecognition.Capture.OnStart | hooks/useSpeechRecognition.ts:105-108 | the handler's effect is exactly `Apply` of the start event |
| SpeechRecognition.Capture.OnEnd | hooks/useSpeechRecognition.ts:110-121 | the handler's effect is exactly `Apply` of the end event |
| SpeechRecognition.Capture.OnError | hooks/useSpeechRecognition.ts:123-126 | the handler's effect is exactly `Apply` of the error event |
| SpeechRecognition.Capture.StartListening | hooks/useSpeechRecognition.ts:136-148 | the method's effect is exactly `Apply` of `startListening` |
| SpeechRecognition.Capture.StopListening | hooks/useSpeechRecognition.ts:150-155 | the method's effect is exactly `Apply` of `stopListening` |
| App.AppendLine | App.tsx:61 | an empty log becomes exactly the new line; otherwise the old log is kept as a prefix, a newline follows it, and the new line ends the result |
| App.StepIgnoresOldText | App.tsx:37 | a transcript no longer than the watermark leaves the whole state unchanged |
| App.StepSkipsBlankSuffix | App.tsx:39-46 | an all-whitespace suffix adds no entry and keeps the log and the watermark. Only the busy flag and the error are cleared |
| App.StepAddsUtterance | App.tsx:42-71 | on a non-blank suffix, the earlier entries are kept and exactly one Transcription entry with the trimmed suffix follows them. After it comes one Answer entry if and only if the text was classified as a question and the answer to it under the current context came back |
| App.StepLogsTranslation | App.tsx:56-61 | the log is append-only. It gains the translation, after a newline unless it was empty, when the suffix is not blank and classification and translation both resolved; in every other case (old text, blank suffix, either request threw) it is unchanged |
| App.StepAdvancesOnSuccess | App.tsx:73-79 | the watermark only moves forward, to the end of the transcript, and it moves if and only if the suffix was not blank and nothing threw. A throw sets the error message and keeps the entries already added. The busy flag ends false |
| App.StepIdempotent | App.tsx:37-73 | once a step has consumed the whole transcript, calling it again with that transcript changes nothing, whatever the services and context |
| App.LiveStepNeverFails | App.tsx:48-79 | with the language service client's requests, a step on a non-blank suffix never sets the error. It advances the watermark, logs the translation or its sentinel, and adds the answer exactly when the classification was truthy |
| App.ResetReconciles | App.tsx:28-32 | after `handleStart` the empty history reconciles any transcript |
| App.StepKeepsReconciled | App.tsx:36-80 | a step that does not throw, on an extension of the reconciled transcript, either consumes nothing or turns the whole new suffix into exactly one more segment. Whatever is left past the watermark is whitespace |
| App.UtteranceOfResult | App.tsx:42 | after a result event appends `final + " "`, the next utterance is exactly `final`, trimmed |
| App.LogIsOneLinePerUtterance | App.tsx:61 | when the first translation is not empty, the log is the translations joined by newlines, one line each, in order |
| App.OneResultOneEntry | App.tsx:36-80 | once everything so far is consumed, a result event delivering one trimmed, non-blank piece, followed by a step that does not throw, consumes the new transcript, keeps the exactly-once invariant and adds exactly that piece as one Transcription entry |
| App.TwoResultsTwoEntries | App.tsx:36-80 | after mounting, two result events with one piece each give one Transcription entry per piece, in order: the second step does not repeat the first piece |
| App.HelloThenQuestion | App.tsx:42-73 | the transcripts "Hello there. " and then "Hello there. What is your name? " consume the whole transcript each time and show exactly the entries "Hello there." and "What is your name?" |
| App.WhitespaceGrowthAddsNothing | App.tsx:42-46 | a transcript that grows only by whitespace adds no entry and keeps the watermark |
| App.Session.constructor | App.tsx:12-17 | the component mounts with no entries, an empty log, nothing consumed, idle, no error and an empty context |
| App.Session.SetContext | App.tsx:113 | the context field is set and nothing else changes |
| App.Session.HandleStart | App.tsx:28-34 | entries, log, watermark and error are cleared, the busy flag and context are kept, and the capture hook receives `startListening` |
| App.Session.ProcessTranscript | App.tsx:36-80 | the fields end exactly as `Step` gives from the old state with the current context, and the context is unchanged |

## Left out

- Rendering is not modelled. That covers App.tsx:90-139 and every file under `components/`: it is display only.
- The model and request configuration (model name, temperature, thinking budget, token limit, response schema) is not modelled. The generative backend is an abstract function from prompt to `Ok(text)` or `Failed`. `Failed` also covers a missing `response.text`, whose `trim()` throws into the same `catch`.
- The `API_KEY` check when the service module loads (services/geminiService.ts:3-7) is not modelled: it reads the process environment.
- Browser capability detection and recogniser construction (hooks/useSpeechRecognition.ts:60-67, 76-86) are not modelled. Whether a recogniser exists is the boolean `hasRecognizer`.
- The cleanup on unmount (hooks/useSpeechRecognition.ts:128-133) and all console logging are not modelled.
- Concurrency is not modelled:
  - the `useEffect` trigger (App.tsx:82-87);
  - the concurrent `Promise.all` (App.tsx:56-59);
  - React's batching of state updates;
  - a `processTranscript` call finishing after a newer session began.

  Each call is one atomic step. The two requests are both awaited, so a rejection of either is a throw.
- Message ids come from `Date.now()` and are clock readings passed in as `now1` and `now2`. The source stores their decimal text; the model stores the number.
- `context?` being `undefined` is not distinguished from an empty string beyond `Option`. The component always passes a string.
- SpeechRecognition.Capture.OnEnd: a `start()` call that throws, or is refused by the engine, is still recorded as a call. The thrown error is only logged.
- SpeechRecognition.Capture.StartListening: a `start()` that throws is recorded in the same way. The flags are still cleared, as in the source.
- SpeechRecognition.SplitResults: a result slot is its first alternative. A slot with no alternatives, where `results[i][0]` would throw, is not modelled.
- GeminiService.DetectQuestion: `result.is_question || false` can return a non-boolean truthy value. The model returns its truthiness, which is all the component uses (`if (isQuestion)`).
- App.StepKeepsReconciled: it holds only for steps whose requests do not throw. A throwing step keeps the Transcription entry it added but not the watermark, so the next attempt on the same text shows the entry a second time.
- App.LogIsOneLinePerUtterance: it requires the first translation to be non-empty. An empty first translation leaves the log empty, so the next line is not preceded by a newline.
- Text length is counted in Unicode scalar values (Dafny `char`), while JavaScript's `length` and `substring` count UTF-16 code units. This changes no behaviour here: the watermark is always the length of a prefix of the same transcript, measured and cut in the same unit.
