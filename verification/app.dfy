/**
 * The application component: it resets the session when the user starts
 * listening, and each time the final transcript changes it reconciles the
 * newly finalised text into one utterance, shows it, translates it, asks
 * whether it is a question and, if so, shows a generated answer.
 *
 * `Step` is one call of `processTranscript` as a function of the state
 * before it, taken as one atomic step; `Session` holds the component's
 * state in fields and its methods are proved to have exactly the effect
 * of `Step` and `Reset`.
 */
module App {
  import opened JsRuntime
  import opened Types
  import GeminiService
  import SpeechRecognition

  /** The one error message the component shows. */
  const ErrorText: string := "An error occurred while communicating with the AI. Please try again."

  /**
   * The three language-service requests as the component awaits them; a
   * request that throws is `Rejected`.
   */
  datatype Services = Services(
    detectQuestion: string -> Outcome<bool>,
    translateText: string -> Outcome<string>,
    generateAnswer: (string, Option<string>) -> Outcome<string>)

  /**
   * The component's state. `watermark` is the length of the transcript
   * already consumed (the source keeps that transcript, and only ever
   * reads its length); `spanishText` is the newline-joined translation log.
   */
  datatype AppState = AppState(
    messages: seq<Message>,
    spanishText: string,
    watermark: nat,
    isProcessing: bool,
    error: Option<string>)

  /** The state the component mounts with. */
  const Mounted: AppState := AppState([], "", 0, false, None)

  /** The text of the utterance that starts at the watermark: the rest of the transcript, trimmed. */
  function Utterance(transcript: string, watermark: nat): string
    requires watermark <= |transcript|
  {
    Trim(transcript[watermark..])
  }

  /** `prev ? prev + "\n" + line : line`: add one line to the translation log. */
  function AppendLine(log: string, line: string): (r: string)
    ensures log <= r
    ensures |r| == |log| + |line| + (if log == "" then 0 else 1)
    ensures r[|r| - |line|..] == line
    ensures log == "" ==> r == line
    ensures log != "" ==> r[|log|] == '\n'
  {
    if log != "" then log + "\n" + line else line
  }

  /**
   * One call of `processTranscript(transcript)`: the guards, the
   * Transcription entry, the concurrent translate/classify pair, the
   * optional answer, and the watermark advance that happens only when all
   * of it succeeded. `now1` and `now2` are the clock readings behind the
   * two entries' ids.
   */
  function Step(s: AppState, transcript: string, context: string, svc: Services, now1: nat, now2: nat): AppState {
    if |transcript| <= s.watermark then s
    else
      var newText := Utterance(transcript, s.watermark);
      if newText == "" then s.(isProcessing := false, error := None)
      else
        var asked := s.messages + [Message(now1, Transcription, newText)];
        var isQuestion := svc.detectQuestion(newText);
        var translation := svc.translateText(newText);
        if isQuestion.Rejected? || translation.Rejected? then
          AppState(asked, s.spanishText, s.watermark, false, Some(ErrorText))
        else
          var log := AppendLine(s.spanishText, translation.value);
          if !isQuestion.value then AppState(asked, log, |transcript|, false, None)
          else
            match svc.generateAnswer(newText, Some(context))
            case Rejected => AppState(asked, log, s.watermark, false, Some(ErrorText))
            case Resolved(answer) =>
              AppState(asked + [Message(now2 + 1, Answer, answer)], log, |transcript|, false, None)
  }

  /** `handleStart`, as far as the component's own state goes. */
  function Reset(s: AppState): AppState {
    AppState([], "", 0, s.isProcessing, None)
  }

  /**
   * Whether one of the awaited requests throws: the classify/translate
   * pair, or the answer request when the text was classified as a question.
   */
  predicate Throws(svc: Services, text: string, context: string) {
    var isQuestion := svc.detectQuestion(text);
    isQuestion.Rejected? || svc.translateText(text).Rejected? ||
    (isQuestion.value && svc.generateAnswer(text, Some(context)).Rejected?)
  }

  /** The requests as the language service client performs them: they never throw. */
  function LiveServices(backend: GeminiService.Backend, parse: GeminiService.JsonParser): Services {
    Services(
      text => Resolved(GeminiService.DetectQuestion(text, backend, parse)),
      text => Resolved(GeminiService.TranslateText(text, backend)),
      (question, context) => Resolved(GeminiService.GenerateAnswer(question, context, backend)))
  }

  // ----- One step -----

  /** A transcript no longer than the watermark leaves every part of the state as it was. */
  lemma StepIgnoresOldText(s: AppState, transcript: string, context: string, svc: Services, now1: nat, now2: nat)
    requires |transcript| <= s.watermark
    ensures Step(s, transcript, context, svc, now1, now2) == s
  {
  }

  /**
   * When the new suffix is only whitespace, no entry is added, the log and
   * the watermark stay, and only the busy flag and the error are cleared.
   */
  lemma StepSkipsBlankSuffix(s: AppState, transcript: string, context: string, svc: Services, now1: nat, now2: nat)
    requires s.watermark < |transcript|
    requires AllSpace(transcript[s.watermark..])
    ensures Step(s, transcript, context, svc, now1, now2) == s.(isProcessing := false, error := None)
  {
    TrimEmptyIff(transcript[s.watermark..]);
  }

  /**
   * On a suffix with some non-whitespace, exactly one Transcription entry
   * holding the trimmed suffix is added after the earlier entries, which
   * are kept; at most one more entry follows it, an Answer, and it does
   * exactly when the text was classified as a question and an answer came
   * back, with the answer to that text under the current context.
   */
  lemma StepAddsUtterance(s: AppState, transcript: string, context: string, svc: Services, now1: nat, now2: nat)
    requires s.watermark < |transcript|
    requires !AllSpace(transcript[s.watermark..])
    ensures
      var r := Step(s, transcript, context, svc, now1, now2);
      var newText := Utterance(transcript, s.watermark);
      var answers := svc.generateAnswer(newText, Some(context));
      var isQuestion := svc.detectQuestion(newText);
      var answered := isQuestion.Resolved? && isQuestion.value &&
        svc.translateText(newText).Resolved? && answers.Resolved?;
      newText != "" &&
      |r.messages| == |s.messages| + (if answered then 2 else 1) &&
      r.messages[..|s.messages|] == s.messages &&
      r.messages[|s.messages|] == Message(now1, Transcription, newText) &&
      (answered ==> r.messages[|s.messages| + 1] == Message(now2 + 1, Answer, answers.value)) &&
      !r.isProcessing
  {
    TrimEmptyIff(transcript[s.watermark..]);
  }

  /**
   * The translation log is append-only; it gains the translation, on a
   * new line unless it was empty, exactly when the translate/classify pair
   * completed, and is otherwise unchanged.
   */
  lemma StepLogsTranslation(s: AppState, transcript: string, context: string, svc: Services, now1: nat, now2: nat)
    ensures
      var r := Step(s, transcript, context, svc, now1, now2);
      s.spanishText <= r.spanishText &&
      (s.watermark < |transcript| && Utterance(transcript, s.watermark) != "" &&
       svc.detectQuestion(Utterance(transcript, s.watermark)).Resolved? &&
       svc.translateText(Utterance(transcript, s.watermark)).Resolved?
       ==> r.spanishText == AppendLine(s.spanishText, svc.translateText(Utterance(transcript, s.watermark)).value)) &&
      (r.spanishText != s.spanishText ==>
       s.watermark < |transcript| && Utterance(transcript, s.watermark) != "" &&
       svc.detectQuestion(Utterance(transcript, s.watermark)).Resolved? &&
       svc.translateText(Utterance(transcript, s.watermark)).Resolved?)
  {
  }

  /**
   * The watermark only moves forward, and only to the end of the
   * transcript; it moves exactly when the step consumed a non-blank
   * suffix and nothing threw. A throw sets the error and keeps the entries
   * and translation already added.
   */
  lemma StepAdvancesOnSuccess(s: AppState, transcript: string, context: string, svc: Services, now1: nat, now2: nat)
    requires s.watermark < |transcript|
    ensures
      var r := Step(s, transcript, context, svc, now1, now2);
      var newText := Utterance(transcript, s.watermark);
      s.watermark <= r.watermark &&
      (r.watermark == s.watermark || r.watermark == |transcript|) &&
      (r.watermark == |transcript| <==> newText != "" && r.error.None?) &&
      (r.error.Some? <==> newText != "" && Throws(svc, newText, context)) &&
      (r.error.Some? ==> r.error == Some(ErrorText) && s.messages < r.messages) &&
      !r.isProcessing
  {
  }

  /** Once a step has consumed the whole transcript, calling again with it changes nothing. */
  lemma StepIdempotent(s: AppState, transcript: string, context: string, svc: Services, now1: nat, now2: nat,
                       context': string, svc': Services, now1': nat, now2': nat)
    requires Step(s, transcript, context, svc, now1, now2).watermark == |transcript|
    ensures
      var r := Step(s, transcript, context, svc, now1, now2);
      Step(r, transcript, context', svc', now1', now2') == r
  {
  }

  /**
   * With the language service client's requests, which catch every
   * failure themselves, a step never sets the error: the watermark always
   * reaches the end of a non-blank suffix, the log gains the translation
   * (the sentinel when translation failed), and an answer follows exactly
   * when the classification came back truthy.
   */
  lemma LiveStepNeverFails(s: AppState, transcript: string, context: string,
                           backend: GeminiService.Backend, parse: GeminiService.JsonParser, now1: nat, now2: nat)
    requires s.watermark < |transcript|
    requires !AllSpace(transcript[s.watermark..])
    ensures
      var r := Step(s, transcript, context, LiveServices(backend, parse), now1, now2);
      var newText := Utterance(transcript, s.watermark);
      var isQuestion := GeminiService.DetectQuestion(newText, backend, parse);
      r.error.None? && r.watermark == |transcript| &&
      r.spanishText == AppendLine(s.spanishText, GeminiService.TranslateText(newText, backend)) &&
      r.messages == s.messages + [Message(now1, Transcription, newText)] +
        (if isQuestion then [Message(now2 + 1, Answer, GeminiService.GenerateAnswer(newText, Some(context), backend))] else [])
  {
    TrimEmptyIff(transcript[s.watermark..]);
  }

  // ----- Runs of steps: each part of the transcript is handled exactly once -----

  /** The trimmed text of each consumed segment, in order. */
  function Trims(segments: seq<string>): seq<string> {
    if segments == [] then [] else Trims(segments[..|segments| - 1]) + [Trim(segments[|segments| - 1])]
  }

  /**
   * The consumed part of `transcript` is cut into `segments`, none of them
   * blank, whose concatenation is exactly that part (nothing skipped,
   * nothing repeated); the Transcription entries are those segments,
   * trimmed, in order.
   */
  ghost predicate Reconciled(s: AppState, transcript: string, segments: seq<string>) {
    s.watermark <= |transcript| &&
    Concat(segments) == transcript[..s.watermark] &&
    Transcriptions(s.messages) == Trims(segments) &&
    forall i :: 0 <= i < |segments| ==> !AllSpace(segments[i])
  }

  /** Starting a session reconciles the empty history with any transcript. */
  lemma ResetReconciles(s: AppState, transcript: string)
    ensures Reconciled(Reset(s), transcript, [])
  {
  }

  /**
   * A step whose requests do not throw, on a transcript that extends the one
   * reconciled so far, reconciles the longer transcript: either nothing is
   * consumed, or the whole new suffix becomes exactly one more segment. In
   * both cases what is left past the watermark is only whitespace.
   */
  lemma StepKeepsReconciled(s: AppState, transcript: string, transcript': string, segments: seq<string>,
                            context: string, svc: Services, now1: nat, now2: nat)
    requires Reconciled(s, transcript, segments)
    requires transcript <= transcript'
    requires |transcript'| > s.watermark ==> !Throws(svc, Utterance(transcript', s.watermark), context)
    ensures
      var r := Step(s, transcript', context, svc, now1, now2);
      var segments' := if r.watermark == s.watermark then segments else segments + [transcript'[s.watermark..]];
      Reconciled(r, transcript', segments') &&
      AllSpace(transcript'[r.watermark..])
  {
    var r := Step(s, transcript', context, svc, now1, now2);
    var w := s.watermark;
    assert transcript'[..w] == transcript[..w];
    if |transcript'| <= w {
      assert transcript'[w..] == [];
    } else {
      var segment := transcript'[w..];
      var newText := Utterance(transcript', w);
      TrimEmptyIff(segment);
      if newText != "" {
        var asked := s.messages + [Message(now1, Transcription, newText)];
        ViewsOfAppend(s.messages, Message(now1, Transcription, newText));
        if r.messages != asked {
          ViewsOfAppend(asked, r.messages[|r.messages| - 1]);
          assert r.messages == asked + [r.messages[|r.messages| - 1]];
        }
        var segments' := segments + [segment];
        assert segments'[..|segments'| - 1] == segments;
        assert Trims(segments') == Trims(segments) + [newText];
        assert Concat(segments') == transcript'[..w] + segment;
        assert transcript'[..w] + segment == transcript'[..|transcript'|];
        assert transcript'[r.watermark..] == [];
      }
    }
  }

  /**
   * Each recognizer result event appends its final text and a space; the
   * next step, starting from the old end, yields exactly that final text,
   * trimmed.
   */
  lemma UtteranceOfResult(prev: string, final: string)
    ensures Utterance(prev + final + " ", |prev|) == Trim(final)
  {
    assert (prev + final + " ")[|prev|..] == final + " ";
    TrimIgnoresTrailingSpace(final, " ");
  }

  /** A translation log built from translations of which the first is non-empty. */
  function Log(translations: seq<string>): string {
    if translations == [] then "" else AppendLine(Log(translations[..|translations| - 1]), translations[|translations| - 1])
  }

  /** The lines of `lines` joined by newlines. */
  function JoinLines(lines: seq<string>): string {
    if |lines| <= 1 then Concat(lines)
    else JoinLines(lines[..|lines| - 1]) + "\n" + lines[|lines| - 1]
  }

  /**
   * The log holds one line per processed utterance, in order, provided the
   * first translation is not empty (an empty first translation leaves the
   * log empty, and the next one is then not preceded by a newline).
   */
  lemma {:induction false} LogIsOneLinePerUtterance(translations: seq<string>)
    requires translations != [] ==> translations[0] != ""
    ensures Log(translations) == JoinLines(translations)
    ensures translations != [] ==> Log(translations) != ""
  {
    if translations != [] {
      var init := translations[..|translations| - 1];
      if init != [] {
        assert init[0] == translations[0];
      }
      LogIsOneLinePerUtterance(init);
      if init == [] {
        assert translations == [translations[0]];
        assert Concat(translations) == Concat(translations[..0]) + translations[0];
      }
    }
  }

  // ----- Worked examples -----

  /**
   * When everything so far has been consumed, a result event delivering one
   * final piece with no whitespace at its ends, followed by a step whose
   * requests do not throw, consumes the new transcript and adds exactly
   * that piece as one more Transcription entry.
   */
  lemma OneResultOneEntry(s: AppState, prev: string, segments: seq<string>, piece: string,
                          context: string, svc: Services, now1: nat, now2: nat)
    requires Reconciled(s, prev, segments) && s.watermark == |prev|
    requires piece != "" && Trimmed(piece) && !Throws(svc, piece, context)
    ensures
      var t := prev + piece + " ";
      var r := Step(s, t, context, svc, now1, now2);
      r.watermark == |t| && Reconciled(r, t, segments + [piece + " "]) &&
      Transcriptions(r.messages) == Transcriptions(s.messages) + [piece]
  {
    var t := prev + piece + " ";
    TrimOfPadded([], piece, []);
    assert [] + piece + [] == piece;
    UtteranceOfResult(prev, piece);
    assert t[|prev|..] == piece + " ";
    StepKeepsReconciled(s, prev, t, segments, context, svc, now1, now2);
    StepAdvancesOnSuccess(s, t, context, svc, now1, now2);
    var segments' := segments + [piece + " "];
    assert segments'[..|segments'| - 1] == segments;
  }

  /**
   * Two result events, each delivering one final piece with no whitespace
   * at its ends, followed by steps whose requests do not throw: the first
   * step shows only the first piece; the second adds only the second piece,
   * not the whole transcript again.
   */
  lemma TwoResultsTwoEntries(first: string, second: string, context: string, svc: Services,
                             now1: nat, now2: nat, now3: nat, now4: nat)
    requires first != "" && Trimmed(first) && second != "" && Trimmed(second)
    requires !Throws(svc, first, context) && !Throws(svc, second, context)
    ensures
      var t1 := first + " ";
      var t2 := t1 + second + " ";
      var s1 := Step(Mounted, t1, context, svc, now1, now2);
      var s2 := Step(s1, t2, context, svc, now3, now4);
      s1.watermark == |t1| && Transcriptions(s1.messages) == [first] &&
      s2.watermark == |t2| && Transcriptions(s2.messages) == [first, second]
  {
    ResetReconciles(Mounted, "");
    assert Reset(Mounted) == Mounted;
    assert "" + first + " " == first + " ";
    OneResultOneEntry(Mounted, "", [], first, context, svc, now1, now2);
    var s1 := Step(Mounted, first + " ", context, svc, now1, now2);
    OneResultOneEntry(s1, first + " ", [first + " "], second, context, svc, now3, now4);
  }

  /**
   * "Hello there." and then "What is your name?": the two steps show those
   * two utterances, one each.
   */
  lemma HelloThenQuestion(context: string, svc: Services, now1: nat, now2: nat, now3: nat, now4: nat)
    requires !Throws(svc, "Hello there.", context) && !Throws(svc, "What is your name?", context)
    ensures
      var t1 := "Hello there." + " ";
      var t2 := t1 + "What is your name?" + " ";
      var s1 := Step(Mounted, t1, context, svc, now1, now2);
      var s2 := Step(s1, t2, context, svc, now3, now4);
      s1.watermark == |t1| && Transcriptions(s1.messages) == ["Hello there."] &&
      s2.watermark == |t2| && Transcriptions(s2.messages) == ["Hello there.", "What is your name?"]
  {
    var first, second := "Hello there.", "What is your name?";
    assert first[0] == 'H' && first[|first| - 1] == '.';
    assert second[0] == 'W' && second[|second| - 1] == '?';
    TwoResultsTwoEntries(first, second, context, svc, now1, now2, now3, now4);
  }

  /** A transcript that grows only by whitespace, "Hi. " to "Hi.  ", adds no entry. */
  lemma WhitespaceGrowthAddsNothing(s: AppState, context: string, svc: Services, now1: nat, now2: nat)
    requires s.watermark == |"Hi. "|
    ensures Step(s, "Hi.  ", context, svc, now1, now2).messages == s.messages
    ensures Step(s, "Hi.  ", context, svc, now1, now2).watermark == s.watermark
  {
    assert "Hi.  "[4..] == " ";
    StepSkipsBlankSuffix(s, "Hi.  ", context, svc, now1, now2);
  }

  /** The session state, held in fields as the component holds it. */
  class Session {
    const capture: SpeechRecognition.Capture
    var messages: seq<Message>
    var spanishText: string
    var watermark: nat
    var isProcessing: bool
    var error: Option<string>
    var context: string

    function State(): AppState
      reads this
    {
      AppState(messages, spanishText, watermark, isProcessing, error)
    }

    /** Mounting: no entries, empty log, nothing consumed, idle, no error, no context. */
    constructor (capture: SpeechRecognition.Capture)
      ensures State() == Mounted && context == "" && this.capture == capture
    {
      this.capture := capture;
      messages := [];
      spanishText := "";
      watermark := 0;
      isProcessing := false;
      error := None;
      context := "";
    }

    /** The context field's change handler. */
    method SetContext(value: string)
      modifies this
      ensures context == value && State() == old(State())
    {
      context := value;
    }

    /**
     * `handleStart`: clear the entries, the log, the watermark and the
     * error, then ask the capture hook to start listening.
     */
    method HandleStart()
      modifies this, capture
      ensures State() == Reset(old(State())) && context == old(context)
      ensures capture.State() == SpeechRecognition.Apply(old(capture.State()), SpeechRecognition.Event.StartListening)
    {
      messages := [];
      spanishText := "";
      watermark := 0;
      error := None;
      capture.StartListening();
    }

    /**
     * `processTranscript`, run to completion as one step with the given
     * request outcomes and clock readings.
     */
    method ProcessTranscript(transcript: string, svc: Services, now1: nat, now2: nat)
      modifies this
      ensures State() == Step(old(State()), transcript, old(context), svc, now1, now2)
      ensures context == old(context)
    {
      if |transcript| <= watermark {
        return;
      }
      isProcessing := true;
      error := None;
      var newText := Trim(transcript[watermark..]);
      if newText == "" {
        isProcessing := false;
        return;
      }
      messages := messages + [Message(now1, Transcription, newText)];
      var isQuestion := svc.detectQuestion(newText);
      var translation := svc.translateText(newText);
      if isQuestion.Resolved? && translation.Resolved? {
        spanishText := AppendLine(spanishText, translation.value);
        var failed := false;
        if isQuestion.value {
          var answer := svc.generateAnswer(newText, Some(context));
          if answer.Resolved? {
            messages := messages + [Message(now2 + 1, Answer, answer.value)];
          } else {
            failed := true;
          }
        }
        if failed {
          error := Some(ErrorText);
        } else {
          watermark := |transcript|;
        }
      } else {
        error := Some(ErrorText);
      }
      isProcessing := false;
    }
  }
}
