/**
 * The speech capture hook: it wraps a continuous, interim-result speech
 * recognizer, keeps an append-only final transcript and a replace-only
 * interim transcript, and restarts the recognizer when it stops on its
 * own unless the user asked it to stop.
 *
 * `Apply` gives the effect of each handler on the hook's state as a
 * function, so that runs of several events can be reasoned about; the
 * class `Capture` holds that state in fields and its methods are proved
 * to have exactly that effect.
 */
module SpeechRecognition {
  import opened JsRuntime

  /** One slot of a result list: its `isFinal` flag and the transcript of its first alternative. */
  datatype SpeechResult = SpeechResult(isFinal: bool, transcript: string)

  /** A call the hook makes on the recognizer object. */
  datatype EngineCall = Start | Stop

  /**
   * The hook's state. `hasRecognizer` is whether a recognizer was
   * constructed (the browser offers the API); `manualStop` is the ref that
   * tells a user-requested stop from one the engine decided on;
   * `engineCalls` records the `start()`/`stop()` calls made on the recognizer.
   */
  datatype CaptureState = CaptureState(
    hasRecognizer: bool,
    isListening: bool,
    manualStop: bool,
    finalTranscript: string,
    interimTranscript: string,
    engineCalls: seq<EngineCall>)

  /** What can happen to the hook: a recognizer callback, or a call from the application. */
  datatype Event =
    | Result(results: seq<SpeechResult>, resultIndex: nat)
    | Started
    | Ended
    | Errored(error: string)
    | StartListening
    | StopListening

  /** The state right after mounting, before any event. */
  function Initial(supported: bool): CaptureState {
    CaptureState(supported, false, false, "", "", [])
  }

  /** The slots of a result event that the handler visits: from `resultIndex` to the end. */
  function Batch(results: seq<SpeechResult>, resultIndex: nat): seq<SpeechResult> {
    if resultIndex <= |results| then results[resultIndex..] else []
  }

  /** The in-order concatenation of the transcripts of the final slots. */
  function FinalText(rs: seq<SpeechResult>): string {
    if rs == [] then ""
    else
      var last := rs[|rs| - 1];
      FinalText(rs[..|rs| - 1]) + (if last.isFinal then last.transcript else "")
  }

  /** The in-order concatenation of the transcripts of the non-final slots. */
  function InterimText(rs: seq<SpeechResult>): string {
    if rs == [] then ""
    else
      var last := rs[|rs| - 1];
      InterimText(rs[..|rs| - 1]) + (if last.isFinal then "" else last.transcript)
  }

  /** The in-order concatenation of every slot's transcript. */
  function AllText(rs: seq<SpeechResult>): string {
    if rs == [] then "" else AllText(rs[..|rs| - 1]) + rs[|rs| - 1].transcript
  }

  /**
   * The effect of one event on the hook's state. The final transcript only
   * ever grows, except that starting a session clears it; the log of
   * engine calls only ever grows; an engine end restarts the recognizer
   * exactly when there is one and the user did not stop it.
   */
  function Apply(s: CaptureState, e: Event): (r: CaptureState)
    ensures r.hasRecognizer == s.hasRecognizer
    ensures !e.StartListening? ==> s.finalTranscript <= r.finalTranscript
    ensures !(e.Result? || e.StartListening?) ==> r.finalTranscript == s.finalTranscript
    ensures s.engineCalls <= r.engineCalls
    ensures e.Ended? ==> (r.engineCalls == s.engineCalls + [Start] <==> s.hasRecognizer && !s.manualStop)
    ensures e.Ended? || e.Errored? ==> !r.isListening
  {
    match e
    case Result(results, resultIndex) =>
      var final := FinalText(Batch(results, resultIndex));
      var interim := InterimText(Batch(results, resultIndex));
      s.(finalTranscript := if final != "" then s.finalTranscript + final + " " else s.finalTranscript,
         interimTranscript := interim)
    case Started =>
      s.(isListening := true, interimTranscript := "")
    case Ended =>
      s.(isListening := false, interimTranscript := "",
         engineCalls := if s.hasRecognizer && !s.manualStop then s.engineCalls + [Start] else s.engineCalls)
    case Errored(_) =>
      s.(isListening := false)
    case StartListening =>
      if s.hasRecognizer && !s.isListening then
        s.(finalTranscript := "", interimTranscript := "", manualStop := false,
           engineCalls := s.engineCalls + [Start])
      else s
    case StopListening =>
      if s.hasRecognizer && s.isListening then
        s.(manualStop := true, engineCalls := s.engineCalls + [Stop])
      else s
  }

  /** The state after a run of events, applied in order. */
  function Run(s: CaptureState, es: seq<Event>): CaptureState {
    if es == [] then s else Apply(Run(s, es[..|es| - 1]), es[|es| - 1])
  }

  /**
   * The `onresult` loop: visit the slots from `resultIndex` on, adding each
   * transcript to `final` or to `interim` according to its flag.
   */
  method SplitResults(results: seq<SpeechResult>, resultIndex: nat) returns (final: string, interim: string)
    ensures final == FinalText(Batch(results, resultIndex))
    ensures interim == InterimText(Batch(results, resultIndex))
  {
    final, interim := "", "";
    var i := resultIndex;
    while i < |results|
      invariant resultIndex <= i
      invariant resultIndex <= |results| ==> i <= |results|
      invariant i <= |results| ==> final == FinalText(results[resultIndex..i])
      invariant i <= |results| ==> interim == InterimText(results[resultIndex..i])
      invariant |results| < resultIndex ==> final == "" && interim == ""
    {
      var visited := results[resultIndex..i + 1];
      assert visited[..|visited| - 1] == results[resultIndex..i];
      var transcript := results[i].transcript;
      if results[i].isFinal {
        final := final + transcript;
      } else {
        interim := interim + transcript;
      }
      i := i + 1;
    }
    if resultIndex <= |results| {
      assert results[resultIndex..i] == Batch(results, resultIndex);
    }
  }

  /** Splitting a batch in two splits its final text the same way. */
  lemma {:induction false} FinalTextOfAppend(a: seq<SpeechResult>, b: seq<SpeechResult>)
    ensures FinalText(a + b) == FinalText(a) + FinalText(b)
  {
    if b == [] {
      assert a + b == a;
    } else {
      var b' := b[..|b| - 1];
      assert (a + b)[..|a + b| - 1] == a + b';
      assert (a + b)[|a + b| - 1] == b[|b| - 1];
      FinalTextOfAppend(a, b');
    }
  }

  /** Splitting a batch in two splits its interim text the same way. */
  lemma {:induction false} InterimTextOfAppend(a: seq<SpeechResult>, b: seq<SpeechResult>)
    ensures InterimText(a + b) == InterimText(a) + InterimText(b)
  {
    if b == [] {
      assert a + b == a;
    } else {
      var b' := b[..|b| - 1];
      assert (a + b)[..|a + b| - 1] == a + b';
      assert (a + b)[|a + b| - 1] == b[|b| - 1];
      InterimTextOfAppend(a, b');
    }
  }

  /** Every slot's transcript lands on exactly one side: no text is lost or doubled. */
  lemma {:induction false} SplitLosesNothing(rs: seq<SpeechResult>)
    ensures |FinalText(rs)| + |InterimText(rs)| == |AllText(rs)|
    ensures (forall i :: 0 <= i < |rs| ==> rs[i].isFinal) ==> FinalText(rs) == AllText(rs) && InterimText(rs) == ""
    ensures (forall i :: 0 <= i < |rs| ==> !rs[i].isFinal) ==> InterimText(rs) == AllText(rs) && FinalText(rs) == ""
  {
    if rs != [] {
      SplitLosesNothing(rs[..|rs| - 1]);
    }
  }

  /**
   * The final transcript grows on a result event exactly when some final
   * slot of the batch has a non-empty transcript.
   */
  lemma {:induction false} FinalTextEmptyIff(rs: seq<SpeechResult>)
    ensures FinalText(rs) != "" <==> exists i :: 0 <= i < |rs| && rs[i].isFinal && rs[i].transcript != ""
  {
    if rs != [] {
      var init := rs[..|rs| - 1];
      FinalTextEmptyIff(init);
      if exists i :: 0 <= i < |init| && init[i].isFinal && init[i].transcript != "" {
        var i :| 0 <= i < |init| && init[i].isFinal && init[i].transcript != "";
        assert rs[i] == init[i];
      }
      if exists i :: 0 <= i < |rs| && rs[i].isFinal && rs[i].transcript != "" {
        var i :| 0 <= i < |rs| && rs[i].isFinal && rs[i].transcript != "";
        if i < |init| {
          assert init[i] == rs[i];
        }
      }
    }
  }

  /**
   * Until the user starts a new session, the final transcript is append-only:
   * whatever it held is a prefix of what it holds after any run of events.
   */
  lemma {:induction false} FinalTranscriptAppendOnly(s: CaptureState, es: seq<Event>)
    requires forall i :: 0 <= i < |es| ==> !es[i].StartListening?
    ensures s.finalTranscript <= Run(s, es).finalTranscript
  {
    if es != [] {
      FinalTranscriptAppendOnly(s, es[..|es| - 1]);
    }
  }

  /**
   * After a manual stop, and until the user starts listening again, the
   * recognizer is never restarted: whatever ends it, no `start()` call is made.
   */
  lemma {:induction false} ManualStopSuppressesRestart(s: CaptureState, es: seq<Event>)
    requires s.manualStop
    requires forall i :: 0 <= i < |es| ==> !es[i].StartListening?
    ensures Run(s, es).manualStop
    ensures |s.engineCalls| <= |Run(s, es).engineCalls|
    ensures Start !in Run(s, es).engineCalls[|s.engineCalls|..]
  {
    if es != [] {
      var before := Run(s, es[..|es| - 1]);
      ManualStopSuppressesRestart(s, es[..|es| - 1]);
      var after := Run(s, es);
      assert after == Apply(before, es[|es| - 1]);
      var added := after.engineCalls[|before.engineCalls|..];
      assert Start !in added;
      assert after.engineCalls[|s.engineCalls|..] ==
        before.engineCalls[|s.engineCalls|..] + added;
    }
  }

  /** A user stop that acts sets the flag, so the engine's next end does not restart it. */
  lemma StopThenEndDoesNotRestart(s: CaptureState)
    requires s.hasRecognizer && s.isListening
    ensures
      var stopped := Apply(s, StopListening);
      Apply(stopped, Ended).engineCalls == s.engineCalls + [Stop]
  {
  }

  /**
   * A result event appends its final text and a space exactly when some
   * final slot of the batch has a non-empty transcript, and otherwise
   * leaves the final transcript alone; the interim transcript is replaced
   * by the batch's interim text even when that is empty. Nothing else changes.
   */
  lemma ResultEventEffect(s: CaptureState, results: seq<SpeechResult>, resultIndex: nat)
    ensures
      var r := Apply(s, Result(results, resultIndex));
      var batch := Batch(results, resultIndex);
      (r.finalTranscript != s.finalTranscript <==>
       exists i :: 0 <= i < |batch| && batch[i].isFinal && batch[i].transcript != "") &&
      (r.finalTranscript != s.finalTranscript ==> r.finalTranscript == s.finalTranscript + FinalText(batch) + " ") &&
      r.interimTranscript == InterimText(batch) &&
      r.(finalTranscript := s.finalTranscript, interimTranscript := s.interimTranscript) == s
  {
    var batch := Batch(results, resultIndex);
    FinalTextEmptyIff(batch);
    var r := Apply(s, Result(results, resultIndex));
    if FinalText(batch) != "" {
      assert |r.finalTranscript| > |s.finalTranscript|;
    }
  }

  /**
   * The recognizer's own callbacks: `onstart` sets listening and clears the
   * interim text, `onend` clears both and `onerror` only clears listening;
   * none of them touches the final transcript, and only `onend` may call
   * the recognizer.
   */
  lemma CallbacksKeepFinalTranscript(s: CaptureState, error: string)
    ensures
      var r := Apply(s, Started);
      r.isListening && r.interimTranscript == "" && r.finalTranscript == s.finalTranscript &&
      r.engineCalls == s.engineCalls && r.manualStop == s.manualStop
    ensures
      var r := Apply(s, Ended);
      !r.isListening && r.interimTranscript == "" && r.finalTranscript == s.finalTranscript &&
      r.manualStop == s.manualStop
    ensures Apply(s, Errored(error)) == s.(isListening := false)
  {
  }

  /**
   * `startListening` acts exactly when there is a recognizer that is not
   * listening: it then clears both transcripts and the stop flag and
   * calls `start()`; otherwise nothing changes.
   */
  lemma StartListeningGuard(s: CaptureState)
    ensures
      var r := Apply(s, StartListening);
      (r != s <==> s.hasRecognizer && !s.isListening) &&
      (r.engineCalls == s.engineCalls + [Start] <==> s.hasRecognizer && !s.isListening) &&
      (r != s ==> r.finalTranscript == "" && r.interimTranscript == "" && !r.manualStop && r.isListening == s.isListening)
  {
    var r := Apply(s, StartListening);
    if s.hasRecognizer && !s.isListening {
      assert |r.engineCalls| > |s.engineCalls|;
    }
  }

  /**
   * `stopListening` acts exactly when there is a recognizer that is
   * listening: it then sets the stop flag and calls `stop()`; otherwise
   * nothing changes. It leaves both transcripts and the listening flag alone.
   */
  lemma StopListeningGuard(s: CaptureState)
    ensures
      var r := Apply(s, StopListening);
      (r != s <==> s.hasRecognizer && s.isListening) &&
      (r.engineCalls == s.engineCalls + [Stop] <==> s.hasRecognizer && s.isListening) &&
      (r != s ==> r.manualStop) &&
      r.(manualStop := s.manualStop, engineCalls := s.engineCalls) == s
  {
    var r := Apply(s, StopListening);
    if s.hasRecognizer && s.isListening {
      assert |r.engineCalls| > |s.engineCalls|;
    }
  }

  /** The hook's state, held in fields as the component holds it. */
  class Capture {
    const hasRecognizer: bool
    var isListening: bool
    var manualStop: bool
    var finalTranscript: string
    var interimTranscript: string
    var engineCalls: seq<EngineCall>

    function State(): CaptureState
      reads this
    {
      CaptureState(hasRecognizer, isListening, manualStop, finalTranscript, interimTranscript, engineCalls)
    }

    /** Mounting: nothing heard, not listening; a recognizer exists iff the browser supports one. */
    constructor (supported: bool)
      ensures State() == Initial(supported)
    {
      hasRecognizer := supported;
      isListening := false;
      manualStop := false;
      finalTranscript := "";
      interimTranscript := "";
      engineCalls := [];
    }

    /** `onresult`: append the final pieces and a space, replace the interim text. */
    method OnResult(results: seq<SpeechResult>, resultIndex: nat)
      modifies this
      ensures State() == Apply(old(State()), Result(results, resultIndex))
    {
      var final, interim := SplitResults(results, resultIndex);
      if final != "" {
        finalTranscript := finalTranscript + final + " ";
      }
      interimTranscript := interim;
    }

    /** `onstart`: listening, with no interim text. */
    method OnStart()
      modifies this
      ensures State() == Apply(old(State()), Started)
    {
      isListening := true;
      interimTranscript := "";
    }

    /** `onend`: not listening, no interim text, and restart unless stopped by the user. */
    method OnEnd()
      modifies this
      ensures State() == Apply(old(State()), Ended)
    {
      isListening := false;
      interimTranscript := "";
      if hasRecognizer && !manualStop {
        engineCalls := engineCalls + [Start];
      }
    }

    /** `onerror`: the error is only logged; listening stops. */
    method OnError(error: string)
      modifies this
      ensures State() == Apply(old(State()), Errored(error))
    {
      isListening := false;
    }

    /** `startListening`: when idle, clear both transcripts, clear the stop flag and start. */
    method StartListening()
      modifies this
      ensures State() == Apply(old(State()), Event.StartListening)
    {
      if hasRecognizer && !isListening {
        finalTranscript := "";
        interimTranscript := "";
        manualStop := false;
        engineCalls := engineCalls + [Start];
      }
    }

    /** `stopListening`: when listening, mark the stop as the user's and stop. */
    method StopListening()
      modifies this
      ensures State() == Apply(old(State()), Event.StopListening)
    {
      if hasRecognizer && isListening {
        manualStop := true;
        engineCalls := engineCalls + [Stop];
      }
    }
  }
}
