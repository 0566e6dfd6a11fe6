/**
 * The language service client: three requests to the generative backend
 * (translate, classify as a question, answer with optional context). The
 * backend call itself is a parameter; what is modelled is the prompt each
 * request sends and how each outcome of the call is turned into the value
 * returned to the application. No request ever throws to its caller.
 */
module GeminiService {
  import opened JsRuntime

  /** What one `generateContent` call yields: the response text, or a failure. */
  datatype Reply = Ok(text: string) | Failed

  /** The backend: the reply it gives to a prompt. */
  type Backend = string -> Reply

  /** `JSON.parse`: a value, or `None` when the text is not JSON. */
  type JsonParser = string -> Option<Json>

  const TranslationError: string := "[Translation Error]"
  const AnswerError: string := "[Could not generate an answer]"

  const TranslateHead: string :=
    "Translate the following English text to Spanish. Provide only the translation, without any additional explanations, context, or quotation marks.\n\nEnglish: \""
  const TranslateTail: string := "\"\n\nSpanish:"

  const ClassifyHead: string :=
    "Analyze the following English text and determine if it is a question. Respond in JSON format.\n\nText: \""

  /** The fixed opening of every answer prompt (three lines). */
  const Preamble: string :=
    "You are a Marco Segura a person who is applying for a job. Provide a short, concise, and clear answer to the question.\nIMPORTANT: The answer MUST BE in English, even if the context or question is in another language. If the answer is found in the context in another language, translate it to English.\nDo not start with phrases like \"The answer is\" or \"Here is the answer\"."

  /**
   * The opening of the context block; its third character tells it from the
   * question line. The literal is written in two parts so that the verifier
   * can read its first characters, which it does not do inside one long literal.
   */
  const ContextHead: string :=
    "\n\nU" + "se the following context to answer the question. If the answer is not available in the context, use your general knowledge to answer. Do not state that the information wasn't in the provided context.\n---CONTEXT---\n"
  const ContextTail: string := "\n---END CONTEXT---"

  function TranslatePrompt(text: string): string {
    TranslateHead + text + TranslateTail
  }

  function ClassifyPrompt(text: string): string {
    ClassifyHead + text + "\""
  }

  /** The block that carries the user's (already trimmed) context. */
  function ContextBlock(trimmed: string): string {
    ContextHead + trimmed + ContextTail
  }

  /** The closing line of every answer prompt. */
  function QuestionLine(question: string): string {
    "\n\nQuestion: \"" + question + "\""
  }

  /** `context && context.trim() !== ''`: a context is sent only when present and not blank. */
  predicate HasContext(context: Option<string>) {
    context.Some? && context.value != "" && Trim(context.value) != ""
  }

  /** The context a prompt is built from; only consulted when `HasContext`. */
  function ContextText(context: Option<string>): string {
    if context.Some? then context.value else ""
  }

  /**
   * `translateText`: the trimmed response on success, the sentinel on any
   * failure. Either way the result has no surrounding whitespace.
   */
  function TranslateText(text: string, backend: Backend): (r: string)
    ensures backend(TranslatePrompt(text)).Failed? ==> r == TranslationError
    ensures backend(TranslatePrompt(text)).Ok? ==> r == Trim(backend(TranslatePrompt(text)).text)
    ensures Trim(r) == r
  {
    match backend(TranslatePrompt(text))
    case Ok(t) =>
      TrimIdempotent(t);
      Trim(t)
    case Failed =>
      assert TranslationError == [] + TranslationError + [];
      TrimOfPadded([], TranslationError, []);
      TranslationError
  }

  /**
   * `detectQuestion`: true only when the call succeeds, the response parses
   * to an object and that object's `is_question` member is truthy. A failed
   * call, unparseable text, a `null` document (reading a member of it throws)
   * or a missing member all give false.
   */
  function DetectQuestion(text: string, backend: Backend, parse: JsonParser): (r: bool)
    ensures backend(ClassifyPrompt(text)).Failed? ==> !r
    ensures backend(ClassifyPrompt(text)).Ok? && parse(backend(ClassifyPrompt(text)).text).None? ==> !r
    ensures r ==>
      var reply := backend(ClassifyPrompt(text));
      reply.Ok? && parse(reply.text).Some? && parse(reply.text).value.JObject? &&
      "is_question" in parse(reply.text).value.members &&
      Truthy(parse(reply.text).value.members["is_question"])
    ensures
      var reply := backend(ClassifyPrompt(text));
      reply.Ok? && parse(reply.text).Some? && parse(reply.text).value.JObject? &&
      "is_question" in parse(reply.text).value.members &&
      Truthy(parse(reply.text).value.members["is_question"])
      ==> r
  {
    match backend(ClassifyPrompt(text))
    case Failed => false
    case Ok(body) =>
      match parse(body)
      case None => false
      case Some(root) =>
        match root
        case JNull => false
        case JObject(members) => "is_question" in members && Truthy(members["is_question"])
        case _ => false
  }

  /**
   * The answer prompt, built as the source builds it: the preamble, then the
   * context block when there is a non-blank context, then the question line.
   */
  function AnswerPrompt(question: string, context: Option<string>): string {
    var prompt := Preamble;
    var prompt := if HasContext(context) then prompt + ContextBlock(Trim(ContextText(context))) else prompt;
    prompt + QuestionLine(question)
  }

  /**
   * `generateAnswer`: the trimmed response to the answer prompt on success,
   * the sentinel on any failure; the result has no surrounding whitespace.
   */
  function GenerateAnswer(question: string, context: Option<string>, backend: Backend): (r: string)
    ensures backend(AnswerPrompt(question, context)).Failed? ==> r == AnswerError
    ensures backend(AnswerPrompt(question, context)).Ok? ==>
      r == Trim(backend(AnswerPrompt(question, context)).text)
    ensures Trim(r) == r
  {
    match backend(AnswerPrompt(question, context))
    case Ok(t) =>
      TrimIdempotent(t);
      Trim(t)
    case Failed =>
      assert AnswerError == [] + AnswerError + [];
      TrimOfPadded([], AnswerError, []);
      AnswerError
  }

  lemma Slices3(a: string, b: string, c: string)
    ensures (a + b + c)[..|a|] == a
    ensures (a + b + c)[|a|..|a| + |b|] == b
    ensures (a + b + c)[|a| + |b|..] == c
  {
  }

  /** A blank-but-present context and a missing one are the same to `HasContext`. */
  lemma HasContextTrimmed(context: Option<string>)
    ensures HasContext(context) <==> context.Some? && Trim(context.value) != ""
  {
    if context.Some? && context.value == "" {
      assert "" == [] + [] + [];
      TrimOfPadded([], [], []);
    }
  }

  /** Every answer prompt opens with the preamble and closes with the quoted question. */
  lemma AnswerPromptFrame(question: string, context: Option<string>)
    ensures
      var p := AnswerPrompt(question, context);
      |Preamble| + |QuestionLine(question)| <= |p| &&
      p[..|Preamble|] == Preamble &&
      p[|p| - |QuestionLine(question)|..] == QuestionLine(question)
  {
    var middle := if HasContext(context) then ContextBlock(Trim(ContextText(context))) else "";
    assert AnswerPrompt(question, context) == Preamble + middle + QuestionLine(question);
    Slices3(Preamble, middle, QuestionLine(question));
  }

  /** A context counts exactly when it is present and not all whitespace. */
  lemma HasContextIff(context: Option<string>)
    ensures HasContext(context) <==> context.Some? && !AllSpace(context.value)
  {
    if context.Some? {
      TrimEmptyIff(context.value);
    }
  }

  /** A context block and a question line already differ at their third character. */
  lemma BlockIsNotQuestionLine(trimmed: string, question: string)
    ensures |ContextBlock(trimmed)| > 2 && |QuestionLine(question)| > 2
    ensures ContextBlock(trimmed)[2] != QuestionLine(question)[2]
  {
    assert ContextHead == "\n\nU" + ContextHead[3..];
    assert ContextBlock(trimmed)[2] == ContextHead[2] == 'U';
    assert QuestionLine(question)[2] == 'Q';
  }

  /** The context block, when sent, sits right after the preamble. */
  lemma ContextBlockFollowsPreamble(question: string, context: Option<string>)
    requires HasContext(context)
    ensures
      var p := AnswerPrompt(question, context);
      var block := ContextBlock(Trim(ContextText(context)));
      |Preamble| + |block| <= |p| && p[|Preamble|..|Preamble| + |block|] == block
  {
    var block := ContextBlock(Trim(ContextText(context)));
    assert AnswerPrompt(question, context) == Preamble + block + QuestionLine(question);
    Slices3(Preamble, block, QuestionLine(question));
  }

  /** Two texts that differ at some position stay different behind a common prefix. */
  lemma MismatchAfterPrefix(p: string, pre: string, x: string, y: string, k: nat)
    requires p == pre + y
    requires k < |x| && k < |y| && x[k] != y[k]
    ensures !(|pre| + |x| <= |p| && p[|pre|..|pre| + |x|] == x)
  {
    if |pre| + |x| <= |p| {
      assert p[|pre|..|pre| + |x|][k] == y[k];
    }
  }

  /**
   * Without a non-blank context the question line follows the preamble
   * directly, so no context block of any text appears there.
   */
  lemma NoContextBlockWhenBlank(question: string, context: Option<string>, trimmed: string)
    requires !HasContext(context)
    ensures AnswerPrompt(question, context) == Preamble + QuestionLine(question)
    ensures
      var p := AnswerPrompt(question, context);
      var block := ContextBlock(trimmed);
      !(|Preamble| + |block| <= |p| && p[|Preamble|..|Preamble| + |block|] == block)
  {
    var p := AnswerPrompt(question, context);
    var q := QuestionLine(question);
    assert p == Preamble + q;
    BlockIsNotQuestionLine(trimmed, question);
    MismatchAfterPrefix(p, Preamble, ContextBlock(trimmed), q, 2);
  }

  /**
   * Right after the preamble, the answer prompt carries the context block
   * holding the trimmed context if and only if there is a non-blank context.
   */
  lemma AnswerPromptContextIff(question: string, context: Option<string>)
    ensures
      var p := AnswerPrompt(question, context);
      var block := ContextBlock(Trim(ContextText(context)));
      (|Preamble| + |block| <= |p| && p[|Preamble|..|Preamble| + |block|] == block)
      <==> HasContext(context)
  {
    if HasContext(context) {
      ContextBlockFollowsPreamble(question, context);
    } else {
      NoContextBlockWhenBlank(question, context, Trim(ContextText(context)));
    }
  }

  /** Only the trimmed context reaches the prompt: contexts that trim alike give one prompt. */
  lemma AnswerPromptSeesTrimmedContext(question: string, c1: Option<string>, c2: Option<string>)
    requires Trim(ContextText(c1)) == Trim(ContextText(c2))
    ensures AnswerPrompt(question, c1) == AnswerPrompt(question, c2)
  {
    HasContextTrimmed(c1);
    HasContextTrimmed(c2);
    assert "" == [] + [] + [];
    TrimOfPadded([], [], []);
  }

  /** The translate and classify prompts quote the utterance verbatim, at a fixed offset. */
  lemma PromptsQuoteText(text: string)
    ensures TranslatePrompt(text)[|TranslateHead|..|TranslateHead| + |text|] == text
    ensures ClassifyPrompt(text)[|ClassifyHead|..|ClassifyHead| + |text|] == text
  {
    Slices3(TranslateHead, text, TranslateTail);
    Slices3(ClassifyHead, text, "\"");
  }
}
