/** The tutor call of the backend (`callRealGemini`): the learner's
    question and the story context are spliced into a fixed prompt, the
    prompt goes to the completion service, and whatever comes back, failure
    included, becomes exactly one reply string. The service is a parameter:
    a function from the prompt to the service's result. */
module Tutor {

  /** The body of a tutor request. */
  datatype ChatRequest = ChatRequest(context: string, userQuery: string)

  /** The content parts of one candidate answer, each taken as its text. */
  type Candidate = seq<string>

  /** What the completion service gives back: an error (transport, key,
      unknown model, ...) or a list of candidates. */
  datatype GenerateResult = GenerateError | Generated(candidates: seq<Candidate>)

  // The prompt template, cut at its two slots: the story context goes
  // between Preamble and Middle, the learner's question between Middle and
  // Instructions.
  const Preamble: string :=
    "\n"
    + "    Kamu adalah 'Sensei', asisten guru bahasa Indonesia yang ramah.\n"
    + "    Kamu tahu sangat sulit untuk belajar bahasa indonesia jika kamu adalah orang jepang, coba posisikan diri kamu\n"
    + "    sebagai orang jepang yang punya pengalaman mengajar bahasa indonesia.\n"
    + "    \n"
    + "    [KONTEKS CERITA SAAT INI]\n"
    + "    "

  const Middle: string :=
    "\n"
    + "\n"
    + "    [PERTANYAAN USER]\n"
    + "    "

  const Instructions: string :=
    "\n"
    + "\n"
    + "    [INSTRUKSI]\n"
    + "    Jawablah pertanyaan user dengan singkat, jelas, dan ramah.\n"
    + "    Jika user bertanya soal bahasa/grammar, jelaskan alasannya.\n"
    + "    Jangan menjawab terlalu panjang (maksimal 2-3 kalimat). Kamu ditargetkan untuk orang yang belajar Bahasa Indonesia menggunakan Bahasa Jepang, jadi gunakanlah Bahasa Jepang sebagai main.\n"
    + "    Tetapi kadang, jelaskan juga menggunakan bahasa indonesia dan bahasa inggris. Tergantung pertanyaan mereka dalam bahasa apa duluan.\n"
    + "    "

  /** Reply when the service call fails. */
  const ConnectionFallback: string := "Maaf, koneksi otak saya sedang terputus. Coba lagi nanti ya!"

  /** Reply when the service answers with no candidate or an empty one. */
  const NoAnswerFallback: string := "Hmm, saya tidak tahu harus jawab apa."

  /** The prompt: the fixed template with `contextInfo` and `userQuery`
      inserted unescaped, in that order. Each piece sits at a position that
      depends only on the lengths of the pieces before it. */
  function BuildPrompt(contextInfo: string, userQuery: string): (p: string)
    ensures |p| == |Preamble| + |contextInfo| + |Middle| + |userQuery| + |Instructions|
    ensures p[..|Preamble|] == Preamble
    ensures p[|Preamble|..|Preamble| + |contextInfo|] == contextInfo
    ensures p[|Preamble| + |contextInfo|..|Preamble| + |contextInfo| + |Middle|] == Middle
    ensures p[|Preamble| + |contextInfo| + |Middle|..|p| - |Instructions|] == userQuery
    ensures p[|p| - |Instructions|..] == Instructions
  {
    FivePieces(Preamble, contextInfo, Middle, userQuery, Instructions);
    Preamble + contextInfo + Middle + userQuery + Instructions
  }

  /** Where each of five concatenated pieces sits. */
  lemma FivePieces(a: string, b: string, c: string, d: string, e: string)
    ensures var p := a + b + c + d + e;
      && |p| == |a| + |b| + |c| + |d| + |e|
      && p[..|a|] == a
      && p[|a|..|a| + |b|] == b
      && p[|a| + |b|..|a| + |b| + |c|] == c
      && p[|a| + |b| + |c|..|p| - |e|] == d
      && p[|p| - |e|..] == e
  {
  }

  /** The template adds nothing that could blur the slots: given the length
      of the context, the prompt gives back both arguments. */
  lemma PromptDeterminesArguments(c1: string, q1: string, c2: string, q2: string)
    requires |c1| == |c2|
    requires BuildPrompt(c1, q1) == BuildPrompt(c2, q2)
    ensures c1 == c2 && q1 == q2
  {
    var p := BuildPrompt(c1, q1);
    assert c1 == p[|Preamble|..|Preamble| + |c1|] == c2;
    assert q1 == p[|Preamble| + |c1| + |Middle|..|p| - |Instructions|] == q2;
  }

  /** The service answered with at least one candidate that has a part. */
  predicate HasAnswer(resp: GenerateResult) {
    resp.Generated? && |resp.candidates| > 0 && |resp.candidates[0]| > 0
  }

  /** The reply taken from the service's result: the connection fallback on
      error, the first part of the first candidate when there is one, the
      no-answer fallback otherwise. */
  function ExtractReply(resp: GenerateResult): (reply: string)
    ensures resp.GenerateError? ==> reply == ConnectionFallback
    ensures HasAnswer(resp) ==> reply == resp.candidates[0][0]
    ensures resp.Generated? && !HasAnswer(resp) ==> reply == NoAnswerFallback
  {
    match resp
    case GenerateError => ConnectionFallback
    case Generated(candidates) =>
      if |candidates| > 0 && |candidates[0]| > 0 then candidates[0][0] else NoAnswerFallback
  }

  /** The two failure replies can be told apart, and neither is empty. */
  lemma FallbacksDistinct()
    ensures ConnectionFallback != NoAnswerFallback
    ensures ConnectionFallback != [] && NoAnswerFallback != []
  {
  }

  /** Only the first part of the first candidate reaches the learner: two
      answers that agree on it give the same reply, whatever else they hold. */
  lemma ReplyUsesFirstPartOnly(r1: GenerateResult, r2: GenerateResult)
    requires HasAnswer(r1) && HasAnswer(r2)
    requires r1.candidates[0][0] == r2.candidates[0][0]
    ensures ExtractReply(r1) == ExtractReply(r2)
  {
  }

  /** Failure never reaches the caller as an error or an empty reply: every
      result gives one of the two fallbacks or a part the service sent. */
  lemma ReplyIsFallbackOrPart(resp: GenerateResult)
    ensures var reply := ExtractReply(resp);
      reply == ConnectionFallback || reply == NoAnswerFallback
      || (resp.Generated? && exists i, j :: 0 <= i < |resp.candidates| && 0 <= j < |resp.candidates[i]|
                                           && reply == resp.candidates[i][j])
  {
    if HasAnswer(resp) {
      assert ExtractReply(resp) == resp.candidates[0][0];
    }
  }

  /** One tutor turn: build the prompt, hand it to the service once, and
      turn the service's result into the reply. Nothing is kept between
      turns. */
  function Ask(contextInfo: string, userQuery: string, generate: string -> GenerateResult): (reply: string)
    ensures var resp := generate(BuildPrompt(contextInfo, userQuery));
      && (resp.GenerateError? ==> reply == ConnectionFallback)
      && (HasAnswer(resp) ==> reply == resp.candidates[0][0])
      && (resp.Generated? && !HasAnswer(resp) ==> reply == NoAnswerFallback)
  {
    ExtractReply(generate(BuildPrompt(contextInfo, userQuery)))
  }

  /** A service that is down yields the connection fallback for every
      question, never the no-answer fallback. */
  lemma AskWhenServiceDown(contextInfo: string, userQuery: string)
    ensures Ask(contextInfo, userQuery, _ => GenerateError) == ConnectionFallback
    ensures Ask(contextInfo, userQuery, _ => GenerateError) != NoAnswerFallback
  {
  }

  /** A service that answers with an empty candidate list yields the
      no-answer fallback. */
  lemma AskWhenNoCandidates(contextInfo: string, userQuery: string)
    ensures Ask(contextInfo, userQuery, _ => Generated([])) == NoAnswerFallback
    ensures Ask(contextInfo, userQuery, _ => Generated([[]])) == NoAnswerFallback
  {
  }
}
