# Kotobaweb lesson core in Dafny

Kotobaweb is a small visual-novel style Indonesian course for Japanese
speakers. A Go backend serves one authored lesson ("Meeting Sari in
Jakarta"). It checks free-text answers with a hard-coded, order-sensitive
set of substring rules. It also forwards learner questions, with the
current scene as context, to a text-completion service (the "Sensei"
tutor). A browser script walks the learner through the scenes. Choice
scenes draw one button per option. Text scenes send the trimmed answer
to the backend. The next button either moves on ("Continue") or redraws
the scene ("Try Again").

The model has five modules:

- `Text` models the string operations the code relies on:
  - Go's `strings.ToLower`, `strings.Contains` and `strings.ContainsAny`;
  - JavaScript's `String.prototype.trim`.
- `Lessons` holds the `Option`, `Scene` and `Lesson` records, the lesson
  literal, the lesson route and choice resolution.
- `Evaluator` models `evaluateTextAnswer` in two forms:
  - the if-chain as the backend writes it;
  - a table of ordered rules per scene with a first-match interpreter.

  It proves the two forms equal on every input.
- `Tutor` models the tutor prompt and the reply extraction of
  `callRealGemini`. The completion service is a function parameter.
- `Client` models the browser's global state as a `Player` class. Its
  methods mirror the page handlers. The DOM is reduced to what the
  handlers decide: the character's line, the portrait, the input area and
  the next button's action.

Choices the model makes about the code:

- Text-answer rules: the code checks them with an if-chain. The model
  also gives the check as a table of ordered rules per scene, and
  `Evaluator.RulesAgreeWithChain` proves the two agree.
- Lesson lookup: the code serves only `/api/lesson/1`, and `startLesson`
  ignores the id it is given. `Lessons.GetLesson` models that one route,
  and `Client.Player.StartLesson` always fetches lesson "1" through it.
- Choice resolution: the code binds each button to its option, so no
  index appears there. The model also resolves a choice by index, and
  `Client.ButtonHandsOnResolvedChoice` proves the two agree.
- The tutor call: the code uses `context.Background()` with no timeout,
  so no timeout is modelled.

`Client` also holds three walk-throughs of the lesson's first two scenes,
each a method that changes state but has no contract of its own:
`PlayFirstScene`, `SubmitPaddedOnSecondScene` and `AnswerSecondScene`.
Their asserts show one path through the handlers; each asserted fact
follows from the contracts above.

## Model

| member | source | states |
|---|---|---|
| Text.ToLower | main.go:236 | The lowercase form has the input's length. Each ASCII capital becomes its small letter, and every other character is kept. |
| Text.ToLowerIdempotent | main.go:236 | Lowercasing an already lowercased answer changes nothing. |
| Text.ToLowerKeepsDigits | main.go:236 | Lowercasing neither creates nor removes a digit at any position. |
| Text.Contains | main.go:240-250 | `strings.Contains`: the needle occurs as a contiguous run. A needle longer than the string never occurs; the empty needle and the string itself always do. |
| Text.ContainsAny | main.go:259 | `strings.ContainsAny`: some character of the string is in the set, which holds exactly when some character of the set occurs in the string. |
| Text.ContainsSingle | main.go:259 | Searching for a one-character needle is membership of that character. |
| Text.ContainsHasFirstChar | main.go:240-250 | A string that contains a non-empty needle contains the needle's first character. |
| Text.TrimStart | web/app.js:224 | Leading trim: the result is a suffix of the input that does not start with white space. Every removed character was white space. |
| Text.TrimEnd | web/app.js:224 | Trailing trim: the result is a prefix of the input that does not end with white space. Every removed character was white space. |
| Text.Trim | web/app.js:224 | `trim()` never lengthens the text, and a non-empty trimmed answer neither starts nor ends with white space. |
| Text.TrimIsCore | web/app.js:224 | The trimmed answer is the contiguous part of the typed text that starts where the leading white space ends. Only white space lies outside it, and none is left at either of its ends. |
| Text.TrimEmptyIffBlank | web/app.js:224-226 | The trimmed answer is empty exactly when the typed text is all white space. That is the case in which nothing is sent. |
| Text.TrimStartSkips | web/app.js:224 | White space in front of text that does not start with white space is exactly what the leading trim removes. |
| Text.TrimEndSkips | web/app.js:224 | White space behind text that does not end with white space is exactly what the trailing trim removes. |
| Text.TrimPadded | web/app.js:224 | Padding an answer with white space on either side does not change what is sent, as long as the answer itself neither starts nor ends with white space. |
| Text.TrimIdempotent | web/app.js:224 | Trimming a trimmed answer changes nothing. |
| Lessons.Lesson1Shape | main.go:122-171 | The lesson has five scenes, each of type choice or text. Scenes 1 and 3 are text scenes and have no options. Scenes 0, 2 and 4 have 2, 3 and 2 options. A scene has a correct option exactly when it is a choice scene. |
| Lessons.GetLesson | main.go:295-298 | Only id "1" finds a lesson, and what is found is lesson 1 whole. Every other id is not found. |
| Lessons.ResolveChoice | web/app.js:198-202 | A choice is resolved exactly when the index names an option. The result is that option unchanged, flag and reaction included. Otherwise the index is out of range. |
| Lessons.FirstChoiceExample | main.go:131-134 | In scene 0, button 0 yields the authored "Nama saya Wira." option verbatim. Indices 2 and -1 are out of range. |
| Evaluator.EvaluateTextAnswer | main.go:235-265 | The if-chain as written. Scene 1 yields one of its five verdicts and scene 3 one of its two. A correct verdict comes only from scene 1 or 3 and always carries a reaction image. |
| Evaluator.FirstMatch | main.go:239-263 | The verdict of an ordered rule list is either the catch-all or one of the rules' verdicts. |
| Evaluator.EvaluateByRules | main.go:235-265 | The table-driven check gives the error verdict to every scene position without rules. |
| Evaluator.FirstMatchIsFirst | main.go:239-252 | First match wins. When rule k matches and no earlier rule does, rule k's verdict is the result, whatever later rules would say. |
| Evaluator.FirstMatchCatchAll | main.go:253-254 | When no rule matches, the catch-all verdict is the result. |
| Evaluator.DigitsAreAsciiDigits | main.go:259 | The character set searched in scene 3 is exactly the ASCII digits. |
| Evaluator.AgeRuleIsContainsAny | main.go:259 | The single-digit needles of the age rule match exactly when `strings.ContainsAny` finds a digit. |
| Evaluator.RulesAgreeWithChain | main.go:235-265 | For every scene position and every answer, the rule table and the backend's if-chain give the same verdict. |
| Evaluator.EvaluateIgnoresCase | main.go:236 | An answer and its lowercase form get the same verdict in every scene. |
| Evaluator.EvaluateSameUpToCase | main.go:236 | Two answers that lowercase alike get the same verdict. |
| Evaluator.JepangExample | main.go:236-241 | "Jepang" and "jepang" both get the Japan verdict. |
| Evaluator.OriginVerdicts | main.go:239-254 | Each scene-1 verdict is given exactly when its substrings occur and no earlier rule's substrings do. The verdict is correct exactly when the answer names Japan or Indonesia. |
| Evaluator.OriginCatchAll | main.go:253-254 | An answer with none of the five substrings is wrong and gets the "name a country or city" verdict. |
| Evaluator.EmptyOriginAnswer | main.go:254 | The empty answer to scene 1 gets the catch-all verdict. |
| Evaluator.SayaDariJepangExample | main.go:240-241 | "Saya dari Jepang" is right and gets the Japan verdict. |
| Evaluator.RendangExample | main.go:247-249 | "Rendang" gets the food verdict and is wrong. |
| Evaluator.AgeNeedsDigit | main.go:257-263 | A scene-3 answer is right exactly when it contains an ASCII digit. The verdict is always the number verdict or the not-a-number verdict. |
| Evaluator.AgeExampleDigits | main.go:259-260 | "25" is accepted as an age. |
| Evaluator.AgeExampleWords | main.go:259-262 | "dua puluh", spelt out, is refused. |
| Evaluator.UnknownSceneVerdict | main.go:264 | Any position other than 1 and 3 gets the error verdict ("...", "Error logic", not correct, no image). Positions 1 and 3 never get it. |
| Evaluator.TextScenesHaveRules | main.go:136-159 | The lesson's text scenes are exactly the positions with rules. So a text scene never gets the error verdict, and every choice scene would. |
| Tutor.BuildPrompt | main.go:197-213 | The prompt is the fixed template with the context and then the question inserted verbatim. Each piece sits at a position that depends only on the lengths before it. |
| Tutor.PromptDeterminesArguments | main.go:197-213 | Given the context's length, the prompt determines both the context and the question. |
| Tutor.ExtractReply | main.go:215-228 | A service error gives the connection fallback. An answer with a part gives the first part of the first candidate. Any other answer gives the no-answer fallback. |
| Tutor.FallbacksDistinct | main.go:220-228 | The two fallback replies differ and neither is empty. |
| Tutor.ReplyUsesFirstPartOnly | main.go:224-226 | Two answers that agree on their first part give the same reply, whatever else they hold. |
| Tutor.ReplyIsFallbackOrPart | main.go:215-228 | Every service result, as modelled, becomes a reply that is a fallback or a part the service sent. A candidate without content is not modelled (see Left out). |
| Tutor.Ask | main.go:191-229 | One tutor turn hands the built prompt to the service once and maps its result to the reply, case by case. |
| Tutor.AskWhenServiceDown | main.go:216-221 | A service that always fails yields the connection fallback for every question. |
| Tutor.AskWhenNoCandidates | main.go:224-228 | An empty candidate list, or a first candidate without parts, yields the no-answer fallback. |
| Client.ButtonsOf | web/app.js:198-204 | A choice scene has one button per option, in authored order. Each button is labelled with its option's text and carries that option. |
| Client.BuildButtons | web/app.js:198-204 | The button loop appends one button per option and ends with exactly those buttons. |
| Client.ButtonHandsOnResolvedChoice | web/app.js:202 | Clicking button k hands on the option that choice resolution gives for k. |
| Client.LessonScenesShowImages | web/app.js:167-171 | Every scene of the lesson names a PNG file as its mood, so each is drawn as the image "/" + mood, and never as emoji text. |
| Client.ShortMoodShowsAvatar | web/app.js:167-178 | Any mood shorter than ".png", such as a single emoji, cannot name a PNG file and is drawn as that text. |
| Client.EmojiMoodShowsAvatar | web/app.js:172-178 | The two examples "👋" and "" are drawn as that text. |
| Client.FreshInput | web/app.js:187-205 | A freshly drawn scene's input area fits the scene. It is a visible text box on a text scene, or on a choice scene one enabled button per option. |
| Client.FullReaction | web/app.js:248 | The line after a text verdict is the reaction, a blank line, "(🇯🇵 Sensei: ", the feedback and ")", at the stated positions. |
| Client.FirstCorrect | web/app.js:50 | `find` picks the lowest index whose option is correct. |
| Client.TutorContext | web/app.js:45-51 | The tutor context contains the character, the mood, the quoted line and the text of the first correct option. |
| Client.ContextNamesFirstCorrectAnswer | web/app.js:50 | In scene 2 the context names "Saya sedang liburan.", the first of the two correct options. The text scenes have no correct option to name. |
| Client.Player.constructor | web/app.js:2-22 | The page starts with no lesson, index 0, the chat closed and the home view. |
| Client.Player.ToggleChat | web/app.js:24-32 | The chat flag is flipped and nothing else changes. |
| Client.ToggleTwice | web/app.js:24-32 | Two clicks on the chat toggle restore the panel's state. |
| Client.Player.StartLesson | web/app.js:145-155 | Whatever id is clicked, lesson "1" is fetched through the lesson route and loaded and the index is reset to 0. Scene 0 is drawn, the lesson view is shown, and the chat flag is kept. |
| Client.Player.RenderScene | web/app.js:159-206 | The scene at the index is drawn from scratch: its line, its portrait, its input area and no next button. The input area is a fresh text box on a text scene and one enabled button per option on a choice scene. |
| Client.Player.HandleChoiceAnswer | web/app.js:209-219 | The clicked button's option is exactly the resolved choice. The buttons are disabled and the option's reaction is shown. Its reaction image is shown when it has one, else the emoji its flag picks. Its flag decides the next button. |
| Client.Player.SubmitTextAnswer | web/app.js:222-239 | A blank answer sends nothing and changes nothing. Otherwise the trimmed answer is sent for the current scene, which is always a text scene, and the processing notice is shown. |
| Client.Player.ReceiveTextVerdict | web/app.js:240-252 | The text box is hidden and the reaction is shown with the Sensei feedback. The verdict's reaction image is shown when it has one, else the emoji its flag picks. The verdict's flag decides the next button. |
| Client.Player.ProcessResult | web/app.js:261-303 | The reaction text is shown. The portrait is the reaction image when there is one, else the ✨ or 😅 emoji. The next button is "Continue" after a right answer and "Try Again" after a wrong one. |
| Client.Player.NextScene | web/app.js:305-313 | The index goes up by one. The next scene is drawn while one remains; past the last scene the home view returns. |
| Client.Player.PressNext | web/app.js:278-299 | "Try Again" redraws the same scene. "Continue" advances by exactly one scene. So the index moves only after a right answer. |
| Client.Player.SendToAI | web/app.js:34-64 | An empty question sends nothing. Any other question is sent verbatim, with the current scene's tutor context. |

## Left out

- The HTTP layer is left out: JSON encoding and decoding, the 400 reply on
  undecodable bodies, the static file server and the routes
  (`main.go:286-337`). The one route kept is `/api/lesson/1`, as
  `Lessons.GetLesson`. The model starts from already decoded requests.
- The dashboard mock state (`Module`, `Profile`, `AppState`, `/api/state`)
  and `loadHome` are left out. They are display data outside the lesson
  core.
- The `initGemini` setup, the API key and the logging are left out. The
  completion service itself is the `generate` parameter of `Tutor.Ask`.
  A part's text stands for its `%s` formatting.
- The tutor call's context is unbounded (`context.Background()`). No
  timeout or cancellation is modelled.
- Text.ToLower: non-ASCII letters are kept unchanged, while Go's
  `strings.ToLower` maps all Unicode letters. This can change a verdict.
  Go maps U+0130 (capital I with dot above) to the ASCII letter "i". So
  "İNDONESIA" gets the Indonesia verdict from the program, but the
  unknown-place verdict from the model.
- The DOM is left out: CSS classes, opacity toggles, focus, `show`, the
  pop-in timer, and `addChatBubble` with its loading bubble.
- Only the end state of the `typeWriter` animation is modelled: the
  dialogue holds the whole line at once. On the page the typing timer
  (`web/app.js:316-327`) is never cancelled. So any write to the line
  while a line is still being typed is followed by the rest of that line.
  When two renders overlap, their timers interleave the characters of
  both lines. The following contracts therefore hold only once typing has
  finished:
  - `Client.Player.ProcessResult`: `dialogue == reactionText`
    (`web/app.js:263`).
  - `Client.Player.SubmitTextAnswer`: `dialogue == ProcessingText`
    (`web/app.js:229`).
  - `Client.Player.RenderScene`, when reached through
    `Client.Player.PressNext` or `Client.Player.NextScene`: the
    `dialogue == scene.dialogue` part of `ShowsScene`
    (`web/app.js:286, 296-298`).
- `handleChoiceAnswer` dims the buttons whose caption differs from the
  chosen one. This is styling only and is not modelled.
- Tutor.ExtractReply: a candidate is modelled as its list of part texts.
  In the client library a candidate's `Content` is a pointer, and
  `main.go:224` dereferences it unchecked. A candidate without content
  therefore makes the handler panic instead of falling back. The model
  cannot express this, so `Tutor.ReplyIsFallbackOrPart`'s "no error
  reaches the caller" holds only for candidates that have content.
- Client.Player.SendToAI: clearing the chat input and showing the reply
  bubble are not modelled. The reply itself is `Tutor.Ask`.
- The page's asynchronous `fetch` round trips are split into a request
  step (`SubmitTextAnswer`, `SendToAI`) and a response step
  (`ReceiveTextVerdict`). Interleavings of several outstanding requests,
  double submissions and the `.catch` alert on a failed request are not
  modelled.
- Client.Player.StartLesson requires the home view. On the page, a second
  click while the first lesson fetch is still pending would load the
  lesson again.
- Client.Player.SendToAI requires a scene on screen that has a correct
  option. On the page, a question asked before any lesson is loaded, on a
  text scene, or after the last scene throws inside the handler, and no
  request is sent.
- Client.Player.RenderScene requires the index to name a scene. The page
  reads `scenes[currentSceneIndex]` unchecked, and `nextScene` calls it
  only while a scene remains.
