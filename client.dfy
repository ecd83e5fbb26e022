/** The browser side of a lesson: the page's global state (the loaded lesson,
    the index of the scene on screen, whether the tutor chat is open) and the
    handlers that change it. Of the page itself only what the handlers decide
    is kept: the character's line, the portrait, the input area and what the
    next button does. */
module Client {
  import opened Text
  import opened Lessons
  import opened Evaluator
  import opened Tutor

  datatype Maybe<T> = Nothing | Just(value: T)

  /** Which of the two views is on screen. */
  datatype View = Home | LessonView

  /** The next button: hidden, or shown with the action its click runs
      ("Continue" moves to the next scene, "Try Again" redraws this one). */
  datatype NextButton = Hidden | Continue | TryAgain

  /** The character's picture: an image (its source path) or an emoji. */
  datatype Portrait = Image(src: string) | Avatar(text: string)

  /** A choice button: its caption and the option its click hands on. */
  datatype Button = Button(text: string, option: Option)

  /** The input area of a scene: the choice buttons (clickable until one is
      picked), or the free-text box (hidden once a verdict has arrived). */
  datatype InputArea = Choices(buttons: seq<Button>, enabled: bool) | TextBox(visible: bool)

  const ProcessingText: string := "(Sedang memproses jawaban...)"
  const SenseiOpen: string := "\n\n(🇯🇵 Sensei: "
  const SenseiClose: string := ")"

  /** The buttons of a choice scene, one per option, in authored order. */
  function ButtonsOf(options: seq<Option>): (buttons: seq<Button>)
    ensures |buttons| == |options|
    ensures forall k :: 0 <= k < |options| ==> buttons[k].text == options[k].text
    ensures forall k :: 0 <= k < |options| ==> buttons[k].option == options[k]
  {
    seq(|options|, k requires 0 <= k < |options| => Button(options[k].text, options[k]))
  }

  /** Builds the choice buttons one option at a time, as the page does. */
  method BuildButtons(options: seq<Option>) returns (buttons: seq<Button>)
    ensures buttons == ButtonsOf(options)
  {
    buttons := [];
    var i := 0;
    while i < |options|
      invariant 0 <= i <= |options|
      invariant buttons == ButtonsOf(options[..i])
    {
      buttons := buttons + [Button(options[i].text, options[i])];
      i := i + 1;
    }
    assert options[..i] == options;
  }

  /** Clicking button `k` of a scene hands on exactly the option that choice
      resolution gives for `k`. */
  lemma ButtonHandsOnResolvedChoice(scene: Scene, k: int)
    requires 0 <= k < |ButtonsOf(scene.options)|
    ensures ResolveChoice(scene, k) == Chosen(ButtonsOf(scene.options)[k].option)
  {
  }

  /** The portrait for a scene's mood: a mood naming a PNG file is shown as
      that image, anything else as an emoji. */
  function ScenePortrait(mood: string): (p: Portrait)
    ensures Contains(mood, ".png") ==> p == Image("/" + mood)
    ensures !Contains(mood, ".png") ==> p == Avatar(mood)
  {
    if Contains(mood, ".png") then Image("/" + mood) else Avatar(mood)
  }

  /** Every scene of the lesson names a PNG file as its mood, so each is
      drawn with its picture, loaded from the site root. */
  lemma LessonScenesShowImages()
    ensures forall i :: 0 <= i < |Lesson1.scenes| ==>
      ScenePortrait(Lesson1.scenes[i].characterMood) == Image("/" + Lesson1.scenes[i].characterMood)
  {
    var s := Lesson1.scenes;
    forall i | 0 <= i < |s|
      ensures ScenePortrait(s[i].characterMood) == Image("/" + s[i].characterMood)
    {
      var mood := s[i].characterMood;
      assert OccursAt(mood, ".png", |mood| - 4);
    }
  }

  /** A mood too short to name a PNG file is drawn as that text. */
  lemma ShortMoodShowsAvatar(mood: string)
    requires |mood| < |".png"|
    ensures ScenePortrait(mood) == Avatar(mood)
  {
  }

  /** The waving-hand emoji and the empty mood are drawn as text. */
  lemma EmojiMoodShowsAvatar()
    ensures ScenePortrait("👋") == Avatar("👋")
    ensures ScenePortrait("") == Avatar("")
  {
  }

  /** The input area a freshly drawn scene shows. */
  function FreshInput(scene: Scene): (input: InputArea)
    ensures InputFits(input, scene)
    ensures input.TextBox? ==> input.visible
    ensures input.Choices? ==> input.enabled && |input.buttons| == |scene.options|
  {
    if IsTextScene(scene) then TextBox(true) else Choices(ButtonsOf(scene.options), true)
  }

  /** The input area belongs to the scene: a text box on a text scene, the
      scene's own buttons on a choice scene. */
  predicate InputFits(input: InputArea, scene: Scene) {
    if IsTextScene(scene) then input.TextBox? else input.Choices? && input.buttons == ButtonsOf(scene.options)
  }

  /** The character's line after a free-text verdict: the reaction, a blank
      line, and the tutor's feedback in parentheses. */
  function FullReaction(reaction: string, feedback: string): (r: string)
    ensures |r| == |reaction| + |SenseiOpen| + |feedback| + |SenseiClose|
    ensures r[..|reaction|] == reaction
    ensures r[|reaction|..|reaction| + |SenseiOpen|] == SenseiOpen
    ensures r[|reaction| + |SenseiOpen|..|r| - |SenseiClose|] == feedback
    ensures r[|r| - |SenseiClose|..] == SenseiClose
  {
    reaction + SenseiOpen + feedback + SenseiClose
  }

  /** Index of the first option marked correct, as `Array.prototype.find`
      picks it. */
  function FirstCorrect(options: seq<Option>): (k: nat)
    requires exists j :: 0 <= j < |options| && options[j].isCorrect
    ensures k < |options| && options[k].isCorrect
    ensures forall j :: 0 <= j < k ==> !options[j].isCorrect
  {
    if options[0].isCorrect then 0
    else
      assert exists j :: 0 <= j < |options[1..]| && options[1..][j].isCorrect by {
        var j :| 0 <= j < |options| && options[j].isCorrect;
        assert options[1..][j - 1] == options[j];
      }
      1 + FirstCorrect(options[1..])
  }

  /** The story context sent with a tutor question: the character, the mood,
      the line and the first correct answer of the scene. A scene without a
      correct option has no context: the page fails there. */
  function TutorContext(scene: Scene): (c: string)
    requires HasCorrectOption(scene)
    ensures Contains(c, scene.characterName)
    ensures Contains(c, scene.characterMood)
    ensures Contains(c, "\"" + scene.dialogue + "\"")
    ensures Contains(c, scene.options[FirstCorrect(scene.options)].text)
  {
    var line := "\"" + scene.dialogue + "\"";
    var answer := scene.options[FirstCorrect(scene.options)].text;
    GluedPieces("\n        Karakter: ", scene.characterName, "\n        Mood: ", scene.characterMood,
                "\n        Dialog Karakter: ", line, "\n        Jawaban Benar: ", answer, "\n    ");
    "\n        Karakter: " + scene.characterName
    + "\n        Mood: " + scene.characterMood
    + "\n        Dialog Karakter: " + line
    + "\n        Jawaban Benar: " + answer
    + "\n    "
  }

  /** A string glued from labels and values contains each value. */
  lemma GluedPieces(l1: string, v1: string, l2: string, v2: string, l3: string, v3: string,
                    l4: string, v4: string, tail: string)
    ensures Contains(l1 + v1 + l2 + v2 + l3 + v3 + l4 + v4 + tail, v1)
    ensures Contains(l1 + v1 + l2 + v2 + l3 + v3 + l4 + v4 + tail, v2)
    ensures Contains(l1 + v1 + l2 + v2 + l3 + v3 + l4 + v4 + tail, v3)
    ensures Contains(l1 + v1 + l2 + v2 + l3 + v3 + l4 + v4 + tail, v4)
  {
    var full := l1 + v1 + l2 + v2 + l3 + v3 + l4 + v4 + tail;
    var i1 := |l1|;
    var i2 := i1 + |v1| + |l2|;
    var i3 := i2 + |v2| + |l3|;
    var i4 := i3 + |v3| + |l4|;
    assert full[i1..i1 + |v1|] == v1;
    assert full[i2..i2 + |v2|] == v2;
    assert full[i3..i3 + |v3|] == v3;
    assert full[i4..i4 + |v4|] == v4;
    assert OccursAt(full, v1, i1) && OccursAt(full, v2, i2) && OccursAt(full, v3, i3) && OccursAt(full, v4, i4);
  }

  /** The context names the scene's first correct answer, so in scene 2 of
      the lesson it is "Saya sedang liburan." and not the later correct
      option. */
  lemma ContextNamesFirstCorrectAnswer()
    ensures HasCorrectOption(Lesson1.scenes[2])
    ensures FirstCorrect(Lesson1.scenes[2].options) == 0
    ensures Lesson1.scenes[2].options[FirstCorrect(Lesson1.scenes[2].options)].text == "Saya sedang liburan."
    ensures !HasCorrectOption(Lesson1.scenes[1]) && !HasCorrectOption(Lesson1.scenes[3])
  {
    Lesson1Shape();
  }

  /** The page's lesson state. */
  class Player {
    var currentLesson: Maybe<Lesson>
    var currentSceneIndex: int
    var isChatOpen: bool
    var view: View
    var dialogue: string
    var portrait: Portrait
    var input: InputArea
    var nextButton: NextButton

    /** Only the one lesson is ever loaded; the index stays within its scenes
        and points at a scene whenever the lesson is on screen, and the input
        area on screen belongs to that scene. */
    ghost predicate Valid()
      reads this
    {
      (currentLesson.Just? ==> currentLesson.value == Lesson1 && 0 <= currentSceneIndex <= |Lesson1.scenes|)
      && (view == LessonView ==>
            currentLesson.Just? && currentSceneIndex < |Lesson1.scenes|
            && InputFits(input, Lesson1.scenes[currentSceneIndex]))
    }

    /** The lesson is loaded and the index points at one of its scenes. */
    ghost predicate AtScene()
      reads this
    {
      currentLesson == Just(Lesson1) && 0 <= currentSceneIndex < |Lesson1.scenes|
    }

    /** The scene drawn from scratch: its line, its portrait, its input area,
        and no next button yet. */
    ghost predicate ShowsScene(scene: Scene)
      reads this
    {
      dialogue == scene.dialogue && portrait == ScenePortrait(scene.characterMood)
      && input == FreshInput(scene) && nextButton == Hidden
    }

    /** The page as loaded: no lesson, index 0, chat closed, home view. */
    constructor ()
      ensures Valid()
      ensures currentLesson == Nothing && currentSceneIndex == 0 && !isChatOpen && view == Home
    {
      currentLesson := Nothing;
      currentSceneIndex := 0;
      isChatOpen := false;
      view := Home;
      dialogue := "";
      portrait := Avatar("");
      input := TextBox(false);
      nextButton := Hidden;
    }

    /** Opens or closes the tutor panel. */
    method ToggleChat()
      modifies this`isChatOpen
      ensures isChatOpen == !old(isChatOpen)
    {
      isChatOpen := !isChatOpen;
    }

    /** Starts a lesson. Whatever module was clicked, lesson "1" is fetched
        from the lesson route; the index is reset before the first scene is
        drawn. */
    method StartLesson(id: string)
      requires Valid() && view == Home
      modifies this
      ensures Valid()
      ensures currentLesson == Just(Lesson1) && currentSceneIndex == 0 && view == LessonView
      ensures ShowsScene(Lesson1.scenes[0])
      ensures isChatOpen == old(isChatOpen)
    {
      Lesson1Shape();
      var fetched := GetLesson("1");
      currentLesson := Just(fetched.lesson);
      currentSceneIndex := 0;
      RenderScene();
      view := LessonView;
    }

    /** Draws the scene at the current index. The index must point at a
        scene: the page reads `scenes[currentSceneIndex]` without a check. */
    method RenderScene()
      requires AtScene()
      modifies this`dialogue, this`portrait, this`input, this`nextButton
      ensures Valid()
      ensures ShowsScene(Lesson1.scenes[currentSceneIndex])
    {
      var scene := currentLesson.value.scenes[currentSceneIndex];
      nextButton := Hidden;
      portrait := ScenePortrait(scene.characterMood);
      dialogue := scene.dialogue;
      if scene.inputType == TextInput {
        input := TextBox(true);
      } else {
        var buttons := BuildButtons(scene.options);
        input := Choices(buttons, true);
      }
    }

    /** Shows the outcome of an answer and sets the next button: "Continue"
        after a right answer, "Try Again" after a wrong one. `userResponse`
        is not used. */
    method ProcessResult(isCorrect: bool, reactionText: string, userResponse: string, reactionImageUrl: string)
      modifies this`dialogue, this`portrait, this`nextButton
      ensures dialogue == reactionText
      ensures portrait == if reactionImageUrl != "" then Image("/" + reactionImageUrl)
                          else Avatar(if isCorrect then "✨" else "😅")
      ensures nextButton == if isCorrect then Continue else TryAgain
    {
      dialogue := reactionText;
      if reactionImageUrl != "" {
        portrait := Image("/" + reactionImageUrl);
      } else {
        portrait := Avatar(if isCorrect then "✨" else "😅");
      }
      if isCorrect {
        nextButton := Continue;
      } else {
        nextButton := TryAgain;
      }
    }

    /** Button `k` of a choice scene is clicked: the buttons are disabled and
        the option's own flag, reaction and portrait are shown unchanged. */
    method HandleChoiceAnswer(k: int)
      requires Valid() && view == LessonView
      requires input.Choices? && input.enabled && 0 <= k < |input.buttons|
      modifies this`input, this`dialogue, this`portrait, this`nextButton
      ensures Valid()
      ensures var option := old(input.buttons[k].option);
        && ResolveChoice(Lesson1.scenes[currentSceneIndex], k) == Chosen(option)
        && dialogue == option.reaction
        && portrait == (if option.reactionImage != "" then Image("/" + option.reactionImage)
                        else Avatar(if option.isCorrect then "✨" else "😅"))
        && nextButton == (if option.isCorrect then Continue else TryAgain)
        && input == Choices(old(input.buttons), false)
    {
      var option := input.buttons[k].option;
      input := input.(enabled := false);
      ProcessResult(option.isCorrect, option.reaction, option.text, option.reactionImage);
    }

    /** The free-text answer is sent: trimmed, and not at all when nothing
        is left. The request names the scene on screen, which is always a
        text scene. */
    method SubmitTextAnswer(typed: string) returns (request: Maybe<TextAnswerRequest>)
      requires Valid() && view == LessonView && input == TextBox(true)
      modifies this`dialogue
      ensures Trim(typed) == "" ==> request == Nothing && dialogue == old(dialogue)
      ensures Trim(typed) != "" ==> request == Just(TextAnswerRequest(currentSceneIndex, Trim(typed)))
                                    && dialogue == ProcessingText
      ensures request.Just? ==> 0 <= request.value.sceneIndex < |Lesson1.scenes|
                                && IsTextScene(Lesson1.scenes[request.value.sceneIndex])
    {
      var answer := Trim(typed);
      if answer == "" {
        request := Nothing;
        return;
      }
      dialogue := ProcessingText;
      request := Just(TextAnswerRequest(currentSceneIndex, answer));
    }

    /** The verdict for a submitted answer arrives: the text box is hidden,
        the reaction is shown with the tutor's feedback, and the next button
        follows the verdict. */
    method ReceiveTextVerdict(answer: string, verdict: Verdict)
      requires Valid() && view == LessonView && input.TextBox?
      modifies this`input, this`dialogue, this`portrait, this`nextButton
      ensures Valid()
      ensures input == TextBox(false)
      ensures dialogue == FullReaction(verdict.reaction, verdict.feedback)
      ensures portrait == if verdict.reactionImage != "" then Image("/" + verdict.reactionImage)
                          else Avatar(if verdict.isCorrect then "✨" else "😅")
      ensures nextButton == if verdict.isCorrect then Continue else TryAgain
    {
      input := TextBox(false);
      var full := FullReaction(verdict.reaction, verdict.feedback);
      ProcessResult(verdict.isCorrect, full, answer, verdict.reactionImage);
    }

    /** Moves to the next scene; past the last one the lesson is complete and
        the home view returns. */
    method NextScene()
      requires Valid() && view == LessonView
      modifies this
      ensures Valid()
      ensures currentSceneIndex == old(currentSceneIndex) + 1
      ensures currentLesson == old(currentLesson) && isChatOpen == old(isChatOpen)
      ensures currentSceneIndex < |Lesson1.scenes| ==>
                view == LessonView && ShowsScene(Lesson1.scenes[currentSceneIndex])
      ensures currentSceneIndex == |Lesson1.scenes| ==> view == Home
    {
      currentSceneIndex := currentSceneIndex + 1;
      if currentSceneIndex < |currentLesson.value.scenes| {
        RenderScene();
      } else {
        view := Home;
      }
    }

    /** The next button is clicked. After a right answer it advances by one
        scene; after a wrong one it redraws the same scene, so the index
        moves only after a right answer. */
    method PressNext()
      requires Valid() && view == LessonView && nextButton != Hidden
      modifies this
      ensures Valid()
      ensures currentLesson == old(currentLesson) && isChatOpen == old(isChatOpen)
      ensures old(nextButton) == TryAgain ==>
                currentSceneIndex == old(currentSceneIndex) && view == LessonView
                && ShowsScene(Lesson1.scenes[currentSceneIndex])
      ensures old(nextButton) == Continue ==> currentSceneIndex == old(currentSceneIndex) + 1
      ensures old(nextButton) == Continue && currentSceneIndex < |Lesson1.scenes| ==>
                view == LessonView && ShowsScene(Lesson1.scenes[currentSceneIndex])
      ensures old(nextButton) == Continue && currentSceneIndex == |Lesson1.scenes| ==> view == Home
    {
      if nextButton == Continue {
        NextScene();
      } else {
        RenderScene();
      }
    }

    /** A tutor question is sent with the current scene as context; an empty
        question is not sent. Building the context needs a scene on screen
        with a correct option. */
    method SendToAI(userText: string) returns (request: Maybe<ChatRequest>)
      requires Valid()
      requires userText != "" ==>
        currentLesson.Just? && 0 <= currentSceneIndex < |Lesson1.scenes|
        && HasCorrectOption(Lesson1.scenes[currentSceneIndex])
      ensures userText == "" ==> request == Nothing
      ensures userText != "" ==>
        request == Just(ChatRequest(TutorContext(Lesson1.scenes[currentSceneIndex]), userText))
    {
      if userText == "" {
        return Nothing;
      }
      var scene := currentLesson.value.scenes[currentSceneIndex];
      request := Just(ChatRequest(TutorContext(scene), userText));
    }
  }

  /** The chat toggle: two clicks restore the panel's state. */
  method ToggleTwice(p: Player)
    modifies p
    ensures p.isChatOpen == old(p.isChatOpen)
  {
    var before := p.isChatOpen;
    p.ToggleChat();
    p.ToggleChat();
    assert p.isChatOpen == before;
  }

  /** The first scene: a right choice moves the lesson to the text scene. */
  method PlayFirstScene(p: Player)
    requires p.Valid() && p.view == Home
    modifies p
  {
    p.StartLesson("2");
    assert p.currentSceneIndex == 0;
    assert p.input == FreshInput(Lesson1.scenes[0]);
    assert |p.input.buttons| == 2;
    p.HandleChoiceAnswer(0);
    assert Lesson1.scenes[0].options[0].isCorrect;
    assert p.nextButton == Continue;
    p.PressNext();
    assert p.currentSceneIndex == 1 && p.input == FreshInput(Lesson1.scenes[1]);
    assert p.input == TextBox(true);
  }

  /** The second scene's input: a padded answer is sent trimmed, for scene 1. */
  method SubmitPaddedOnSecondScene(p: Player)
    requires p.Valid() && p.view == LessonView && p.currentSceneIndex == 1 && p.input == TextBox(true)
    modifies p
  {
    var core := "Rendang";
    TrimPadded(" ", core, " ");
    var req := p.SubmitTextAnswer(" " + core + " ");
    assert req == Just(TextAnswerRequest(1, core));
  }

  /** The second scene's verdicts: "Rendang" is refused and the same scene
      is asked again; "Jepang" is accepted and the lesson moves on. */
  method AnswerSecondScene(p: Player)
    requires p.Valid() && p.view == LessonView && p.currentSceneIndex == 1 && p.input == TextBox(true)
    modifies p
  {
    RendangExample();
    p.ReceiveTextVerdict("Rendang", EvaluateTextAnswer(1, "Rendang"));
    assert p.nextButton == TryAgain;
    p.PressNext();
    assert p.currentSceneIndex == 1 && p.input == TextBox(true);

    JepangExample();
    p.ReceiveTextVerdict("Jepang", EvaluateTextAnswer(1, "Jepang"));
    assert p.nextButton == Continue;
    p.PressNext();
    assert p.currentSceneIndex == 2;
  }
}
