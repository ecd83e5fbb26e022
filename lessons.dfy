/** The authored lesson content served by the backend: the `Option`, `Scene`
    and `Lesson` records and the one lesson, "Meeting Sari in Jakarta". */
module Lessons {

  /** A choice button: its label, the character's reply, whether it is the
      right answer, and the portrait shown with the reply ("" when absent). */
  datatype Option = Option(text: string, reaction: string, isCorrect: bool, reactionImage: string)

  /** One screen of the story. `inputType` is "choice" (buttons) or "text"
      (a free-text box); text scenes carry no options. */
  datatype Scene = Scene(inputType: string, characterName: string, characterMood: string,
                         dialogue: string, options: seq<Option>)

  datatype Lesson = Lesson(id: string, title: string, scenes: seq<Scene>)

  const ChoiceInput: string := "choice"
  const TextInput: string := "text"

  predicate IsTextScene(scene: Scene) {
    scene.inputType == TextInput
  }

  /** Some option of the scene is marked correct. */
  predicate HasCorrectOption(scene: Scene) {
    exists k :: 0 <= k < |scene.options| && scene.options[k].isCorrect
  }

  const Lesson1: Lesson := Lesson("1", "Meeting Sari in Jakarta", [
    Scene(ChoiceInput, "Sari", "Muka_sari_menyapa.png",
      "Halo! Selamat siang. Aku belum pernah melihatmu di sini. Siapa namamu?", [
        Option("Nama saya Wira.", "Wah, nama yang bagus! Salam kenal, Aditya.", true, "Muka_sari_senang.png"),
        Option("Saya umur 12 tahun.", "Eh? Aku tanya nama lho, bukan umur.", false, "Muka_sari_bingung.png")
      ]),
    Scene(TextInput, "Sari", "Muka_sari_senang.png",
      "Salam kenal ya. Ngomong-ngomong, kamu asalnya dari mana?", []),
    Scene(ChoiceInput, "Sari", "Muka_sari_kaget.png",
      "Terus, sedang apa kamu di Jakarta?", [
        Option("Saya sedang liburan.", "Wah asyik! Jakarta punya banyak mall lho.", true, "Muka_sari_senang.png"),
        Option("Saya sedang makan batu.",
          "Hah?! Gigi kamu kuat banget... (先生：石を食べていますか？ほんまに？ふざけんなぁお前)", false, "Muka_sari_bingung.png"),
        Option("Saya sedang belajar Bahasa.", "Wah rajin sekali! Semangat ya.", true, "Muka_sari_senang.png")
      ]),
    Scene(TextInput, "Sari", "Muka_sari_senang.png",
      "Kelihatan masih muda ya. Boleh tahu umur kamu berapa? (Tulis angka saja)", []),
    Scene(ChoiceInput, "Sari", "Muka_sari_menyap.png",
      "Oke deh, aku harus pergi kerja dulu. Senang mengobrol denganmu!", [
        Option("Sampai jumpa!", "Dah! Hati-hati di jalan.", true, "Muka_sari_happy.png"),
        Option("Kamu siapa?", "Lho? Kan tadi kita baru kenalan...", false, "Muka_sari_bingung.png")
      ])
  ])

  /** The shape of the authored lesson: five scenes; scenes 0, 2 and 4 are
      choice scenes with 2, 3 and 2 options, each with a correct option;
      scenes 1 and 3 are text scenes without options. */
  lemma Lesson1Shape()
    ensures |Lesson1.scenes| == 5
    ensures forall i :: 0 <= i < 5 ==>
      (Lesson1.scenes[i].inputType == ChoiceInput || Lesson1.scenes[i].inputType == TextInput)
    ensures forall i :: 0 <= i < 5 ==> (IsTextScene(Lesson1.scenes[i]) <==> i == 1 || i == 3)
    ensures |Lesson1.scenes[0].options| == 2
    ensures |Lesson1.scenes[2].options| == 3
    ensures |Lesson1.scenes[4].options| == 2
    ensures Lesson1.scenes[1].options == [] && Lesson1.scenes[3].options == []
    ensures forall i :: 0 <= i < 5 ==> (HasCorrectOption(Lesson1.scenes[i]) <==> !IsTextScene(Lesson1.scenes[i]))
  {
    var s := Lesson1.scenes;
    assert s[0].options[0].isCorrect && s[2].options[0].isCorrect && s[4].options[0].isCorrect;
  }

  /** The result of asking the server for a lesson by id. */
  datatype Lookup = Found(lesson: Lesson) | NotFound

  /** The lesson route: only lesson "1" is served, and it is served whole;
      any other id has no route. */
  function GetLesson(id: string): (r: Lookup)
    ensures r.Found? <==> id == Lesson1.id
    ensures r.Found? ==> r.lesson == Lesson1 && r.lesson.id == id
  {
    if id == "1" then Found(Lesson1) else NotFound
  }

  /** What choosing the button at `index` yields, or the index error the
      choice request reports when the index names no option. */
  datatype Choice = Chosen(option: Option) | IndexOutOfRange

  /** Choice resolution: the option at `index`, returned unchanged. */
  function ResolveChoice(scene: Scene, index: int): (r: Choice)
    ensures r.Chosen? <==> 0 <= index < |scene.options|
    ensures r.Chosen? ==> r.option == scene.options[index]
  {
    if 0 <= index < |scene.options| then Chosen(scene.options[index]) else IndexOutOfRange
  }

  /** Choosing the first option of the first scene gives that option
      verbatim, correctness flag included. */
  lemma FirstChoiceExample()
    ensures ResolveChoice(Lesson1.scenes[0], 0)
      == Chosen(Option("Nama saya Wira.", "Wah, nama yang bagus! Salam kenal, Aditya.", true, "Muka_sari_senang.png"))
    ensures ResolveChoice(Lesson1.scenes[0], 2) == IndexOutOfRange
    ensures ResolveChoice(Lesson1.scenes[0], -1) == IndexOutOfRange
  {
  }
}
