/** The free-text answer check of the backend (`evaluateTextAnswer`): the
    answer is lowercased and run through substring tests that belong to the
    scene, first match wins. The module gives the check twice, as the chain of
    tests the backend runs and as a table of ordered rules with a first-match
    interpreter, and proves the two equal on every input. */
module Evaluator {
  import opened Text
  import opened Lessons

  /** The verdict returned to the browser; `reactionImage` is "" when the
      verdict carries no portrait. */
  datatype Verdict = Verdict(isCorrect: bool, reaction: string, feedback: string, reactionImage: string)

  /** The body of a text-answer request. */
  datatype TextAnswerRequest = TextAnswerRequest(sceneIndex: int, answer: string)

  // Scene 1, "where are you from?"
  const JapanVerdict: Verdict := Verdict(true, "Wah, Jepang! 🇯🇵 Aku suka anime lho.",
    "Sempurna! (完璧です！)", "Muka_sari_kaget.png")
  const IndonesiaVerdict: Verdict := Verdict(true, "Oh, orang lokal ternyata!",
    "Benar! (正解です)", "Muka_sari_senang.png")
  const RendangVerdict: Verdict := Verdict(false, "Eh rendang? Daerah mana itu... 🍛 Itu nama makanan kali!",
    "Salah konteks. Rendang itu makanan wkwk. (それは食べ物です。場所ではありません ww)", "Muka_sari_bingung.png")
  const SabunVerdict: Verdict := Verdict(false, "...kamu gak papa? Kepalamu terbentur?",
    "Jawaban sangat aneh. (変な答えです。大丈夫ですか？)", "Muka_sari_kaget.png")
  const UnknownPlaceVerdict: Verdict := Verdict(false, "Hmm, aku belum pernah dengar nama daerah itu.",
    "Coba jawab dengan nama negara atau kota. (国や都市の名前で答えてみてください)", "Muka_sari_bingung.png")

  // Scene 3, "how old are you?"
  const NumberVerdict: Verdict := Verdict(true, "Ooh segitu. Masih semangat muda ya!",
    "Angka diterima. (数字が確認できました。OKです)", "Muka_sari_happy.png")
  const NotNumberVerdict: Verdict := Verdict(false, "Itu bukan angka deh kayaknya...",
    "Tulis menggunakan angka. (数字を使って書いてください)", "Muka_sari_bingung.png")

  /** Every scene without rules of its own. */
  const ErrorVerdict: Verdict := Verdict(false, "...", "Error logic", "")

  const Digits: string := "0123456789"

  /** The check as the backend writes it: a chain of tests on the
      lowercased answer, each returning on success. */
  function EvaluateTextAnswer(sceneIndex: int, answer: string): (v: Verdict)
    ensures sceneIndex == 1 ==>
      v == JapanVerdict || v == IndonesiaVerdict || v == RendangVerdict
      || v == SabunVerdict || v == UnknownPlaceVerdict
    ensures sceneIndex == 3 ==> v == NumberVerdict || v == NotNumberVerdict
    ensures v.isCorrect ==> sceneIndex == 1 || sceneIndex == 3
    ensures v.isCorrect ==> v.reactionImage != ""
  {
    var ans := ToLower(answer);
    if sceneIndex == 1 then
      if Contains(ans, "jepang") || Contains(ans, "japan") then JapanVerdict
      else if Contains(ans, "indonesia") then IndonesiaVerdict
      else if Contains(ans, "rendang") then RendangVerdict
      else if Contains(ans, "sabun") then SabunVerdict
      else UnknownPlaceVerdict
    else if sceneIndex == 3 then
      if ContainsAny(ans, Digits) then NumberVerdict else NotNumberVerdict
    else
      ErrorVerdict
  }

  // ---------------------------------------------------------------------
  // The same check as data: per scene, an ordered list of rules and a
  // catch-all verdict.

  /** A rule fires when the answer contains any one of its needles. */
  datatype Rule = Rule(needles: seq<string>, verdict: Verdict)

  /** The rules of one scene, tried in order, and the verdict for an
      answer that no rule matches. */
  datatype RuleSet = RuleSet(rules: seq<Rule>, catchAll: Verdict)

  predicate Matches(rule: Rule, ans: string) {
    exists k :: 0 <= k < |rule.needles| && Contains(ans, rule.needles[k])
  }

  /** The verdict of the first rule that matches, else the catch-all. */
  function FirstMatch(rules: seq<Rule>, catchAll: Verdict, ans: string): (v: Verdict)
    ensures v == catchAll || exists k :: 0 <= k < |rules| && v == rules[k].verdict
  {
    if rules == [] then catchAll
    else if Matches(rules[0], ans) then rules[0].verdict
    else
      var v := FirstMatch(rules[1..], catchAll, ans);
      assert v != catchAll ==> exists k :: 0 <= k < |rules[1..]| && v == rules[1..][k].verdict;
      assert forall k :: 0 <= k < |rules[1..]| ==> rules[1..][k] == rules[k + 1];
      v
  }

  /** Scene 1's rules, in the order the backend tries them. */
  const OriginRules: RuleSet := RuleSet([
    Rule(["jepang", "japan"], JapanVerdict),
    Rule(["indonesia"], IndonesiaVerdict),
    Rule(["rendang"], RendangVerdict),
    Rule(["sabun"], SabunVerdict)
  ], UnknownPlaceVerdict)

  /** Scene 3's rule: any one digit. */
  const AgeRules: RuleSet := RuleSet([
    Rule(["0", "1", "2", "3", "4", "5", "6", "7", "8", "9"], NumberVerdict)
  ], NotNumberVerdict)

  /** Scene positions that have rules of their own. */
  const RuleTable: map<int, RuleSet> := map[1 := OriginRules, 3 := AgeRules]

  /** The table-driven check: lowercase, look up the scene's rules, first
      match wins; scenes without rules get the error verdict. */
  function EvaluateByRules(sceneIndex: int, answer: string): (v: Verdict)
    ensures sceneIndex !in RuleTable ==> v == ErrorVerdict
  {
    if sceneIndex in RuleTable then
      FirstMatch(RuleTable[sceneIndex].rules, RuleTable[sceneIndex].catchAll, ToLower(answer))
    else ErrorVerdict
  }

  // ---------------------------------------------------------------------
  // First match wins.

  /** When rule `k` matches and none before it does, its verdict is the
      result, whatever the rules after it would say. */
  lemma {:induction false} FirstMatchIsFirst(rules: seq<Rule>, catchAll: Verdict, ans: string, k: int)
    requires 0 <= k < |rules| && Matches(rules[k], ans)
    requires forall j :: 0 <= j < k ==> !Matches(rules[j], ans)
    ensures FirstMatch(rules, catchAll, ans) == rules[k].verdict
  {
    if k > 0 {
      assert !Matches(rules[0], ans);
      assert forall j :: 0 <= j < k - 1 ==> rules[1..][j] == rules[j + 1];
      FirstMatchIsFirst(rules[1..], catchAll, ans, k - 1);
    }
  }

  /** When no rule matches, the catch-all is the result. */
  lemma {:induction false} FirstMatchCatchAll(rules: seq<Rule>, catchAll: Verdict, ans: string)
    requires forall j :: 0 <= j < |rules| ==> !Matches(rules[j], ans)
    ensures FirstMatch(rules, catchAll, ans) == catchAll
  {
    if rules != [] {
      assert !Matches(rules[0], ans);
      assert forall j :: 0 <= j < |rules| - 1 ==> rules[1..][j] == rules[j + 1];
      FirstMatchCatchAll(rules[1..], catchAll, ans);
    }
  }

  /** A rule with one needle fires exactly when the answer contains it. */
  lemma MatchesOne(rule: Rule, ans: string)
    requires |rule.needles| == 1
    ensures Matches(rule, ans) <==> Contains(ans, rule.needles[0])
  {
    if Contains(ans, rule.needles[0]) {
      assert 0 <= 0 < |rule.needles| && Contains(ans, rule.needles[0]);
    }
  }

  /** A rule with two needles fires exactly when the answer contains either. */
  lemma MatchesTwo(rule: Rule, ans: string)
    requires |rule.needles| == 2
    ensures Matches(rule, ans) <==> Contains(ans, rule.needles[0]) || Contains(ans, rule.needles[1])
  {
    if Contains(ans, rule.needles[0]) {
      assert 0 <= 0 < |rule.needles| && Contains(ans, rule.needles[0]);
    }
    if Contains(ans, rule.needles[1]) {
      assert 0 <= 1 < |rule.needles| && Contains(ans, rule.needles[1]);
    }
  }

  /** The characters `strings.ContainsAny` is given in scene 3 are exactly
      the ASCII digits. */
  lemma DigitsAreAsciiDigits(c: char)
    ensures c in Digits <==> IsAsciiDigit(c)
  {
    assert forall k :: 0 <= k < 10 ==> Digits[k] as int == 48 + k;
    if IsAsciiDigit(c) {
      assert Digits[c as int - 48] == c;
    }
  }

  /** The age rule fires exactly when the answer has a digit. */
  lemma AgeRuleIsContainsAny(ans: string)
    ensures Matches(AgeRules.rules[0], ans) <==> ContainsAny(ans, Digits)
  {
    var needles := AgeRules.rules[0].needles;
    assert forall k :: 0 <= k < 10 ==> needles[k] == [Digits[k]];
    if ContainsAny(ans, Digits) {
      var i :| 0 <= i < |ans| && ans[i] in Digits;
      var k :| 0 <= k < 10 && Digits[k] == ans[i];
      ContainsSingle(ans, Digits[k]);
      assert Contains(ans, needles[k]);
    }
    if Matches(AgeRules.rules[0], ans) {
      var k :| 0 <= k < 10 && Contains(ans, needles[k]);
      ContainsSingle(ans, Digits[k]);
      var i :| 0 <= i < |ans| && ans[i] == Digits[k];
      assert ans[i] in Digits;
    }
  }

  /** The rule table and the chain of tests give the same verdict for every
      scene position and every answer. */
  lemma RulesAgreeWithChain(sceneIndex: int, answer: string)
    ensures EvaluateByRules(sceneIndex, answer) == EvaluateTextAnswer(sceneIndex, answer)
  {
    var ans := ToLower(answer);
    var rs := OriginRules.rules;
    if sceneIndex == 1 {
      MatchesTwo(rs[0], ans);
      MatchesOne(rs[1], ans);
      MatchesOne(rs[2], ans);
      MatchesOne(rs[3], ans);
      if Matches(rs[0], ans) {
        FirstMatchIsFirst(rs, UnknownPlaceVerdict, ans, 0);
      } else if Matches(rs[1], ans) {
        FirstMatchIsFirst(rs, UnknownPlaceVerdict, ans, 1);
      } else if Matches(rs[2], ans) {
        FirstMatchIsFirst(rs, UnknownPlaceVerdict, ans, 2);
      } else if Matches(rs[3], ans) {
        FirstMatchIsFirst(rs, UnknownPlaceVerdict, ans, 3);
      } else {
        FirstMatchCatchAll(rs, UnknownPlaceVerdict, ans);
      }
    } else if sceneIndex == 3 {
      AgeRuleIsContainsAny(ans);
      if Matches(AgeRules.rules[0], ans) {
        FirstMatchIsFirst(AgeRules.rules, NotNumberVerdict, ans, 0);
      } else {
        FirstMatchCatchAll(AgeRules.rules, NotNumberVerdict, ans);
      }
    }
  }

  // ---------------------------------------------------------------------
  // Properties of the check.

  /** Case does not matter: an answer and its lowercase form get the same
      verdict, in every scene. */
  lemma EvaluateIgnoresCase(sceneIndex: int, answer: string)
    ensures EvaluateTextAnswer(sceneIndex, answer) == EvaluateTextAnswer(sceneIndex, ToLower(answer))
  {
    ToLowerIdempotent(answer);
  }

  /** Two answers that differ only in the case of ASCII letters get the
      same verdict. */
  lemma EvaluateSameUpToCase(sceneIndex: int, a: string, b: string)
    requires ToLower(a) == ToLower(b)
    ensures EvaluateTextAnswer(sceneIndex, a) == EvaluateTextAnswer(sceneIndex, b)
  {
  }

  /** "Jepang" and "jepang" are both the Japan answer. */
  lemma JepangExample()
    ensures EvaluateTextAnswer(1, "Jepang") == EvaluateTextAnswer(1, "jepang") == JapanVerdict
  {
    assert ToLower("Jepang") == "jepang" == ToLower("jepang");
    assert OccursAt("jepang", "jepang", 0);
  }

  /** Scene 1, in rule order: each verdict is given exactly when its
      substrings occur and no earlier rule's do. An answer naming Japan is
      the Japan answer whatever else it contains; "indonesia" wins over
      "rendang", and "rendang" over "sabun". */
  lemma OriginVerdicts(answer: string)
    ensures var ans := ToLower(answer);
      var japan := Contains(ans, "jepang") || Contains(ans, "japan");
      var v := EvaluateTextAnswer(1, answer);
      && (v == JapanVerdict <==> japan)
      && (v == IndonesiaVerdict <==> !japan && Contains(ans, "indonesia"))
      && (v == RendangVerdict <==> !japan && !Contains(ans, "indonesia") && Contains(ans, "rendang"))
      && (v == SabunVerdict <==> !japan && !Contains(ans, "indonesia") && !Contains(ans, "rendang")
                                 && Contains(ans, "sabun"))
      && (v == UnknownPlaceVerdict <==> !japan && !Contains(ans, "indonesia") && !Contains(ans, "rendang")
                                        && !Contains(ans, "sabun"))
      && (v.isCorrect <==> japan || Contains(ans, "indonesia"))
  {
  }

  /** An answer with none of the five substrings, the empty answer among
      them, is wrong and asks for the name of a country or city. */
  lemma OriginCatchAll(answer: string)
    requires var ans := ToLower(answer);
      !Contains(ans, "jepang") && !Contains(ans, "japan") && !Contains(ans, "indonesia")
      && !Contains(ans, "rendang") && !Contains(ans, "sabun")
    ensures EvaluateTextAnswer(1, answer) == UnknownPlaceVerdict
    ensures !EvaluateTextAnswer(1, answer).isCorrect
  {
  }

  lemma EmptyOriginAnswer()
    ensures EvaluateTextAnswer(1, "") == UnknownPlaceVerdict
  {
  }

  /** "Saya dari Jepang" is right and mentions Japan. */
  lemma SayaDariJepangExample()
    ensures EvaluateTextAnswer(1, "Saya dari Jepang") == JapanVerdict
    ensures EvaluateTextAnswer(1, "Saya dari Jepang").isCorrect
  {
    var answer := "Saya dari Jepang";
    assert ToLower(answer) == "saya dari jepang";
    assert OccursAt(ToLower(answer), "jepang", 10);
    OriginVerdicts(answer);
  }

  /** "Rendang" is a food, not a place. */
  lemma RendangExample()
    ensures EvaluateTextAnswer(1, "Rendang") == RendangVerdict
    ensures !EvaluateTextAnswer(1, "Rendang").isCorrect
  {
    var ans := ToLower("Rendang");
    assert ans == "rendang";
    assert OccursAt(ans, "rendang", 0);
    ContainsHasFirstChar(ans, "jepang");
    ContainsHasFirstChar(ans, "japan");
    assert 'j' !in ans;
  }

  /** Scene 3: the answer is right exactly when it has an ASCII digit. */
  lemma AgeNeedsDigit(answer: string)
    ensures EvaluateTextAnswer(3, answer).isCorrect
      <==> exists i :: 0 <= i < |answer| && IsAsciiDigit(answer[i])
    ensures EvaluateTextAnswer(3, answer) == NumberVerdict || EvaluateTextAnswer(3, answer) == NotNumberVerdict
  {
    var ans := ToLower(answer);
    if exists i :: 0 <= i < |answer| && IsAsciiDigit(answer[i]) {
      var i :| 0 <= i < |answer| && IsAsciiDigit(answer[i]);
      ToLowerKeepsDigits(answer, i);
      DigitsAreAsciiDigits(ans[i]);
    }
    if ContainsAny(ans, Digits) {
      var i :| 0 <= i < |ans| && ans[i] in Digits;
      ToLowerKeepsDigits(answer, i);
      DigitsAreAsciiDigits(ans[i]);
    }
  }

  /** "25" is an age. */
  lemma AgeExampleDigits()
    ensures EvaluateTextAnswer(3, "25") == NumberVerdict
  {
    var a := "25";
    AgeNeedsDigit(a);
    assert IsAsciiDigit(a[0]);
  }

  /** "dua puluh" is not: it is spelt out. */
  lemma AgeExampleWords()
    ensures EvaluateTextAnswer(3, "dua puluh") == NotNumberVerdict
  {
    var a := "dua puluh";
    AgeNeedsDigit(a);
    assert forall i :: 0 <= i < |a| ==> !IsAsciiDigit(a[i]);
  }

  /** Any scene position other than 1 and 3, negative, past the end, or a
      choice scene, gets the fixed error verdict; scenes 1 and 3 never do. */
  lemma UnknownSceneVerdict(sceneIndex: int, answer: string)
    ensures EvaluateTextAnswer(sceneIndex, answer) == ErrorVerdict <==> sceneIndex != 1 && sceneIndex != 3
    ensures sceneIndex != 1 && sceneIndex != 3 ==>
      var v := EvaluateTextAnswer(sceneIndex, answer);
      !v.isCorrect && v.reaction == "..." && v.feedback == "Error logic" && v.reactionImage == ""
  {
  }

  /** The scenes of the lesson that take free text are exactly the scene
      positions with rules, so a text scene never gets the error verdict and
      a choice scene always would. */
  lemma TextScenesHaveRules()
    ensures forall i :: 0 <= i < |Lesson1.scenes| ==> (IsTextScene(Lesson1.scenes[i]) <==> i in RuleTable)
    ensures forall i :: i in RuleTable ==> 0 <= i < |Lesson1.scenes| && IsTextScene(Lesson1.scenes[i])
    ensures forall i, a :: 0 <= i < |Lesson1.scenes| ==>
      (IsTextScene(Lesson1.scenes[i]) <==> EvaluateTextAnswer(i, a) != ErrorVerdict)
  {
    Lesson1Shape();
  }
}
