/** The translation tables, the answer verifier and the forward-drill question
    generator (utils.py). */
module Utils {
  import opened Basics
  import opened Text
  import Morph
  import Models

  // ---------------------------------------------------------------------
  // translations

  /** What `get_translations` returns: the UI strings, and the display names
      of the case and number codes. */
  datatype Translations = Translations(
    ui: map<string, string>,
    caseNames: map<string, string>,
    numberNames: map<string, string>)

  /** The keys of the UI string table, the same in both languages. */
  const UiKeys: set<string> := {
    "welcome", "forward_drill", "backward_drill", "select_cases", "select_number",
    "select_case_and_number", "convert", "into", "form", "your_answer", "submit",
    "next", "back_home", "intro_text", "insert_drill", "insert_instruction", "insert_hint"
  }

  const RussianTranslations: Translations := Translations(
    map[
      "welcome" := "Добро пожаловать в тренировку склонения русских существительных",
      "forward_drill" := "Тренировка: Склонение существительных",
      "backward_drill" := "Тренировка: определение падежа и числа",
      "select_cases" := "Выберите падежи:",
      "select_number" := "Выберите число:",
      "select_case_and_number" := "Выберите падеж и число:",
      "convert" := "Склоните существительное",
      "into" := "в",
      "form" := "форму",
      "your_answer" := "Ваш ответ",
      "submit" := "Отправить",
      "next" := "Следующий",
      "back_home" := "Назад на главную",
      "intro_text" := "Практикуйтесь в склонении существительных на русском языке!",
      "insert_drill" := "Вставьте слово в пропуск",
      "insert_instruction" := "Вставьте недостающее слово в предложение ниже:",
      "insert_hint" := "(Подсказка: начальная форма недостающего слова —"
    ],
    map[
      "nomn" := "Именительный",
      "gent" := "Родительный",
      "datv" := "Дательный",
      "accs" := "Винительный",
      "ablt" := "Творительный",
      "loct" := "Предложный"
    ],
    map[
      "sing" := "Единственное число",
      "plur" := "Множественное число"
    ])

  const EnglishTranslations: Translations := Translations(
    map[
      "welcome" := "Welcome to the Russian Noun Cases Drill",
      "forward_drill" := "Forward Drill",
      "backward_drill" := "Backward Drill",
      "select_cases" := "Select Cases:",
      "select_number" := "Select Number:",
      "select_case_and_number" := "Select Case and Number:",
      "convert" := "Convert the noun",
      "into" := "into its",
      "form" := "form",
      "your_answer" := "Your Answer",
      "submit" := "Submit",
      "next" := "Next",
      "back_home" := "Back to Home",
      "intro_text" := "Practice Russian noun declensions interactively!",
      "insert_drill" := "Insert Word Drill: Fill in the gap",
      "insert_instruction" := "Fill in the missing word in the sentence below:",
      "insert_hint" := "(Hint: The normal form of the missing word is"
    ],
    map[
      "nomn" := "Nominative",
      "gent" := "Genitive",
      "datv" := "Dative",
      "accs" := "Accusative",
      "ablt" := "Instrumental",
      "loct" := "Prepositional"
    ],
    map[
      "sing" := "Singular",
      "plur" := "Plural"
    ])

  /** The UI table of every language: the same keys, non-empty strings. */
  ghost predicate UiWellFormed(tr: Translations) {
    && tr.ui.Keys == UiKeys
    && (forall k :: k in tr.ui ==> tr.ui[k] != "")
  }

  /** The display tables of every language: all six case codes and both
      number codes, and no display name shared by two codes, so that a name
      shown to the user identifies its code. */
  ghost predicate NamesWellFormed(tr: Translations) {
    && (forall c :: c in tr.caseNames <==> c in Models.CaseCodes)
    && (forall c :: c in tr.numberNames <==> c in Models.NumberCodes)
    && (forall a, b :: a in tr.caseNames && b in tr.caseNames && a != b ==>
          tr.caseNames[a] != tr.caseNames[b])
    && (forall a, b :: a in tr.numberNames && b in tr.numberNames && a != b ==>
          tr.numberNames[a] != tr.numberNames[b])
  }

  // Each fact below is proved on its own: together they overwhelm the solver.
  lemma EnglishUiKeys()
    ensures var tr := EnglishTranslations;
      tr.ui.Keys == UiKeys
  {
  }

  lemma EnglishUiText()
    ensures var tr := EnglishTranslations;
      forall k :: k in tr.ui ==> tr.ui[k] != ""
  {
  }

  lemma EnglishCodes()
    ensures var tr := EnglishTranslations;
      (forall c :: c in tr.caseNames <==> c in Models.CaseCodes) &&
            (forall c :: c in tr.numberNames <==> c in Models.NumberCodes)
  {
  }

  lemma EnglishCaseNamesDistinct()
    ensures var tr := EnglishTranslations;
      forall a, b :: a in tr.caseNames && b in tr.caseNames && a != b ==>
              tr.caseNames[a] != tr.caseNames[b]
  {
  }

  lemma EnglishNumberNamesDistinct()
    ensures var tr := EnglishTranslations;
      forall a, b :: a in tr.numberNames && b in tr.numberNames && a != b ==>
              tr.numberNames[a] != tr.numberNames[b]
  {
  }

  lemma RussianUiKeys()
    ensures var tr := RussianTranslations;
      tr.ui.Keys == UiKeys
  {
  }

  lemma RussianUiText()
    ensures var tr := RussianTranslations;
      forall k :: k in tr.ui ==> tr.ui[k] != ""
  {
  }

  lemma RussianCodes()
    ensures var tr := RussianTranslations;
      (forall c :: c in tr.caseNames <==> c in Models.CaseCodes) &&
            (forall c :: c in tr.numberNames <==> c in Models.NumberCodes)
  {
  }

  lemma RussianCaseNamesDistinct()
    ensures var tr := RussianTranslations;
      forall a, b :: a in tr.caseNames && b in tr.caseNames && a != b ==>
              tr.caseNames[a] != tr.caseNames[b]
  {
  }

  lemma RussianNumberNamesDistinct()
    ensures var tr := RussianTranslations;
      forall a, b :: a in tr.numberNames && b in tr.numberNames && a != b ==>
              tr.numberNames[a] != tr.numberNames[b]
  {
  }

  lemma EnglishWellFormed()
    ensures UiWellFormed(EnglishTranslations) && NamesWellFormed(EnglishTranslations)
  {
    EnglishUiKeys(); EnglishUiText(); EnglishCodes();
    EnglishCaseNamesDistinct(); EnglishNumberNamesDistinct();
  }

  lemma RussianWellFormed()
    ensures UiWellFormed(RussianTranslations) && NamesWellFormed(RussianTranslations)
  {
    RussianUiKeys(); RussianUiText(); RussianCodes();
    RussianCaseNamesDistinct(); RussianNumberNamesDistinct();
  }

  /** `get_translations`: the Russian tables for "ru" and the English tables
      for every other code, supported or not. */
  function GetTranslations(lang: string): Translations {
    if lang == "ru" then RussianTranslations else EnglishTranslations
  }

  /** The Russian tables exactly for "ru"; the English ones for every other
      code, including codes the application does not support. */
  lemma TranslationsByLanguage(lang: string)
    ensures GetTranslations(lang) == RussianTranslations <==> lang == "ru"
    ensures GetTranslations(lang) == EnglishTranslations <==> lang != "ru"
  {
    assert RussianTranslations.caseNames["gent"] != EnglishTranslations.caseNames["gent"];
  }

  /** Whatever the code, the tables cover the same UI keys, all six case
      codes and both number codes, with non-empty UI strings and distinct
      display names. */
  lemma TranslationsWellFormed(lang: string)
    ensures UiWellFormed(GetTranslations(lang)) && NamesWellFormed(GetTranslations(lang))
  {
    EnglishWellFormed();
    RussianWellFormed();
  }

  /** The display tables of the lexicon store (models.py) and of the
      translation table (utils.py) are written out separately; for every
      language code they agree. */
  lemma DrillOptionsMatchTranslations(data: Models.DrillData, lang: string)
    ensures data.GetCaseOptions(lang) == GetTranslations(lang).caseNames
    ensures data.GetNumberOptions(lang) == GetTranslations(lang).numberNames
  {
  }

  // ---------------------------------------------------------------------
  // answer verification

  /** `s.strip().lower()`. */
  function Normalize(s: string): string {
    Lower(Strip(s))
  }

  /** The verdict of `get_feedback`: equal after stripping and lower-casing. */
  predicate IsCorrect(userInput: string, correctAnswer: string) {
    Normalize(userInput) == Normalize(correctAnswer)
  }

  /** The message for a right answer: English for "en", Russian otherwise. */
  function CorrectMessage(lang: string): string {
    if lang == "en" then "Correct!" else "Правильно!"
  }

  /** The message for a wrong answer, which reveals `answer` verbatim. */
  function IncorrectMessage(lang: string, answer: string): string {
    if lang == "en" then "Incorrect. The correct answer is " + answer + "."
    else "Неверно. Правильный ответ: " + answer + "."
  }

  /** A feedback message in English. */
  ghost predicate IsEnglish(msg: string) {
    msg == "Correct!" || (|msg| >= 10 && msg[..10] == "Incorrect.")
  }

  lemma MessagesDiffer(lang: string, answer: string)
    ensures IncorrectMessage(lang, answer) != CorrectMessage(lang)
    ensures IsEnglish(CorrectMessage(lang)) <==> lang == "en"
    ensures IsEnglish(IncorrectMessage(lang, answer)) <==> lang == "en"
  {
    var m := IncorrectMessage(lang, answer);
    if lang == "en" {
      assert |m| > |CorrectMessage(lang)|;
      assert m[..10] == "Incorrect.";
    } else {
      assert |m| > |CorrectMessage(lang)|;
      assert m[0] == 'Н';
      assert m[..10][0] != "Incorrect."[0];
    }
  }

  /** `get_feedback`. The message is the "correct" one exactly when the two
      answers agree after stripping and lower-casing; a miss quotes the
      expected answer as given, unstripped; the message is English exactly
      when the code is "en" (the opposite default to GetTranslations). */
  function GetFeedback(userInput: string, correctAnswer: string, lang: string): (msg: string)
    ensures msg == CorrectMessage(lang) <==> IsCorrect(userInput, correctAnswer)
    ensures !IsCorrect(userInput, correctAnswer) ==> Contains(msg, correctAnswer)
    ensures IsEnglish(msg) <==> lang == "en"
  {
    MessagesDiffer(lang, correctAnswer);
    ContainsMiddle("Incorrect. The correct answer is ", correctAnswer, ".");
    ContainsMiddle("Неверно. Правильный ответ: ", correctAnswer, ".");
    if IsCorrect(userInput, correctAnswer) then CorrectMessage(lang)
    else IncorrectMessage(lang, correctAnswer)
  }

  /** Any answer matches itself. */
  lemma FeedbackReflexive(answer: string, lang: string)
    ensures GetFeedback(answer, answer, lang) == CorrectMessage(lang)
  {
  }

  /** Leading and trailing whitespace on either answer does not change the
      verdict. */
  lemma {:induction false} VerdictIgnoresPadding(
    userInput: string, correctAnswer: string, w1: string, w2: string, w3: string, w4: string)
    requires AllIn(w1, Whitespace) && AllIn(w2, Whitespace)
    requires AllIn(w3, Whitespace) && AllIn(w4, Whitespace)
    ensures IsCorrect(w1 + userInput + w2, w3 + correctAnswer + w4) <==>
            IsCorrect(userInput, correctAnswer)
  {
    StripPadded(w1, userInput, w2);
    StripPadded(w3, correctAnswer, w4);
  }

  /** Answers that lower-case to the same string get the same verdict. */
  lemma {:induction false} VerdictIgnoresLetterCase(u1: string, u2: string, correctAnswer: string)
    requires Lower(u1) == Lower(u2)
    ensures IsCorrect(u1, correctAnswer) <==> IsCorrect(u2, correctAnswer)
  {
    StripLower(u1);
    StripLower(u2);
  }

  /** Lower-casing either answer beforehand does not change the verdict. */
  lemma {:induction false} VerdictIgnoresLowering(userInput: string, correctAnswer: string)
    ensures IsCorrect(Lower(userInput), correctAnswer) <==> IsCorrect(userInput, correctAnswer)
    ensures IsCorrect(userInput, Lower(correctAnswer)) <==> IsCorrect(userInput, correctAnswer)
  {
    LowerIdempotent(userInput);
    LowerIdempotent(correctAnswer);
    VerdictIgnoresLetterCase(Lower(userInput), userInput, correctAnswer);
    VerdictIgnoresLetterCase(Lower(correctAnswer), correctAnswer, userInput);
  }

  lemma LowerDom()
    ensures Lower("Дом") == Lower("дом")
  {
    var a, b := Lower("Дом"), Lower("дом");
    assert a[0] == LowerChar('Д') == 'д';
    assert b[0] == LowerChar('д') == 'д';
    assert a[1] == b[1] && a[2] == b[2];
  }

  lemma SpacePadding()
    ensures AllIn(" ", Whitespace) && AllIn([], Whitespace)
  {
  }

  /** A padded, capitalised Cyrillic answer is accepted. */
  lemma {:induction false} PaddedCapitalisedAnswer()
    ensures IsCorrect(" Дом ", "дом")
  {
    assert " Дом " == " " + "Дом" + " ";
    assert "дом" == [] + "дом" + [];
    SpacePadding();
    VerdictIgnoresPadding("Дом", "дом", " ", " ", [], []);
    LowerDom();
    VerdictIgnoresLetterCase("Дом", "дом", "дом");
  }

  /** A code the session setter would refuse gets an English UI but Russian
      feedback; the two supported codes get UI and feedback in one language. */
  lemma LanguageDefaults(lang: string, userInput: string, correctAnswer: string)
    ensures lang != "en" && lang != "ru" ==>
            GetTranslations(lang) == EnglishTranslations &&
            !IsEnglish(GetFeedback(userInput, correctAnswer, lang))
    ensures lang == "en" || lang == "ru" ==>
            (GetTranslations(lang) == EnglishTranslations <==>
             IsEnglish(GetFeedback(userInput, correctAnswer, lang)))
  {
    TranslationsByLanguage(lang);
  }

  // ---------------------------------------------------------------------
  // question generation

  /** A forward-drill question: the noun, the target case and number codes,
      and the expected answer. */
  datatype Question = Question(noun: string, caseCode: string, numberCode: string, inflected: string)

  /** `p = morph.parse(noun)[0]; p.inflect({case, number})`, with "Error"
      standing for an inflection the analyser cannot produce. */
  function InflectOrError(morph: Morph.Analyzer, noun: string, caseCode: string, numberCode: string): (word: string)
    ensures var form := morph.parse(noun).inflect({caseCode, numberCode});
      && (form.Some? ==> word == form.value)
      && (form.None? ==> word == "Error")
  {
    match morph.parse(noun).inflect({caseCode, numberCode})
    case Some(word) => word
    case None => "Error"
  }

  /** `generate_question`, with the three random draws made explicit. The
      noun is the one given, else one of the lexicon store's, else one of the
      built-in list (the same ten nouns as the store's fallback). The case
      comes from the selection, or is "gent" when nothing is selected; the
      number likewise, defaulting to "sing". The answer is the analyser's
      inflection of that noun to that case and number, or "Error". */
  function GenerateQuestion(
    morph: Morph.Analyzer, selectedCases: seq<string>, selectedNumbers: seq<string>,
    noun: Option<string>, drillData: Models.DrillData?,
    nounDraw: nat, caseDraw: nat, numberDraw: nat): (q: Question)
    requires noun.None? && drillData != null ==> drillData.topNouns != []
    ensures noun.Some? ==> q.noun == noun.value
    ensures noun.None? && drillData != null ==> q.noun in drillData.topNouns
    ensures noun.None? && drillData == null ==> q.noun in Models.FallbackNouns
    ensures selectedCases == [] ==> q.caseCode == "gent"
    ensures selectedCases != [] ==> q.caseCode in selectedCases
    ensures selectedNumbers == [] ==> q.numberCode == "sing"
    ensures selectedNumbers != [] ==> q.numberCode in selectedNumbers
    ensures var form := morph.parse(q.noun).inflect({q.caseCode, q.numberCode});
      q.inflected == if form.Some? then form.value else "Error"
  {
    var chosen :=
      if noun.Some? then noun.value
      else if drillData != null then drillData.GetRandomNoun(nounDraw)
      else Pick(Models.FallbackNouns, nounDraw);
    var caseCode := if selectedCases != [] then Pick(selectedCases, caseDraw) else "gent";
    var numberCode := if selectedNumbers != [] then Pick(selectedNumbers, numberDraw) else "sing";
    Question(chosen, caseCode, numberCode, InflectOrError(morph, chosen, caseCode, numberCode))
  }
}
