/** The request handlers (routes.py), each a function of what it extracts
    from the request: the HTTP verb, the submitted form, the session's
    language entry and the random draws. Rendering a template is modelled as
    returning the values handed to it; an exception the handler would raise
    is returned as a Fault. */
module Routes {
  import opened Basics
  import opened Text
  import Morph
  import Models
  import Utils

  // ---------------------------------------------------------------------
  // session language

  /** The language codes `set_language` accepts. */
  const SupportedLanguages: set<string> := {"en", "ru"}

  /** `session.get('lang', 'en')`: an absent entry reads as English. */
  function SessionLanguage(stored: Option<string>): (lang: string)
    ensures stored.None? ==> lang == "en"
    ensures stored.Some? ==> lang == stored.value
  {
    stored.GetOr("en")
  }

  /** The per-user session, reduced to the one key the trainer uses. */
  class Session {
    var lang: Option<string>

    /** Only codes that SetLanguage accepts are ever stored. */
    ghost predicate Valid()
      reads this
    {
      lang.Some? ==> lang.value in SupportedLanguages
    }

    constructor ()
      ensures lang == None && Valid()
    {
      lang := None;
    }

    /** `set_language`: stores a supported code and ignores any other, which
        leaves the stored preference as it was. */
    method SetLanguage(code: string)
      modifies this
      ensures code in SupportedLanguages ==> lang == Some(code)
      ensures code !in SupportedLanguages ==> lang == old(lang)
      ensures old(Valid()) ==> Valid()
    {
      if code in SupportedLanguages {
        lang := Some(code);
      }
    }

    /** The language every handler works in: always a supported one. */
    function Language(): (l: string)
      reads this
      ensures Valid() ==> l in SupportedLanguages
      ensures lang.None? ==> l == "en"
    {
      SessionLanguage(lang)
    }
  }

  /** Whenever the session language was set through `set_language`, the UI
      tables and the feedback messages are in the same language. */
  lemma {:induction false} SessionLanguagesAgree(s: Session, userInput: string, correctAnswer: string)
    requires s.Valid()
    ensures Utils.GetTranslations(s.Language()) == Utils.EnglishTranslations <==>
            Utils.IsEnglish(Utils.GetFeedback(userInput, correctAnswer, s.Language()))
  {
    var lang := s.Language();
    assert lang == "en" || lang == "ru";
    Utils.LanguageDefaults(lang, userInput, correctAnswer);
  }

  // ---------------------------------------------------------------------
  // requests

  datatype HttpMethod = GET | POST

  /** The submitted form: each field name with the values sent under it. */
  type Form = map<string, seq<string>>

  /** `request.form.get(key)`: the first value sent under the name. */
  function FormGet(form: Form, key: string): Option<string> {
    if key in form && form[key] != [] then Some(form[key][0]) else None
  }

  /** `request.form.getlist(key)`. */
  function FormGetList(form: Form, key: string): seq<string> {
    if key in form then form[key] else []
  }

  /** The exceptions a handler can end in. */
  datatype Fault =
    | AttributeError               // `.strip()` called on a missing form value
    | UnboundLocalError(name: string)  // a template argument never assigned
    | IndexError                   // a list index out of range

  /** The random draws of one request. */
  datatype Draws = Draws(noun: nat, caseCode: nat, numberCode: nat)

  // ---------------------------------------------------------------------
  // forward drill

  /** What the forward drill hands to its template. */
  datatype ForwardView = ForwardView(
    question: Option<string>,
    correctAnswer: Option<string>,
    feedback: Option<string>,
    submittedAnswer: string,
    selectedCases: seq<string>,
    selectedNumbers: seq<string>,
    currentCase: Option<string>,
    currentNumber: Option<string>,
    caseOptions: map<string, string>,
    numberOptions: map<string, string>,
    ui: map<string, string>,
    lang: string)

  /** An empty selection becomes the one-element default. */
  function OrDefault(selected: seq<string>, default: string): (chosen: seq<string>)
    ensures chosen != []
    ensures selected != [] ==> chosen == selected
    ensures selected == [] ==> chosen == [default]
  {
    if selected == [] then [default] else selected
  }

  /** A freshly asked forward question, from selections already defaulted:
      a noun of the store, a case and a number from the selections, and the
      analyser's inflection (or "Error") as the expected answer. */
  function AskForward(
    cases: seq<string>, numbers: seq<string>, lang: string,
    data: Models.DrillData, morph: Morph.Analyzer, draws: Draws): (v: ForwardView)
    requires cases != [] && numbers != [] && data.topNouns != []
    ensures v.feedback == None && v.submittedAnswer == "" && v.lang == lang
    ensures v.selectedCases == cases && v.selectedNumbers == numbers
    ensures v.question.Some? && v.question.value in data.topNouns
    ensures v.currentCase.Some? && v.currentCase.value in cases
    ensures v.currentNumber.Some? && v.currentNumber.value in numbers
    ensures v.correctAnswer == Some(Utils.InflectOrError(
              morph, v.question.value, v.currentCase.value, v.currentNumber.value))
  {
    var q := Utils.GenerateQuestion(
      morph, cases, numbers, None, data, draws.noun, draws.caseCode, draws.numberCode);
    ForwardView(
      Some(q.noun), Some(q.inflected), None, "", cases, numbers,
      Some(q.caseCode), Some(q.numberCode),
      data.GetCaseOptions(lang), data.GetNumberOptions(lang), Utils.GetTranslations(lang).ui, lang)
  }

  /** A forward-drill submission: the answer and the expected answer come
      back from the form, and a missing one makes `get_feedback` fail. */
  function JudgeForward(
    form: Form, cases: seq<string>, numbers: seq<string>, lang: string,
    data: Models.DrillData): (r: Result<ForwardView, Fault>)
    ensures var answer, expected := FormGet(form, "answer"), FormGet(form, "correct_answer");
      && (r.Ok? <==> answer.Some? && expected.Some?)
      && (r.Err? ==> r.error == AttributeError)
      && (r.Ok? ==> r.value.feedback.Some? && r.value.submittedAnswer == answer.value &&
                    r.value.lang == lang && r.value.selectedCases == cases &&
                    r.value.selectedNumbers == numbers)
      && (r.Ok? ==> (r.value.feedback.value == Utils.CorrectMessage(lang) <==>
                     Utils.IsCorrect(answer.value, expected.value)))
      && (r.Ok? ==> r.value.feedback == Some(Utils.GetFeedback(answer.value, expected.value, lang)))
      && (r.Ok? ==> r.value.question == FormGet(form, "question") && r.value.correctAnswer == expected &&
                    r.value.currentCase == FormGet(form, "current_case") &&
                    r.value.currentNumber == FormGet(form, "current_number"))
  {
    var answer, expected := FormGet(form, "answer"), FormGet(form, "correct_answer");
    if answer.None? || expected.None? then Err(AttributeError)
    else
      Ok(ForwardView(
        FormGet(form, "question"), expected,
        Some(Utils.GetFeedback(answer.value, expected.value, lang)), answer.value,
        cases, numbers, FormGet(form, "current_case"), FormGet(form, "current_number"),
        data.GetCaseOptions(lang), data.GetNumberOptions(lang), Utils.GetTranslations(lang).ui, lang))
  }

  /** `forward_drill`. A GET always asks a genitive singular question; a
      POST "next" asks one from the ticked cases and numbers (genitive and
      singular when none is ticked); a POST "submit" judges the answer
      against the expected one the form carries back; any other POST fails
      on an unassigned template argument. Asking a question from an empty
      noun list fails in `random.choice`. */
  function ForwardDrill(
    verb: HttpMethod, form: Form, stored: Option<string>,
    data: Models.DrillData, morph: Morph.Analyzer, draws: Draws): (r: Result<ForwardView, Fault>)
    ensures r.Ok? ==> r.value.lang == SessionLanguage(stored)
    ensures r.Ok? ==> r.value.selectedCases != [] && r.value.selectedNumbers != []
    ensures verb == GET || (verb == POST && FormGet(form, "action") == Some("next")) ==>
      && (r.Ok? <==> data.topNouns != [])
      && (r.Err? ==> r.error == IndexError)
    ensures verb == GET && r.Ok? ==>
      && r.value.selectedCases == ["gent"] && r.value.selectedNumbers == ["sing"]
      && r.value.currentCase == Some("gent") && r.value.currentNumber == Some("sing")
      && r.value.feedback == None
    ensures verb == POST && r.Ok? ==>
      && (FormGetList(form, "cases") == [] ==> r.value.selectedCases == ["gent"])
      && (FormGetList(form, "cases") != [] ==> r.value.selectedCases == FormGetList(form, "cases"))
      && (FormGetList(form, "numbers") == [] ==> r.value.selectedNumbers == ["sing"])
      && (FormGetList(form, "numbers") != [] ==> r.value.selectedNumbers == FormGetList(form, "numbers"))
    ensures verb == POST && FormGet(form, "action") == Some("next") && r.Ok? ==>
      && r.value.feedback == None
      && r.value.currentCase.Some? && r.value.currentCase.value in r.value.selectedCases
      && r.value.currentNumber.Some? && r.value.currentNumber.value in r.value.selectedNumbers
    ensures r.Ok? && r.value.feedback.None? ==>
      && r.value.question.Some? && r.value.question.value in data.topNouns
      && r.value.currentCase.Some? && r.value.currentNumber.Some?
      && r.value.correctAnswer == Some(Utils.InflectOrError(
           morph, r.value.question.value, r.value.currentCase.value, r.value.currentNumber.value))
    ensures verb == POST && FormGet(form, "action") == Some("submit") ==>
      var answer, expected := FormGet(form, "answer"), FormGet(form, "correct_answer");
      && (r.Ok? <==> answer.Some? && expected.Some?)
      && (r.Ok? ==> r.value.feedback.Some? && r.value.submittedAnswer == answer.value)
      && (r.Ok? ==> (r.value.feedback.value == Utils.CorrectMessage(r.value.lang) <==>
                     Utils.IsCorrect(answer.value, expected.value)))
      && (r.Ok? ==> r.value.feedback == Some(Utils.GetFeedback(answer.value, expected.value, r.value.lang)))
      && (r.Err? ==> r.error == AttributeError)
    ensures verb == POST && FormGet(form, "action") != Some("submit") &&
            FormGet(form, "action") != Some("next") ==>
      r == Err(UnboundLocalError("question"))
  {
    var lang := SessionLanguage(stored);
    var cases := OrDefault(FormGetList(form, "cases"), "gent");
    var numbers := OrDefault(FormGetList(form, "numbers"), "sing");
    if verb == POST then
      var action := FormGet(form, "action");
      if action == Some("submit") then JudgeForward(form, cases, numbers, lang, data)
      else if action != Some("next") then Err(UnboundLocalError("question"))
      else if data.topNouns == [] then Err(IndexError)
      else Ok(AskForward(cases, numbers, lang, data, morph, draws))
    else if data.topNouns == [] then Err(IndexError)
    else Ok(AskForward(["gent"], ["sing"], lang, data, morph, draws))
  }

  // ---------------------------------------------------------------------
  // backward drill

  /** What the backward drill hands to its template. */
  datatype BackwardView = BackwardView(
    inflectedWord: string,
    feedback: Option<string>,
    submittedAnswer: string,
    currentCase: string,
    currentNumber: string,
    possibleCases: map<string, string>,
    possibleNumbers: map<string, string>,
    ui: map<string, string>,
    lang: string)

  /** `str(value)` of a form value: a missing one becomes "None". */
  function Str(value: Option<string>): (shown: string)
    ensures value.None? ==> shown == "None"
    ensures value.Some? ==> shown == value.value
  {
    value.GetOr("None")
  }

  /** `names.get(code, code)`: the display name, or the raw code. */
  function DisplayName(names: map<string, string>, code: string): (shown: string)
    ensures code in names ==> shown == names[code]
    ensures code !in names ==> shown == code
  {
    if code in names then names[code] else code
  }

  /** The feedback message and the echo of the user's choice. */
  datatype Verdict = Verdict(feedback: string, submittedAnswer: string)

  /** The backward-drill verdict. It is correct exactly when both the case
      and the number code match the hidden ones; otherwise the message names
      the hidden pair by display name (the raw code when it has none), and the
      user's own pair is echoed the same way. */
  function BackwardVerdict(
    userCase: string, userNumber: string, hiddenCase: string, hiddenNumber: string,
    lang: string, caseNames: map<string, string>, numberNames: map<string, string>): (v: Verdict)
    ensures v.feedback == Utils.CorrectMessage(lang) <==>
            userCase == hiddenCase && userNumber == hiddenNumber
    ensures v.feedback == Utils.CorrectMessage(lang) ==> v.submittedAnswer == ""
    ensures v.feedback != Utils.CorrectMessage(lang) ==>
      && Contains(v.feedback, DisplayName(caseNames, hiddenCase) + " / " + DisplayName(numberNames, hiddenNumber))
      && v.submittedAnswer == DisplayName(caseNames, userCase) + " / " + DisplayName(numberNames, userNumber)
    ensures Utils.IsEnglish(v.feedback) <==> lang == "en"
  {
    var expected := DisplayName(caseNames, hiddenCase) + " / " + DisplayName(numberNames, hiddenNumber);
    Utils.MessagesDiffer(lang, expected);
    ContainsMiddle("Incorrect. The correct answer is ", expected, ".");
    ContainsMiddle("Неверно. Правильный ответ: ", expected, ".");
    if userCase == hiddenCase && userNumber == hiddenNumber then
      Verdict(Utils.CorrectMessage(lang), "")
    else
      Verdict(Utils.IncorrectMessage(lang, expected),
              DisplayName(caseNames, userCase) + " / " + DisplayName(numberNames, userNumber))
  }

  /** `backward_drill`. Every request asks a fresh question: a noun of the
      store inflected to a random case and number (an empty noun list fails
      in `random.choice`). A POST "submit" judges the submitted pair against
      the hidden pair the form carries back, not against the fresh question. */
  function BackwardDrill(
    verb: HttpMethod, form: Form, stored: Option<string>,
    data: Models.DrillData, morph: Morph.Analyzer, draws: Draws): (r: Result<BackwardView, Fault>)
    ensures r.Ok? <==> data.topNouns != []
    ensures r.Err? ==> r.error == IndexError
    ensures r.Ok? ==>
      var v := r.value;
      && v.lang == SessionLanguage(stored)
      && v.currentCase in Models.CaseCodes && v.currentNumber in Models.NumberCodes
      && (exists noun :: noun in data.topNouns &&
            v.inflectedWord == Utils.InflectOrError(morph, noun, v.currentCase, v.currentNumber))
      && v.possibleCases == data.GetCaseOptions(v.lang)
      && v.possibleNumbers == data.GetNumberOptions(v.lang)
    ensures r.Ok? && verb == POST && FormGet(form, "action") == Some("submit") ==>
      && r.value.feedback.Some?
      && (r.value.feedback.value == Utils.CorrectMessage(r.value.lang) <==>
          Str(FormGet(form, "selected_case")) == Str(FormGet(form, "current_case")) &&
          Str(FormGet(form, "selected_number")) == Str(FormGet(form, "current_number")))
    ensures r.Ok? && verb == POST && FormGet(form, "action") == Some("submit") ==>
      var lang := r.value.lang;
      var verdict := BackwardVerdict(
        Str(FormGet(form, "selected_case")), Str(FormGet(form, "selected_number")),
        Str(FormGet(form, "current_case")), Str(FormGet(form, "current_number")),
        lang, data.GetCaseOptions(lang), data.GetNumberOptions(lang));
      r.value.feedback == Some(verdict.feedback) && r.value.submittedAnswer == verdict.submittedAnswer
    ensures r.Ok? && !(verb == POST && FormGet(form, "action") == Some("submit")) ==>
      r.value.feedback == None && r.value.submittedAnswer == ""
  {
    if data.topNouns == [] then Err(IndexError)
    else
      var lang := SessionLanguage(stored);
      var tr := Utils.GetTranslations(lang);
      var noun := data.GetRandomNoun(draws.noun);
      var correctCase := Pick(Models.CaseCodes, draws.caseCode);
      var correctNumber := Pick(Models.NumberCodes, draws.numberCode);
      var inflected := Utils.InflectOrError(morph, noun, correctCase, correctNumber);
      var caseOptions := data.GetCaseOptions(lang);
      var numberOptions := data.GetNumberOptions(lang);
      if verb == POST && FormGet(form, "action") == Some("submit") then
        var verdict := BackwardVerdict(
          Str(FormGet(form, "selected_case")), Str(FormGet(form, "selected_number")),
          Str(FormGet(form, "current_case")), Str(FormGet(form, "current_number")),
          lang, caseOptions, numberOptions);
        Ok(BackwardView(inflected, Some(verdict.feedback), verdict.submittedAnswer,
                        correctCase, correctNumber, caseOptions, numberOptions, tr.ui, lang))
      else
        Ok(BackwardView(inflected, None, "", correctCase, correctNumber,
                        caseOptions, numberOptions, tr.ui, lang))
  }

  // ---------------------------------------------------------------------
  // insert drill

  /** The marker that replaces the target word. */
  const Blank: string := "_____"

  /** The characters stripped from both ends of the target word. */
  const Punctuation: set<char> := {'.', ',', '!', '?'}

  /** A fill-in-the-blank question: the sentence with its blank, the
      expected word and that word's dictionary form. */
  datatype InsertQuestion = InsertQuestion(blankSentence: string, correctWord: string, normalForm: string)

  /** How Python reads index `i` of a list of length `n`: a negative index
      counts from the end. */
  function PyIndex(i: int, n: nat): int {
    if i < 0 then i + n else i
  }

  /** `q` blanks the token at position `p` of the sentence: the blank
      sentence is the whitespace tokens joined by single spaces with token
      `p` replaced by the marker, the expected word is that token with
      punctuation stripped from both ends, and its dictionary form comes from
      the analyser, unless the word is empty. */
  ghost predicate BlanksAt(sentence: string, p: int, morph: Morph.Analyzer, q: InsertQuestion) {
    var words := Split(sentence);
    && 0 <= p < |words|
    && q.blankSentence == Join(words[p := Blank])
    && Split(q.blankSentence) == words[p := Blank]
    && q.correctWord == StripChars(words[p], Punctuation)
    && q.normalForm == (if q.correctWord == "" then "" else morph.parse(q.correctWord).normalForm)
  }

  /** The question-building part of `insert_drill` for one bank entry. The
      1-based index selects a token; an index of 0 or below selects counting
      from the end, as Python's negative indexing does. An index past the last
      token passes the guard that yields an empty target word, but the blank
      assignment then raises IndexError; so does an index before the first
      token. */
  method BlankOut(entry: Models.SentenceEntry, morph: Morph.Analyzer) returns (r: Result<InsertQuestion, Fault>)
    ensures var n := |Split(entry.sentence)|;
      && (r.Ok? <==> -n < entry.wordIndex <= n)
      && (r.Err? ==> r.error == IndexError)
      && (r.Ok? ==> BlanksAt(entry.sentence, PyIndex(entry.wordIndex - 1, n), morph, r.value))
  {
    var words := Split(entry.sentence);
    var i := entry.wordIndex - 1;
    var missingWord: string;
    if i < |words| {
      if i < -|words| {
        return Err(IndexError);
      }
      missingWord := words[PyIndex(i, |words|)];
    } else {
      missingWord := "";
    }
    var strippedWord := StripChars(missingWord, Punctuation);
    var normalForm := if strippedWord != "" then morph.parse(strippedWord).normalForm else "";
    if !(-|words| <= i < |words|) {
      return Err(IndexError);
    }
    var p := PyIndex(i, |words|);
    BlankKeepsTokens(words, p);
    words := words[p := Blank];
    var blankSentence := Join(words);
    r := Ok(InsertQuestion(blankSentence, strippedWord, normalForm));
  }

  /** Replacing one token by the marker leaves a list that `split()` gives
      back unchanged from its single-space join. */
  lemma BlankKeepsTokens(words: seq<string>, p: int)
    requires forall i :: 0 <= i < |words| ==> IsToken(words[i])
    requires 0 <= p < |words|
    ensures Split(Join(words[p := Blank])) == words[p := Blank]
  {
    assert IsToken(Blank);
    SplitJoin(words[p := Blank]);
  }

  /** Putting the target token back in place of the blank gives the
      sentence's tokens again, joined by single spaces; every other token
      of the blank sentence is the original one, in its original place. */
  lemma {:induction false} RestoreBlank(sentence: string, p: int, morph: Morph.Analyzer, q: InsertQuestion)
    requires BlanksAt(sentence, p, morph, q)
    ensures var words, shown := Split(sentence), Split(q.blankSentence);
      && |shown| == |words|
      && shown[p] == Blank
      && (forall k :: 0 <= k < |words| && k != p ==> shown[k] == words[k])
      && Join(shown[p := words[p]]) == Join(words)
  {
    var words := Split(sentence);
    assert words[p := Blank][p := words[p]] == words;
  }

  /** What the insert drill hands to its template. */
  datatype InsertView = InsertView(
    blankSentence: Option<string>,
    normalForm: Option<string>,
    feedback: Option<string>,
    correctWord: Option<string>,
    submittedAnswer: string,
    ui: map<string, string>,
    lang: string)

  /** The notice shown when the sentence bank is empty. */
  const NoSentences: string := "No sentences available."

  /** `insert_drill`. A GET or a POST "next" draws a sentence and blanks
      it (an empty bank gives the notice with empty word and dictionary form);
      a POST "submit" judges the answer against the expected word the form
      carries back; any other POST fails on an unassigned template argument.
      `caseKey` is the randomly chosen key of a non-empty bank; drawing a
      sentence from an empty list under it fails in `random.choice`. */
  method InsertDrill(
    verb: HttpMethod, form: Form, stored: Option<string>, data: Models.DrillData,
    morph: Morph.Analyzer, caseKey: string, draw: nat) returns (r: Result<InsertView, Fault>)
    requires (verb == GET || FormGet(form, "action") == Some("next")) && data.insertSentences != map[] ==>
             caseKey in data.insertSentences
    ensures r.Ok? ==> r.value.lang == SessionLanguage(stored)
    ensures r.Ok? ==> r.value.ui == Utils.GetTranslations(r.value.lang).ui
    ensures (verb == GET || FormGet(form, "action") == Some("next")) && data.insertSentences == map[] ==>
      && r.Ok?
      && r.value.blankSentence == Some(NoSentences)
      && r.value.normalForm == Some("") && r.value.correctWord == Some("")
    ensures (verb == GET || FormGet(form, "action") == Some("next")) && data.insertSentences != map[] &&
            data.insertSentences[caseKey] == [] ==>
      r == Err(IndexError)
    ensures (verb == GET || FormGet(form, "action") == Some("next")) && data.insertSentences != map[] &&
            data.insertSentences[caseKey] != [] ==>
      var entry := Pick(data.insertSentences[caseKey], draw);
      var n := |Split(entry.sentence)|;
      && (r.Ok? <==> -n < entry.wordIndex <= n)
      && (r.Err? ==> r.error == IndexError)
      && (r.Ok? ==>
            && r.value.feedback == None
            && r.value.blankSentence.Some? && r.value.correctWord.Some? && r.value.normalForm.Some?
            && BlanksAt(entry.sentence, PyIndex(entry.wordIndex - 1, n), morph,
                        InsertQuestion(r.value.blankSentence.value, r.value.correctWord.value,
                                       r.value.normalForm.value)))
    ensures verb == POST && FormGet(form, "action") == Some("submit") ==>
      var answer, expected := FormGet(form, "answer"), FormGet(form, "correct_word");
      && (r.Ok? <==> answer.Some? && expected.Some?)
      && (r.Err? ==> r.error == AttributeError)
      && (r.Ok? ==> r.value.feedback.Some? && r.value.submittedAnswer == answer.value)
      && (r.Ok? ==> (r.value.feedback.value == Utils.CorrectMessage(r.value.lang) <==>
                     Utils.IsCorrect(answer.value, expected.value)))
      && (r.Ok? ==> r.value.feedback == Some(Utils.GetFeedback(answer.value, expected.value, r.value.lang)))
      && (r.Ok? ==> r.value.correctWord == expected &&
                    r.value.blankSentence == FormGet(form, "blank_sentence") &&
                    r.value.normalForm == FormGet(form, "normal_form"))
    ensures verb == POST && FormGet(form, "action") !in {Some("submit"), Some("next")} ==>
      r == Err(UnboundLocalError("blank_sentence"))
  {
    var lang := SessionLanguage(stored);
    var tr := Utils.GetTranslations(lang);
    var action := FormGet(form, "action");
    if verb == GET || action == Some("next") {
      if data.insertSentences != map[] && data.insertSentences[caseKey] == [] {
        return Err(IndexError);
      }
      var picked := data.GetRandomSentence(caseKey, draw);
      if picked.1.None? {
        return Ok(InsertView(Some(NoSentences), Some(""), None, Some(""), "", tr.ui, lang));
      }
      var question := BlankOut(picked.1.value, morph);
      if question.Err? {
        return Err(question.error);
      }
      var q := question.value;
      r := Ok(InsertView(Some(q.blankSentence), Some(q.normalForm), None, Some(q.correctWord), "", tr.ui, lang));
    } else if action == Some("submit") {
      var answer, expected := FormGet(form, "answer"), FormGet(form, "correct_word");
      if answer.None? || expected.None? {
        return Err(AttributeError);
      }
      var feedback := Utils.GetFeedback(answer.value, expected.value, lang);
      r := Ok(InsertView(FormGet(form, "blank_sentence"), FormGet(form, "normal_form"),
                         Some(feedback), expected, answer.value, tr.ui, lang));
    } else {
      r := Err(UnboundLocalError("blank_sentence"));
    }
  }
}
