/** The lexicon store (`DrillData` in models.py): the case and number code
    tables, the noun list and the fill-in-the-blank sentence bank. */
module Models {
  import opened Basics

  /** The case codes, in the order `case_options` lists them. */
  const CaseCodes: seq<string> := ["nomn", "gent", "datv", "accs", "ablt", "loct"]

  /** The number codes, in the order `number_options` lists them. */
  const NumberCodes: seq<string> := ["sing", "plur"]

  const EnglishCaseNames: map<string, string> := map[
    "nomn" := "Nominative",
    "gent" := "Genitive",
    "datv" := "Dative",
    "accs" := "Accusative",
    "ablt" := "Instrumental",
    "loct" := "Prepositional"
  ]

  const EnglishNumberNames: map<string, string> := map[
    "sing" := "Singular",
    "plur" := "Plural"
  ]

  const RussianCaseNames: map<string, string> := map[
    "nomn" := "Именительный",
    "gent" := "Родительный",
    "datv" := "Дательный",
    "accs" := "Винительный",
    "ablt" := "Творительный",
    "loct" := "Предложный"
  ]

  const RussianNumberNames: map<string, string> := map[
    "sing" := "Единственное число",
    "plur" := "Множественное число"
  ]

  /** The built-in noun list used when the noun file cannot be read. */
  const FallbackNouns: seq<string> := [
    "слово", "человек", "время", "дело", "жизнь",
    "день", "рука", "работа", "место", "право"
  ]

  /** One entry of the sentence bank: a sentence and the 1-based position of
      the word to blank out. */
  datatype SentenceEntry = SentenceEntry(sentence: string, wordIndex: int)

  /** The sentence bank: case code to its sentences. */
  type SentenceBank = map<string, seq<SentenceEntry>>

  /** What opening and decoding a data file gave: the top-level JSON object,
      or a failure (file not found, or not valid JSON). */
  datatype FileLoad<T> = LoadFailed | Loaded(doc: map<string, T>)

  /** `_load_nouns`: the `top_nouns` entry of the file, `[]` when the entry
      is missing, the built-in list when the file cannot be loaded. The list
      is empty exactly when a readable file holds no nouns. */
  function LoadNouns(file: FileLoad<seq<string>>): (nouns: seq<string>)
    ensures file.LoadFailed? ==> nouns == FallbackNouns
    ensures file.Loaded? && "top_nouns" in file.doc ==> nouns == file.doc["top_nouns"]
    ensures nouns == [] <==>
            file.Loaded? && ("top_nouns" in file.doc ==> file.doc["top_nouns"] == [])
  {
    match file
    case LoadFailed => FallbackNouns
    case Loaded(doc) => if "top_nouns" in doc then doc["top_nouns"] else []
  }

  /** `_load_sentences`: the `insert_sentences` entry of the file, `{}` when
      the entry is missing or the file cannot be loaded. */
  function LoadSentences(file: FileLoad<SentenceBank>): (bank: SentenceBank)
    ensures file.Loaded? && "insert_sentences" in file.doc ==> bank == file.doc["insert_sentences"]
    ensures bank == map[] <==>
            file.LoadFailed? || "insert_sentences" !in file.doc || file.doc["insert_sentences"] == map[]
  {
    match file
    case LoadFailed => map[]
    case Loaded(doc) => if "insert_sentences" in doc then doc["insert_sentences"] else map[]
  }

  /** The lexicon store. Every field is set once, when the object is built,
      and never changed afterwards: all operations below only read them. */
  class DrillData {
    const caseOptions: map<string, string> := EnglishCaseNames
    const numberOptions: map<string, string> := EnglishNumberNames
    const topNouns: seq<string>
    const insertSentences: SentenceBank

    /** `__init__`, with the outcome of reading the two data files given. */
    constructor (nounsFile: FileLoad<seq<string>>, sentencesFile: FileLoad<SentenceBank>)
      ensures topNouns == LoadNouns(nounsFile)
      ensures insertSentences == LoadSentences(sentencesFile)
    {
      topNouns := LoadNouns(nounsFile);
      insertSentences := LoadSentences(sentencesFile);
    }

    /** `get_case_options`: Russian names for "ru", the English field for
        every other code; always over the six case codes. */
    function GetCaseOptions(lang: string): (names: map<string, string>)
      ensures forall c :: c in names <==> c in CaseCodes
      ensures lang == "ru" ==> names == RussianCaseNames
      ensures lang != "ru" ==> names == caseOptions
    {
      if lang == "ru" then RussianCaseNames else caseOptions
    }

    /** `get_number_options`: as GetCaseOptions, over the two number codes. */
    function GetNumberOptions(lang: string): (names: map<string, string>)
      ensures forall c :: c in names <==> c in NumberCodes
      ensures lang == "ru" ==> names == RussianNumberNames
      ensures lang != "ru" ==> names == numberOptions
    {
      if lang == "ru" then RussianNumberNames else numberOptions
    }

    /** `get_random_noun`. `random.choice` raises on an empty list. */
    function GetRandomNoun(draw: nat): (noun: string)
      requires topNouns != []
      ensures noun in topNouns
    {
      Pick(topNouns, draw)
    }

    /** `get_random_sentence`, with the randomly chosen case key `caseKey`
        and the draw that picks a sentence of it. An empty bank gives the
        sentinel `("", {})`, here `("", None)`; otherwise the drawn case and
        one of its sentences. */
    function GetRandomSentence(caseKey: string, draw: nat): (r: (string, Option<SentenceEntry>))
      requires insertSentences != map[] ==>
               caseKey in insertSentences && insertSentences[caseKey] != []
      ensures r == ("", None) <==> insertSentences == map[]
      ensures r.1.Some? <==> insertSentences != map[]
      ensures r.1.Some? ==> r.0 == caseKey && r.1.value in insertSentences[caseKey]
    {
      if insertSentences == map[] then ("", None)
      else (caseKey, Some(Pick(insertSentences[caseKey], draw)))
    }
  }
}
