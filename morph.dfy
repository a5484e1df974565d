/** The morphological analyser (pymorphy3's `MorphAnalyzer`) as an oracle.
    Nothing about Russian morphology is modelled: an analyser is any pair of
    total functions, and every property of the trainer is proved for all of
    them. */
module Morph {
  import opened Basics

  /** One analysis of a word: its dictionary (normal) form, and its
      re-inflection to a set of grammemes such as `{"gent", "plur"}`, which
      yields the inflected word or nothing. */
  datatype Parse = Parse(normalForm: string, inflect: set<string> -> Option<string>)

  /** `morph.parse(word)[0]`: the best-ranked analysis of a word. */
  datatype Analyzer = Analyzer(parse: string -> Parse)
}
