# Russian noun cases drill — a Dafny model

The drill trainer is a small Flask application for practising Russian noun
declension. It offers three drills:

- **Forward.** Inflect a given noun to a given case and number.
- **Backward.** Name the case and number of an inflected form.
- **Insert.** Fill a blanked word back into a sentence.

The interface is in English or Russian. Around an external morphological
analyser (pymorphy3), the application has a thin layer of deterministic
rules. This project models that layer and proves properties of it:

- Answer checking and the localised feedback messages (`get_feedback`).
- The translation tables (`get_translations`).
- Question generation (`generate_question`).
- The lexicon store `DrillData`: its code tables, its loading fallbacks and
  its random selectors.
- The session-language whitelist.
- The request rules of the three drills.

The model makes these choices:

- **The analyser is an oracle** (`Morph.Analyzer`). It is any total function
  from a word to its best parse. A parse holds a normal form and a
  re-inflection that may yield nothing. Every property holds for every
  analyser.
- **Randomness is a parameter.** `random.choice(xs)` becomes
  `Basics.Pick(xs, draw)`. Each handler takes its draws as arguments.
- **Handlers are functions of what they extract from the request:**
  - the HTTP verb;
  - the submitted form, modelled as a MultiDict (field name to the list of
    values sent under it);
  - the session's language entry.

  A rendered template is the record of the values passed to it. An
  exception the handler would raise is returned as a `Routes.Fault`.
- **Python's string built-ins are written out in `Text`:** `strip()`,
  `strip(chars)`, `lower()`, `split()` and `" ".join`. The whitespace set is
  exactly the set for which `str.isspace()` holds.
- **Imperative code stays imperative.** Two parts of the source change state,
  and they are modelled that way:
  - `set_language` updates the session. It is a method of the
    `Routes.Session` class.
  - The insert drill overwrites one token of its word list. `Routes.BlankOut`
    and `Routes.InsertDrill` are methods that perform that update.
- **`DrillData` is a class whose fields are `const`.** The fields are set
  only in `__init__`, and nothing changes them afterwards.

Two points where the behaviour follows the code:

- **The insert-drill index.** The guard at `routes.py:175` lets an index
  past the last token through, and the target word then becomes empty. But
  the blank assignment at `routes.py:188` is unconditional, so such an index
  ends in IndexError. An index of 0 or below selects a token counting from
  the end, as Python's negative indexing does. `Routes.BlankOut` states
  exactly which indices succeed.
- **Stripping the target word.** `strip(".,!?")` removes those characters
  from both ends of the token, not only from its end.

## Model

| member | source | states |
|---|---|---|
| Basics.Pick | models.py:82 | `random.choice` with an explicit draw: the chosen item is an element of the non-empty list |
| Basics.PickReaches | models.py:82 | every element of the list is chosen by some draw |
| Text.StripChars | routes.py:181 | `strip(chars)` (and `Text.Strip`, which is `strip()` over the `str.isspace()` set) keeps a contiguous piece of the string; everything cut off at either end is in the set, and the piece neither starts nor ends with a member of the set |
| Text.StripPadded | utils.py:135 | whitespace added at either end of a string does not change `strip()` |
| Text.LowerChar | utils.py:135 | lower-casing a character never turns whitespace into a non-whitespace character, or the reverse |
| Text.Lower | utils.py:135 | `lower()` keeps the length, has whitespace at exactly the positions where the input has it, and yields only characters that lower-casing leaves unchanged |
| Text.LowerIdempotent | utils.py:135 | lower-casing twice is the same as lower-casing once |
| Text.StripLower | utils.py:135 | `strip()` and `lower()` commute |
| Text.WordEnd | routes.py:173 | the run of non-whitespace characters at the front of a string ends at whitespace or at the end of the string |
| Text.Split | routes.py:173 | `split()` yields only non-empty tokens without whitespace |
| Text.SplitJoin | routes.py:173-189 | splitting a single-space join (`Text.Join`, `" ".join`) of tokens gives the same tokens back |
| Utils.TranslationsByLanguage | utils.py:7-84 | `get_translations` (`Utils.GetTranslations`) gives the Russian tables exactly for "ru", and the English tables for every other code, including unsupported ones |
| Utils.TranslationsWellFormed | utils.py:21-83 | in both languages, the UI table has the same 17 keys with non-empty texts; the case table has exactly the six case codes; the number table has exactly the two number codes; no two display names within a table coincide |
| Utils.DrillOptionsMatchTranslations | models.py:58-78 | the store's display tables agree with the case and number tables of `get_translations` for every language code |
| Utils.GetFeedback | utils.py:123-140 | the message is the localised "correct" text exactly when the stripped, lower-cased answers are equal; otherwise it contains the expected answer verbatim; it is English exactly when the code is "en" |
| Utils.FeedbackReflexive | utils.py:135-136 | an answer equal to the expected one is always judged correct |
| Utils.VerdictIgnoresPadding | utils.py:135 | whitespace around either argument does not change the verdict |
| Utils.VerdictIgnoresLetterCase | utils.py:135 | two answers that lower-case to the same string get the same verdict |
| Utils.VerdictIgnoresLowering | utils.py:135 | lower-casing either argument beforehand does not change the verdict |
| Utils.PaddedCapitalisedAnswer | utils.py:135-136 | " Дом " is accepted for "дом" |
| Utils.LanguageDefaults | utils.py:135-140 | for "en" and "ru", the UI tables and the feedback are in the same language; for an unsupported code, the tables are English but the feedback is Russian (the opposite defaults of utils.py:20 and utils.py:136) |
| Utils.InflectOrError | utils.py:116-119 | the answer is the word the analyser's first parse inflects to, or "Error" when it yields none; the backward drill uses the same rule at routes.py:111-113 |
| Utils.GenerateQuestion | utils.py:86-121 | the noun is the given one, else one of the store's, else one of the ten built-in nouns; the case comes from the selection, or is "gent" when nothing is selected; the number likewise, defaulting to "sing"; the answer is the analyser's inflection or "Error" |
| Models.LoadNouns | models.py:33-45 | a missing file, or one that is not valid JSON, gives the ten built-in nouns; otherwise the file's `top_nouns` entry; the list is empty exactly when a valid file has no nouns |
| Models.LoadSentences | models.py:47-56 | a valid file gives its `insert_sentences` entry; the bank is empty exactly when the file is missing, is not valid JSON, lacks the entry or holds an empty one |
| Models.DrillData.constructor | models.py:13-31 | the noun list and the sentence bank are those the two loaders give |
| Models.DrillData.GetCaseOptions | models.py:58-69 | the table is over exactly the six case codes; it holds Russian names for "ru" and the English field for every other code |
| Models.DrillData.GetNumberOptions | models.py:71-78 | the table is over exactly the two number codes; it holds Russian names for "ru" and the English field for every other code |
| Models.DrillData.GetRandomNoun | models.py:80-82 | the noun is one of the store's nouns |
| Models.DrillData.GetRandomSentence | models.py:84-94 | the result is `("", {})` exactly when the bank is empty; otherwise it is the drawn case and one of that case's sentences |
| Routes.SessionLanguage | routes.py:33 | an absent session entry reads as "en"; a stored one is used as it is |
| Routes.Session.SetLanguage | routes.py:23-28 | "en" and "ru" are stored; any other code leaves the stored preference unchanged; only supported codes are ever stored |
| Routes.Session.Language | routes.py:43 | the language a handler works in is always a supported one |
| Routes.SessionLanguagesAgree | routes.py:23-44 | once the language was set through `set_language`, the UI tables and the feedback messages are in the same language |
| Routes.OrDefault | routes.py:51-54 | an empty selection becomes the one-element default; a non-empty one is kept as it is; the result is never empty |
| Routes.AskForward | routes.py:66-77 | a fresh question uses a noun of the store and a case and a number from the selections; the expected answer is the analyser's inflection or "Error" |
| Routes.JudgeForward | routes.py:58-65 | a submission is judged against the expected answer carried in the form; the feedback is `get_feedback` of the submitted and expected answers; the question, case and number are echoed from the form; a missing answer or expected answer ends in AttributeError |
| Routes.ForwardDrill | routes.py:37-93 | a GET always uses the genitive singular; every POST keeps the ticked cases and numbers, with `["gent"]` and `["sing"]` when none is ticked; a POST "next" draws its case and number from those lists; a POST "submit" gives the `get_feedback` message for the form's answers, correct exactly when they match; any other POST ends in UnboundLocalError; an empty noun list ends in IndexError |
| Routes.Str | routes.py:118-122 | `str()` of a form value: a missing value reads as "None" |
| Routes.DisplayName | routes.py:129-132 | `dict.get(code, code)`: the display name when the table has one, the raw code otherwise |
| Routes.BackwardVerdict | routes.py:115-132 | the verdict is correct exactly when both the case code and the number code match; on a miss, the message contains the hidden pair by display name (the raw code when it has none), and the user's pair is echoed the same way |
| Routes.BackwardDrill | routes.py:95-145 | every request asks a fresh inflection of a store noun to one of the six cases and one of the two numbers; a "submit" gives exactly the feedback and echoed answer of `BackwardVerdict` on the `str()` of the four form values and the display tables of the session language; other requests carry no feedback |
| Routes.BlankOut | routes.py:171-192 | the blank succeeds exactly when the 1-based index lies in (-n, n] for n tokens, and otherwise ends in IndexError; on success, the token at the Python index is blanked, the rest is joined with single spaces, and the expected word is that token stripped of `.,!?`; the dictionary form is requested only for a non-empty word |
| Routes.BlankKeepsTokens | routes.py:188-189 | after the blank is written in, the joined sentence splits back into exactly the modified token list |
| Routes.RestoreBlank | routes.py:173-189 | the blank sentence has as many tokens as the original; its token at the index is the blank; every other token is unchanged and in place; putting the token back restores the original join |
| Routes.InsertDrill | routes.py:147-213 | an empty bank gives the "No sentences available." notice with an empty word and dictionary form; a drawn sentence is blanked as `BlankOut` states; an empty sentence list under the drawn case ends in IndexError; a "submit" gives the `get_feedback` message for the answer and the expected word in the form, and echoes the form's blank sentence, word and dictionary form; any other POST ends in UnboundLocalError |

## Left out

- Flask routing, `render_template`, `redirect` and `url_for` are not modelled. A handler returns the values it would render. `set_language` models only its session update.
- The `home` handler is modelled only through `Routes.SessionLanguage` and `Utils.GetTranslations`, the two calls it makes.
- Session cookies are not modelled. The session is a single optional language value.
- pymorphy3 is an uninterpreted oracle, and only the first parse (`parse(word)[0]`) exists in the model.
- Opening and decoding the data files is given as an input (`Models.FileLoad`). The model does not cover these cases:
  - a JSON document that is not an object;
  - entries of the wrong type;
  - a sentence entry that is an empty object. The application would treat that entry like an empty bank.
- Models.LoadNouns and Models.LoadSentences: cover only the two failures the loaders catch, a missing file and invalid JSON. Other failures are not modelled: a file that cannot be read (permission denied, a directory) or is not valid UTF-8. Those raise out of `DrillData()` when routes.py is imported (routes.py:12), so the application does not start.
- Every sentence entry of the model has a sentence and a word index (`Models.SentenceEntry`). A non-empty bank entry that lacks the `sentence` or `word_index` key raises KeyError at routes.py:171-172. That failure is not modelled.
- Randomness is replaced by draw parameters. The sentence bank's random case key is a parameter that must be a key of a non-empty bank, because Dafny maps have no key order to draw from.
- Basics.Pick: `random.choice` on an empty list raises IndexError. Here it is a precondition instead. The handlers model that failure as an `Err(IndexError)` outcome.
- Models.DrillData.GetRandomNoun: requires a non-empty noun list, for the same reason.
- Models.DrillData.GetRandomSentence: requires the drawn case's list to be non-empty, for the same reason.
- Utils.GenerateQuestion: requires a non-empty store noun list when no noun is given, for the same reason.
- Text.Lower: lower-cases only Latin A–Z and the Cyrillic capitals U+0400–U+042F. Python's full Unicode case mapping is not modelled. Every other character is left unchanged.
- Text.Split and Text.Strip: use the `str.isspace()` character set. Unicode normalisation and encodings are not modelled.
- Anything that could tamper with the hidden form fields carrying the expected answers is not modelled.
- app.py and config.py are not part of this model. They only bootstrap the application and hold constants, and routes.py does not consult `SUPPORTED_LANGUAGES`.
