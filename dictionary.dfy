/**
 * Exact lookups in a language's word bank (utils/dictionnary.js). The banks
 * are passed in as a map from language code to bank.
 */
module Dictionary {
  import opened Options
  import opened Seqs
  import opened WordBank

  /** The first entry of the bank whose word is exactly `word`. */
  function ExactEntry(bank: Bank, word: string): (r: Option<nat>)
    ensures r.Some? ==> r.value < |bank| && bank[r.value].word == word
    ensures r.Some? ==> forall j :: 0 <= j < r.value ==> bank[j].word != word
    ensures r.None? <==> forall j :: 0 <= j < |bank| ==> bank[j].word != word
  {
    FindFirst(bank, (e: WordEntry) => e.word == word)
  }

  /** `isValidWord(word, langCode)`: some entry's word is the input, case-sensitive. */
  function IsValidWord(banks: map<string, Bank>, word: string, langCode: string): (b: bool)
    ensures b <==> exists i :: 0 <= i < |BankFor(banks, langCode)| && BankFor(banks, langCode)[i].word == word
  {
    ExactEntry(BankFor(banks, langCode), word).Some?
  }

  /** `getDefinition(word, langCode)`: the first matching entry's definition, or `null` (None). */
  function GetDefinition(banks: map<string, Bank>, word: string, langCode: string): (r: Option<string>)
    ensures r.None? <==> !IsValidWord(banks, word, langCode)
    ensures r.Some? ==> exists i :: 0 <= i < |BankFor(banks, langCode)|
                                   && BankFor(banks, langCode)[i].word == word
                                   && BankFor(banks, langCode)[i].definition == r.value
                                   && forall j :: 0 <= j < i ==> BankFor(banks, langCode)[j].word != word
  {
    match ExactEntry(BankFor(banks, langCode), word)
    case None => None
    case Some(i) => Some(BankFor(banks, langCode)[i].definition)
  }

  /** `getSynonyms(word, langCode)`: the first matching entry's synonyms, or []. */
  function GetSynonyms(banks: map<string, Bank>, word: string, langCode: string): (r: seq<string>)
    ensures !IsValidWord(banks, word, langCode) ==> r == []
    ensures IsValidWord(banks, word, langCode) ==>
              exists i :: 0 <= i < |BankFor(banks, langCode)|
                          && BankFor(banks, langCode)[i].word == word
                          && BankFor(banks, langCode)[i].synonyms == r
                          && forall j :: 0 <= j < i ==> BankFor(banks, langCode)[j].word != word
  {
    match ExactEntry(BankFor(banks, langCode), word)
    case None => []
    case Some(i) => BankFor(banks, langCode)[i].synonyms
  }

  /** A language without a bank knows no word: false, null and []. */
  lemma UnknownLanguage(banks: map<string, Bank>, word: string, langCode: string)
    requires langCode !in banks
    ensures !IsValidWord(banks, word, langCode)
    ensures GetDefinition(banks, word, langCode) == None
    ensures GetSynonyms(banks, word, langCode) == []
  {
  }

}
