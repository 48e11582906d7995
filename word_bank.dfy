/** The per-language word banks (assets/wordBanks/index.js). */
module WordBank {

  /** One bank entry: the answer word, its definition and its synonyms. */
  datatype WordEntry = WordEntry(word: string, definition: string, synonyms: seq<string>)

  type Bank = seq<WordEntry>

  /** `ALL_WORD_BANKS[lang] || []`: a language without a bank gets an empty one. */
  function BankFor(banks: map<string, Bank>, lang: string): (b: Bank)
    ensures lang !in banks ==> b == []
    ensures lang in banks ==> b == banks[lang]
  {
    if lang in banks then banks[lang] else []
  }

}
