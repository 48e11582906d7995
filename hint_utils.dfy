/**
 * The hint lookups of utils/hintUtils.js: exact-up-to-case lookup of the
 * target, synonyms without the answer, and a definition with the answer
 * masked.
 */
module HintUtils {
  import opened Options
  import opened Text
  import opened Seqs
  import opened WordBank

  /** The first bank entry whose upper-cased word is the upper-cased target (no accent stripping). */
  function EntryFor(target: string, bank: Bank): (r: Option<nat>)
    ensures r.Some? ==> r.value < |bank| && Upper(bank[r.value].word) == Upper(target)
    ensures r.Some? ==> forall j :: 0 <= j < r.value ==> Upper(bank[j].word) != Upper(target)
    ensures r.None? <==> forall j :: 0 <= j < |bank| ==> Upper(bank[j].word) != Upper(target)
  {
    FindFirst(bank, (w: WordEntry) => Upper(w.word) == Upper(target))
  }

  /** A synonym is shown unless, trimmed and upper-cased, it is the upper-cased target. */
  predicate Shown(target: string, syn: string) {
    Upper(Trim(syn)) != Upper(target)
  }

  /** `getLocalSynonyms(target, bank)`. */
  function GetLocalSynonyms(target: string, bank: Bank): (r: seq<string>)
    ensures EntryFor(target, bank).None? ==> r == []
    ensures EntryFor(target, bank).Some? ==>
              var syns := bank[EntryFor(target, bank).value].synonyms;
              IsSubsequence(r, syns)
              && (forall s :: s in syns ==> (s in r <==> Shown(target, s)))
    ensures forall s :: s in r ==> Shown(target, s)
  {
    match EntryFor(target, bank)
    case None => []
    case Some(i) => Filter(bank[i].synonyms, (syn: string) => Shown(target, syn))
  }

  /** The mask written over each occurrence of the answer. */
  const MASK: string := "_____"

  /**
   * `getLocalDefinition(target, bank)`: '' without an entry or with an empty
   * definition; otherwise every non-overlapping case-insensitive occurrence
   * of the target is replaced by the mask.
   */
  function GetLocalDefinition(target: string, bank: Bank): (r: string)
    ensures EntryFor(target, bank).None? ==> r == []
    ensures EntryFor(target, bank).Some? && bank[EntryFor(target, bank).value].definition == [] ==> r == []
    ensures EntryFor(target, bank).Some? && bank[EntryFor(target, bank).value].definition != [] ==>
              r == ReplaceIgnoreCase(bank[EntryFor(target, bank).value].definition, target, MASK)
  {
    match EntryFor(target, bank)
    case None => []
    case Some(i) =>
      if bank[i].definition == [] then [] else ReplaceIgnoreCase(bank[i].definition, target, MASK)
  }

  /** A definition that never mentions the target comes back unchanged. */
  lemma DefinitionWithoutTargetUnchanged(target: string, bank: Bank)
    requires target != []
    requires EntryFor(target, bank).Some?
    requires !ContainsIgnoringCase(bank[EntryFor(target, bank).value].definition, target)
    ensures GetLocalDefinition(target, bank) == bank[EntryFor(target, bank).value].definition
  {
    ReplaceWithoutOccurrence(bank[EntryFor(target, bank).value].definition, target, MASK);
  }

  /**
   * The masked definition never contains the answer, as the comment on
   * `getLocalDefinition` promises, for any non-empty answer none of whose
   * letters is (up to case) the mask character.
   */
  lemma DefinitionNeverRevealsTarget(target: string, bank: Bank)
    requires target != []
    requires forall k :: 0 <= k < |target| ==> !SameIgnoringCase('_', target[k])
    ensures !ContainsIgnoringCase(GetLocalDefinition(target, bank), target)
  {
    match EntryFor(target, bank)
    case None =>
    case Some(i) =>
      if bank[i].definition != [] {
        assert Unlike(MASK, target) by {
          forall i, k | 0 <= i < |MASK| && 0 <= k < |target| ensures !SameIgnoringCase(MASK[i], target[k]) {
            assert MASK[i] == '_';
          }
        }
        MaskHidesPattern(bank[i].definition, target, MASK);
      }
  }

}
