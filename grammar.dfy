/** The exercise's grammar rule: a sentence is accepted when its first word is one of
    seven subject pronouns and its second one of the three present forms of "to be".
    Words after the second are never looked at, and no agreement is checked. */
module Grammar {
  import opened ArrayOps
  import opened Words

  /** The accepted first words, as listed by the rule. */
  const ValidPronouns: seq<string> := ["I", "You", "He", "She", "It", "We", "They"]

  /** The accepted second words, as listed by the rule. */
  const ValidVerbs: seq<string> := ["am", "is", "are"]

  /** The rule itself: fewer than two words is a rejection; otherwise the first two
      words are looked up, by exact and case-sensitive comparison, in the two lists. */
  function GrammarCheck(words: seq<string>): (ok: bool)
    ensures ok <==>
      && |words| >= 2
      && words[0] in {"I", "You", "He", "She", "It", "We", "They"}
      && words[1] in {"am", "is", "are"}
  {
    if |words| < 2 then false
    else
      var firstWord, secondWord := words[0], words[1];
      Includes(ValidPronouns, firstWord) && Includes(ValidVerbs, secondWord)
  }

  /** Empty and one-word sentences are always rejected. */
  lemma ShortSentencesRejected(words: seq<string>)
    requires |words| < 2
    ensures !GrammarCheck(words)
  {
  }

  /** Replacing a word at position two or later never changes the verdict. */
  lemma ReplaceTailKeepsVerdict(words: seq<string>, i: int, w: string)
    requires 2 <= i < |words|
    ensures GrammarCheck(words[i := w]) == GrammarCheck(words)
  {
  }

  /** For a sentence that already has two words, appending more words, or cutting it
      back to its first two, never changes the verdict. */
  lemma AppendKeepsVerdict(words: seq<string>, tail: seq<string>)
    requires |words| >= 2
    ensures GrammarCheck(words + tail) == GrammarCheck(words)
    ensures GrammarCheck(words) == GrammarCheck(words[..2])
  {
  }

  /** The rule on a few sentences: the pattern holds with or without trailing words;
      order matters; "They am" passes because agreement is not checked; "i" is not "I". */
  lemma Examples()
    ensures GrammarCheck(["I", "am"])
    ensures GrammarCheck(["I", "am", "happy"])
    ensures !GrammarCheck(["am", "I"])
    ensures GrammarCheck(["They", "am"])
    ensures !GrammarCheck(["i", "am"])
    ensures !GrammarCheck([]) && !GrammarCheck(["I"])
  {
  }

  /** True when no entry of `ws` has one of the texts `ts`. */
  predicate NoTextAmong(ws: seq<Word>, ts: seq<string>)
  {
    forall k :: 0 <= k < |ws| ==> ws[k].word !in ts
  }

  /** The pronoun and verb entries carry exactly the rule's two lists, and neither list
      meets the other category. */
  lemma RuleListsAreCategories()
    ensures Texts(Pronouns) == ValidPronouns && NoTextAmong(Pronouns, ValidVerbs)
    ensures Texts(Verbs) == ValidVerbs && NoTextAmong(Verbs, ValidPronouns)
  {
  }

  /** No noun, adjective, article or preposition carries a text of either list. */
  lemma OtherCategoriesOutsideRule()
    ensures NoTextAmong(Nouns, ValidPronouns + ValidVerbs)
    ensures NoTextAmong(Adjectives, ValidPronouns + ValidVerbs)
    ensures NoTextAmong(Articles, ValidPronouns + ValidVerbs)
    ensures NoTextAmong(Prepositions, ValidPronouns + ValidVerbs)
  {
  }

  /** Within the bank, a text is an accepted first word exactly when its entry is a
      pronoun, and an accepted second word exactly when its entry is a verb. */
  lemma BankCategoriesMatchRule(w: Word)
    requires w in Entries(Bank)
    ensures w.word in ValidPronouns <==> w in Pronouns
    ensures w.word in ValidVerbs <==> w in Verbs
  {
    RuleListsAreCategories();
    OtherCategoriesOutsideRule();
    if w in Pronouns {
      var i :| 0 <= i < |Pronouns| && Pronouns[i] == w;
      assert Texts(Pronouns)[i] == w.word;
    } else if w in Verbs {
      var i :| 0 <= i < |Verbs| && Verbs[i] == w;
      assert Texts(Verbs)[i] == w.word;
    } else {
      var group := if w in Nouns then Nouns else if w in Adjectives then Adjectives
                   else if w in Articles then Articles else Prepositions;
      var i :| 0 <= i < |group| && group[i] == w;
      assert w.word !in ValidPronouns + ValidVerbs;
    }
  }

  /** For a sentence built from the bank, the rule accepts exactly the sentences whose
      first entry comes from the pronoun list and whose second comes from the verb list. */
  lemma CheckOnBankWords(s: seq<Word>)
    requires forall k :: 0 <= k < |s| ==> s[k] in Entries(Bank)
    ensures GrammarCheck(Texts(s)) <==> |s| >= 2 && s[0] in Pronouns && s[1] in Verbs
  {
    if |s| >= 2 {
      BankCategoriesMatchRule(s[0]);
      BankCategoriesMatchRule(s[1]);
    }
  }
}
