/** The vocabulary of the exercise: a word entry, and the read-only word bank that
    groups the selectable entries into six fixed categories. */
module Words {

  /** One selectable entry: an identifier and the literal text shown and checked. */
  datatype Word = Word(id: string, word: string)

  /** The six categories of the bank, each an ordered list of entries. */
  datatype WordBank = WordBank(
    pronouns: seq<Word>,
    verbs: seq<Word>,
    nouns: seq<Word>,
    adjectives: seq<Word>,
    articles: seq<Word>,
    prepositions: seq<Word>)

  /** The six categories of the bank the learner picks from, in display order. */
  const Pronouns: seq<Word> :=
    [Word("1", "I"), Word("2", "You"), Word("3", "He"), Word("4", "She"),
     Word("5", "It"), Word("6", "We"), Word("7", "They")]
  const Verbs: seq<Word> := [Word("8", "am"), Word("9", "is"), Word("10", "are")]
  const Nouns: seq<Word> :=
    [Word("11", "student"), Word("12", "teacher"), Word("13", "school"), Word("14", "pilot"),
     Word("15", "nurse"), Word("16", "cat"), Word("17", "home"), Word("18", "hospital")]
  const Adjectives: seq<Word> :=
    [Word("19", "happy"), Word("20", "sad"), Word("21", "hungry"), Word("22", "thirsty"),
     Word("23", "quiet"), Word("24", "noisy"), Word("25", "early"), Word("26", "rich"),
     Word("27", "big")]
  const Articles: seq<Word> := [Word("28", "a"), Word("29", "an")]
  const Prepositions: seq<Word> := [Word("30", "at")]

  /** The static word bank. */
  const Bank: WordBank := WordBank(Pronouns, Verbs, Nouns, Adjectives, Articles, Prepositions)

  /** Every entry of a bank, category by category, in the order they are displayed. */
  function Entries(b: WordBank): (all: seq<Word>)
    ensures |all| == |b.pronouns| + |b.verbs| + |b.nouns| + |b.adjectives| + |b.articles| + |b.prepositions|
    ensures forall w :: w in all <==>
      w in b.pronouns || w in b.verbs || w in b.nouns ||
      w in b.adjectives || w in b.articles || w in b.prepositions
  {
    b.pronouns + b.verbs + b.nouns + b.adjectives + b.articles + b.prepositions
  }

  /** True when no two positions of `ws` carry the same identifier. */
  predicate DistinctIds(ws: seq<Word>)
  {
    forall i, j :: 0 <= i < j < |ws| ==> ws[i].id != ws[j].id
  }

  /** The texts of the given entries, in order. */
  function Texts(ws: seq<Word>): (ts: seq<string>)
    ensures |ts| == |ws|
    ensures forall i :: 0 <= i < |ws| ==> ts[i] == ws[i].word
  {
    seq(|ws|, i requires 0 <= i < |ws| => ws[i].word)
  }

  /** The bank has thirty entries and their identifiers are pairwise distinct. */
  lemma BankIdsDistinct()
    ensures |Entries(Bank)| == 30
    ensures DistinctIds(Entries(Bank))
  {
    var all := Entries(Bank);
    BankIdsAreNumbers();
    forall i, j | 0 <= i < j < |all|
      ensures all[i].id != all[j].id
    {
      IdTextInjective(i + 1, j + 1);
    }
  }

  /** Decimal text of a number below one hundred, without leading zeros. */
  function IdText(n: nat): (s: string)
    requires 0 < n < 100
    ensures |s| == if n < 10 then 1 else 2
  {
    if n < 10 then [Digit(n)] else [Digit(n / 10), Digit(n % 10)]
  }

  /** The decimal digit character for `d`. */
  function Digit(d: nat): char
    requires d < 10
  {
    ('0' as int + d) as char
  }

  /** Different numbers have different decimal texts. */
  lemma IdTextInjective(m: nat, n: nat)
    requires 0 < m < 100 && 0 < n < 100 && m != n
    ensures IdText(m) != IdText(n)
  {
    if (m < 10) == (n < 10) && m >= 10 {
      assert IdText(m)[0] != IdText(n)[0] || IdText(m)[1] != IdText(n)[1];
    }
  }

  /** True when the entries of `ws` are numbered consecutively from `start`. */
  predicate NumberedFrom(ws: seq<Word>, start: nat)
  {
    0 < start && start + |ws| <= 100 &&
    forall k :: 0 <= k < |ws| ==> ws[k].id == IdText(start + k)
  }

  lemma NumberedConcat(a: seq<Word>, b: seq<Word>, start: nat)
    requires NumberedFrom(a, start) && NumberedFrom(b, start + |a|)
    ensures NumberedFrom(a + b, start)
  {
    forall k | 0 <= k < |a + b|
      ensures (a + b)[k].id == IdText(start + k)
    {
      if k >= |a| {
        assert (a + b)[k] == b[k - |a|];
      }
    }
  }

  /** Numbering each category on from where the previous one stopped numbers the
      whole bank. */
  lemma EntriesNumbered(b: WordBank)
    requires NumberedFrom(b.pronouns, 1)
    requires NumberedFrom(b.verbs, 1 + |b.pronouns|)
    requires NumberedFrom(b.nouns, 1 + |b.pronouns| + |b.verbs|)
    requires NumberedFrom(b.adjectives, 1 + |b.pronouns| + |b.verbs| + |b.nouns|)
    requires NumberedFrom(b.articles, 1 + |b.pronouns| + |b.verbs| + |b.nouns| + |b.adjectives|)
    requires NumberedFrom(b.prepositions,
      1 + |b.pronouns| + |b.verbs| + |b.nouns| + |b.adjectives| + |b.articles|)
    ensures NumberedFrom(Entries(b), 1)
  {
    NumberedConcat(b.pronouns, b.verbs, 1);
    NumberedConcat(b.pronouns + b.verbs, b.nouns, 1);
    NumberedConcat(b.pronouns + b.verbs + b.nouns, b.adjectives, 1);
    NumberedConcat(b.pronouns + b.verbs + b.nouns + b.adjectives, b.articles, 1);
    NumberedConcat(b.pronouns + b.verbs + b.nouns + b.adjectives + b.articles, b.prepositions, 1);
  }

  lemma PronounsVerbsNumbered()
    ensures NumberedFrom(Pronouns, 1) && NumberedFrom(Verbs, 8)
  {
  }

  lemma NounsNumbered()
    ensures NumberedFrom(Nouns, 11)
  {
  }

  lemma AdjectivesNumbered()
    ensures NumberedFrom(Adjectives, 19)
  {
  }

  lemma ArticlesPrepositionsNumbered()
    ensures NumberedFrom(Articles, 28) && NumberedFrom(Prepositions, 30)
  {
  }

  /** The k-th entry of the bank (counting from 1) has identifier k. */
  lemma BankIdsAreNumbers()
    ensures NumberedFrom(Entries(Bank), 1)
  {
    PronounsVerbsNumbered();
    NounsNumbered();
    AdjectivesNumbered();
    ArticlesPrepositionsNumbered();
    EntriesNumbered(Bank);
  }

  /** A text that is non-empty, has no space, and does not begin with 'N'. */
  predicate Plain(t: string)
  {
    t != "" && t[0] != 'N' && ' ' !in t
  }

  predicate AllPlain(ws: seq<Word>)
  {
    forall k :: 0 <= k < |ws| ==> Plain(ws[k].word)
  }

  lemma AllPlainConcat(a: seq<Word>, b: seq<Word>)
    requires AllPlain(a) && AllPlain(b)
    ensures AllPlain(a + b)
  {
    forall k | 0 <= k < |a + b|
      ensures Plain((a + b)[k].word)
    {
      if k >= |a| {
        assert (a + b)[k] == b[k - |a|];
      }
    }
  }

  /** Plain categories make a plain bank. */
  lemma EntriesPlain(b: WordBank)
    requires AllPlain(b.pronouns) && AllPlain(b.verbs) && AllPlain(b.nouns)
    requires AllPlain(b.adjectives) && AllPlain(b.articles) && AllPlain(b.prepositions)
    ensures AllPlain(Entries(b))
  {
    AllPlainConcat(b.pronouns, b.verbs);
    AllPlainConcat(b.pronouns + b.verbs, b.nouns);
    AllPlainConcat(b.pronouns + b.verbs + b.nouns, b.adjectives);
    AllPlainConcat(b.pronouns + b.verbs + b.nouns + b.adjectives, b.articles);
    AllPlainConcat(b.pronouns + b.verbs + b.nouns + b.adjectives + b.articles, b.prepositions);
  }

  lemma PronounsVerbsPlain()
    ensures AllPlain(Pronouns) && AllPlain(Verbs)
  {
  }

  lemma NounsPlain()
    ensures AllPlain(Nouns)
  {
  }

  lemma AdjectivesPlain()
    ensures AllPlain(Adjectives)
  {
  }

  lemma ArticlesPrepositionsPlain()
    ensures AllPlain(Articles) && AllPlain(Prepositions)
  {
  }

  /** Every text in the bank is non-empty, has no space, and does not begin with 'N'. */
  lemma BankTextsPlain()
    ensures AllPlain(Entries(Bank))
  {
    PronounsVerbsPlain();
    NounsPlain();
    AdjectivesPlain();
    ArticlesPrepositionsPlain();
    EntriesPlain(Bank);
  }
}
