# Sentence builder: a verified model

This project models the logic inside the "Build a Sentence" exercise of the
parts-of-speech React application. A learner clicks words from a fixed word bank
to add them to a sentence. Clicking a placed word removes it. A check button runs
a small grammar rule and shows one of two messages. A line under the sentence
shows the words joined by spaces, or a placeholder when there are none.

The model has four modules:

- `Words` (`words.dfy`): the `Word` entry (`id`, `word`), the `WordBank` record with its
  six categories, and the bank constant `Bank`. `Bank` is built from the category
  constants `Pronouns`, `Verbs`, `Nouns`, `Adjectives`, `Articles` and `Prepositions`.
  The module also proves facts about the bank. There are thirty entries,
  their identifiers are "1" to "30" in order and so are pairwise distinct, and every
  text is non-empty, contains no space and does not start with 'N'.
- `ArrayOps` (`array_ops.dfy`): the JavaScript built-ins the component uses, as pure
  functions. These are `includes`, `filter` with an (element, index) callback, and
  `join`. It also has `split` on one character, used only as the inverse of `join`.
- `Grammar` (`grammar.dfy`): the `grammarCheck` rule. There are at least two words,
  the first is one of seven pronouns and the second is one of three forms of "to be".
  The comparison is exact and case-sensitive, later words are ignored, and there is no
  agreement check. The module also shows how the rule relates to the bank's
  categories.
- `SentenceBuilder` (`sentence_builder.dfy`): the session state as a class `Session`.
  Its fields are `sentence: seq<Word>` and `feedback: Option<string>`, and its methods
  are `Add`, `Remove` and `Check`. The module also has the message chosen by a check
  (`Verdict`) and the display line (`Display`). A few client methods walk through
  whole sessions.

The rule that the sentence only ever holds bank entries comes from the UI wiring. The
model therefore states it as a hypothesis on the lemmas that need it
(`CheckOnBankWords`, `DisplayOfBankWords`). `Add` takes any `Word`, as the source
function does.

The UI only removes at a position it has just displayed. The code filters by position,
so removal at any other integer changes nothing, and `Remove` accepts any integer.

## Model

| member | source | states |
|---|---|---|
| `Words.Entries` | parts-of-speech/src/App.tsx:20-63 | an entry is in the bank exactly when it is in one of the six categories; the bank's size is the sum of theirs |
| `Words.Texts` | parts-of-speech/src/App.tsx:96 | the texts of a sentence have one element per entry, the i-th being the i-th entry's `word` |
| `Words.BankIdsAreNumbers` | parts-of-speech/src/App.tsx:20-63 | the k-th bank entry, counted from 1 across the categories in order, has identifier k written in decimal |
| `Words.BankIdsDistinct` | parts-of-speech/src/App.tsx:20-63 | the bank has thirty entries and no two of them share an identifier |
| `Words.BankTextsPlain` | parts-of-speech/src/App.tsx:20-63 | every bank text is non-empty, has no space and does not begin with 'N' |
| `ArrayOps.Includes` | parts-of-speech/src/App.tsx:88 | `includes` is true exactly when some element equals the value searched for |
| `ArrayOps.FilterIndexed` | parts-of-speech/src/App.tsx:76 | `filter` never lengthens the array and keeps only elements that were there; a callback that accepts every position keeps the whole array; what `filter` with `NotAt` removes is stated by `FilterNotAt` |
| `ArrayOps.NotAt` | parts-of-speech/src/App.tsx:76 | the callback `(_, i) => i !== index` rejects every element at `index` and accepts every element at any other position |
| `ArrayOps.FilterNotAt` | parts-of-speech/src/App.tsx:76 | filtering with `i !== index` removes exactly the element at `index` and keeps the rest in order; an index that is negative or past the end removes nothing |
| `ArrayOps.Join` | parts-of-speech/src/App.tsx:213 | a join begins with its first text, followed by the separator when there are more; its emptiness, how it grows and its inverse are stated by `JoinEmptyIff`, `JoinSnoc` and `SplitJoin` |
| `ArrayOps.JoinEmptyIff` | parts-of-speech/src/App.tsx:213 | with a non-empty separator, the join is empty exactly when there are no texts or a single empty one |
| `ArrayOps.JoinSnoc` | parts-of-speech/src/App.tsx:213 | appending a text to a non-empty list appends the separator and that text to the join |
| `ArrayOps.SplitJoin` | parts-of-speech/src/App.tsx:213 | splitting a join on its one-character separator gives back the texts, when there is at least one and none contains the separator |
| `Grammar.GrammarCheck` | parts-of-speech/src/App.tsx:80-92 | accepts exactly when there are at least two words, the first is one of I, You, He, She, It, We, They and the second one of am, is, are |
| `Grammar.ShortSentencesRejected` | parts-of-speech/src/App.tsx:81 | empty and one-word sentences are rejected |
| `Grammar.ReplaceTailKeepsVerdict` | parts-of-speech/src/App.tsx:84-91 | changing a word at position 2 or later never changes the verdict |
| `Grammar.AppendKeepsVerdict` | parts-of-speech/src/App.tsx:84-91 | for a sentence of two or more words, appending words, or cutting it back to its first two words, never changes the verdict |
| `Grammar.Examples` | parts-of-speech/src/App.tsx:84-91 | "I am" and "I am happy" pass; "am I" fails; "They am" passes; "i am" fails; the empty and one-word sentences fail |
| `Grammar.RuleListsAreCategories` | parts-of-speech/src/App.tsx:20-34 | the pronoun and verb categories carry exactly the rule's two lists of texts, and neither carries a text of the other list |
| `Grammar.OtherCategoriesOutsideRule` | parts-of-speech/src/App.tsx:35-62 | no noun, adjective, article or preposition has a text from either list of the rule |
| `Grammar.BankCategoriesMatchRule` | parts-of-speech/src/App.tsx:85-86 | a bank entry's text is an accepted first word exactly when the entry is a pronoun, and an accepted second word exactly when it is a verb |
| `Grammar.CheckOnBankWords` | parts-of-speech/src/App.tsx:80-92 | a sentence of bank entries passes exactly when it has two or more entries, the first a pronoun and the second a verb |
| `SentenceBuilder.Verdict` | parts-of-speech/src/App.tsx:97-98 | the message is "Correct sentence!" exactly when the rule accepts, and "Incorrect grammar. Try again." exactly when it rejects |
| `SentenceBuilder.Display` | parts-of-speech/src/App.tsx:213 | the display line is never the empty string |
| `SentenceBuilder.DisplayOfBankWords` | parts-of-speech/src/App.tsx:213 | for bank entries, "No sentence yet." shows exactly when the sentence is empty; otherwise the line is the space-join of the texts, and splitting it on spaces gives the texts back |
| `SentenceBuilder.DisplayAfterAdd` | parts-of-speech/src/App.tsx:213 | when every text is non-empty, adding an entry appends a space and its text to the line, or replaces the placeholder with the text |
| `SentenceBuilder.DisplayExample` | parts-of-speech/src/App.tsx:213 | the sentence I, am, happy is displayed as "I am happy" |
| `SentenceBuilder.Session.constructor` | parts-of-speech/src/App.tsx:66-67 | a session starts with an empty sentence and no feedback |
| `SentenceBuilder.Session.Add` | parts-of-speech/src/App.tsx:70-72 | the new sentence is the old one plus the entry at the end: one longer, earlier entries unchanged; the feedback is unchanged |
| `SentenceBuilder.Session.Remove` | parts-of-speech/src/App.tsx:75-77 | for an index in range, the entry there is removed, the rest keep their order and the length drops by one; any other integer leaves the sentence as it was; the feedback is unchanged |
| `SentenceBuilder.Session.Check` | parts-of-speech/src/App.tsx:95-99 | the sentence is unchanged and the feedback becomes the verdict on its texts, so a second check gives the same message |
| `SentenceBuilder.CheckTwice` | parts-of-speech/src/App.tsx:95-99 | building I, am, happy displays "I am happy", and two checks in a row both report "Correct sentence!" |
| `SentenceBuilder.StaleFeedback` | parts-of-speech/src/App.tsx:67-77 | after "They am" is checked, removing "They" leaves the sentence "am" with "Correct sentence!" still shown |
| `SentenceBuilder.CheckOneWord` | parts-of-speech/src/App.tsx:81 | checking a one-word sentence reports "Incorrect grammar. Try again." |
| `SentenceBuilder.RemoveOutOfRange` | parts-of-speech/src/App.tsx:76 | removing at -1 or at the length leaves the sentence I, am unchanged |

## Left out

- The JSX rendering (parts-of-speech/src/App.tsx:101-232): headings, Tailwind classes, the category panels and the buttons. This is presentation. Only the display expression at line 213 holds logic, and it is modelled as `Display`.
- The "Click on the words to form a sentence" prompt (line 206) and the rule that feedback shows only when set (line 225). Both are presentation choices made on the same state the model keeps.
- React `useState` and re-rendering. The state is two plain fields updated by methods, and the functional-updater form becomes a direct update.
- React's `key={id}` warning when the same entry is placed twice (line 198). It affects only reconciliation, not the sentence's contents.
- The unused `rest` binding and the comment that promises a noun or adjective check (lines 83-84). The code checks only the first two words, and the model follows the code.
- The rule that the sentence holds only bank entries is not a class invariant. It depends on the UI wiring, so the lemmas that use it take it as a hypothesis.
