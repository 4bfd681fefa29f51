/** The optional-value type used for the feedback message, which is absent until the
    first check. */
module Wrappers {
  datatype Option<+T> = None | Some(value: T)
}

/** The sentence-building session: the learner's sentence, the feedback of the last
    check, the operations that change them, and the line that displays the sentence. */
module SentenceBuilder {
  import opened Wrappers
  import opened ArrayOps
  import opened Words
  import opened Grammar

  const Correct: string := "Correct sentence!"
  const Incorrect: string := "Incorrect grammar. Try again."
  const Placeholder: string := "No sentence yet."

  /** The message a check reports for the given texts: one of exactly two, the first
      exactly when the grammar rule accepts. */
  function Verdict(words: seq<string>): (message: string)
    ensures message == Correct <==> GrammarCheck(words)
    ensures message == Incorrect <==> !GrammarCheck(words)
  {
    var isValid := GrammarCheck(words);
    if isValid then Correct else Incorrect
  }

  /** The display line: the texts joined by single spaces, or the placeholder when that
      join is the empty string. It is never the empty string. */
  function Display(s: seq<Word>): (line: string)
    ensures line != ""
  {
    var joined := Join(Texts(s), " ");
    if joined == "" then Placeholder else joined
  }

  /** For a sentence of bank entries, the placeholder shows exactly when the sentence is
      empty; otherwise the line is the join of the texts, and splitting it on spaces
      gives back those texts in order. */
  lemma DisplayOfBankWords(s: seq<Word>)
    requires forall k :: 0 <= k < |s| ==> s[k] in Entries(Bank)
    ensures Display(s) == Placeholder <==> s == []
    ensures s != [] ==> Display(s) == Join(Texts(s), " ") && Split(Display(s), ' ') == Texts(s)
  {
    BankTextsPlain();
    var ts := Texts(s);
    if s != [] {
      JoinEmptyIff(ts, " ");
      var line := Join(ts, " ");
      assert line[0] == ts[0][0] != 'N';
      assert Display(s) == line;
      SplitJoin(ts, ' ');
    }
  }

  /** Adding an entry to the sentence extends the display line by a space and its text
      (or, from an empty sentence, replaces the placeholder by the text). */
  lemma DisplayAfterAdd(s: seq<Word>, w: Word)
    requires forall k :: 0 <= k < |s| ==> s[k].word != ""
    requires w.word != ""
    ensures Display(s + [w]) == if s == [] then w.word else Display(s) + " " + w.word
  {
    assert Texts(s + [w]) == Texts(s) + [w.word];
    if s != [] {
      JoinSnoc(Texts(s), w.word, " ");
      JoinEmptyIff(Texts(s) + [w.word], " ");
      JoinEmptyIff(Texts(s), " ");
      assert Texts(s)[0] != "";
    } else {
      assert Texts(s + [w]) == [w.word];
    }
  }

  /** The display line of the sentence "I am happy". */
  lemma DisplayExample()
    ensures Display([Pronouns[0], Verbs[0], Adjectives[0]]) == "I am happy"
  {
    var s := [Pronouns[0], Verbs[0], Adjectives[0]];
    assert Texts(s) == ["I", "am", "happy"];
    assert Join(["happy"], " ") == "happy";
    assert Join(["am", "happy"], " ") == "am happy";
  }

  /** One learner's session: the entries placed so far and the last check's message. */
  class Session {
    var sentence: seq<Word>
    var feedback: Option<string>

    /** A new session: nothing placed, no feedback yet. */
    constructor ()
      ensures sentence == [] && feedback == None
    {
      sentence := [];
      feedback := None;
    }

    /** Places `w` after the entries already in the sentence; the feedback is untouched. */
    method Add(w: Word)
      modifies this`sentence
      ensures sentence == old(sentence) + [w]
      ensures |sentence| == |old(sentence)| + 1 && sentence[|sentence| - 1] == w
      ensures forall k :: 0 <= k < |old(sentence)| ==> sentence[k] == old(sentence)[k]
      ensures feedback == old(feedback)
    {
      sentence := sentence + [w];
    }

    /** Drops the entry at `index`, keeping the others in order; an index outside the
        sentence changes nothing. The feedback is untouched. */
    method Remove(index: int)
      modifies this`sentence
      ensures 0 <= index < |old(sentence)| ==>
        && sentence == old(sentence)[..index] + old(sentence)[index + 1..]
        && |sentence| == |old(sentence)| - 1
      ensures !(0 <= index < |old(sentence)|) ==> sentence == old(sentence)
      ensures forall k :: 0 <= k < |sentence| ==> sentence[k] in old(sentence)
      ensures feedback == old(feedback)
    {
      FilterNotAt(sentence, index);
      sentence := FilterIndexed(sentence, NotAt(index));
    }

    /** Runs the grammar rule on the sentence's texts and records one of the two
        messages; the sentence is untouched, so a second check records the same one. */
    method Check()
      modifies this`feedback
      ensures sentence == old(sentence)
      ensures feedback == Some(Verdict(Texts(sentence)))
    {
      var sentenceWords := Texts(sentence);
      feedback := Some(Verdict(sentenceWords));
    }
  }

  /** A learner builds "I am happy" and checks it twice: the line reads "I am happy" and
      both checks report the correct message. */
  method CheckTwice() returns (line: string, first: Option<string>, second: Option<string>)
    ensures line == "I am happy"
    ensures first == Some(Correct) && second == first
  {
    var i, am, happy := Pronouns[0], Verbs[0], Adjectives[0];
    var session := new Session();
    session.Add(i);
    session.Add(am);
    session.Add(happy);
    assert session.sentence == [i, am, happy];
    DisplayExample();
    line := Display(session.sentence);
    assert Texts(session.sentence) == ["I", "am", "happy"];
    session.Check();
    first := session.feedback;
    session.Check();
    second := session.feedback;
  }

  /** A learner checks "They am", which is accepted because agreement is not checked,
      then removes the first word: the message of that check stays on display. */
  method StaleFeedback() returns (afterRemove: Option<string>, remaining: seq<string>)
    ensures afterRemove == Some(Correct)
    ensures remaining == ["am"]
  {
    var they, am := Pronouns[6], Verbs[0];
    var session := new Session();
    session.Add(they);
    session.Add(am);
    session.Check();
    session.Remove(0);
    afterRemove := session.feedback;
    remaining := Texts(session.sentence);
  }

  /** Checking a one-word sentence reports the incorrect-grammar message. */
  method CheckOneWord() returns (message: Option<string>)
    ensures message == Some(Incorrect)
  {
    var am := Verbs[0];
    var session := new Session();
    session.Add(am);
    session.Check();
    message := session.feedback;
  }

  /** Removing at a negative position or one past the end leaves the sentence as it was. */
  method RemoveOutOfRange() returns (remaining: seq<string>)
    ensures remaining == ["I", "am"]
  {
    var i, am := Pronouns[0], Verbs[0];
    var session := new Session();
    session.Add(i);
    session.Add(am);
    session.Remove(-1);
    session.Remove(2);
    remaining := Texts(session.sentence);
  }
}
