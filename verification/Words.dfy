/** `text.split(" ")` and `" ".join(words)`. */
module Words {
  function Split(text: string): (words: seq<string>)
    ensures words != []
  {
    if text == "" then [""]
    else
      var rest := Split(text[1..]);
      if text[0] == ' ' then [""] + rest else [[text[0]] + rest[0]] + rest[1..]
  }

  function Join(words: seq<string>): string {
    if words == [] then ""
    else if |words| == 1 then words[0]
    else words[0] + " " + Join(words[1..])
  }

  /** No word holds the separator. */
  ghost predicate Spaceless(words: seq<string>) {
    forall k :: 0 <= k < |words| ==> ' ' !in words[k]
  }

  lemma {:induction false} SplitSpaceless(text: string)
    ensures Spaceless(Split(text))
  {
    if text != "" {
      SplitSpaceless(text[1..]);
    }
  }

  lemma JoinEmptyWord(words: seq<string>)
    requires words != []
    ensures Join([""] + words) == " " + Join(words)
  {
    assert ([""] + words)[1..] == words;
  }

  lemma Associates(a: string, b: string, c: string, d: string)
    ensures (a + b) + c + d == a + (b + c + d)
  {
  }

  lemma JoinLongerWord(c: char, words: seq<string>)
    requires words != []
    ensures Join([[c] + words[0]] + words[1..]) == [c] + Join(words)
  {
    hide Split;
    var longer := [[c] + words[0]] + words[1..];
    assert longer[1..] == words[1..];
    if |words| > 1 {
      Associates([c], words[0], " ", Join(words[1..]));
    }
  }

  lemma {:induction false} JoinOfSplit(text: string)
    ensures Join(Split(text)) == text
  {
    if text != "" {
      JoinOfSplit(text[1..]);
      JoinEmptyWord(Split(text[1..]));
      JoinLongerWord(text[0], Split(text[1..]));
      assert text == [text[0]] + text[1..];
    }
  }

  /** A word in front of a separator, or alone, is read back whole. */
  lemma {:induction false} SplitWord(word: string, tail: string)
    requires ' ' !in word
    ensures Split(word) == [word]
    ensures Split(word + " " + tail) == [word] + Split(tail)
  {
    if word == "" {
      assert word + " " + tail == " " + tail;
      assert (" " + tail)[1..] == tail;
    } else {
      SplitWord(word[1..], tail);
      assert (word + " " + tail)[1..] == word[1..] + " " + tail;
      assert [word[0]] + word[1..] == word;
    }
  }

  lemma {:induction false} SplitOfJoin(words: seq<string>)
    requires words != [] && Spaceless(words)
    ensures Split(Join(words)) == words
  {
    if |words| == 1 {
      SplitWord(words[0], "");
    } else {
      SplitOfJoin(words[1..]);
      SplitWord(words[0], Join(words[1..]));
    }
  }
}
