/** `ingest/tokenizer.py`: the offline tokenizer, one id for each distinct word it has seen. */
module FakeTokenizers {
  import Wrappers
  import Identity
  import Windows
  import opened Words
  import opened Chunking

  /** Python's `KeyError` on an id that no `encode` has handed out. */
  datatype UnknownId = UnknownId

  predicate Known(idToWord: map<nat, string>, ids: seq<nat>) {
    forall k :: 0 <= k < |ids| ==> ids[k] in idToWord
  }

  function Lookup(idToWord: map<nat, string>, ids: seq<nat>): (words: seq<string>)
    requires Known(idToWord, ids)
    ensures |words| == |ids|
    ensures forall k :: 0 <= k < |ids| ==> words[k] == idToWord[ids[k]]
  {
    seq(|ids|, k requires 0 <= k < |ids| => idToWord[ids[k]])
  }

  /** Everything the first table knows, the second knows too. */
  ghost predicate Within(table: map<nat, string>, larger: map<nat, string>) {
    forall i :: i in table ==> i in larger && larger[i] == table[i]
  }

  lemma LookupStable(table: map<nat, string>, larger: map<nat, string>, ids: seq<nat>)
    requires Within(table, larger) && Known(table, ids)
    ensures Known(larger, ids) && Lookup(larger, ids) == Lookup(table, ids)
  {
  }

  /** The two tables are each other's inverse, and the ids in use are exactly 0, 1, ..., k - 1. */
  ghost predicate Inverse(idToWord: map<nat, string>, wordToId: map<string, nat>) {
    && (forall i: nat :: i in idToWord <==> i < |wordToId|)
    && (forall w :: w in wordToId ==> wordToId[w] in idToWord && idToWord[wordToId[w]] == w)
    && (forall i :: i in idToWord ==> idToWord[i] in wordToId && wordToId[idToWord[i]] == i)
  }

  lemma InverseGrows(idToWord: map<nat, string>, wordToId: map<string, nat>, word: string)
    requires Inverse(idToWord, wordToId) && word !in wordToId
    ensures Inverse(idToWord[|wordToId| := word], wordToId[word := |wordToId|])
    ensures Within(idToWord, idToWord[|wordToId| := word])
  {
  }

  /** `decode` against the given table. */
  function DecodeWith(idToWord: map<nat, string>, ids: seq<nat>): Wrappers.Result<string, UnknownId> {
    if Known(idToWord, ids) then Wrappers.Success(Join(Lookup(idToWord, ids))) else Wrappers.Failure(UnknownId)
  }

  /** The round trip: the ids `encode` returned decode to the text, and any slice of them to the
      words it covers -- against the table as it was then or after any further growth. */
  lemma DecodeOfEncode(table: map<nat, string>, larger: map<nat, string>, ids: seq<nat>, text: string, a: nat, b: nat)
    requires Known(table, ids) && Lookup(table, ids) == Split(text)
    requires Within(table, larger)
    requires a <= b <= |ids|
    ensures DecodeWith(larger, ids) == Wrappers.Success(text)
    ensures DecodeWith(larger, ids[a..b]) == Wrappers.Success(Join(Split(text)[a..b]))
  {
    LookupStable(table, larger, ids);
    JoinOfSplit(text);
    assert Lookup(larger, ids[a..b]) == Split(text)[a..b];
  }

  /** Every word of the text has its id already. */
  predicate AllKnown(wordToId: map<string, nat>, text: string) {
    forall w :: w in Split(text) ==> w in wordToId
  }

  /** `encode` on a text whose words are all known. */
  function EncodeWith(wordToId: map<string, nat>, text: string): (ids: seq<nat>)
    requires AllKnown(wordToId, text)
    ensures |ids| == |Split(text)|
  {
    seq(|Split(text)|, k requires 0 <= k < |Split(text)| => wordToId[Split(text)[k]])
  }

  /** The tokenizer as the tables stand, on the texts whose words they hold. */
  function Frozen(idToWord: map<nat, string>, wordToId: map<string, nat>): Tokenizer {
    Tokenizer((text: string) => if AllKnown(wordToId, text) then EncodeWith(wordToId, text) else [],
              (ids: seq<nat>) => match DecodeWith(idToWord, ids) case Success(text) => text case Failure(_) => "")
  }

  lemma EncodesWords(idToWord: map<nat, string>, wordToId: map<string, nat>, ids: seq<nat>, text: string)
    requires Inverse(idToWord, wordToId) && AllKnown(wordToId, text)
    requires Known(idToWord, ids) && Lookup(idToWord, ids) == Split(text)
    ensures ids == EncodeWith(wordToId, text)
  {
    hide Split;
    forall k | 0 <= k < |ids|
      ensures ids[k] == EncodeWith(wordToId, text)[k]
    {
      assert idToWord[ids[k]] == Lookup(idToWord, ids)[k] == Split(text)[k];
    }
  }

  lemma FrozenKnowsText(idToWord: map<nat, string>, wordToId: map<string, nat>, text: string)
    requires Inverse(idToWord, wordToId) && AllKnown(wordToId, text)
    ensures OneTokenPerWord(text, Frozen(idToWord, wordToId))
  {
    hide Split, Join;
    var ids := EncodeWith(wordToId, text);
    assert Known(idToWord, ids) && Lookup(idToWord, ids) == Split(text);
    forall a: nat, b: nat | a <= b <= |ids|
      ensures Frozen(idToWord, wordToId).decode(ids[a..b]) == Join(Split(text)[a..b])
    {
      DecodeOfEncode(idToWord, idToWord, ids, text, a, b);
    }
  }

  class FakeTokenizer {
    var idToWord: map<nat, string>
    var wordToId: map<string, nat>

    ghost predicate Valid()
      reads this
    {
      Inverse(idToWord, wordToId)
    }

    constructor ()
      ensures Valid() && idToWord == map[] && wordToId == map[]
    {
      idToWord, wordToId := map[], map[];
    }

    function Decode(ids: seq<nat>): Wrappers.Result<string, UnknownId>
      reads this
    {
      DecodeWith(idToWord, ids)
    }

    /** The ids stand for the words of the text, one each, and no earlier id changes its word. */
    method Encode(text: string) returns (ids: seq<nat>)
      requires Valid()
      modifies this
      ensures Valid() && Within(old(idToWord), idToWord)
      ensures Known(idToWord, ids) && Lookup(idToWord, ids) == Split(text)
      ensures forall w :: w in wordToId <==> w in old(wordToId) || w in Split(text)
      ensures AllKnown(wordToId, text) && ids == EncodeWith(wordToId, text)
    {
      hide Split;
      ids := [];
      var words := Split(text);
      for k := 0 to |words|
        invariant Valid()
        invariant Known(idToWord, ids) && Lookup(idToWord, ids) == words[..k]
        invariant Within(old(idToWord), idToWord)
        invariant forall w :: w in wordToId <==> w in old(wordToId) || w in words[..k]
      {
        label before:
        var word := words[k];
        assert words[..k + 1] == words[..k] + [word];
        if word !in wordToId {
          InverseGrows(idToWord, wordToId, word);
          var newId := |wordToId|;
          wordToId := wordToId[word := newId];
          idToWord := idToWord[newId := word];
        }
        LookupStable(old@before(idToWord), idToWord, ids);
        var longer := ids + [wordToId[word]];
        assert Lookup(idToWord, longer) == Lookup(idToWord, ids) + [word];
        ids := longer;
      }
      assert words[..|words|] == words;
      EncodesWords(idToWord, wordToId, ids, text);
    }

    /** `split_into_chunks` with this tokenizer: the one call of `encode` teaches it the words it lacks;
        from then on it is the frozen one. The chunk texts are the windows over the words, and without
        their overlaps they join up to the text. */
    method ChunkText(text: string, identity: Identity.DocumentIdentity, size: nat := CHUNK_SIZE_TOKENS,
      overlap: nat := CHUNK_OVERLAP_TOKENS)
      returns (chunks: seq<Chunk>)
      requires Valid() && overlap < size
      modifies this
      ensures Valid() && Within(old(idToWord), idToWord)
      ensures chunks == Chunks(text, identity, Frozen(idToWord, wordToId), size, overlap)
      ensures Join(Windows.Concat(ChunkHeads(chunks, size - overlap))) == text
    {
      hide Join, Frozen, Chunks, ChunkHeads;
      if text == "" {
        chunks := SplitIntoChunks(text, identity, Frozen(idToWord, wordToId), size, overlap);
        EmptyTextReassembles(identity, Frozen(idToWord, wordToId), size, overlap);
        return;
      }
      var ids := Encode(text);
      FrozenKnowsText(idToWord, wordToId, text);
      chunks := SplitIntoChunks(text, identity, Frozen(idToWord, wordToId), size, overlap);
      ChunkTextsReassemble(text, identity, Frozen(idToWord, wordToId), size, overlap);
    }
  }
}
