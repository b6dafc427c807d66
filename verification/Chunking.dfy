/** `ingest/chunking.py`: a text becomes numbered chunks with deterministic ids. */
module Chunking {
  import Uuids
  import opened Identity
  import opened Windows
  import opened Words

  const CHUNK_SIZE_TOKENS: nat := 1024
  const CHUNK_OVERLAP_TOKENS: nat := 128

  datatype Chunk = Chunk(chunkId: ChunkId, sequence: nat, text: string)

  /** The surface the chunker depends on, for a tokenizer that answers the same every time. */
  datatype Tokenizer = Tokenizer(encode: string -> seq<nat>, decode: seq<nat> -> string)

  /** The tokens that get windowed: an empty text is never handed to the tokenizer. */
  function Tokens(text: string, tokenizer: Tokenizer): seq<nat> {
    if text == "" then [] else tokenizer.encode(text)
  }

  /** The design's chunk list: chunk `k` is window `k`, decoded, under its own name. */
  function Chunks(text: string, identity: DocumentIdentity, tokenizer: Tokenizer, size: nat, overlap: nat)
    : (cs: seq<Chunk>)
    requires overlap < size
  {
    var windows := Windows.Windows(Tokens(text, tokenizer), size, overlap);
    seq(|windows|, k requires 0 <= k < |windows| =>
      Chunk(BuildChunkId(identity.documentId, identity.versionId, k), k, tokenizer.decode(windows[k])))
  }

  function Texts(chunks: seq<Chunk>): (ts: seq<string>)
    ensures |ts| == |chunks|
    ensures forall k :: 0 <= k < |chunks| ==> ts[k] == chunks[k].text
  {
    seq(|chunks|, k requires 0 <= k < |chunks| => chunks[k].text)
  }

  lemma ChunkAt(text: string, identity: DocumentIdentity, tokenizer: Tokenizer, size: nat, overlap: nat, k: nat)
    requires overlap < size
    ensures var tokens, start := Tokens(text, tokenizer), Start(k, size - overlap);
      && (k < |Chunks(text, identity, tokenizer, size, overlap)| <==> start < |tokens|)
      && (start < |tokens| ==>
            Chunks(text, identity, tokenizer, size, overlap)[k]
            == Chunk(BuildChunkId(identity.documentId, identity.versionId, k), k,
              tokenizer.decode(tokens[start..Min(start + size, |tokens|)])))
  {
    hide BuildChunkId;
    StartInside(k, size - overlap, |Tokens(text, tokenizer)|);
  }

  method SplitIntoChunks(text: string, identity: DocumentIdentity, tokenizer: Tokenizer,
                         size: nat := CHUNK_SIZE_TOKENS, overlap: nat := CHUNK_OVERLAP_TOKENS)
    returns (chunks: seq<Chunk>)
    requires overlap < size
    ensures chunks == Chunks(text, identity, tokenizer, size, overlap)
  {
    hide BuildChunkId, Chunks, Steps;
    ghost var expected := Chunks(text, identity, tokenizer, size, overlap);
    ChunkAt(text, identity, tokenizer, size, overlap, 0);
    if text == "" {
      return [];
    }
    var tokenIds := tokenizer.encode(text);
    if tokenIds == [] {
      return [];
    }
    var step := size - overlap;
    chunks := [];
    var sequence: nat, start: nat := 0, 0;
    while start < |tokenIds|
      invariant start == Start(sequence, step)
      invariant sequence <= |expected|
      invariant chunks == expected[..sequence]
      decreases |tokenIds| - start
    {
      ChunkAt(text, identity, tokenizer, size, overlap, sequence);
      var window := tokenIds[start..Min(start + size, |tokenIds|)];
      chunks := chunks
        + [Chunk(BuildChunkId(identity.documentId, identity.versionId, sequence), sequence, tokenizer.decode(window))];
      sequence := sequence + 1;
      start := start + step;
    }
    ChunkAt(text, identity, tokenizer, size, overlap, sequence);
  }

  // ---- The shipped settings, in numbers ----

  /** Window `k` of a document, as text: tokens 896 k up to 896 k + 1024, or to the end. */
  function WindowText(tokenizer: Tokenizer, ids: seq<nat>, k: nat): string
    requires 896 * k <= |ids|
  {
    tokenizer.decode(ids[896 * k..if 896 * k + 1024 <= |ids| then 896 * k + 1024 else |ids|])
  }

  /** One chunk for every 896 tokens begun, none for an empty text; each under its number and the id of
      that number. */
  ghost predicate CutInWindows(chunks: seq<Chunk>, text: string, identity: DocumentIdentity, tokenizer: Tokenizer) {
    var ids := if text == "" then [] else tokenizer.encode(text);
    && 896 * (|chunks| - 1) < |ids| <= 896 * |chunks|
    && forall k :: 0 <= k < |chunks| ==> IsChunk(chunks[k], WindowText(tokenizer, ids, k), identity, k)
  }

  predicate IsChunk(chunk: Chunk, text: string, identity: DocumentIdentity, k: nat) {
    && chunk.text == text && chunk.sequence == k
    && chunk.chunkId == Uuid5(Uuids.Text(identity.documentId) + ":" + identity.versionId + ":" + Decimal(k))
  }

  lemma ShippedWindows(text: string, identity: DocumentIdentity, tokenizer: Tokenizer)
    ensures CutInWindows(Chunks(text, identity, tokenizer, CHUNK_SIZE_TOKENS, CHUNK_OVERLAP_TOKENS), text, identity,
      tokenizer)
  {
    hide Chunks, Uuids.Text, Decimal;
    var size, overlap := CHUNK_SIZE_TOKENS, CHUNK_OVERLAP_TOKENS;
    var chunks := Chunks(text, identity, tokenizer, size, overlap);
    forall k: nat | k <= |chunks|
      ensures Start(k, 896) == 896 * k
      ensures k < |chunks| <==> 896 * k < |Tokens(text, tokenizer)|
      ensures k < |chunks| ==> IsChunk(chunks[k], WindowText(tokenizer, Tokens(text, tokenizer), k), identity, k)
    {
      StartIsProduct(k, 896);
      ChunkAt(text, identity, tokenizer, size, overlap, k);
    }
  }

  /** At the shipped settings no token is embedded more than twice. */
  lemma AtMostTwoChunks(n: nat, position: nat)
    requires position < n
    ensures 1 <= |WindowsHolding(n, CHUNK_SIZE_TOKENS, CHUNK_OVERLAP_TOKENS, position)| <= 2
  {
    TokenMultiplicity(n, CHUNK_SIZE_TOKENS, CHUNK_OVERLAP_TOKENS, position);
    assert Steps(CHUNK_SIZE_TOKENS, 896) == 2;
  }

  /** NFR-012 at the chunker: the texts depend on the document's text alone, not on its identity. */
  lemma TextsIgnoreIdentity(text: string, identity: DocumentIdentity, identity': DocumentIdentity,
                            tokenizer: Tokenizer, size: nat, overlap: nat)
    requires overlap < size
    ensures Texts(Chunks(text, identity, tokenizer, size, overlap))
      == Texts(Chunks(text, identity', tokenizer, size, overlap))
  {
  }

  /** Chunk ids never collide: two chunks share one only if document, version and sequence agree. */
  lemma ChunkIdsDistinct(text: string, identity: DocumentIdentity, text': string, identity': DocumentIdentity,
                         tokenizer: Tokenizer, size: nat, overlap: nat, j: nat, k: nat)
    requires overlap < size
    requires j < |Chunks(text, identity, tokenizer, size, overlap)|
      && k < |Chunks(text', identity', tokenizer, size, overlap)|
    ensures Chunks(text, identity, tokenizer, size, overlap)[j].chunkId
      == Chunks(text', identity', tokenizer, size, overlap)[k].chunkId
      <==> identity.documentId == identity'.documentId && identity.versionId == identity'.versionId && j == k
  {
    if Chunks(text, identity, tokenizer, size, overlap)[j].chunkId
      == Chunks(text', identity', tokenizer, size, overlap)[k].chunkId {
      ChunkNameInjective(identity.documentId, identity.versionId, j, identity'.documentId, identity'.versionId, k);
    }
  }

  /** A tokenizer that, on this text, has one token for every space-separated word. */
  ghost predicate OneTokenPerWord(text: string, tokenizer: Tokenizer) {
    var ids, words := tokenizer.encode(text), Split(text);
    && |ids| == |words|
    && forall a, b :: 0 <= a <= b <= |words| ==> tokenizer.decode(ids[a..b]) == Join(words[a..b])
  }

  /** The words of the stored chunk texts, each chunk cut to its first `count` words. */
  function ChunkHeads(chunks: seq<Chunk>, count: nat): (hs: seq<seq<string>>)
    ensures |hs| == |chunks|
  {
    seq(|chunks|, k requires 0 <= k < |chunks| =>
      var words := Split(chunks[k].text); words[..Min(count, |words|)])
  }

  lemma ChunkWords(text: string, identity: DocumentIdentity, tokenizer: Tokenizer, size: nat, overlap: nat, k: nat)
    requires overlap < size && text != "" && OneTokenPerWord(text, tokenizer)
    requires k < Steps(|Split(text)|, size - overlap)
    ensures Split(Chunks(text, identity, tokenizer, size, overlap)[k].text)
      == Windows.Windows(Split(text), size, overlap)[k]
  {
    hide Split, Join, Start, Steps, BuildChunkId;
    var words, ids := Split(text), tokenizer.encode(text);
    StartInside(k, size - overlap, |words|);
    var a, b := Start(k, size - overlap), Min(Start(k, size - overlap) + size, |words|);
    assert Windows.Windows(ids, size, overlap)[k] == ids[a..b];
    SplitSpaceless(text);
    SplitOfJoin(words[a..b]);
  }

  /** An empty document has no chunks, and nothing is what they join up to. */
  lemma EmptyTextReassembles(identity: DocumentIdentity, tokenizer: Tokenizer, size: nat, overlap: nat)
    requires overlap < size
    ensures Join(Concat(ChunkHeads(Chunks("", identity, tokenizer, size, overlap), size - overlap))) == ""
  {
    ChunkAt("", identity, tokenizer, size, overlap, 0);
  }

  /** The stored chunk texts hold the whole document: without the overlaps they join up to it. */
  lemma ChunkTextsReassemble(text: string, identity: DocumentIdentity, tokenizer: Tokenizer, size: nat, overlap: nat)
    requires overlap < size && OneTokenPerWord(text, tokenizer)
    ensures Join(Concat(ChunkHeads(Chunks(text, identity, tokenizer, size, overlap), size - overlap))) == text
  {
    if text != "" {
      var words := Split(text);
      var chunks := Chunks(text, identity, tokenizer, size, overlap);
      var windows := Windows.Windows(words, size, overlap);
      var found, expected := ChunkHeads(chunks, size - overlap), Heads(windows, size - overlap);
      forall k | 0 <= k < |found|
        ensures found[k] == expected[k]
      {
        ChunkWords(text, identity, tokenizer, size, overlap, k);
      }
      assert found == expected;
      Reassembly(words, size, overlap);
      JoinOfSplit(text);
    }
  }
}
