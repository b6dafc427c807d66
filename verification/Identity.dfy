/** Document identity, chunk ids and index targets (`ingest/identity.py`, `ingest/chunking.py`). */
module Identity {
  import opened Uuids

  datatype DocumentIdentity = DocumentIdentity(documentId: Uuid, versionId: string, repositoryId: string)

  datatype IndexTarget = IndexTarget(collectionName: string, embeddingModelVersion: string)

  /** A name-based UUID. uuid5 (section 5.5 of RFC 9562) is taken to be collision-free inside the
      one namespace the chunker uses, so an id is as good as the name it was derived from. */
  datatype ChunkId = Uuid5(name: string)

  function DigitChar(d: nat): char
    requires d < 10
  {
    '0' + d as char
  }

  /** `str(n)` for a natural number. */
  function Decimal(n: nat): (s: string)
    ensures |s| > 0
    ensures forall i :: 0 <= i < |s| ==> '0' <= s[i] <= '9'
  {
    if n < 10 then [DigitChar(n)] else Decimal(n / 10) + [DigitChar(n % 10)]
  }

  lemma {:induction false} DecimalInjective(m: nat, n: nat)
    requires Decimal(m) == Decimal(n)
    ensures m == n
  {
    var s, t := Decimal(m), Decimal(n);
    assert s[|s| - 1] == DigitChar(m % 10) && t[|t| - 1] == DigitChar(n % 10);
    if m >= 10 && n >= 10 {
      assert s[..|s| - 1] == Decimal(m / 10) && t[..|t| - 1] == Decimal(n / 10);
      DecimalInjective(m / 10, n / 10);
    }
  }

  function ChunkName(documentId: Uuid, versionId: string, sequence: nat): string {
    Text(documentId) + ":" + versionId + ":" + Decimal(sequence)
  }

  function BuildChunkId(documentId: Uuid, versionId: string, sequence: nat): ChunkId {
    Uuid5(ChunkName(documentId, versionId, sequence))
  }

  /** The last colon of a name is the one before the sequence number, whatever the version holds. */
  lemma LastColonSplits(v: string, d: string, v': string, d': string)
    requires v + ":" + d == v' + ":" + d'
    requires ':' !in d && ':' !in d'
    ensures v == v' && d == d'
  {
    var s, s' := v + ":" + d, v' + ":" + d';
    assert s[|v|] == ':' && s'[|v'|] == ':';
    assert v == s[..|v|] && v' == s'[..|v|];
    assert d == s[|v| + 1..] && d' == s'[|v| + 1..];
  }

  /** Different triples get different names, even when a version id contains colons. */
  lemma ChunkNameInjective(doc: Uuid, version: string, sequence: nat, doc': Uuid, version': string, sequence': nat)
    requires ChunkName(doc, version, sequence) == ChunkName(doc', version', sequence')
    ensures doc == doc' && version == version' && sequence == sequence'
  {
    var s, s' := ChunkName(doc, version, sequence), ChunkName(doc', version', sequence');
    assert Text(doc) == s[..TEXT_LENGTH] && Text(doc') == s'[..TEXT_LENGTH];
    TextInjective(doc, doc');
    var tail, tail' := version + ":" + Decimal(sequence), version' + ":" + Decimal(sequence');
    assert tail == s[TEXT_LENGTH + 1..] && tail' == s'[TEXT_LENGTH + 1..];
    LastColonSplits(version, Decimal(sequence), version', Decimal(sequence'));
    DecimalInjective(sequence, sequence');
  }
}
