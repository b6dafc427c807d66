/** The opaque page cursor of both admin lists: `encode_cursor` and `decode_cursor`, which
    `admin/document_store.py` and `audit/event_store.py` hold one copy of each. */
module Cursors {
  import opened Wrappers
  import opened Uuids
  import opened Base64url
  import Timestamps

  /** What both lists are sorted by. */
  datatype Key = Key(timestamp: Timestamps.DateTime, id: Uuid)

  datatype CursorError = MalformedCursor

  const BEFORE_TIMESTAMP := "{\"last_seen_timestamp\": \""
  const BEFORE_ID := "\", \"last_seen_id\": \""
  const AFTER_ID := "\"}"

  function JsonText(key: Key): string {
    BEFORE_TIMESTAMP + Timestamps.IsoFormat(key.timestamp) + BEFORE_ID + Text(key.id) + AFTER_ID
  }

  /** `json.loads` and the two lookups, on the texts that `json.dumps` writes for a key. */
  function ParseJson(s: string): Option<Key> {
    var shell := |BEFORE_TIMESTAMP| + |BEFORE_ID| + TEXT_LENGTH + |AFTER_ID|;
    if |s| < shell then None
    else
      var i := |BEFORE_TIMESTAMP|;
      var j := |s| - |AFTER_ID| - TEXT_LENGTH - |BEFORE_ID|;
      var k := |s| - |AFTER_ID| - TEXT_LENGTH;
      if s[..i] != BEFORE_TIMESTAMP || s[j..k] != BEFORE_ID || s[k + TEXT_LENGTH..] != AFTER_ID then None
      else match (Timestamps.FromIsoFormat(s[i..j]), Parse(s[k..k + TEXT_LENGTH])) {
        case (Some(timestamp), Some(id)) => Some(Key(timestamp, id))
        case _ => None
      }
  }

  lemma Members(a: string, iso: string, b: string, id: string, c: string)
    ensures var s, i := a + iso + b + id + c, |a|;
      var j := i + |iso|;
      var k := j + |b|;
      && s[..i] == a && s[i..j] == iso && s[j..k] == b
      && s[k..k + |id|] == id && s[k + |id|..] == c
  {
  }

  lemma ParseJsonOfJsonText(key: Key)
    ensures ParseJson(JsonText(key)) == Some(key)
  {
    Members(BEFORE_TIMESTAMP, Timestamps.IsoFormat(key.timestamp), BEFORE_ID, Text(key.id), AFTER_ID);
    Timestamps.FromIsoFormatOfIsoFormat(key.timestamp);
    ParseText(key.id);
  }

  lemma TextIsAscii(id: Uuid)
    ensures forall i :: 0 <= i < |Text(id)| ==> Text(id)[i] < 128 as char
  {
    HexIsAscii(id, 32);
  }

  lemma {:induction false} HexIsAscii(n: nat, width: nat)
    ensures forall i :: 0 <= i < width ==> Hex(n, width)[i] < 128 as char
  {
    if width > 0 {
      HexIsAscii(n / 16, width - 1);
    }
  }

  lemma JsonTextIsAscii(key: Key)
    ensures forall i :: 0 <= i < |JsonText(key)| ==> JsonText(key)[i] < 128 as char
  {
    hide Timestamps.IsoFormat, Text;
    TextIsAscii(key.id);
    var front := BEFORE_TIMESTAMP + Timestamps.IsoFormat(key.timestamp);
    AsciiJoins(BEFORE_TIMESTAMP, Timestamps.IsoFormat(key.timestamp));
    AsciiJoins(front, BEFORE_ID);
    AsciiJoins(front + BEFORE_ID, Text(key.id));
    AsciiJoins(front + BEFORE_ID + Text(key.id), AFTER_ID);
  }

  lemma AsciiJoins(s: string, t: string)
    requires (forall i :: 0 <= i < |s| ==> s[i] < 128 as char) && forall i :: 0 <= i < |t| ==> t[i] < 128 as char
    ensures forall i :: 0 <= i < |s + t| ==> (s + t)[i] < 128 as char
  {
  }

  function EncodeCursor(key: Key): string {
    JsonTextIsAscii(key);
    Encode(Bytes(JsonText(key)))
  }

  function DecodeCursor(cursor: string): Result<Key, CursorError> {
    match Decode(cursor)
    case None => Failure(MalformedCursor)
    case Some(bytes) =>
      match Ascii(bytes)
      case None => Failure(MalformedCursor)
      case Some(text) =>
        match ParseJson(text)
        case None => Failure(MalformedCursor)
        case Some(key) => Success(key)
  }

  /** A cursor gives back exactly the key it was made from. */
  lemma DecodeOfEncodeCursor(key: Key)
    ensures DecodeCursor(EncodeCursor(key)) == Success(key)
  {
    hide JsonText, ParseJson, Encode, Decode;
    JsonTextIsAscii(key);
    DecodeOfEncode(Bytes(JsonText(key)));
    AsciiOfBytes(JsonText(key));
    ParseJsonOfJsonText(key);
  }

  /** It holds the JSON of the key's two texts, and can go into a query string. */
  lemma EncodedCursorIs(key: Key)
    ensures UrlSafe(EncodeCursor(key))
    ensures IsJsonOf(Decode(EncodeCursor(key)), Timestamps.IsoFormat(key.timestamp), key.id)
  {
    hide Encode, Decode, UrlSafe;
    JsonTextIsAscii(key);
    EncodeIsUrlSafe(Bytes(JsonText(key)));
    DecodeOfEncode(Bytes(JsonText(key)));
    AsciiOfBytes(JsonText(key));
    Timestamps.FromIsoFormatOfIsoFormat(key.timestamp);
    assert JsonText(key) == Framed(Timestamps.IsoFormat(key.timestamp), key.id);
  }

  /** Behind a cursor that is accepted there is the JSON of a timestamp and an id, in base64url; every
      other is refused. */
  lemma AcceptedIsWellFormed(cursor: string)
    ensures DecodeCursor(cursor).Success? ==> exists iso, id :: IsJsonOf(Decode(cursor), iso, id)
    ensures forall iso, id :: IsJsonOf(Decode(cursor), iso, id) ==>
      DecodeCursor(cursor) == Success(Key(Timestamps.FromIsoFormat(iso).value, id))
  {
    hide Decode, Ascii, ParseJson, Timestamps.FromIsoFormat;
    match Decode(cursor)
    case None =>
    case Some(bytes) =>
      if Ascii(bytes).Some? && ParseJson(Ascii(bytes).value).Some? {
        ParseJsonIff(Ascii(bytes).value);
        var iso, id :| Ascii(bytes).value == Framed(iso, id) && Timestamps.FromIsoFormat(iso).Some?;
        assert IsJsonOf(Decode(cursor), iso, id);
      }
      forall iso, id | IsJsonOf(Some(bytes), iso, id)
        ensures DecodeCursor(cursor) == Success(Key(Timestamps.FromIsoFormat(iso).value, id))
      {
        FramedParses(iso, id);
      }
  }

  function Framed(iso: string, id: Uuid): string {
    "{\"last_seen_timestamp\": \"" + iso + "\", \"last_seen_id\": \"" + Text(id) + "\"}"
  }

  predicate IsJsonOf(bytes: Option<seq<Byte>>, iso: string, id: Uuid) {
    bytes.Some? && Ascii(bytes.value) == Some(Framed(iso, id)) && Timestamps.FromIsoFormat(iso).Some?
  }

  lemma FramedParses(iso: string, id: Uuid)
    requires Timestamps.FromIsoFormat(iso).Some?
    ensures ParseJson(Framed(iso, id)) == Some(Key(Timestamps.FromIsoFormat(iso).value, id))
  {
    hide Timestamps.FromIsoFormat;
    Members(BEFORE_TIMESTAMP, iso, BEFORE_ID, Text(id), AFTER_ID);
    ParseText(id);
  }

  lemma ParseJsonIff(s: string)
    ensures ParseJson(s).Some? ==> exists iso, id :: s == Framed(iso, id) && Timestamps.FromIsoFormat(iso).Some?
  {
    hide Timestamps.FromIsoFormat, Parse;
    if ParseJson(s).Some? {
      var i, k := |BEFORE_TIMESTAMP|, |s| - |AFTER_ID| - TEXT_LENGTH;
      var j := k - |BEFORE_ID|;
      TextOfParse(s[k..k + TEXT_LENGTH]);
      assert s == s[..i] + s[i..j] + s[j..k] + s[k..k + TEXT_LENGTH] + s[k + TEXT_LENGTH..];
      assert s == Framed(s[i..j], ParseJson(s).value.id);
    }
  }
}
