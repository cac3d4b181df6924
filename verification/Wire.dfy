/** The record format: encoding an append, and classifying what replay reads back. */
module Wire {
  import opened Types
  import Utf8

  /** The parsers the library calls but does not define: uuid.UUID, json.loads (with NaN and the
      infinities refused), and SQLite's json(), which returns the normalized text or raises. */
  datatype Parsers = Parsers(isUuid: Text -> bool, isJson: Text -> bool, json: Text -> Option<Text>)

  const VERSION: Bytes := [0x31]  // b"1"

  datatype Classified =
    | KsqliteRecord(messageId: Text, entityKey: Text, payload: Text)
    | UnknownVersionRecord
    | ForeignRecord

  /** `dict(headers).get(name)`: the last header of that name. */
  function Lookup(headers: seq<Header>, name: string): Option<Bytes> {
    if headers == [] then None
    else if Last(headers).0 == name then Some(Last(headers).1)
    else Lookup(DropLast(headers), name)
  }

  /** The checks in the order the code makes them: id, version, key, value. */
  function Classify(p: Parsers, r: Record): Classified {
    var idBytes := Lookup(r.headers, "message_id");
    if idBytes.None? then ForeignRecord
    else
      var id := Utf8.Decode(idBytes.value);
      if id.None? || !p.isUuid(id.value) then ForeignRecord
      else if Lookup(r.headers, "format_version") != Some(VERSION) then UnknownVersionRecord
      else if r.key.None? then ForeignRecord
      else
        var key := Utf8.Decode(r.key.value);
        if key.None? then ForeignRecord
        else if r.value.None? then ForeignRecord
        else
          var payload := Utf8.Decode(r.value.value);
          if payload.None? then ForeignRecord
          else KsqliteRecord(id.value, key.value, payload.value)
  }

  /** What one record does to a replay transaction: its insert runs json(:payload), so a v1 record
      that SQLite cannot normalize raises like an unknown version does, with another error. */
  function Judge(p: Parsers, r: Record): Verdict {
    match Classify(p, r)
    case ForeignRecord => Foreign
    case UnknownVersionRecord => Poison(RehydrateError)
    case KsqliteRecord(id, key, payload) =>
      if p.json(payload).None? then Poison(Sqlite) else Ours(id, key, p.json(payload).value)
  }

  function DecoderOf(p: Parsers): Decoder {
    (r: Record) => Judge(p, r)
  }

  /** The decoder is the one these parsers give. */
  ghost predicate Decodes(p: Parsers, d: Decoder) {
    forall r {:trigger Judge(p, r)} :: d(r) == Judge(p, r)
  }

  /** A host payload: JSON text, or an object with what json.dumps(allow_nan=False) makes of it. */
  datatype Payload = JsonText(text: Text) | Object(dumped: Option<Text>)

  /** None is ValueError. */
  function SerializePayload(p: Parsers, payload: Payload): Option<Text> {
    match payload
    case JsonText(t) => if p.isJson(t) then Some(t) else None
    case Object(dumped) => dumped
  }

  datatype EncodedRecord = EncodedRecord(key: Bytes, value: Bytes, headers: seq<Header>) {
    /** The record as a fetch returns it from this offset. */
    function At(offset: nat): Record {
      Record(offset, Some(key), Some(value), headers)
    }
  }

  /** None is ValueError (UnicodeEncodeError is one). */
  function EncodeRecord(p: Parsers, key: Text, payload: Payload, id: Text): Option<EncodedRecord> {
    var value := SerializePayload(p, payload);
    if value.None? then None
    else
      var k, v, i := Utf8.Encode(key), Utf8.Encode(value.value), Utf8.Encode(id);
      if k.None? || v.None? || i.None? then None
      else Some(EncodedRecord(k.value, v.value, [("format_version", VERSION), ("message_id", i.value)]))
  }

  lemma {:induction false} LookupFinds(headers: seq<Header>, name: string, value: Bytes)
    requires (name, value) in headers
    requires forall h | h in headers :: h.0 == name ==> h.1 == value
    ensures Lookup(headers, name) == Some(value)
  {
    if Last(headers).0 != name {
      var i :| 0 <= i < |headers| && headers[i] == (name, value);
      assert DropLast(headers)[i] == (name, value);
      LookupFinds(DropLast(headers), name, value);
    }
  }

  /** Header `i` is the last of its name. */
  predicate LastNamed(headers: seq<Header>, name: string, i: nat) {
    i < |headers| && headers[i].0 == name && forall j | i < j < |headers| :: headers[j].0 != name
  }

  /** As in a dict built from the list, the last header of a name counts. */
  lemma {:induction false} LookupIsLast(headers: seq<Header>, name: string)
    ensures Lookup(headers, name).None? <==> forall i | 0 <= i < |headers| :: headers[i].0 != name
    ensures forall i: nat | LastNamed(headers, name, i) :: Lookup(headers, name) == Some(headers[i].1)
    ensures Lookup(headers, name).Some? ==> exists i: nat :: LastNamed(headers, name, i)
  {
    if headers != [] {
      var front := DropLast(headers);
      LookupIsLast(front, name);
      if Last(headers).0 == name {
        assert LastNamed(headers, name, |headers| - 1);
      } else {
        forall i: nat | LastNamed(headers, name, i) ensures Lookup(headers, name) == Some(headers[i].1) {
          assert LastNamed(front, name, i);
        }
        if Lookup(front, name).Some? {
          var i: nat :| LastNamed(front, name, i);
          assert LastNamed(headers, name, i);
        }
        assert forall i | 0 <= i < |front| :: headers[i] == front[i];
      }
    }
  }

  /** The bytes are the UTF-8 form of this text. */
  predicate Spells(bytes: Option<Bytes>, text: Text) {
    bytes.Some? && Utf8.Encode(text) == bytes
  }

  /** The record carries this message id, and it is a uuid. */
  ghost predicate HasId(p: Parsers, r: Record, id: Text) {
    p.isUuid(id) && exists i: nat :: LastNamed(r.headers, "message_id", i) && Spells(Some(r.headers[i].1), id)
  }

  /** Its format version is 1, the byte 0x31. */
  ghost predicate IsVersion1(r: Record) {
    exists i: nat :: LastNamed(r.headers, "format_version", i) && r.headers[i].1 == [0x31]
  }

  lemma DecodeSpells(b: Bytes)
    ensures forall t :: Spells(Some(b), t) <==> Utf8.Decode(b) == Some(t)
  {
    forall t ensures Spells(Some(b), t) <==> Utf8.Decode(b) == Some(t) {
      Utf8.DecodeEncode(t);
      Utf8.EncodeDecode(b);
    }
  }

  lemma IdAndVersion(p: Parsers, r: Record)
    ensures forall id :: HasId(p, r, id) <==>
              var b := Lookup(r.headers, "message_id"); b.Some? && Utf8.Decode(b.value) == Some(id) && p.isUuid(id)
    ensures IsVersion1(r) <==> Lookup(r.headers, "format_version") == Some([0x31])
  {
    LookupIsLast(r.headers, "message_id");
    LookupIsLast(r.headers, "format_version");
    var b := Lookup(r.headers, "message_id");
    if b.Some? {
      DecodeSpells(b.value);
    }
  }

  /** What replay makes of a record, from its headers, key and value alone.  Without a uuid for message id
      it is foreign; with one it is the library's, and an unknown version raises; a version 1 record whose
      key or value is missing or not UTF-8 is foreign; any other is ours, or raises if SQLite refuses it. */
  lemma JudgeExactly(p: Parsers, r: Record)
    ensures (forall id :: !HasId(p, r, id)) ==> Judge(p, r) == Foreign
    ensures (exists id :: HasId(p, r, id)) && !IsVersion1(r) ==> Judge(p, r) == Poison(RehydrateError)
    ensures IsVersion1(r) && (forall key :: !Spells(r.key, key)) ==> Judge(p, r) == Foreign
    ensures IsVersion1(r) && (forall text :: !Spells(r.value, text)) ==> Judge(p, r) == Foreign
    ensures forall id, key, text | IsVersion1(r) && HasId(p, r, id) && Spells(r.key, key) && Spells(r.value, text) ::
              Judge(p, r) ==
                if p.json(text).None? then Poison(Sqlite) else Ours(id, key, p.json(text).value)
  {
    hide Utf8.Decode, Utf8.Encode, Lookup, HasId, IsVersion1, Spells;
    IdAndVersion(p, r);
    NoneSpells(r.key);
    NoneSpells(r.value);
    if r.key.Some? {
      DecodeSpells(r.key.value);
    }
    if r.value.Some? {
      DecodeSpells(r.value.value);
    }
  }

  lemma NoneSpells(bytes: Option<Bytes>)
    ensures bytes.None? ==> forall t :: !Spells(bytes, t)
    ensures bytes.Some? ==> bytes == Some(bytes.value)
  {
  }

  /** What an append puts on the wire. */
  lemma WireFormat(p: Parsers, key: Text, payload: Payload, id: Text, offset: nat)
    requires EncodeRecord(p, key, payload, id).Some?
    ensures match payload case JsonText(text) => p.isJson(text) case Object(dumped) => dumped.Some?
    ensures var r := EncodeRecord(p, key, payload, id).value.At(offset);
            && r.offset == offset && Spells(r.key, key)
            && Spells(r.value, match payload case JsonText(text) => text case Object(dumped) => dumped.value)
            && |r.headers| == 2 && r.headers[0] == ("format_version", [0x31])
            && r.headers[1].0 == "message_id" && Spells(Some(r.headers[1].1), id)
  {
  }

  predicate Reserved(h: Header) {
    h.0 == "format_version" || h.0 == "message_id"
  }

  /** Every record append produces is classified back to what append inserts, wherever it lands and
      in whatever order its headers come back, with any other headers among them. */
  lemma ClassifyEncode(p: Parsers, key: Text, payload: Payload, id: Text, offset: nat,
                       headers: seq<Header>, extras: seq<Header>)
    requires EncodeRecord(p, key, payload, id).Some? && p.isUuid(id)
    requires forall h | h in extras :: !Reserved(h)
    requires multiset(headers) == multiset(EncodeRecord(p, key, payload, id).value.headers) + multiset(extras)
    ensures var e := EncodeRecord(p, key, payload, id).value;
            var r := Record(offset, Some(e.key), Some(e.value), headers);
            && Classify(p, r) == KsqliteRecord(id, key, SerializePayload(p, payload).value)
            && Utf8.Decode(e.value) == SerializePayload(p, payload)
  {
    var e := EncodeRecord(p, key, payload, id).value;
    var text := SerializePayload(p, payload).value;
    Utf8.DecodeEncode(key);
    Utf8.DecodeEncode(text);
    Utf8.DecodeEncode(id);
    assert forall h :: h in headers <==> h in multiset(headers);
    assert forall h :: h in e.headers <==> h in multiset(e.headers);
    assert forall h :: h in extras <==> h in multiset(extras);
    assert e.headers[0] in headers && e.headers[1] in headers;
    LookupFinds(headers, "message_id", e.headers[1].1);
    LookupFinds(headers, "format_version", VERSION);
  }
}
