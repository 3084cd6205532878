/** Map.getBlock from the point where the database row is in hand
    (map.py:47-172): the versioned decode of one stored block record. */
module Decoder {
  import opened Results
  import opened ByteCursor
  import opened Codecs
  import opened NameTable
  import opened Sections
  import opened MapBlocks

  /** Nodes in a block: 16 x 16 x 16. */
  const NodesPerBlock: nat := 4096

  /** The per-node content and params widths of versions >= 22. */
  datatype Widths = Widths(content: nat, params: nat)

  /** Bytes of node data a version >= 29 record declares: 4096 nodes of
      content_width + params_width bytes each. */
  function GridSize(w: Widths): nat
  {
    NodesPerBlock * (w.content + w.params)
  }

  /** What the header yields: the byte read as flags (its bits are tested
      and dropped), the inline table entries (versions >= 29) and the
      widths (versions >= 22). */
  datatype Head = Head(flags: nat, entries: seq<Entry>, widths: Option<Widths>)

  function ParseWidths(s: seq<Byte>, p: nat): (r: Result<Parsed<Option<Widths>>>)
    requires p <= |s|
    ensures r.Ok? <==> p + 2 <= |s|
    ensures r.Ok? ==> r.value == Parsed(Some(Widths(s[p] as nat, s[p + 1] as nat)), p + 2)
    ensures r.Err? ==> r.error == Truncated
  {
    var contentWidth :- U8At(s, p);
    var paramsWidth :- U8At(s, contentWidth.next);
    Ok(Parsed(Some(Widths(contentWidth.value, paramsWidth.value)), paramsWidth.next))
  }

  /** map.py:62-87, from the start of the working buffer: the flags byte,
      the lighting field (>= 27), the inline table (>= 29) and the widths
      (>= 22). */
  function ParseHead(s: seq<Byte>, version: nat): (r: Result<Parsed<Head>>)
    ensures r.Ok? ==> r.value.next <= |s|
    ensures r.Ok? ==> (r.value.value.widths.Some? <==> version >= 22)
    ensures r.Err? ==> r.error == Truncated
  {
    var flags :- U8At(s, 0);
    var lightingComplete :- if version >= 27 then U16At(s, flags.next) else Ok(Parsed(0, flags.next));
    var table :- if version >= 29 then ParseInlineTable(s, lightingComplete.next) else Ok(Parsed([], lightingComplete.next));
    var widths :- if version >= 22 then ParseWidths(s, table.next) else Ok(Parsed(None, table.next));
    Ok(Parsed(Head(flags.value, table.value, widths.value), widths.next))
  }

  /** A version >= 29 record once its envelope is off: the header, then
      4096 * (content_width + params_width) bytes of node data at most, and
      nothing after that is read. */
  function DecodeCurrent(s: seq<Byte>, version: nat): (r: Result<Block>)
    requires version >= 29
    ensures r.Err? ==> r.error == Truncated
    ensures r.Ok? ==> r.value.Decoded? && |r.value.mapdata| <= |s|
  {
    var head :- ParseHead(s, version);
    var w := head.value.widths.value;
    var mapdata := BytesAt(s, head.next, GridSize(w));
    Ok(Decoded(Apply(map[], head.value.entries), mapdata.value))
  }

  /** A version < 29 record, read from its first byte: the header, the node
      data stream, the node metadata stream (its payload dropped), then the
      sections after it, read from the second stream's unused tail. */
  function DecodeLegacy(record: seq<Byte>, version: nat, zlib: Zlib): (r: Result<Block>)
    requires version < 29
    ensures r.Ok? ==> r.value.Decoded?
    ensures r.Err? ==> r.error == Truncated
  {
    var head :- ParseHead(record, version);
    DecodeStreams(record[head.next..], version, Apply(map[], head.value.entries), zlib)
  }

  /** What follows the header of a version < 29 record (map.py:96-172),
      given the rest of the record and the table read so far. */
  function DecodeStreams(rest: seq<Byte>, version: nat, idToName: IdToName, zlib: Zlib): (r: Result<Block>)
    ensures r.Err? ==> r.error == Truncated
    ensures r.Ok? ==> r.value.Decoded? && idToName.Keys <= r.value.idToName.Keys
  {
    var nodeData := Peel(zlib, rest);
    var metadata := Peel(zlib, nodeData.tail);
    var trailer :- ParseTrailer(metadata.tail, 0, version);
    Ok(Decoded(Apply(idToName, trailer.value.entries), nodeData.payload))
  }

  /** The decode of a stored record: the version is its first byte. */
  function DecodeRecord(record: seq<Byte>, zstd: Zstd, zlib: Zlib): (r: Result<Block>)
    ensures r == Err(EmptyRecord) <==> |record| == 0
    ensures r.Err? ==> r.error == EmptyRecord || r.error == CorruptEnvelope || r.error == Truncated
    ensures r.Ok? ==> r.value.Decoded?
  {
    if |record| == 0 then Err(EmptyRecord)
    else
      var version := record[0] as nat;
      if version >= 29 then
        match zstd(record[1..])
        case None => Err(CorruptEnvelope)
        case Some(plain) => DecodeCurrent(plain, version)
      else
        DecodeLegacy(record, version, zlib)
  }

  /** What getBlock returns for the row its query found, if any. */
  function BlockFor(row: Option<seq<Byte>>, zstd: Zstd, zlib: Zlib): (r: Result<Block>)
    ensures row.None? ==> r == Ok(Dummy)
    ensures row.Some? ==> r == DecodeRecord(row.value, zstd, zlib) && r != Ok(Dummy)
  {
    match row
    case None => Ok(Dummy)
    case Some(record) => DecodeRecord(record, zstd, zlib)
  }

  // ---------------------------------------------------------------------
  // Properties of the decode

  /** getBlock answers with a DummyMapBlock exactly when its query found
      no row; a record that is found decodes to a MapBlock or fails. */
  lemma DummyExactlyWhenNoRow(row: Option<seq<Byte>>, zstd: Zstd, zlib: Zlib)
    ensures BlockFor(row, zstd, zlib) == Ok(Dummy) <==> row.None?
    ensures row.Some? && BlockFor(row, zstd, zlib).Ok? ==> BlockFor(row, zstd, zlib).value.Decoded?
  {
  }

  /** Header consumption: the flags byte is the buffer's first byte; the
      2-byte lighting field is read iff version >= 27; the inline table,
      4 + 1 + 2 + sum(4 + |name|) bytes, iff version >= 29, starting right
      after the lighting field at offset 3; the content and params width
      bytes iff version >= 22, as the last two bytes of the header. */
  lemma HeadConsumes(s: seq<Byte>, version: nat)
    requires ParseHead(s, version).Ok?
    ensures var Parsed(h, q) := ParseHead(s, version).value;
      && h.flags == s[0] as nat
      && (version < 29 ==> h.entries == [])
      && (version >= 29 ==> h.entries == ParseInlineTable(s, 3).value.value)
      && q == 1
           + (if version >= 27 then 2 else 0)
           + (if version >= 29 then 7 + EntriesSize(h.entries) else 0)
           + (if version >= 22 then 2 else 0)
      && (version >= 22 ==> h.widths == Some(Widths(s[q - 2] as nat, s[q - 1] as nat)))
  {
    var p := if version >= 27 then 3 else 1;
    if version >= 29 {
      ParseInlineTableConsumes(s, p);
    }
  }

  /** For version < 29 the cursor starts at the record's first byte, so
      the byte taken for the flags is the version byte itself and, for
      versions 22 to 26, the "widths" are the record's second and third
      bytes. The header then needs exactly 1, 3 or 5 bytes. */
  lemma LegacyHeadReadsVersionAsFlags(record: seq<Byte>)
    requires |record| > 0 && record[0] < 29
    ensures var version := record[0] as nat;
      var size := 1 + (if version >= 27 then 2 else 0) + (if version >= 22 then 2 else 0);
      && (ParseHead(record, version).Ok? <==> size <= |record|)
      && (ParseHead(record, version).Ok? ==>
            && ParseHead(record, version).value.value.flags == version
            && ParseHead(record, version).value.next == size
            && (22 <= version < 27 ==>
                  ParseHead(record, version).value.value.widths == Some(Widths(record[1] as nat, record[2] as nat))))
  {
    var version := record[0] as nat;
    if ParseHead(record, version).Ok? {
      HeadConsumes(record, version);
    }
  }

  /** A version >= 29 record: the envelope is everything after the version
      byte; a failing zstd fails the decode; otherwise the plain bytes are
      decoded by DecodeCurrent, and the zlib oracle is never used. */
  lemma CurrentDecode(record: seq<Byte>, zstd: Zstd, zlib: Zlib, zlib': Zlib)
    requires |record| > 0 && record[0] >= 29
    ensures zstd(record[1..]).None? ==> DecodeRecord(record, zstd, zlib) == Err(CorruptEnvelope)
    ensures zstd(record[1..]).Some? ==>
      DecodeRecord(record, zstd, zlib) == DecodeCurrent(zstd(record[1..]).value, record[0] as nat)
    ensures DecodeRecord(record, zstd, zlib) == DecodeRecord(record, zstd, zlib')
  {
  }

  /** The header of a version >= 29 record: 1 flags byte, 2 lighting
      bytes, the inline table read from offset 3 and 2 width bytes. */
  lemma CurrentHeadSize(s: seq<Byte>, version: nat)
    requires version >= 29 && ParseHead(s, version).Ok?
    ensures ParseHead(s, version).value.next == 12 + EntriesSize(ParseHead(s, version).value.value.entries)
    ensures ParseHead(s, version).value.value.entries == ParseInlineTable(s, 3).value.value
  {
    HeadConsumes(s, version);
  }

  /** The plain bytes of a version >= 29 record: decoding succeeds exactly
      when the header fits; the table is built from the inline entries
      read at offset 3 alone, its keys the ids read; the node data is the next 4096 *
      (content_width + params_width) bytes, fewer only where the plain
      bytes end. */
  lemma CurrentLayout(s: seq<Byte>, version: nat)
    requires version >= 29
    ensures DecodeCurrent(s, version).Ok? <==> ParseHead(s, version).Ok?
    ensures ParseHead(s, version).Err? ==> DecodeCurrent(s, version) == Err(Truncated)
    ensures ParseHead(s, version).Ok? ==>
      var Parsed(h, q) := ParseHead(s, version).value;
      var size := GridSize(h.widths.value);
      var b := DecodeCurrent(s, version).value;
      && q == 12 + EntriesSize(h.entries)
      && b.Decoded?
      && b.idToName == Apply(map[], h.entries)
      && h.entries == ParseInlineTable(s, 3).value.value
      && b.idToName.Keys == Ids(h.entries)
      && |b.mapdata| <= size
      && (|b.mapdata| == size <==> q + size <= |s|)
      && (|b.mapdata| < size ==> q + |b.mapdata| == |s|)
      && b.mapdata == s[q..q + |b.mapdata|]
  {
    var head := ParseHead(s, version);
    if head.Ok? {
      CurrentHeadSize(s, version);
      ApplyKeys(map[], head.value.value.entries);
      var w := head.value.value.widths.value;
      var data := BytesAt(s, head.value.next, GridSize(w));
      assert DecodeCurrent(s, version) == Ok(Decoded(Apply(map[], head.value.value.entries), data.value));
    }
  }

  /** A version < 29 record: the zstd oracle is not used; the node data is
      the payload of the first zlib stream (empty if it raised); the
      metadata stream is read from the first stream's unused tail and its
      payload is dropped; the remaining sections are read from the second
      stream's unused tail, and decoding succeeds exactly when they parse.
      The table holds exactly the ids of the legacy NameIdMapping, which
      versions < 22 do not have. */
  lemma LegacyDecode(record: seq<Byte>, zstd: Zstd, zstd': Zstd, zlib: Zlib)
    requires |record| > 0 && record[0] < 29
    ensures DecodeRecord(record, zstd, zlib) == DecodeRecord(record, zstd', zlib)
    ensures var version := record[0] as nat;
      ParseHead(record, version).Err? ==> DecodeRecord(record, zstd, zlib) == Err(Truncated)
    ensures var version := record[0] as nat;
      ParseHead(record, version).Ok? ==>
        var nodeData := Peel(zlib, record[ParseHead(record, version).value.next..]);
        var metadata := Peel(zlib, nodeData.tail);
        var trailer := ParseTrailer(metadata.tail, 0, version);
        && (DecodeRecord(record, zstd, zlib).Ok? <==> trailer.Ok?)
        && (trailer.Err? ==> DecodeRecord(record, zstd, zlib) == Err(Truncated))
        && (trailer.Ok? ==>
              var b := DecodeRecord(record, zstd, zlib).value;
              && b.Decoded?
              && b.mapdata == nodeData.payload
              && (zlib(record[ParseHead(record, version).value.next..]).Raised? ==> b.mapdata == [])
              && b.idToName == Apply(map[], trailer.value.value.entries)
              && b.idToName.Keys == Ids(trailer.value.value.entries)
              && (version < 22 ==> b.idToName == map[]))
  {
    var version := record[0] as nat;
    if ParseHead(record, version).Ok? {
      HeadConsumes(record, version);
      var nodeData := Peel(zlib, record[ParseHead(record, version).value.next..]);
      var metadata := Peel(zlib, nodeData.tail);
      var trailer := ParseTrailer(metadata.tail, 0, version);
      if trailer.Ok? {
        TrailerConsumes(metadata.tail, 0, version);
        ApplyKeys(map[], trailer.value.value.entries);
      }
    }
  }

  /** What follows the header depends on the metadata stream only through
      its unused tail. */
  lemma StreamsIgnoreMetadataPayload(rest: seq<Byte>, version: nat, idToName: IdToName, zlib: Zlib, zlib': Zlib)
    requires Peel(zlib, rest).tail == Peel(zlib', rest).tail
    requires Peel(zlib, Peel(zlib, rest).tail).tail == Peel(zlib', Peel(zlib, rest).tail).tail
    ensures DecodeStreams(rest, version, idToName, zlib).Ok? <==> DecodeStreams(rest, version, idToName, zlib').Ok?
    ensures DecodeStreams(rest, version, idToName, zlib).Ok? ==>
      DecodeStreams(rest, version, idToName, zlib).value.idToName == DecodeStreams(rest, version, idToName, zlib').value.idToName
  {
  }

  /** The node metadata payload is discarded: two zlib oracles that leave
      the same unused tails give the same verdict and the same table. */
  lemma MetadataPayloadDiscarded(record: seq<Byte>, zstd: Zstd, zlib: Zlib, zlib': Zlib)
    requires |record| > 0 && record[0] < 29
    requires forall s :: Peel(zlib, s).tail == Peel(zlib', s).tail
    ensures DecodeRecord(record, zstd, zlib).Ok? <==> DecodeRecord(record, zstd, zlib').Ok?
    ensures DecodeRecord(record, zstd, zlib).Ok? ==>
      DecodeRecord(record, zstd, zlib).value.idToName == DecodeRecord(record, zstd, zlib').value.idToName
  {
    var version := record[0] as nat;
    var head := ParseHead(record, version);
    if head.Ok? {
      var rest := record[head.value.next..];
      var t1 := Peel(zlib, rest).tail;
      assert t1 == Peel(zlib', rest).tail;
      assert Peel(zlib, t1).tail == Peel(zlib', t1).tail;
      StreamsIgnoreMetadataPayload(rest, version, Apply(map[], head.value.value.entries), zlib, zlib');
    }
  }

  /** With a zlib that reports tails of its input, the sections after the
      metadata stream are read from bytes at the end of the record itself. */
  lemma TrailerIsRecordSuffix(record: seq<Byte>, zlib: Zlib)
    requires KeepsTail(zlib)
    requires |record| > 0 && record[0] < 29
    requires ParseHead(record, record[0] as nat).Ok?
    ensures var rest := record[ParseHead(record, record[0] as nat).value.next..];
      IsSuffix(Peel(zlib, Peel(zlib, rest).tail).tail, record)
  {
    var rest := record[ParseHead(record, record[0] as nat).value.next..];
    var t1 := Peel(zlib, rest).tail;
    var t2 := Peel(zlib, t1).tail;
    assert IsSuffix(t1, rest) && IsSuffix(t2, t1);
    assert rest == record[|record| - |rest|..];
    assert t1 == rest[|rest| - |t1|..] == record[|record| - |t1|..];
    assert t2 == t1[|t1| - |t2|..] == record[|record| - |t2|..];
  }

  /** The except branch of map.py:99-100 cannot rescue a legacy record:
      when the node data stream leaves no unused tail (it raised, or it
      ran to the end of the record), the metadata stream has nothing to
      read, and with a zlib that reports tails of its input the next
      fixed-width read fails, so the whole decode fails. */
  lemma EmptyNodeDataTailIsFatal(record: seq<Byte>, zstd: Zstd, zlib: Zlib)
    requires KeepsTail(zlib)
    requires |record| > 0 && record[0] < 29
    requires ParseHead(record, record[0] as nat).Ok?
    requires Peel(zlib, record[ParseHead(record, record[0] as nat).value.next..]).tail == []
    ensures DecodeRecord(record, zstd, zlib) == Err(Truncated)
  {
    var rest := record[ParseHead(record, record[0] as nat).value.next..];
    assert IsSuffix(Peel(zlib, []).tail, []);
  }

  /** In particular, a node data stream that raises makes the decode fail. */
  lemma RaisingNodeDataIsFatal(record: seq<Byte>, zstd: Zstd, zlib: Zlib)
    requires KeepsTail(zlib)
    requires |record| > 0 && record[0] < 29
    requires ParseHead(record, record[0] as nat).Ok?
    requires zlib(record[ParseHead(record, record[0] as nat).value.next..]).Raised?
    ensures DecodeRecord(record, zstd, zlib) == Err(Truncated)
  {
    EmptyNodeDataTailIsFatal(record, zstd, zlib);
  }

  // ---------------------------------------------------------------------
  // The decoder itself, on cursors

  /** map.py:62-87 on a cursor at the start of its buffer; the table is
      filled in place. */
  method ReadHead(f: Cursor, version: nat) returns (r: Result<IdToName>, widths: Option<Widths>)
    requires f.Valid() && f.pos == 0
    modifies f
    ensures f.Valid()
    ensures ParseHead(f.data, version).Err? ==> r == Err(Truncated)
    ensures ParseHead(f.data, version).Ok? ==>
      && r == Ok(Apply(map[], ParseHead(f.data, version).value.value.entries))
      && widths == ParseHead(f.data, version).value.value.widths
      && f.pos == ParseHead(f.data, version).value.next
  {
    widths := None;
    var flags :- f.ReadU8();
    if version >= 27 {
      var lightingComplete :- f.ReadU16();
    }
    var idToName: IdToName := map[];
    if version >= 29 {
      idToName :- ReadInlineTable(f, idToName);
    }
    if version >= 22 {
      var contentWidth :- f.ReadU8();
      var paramsWidth :- f.ReadU8();
      widths := Some(Widths(contentWidth, paramsWidth));
    }
    return Ok(idToName), widths;
  }

  /** Map.getBlock after its query: row is what fetchone returned. */
  method GetBlock(row: Option<seq<Byte>>, zstd: Zstd, zlib: Zlib) returns (r: Result<Block>)
    ensures r == BlockFor(row, zstd, zlib)
  {
    if row.None? {
      return Ok(Dummy);
    }
    var record := row.value;
    if |record| == 0 {
      return Err(EmptyRecord);
    }
    var version := record[0] as nat;
    if version >= 29 {
      var plain := zstd(record[1..]);
      if plain.None? {
        return Err(CorruptEnvelope);
      }
      var f := new Cursor(plain.value);
      r := ReadCurrent(f, version);
    } else {
      var f := new Cursor(record);
      r := ReadLegacy(f, version, zlib);
    }
  }

  /** map.py:62-94 for a version >= 29 record, on a cursor over its plain
      bytes. */
  method ReadCurrent(f: Cursor, version: nat) returns (r: Result<Block>)
    requires f.Valid() && f.pos == 0 && version >= 29
    modifies f
    ensures r == DecodeCurrent(f.data, version)
  {
    ghost var head := ParseHead(f.data, version);
    var idToName, widths :- ReadHead(f, version);
    var mapdata := f.Read(GridSize(widths.value));
    return Ok(Decoded(idToName, mapdata));
  }

  /** map.py:62-172 for a version < 29 record, on a cursor over the whole
      record. */
  method ReadLegacy(f: Cursor, version: nat, zlib: Zlib) returns (r: Result<Block>)
    requires f.Valid() && f.pos == 0 && version < 29
    modifies f
    ensures r == DecodeLegacy(f.data, version, zlib)
  {
    ghost var head := ParseHead(f.data, version);
    var idToName, widths :- ReadHead(f, version);
    var rest := f.ReadAll();
    r := ReadStreams(rest, version, idToName, zlib);
  }

  /** map.py:96-172: the two zlib streams, each cursor rebuilt over the
      previous decompressor's unused tail, then the trailing sections. */
  method ReadStreams(rest: seq<Byte>, version: nat, idToName: IdToName, zlib: Zlib) returns (r: Result<Block>)
    ensures r == DecodeStreams(rest, version, idToName, zlib)
  {
    var nodeData := Peel(zlib, rest);
    var f := new Cursor(nodeData.tail);
    var metaInput := f.ReadAll();
    var metadata := Peel(zlib, metaInput);
    f := new Cursor(metadata.tail);
    var table :- ReadTrailer(f, version, idToName);
    return Ok(Decoded(table, nodeData.payload));
  }
}
