# Map block decoder model

This Dafny project models how the map renderer's `Map.getBlock` in `map.py` decodes one stored Minetest map block record, together with the node lookup `get(x, y, z)` on its results.

- `MapBlock` is the decoded block: a node id → node name table plus the node data bytes.
- `DummyMapBlock` stands in when the database has no row for the block.

The model starts where the row is already in hand. It covers:

- the version byte;
- the zstd envelope of version ≥ 29 records;
- the header fields (flags, lighting, inline NameIdMapping, content and params widths);
- the node data;
- for version < 29 records, the two chained zlib streams. Each stream's unused tail becomes the next cursor's buffer;
- the sections read only to move past them (object count, version 24 timers, static objects, timestamp, node timers);
- the legacy NameIdMapping;
- `MapBlock.get` / `DummyMapBlock.get`.

Modules:

- `Results`: `Option`, `Result` and the error kinds.
  - `Truncated`: a fixed-width read that came up short.
  - `EmptyRecord`: `r[0][0]` on an empty blob.
  - `CorruptEnvelope`: zstd raising, which `getBlock` does not catch.
  - `IndexOutOfRange` and `UnknownNodeId`: the `IndexError` and `KeyError` of `get`.
- `ByteCursor`: the `io.BytesIO` buffer as a class `Cursor`, whose position the read methods advance. Beside it are specification functions `BytesAt`, `U8At`, `U16At`, `U32At` and `S32At` on `(buffer, position)`.
- `Codecs`: the two decompressors as function-valued parameters. The try/except around a zlib stream becomes `Peel`.
- `NameTable`: the table entries, the dict they leave behind (`Apply`), and the table-reading loop.
- `Sections`: the trailing sections of a version < 29 record.
- `MapBlocks`: the block values and `Get`.
- `Decoder`: the whole decode as a function of the row (`BlockFor`) and as the cursor-driven method `GetBlock`, which is proved equal to it.

Every cursor method is proved against a specification function on `(buffer, position)`. The lemmas are about those functions:

- how many bytes each section consumes;
- which table entry wins for a repeated id;
- which inputs make a decode fail;
- what `get` reads.

The code is followed where it departs from a plain reading of the format:

- **Version < 29 records are read from offset 0.** The cursor is built over the whole record (map.py:60), so the byte taken as flags is the version byte itself. For versions 22 to 26, the content and params widths are bytes 1 and 2 of the record. `Decoder.LegacyHeadReadsVersionAsFlags` states this.
- **A short grid is accepted for version ≥ 29.** The node data is taken with `f.read`, which returns fewer bytes when the buffer ends, so a short grid does not make the decode fail. `Decoder.CurrentLayout` states exactly how long it may be.
- **A failed node data stream fails the whole decode.** `unused_data` stays empty when zlib raises before the end of its stream. With a decompressor whose unused data is a tail of its input, a node data stream that raises, or leaves nothing after it, leaves the metadata stream nothing to read, so the first fixed-width read after the metadata stream fails. That read is the object count for versions ≤ 21 (map.py:121), the unused timer tag for 23 (map.py:124), the timer tag for 24 (map.py:126) and the static object version otherwise (map.py:134). The decode then fails with `Truncated` rather than completing with an empty grid (`Decoder.EmptyNodeDataTailIsFatal`).
- **A zstd failure is not caught.** The decode fails with `CorruptEnvelope`.

Decoding is a function of the record and the two decompressors, so decoding the same bytes twice gives the same block.

## Model

| member | source | states |
|---|---|---|
| ByteCursor.BytesAt | map.py:80 | `f.read(n)` never fails; it returns the next bytes, at most n of them, and fewer only when the buffer ends there |
| ByteCursor.U8At | map.py:75 | a u8 read succeeds iff one byte remains; its value is that byte and it advances by 1; otherwise `Truncated` |
| ByteCursor.U16At | map.py:71 | a u16 read succeeds iff two bytes remain; its value is the big-endian `s[p] * 256 + s[p+1]`, below 2^16, and it advances by 2; otherwise `Truncated` |
| ByteCursor.U32At | map.py:74 | a u32 read succeeds iff four bytes remain; its value is the big-endian number of those four bytes, below 2^32, and it advances by 4; otherwise `Truncated` |
| ByteCursor.S32At | map.py:131 | a signed 32-bit read succeeds iff four bytes remain; its value is the two's-complement reading of the `U32At` value, in -2^31..2^31-1, and it advances by 4 |
| ByteCursor.Cursor.constructor | map.py:54-60 | a new `io.BytesIO` over the given bytes is positioned at 0 |
| ByteCursor.Cursor.Read | map.py:92 | `f.read(n)` returns what `BytesAt` gives at the old position and moves to its end |
| ByteCursor.Cursor.ReadAll | map.py:98 | `f.read()` returns every byte from the old position and moves to the end of the buffer |
| ByteCursor.Cursor.ReadU8 | map.py:86-87 | `readU8` returns the `U8At` value or `Truncated`; it advances past the byte, or to the end on failure |
| ByteCursor.Cursor.ReadU16 | map.py:78-79 | `readU16` returns the `U16At` value or `Truncated`, with the position as for `ReadU8` |
| ByteCursor.Cursor.ReadU32 | map.py:150 | `readU32` returns the `U32At` value or `Truncated`, with the position as for `ReadU8` |
| ByteCursor.Cursor.ReadS32 | map.py:140 | `readS32` returns the two's-complement `S32At` value or `Truncated` |
| Codecs.Peel | map.py:96-104 | a zlib stream that raises leaves an empty payload and an empty unused tail; otherwise the decompressor's payload and unused data; a decompressor reporting tails of its input gives a tail of the input |
| NameTable.EntryAt | map.py:78-80 | one table entry succeeds iff its 4 header bytes are present; the id and name length are big-endian; the name is the next bytes, shorter than declared only at the end of the buffer |
| NameTable.ParseEntries | map.py:77-81 | reading n entries ends inside the buffer and fails only with `Truncated` |
| NameTable.ParseNameIdMapping | map.py:153-159 | the NameIdMapping sub-record ends inside the buffer and fails only with `Truncated` |
| NameTable.ParseInlineTable | map.py:74-81 | the inline table of a version ≥ 29 record ends inside the buffer and fails only with `Truncated` |
| NameTable.Apply | map.py:81 | the dict after `id_to_name[node_id] = node_name` has run for each entry in turn; it keeps every old key and gains every id read (exact key set in `ApplyKeys`, values in `ApplyLastWins` and `ApplyKeepsOthers`) |
| NameTable.ApplyKeys | map.py:81 | after the assignments the dict's keys are exactly the old keys plus the ids read |
| NameTable.ApplyLastWins | map.py:155-159 | every id read maps to the name of the last entry carrying that id |
| NameTable.ApplyKeepsOthers | map.py:155-159 | an id not read keeps the binding it had before the loop |
| NameTable.ApplyConcat | map.py:155-159 | filling the dict from two runs of entries in turn equals filling it from their concatenation |
| NameTable.ParseEntriesConsumes | map.py:77-81 | n entries yield exactly n entries after those already read, and take exactly 4 + len(name) bytes each |
| NameTable.ParseEntriesShortNameIsLast | map.py:80 | no name is longer than declared; a shorter one can only be the last entry and only at the end of the buffer |
| NameTable.ParseNameIdMappingConsumes | map.py:153-159 | the sub-record yields as many entries as its u16 count and takes 3 + sum(4 + len(name)) bytes |
| NameTable.ParseInlineTableConsumes | map.py:74-81 | the inline table takes 4 + 1 + 2 + sum(4 + len(name)) bytes |
| NameTable.ReadEntries | map.py:77-81 | the loop leaves the dict `Apply(m0, entries)` for the entries `ParseEntries` reads, or `Truncated`; the cursor ends where they end |
| NameTable.ReadEntry | map.py:78-80 | one loop pass returns the `EntryAt` entry and moves past it |
| NameTable.ReadNameIdMapping | map.py:153-159 | reading the sub-record on a cursor leaves `Apply(m0, entries)` for its entries, or `Truncated` |
| NameTable.ReadInlineTable | map.py:74-81 | reading the inline table on a cursor leaves `Apply(m0, entries)` for its entries, or `Truncated` |
| Sections.TimerAt | map.py:130-132 | a timer (u16, s32, s32) succeeds iff 10 bytes remain and takes exactly 10 |
| Sections.ParseTimers | map.py:129-132 | n timers yield n, end inside the buffer and fail only with `Truncated` |
| Sections.ParseV24Timers | map.py:125-132 | the version 24 timer block ends inside the buffer and fails only with `Truncated` |
| Sections.ParseNodeTimers | map.py:162-168 | the node timer table ends inside the buffer and fails only with `Truncated` |
| Sections.ObjectAt | map.py:137-148 | a static object succeeds iff its 15 fixed bytes are present; its type is the first byte and its data size the big-endian u16 at offset 13; its data is the bytes after offset 15, shorter than declared only at the end of the buffer; it takes 15 + len(data) bytes |
| Sections.ParseStaticObjects | map.py:134-148 | the u8 version, the u16 count and that many objects; it ends inside the buffer and fails only with `Truncated` (size and count in `ParseStaticObjectsConsumes`) |
| Sections.ParseObjects | map.py:136-148 | n static objects end inside the buffer and fail only with `Truncated` |
| Sections.ParseEarlySections | map.py:119-132 | the sections before the static objects end inside the buffer and fail only with `Truncated` |
| Sections.ParseLateSections | map.py:150-168 | the timestamp, legacy table and node timers end inside the buffer and fail only with `Truncated` |
| Sections.ParseTrailer | map.py:119-168 | all trailing sections of a version < 29 record end inside the buffer and fail only with `Truncated` |
| Sections.ParseTimersConsumes | map.py:165-168 | n timers succeed iff 10n bytes remain, and then take exactly 10n |
| Sections.ParseV24TimersConsumes | map.py:125-132 | timers are read iff the tag byte is 1, and then their number is the u16 after the tag; the block takes 1 + (2 + 10n when tagged) bytes |
| Sections.ParseNodeTimersConsumes | map.py:162-168 | the node timer table holds the u16 count of timers and takes 3 + 10n bytes |
| Sections.ParseObjectsConsumes | map.py:136-148 | n objects yield exactly n objects and take sum(15 + len(data)) bytes |
| Sections.ParseObjectsShortDataIsLast | map.py:146-148 | no object's data is longer than declared; a shorter one can only be the last object and only at the end of the buffer |
| Sections.ParseStaticObjectsConsumes | map.py:134-148 | the static object list holds its u16 count of objects and takes 3 + sum(15 + len(data)) bytes |
| Sections.ParseEarlySectionsConsumes | map.py:119-132 | object count only for ≤ 21, the unused tag only for 23, the timer block only for 24, each with its exact size; the version 24 timer block is the one read at the start of the early sections |
| Sections.ParseLateSectionsConsumes | map.py:150-168 | 4 bytes of timestamp first; then, only for ≥ 22, the legacy table read right after the timestamp (3 + sum(4 + len(name)) bytes); then, only for ≥ 25, the node timers read right after that table (3 + 10n bytes), ending the section |
| Sections.TrailerConsumes | map.py:119-168 | the whole trailer takes exactly the sum of its version-gated sections' sizes; absent sections contribute nothing; the early sections are read at the start, the static objects where they end, and the late sections where the objects end |
| Sections.SkipTimers | map.py:165-168 | the timer loop on a cursor succeeds iff `ParseTimers` does, and ends where it ends |
| Sections.SkipTimer | map.py:166-168 | one timer on a cursor succeeds iff `TimerAt` does, and moves past it |
| Sections.SkipV24Timers | map.py:125-132 | the version 24 timer block on a cursor succeeds iff `ParseV24Timers` does, and ends where it ends |
| Sections.SkipNodeTimers | map.py:162-168 | the node timer table on a cursor succeeds iff `ParseNodeTimers` does, and ends where it ends |
| Sections.SkipObject | map.py:137-148 | one static object on a cursor succeeds iff `ObjectAt` does, and moves past it |
| Sections.SkipStaticObjects | map.py:134-148 | the static object list on a cursor succeeds iff `ParseStaticObjects` does, and ends where it ends |
| Sections.SkipObjects | map.py:136-148 | the object loop on a cursor succeeds iff `ParseObjects` does, and ends where it ends |
| Sections.SkipEarlySections | map.py:119-132 | the version-gated early sections on a cursor succeed iff `ParseEarlySections` does |
| Sections.ReadTrailer | map.py:119-168 | the trailing sections on a cursor leave `Apply(m0, legacy entries)` when `ParseTrailer` succeeds, and `Truncated` otherwise |
| Sections.ReadLateSections | map.py:150-168 | the late sections on a cursor leave `Apply(m0, legacy entries)` when `ParseLateSections` succeeds, and `Truncated` otherwise |
| MapBlocks.PyIndex | map.py:183 | Python's `mapdata[i]`: succeeds iff -len <= i < len; a non-negative index reads that byte, a negative one counts from the end; otherwise `IndexOutOfRange` |
| MapBlocks.Get | map.py:181-188 | `get(x, y, z)`: the dummy block answers air; a decoded block raises `IndexOutOfRange` exactly when bytes 2p and 2p+1 are outside Python's index range; otherwise it yields a name from the table or `UnknownNodeId` (exact result in `GetInBlock`, `NegativeCoordinateWraps`) |
| MapBlocks.NodeIdIsShiftOr | map.py:183 | `hi << 8` or-ed with `lo` is the big-endian 16-bit id `hi * 256 + lo`, below 2^16 |
| MapBlocks.DummyIsAirEverywhere | map.py:186-188 | `DummyMapBlock.get` answers "default:air" for every coordinate, in range or not |
| MapBlocks.DataPosInBlock | map.py:182 | for in-block coordinates the index lies in 0..4095, so the bytes read are at most 8191 |
| MapBlocks.DataPosInjective | map.py:182 | no two in-block coordinates share an index |
| MapBlocks.DataPosOnto | map.py:182 | every index 0..4095 is the index of an in-block coordinate |
| MapBlocks.GetInBlock | map.py:181-183 | in-block `get` reads the big-endian id at bytes 2p and 2p+1, fails with `IndexOutOfRange` when the node data is too short, and with `UnknownNodeId` when the id has no name |
| MapBlocks.FullGridAnswersInBlock | map.py:181-183 | with at least 8192 bytes of node data, in-block `get` fails only on an unknown id |
| MapBlocks.NegativeCoordinateWraps | map.py:181-183 | x = -1 reads the last two bytes of the node data through Python's negative indexing rather than failing |
| Decoder.ParseWidths | map.py:85-87 | the widths read succeeds iff two bytes remain and yields those two bytes |
| Decoder.ParseHead | map.py:62-87 | the header ends inside the buffer, carries widths iff version ≥ 22, and fails only with `Truncated` |
| Decoder.BlockFor | map.py:47-60 | what `getBlock` returns for its row: `DummyMapBlock` without a row, the record's decode with one, and never the dummy then (`DummyExactlyWhenNoRow`) |
| Decoder.DecodeRecord | map.py:51-60 | the version is the first byte: an empty blob gives `EmptyRecord`; the only failures are `EmptyRecord`, `CorruptEnvelope` and `Truncated`; a success is a decoded block (cases in `CurrentDecode`, `LegacyDecode`) |
| Decoder.DecodeCurrent | map.py:62-94 | the version ≥ 29 decode of the plain bytes: it fails only with `Truncated`, and its node data is no longer than the buffer (layout in `CurrentLayout`) |
| Decoder.DecodeLegacy | map.py:59-100 | the version < 29 decode from the record's first byte: header, then the streams; it fails only with `Truncated` (details in `LegacyHeadReadsVersionAsFlags`, `LegacyDecode`) |
| Decoder.DecodeStreams | map.py:96-172 | after the header: two chained zlib streams and the trailer; fails only with `Truncated`; the table keeps every id it was given (details in `LegacyDecode`, `StreamsIgnoreMetadataPayload`, `EmptyNodeDataTailIsFatal`) |
| Decoder.DummyExactlyWhenNoRow | map.py:47-49 | the result is a `DummyMapBlock` exactly when no row was found; a found row gives a `MapBlock` or an error |
| Decoder.HeadConsumes | map.py:62-87 | the flags are the buffer's first byte; the header takes 1 + (2 if ≥ 27) + (7 + sum(4 + len(name)) if ≥ 29) + (2 if ≥ 22) bytes; the inline table is the one read at offset 3, right after the lighting field; the widths are its last two bytes; before 29 there is no inline table |
| Decoder.LegacyHeadReadsVersionAsFlags | map.py:59-87 | for version < 29 the flags byte read is the version byte; for 22..26 the widths are record bytes 1 and 2; the header succeeds iff the record holds its 1, 3 or 5 bytes |
| Decoder.CurrentDecode | map.py:51-58 | version ≥ 29: a failing zstd gives `CorruptEnvelope`; otherwise the decode is `DecodeCurrent` of the plain bytes after the version byte; zlib is never used |
| Decoder.CurrentHeadSize | map.py:62-87 | the header of a version ≥ 29 buffer takes 1 + 2 + 7 + sum(4 + len(name)) + 2 bytes, and its entries are the inline table read at offset 3 |
| Decoder.CurrentLayout | map.py:62-94 | plain bytes of a version ≥ 29 record: success iff the header parses; the table is filled from the inline table read at offset 3 and holds exactly its ids; the node data is the next 4096 × (content_width + params_width) bytes; when shorter, it runs exactly to the end of the buffer |
| Decoder.LegacyDecode | map.py:96-172 | version < 29: zstd is never used; success iff the trailer after the second stream's tail parses; the node data is the first stream's payload, empty if it raised; the table holds exactly the legacy ids, none before 22 |
| Decoder.StreamsIgnoreMetadataPayload | map.py:106-117 | after the header, the metadata stream matters only through its unused tail: equal tails give the same verdict and the same table |
| Decoder.MetadataPayloadDiscarded | map.py:106-113 | the metadata stream's payload has no effect: decompressors with the same unused tails give the same verdict and the same table |
| Decoder.TrailerIsRecordSuffix | map.py:114-117 | with a decompressor reporting tails of its input, the trailing sections are read from the record's own last bytes |
| Decoder.EmptyNodeDataTailIsFatal | map.py:96-134 | a node data stream that leaves no unused tail makes the decode fail with `Truncated` |
| Decoder.RaisingNodeDataIsFatal | map.py:97-100 | a node data stream that raises makes the decode fail with `Truncated`: the except branch cannot save it |
| Decoder.ReadHead | map.py:62-87 | the header read on a cursor at 0 yields the inline table, the widths and the end position of `ParseHead`, or `Truncated` |
| Decoder.GetBlock | map.py:47-172 | the imperative decode returns exactly `BlockFor(row)`: Dummy without a row, then `DecodeCurrent` or `DecodeLegacy` by version |
| Decoder.ReadCurrent | map.py:62-94 | the version ≥ 29 path on a cursor over the plain bytes returns exactly `DecodeCurrent` |
| Decoder.ReadLegacy | map.py:62-172 | the version < 29 path on a cursor over the whole record returns exactly `DecodeLegacy` |
| Decoder.ReadStreams | map.py:96-172 | the two chained zlib streams and the trailer on fresh cursors give exactly `DecodeStreams` |

## Left out

- The database side of `Map` (map.py:11-46) is not modelled: the SQLite connection, the detection of the position encoding, `getCoordinatesToDraw`, and the packed-key helpers from `util` (not part of this model). The row returned by `fetchone` is an input.
- The zstd and zlib algorithms are not modelled. Each is a function-valued parameter. The only assumption is `Codecs.KeepsTail` (zlib's unused data is a tail of its input), and only the lemmas that name it use it.
- The readers `readU8`, `readU16`, `readU32` and `readS32` live in `util.py`, which is not part of this model. They are modelled as big-endian reads that fail on a short read, as the format requires.
- The flag bits (map.py:65-68), the lighting value, the timestamps, the format-version bytes, the timer fields and the static object fields are read but not kept. Only the bytes they take are modelled.
- The division of the static object coordinates by 10000 is floating point, and its results are discarded. It is left out.
- `MapBlock.version` (map.py:176-179) is not modelled: it is always the default 99 and `get` never reads it.
- The node data is kept as a byte sequence, the value `array.array("B", …)` holds. The list `[]` of map.py:100 is the empty sequence.
- The composite cursor methods (`ReadEntry`, `ReadEntries`, `ReadNameIdMapping`, `ReadInlineTable`, `SkipTimer`, `SkipTimers`, `SkipV24Timers`, `SkipNodeTimers`, `SkipObject`, `SkipObjects`, `SkipStaticObjects`, `SkipEarlySections`, `ReadTrailer`, `ReadLateSections`, `ReadHead`) do not state where the cursor is left when they fail partway; only success is tied to a position, and no caller reads a cursor after a failure. The single reads `ReadU8` … `ReadS32` do state it: a failed read leaves the cursor at the end of the buffer.
- The node names of a decoded block are bytes, while `DummyMapBlock.get` returns a `str`. `NodeName` keeps the two apart and performs no decoding.
