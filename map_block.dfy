/** The decoded block (MapBlock) and the placeholder for a missing one
    (DummyMapBlock), with their node lookup get(x, y, z). */
module MapBlocks {
  import opened Results
  import opened ByteCursor
  import opened NameTable

  /** What get returns: DummyMapBlock answers with a str, MapBlock with the
      bytes object read out of the record's name table. */
  datatype NodeName = Text(text: string) | Raw(bytes: seq<Byte>)

  /** A block as getBlock returns it. The node data is kept as the raw byte
      array; get reads two bytes per node from it whatever the record's
      content and params widths were. */
  datatype Block = Dummy | Decoded(idToName: IdToName, mapdata: seq<Byte>)

  const Air: string := "default:air"

  /** The node's index in a 16 x 16 x 16 block, x varying fastest. */
  function DataPos(x: int, y: int, z: int): int
  {
    x + y * 16 + z * 256
  }

  /** Python's s[i]: a negative index counts from the end; anything else
      out of range raises IndexError. */
  function PyIndex(s: seq<Byte>, i: int): (r: Result<Byte>)
    ensures r.Ok? <==> -|s| <= i < |s|
    ensures 0 <= i < |s| ==> r == Ok(s[i])
    ensures i < 0 && r.Ok? ==> r == Ok(s[|s| + i])
    ensures r.Err? ==> r.error == IndexOutOfRange
  {
    if 0 <= i < |s| then Ok(s[i])
    else if -|s| <= i < 0 then Ok(s[|s| + i])
    else Err(IndexOutOfRange)
  }

  /** The id `(hi << 8) | lo` of map.py:183, as the arithmetic it amounts
      to (NodeIdIsShiftOr below proves the two agree). */
  function NodeId(hi: Byte, lo: Byte): nat
  {
    hi as nat * 256 + lo as nat
  }

  /** MapBlock.get and DummyMapBlock.get. */
  function Get(b: Block, x: int, y: int, z: int): (r: Result<NodeName>)
    ensures b.Dummy? ==> r == Ok(Text(Air))
    ensures b.Decoded? ==>
      var p := DataPos(x, y, z);
      (r == Err(IndexOutOfRange) <==> !(-|b.mapdata| <= 2 * p && 2 * p + 1 < |b.mapdata|))
    ensures b.Decoded? && r.Ok? ==> r.value.Raw?
    ensures b.Decoded? && r.Err? ==> r.error == IndexOutOfRange || r.error == UnknownNodeId
  {
    match b
    case Dummy => Ok(Text(Air))
    case Decoded(idToName, mapdata) =>
      var datapos := DataPos(x, y, z);
      var hi :- PyIndex(mapdata, datapos * 2);
      var lo :- PyIndex(mapdata, datapos * 2 + 1);
      var id := NodeId(hi, lo);
      if id in idToName then Ok(Raw(idToName[id])) else Err(UnknownNodeId)
  }

  // ---------------------------------------------------------------------
  // Properties of the lookup

  /** Python's shift-and-or on the two bytes (exact in 16 bits, since a
      byte shifted by 8 stays below 2^16) is the big-endian id. */
  lemma NodeIdIsShiftOr(hi: Byte, lo: Byte)
    ensures NodeId(hi, lo) == (((hi as bv16) << 8) | (lo as bv16)) as nat
    ensures NodeId(hi, lo) < 0x1_0000
  {
    assert ((hi as bv16) << 8) | (lo as bv16) == (hi as bv16) * 256 + (lo as bv16);
  }

  /** A block that was not in the database answers air everywhere,
      including outside 0..15. */
  lemma DummyIsAirEverywhere(x: int, y: int, z: int)
    ensures Get(Dummy, x, y, z) == Ok(Text("default:air"))
  {
  }

  /** Inside the block, the index lies in 0..4095, so the two bytes read
      are at most at 8190 and 8191. */
  lemma DataPosInBlock(x: int, y: int, z: int)
    requires 0 <= x < 16 && 0 <= y < 16 && 0 <= z < 16
    ensures 0 <= DataPos(x, y, z) < 4096
    ensures 0 <= DataPos(x, y, z) * 2 && DataPos(x, y, z) * 2 + 1 <= 8191
  {
  }

  /** No two in-block coordinates share an index. */
  lemma DataPosInjective(x: int, y: int, z: int, x': int, y': int, z': int)
    requires 0 <= x < 16 && 0 <= y < 16 && 0 <= z < 16
    requires 0 <= x' < 16 && 0 <= y' < 16 && 0 <= z' < 16
    requires DataPos(x, y, z) == DataPos(x', y', z')
    ensures x == x' && y == y' && z == z'
  {
    var p := DataPos(x, y, z);
    assert z == p / 256 && z' == p / 256;
    assert y == (p - 256 * z) / 16 && y' == (p - 256 * z') / 16;
  }

  /** Every index of the 4096 is some in-block coordinate's. */
  lemma DataPosOnto(p: int)
    requires 0 <= p < 4096
    ensures 0 <= p % 16 < 16 && 0 <= p / 16 % 16 < 16 && 0 <= p / 256 < 16
    ensures DataPos(p % 16, p / 16 % 16, p / 256) == p
  {
    assert p / 16 == p / 16 % 16 + 16 * (p / 256);
  }

  /** For an in-block coordinate, get on a decoded block reads the
      big-endian id at bytes 2p and 2p + 1, fails with IndexOutOfRange when
      the node data is too short for them, and with UnknownNodeId when the
      table has no name for the id. */
  lemma GetInBlock(idToName: IdToName, mapdata: seq<Byte>, x: int, y: int, z: int)
    requires 0 <= x < 16 && 0 <= y < 16 && 0 <= z < 16
    ensures var p := DataPos(x, y, z);
      Get(Decoded(idToName, mapdata), x, y, z) ==
        if |mapdata| <= 2 * p + 1 then Err(IndexOutOfRange)
        else
          var id := NodeId(mapdata[2 * p], mapdata[2 * p + 1]);
          if id in idToName then Ok(Raw(idToName[id])) else Err(UnknownNodeId)
  {
    var p := DataPos(x, y, z);
    assert 0 <= p;
    if 2 * p + 1 < |mapdata| {
      var hi := PyIndex(mapdata, p * 2);
      var lo := PyIndex(mapdata, p * 2 + 1);
      assert hi == Ok(mapdata[2 * p]) && lo == Ok(mapdata[2 * p + 1]);
      var id := NodeId(hi.value, lo.value);
      assert Get(Decoded(idToName, mapdata), x, y, z) ==
        if id in idToName then Ok(Raw(idToName[id])) else Err(UnknownNodeId);
    }
  }

  /** Node data of at least 8192 bytes never raises IndexError for an
      in-block coordinate: get then fails only on an id the table lacks. */
  lemma FullGridAnswersInBlock(idToName: IdToName, mapdata: seq<Byte>, x: int, y: int, z: int)
    requires 0 <= x < 16 && 0 <= y < 16 && 0 <= z < 16
    requires |mapdata| >= 8192
    ensures Get(Decoded(idToName, mapdata), x, y, z).Ok? ||
            Get(Decoded(idToName, mapdata), x, y, z) == Err(UnknownNodeId)
  {
    GetInBlock(idToName, mapdata, x, y, z);
  }

  /** Out of the block, Python's negative indexing makes x = -1 read the
      last two bytes of the node data rather than fail. */
  lemma NegativeCoordinateWraps(idToName: IdToName, mapdata: seq<Byte>)
    requires |mapdata| >= 2
    ensures var id := NodeId(mapdata[|mapdata| - 2], mapdata[|mapdata| - 1]);
      Get(Decoded(idToName, mapdata), -1, 0, 0) ==
        if id in idToName then Ok(Raw(idToName[id])) else Err(UnknownNodeId)
  {
    assert DataPos(-1, 0, 0) == -1;
    assert PyIndex(mapdata, -2) == Ok(mapdata[|mapdata| - 2]);
    assert PyIndex(mapdata, -1) == Ok(mapdata[|mapdata| - 1]);
  }
}
