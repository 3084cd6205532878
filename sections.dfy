/** The sections that follow the node metadata stream in a record of
    version < 29 (map.py:119-168): skipped objects and timers, the
    timestamp and the legacy NameIdMapping. Each is read only to move the
    cursor past it, except the name table. */
module Sections {
  import opened Results
  import opened ByteCursor
  import opened NameTable

  /** One node timer: u16 position, s32, s32. */
  function TimerAt(s: seq<Byte>, p: nat): (r: Result<Parsed<()>>)
    requires p <= |s|
    ensures r.Ok? <==> p + 10 <= |s|
    ensures r.Ok? ==> r.value.next == p + 10
    ensures r.Err? ==> r.error == Truncated
  {
    var position :- U16At(s, p);
    var a :- S32At(s, position.next);
    var b :- S32At(s, a.next);
    Ok(Parsed((), b.next))
  }

  /** n node timers. The value is n. */
  function ParseTimers(s: seq<Byte>, p: nat, n: nat): (r: Result<Parsed<nat>>)
    requires p <= |s|
    ensures r.Ok? ==> r.value.value == n && p <= r.value.next <= |s|
    ensures r.Err? ==> r.error == Truncated
    decreases n
  {
    if n == 0 then Ok(Parsed(0, p))
    else
      var timer :- TimerAt(s, p);
      var rest :- ParseTimers(s, timer.next, n - 1);
      Ok(Parsed(n, rest.next))
  }

  /** The timer block of a version 24 record: a u8 tag and, only when the
      tag is 1, a u16 count and that many timers. The value is the count,
      or None when the tag is not 1. */
  function ParseV24Timers(s: seq<Byte>, p: nat): (r: Result<Parsed<Option<nat>>>)
    requires p <= |s|
    ensures r.Ok? ==> p <= r.value.next <= |s|
    ensures r.Err? ==> r.error == Truncated
  {
    var tag :- U8At(s, p);
    if tag.value == 1 then
      var num :- U16At(s, tag.next);
      var timers :- ParseTimers(s, num.next, num.value);
      Ok(Parsed(Some(num.value), timers.next))
    else
      Ok(Parsed(None, tag.next))
  }

  /** The node timers of a version >= 25 record: a u8 timer size, a u16
      count and that many timers. The value is the count. */
  function ParseNodeTimers(s: seq<Byte>, p: nat): (r: Result<Parsed<nat>>)
    requires p <= |s|
    ensures r.Ok? ==> p <= r.value.next <= |s|
    ensures r.Err? ==> r.error == Truncated
  {
    var timerSize :- U8At(s, p);
    var num :- U16At(s, timerSize.next);
    ParseTimers(s, num.next, num.value)
  }

  /** One static object as read: its type, the declared data size and the
      data bytes obtained (the three s32 coordinates are read and dropped). */
  datatype StaticObject = StaticObject(kind: nat, dataSize: nat, data: seq<Byte>)

  function ObjectAt(s: seq<Byte>, p: nat): (r: Result<Parsed<StaticObject>>)
    requires p <= |s|
    ensures r.Ok? <==> p + 15 <= |s|
    ensures r.Ok? ==> var Parsed(o, q) := r.value;
      && o.kind == s[p] as nat
      && o.dataSize == s[p + 13] as nat * 256 + s[p + 14] as nat
      && q == p + 15 + |o.data| <= |s|
      && o.data == s[p + 15..q]
      && |o.data| <= o.dataSize && (|o.data| < o.dataSize ==> q == |s|)
    ensures r.Err? ==> r.error == Truncated
  {
    // u8 type, three s32 coordinates (each a fixed-point value times
    // 10000), u16 data size, then the data
    if p + 15 <= |s| then
      var size := s[p + 13] as nat * 0x100 + s[p + 14] as nat;
      var data := BytesAt(s, p + 15, size);
      Ok(Parsed(StaticObject(s[p] as nat, size, data.value), data.next))
    else
      Err(Truncated)
  }

  function ParseObjects(s: seq<Byte>, p: nat, n: nat, done: seq<StaticObject>): (r: Result<Parsed<seq<StaticObject>>>)
    requires p <= |s|
    ensures r.Ok? ==> p <= r.value.next <= |s|
    ensures r.Err? ==> r.error == Truncated
    decreases n
  {
    if n == 0 then Ok(Parsed(done, p))
    else
      var o :- ObjectAt(s, p);
      ParseObjects(s, o.next, n - 1, done + [o.value])
  }

  lemma ParseObjectsStep(s: seq<Byte>, p: nat, n: nat, done: seq<StaticObject>)
    requires p <= |s| && n > 0
    ensures ObjectAt(s, p).Err? ==> ParseObjects(s, p, n, done) == Err(Truncated)
    ensures ObjectAt(s, p).Ok? ==>
      ParseObjects(s, p, n, done) == ParseObjects(s, ObjectAt(s, p).value.next, n - 1, done + [ObjectAt(s, p).value.value])
  {
  }

  /** The static object list: a u8 format version, a u16 count and the
      objects. */
  function ParseStaticObjects(s: seq<Byte>, p: nat): (r: Result<Parsed<seq<StaticObject>>>)
    requires p <= |s|
    ensures r.Ok? ==> p <= r.value.next <= |s|
    ensures r.Err? ==> r.error == Truncated
  {
    var version :- U8At(s, p);
    var count :- U16At(s, version.next);
    ParseObjects(s, count.next, count.value, [])
  }

  function ObjectsSize(os: seq<StaticObject>): nat
  {
    if os == [] then 0 else 15 + |os[0].data| + ObjectsSize(os[1..])
  }

  /** What the sections after the metadata stream hold, as far as the
      model keeps it: the version 24 timer count (None when its tag is not
      1, or when the version is not 24), the static objects, the legacy
      table entries and the number of node timers. */
  datatype Trailer = Trailer(v24Timers: Option<nat>, objects: seq<StaticObject>, entries: seq<Entry>, nodeTimers: nat)

  /** The sections before the static objects (map.py:119-132): the object
      count of versions <= 21, the unused tag of version 23 and the timers
      of version 24. The value is the version 24 timer count. */
  function ParseEarlySections(s: seq<Byte>, p: nat, version: nat): (r: Result<Parsed<Option<nat>>>)
    requires p <= |s|
    ensures r.Ok? ==> p <= r.value.next <= |s|
    ensures r.Err? ==> r.error == Truncated
  {
    var objectCount :- if version <= 21 then U16At(s, p) else Ok(Parsed(0, p));
    var unusedTag :- if version == 23 then U8At(s, objectCount.next) else Ok(Parsed(0, objectCount.next));
    if version == 24 then ParseV24Timers(s, unusedTag.next) else Ok(Parsed(None, unusedTag.next))
  }

  /** The legacy table entries and the node timer count. */
  datatype LateSections = LateSections(entries: seq<Entry>, nodeTimers: nat)

  /** The sections after the static objects (map.py:150-168): the
      timestamp, the legacy NameIdMapping of versions >= 22 and the node
      timers of versions >= 25. */
  function ParseLateSections(s: seq<Byte>, p: nat, version: nat): (r: Result<Parsed<LateSections>>)
    requires p <= |s|
    ensures r.Ok? ==> p <= r.value.next <= |s|
    ensures r.Err? ==> r.error == Truncated
  {
    var timestamp :- U32At(s, p);
    var table :- if version >= 22 then ParseNameIdMapping(s, timestamp.next) else Ok(Parsed([], timestamp.next));
    var timers :- if version >= 25 then ParseNodeTimers(s, table.next) else Ok(Parsed(0, table.next));
    Ok(Parsed(LateSections(table.value, timers.value), timers.next))
  }

  /** map.py:119-168, from position p of the buffer left after the node
      metadata stream. */
  function ParseTrailer(s: seq<Byte>, p: nat, version: nat): (r: Result<Parsed<Trailer>>)
    requires p <= |s|
    ensures r.Ok? ==> p <= r.value.next <= |s|
    ensures r.Err? ==> r.error == Truncated
  {
    var v24 :- ParseEarlySections(s, p, version);
    var objects :- ParseStaticObjects(s, v24.next);
    var late :- ParseLateSections(s, objects.next, version);
    Ok(Parsed(Trailer(v24.value, objects.value, late.value.entries, late.value.nodeTimers), late.next))
  }

  // ---------------------------------------------------------------------
  // How many bytes each section consumes

  /** n timers succeed exactly when 10n bytes remain, and take exactly 10n. */
  lemma {:induction false} ParseTimersConsumes(s: seq<Byte>, p: nat, n: nat)
    requires p <= |s|
    ensures ParseTimers(s, p, n).Ok? <==> p + 10 * n <= |s|
    ensures ParseTimers(s, p, n).Ok? ==> ParseTimers(s, p, n).value.next == p + 10 * n
    decreases n
  {
    if n > 0 && p + 10 <= |s| {
      ParseTimersConsumes(s, p + 10, n - 1);
    }
  }

  /** Version 24 timers: the tag byte, then 2 + 10n bytes only when the tag
      is 1. */
  lemma ParseV24TimersConsumes(s: seq<Byte>, p: nat)
    requires p <= |s|
    requires ParseV24Timers(s, p).Ok?
    ensures var Parsed(timers, q) := ParseV24Timers(s, p).value;
      && (timers.Some? <==> s[p] == 1)
      && (timers.Some? ==> timers.value == s[p + 1] as nat * 256 + s[p + 2] as nat)
      && q == p + 1 + (if timers.Some? then 2 + 10 * timers.value else 0)
  {
    var tag := U8At(s, p).value;
    if tag.value == 1 {
      var num := U16At(s, p + 1).value;
      ParseTimersConsumes(s, p + 3, num.value);
    }
  }

  /** Node timers: 3 + 10n bytes. */
  lemma ParseNodeTimersConsumes(s: seq<Byte>, p: nat)
    requires p <= |s|
    requires ParseNodeTimers(s, p).Ok?
    ensures var Parsed(n, q) := ParseNodeTimers(s, p).value;
      && n == s[p + 1] as nat * 256 + s[p + 2] as nat
      && q == p + 3 + 10 * n
  {
    var num := U16At(s, p + 1).value;
    ParseTimersConsumes(s, p + 3, num.value);
  }

  /** n static objects yield n more objects and take 15 + |data| bytes each. */
  lemma {:induction false} ParseObjectsConsumes(s: seq<Byte>, p: nat, n: nat, done: seq<StaticObject>)
    requires p <= |s|
    requires ParseObjects(s, p, n, done).Ok?
    ensures |ParseObjects(s, p, n, done).value.value| == |done| + n
    ensures ParseObjects(s, p, n, done).value.value[..|done|] == done
    ensures ParseObjects(s, p, n, done).value.next == p + ObjectsSize(ParseObjects(s, p, n, done).value.value[|done|..])
    decreases n
  {
    var os := ParseObjects(s, p, n, done).value.value;
    if n == 0 {
      assert os[|done|..] == [];
    } else {
      var o := ObjectAt(s, p).value;
      ParseObjectsConsumes(s, o.next, n - 1, done + [o.value]);
      assert os[..|done|] == (done + [o.value])[..|done|];
      assert os[|done|] == o.value;
      assert os[|done|..][1..] == os[|done| + 1..];
    }
  }

  /** Object data comes up short of its declared size only in the last
      object and only where the buffer ends. */
  lemma {:induction false} ParseObjectsShortDataIsLast(s: seq<Byte>, p: nat, n: nat, done: seq<StaticObject>, i: nat)
    requires p <= |s|
    requires ParseObjects(s, p, n, done).Ok?
    requires |done| <= i < |done| + n
    ensures i < |ParseObjects(s, p, n, done).value.value|
    ensures var o := ParseObjects(s, p, n, done).value.value[i];
      |o.data| <= o.dataSize && (|o.data| < o.dataSize ==> i == |done| + n - 1 && ParseObjects(s, p, n, done).value.next == |s|)
    decreases n
  {
    ParseObjectsStep(s, p, n, done);
    var o := ObjectAt(s, p).value;
    ParseObjectsConsumes(s, o.next, n - 1, done + [o.value]);
    if i == |done| {
      var os := ParseObjects(s, p, n, done).value.value;
      assert os[..|done| + 1] == done + [o.value];
      assert os[i] == o.value;
      if n > 1 {
        ParseObjectsStep(s, o.next, n - 1, done + [o.value]);
      }
    } else {
      ParseObjectsShortDataIsLast(s, o.next, n - 1, done + [o.value], i);
    }
  }

  /** The static object list takes 3 + sum(15 + |data|) bytes. */
  lemma ParseStaticObjectsConsumes(s: seq<Byte>, p: nat)
    requires p <= |s|
    requires ParseStaticObjects(s, p).Ok?
    ensures var Parsed(os, q) := ParseStaticObjects(s, p).value;
      && |os| == s[p + 1] as nat * 256 + s[p + 2] as nat
      && q == p + 3 + ObjectsSize(os)
  {
    var count := s[p + 1] as nat * 256 + s[p + 2] as nat;
    assert ParseStaticObjects(s, p) == ParseObjects(s, p + 3, count, []);
    ParseObjectsConsumes(s, p + 3, count, []);
    assert ParseObjects(s, p + 3, count, []).value.value[0..] == ParseObjects(s, p + 3, count, []).value.value;
  }

  /** The early sections: 2 bytes of object count (<= 21), 1 byte of
      unused tag (== 23), and 1 + (2 + 10n if tagged) bytes of version 24
      timers. */
  lemma ParseEarlySectionsConsumes(s: seq<Byte>, p: nat, version: nat)
    requires p <= |s|
    requires ParseEarlySections(s, p, version).Ok?
    ensures var Parsed(v24, q) := ParseEarlySections(s, p, version).value;
      && (version != 24 ==> v24 == None)
      && (version == 24 ==> v24 == ParseV24Timers(s, p).value.value)
      && q == p
           + (if version <= 21 then 2 else 0)
           + (if version == 23 then 1 else 0)
           + (if version == 24 then 1 + (if v24.Some? then 2 + 10 * v24.value else 0) else 0)
  {
    if version == 24 {
      ParseV24TimersConsumes(s, p);
    }
  }

  /** The late sections, in this order: 4 bytes of timestamp, 3 + sum(4 +
      |name|) bytes of legacy table (>= 22) and 3 + 10n bytes of node
      timers (>= 25). */
  lemma ParseLateSectionsConsumes(s: seq<Byte>, p: nat, version: nat)
    requires p <= |s|
    requires ParseLateSections(s, p, version).Ok?
    ensures var Parsed(late, q) := ParseLateSections(s, p, version).value;
      && (version < 22 ==> late.entries == [])
      && (version < 25 ==> late.nodeTimers == 0)
      && (version >= 22 ==> late.entries == ParseNameIdMapping(s, p + 4).value.value)
      && q == p + 4
           + (if version >= 22 then 3 + EntriesSize(late.entries) else 0)
           + (if version >= 25 then 3 + 10 * late.nodeTimers else 0)
      && (version >= 25 ==> ParseNodeTimers(s, p + 7 + EntriesSize(late.entries)) == Ok(Parsed(late.nodeTimers, q)))
  {
    if version >= 22 {
      ParseNameIdMappingConsumes(s, p + 4);
      var table := ParseNameIdMapping(s, p + 4).value;
      if version >= 25 {
        ParseNodeTimersConsumes(s, table.next);
      }
    }
  }

  /** The whole trailer: each version-gated section takes its exact size,
      the static objects 3 + sum(15 + |data|) bytes between the early and
      the late sections. Sections whose condition fails are absent. The
      early sections start at p, the static objects where they end, and the
      late sections where the objects end. */
  lemma TrailerConsumes(s: seq<Byte>, p: nat, version: nat)
    requires p <= |s|
    requires ParseTrailer(s, p, version).Ok?
    ensures var Parsed(t, q) := ParseTrailer(s, p, version).value;
      && (version != 24 ==> t.v24Timers == None)
      && (version < 22 ==> t.entries == [])
      && (version < 25 ==> t.nodeTimers == 0)
      && q == p
           + (if version <= 21 then 2 else 0)
           + (if version == 23 then 1 else 0)
           + (if version == 24 then 1 + (if t.v24Timers.Some? then 2 + 10 * t.v24Timers.value else 0) else 0)
           + 3 + ObjectsSize(t.objects)
           + 4
           + (if version >= 22 then 3 + EntriesSize(t.entries) else 0)
           + (if version >= 25 then 3 + 10 * t.nodeTimers else 0)
      && var early := ParseEarlySections(s, p, version).value;
      && t.v24Timers == early.value
      && var objects := ParseStaticObjects(s, early.next).value;
      && t.objects == objects.value
      && ParseLateSections(s, objects.next, version) == Ok(Parsed(LateSections(t.entries, t.nodeTimers), q))
  {
    ParseEarlySectionsConsumes(s, p, version);
    var early := ParseEarlySections(s, p, version).value;
    ParseStaticObjectsConsumes(s, early.next);
    var objects := ParseStaticObjects(s, early.next).value;
    ParseLateSectionsConsumes(s, objects.next, version);
  }

  // ---------------------------------------------------------------------
  // The same sections read off a cursor

  method SkipTimers(c: Cursor, n: nat) returns (r: Result<()>)
    requires c.Valid()
    modifies c
    ensures c.Valid()
    ensures r == Status(ParseTimers(c.data, old(c.pos), n))
    ensures r.Ok? ==> c.pos == ParseTimers(c.data, old(c.pos), n).value.next
  {
    ghost var p0 := c.pos;
    var i := 0;
    while i < n
      invariant 0 <= i <= n && c.Valid()
      invariant ParseTimers(c.data, c.pos, n - i).Ok? ==> ParseTimers(c.data, p0, n).Ok? && ParseTimers(c.data, c.pos, n - i).value.next == ParseTimers(c.data, p0, n).value.next
      invariant ParseTimers(c.data, c.pos, n - i).Err? ==> ParseTimers(c.data, p0, n).Err?
    {
      ghost var p := c.pos;
      var ok :- SkipTimer(c);
      assert ParseTimers(c.data, p, n - i).Ok? <==> ParseTimers(c.data, c.pos, n - i - 1).Ok?;
      i := i + 1;
    }
    return Ok(());
  }

  method SkipTimer(c: Cursor) returns (r: Result<()>)
    requires c.Valid()
    modifies c
    ensures c.Valid()
    ensures r == Status(TimerAt(c.data, old(c.pos)))
    ensures r.Ok? ==> c.pos == TimerAt(c.data, old(c.pos)).value.next
  {
    var position :- c.ReadU16();
    var a :- c.ReadS32();
    var b :- c.ReadS32();
    return Ok(());
  }

  method SkipV24Timers(c: Cursor) returns (r: Result<()>)
    requires c.Valid()
    modifies c
    ensures c.Valid()
    ensures r == Status(ParseV24Timers(c.data, old(c.pos)))
    ensures r.Ok? ==> c.pos == ParseV24Timers(c.data, old(c.pos)).value.next
  {
    var ver :- c.ReadU8();
    if ver == 1 {
      var num :- c.ReadU16();
      r := SkipTimers(c, num);
    } else {
      r := Ok(());
    }
  }

  method SkipNodeTimers(c: Cursor) returns (r: Result<()>)
    requires c.Valid()
    modifies c
    ensures c.Valid()
    ensures r == Status(ParseNodeTimers(c.data, old(c.pos)))
    ensures r.Ok? ==> c.pos == ParseNodeTimers(c.data, old(c.pos)).value.next
  {
    var timerSize :- c.ReadU8();
    var num :- c.ReadU16();
    r := SkipTimers(c, num);
  }

  method SkipObject(c: Cursor) returns (r: Result<()>)
    requires c.Valid()
    modifies c
    ensures c.Valid()
    ensures r == Status(ObjectAt(c.data, old(c.pos)))
    ensures r.Ok? ==> c.pos == ObjectAt(c.data, old(c.pos)).value.next
  {
    var objectType :- c.ReadU8();
    var posX :- c.ReadS32();
    var posY :- c.ReadS32();
    var posZ :- c.ReadS32();
    var dataSize :- c.ReadU16();
    var data := c.Read(dataSize);
    return Ok(());
  }

  method SkipStaticObjects(c: Cursor) returns (r: Result<()>)
    requires c.Valid()
    modifies c
    ensures c.Valid()
    ensures r == Status(ParseStaticObjects(c.data, old(c.pos)))
    ensures r.Ok? ==> c.pos == ParseStaticObjects(c.data, old(c.pos)).value.next
  {
    var staticObjectVersion :- c.ReadU8();
    var staticObjectCount :- c.ReadU16();
    r := SkipObjects(c, staticObjectCount);
  }

  method SkipObjects(c: Cursor, n: nat) returns (r: Result<()>)
    requires c.Valid()
    modifies c
    ensures c.Valid()
    ensures r == Status(ParseObjects(c.data, old(c.pos), n, []))
    ensures r.Ok? ==> c.pos == ParseObjects(c.data, old(c.pos), n, []).value.next
  {
    ghost var spec := ParseObjects(c.data, c.pos, n, []);
    ghost var done: seq<StaticObject> := [];
    var i := 0;
    while i < n
      invariant 0 <= i <= n && c.Valid()
      invariant ParseObjects(c.data, c.pos, n - i, done) == spec
    {
      ParseObjectsStep(c.data, c.pos, n - i, done);
      ghost var o := ObjectAt(c.data, c.pos);
      var ok :- SkipObject(c);
      done := done + [o.value.value];
      i := i + 1;
    }
    return Ok(());
  }

  method SkipEarlySections(c: Cursor, version: nat) returns (r: Result<()>)
    requires c.Valid()
    modifies c
    ensures c.Valid()
    ensures r == Status(ParseEarlySections(c.data, old(c.pos), version))
    ensures r.Ok? ==> c.pos == ParseEarlySections(c.data, old(c.pos), version).value.next
  {
    if version <= 21 {
      var mapblockObjectCount :- c.ReadU16();
    }
    if version == 23 {
      var unusedTimerVersion :- c.ReadU8();
    }
    if version == 24 {
      r := SkipV24Timers(c);
    } else {
      r := Ok(());
    }
  }

  method ReadTrailer(c: Cursor, version: nat, m0: IdToName) returns (r: Result<IdToName>)
    requires c.Valid()
    modifies c
    ensures c.Valid()
    ensures ParseTrailer(c.data, old(c.pos), version).Ok? ==> r == Ok(Apply(m0, ParseTrailer(c.data, old(c.pos), version).value.value.entries))
    ensures ParseTrailer(c.data, old(c.pos), version).Err? ==> r == Err(Truncated)
  {
    var ok :- SkipEarlySections(c, version);
    ok :- SkipStaticObjects(c);
    r := ReadLateSections(c, version, m0);
  }

  method ReadLateSections(c: Cursor, version: nat, m0: IdToName) returns (r: Result<IdToName>)
    requires c.Valid()
    modifies c
    ensures c.Valid()
    ensures ParseLateSections(c.data, old(c.pos), version).Ok? ==> r == Ok(Apply(m0, ParseLateSections(c.data, old(c.pos), version).value.value.entries))
    ensures ParseLateSections(c.data, old(c.pos), version).Err? ==> r == Err(Truncated)
  {
    var timestamp :- c.ReadU32();
    var idToName := m0;
    if version >= 22 {
      idToName :- ReadNameIdMapping(c, idToName);
    }
    if version >= 25 {
      var ok :- SkipNodeTimers(c);
    }
    return Ok(idToName);
  }
}
