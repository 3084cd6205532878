/** The node id -> node name table ("NameIdMapping") that getBlock fills
    in place while it reads one or the other table sub-record. */
module NameTable {
  import opened Results
  import opened ByteCursor

  /** One table entry as read: the id, the declared name length and the
      name bytes actually obtained (f.read may return fewer at the end of
      the buffer). */
  datatype Entry = Entry(id: nat, nameLen: nat, name: seq<Byte>)

  type IdToName = map<nat, seq<Byte>>

  /** The dict after `id_to_name[node_id] = node_name` has run for each
      entry in turn. */
  function Apply(m: IdToName, es: seq<Entry>): (r: IdToName)
    ensures m.Keys <= r.Keys && Ids(es) <= r.Keys
    decreases |es|
  {
    if es == [] then m else Apply(m, es[..|es| - 1])[es[|es| - 1].id := es[|es| - 1].name]
  }

  function Ids(es: seq<Entry>): set<nat>
  {
    set e | e in es :: e.id
  }

  /** Bytes taken by a run of entries: two u16 fields and the name each. */
  function EntriesSize(es: seq<Entry>): nat
  {
    if es == [] then 0 else 4 + |es[0].name| + EntriesSize(es[1..])
  }

  /** One entry: a u16 id, a u16 name length, then at most that many
      name bytes. */
  function EntryAt(s: seq<Byte>, p: nat): (r: Result<Parsed<Entry>>)
    requires p <= |s|
    ensures r.Ok? <==> p + 4 <= |s|
    ensures r.Ok? ==> var Parsed(e, q) := r.value;
      && e.id == s[p] as nat * 256 + s[p + 1] as nat
      && e.nameLen == s[p + 2] as nat * 256 + s[p + 3] as nat
      && q == p + 4 + |e.name| <= |s|
      && e.name == s[p + 4..q]
      && |e.name| <= e.nameLen && (|e.name| < e.nameLen ==> q == |s|)
    ensures r.Err? ==> r.error == Truncated
  {
    var id :- U16At(s, p);
    var len :- U16At(s, id.next);
    var name := BytesAt(s, len.next, len.value);
    Ok(Parsed(Entry(id.value, len.value, name.value), name.next))
  }

  /** n entries from position p, appended to those already read. */
  function ParseEntries(s: seq<Byte>, p: nat, n: nat, done: seq<Entry>): (r: Result<Parsed<seq<Entry>>>)
    requires p <= |s|
    ensures r.Ok? ==> p <= r.value.next <= |s|
    ensures r.Err? ==> r.error == Truncated
    decreases n
  {
    if n == 0 then Ok(Parsed(done, p))
    else
      var e :- EntryAt(s, p);
      ParseEntries(s, e.next, n - 1, done + [e.value])
  }

  /** The NameIdMapping sub-record: a u8 format version, a u16 count and
      the entries (map.py:75-81 and map.py:153-159). */
  function ParseNameIdMapping(s: seq<Byte>, p: nat): (r: Result<Parsed<seq<Entry>>>)
    requires p <= |s|
    ensures r.Ok? ==> p <= r.value.next <= |s|
    ensures r.Err? ==> r.error == Truncated
  {
    var version :- U8At(s, p);
    var count :- U16At(s, version.next);
    ParseEntries(s, count.next, count.value, [])
  }

  /** The table inlined in a version >= 29 record: a u32 timestamp, then
      a NameIdMapping (map.py:74-81). */
  function ParseInlineTable(s: seq<Byte>, p: nat): (r: Result<Parsed<seq<Entry>>>)
    requires p <= |s|
    ensures r.Ok? ==> p <= r.value.next <= |s|
    ensures r.Err? ==> r.error == Truncated
  {
    var timestamp :- U32At(s, p);
    ParseNameIdMapping(s, timestamp.next)
  }

  /** The dict a table read leaves behind, starting from m. */
  function TableAfter(m: IdToName, r: Result<Parsed<seq<Entry>>>): Result<IdToName>
  {
    if r.Ok? then Ok(Apply(m, r.value.value)) else Err(r.error)
  }

  // ---------------------------------------------------------------------
  // Properties of the table

  /** The final key set is the old one plus exactly the ids read. */
  lemma {:induction false} ApplyKeys(m: IdToName, es: seq<Entry>)
    ensures Apply(m, es).Keys == m.Keys + Ids(es)
    decreases |es|
  {
    if es != [] {
      var init := es[..|es| - 1];
      ApplyKeys(m, init);
      assert es == init + [es[|es| - 1]];
      assert Ids(es) == Ids(init) + {es[|es| - 1].id};
    }
  }

  /** Every id read ends up bound to the name of the LAST entry with that
      id: a later entry overwrites an earlier one. */
  lemma {:induction false} ApplyLastWins(m: IdToName, es: seq<Entry>, k: nat)
    requires k in Ids(es)
    ensures k in Apply(m, es)
    ensures exists i :: 0 <= i < |es| && es[i].id == k && Apply(m, es)[k] == es[i].name &&
                        forall j :: i < j < |es| ==> es[j].id != k
    decreases |es|
  {
    var last := |es| - 1;
    var init := es[..last];
    if es[last].id != k {
      var e :| e in es && e.id == k;
      assert e in init by {
        var w :| 0 <= w < |es| && es[w] == e;
        assert w != last;
        assert init[w] == e;
      }
      assert k in Ids(init);
      ApplyLastWins(m, init, k);
      var i :| 0 <= i < |init| && init[i].id == k && Apply(m, init)[k] == init[i].name &&
               forall j :: i < j < |init| ==> init[j].id != k;
      assert es[i] == init[i];
      assert forall j :: i < j < |es| ==> es[j].id != k by {
        forall j | i < j < |es| ensures es[j].id != k {
          if j < last { assert es[j] == init[j]; }
        }
      }
    }
  }

  /** Ids that were not read keep their old binding. */
  lemma {:induction false} ApplyKeepsOthers(m: IdToName, es: seq<Entry>, k: nat)
    requires k in m && k !in Ids(es)
    ensures k in Apply(m, es) && Apply(m, es)[k] == m[k]
    decreases |es|
  {
    if es != [] {
      var init := es[..|es| - 1];
      assert Ids(init) <= Ids(es) by {
        forall e | e in init ensures e in es { }
      }
      ApplyKeepsOthers(m, init, k);
    }
  }

  /** Reading two runs of entries one after the other is reading their
      concatenation: the second run overwrites the first on shared ids. */
  lemma {:induction false} ApplyConcat(m: IdToName, a: seq<Entry>, b: seq<Entry>)
    ensures Apply(Apply(m, a), b) == Apply(m, a + b)
    decreases |b|
  {
    if b == [] {
      assert a + b == a;
    } else {
      var initB := b[..|b| - 1];
      ApplyConcat(m, a, initB);
      assert (a + b)[..|a + b| - 1] == a + initB;
    }
  }

  /** A run of n entries read from p yields n more entries and takes
      exactly 4 + |name| bytes per entry. */
  lemma {:induction false} ParseEntriesConsumes(s: seq<Byte>, p: nat, n: nat, done: seq<Entry>)
    requires p <= |s|
    requires ParseEntries(s, p, n, done).Ok?
    ensures |ParseEntries(s, p, n, done).value.value| == |done| + n
    ensures ParseEntries(s, p, n, done).value.value[..|done|] == done
    ensures ParseEntries(s, p, n, done).value.next == p + EntriesSize(ParseEntries(s, p, n, done).value.value[|done|..])
    decreases n
  {
    var es := ParseEntries(s, p, n, done).value.value;
    if n == 0 {
      assert es[|done|..] == [];
    } else {
      var e := EntryAt(s, p).value;
      ParseEntriesConsumes(s, e.next, n - 1, done + [e.value]);
      assert es[..|done|] == (done + [e.value])[..|done|];
      assert es[|done|] == e.value;
      assert es[|done|..][1..] == es[|done| + 1..];
    }
  }

  /** Every name read is at most its declared length, and one comes up
      short only in the last entry and only where the buffer ends. */
  lemma {:induction false} ParseEntriesShortNameIsLast(s: seq<Byte>, p: nat, n: nat, done: seq<Entry>, i: nat)
    requires p <= |s|
    requires ParseEntries(s, p, n, done).Ok?
    requires |done| <= i < |done| + n
    ensures var Parsed(es, q) := ParseEntries(s, p, n, done).value;
      && i < |es|
      && |es[i].name| <= es[i].nameLen
      && (|es[i].name| < es[i].nameLen ==> i == |done| + n - 1 && q == |s|)
    decreases n
  {
    ParseEntriesConsumes(s, p, n, done);
    var e := EntryAt(s, p).value;
    ParseEntriesConsumes(s, e.next, n - 1, done + [e.value]);
    var es := ParseEntries(s, p, n, done).value.value;
    if i == |done| {
      assert es[..|done| + 1] == done + [e.value];
      assert es[i] == e.value;
    } else {
      ParseEntriesShortNameIsLast(s, e.next, n - 1, done + [e.value], i);
    }
  }

  /** The NameIdMapping sub-record takes 3 + sum(4 + |name|) bytes and
      yields as many entries as its count field says. */
  lemma ParseNameIdMappingConsumes(s: seq<Byte>, p: nat)
    requires p <= |s|
    requires ParseNameIdMapping(s, p).Ok?
    ensures var Parsed(es, q) := ParseNameIdMapping(s, p).value;
      && |es| == s[p + 1] as nat * 256 + s[p + 2] as nat
      && q == p + 3 + EntriesSize(es)
  {
    var count := U16At(s, p + 1).value;
    ParseEntriesConsumes(s, p + 3, count.value, []);
    assert ParseNameIdMapping(s, p).value.value[0..] == ParseNameIdMapping(s, p).value.value;
  }

  /** The inline table of a version >= 29 record takes
      4 + 1 + 2 + sum(4 + |name|) bytes. */
  lemma ParseInlineTableConsumes(s: seq<Byte>, p: nat)
    requires p <= |s|
    requires ParseInlineTable(s, p).Ok?
    ensures var Parsed(es, q) := ParseInlineTable(s, p).value;
      q == p + 4 + 1 + 2 + EntriesSize(es)
  {
    ParseNameIdMappingConsumes(s, p + 4);
  }

  // ---------------------------------------------------------------------
  // The loop of map.py:77-81 / 155-159 over a cursor

  method ReadEntries(c: Cursor, n: nat, m0: IdToName) returns (r: Result<IdToName>)
    requires c.Valid()
    modifies c
    ensures c.Valid()
    ensures r == TableAfter(m0, ParseEntries(c.data, old(c.pos), n, []))
    ensures r.Ok? ==> c.pos == ParseEntries(c.data, old(c.pos), n, []).value.next
  {
    ghost var spec := ParseEntries(c.data, c.pos, n, []);
    var idToName := m0;
    ghost var done: seq<Entry> := [];
    var i := 0;
    while i < n
      invariant 0 <= i <= n && c.Valid()
      invariant ParseEntries(c.data, c.pos, n - i, done) == spec
      invariant idToName == Apply(m0, done)
    {
      var entry :- ReadEntry(c);
      idToName := idToName[entry.id := entry.name];
      done := done + [entry];
      i := i + 1;
    }
    return Ok(idToName);
  }

  /** One pass of the loop body: node_id, node_name_size, node_name. */
  method ReadEntry(c: Cursor) returns (r: Result<Entry>)
    requires c.Valid()
    modifies c
    ensures c.Valid()
    ensures r == Value(EntryAt(c.data, old(c.pos)))
    ensures r.Ok? ==> c.pos == EntryAt(c.data, old(c.pos)).value.next
  {
    var nodeId :- c.ReadU16();
    var nodeNameSize :- c.ReadU16();
    var nodeName := c.Read(nodeNameSize);
    return Ok(Entry(nodeId, nodeNameSize, nodeName));
  }

  method ReadNameIdMapping(c: Cursor, m0: IdToName) returns (r: Result<IdToName>)
    requires c.Valid()
    modifies c
    ensures c.Valid()
    ensures r == TableAfter(m0, ParseNameIdMapping(c.data, old(c.pos)))
    ensures r.Ok? ==> c.pos == ParseNameIdMapping(c.data, old(c.pos)).value.next
  {
    var mappingVersion :- c.ReadU8();
    var count :- c.ReadU16();
    r := ReadEntries(c, count, m0);
  }

  method ReadInlineTable(c: Cursor, m0: IdToName) returns (r: Result<IdToName>)
    requires c.Valid()
    modifies c
    ensures c.Valid()
    ensures r == TableAfter(m0, ParseInlineTable(c.data, old(c.pos)))
    ensures r.Ok? ==> c.pos == ParseInlineTable(c.data, old(c.pos)).value.next
  {
    var timestamp :- c.ReadU32();
    r := ReadNameIdMapping(c, m0);
  }
}
