/** A forward-only reader over an in-memory byte buffer: the io.BytesIO
    object of map.py together with the fixed-width big-endian readers
    readU8/readU16/readU32/readS32 it is used with. */
module ByteCursor {
  import opened Results

  type Byte = bv8

  /** A value read at some position, with the position just after it. */
  datatype Parsed<+T> = Parsed(value: T, next: nat)

  /** BytesIO.read(n): at most n bytes, fewer only where the buffer ends;
      it never fails. */
  function BytesAt(s: seq<Byte>, p: nat, n: nat): (r: Parsed<seq<Byte>>)
    requires p <= |s|
    ensures p <= r.next <= |s| && r.value == s[p..r.next]
    ensures |r.value| <= n && (|r.value| < n ==> r.next == |s|)
  {
    var q := if p + n <= |s| then p + n else |s|;
    Parsed(s[p..q], q)
  }

  // The fixed-width readers are big-endian. Each is f.read(width) followed
  // by an unpack that fails when fewer than width bytes came back.

  function U8At(s: seq<Byte>, p: nat): (r: Result<Parsed<nat>>)
    requires p <= |s|
    ensures r.Ok? <==> p + 1 <= |s|
    ensures r.Ok? ==> r.value.next == p + 1 && r.value.value < 0x100
    ensures r.Ok? ==> r.value.value == s[p] as nat
    ensures r.Err? ==> r.error == Truncated
  {
    if p + 1 <= |s| then Ok(Parsed(s[p] as nat, p + 1)) else Err(Truncated)
  }

  function U16At(s: seq<Byte>, p: nat): (r: Result<Parsed<nat>>)
    requires p <= |s|
    ensures r.Ok? <==> p + 2 <= |s|
    ensures r.Ok? ==> r.value.next == p + 2 && r.value.value < 0x1_0000
    ensures r.Ok? ==> r.value.value == s[p] as nat * 0x100 + s[p + 1] as nat
    ensures r.Err? ==> r.error == Truncated
  {
    if p + 2 <= |s| then Ok(Parsed(s[p] as nat * 0x100 + s[p + 1] as nat, p + 2)) else Err(Truncated)
  }

  function U32At(s: seq<Byte>, p: nat): (r: Result<Parsed<nat>>)
    requires p <= |s|
    ensures r.Ok? <==> p + 4 <= |s|
    ensures r.Ok? ==> r.value.next == p + 4 && r.value.value < 0x1_0000_0000
    ensures r.Ok? ==>
      r.value.value == s[p] as nat * 0x100_0000 + s[p + 1] as nat * 0x1_0000 + s[p + 2] as nat * 0x100 + s[p + 3] as nat
    ensures r.Err? ==> r.error == Truncated
  {
    if p + 4 <= |s| then
      Ok(Parsed(s[p] as nat * 0x100_0000 + s[p + 1] as nat * 0x1_0000 + s[p + 2] as nat * 0x100 + s[p + 3] as nat, p + 4))
    else Err(Truncated)
  }

  /** A signed 32-bit read: the unsigned value reinterpreted in two's complement. */
  function S32At(s: seq<Byte>, p: nat): (r: Result<Parsed<int>>)
    requires p <= |s|
    ensures r.Ok? <==> p + 4 <= |s|
    ensures r.Ok? ==> r.value.next == p + 4 && -0x8000_0000 <= r.value.value < 0x8000_0000
    ensures r.Ok? ==> var u := U32At(s, p).value.value;
      r.value.value == if u < 0x8000_0000 then u else u - 0x1_0000_0000
    ensures r.Err? ==> r.error == Truncated
  {
    var u :- U32At(s, p);
    Ok(Parsed(if u.value < 0x8000_0000 then u.value else u.value - 0x1_0000_0000, u.next))
  }

  /** The value of a read, without its end position. */
  function Value<T>(r: Result<Parsed<T>>): Result<T>
  {
    if r.Ok? then Ok(r.value.value) else Err(r.error)
  }

  /** Whether a read succeeded, for reads whose values are skipped. */
  function Status<T>(r: Result<Parsed<T>>): Result<()>
  {
    if r.Ok? then Ok(()) else Err(r.error)
  }

  /** Where a cursor stands after a read: after the field, or at the end of
      the buffer when the read came up short. */
  function After<T>(r: Result<Parsed<T>>, end: nat): nat
  {
    if r.Ok? then r.value.next else end
  }

  class Cursor {
    const data: seq<Byte>
    var pos: nat

    ghost predicate Valid()
      reads this
    {
      pos <= |data|
    }

    constructor (bytes: seq<Byte>)
      ensures Valid() && data == bytes && pos == 0
    {
      data := bytes;
      pos := 0;
    }

    /** f.read(n) */
    method Read(n: nat) returns (chunk: seq<Byte>)
      requires Valid()
      modifies this
      ensures Valid()
      ensures Parsed(chunk, pos) == BytesAt(data, old(pos), n)
    {
      var q := if pos + n <= |data| then pos + n else |data|;
      chunk := data[pos..q];
      pos := q;
    }

    /** f.read() with no size: everything that is left. */
    method ReadAll() returns (chunk: seq<Byte>)
      requires Valid()
      modifies this
      ensures Valid()
      ensures chunk == data[old(pos)..] && pos == |data|
    {
      chunk := data[pos..];
      pos := |data|;
    }

    method ReadU8() returns (r: Result<nat>)
      requires Valid()
      modifies this
      ensures Valid()
      ensures r == Value(U8At(data, old(pos))) && pos == After(U8At(data, old(pos)), |data|)
    {
      var raw := Read(1);
      if |raw| < 1 {
        return Err(Truncated);
      }
      return Ok(raw[0] as nat);
    }

    method ReadU16() returns (r: Result<nat>)
      requires Valid()
      modifies this
      ensures Valid()
      ensures r == Value(U16At(data, old(pos))) && pos == After(U16At(data, old(pos)), |data|)
    {
      var raw := Read(2);
      if |raw| < 2 {
        return Err(Truncated);
      }
      return Ok(raw[0] as nat * 0x100 + raw[1] as nat);
    }

    method ReadU32() returns (r: Result<nat>)
      requires Valid()
      modifies this
      ensures Valid()
      ensures r == Value(U32At(data, old(pos))) && pos == After(U32At(data, old(pos)), |data|)
    {
      var raw := Read(4);
      if |raw| < 4 {
        return Err(Truncated);
      }
      return Ok(raw[0] as nat * 0x100_0000 + raw[1] as nat * 0x1_0000 + raw[2] as nat * 0x100 + raw[3] as nat);
    }

    method ReadS32() returns (r: Result<int>)
      requires Valid()
      modifies this
      ensures Valid()
      ensures r == Value(S32At(data, old(pos))) && pos == After(S32At(data, old(pos)), |data|)
    {
      var u :- ReadU32();
      var v: int := if u < 0x8000_0000 then u else u as int - 0x1_0000_0000;
      return Ok(v);
    }
  }
}
