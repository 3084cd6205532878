/** The two decompressors the decoder calls. Their algorithms are not part
    of this model: each is an oracle passed in as a function value. */
module Codecs {
  import opened Results
  import opened ByteCursor

  /** zstandard's decompressobj().decompress: the plain bytes, or None when
      it raises (which getBlock does not catch). */
  type Zstd = seq<Byte> -> Option<seq<Byte>>

  /** One zlib.decompressobj().decompress call on the rest of a buffer: it
      raises, or it yields the decompressed payload together with the
      decompressor's unused_data, the input left over after the end of the
      one deflate stream it decoded. */
  datatype Inflate = Raised | Inflated(payload: seq<Byte>, unused: seq<Byte>)

  type Zlib = seq<Byte> -> Inflate

  ghost predicate IsSuffix(t: seq<Byte>, s: seq<Byte>)
  {
    |t| <= |s| && t == s[|s| - |t|..]
  }

  /** The one assumption made about the zlib oracle: what it reports as
      unused is a tail of what it was given. Lemmas that need it say so. */
  ghost predicate KeepsTail(zlib: Zlib)
  {
    forall s :: zlib(s).Inflated? ==> IsSuffix(zlib(s).unused, s)
  }

  /** The outcome of one try/except around a zlib stream: the payload that
      is kept (empty when decompression raised) and the bytes the next
      cursor is built over (dec_o.unused_data, which a decompressor that
      raised before reaching the end of its stream leaves empty). */
  datatype Peeled = Peeled(payload: seq<Byte>, tail: seq<Byte>)

  function Peel(zlib: Zlib, input: seq<Byte>): (r: Peeled)
    ensures zlib(input).Raised? ==> r == Peeled([], [])
    ensures zlib(input).Inflated? ==> r.payload == zlib(input).payload && r.tail == zlib(input).unused
    ensures KeepsTail(zlib) ==> IsSuffix(r.tail, input)
  {
    match zlib(input)
    case Raised => Peeled([], [])
    case Inflated(payload, unused) => Peeled(payload, unused)
  }
}
