/** Failure-compatible wrappers and the error taxonomy of the block decoder. */
module Results {

  datatype Option<+T> = None | Some(value: T)

  /** The ways a decode or a node lookup can fail. Each corresponds to an
      exception the Python code lets escape:
      - EmptyRecord: the stored blob has no first byte (IndexError on r[0][0]);
      - Truncated: a fixed-width field runs past the end of its buffer;
      - CorruptEnvelope: the zstd decompressor raises;
      - IndexOutOfRange: MapBlock.get indexes past the node data (IndexError);
      - UnknownNodeId: MapBlock.get finds no name for the id (KeyError). */
  datatype Error = EmptyRecord | Truncated | CorruptEnvelope | IndexOutOfRange | UnknownNodeId

  datatype Result<+T> = Ok(value: T) | Err(error: Error) {

    predicate IsFailure() {
      Err?
    }

    function PropagateFailure<U>(): Result<U>
      requires Err?
    {
      Err(error)
    }

    function Extract(): T
      requires Ok?
    {
      value
    }
  }
}
