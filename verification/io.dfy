/** Types shared by every part of the model: bytes, chunks of bytes, opaque stream
    identities and the operations the multiplexer issues on a stream. */
module Io {

  newtype Byte = x: int | 0 <= x < 256

  /** One `byte[]` handed between components; chunks are never null in the source. */
  type Chunk = seq<Byte>

  /** An opaque handle for an underlying stream (socket stream, pipe, file). */
  type StreamId = nat

  datatype Option<+T> = None | Some(value: T)

  /** An operation issued on an underlying stream, recorded in the order issued. */
  datatype StreamOp =
    | ReadOp(stream: StreamId)
    | WriteOp(stream: StreamId, data: Chunk)
    | FlushOp(stream: StreamId)
    | DisposeOp(stream: StreamId)

  /** How the environment answers a write followed by a flush: both succeed, the write
      throws an IOException (the flush is then never issued), or the flush throws. */
  datatype WriteFlush = BothOk | WriteThrows | FlushThrows
}
