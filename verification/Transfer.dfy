/** Vocabulary of include/sub0mempage/transfer.hpp: status codes, byte ranges, tokens, fill results and
    the range arithmetic both ownership modes share. Offsets and lengths are 64-bit, so every sum the
    source forms is written over `u64` or guarded by the source's own overflow check. */
module Transfer {
  const U64_MAX: nat := 0xFFFF_FFFF_FFFF_FFFF
  const WORD: nat := 0x1_0000_0000_0000_0000
  type u64 = x: nat | x <= U64_MAX

  type byte = bv8

  const NONE: int := -1

  datatype Option<+T> = None | Some(value: T)

  datatype Status =
    | Ok | Pending | NotResident | PoolExhausted | BatchTooLarge | QueueExhausted | TicketExhausted
    | OutOfRange | EmptyRange | InvalidArgument | Busy | ShortRead | IoError | Cancelled | Timeout | Declined

  datatype ByteRange = ByteRange(offset: u64, length: u64)

  datatype AdmissionClass = Declared | Speculative

  datatype Token = Token(index: nat, generation: nat)

  datatype FillResult = FillResult(status: Status, bytes: u64)

  function Min(a: int, b: int): int { if a <= b then a else b }

  function Max(a: int, b: int): int { if a <= b then b else a }

  /** The end of `offset + length`, or None exactly when the 64-bit sum would wrap. */
  function CheckedEnd(offset: u64, length: u64): (end: Option<u64>)
    ensures end.Some? <==> offset + length <= U64_MAX
    ensures end.Some? ==> end.value - length == offset
  {
    if length > U64_MAX - offset then None else Some(offset + length)
  }

  function ValidateRange(range: ByteRange, extent: u64): (status: Status)
    ensures status == Ok <==> 0 < range.length && range.offset + range.length <= extent
    ensures status != Ok ==> status == (if range.length == 0 then EmptyRange else OutOfRange)
  {
    if range.length == 0 then EmptyRange
    else
      var end := CheckedEnd(range.offset, range.length);
      if end.Some? && end.value <= extent then Ok else OutOfRange
  }

  /** A fill counts only when the backend says ok and wrote exactly what was asked; a failure keeps its status. */
  function ClassifyFill(result: FillResult, requested: nat): (status: Status)
    ensures status == Ok <==> result == FillResult(Ok, result.bytes) && result.bytes == requested
    ensures result.status != Ok ==> status == result.status
    ensures result.status == Ok && result.bytes != requested ==> status == ShortRead
  {
    if result.status != Ok then result.status
    else if result.bytes == requested then Ok else ShortRead
  }
}
