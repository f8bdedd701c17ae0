/** How a worker of LocalFileBackend (include/sub0mempage/local_file_backend.hpp) reads: the positional
    read loop, and the split of an uncached read into whole blocks and a last block read through scratch.
    The device is a parameter that may answer in any way the read contract allows. What a worker does to its
    request's destination is kept as the pieces it stored, for other threads may run between any two. */
module DirectRead {
  import opened Transfer
  import opened Memory
  import opened BackendModel

  const BLOCK: nat := 4096

  /** What one positional read may answer: interrupted, failed, or the number of bytes it read. */
  datatype Outcome = Interrupted | Failed | Got(count: nat)

  /** ... with what it left in the buffer, from its start on: beyond what it reports, anything. */
  datatype Answer = Answer(outcome: Outcome, stored: seq<byte>)

  /** `respond(attempt, position, length)`; reads are interrupted only before the attempt `patience`. */
  datatype Device = Device(respond: (nat, nat, nat) -> Answer, patience: nat)

  /** A read issued to the device: address and length of its buffer, and position in the file. */
  datatype Issued = Issued(address: nat, position: nat, length: nat) {
    predicate BlockAligned() { address % BLOCK == 0 && position % BLOCK == 0 && length % BLOCK == 0 }
  }

  /** Bytes of the file from `position` to its end. */
  function Available(file: seq<byte>, position: nat): (n: nat) { if position < |file| then |file| - position else 0 }

  function Slice(file: seq<byte>, position: nat, length: nat): (bytes: seq<byte>)
    requires length <= Available(file, position)
    ensures |bytes| == length
  {
    if length == 0 then [] else file[position..position + length]
  }

  /** The read contract: nothing is stored past the buffer; the bytes reported are the file's, none only at
      its end; uncached, fewer than asked for only at its end. */
  predicate Allowed(file: seq<byte>, access: Access, position: nat, length: nat, answer: Answer) {
    && |answer.stored| <= length
    && (answer.outcome.Got? ==>
          var count := answer.outcome.count;
          && count <= |answer.stored| && count <= Available(file, position)
          && answer.stored[..count] == Slice(file, position, count)
          && (count == 0 || (access.Uncached? && count < length) ==> count == Available(file, position)))
  }

  ghost predicate Obeys(device: Device, file: seq<byte>, access: Access) {
    forall attempt, position, length: nat :: 0 < length ==>
      && Allowed(file, access, position, length, device.respond(attempt, position, length))
      && (device.patience <= attempt ==> device.respond(attempt, position, length).outcome != Interrupted)
  }

  ghost predicate NeverFails(device: Device) {
    forall attempt, position, length: nat :: !device.respond(attempt, position, length).outcome.Failed?
  }

  lemma SliceMore(file: seq<byte>, position: nat, a: nat, b: nat)
    requires a <= Available(file, position) && b <= Available(file, position + a)
    ensures a + b <= Available(file, position)
    ensures Slice(file, position, a) + Slice(file, position + a, b) == Slice(file, position, a + b)
  {
  }

  lemma AvailableAfter(file: seq<byte>, position: nat, n: nat)
    requires n <= Available(file, position)
    ensures Available(file, position + n) == Available(file, position) - n
  {
  }

  // ----- one read -----

  /** One positional read. */
  method Pread(device: Device, ghost file: seq<byte>, ghost access: Access, buffer: array<byte>, at: nat,
               length: nat, position: nat, attempt: nat)
    returns (answer: Answer)
    requires Obeys(device, file, access) && 0 < length && at + length <= buffer.Length
    modifies buffer
    ensures answer == device.respond(attempt, position, length) && Allowed(file, access, position, length, answer)
    ensures device.patience <= attempt ==> answer.outcome != Interrupted
    ensures buffer[..] == Overwrite(old(buffer[..]), at, answer.stored)
  {
    hide Slice;
    answer := device.respond(attempt, position, length);
    assert Allowed(file, access, position, length, answer);
    Store(buffer, at, answer.stored);
  }

  /** The bytes a read leaves, or a copy, arrive in the buffer. */
  method Store(buffer: array<byte>, at: nat, bytes: seq<byte>)
    requires at + |bytes| <= buffer.Length
    modifies buffer
    ensures buffer[..] == Overwrite(old(buffer[..]), at, bytes)
  {
    forall i | 0 <= i < |bytes| {
      buffer[at + i] := bytes[i];
    }
  }

  // ----- the read loop -----

  /** The answers are the device's, to the reads issued, from the attempt `first` on. */
  ghost predicate AnsweredBy(device: Device, first: nat, issued: seq<Issued>, answers: seq<Answer>) {
    |answers| == |issued| && forall i :: 0 <= i < |issued| ==>
        answers[i] == device.respond(first + i, issued[i].position, issued[i].length)
  }

  lemma AnsweredMore(device: Device, first: nat, issued: seq<Issued>, answers: seq<Answer>, more: seq<Issued>,
                     moreAnswers: seq<Answer>)
    requires AnsweredBy(device, first, issued, answers)
    requires AnsweredBy(device, first + |issued|, more, moreAnswers)
    ensures AnsweredBy(device, first, issued + more, answers + moreAnswers)
  {
  }

  predicate SomeFailed(answers: seq<Answer>) {
    exists i :: 0 <= i < |answers| && answers[i].outcome.Failed?
  }

  /** Bytes that the answers report in all. */
  function Read(answers: seq<Answer>): nat {
    if answers == [] then 0
    else
      var last := answers[|answers| - 1].outcome;
      Read(answers[..|answers| - 1]) + if last.Got? then last.count else 0
  }

  lemma {:induction false} ReadBoth(answers: seq<Answer>, more: seq<Answer>)
    ensures Read(answers + more) == Read(answers) + Read(more)
    ensures SomeFailed(answers + more) <==> SomeFailed(answers) || SomeFailed(more)
  {
    FailedBoth(answers, more);
    if more == [] {
      assert answers + more == answers;
    } else {
      var last := |more| - 1;
      assert (answers + more)[..|answers| + last] == answers + more[..last];
      ReadBoth(answers, more[..last]);
    }
  }

  lemma FailedBoth(answers: seq<Answer>, more: seq<Answer>)
    ensures SomeFailed(answers + more) <==> SomeFailed(answers) || SomeFailed(more)
  {
    if i :| 0 <= i < |answers| && answers[i].outcome.Failed? {
      assert (answers + more)[i].outcome.Failed?;
    }
    if i :| 0 <= i < |more| && more[i].outcome.Failed? {
      assert (answers + more)[|answers| + i].outcome.Failed?;
    }
  }

  lemma ReadOne(answer: Answer)
    ensures Read([answer]) == if answer.outcome.Got? then answer.outcome.count else 0
    ensures SomeFailed([answer]) <==> answer.outcome.Failed?
  {
    assert [answer][..0] == [];
    assert [answer][0] == answer;
  }

  /** A device that never fails gives no failed answer. */
  lemma NoneFailed(device: Device, first: nat, issued: seq<Issued>, answers: seq<Answer>)
    requires NeverFails(device) && AnsweredBy(device, first, issued, answers)
    ensures !SomeFailed(answers)
  {
  }

  /** Every read issued stays inside the buffer `[address, address + length)` and, if the whole read is
      uncached and aligned, is itself aligned. */
  predicate IssuedOk(issued: seq<Issued>, access: Access, address: nat, position: nat, length: nat) {
    forall i :: 0 <= i < |issued| ==>
      && address <= issued[i].address && issued[i].address + issued[i].length <= address + length
      && (access.Uncached? && Issued(address, position, length).BlockAligned() ==> issued[i].BlockAligned())
  }

  /** How far an uncached read has come before it issues another. */
  predicate Resumes(access: Access, limit: nat, length: nat, total: nat) {
    access.Uncached? && total < length ==> total == 0 || (limit % BLOCK == 0 && total % BLOCK == 0)
  }

  /** The next read starts where the last one stopped, for what is left, but at most `limit` bytes. */
  lemma IssuedMore(issued: seq<Issued>, access: Access, address: nat, position: nat, length: nat, total: nat,
                   limit: nat)
    requires IssuedOk(issued, access, address, position, length) && total < length
    requires Resumes(access, limit, length, total)
    requires limit % BLOCK == 0 || length <= limit
    ensures IssuedOk(issued + [Issued(address + total, position + total, Min(length - total, limit))], access,
                     address, position, length)
    ensures access.Uncached? ==> Resumes(access, limit, length, total + Min(length - total, limit))
  {
    if access.Uncached? && Issued(address, position, length).BlockAligned() {
      if total != 0 || length > limit {
        AlignedSum(address, total);
        AlignedSum(position, total);
        AlignedDifference(length, total);
      }
    }
    if limit % BLOCK == 0 && total % BLOCK == 0 {
      AlignedSum(total, limit);
    }
  }

  lemma AlignedSum(a: nat, b: nat)
    requires a % BLOCK == 0 && b % BLOCK == 0
    ensures (a + b) % BLOCK == 0
  {
  }

  lemma AlignedDifference(a: nat, b: nat)
    requires a % BLOCK == 0 && b % BLOCK == 0 && b <= a
    ensures (a - b) % BLOCK == 0
  {
  }

  lemma NoneIssued(access: Access, address: nat, position: nat, length: nat)
    ensures IssuedOk([], access, address, position, length) && forall limit: nat :: Resumes(access, limit, length, 0)
  {
  }

  /** Where a read into the `length` bytes at `at` stands: its pieces lay the file's first `total` bytes from
      `offset`, and are all that it did to the buffer. */
  ghost predicate ReadUpTo(file: seq<byte>, before: seq<byte>, now: seq<byte>, at: nat, length: nat, offset: nat,
                           pieces: seq<Piece>, total: nat) {
    && total <= Available(file, offset) && Lays(pieces, length, Slice(file, offset, total))
    && at + length <= |before| && now == Play(before, at, length, pieces)
  }

  lemma NothingRead(file: seq<byte>, memory: seq<byte>, at: nat, length: nat, offset: nat)
    requires at + length <= |memory|
    ensures ReadUpTo(file, memory, memory, at, length, offset, [], 0)
  {
  }

  lemma ReadMore(file: seq<byte>, access: Access, before: seq<byte>, was: seq<byte>, at: nat, length: nat, offset: nat,
                 pieces: seq<Piece>, total: nat, asked: nat, answer: Answer)
    requires ReadUpTo(file, before, was, at, length, offset, pieces, total) && total + asked <= length
    requires Allowed(file, access, offset + total, asked, answer)
    ensures at + total + |answer.stored| <= |was|
    ensures var now := Overwrite(was, at + total, answer.stored);
      var count := if answer.outcome.Got? then answer.outcome.count else 0;
      && count <= asked && total + count <= Available(file, offset)
      && ReadUpTo(file, before, now, at, length, offset, pieces + [Piece(total, answer.stored)], total + count)
      && (answer.outcome.Got? && (count == 0 || (access.Uncached? && count < asked)) ==>
           total + count == Available(file, offset))
  {
    hide Slice, Lays, Overwrite, Play;
    AvailableAfter(file, offset, total);
    var count := if answer.outcome.Got? then answer.outcome.count else 0;
    LaidInside(pieces, length, Slice(file, offset, total));
    SliceMore(file, offset, total, count);
    EmptySlice(file, offset + total);
    PlayMore(before, at, length, pieces, Piece(total, answer.stored));
    LaysMore(pieces, length, Slice(file, offset, total), Piece(total, answer.stored),
             Slice(file, offset + total, count));
  }

  lemma EmptySlice(file: seq<byte>, position: nat)
    ensures Slice(file, position, 0) == []
  {
  }

  lemma LaidInside(pieces: seq<Piece>, n: nat, bytes: seq<byte>)
    requires Lays(pieces, n, bytes)
    ensures Contained(pieces, n) && |bytes| <= n
  {
  }

  /** Reads until `length` bytes are there, the file ends, or the device fails; at most `limit` bytes at a time
      (1 GiB on Windows, no limit elsewhere). An interrupted read is retried at the same place. A worker that is
      not `ready` reads nothing: on Windows, one whose event could not be created. `base` is the address of the
      first cell of `buffer`. */
  method ReadRange(device: Device, ghost file: seq<byte>, access: Access, buffer: array<byte>, at: nat, ghost base: nat,
                   length: nat, offset: nat, limit: nat, ready: bool, attempt: nat)
    returns (total: nat, status: Status, attempts: nat, ghost issued: seq<Issued>, ghost answers: seq<Answer>,
             ghost pieces: seq<Piece>)
    requires Obeys(device, file, access) && at + length <= buffer.Length
    requires 0 < limit && (limit % BLOCK == 0 || length <= limit)
    modifies buffer
    ensures total <= length && ReadUpTo(file, old(buffer[..]), buffer[..], at, length, offset, pieces, total)
    ensures !ready ==> issued == [] && pieces == []
    ensures status == if ready && !SomeFailed(answers) then Ok else IoError
    ensures status == Ok ==> total == Min(length, Available(file, offset))
    ensures AnsweredBy(device, attempt, issued, answers) && attempts == attempt + |issued| && total == Read(answers)
    ensures IssuedOk(issued, access, base + at, offset, length)
  {
    hide ReadUpTo, Allowed, IssuedOk, Resumes, Obeys, Available, SomeFailed, AnsweredBy, Read;
    total, status, attempts, issued, answers, pieces := 0, Ok, attempt, [], [], [];
    NoneRead(device, attempt);
    var remaining: nat := length;
    NothingRead(file, buffer[..], at, length, offset);
    NoneIssued(access, base + at, offset, length);
    if !ready {
      status := IoError;
      return;
    }
    while remaining > 0
      invariant total + remaining == length && total <= Available(file, offset)
      invariant ReadUpTo(file, old(buffer[..]), buffer[..], at, length, offset, pieces, total)
      invariant status == Ok && attempts == attempt + |issued|
      invariant AnsweredBy(device, attempt, issued, answers) && !SomeFailed(answers) && total == Read(answers)
      invariant Resumes(access, limit, length, total)
      invariant IssuedOk(issued, access, base + at, offset, length)
      decreases remaining, if attempts < device.patience then device.patience - attempts else 0
    {
      var asked: nat := Min(remaining, limit);
      ghost var was := buffer[..];
      var answer := Pread(device, file, access, buffer, at + total, asked, offset + total, attempts);
      IssuedMore(issued, access, base + at, offset, length, total, limit);
      OneAnswered(device, attempt, issued, answers, Issued(base + at + total, offset + total, asked), answer);
      issued, answers := issued + [Issued(base + at + total, offset + total, asked)], answers + [answer];
      attempts := attempts + 1;
      ReadMore(file, access, old(buffer[..]), was, at, length, offset, pieces, total, asked, answer);
      pieces := pieces + [Piece(total, answer.stored)];
      if answer.outcome.Interrupted? {
        continue;
      }
      if answer.outcome.Failed? {
        status := IoError;
        break;
      }
      var got := answer.outcome.count;
      if got == 0 {
        break;
      }
      total := total + got;
      if access.Uncached? && got < asked {
        break;
      }
      remaining := remaining - got;
      Buffered(access, limit, length, total);
    }
  }

  lemma NoneRead(device: Device, first: nat)
    ensures AnsweredBy(device, first, [], []) && !SomeFailed([]) && Read([]) == 0
  {
  }

  /** One more read, and its answer. */
  lemma OneAnswered(device: Device, first: nat, issued: seq<Issued>, answers: seq<Answer>, read: Issued, answer: Answer)
    requires AnsweredBy(device, first, issued, answers)
    requires answer == device.respond(first + |issued|, read.position, read.length)
    ensures AnsweredBy(device, first, issued + [read], answers + [answer])
    ensures Read(answers + [answer]) == Read(answers) + if answer.outcome.Got? then answer.outcome.count else 0
    ensures SomeFailed(answers + [answer]) <==> SomeFailed(answers) || answer.outcome.Failed?
  {
    hide Read, SomeFailed;
    ReadBoth(answers, [answer]);
    ReadOne(answer);
  }

  lemma Buffered(access: Access, limit: nat, length: nat, total: nat)
    ensures access.Buffered? ==> Resumes(access, limit, length, total)
  {
  }

  // ----- whole requests -----

  /** The alignment check on an uncached request, in the source's 64-bit arithmetic. */
  predicate UncachedValid(offset: u64, length: u64, address: nat, sourceSize: u64) {
    var toEnd := (offset + length) % WORD >= sourceSize;
    offset % BLOCK == 0 && address % BLOCK == 0 && (length % BLOCK == 0 || toEnd)
  }

  /** What the check enforces: aligned offset and address, and a length that is a multiple of the block or
      runs to the end of the file. The 64-bit sum only ever makes it stricter: a request is refused although
      it runs to the end exactly when its sum wraps to below the file's size. */
  lemma UncachedValidMeaning(offset: u64, length: u64, address: nat, sourceSize: u64)
    ensures var rule := offset % BLOCK == 0 && address % BLOCK == 0
        && (length % BLOCK == 0 || offset + length >= sourceSize);
      UncachedValid(offset, length, address, sourceSize) <==>
      rule && (length % BLOCK == 0 || offset + length <= U64_MAX || offset + length - WORD >= sourceSize)
  {
    var sum := offset + length;
    if sum > U64_MAX {
      assert sum % WORD == (sum - WORD) % WORD;
    }
  }

  /** Whether a worker reads at all. */
  predicate Readable(item: WorkItem, address: nat) {
    && item.source.Some?
    && (item.source.value.access.Uncached? ==>
          UncachedValid(item.request.offset, item.request.length, address, item.source.value.size))
  }

  lemma InPlace(wanted: nat)
    ensures var n := wanted / BLOCK * BLOCK;
      n <= wanted < n + BLOCK && n % BLOCK == 0 && (n < wanted <==> wanted % BLOCK != 0)
  {
  }

  predicate Within(read: Issued, address: nat, length: nat)
  {
    address <= read.address && read.address + read.length <= address + length
  }

  /** Every read goes into the destination or into the scratch block; uncached, as whole aligned blocks. */
  predicate ReadsWithin(issued: seq<Issued>, uncached: bool, address: nat, length: nat, scratchAddress: nat) {
    forall i :: 0 <= i < |issued| ==>
      && (uncached ==> issued[i].BlockAligned())
      && (Within(issued[i], address, length) || Within(issued[i], scratchAddress, BLOCK))
  }

  lemma NoReads(address: nat, length: nat, scratchAddress: nat)
    ensures forall uncached :: ReadsWithin([], uncached, address, length, scratchAddress)
  {
  }

  lemma ReadsInPlace(issued: seq<Issued>, access: Access, address: nat, position: nat, length: nat, wanted: nat,
                     scratchAddress: nat)
    requires IssuedOk(issued, access, address, position, length) && length <= wanted
    requires access.Uncached? ==> Issued(address, position, length).BlockAligned()
    ensures ReadsWithin(issued, access.Uncached?, address, wanted, scratchAddress)
  {
  }

  lemma ReadsAside(issued: seq<Issued>, more: seq<Issued>, access: Access, address: nat, wanted: nat,
                   scratchAddress: nat, position: nat)
    requires ReadsWithin(issued, access.Uncached?, address, wanted, scratchAddress)
    requires IssuedOk(more, access, scratchAddress, position, BLOCK)
    requires access.Uncached? ==> Issued(scratchAddress, position, BLOCK).BlockAligned()
    ensures ReadsWithin(issued + more, access.Uncached?, address, wanted, scratchAddress)
  {
  }

  /** What a worker may deliver for an item whose destination is at `address`, once it has stored `pieces`
      there: nothing read for an unknown source or a misaligned request; otherwise the first bytes of the
      destination are the file's, as many as reported, and with an ok status as many as the file had. */
  ghost predicate Reported(file: seq<byte>, item: WorkItem, address: nat, pieces: seq<Piece>, result: FillResult) {
    if !Readable(item, address) then pieces == [] && result == FillResult(InvalidArgument, 0)
    else
      && (result.status == Ok || result.status == IoError)
      && result.bytes <= item.request.length && result.bytes <= Available(file, item.request.offset)
      && Lays(pieces, item.request.length, Slice(file, item.request.offset, result.bytes))
      && (result.status == Ok ==> result.bytes == Min(item.request.length, Available(file, item.request.offset)))
  }

  /** The last block of a request, read through scratch after `inPlace` bytes were read in place. */
  method ReadTail(device: Device, ghost file: seq<byte>, access: Access, memory: array<byte>, at: nat, wanted: nat,
                  inPlace: nat, offset: nat, scratch: array<byte>, ghost scratchAddress: nat, limit: nat, ready: bool,
                  attempts: nat, ghost start: seq<byte>, ghost pieces: seq<Piece>)
    returns (tail: nat, status: Status, ghost issued: seq<Issued>, ghost answers: seq<Answer>,
             ghost allPieces: seq<Piece>)
    requires ReadUpTo(file, start, memory[..], at, wanted, offset, pieces, inPlace)
    requires inPlace < wanted < inPlace + BLOCK
    requires at + wanted <= memory.Length && scratch.Length == BLOCK && scratch != memory && BLOCK <= limit
    requires Obeys(device, file, access)
    modifies memory, scratch
    ensures ReadUpTo(file, start, memory[..], at, wanted, offset, allPieces, inPlace + tail)
    ensures tail == Min(wanted - inPlace, Read(answers)) && (!ready ==> issued == [])
    ensures status == if ready && !SomeFailed(answers) then Ok else IoError
    ensures status == Ok ==> inPlace + tail == Min(wanted, Available(file, offset))
    ensures AnsweredBy(device, attempts, issued, answers)
    ensures IssuedOk(issued, access, scratchAddress, offset + inPlace, BLOCK)
  {
    hide IssuedOk, Slice, Lays, Play, Obeys, ReadUpTo, Available, Overwrite, SomeFailed, AnsweredBy, Read;
    ghost var was, before := memory[..], scratch[..];
    UpTo(file, start, was, at, wanted, offset, pieces, inPlace);
    var got, later;
    ghost var aside;
    got, status, later, issued, answers, aside :=
        ReadRange(device, file, access, scratch, 0, scratchAddress, BLOCK, offset + inPlace, limit, ready, attempts);
    UpTo(file, before, scratch[..], 0, BLOCK, offset + inPlace, aside, got);
    tail := if got < wanted - inPlace then got else wanted - inPlace;
    Store(memory, at + inPlace, scratch[..tail]);
    TailRead(file, start, was, at, wanted, offset, pieces, inPlace, got, tail, scratch[..]);
    allPieces := pieces + [Piece(inPlace, scratch[..tail])];
    AvailableAfter(file, offset, inPlace);
  }

  /** One request, from the work item to the result delivered for it. All that happens in memory is the pieces,
      inside the destination; the result is one they allow; and an uncached file sees whole aligned blocks only. */
  method Perform(device: Device, ghost file: seq<byte>, item: WorkItem, memory: array<byte>, base: nat,
                 scratch: array<byte>, ghost scratchAddress: nat, limit: nat, ready: bool)
    returns (result: FillResult, ghost issued: seq<Issued>, ghost answers: seq<Answer>, ghost pieces: seq<Piece>)
    requires item.request.destination + item.request.length <= memory.Length
    requires scratch.Length == BLOCK && scratchAddress % BLOCK == 0 && scratch != memory
    requires item.source.Some? ==> Obeys(device, file, item.source.value.access)
    requires BLOCK <= limit && (limit % BLOCK == 0 || item.request.length <= limit)
    modifies memory, scratch
    ensures Reported(file, item, base + item.request.destination, pieces, result)
    ensures AnsweredBy(device, 0, issued, answers)
    ensures !Readable(item, base + item.request.destination) || !ready ==> issued == []
    ensures Readable(item, base + item.request.destination) ==>
      && result.status == (if ready && !SomeFailed(answers) then Ok else IoError)
      && result.bytes == Min(item.request.length, Read(answers))
    ensures Readable(item, base + item.request.destination) && ready && NeverFails(device) ==>
      result == FillResult(Ok, Min(item.request.length, Available(file, item.request.offset)))
    ensures Contained(pieces, item.request.length)
    ensures memory[..] == Play(old(memory[..]), item.request.destination, item.request.length, pieces)
    ensures ReadsWithin(issued, item.source.Some? && item.source.value.access.Uncached?,
                        base + item.request.destination, item.request.length, scratchAddress)
  {
    hide ReadsWithin, IssuedOk, Slice, Lays, Play, Obeys, UncachedValid, ReadUpTo, Available, Overwrite, SomeFailed,
         AnsweredBy, NeverFails, Read;
    NoneRead(device, 0);
    NoReads(base + item.request.destination, item.request.length, scratchAddress);
    if !Readable(item, base + item.request.destination) {
      NothingRead(file, memory[..], item.request.destination, item.request.length, 0);
      UpTo(file, memory[..], memory[..], item.request.destination, item.request.length, 0, [], 0);
      return FillResult(InvalidArgument, 0), [], [], [];
    }
    var access := item.source.value.access;
    var at, wanted, offset := item.request.destination, item.request.length, item.request.offset;
    InPlace(wanted);
    var inPlace: nat := if access.Uncached? then wanted / BLOCK * BLOCK else wanted;
    if access.Uncached? {
      UncachedValidMeaning(offset, wanted, base + at, item.source.value.size);
    }
    var total, status, attempts;
    total, status, attempts, issued, answers, pieces :=
        ReadRange(device, file, access, memory, at, base, inPlace, offset, limit, ready, 0);
    ReadWider(file, old(memory[..]), memory[..], at, inPlace, wanted, offset, pieces, total);
    ReadsInPlace(issued, access, base + at, offset, inPlace, wanted, scratchAddress);
    if status == Ok && total == inPlace && inPlace < wanted {
      AlignedSum(offset, inPlace);
      var tail;
      ghost var more, moreAnswers;
      tail, status, more, moreAnswers, pieces :=
          ReadTail(device, file, access, memory, at, wanted, inPlace, offset, scratch, scratchAddress, limit, ready,
                   attempts, old(memory[..]), pieces);
      total := total + tail;
      ReadsAside(issued, more, access, base + at, wanted, scratchAddress, offset + inPlace);
      AnsweredMore(device, 0, issued, answers, more, moreAnswers);
      ReadBoth(answers, moreAnswers);
      issued, answers := issued + more, answers + moreAnswers;
    }
    if NeverFails(device) {
      NoneFailed(device, 0, issued, answers);
    }
    UpTo(file, old(memory[..]), memory[..], at, wanted, offset, pieces, total);
    result := FillResult(status, total);
  }

  /** What a finished read means for its buffer. */
  lemma UpTo(file: seq<byte>, before: seq<byte>, now: seq<byte>, at: nat, length: nat, offset: nat,
             pieces: seq<Piece>, total: nat)
    requires ReadUpTo(file, before, now, at, length, offset, pieces, total)
    ensures total <= Available(file, offset) && Contained(pieces, length)
    ensures Lays(pieces, length, Slice(file, offset, total))
    ensures at + length <= |before| && now == Play(before, at, length, pieces)
    ensures at == 0 && length == |before| ==> Slice(file, offset, total) <= now
  {
  }

  lemma ReadWider(file: seq<byte>, before: seq<byte>, now: seq<byte>, at: nat, length: nat, wider: nat, offset: nat,
                  pieces: seq<Piece>, total: nat)
    requires ReadUpTo(file, before, now, at, length, offset, pieces, total) && length <= wider && at + wider <= |before|
    ensures ReadUpTo(file, before, now, at, wider, offset, pieces, total)
  {
    LaysWider(pieces, length, wider, Slice(file, offset, total));
    PlayWider(before, at, length, wider, pieces);
  }

  /** The part of the last block that belongs to the request continues what was read in place. */
  lemma TailRead(file: seq<byte>, before: seq<byte>, was: seq<byte>, at: nat, wanted: nat, offset: nat,
                 pieces: seq<Piece>, inPlace: nat, got: nat, tail: nat, scratch: seq<byte>)
    requires ReadUpTo(file, before, was, at, wanted, offset, pieces, inPlace) && inPlace + tail <= wanted
    requires tail <= got <= Available(file, offset + inPlace) && Slice(file, offset + inPlace, got) <= scratch
    ensures at + wanted <= |was|
    ensures ReadUpTo(file, before, Overwrite(was, at + inPlace, scratch[..tail]), at, wanted, offset,
                     pieces + [Piece(inPlace, scratch[..tail])], inPlace + tail)
  {
    hide Lays, Play, Overwrite;
    var piece := Piece(inPlace, scratch[..tail]);
    LaidInside(pieces, wanted, Slice(file, offset, inPlace));
    SliceMore(file, offset, inPlace, tail);
    assert scratch[..tail] == Slice(file, offset + inPlace, tail);
    PlayMore(before, at, wanted, pieces, piece);
    LaysMore(pieces, wanted, Slice(file, offset, inPlace), piece, Slice(file, offset + inPlace, tail));
  }
}
