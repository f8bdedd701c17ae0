/** Caller-owned storage as a sequence of bytes, and writes to parts of it. */
module Memory {
  import opened Transfer

  predicate InMemory(mem: seq<byte>, at: nat, bytes: seq<byte>) {
    at + |bytes| <= |mem| && mem[at..at + |bytes|] == bytes
  }

  /** The `length` bytes from `at` on, if they are all there. */
  function Part(bytes: seq<byte>, at: nat, length: nat): seq<byte> {
    if at + length <= |bytes| then bytes[at..at + length] else []
  }

  function Overwrite(mem: seq<byte>, at: nat, bytes: seq<byte>): (r: seq<byte>)
    requires at + |bytes| <= |mem|
    ensures |r| == |mem|
  {
    mem[..at] + bytes + mem[at + |bytes|..]
  }

  /** A write leaves alone every part that does not overlap it. */
  lemma OverwriteApart(mem: seq<byte>, at: nat, bytes: seq<byte>, lo: nat, hi: nat)
    requires at + |bytes| <= |mem| && lo <= hi <= |mem| && (hi <= at || at + |bytes| <= lo)
    ensures Overwrite(mem, at, bytes)[lo..hi] == mem[lo..hi]
  {
  }

  lemma InMemoryApart(mem: seq<byte>, at: nat, bytes: seq<byte>, lo: nat, kept: seq<byte>)
    requires at + |bytes| <= |mem| && InMemory(mem, lo, kept) && (lo + |kept| <= at || at + |bytes| <= lo)
    ensures InMemory(Overwrite(mem, at, bytes), lo, kept)
  {
    OverwriteApart(mem, at, bytes, lo, lo + |kept|);
  }

  // ----- writes in pieces -----

  /** One store into a destination; `at` is relative to where the destination begins. */
  datatype Piece = Piece(at: nat, bytes: seq<byte>)

  predicate Contained(pieces: seq<Piece>, n: nat) {
    forall i :: 0 <= i < |pieces| ==> pieces[i].at + |pieces[i].bytes| <= n
  }

  /** The memory after the pieces, in order, into the destination of `n` bytes that begins at `base`. */
  function Play(mem: seq<byte>, base: nat, n: nat, pieces: seq<Piece>): (r: seq<byte>)
    requires Contained(pieces, n) && base + n <= |mem|
    ensures |r| == |mem|
  {
    if pieces == [] then mem
    else
      var last := |pieces| - 1;
      Overwrite(Play(mem, base, n, pieces[..last]), base + pieces[last].at, pieces[last].bytes)
  }

  /** Whatever a destination of `n` bytes held before them, the pieces leave `bytes` at its beginning. */
  ghost predicate Lays(pieces: seq<Piece>, n: nat, bytes: seq<byte>) {
    && Contained(pieces, n) && |bytes| <= n
    && forall buffer: seq<byte> :: |buffer| == n ==> bytes <= Play(buffer, 0, n, pieces)
  }

  lemma PlayMore(mem: seq<byte>, base: nat, n: nat, pieces: seq<Piece>, piece: Piece)
    requires Contained(pieces, n) && base + n <= |mem| && piece.at + |piece.bytes| <= n
    ensures Contained(pieces + [piece], n)
    ensures Play(mem, base, n, pieces + [piece]) == Overwrite(Play(mem, base, n, pieces), base + piece.at, piece.bytes)
  {
    assert (pieces + [piece])[..|pieces|] == pieces;
  }

  /** Pieces change nothing outside their destination, and inside it what they do depends on it alone. */
  lemma {:induction false} PlayLocal(mem: seq<byte>, base: nat, n: nat, pieces: seq<Piece>)
    requires Contained(pieces, n) && base + n <= |mem|
    ensures Part(Play(mem, base, n, pieces), base, n) == Play(Part(mem, base, n), 0, n, pieces)
    ensures Play(mem, base, n, pieces)[..base] == mem[..base]
    ensures Play(mem, base, n, pieces)[base + n..] == mem[base + n..]
  {
    hide Overwrite;
    if pieces != [] {
      var last := |pieces| - 1;
      PlayLocal(mem, base, n, pieces[..last]);
      OverwriteInside(Play(mem, base, n, pieces[..last]), base, n, pieces[last]);
    }
  }

  lemma OverwriteInside(mem: seq<byte>, base: nat, n: nat, piece: Piece)
    requires base + n <= |mem| && piece.at + |piece.bytes| <= n
    ensures var now := Overwrite(mem, base + piece.at, piece.bytes);
      && Part(now, base, n) == Overwrite(Part(mem, base, n), piece.at, piece.bytes)
      && now[..base] == mem[..base] && now[base + n..] == mem[base + n..]
  {
  }

  /** A destination of more bytes holds the pieces just as well. */
  lemma {:induction false} PlayWider(mem: seq<byte>, base: nat, n: nat, wider: nat, pieces: seq<Piece>)
    requires Contained(pieces, n) && n <= wider && base + wider <= |mem|
    ensures Contained(pieces, wider) && Play(mem, base, wider, pieces) == Play(mem, base, n, pieces)
  {
    if pieces != [] {
      PlayWider(mem, base, n, wider, pieces[..|pieces| - 1]);
    }
  }

  lemma LaysWider(pieces: seq<Piece>, n: nat, wider: nat, bytes: seq<byte>)
    requires Lays(pieces, n, bytes) && n <= wider
    ensures Lays(pieces, wider, bytes)
  {
    forall buffer: seq<byte> | |buffer| == wider
      ensures Contained(pieces, wider) && bytes <= Play(buffer, 0, wider, pieces) {
      PlayWider(buffer, 0, n, wider, pieces);
      PlayLocal(buffer, 0, n, pieces);
      assert bytes <= Play(Part(buffer, 0, n), 0, n, pieces);
    }
    assert Contained(pieces, wider);
  }

  lemma OverwriteAfter(buffer: seq<byte>, bytes: seq<byte>, stored: seq<byte>, more: seq<byte>)
    requires bytes <= buffer && more <= stored && |bytes| + |stored| <= |buffer|
    ensures bytes + more <= Overwrite(buffer, |bytes|, stored)
  {
  }

  /** One more piece, right after what is laid already, lays its own beginning as well. */
  lemma LaysMore(pieces: seq<Piece>, n: nat, bytes: seq<byte>, piece: Piece, more: seq<byte>)
    requires Lays(pieces, n, bytes) && piece.at == |bytes| && more <= piece.bytes && |bytes| + |piece.bytes| <= n
    ensures Lays(pieces + [piece], n, bytes + more)
  {
    hide Overwrite, Play;
    forall buffer: seq<byte> | |buffer| == n
      ensures Contained(pieces + [piece], n) && bytes + more <= Play(buffer, 0, n, pieces + [piece]) {
      PlayMore(buffer, 0, n, pieces, piece);
      OverwriteAfter(Play(buffer, 0, n, pieces), bytes, piece.bytes, more);
    }
    assert Contained(pieces + [piece], n);
  }

  /** What laid pieces leave in memory. */
  lemma LaidPart(mem: seq<byte>, base: nat, n: nat, pieces: seq<Piece>, bytes: seq<byte>)
    requires Lays(pieces, n, bytes) && base + n <= |mem|
    ensures Part(Play(mem, base, n, pieces), base, |bytes|) == bytes
  {
    hide Play, Part;
    PlayLocal(mem, base, n, pieces);
    PartSize(mem, base, n);
    PartPrefix(Play(mem, base, n, pieces), base, n, bytes);
  }

  lemma PartSize(mem: seq<byte>, base: nat, n: nat)
    requires base + n <= |mem|
    ensures |Part(mem, base, n)| == n
  {
  }

  lemma PartPrefix(mem: seq<byte>, base: nat, n: nat, bytes: seq<byte>)
    requires base + n <= |mem| && bytes <= Part(mem, base, n)
    ensures Part(mem, base, |bytes|) == bytes
  {
    assert mem[base..base + |bytes|] == Part(mem, base, n)[..|bytes|];
  }

  /** A piece inside a destination, as a write of the whole destination. */
  lemma PieceIsWrite(mem: seq<byte>, base: nat, n: nat, piece: Piece)
    requires base + n <= |mem| && piece.at + |piece.bytes| <= n
    ensures var now := Overwrite(mem, base + piece.at, piece.bytes);
      && |Part(now, base, n)| == n && Overwrite(mem, base, Part(now, base, n)) == now
  {
    OverwriteInside(mem, base, n, piece);
    var now := Overwrite(mem, base + piece.at, piece.bytes);
    assert now == now[..base] + Part(now, base, n) + now[base + n..];
  }

  lemma LaysNothing(pieces: seq<Piece>, n: nat)
    requires Contained(pieces, n)
    ensures Lays(pieces, n, [])
  {
  }
}
