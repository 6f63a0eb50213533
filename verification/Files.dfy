/** File contents as byte sequences. */
module Files {
  import opened Ranges

  type Byte = b: int | 0 <= b < 256

  type Hash = seq<Byte> -> nat

  /** A WriteFile command: the data and where it belongs. */
  datatype Piece = Piece(offset: nat, data: seq<Byte>)

  /** The data of all pieces, in order. */
  function Joined(pieces: seq<Piece>): seq<Byte> {
    if pieces == [] then [] else pieces[0].data + Joined(pieces[1..])
  }

  lemma JoinedCons(p: Piece, rest: seq<Piece>)
    ensures Joined([p] + rest) == p.data + Joined(rest)
  {
    assert ([p] + rest)[1..] == rest;
  }

  lemma {:induction false} JoinedAppend(u: seq<Piece>, v: seq<Piece>)
    ensures Joined(u + v) == Joined(u) + Joined(v)
  {
    if u == [] {
      assert u + v == v;
    } else {
      var p, rest := u[0], u[1..];
      assert u == [p] + rest && u + v == [p] + (rest + v);
      JoinedAppend(rest, v);
      JoinedCons(p, rest);
      JoinedCons(p, rest + v);
      hide Joined;
      assert p.data + (Joined(rest) + Joined(v)) == (p.data + Joined(rest)) + Joined(v);
    }
  }

  /** The file after `data` was written at `offset`; a gap before it reads as zeros, and writing
      nothing changes nothing. */
  function Patch(file: seq<Byte>, offset: nat, data: seq<Byte>): (r: seq<Byte>)
    ensures data != [] ==> |r| == Max(|file|, offset + |data|)
    ensures forall x | 0 <= x < |r| :: r[x] == if offset <= x < offset + |data| then data[x - offset]
                                               else if x < |file| then file[x] else 0
  {
    if data == [] then file
    else seq(Max(|file|, offset + |data|), x requires x >= 0 =>
               if offset <= x < offset + |data| then data[x - offset] else if x < |file| then file[x] else 0)
  }

  lemma PatchJoins(file: seq<Byte>, offset: nat, a: seq<Byte>, b: seq<Byte>)
    ensures Patch(Patch(file, offset, a), offset + |a|, b) == Patch(file, offset, a + b)
  {
    if a == [] {
      assert a + b == b;
    } else if b == [] {
      assert a + b == a;
    }
  }

  function Slice(file: seq<Byte>, r: Range): seq<Byte>
    requires r.start <= r.end < |file|
  {
    file[r.start..r.end + 1]
  }

  /** Byte x of the file is there and is the source's. */
  ghost predicate Right(file: seq<Byte>, source: seq<Byte>, x: int) {
    0 <= x < |file| && x < |source| && file[x] == source[x]
  }

  /** The data is what the source has at that place. */
  ghost predicate Agrees(offset: nat, data: seq<Byte>, source: seq<Byte>) {
    offset + |data| <= |source| && data == source[offset..offset + |data|]
  }

  /** Writing source data keeps right bytes right and makes the written ones right. */
  lemma PatchRight(file: seq<Byte>, offset: nat, data: seq<Byte>, source: seq<Byte>, x: int)
    requires Agrees(offset, data, source)
    requires Right(file, source, x) || offset <= x < offset + |data|
    ensures Right(Patch(file, offset, data), source, x)
  {
    if offset <= x < offset + |data| {
      assert data[x - offset] == source[x];
    }
  }

  lemma SliceRight(file: seq<Byte>, source: seq<Byte>, r: Range)
    requires r.start <= r.end && forall x | r.start <= x <= r.end :: Right(file, source, x)
    ensures r.end < |file| && r.end < |source| && Slice(file, r) == Slice(source, r)
  {
    assert Right(file, source, r.end);
    var a, b := Slice(file, r), Slice(source, r);
    forall k | 0 <= k < |a| ensures a[k] == b[k] {
      assert Right(file, source, r.start + k);
    }
  }
}
