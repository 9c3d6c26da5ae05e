/** Fixed-width integer encodings, as Go's encoding/binary writes them and Rust's
    `from_be_bytes` reads them. */
module ByteCodec {
  import opened EngineTypes

  function Pow256(n: nat): (r: nat)
    ensures r > 0
  {
    if n == 0 then 1 else 256 * Pow256(n - 1)
  }

  function BigEndian(v: nat, n: nat): (r: seq<Byte>)
    ensures |r| == n
  {
    if n == 0 then [] else BigEndian(v / 256, n - 1) + [v % 256]
  }

  function FromBigEndian(s: seq<Byte>): (r: nat)
    ensures r < Pow256(|s|)
  {
    if s == [] then 0 else FromBigEndian(s[..|s| - 1]) * 256 + s[|s| - 1]
  }

  function LittleEndian(v: nat, n: nat): (r: seq<Byte>)
    ensures |r| == n
  {
    if n == 0 then [] else [v % 256] + LittleEndian(v / 256, n - 1)
  }

  function FromLittleEndian(s: seq<Byte>): (r: nat)
    ensures r < Pow256(|s|)
  {
    if s == [] then 0 else s[0] + 256 * FromLittleEndian(s[1..])
  }

  lemma Pow256Values()
    ensures Pow256(8) == 0x1_0000_0000_0000_0000
    ensures Pow256(16) == 0x1_0000_0000_0000_0000_0000_0000_0000_0000
  {
  }

  lemma {:induction false} BigEndianRoundTrip(v: nat, n: nat)
    requires v < Pow256(n)
    ensures FromBigEndian(BigEndian(v, n)) == v
  {
    if n > 0 {
      BigEndianRoundTrip(v / 256, n - 1);
      assert BigEndian(v, n)[..n - 1] == BigEndian(v / 256, n - 1);
    }
  }

  lemma {:induction false} LittleEndianRoundTrip(v: nat, n: nat)
    requires v < Pow256(n)
    ensures FromLittleEndian(LittleEndian(v, n)) == v
  {
    if n > 0 {
      LittleEndianRoundTrip(v / 256, n - 1);
      assert LittleEndian(v, n)[1..] == LittleEndian(v / 256, n - 1);
    }
  }

  /** Concatenated fields read as one wide number. */
  lemma {:induction false} FromBigEndianAppend(a: seq<Byte>, b: seq<Byte>)
    ensures FromBigEndian(a + b) == FromBigEndian(a) * Pow256(|b|) + FromBigEndian(b)
    decreases |b|
  {
    if b == [] {
      assert a + b == a;
    } else {
      var n := |b| - 1;
      FromBigEndianAppend(a, b[..n]);
      assert (a + b)[..|a + b| - 1] == a + b[..n];
      calc {
        FromBigEndian(a + b);
        FromBigEndian(a + b[..n]) * 256 + b[n];
        (FromBigEndian(a) * Pow256(n) + FromBigEndian(b[..n])) * 256 + b[n];
        FromBigEndian(a) * Pow256(n) * 256 + FromBigEndian(b);
        { ScaleUp(FromBigEndian(a), Pow256(n)); }
        FromBigEndian(a) * Pow256(n + 1) + FromBigEndian(b);
      }
    }
  }

  lemma ScaleUp(x: nat, p: nat)
    ensures x * p * 256 == x * (256 * p)
  {
  }

  /** Eight bytes of a number, most significant first. */
  lemma BigEndianBytes(v: U64)
    ensures var b: seq<int> := BigEndian(v, 8);
      v == ((((((b[0] * 256 + b[1]) * 256 + b[2]) * 256 + b[3]) * 256 + b[4]) * 256 + b[5]) * 256 + b[6]) * 256 + b[7]
  {
    Pow256Values();
    BigEndianRoundTrip(v, 8);
    var b := BigEndian(v, 8);
    ReadPrefix(b, 8);
    ReadPrefix(b, 7);
    ReadPrefix(b, 6);
    ReadPrefix(b, 5);
    ReadPrefix(b, 4);
    ReadPrefix(b, 3);
    ReadPrefix(b, 2);
    ReadPrefix(b, 1);
    assert b[..8] == b && b[..0] == [];
  }

  lemma ReadPrefix(b: seq<Byte>, n: nat)
    requires 0 < n <= |b|
    ensures FromBigEndian(b[..n]) == FromBigEndian(b[..n - 1]) * 256 + b[n - 1]
  {
    assert b[..n][..n - 1] == b[..n - 1];
  }

  /** Eight bytes of a number, least significant first. */
  lemma LittleEndianBytes(v: U64)
    ensures var b: seq<int> := LittleEndian(v, 8);
      v == b[0] + 256 * (b[1] + 256 * (b[2] + 256 * (b[3] + 256 * (b[4] + 256 * (b[5] + 256 * (b[6] + 256 * b[7]))))))
  {
    Pow256Values();
    LittleEndianRoundTrip(v, 8);
    var b := LittleEndian(v, 8);
    ReadSuffix(b, 0);
    ReadSuffix(b, 1);
    ReadSuffix(b, 2);
    ReadSuffix(b, 3);
    ReadSuffix(b, 4);
    ReadSuffix(b, 5);
    ReadSuffix(b, 6);
    ReadSuffix(b, 7);
    assert b[0..] == b && b[8..] == [];
  }

  lemma ReadSuffix(b: seq<Byte>, n: nat)
    requires n < |b|
    ensures FromLittleEndian(b[n..]) == b[n] + 256 * FromLittleEndian(b[n + 1..])
  {
    assert b[n..][1..] == b[n + 1..];
  }

  /** `binary.BigEndian.PutUint64` into eight bytes of a buffer. */
  method PutUint64BigEndian(buf: array<Byte>, at: nat, v: U64)
    requires at + 8 <= buf.Length
    modifies buf
    ensures buf[at..at + 8] == BigEndian(v, 8)
    ensures forall i :: 0 <= i < buf.Length && !(at <= i < at + 8) ==> buf[i] == old(buf[i])
  {
    var left: nat := v;
    var i := 8;
    while i > 0
      invariant 0 <= i <= 8
      invariant BigEndian(v, 8) == BigEndian(left, i) + buf[at + i..at + 8]
      invariant forall j :: 0 <= j < buf.Length && !(at <= j < at + 8) ==> buf[j] == old(buf[j])
    {
      i := i - 1;
      ghost var tail := buf[at + i + 1..at + 8];
      buf[at + i] := left % 256;
      assert buf[at + i..at + 8] == [left % 256] + tail;
      assert BigEndian(left, i + 1) + tail == BigEndian(left / 256, i) + ([left % 256] + tail);
      left := left / 256;
    }
  }

  /** `binary.LittleEndian.PutUint64` over a whole eight-byte buffer. */
  method PutUint64LittleEndian(buf: array<Byte>, v: U64)
    requires buf.Length == 8
    modifies buf
    ensures buf[..] == LittleEndian(v, 8)
  {
    var left: nat := v;
    var i := 0;
    while i < 8
      invariant 0 <= i <= 8
      invariant LittleEndian(v, 8) == buf[..i] + LittleEndian(left, 8 - i)
    {
      ghost var head := buf[..i];
      buf[i] := left % 256;
      assert buf[..i + 1] == head + [left % 256];
      assert head + LittleEndian(left, 8 - i) == head + [left % 256] + LittleEndian(left / 256, 7 - i);
      left := left / 256;
      i := i + 1;
    }
    assert buf[..8] == buf[..];
  }
}
