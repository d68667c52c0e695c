/** Integers in network byte order. */
module Wire {
  import opened Messages

  /** The n low bytes of v, the most significant first. */
  function Bytes(v: int, n: nat): (b: seq<byte>)
    requires v >= 0
    ensures |b| == n
  {
    if n == 0 then [] else Bytes(v / 256, n - 1) + [(v % 256) as byte]
  }

  function Number(b: seq<byte>): (v: int)
    ensures 0 <= v
  {
    if b == [] then 0 else 256 * Number(b[..|b| - 1]) + b[|b| - 1] as int
  }

  function Pow256(n: nat): nat
  {
    if n == 0 then 1 else 256 * Pow256(n - 1)
  }

  /** Reading back what was written, modulo the width. */
  lemma {:induction false} WriteRead(v: int, n: nat)
    requires 0 <= v < Pow256(n)
    ensures Number(Bytes(v, n)) == v
  {
    if n > 0 {
      WriteRead(v / 256, n - 1);
      var b := Bytes(v, n);
      assert b[..n - 1] == Bytes(v / 256, n - 1) && b[n - 1] == (v % 256) as byte;
    }
  }

  lemma {:induction false} ReadWrite(b: seq<byte>)
    ensures Number(b) < Pow256(|b|) && Bytes(Number(b), |b|) == b
  {
    if b != [] {
      var c := b[..|b| - 1];
      ReadWrite(c);
      var x := b[|b| - 1] as int;
      assert Number(b) == 256 * Number(c) + x;
      assert Number(b) / 256 == Number(c) && Number(b) % 256 == x;
      assert b == c + [b[|b| - 1]];
    }
  }

  lemma NumberSnoc(b: seq<byte>, n: nat)
    requires n < |b|
    ensures Number(b[..n + 1]) == 256 * Number(b[..n]) + b[n] as int
  {
    assert b[..n + 1][..n] == b[..n];
  }

  lemma {:induction false} NumberConcat(a: seq<byte>, b: seq<byte>)
    ensures Number(a + b) == Pow256(|b|) * Number(a) + Number(b)
  {
    if b == [] {
      assert a + b == a;
    } else {
      var c := b[..|b| - 1];
      assert (a + b)[..|a + b| - 1] == a + c;
      NumberConcat(a, c);
    }
  }

  lemma Widths()
    ensures Pow256(2) == 0x1_0000 && Pow256(4) == 0x1_0000_0000 && Pow256(8) == 0x1_0000_0000_0000_0000
  {
  }

  /** Overwrite s from position i on. */
  function Splice(s: seq<byte>, i: int, b: seq<byte>): (r: seq<byte>)
    requires 0 <= i && i + |b| <= |s|
    ensures |r| == |s| && r[i..i + |b|] == b
    ensures forall j | 0 <= j < |s| && !(i <= j < i + |b|) :: r[j] == s[j]
  {
    s[..i] + b + s[i + |b|..]
  }

  // ---------- 16, 32 and 64 bits ----------

  function GetS(buf: seq<byte>): (v: int)
    requires |buf| >= 2
    ensures v == Number(buf[..2]) && v < 0x1_0000
  {
    NumberSnoc(buf, 0);
    NumberSnoc(buf, 1);
    256 * buf[0] as int + buf[1] as int
  }

  function GetL(buf: seq<byte>): (v: int)
    requires |buf| >= 4
    ensures v == Number(buf[..4]) && v < 0x1_0000_0000
  {
    GetLIsNumber(buf);
    0x100_0000 * buf[0] as int + 0x1_0000 * buf[1] as int + 0x100 * buf[2] as int + buf[3] as int
  }

  lemma GetLIsNumber(buf: seq<byte>)
    requires |buf| >= 4
    ensures Number(buf[..4]) ==
            0x100_0000 * buf[0] as int + 0x1_0000 * buf[1] as int + 0x100 * buf[2] as int + buf[3] as int
  {
    NumberSnoc(buf, 0);
    NumberSnoc(buf, 1);
    NumberSnoc(buf, 2);
    NumberSnoc(buf, 3);
  }

  function GetLL(buf: seq<byte>): (v: int)
    requires |buf| >= 8
    ensures v == Number(buf[..8])
  {
    GetLLIsNumber(buf);
    0x1_0000_0000 * GetL(buf) + GetL(buf[4..])
  }

  lemma GetLLIsNumber(buf: seq<byte>)
    requires |buf| >= 8
    ensures Number(buf[..8]) == 0x1_0000_0000 * Number(buf[..4]) + Number(buf[4..][..4])
  {
    assert buf[..8] == buf[..4] + buf[4..][..4];
    NumberConcat(buf[..4], buf[4..][..4]);
    Widths();
  }

  method PutS(buf: array<byte>, i: nat, val: int)
    requires i + 2 <= buf.Length && 0 <= val < 0x1_0000
    modifies buf
    ensures buf[..] == Splice(old(buf[..]), i, Bytes(val, 2))
  {
    buf[i] := (val / 0x100 % 0x100) as byte;
    buf[i + 1] := (val % 0x100) as byte;
    assert Bytes(val, 2) == [buf[i], buf[i + 1]];
  }

  method PutL(buf: array<byte>, i: nat, val: int)
    requires i + 4 <= buf.Length && 0 <= val < 0x1_0000_0000
    modifies buf
    ensures buf[..] == Splice(old(buf[..]), i, Bytes(val, 4))
  {
    buf[i] := (val / 0x100_0000 % 0x100) as byte;
    buf[i + 1] := (val / 0x1_0000 % 0x100) as byte;
    buf[i + 2] := (val / 0x100 % 0x100) as byte;
    buf[i + 3] := (val % 0x100) as byte;
    Bytes4(val);
  }

  lemma Bytes4(v: int)
    requires 0 <= v < 0x1_0000_0000
    ensures Bytes(v, 4) == [(v / 0x100_0000 % 0x100) as byte, (v / 0x1_0000 % 0x100) as byte,
                            (v / 0x100 % 0x100) as byte, (v % 0x100) as byte]
  {
  }

  /** Two halves, the upper one first. */
  method PutLL(buf: array<byte>, i: nat, val: int)
    requires i + 8 <= buf.Length && 0 <= val < 0x1_0000_0000_0000_0000
    modifies buf
    ensures buf[..] == Splice(old(buf[..]), i, Bytes(val, 8))
  {
    PutL(buf, i, val / 0x1_0000_0000);
    PutL(buf, i + 4, val % 0x1_0000_0000);
    Halves(val);
  }

  lemma Halves(v: int)
    requires 0 <= v < 0x1_0000_0000_0000_0000
    ensures Bytes(v, 8) == Bytes(v / 0x1_0000_0000, 4) + Bytes(v % 0x1_0000_0000, 4)
  {
    hide Bytes, Number;
    var hi, lo := v / 0x1_0000_0000, v % 0x1_0000_0000;
    assert v == 0x1_0000_0000 * hi + lo;
    Widths();
    WriteRead(hi, 4);
    WriteRead(lo, 4);
    NumberConcat(Bytes(hi, 4), Bytes(lo, 4));
    ReadWrite(Bytes(hi, 4) + Bytes(lo, 4));
  }

  // ---------- round trips ----------

  /** What is written into a buffer is read back, and reading then writing leaves
      the buffer as it was. */
  lemma RoundTrips(buf: seq<byte>, i: nat, v: int)
    ensures i + 2 <= |buf| && 0 <= v < 0x1_0000 ==> GetS(Splice(buf, i, Bytes(v, 2))[i..]) == v
    ensures i + 4 <= |buf| && 0 <= v < 0x1_0000_0000 ==> GetL(Splice(buf, i, Bytes(v, 4))[i..]) == v
    ensures i + 8 <= |buf| && 0 <= v < 0x1_0000_0000_0000_0000 ==> GetLL(Splice(buf, i, Bytes(v, 8))[i..]) == v
    ensures i + 2 <= |buf| ==> Splice(buf, i, Bytes(GetS(buf[i..]), 2)) == buf
    ensures i + 4 <= |buf| ==> Splice(buf, i, Bytes(GetL(buf[i..]), 4)) == buf
    ensures i + 8 <= |buf| ==> Splice(buf, i, Bytes(GetLL(buf[i..]), 8)) == buf
  {
    Widths();
    RoundTrip(buf, i, v, 2);
    RoundTrip(buf, i, v, 4);
    RoundTrip(buf, i, v, 8);
  }

  lemma RoundTrip(buf: seq<byte>, i: nat, v: int, n: nat)
    ensures i + n <= |buf| && 0 <= v < Pow256(n) ==> Number(Splice(buf, i, Bytes(v, n))[i..][..n]) == v
    ensures i + n <= |buf| ==> Splice(buf, i, Bytes(Number(buf[i..][..n]), n)) == buf
  {
    hide Number, Bytes, Pow256;
    if i + n <= |buf| {
      if 0 <= v < Pow256(n) {
        WriteRead(v, n);
        assert Splice(buf, i, Bytes(v, n))[i..][..n] == Splice(buf, i, Bytes(v, n))[i..i + n];
      }
      ReadWrite(buf[i..][..n]);
      assert buf[i..][..n] == buf[i..i + n];
      assert buf == buf[..i] + buf[i..i + n] + buf[i + n..];
    }
  }
}
