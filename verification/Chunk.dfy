/** Message chunks: a reference count and a size in front of a byte buffer, and in
    the eight bytes before the data the way back to the chunk.  Pointers into a
    chunk are offsets from the end of its struct. */
module Chunks {
  import opened Messages
  import opened Wire

  const TAG := 0xdead_cafe
  const TAG_DEALLOCATED := 0xbeef_beef
  const UINT32_MAX := 0xffff_ffff
  const HEADER := 8

  // ---------- on bytes ----------

  predicate Tagged(mem: seq<byte>, p: int)
  {
    HEADER <= p <= |mem| && GetL(mem[p - 4..]) == TAG
  }

  /** Where the header before p says the struct ends: the offset 0. */
  function Base(mem: seq<byte>, p: int): int
    requires HEADER <= p <= |mem|
  {
    p - HEADER - GetL(mem[p - 8..])
  }

  /** A pointer that leads back to its chunk, with the data behind it. */
  predicate Leads(mem: seq<byte>, p: int, size: int)
  {
    Tagged(mem, p) && Base(mem, p) == 0 && 0 <= size && p + size == |mem|
  }

  function Data(mem: seq<byte>, p: int, size: int): seq<byte>
    requires 0 <= p && 0 <= size && p + size <= |mem|
  {
    mem[p..p + size]
  }

  /** Writing the header in front of q: the tag, then the offset. */
  function WithHeader(mem: seq<byte>, q: int): (r: seq<byte>)
    requires HEADER <= q <= |mem|
    ensures |r| == |mem|
  {
    Splice(Splice(mem, q - 4, Bytes(TAG, 4)), q - 8, Bytes(q - HEADER, 4))
  }

  lemma HeaderLeads(mem: seq<byte>, q: int)
    requires HEADER <= q <= |mem| && q - HEADER < UINT32_MAX
    ensures Leads(WithHeader(mem, q), q, |mem| - q)
    ensures WithHeader(mem, q)[q..] == mem[q..] && WithHeader(mem, q)[..q - 8] == mem[..q - 8]
  {
    hide Bytes, GetL;
    var m1 := Splice(mem, q - 4, Bytes(TAG, 4));
    var m2 := WithHeader(mem, q);
    RoundTrips(mem, q - 4, TAG);
    RoundTrips(m1, q - 8, q - HEADER);
    assert m2[q - 4..][..4] == m1[q - 4..][..4];
  }

  /** One trim, as a state of the bytes: None is a failed check. */
  datatype Trimmed = Failed | Trimmed(mem: seq<byte>, p: int, size: int)

  function TrimBytes(mem: seq<byte>, p: int, size: int, n: nat): (r: Trimmed)
  {
    if !Tagged(mem, p) || n > size || !(HEADER <= p + n <= |mem|) then Failed
    else if p + n - Base(mem, p) - HEADER >= UINT32_MAX then Failed
    else Trimmed(WithHeader(mem, p + n), p + n, size - n)
  }

  /** A trim of a sound chunk fails exactly when it asks for too much; otherwise
      the pointer moves, still leads back, and the data loses its first n bytes. */
  lemma TrimOne(mem: seq<byte>, p: int, size: int, n: nat)
    requires Leads(mem, p, size)
    ensures TrimBytes(mem, p, size, n) == if n <= size && p + n - HEADER < UINT32_MAX
              then Trimmed(WithHeader(mem, p + n), p + n, size - n) else Failed
    ensures n <= size && p + n - HEADER < UINT32_MAX ==>
              && Leads(WithHeader(mem, p + n), p + n, size - n)
              && Data(WithHeader(mem, p + n), p + n, size - n) == Data(mem, p, size)[n..]
  {
    hide GetL, Bytes, Splice, WithHeader;
    if n <= size && p + n - HEADER < UINT32_MAX {
      HeaderLeads(mem, p + n);
      assert WithHeader(mem, p + n)[p + n..] == mem[p + n..];
    }
  }

  function Trims(mem: seq<byte>, p: int, size: int, ns: seq<nat>): Trimmed
    decreases |ns|
  {
    if ns == [] then Trimmed(mem, p, size)
    else
      var t := TrimBytes(mem, p, size, ns[0]);
      if t == Failed then Failed else Trims(t.mem, t.p, t.size, ns[1..])
  }

  function Sum(ns: seq<nat>): nat
  {
    if ns == [] then 0 else ns[0] + Sum(ns[1..])
  }

  /** Any sequence of trims of a sound chunk succeeds exactly if the total fits;
      the pointer still leads back to the chunk, and the data is what was there
      with the total dropped. */
  lemma {:induction false} TrimsDrop(mem: seq<byte>, p: int, size: int, ns: seq<nat>)
    requires Leads(mem, p, size)
    ensures Trims(mem, p, size, ns) != Failed <==> ns == [] || Fits(p, size, ns)
    ensures var t := Trims(mem, p, size, ns);
            t != Failed ==>
              && t.p == p + Sum(ns) && t.size == size - Sum(ns) && |t.mem| == |mem|
              && Leads(t.mem, t.p, t.size)
              && Data(t.mem, t.p, t.size) == Data(mem, p, size)[Sum(ns)..]
    decreases |ns|
  {
    hide TrimBytes, WithHeader, Base, GetL;
    if ns != [] {
      var n := ns[0];
      TrimOne(mem, p, size, n);
      if n <= size && p + n - HEADER < UINT32_MAX {
        TrimsDrop(WithHeader(mem, p + n), p + n, size - n, ns[1..]);
        if Fits(p, size, ns) {
          assert Data(mem, p, size)[n..][Sum(ns[1..])..] == Data(mem, p, size)[Sum(ns)..];
        }
      }
    }
  }

  predicate Fits(p: int, size: int, ns: seq<nat>)
  {
    Sum(ns) <= size && p + Sum(ns) - HEADER < UINT32_MAX
  }

  // ---------- several holders of one chunk ----------

  /** What the holder at r finds in front of its data. */
  predicate LeadsBack(mem: seq<byte>, r: int)
  {
    Tagged(mem, r) && Base(mem, r) == 0
  }

  /** Whether two headers can lie where they do: apart, in the same place, or overlapping
      by a tag that happens to be the end of an offset. */
  predicate Compatible(q: int, r: int)
  {
    var hi, d := if q > r then q else r, if q > r then q - r else r - q;
    d == 0 || d >= HEADER || (d >= 4 && 0 <= hi - HEADER && Bytes(hi - HEADER, 4)[..8 - d] == Bytes(TAG, 4)[d - 4..])
  }

  /** The eight bytes of a header. */
  function HeaderBytes(q: int): (h: seq<byte>)
    requires q >= HEADER
    ensures |h| == 8
  {
    Bytes(q - HEADER, 4) + Bytes(TAG, 4)
  }

  /** To lead back is to have exactly that header. */
  lemma LeadsBackIs(mem: seq<byte>, r: int)
    requires HEADER <= r <= |mem| && r - HEADER < 0x1_0000_0000
    ensures LeadsBack(mem, r) <==> mem[r - 8..r] == HeaderBytes(r)
  {
    hide Bytes, Number;
    var off, tag := mem[r - 8..][..4], mem[r - 4..][..4];
    assert mem[r - 8..r] == off + tag;
    ReadWrite(off);
    ReadWrite(tag);
    Widths();
    WriteRead(TAG, 4);
    WriteRead(r - HEADER, 4);
    assert HeaderBytes(r)[..4] == Bytes(r - HEADER, 4) && HeaderBytes(r)[4..] == Bytes(TAG, 4);
    assert (off + tag)[..4] == off && (off + tag)[4..] == tag;
  }

  lemma TagBytes()
    ensures Bytes(TAG, 4) == [0xde, 0xad, 0xca, 0xfe]
  {
  }

  /** Where the end of one header and the beginning of a later one share bytes. */
  lemma HeadersOverlap(lo: int, hi: int)
    requires HEADER <= lo < hi < lo + 8
    ensures var d := hi - lo;
            HeaderBytes(lo)[d..] == HeaderBytes(hi)[..8 - d] <==>
              d >= 4 && Bytes(hi - HEADER, 4)[..8 - d] == Bytes(TAG, 4)[d - 4..]
  {
    TagBytes();
    hide Bytes;
    var d := hi - lo;
    var a, b := HeaderBytes(lo), HeaderBytes(hi);
    if d < 4 {
      assert a[d..][4] == a[d + 4] && b[..8 - d][4] == b[4];
    } else {
      assert a[d..] == Bytes(TAG, 4)[d - 4..] && b[..8 - d] == Bytes(hi - HEADER, 4)[..8 - d];
    }
  }

  /** A header written at q, as the holder at r sees it. */
  lemma SeenAt(mem: seq<byte>, q: int, r: int)
    requires HEADER <= q <= |mem| && HEADER <= r <= |mem| && mem[r - 8..r] == HeaderBytes(r)
    ensures WithHeader(mem, q)[r - 8..r] ==
            if q == r then HeaderBytes(q)
            else if q >= r + 8 || r >= q + 8 then HeaderBytes(r)
            else if q > r then HeaderBytes(r)[..q - r] + HeaderBytes(q)[..8 - (q - r)]
            else HeaderBytes(q)[r - q..] + HeaderBytes(r)[8 - (r - q)..]
  {
    HeaderWritten(mem, q);
    hide WithHeader, HeaderBytes;
    var m := WithHeader(mem, q);
    assert forall j | 0 <= j < |mem| :: m[j] == if q - 8 <= j < q then HeaderBytes(q)[j - (q - 8)] else mem[j];
    assert forall j | r - 8 <= j < r :: mem[j] == HeaderBytes(r)[j - (r - 8)];
  }

  lemma HeaderWritten(mem: seq<byte>, q: int)
    requires HEADER <= q <= |mem|
    ensures WithHeader(mem, q) == mem[..q - 8] + HeaderBytes(q) + mem[q..]
  {
  }

  /** A header written at q leaves the holder at r its way back exactly if the two
      headers are compatible. */
  lemma OtherHolder(mem: seq<byte>, q: int, r: int)
    requires HEADER <= q <= |mem| && HEADER <= r <= |mem| && LeadsBack(mem, r)
    requires q - HEADER < 0x1_0000_0000 && r - HEADER < 0x1_0000_0000
    ensures LeadsBack(WithHeader(mem, q), r) <==> Compatible(q, r)
  {
    hide LeadsBack, WithHeader, HeaderBytes, Bytes;
    LeadsBackIs(mem, r);
    LeadsBackIs(WithHeader(mem, q), r);
    SeenAt(mem, q, r);
    var a, b := HeaderBytes(r), HeaderBytes(q);
    if q > r && q < r + 8 {
      HeadersOverlap(r, q);
      SameParts(a[..q - r], a[q - r..], b[..8 - (q - r)]);
    } else if r > q && r < q + 8 {
      HeadersOverlap(q, r);
      SameParts(b[r - q..], a[..8 - (r - q)], a[8 - (r - q)..]);
    }
  }

  /** Replacing one part of two leaves the whole exactly if it leaves the part. */
  lemma SameParts(x: seq<byte>, y: seq<byte>, z: seq<byte>)
    ensures |y| == |z| ==> (x + z == x + y <==> z == y)
    ensures |x| == |y| ==> (x + z == y + z <==> x == y)
  {
    assert (x + z)[|x|..] == z && (x + y)[|x|..] == y && (x + z)[..|x|] == x && (y + z)[..|y|] == y;
  }

  /** A trim by n through one of two references at p: the other one still leads back
      exactly for n = 0, for n of 8 or more, or where the new offset ends like a tag; and
      it sees the contents it had exactly for n = 0. */
  lemma SharedTrim(mem: seq<byte>, p: int, size: int, n: nat)
    requires Leads(mem, p, size) && n <= size && p + n - HEADER < UINT32_MAX
    ensures var t := TrimBytes(mem, p, size, n);
            && t == Trimmed(WithHeader(mem, p + n), p + n, size - n)
            && (LeadsBack(t.mem, p) <==>
                  n == 0 || n >= 8 || (n >= 4 && Bytes(p + n - HEADER, 4)[..8 - n] == Bytes(TAG, 4)[n - 4..]))
            && (Data(t.mem, p, t.size) == Data(mem, p, size) <==> n == 0)
  {
    hide WithHeader, Splice, TrimBytes, LeadsBack, Bytes, GetL;
    TrimOne(mem, p, size, n);
    assert LeadsBack(mem, p) by { FirstHolder(mem, p, size); }
    OtherHolder(mem, p + n, p);
    HeaderLeads(mem, p + n);
    var m := WithHeader(mem, p + n);
    assert n > 0 ==> |Data(m, p, size - n)| == size - n < |Data(mem, p, size)|;
    assert n == 0 ==> Data(m, p, size) == m[p..] && Data(mem, p, size) == mem[p..];
  }

  lemma FirstHolder(mem: seq<byte>, p: int, size: int)
    requires Leads(mem, p, size)
    ensures LeadsBack(mem, p)
  {
  }

  // ---------- the chunk itself ----------

  class Chunk {
    var refcount: int
    var size: int
    const mem: array<byte>
    ghost const Id: int
    ghost var Freed: bool

    ghost predicate Valid(p: int)
      reads this, mem
    {
      !Freed && refcount >= 1 && Leads(mem[..], p, size)
    }

    /** A chunk of the given size; its data starts behind the header. */
    constructor (size: nat, ghost id: int)
      ensures Valid(HEADER) && fresh(mem) && this.size == size && refcount == 1 && Id == id
    {
      refcount, Id := 1, id;
      this.size := size;
      mem := new byte[HEADER + size](_ => 0);
      Freed := false;
      new;
      PutL(mem, 0, 0);
      ghost var m := mem[..];
      PutL(mem, 4, TAG);
      assert mem[..] == WithHeader(m, HEADER) by {
        assert Splice(Splice(m, 4, Bytes(TAG, 4)), 0, Bytes(0, 4))[..] == Splice(m, 4, Bytes(TAG, 4));
      }
      HeaderLeads(m, HEADER);
    }

    /** Find the struct from a data pointer: the check on the tag, then the way back. */
    method GetPtr(p: int) returns (ok: bool, base: int)
      requires HEADER <= p <= mem.Length
      ensures ok <==> Tagged(mem[..], p)
      ensures ok ==> base == Base(mem[..], p)
    {
      ok := GetL(mem[p - 4..]) == TAG;
      base := p - HEADER - GetL(mem[p - 8..]);
      assert mem[p - 4..] == mem[..][p - 4..] && mem[p - 8..] == mem[..][p - 8..];
    }

    method Trim(p: int, n: nat) returns (ok: bool, q: int)
      requires Valid(p)
      modifies this`size, mem
      ensures ok <==> n <= old(size) && p + n - HEADER < UINT32_MAX
      ensures ok ==> TrimBytes(old(mem[..]), p, old(size), n) == Trimmed(mem[..], q, size)
      ensures ok ==> Valid(q) && Data(mem[..], q, size) == old(Data(mem[..], p, size))[n..]
      ensures !ok ==> Valid(p) && size == old(size)
    {
      hide TrimBytes, GetL, Splice;
      TrimOne(mem[..], p, size, n);
      var base;
      ok, base := GetPtr(p);
      if !ok || n > size {
        return false, p;
      }
      q := p + n;
      var empty := q - base - HEADER;
      if empty >= UINT32_MAX {
        return false, p;
      }
      PutL(mem, q - 4, TAG);
      PutL(mem, q - 8, empty);
      size := size - n;
    }

    method AddRef(n: nat)
      requires refcount >= 1
      modifies this`refcount
      ensures refcount == old(refcount) + n
    {
      refcount := refcount + n;
    }

    /** Drop one reference; the last one frees the chunk, and its tag then fails
        every later check. */
    method Free(p: int) returns (freed: bool)
      requires Valid(p)
      modifies this`refcount, this`Freed, mem
      ensures refcount == old(refcount) - 1
      ensures freed <==> old(refcount) == 1
      ensures freed <==> Freed
      ensures !freed ==> Valid(p) && mem[..] == old(mem[..])
      ensures freed ==> !Tagged(mem[..], p) && mem[p..] == old(mem[p..])
    {
      var was := refcount;
      refcount := refcount - 1;
      if was <= 1 {
        PutL(mem, p - 4, TAG_DEALLOCATED);
        RoundTrips(old(mem[..]), p - 4, TAG_DEALLOCATED);
        Freed := true;
        return true;
      }
      return false;
    }
  }

  // ---------- references ----------

  const REF_MAX := 32

  /** A reference: up to 31 bytes inline behind their count, or the tag 0xff and a
      pointer into a chunk. */
  class ChunkRef {
    const ref: array<byte>
    var chunk: Chunk?
    var p: int

    /** The chunk pointed to, if any. */
    ghost function Target(): set<Chunk>
      reads this
    {
      if chunk != null then {chunk} else {}
    }

    ghost predicate Valid()
      reads this, ref, chunk, if chunk != null then {chunk.mem} else {}
    {
      && ref.Length == REF_MAX
      && (ref[0] == 0xff ==> chunk != null && chunk.mem != ref && chunk.Valid(p))
      && (ref[0] != 0xff ==> ref[0] < 32)
    }

    ghost function Contents(): seq<byte>
      requires Valid()
      reads this, ref, chunk, if chunk != null then {chunk.mem} else {}
    {
      if ref[0] == 0xff then Data(chunk.mem[..], p, chunk.size) else ref[1..1 + ref[0] as int]
    }

    constructor (size: nat, ghost id: int)
      ensures Valid() && fresh(ref) && |Contents()| == size
      ensures ref[0] == 0xff <==> size >= REF_MAX
      ensures if size < REF_MAX then chunk == null
              else chunk != null && fresh(chunk) && fresh(chunk.mem) && chunk.Id == id && chunk.refcount == 1
    {
      ref := new byte[REF_MAX](_ => 0);
      chunk, p := null, HEADER;
      new;
      if size < REF_MAX {
        ref[0] := size as byte;
        return;
      }
      ref[0] := 0xff;
      chunk := new Chunk(size, id);
    }

    /** The copy of the whole structure. */
    method CopyFrom(src: ChunkRef)
      requires this != src && ref != src.ref && ref.Length == src.ref.Length == REF_MAX
      modifies this, ref
      ensures ref[..] == src.ref[..] && chunk == src.chunk && p == src.p
    {
      forall i | 0 <= i < REF_MAX {
        ref[i] := src.ref[i];
      }
      chunk, p := src.chunk, src.p;
    }

    /** The copy of what the form at hand needs: the tag and the pointer, or the count
        and its bytes. */
    method MoveFrom(src: ChunkRef)
      requires this != src && ref != src.ref && ref.Length == src.ref.Length == REF_MAX
      requires src.ref[0] == 0xff || src.ref[0] < 32
      modifies this, ref
      ensures ref[0] == src.ref[0]
      ensures src.ref[0] == 0xff ==> chunk == src.chunk && p == src.p
      ensures src.ref[0] != 0xff ==> ref[1..1 + ref[0] as int] == src.ref[1..1 + ref[0] as int] && chunk == old(chunk)
    {
      if src.ref[0] == 0xff {
        ref[0] := 0xff;
        chunk, p := src.chunk, src.p;
      } else {
        var n := src.ref[0] as int + 1;
        forall i | 0 <= i < n {
          ref[i] := src.ref[i];
        }
      }
    }

    method Size() returns (n: int)
      requires Valid()
      ensures n == |Contents()|
    {
      n := if ref[0] == 0xff then chunk.size else ref[0] as int;
    }

    /** The inline form: the rest of the bytes moves to the front. */
    method TrimInline(n: nat) returns (ok: bool)
      requires ref.Length == REF_MAX && ref[0] < 32
      modifies ref
      ensures ok <==> n <= old(ref[0]) as int
      ensures ok ==> ref[0] as int == old(ref[0]) as int - n
      ensures ok ==> ref[1..1 + ref[0] as int] == old(ref[1..1 + ref[0] as int])[n..]
    {
      var size := ref[0] as int;
      if size < n {
        return false;
      }
      forall i | 0 <= i < size - n {
        ref[1 + i] := ref[1 + i + n];
      }
      ref[0] := (size - n) as byte;
      assert ref[1..1 + (size - n)] == old(ref[1..1 + size])[n..];
      return true;
    }

    /** Drop bytes from the front; both forms give the same contents. */
    method Trim(n: nat) returns (ok: bool)
      requires Valid()
      modifies this`p, ref, if ref[0] == 0xff then {chunk, chunk.mem} else {}
      ensures ok <==> n <= |old(Contents())| && (old(ref[0]) == 0xff ==> old(p) + n - HEADER < UINT32_MAX)
      ensures ok ==> Valid() && Contents() == old(Contents())[n..] && (ref[0] == 0xff <==> old(ref[0]) == 0xff)
      ensures chunk == old(chunk)
      ensures ok && ref[0] == 0xff ==> TrimBytes(old(chunk.mem[..]), old(p), old(chunk.size), n)
                                       == Trimmed(chunk.mem[..], p, chunk.size)
      ensures chunk != null ==> unchanged(chunk`refcount) && unchanged(chunk`Freed)
    {
      hide GetL, Base, Leads, TrimBytes;
      if ref[0] == 0xff {
        SizeOfData();
        ok, p := chunk.Trim(p, n);
      } else {
        ok := TrimInline(n);
      }
    }

    lemma SizeOfData()
      requires Valid() && ref[0] == 0xff
      ensures 0 <= p && 0 <= chunk.size && p + chunk.size == chunk.mem.Length && |Contents()| == chunk.size
    {
    }
  }
}
