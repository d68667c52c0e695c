/** Whole messages in memory: each operation does its three references in turn and
    comes to the value that RefCount gives for the message. */
module MsgMemory {
  import opened Messages
  import opened Chunks
  import opened MessageMemory
  import R = RefCount

  class Msg {
    const sphdr: ChunkRef
    const hdrs: ChunkRef
    const body: ChunkRef

    constructor (sphdr: ChunkRef, hdrs: ChunkRef, body: ChunkRef)
      ensures this.sphdr == sphdr && this.hdrs == hdrs && this.body == body
    {
      this.sphdr, this.hdrs, this.body := sphdr, hdrs, body;
    }
  }

  /** The message whose references have these numbers. */
  ghost predicate Live(m: Memory, w: R.Parts, x: Msg): (live: bool)
    reads m, m.Foot()
    ensures live ==> R.Present(m.Counting(), w)
  {
    && w.sphdr in m.Refs && m.Refs[w.sphdr] == x.sphdr
    && w.hdrs in m.Refs && m.Refs[w.hdrs] == x.hdrs
    && w.body in m.Refs && m.Refs[w.body] == x.body
  }

  /** Memory for a message that holds nothing yet. */
  ghost predicate Vacant(m: Memory, w: R.Parts, x: Msg): (vacant: bool)
    reads m, m.Foot()
    ensures vacant ==> R.Apart(w) && R.Absent(m.Counting(), w)
  {
    && R.Apart(w) && w.sphdr !in m.Refs && w.hdrs !in m.Refs && w.body !in m.Refs
    && m.Unused(x.sphdr) && m.Unused(x.hdrs) && m.Unused(x.body)
    && x.sphdr != x.hdrs && x.sphdr != x.body && x.hdrs != x.body
    && x.sphdr.ref != x.hdrs.ref && x.sphdr.ref != x.body.ref && x.hdrs.ref != x.body.ref
  }

  ghost function Parts(x: Msg): set<ChunkRef>
  {
    {x.sphdr, x.hdrs, x.body}
  }

  ghost function Arrays(x: Msg): set<array<byte>>
  {
    {x.sphdr.ref, x.hdrs.ref, x.body.ref}
  }

  ghost function ChunksOf(x: Msg): set<Chunk>
    reads x.sphdr, x.hdrs, x.body
  {
    x.sphdr.Target() + x.hdrs.Target() + x.body.Target()
  }

  ghost function BytesOf(x: Msg): set<array<byte>>
    reads x.sphdr, x.hdrs, x.body
  {
    (if x.sphdr.chunk != null then {x.sphdr.chunk.mem} else {})
    + (if x.hdrs.chunk != null then {x.hdrs.chunk.mem} else {})
    + (if x.body.chunk != null then {x.body.chunk.mem} else {})
  }

  /** The header parts of a copy. */
  method CpHeaders(m: Memory, ghost d: R.Parts, dst: Msg, ghost s: R.Parts, src: Msg)
    requires m.Valid() && Live(m, s, src) && Vacant(m, d, dst)
    modifies m`Refs, dst.sphdr, dst.hdrs, dst.sphdr.ref, dst.hdrs.ref, src.sphdr.Target(), src.hdrs.Target()
    ensures m.Valid() && m.Refs == old(m.Refs)[d.sphdr := dst.sphdr][d.hdrs := dst.hdrs] && m.Unused(dst.body)
    ensures src.body.Target() == old(src.body.Target())
    ensures m.Counting() == R.Cp(R.Cp(old(m.Counting()), d.sphdr, s.sphdr), d.hdrs, s.hdrs)
    ensures m.Held(d.sphdr) == old(m.Held(s.sphdr)) && m.Held(d.hdrs) == old(m.Held(s.hdrs))
    ensures forall r | r in old(m.Refs) :: m.Held(r) == old(m.Held(r))
  {
    hide Memory.Counting, Memory.Held, Memory.Valid, Memory.Foot, R.Cp, ChunkRef.Target;
    m.Cp(d.sphdr, dst.sphdr, s.sphdr, src.sphdr);
    assert m.Unused(dst.hdrs) && m.Unused(dst.body);
    m.Cp(d.hdrs, dst.hdrs, s.hdrs, src.hdrs);
  }

  lemma TargetsIn(x: Msg)
    ensures x.sphdr.Target() <= ChunksOf(x) && x.hdrs.Target() <= ChunksOf(x) && x.body.Target() <= ChunksOf(x)
  {
  }

  method Cp(m: Memory, ghost d: R.Parts, dst: Msg, ghost s: R.Parts, src: Msg)
    requires m.Valid() && Live(m, s, src) && Vacant(m, d, dst)
    modifies m`Refs, Parts(dst), Arrays(dst), ChunksOf(src)
    ensures m.Valid() && Live(m, d, dst)
    ensures m.Counting() == R.MsgCp(old(m.Counting()), d, s)
    ensures m.Held(d.sphdr) == old(m.Held(s.sphdr)) && m.Held(d.hdrs) == old(m.Held(s.hdrs))
    ensures m.Held(d.body) == old(m.Held(s.body))
    ensures forall r | r in old(m.Refs) :: m.Held(r) == old(m.Held(r))
  {
    TargetsIn(src);
    hide Memory.Counting, Memory.Held, Memory.Valid, Memory.Foot, R.Cp, ChunkRef.Target, ChunksOf;
    CpHeaders(m, d, dst, s, src);
    m.Cp(d.body, dst.body, s.body, src.body);
  }

  method MvHeaders(m: Memory, ghost d: R.Parts, dst: Msg, ghost s: R.Parts, src: Msg)
    requires m.Valid() && Live(m, s, src) && R.Apart(s) && Vacant(m, d, dst)
    modifies m`Refs, dst.sphdr, dst.hdrs, dst.sphdr.ref, dst.hdrs.ref
    ensures m.Valid() && m.Unused(dst.body)
    ensures m.Refs == ((old(m.Refs) - {s.sphdr})[d.sphdr := dst.sphdr] - {s.hdrs})[d.hdrs := dst.hdrs]
    ensures m.Counting() == R.Mv(R.Mv(old(m.Counting()), d.sphdr, s.sphdr), d.hdrs, s.hdrs)
    ensures m.Held(d.sphdr) == old(m.Held(s.sphdr)) && m.Held(d.hdrs) == old(m.Held(s.hdrs))
    ensures forall r | r in old(m.Refs) && r !in {s.sphdr, s.hdrs} :: r in m.Refs && m.Held(r) == old(m.Held(r))
  {
    hide Memory.Counting, Memory.Held, Memory.Valid, Memory.Foot, R.Mv;
    m.Mv(d.sphdr, dst.sphdr, s.sphdr, src.sphdr);
    assert m.Unused(dst.hdrs) && m.Unused(dst.body);
    m.Mv(d.hdrs, dst.hdrs, s.hdrs, src.hdrs);
  }

  method Mv(m: Memory, ghost d: R.Parts, dst: Msg, ghost s: R.Parts, src: Msg)
    requires m.Valid() && Live(m, s, src) && R.Apart(s) && Vacant(m, d, dst)
    modifies m`Refs, Parts(dst), Arrays(dst)
    ensures m.Valid() && Live(m, d, dst)
    ensures m.Counting() == R.MsgMv(old(m.Counting()), d, s)
    ensures m.Held(d.sphdr) == old(m.Held(s.sphdr)) && m.Held(d.hdrs) == old(m.Held(s.hdrs))
    ensures m.Held(d.body) == old(m.Held(s.body))
    ensures forall r | r in old(m.Refs) && r !in {s.sphdr, s.hdrs, s.body} ::
              r in m.Refs && m.Held(r) == old(m.Held(r))
  {
    hide Memory.Counting, Memory.Held, Memory.Valid, Memory.Foot, Memory.Unused, R.Mv;
    MvHeaders(m, d, dst, s, src);
    m.Mv(d.body, dst.body, s.body, src.body);
  }

  method BulkStart(m: Memory, ghost w: R.Parts, x: Msg, n: nat)
    requires m.Valid() && Live(m, w, x)
    modifies m`Reserved, ChunksOf(x)
    ensures m.Valid() && Live(m, w, x)
    ensures m.Counting() == R.MsgBulkStart(old(m.Counting()), w, n)
    ensures forall r | r in m.Refs :: m.Held(r) == old(m.Held(r))
  {
    hide Memory.Counting, Memory.Held, Memory.Valid, Memory.Foot, R.BulkStart, ChunkRef.Target;
    m.BulkStart(w.sphdr, x.sphdr, n);
    m.BulkStart(w.hdrs, x.hdrs, n);
    m.BulkStart(w.body, x.body, n);
  }

  method BulkCpHeaders(m: Memory, ghost d: R.Parts, dst: Msg, ghost s: R.Parts, src: Msg)
    requires m.Valid() && Live(m, s, src) && Vacant(m, d, dst)
    requires R.Covered(m.Counting(), s.sphdr) && R.Covered(R.BulkCp(m.Counting(), d.sphdr, s.sphdr), s.hdrs)
    modifies m`Refs, m`Reserved, dst.sphdr, dst.hdrs, dst.sphdr.ref, dst.hdrs.ref
    ensures m.Valid() && m.Refs == old(m.Refs)[d.sphdr := dst.sphdr][d.hdrs := dst.hdrs] && m.Unused(dst.body)
    ensures m.Counting() == R.BulkCp(R.BulkCp(old(m.Counting()), d.sphdr, s.sphdr), d.hdrs, s.hdrs)
    ensures m.Held(d.sphdr) == old(m.Held(s.sphdr)) && m.Held(d.hdrs) == old(m.Held(s.hdrs))
    ensures forall r | r in old(m.Refs) :: m.Held(r) == old(m.Held(r))
  {
    hide Memory.Counting, Memory.Held, Memory.Valid, Memory.Foot, R.BulkCp, R.Covered;
    m.BulkCp(d.sphdr, dst.sphdr, s.sphdr, src.sphdr);
    assert m.Unused(dst.hdrs) && m.Unused(dst.body);
    m.BulkCp(d.hdrs, dst.hdrs, s.hdrs, src.hdrs);
  }

  method BulkCp(m: Memory, ghost d: R.Parts, dst: Msg, ghost s: R.Parts, src: Msg)
    requires m.Valid() && Live(m, s, src) && Vacant(m, d, dst) && R.MsgCovered(m.Counting(), d, s)
    modifies m`Refs, m`Reserved, Parts(dst), Arrays(dst)
    ensures m.Valid() && Live(m, d, dst)
    ensures m.Counting() == R.MsgBulkCp(old(m.Counting()), d, s)
    ensures m.Held(d.sphdr) == old(m.Held(s.sphdr)) && m.Held(d.hdrs) == old(m.Held(s.hdrs))
    ensures m.Held(d.body) == old(m.Held(s.body))
    ensures forall r | r in old(m.Refs) :: m.Held(r) == old(m.Held(r))
  {
    hide Memory.Counting, Memory.Held, Memory.Valid, Memory.Foot, Memory.Unused, R.BulkCp, R.Covered;
    BulkCpHeaders(m, d, dst, s, src);
    m.BulkCp(d.body, dst.body, s.body, src.body);
  }

  method Term(m: Memory, ghost w: R.Parts, x: Msg)
    requires m.Valid() && Live(m, w, x) && R.Apart(w)
    modifies m, ChunksOf(x), BytesOf(x)
    ensures m.Valid() && m.Refs == old(m.Refs) - {w.sphdr, w.hdrs, w.body}
    ensures m.Counting() == R.MsgTerm(old(m.Counting()), w)
    ensures forall r | r in m.Refs :: m.Held(r) == old(m.Held(r))
  {
    hide Memory.Counting, Memory.Held, Memory.Valid, Memory.Foot, R.Term;
    m.Term(w.sphdr, x.sphdr);
    m.Term(w.hdrs, x.hdrs);
    m.Term(w.body, x.body);
  }
}
