/** Reference counts across whole messages: references are held by three-part
    messages, copied, moved, copied in bulk and dropped. */
module RefCount {
  import opened Messages

  type ChunkId = int
  type RefId = int

  /** What a reference holds: its bytes inline, or a chunk. */
  datatype Ref = Inline(bytes: seq<byte>) | Heap(chunk: ChunkId)

  /** `count` is the counter in each allocated chunk and `freed` logs the frees.
      `reserved` is what bulk copies announced but did not take yet. */
  datatype Store = Store(
    refs: map<RefId, Ref>, count: map<ChunkId, int>, freed: seq<ChunkId>, reserved: map<ChunkId, nat>)

  // ---------- the operations of a reference ----------

  predicate Holds(s: Store, r: RefId, c: ChunkId)
  {
    r in s.refs && s.refs[r] == Heap(c)
  }

  function Reserved(s: Store, c: ChunkId): nat
  {
    if c in s.reserved then s.reserved[c] else 0
  }

  /** A fresh reference to a fresh chunk. */
  function InitHeap(s: Store, r: RefId, c: ChunkId): Store
  {
    s.(refs := s.refs[r := Heap(c)], count := s.count[c := 1])
  }

  function InitInline(s: Store, r: RefId, bytes: seq<byte>): Store
  {
    s.(refs := s.refs[r := Inline(bytes)])
  }

  /** Drop a reference; the chunk goes when its counter was at most 1. */
  function Term(s: Store, r: RefId): Store
    requires r in s.refs
  {
    var s1 := s.(refs := s.refs - {r});
    match s.refs[r]
    case Inline(_) => s1
    case Heap(c) =>
      if c !in s.count then s1
      else if s.count[c] <= 1 then s1.(count := s.count - {c}, freed := s.freed + [c])
      else s1.(count := s.count[c := s.count[c] - 1])
  }

  function AddRef(s: Store, r: RefId, n: nat): Store
    requires r in s.refs
  {
    match s.refs[r]
    case Inline(_) => s
    case Heap(c) => if c in s.count then s.(count := s.count[c := s.count[c] + n]) else s
  }

  function Cp(s: Store, dst: RefId, src: RefId): Store
    requires src in s.refs
  {
    AddRef(s, src, 1).(refs := s.refs[dst := s.refs[src]])
  }

  /** The source is discarded: its bytes are dead. */
  function Mv(s: Store, dst: RefId, src: RefId): Store
    requires src in s.refs
  {
    s.(refs := (s.refs - {src})[dst := s.refs[src]])
  }

  function BulkStart(s: Store, r: RefId, n: nat): Store
    requires r in s.refs
  {
    var s1 := AddRef(s, r, n);
    match s.refs[r]
    case Inline(_) => s1
    case Heap(c) => s1.(reserved := s.reserved[c := Reserved(s, c) + n])
  }

  /** A bitwise copy that uses up one reservation. */
  function BulkCp(s: Store, dst: RefId, src: RefId): Store
    requires src in s.refs
  {
    var s1 := s.(refs := s.refs[dst := s.refs[src]]);
    match s.refs[src]
    case Inline(_) => s1
    case Heap(c) => if Reserved(s, c) > 0 then s1.(reserved := s.reserved[c := Reserved(s, c) - 1]) else s1
  }

  /** A copy of this reference was announced and not taken yet, or needs no announcing. */
  predicate Covered(s: Store, r: RefId)
    requires r in s.refs
  {
    s.refs[r].Heap? ==> Reserved(s, s.refs[r].chunk) > 0
  }

  // ---------- the invariant ----------

  ghost function Holders(s: Store, c: ChunkId): set<RefId>
  {
    set r | r in s.refs && s.refs[r] == Heap(c)
  }

  /** The counter of a chunk is the number of its live references and of the
      copies still to be taken. */
  ghost predicate Exact(s: Store, c: ChunkId)
  {
    if c in s.count then
      s.count[c] == |Holders(s, c)| + Reserved(s, c) && s.count[c] >= 1
    else
      Holders(s, c) == {} && Reserved(s, c) == 0
  }

  ghost predicate Inv(s: Store)
  {
    && (forall c :: Exact(s, c))
    && (forall i, j | 0 <= i < j < |s.freed| :: s.freed[i] != s.freed[j])
    && (forall c | c in s.freed :: c !in s.count)
  }

  lemma HoldersGain(s: Store, s2: Store, r: RefId, c: ChunkId)
    requires r !in s.refs && s2.refs == s.refs[r := Heap(c)]
    ensures |Holders(s2, c)| == |Holders(s, c)| + 1
    ensures forall d | d != c :: Holders(s2, d) == Holders(s, d)
  {
    assert Holders(s2, c) == Holders(s, c) + {r};
  }

  lemma HoldersLose(s: Store, s2: Store, r: RefId, c: ChunkId)
    requires r in s.refs && s.refs[r] == Heap(c) && s2.refs == s.refs - {r}
    ensures |Holders(s2, c)| == |Holders(s, c)| - 1
    ensures forall d | d != c :: Holders(s2, d) == Holders(s, d)
  {
    assert r in Holders(s, c);
    assert Holders(s2, c) == Holders(s, c) - {r};
  }

  lemma HoldersSame(s: Store, s2: Store)
    requires forall r, c :: Holds(s, r, c) <==> Holds(s2, r, c)
    ensures forall c :: Holders(s2, c) == Holders(s, c)
  {
    forall c ensures Holders(s2, c) == Holders(s, c) {
      forall r ensures r in Holders(s2, c) <==> r in Holders(s, c) {
        assert Holds(s, r, c) <==> Holds(s2, r, c);
      }
    }
  }

  /** The invariant is about which chunks are held, not about the bytes inline. */
  lemma SameKeeps(s: Store, s2: Store)
    requires Inv(s) && s2 == s.(refs := s2.refs) && forall r, c :: Holds(s, r, c) <==> Holds(s2, r, c)
    ensures Inv(s2)
  {
    HoldersSame(s, s2);
    forall c ensures Exact(s2, c) {
      assert Exact(s, c);
    }
  }

  lemma InitKeeps(s: Store, r: RefId, c: ChunkId)
    requires Inv(s) && r !in s.refs && c !in s.count && c !in s.freed
    ensures Inv(InitHeap(s, r, c))
  {
    HoldersGain(s, InitHeap(s, r, c), r, c);
    assert Exact(s, c);
    forall d ensures Exact(InitHeap(s, r, c), d) {
      assert Exact(s, d);
    }
  }

  /** Whatever a reference holds is allocated. */
  lemma HeldIsAllocated(s: Store, r: RefId)
    requires Inv(s) && r in s.refs && s.refs[r].Heap?
    ensures s.refs[r].chunk in s.count
  {
    assert Exact(s, s.refs[r].chunk);
    assert r in Holders(s, s.refs[r].chunk);
  }

  /** Dropping a reference frees its chunk exactly if nothing else holds it and
      no copy is outstanding. */
  lemma TermKeeps(s: Store, r: RefId)
    requires Inv(s) && r in s.refs
    ensures Inv(Term(s, r))
    ensures s.refs[r].Inline? ==> Term(s, r).freed == s.freed && Term(s, r).count == s.count
    ensures s.refs[r].Heap? ==>
              var c := s.refs[r].chunk;
              && c in s.count && c !in s.freed
              && (Holders(s, c) == {r} && Reserved(s, c) == 0 <==> Term(s, r).freed == s.freed + [c])
              && (Term(s, r).freed == s.freed + [c] || Term(s, r).freed == s.freed)
  {
    var s2 := Term(s, r);
    match s.refs[r] {
      case Inline(_) =>
        HoldersSame(s, s2);
        forall c ensures Exact(s2, c) {
          assert Exact(s, c);
        }
      case Heap(c) =>
        HeldIsAllocated(s, r);
        HoldersLose(s, s2, r, c);
        forall d ensures Exact(s2, d) {
          assert Exact(s, d);
        }
        if |Holders(s, c)| == 1 {
          OnlyOne(Holders(s, c), r);
        }
        assert Exact(s, c) && |{r}| == 1;
        assert |s.freed + [c]| != |s.freed|;
    }
  }

  lemma OnlyOne(h: set<RefId>, r: RefId)
    requires |h| == 1 && r in h
    ensures h == {r}
  {
    assert |h - {r}| == 0;
    assert h == {r} + (h - {r});
  }

  lemma CpKeeps(s: Store, dst: RefId, src: RefId)
    requires Inv(s) && src in s.refs && dst !in s.refs
    ensures Inv(Cp(s, dst, src))
  {
    var s2 := Cp(s, dst, src);
    match s.refs[src] {
      case Inline(_) =>
        HoldersSame(s, s2);
      case Heap(c) =>
        HeldIsAllocated(s, src);
        HoldersGain(s, s2, dst, c);
    }
    forall d ensures Exact(s2, d) {
      assert Exact(s, d);
    }
  }

  lemma MvKeeps(s: Store, dst: RefId, src: RefId)
    requires Inv(s) && src in s.refs && dst !in s.refs
    ensures Inv(Mv(s, dst, src)) && Mv(s, dst, src).count == s.count
  {
    var s1 := s.(refs := s.refs - {src});
    var s2 := Mv(s, dst, src);
    match s.refs[src] {
      case Inline(_) =>
        HoldersSame(s, s2);
      case Heap(c) =>
        HoldersLose(s, s1, src, c);
        HoldersGain(s1, s2, dst, c);
    }
    forall d ensures Exact(s2, d) {
      assert Exact(s, d);
    }
  }

  lemma BulkStartKeeps(s: Store, r: RefId, n: nat)
    requires Inv(s) && r in s.refs
    ensures Inv(BulkStart(s, r, n))
  {
    var s2 := BulkStart(s, r, n);
    HoldersSame(s, s2);
    if s.refs[r].Heap? {
      HeldIsAllocated(s, r);
    }
    forall d ensures Exact(s2, d) {
      assert Exact(s, d);
    }
  }

  /** A bulk copy keeps the counters exact precisely if it was reserved. */
  lemma BulkCpKeeps(s: Store, dst: RefId, src: RefId)
    requires Inv(s) && src in s.refs && dst !in s.refs
    ensures Inv(BulkCp(s, dst, src)) <==> Covered(s, src)
  {
    var s2 := BulkCp(s, dst, src);
    match s.refs[src] {
      case Inline(_) =>
        HoldersSame(s, s2);
        forall d ensures Exact(s2, d) {
          assert Exact(s, d);
        }
      case Heap(c) =>
        HeldIsAllocated(s, src);
        HoldersGain(s, s2, dst, c);
        assert Exact(s, c);
        if Reserved(s, c) > 0 {
          forall d ensures Exact(s2, d) {
            assert Exact(s, d);
          }
        } else {
          assert !Exact(s2, c);
        }
    }
  }

  // ---------- whole messages ----------

  /** The three references of a message: protocol header, transport headers, body. */
  datatype Parts = Parts(sphdr: RefId, hdrs: RefId, body: RefId)

  predicate Apart(m: Parts)
  {
    m.sphdr != m.hdrs && m.sphdr != m.body && m.hdrs != m.body
  }

  predicate Present(s: Store, m: Parts)
  {
    m.sphdr in s.refs && m.hdrs in s.refs && m.body in s.refs
  }

  predicate Absent(s: Store, m: Parts)
  {
    m.sphdr !in s.refs && m.hdrs !in s.refs && m.body !in s.refs
  }

  function MsgTerm(s: Store, m: Parts): Store
    requires Apart(m) && Present(s, m)
  {
    Term(Term(Term(s, m.sphdr), m.hdrs), m.body)
  }

  function MsgCp(s: Store, dst: Parts, src: Parts): Store
    requires Apart(dst) && Present(s, src) && Absent(s, dst)
  {
    Cp(Cp(Cp(s, dst.sphdr, src.sphdr), dst.hdrs, src.hdrs), dst.body, src.body)
  }

  function MsgMv(s: Store, dst: Parts, src: Parts): Store
    requires Apart(src) && Apart(dst) && Present(s, src) && Absent(s, dst)
  {
    Mv(Mv(Mv(s, dst.sphdr, src.sphdr), dst.hdrs, src.hdrs), dst.body, src.body)
  }

  function MsgBulkStart(s: Store, m: Parts, n: nat): Store
    requires Present(s, m)
  {
    BulkStart(BulkStart(BulkStart(s, m.sphdr, n), m.hdrs, n), m.body, n)
  }

  function MsgBulkCp(s: Store, dst: Parts, src: Parts): Store
    requires Apart(dst) && Present(s, src) && Absent(s, dst)
  {
    BulkCp(BulkCp(BulkCp(s, dst.sphdr, src.sphdr), dst.hdrs, src.hdrs), dst.body, src.body)
  }

  /** A reservation is left for each part that needs one, in the order they are taken. */
  predicate MsgCovered(s: Store, dst: Parts, src: Parts)
    requires Apart(dst) && Present(s, src) && Absent(s, dst)
  {
    && Covered(s, src.sphdr) && Covered(BulkCp(s, dst.sphdr, src.sphdr), src.hdrs)
    && Covered(BulkCp(BulkCp(s, dst.sphdr, src.sphdr), dst.hdrs, src.hdrs), src.body)
  }

  lemma MsgTermKeeps(s: Store, m: Parts)
    requires Inv(s) && Apart(m) && Present(s, m)
    ensures Inv(MsgTerm(s, m)) && s.freed <= MsgTerm(s, m).freed
  {
    TermKeeps(s, m.sphdr);
    TermKeeps(Term(s, m.sphdr), m.hdrs);
    TermKeeps(Term(Term(s, m.sphdr), m.hdrs), m.body);
  }

  lemma MsgCpKeeps(s: Store, dst: Parts, src: Parts)
    requires Inv(s) && Apart(dst) && Present(s, src) && Absent(s, dst)
    ensures Inv(MsgCp(s, dst, src))
  {
    CpKeeps(s, dst.sphdr, src.sphdr);
    CpKeeps(Cp(s, dst.sphdr, src.sphdr), dst.hdrs, src.hdrs);
    CpKeeps(Cp(Cp(s, dst.sphdr, src.sphdr), dst.hdrs, src.hdrs), dst.body, src.body);
  }

  lemma MsgMvKeeps(s: Store, dst: Parts, src: Parts)
    requires Inv(s) && Apart(src) && Apart(dst) && Present(s, src) && Absent(s, dst)
    ensures Inv(MsgMv(s, dst, src)) && MsgMv(s, dst, src).count == s.count
  {
    MvKeeps(s, dst.sphdr, src.sphdr);
    MvKeeps(Mv(s, dst.sphdr, src.sphdr), dst.hdrs, src.hdrs);
    MvKeeps(Mv(Mv(s, dst.sphdr, src.sphdr), dst.hdrs, src.hdrs), dst.body, src.body);
  }

  lemma MsgBulkStartKeeps(s: Store, m: Parts, n: nat)
    requires Inv(s) && Present(s, m)
    ensures Inv(MsgBulkStart(s, m, n))
  {
    BulkStartKeeps(s, m.sphdr, n);
    BulkStartKeeps(BulkStart(s, m.sphdr, n), m.hdrs, n);
    BulkStartKeeps(BulkStart(BulkStart(s, m.sphdr, n), m.hdrs, n), m.body, n);
  }

  /** Dropping a copy undoes the copy. */
  lemma CopyThenTerm(s: Store, dst: RefId, src: RefId)
    requires Inv(s) && src in s.refs && dst !in s.refs
    ensures Term(Cp(s, dst, src), dst) == s
  {
    assert Cp(s, dst, src).refs - {dst} == s.refs;
    if s.refs[src].Heap? {
      var c := s.refs[src].chunk;
      HeldIsAllocated(s, src);
      assert Exact(s, c);
      assert s.count[c := s.count[c] + 1][c := s.count[c]] == s.count;
    }
  }

  // ---------- a bulk copy is that many copies ----------

  predicate AllAbsent(s: Store, dsts: seq<Parts>)
  {
    && (forall i | 0 <= i < |dsts| :: Apart(dsts[i]) && Absent(s, dsts[i]))
    && (forall i, j | 0 <= i < j < |dsts| :: Separate(dsts[i], dsts[j]))
  }

  predicate Separate(m: Parts, n: Parts)
  {
    {m.sphdr, m.hdrs, m.body} !! {n.sphdr, n.hdrs, n.body}
  }

  function Copies(s: Store, dsts: seq<Parts>, src: Parts): Store
    requires Present(s, src) && AllAbsent(s, dsts)
    decreases |dsts|
  {
    if dsts == [] then s
    else
      var s1 := MsgCp(s, dsts[0], src);
      StillAbsent(s, s1, dsts);
      Copies(s1, dsts[1..], src)
  }

  function BulkCopies(s: Store, dsts: seq<Parts>, src: Parts): Store
    requires Present(s, src) && AllAbsent(s, dsts)
    decreases |dsts|
  {
    if dsts == [] then s
    else
      var s1 := MsgBulkCp(s, dsts[0], src);
      StillAbsent(s, s1, dsts);
      BulkCopies(s1, dsts[1..], src)
  }

  lemma StillAbsent(s: Store, s1: Store, dsts: seq<Parts>)
    requires dsts != [] && AllAbsent(s, dsts)
    requires s1.refs.Keys == s.refs.Keys + {dsts[0].sphdr, dsts[0].hdrs, dsts[0].body}
    ensures AllAbsent(s1, dsts[1..])
  {
  }

  /** b is p with e(c) reservations of each chunk outstanding. */
  ghost predicate Gap(b: Store, p: Store, e: ChunkId -> int)
  {
    && b.refs == p.refs && b.freed == p.freed && b.count.Keys == p.count.Keys
    && (forall c | c in p.count :: b.count[c] == p.count[c] + e(c))
    && (forall c :: Reserved(b, c) == Reserved(p, c) + e(c))
  }

  /** n, if the reference holds the chunk. */
  function Times(n: nat, s: Store, r: RefId, c: ChunkId): nat
  {
    if Holds(s, r, c) then n else 0
  }

  /** n for each part of the message that holds the chunk. */
  function Wanted(n: nat, s: Store, m: Parts, c: ChunkId): nat
  {
    Times(n, s, m.sphdr, c) + Times(n, s, m.hdrs, c) + Times(n, s, m.body, c)
  }

  lemma GapStart(b: Store, p: Store, e: ChunkId -> int, r: RefId, n: nat)
    requires Gap(b, p, e) && Inv(p) && r in p.refs
    ensures Gap(BulkStart(b, r, n), p, c => e(c) + Times(n, p, r, c))
  {
  }

  lemma GapCp(b: Store, p: Store, e: ChunkId -> int, dst: RefId, src: RefId)
    requires Gap(b, p, e) && Inv(p) && src in p.refs && dst !in p.refs
    requires p.refs[src].Heap? ==> e(p.refs[src].chunk) > 0
    requires forall c :: e(c) >= 0
    ensures Gap(BulkCp(b, dst, src), Cp(p, dst, src), c => e(c) - Times(1, p, src, c))
    ensures forall r, c | r in p.refs :: Holds(Cp(p, dst, src), r, c) == Holds(p, r, c)
    ensures BulkCp(b, dst, src).refs == Cp(p, dst, src).refs
  {
  }

  /** b is p with k reservations of the whole message outstanding. */
  ghost predicate Ahead(b: Store, p: Store, src: Parts, k: nat)
  {
    Gap(b, p, c => Wanted(k, p, src, c))
  }

  lemma SameGap(b: Store, p: Store, e: ChunkId -> int, f: ChunkId -> int)
    requires Gap(b, p, e) && forall c :: e(c) == f(c)
    ensures Gap(b, p, f) && b.refs == p.refs
  {
  }

  lemma StartIsAhead(s: Store, src: Parts, n: nat)
    requires Inv(s) && Present(s, src)
    ensures Ahead(MsgBulkStart(s, src, n), s, src, n)
  {
    hide Inv, BulkStart;
    var e0: ChunkId -> int := c => 0;
    assert Gap(s, s, e0);
    GapStart(s, s, e0, src.sphdr, n);
    hide Gap;
    var e1: ChunkId -> int := c => e0(c) + Times(n, s, src.sphdr, c);
    GapStart(BulkStart(s, src.sphdr, n), s, e1, src.hdrs, n);
    var e2: ChunkId -> int := c => e1(c) + Times(n, s, src.hdrs, c);
    var s2 := BulkStart(BulkStart(s, src.sphdr, n), src.hdrs, n);
    GapStart(s2, s, e2, src.body, n);
    SameGap(BulkStart(s2, src.body, n), s, c => e2(c) + Times(n, s, src.body, c), c => Wanted(n, s, src, c));
  }

  /** What is still wanted when the parts differ in what they have got. */
  function Left(p: Store, src: Parts, i: nat, j: nat, k: nat, c: ChunkId): nat
  {
    Times(i, p, src.sphdr, c) + Times(j, p, src.hdrs, c) + Times(k, p, src.body, c)
  }

  lemma CopyPart(b: Store, p: Store, dst: RefId, src: RefId, e: ChunkId -> int, f: ChunkId -> int)
    requires Gap(b, p, e) && Inv(p) && src in p.refs && dst !in p.refs
    requires forall c :: f(c) >= 0 && e(c) == f(c) + Times(1, p, src, c)
    ensures Gap(BulkCp(b, dst, src), Cp(p, dst, src), f) && Inv(Cp(p, dst, src))
    ensures BulkCp(b, dst, src).refs == Cp(p, dst, src).refs
  {
    GapCp(b, p, e, dst, src);
    CpKeeps(p, dst, src);
    SameGap(BulkCp(b, dst, src), Cp(p, dst, src), c => e(c) - Times(1, p, src, c), f);
  }

  lemma FirstPart(b: Store, p: Store, dst: Parts, src: Parts, k: nat)
    requires Gap(b, p, c => Left(p, src, k + 1, k + 1, k + 1, c)) && Inv(p)
    requires Present(p, src) && dst.sphdr !in p.refs && b.refs == p.refs
    ensures var q := Cp(p, dst.sphdr, src.sphdr);
            && Gap(BulkCp(b, dst.sphdr, src.sphdr), q, c => Left(q, src, k, k + 1, k + 1, c))
            && Inv(q) && BulkCp(b, dst.sphdr, src.sphdr).refs == q.refs
  {
    hide Inv, Gap, BulkCp;
    var e, f: ChunkId -> int := c => Left(p, src, k + 1, k + 1, k + 1, c), c => Left(p, src, k, k + 1, k + 1, c);
    CopyPart(b, p, dst.sphdr, src.sphdr, e, f);
    var q := Cp(p, dst.sphdr, src.sphdr);
    SameHolds(p, q, src);
    SameGap(BulkCp(b, dst.sphdr, src.sphdr), q, f, c => Left(q, src, k, k + 1, k + 1, c));
  }

  lemma SecondPart(b: Store, p: Store, dst: Parts, src: Parts, k: nat)
    requires Gap(b, p, c => Left(p, src, k, k + 1, k + 1, c)) && Inv(p)
    requires Present(p, src) && dst.hdrs !in p.refs && b.refs == p.refs
    ensures var q := Cp(p, dst.hdrs, src.hdrs);
            && Gap(BulkCp(b, dst.hdrs, src.hdrs), q, c => Left(q, src, k, k, k + 1, c))
            && Inv(q) && BulkCp(b, dst.hdrs, src.hdrs).refs == q.refs
  {
    hide Inv, Gap, BulkCp;
    var e, f: ChunkId -> int := c => Left(p, src, k, k + 1, k + 1, c), c => Left(p, src, k, k, k + 1, c);
    CopyPart(b, p, dst.hdrs, src.hdrs, e, f);
    var q := Cp(p, dst.hdrs, src.hdrs);
    SameHolds(p, q, src);
    SameGap(BulkCp(b, dst.hdrs, src.hdrs), q, f, c => Left(q, src, k, k, k + 1, c));
  }

  lemma ThirdPart(b: Store, p: Store, dst: Parts, src: Parts, k: nat)
    requires Gap(b, p, c => Left(p, src, k, k, k + 1, c)) && Inv(p)
    requires Present(p, src) && dst.body !in p.refs && b.refs == p.refs
    ensures var q := Cp(p, dst.body, src.body);
            && Gap(BulkCp(b, dst.body, src.body), q, c => Left(q, src, k, k, k, c))
            && Inv(q) && BulkCp(b, dst.body, src.body).refs == q.refs
  {
    hide Inv, Gap, BulkCp;
    var e, f: ChunkId -> int := c => Left(p, src, k, k, k + 1, c), c => Left(p, src, k, k, k, c);
    CopyPart(b, p, dst.body, src.body, e, f);
    var q := Cp(p, dst.body, src.body);
    SameHolds(p, q, src);
    SameGap(BulkCp(b, dst.body, src.body), q, f, c => Left(q, src, k, k, k, c));
  }

  /** One bulk copy against one plain copy, one reservation further. */
  lemma StepStaysAhead(b: Store, p: Store, dst: Parts, src: Parts, k: nat)
    requires Ahead(b, p, src, k + 1) && Inv(p) && Present(p, src) && Apart(dst) && Absent(p, dst)
    ensures Ahead(MsgBulkCp(b, dst, src), MsgCp(p, dst, src), src, k)
  {
    hide Inv, Gap, BulkCp, Times;
    SameGap(b, p, c => Wanted(k + 1, p, src, c), c => Left(p, src, k + 1, k + 1, k + 1, c));
    FirstPart(b, p, dst, src, k);
    var p1, b1 := Cp(p, dst.sphdr, src.sphdr), BulkCp(b, dst.sphdr, src.sphdr);
    SecondPart(b1, p1, dst, src, k);
    var p2, b2 := Cp(p1, dst.hdrs, src.hdrs), BulkCp(b1, dst.hdrs, src.hdrs);
    ThirdPart(b2, p2, dst, src, k);
    var p3, b3 := Cp(p2, dst.body, src.body), BulkCp(b2, dst.body, src.body);
    SameGap(b3, p3, c => Left(p3, src, k, k, k, c), c => Wanted(k, p3, src, c));
  }

  lemma SameHolds(p: Store, q: Store, m: Parts)
    requires Present(p, m) && Present(q, m)
    requires p.refs[m.sphdr] == q.refs[m.sphdr] && p.refs[m.hdrs] == q.refs[m.hdrs] && p.refs[m.body] == q.refs[m.body]
    ensures forall n: nat, c :: Times(n, q, m.sphdr, c) == Times(n, p, m.sphdr, c)
    ensures forall n: nat, c :: Times(n, q, m.hdrs, c) == Times(n, p, m.hdrs, c)
    ensures forall n: nat, c :: Times(n, q, m.body, c) == Times(n, p, m.body, c)
  {
  }

  /** Announcing n copies and taking them all leaves the same store as copying the
      message n times. */
  lemma BulkIsCopies(s: Store, dsts: seq<Parts>, src: Parts)
    requires Inv(s) && Present(s, src) && AllAbsent(s, dsts)
    ensures var b := BulkCopies(MsgBulkStart(s, src, |dsts|), dsts, src);
            var p := Copies(s, dsts, src);
            b.refs == p.refs && b.count == p.count && b.freed == p.freed && forall c :: Reserved(b, c) == Reserved(p, c)
  {
    hide Inv, MsgBulkStart, MsgCp, MsgBulkCp;
    StartIsAhead(s, src, |dsts|);
    CatchUp(MsgBulkStart(s, src, |dsts|), s, dsts, src);
    SameGap(BulkCopies(MsgBulkStart(s, src, |dsts|), dsts, src), Copies(s, dsts, src),
            c => Wanted(0, Copies(s, dsts, src), src, c), c => 0);
    NoGap(BulkCopies(MsgBulkStart(s, src, |dsts|), dsts, src), Copies(s, dsts, src));
  }

  lemma NoGap(b: Store, p: Store)
    requires Gap(b, p, c => 0)
    ensures b.refs == p.refs && b.count == p.count && b.freed == p.freed && forall c :: Reserved(b, c) == Reserved(p, c)
  {
    var e: ChunkId -> int := c => 0;
    assert Gap(b, p, e);
    forall c | c in p.count ensures b.count[c] == p.count[c] {
      assert e(c) == 0;
    }
    forall c ensures Reserved(b, c) == Reserved(p, c) {
      assert e(c) == 0;
    }
  }

  lemma {:induction false} CatchUp(b: Store, p: Store, dsts: seq<Parts>, src: Parts)
    requires Ahead(b, p, src, |dsts|) && Inv(p) && Present(p, src) && AllAbsent(p, dsts)
    ensures Ahead(BulkCopies(b, dsts, src), Copies(p, dsts, src), src, 0)
    decreases |dsts|
  {
    if dsts != [] {
      FirstCopy(b, p, dsts, src);
      hide Inv, Ahead, MsgCp, MsgBulkCp, AllAbsent, Present;
      CatchUp(MsgBulkCp(b, dsts[0], src), MsgCp(p, dsts[0], src), dsts[1..], src);
    }
  }

  lemma FirstCopy(b: Store, p: Store, dsts: seq<Parts>, src: Parts)
    requires Ahead(b, p, src, |dsts|) && Inv(p) && Present(p, src) && AllAbsent(p, dsts) && dsts != []
    ensures Apart(dsts[0]) && Absent(p, dsts[0]) && Present(b, src)
    ensures var c, q := MsgBulkCp(b, dsts[0], src), MsgCp(p, dsts[0], src);
            && Ahead(c, q, src, |dsts| - 1) && Inv(q) && Present(q, src)
            && AllAbsent(q, dsts[1..]) && AllAbsent(c, dsts[1..])
  {
    StepStaysAhead(b, p, dsts[0], src, |dsts| - 1);
    MsgCpKeeps(p, dsts[0], src);
    StillAbsent(p, MsgCp(p, dsts[0], src), dsts);
    StillAbsent(b, MsgBulkCp(b, dsts[0], src), dsts);
    hide Inv;
  }
}
