/** Messages over whole runs: created, copied, moved, copied in bulk, dropped. */
module RefRuns {
  import opened Messages
  import opened RefCount

  /** What a new part holds: some bytes inline, or a chunk of its own. */
  datatype Part = Small(bytes: seq<byte>) | Large(c: ChunkId)

  /** The operations on whole messages. */
  datatype Op =
    | New(m: Parts, sphdr: Part, hdrs: Part, body: Part)
    | Copy(dst: Parts, src: Parts)
    | Move(dst: Parts, src: Parts)
    | Announce(m: Parts, n: nat)
    | BulkCopy(dst: Parts, src: Parts)
    | Drop(m: Parts)

  predicate FreshPart(s: Store, part: Part)
  {
    match part
    case Small(bytes) => |bytes| < 32
    case Large(c) => c !in s.count && c !in s.freed
  }

  /** Two parts in chunks are in different ones. */
  predicate Distinct(part: Part, other: Part)
  {
    part.Small? || part != other
  }

  function InitPart(s: Store, r: RefId, part: Part): Store
  {
    match part
    case Small(bytes) => InitInline(s, r, bytes)
    case Large(c) => InitHeap(s, r, c)
  }

  /** A target is unused memory, a source a live message; a bulk copy of a part
      in a chunk needs a reservation of that chunk. */
  predicate Enabled(s: Store, op: Op)
  {
    match op
    case New(m, sphdr, hdrs, body) =>
      && Apart(m) && Absent(s, m) && FreshPart(s, sphdr) && FreshPart(s, hdrs) && FreshPart(s, body)
      && Distinct(sphdr, hdrs) && Distinct(sphdr, body) && Distinct(hdrs, body)
    case Copy(dst, src) => Apart(dst) && Absent(s, dst) && Present(s, src)
    case Move(dst, src) => Apart(dst) && Absent(s, dst) && Apart(src) && Present(s, src)
    case Announce(m, n) => Present(s, m)
    case BulkCopy(dst, src) =>
      Apart(dst) && Absent(s, dst) && Present(s, src) && MsgCovered(s, dst, src)
    case Drop(m) => Apart(m) && Present(s, m)
  }

  function Apply(s: Store, op: Op): Store
    requires Enabled(s, op)
  {
    match op
    case New(m, sphdr, hdrs, body) =>
      InitPart(InitPart(InitPart(s, m.sphdr, sphdr), m.hdrs, hdrs), m.body, body)
    case Copy(dst, src) => MsgCp(s, dst, src)
    case Move(dst, src) => MsgMv(s, dst, src)
    case Announce(m, n) => MsgBulkStart(s, m, n)
    case BulkCopy(dst, src) => MsgBulkCp(s, dst, src)
    case Drop(m) => MsgTerm(s, m)
  }

  /** A run skips the operations that are not enabled. */
  function Run(s: Store, ops: seq<Op>): Store
    decreases |ops|
  {
    if ops == [] then s
    else if Enabled(s, ops[0]) then Run(Apply(s, ops[0]), ops[1..])
    else Run(s, ops[1..])
  }

  const EMPTY_STORE := Store(map[], map[], [], map[])

  lemma InlineKeeps(s: Store, r: RefId, bytes: seq<byte>)
    requires Inv(s) && r !in s.refs
    ensures Inv(InitInline(s, r, bytes))
  {
    var s2 := InitInline(s, r, bytes);
    HoldersSame(s, s2);
    forall c ensures Exact(s2, c) {
      assert Exact(s, c);
    }
  }

  lemma PartKeeps(s: Store, r: RefId, part: Part)
    requires Inv(s) && r !in s.refs && FreshPart(s, part)
    ensures Inv(InitPart(s, r, part))
  {
    hide Inv;
    match part
    case Small(bytes) => InlineKeeps(s, r, bytes);
    case Large(c) => InitKeeps(s, r, c);
  }

  lemma NewKeeps(s: Store, op: Op)
    requires Inv(s) && Enabled(s, op) && op.New?
    ensures Inv(Apply(s, op))
  {
    hide Inv;
    var s1 := InitPart(s, op.m.sphdr, op.sphdr);
    PartKeeps(s, op.m.sphdr, op.sphdr);
    PartKeeps(s1, op.m.hdrs, op.hdrs);
    PartKeeps(InitPart(s1, op.m.hdrs, op.hdrs), op.m.body, op.body);
  }

  lemma MsgBulkCpKeeps(s: Store, dst: Parts, src: Parts)
    requires Inv(s) && Enabled(s, BulkCopy(dst, src))
    ensures Inv(MsgBulkCp(s, dst, src))
  {
    hide Inv;
    BulkCpKeeps(s, dst.sphdr, src.sphdr);
    BulkCpKeeps(BulkCp(s, dst.sphdr, src.sphdr), dst.hdrs, src.hdrs);
    BulkCpKeeps(BulkCp(BulkCp(s, dst.sphdr, src.sphdr), dst.hdrs, src.hdrs), dst.body, src.body);
  }

  lemma OpKeeps(s: Store, op: Op)
    requires Inv(s) && Enabled(s, op)
    ensures Inv(Apply(s, op))
  {
    hide Inv;
    match op
    case New(_, _, _, _) => NewKeeps(s, op);
    case Copy(dst, src) => MsgCpKeeps(s, dst, src);
    case Move(dst, src) => MsgMvKeeps(s, dst, src);
    case Announce(m, n) => MsgBulkStartKeeps(s, m, n);
    case BulkCopy(dst, src) => MsgBulkCpKeeps(s, dst, src);
    case Drop(m) => MsgTermKeeps(s, m);
  }

  /** In every run the counters are exact and no chunk is freed twice. */
  lemma {:induction false} RunKeeps(s: Store, ops: seq<Op>)
    requires Inv(s)
    ensures Inv(Run(s, ops))
    decreases |ops|
  {
    hide Inv, Apply, Enabled;
    if ops != [] {
      if Enabled(s, ops[0]) {
        OpKeeps(s, ops[0]);
        RunKeeps(Apply(s, ops[0]), ops[1..]);
      } else {
        RunKeeps(s, ops[1..]);
      }
    }
  }

  /** Allocated now, or freed before. */
  predicate Known(s: Store, c: ChunkId)
  {
    c in s.count || c in s.freed
  }

  /** The references and counters a reference operation may touch. */
  ghost predicate Remembers(s: Store, s2: Store)
  {
    forall c :: Known(s, c) ==> Known(s2, c)
  }

  lemma TermRemembers(s: Store, r: RefId)
    requires r in s.refs
    ensures Remembers(s, Term(s, r))
  {
  }

  lemma CpRemembers(s: Store, dst: RefId, src: RefId)
    requires src in s.refs
    ensures Remembers(s, RefCount.Cp(s, dst, src))
  {
  }

  lemma BulkStartRemembers(s: Store, r: RefId, n: nat)
    requires r in s.refs
    ensures Remembers(s, BulkStart(s, r, n))
  {
  }

  lemma InitRemembers(s: Store, r: RefId, part: Part)
    ensures Remembers(s, InitPart(s, r, part))
  {
  }

  lemma OpNeverForgets(s: Store, op: Op, c: ChunkId)
    requires Enabled(s, op) && Known(s, c)
    ensures Known(Apply(s, op), c)
  {
    hide Term, RefCount.Cp, BulkStart, InitPart, FreshPart, Known;
    match op
    case New(m, sphdr, hdrs, body) =>
      var s1 := InitPart(s, m.sphdr, sphdr);
      InitRemembers(s, m.sphdr, sphdr);
      InitRemembers(s1, m.hdrs, hdrs);
      InitRemembers(InitPart(s1, m.hdrs, hdrs), m.body, body);
    case Drop(m) => DropRemembers(s, m);
    case Announce(m, n) => AnnounceRemembers(s, m, n);
    case Copy(dst, src) => CopyRemembers(s, dst, src);
    case _ => RestRemembers(s, op, c);
  }

  lemma DropRemembers(s: Store, m: Parts)
    requires Apart(m) && Present(s, m)
    ensures Remembers(s, MsgTerm(s, m))
  {
    TermRemembers(s, m.sphdr);
    TermRemembers(Term(s, m.sphdr), m.hdrs);
    TermRemembers(Term(Term(s, m.sphdr), m.hdrs), m.body);
    hide Known;
  }

  lemma AnnounceRemembers(s: Store, m: Parts, n: nat)
    requires Present(s, m)
    ensures Remembers(s, MsgBulkStart(s, m, n))
  {
    BulkStartRemembers(s, m.sphdr, n);
    BulkStartRemembers(BulkStart(s, m.sphdr, n), m.hdrs, n);
    BulkStartRemembers(BulkStart(BulkStart(s, m.sphdr, n), m.hdrs, n), m.body, n);
    hide Known;
  }

  lemma CopyRemembers(s: Store, dst: Parts, src: Parts)
    requires Apart(dst) && Absent(s, dst) && Present(s, src)
    ensures Remembers(s, MsgCp(s, dst, src))
  {
    CpRemembers(s, dst.sphdr, src.sphdr);
    CpRemembers(RefCount.Cp(s, dst.sphdr, src.sphdr), dst.hdrs, src.hdrs);
    CpRemembers(RefCount.Cp(RefCount.Cp(s, dst.sphdr, src.sphdr), dst.hdrs, src.hdrs), dst.body, src.body);
    hide Known;
  }

  lemma RestRemembers(s: Store, op: Op, c: ChunkId)
    requires Enabled(s, op) && Known(s, c) && (op.Move? || op.BulkCopy?)
    ensures Known(Apply(s, op), c)
  {
  }

  lemma {:induction false} RunNeverForgets(s: Store, ops: seq<Op>, c: ChunkId)
    requires Known(s, c)
    ensures Known(Run(s, ops), c)
    decreases |ops|
  {
    hide Apply, Enabled, Known;
    if ops != [] {
      if Enabled(s, ops[0]) {
        OpNeverForgets(s, ops[0], c);
        RunNeverForgets(Apply(s, ops[0]), ops[1..], c);
      } else {
        RunNeverForgets(s, ops[1..], c);
      }
    }
  }

  /** Whatever happens to a message after it was created, each of its chunks is freed once
      and for all exactly when nothing holds it and no copy is outstanding. */
  lemma FreedAtLastRelease(before: seq<Op>, op: Op, c: ChunkId, after: seq<Op>)
    requires op.New? && Large(c) in [op.sphdr, op.hdrs, op.body] && Enabled(Run(EMPTY_STORE, before), op)
    ensures var s := Run(Apply(Run(EMPTY_STORE, before), op), after);
            && (c in s.freed <==> Holders(s, c) == {} && Reserved(s, c) == 0)
            && (c in s.freed <==> c !in s.count)
            && (forall i, j | 0 <= i < j < |s.freed| :: s.freed[i] != s.freed[j])
  {
    hide Run, Enabled, Apply;
    EmptyIsGood();
    var s0 := Run(EMPTY_STORE, before);
    RunKeeps(EMPTY_STORE, before);
    OpKeeps(s0, op);
    var s1 := Apply(s0, op);
    assert c in s1.count by { CreatedIs(s0, op, c); }
    RunKeeps(s1, after);
    RunNeverForgets(s1, after, c);
    assert Exact(Run(s1, after), c);
  }

  lemma EmptyIsGood()
    ensures Inv(EMPTY_STORE)
  {
    forall d ensures Exact(EMPTY_STORE, d) {
      assert Holders(EMPTY_STORE, d) == {};
    }
  }

  lemma CreatedIs(s: Store, op: Op, c: ChunkId)
    requires op.New? && Large(c) in [op.sphdr, op.hdrs, op.body] && Enabled(s, op)
    ensures c in Apply(s, op).count
  {
  }
}
