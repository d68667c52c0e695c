/** Message memory in place: live references over reference-counted chunks.  Each
    operation does to the bytes, pointers and counters what its value in RefCount
    says, keeps the contents of every other reference, and leaves no reference to a
    chunk that was freed. */
module MessageMemory {
  import opened Messages
  import opened Chunks
  import opened Wire
  import R = RefCount

  // ---------- what the memory shows ----------

  /** A reference as its bytes read: inline, a pointer into a chunk, or neither. */
  datatype Image = In(bytes: seq<byte>) | Out(chunk: int, p: int) | Garbage

  datatype Block = Block(mem: seq<byte>, size: int, count: int)

  datatype Picture = Picture(
    images: map<int, Image>, blocks: map<int, Block>, freed: seq<int>, reserved: map<int, nat>)

  /** Every reference is inline or leads back to an allocated chunk. */
  ghost predicate Sound(v: Picture)
  {
    forall r | r in v.images :: match v.images[r]
      case In(_) => true
      case Out(c, p) => c in v.blocks && Leads(v.blocks[c].mem, p, v.blocks[c].size)
      case Garbage => false
  }

  function Content(v: Picture, r: int): seq<byte>
    requires r in v.images
  {
    match v.images[r]
    case In(bytes) => bytes
    case Out(c, p) =>
      if c in v.blocks && Leads(v.blocks[c].mem, p, v.blocks[c].size)
      then Data(v.blocks[c].mem, p, v.blocks[c].size) else []
    case Garbage => []
  }

  function RefOf(i: Image): R.Ref
  {
    match i
    case In(bytes) => R.Inline(bytes)
    case Out(c, _) => R.Heap(c)
    case Garbage => R.Inline([])
  }

  /** The counting that the picture shows. */
  ghost function StoreOf(v: Picture): R.Store
  {
    R.Store(map r | r in v.images :: RefOf(v.images[r]), map c | c in v.blocks :: v.blocks[c].count,
            v.freed, v.reserved)
  }

  ghost predicate Good(v: Picture)
  {
    Sound(v) && R.Inv(StoreOf(v))
  }

  // ---------- the operations, as they change the picture ----------

  function Counted(v: Picture, c: int, n: int): Picture
    requires c in v.blocks
  {
    v.(blocks := v.blocks[c := v.blocks[c].(count := v.blocks[c].count + n)])
  }

  lemma CountedShows(v: Picture, w: Picture, c: int)
    requires c in v.blocks && w.images.Keys == v.images.Keys && w.blocks.Keys == v.blocks.Keys
    requires forall r | r in v.images :: w.images[r] == v.images[r]
    requires forall d | d in v.blocks && d != c :: w.blocks[d] == v.blocks[d]
    requires w.blocks[c] == v.blocks[c].(count := v.blocks[c].count - 1)
    requires w.freed == v.freed && w.reserved == v.reserved
    ensures w == Counted(v, c, -1)
  {
    SameMap(w.images, v.images);
    SameMap(w.blocks, Counted(v, c, -1).blocks);
    assert w == Picture(v.images, Counted(v, c, -1).blocks, v.freed, v.reserved);
  }

  lemma SameMap<V>(m: map<int, V>, n: map<int, V>)
    requires m.Keys == n.Keys && forall k | k in m :: m[k] == n[k]
    ensures m == n
  {
    forall k | k in m ensures k in n && m[k] == n[k] {
      assert k in m.Keys;
    }
    forall k | k in n ensures k in m {
      assert k in n.Keys;
    }
  }

  lemma CountedIs(v: Picture, c: int, n: int)
    requires c in v.blocks
    ensures var w := Counted(v, c, n);
            && StoreOf(w) == StoreOf(v).(count := StoreOf(v).count[c := v.blocks[c].count + n])
            && (Sound(v) ==> Sound(w)) && forall r | r in v.images :: Content(w, r) == Content(v, r)
  {
  }

  /** A reference more, a reference of the same kind as one at hand. */
  lemma Copied(v: Picture, d: int, s: int)
    requires s in v.images && d !in v.images
    ensures var w := v.(images := v.images[d := v.images[s]]);
            && StoreOf(w) == StoreOf(v).(refs := StoreOf(v).refs[d := StoreOf(v).refs[s]])
            && (Sound(v) ==> Sound(w)) && Content(w, d) == Content(v, s)
            && forall r | r in v.images :: Content(w, r) == Content(v, r)
  {
  }

  lemma SoundAt(v: Picture, r: int)
    requires Good(v) && r in v.images
    ensures v.images[r] != Garbage && (v.images[r].Out? ==> v.images[r].chunk in v.blocks)
  {
  }

  /** A copy: the counter first, then the reference. */
  function CpPic(v: Picture, d: int, s: int): Picture
    requires s in v.images && (v.images[s].Out? ==> v.images[s].chunk in v.blocks)
  {
    var v1 := if v.images[s].Out? then Counted(v, v.images[s].chunk, 1) else v;
    v1.(images := v1.images[d := v1.images[s]])
  }

  lemma CpIs(v: Picture, d: int, s: int)
    requires s in v.images && d !in v.images && (v.images[s].Out? ==> v.images[s].chunk in v.blocks)
    ensures var w := CpPic(v, d, s);
            && StoreOf(w) == R.Cp(StoreOf(v), d, s) && (Sound(v) ==> Sound(w))
            && Content(w, d) == Content(v, s) && forall r | r in v.images :: Content(w, r) == Content(v, r)
  {
    hide Content, Leads, Sound;
    if v.images[s].Out? {
      CountedIs(v, v.images[s].chunk, 1);
      Copied(Counted(v, v.images[s].chunk, 1), d, s);
    } else {
      Copied(v, d, s);
    }
  }

  lemma CpIsGood(v: Picture, d: int, s: int)
    requires Good(v) && s in v.images && d !in v.images
    ensures v.images[s] != Garbage && (v.images[s].Out? ==> v.images[s].chunk in v.blocks)
    ensures var w := CpPic(v, d, s);
            && Good(w) && StoreOf(w) == R.Cp(StoreOf(v), d, s) && Content(w, d) == Content(v, s)
            && forall r | r in v.images :: Content(w, r) == Content(v, r)
  {
    hide R.Inv, R.Cp, Content, Leads, Sound;
    SoundAt(v, s);
    CpIs(v, d, s);
    R.CpKeeps(StoreOf(v), d, s);
  }

  /** Dropping a reference; the block goes when its counter was at most 1. */
  function TermPic(v: Picture, r: int): Picture
    requires r in v.images && (v.images[r].Out? ==> v.images[r].chunk in v.blocks)
  {
    var v1 := v.(images := v.images - {r});
    if !v.images[r].Out? then v1
    else
      var c := v.images[r].chunk;
      if v.blocks[c].count <= 1 then v1.(blocks := v.blocks - {c}, freed := v.freed + [c])
      else Counted(v1, c, -1)
  }

  lemma TermStore(v: Picture, r: int)
    requires r in v.images && (v.images[r].Out? ==> v.images[r].chunk in v.blocks)
    ensures StoreOf(TermPic(v, r)) == R.Term(StoreOf(v), r)
  {
  }

  /** What is left still leads back: a block only goes with its last reference. */
  lemma TermIsGood(v: Picture, r: int)
    requires Good(v) && r in v.images
    ensures v.images[r] != Garbage && (v.images[r].Out? ==> v.images[r].chunk in v.blocks)
    ensures var w := TermPic(v, r);
            && Good(w) && StoreOf(w) == R.Term(StoreOf(v), r)
            && forall s | s in w.images :: Content(w, s) == Content(v, s)
  {
    TermStore(v, r);
    R.TermKeeps(StoreOf(v), r);
    var w := TermPic(v, r);
    hide R.Inv, R.Term, Leads;
    forall s | s in w.images && w.images[s].Out? ensures w.images[s].chunk in w.blocks {
      R.HeldIsAllocated(StoreOf(w), s);
    }
  }

  function MvPic(v: Picture, d: int, s: int): Picture
    requires s in v.images
  {
    v.(images := (v.images - {s})[d := v.images[s]])
  }

  lemma MvIsGood(v: Picture, d: int, s: int)
    requires Good(v) && s in v.images && d !in v.images
    ensures var w := MvPic(v, d, s);
            && Good(w) && StoreOf(w) == R.Mv(StoreOf(v), d, s) && Content(w, d) == Content(v, s)
            && forall r | r in v.images && r != s :: Content(w, r) == Content(v, r)
  {
    R.MvKeeps(StoreOf(v), d, s);
    hide R.Inv, Leads;
    assert StoreOf(MvPic(v, d, s)).refs == R.Mv(StoreOf(v), d, s).refs;
  }

  function BulkStartPic(v: Picture, r: int, n: nat): Picture
    requires r in v.images && (v.images[r].Out? ==> v.images[r].chunk in v.blocks)
  {
    if !v.images[r].Out? then v
    else
      var c := v.images[r].chunk;
      Counted(v, c, n).(reserved := Reservation(v, c, n))
  }

  /** The reservations with n more for a chunk. */
  function Reservation(v: Picture, c: int, n: nat): map<int, nat>
  {
    v.reserved[c := (if c in v.reserved then v.reserved[c] else 0) + n]
  }

  lemma BulkStartIsGood(v: Picture, r: int, n: nat)
    requires Good(v) && r in v.images
    ensures v.images[r] != Garbage && (v.images[r].Out? ==> v.images[r].chunk in v.blocks)
    ensures var w := BulkStartPic(v, r, n);
            && Good(w) && StoreOf(w) == R.BulkStart(StoreOf(v), r, n)
            && forall s | s in v.images :: Content(w, s) == Content(v, s)
  {
    SoundAt(v, r);
    BulkStartStore(v, r, n);
    BulkStartShows(v, r, n);
    R.BulkStartKeeps(StoreOf(v), r, n);
    hide R.Inv, R.BulkStart, Sound, StoreOf, Content, BulkStartPic;
  }

  lemma BulkStartStore(v: Picture, r: int, n: nat)
    requires r in v.images && (v.images[r].Out? ==> v.images[r].chunk in v.blocks)
    ensures StoreOf(BulkStartPic(v, r, n)) == R.BulkStart(StoreOf(v), r, n)
  {
    if v.images[r].Out? {
      CountedIs(v, v.images[r].chunk, n);
      hide Counted;
      ReservedStore(Counted(v, v.images[r].chunk, n), Reservation(v, v.images[r].chunk, n));
    }
  }

  lemma ReservedStore(v: Picture, reserved: map<int, nat>)
    ensures StoreOf(v.(reserved := reserved)) == StoreOf(v).(reserved := reserved)
  {
  }

  lemma BulkStartShows(v: Picture, r: int, n: nat)
    requires r in v.images && (v.images[r].Out? ==> v.images[r].chunk in v.blocks)
    ensures var w := BulkStartPic(v, r, n);
            (Sound(v) ==> Sound(w)) && forall s | s in v.images :: Content(w, s) == Content(v, s)
  {
    hide Leads;
  }

  /** A copy that takes one of the reservations of its block. */
  function BulkCpPic(v: Picture, d: int, s: int): Picture
    requires s in v.images
    requires v.images[s].Out? ==> v.images[s].chunk in v.reserved && v.reserved[v.images[s].chunk] > 0
  {
    var v1 := v.(images := v.images[d := v.images[s]]);
    if !v.images[s].Out? then v1
    else v1.(reserved := v.reserved[v.images[s].chunk := v.reserved[v.images[s].chunk] - 1])
  }

  lemma CoveredIs(v: Picture, s: int)
    requires s in v.images
    ensures R.Covered(StoreOf(v), s) <==>
              v.images[s].Out? ==> v.images[s].chunk in v.reserved && v.reserved[v.images[s].chunk] > 0
  {
  }

  lemma BulkCpIsGood(v: Picture, d: int, s: int)
    requires Good(v) && s in v.images && d !in v.images
    requires v.images[s].Out? ==> v.images[s].chunk in v.reserved && v.reserved[v.images[s].chunk] > 0
    ensures var w := BulkCpPic(v, d, s);
            && Good(w) && StoreOf(w) == R.BulkCp(StoreOf(v), d, s) && Content(w, d) == Content(v, s)
            && forall r | r in v.images :: Content(w, r) == Content(v, r)
  {
    R.BulkCpKeeps(StoreOf(v), d, s);
    hide R.Inv, Leads;
    Copied(v, d, s);
  }

  /** The only reference to a block. */
  lemma OnlyReference(v: Picture, r: int)
    requires Good(v) && r in v.images && v.images[r].Out?
    ensures v.images[r].chunk in v.blocks
    ensures v.blocks[v.images[r].chunk].count == 1 ==>
              forall s | s in v.images && s != r && v.images[s].Out? :: v.images[s].chunk != v.images[r].chunk
  {
    var st, c := StoreOf(v), v.images[r].chunk;
    R.HeldIsAllocated(st, r);
    assert R.Exact(st, c) && r in R.Holders(st, c);
    if v.blocks[c].count == 1 {
      R.OnlyOne(R.Holders(st, c), r);
      forall s | s in v.images && s != r && v.images[s].Out? ensures v.images[s].chunk != c {
        assert s !in R.Holders(st, c);
      }
    }
  }

  /** An inline reference, new or with other bytes. */
  lemma Rewritten(v: Picture, r: int, bytes: seq<byte>)
    requires Good(v) && (r in v.images ==> v.images[r].In?)
    ensures var w := v.(images := v.images[r := In(bytes)]);
            && Good(w) && StoreOf(w) == R.InitInline(StoreOf(v), r, bytes) && Content(w, r) == bytes
            && forall s | s in v.images && s != r :: Content(w, s) == Content(v, s)
  {
    var w := v.(images := v.images[r := In(bytes)]);
    assert StoreOf(w).refs == StoreOf(v).refs[r := R.Inline(bytes)];
    R.SameKeeps(StoreOf(v), StoreOf(w));
    hide R.Inv, Leads;
  }

  /** Another reference to the block that r refers to. */
  predicate Shares(v: Picture, r: int, s: int)
    requires r in v.images
  {
    s in v.images && s != r && v.images[r].Out? && v.images[s].Out? && v.images[s].chunk == v.images[r].chunk
  }

  /** A trim by n through r does not fail. */
  predicate Trimmable(v: Picture, r: int, n: nat)
    requires r in v.images && v.images[r].Out?
  {
    var p := v.images[r].p;
    && v.images[r].chunk in v.blocks
    && n <= v.blocks[v.images[r].chunk].size && p + n - HEADER < UINT32_MAX
    && HEADER <= p && p + n <= |v.blocks[v.images[r].chunk].mem|
  }

  /** The picture after it. */
  function TrimPic(v: Picture, r: int, n: nat): Picture
    requires r in v.images && v.images[r].Out? && Trimmable(v, r, n)
  {
    var c, b, q := v.images[r].chunk, v.blocks[v.images[r].chunk], v.images[r].p + n;
    v.(images := v.images[r := Out(c, q)], blocks := v.blocks[c := Block(WithHeader(b.mem, q), b.size - n, b.count)])
  }

  lemma TrimShows(v: Picture, w: Picture, r: int, n: nat)
    requires r in v.images && v.images[r].Out? && Trimmable(v, r, n)
    requires w.images.Keys == v.images.Keys && w.blocks.Keys == v.blocks.Keys
    requires forall s | s in v.images && s != r :: w.images[s] == v.images[s]
    requires forall c | c in v.blocks && c != v.images[r].chunk :: w.blocks[c] == v.blocks[c]
    requires w.images[r] == TrimPic(v, r, n).images[r] && w.freed == v.freed && w.reserved == v.reserved
    requires w.blocks[v.images[r].chunk] == TrimPic(v, r, n).blocks[v.images[r].chunk]
    ensures w == TrimPic(v, r, n)
  {
    hide WithHeader;
    assert w.images == TrimPic(v, r, n).images;
    assert w.blocks == TrimPic(v, r, n).blocks;
  }

  lemma TrimCounts(v: Picture, r: int, n: nat)
    requires r in v.images && v.images[r].Out? && Trimmable(v, r, n)
    ensures StoreOf(TrimPic(v, r, n)) == StoreOf(v)
  {
    hide WithHeader;
    var w := TrimPic(v, r, n);
    assert StoreOf(w).refs == StoreOf(v).refs;
    assert StoreOf(w).count == StoreOf(v).count;
  }

  /** References to one block point to the same place. */
  lemma SamePlace(v: Picture, r: int, s: int)
    requires Sound(v) && r in v.images && Shares(v, r, s)
    ensures v.images[s] == v.images[r]
  {
    hide Tagged, Base;
  }

  lemma SoundBlock(v: Picture, r: int)
    requires Sound(v) && r in v.images && v.images[r].Out?
    ensures v.images[r].chunk in v.blocks
    ensures var b := v.blocks[v.images[r].chunk]; Leads(b.mem, v.images[r].p, b.size)
  {
  }

  lemma Ends(mem: seq<byte>, p: int, size: int)
    ensures Leads(mem, p, size) ==> HEADER <= p && 0 <= size && p + size == |mem| && LeadsBack(mem, p)
  {
  }

  /** What the block itself is after a trim: the way back from its new place, the contents
      with n bytes dropped, and whether the way back from the old place is left. */
  lemma TrimmedBlock(mem: seq<byte>, p: int, size: int, n: nat)
    requires Leads(mem, p, size) && n <= size && p + n - HEADER < UINT32_MAX
    ensures HEADER <= p && p + n <= |mem|
    ensures Leads(WithHeader(mem, p + n), p + n, size - n)
    ensures Data(WithHeader(mem, p + n), p + n, size - n) == Data(mem, p, size)[n..]
    ensures LeadsBack(WithHeader(mem, p + n), p) <==> Compatible(p + n, p)
    ensures Leads(WithHeader(mem, p + n), p, size - n) <==> n == 0
  {
    hide Leads, Data, WithHeader, Compatible, LeadsBack, TrimBytes;
    Ends(mem, p, size);
    TrimOne(mem, p, size, n);
    OtherHolder(mem, p + n, p);
    var m := WithHeader(mem, p + n);
    Ends(m, p, size - n);
    Ends(m, p + n, size - n);
  }

  /** A trim leaves the others alone that have other blocks; the memory stays sound exactly
      if nothing is cut off or nobody shares the block. */
  lemma TrimIs(v: Picture, r: int, n: nat)
    requires Good(v) && r in v.images && v.images[r].Out? && Trimmable(v, r, n)
    ensures var w := TrimPic(v, r, n);
            && StoreOf(w) == StoreOf(v) && Content(w, r) == Content(v, r)[n..]
            && (Good(w) <==> n == 0 || forall s :: !Shares(v, r, s))
            && (LeadsBack(w.blocks[v.images[r].chunk].mem, v.images[r].p) <==>
                  Compatible(v.images[r].p + n, v.images[r].p))
            && (forall s | s in v.images && s != r && !Shares(v, r, s) :: Content(w, s) == Content(v, s))
            && forall s | Shares(v, r, s) :: s in w.images && w.images[s] == v.images[s]
  {
    hide R.Inv, Leads, Data, StoreOf, LeadsBack, Compatible, WithHeader;
    SoundBlock(v, r);
    var i, c := v.images[r], v.images[r].chunk;
    TrimmedBlock(v.blocks[c].mem, i.p, v.blocks[c].size, n);
    TrimCounts(v, r, n);
    TrimSound(v, r, n);
  }

  lemma TrimSound(v: Picture, r: int, n: nat)
    requires Sound(v) && r in v.images && v.images[r].Out? && Trimmable(v, r, n)
    ensures Sound(TrimPic(v, r, n)) <==> n == 0 || forall s :: !Shares(v, r, s)
  {
    hide Leads, WithHeader;
    SoundBlock(v, r);
    var i, c, w := v.images[r], v.images[r].chunk, TrimPic(v, r, n);
    TrimmedBlock(v.blocks[c].mem, i.p, v.blocks[c].size, n);
    forall s | Shares(v, r, s) ensures w.images[s] == i {
      SamePlace(v, r, s);
    }
    forall s | s in v.images && s != r && !Shares(v, r, s) && v.images[s].Out?
      ensures w.images[s] == v.images[s] && v.images[s].chunk != c
    {
    }
  }

  lemma ContentLength(v: Picture, r: int)
    requires Good(v) && r in v.images
    ensures v.images[r].In? ==> Content(v, r) == v.images[r].bytes && forall s :: !Shares(v, r, s)
  {
  }

  lemma CountsGood(v: Picture)
    requires Good(v)
    ensures R.Inv(StoreOf(v))
  {
  }

  /** A reference to a block of its own. */
  lemma NewBlock(v: Picture, r: int, c: int, p: int, b: Block)
    requires Good(v) && r !in v.images && c !in v.blocks && c !in v.freed
    requires b.count == 1 && Leads(b.mem, p, b.size)
    ensures var w := v.(images := v.images[r := Out(c, p)], blocks := v.blocks[c := b]);
            && Good(w) && StoreOf(w) == R.InitHeap(StoreOf(v), r, c) && Content(w, r) == Data(b.mem, p, b.size)
            && forall s | s in v.images :: Content(w, s) == Content(v, s)
  {
    hide R.Inv, Leads, Data;
    R.InitKeeps(StoreOf(v), r, c);
    var w := v.(images := v.images[r := Out(c, p)], blocks := v.blocks[c := b]);
    assert StoreOf(w).refs == R.InitHeap(StoreOf(v), r, c).refs;
    assert StoreOf(w).count == R.InitHeap(StoreOf(v), r, c).count;
  }

  class Memory {
    /** The live references and the allocated chunks. */
    ghost var Refs: map<int, ChunkRef>
    ghost var Heap: map<int, Chunk>
    ghost var Freed: seq<int>
    ghost var Reserved: map<int, nat>

    ghost function Foot(): set<object>
      reads this
    {
      (set r | r in Refs :: Refs[r] as object) + (set r | r in Refs :: Refs[r].ref as object)
      + (set c | c in Heap :: Heap[c] as object) + (set c | c in Heap :: Heap[c].mem as object)
    }

    ghost function ImageOf(x: ChunkRef): Image
      reads x, x.ref
    {
      if x.ref.Length != REF_MAX then Garbage
      else if x.ref[0] == 0xff then if x.chunk != null then Out(x.chunk.Id, x.p) else Garbage
      else if x.ref[0] < 32 then In(x.ref[1..1 + x.ref[0] as int])
      else Garbage
    }

    ghost function BlockOf(b: Chunk): Block
      reads b, b.mem
    {
      Block(b.mem[..], b.size, b.refcount)
    }

    ghost function Pic(): Picture
      reads this, Foot()
    {
      Picture(map r | r in Refs :: ImageOf(Refs[r]), map c | c in Heap :: BlockOf(Heap[c]), Freed, Reserved)
    }

    /** The counting, and the bytes behind a reference. */
    ghost function Counting(): (s: R.Store)
      reads this, Foot()
      ensures s.refs.Keys == Refs.Keys
    {
      StoreOf(Pic())
    }

    ghost function Held(r: int): seq<byte>
      requires r in Refs
      reads this, Foot()
    {
      Content(Pic(), r)
    }

    /** Nothing shares its place with anything else, and pointers stay in the memory. */
    ghost predicate Linked()
      reads this, Foot()
    {
      && (forall r, s | r in Refs && s in Refs && r != s :: Refs[r] != Refs[s] && Refs[r].ref != Refs[s].ref)
      && (forall c | c in Heap :: Heap[c].Id == c && !Heap[c].Freed)
      && (forall c, d | c in Heap && d in Heap && c != d :: Heap[c].mem != Heap[d].mem)
      && (forall r, c | r in Refs && c in Heap :: Refs[r].ref != Heap[c].mem)
      && (forall r | r in Refs && Refs[r].ref.Length == REF_MAX && Refs[r].ref[0] == 0xff && Refs[r].chunk != null ::
            Refs[r].chunk.Id in Heap && Heap[Refs[r].chunk.Id] == Refs[r].chunk)
    }

    ghost predicate Valid()
      reads this, Foot()
    {
      Linked() && Good(Pic())
    }

    /** Memory for a reference that holds none yet. */
    ghost predicate Unused(x: ChunkRef)
      reads this
    {
      && x.ref.Length == REF_MAX
      && (forall r | r in Refs :: Refs[r] != x && Refs[r].ref != x.ref)
      && (forall c | c in Heap :: Heap[c].mem != x.ref)
    }

    constructor ()
      ensures Valid() && Refs == map[] && Heap == map[] && Counting() == R.Store(map[], map[], [], map[])
    {
      Refs, Heap, Freed, Reserved := map[], map[], [], map[];
      new;
      assert StoreOf(Pic()) == R.Store(map[], map[], [], map[]);
      forall c ensures R.Exact(StoreOf(Pic()), c) {
        assert R.Holders(StoreOf(Pic()), c) == {};
      }
    }

    lemma SameImage(x: ChunkRef, y: ChunkRef)
      requires x.ref.Length == y.ref.Length == REF_MAX && x.ref[..] == y.ref[..] && x.chunk == y.chunk && x.p == y.p
      ensures ImageOf(x) == ImageOf(y)
    {
      assert x.ref[0] == x.ref[..][0] && y.ref[0] == y.ref[..][0];
      if x.ref[0] < 32 {
        assert x.ref[1..1 + x.ref[0] as int] == x.ref[..][1..1 + x.ref[0] as int];
        assert y.ref[1..1 + y.ref[0] as int] == y.ref[..][1..1 + y.ref[0] as int];
      }
    }

    /** A reference at hand is what the picture shows of it. */
    lemma KindOf(s: int, x: ChunkRef)
      requires Valid() && s in Refs && Refs[s] == x
      ensures x.ref.Length == REF_MAX
      ensures Pic().images[s] == if x.ref[0] == 0xff && x.chunk != null then Out(x.chunk.Id, x.p)
                                 else if x.ref[0] < 32 then In(x.ref[1..1 + x.ref[0] as int]) else Garbage
      ensures if x.ref[0] == 0xff then x.chunk != null && x.chunk.Id in Heap && Heap[x.chunk.Id] == x.chunk
              else x.ref[0] < 32
      ensures x.ref[0] == 0xff ==>
                && x.chunk.Valid(x.p)
                && x.chunk.Id in Pic().blocks && Pic().blocks[x.chunk.Id] == BlockOf(x.chunk)
      ensures Linked() && Good(Pic()) && Pic().images.Keys == Refs.Keys && Pic().images[s] == ImageOf(x)
      ensures Pic().reserved == Reserved && x.Valid() && Held(s) == x.Contents()
    {
      hide Leads;
      assert Pic().images[s] == ImageOf(x);
      if x.ref[0] == 0xff {
        assert R.Exact(StoreOf(Pic()), x.chunk.Id);
      }
    }

    /** Raising a counter. */
    method Count(b: Chunk, n: nat)
      requires Linked() && b.Id in Heap && Heap[b.Id] == b && b.refcount >= 1
      modifies b`refcount
      ensures Linked() && Pic() == Counted(old(Pic()), b.Id, n)
    {
      hide Foot;
      b.AddRef(n);
      assert Pic().images == old(Pic()).images;
      assert forall c | c in Heap && c != b.Id :: BlockOf(Heap[c]) == old(BlockOf(Heap[c]));
      assert Pic().blocks == Counted(old(Pic()), b.Id, n).blocks;
    }

    /** Where a reference points to, if anywhere. */
    ghost predicate PointsInside(x: ChunkRef)
      reads this`Heap, x, x.ref
    {
      x.ref.Length == REF_MAX && x.ref[0] == 0xff && x.chunk != null ==>
        x.chunk.Id in Heap && Heap[x.chunk.Id] == x.chunk
    }

    /** Unused memory becomes a live reference. */
    ghost method Enter(d: int, x: ChunkRef)
      requires Linked() && d !in Refs && Unused(x) && PointsInside(x)
      modifies this`Refs
      ensures Linked() && Refs == old(Refs)[d := x]
      ensures Pic() == old(Pic()).(images := old(Pic()).images[d := ImageOf(x)])
    {
      hide Foot, ImageOf, BlockOf;
      Refs := Refs[d := x];
      assert Pic().images == old(Pic()).images[d := ImageOf(x)];
      assert Pic().blocks == old(Pic()).blocks;
    }

    /** The copy of a whole structure into unused memory. */
    method Fill(dst: ChunkRef, src: ChunkRef)
      requires Linked() && Unused(dst) && dst != src && dst.ref != src.ref && src.ref.Length == REF_MAX
      modifies dst, dst.ref
      ensures Linked() && Pic() == old(Pic()) && ImageOf(dst) == ImageOf(src) == old(ImageOf(src))
      ensures PointsInside(dst) == PointsInside(src) == old(PointsInside(src))
    {
      hide Foot;
      dst.CopyFrom(src);
      SameImage(dst, src);
      assert dst.ref[0] == dst.ref[..][0] && src.ref[0] == src.ref[..][0];
      hide ImageOf, BlockOf;
      assert forall r | r in Refs :: ImageOf(Refs[r]) == old(ImageOf(Refs[r]));
      assert Pic().images == old(Pic()).images;
      assert forall c | c in Heap :: BlockOf(Heap[c]) == old(BlockOf(Heap[c]));
      assert Pic().blocks == old(Pic()).blocks;
    }

    /** The copy of a whole structure into unused memory, which it makes a reference. */
    method Join(ghost d: int, dst: ChunkRef, ghost s: int, src: ChunkRef)
      requires Linked() && s in Refs && Refs[s] == src && src.ref.Length == REF_MAX && d !in Refs && Unused(dst)
      modifies this`Refs, dst, dst.ref
      ensures Linked() && Refs == old(Refs)[d := dst]
      ensures Pic() == old(Pic()).(images := old(Pic()).images[d := old(Pic()).images[s]])
    {
      assert PointsInside(src);
      assert Pic().images[s] == ImageOf(src);
      hide Foot, ImageOf, BlockOf, Linked, PointsInside, Pic;
      Fill(dst, src);
      Enter(d, dst);
    }

    method Cp(ghost d: int, dst: ChunkRef, ghost s: int, src: ChunkRef)
      requires Valid() && s in Refs && Refs[s] == src && d !in Refs && Unused(dst)
      modifies this`Refs, dst, dst.ref, src.Target()
      ensures Valid() && Refs == old(Refs)[d := dst] && Heap == old(Heap)
      ensures Counting() == R.Cp(old(Counting()), d, s)
      ensures Held(d) == old(Held(s))
      ensures forall r | r in old(Refs) :: Held(r) == old(Held(r))
    {
      hide Good, Sound, Content, Foot, Pic, Linked, StoreOf, ImageOf, Leads, R.Cp;
      ghost var v := Pic();
      KindOf(s, src);
      CpIsGood(v, d, s);
      if src.ref[0] == 0xff {
        Count(src.chunk, 1);
      }
      Join(d, dst, s, src);
    }

    ghost method Reserve(c: int, n: nat)
      requires Linked()
      modifies this`Reserved
      ensures Linked() && Pic() == old(Pic()).(reserved := old(Pic()).reserved[c := n])
    {
      hide Foot;
      Reserved := Reserved[c := n];
    }

    /** A chunk that is new to the memory. */
    ghost method Adopt(b: Chunk)
      requires Linked() && b.Id !in Heap && !b.Freed
      requires forall c | c in Heap :: Heap[c].mem != b.mem
      requires forall r | r in Refs :: Refs[r].ref != b.mem
      modifies this`Heap
      ensures Linked() && Heap == old(Heap)[b.Id := b]
      ensures Pic() == old(Pic()).(blocks := old(Pic()).blocks[b.Id := BlockOf(b)])
    {
      hide Foot, BlockOf, ImageOf;
      Heap := Heap[b.Id := b];
      assert Pic().blocks == old(Pic()).blocks[b.Id := BlockOf(b)];
    }

    method BulkCp(ghost d: int, dst: ChunkRef, ghost s: int, src: ChunkRef)
      requires Valid() && s in Refs && Refs[s] == src && d !in Refs && Unused(dst)
      requires R.Covered(Counting(), s)
      modifies this`Refs, this`Reserved, dst, dst.ref
      ensures Valid() && Refs == old(Refs)[d := dst] && Heap == old(Heap)
      ensures Counting() == R.BulkCp(old(Counting()), d, s)
      ensures Held(d) == old(Held(s))
      ensures forall r | r in old(Refs) :: Held(r) == old(Held(r))
    {
      hide Good, Sound, Content, Foot, Linked, StoreOf, ImageOf, Pic, Leads, R.BulkCp;
      ghost var v := Pic();
      KindOf(s, src);
      CoveredIs(v, s);
      BulkCpIsGood(v, d, s);
      Join(d, dst, s, src);
      if v.images[s].Out? {
        Reserve(v.images[s].chunk, v.reserved[v.images[s].chunk] - 1);
      }
    }

    /** nn_chunkref_init on new memory. */
    method Init(ghost r: int, size: nat, ghost c: int) returns (x: ChunkRef)
      requires Valid() && r !in Refs && c !in Heap && c !in Freed
      modifies this
      ensures Valid() && fresh(x) && Refs == old(Refs)[r := x]
      ensures Counting() == if size >= REF_MAX then R.InitHeap(old(Counting()), r, c)
                                else R.InitInline(old(Counting()), r, Held(r))
      ensures |Held(r)| == size
      ensures forall s | s in old(Refs) :: Held(s) == old(Held(s))
    {
      hide Good, Foot, Sound, Content, StoreOf, Leads, Linked, ImageOf, Pic, BlockOf, Data;
      ghost var v := Pic();
      KeysOf();
      x := Create(size, c);
      if size >= REF_MAX {
        NewBlock(v, r, c, x.p, BlockOf(x.chunk));
        BlockLength(BlockOf(x.chunk), x.p);
        Adopt(x.chunk);
      } else {
        Rewritten(v, r, ImageOf(x).bytes);
      }
      Enter(r, x);
    }

    lemma KeysOf()
      ensures Pic().images.Keys == Refs.Keys && Pic().blocks.Keys == Heap.Keys && Pic().freed == Freed
    {
    }

    lemma BlockLength(b: Block, p: int)
      requires Leads(b.mem, p, b.size)
      ensures |Data(b.mem, p, b.size)| == b.size
    {
    }

    /** The new structure, which is in nobody's way. */
    method Create(size: nat, ghost c: int) returns (x: ChunkRef)
      requires Linked()
      ensures fresh(x) && fresh(x.ref) && Linked() && Pic() == old(Pic()) && Unused(x)
      ensures size < REF_MAX ==> ImageOf(x).In? && |ImageOf(x).bytes| == size && PointsInside(x)
      ensures size >= REF_MAX ==>
                && x.ref[0] == 0xff && x.ref.Length == REF_MAX && x.chunk != null
                && fresh(x.chunk) && fresh(x.chunk.mem)
                && x.chunk.Id == c && !x.chunk.Freed && ImageOf(x) == Out(c, x.p) && x.chunk.mem != x.ref
                && BlockOf(x.chunk).count == 1 && BlockOf(x.chunk).size == size
                && Leads(BlockOf(x.chunk).mem, x.p, BlockOf(x.chunk).size)
    {
      hide Good, Foot, Sound, Content, StoreOf, Leads;
      x := new ChunkRef(size, c);
      if size >= REF_MAX {
        x.SizeOfData();
      }
    }

    /** A reference is given up. */
    ghost method Leave(r: int)
      requires Linked() && r in Refs
      modifies this`Refs
      ensures Linked() && Refs == old(Refs) - {r}
      ensures Pic() == old(Pic()).(images := old(Pic()).images - {r})
    {
      hide Foot, BlockOf, ImageOf;
      Refs := Refs - {r};
      assert Pic().images == old(Pic()).images - {r};
      assert Pic().blocks == old(Pic()).blocks;
    }

    /** The form at hand moves; the source is no reference any more. */
    method Mv(ghost d: int, dst: ChunkRef, ghost s: int, src: ChunkRef)
      requires Valid() && s in Refs && Refs[s] == src && d !in Refs && Unused(dst)
      modifies this`Refs, dst, dst.ref
      ensures Valid() && Refs == (old(Refs) - {s})[d := dst] && Heap == old(Heap)
      ensures Counting() == R.Mv(old(Counting()), d, s)
      ensures Held(d) == old(Held(s))
      ensures forall r | r in old(Refs) && r != s :: Held(r) == old(Held(r))
    {
      hide Good, Sound, Content, Foot, StoreOf, Pic, Linked, R.Mv, ImageOf, PointsInside;
      ghost var v := Pic();
      KindOf(s, src);
      MvIsGood(v, d, s);
      MoveBytes(dst, s, src);
      Leave(s);
      Enter(d, dst);
    }

    /** The copy of what the form at hand needs. */
    method MoveBytes(dst: ChunkRef, ghost s: int, src: ChunkRef)
      requires Linked() && Unused(dst) && s in Refs && Refs[s] == src && ImageOf(src) != Garbage
      modifies dst, dst.ref
      ensures Linked() && Pic() == old(Pic()) && ImageOf(dst) == old(Pic()).images[s] && PointsInside(dst)
    {
      hide Foot;
      dst.MoveFrom(src);
      assert ImageOf(dst) == old(ImageOf(src)) && PointsInside(dst);
      hide ImageOf, BlockOf;
      assert forall r | r in Refs :: ImageOf(Refs[r]) == old(ImageOf(Refs[r]));
      assert Pic().images == old(Pic()).images;
      assert forall c | c in Heap :: BlockOf(Heap[c]) == old(BlockOf(Heap[c]));
      assert Pic().blocks == old(Pic()).blocks;
    }

    /** Raising a counter for copies to come. */
    method Announce(b: Chunk, n: nat)
      requires Linked() && b.Id in Heap && Heap[b.Id] == b && b.refcount >= 1
      modifies this`Reserved, b`refcount
      ensures Linked()
      ensures Pic() == Counted(old(Pic()), b.Id, n).(reserved := Reservation(old(Pic()), b.Id, n))
    {
      hide Foot, Linked;
      ghost var v := Pic();
      Count(b, n);
      Reserve(b.Id, Reservation(v, b.Id, n)[b.Id]);
    }

    method BulkStart(ghost r: int, x: ChunkRef, n: nat)
      requires Valid() && r in Refs && Refs[r] == x
      modifies this`Reserved, x.Target()
      ensures Valid() && Refs == old(Refs) && Heap == old(Heap)
      ensures Counting() == R.BulkStart(old(Counting()), r, n)
      ensures forall s | s in Refs :: Held(s) == old(Held(s))
    {
      hide Good, Sound, Content, Foot, Linked, StoreOf, ImageOf, Pic, Counted, Reservation, R.BulkStart, Leads;
      ghost var v := Pic();
      KindOf(r, x);
      BulkStartIsGood(v, r, n);
      if x.ref[0] == 0xff {
        Announce(x.chunk, n);
      }
    }

    /** A chunk that nothing points to leaves the memory. */
    ghost method Retire(b: Chunk)
      requires Linked() && b.Id in Heap && Heap[b.Id] == b
      requires forall r | r in Pic().images && Pic().images[r].Out? :: Pic().images[r].chunk != b.Id
      modifies this`Heap, this`Freed
      ensures Linked() && Outside(b)
      ensures Pic() == old(Pic()).(blocks := old(Pic()).blocks - {b.Id}, freed := old(Pic()).freed + [b.Id])
    {
      PointedElsewhere(b);
      hide Foot, BlockOf, ImageOf;
      ghost var v := Pic();
      assert forall c | c in Heap && c != b.Id :: Heap[c] != b && Heap[c].mem != b.mem;
      Heap, Freed := Heap - {b.Id}, Freed + [b.Id];
      SameMap(Pic().blocks, v.blocks - {b.Id});
      SameMap(Pic().images, v.images);
    }

    lemma PointedElsewhere(b: Chunk)
      requires forall r | r in Pic().images && Pic().images[r].Out? :: Pic().images[r].chunk != b.Id
      ensures forall r | r in Refs && Refs[r].ref.Length == REF_MAX && Refs[r].ref[0] == 0xff ::
                Refs[r].chunk != null ==> Refs[r].chunk.Id != b.Id
    {
      hide Foot, BlockOf;
      forall r | r in Refs && Refs[r].ref.Length == REF_MAX && Refs[r].ref[0] == 0xff && Refs[r].chunk != null
        ensures Refs[r].chunk.Id != b.Id
      {
        assert Pic().images[r] == ImageOf(Refs[r]);
      }
    }

    ghost predicate Outside(b: Chunk)
      reads this
    {
      (forall c | c in Heap :: Heap[c] != b && Heap[c].mem != b.mem) && forall r | r in Refs :: Refs[r].ref != b.mem
    }

    /** The drop of a shared chunk, or of one that left the memory. */
    method Unref(b: Chunk, p: int)
      requires Linked() && b.Valid(p)
      requires if b.refcount > 1 then b.Id in Heap && Heap[b.Id] == b else Outside(b)
      modifies b, b.mem
      ensures Linked() && Pic() == if old(b.refcount) > 1 then Counted(old(Pic()), b.Id, -1) else old(Pic())
    {
      hide Foot, Leads, Tagged, GetL, Splice, ImageOf, BlockOf, Counted;
      ghost var v, shared := Pic(), b.refcount > 1;
      UnrefAlone(b, p);
      if shared {
        CountedShows(v, Pic(), b.Id);
      } else {
        SameMap(Pic().images, v.images);
        SameMap(Pic().blocks, v.blocks);
      }
    }

    method UnrefAlone(b: Chunk, p: int)
      requires Linked() && b.Valid(p)
      requires if b.refcount > 1 then b.Id in Heap && Heap[b.Id] == b else Outside(b)
      modifies b, b.mem
      ensures Linked()
      ensures forall c | c in Heap && Heap[c] != b :: BlockOf(Heap[c]) == old(BlockOf(Heap[c]))
      ensures forall r | r in Refs :: ImageOf(Refs[r]) == old(ImageOf(Refs[r]))
      ensures old(b.refcount) > 1 ==> BlockOf(b) == old(BlockOf(b)).(count := old(BlockOf(b)).count - 1)
    {
      hide Foot, Leads, Tagged, GetL, Splice;
      assert forall c | c in Heap && Heap[c] != b :: Heap[c].mem != b.mem;
      var _ := b.Free(p);
    }

    method Term(ghost r: int, x: ChunkRef)
      requires Valid() && r in Refs && Refs[r] == x
      modifies this, if x.chunk != null then {x.chunk, x.chunk.mem} else {}
      ensures Valid() && Refs == old(Refs) - {r}
      ensures Counting() == R.Term(old(Counting()), r)
      ensures forall s | s in Refs :: Held(s) == old(Held(s))
    {
      hide Good, Sound, Content, Foot, Linked, StoreOf, ImageOf, Pic, Leads, R.Term;
      ghost var v := Pic();
      KindOf(r, x);
      TermIsGood(v, r);
      if x.ref[0] == 0xff {
        TermChunk(r, x);
      } else {
        Leave(r);
      }
    }

    method TermChunk(ghost r: int, x: ChunkRef)
      requires Valid() && r in Refs && Refs[r] == x && x.ref.Length == REF_MAX && x.ref[0] == 0xff && x.chunk != null
      modifies this, x.chunk, x.chunk.mem
      ensures Pic().images.Keys == Refs.Keys
      ensures Linked() && Refs == old(Refs) - {r} && Pic() == TermPic(old(Pic()), r)
    {
      hide Good, Sound, Content, Foot, Linked, StoreOf, ImageOf, Pic, Leads, R.Term;
      ghost var v := Pic();
      KindOf(r, x);
      TermIsGood(v, r);
      OnlyReference(v, r);
      Leave(r);
      if x.chunk.refcount <= 1 {
        Retire(x.chunk);
      }
      Unref(x.chunk, x.p);
    }

    /** Bytes off the front, also while others refer to the chunk: its header moves and
        its size shrinks for all of them.  The memory stays sound exactly if nothing is cut
        off or nobody shares the chunk; a sharer then leads back to it exactly if the
        headers are compatible. */
    method Trim(ghost r: int, x: ChunkRef, n: nat) returns (ok: bool)
      requires Valid() && r in Refs && Refs[r] == x
      modifies x, x.ref, if x.chunk != null then {x.chunk, x.chunk.mem} else {}
      ensures ok <==> && n <= |old(Held(r))|
                      && (old(Pic()).images[r].Out? ==> old(Pic()).images[r].p + n - HEADER < UINT32_MAX)
      ensures ok ==> Linked() && R.Inv(Counting()) && Held(r) == old(Held(r))[n..]
      ensures ok ==> Counting() == if old(Pic()).images[r].Out? then old(Counting())
                                       else R.InitInline(old(Counting()), r, Held(r))
      ensures ok ==> forall s | s in Refs && s != r && !Shares(old(Pic()), r, s) :: Held(s) == old(Held(s))
      ensures ok ==> (Valid() <==> n == 0 || forall s :: !Shares(old(Pic()), r, s))
      ensures ok && old(Pic()).images[r].Out? ==>
                var i, c := old(Pic()).images[r], old(Pic()).images[r].chunk;
                && c in Pic().blocks
                && (LeadsBack(Pic().blocks[c].mem, i.p) <==> Compatible(i.p + n, i.p))
                && forall s | Shares(old(Pic()), r, s) :: s in Refs && Pic().images[s] == i
    {
      hide Good, Sound, Foot, Linked, StoreOf, Pic, Leads, ImageOf, R.InitInline, R.Inv, LeadsBack, Compatible;
      hide TrimBytes, Shares, Content, Data;
      ghost var v := Pic();
      KindOf(r, x);
      ContentLength(v, r);
      if x.ref[0] == 0xff {
        ok := TrimOut(r, x, n);
        if ok {
          TrimIs(v, r, n);
          SharersStay(v, r);
          CountsGood(v);
        }
      } else {
        ok := TrimIn(r, x, n);
        if ok {
          Rewritten(v, r, v.images[r].bytes[n..]);
          CountsGood(Pic());
        }
      }
    }

    /** What others have of a shared chunk is what this reference had. */
    lemma SharersStay(v: Picture, r: int)
      requires Good(v) && r in v.images
      ensures forall s | Shares(v, r, s) :: s in v.images && v.images[s] == v.images[r]
    {
      forall s | Shares(v, r, s) ensures v.images[s] == v.images[r] {
        SamePlace(v, r, s);
      }
    }

    /** The trim of a chunk, object by object. */
    method TrimChunk(ghost r: int, x: ChunkRef, n: nat) returns (ok: bool)
      requires Linked() && r in Refs && Refs[r] == x && x.Valid() && x.ref[0] == 0xff
      modifies x, x.ref, x.chunk, x.chunk.mem
      ensures ok <==> n <= |old(x.Contents())| && old(x.p) + n - HEADER < UINT32_MAX
      ensures x.chunk == old(x.chunk) && x.ref.Length == REF_MAX
      ensures var b := old(BlockOf(x.chunk));
              HEADER <= old(x.p) && |old(x.Contents())| == b.size && old(x.p) + b.size == |b.mem|
      ensures ok ==> ImageOf(x) == Out(x.chunk.Id, old(x.p) + n) && x.chunk.Freed == old(x.chunk.Freed)
      ensures ok ==> var b := old(BlockOf(x.chunk));
                     BlockOf(x.chunk) == Block(WithHeader(b.mem, old(x.p) + n), b.size - n, b.count)
    {
      hide GetL, Base, WithHeader, Splice;
      Ends(x.chunk.mem[..], x.p, x.chunk.size);
      TrimOne(x.chunk.mem[..], x.p, x.chunk.size, n);
      hide TrimBytes, Leads;
      ok := x.Trim(n);
    }

    /** Only one reference and one chunk change. */
    method TrimAlone(ghost r: int, x: ChunkRef, n: nat) returns (ok: bool)
      requires Linked() && r in Refs && Refs[r] == x && x.Valid() && x.ref[0] == 0xff
      modifies x, x.ref, x.chunk, x.chunk.mem
      ensures ok <==> n <= |old(x.Contents())| && old(x.p) + n - HEADER < UINT32_MAX
      ensures x.chunk == old(x.chunk)
      ensures var b := old(BlockOf(x.chunk));
              HEADER <= old(x.p) && |old(x.Contents())| == b.size && old(x.p) + b.size == |b.mem|
      ensures ok ==> ImageOf(x) == Out(old(x.chunk.Id), old(x.p) + n)
      ensures ok ==> var b := old(BlockOf(x.chunk));
                     BlockOf(old(x.chunk)) == Block(WithHeader(b.mem, old(x.p) + n), b.size - n, b.count)
      ensures ok ==> Linked()
      ensures forall c | c in Heap && Heap[c] != old(x.chunk) :: BlockOf(Heap[c]) == old(BlockOf(Heap[c]))
      ensures forall s | s in Refs && s != r :: ImageOf(Refs[s]) == old(ImageOf(Refs[s]))
    {
      hide Leads, Data, WithHeader;
      assert forall c | c in Heap && Heap[c] != x.chunk :: Heap[c].mem != x.chunk.mem;
      ok := TrimChunk(r, x, n);
    }

    method TrimOut(ghost r: int, x: ChunkRef, n: nat) returns (ok: bool)
      requires Linked() && r in Refs && Refs[r] == x && x.Valid() && x.ref[0] == 0xff
      modifies x, x.ref, x.chunk, x.chunk.mem
      ensures ok <==> n <= |old(x.Contents())| && old(x.p) + n - HEADER < UINT32_MAX
      ensures ok ==> Linked() && old(Pic()).images.Keys == Refs.Keys
      ensures ok ==> old(Pic()).images[r] == Out(old(x.chunk.Id), old(x.p))
      ensures ok ==> Trimmable(old(Pic()), r, n) && Pic() == TrimPic(old(Pic()), r, n)
    {
      hide Foot, Leads, Data, WithHeader, ImageOf, BlockOf, Linked;
      ghost var v := Pic();
      LinkedChunk(r, x);
      ok := TrimAlone(r, x, n);
      if ok {
        TrimShows(v, Pic(), r, n);
      }
    }

    lemma LinkedChunk(r: int, x: ChunkRef)
      requires Linked() && r in Refs && Refs[r] == x && x.Valid() && x.ref[0] == 0xff
      ensures x.chunk.Id in Heap && Heap[x.chunk.Id] == x.chunk
      ensures forall c | c in Heap && c != x.chunk.Id :: Heap[c] != x.chunk
      ensures ImageOf(x) == Out(x.chunk.Id, x.p)
    {
    }

    method TrimIn(ghost r: int, x: ChunkRef, n: nat) returns (ok: bool)
      requires Linked() && r in Refs && Refs[r] == x && x.Valid() && x.ref[0] != 0xff
      modifies x, x.ref
      ensures ok <==> n <= |old(x.Contents())|
      ensures ok ==> Linked() && Pic() == old(Pic()).(images := old(Pic()).images[r := In(old(x.Contents())[n..])])
    {
      hide Foot, ImageOf, BlockOf;
      ghost var v, bytes := Pic(), x.Contents();
      ok := TrimInAlone(r, x, n);
      if ok {
        SameMap(Pic().images, v.images[r := In(bytes[n..])]);
        SameMap(Pic().blocks, v.blocks);
      }
    }

    method TrimInAlone(ghost r: int, x: ChunkRef, n: nat) returns (ok: bool)
      requires Linked() && r in Refs && Refs[r] == x && x.Valid() && x.ref[0] != 0xff
      modifies x, x.ref
      ensures ok <==> n <= |old(x.Contents())|
      ensures ok ==> Linked() && ImageOf(x) == In(old(x.Contents())[n..])
      ensures forall c | c in Heap :: BlockOf(Heap[c]) == old(BlockOf(Heap[c]))
      ensures forall s | s in Refs && s != r :: ImageOf(Refs[s]) == old(ImageOf(Refs[s]))
    {
      hide Foot, Leads, Data;
      ok := x.Trim(n);
    }
  }
}
