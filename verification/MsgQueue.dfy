/** The inbound queue of a session: messages in linked chunks of 126, one spare
    chunk kept in a cache, and a bound on the bytes it holds. */
module MsgQueues {
  import opened Messages
  import opened Outcome

  const GRANULARITY := 126

  // ---------- rows of cells ----------

  /** The cells of consecutive chunks, as one sequence. */
  ghost function Cells(rows: seq<seq<Msg>>): seq<Msg>
  {
    if rows == [] then [] else rows[0] + Cells(rows[1..])
  }

  ghost predicate FullRows(rows: seq<seq<Msg>>)
  {
    forall k | 0 <= k < |rows| :: |rows[k]| == GRANULARITY
  }

  lemma {:induction false} CellsLength(rows: seq<seq<Msg>>)
    requires FullRows(rows)
    ensures |Cells(rows)| == GRANULARITY * |rows|
  {
    if rows != [] {
      CellsLength(rows[1..]);
    }
  }

  lemma {:induction false} CellsAppend(rows: seq<seq<Msg>>, row: seq<Msg>)
    ensures Cells(rows + [row]) == Cells(rows) + row
  {
    if rows == [] {
      assert rows + [row] == [row];
      assert Cells([row]) == row + Cells([row][1..]);
    } else {
      assert (rows + [row])[1..] == rows[1..] + [row];
      CellsAppend(rows[1..], row);
    }
  }

  /** Writing a cell of the last row writes one cell of the whole. */
  lemma CellsUpdate(rows: seq<seq<Msg>>, pos: nat, m: Msg)
    requires FullRows(rows) && rows != [] && pos < GRANULARITY
    ensures |Cells(rows)| == GRANULARITY * |rows|
    ensures var n := |rows| - 1;
            Cells(rows[n := rows[n][pos := m]]) == Cells(rows)[GRANULARITY * n + pos := m]
  {
    var n := |rows| - 1;
    CellsLength(rows);
    CellsLength(rows[..n]);
    CellsAppend(rows[..n], rows[n]);
    CellsAppend(rows[..n], rows[n][pos := m]);
    assert rows == rows[..n] + [rows[n]];
    assert rows[n := rows[n][pos := m]] == rows[..n] + [rows[n][pos := m]];
  }

  /** q is what lies between the reading and the writing position. */
  ghost predicate Window(rows: seq<seq<Msg>>, inPos: nat, outPos: nat, q: seq<Msg>)
  {
    && rows != [] && FullRows(rows) && |Cells(rows)| == GRANULARITY * |rows|
    && inPos <= GRANULARITY && outPos <= GRANULARITY
    && |q| == GRANULARITY * (|rows| - 1) + outPos - inPos
    && q == Cells(rows)[inPos..inPos + |q|]
  }

  lemma WindowPut(rows: seq<seq<Msg>>, inPos: nat, outPos: nat, q: seq<Msg>, m: Msg)
    requires Window(rows, inPos, outPos, q) && outPos < GRANULARITY
    ensures |rows[|rows| - 1]| == GRANULARITY
    ensures var n := |rows| - 1; Window(rows[n := rows[n][outPos := m]], inPos, outPos + 1, q + [m])
  {
    CellsUpdate(rows, outPos, m);
  }

  lemma WindowGrow(rows: seq<seq<Msg>>, inPos: nat, q: seq<Msg>, row: seq<Msg>)
    requires Window(rows, inPos, GRANULARITY, q) && |row| == GRANULARITY
    ensures Window(rows + [row], inPos, 0, q)
  {
    CellsAppend(rows, row);
  }

  lemma WindowTake(rows: seq<seq<Msg>>, inPos: nat, outPos: nat, q: seq<Msg>)
    requires Window(rows, inPos, outPos, q) && q != [] && inPos < GRANULARITY
    ensures rows[0][inPos] == q[0] && Window(rows, inPos + 1, outPos, q[1..])
  {
  }

  lemma WindowShrink(rows: seq<seq<Msg>>, outPos: nat, q: seq<Msg>)
    requires Window(rows, GRANULARITY, outPos, q) && outPos < GRANULARITY
    ensures |rows| > 1 && |rows[0]| == GRANULARITY && Window(rows[1..], 0, outPos, q)
  {
  }

  class Chunk {
    /** The cells are embedded in the chunk. */
    var msgs: seq<Msg>
    var next: Chunk?

    /** A chunk as the allocator hands it out: nothing is promised about `next`. */
    constructor ()
      ensures |msgs| == GRANULARITY
    {
      msgs := seq(GRANULARITY, _ => EMPTY);
      next := null;
    }
  }

  class MsgQueue {
    var inChunk: Chunk
    var inPos: nat
    var outChunk: Chunk
    var outPos: nat
    var count: nat
    var mem: nat
    const maxmem: nat
    var cache: Chunk?

    /** The queued messages, oldest first. */
    ghost var Contents: seq<Msg>
    /** The linked chunks, from the one read to the one written, and their cells. */
    ghost var Chain: seq<Chunk>
    ghost var Rows: seq<seq<Msg>>
    /** The chunks allocated for this queue and not yet freed. */
    ghost var Heap: set<Chunk>

    ghost predicate Linked()
      reads this, Heap
    {
      && |Chain| > 0 && Chain[0] == inChunk && Chain[|Chain| - 1] == outChunk
      && |Rows| == |Chain|
      && (forall i, j | 0 <= i < j < |Chain| :: Chain[i] != Chain[j])
      && (forall k | 0 <= k < |Chain| :: Chain[k] in Heap && Chain[k].msgs == Rows[k])
      && (forall k | 0 <= k < |Chain| - 1 :: Chain[k].next == Chain[k + 1])
      && (cache != null ==> cache in Heap && cache !in Chain && |cache.msgs| == GRANULARITY)
      && (forall c | c in Heap :: c in Chain || c == cache)
    }

    /** Valid, except that the written chunk or the read chunk may be used up. */
    ghost predicate NearlyValid()
      reads this, Heap
    {
      Linked() && count == |Contents| && mem == |Joined(Contents)| && Window(Rows, inPos, outPos, Contents)
    }

    ghost predicate Valid()
      reads this, Heap
    {
      NearlyValid() && inPos < GRANULARITY && outPos < GRANULARITY
    }

    constructor (maxmem: nat)
      ensures Valid() && fresh(Heap) && Contents == [] && this.maxmem == maxmem
    {
      var chunk := new Chunk();
      count, mem, this.maxmem := 0, 0, maxmem;
      outChunk, outPos := chunk, 0;
      inChunk, inPos := chunk, 0;
      cache := null;
      Contents, Chain, Rows, Heap := [], [chunk], [chunk.msgs], {chunk};
      new;
      CellsLength(Rows);
    }

    method Empty() returns (empty: bool)
      requires Valid()
      ensures empty <==> Contents == []
    {
      empty := count == 0;
    }

    /** False is -EAGAIN. */
    method Send(m: Msg) returns (ok: bool)
      requires Valid()
      modifies this, Heap
      ensures Valid() && fresh(Heap - old(Heap))
      ensures ok <==> old(Contents) == [] || |Joined(old(Contents))| + |m.sphdr| + |m.body| < maxmem
      ensures Contents == if ok then old(Contents) + [m] else old(Contents)
    {
      if count > 0 && mem + Size(m) >= maxmem {
        return false;
      }
      Put(m);
      if outPos == GRANULARITY {
        Grow();
      }
      return true;
    }

    method Put(m: Msg)
      requires Valid()
      modifies this`count, this`mem, this`outPos, this`Contents, this`Rows, outChunk`msgs
      ensures NearlyValid() && inPos < GRANULARITY
      ensures Contents == old(Contents) + [m]
    {
      hide Window, Joined;
      JoinedPush(Contents, m);
      WindowPut(Rows, inPos, outPos, Contents, m);
      count := count + 1;
      mem := mem + Size(m);
      outChunk.msgs := outChunk.msgs[outPos := m];
      Rows := Rows[|Rows| - 1 := outChunk.msgs];
      outPos := outPos + 1;
      Contents := Contents + [m];
    }

    /** Go on to a new chunk: the spare one if there is one. */
    method Grow()
      requires NearlyValid() && inPos < GRANULARITY && outPos == GRANULARITY
      modifies this, outChunk`next
      ensures Valid() && fresh(Heap - old(Heap)) && Contents == old(Contents)
      ensures cache == null && Heap == old(Heap) + {outChunk}
      ensures old(cache) != null ==> outChunk == old(cache)
    {
      hide Window, Joined, Linked;
      if cache == null {
        Reserve();
      }
      SpareIsWhole();
      WindowGrow(Rows, inPos, Contents, cache.msgs);
      LinkSpare();
    }

    method LinkSpare()
      requires Linked() && cache != null
      modifies this`outChunk, this`outPos, this`cache, this`Chain, this`Rows, outChunk`next
      ensures Linked() && outPos == 0 && Rows == old(Rows + [cache.msgs])
      ensures cache == null && outChunk == old(cache)
    {
      ghost var n := |Chain|;
      outChunk.next := cache;
      outChunk, outPos := cache, 0;
      Chain, Rows := Chain + [cache], Rows + [cache.msgs];
      cache := null;
      assert forall k | 0 <= k < n - 1 :: Chain[k].next == Chain[k + 1];
    }

    lemma SpareIsWhole()
      requires Linked() && cache != null
      ensures |cache.msgs| == GRANULARITY
    {
    }

    method Reserve()
      requires Linked() && cache == null
      modifies this`cache, this`Heap
      ensures Linked() && cache != null && fresh(cache) && Heap == old(Heap) + {cache}
    {
      cache := new Chunk();
      Heap := Heap + {cache};
    }

    method Recv() returns (r: Option<Msg>)
      requires Valid()
      modifies this
      ensures Valid() && Heap <= old(Heap)
      ensures old(Contents) == [] ==> r == None && Contents == []
      ensures old(Contents) != [] ==> r == Some(old(Contents)[0]) && Contents == old(Contents)[1..]
    {
      if count == 0 {
        return None;
      }
      var m := Take();
      if inPos == GRANULARITY {
        Shrink();
      }
      return Some(m);
    }

    method Take() returns (m: Msg)
      requires Valid() && Contents != []
      modifies this`count, this`mem, this`inPos, this`Contents
      ensures NearlyValid() && outPos < GRANULARITY
      ensures m == old(Contents)[0] && Contents == old(Contents)[1..]
    {
      m := inChunk.msgs[inPos];
      WindowTake(Rows, inPos, outPos, Contents);
      inPos := inPos + 1;
      Contents := Contents[1..];
      count := count - 1;
      mem := mem - Size(m);
    }

    /** Leave a used-up chunk: it becomes the spare one, or is freed. */
    method Shrink()
      requires NearlyValid() && inPos == GRANULARITY && outPos < GRANULARITY
      modifies this
      ensures Valid() && Contents == old(Contents) && inPos == 0
      ensures old(cache) == null ==> cache == old(inChunk) && Heap == old(Heap)
      ensures old(cache) != null ==> cache == old(cache) && Heap == old(Heap) - {old(inChunk)}
    {
      hide Window, Joined;
      var o := inChunk;
      WindowShrink(Rows, outPos, Contents);
      assert Chain[0].next == Chain[1];
      inChunk := inChunk.next;
      inPos := 0;
      Chain := Chain[1..];
      Rows := Rows[1..];
      if cache == null {
        cache := o;
      } else {
        Free(o);
      }
    }

    /** Give a chunk back: it must be allocated, and is not afterwards. */
    ghost method Free(c: Chunk)
      requires c in Heap
      modifies this`Heap
      ensures Heap == old(Heap) - {c}
    {
      Heap := Heap - {c};
    }

    lemma LastChunk()
      requires Valid() && Contents == []
      ensures inChunk == outChunk && Heap == {inChunk} + (if cache == null then {} else {cache}) && cache != inChunk
    {
    }

    /** Release everything: each message once, in order, and each chunk once. */
    method Term() returns (ghost released: seq<Msg>)
      requires Valid()
      modifies this
      ensures released == old(Contents) && Heap == {}
    {
      hide Valid, NearlyValid, Linked;
      released := [];
      while true
        invariant Valid() && released + Contents == old(Contents)
        decreases |Contents|
      {
        ghost var before := Contents;
        var r := Recv();
        if r == None {
          break;
        }
        released := released + [r.value];
        assert before == [before[0]] + before[1..];
      }
      LastChunk();
      assert inChunk == outChunk;
      Free(inChunk);
      if cache != null {
        Free(cache);
      }
    }
  }
}
