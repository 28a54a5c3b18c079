module ShabalContext {
  /* mshabal_context and its operations, for any number of lanes: sse4_mshabal_* is lanes == 4,
     mshabal256_* is lanes == 8 with outSize == 256 and no extra bits. */

  import opened Options
  import opened Shabal
  import opened ShabalHash
  import opened ShabalLanes

  class LaneContext {
    const lanes: nat
    const buf: array<seq<Byte>>       // the block being filled, for each lane
    const state: array<Vec>           // A[0..12], B[0..16], C[0..16]
    var ptr: nat
    var Whigh: Word
    var Wlow: Word
    const outSize: nat
    ghost var msg: seq<seq<Byte>>     // all data since the initialisation, for each lane

    ghost predicate StateShape()
      reads this, state
    {
      state.Length == 44 && forall j | 0 <= j < 44 :: |state[j]| == lanes
    }

    ghost predicate Shape()
      reads this, buf, state
    {
      StateShape() && buf.Length == lanes && forall k | 0 <= k < lanes :: |buf[k]| == BLOCK
    }

    ghost function CoreOf(k: nat): (s: Core)
      requires StateShape() && k < lanes
      reads this, state
      ensures IsCore(s)
    {
      LaneCore(state[..12], state[12..28], state[28..], lanes, k)
    }

    function W(): Counter
      reads this
    {
      Counter(Whigh, Wlow)
    }

    ghost predicate Valid()
      reads this, buf, state
    {
      && Shape() && |msg| == lanes && 0 < lanes && 32 <= outSize <= 512 && outSize % 32 == 0
      && (forall k | 0 <= k < lanes :: |msg[k]| == |msg[0]|)
      && W() == CounterAfter(|msg[0]| / BLOCK)
      && ptr == |msg[0]| - Whole(msg[0])
      && (forall k | 0 <= k < lanes :: CoreOf(k) == Absorbed(InitCore(outSize), msg[k]))
      && (forall k | 0 <= k < lanes :: Keeps(buf[k], msg[k][Whole(msg[k])..]))
    }

    // ----- Compression -----

    /** One round of the loop of the compression: one block of every lane. */
    method CompressBlock(blocks: seq<seq<Byte>>)
      requires Shape() && |blocks| == lanes && forall k | 0 <= k < lanes :: |blocks[k]| == BLOCK
      modifies state, this`Whigh, this`Wlow
      ensures Shape() && W() == Next(old(W()))
      ensures forall k | 0 <= k < lanes :: CoreOf(k) == Compress(old(CoreOf(k)), BlockWords(blocks[k]), old(W()))
    {
      hide Compress, BlockWords, Transposed;
      ghost var a0, b0, c0 := state[..12], state[12..28], state[28..];
      var m := Transposed(blocks, lanes);
      var a, b, c := CompressVectors(state[..12], state[12..28], state[28..], m, W(), lanes);
      var j := 0;
      while j < 12
        invariant 0 <= j <= 12 && W() == old(W()) && forall i | 0 <= i < j :: state[i] == a[i]
      {
        state[j] := a[j];
        j := j + 1;
      }
      j := 0;
      while j < 16
        invariant 0 <= j <= 16 && W() == old(W()) && forall i | 0 <= i < 12 :: state[i] == a[i]
        invariant forall i | 0 <= i < j :: state[12 + i] == b[i] && state[28 + i] == c[i]
      {
        state[j + 12] := b[j];
        state[j + 28] := c[j];
        j := j + 1;
      }
      assert state[..12] == a && state[12..28] == b && state[28..] == c;
      forall k | 0 <= k < lanes ensures CoreOf(k) == Compress(LaneCore(a0, b0, c0, lanes, k), BlockWords(blocks[k]), old(W())) {
        LaneTransposed(blocks, lanes, k);
      }
      Wlow := Wlow + 1;
      if Wlow == 0 { Whigh := Whigh + 1; }
    }

    /** The whole loop: num blocks from each lane's data. */
    method CompressMany(data: seq<seq<Byte>>, num: nat)
      requires Shape() && |data| == lanes && forall k | 0 <= k < lanes :: |data[k]| == num * BLOCK
      modifies state, this`Whigh, this`Wlow
      ensures Shape() && (lanes > 0 ==> W() == Absorb(old(CoreOf(0)), old(W()), data[0]).1)
      ensures forall k | 0 <= k < lanes :: Absorb(old(CoreOf(k)), old(W()), data[k]) == (CoreOf(k), W())
    {
      hide Compress, BlockWords, Next;
      var done := 0;
      forall k | 0 <= k < lanes ensures data[k][..0] == [] {}
      while done < num
        invariant 0 <= done <= num && Shape()
        invariant forall k | 0 <= k < lanes :: Absorb(old(CoreOf(k)), old(W()), data[k][..done * BLOCK]) == (CoreOf(k), W())
      {
        ghost var before := seq(lanes, k requires 0 <= k < lanes && Shape() reads this, buf, state => CoreOf(k));
        ghost var w := W();
        var blocks := seq(lanes, k requires 0 <= k < lanes && |data| == lanes && |data[k]| == num * BLOCK && done < num
                                 => data[k][done * BLOCK..done * BLOCK + BLOCK]);
        CompressBlock(blocks);
        forall k | 0 <= k < lanes
          ensures Absorb(old(CoreOf(k)), old(W()), data[k][..(done + 1) * BLOCK]) == (CoreOf(k), W())
        {
          assert data[k][..(done + 1) * BLOCK] == data[k][..done * BLOCK] + blocks[k];
          AbsorbConcat(old(CoreOf(k)), old(W()), data[k][..done * BLOCK], blocks[k]);
          AbsorbOne(before[k], w, blocks[k]);
        }
        done := done + 1;
      }
      forall k | 0 <= k < lanes ensures data[k][..num * BLOCK] == data[k] {}
    }

    // ----- Initialisation -----

    /** The words x .. x + 15 into every buffer. */
    method FillBuffers(x: nat)
      requires Shape()
      modifies buf
      ensures Shape() && forall k | 0 <= k < lanes :: buf[k] == InitBlock(x)
    {
      var k := 0;
      while k < lanes
        invariant 0 <= k <= lanes && Shape() && forall i | 0 <= i < k :: buf[i] == InitBlock(x)
      {
        buf[k] := InitBlock(x);
        k := k + 1;
      }
    }

    constructor (lanes: nat, outSize: nat)
      requires 0 < lanes && 32 <= outSize <= 512 && outSize % 32 == 0
      ensures Valid() && fresh(buf) && fresh(state) && this.lanes == lanes && this.outSize == outSize
      ensures forall k | 0 <= k < lanes :: msg[k] == []
    {
      this.lanes := lanes;
      this.outSize := outSize;
      buf := new seq<Byte>[lanes](_ => seq(BLOCK, _ => 0));
      state := new Vec[44](_ => seq(lanes, _ => 0));
      Whigh, Wlow := ONES, ONES;
      ptr := 0;
      msg := seq(lanes, _ => []);
      new;
      hide Compress, BlockWords, InitBlock, InitCore, Zero;
      ZeroLanes(state[..], lanes);
      InitState();
      KeepRest(seq(lanes, _ => []), 0, msg, msg);
    }

    /** The two initial blocks. */
    method InitState()
      requires Shape() && W() == Counter(ONES, ONES) && forall k | 0 <= k < lanes :: CoreOf(k) == Zero()
      requires lanes > 0 && msg == seq(lanes, _ => [])
      modifies buf, state, this`Whigh, this`Wlow
      ensures Aligned(msg)
    {
      hide Compress, BlockWords, InitBlock;
      FillBuffers(outSize);
      CompressBlock(buf[..]);
      assert W() == Counter(0, 0);
      ghost var s1 := Compress(Zero(), BlockWords(InitBlock(outSize)), Counter(ONES, ONES));
      assert forall k | 0 <= k < lanes :: CoreOf(k) == s1;
      FillBuffers(outSize + 16);
      CompressBlock(buf[..]);
      assert W() == Counter(0, 1) == CounterAfter(0);
      assert forall k | 0 <= k < lanes :: CoreOf(k) == InitCore(outSize);
    }

    // ----- Update -----

    /** memcpy of each lane's chunk into its buffer at ptr. */
    method CopyIn(chunks: seq<seq<Byte>>, at: nat, len: nat)
      requires Shape() && |chunks| == lanes && (forall k | 0 <= k < lanes :: |chunks[k]| == len) && at + len <= BLOCK
      modifies buf
      ensures Shape() && forall k | 0 <= k < lanes :: buf[k] == old(buf[k])[..at] + chunks[k] + old(buf[k])[at + len..]
    {
      var k := 0;
      while k < lanes
        invariant 0 <= k <= lanes && Shape()
        invariant forall i | 0 <= i < k :: buf[i] == old(buf[i])[..at] + chunks[i] + old(buf[i])[at + len..]
        invariant forall i | k <= i < lanes :: buf[i] == old(buf[i])
      {
        buf[k] := buf[k][..at] + chunks[k] + buf[k][at + len..];
        k := k + 1;
      }
    }

    /** All of `done` has been absorbed, and it is whole blocks. */
    ghost predicate Aligned(done: seq<seq<Byte>>)
      reads this, buf, state
    {
      && Shape() && |done| == lanes && 0 < lanes
      && (forall k | 0 <= k < lanes :: |done[k]| == |done[0]| && |done[k]| % BLOCK == 0)
      && W() == CounterAfter(|done[0]| / BLOCK)
      && forall k | 0 <= k < lanes :: CoreOf(k) == Absorb(InitCore(outSize), CounterAfter(0), done[k]).0
    }

    /** The buffered bytes are completed to a block, which is compressed. */
    method FinishBlock(data: seq<seq<Byte>>, ghost done: seq<seq<Byte>>, ghost more: seq<seq<Byte>>)
      requires Aligned(done) && ptr < BLOCK && |data| == lanes && |more| == lanes
      requires forall k | 0 <= k < lanes :: |data[k]| == BLOCK - ptr && more[k] == done[k] + (buf[k][..ptr] + data[k])
      modifies buf, state, this`Whigh, this`Wlow
      ensures Aligned(more)
    {
      hide Compress, BlockWords, InitCore, Next;
      CopyIn(data, ptr, BLOCK - ptr);
      ghost var blocks := buf[..];
      ghost var w := W();
      CompressBlock(buf[..]);
      forall k | 0 <= k < lanes
        ensures |more[k]| == |more[0]| && |more[k]| % BLOCK == 0 && W() == CounterAfter(|more[k]| / BLOCK)
        ensures CoreOf(k) == Absorb(InitCore(outSize), CounterAfter(0), more[k]).0
      {
        assert more[k] == done[k] + blocks[k];
        AbsorbConcat(InitCore(outSize), CounterAfter(0), done[k], blocks[k]);
        AbsorbCounts(InitCore(outSize), 0, done[k]);
        AbsorbOne(Absorb(InitCore(outSize), CounterAfter(0), done[k]).0, w, blocks[k]);
      }
    }

    /** The full blocks of the data, straight from where they are. */
    method FullBlocks(data: seq<seq<Byte>>, num: nat, ghost done: seq<seq<Byte>>, ghost more: seq<seq<Byte>>)
      requires Aligned(done) && |data| == lanes && |more| == lanes
      requires forall k | 0 <= k < lanes :: |data[k]| == num * BLOCK && more[k] == done[k] + data[k]
      modifies state, this`Whigh, this`Wlow
      ensures Aligned(more)
    {
      hide Compress, BlockWords, InitCore, Next;
      ghost var w := W();
      CompressMany(data, num);
      forall k | 0 <= k < lanes
        ensures |more[k]| == |more[0]| && |more[k]| % BLOCK == 0 && W() == CounterAfter(|more[k]| / BLOCK)
        ensures CoreOf(k) == Absorb(InitCore(outSize), CounterAfter(0), more[k]).0
      {
        AbsorbCounts(InitCore(outSize), 0, done[k]);
        AbsorbConcat(InitCore(outSize), CounterAfter(0), done[k], data[k]);
        AbsorbCounts(InitCore(outSize), 0, more[k]);
      }
    }

    /** What is left goes to the start of the buffers. */
    method KeepRest(data: seq<seq<Byte>>, len: nat, ghost done: seq<seq<Byte>>, ghost all: seq<seq<Byte>>)
      requires Aligned(done) && |data| == lanes && |all| == lanes && len < BLOCK && 32 <= outSize <= 512 && outSize % 32 == 0
      requires forall k | 0 <= k < lanes :: |data[k]| == len && all[k] == done[k] + data[k]
      modifies this`ptr, this`msg, buf
      ensures Valid() && msg == all
    {
      hide Compress, BlockWords, InitCore, Next;
      CopyIn(data, 0, len);
      ptr := len;
      msg := all;
      forall k | 0 <= k < lanes
        ensures |msg[k]| == |msg[0]| && W() == CounterAfter(|msg[k]| / BLOCK) && ptr == |msg[k]| - Whole(msg[k])
        ensures CoreOf(k) == Absorbed(InitCore(outSize), msg[k]) && Keeps(buf[k], msg[k][Whole(msg[k])..])
      {
        StreamChunk(InitCore(outSize), msg[k], done[k], data[k]);
      }
    }

    lemma AlignedStart(done: seq<seq<Byte>>)
      requires Valid() && done == Heads(msg, |msg[0]|, Whole(msg[0]))
      ensures Aligned(done) && 0 <= ptr < BLOCK
      ensures forall k | 0 <= k < lanes :: msg[k] == done[k] + buf[k][..ptr]
    {
      hide Compress, BlockWords, InitCore, Next, Absorb, Absorbed;
      forall k | 0 <= k < lanes
        ensures CoreOf(k) == Absorb(InitCore(outSize), CounterAfter(0), done[k]).0 && |done[k]| / BLOCK == |msg[0]| / BLOCK
        ensures msg[k] == done[k] + buf[k][..ptr]
      {
        AbsorbedIs(InitCore(outSize), msg[k]);
        assert Keeps(buf[k], msg[k][Whole(msg[k])..]);
      }
    }

    /** The first bytes of the data complete the buffered block. */
    method TakeHead(data: seq<seq<Byte>>, len: nat, ghost start: seq<seq<Byte>>, ghost all: seq<seq<Byte>>)
      returns (rest: seq<seq<Byte>>, left: nat, ghost done: seq<seq<Byte>>)
      requires |data| == |all| == lanes && (forall k | 0 <= k < lanes :: |data[k]| == len) && ptr < BLOCK && BLOCK - ptr <= len
      requires Aligned(start) && forall k | 0 <= k < lanes :: all[k] == start[k] + buf[k][..ptr] + data[k]
      modifies buf, state, this`Whigh, this`Wlow
      ensures Aligned(done) && |rest| == lanes && left <= len
      ensures forall k | 0 <= k < lanes :: |rest[k]| == left && done[k] + rest[k] == all[k]
    {
      hide Compress, BlockWords, InitCore, Next, Absorb, CounterAfter;
      var clen := BLOCK - ptr;
      done := Heads(all, |all[0]|, |all[0]| - (len - clen));
      forall k | 0 <= k < lanes ensures done[k] == start[k] + (buf[k][..ptr] + data[k][..clen]) {}
      FinishBlock(Heads(data, len, clen), start, done);
      rest, left := Tails(data, len, clen), len - clen;
      forall k | 0 <= k < lanes ensures done[k] + rest[k] == all[k] { assert all[k] == done[k] + data[k][clen..]; }
    }

    /** Then as many full blocks as there are. */
    method TakeBlocks(data: seq<seq<Byte>>, len: nat, ghost start: seq<seq<Byte>>)
      returns (rest: seq<seq<Byte>>, left: nat, ghost done: seq<seq<Byte>>)
      requires Aligned(start) && |data| == lanes && forall k | 0 <= k < lanes :: |data[k]| == len
      modifies state, this`Whigh, this`Wlow
      ensures Aligned(done) && |rest| == lanes && left < BLOCK
      ensures forall k | 0 <= k < lanes :: |rest[k]| == left && done[k] + rest[k] == start[k] + data[k]
    {
      hide Compress, BlockWords, InitCore, Next, Absorb, CounterAfter;
      rest, left, done := data, len % BLOCK, start;
      var num := len / BLOCK;
      if num != 0 {
        var whole := Heads(data, len, num * BLOCK);
        done := Appended(start, whole);
        FullBlocks(whole, num, start, done);
        rest := Tails(data, len, num * BLOCK);
        forall k | 0 <= k < lanes ensures done[k] + rest[k] == start[k] + data[k] {
          assert data[k] == data[k][..num * BLOCK] + data[k][num * BLOCK..];
        }
      }
    }

    /** sse4_mshabal and mshabal256: however the data was cut into chunks, the context afterwards
        depends on the concatenation alone, lane by lane. */
    method Update(data: seq<seq<Byte>>, len: nat)
      requires Valid() && |data| == lanes && forall k | 0 <= k < lanes :: |data[k]| == len
      modifies this, buf, state
      ensures Valid() && msg == Appended(old(msg), data)
    {
      hide Compress, BlockWords, InitCore, Next, Absorb, Absorbed, CounterAfter, Whole;
      ghost var all := Appended(msg, data);
      ghost var done := Heads(msg, |msg[0]|, Whole(msg[0]));
      AlignedStart(done);
      var rest, left := data, len;
      if ptr != 0 {
        if BLOCK - ptr > left {
          BufferOnly(data, len, all, done);
          return;
        }
        rest, left, done := TakeHead(data, len, done, all);
      } else {
        forall k | 0 <= k < lanes ensures done[k] == msg[k] { assert buf[k][..0] == []; }
      }
      rest, left, done := TakeBlocks(rest, left, done);
      forall k | 0 <= k < lanes ensures all[k] == done[k] + rest[k] {}
      KeepRest(rest, left, done, all);
    }

    /** The chunk does not complete a block. */
    method BufferOnly(data: seq<seq<Byte>>, len: nat, ghost all: seq<seq<Byte>>, ghost done: seq<seq<Byte>>)
      requires Valid() && |data| == lanes && (forall k | 0 <= k < lanes :: |data[k]| == len) && ptr + len < BLOCK
      requires all == Appended(msg, data) && done == Heads(msg, |msg[0]|, Whole(msg[0]))
      modifies this`ptr, this`msg, buf
      ensures Valid() && msg == all
    {
      hide Compress, BlockWords, InitCore, Next;
      CopyIn(data, ptr, len);
      forall k | 0 <= k < lanes
        ensures |all[k]| == |all[0]| && W() == CounterAfter(|all[k]| / BLOCK) && ptr + len == |all[k]| - Whole(all[k])
        ensures CoreOf(k) == Absorbed(InitCore(outSize), all[k]) && Keeps(buf[k], all[k][Whole(all[k])..])
      {
        StreamChunk(InitCore(outSize), msg[k], done[k], msg[k][Whole(msg[k])..]);
        StreamChunk(InitCore(outSize), all[k], done[k], msg[k][Whole(msg[k])..] + data[k]);
      }
      ptr := ptr + len;
      msg := all;
    }

    /** The four-lane update takes NULL for a lane: the lane is fed some other lane's data, so that
        its own hash is lost and no other lane's is touched. */
    method UpdateSome(data: seq<Option<seq<Byte>>>, len: nat)
      requires Valid() && lanes == 4 && |data| == 4 && forall k | 0 <= k < 4 && data[k].Some? :: |data[k].value| == len
      modifies this, buf, state
      ensures Valid() && |msg| == 4
      ensures (forall k | 0 <= k < 4 :: data[k].None?) ==> msg == old(msg)
      ensures forall k | 0 <= k < 4 && data[k].Some? :: msg[k] == old(msg[k]) + data[k].value
    {
      hide Compress, BlockWords, InitCore, Next, Absorb, Absorbed, CounterAfter, Whole;
      var data0 := data[0];
      if data0.None? {
        if data[1].None? {
          if data[2].None? {
            if data[3].None? { return; } else { data0 := data[3]; }
          } else { data0 := data[2]; }
        } else { data0 := data[1]; }
      }
      var data1 := if data[1].None? then data0 else data[1];
      var data2 := if data[2].None? then data0 else data[2];
      var data3 := if data[3].None? then data0 else data[3];
      Update([data0.value, data1.value, data2.value, data3.value], len);
    }

    // ----- Close -----

    /** The final block of each lane: the rest of the message, the extra bits, zeros. */
    method PadBuffers(ub: seq<Byte>, n: nat)
      requires Valid() && |ub| == lanes && n < 8
      modifies buf
      ensures Shape() && forall k | 0 <= k < lanes :: buf[k] == Padded(msg[k][Whole(msg[k])..], PadByte(ub[k], n))
    {
      hide Absorbed, InitCore, CounterAfter, PadByte;
      var k := 0;
      while k < lanes
        invariant 0 <= k <= lanes && Shape()
        invariant forall i | 0 <= i < k :: buf[i] == Padded(msg[i][Whole(msg[i])..], PadByte(ub[i], n))
        invariant forall i | k <= i < lanes :: buf[i] == old(buf[i])
      {
        assert Keeps(buf[k], msg[k][Whole(msg[k])..]);
        buf[k] := buf[k][..ptr] + [PadByte(ub[k], n)] + seq(BLOCK - 1 - ptr, _ => 0);
        k := k + 1;
      }
    }

    method StepBack()
      modifies this`Whigh, this`Wlow
      ensures W() == Previous(old(W()))
    {
      if Wlow == 0 { Whigh := Whigh - 1; }
      Wlow := Wlow - 1;
    }

    /** Four compressions of the final block; each step of W is taken back. */
    method Finalise(ghost w: Counter)
      requires Shape() && W() == w
      modifies state, this`Whigh, this`Wlow
      ensures Shape() && W() == w
      ensures forall k | 0 <= k < lanes :: CoreOf(k) == Repeat(old(CoreOf(k)), BlockWords(buf[k]), w, 4)
    {
      hide Compress, BlockWords, Next, Previous;
      var z := 0;
      while z < 4
        invariant 0 <= z <= 4 && Shape() && W() == w
        invariant forall k | 0 <= k < lanes :: CoreOf(k) == Repeat(old(CoreOf(k)), BlockWords(buf[k]), w, z)
      {
        CompressBlock(buf[..]);
        PreviousNext(w);
        StepBack();
        z := z + 1;
      }
    }

    /** mshabal_close: lane k's output, if wanted, is the hash of lane k's data alone. */
    method Close(ub: seq<Byte>, n: nat, wanted: seq<bool>) returns (out: seq<Option<seq<Word>>>)
      requires Valid() && |ub| == |wanted| == lanes && n < 8
      modifies buf, state, this`Whigh, this`Wlow
      ensures |out| == lanes
      ensures forall k | 0 <= k < lanes ::
        out[k] == if wanted[k] then Some(Digest(InitCore(outSize), old(msg[k]), ub[k], n, outSize / 32)) else None
    {
      hide Compress, BlockWords, InitCore, PadByte, Padded, Next, Absorbed;
      ghost var w := W();
      PadBuffers(ub, n);
      Finalise(w);
      forall k | 0 <= k < lanes
        ensures CoreOf(k).c[16 - outSize / 32..] == Digest(InitCore(outSize), old(msg[k]), ub[k], n, outSize / 32)
      {
      }
      out := Outputs(wanted, outSize / 32);
    }

    method Outputs(wanted: seq<bool>, outWords: nat) returns (out: seq<Option<seq<Word>>>)
      requires StateShape() && |wanted| == lanes && outWords <= 16
      ensures |out| == lanes && forall k | 0 <= k < lanes :: out[k] == if wanted[k]
              then Some(CoreOf(k).c[16 - outWords..]) else None
    {
      out := [];
      var k := 0;
      while k < lanes
        invariant 0 <= k <= lanes && |out| == k
        invariant forall i | 0 <= i < k :: out[i] == if wanted[i] then Some(CoreOf(i).c[16 - outWords..]) else None
      {
        if wanted[k] {
          var words := OutputWords(k, outWords);
          out := out + [Some(words)];
        } else {
          out := out + [None];
        }
        k := k + 1;
      }
    }

    /** The last C words of a lane. */
    method OutputWords(k: nat, outWords: nat) returns (words: seq<Word>)
      requires StateShape() && k < lanes && outWords <= 16
      ensures words == CoreOf(k).c[16 - outWords..]
    {
      words := [];
      var z := 0;
      while z < outWords
        invariant 0 <= z <= outWords && words == CoreOf(k).c[16 - outWords..16 - outWords + z]
      {
        words := words + [state[28 + (16 - outWords) + z][k]];
        z := z + 1;
      }
    }
  }

  function Appended(a: seq<seq<Byte>>, b: seq<seq<Byte>>): (r: seq<seq<Byte>>)
    requires |a| == |b|
    ensures |r| == |a| && forall k | 0 <= k < |a| :: r[k] == a[k] + b[k]
  {
    seq(|a|, k requires 0 <= k < |a| => a[k] + b[k])
  }

  lemma ZeroLanes(state: seq<Vec>, lanes: nat)
    requires Wide(state, 44, lanes) && forall j, k | 0 <= j < 44 && 0 <= k < lanes :: state[j][k] == 0
    ensures forall k | 0 <= k < lanes :: LaneCore(state[..12], state[12..28], state[28..], lanes, k) == Zero()
  {
  }

  function Heads(data: seq<seq<Byte>>, len: nat, n: nat): (r: seq<seq<Byte>>)
    requires n <= len && forall k | 0 <= k < |data| :: |data[k]| == len
    ensures |r| == |data| && forall k | 0 <= k < |data| :: r[k] == data[k][..n]
  {
    seq(|data|, k requires 0 <= k < |data| => data[k][..n])
  }

  function Tails(data: seq<seq<Byte>>, len: nat, n: nat): (r: seq<seq<Byte>>)
    requires n <= len && forall k | 0 <= k < |data| :: |data[k]| == len
    ensures |r| == |data| && forall k | 0 <= k < |data| :: r[k] == data[k][n..]
  {
    seq(|data|, k requires 0 <= k < |data| => data[k][n..])
  }
}
