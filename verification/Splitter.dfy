/** Cutting a file into chunks (internal/fileservice/types.go, internal/filetransfer/transfer.go and the TypeScript
    client), and the readers involved (internal/protocol/message.go). */
module Splitter {
  type Bytes = seq<bv8>

  // ---------------------------------------------------------------- slices

  // The pieces of `data` of at most `size` bytes, all but the last one full.
  function Slices(data: Bytes, size: nat): (r: seq<Bytes>)
    requires size > 0
    decreases |data|
  {
    if |data| == 0 then []
    else if |data| <= size then [data]
    else [data[..size]] + Slices(data[size..], size)
  }

  function Concat(pieces: seq<Bytes>): Bytes {
    if pieces == [] then [] else Concat(pieces[..|pieces| - 1]) + pieces[|pieces| - 1]
  }

  function Min(a: nat, b: nat): nat {
    if a < b then a else b
  }

  lemma {:induction false} SlicesAt(data: Bytes, size: nat, k: nat)
    requires size > 0
    ensures k < |Slices(data, size)| <==> k * size < |data|
    ensures k * size < |data| ==> Slices(data, size)[k] == data[k * size..Min((k + 1) * size, |data|)]
    decreases |data|
  {
    if |data| == 0 {
      assert 0 <= k * size;
    } else if |data| <= size {
      if k > 0 {
        MulStep(k - 1, size);
      }
    } else if k > 0 {
      var rest := data[size..];
      SlicesAt(rest, size, k - 1);
      MulStep(k - 1, size);
      MulStep(k, size);
      if k * size < |data| {
        assert rest[(k - 1) * size..Min(k * size, |rest|)] == data[k * size..Min((k + 1) * size, |data|)];
      }
    }
  }

  lemma MulStep(k: nat, size: nat)
    ensures (k + 1) * size == k * size + size && k * size >= 0
  {
  }

  // ---------------------------------------------------------------- readers

  // What the operating system does at one read: hand out at most `limit` bytes, or fail.
  datatype ReadPlan = Short(limit: nat) | Fail

  datatype ReadResult = Bytes(n: nat) | EndOfFile | Failure

  // How much the next read hands out at most, unless it fails.
  function HandsOut(plan: seq<ReadPlan>, buffer: nat): nat {
    if plan != [] && plan[0].Short? then Min(buffer, plan[0].limit) else buffer
  }

  // An open file whose first reads follow the plan; later reads hand out as much as fits.
  class File {
    const data: Bytes
    var off: nat
    var plan: seq<ReadPlan>

    ghost predicate Valid()
      reads this
    {
      off <= |data|
    }

    constructor (data: Bytes, plan: seq<ReadPlan>)
      ensures Valid() && this.data == data && off == 0 && this.plan == plan
    {
      this.data, off, this.plan := data, 0, plan;
    }

    method Seek(to: nat)
      requires to <= |data|
      modifies this`off
      ensures Valid() && off == to
    {
      off := to;
    }

    method Read(buf: array<bv8>) returns (r: ReadResult)
      requires Valid() && buf.Length > 0
      modifies this, buf
      ensures Valid() && off >= old(off)
      ensures plan == if old(plan) == [] then [] else old(plan)[1..]
      ensures r.Failure? <==> old(plan) != [] && old(plan)[0].Fail?
      ensures !r.Bytes? ==> off == old(off)
      ensures r.EndOfFile? ==> off == |data|
      ensures r.Bytes? ==> r.n <= buf.Length && off == old(off) + r.n && buf[..r.n] == data[old(off)..off]
      ensures r.Bytes? ==> old(off) < |data| && r.n == Min(HandsOut(old(plan), buf.Length), |data| - old(off))
      ensures !r.Bytes? && !r.Failure? ==> old(off) == |data|
    {
      var limit := buf.Length;
      if plan != [] {
        var p := plan[0];
        plan := plan[1..];
        if p.Fail? {
          return Failure;
        }
        limit := Min(limit, p.limit);
      }
      if off == |data| {
        return EndOfFile;
      }
      var n := Min(limit, |data| - off);
      for i := 0 to n
        modifies buf
        invariant buf[..i] == data[off..off + i]
      {
        buf[i] := data[off + i];
        assert data[off..off + i + 1] == data[off..off + i] + [buf[i]];
      }
      off := off + n;
      return Bytes(n);
    }
  }

  // The plan has lost some reads at its front.
  predicate Rest(before: seq<ReadPlan>, after: seq<ReadPlan>) {
    |after| <= |before| && after == before[|before| - |after|..]
  }

  // The reads it has lost.
  function Taken(before: seq<ReadPlan>, after: seq<ReadPlan>): seq<ReadPlan>
    requires |after| <= |before|
  {
    before[..|before| - |after|]
  }

  // One more read.
  lemma TakenNext(start: seq<ReadPlan>, before: seq<ReadPlan>, after: seq<ReadPlan>)
    requires Rest(start, before) && after == if before == [] then [] else before[1..]
    ensures Rest(start, after)
    ensures Fail in Taken(start, after) <==> Fail in Taken(start, before) || (before != [] && before[0].Fail?)
  {
    if before != [] {
      assert Taken(start, after) == Taken(start, before) + [before[0]];
    }
  }

  // protocol.sliceReader: the reader over a received message's data.
  class SliceReader {
    const data: Bytes
    var off: nat

    constructor (data: Bytes)
      ensures this.data == data && off == 0
    {
      this.data, off := data, 0;
    }

    method Read(p: array<bv8>) returns (n: nat, eof: bool)
      modifies this`off, p
      ensures eof <==> old(off) >= |data|
      ensures eof ==> n == 0 && off == old(off) && p[..] == old(p[..])
      ensures !eof ==> n == Min(p.Length, |data| - old(off)) && off == old(off) + n
      ensures !eof ==> p[..n] == data[old(off)..off] && p[n..] == old(p[n..])
    {
      if off >= |data| {
        return 0, true;
      }
      n, eof := Min(p.Length, |data| - off), false;
      for i := 0 to n
        modifies p
        invariant p[..i] == data[off..off + i]
        invariant p[n..] == old(p[..])[n..]
      {
        p[i] := data[off + i];
      }
      off := off + n;
    }

    // Reading to the end with any buffer sizes, as io.ReadAll does, gives exactly what was left.
    method ReadAll(sizes: seq<nat>) returns (all: Bytes)
      requires off <= |data|
      modifies this`off
      ensures all == data[old(off)..] && off == |data|
    {
      all := [];
      var k := 0;
      var eof := false;
      while !eof
        invariant old(off) <= off <= |data| && all == data[old(off)..off]
        invariant eof ==> off == |data|
        decreases !eof, |data| - off
      {
        var buf := new bv8[if k < |sizes| then sizes[k] + 1 else 512];
        k := k + 1;
        var n;
        n, eof := Read(buf);
        all := all + buf[..n];
      }
    }
  }

  // ---------------------------------------------------------------- splitting a file

  datatype Chunk = Chunk(index: nat, offset: nat, size: nat, hash: string)

  // The bytes at a chunk's place in the file.
  function Piece(data: Bytes, c: Chunk): Bytes {
    var lo := Min(c.offset, |data|);
    data[lo..Min(lo + c.size, |data|)]
  }

  // Chunks that cut up data[..end] from left to right: the last one ends at `end`, has a size between 1 and the limit
  // and the hash of its own bytes, and the others cut up what comes before it.
  ghost predicate Partition(chunks: seq<Chunk>, data: Bytes, end: nat, size: nat, hash: Bytes -> string) {
    end <= |data| &&
    if chunks == [] then end == 0
    else
      var k := |chunks| - 1;
      var c := chunks[k];
      && c.index == k && 0 < c.size <= size && c.offset + c.size == end
      && c.hash == hash(data[c.offset..end])
      && Partition(chunks[..k], data, c.offset, size, hash)
  }

  /** Seen from one chunk: indices are consecutive, each chunk starts where the one before ends, and its hash is that
      of the bytes it names. */
  lemma {:induction false} PartitionAt(chunks: seq<Chunk>, data: Bytes, end: nat, size: nat, hash: Bytes -> string,
          k: nat)
    requires Partition(chunks, data, end, size, hash) && k < |chunks|
    ensures var c := chunks[k];
            && c.index == k && 0 < c.size <= size && c.offset + c.size <= end
            && c.offset == (if k == 0 then 0 else chunks[k - 1].offset + chunks[k - 1].size)
            && c.hash == hash(data[c.offset..c.offset + c.size])
  {
    var front := chunks[..|chunks| - 1];
    if k < |front| {
      PartitionAt(front, data, chunks[|front|].offset, size, hash, k);
    } else if k > 0 {
      assert front[|front| - 1] == chunks[k - 1];
    }
  }

  predicate AllChunksFull(chunks: seq<Chunk>, size: nat) {
    forall k :: 0 <= k < |chunks| ==> chunks[k].size == size
  }

  // All chunks but the last are full.
  predicate FullChunks(chunks: seq<Chunk>, size: nat) {
    forall k :: 0 <= k < |chunks| - 1 ==> chunks[k].size == size
  }

  // ---------------------------------------------------------------- what reading to the end gets

  // The bytes got by reading the `left` bytes before the end with buffers of this size, until a read fails.
  function Handed(plan: seq<ReadPlan>, left: nat, buffer: nat): (n: nat)
    ensures n <= left
  {
    if plan == [] then left
    else if plan[0].Fail? || left == 0 then 0
    else
      var n := Min(HandsOut(plan, buffer), left);
      n + Handed(plan[1..], left - n, buffer)
  }

  // The reads still to come after that.
  function Unread(plan: seq<ReadPlan>, left: nat, buffer: nat): (rest: seq<ReadPlan>)
    ensures |rest| <= |plan|
  {
    if plan == [] then []
    else if plan[0].Fail? || left == 0 then plan[1..]
    else Unread(plan[1..], left - Min(HandsOut(plan, buffer), left), buffer)
  }

  // What so many reads hand out at most, if none of them fails.
  function Allowed(plan: seq<ReadPlan>, buffer: nat): nat {
    if plan == [] then 0 else HandsOut(plan, buffer) + Allowed(plan[1..], buffer)
  }

  // Read k is the first one that fails, and the reads before it have not got everything.
  ghost predicate FailsEarly(plan: seq<ReadPlan>, left: nat, buffer: nat, k: nat) {
    k < |plan| && plan[k].Fail? && Fail !in plan[..k] && Allowed(plan[..k], buffer) < left
  }

  /** The bytes got are all of them, unless the first read that fails comes before the reads ahead of it have handed out
      the whole file; then they are what those reads hand out. */
  lemma {:induction false} HandedExactly(plan: seq<ReadPlan>, left: nat, buffer: nat)
    ensures Handed(plan, left, buffer) < left <==> exists k: nat :: FailsEarly(plan, left, buffer, k)
    ensures forall k: nat :: FailsEarly(plan, left, buffer, k) ==>
              Handed(plan, left, buffer) == Allowed(plan[..k], buffer)
  {
    if plan != [] && left > 0 {
      if plan[0].Fail? {
        assert FailsEarly(plan, left, buffer, 0);
        assert forall k: nat :: 0 < k <= |plan| ==> plan[..k][0] == Fail;
      } else {
        var rest, less := plan[1..], left - Min(HandsOut(plan, buffer), left);
        HandedExactly(rest, less, buffer);
        forall k: nat
          ensures FailsEarly(plan, left, buffer, k) <==> k > 0 && FailsEarly(rest, less, buffer, k - 1)
          ensures 0 < k <= |plan| ==>
                    Allowed(plan[..k], buffer) == HandsOut(plan, buffer) + Allowed(rest[..k - 1], buffer)
        {
          FailsLater(plan, left, buffer, k);
        }
        if k: nat :| FailsEarly(rest, less, buffer, k) {
          assert FailsEarly(plan, left, buffer, k + 1);
        }
      }
    }
  }

  lemma FailsLater(plan: seq<ReadPlan>, left: nat, buffer: nat, k: nat)
    requires plan != [] && !plan[0].Fail? && left > 0
    ensures var n := Min(HandsOut(plan, buffer), left);
            FailsEarly(plan, left, buffer, k) <==> k > 0 && FailsEarly(plan[1..], left - n, buffer, k - 1)
    ensures 0 < k <= |plan| ==>
              Allowed(plan[..k], buffer) == HandsOut(plan, buffer) + Allowed(plan[1..][..k - 1], buffer)
  {
    if 0 < k <= |plan| {
      assert plan[..k] == [plan[0]] + plan[1..][..k - 1];
      assert plan[..k][1..] == plan[1..][..k - 1];
      assert Fail in plan[..k] <==> Fail in plan[1..][..k - 1];
      assert k < |plan| ==> plan[k] == plan[1..][k - 1];
    }
  }

  // io.Copy of the whole file into a hash: all bytes up to the end, or up to a read that fails.
  method CopyAll(f: File) returns (all: Bytes)
    requires f.Valid() && f.off == 0
    modifies f
    ensures f.Valid() && all == f.data[..f.off] && Rest(old(f.plan), f.plan)
    ensures f.off == Handed(old(f.plan), |f.data|, 32768)
    ensures f.plan == Unread(old(f.plan), |f.data|, 32768)
  {
    all := [];
    var buf := new bv8[32768];
    while true
      invariant f.Valid() && buf.Length == 32768 && all == f.data[..f.off] && Rest(old(f.plan), f.plan)
      invariant f.off + Handed(f.plan, |f.data| - f.off, 32768) == Handed(old(f.plan), |f.data|, 32768)
      invariant Unread(f.plan, |f.data| - f.off, 32768) == Unread(old(f.plan), |f.data|, 32768)
      decreases |f.plan|, |f.data| - f.off
    {
      ghost var before := f.plan;
      var r := f.Read(buf);
      TakenNext(old(f.plan), before, f.plan);
      match r {
        case Bytes(n) =>
          all := all + buf[..n];
        case EndOfFile =>
          return;
        case Failure =>
          return;
      }
    }
  }

  /** fileservice.SplitIntoChunks, under any sequence of short reads and failures: first the hash of what io.Copy gets
      of the file, then the chunks. A failure in the second pass makes it fail; one in the first pass goes unnoticed. */
  method SplitIntoChunks(f: File, size: nat, hash: Bytes -> string)
    returns (ok: bool, chunks: seq<Chunk>, checksum: string, fileSize: nat)
    requires f.Valid() && f.off == 0 && size > 0
    modifies f
    ensures var later := Unread(old(f.plan), |f.data|, 32768);
            && f.plan == Unread(later, |f.data|, size) && Rest(later, f.plan)
            && (ok <==> Fail !in Taken(later, f.plan))
    ensures ok ==> Partition(chunks, f.data, |f.data|, size, hash) && fileSize == |f.data|
    ensures ok ==> checksum == hash(f.data[..Handed(old(f.plan), |f.data|, 32768)])
    ensures old(f.plan) == [] ==> ok && FullChunks(chunks, size)
    ensures !ok ==> chunks == [] && checksum == "" && fileSize == 0
  {
    var all := CopyAll(f);
    checksum, fileSize := hash(all), |f.data|;
    f.Seek(0);
    ok, chunks := CutAll(f, size, hash);
    if !ok {
      checksum, fileSize := "", 0;
    }
  }

  /** A read that fails while the whole file is hashed goes unnoticed: with the very first one, SplitIntoChunks succeeds
      and the checksum is that of no bytes at all. */
  method FailureUnnoticed(data: Bytes, size: nat, hash: Bytes -> string) returns (ok: bool, checksum: string)
    requires data != [] && size > 0
    ensures ok && checksum == hash([]) && Handed([Fail], |data|, 32768) == 0 < |data|
  {
    var f := new File(data, [Fail]);
    var chunks, fileSize;
    ok, chunks, checksum, fileSize := SplitIntoChunks(f, size, hash);
    assert f.data[..0] == [];
  }

  lemma PartitionNext(chunks: seq<Chunk>, data: Bytes, c: Chunk, size: nat, hash: Bytes -> string)
    requires Partition(chunks, data, c.offset, size, hash) && c.index == |chunks| && 0 < c.size <= size
    requires c.offset + c.size <= |data| && c.hash == hash(data[c.offset..c.offset + c.size])
    ensures Partition(chunks + [c], data, c.offset + c.size, size, hash)
    ensures AllChunksFull(chunks, size) ==>
              FullChunks(chunks + [c], size) && (c.size == size ==> AllChunksFull(chunks + [c], size))
  {
    assert (chunks + [c])[..|chunks|] == chunks;
  }

  // The second pass.
  method CutAll(f: File, size: nat, hash: Bytes -> string) returns (ok: bool, chunks: seq<Chunk>)
    requires f.Valid() && f.off == 0 && size > 0
    modifies f
    ensures Rest(old(f.plan), f.plan) && (ok <==> Fail !in Taken(old(f.plan), f.plan))
    ensures f.plan == Unread(old(f.plan), |f.data|, size)
    ensures if ok then Partition(chunks, f.data, |f.data|, size, hash) else chunks == []
    ensures old(f.plan) == [] ==> ok && FullChunks(chunks, size)
  {
    chunks := [];
    var offset, idx := 0, 0;
    var buf := new bv8[size];
    while true
      invariant f.Valid() && f.off == offset && idx == |chunks| && buf.Length == size
      invariant Partition(chunks, f.data, offset, size, hash)
      invariant Unread(f.plan, |f.data| - f.off, size) == Unread(old(f.plan), |f.data|, size)
      invariant Rest(old(f.plan), f.plan) && Fail !in Taken(old(f.plan), f.plan)
      invariant old(f.plan) == [] && offset < |f.data| ==> AllChunksFull(chunks, size)
      invariant old(f.plan) == [] ==> FullChunks(chunks, size)
      decreases |f.plan|, |f.data| - f.off
    {
      ghost var before := f.plan;
      var r := f.Read(buf);
      TakenNext(old(f.plan), before, f.plan);
      match r {
        case Bytes(n) =>
          if n > 0 {
            var c := Chunk(idx, offset, n, hash(buf[..n]));
            PartitionNext(chunks, f.data, c, size, hash);
            chunks := chunks + [c];
            offset := offset + n;
            idx := idx + 1;
          }
        case EndOfFile =>
          ok := true;
          return;
        case Failure =>
          ok, chunks := false, [];
          return;
      }
    }
  }

  /** fileservice.ReadChunk: one read at the chunk's offset. It fails if that read does or finds the end of the file,
      and otherwise gives a part of the chunk, all of it if the read is full. */
  method ReadChunk(f: File, c: Chunk) returns (ok: bool, bytes: Bytes)
    requires f.Valid() && c.size > 0
    modifies f
    ensures ok <==> c.offset < |f.data| && (old(f.plan) == [] || !old(f.plan)[0].Fail?)
    ensures ok ==> bytes <= Piece(f.data, c)
    ensures ok && old(f.plan) == [] ==> bytes == Piece(f.data, c)
  {
    if c.offset >= |f.data| {
      return false, [];
    }
    f.Seek(c.offset);
    var buf := new bv8[c.size];
    var r := f.Read(buf);
    match r {
      case Bytes(n) =>
        return true, buf[..n];
      case _ =>
        return false, [];
    }
  }

  /** filetransfer.SplitFile: the chunks' bytes, hashed chunk by chunk with a streaming hash, under any sequence of
      short reads. It fails exactly if a read does. */
  method SplitFile<H(!new)>(f: File, size: nat, init: H, update: (H, Bytes) -> H)
    returns (ok: bool, chunks: seq<Bytes>, hash: H)
    requires f.Valid() && f.off == 0 && size > 0
    requires Streaming(update)
    modifies f
    ensures Rest(old(f.plan), f.plan) && (ok <==> Fail !in Taken(old(f.plan), f.plan))
    ensures f.Valid() && Concat(chunks) == f.data[..f.off] && Pieces(chunks, size)
    ensures ok ==> Concat(chunks) == f.data && hash == update(init, f.data)
    ensures old(f.plan) == [] ==> ok && FullPieces(chunks, size)
  {
    chunks, hash := [], init;
    var buf := new bv8[size];
    assert f.data[..0] == [];
    while true
      invariant f.Valid() && buf.Length == size
      invariant Concat(chunks) == f.data[..f.off] && hash == update(init, f.data[..f.off])
      invariant Pieces(chunks, size)
      invariant Rest(old(f.plan), f.plan) && Fail !in Taken(old(f.plan), f.plan)
      invariant old(f.plan) == [] ==> FullPieces(chunks, size) && (f.off < |f.data| ==> AllFull(chunks, size))
      decreases |f.plan|, |f.data| - f.off
    {
      ghost var before, was := f.plan, f.off;
      var r := f.Read(buf);
      TakenNext(old(f.plan), before, f.plan);
      match r {
        case Bytes(n) =>
          if n > 0 {
            var c := buf[..n];
            SplitNext(update, init, f.data, was, f.off, chunks, size);
            chunks := chunks + [c];
            hash := update(hash, c);
          }
        case EndOfFile =>
          assert f.data[..f.off] == f.data;
          ok := true;
          return;
        case Failure =>
          ok := false;
          return;
      }
    }
  }

  // Pieces of 1 to `size` bytes.
  predicate Pieces(pieces: seq<Bytes>, size: nat) {
    forall k :: 0 <= k < |pieces| ==> 0 < |pieces[k]| <= size
  }

  predicate AllFull(pieces: seq<Bytes>, size: nat) {
    forall k :: 0 <= k < |pieces| ==> |pieces[k]| == size
  }

  // All but the last full.
  predicate FullPieces(pieces: seq<Bytes>, size: nat) {
    Pieces(pieces, size) && forall k :: 0 <= k < |pieces| - 1 ==> |pieces[k]| == size
  }

  lemma AddPiece(pieces: seq<Bytes>, c: Bytes, size: nat)
    requires Pieces(pieces, size) && 0 < |c| <= size
    ensures Concat(pieces + [c]) == Concat(pieces) + c && Pieces(pieces + [c], size)
    ensures AllFull(pieces, size) ==> FullPieces(pieces + [c], size) && (|c| == size ==> AllFull(pieces + [c], size))
  {
    ConcatSnoc(pieces, c);
  }

  // One more chunk, and the hash of all of them.
  lemma SplitNext<H(!new)>(update: (H, Bytes) -> H, init: H, data: Bytes, mid: nat, end: nat, pieces: seq<Bytes>,
          size: nat)
    requires Streaming(update) && mid < end <= |data| && end - mid <= size
    requires Concat(pieces) == data[..mid] && Pieces(pieces, size)
    ensures var c := data[mid..end];
            && update(update(init, data[..mid]), c) == update(init, data[..end])
            && Concat(pieces + [c]) == data[..end] && Pieces(pieces + [c], size)
            && (AllFull(pieces, size) ==>
                  FullPieces(pieces + [c], size) && (|c| == size ==> AllFull(pieces + [c], size)))
  {
    Absorb(update, init, data, mid, end);
    AddPiece(pieces, data[mid..end], size);
    JoinSlices(data, mid, end);
  }

  lemma Absorb<H(!new)>(update: (H, Bytes) -> H, init: H, data: Bytes, mid: nat, end: nat)
    requires Streaming(update) && mid <= end <= |data|
    ensures update(update(init, data[..mid]), data[mid..end]) == update(init, data[..end])
  {
    assert InParts(update, init, data[..mid], data[mid..end]);
    JoinSlices(data, mid, end);
  }

  ghost predicate InParts<H(!new)>(update: (H, Bytes) -> H, h: H, a: Bytes, b: Bytes) {
    update(update(h, a), b) == update(h, a + b)
  }

  // A hash that takes its input in parts: one update with a whole equals two updates with its parts.
  ghost predicate Streaming<H(!new)>(update: (H, Bytes) -> H) {
    && (forall h :: update(h, []) == h)
    && (forall h, a, b :: InParts(update, h, a, b))
  }

  /** The TypeScript client's loop over subarrays. */
  method SliceLoop(data: Bytes, size: nat) returns (chunks: seq<Bytes>)
    requires size > 0
    ensures chunks == Slices(data, size)
  {
    chunks := [];
    var i := 0;
    while i < |data|
      invariant i == |chunks| * size
      invariant |chunks| <= |Slices(data, size)|
      invariant forall k :: 0 <= k < |chunks| ==> chunks[k] == Slices(data, size)[k]
      decreases |data| - i
    {
      SlicesAt(data, size, |chunks|);
      MulStep(|chunks|, size);
      chunks := chunks + [data[i..Min(i + size, |data|)]];
      i := i + size;
    }
    SlicesAt(data, size, |chunks|);
  }

  // ---------------------------------------------------------------- the splitters agree

  lemma {:induction false} ConcatSlices(data: Bytes, size: nat)
    requires size > 0
    ensures Concat(Slices(data, size)) == data
    decreases |data|
  {
    if |data| == 0 {
    } else if |data| <= size {
      assert [data][..0] == [];
    } else {
      ConcatSlices(data[size..], size);
      ConcatCons(data[..size], Slices(data[size..], size));
    }
  }

  lemma {:induction false} ConcatCons(first: Bytes, rest: seq<Bytes>)
    ensures Concat([first] + rest) == first + Concat(rest)
  {
    if rest == [] {
      assert ([first] + rest)[..0] == [];
      assert Concat([first] + rest) == Concat([]) + first;
    } else {
      var k := |rest| - 1;
      assert ([first] + rest)[..k + 1] == [first] + rest[..k];
      ConcatCons(first, rest[..k]);
    }
  }

  /** There is one way only to cut a file into pieces that are full but for the last: with full reads SplitFile gives
      what the TypeScript loop gives. */
  lemma {:induction false} FullPiecesAreSlices(pieces: seq<Bytes>, size: nat)
    requires size > 0 && FullPieces(pieces, size)
    ensures Slices(Concat(pieces), size) == pieces
  {
    if pieces == [] {
    } else {
      var first, rest := pieces[0], pieces[1..];
      assert pieces == [first] + rest;
      ConcatCons(first, rest);
      FullPiecesAreSlices(rest, size);
      if rest == [] {
        assert Concat(rest) == [];
        assert Concat(pieces) == first;
      } else {
        var data := Concat(pieces);
        NonEmptyConcat(rest, size);
        assert data[..size] == first && data[size..] == Concat(rest);
      }
    }
  }

  lemma NonEmptyConcat(pieces: seq<Bytes>, size: nat)
    requires pieces != [] && FullPieces(pieces, size)
    ensures |Concat(pieces)| > 0
  {
  }

  // The bytes each chunk stands for.
  function Contents(chunks: seq<Chunk>, data: Bytes): (r: seq<Bytes>)
    ensures |r| == |chunks|
  {
    if chunks == [] then [] else Contents(chunks[..|chunks| - 1], data) + [Piece(data, chunks[|chunks| - 1])]
  }

  lemma PieceIs(data: Bytes, c: Chunk, end: nat)
    requires c.offset + c.size == end <= |data|
    ensures Piece(data, c) == data[c.offset..end]
  {
  }

  lemma {:induction false} ContentsCover(chunks: seq<Chunk>, data: Bytes, end: nat, size: nat, hash: Bytes -> string)
    requires Partition(chunks, data, end, size, hash)
    ensures Concat(Contents(chunks, data)) == data[..end]
  {
    if chunks != [] {
      var k := |chunks| - 1;
      var lo := chunks[k].offset;
      ContentsCover(chunks[..k], data, lo, size, hash);
      PieceIs(data, chunks[k], end);
      ConcatSnoc(Contents(chunks[..k], data), data[lo..end]);
      JoinSlices(data, lo, end);
    }
  }

  lemma ConcatSnoc(pieces: seq<Bytes>, last: Bytes)
    ensures Concat(pieces + [last]) == Concat(pieces) + last
  {
    assert (pieces + [last])[..|pieces|] == pieces;
  }

  lemma JoinSlices(data: Bytes, lo: nat, end: nat)
    requires lo <= end <= |data|
    ensures data[..lo] + data[lo..end] == data[..end]
  {
  }

  lemma {:induction false} ContentsSizes(chunks: seq<Chunk>, data: Bytes, end: nat, size: nat,
          hash: Bytes -> string, j: nat)
    requires Partition(chunks, data, end, size, hash) && j < |chunks|
    ensures |Contents(chunks, data)[j]| == chunks[j].size && 0 < chunks[j].size <= size
  {
    var k := |chunks| - 1;
    if j < k {
      ContentsSizes(chunks[..k], data, chunks[k].offset, size, hash, j);
      assert Contents(chunks, data)[j] == Contents(chunks[..k], data)[j];
    }
  }

  /** With full reads SplitIntoChunks describes, chunk for chunk, the slices of the TypeScript loop, and chunk k starts
      at k times the chunk size. */
  lemma SplittersAgree(chunks: seq<Chunk>, data: Bytes, size: nat, hash: Bytes -> string)
    requires size > 0 && Partition(chunks, data, |data|, size, hash) && FullChunks(chunks, size)
    ensures Contents(chunks, data) == Slices(data, size)
    ensures forall k :: 0 <= k < |chunks| ==> chunks[k].offset == k * size
  {
    ContentsCover(chunks, data, |data|, size, hash);
    forall j | 0 <= j < |chunks|
      ensures |Contents(chunks, data)[j]| == chunks[j].size && 0 < chunks[j].size <= size
    {
      ContentsSizes(chunks, data, |data|, size, hash, j);
    }
    assert data[..|data|] == data;
    FullPiecesAreSlices(Contents(chunks, data), size);
    OffsetsRegular(chunks, data, |data|, size, hash);
  }

  lemma {:induction false} OffsetsRegular(chunks: seq<Chunk>, data: Bytes, end: nat, size: nat, hash: Bytes -> string)
    requires Partition(chunks, data, end, size, hash) && FullChunks(chunks, size)
    ensures forall k :: 0 <= k < |chunks| ==> chunks[k].offset == k * size
  {
    if |chunks| > 0 {
      var k := |chunks| - 1;
      OffsetsRegular(chunks[..k], data, chunks[k].offset, size, hash);
      assert forall j :: 0 <= j < k ==> chunks[..k][j] == chunks[j];
      PartitionAt(chunks, data, end, size, hash, k);
      if k > 0 {
        MulStep(k - 1, size);
      }
    }
  }
}
