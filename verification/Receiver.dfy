/** The receiving side (internal/filetransfer/transfer.go): chunks written at their offsets, in any order. */
module Receiver {
  import opened Splitter

  const CHUNK_SIZE: nat := 65536

  // Where chunk k is written, and the slot and the place in it of byte i.
  function Offset(k: nat): nat {
    k * 65536
  }

  function Slot(i: nat): nat {
    i / 65536
  }

  function Place(i: nat): nat {
    i % 65536
  }

  // One incoming file. `open` is whether its file handle is still open.
  datatype Incoming = Incoming(path: string, total: int, received: set<int>, open: bool)

  datatype Store = Store(incoming: map<string, Incoming>, disk: map<string, Bytes>, completed: seq<string>)

  datatype Reply = Done | UnknownTransfer | WriteFailed | AssembleFailed

  // os.File.WriteAt: overwrite, extending the file with zeros where needed; writing nothing changes nothing.
  function WriteAt(content: Bytes, off: nat, data: Bytes): (r: Bytes)
    ensures |r| == if data == [] then |content| else if off + |data| > |content| then off + |data| else |content|
    ensures forall i :: 0 <= i < |r| ==>
              r[i] == if off <= i < off + |data| then data[i - off] else if i < |content| then content[i] else 0
  {
    if data == [] then content
    else
      var end := if off + |data| > |content| then off + |data| else |content|;
      seq(end, i requires 0 <= i < end =>
        if off <= i < off + |data| then data[i - off] else if i < |content| then content[i] else 0)
  }

  function FileOf(st: Store, path: string): Bytes {
    if path in st.disk then st.disk[path] else []
  }

  function Prepare(st: Store, id: string, path: string, total: int): Store {
    st.(incoming := st.incoming[id := Incoming(path, total, {}, true)], disk := st.disk[path := []])
  }

  // `landed` bytes of the chunk reach the file; fewer than all of them is a failed write. A negative index is refused
  // by WriteAt while the file is open. Once every index is there the file is closed; whether it can then be reopened
  // and read, for the hash, decides whether completion is reported.
  function AddChunk(st: Store, id: string, idx: int, data: Bytes, landed: nat, readable: bool): (Store, Reply)
    requires landed <= |data|
  {
    if id !in st.incoming then (st, UnknownTransfer)
    else
      var fi := st.incoming[id];
      if fi.open && idx < 0 then (st, WriteFailed)
      else
        var disk :=
          if fi.open then st.disk[fi.path := WriteAt(FileOf(st, fi.path), Offset(idx), data[..landed])] else st.disk;
        if fi.open && landed < |data| then (st.(disk := disk), WriteFailed)
        else
          var got := fi.received + {idx};
          if |got| == fi.total then
            var completed := if readable then st.completed + [id] else st.completed;
            (Store(st.incoming[id := fi.(received := got, open := false)], disk, completed),
             if readable then Done else AssembleFailed)
          else
            (Store(st.incoming[id := fi.(received := got)], disk, st.completed), Done)
  }

  // The manager in the source's own form.
  class Manager {
    var incoming: map<string, Incoming>
    var disk: map<string, Bytes>
    var completed: seq<string>

    ghost function View(): Store
      reads this
    {
      Store(incoming, disk, completed)
    }

    constructor ()
      ensures View() == Store(map[], map[], [])
    {
      incoming, disk, completed := map[], map[], [];
    }

    method PrepareIncoming(id: string, path: string, total: int)
      modifies this
      ensures View() == Prepare(old(View()), id, path, total)
    {
      disk := disk[path := []];
      incoming := incoming[id := Incoming(path, total, {}, true)];
    }

    method Accept(id: string, idx: int, data: Bytes, landed: nat, readable: bool) returns (reply: Reply)
      requires landed <= |data|
      modifies this
      ensures (View(), reply) == AddChunk(old(View()), id, idx, data, landed, readable)
    {
      if id !in incoming {
        return UnknownTransfer;
      }
      var fi := incoming[id];
      if fi.open {
        if idx < 0 {
          return WriteFailed;
        }
        var content := if fi.path in disk then disk[fi.path] else [];
        disk := disk[fi.path := WriteAt(content, Offset(idx), data[..landed])];
        if landed < |data| {
          return WriteFailed;
        }
      }
      incoming := incoming[id := fi.(received := fi.received + {idx})];
      if |incoming[id].received| == fi.total {
        reply := Assemble(id, readable);
        assert incoming == old(incoming)[id := fi.(received := fi.received + {idx}, open := false)];
        return;
      }
      reply := Done;
    }

    // Closing the file, hashing it, and reporting it.
    method Assemble(id: string, readable: bool) returns (reply: Reply)
      requires id in incoming
      modifies this
      ensures incoming == old(incoming)[id := old(incoming)[id].(open := false)] && disk == old(disk)
      ensures if readable then completed == old(completed) + [id] && reply == Done
              else completed == old(completed) && reply == AssembleFailed
    {
      incoming := incoming[id := incoming[id].(open := false)];
      if !readable {
        return AssembleFailed;
      }
      completed := completed + [id];
      reply := Done;
    }
  }

  // ---------------------------------------------------------------- deliveries

  datatype Event =
    | Meta(id: string, path: string, total: int)
    | Data(id: string, idx: int, data: Bytes, landed: nat, readable: bool)

  predicate EventOk(e: Event) {
    e.Data? ==> e.landed <= |e.data|
  }

  function Deliver(st: Store, e: Event): Store
    requires EventOk(e)
  {
    match e
    case Meta(id, path, total) => Prepare(st, id, path, total)
    case Data(id, idx, data, landed, readable) => AddChunk(st, id, idx, data, landed, readable).0
  }

  function DeliverAll(st: Store, es: seq<Event>): Store
    requires forall e :: e in es ==> EventOk(e)
  {
    if es == [] then st else Deliver(DeliverAll(st, es[..|es| - 1]), es[|es| - 1])
  }

  // The event belongs to the transfer `id` of these pieces, or to a transfer of another file.
  predicate Genuine(e: Event, id: string, path: string, pieces: seq<Bytes>) {
    && EventOk(e)
    && (e.Meta? ==> e.id != id && e.path != path)
    && (e.Data? && e.id == id ==> 0 <= e.idx < |pieces| && e.data == pieces[e.idx])
  }

  // The chunks of the transfer that have been written in full.
  function Landed(es: seq<Event>, id: string): set<int> {
    set k | 0 <= k < |es| && es[k].Data? && es[k].id == id && es[k].landed == |es[k].data| :: es[k].idx
  }

  // ---------------------------------------------------------------- the target file

  // The byte that belongs at position i: from the piece whose slot covers i, or a zero in the gap after it.
  function ByteAt(pieces: seq<Bytes>, i: nat): bv8 {
    var k := Slot(i);
    var r := Place(i);
    if k < |pieces| && r < |pieces[k]| then pieces[k][r] else 0
  }

  // The file that all the pieces at their offsets make.
  function Target(pieces: seq<Bytes>): (r: Bytes)
    ensures |r| == if pieces == [] then 0 else Offset(|pieces| - 1) + |pieces[|pieces| - 1]|
    ensures forall i :: 0 <= i < |r| ==> r[i] == ByteAt(pieces, i)
  {
    if pieces == [] then []
    else
      var n := |pieces| - 1;
      seq(Offset(n) + |pieces[n]|, i requires 0 <= i => ByteAt(pieces, i))
  }

  // Every byte written is the target's, and bytes not yet written are zero; a received piece is there in full.
  ghost predicate PartOf(content: Bytes, pieces: seq<Bytes>, got: set<int>) {
    && |content| <= |Target(pieces)|
    && (forall i :: 0 <= i < |content| ==> content[i] == ByteAt(pieces, i) || content[i] == 0)
    && (forall i :: 0 <= i < |content| && Slot(i) in got ==> content[i] == ByteAt(pieces, i))
    && (forall k :: 0 <= k < |pieces| && k in got ==> Offset(k) + |pieces[k]| <= |content|)
  }

  ghost predicate AllOf(got: set<int>, n: nat) {
    forall k :: 0 <= k < n ==> k in got
  }

  ghost predicate Good(st: Store, id: string, path: string, pieces: seq<Bytes>, got: set<int>) {
    && id in st.incoming && st.incoming[id].path == path && st.incoming[id].total == |pieces|
    && (forall other :: other in st.incoming && other != id ==> st.incoming[other].path != path)
    && st.incoming[id].received == got && (forall k :: k in got ==> 0 <= k < |pieces|)
    && st.incoming[id].open == !AllOf(got, |pieces|)
    && path in st.disk
    && (if AllOf(got, |pieces|) then st.disk[path] == Target(pieces) else PartOf(st.disk[path], pieces, got))
  }

  // Pigeonhole: a set of indices below n has n elements exactly if it has all of them.
  lemma {:induction false} FullSet(got: set<int>, n: nat)
    requires forall k :: k in got ==> 0 <= k < n
    ensures |got| <= n && (|got| == n <==> AllOf(got, n))
  {
    if n == 0 {
      assert forall k :: k in got <==> k in {};
    } else {
      FullSet(got - {n - 1}, n - 1);
      assert AllOf(got, n) <==> n - 1 in got && AllOf(got - {n - 1}, n - 1);
    }
  }

  lemma SlotOf(i: nat, k: nat)
    ensures Offset(k) <= i < Offset(k + 1) <==> Slot(i) == k
    ensures Slot(i) == k ==> Place(i) == i - Offset(k)
    ensures i < Offset(k + 1) ==> Slot(i) <= k
  {
  }

  lemma TargetCovers(pieces: seq<Bytes>, k: nat)
    requires Pieces(pieces, CHUNK_SIZE) && k < |pieces|
    ensures Offset(k) + |pieces[k]| <= |Target(pieces)|
  {
    var n := |pieces| - 1;
    assert |pieces[k]| <= 65536;
  }

  // Writing a prefix of piece k at its offset.
  lemma WritePiece(content: Bytes, pieces: seq<Bytes>, got: set<int>, k: nat, landed: nat)
    requires Pieces(pieces, CHUNK_SIZE) && PartOf(content, pieces, got) && k < |pieces| && landed <= |pieces[k]|
    ensures var content' := WriteAt(content, Offset(k), pieces[k][..landed]);
            && PartOf(content', pieces, got)
            && (landed == |pieces[k]| ==> PartOf(content', pieces, got + {k}))
  {
    var off := Offset(k);
    var data := pieces[k][..landed];
    var content' := WriteAt(content, off, data);
    TargetCovers(pieces, k);
    forall i | 0 <= i < |content'|
      ensures content'[i] == ByteAt(pieces, i) || content'[i] == 0
      ensures Slot(i) in got ==> content'[i] == ByteAt(pieces, i)
      ensures Slot(i) == k && landed == |pieces[k]| ==> content'[i] == ByteAt(pieces, i)
    {
      SlotOf(i, k);
      WrittenByte(content, pieces, got, k, landed, i);
    }
  }

  lemma WrittenByte(content: Bytes, pieces: seq<Bytes>, got: set<int>, k: nat, landed: nat, i: nat)
    requires Pieces(pieces, CHUNK_SIZE) && PartOf(content, pieces, got) && k < |pieces| && landed <= |pieces[k]|
    requires i < |WriteAt(content, Offset(k), pieces[k][..landed])|
    ensures var b := WriteAt(content, Offset(k), pieces[k][..landed])[i];
            && (b == ByteAt(pieces, i) || b == 0)
            && (Slot(i) in got ==> b == ByteAt(pieces, i))
            && (Slot(i) == k && landed == |pieces[k]| ==> b == ByteAt(pieces, i))
  {
    SlotOf(i, k);
    var s := Slot(i);
    SlotOf(i, s);
    if i >= |content| && s in got && !(Offset(k) <= i < Offset(k) + landed) {
      if s < |pieces| {
        assert Offset(s) + |pieces[s]| <= |content|;
      }
    }
    if s == k && landed == |pieces[k]| && i < |content| && i >= Offset(k) + landed {
      assert ByteAt(pieces, i) == 0;
    }
  }

  lemma CompleteIsTarget(content: Bytes, pieces: seq<Bytes>, got: set<int>)
    requires Pieces(pieces, CHUNK_SIZE) && pieces != [] && PartOf(content, pieces, got) && AllOf(got, |pieces|)
    ensures content == Target(pieces)
  {
    var n := |pieces| - 1;
    assert n in got;
    forall i | 0 <= i < |content| ensures content[i] == ByteAt(pieces, i) {
      SlotOf(i, n);
    }
  }

  // ---------------------------------------------------------------- reassembly

  lemma OtherEvent(st: Store, e: Event, id: string, path: string, pieces: seq<Bytes>, got: set<int>)
    requires Good(st, id, path, pieces, got) && Genuine(e, id, path, pieces) && e.id != id
    ensures Good(Deliver(st, e), id, path, pieces, got)
  {
    if e.Data? {
      OtherChunk(st, e, id, path);
    }
  }

  // A chunk of another transfer, to another path.
  lemma OtherChunk(st: Store, e: Event, id: string, path: string)
    requires EventOk(e) && e.Data? && e.id != id
    requires forall other :: other in st.incoming && other != id ==> st.incoming[other].path != path
    ensures var st' := Deliver(st, e);
            && st'.incoming.Keys == st.incoming.Keys
            && (id in st.incoming ==> st'.incoming[id] == st.incoming[id])
            && (path in st.disk ==> path in st'.disk && st'.disk[path] == st.disk[path])
            && forall other :: other in st'.incoming ==> st'.incoming[other].path == st.incoming[other].path
  {
  }

  // A chunk that arrives while the file is open.
  lemma OpenChunk(content: Bytes, pieces: seq<Bytes>, got: set<int>, k: nat, landed: nat)
    requires Pieces(pieces, CHUNK_SIZE) && PartOf(content, pieces, got) && k < |pieces| && landed <= |pieces[k]|
    ensures var content' := WriteAt(content, Offset(k), pieces[k][..landed]);
            if landed < |pieces[k]| then PartOf(content', pieces, got)
            else if AllOf(got + {k}, |pieces|) then content' == Target(pieces)
            else PartOf(content', pieces, got + {k})
  {
    WritePiece(content, pieces, got, k, landed);
    if landed == |pieces[k]| && AllOf(got + {k}, |pieces|) {
      CompleteIsTarget(WriteAt(content, Offset(k), pieces[k][..landed]), pieces, got + {k});
    }
  }

  // The store after a chunk of the transfer.
  lemma OwnStore(st: Store, id: string, path: string, pieces: seq<Bytes>, got: set<int>, k: nat, landed: nat,
          readable: bool)
    requires Good(st, id, path, pieces, got) && k < |pieces| && landed <= |pieces[k]|
    ensures var st' := AddChunk(st, id, k, pieces[k], landed, readable).0;
            var got' := if landed == |pieces[k]| then got + {k} else got;
            && st'.incoming.Keys == st.incoming.Keys
            && st'.incoming[id] == Incoming(path, |pieces|, got', !AllOf(got', |pieces|))
            && (forall other :: other in st.incoming && other != id ==> st'.incoming[other] == st.incoming[other])
            && path in st'.disk
            && st'.disk[path] == if AllOf(got, |pieces|) then st.disk[path]
                                 else WriteAt(st.disk[path], Offset(k), pieces[k][..landed])
  {
    FullSet(got, |pieces|);
    FullSet(got + {k}, |pieces|);
    if AllOf(got, |pieces|) {
      assert got + {k} == got;
    }
  }

  lemma OpenEvent(st: Store, id: string, path: string, pieces: seq<Bytes>, got: set<int>, k: nat, landed: nat,
          readable: bool)
    requires Pieces(pieces, CHUNK_SIZE) && Good(st, id, path, pieces, got) && k < |pieces| && landed <= |pieces[k]|
    requires !AllOf(got, |pieces|)
    ensures Good(AddChunk(st, id, k, pieces[k], landed, readable).0, id, path, pieces,
                 if landed == |pieces[k]| then got + {k} else got)
  {
    OwnStore(st, id, path, pieces, got, k, landed, readable);
    OpenChunk(st.disk[path], pieces, got, k, landed);
  }

  lemma LateEvent(st: Store, id: string, path: string, pieces: seq<Bytes>, got: set<int>, k: nat, landed: nat,
          readable: bool)
    requires Good(st, id, path, pieces, got) && k < |pieces| && landed <= |pieces[k]|
    requires AllOf(got, |pieces|)
    ensures Good(AddChunk(st, id, k, pieces[k], landed, readable).0, id, path, pieces, got) && got + {k} == got
  {
    OwnStore(st, id, path, pieces, got, k, landed, readable);
    assert got + {k} == got;
  }

  lemma OwnEvent(st: Store, e: Event, id: string, path: string, pieces: seq<Bytes>, got: set<int>)
    requires Pieces(pieces, CHUNK_SIZE) && Good(st, id, path, pieces, got)
    requires Genuine(e, id, path, pieces) && e.Data? && e.id == id
    ensures Good(Deliver(st, e), id, path, pieces, if e.landed == |e.data| then got + {e.idx} else got)
  {
    if AllOf(got, |pieces|) {
      LateEvent(st, id, path, pieces, got, e.idx, e.landed, e.readable);
    } else {
      OpenEvent(st, id, path, pieces, got, e.idx, e.landed, e.readable);
    }
  }

  lemma PreparedIsGood(st: Store, id: string, path: string, pieces: seq<Bytes>)
    requires pieces != []
    requires forall other :: other in st.incoming && other != id ==> st.incoming[other].path != path
    ensures Good(Prepare(st, id, path, |pieces|), id, path, pieces, {})
  {
    var none: set<int> := {};
    assert 0 !in none;
  }

  lemma LandedNext(es: seq<Event>, e: Event, id: string)
    ensures Landed(es + [e], id)
         == Landed(es, id) + if e.Data? && e.id == id && e.landed == |e.data| then {e.idx} else {}
  {
    var all := es + [e];
    forall x | x in Landed(es, id) ensures x in Landed(all, id) {
      var k :| 0 <= k < |es| && es[k].Data? && es[k].id == id && es[k].landed == |es[k].data| && es[k].idx == x;
      assert all[k] == es[k];
    }
    if e.Data? && e.id == id && e.landed == |e.data| {
      assert all[|es|] == e;
    }
    forall x | x in Landed(all, id)
      ensures x in Landed(es, id) || (e.Data? && e.id == id && e.landed == |e.data| && x == e.idx)
    {
      var k :| 0 <= k < |all| && all[k].Data? && all[k].id == id && all[k].landed == |all[k].data| && all[k].idx == x;
      if k < |es| {
        assert all[k] == es[k];
      }
    }
  }

  lemma {:induction false} DeliveriesKeepGood(st: Store, es: seq<Event>, id: string, path: string, pieces: seq<Bytes>)
    requires Pieces(pieces, CHUNK_SIZE) && Good(st, id, path, pieces, {})
    requires forall e :: e in es ==> Genuine(e, id, path, pieces)
    ensures forall e :: e in es ==> EventOk(e)
    ensures Good(DeliverAll(st, es), id, path, pieces, Landed(es, id))
  {
    if es == [] {
      assert Landed(es, id) == {};
    } else {
      var front, e := es[..|es| - 1], es[|es| - 1];
      assert es == front + [e] && e in es;
      DeliveriesKeepGood(st, front, id, path, pieces);
      GoodMore(st, front, e, id, path, pieces);
    }
  }

  lemma GoodMore(st: Store, es: seq<Event>, e: Event, id: string, path: string, pieces: seq<Bytes>)
    requires Pieces(pieces, CHUNK_SIZE) && Genuine(e, id, path, pieces) && forall x :: x in es ==> EventOk(x)
    requires Good(DeliverAll(st, es), id, path, pieces, Landed(es, id))
    ensures forall x :: x in es + [e] ==> EventOk(x)
    ensures Good(DeliverAll(st, es + [e]), id, path, pieces, Landed(es + [e], id))
  {
    LandedNext(es, e, id);
    GoodStep(DeliverAll(st, es), e, id, path, pieces, Landed(es, id), Landed(es + [e], id));
    DeliverMore(st, es, e);
  }

  lemma DeliverMore(st: Store, es: seq<Event>, e: Event)
    requires EventOk(e) && forall x :: x in es ==> EventOk(x)
    ensures forall x :: x in es + [e] ==> EventOk(x)
    ensures DeliverAll(st, es + [e]) == Deliver(DeliverAll(st, es), e)
  {
    assert (es + [e])[..|es|] == es;
  }

  lemma GoodStep(st: Store, e: Event, id: string, path: string, pieces: seq<Bytes>, got: set<int>, got': set<int>)
    requires Pieces(pieces, CHUNK_SIZE) && Good(st, id, path, pieces, got) && Genuine(e, id, path, pieces)
    requires got' == got + if e.Data? && e.id == id && e.landed == |e.data| then {e.idx} else {}
    ensures Good(Deliver(st, e), id, path, pieces, got')
  {
    assert got + {} == got;
    if e.id == id {
      OwnEvent(st, e, id, path, pieces, got);
    } else {
      OtherEvent(st, e, id, path, pieces, got);
    }
  }

  /** Reassembly, for pieces of any sizes up to the chunk size, delivered in any order, with any duplicates and failed
      writes, and interleaved with any transfers to other paths: the file is assembled (its handle closed) exactly
      when every index has been written in full, and from then on, whatever arrives, it is the target file. */
  lemma Reassembly(st: Store, es: seq<Event>, id: string, path: string, pieces: seq<Bytes>)
    requires Pieces(pieces, CHUNK_SIZE) && pieces != []
    requires forall other :: other in st.incoming && other != id ==> st.incoming[other].path != path
    requires forall e :: e in es ==> Genuine(e, id, path, pieces)
    ensures forall e :: e in es ==> EventOk(e)
    ensures var end := DeliverAll(Prepare(st, id, path, |pieces|), es);
            && id in end.incoming && end.incoming[id].path == path && path in end.disk
            && end.incoming[id].received == Landed(es, id)
            && (!end.incoming[id].open <==> AllOf(Landed(es, id), |pieces|))
            && (!end.incoming[id].open ==> end.disk[path] == Target(pieces))
  {
    PreparedIsGood(st, id, path, pieces);
    DeliveriesKeepGood(Prepare(st, id, path, |pieces|), es, id, path, pieces);
  }

  // ---------------------------------------------------------------- reports of completion

  lemma OwnReport(st: Store, e: Event, id: string, path: string, pieces: seq<Bytes>, got: set<int>)
    requires Good(st, id, path, pieces, got) && Genuine(e, id, path, pieces) && e.Data? && e.id == id
    ensures var got' := if e.landed == |e.data| then got + {e.idx} else got;
            id in Deliver(st, e).completed <==> id in st.completed || (e.readable && AllOf(got', |pieces|))
  {
    FullSet(got, |pieces|);
    FullSet(got + {e.idx}, |pieces|);
    if AllOf(got, |pieces|) {
      assert got + {e.idx} == got;
    }
  }

  // Chunk k of the deliveries comes when all are there, and the file can be read for its hash.
  ghost predicate ReportsAt(es: seq<Event>, k: nat, id: string, n: nat) {
    k < |es| && es[k].Data? && es[k].id == id && es[k].readable && AllOf(Landed(es[..k + 1], id), n)
  }

  lemma ReportsNext(es: seq<Event>, e: Event, k: nat, id: string, n: nat)
    ensures ReportsAt(es + [e], k, id, n) <==>
              if k == |es| then e.Data? && e.id == id && e.readable && AllOf(Landed(es + [e], id), n)
              else ReportsAt(es, k, id, n)
  {
    var all := es + [e];
    if k == |es| {
      assert all[..k + 1] == all;
    } else if k < |es| {
      assert all[..k + 1] == es[..k + 1];
    }
  }

  lemma ReportStep(st: Store, e: Event, id: string, path: string, pieces: seq<Bytes>, got: set<int>, got': set<int>)
    requires Good(st, id, path, pieces, got) && Genuine(e, id, path, pieces)
    requires got' == got + if e.Data? && e.id == id && e.landed == |e.data| then {e.idx} else {}
    ensures id in Deliver(st, e).completed <==>
              id in st.completed || (e.Data? && e.id == id && e.readable && AllOf(got', |pieces|))
  {
    if e.Data? && e.id == id {
      assert got + {} == got;
      OwnReport(st, e, id, path, pieces, got);
    }
  }

  lemma {:induction false} ReportsFollow(st: Store, es: seq<Event>, id: string, path: string, pieces: seq<Bytes>)
    requires Pieces(pieces, CHUNK_SIZE) && Good(st, id, path, pieces, {}) && id !in st.completed
    requires forall e :: e in es ==> Genuine(e, id, path, pieces)
    ensures forall e :: e in es ==> EventOk(e)
    ensures id in DeliverAll(st, es).completed <==> exists k: nat :: ReportsAt(es, k, id, |pieces|)
  {
    if es != [] {
      var front, e := es[..|es| - 1], es[|es| - 1];
      assert es == front + [e] && e in es;
      ReportsFollow(st, front, id, path, pieces);
      DeliveriesKeepGood(st, front, id, path, pieces);
      LandedNext(front, e, id);
      ReportStep(DeliverAll(st, front), e, id, path, pieces, Landed(front, id), Landed(es, id));
      ReportsNext(front, e, |front|, id, |pieces|);
      if k: nat :| ReportsAt(front, k, id, |pieces|) {
        ReportsNext(front, e, k, id, |pieces|);
      }
      if k: nat :| ReportsAt(es, k, id, |pieces|) {
        ReportsNext(front, e, k, id, |pieces|);
      }
    }
  }

  /** Completion is reported if and only if some chunk of the transfer comes when every index has been written in full,
      the last missing one or a late duplicate, and the file can be read for its hash at that moment. */
  lemma ReportedExactly(st: Store, es: seq<Event>, id: string, path: string, pieces: seq<Bytes>)
    requires Pieces(pieces, CHUNK_SIZE) && pieces != [] && id !in st.completed
    requires forall other :: other in st.incoming && other != id ==> st.incoming[other].path != path
    requires forall e :: e in es ==> Genuine(e, id, path, pieces)
    ensures forall e :: e in es ==> EventOk(e)
    ensures id in DeliverAll(Prepare(st, id, path, |pieces|), es).completed <==>
              exists k: nat :: ReportsAt(es, k, id, |pieces|)
  {
    PreparedIsGood(st, id, path, pieces);
    ReportsFollow(Prepare(st, id, path, |pieces|), es, id, path, pieces);
  }

  /** Chunks of transfers nobody has announced change nothing. */
  lemma {:induction false} UnannouncedIsLost(st: Store, es: seq<Event>)
    requires forall e :: e in es ==> e.Data? && EventOk(e) && e.id !in st.incoming
    ensures DeliverAll(st, es) == st
  {
    if es != [] {
      assert es[|es| - 1] in es;
      UnannouncedIsLost(st, es[..|es| - 1]);
    }
  }

  // ---------------------------------------------------------------- answers

  // The answer to a chunk.
  function Answer(st: Store, e: Event): Reply
    requires EventOk(e) && e.Data?
  {
    AddChunk(st, e.id, e.idx, e.data, e.landed, e.readable).1
  }

  // The answer to the k-th delivery, a chunk, after the ones before it.
  function AnswerAt(st: Store, es: seq<Event>, k: nat): Reply
    requires k < |es| && es[k].Data? && forall e :: e in es ==> EventOk(e)
  {
    Answer(DeliverAll(st, es[..k]), es[k])
  }

  lemma OwnAnswer(st: Store, e: Event, id: string, path: string, pieces: seq<Bytes>, got: set<int>, got': set<int>)
    requires Good(st, id, path, pieces, got) && Genuine(e, id, path, pieces) && e.Data? && e.id == id
    requires got' == got + if e.landed == |e.data| then {e.idx} else {}
    ensures Answer(st, e) == if e.landed < |e.data| && !AllOf(got, |pieces|) then WriteFailed
                             else if AllOf(got', |pieces|) && !e.readable then AssembleFailed
                             else Done
  {
    FullSet(got, |pieces|);
    FullSet(got + {e.idx}, |pieces|);
    if AllOf(got, |pieces|) {
      assert got + {e.idx} == got;
    }
  }

  /** What a chunk of an announced transfer is answered, over any genuine deliveries: Done or AssembleFailed if and only
      if it was written in full or came after assembly, AssembleFailed exactly if every index is there then and the file
      cannot be read, WriteFailed otherwise, and never UnknownTransfer. */
  lemma AnswersExactly(st: Store, es: seq<Event>, id: string, path: string, pieces: seq<Bytes>, k: nat)
    requires Pieces(pieces, CHUNK_SIZE) && pieces != []
    requires forall other :: other in st.incoming && other != id ==> st.incoming[other].path != path
    requires forall e :: e in es ==> Genuine(e, id, path, pieces)
    requires k < |es| && es[k].Data? && es[k].id == id
    ensures forall e :: e in es ==> EventOk(e)
    ensures var reply := AnswerAt(Prepare(st, id, path, |pieces|), es, k);
            var before, after := Landed(es[..k], id), Landed(es[..k + 1], id);
            && (reply == Done || reply == AssembleFailed <==>
                  es[k].landed == |es[k].data| || AllOf(before, |pieces|))
            && (reply == AssembleFailed <==> AllOf(after, |pieces|) && !es[k].readable)
            && reply != UnknownTransfer
  {
    var front := es[..k];
    assert forall e :: e in front ==> e in es;
    assert es[..k + 1] == front + [es[k]] && es[k] in es;
    PreparedIsGood(st, id, path, pieces);
    DeliveriesKeepGood(Prepare(st, id, path, |pieces|), front, id, path, pieces);
    LandedNext(front, es[k], id);
    OwnAnswer(DeliverAll(Prepare(st, id, path, |pieces|), front), es[k], id, path, pieces, Landed(front, id),
              Landed(es[..k + 1], id));
  }

  // Some chunk with this index has been answered Done.
  ghost predicate Confirmed(st: Store, es: seq<Event>, id: string, idx: int) {
    && (forall e :: e in es ==> EventOk(e))
    && exists k :: 0 <= k < |es| && es[k].Data? && es[k].id == id && es[k].idx == idx && AnswerAt(st, es, k) == Done
  }

  lemma LandedGrows(es: seq<Event>, k: nat, id: string)
    requires k <= |es|
    ensures Landed(es[..k], id) <= Landed(es, id)
  {
    forall x | x in Landed(es[..k], id)
      ensures x in Landed(es, id)
    {
      var i :| 0 <= i < k && es[..k][i].Data? && es[..k][i].id == id && es[..k][i].landed == |es[..k][i].data|
               && es[..k][i].idx == x;
      assert es[i] == es[..k][i];
    }
  }

  /** A sender can rely on the answers: once every index has been answered Done, the file is assembled and is the
      target. */
  lemma ConfirmedIsAssembled(st: Store, es: seq<Event>, id: string, path: string, pieces: seq<Bytes>)
    requires Pieces(pieces, CHUNK_SIZE) && pieces != []
    requires forall other :: other in st.incoming && other != id ==> st.incoming[other].path != path
    requires forall e :: e in es ==> Genuine(e, id, path, pieces)
    requires forall idx :: 0 <= idx < |pieces| ==> Confirmed(Prepare(st, id, path, |pieces|), es, id, idx)
    ensures forall e :: e in es ==> EventOk(e)
    ensures Assembled(DeliverAll(Prepare(st, id, path, |pieces|), es), id, path, Target(pieces))
  {
    forall idx | 0 <= idx < |pieces|
      ensures idx in Landed(es, id)
    {
      ConfirmedLanded(st, es, id, path, pieces, idx);
    }
    Reassembly(st, es, id, path, pieces);
  }

  lemma ConfirmedLanded(st: Store, es: seq<Event>, id: string, path: string, pieces: seq<Bytes>, idx: int)
    requires Pieces(pieces, CHUNK_SIZE) && 0 <= idx < |pieces|
    requires forall other :: other in st.incoming && other != id ==> st.incoming[other].path != path
    requires forall e :: e in es ==> Genuine(e, id, path, pieces)
    requires Confirmed(Prepare(st, id, path, |pieces|), es, id, idx)
    ensures idx in Landed(es, id)
  {
    var prepared := Prepare(st, id, path, |pieces|);
    var k :| 0 <= k < |es| && es[k].Data? && es[k].id == id && es[k].idx == idx && AnswerAt(prepared, es, k) == Done;
    AnswersExactly(st, es, id, path, pieces, k);
    LandedGrows(es, k, id);
  }

  // The event announces the transfer.
  predicate Announces(e: Event, id: string) {
    e.Meta? && e.id == id
  }

  lemma {:induction false} KnownIds(st: Store, es: seq<Event>, id: string)
    requires forall e :: e in es ==> EventOk(e)
    ensures id in DeliverAll(st, es).incoming <==>
              id in st.incoming || exists k :: 0 <= k < |es| && Announces(es[k], id)
  {
    if es != [] {
      var front, e := es[..|es| - 1], es[|es| - 1];
      assert es == front + [e] && e in es;
      KnownIds(st, front, id);
      if k :| 0 <= k < |front| && Announces(front[k], id) {
        assert Announces(es[k], id);
      }
      if Announces(e, id) {
        assert Announces(es[|front|], id);
      }
    }
  }

  /** Over any deliveries at all, a chunk is answered UnknownTransfer if and only if its transfer was neither known at
      the start nor announced before it. */
  lemma UnknownExactly(st: Store, es: seq<Event>, k: nat)
    requires (forall e :: e in es ==> EventOk(e)) && k < |es| && es[k].Data?
    ensures AnswerAt(st, es, k) == UnknownTransfer <==>
              es[k].id !in st.incoming && forall i :: 0 <= i < k ==> !Announces(es[i], es[k].id)
  {
    var front := es[..k];
    assert forall i :: 0 <= i < k ==> front[i] == es[i];
    KnownIds(st, front, es[k].id);
    if i :| 0 <= i < k && Announces(es[i], es[k].id) {
      assert Announces(front[i], es[k].id);
    }
  }

  // ---------------------------------------------------------------- any indices at all

  // The chunk is written in full, at a place that a file has.
  predicate Fits(e: Event, id: string) {
    e.Data? && e.id == id && e.idx >= 0 && e.landed == |e.data|
  }

  // The indices, right or wrong, of the chunks written in full.
  function Taken(es: seq<Event>, id: string): set<int> {
    set k | 0 <= k < |es| && Fits(es[k], id) :: es[k].idx
  }

  lemma TakenMore(es: seq<Event>, e: Event, id: string)
    ensures Taken(es + [e], id) == Taken(es, id) + if Fits(e, id) then {e.idx} else {}
  {
    var all := es + [e];
    assert forall k :: 0 <= k < |es| ==> all[k] == es[k];
    if Fits(e, id) {
      assert Fits(all[|es|], id);
    }
    forall x | x in Taken(es, id)
      ensures x in Taken(all, id)
    {
      var k :| 0 <= k < |es| && Fits(es[k], id) && es[k].idx == x;
      assert Fits(all[k], id);
    }
  }

  // The k-th delivery brings the number of indices to the total.
  ghost predicate FillsAt(es: seq<Event>, k: nat, id: string, total: int) {
    k < |es| && Fits(es[k], id) && |Taken(es[..k + 1], id)| == total
  }

  ghost predicate Filled(es: seq<Event>, id: string, total: int) {
    exists k: nat :: FillsAt(es, k, id, total)
  }

  lemma FillsMore(es: seq<Event>, e: Event, id: string, total: int)
    ensures Filled(es + [e], id, total) <==>
              Filled(es, id, total) || (Fits(e, id) && |Taken(es + [e], id)| == total)
  {
    var all := es + [e];
    assert all[..|es| + 1] == all;
    if k: nat :| FillsAt(es, k, id, total) {
      assert all[..k + 1] == es[..k + 1];
      assert FillsAt(all, k, id, total);
    }
    if k: nat :| FillsAt(all, k, id, total) {
      if k < |es| {
        assert all[..k + 1] == es[..k + 1];
        assert FillsAt(es, k, id, total);
      }
    }
    if Fits(e, id) && |Taken(all, id)| == total {
      assert FillsAt(all, |es|, id, total);
    }
  }

  /** Whatever indices come: the file is closed as complete exactly when the number of different indices written in full
      has reached the total, whether they are the file's own or not. */
  lemma {:induction false} ClosedAtCount(st: Store, es: seq<Event>, id: string, path: string, total: int)
    requires forall e :: e in es ==> EventOk(e) && !Announces(e, id)
    ensures var end := DeliverAll(Prepare(st, id, path, total), es);
            && id in end.incoming && end.incoming[id].total == total
            && (end.incoming[id].open <==> !Filled(es, id, total))
            && (end.incoming[id].open ==> end.incoming[id].received == Taken(es, id))
  {
    if es == [] {
      assert Taken(es, id) == {};
    } else {
      var front, e := es[..|es| - 1], es[|es| - 1];
      assert es == front + [e] && e in es;
      ClosedAtCount(st, front, id, path, total);
      TakenMore(front, e, id);
      FillsMore(front, e, id, total);
      ClosedStep(DeliverAll(Prepare(st, id, path, total), front), e, id);
    }
  }

  // One delivery: an open file is closed by a chunk written in full that brings the number to the total.
  lemma ClosedStep(st: Store, e: Event, id: string)
    requires EventOk(e) && !Announces(e, id) && id in st.incoming
    ensures var fi := st.incoming[id];
            var got := fi.received + if Fits(e, id) then {e.idx} else {};
            && id in Deliver(st, e).incoming && Deliver(st, e).incoming[id].total == fi.total
            && (fi.open ==> Deliver(st, e).incoming[id].received == got)
            && (Deliver(st, e).incoming[id].open <==> fi.open && !(Fits(e, id) && |got| == fi.total))
  {
    assert st.incoming[id].received + {} == st.incoming[id].received;
  }

  /** And a chunk of an announced transfer, whatever its index, is answered WriteFailed exactly if the file is not
      closed yet and the chunk is not written in full at a place that a file has. */
  lemma RefusedExactly(st: Store, es: seq<Event>, id: string, path: string, total: int, k: nat)
    requires forall e :: e in es ==> EventOk(e) && !Announces(e, id)
    requires k < |es| && es[k].Data? && es[k].id == id
    ensures AnswerAt(Prepare(st, id, path, total), es, k) == WriteFailed <==>
              !Filled(es[..k], id, total) && !Fits(es[k], id)
  {
    assert es[k] in es && forall e :: e in es[..k] ==> e in es;
    ClosedAtCount(st, es[..k], id, path, total);
  }

  lemma StrayTaken(e: Event, f: Event, id: string)
    requires Fits(e, id) && Fits(f, id) && e.idx != f.idx
    ensures |Taken([e, f], id)| == 2 && Filled([e, f], id, 2)
  {
    TakenMore([], e, id);
    TakenMore([e], f, id);
    assert [] + [e] == [e] && [e] + [f] == [e, f] && Taken([], id) == {};
    assert Taken([e, f], id) == {e.idx, f.idx};
    assert [e, f][..2] == [e, f];
    assert FillsAt([e, f], 1, id, 2);
  }

  /** So a chunk with an index past the end can close a file that lacks a chunk. */
  lemma StrayIndexCloses(st: Store, id: string, path: string, piece: Bytes)
    ensures var es := [Data(id, 0, piece, |piece|, true), Data(id, 7, piece, |piece|, true)];
            var end := DeliverAll(Prepare(st, id, path, 2), es);
            id in end.incoming && !end.incoming[id].open && 1 !in Landed(es, id)
  {
    var e, f := Data(id, 0, piece, |piece|, true), Data(id, 7, piece, |piece|, true);
    StrayTaken(e, f, id);
    ClosedAtCount(st, [e, f], id, path, 2);
  }

  // ---------------------------------------------------------------- the target is the file, or not

  lemma {:induction false} ConcatBound(pieces: seq<Bytes>)
    requires Pieces(pieces, CHUNK_SIZE)
    ensures |Concat(pieces)| <= Offset(|pieces|)
    ensures |Concat(pieces)| == Offset(|pieces|) <==> AllFull(pieces, CHUNK_SIZE)
  {
    if pieces != [] {
      var n := |pieces| - 1;
      ConcatBound(pieces[..n]);
      if AllFull(pieces[..n], CHUNK_SIZE) && |pieces[n]| == CHUNK_SIZE {
        assert forall k :: 0 <= k < n ==> pieces[..n][k] == pieces[k];
      }
      if AllFull(pieces, CHUNK_SIZE) {
        assert AllFull(pieces[..n], CHUNK_SIZE);
      }
    }
  }

  lemma {:induction false} FullBytes(pieces: seq<Bytes>, all: seq<Bytes>)
    requires AllFull(pieces, CHUNK_SIZE) && pieces <= all
    ensures |Concat(pieces)| == Offset(|pieces|)
    ensures forall i :: 0 <= i < |Concat(pieces)| ==> Concat(pieces)[i] == ByteAt(all, i)
  {
    if pieces != [] {
      var n := |pieces| - 1;
      FullBytes(pieces[..n], all);
      forall i | Offset(n) <= i < Offset(n + 1) ensures Concat(pieces)[i] == ByteAt(all, i) {
        SlotOf(i, n);
        assert pieces[n] == all[n];
      }
    }
  }

  /** The reassembled file is the concatenation of the pieces exactly if all of them but the last are full: one short
      piece before the last leaves a gap of zeros. */
  lemma TargetIsConcat(pieces: seq<Bytes>)
    requires Pieces(pieces, CHUNK_SIZE)
    ensures Target(pieces) == Concat(pieces) <==> FullPieces(pieces, CHUNK_SIZE)
  {
    if pieces != [] {
      var n := |pieces| - 1;
      var front := pieces[..n];
      ConcatBound(front);
      assert AllFull(front, CHUNK_SIZE) <==> FullPieces(pieces, CHUNK_SIZE) by {
        assert forall k :: 0 <= k < n ==> front[k] == pieces[k];
      }
      if AllFull(front, CHUNK_SIZE) {
        FullBytes(front, pieces);
        forall i | Offset(n) <= i < Offset(n) + |pieces[n]| ensures Concat(pieces)[i] == ByteAt(pieces, i) {
          SlotOf(i, n);
        }
      }
    }
  }

  lemma {:induction false} SlicesFull(data: Bytes, size: nat)
    requires size > 0
    ensures FullPieces(Slices(data, size), size)
    decreases |data|
  {
    if |data| > size {
      SlicesFull(data[size..], size);
      var rest := Slices(data[size..], size);
      var all := Slices(data, size);
      assert forall k :: 1 <= k < |all| ==> all[k] == rest[k - 1];
    }
  }

  // The transfer is assembled, and its file is `data`.
  ghost predicate Assembled(st: Store, id: string, path: string, data: Bytes) {
    && id in st.incoming && st.incoming[id].path == path && !st.incoming[id].open
    && path in st.disk && st.disk[path] == data
  }

  /** The round trip: a non-empty file cut by full reads and delivered in any order, with duplicates, failed writes and
      other transfers in between, is assembled exactly when its last missing chunk has been written, and is then the
      original. */
  lemma RoundTrip(st: Store, data: Bytes, n: nat, es: seq<Event>, id: string, path: string)
    requires data != [] && n == |Slices(data, CHUNK_SIZE)|
    requires forall other :: other in st.incoming && other != id ==> st.incoming[other].path != path
    requires forall e :: e in es ==> Genuine(e, id, path, Slices(data, CHUNK_SIZE))
    ensures forall e :: e in es ==> EventOk(e)
    ensures var end := DeliverAll(Prepare(st, id, path, n), es);
            && id in end.incoming
            && (!end.incoming[id].open <==> forall k :: 0 <= k < n ==> k in Landed(es, id))
            && (!end.incoming[id].open ==> Assembled(end, id, path, data))
  {
    var pieces := Slices(data, CHUNK_SIZE);
    SlicesFull(data, CHUNK_SIZE);
    ConcatSlices(data, CHUNK_SIZE);
    TargetIsConcat(pieces);
    Reassembly(st, es, id, path, pieces);
    assert AllOf(Landed(es, id), n) <==> forall k :: 0 <= k < n ==> k in Landed(es, id);
  }

  /** The one file this leaves out: an empty file has no chunks, so nothing ever assembles it. Its handle stays open and
      no completion is reported, though the bytes on disk, none, are right. */
  lemma {:induction false} EmptyNeverAssembled(st: Store, es: seq<Event>, id: string, path: string)
    requires forall other :: other in st.incoming && other != id ==> st.incoming[other].path != path
    requires forall e :: e in es ==> Genuine(e, id, path, Slices([], CHUNK_SIZE))
    ensures forall e :: e in es ==> EventOk(e)
    ensures var end := DeliverAll(Prepare(st, id, path, 0), es);
            && id in end.incoming && end.incoming[id] == Incoming(path, 0, {}, true)
            && path in end.disk && end.disk[path] == []
            && forall other :: other in end.incoming && other != id ==> end.incoming[other].path != path
  {
    if es != [] {
      var front, e := es[..|es| - 1], es[|es| - 1];
      assert es == front + [e] && e in es;
      EmptyNeverAssembled(st, front, id, path);
      assert EventOk(e) && e.id != id;
    }
  }
}
