/** A file from the sender's disk to the receiver's: splitting, concurrent sending and reassembly together. */
module EndToEnd {
  import S = SenderModel
  import SenderInvariant
  import SenderResults
  import opened Sequences
  import opened Splitter
  import Receiver

  lemma {:induction false} ContentsAt(chunks: seq<Chunk>, data: Bytes, k: nat)
    requires k < |chunks|
    ensures Contents(chunks, data)[k] == Piece(data, chunks[k])
  {
    var n := |chunks| - 1;
    if k < n {
      ContentsAt(chunks[..n], data, k);
    }
  }

  // A data message the sender sends for this file: a chunk of it, read in full.
  predicate SentBy(e: Receiver.Event, chunks: seq<Chunk>, data: Bytes, id: string) {
    e.Data? && e.id == id ==> 0 <= e.idx < |chunks| && e.data == Piece(data, chunks[e.idx])
  }

  /** Completed means arrived: if a transfer of a non-empty file, split and read with full reads, ends Completed
      without Stop having been called, and every chunk that was sent successfully reaches the receiver and is written
      at least once, then the receiver's file is the sender's, whatever the interleaving of workers, the number of
      resumes and retries, the order of arrival, duplicates, and other transfers to other paths. */
  lemma CompletedMeansArrived(data: Bytes, chunks: seq<Chunk>, hash: Bytes -> string, maxWorkers: int,
                              run: seq<S.Action>, st: Receiver.Store, es: seq<Receiver.Event>, id: string, path: string)
    requires data != [] && Partition(chunks, data, |data|, Receiver.CHUNK_SIZE, hash)
    requires FullChunks(chunks, Receiver.CHUNK_SIZE)
    requires S.ValidRun(S.Start(|chunks|, maxWorkers), run)
    requires var end := S.After(S.Start(|chunks|, maxWorkers), run);
             end.dispatcher.Conclude? && !end.failed && !end.stopped
    requires forall other :: other in st.incoming && other != id ==> st.incoming[other].path != path
    requires forall e :: e in es ==>
               Receiver.EventOk(e) && SentBy(e, chunks, data, id) && (e.Meta? ==> e.id != id && e.path != path)
    requires var end := S.After(S.Start(|chunks|, maxWorkers), run);
             forall k :: 0 <= k < |end.tries| && S.GoodSend in end.tries[k] ==> k in Receiver.Landed(es, id)
    ensures Receiver.Assembled(Receiver.DeliverAll(Receiver.Prepare(st, id, path, |chunks|), es), id, path, data)
  {
    EveryChunkSent(|chunks|, maxWorkers, run);
    AllArrived(data, chunks, hash, st, es, id, path);
  }

  lemma AllArrived(data: Bytes, chunks: seq<Chunk>, hash: Bytes -> string,
                   st: Receiver.Store, es: seq<Receiver.Event>, id: string, path: string)
    requires data != [] && Partition(chunks, data, |data|, Receiver.CHUNK_SIZE, hash)
    requires FullChunks(chunks, Receiver.CHUNK_SIZE)
    requires forall other :: other in st.incoming && other != id ==> st.incoming[other].path != path
    requires forall e :: e in es ==>
               Receiver.EventOk(e) && SentBy(e, chunks, data, id) && (e.Meta? ==> e.id != id && e.path != path)
    requires forall k :: 0 <= k < |chunks| ==> k in Receiver.Landed(es, id)
    ensures Receiver.Assembled(Receiver.DeliverAll(Receiver.Prepare(st, id, path, |chunks|), es), id, path, data)
  {
    SplittersAgree(chunks, data, Receiver.CHUNK_SIZE, hash);
    GenuineEvents(data, chunks, es, id, path);
    Receiver.RoundTrip(st, data, |chunks|, es, id, path);
  }

  lemma GenuineEvents(data: Bytes, chunks: seq<Chunk>, es: seq<Receiver.Event>, id: string, path: string)
    requires Contents(chunks, data) == Slices(data, Receiver.CHUNK_SIZE)
    requires forall e :: e in es ==>
               Receiver.EventOk(e) && SentBy(e, chunks, data, id) && (e.Meta? ==> e.id != id && e.path != path)
    ensures forall e :: e in es ==> Receiver.Genuine(e, id, path, Slices(data, Receiver.CHUNK_SIZE))
  {
    forall e | e in es ensures Receiver.Genuine(e, id, path, Slices(data, Receiver.CHUNK_SIZE)) {
      if e.Data? && e.id == id {
        ContentsAt(chunks, data, e.idx);
      }
    }
  }

  lemma EveryChunkSent(n: nat, maxWorkers: int, run: seq<S.Action>)
    requires S.ValidRun(S.Start(n, maxWorkers), run)
    requires var end := S.After(S.Start(n, maxWorkers), run); end.dispatcher.Conclude? && !end.failed && !end.stopped
    ensures var end := S.After(S.Start(n, maxWorkers), run);
            && |end.tries| == n && (forall k :: 0 <= k < n ==> S.GoodSend in end.tries[k])
            && forall k :: 0 <= k < n ==> Count(end.tries[k], SenderInvariant.IsSuccess) == 1
  {
    SenderResults.FinalStatus(n, maxWorkers, run);
    SenderResults.ChunkCountStays(S.Start(n, maxWorkers), run);
    var end := S.After(S.Start(n, maxWorkers), run);
    forall k | 0 <= k < n
      ensures Count(end.tries[k], SenderInvariant.IsSuccess) == 1 && S.GoodSend in end.tries[k]
    {
      SenderResults.Reached(n, maxWorkers, run);
      SenderResults.DoneIsSent(end.chunks[k], end.tries[k]);
    }
  }
}
