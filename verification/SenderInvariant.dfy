/** What every step of a transfer keeps: the counters match the live workers, retries and sends stay bounded, the
    failure flag means exhaustion, progress never over-reports, and the event trace has its shape. */
module SenderInvariant {
  import opened Sequences
  import opened SenderModel

  // ---------------------------------------------------------------- counting workers

  // Holds a token of the semaphore.
  predicate HoldsSlot(pc: WorkerPc) {
    InRun(pc) && !pc.Signalling?
  }

  predicate IsDone(c: Chunk) {
    c.status.ChunkDone?
  }

  function DoneCount(st: State): nat {
    Count(st.chunks, IsDone)
  }

  // ---------------------------------------------------------------- per chunk

  predicate Settled(pc: WorkerPc) {
    pc.Leaving? || pc.Signalling? || pc.Ended?
  }

  predicate Exhausted(c: Chunk) {
    !c.status.ChunkDone? && c.retries >= MAX_RETRIES
  }

  predicate IsFailure(t: Try) {
    t.BadRead? || t.BadSend?
  }

  predicate IsSend(t: Try) {
    t.BadSend? || t.GoodSend?
  }

  predicate IsSuccess(t: Try) {
    t.GoodSend?
  }

  // The status that the tries so far come to.
  function StatusOf(tries: seq<Try>): ChunkStatus {
    if tries == [] then ChunkPending
    else
      match tries[|tries| - 1]
      case BadRead => StatusOf(tries[..|tries| - 1])
      case GoodRead => ChunkSending
      case BadSend => ChunkFailed
      case GoodSend => ChunkDone
  }

  // A send comes right after a good read, and a good read right before a send; nothing comes after a good send.
  predicate TryOk(tries: seq<Try>, k: nat)
    requires k < |tries|
  {
    && (IsSend(tries[k]) ==> k > 0 && tries[k - 1].GoodRead?)
    && (tries[k].GoodRead? && k + 1 < |tries| ==> IsSend(tries[k + 1]))
    && (tries[k].GoodSend? ==> k + 1 == |tries|)
  }

  predicate TriesOk(tries: seq<Try>) {
    forall k :: 0 <= k < |tries| ==> TryOk(tries, k)
  }

  // A failed send and a failed read each cost one retry, of three; a chunk is sent successfully at most once, and then
  // it is done for good.
  predicate ChunkOk(c: Chunk, tries: seq<Try>) {
    && TriesOk(tries) && c.status == StatusOf(tries) && c.retries == Count(tries, IsFailure) <= 3
    && Count(tries, IsSend) <= Count(tries, IsSuccess) + c.retries
    && Count(tries, IsSuccess) == (if c.status.ChunkDone? then 1 else 0)
    && (c.status.ChunkDone? ==> c.retries < 3)
  }

  // What a worker's control point says about its chunk.
  predicate WorkerOk(pc: WorkerPc, c: Chunk, tries: seq<Try>, stopped: bool) {
    && (pc.Sending? <==> tries != [] && tries[|tries| - 1].GoodRead?)
    && ((pc.Trying? || pc.Reading? || pc.Sending?) ==> !c.status.ChunkDone?)
    && ((pc.Reading? || pc.Sending?) ==> c.retries < MAX_RETRIES)
    && ((pc.Counting? || pc.Emitting?) ==> c.status.ChunkDone?)
    && (pc.Failing? ==> Exhausted(c))
    && (Settled(pc) && !stopped ==> c.status.ChunkDone? || Exhausted(c))
  }

  function Dispatched(d: DispatcherPc, n: nat): nat {
    match d
    case Check(i) => i
    case AddOne(i) => i
    case TakeSlot(i) => i
    case Spawn(i) => i
    case Returned => 0
    case _ => n
  }

  ghost predicate PerChunk(st: State)
    requires Shaped(st)
  {
    forall i :: 0 <= i < |st.chunks| ==>
      && ChunkOk(st.chunks[i], st.tries[i])
      && WorkerOk(st.workers[i], st.chunks[i], st.tries[i], st.stopped)
      && (i in st.doneBefore ==> st.workers[i].Unstarted? && st.chunks[i].status.ChunkDone?)
      && (i !in st.doneBefore && st.workers[i].Unstarted? ==> !st.chunks[i].status.ChunkDone?)
  }

  // The dispatcher has passed chunk i exactly if it was done before or has a worker.
  ghost predicate DispatcherOk(st: State)
    requires Shaped(st)
  {
    var d := st.dispatcher;
    && (d.Check? ==> d.i <= |st.chunks|)
    && (d.AddOne? || d.TakeSlot? || d.Spawn? ==> d.i < |st.chunks| && d.i !in st.doneBefore)
    && (!d.Returned? ==> forall i :: 0 <= i < |st.chunks| && i !in st.doneBefore ==>
          (st.workers[i].Unstarted? <==> i >= Dispatched(d, |st.chunks|)))
    && (d.Returned? ==> st.stopped)
    && (d.Conclude? || d.EmitDone? || d.Finished? ==> st.waiting == 0)
  }

  // Semaphore and wait group count the live workers, plus the one being started.
  ghost predicate CountersOk(st: State) {
    && st.slots == Count(st.workers, HoldsSlot) + (if st.dispatcher.Spawn? then 1 else 0)
    && st.waiting == Count(st.workers, InRun) + (if st.dispatcher.TakeSlot? || st.dispatcher.Spawn? then 1 else 0)
    && st.slots <= st.maxWorkers && st.maxWorkers > 0
  }

  ghost predicate FailedOk(st: State)
    requires Shaped(st)
  {
    st.failed <==> exists i :: 0 <= i < |st.chunks| && Settled(st.workers[i]) && Exhausted(st.chunks[i])
  }

  // ---------------------------------------------------------------- progress

  ghost predicate CountingOk(st: State)
    requires Shaped(st)
  {
    forall i :: 0 <= i < |st.workers| && st.workers[i].Counting? ==> CountsAtMost(st.workers[i], st.chunks)
  }

  // The count so far is no more than the chunks that are done among those looked at.
  ghost predicate CountsAtMost(pc: WorkerPc, chunks: seq<Chunk>)
    requires pc.Counting?
  {
    pc.i <= |chunks| && pc.n <= Count(chunks[..pc.i], IsDone)
  }

  // The recorded progress is the share of some number of chunks, no more than are done.
  ghost predicate ProgressOk(st: State) {
    |st.chunks| > 0 ==> exists k: nat :: k <= DoneCount(st) && st.progress == Percent(k, |st.chunks|)
  }

  // ---------------------------------------------------------------- the trace

  function Prefix(first: bool): seq<Event> {
    if first then [TransferStart] else []
  }

  predicate Announced(pc: WorkerPc) {
    pc.Leaving? || pc.Signalling? || pc.Ended?
  }

  // After its prefix and before transfer.done, the trace names each chunk that became done in this run and whose
  // worker is past its event, once.
  ghost predicate TraceOk(st: State)
    requires Shaped(st)
  {
    var tail := if st.dispatcher.Finished? then [TransferDone] else [];
    exists mid: seq<nat> :: Listing(st, mid) && st.trace == Prefix(st.first) + Sents(mid) + tail
  }

  function Sents(mid: seq<nat>): seq<Event> {
    seq(|mid|, i requires 0 <= i < |mid| => ChunkSent(mid[i]))
  }

  ghost predicate Listing(st: State, mid: seq<nat>)
    requires Shaped(st)
  {
    && (forall a, b :: 0 <= a < b < |mid| ==> mid[a] != mid[b])
    && (forall i: nat :: i in mid <==> Done(st, i) && i !in st.doneBefore && Announced(st.workers[i]))
  }

  ghost predicate Inv(st: State) {
    && Shaped(st) && PerChunk(st) && DispatcherOk(st) && CountersOk(st) && FailedOk(st)
    && CountingOk(st) && ProgressOk(st) && TraceOk(st)
  }

  lemma {:induction false} CountAll<T>(s: seq<T>, p: T -> bool, x: T)
    requires !p(x) && forall i :: 0 <= i < |s| ==> s[i] == x
    ensures Count(s, p) == 0
  {
    CountBound(s, p);
  }

  lemma StartInv(n: nat, maxWorkers: int)
    ensures Inv(Start(n, maxWorkers))
  {
    var st := Start(n, maxWorkers);
    CountAll(st.workers, HoldsSlot, Unstarted);
    CountAll(st.workers, InRun, Unstarted);
    CountAll(st.chunks, IsDone, Chunk(ChunkPending, 0));
    NothingListed(st);
    assert n > 0 ==> st.progress == Percent(0, n);
  }

  lemma NothingListed(st: State)
    requires Shaped(st) && !st.dispatcher.Finished? && st.trace == Prefix(st.first)
    requires forall i :: 0 <= i < |st.workers| ==> st.workers[i].Unstarted?
    ensures TraceOk(st)
  {
    var none: seq<nat> := [];
    assert Listing(st, none);
    assert st.trace == Prefix(st.first) + Sents(none) + [];
  }

  // ---------------------------------------------------------------- steps of the dispatcher

  lemma DispatchKeepsCounters(st: State)
    requires Shaped(st) && DispatcherOk(st) && CountersOk(st) && Enabled(st, Dispatch)
    requires st.dispatcher.Spawn? ==> st.workers[st.dispatcher.i].Unstarted?
    ensures CountersOk(DispatchDo(st))
  {
    if st.dispatcher.Spawn? {
      CountUpdate(st.workers, st.dispatcher.i, Trying, HoldsSlot);
      CountUpdate(st.workers, st.dispatcher.i, Trying, InRun);
    }
  }

  lemma DispatchKeepsTrace(st: State)
    requires Shaped(st) && TraceOk(st) && Enabled(st, Dispatch)
    requires st.dispatcher.Spawn? ==> st.workers[st.dispatcher.i].Unstarted?
    ensures TraceOk(DispatchDo(st))
  {
    var st' := DispatchDo(st);
    var mid: seq<nat> :| Listing(st, mid) && st.trace == Prefix(st.first) + Sents(mid) + [];
    assert Listing(st', mid);
    assert st'.trace == Prefix(st.first) + Sents(mid) + if st.dispatcher.EmitDone? then [TransferDone] else [];
  }

  lemma DispatchKeepsPerChunk(st: State)
    requires Shaped(st) && PerChunk(st) && DispatcherOk(st) && Enabled(st, Dispatch)
    ensures PerChunk(DispatchDo(st)) && DispatcherOk(DispatchDo(st))
    ensures st.dispatcher.Spawn? ==> st.workers[st.dispatcher.i].Unstarted?
  {
  }

  lemma DispatchKeepsRest(st: State)
    requires Shaped(st) && FailedOk(st) && CountingOk(st) && ProgressOk(st) && Enabled(st, Dispatch)
    requires st.dispatcher.Spawn? ==> st.workers[st.dispatcher.i].Unstarted?
    ensures FailedOk(DispatchDo(st)) && CountingOk(DispatchDo(st)) && ProgressOk(DispatchDo(st))
  {
    var st' := DispatchDo(st);
    assert forall i :: 0 <= i < |st.chunks| ==> Settled(st'.workers[i]) == Settled(st.workers[i]);
  }

  // ---------------------------------------------------------------- steps of a worker

  lemma WorkKeepsCounters(st: State, i: nat, o: Outcome)
    requires Shaped(st) && CountersOk(st) && Enabled(st, Work(i, o))
    ensures CountersOk(WorkDo(st, i, o))
  {
    CountUpdate(st.workers, i, WorkerGoto(st, i, o), HoldsSlot);
    CountUpdate(st.workers, i, WorkerGoto(st, i, o), InRun);
  }

  lemma SomeoneWaits(st: State, i: nat)
    requires Shaped(st) && CountersOk(st) && DispatcherOk(st) && i < |st.workers| && InRun(st.workers[i])
    ensures st.waiting > 0 && !st.dispatcher.Conclude? && !st.dispatcher.EmitDone? && !st.dispatcher.Finished?
  {
    CountBound(st.workers, InRun);
  }

  lemma OwnChunk(st: State, i: nat, o: Outcome)
    requires Shaped(st) && PerChunk(st) && Enabled(st, Work(i, o))
    ensures var st' := WorkDo(st, i, o);
            && ChunkOk(st'.chunks[i], st'.tries[i])
            && WorkerOk(st'.workers[i], st'.chunks[i], st'.tries[i], st'.stopped)
            && i !in st.doneBefore && !st'.workers[i].Unstarted?
  {
    if st.workers[i].Reading? || st.workers[i].Sending? {
      TryMore(st.chunks[i], st.tries[i], st.workers[i], o);
    }
  }

  // One more try: what it adds to the counts, and what the status becomes.
  lemma TryCounts(tries: seq<Try>, t: Try)
    ensures Count(tries + [t], IsFailure) == Count(tries, IsFailure) + if IsFailure(t) then 1 else 0
    ensures Count(tries + [t], IsSend) == Count(tries, IsSend) + if IsSend(t) then 1 else 0
    ensures Count(tries + [t], IsSuccess) == Count(tries, IsSuccess) + if IsSuccess(t) then 1 else 0
  {
    CountSnoc(tries, t, IsFailure);
    CountSnoc(tries, t, IsSend);
    CountSnoc(tries, t, IsSuccess);
  }

  lemma StatusMore(tries: seq<Try>, t: Try)
    ensures StatusOf(tries + [t]) == match t
                                     case BadRead => StatusOf(tries)
                                     case GoodRead => ChunkSending
                                     case BadSend => ChunkFailed
                                     case GoodSend => ChunkDone
  {
    assert (tries + [t])[..|tries|] == tries;
  }

  lemma TriesMore(tries: seq<Try>, t: Try)
    requires TriesOk(tries) && (tries == [] || !tries[|tries| - 1].GoodSend?)
    requires IsSend(t) <==> tries != [] && tries[|tries| - 1].GoodRead?
    ensures TriesOk(tries + [t])
  {
    forall k | 0 <= k < |tries| + 1
      ensures TryOk(tries + [t], k)
    {
      if k < |tries| {
        assert TryOk(tries, k);
      }
    }
  }

  lemma TryMore(c: Chunk, tries: seq<Try>, pc: WorkerPc, o: Outcome)
    requires ChunkOk(c, tries) && WorkerOk(pc, c, tries, false) && (pc.Reading? || pc.Sending?)
    ensures ChunkOk(ChunkAfter(c, pc, o), TriesAfter(tries, pc, o))
  {
    var t := if pc.Reading? then (if o.Good? then GoodRead else BadRead) else if o.Good? then GoodSend else BadSend;
    TryCounts(tries, t);
    StatusMore(tries, t);
    TriesMore(tries, t);
  }

  lemma WorkKeepsPerChunk(st: State, i: nat, o: Outcome)
    requires Shaped(st) && PerChunk(st) && DispatcherOk(st) && CountersOk(st) && Enabled(st, Work(i, o))
    ensures PerChunk(WorkDo(st, i, o)) && DispatcherOk(WorkDo(st, i, o))
  {
    OwnChunk(st, i, o);
    SomeoneWaits(st, i);
  }

  // Done is absorbing.
  lemma DoneStays(st: State, i: nat, o: Outcome)
    requires Shaped(st) && PerChunk(st) && Enabled(st, Work(i, o))
    ensures forall j :: 0 <= j < |st.chunks| && IsDone(st.chunks[j]) ==> IsDone(WorkDo(st, i, o).chunks[j])
  {
  }

  lemma WorkKeepsFailed(st: State, i: nat, o: Outcome)
    requires Shaped(st) && PerChunk(st) && FailedOk(st) && Enabled(st, Work(i, o))
    ensures FailedOk(WorkDo(st, i, o))
  {
    var st' := WorkDo(st, i, o);
    assert Settled(st.workers[i]) && Exhausted(st.chunks[i]) ==> Settled(st'.workers[i]) && Exhausted(st'.chunks[i]);
    assert st.workers[i].Failing? ==> Settled(st'.workers[i]) && Exhausted(st'.chunks[i]);
    assert Settled(st'.workers[i]) && Exhausted(st'.chunks[i]) ==>
        st.workers[i].Failing? || (Settled(st.workers[i]) && Exhausted(st.chunks[i]));
    if st.failed {
      var j :| 0 <= j < |st.chunks| && Settled(st.workers[j]) && Exhausted(st.chunks[j]);
      assert Settled(st'.workers[j]) && Exhausted(st'.chunks[j]);
    }
  }

  lemma {:induction false} CountMonotone(a: seq<Chunk>, b: seq<Chunk>)
    requires |a| == |b| && forall j :: 0 <= j < |a| && IsDone(a[j]) ==> IsDone(b[j])
    ensures Count(a, IsDone) <= Count(b, IsDone)
  {
    if a != [] {
      CountMonotone(a[..|a| - 1], b[..|b| - 1]);
    }
  }

  lemma WorkKeepsCounting(st: State, i: nat, o: Outcome)
    requires Shaped(st) && PerChunk(st) && CountingOk(st) && Enabled(st, Work(i, o))
    ensures CountingOk(WorkDo(st, i, o))
  {
    var st' := WorkDo(st, i, o);
    forall j | 0 <= j < |st'.workers| && st'.workers[j].Counting?
      ensures CountsAtMost(st'.workers[j], st'.chunks)
    {
      if st.workers[j].Counting? {
        CountGoesOn(st, i, o, j);
      }
    }
  }

  lemma CountGoesOn(st: State, i: nat, o: Outcome, j: nat)
    requires Shaped(st) && PerChunk(st) && CountingOk(st) && Enabled(st, Work(i, o))
    requires j < |st.workers| && st.workers[j].Counting? && WorkDo(st, i, o).workers[j].Counting?
    ensures CountsAtMost(WorkDo(st, i, o).workers[j], WorkDo(st, i, o).chunks)
  {
    var chunks' := WorkDo(st, i, o).chunks;
    DoneStays(st, i, o);
    CountStays(st.workers[j], st.chunks, chunks');
    if j == i {
      assert chunks'[i] == st.chunks[i];
      CountMore(st.workers[j], chunks');
    }
  }

  lemma CountStays(pc: WorkerPc, a: seq<Chunk>, b: seq<Chunk>)
    requires pc.Counting? && CountsAtMost(pc, a)
    requires |a| == |b| && forall j :: 0 <= j < |a| && IsDone(a[j]) ==> IsDone(b[j])
    ensures CountsAtMost(pc, b)
  {
    CountMonotone(a[..pc.i], b[..pc.i]);
  }

  lemma CountMore(pc: WorkerPc, chunks: seq<Chunk>)
    requires pc.Counting? && CountsAtMost(pc, chunks) && pc.i < |chunks|
    ensures CountsAtMost(Counting(pc.i + 1, if IsDone(chunks[pc.i]) then pc.n + 1 else pc.n), chunks)
  {
    assert chunks[..pc.i + 1][..pc.i] == chunks[..pc.i];
  }

  // Percent, without division.
  lemma PercentTimes(k: nat, total: nat)
    requires total > 0
    ensures Percent(k, total) * total as real == 100.0 * k as real
  {
    var share, all := k as real / total as real, total as real;
    assert share * all == k as real;
    assert share * 100.0 * all == 100.0 * (share * all);
  }

  lemma WorkKeepsProgress(st: State, i: nat, o: Outcome)
    requires Shaped(st) && PerChunk(st) && CountingOk(st) && ProgressOk(st) && Enabled(st, Work(i, o))
    ensures ProgressOk(WorkDo(st, i, o))
  {
    var st' := WorkDo(st, i, o);
    DoneStays(st, i, o);
    CountMonotone(st.chunks, st'.chunks);
    if st.workers[i].Counting? && st.workers[i].i >= |st.chunks| {
      assert st.chunks[..st.workers[i].i] == st.chunks;
      assert st'.progress == Percent(st.workers[i].n, |st.chunks|);
    } else {
      var k: nat :| k <= DoneCount(st) && st.progress == Percent(k, |st.chunks|);
      assert st'.progress == Percent(k, |st.chunks|);
    }
  }

  lemma WorkKeepsTrace(st: State, i: nat, o: Outcome)
    requires Shaped(st) && PerChunk(st) && TraceOk(st) && Enabled(st, Work(i, o)) && !st.dispatcher.Finished?
    ensures TraceOk(WorkDo(st, i, o))
  {
    var st' := WorkDo(st, i, o);
    var mid: seq<nat> :| Listing(st, mid) && st.trace == Prefix(st.first) + Sents(mid) + [];
    if st.workers[i].Emitting? {
      ListsOneMore(st, i, o, mid);
      assert st'.trace == Prefix(st.first) + Sents(mid + [i]) + [];
    } else {
      ListsTheSame(st, i, o, mid);
    }
  }

  lemma ListsTheSame(st: State, i: nat, o: Outcome, mid: seq<nat>)
    requires Shaped(st) && PerChunk(st) && Listing(st, mid) && Enabled(st, Work(i, o)) && !st.workers[i].Emitting?
    ensures Listing(WorkDo(st, i, o), mid)
  {
  }

  lemma ListsOneMore(st: State, i: nat, o: Outcome, mid: seq<nat>)
    requires Shaped(st) && PerChunk(st) && Listing(st, mid) && Enabled(st, Work(i, o)) && st.workers[i].Emitting?
    ensures Listing(WorkDo(st, i, o), mid + [i]) && Sents(mid + [i]) == Sents(mid) + [ChunkSent(i)]
  {
    assert i !in mid;
    assert forall j: nat :: j in mid + [i] <==> j in mid || j == i;
  }

  // ---------------------------------------------------------------- every step

  lemma ResumeKeepsCounters(st: State)
    requires Shaped(st) && CountersOk(st) && Enabled(st, Resume)
    ensures CountersOk(Do(st, Resume))
  {
    var st' := Do(st, Resume);
    CountAll(st'.workers, HoldsSlot, Unstarted);
    CountAll(st'.workers, InRun, Unstarted);
  }

  lemma ResumeKeepsPerChunk(st: State)
    requires Shaped(st) && PerChunk(st) && Enabled(st, Resume)
    ensures PerChunk(Do(st, Resume)) && DispatcherOk(Do(st, Resume))
  {
  }

  lemma ResumeKeepsRest(st: State)
    requires Shaped(st) && ProgressOk(st) && Enabled(st, Resume)
    ensures FailedOk(Do(st, Resume)) && CountingOk(Do(st, Resume)) && ProgressOk(Do(st, Resume))
  {
  }

  lemma ResumeKeepsInv(st: State)
    requires Inv(st) && Enabled(st, Resume)
    ensures Inv(Do(st, Resume))
  {
    ResumeKeepsCounters(st);
    ResumeKeepsPerChunk(st);
    ResumeKeepsRest(st);
    NothingListed(Do(st, Resume));
  }

  lemma OutsideKeepsInv(st: State, a: Action)
    requires Inv(st) && Enabled(st, a) && (a.Stop? || a.Pause? || a.Cancel?)
    ensures Inv(Do(st, a))
  {
    var st' := Do(st, a);
    var tail := if st.dispatcher.Finished? then [TransferDone] else [];
    var mid: seq<nat> :| Listing(st, mid) && st.trace == Prefix(st.first) + Sents(mid) + tail;
    assert Listing(st', mid);
  }

  lemma DispatchKeepsInv(st: State)
    requires Inv(st) && Enabled(st, Dispatch)
    ensures Inv(DispatchDo(st))
  {
    DispatchKeepsPerChunk(st);
    DispatchKeepsCounters(st);
    DispatchKeepsTrace(st);
    DispatchKeepsRest(st);
  }

  lemma WorkKeepsInv(st: State, i: nat, o: Outcome)
    requires Inv(st) && Enabled(st, Work(i, o))
    ensures Inv(WorkDo(st, i, o))
  {
    SomeoneWaits(st, i);
    WorkKeepsCounters(st, i, o);
    WorkKeepsPerChunk(st, i, o);
    WorkKeepsFailed(st, i, o);
    WorkKeepsCounting(st, i, o);
    WorkKeepsProgress(st, i, o);
    WorkKeepsTrace(st, i, o);
  }

  lemma StepKeepsInv(st: State, a: Action)
    requires Inv(st) && Enabled(st, a)
    ensures Inv(Do(st, a))
  {
    match a
    case Dispatch => DispatchKeepsInv(st);
    case Work(i, o) => WorkKeepsInv(st, i, o);
    case Resume => ResumeKeepsInv(st);
    case _ => OutsideKeepsInv(st, a);
  }

  lemma {:induction false} RunKeepsInv(st: State, run: seq<Action>)
    requires Inv(st) && ValidRun(st, run)
    ensures Inv(After(st, run))
    decreases |run|
  {
    if run != [] {
      StepKeepsInv(st, run[0]);
      RunKeepsInv(Do(st, run[0]), run[1..]);
    }
  }
}
