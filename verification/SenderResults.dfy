/** What a transfer guarantees over all its runs. */
module SenderResults {
  import opened Sequences
  import opened SenderModel
  import opened SenderInvariant

  lemma Reached(n: nat, maxWorkers: int, run: seq<Action>)
    requires ValidRun(Start(n, maxWorkers), run)
    ensures Inv(After(Start(n, maxWorkers), run))
  {
    StartInv(n, maxWorkers);
    RunKeepsInv(Start(n, maxWorkers), run);
  }

  lemma {:induction false} ChunkCountStays(st: State, run: seq<Action>)
    requires ValidRun(st, run)
    ensures |After(st, run).chunks| == |st.chunks|
    decreases |run|
  {
    if run != [] {
      ChunkCountStays(Do(st, run[0]), run[1..]);
    }
  }

  // ---------------------------------------------------------------- the final status

  // Given up after Stop with retries left.
  predicate Abandoned(c: Chunk) {
    !c.status.ChunkDone? && c.retries < MAX_RETRIES
  }

  lemma AllSettled(st: State, i: nat)
    requires Inv(st) && st.dispatcher.Conclude? && i < |st.chunks|
    ensures !st.workers[i].Unstarted? ==> Settled(st.workers[i])
    ensures st.workers[i].Unstarted? ==> st.chunks[i].status.ChunkDone?
  {
    CountBound(st.workers, InRun);
  }

  // Three tries have failed, and none has succeeded.
  predicate GaveOut(tries: seq<Try>) {
    GoodSend !in tries && Count(tries, IsFailure) == 3
  }

  lemma DoneIsSent(c: Chunk, tries: seq<Try>)
    requires ChunkOk(c, tries)
    ensures IsDone(c) <==> GoodSend in tries
    ensures Exhausted(c) <==> GaveOut(tries)
    ensures Count(tries, IsSuccess) == if GoodSend in tries then 1 else 0
  {
    CountBound(tries, IsSuccess);
    if GoodSend in tries {
      var k :| 0 <= k < |tries| && tries[k] == GoodSend;
      assert IsSuccess(tries[k]);
    } else {
      assert forall k :: 0 <= k < |tries| ==> !IsSuccess(tries[k]);
    }
  }

  // At the final status write every chunk has been sent, has failed three times, or was given up after Stop.
  lemma ChunkAtEnd(st: State, i: nat)
    requires Inv(st) && st.dispatcher.Conclude? && i < |st.chunks|
    ensures Done(st, i) <==> GoodSend in st.tries[i]
    ensures Exhausted(st.chunks[i]) <==> GaveOut(st.tries[i])
    ensures Count(st.tries[i], IsFailure) <= 3
    ensures GaveOut(st.tries[i]) ==> Settled(st.workers[i])
    ensures !st.stopped ==> GoodSend in st.tries[i] || GaveOut(st.tries[i])
  {
    AllSettled(st, i);
    DoneIsSent(st.chunks[i], st.tries[i]);
  }

  /** The final status write, in every interleaving and over any number of resumes: Failed exactly if some chunk has
      failed three times without having been sent. So Completed means that every chunk has been sent, except for chunks
      given up because of Stop after fewer failures; when Stop was not called there are none. */
  lemma FinalStatus(n: nat, maxWorkers: int, run: seq<Action>)
    requires ValidRun(Start(n, maxWorkers), run) && After(Start(n, maxWorkers), run).dispatcher.Conclude?
    ensures Enabled(After(Start(n, maxWorkers), run), Dispatch)
    ensures var st := After(Start(n, maxWorkers), run); var st' := Do(st, Dispatch);
            && |st.tries| == |st.chunks| == n
            && (forall i :: 0 <= i < n ==> (Done(st, i) <==> GoodSend in st.tries[i]))
            && (st'.status == Failed <==> exists i :: 0 <= i < n && GaveOut(st.tries[i]))
            && (st'.status == Completed <==>
                  forall i :: 0 <= i < n ==> GoodSend in st.tries[i] || Count(st.tries[i], IsFailure) < 3)
            && (!st.stopped ==> (st'.status == Completed <==> forall i :: 0 <= i < n ==> GoodSend in st.tries[i]))
  {
    Reached(n, maxWorkers, run);
    ChunkCountStays(Start(n, maxWorkers), run);
    var st := After(Start(n, maxWorkers), run);
    forall i | 0 <= i < n
      ensures Done(st, i) <==> GoodSend in st.tries[i]
      ensures Exhausted(st.chunks[i]) <==> GaveOut(st.tries[i])
      ensures Count(st.tries[i], IsFailure) <= 3
      ensures GaveOut(st.tries[i]) ==> Settled(st.workers[i])
      ensures !st.stopped ==> GoodSend in st.tries[i] || GaveOut(st.tries[i])
    {
      ChunkAtEnd(st, i);
    }
  }

  /** Three tries for everybody: as long as Stop is not called, a worker that is through with its chunk, at any moment
      of any run, has sent it or has failed three times with it. */
  lemma NeverGivenUp(n: nat, maxWorkers: int, run: seq<Action>, i: nat)
    requires ValidRun(Start(n, maxWorkers), run) && i < |After(Start(n, maxWorkers), run).workers|
    requires !After(Start(n, maxWorkers), run).stopped
    ensures var st := After(Start(n, maxWorkers), run);
            && |st.tries| == |st.workers|
            && (Settled(st.workers[i]) ==> GoodSend in st.tries[i] || Count(st.tries[i], IsFailure) == 3)
  {
    Reached(n, maxWorkers, run);
    var st := After(Start(n, maxWorkers), run);
    DoneIsSent(st.chunks[i], st.tries[i]);
  }

  // A transfer of one chunk, never attempted, with at most one worker.
  function Lone(d: DispatcherPc, w: WorkerPc, slots: nat, waiting: nat, stopped: bool): State {
    State(1, [Chunk(ChunkPending, 0)], [w], d, slots, waiting, false, stopped, Running, 0.0, [TransferStart], true,
          {}, [[]])
  }

  lemma RunStep(st: State, a: Action, st': State, rest: seq<Action>)
    requires Enabled(st, a) && Do(st, a) == st' && ValidRun(st', rest)
    ensures ValidRun(st, [a] + rest) && After(st, [a] + rest) == After(st', rest)
  {
    assert ([a] + rest)[1..] == rest;
  }

  lemma LoneWork(w: WorkerPc, slots: nat, waiting: nat)
    requires (w, slots, waiting) in {(Trying, 1, 1), (Leaving, 1, 1), (Signalling, 0, 1)}
    ensures Enabled(Lone(Check(1), w, slots, waiting, true), Work(0, Tick))
    ensures Do(Lone(Check(1), w, slots, waiting, true), Work(0, Tick))
         == if w.Trying? then Lone(Check(1), Leaving, 1, 1, true)
            else if w.Leaving? then Lone(Check(1), Signalling, 0, 1, true)
            else Lone(Check(1), Ended, 0, 0, true)
  {
    var st := Lone(Check(1), w, slots, waiting, true);
    assert st.chunks[0 := st.chunks[0]] == st.chunks;
    assert st.workers[0 := WorkerGoto(st, 0, Tick)] == [WorkerGoto(st, 0, Tick)];
  }

  lemma StopEnds() returns (run: seq<Action>)
    ensures ValidRun(Lone(Check(1), Trying, 1, 1, true), run)
    ensures After(Lone(Check(1), Trying, 1, 1, true), run) == Lone(Conclude, Ended, 0, 0, true)
  {
    run := [];
    RunStep(Lone(AwaitAll, Ended, 0, 0, true), Dispatch, Lone(Conclude, Ended, 0, 0, true), run);
    run := [Dispatch] + run;
    RunStep(Lone(Check(1), Ended, 0, 0, true), Dispatch, Lone(AwaitAll, Ended, 0, 0, true), run);
    run := [Dispatch] + run;
    LoneWork(Signalling, 0, 1);
    RunStep(Lone(Check(1), Signalling, 0, 1, true), Work(0, Tick), Lone(Check(1), Ended, 0, 0, true), run);
    run := [Work(0, Tick)] + run;
    LoneWork(Leaving, 1, 1);
    RunStep(Lone(Check(1), Leaving, 1, 1, true), Work(0, Tick), Lone(Check(1), Signalling, 0, 1, true), run);
    run := [Work(0, Tick)] + run;
    LoneWork(Trying, 1, 1);
    RunStep(Lone(Check(1), Trying, 1, 1, true), Work(0, Tick), Lone(Check(1), Leaving, 1, 1, true), run);
    run := [Work(0, Tick)] + run;
  }

  /** With Stop the exception is real: stopping right after the only chunk's worker has started ends with Completed
      and nothing sent. */
  lemma StopCanComplete() returns (run: seq<Action>)
    ensures ValidRun(Start(1, 1), run) && Enabled(After(Start(1, 1), run), Dispatch)
    ensures var st := After(Start(1, 1), run);
            st.dispatcher.Conclude? && DispatchDo(st).status == Completed && !Done(st, 0) && st.tries == [[]]
  {
    run := StopEnds();
    RunStep(Lone(Check(1), Trying, 1, 1, false), Stop, Lone(Check(1), Trying, 1, 1, true), run);
    run := [Stop] + run;
    assert [Unstarted][0 := Trying] == [Trying];
    RunStep(Lone(Spawn(0), Unstarted, 1, 1, false), Dispatch, Lone(Check(1), Trying, 1, 1, false), run);
    run := [Dispatch] + run;
    RunStep(Lone(TakeSlot(0), Unstarted, 0, 1, false), Dispatch, Lone(Spawn(0), Unstarted, 1, 1, false), run);
    run := [Dispatch] + run;
    RunStep(Lone(AddOne(0), Unstarted, 0, 0, false), Dispatch, Lone(TakeSlot(0), Unstarted, 0, 1, false), run);
    run := [Dispatch] + run;
    RunStep(Lone(Check(0), Unstarted, 0, 0, false), Dispatch, Lone(AddOne(0), Unstarted, 0, 0, false), run);
    run := [Dispatch] + run;
    assert Start(1, 1) == Lone(Check(0), Unstarted, 0, 0, false);
  }

  // ---------------------------------------------------------------- over all resumes

  /** Over any number of resumes a chunk reaches sendFunc at most three times, each time right after a read that
      succeeded, and never again once that has succeeded; it fails at most three times, each failure costs one retry,
      and its status is what these tries come to. */
  lemma LifetimeSendBound(n: nat, maxWorkers: int, run: seq<Action>, i: nat)
    requires ValidRun(Start(n, maxWorkers), run) && i < |After(Start(n, maxWorkers), run).chunks|
    ensures var st := After(Start(n, maxWorkers), run);
            && |st.tries| == |st.chunks| && TriesOk(st.tries[i])
            && Count(st.tries[i], IsSend) <= 3 && Count(st.tries[i], IsSuccess) <= 1
            && st.chunks[i].retries == Count(st.tries[i], IsFailure) <= 3
            && st.chunks[i].status == StatusOf(st.tries[i])
            && (Done(st, i) <==> GoodSend in st.tries[i])
  {
    Reached(n, maxWorkers, run);
    var st := After(Start(n, maxWorkers), run);
    DoneIsSent(st.chunks[i], st.tries[i]);
  }

  lemma ExhaustedStep(st: State, a: Action, i: nat)
    requires Inv(st) && Enabled(st, a) && i < |st.chunks| && Exhausted(st.chunks[i])
    ensures i < |Do(st, a).chunks| && Exhausted(Do(st, a).chunks[i]) && Do(st, a).tries[i] == st.tries[i]
  {
  }

  /** A chunk that has used up its retries is never tried again, and no later run, after any number of resumes, marks
      the transfer Completed. */
  lemma {:induction false} ExhaustedForever(st: State, run: seq<Action>, i: nat)
    requires Inv(st) && ValidRun(st, run) && i < |st.chunks| && Exhausted(st.chunks[i])
    ensures i < |After(st, run).chunks| && Exhausted(After(st, run).chunks[i])
    ensures Inv(After(st, run)) && After(st, run).tries[i] == st.tries[i]
    ensures After(st, run).dispatcher.Conclude? ==> DispatchDo(After(st, run)).status == Failed
    decreases |run|
  {
    if run == [] {
      if st.dispatcher.Conclude? {
        AllSettled(st, i);
      }
    } else {
      ExhaustedStep(st, run[0], i);
      StepKeepsInv(st, run[0]);
      ExhaustedForever(Do(st, run[0]), run[1..], i);
    }
  }

  // ---------------------------------------------------------------- concurrency, progress, events

  lemma {:induction false} MaxStays(st: State, run: seq<Action>)
    requires ValidRun(st, run)
    ensures After(st, run).maxWorkers == st.maxWorkers
    decreases |run|
  {
    if run != [] {
      MaxStays(Do(st, run[0]), run[1..]);
    }
  }

  /** At most as many workers are at work as the service was made for, 4 if it was made for none, and a chunk's worker
      is started only once per run. */
  lemma BoundedConcurrency(n: nat, maxWorkers: int, run: seq<Action>)
    requires ValidRun(Start(n, maxWorkers), run)
    ensures var st := After(Start(n, maxWorkers), run);
            && Count(st.workers, HoldsSlot) <= st.slots <= st.maxWorkers == (if maxWorkers <= 0 then 4 else maxWorkers)
            && Count(st.workers, InRun) <= st.waiting
            && (st.dispatcher.Spawn? ==> st.dispatcher.i < |st.workers| && st.workers[st.dispatcher.i].Unstarted?)
            && (st.dispatcher.Finished? ==> st.slots == 0 && st.waiting == 0)
  {
    Reached(n, maxWorkers, run);
    var st := After(Start(n, maxWorkers), run);
    CountBound(st.workers, InRun);
    CountBound(st.workers, HoldsSlot);
    MaxStays(Start(n, maxWorkers), run);
  }

  /** The recorded progress is always the share of some number of chunks, no more than are done. */
  lemma ProgressNeverOverReports(n: nat, maxWorkers: int, run: seq<Action>)
    requires n > 0 && ValidRun(Start(n, maxWorkers), run)
    ensures var st := After(Start(n, maxWorkers), run);
            && DoneCount(st) <= n && st.progress * n as real <= 100.0 * DoneCount(st) as real
            && exists k: nat :: IsShare(st.progress, k, n)
  {
    var k := ProgressIsPercent(n, maxWorkers, run);
    ShareBound(k, DoneCount(After(Start(n, maxWorkers), run)), n);
  }

  lemma ProgressIsPercent(n: nat, maxWorkers: int, run: seq<Action>) returns (k: nat)
    requires n > 0 && ValidRun(Start(n, maxWorkers), run)
    ensures var st := After(Start(n, maxWorkers), run); k <= DoneCount(st) <= n && st.progress == Percent(k, n)
  {
    Reached(n, maxWorkers, run);
    ChunkCountStays(Start(n, maxWorkers), run);
    var st := After(Start(n, maxWorkers), run);
    CountBound(st.chunks, IsDone);
    k :| k <= DoneCount(st) && st.progress == Percent(k, n);
  }

  // The percentage of k chunks of n.
  predicate IsShare(percent: real, k: nat, n: nat) {
    k <= n && percent * n as real == 100.0 * k as real
  }

  lemma ShareBound(k: nat, done: nat, n: nat)
    requires k <= done <= n && n > 0
    ensures IsShare(Percent(k, n), k, n) && Percent(k, n) * n as real <= 100.0 * done as real
  {
    PercentTimes(k, n);
  }

  /** A transfer without chunks has no workers, so it never updates its progress and never divides by zero. */
  lemma NothingToCount(maxWorkers: int, run: seq<Action>)
    requires ValidRun(Start(0, maxWorkers), run)
    ensures After(Start(0, maxWorkers), run).workers == []
  {
    Reached(0, maxWorkers, run);
    ChunkCountStays(Start(0, maxWorkers), run);
  }

  // The step writes the transfer's status.
  predicate SetsStatus(st: State, a: Action) {
    a.Pause? || a.Cancel? || a.Resume? || (a.Dispatch? && st.dispatcher.Conclude?)
  }

  predicate NoStatusSet(st: State, run: seq<Action>)
    requires ValidRun(st, run)
    decreases |run|
  {
    run == [] || (!SetsStatus(st, run[0]) && NoStatusSet(Do(st, run[0]), run[1..]))
  }

  lemma {:induction false} StatusStays(st: State, run: seq<Action>)
    requires ValidRun(st, run) && NoStatusSet(st, run)
    ensures After(st, run).status == st.status
    decreases |run|
  {
    if run != [] {
      StatusStays(Do(st, run[0]), run[1..]);
    }
  }

  /** The status is that of the last one of these: a pause, a cancellation, a resume, or the end of a run, which says
      Failed if some worker has given up and Completed otherwise. */
  lemma StatusIsLast(st: State, a: Action, rest: seq<Action>)
    requires Enabled(st, a) && SetsStatus(st, a) && ValidRun(Do(st, a), rest) && NoStatusSet(Do(st, a), rest)
    ensures var end := After(Do(st, a), rest);
            && (a.Pause? ==> end.status == Paused) && (a.Cancel? ==> end.status == Failed)
            && (a.Resume? ==> end.status == Running)
            && (a.Dispatch? ==> end.status == if st.failed then Failed else Completed)
  {
    StatusStays(Do(st, a), rest);
  }

  /** The events of a finished run: transfer.start if it is the first run, then chunk.done once for exactly the chunks
      that became done in this run, in some order, then transfer.done. */
  lemma TraceGrammar(n: nat, maxWorkers: int, run: seq<Action>) returns (mid: seq<nat>)
    requires ValidRun(Start(n, maxWorkers), run) && After(Start(n, maxWorkers), run).dispatcher.Finished?
    ensures var st := After(Start(n, maxWorkers), run);
            && st.trace == Prefix(st.first) + Sents(mid) + [TransferDone]
            && (forall a, b :: 0 <= a < b < |mid| ==> mid[a] != mid[b])
            && (forall i: nat :: i in mid <==> Done(st, i) && i !in st.doneBefore)
  {
    Reached(n, maxWorkers, run);
    var st := After(Start(n, maxWorkers), run);
    mid :| Listing(st, mid) && st.trace == Prefix(st.first) + Sents(mid) + [TransferDone];
    CountBound(st.workers, InRun);
  }

  // ---------------------------------------------------------------- termination

  // The cost of the attempts left, each with a full count of the chunks at its end.
  function Attempts(retries: nat, n: nat): nat {
    if retries == 0 then 3 * (n + 3) else if retries == 1 then 2 * (n + 3) else if retries == 2 then n + 3 else 0
  }

  // Work left for a worker: retries first, then the position in the attempt, then the chunks still to be counted.
  function WorkerWork(pc: WorkerPc, retries: nat, n: nat): nat {
    match pc
    case Unstarted => 0
    case Trying => Attempts(retries, n) + 4
    case Reading => Attempts(retries, n) + 3
    case Sending => Attempts(retries, n) + 2
    case Counting(i, _) => 4 + if i < n then n - i else 0
    case Emitting => 3
    case Failing => 3
    case Leaving => 2
    case Signalling => 1
    case Ended => 0
  }

  // Work left for the dispatcher, including all of the workers it has yet to start.
  function DispatcherWork(d: DispatcherPc, n: nat): nat {
    match d
    case Check(i) => 4 + Ahead(i, n)
    case AddOne(i) => 3 + Ahead(i, n)
    case TakeSlot(i) => 2 + Ahead(i, n)
    case Spawn(i) => 1 + Ahead(i, n)
    case AwaitAll => 3
    case Conclude => 2
    case EmitDone => 1
    case Finished => 0
    case Returned => 0
  }

  function Ahead(i: nat, n: nat): nat {
    if i < n then (n - i) * (3 * n + 17) else 0
  }

  function WorkersWork(workers: seq<WorkerPc>, chunks: seq<Chunk>, n: nat): nat
    requires |workers| == |chunks|
  {
    if workers == [] then 0
    else
      var k := |workers| - 1;
      WorkersWork(workers[..k], chunks[..k], n) + WorkerWork(workers[k], chunks[k].retries, n)
  }

  function TotalWork(st: State): nat
    requires Shaped(st)
  {
    WorkersWork(st.workers, st.chunks, |st.chunks|) + DispatcherWork(st.dispatcher, |st.chunks|)
  }

  lemma {:induction false} WorkersWorkUpdate(ws: seq<WorkerPc>, cs: seq<Chunk>, i: nat, w: WorkerPc, c: Chunk, n: nat)
    requires |ws| == |cs| && i < |ws|
    ensures WorkersWork(ws[i := w], cs[i := c], n)
         == WorkersWork(ws, cs, n) - WorkerWork(ws[i], cs[i].retries, n) + WorkerWork(w, c.retries, n)
  {
    var k := |ws| - 1;
    if i == k {
      assert ws[i := w][..k] == ws[..k] && cs[i := c][..k] == cs[..k];
    } else {
      assert ws[i := w][..k] == ws[..k][i := w] && cs[i := c][..k] == cs[..k][i := c];
      WorkersWorkUpdate(ws[..k], cs[..k], i, w, c, n);
    }
  }

  predicate Internal(a: Action) {
    a.Dispatch? || a.Work?
  }

  lemma AheadStep(i: nat, n: nat)
    requires i < n
    ensures Ahead(i, n) == Ahead(i + 1, n) + 3 * n + 17
  {
    assert (n - i) * (3 * n + 17) == (n - (i + 1)) * (3 * n + 17) + (3 * n + 17);
  }

  lemma DispatcherWorks(st: State)
    requires Shaped(st) && DispatcherOk(st) && Enabled(st, Dispatch)
    ensures DispatcherWork(DispatcherGoto(st), |st.chunks|) + (if st.dispatcher.Spawn? then 3 * |st.chunks| + 13 else 0)
          < DispatcherWork(st.dispatcher, |st.chunks|)
  {
    if (st.dispatcher.Check? || st.dispatcher.Spawn?) && st.dispatcher.i < |st.chunks| {
      AheadStep(st.dispatcher.i, |st.chunks|);
    }
  }

  lemma DispatchWorks(st: State)
    requires Shaped(st) && DispatcherOk(st) && PerChunk(st) && Enabled(st, Dispatch)
    ensures TotalWork(DispatchDo(st)) < TotalWork(st)
  {
    DispatcherWorks(st);
    if st.dispatcher.Spawn? {
      var i := st.dispatcher.i;
      WorkersWorkUpdate(st.workers, st.chunks, i, Trying, st.chunks[i], |st.chunks|);
      assert st.chunks[i := st.chunks[i]] == st.chunks;
      assert WorkerWork(Trying, st.chunks[i].retries, |st.chunks|) <= 3 * |st.chunks| + 13;
    }
  }

  lemma AttemptWorks(st: State, i: nat, o: Outcome)
    requires Shaped(st) && PerChunk(st) && Enabled(st, Work(i, o))
    ensures WorkerWork(WorkerGoto(st, i, o), ChunkAfter(st.chunks[i], st.workers[i], o).retries, |st.chunks|)
          < WorkerWork(st.workers[i], st.chunks[i].retries, |st.chunks|)
  {
  }

  /** Every step of the dispatcher or of a worker leaves less work, whatever the outcomes: every run ends as soon as
      each read and send returns. */
  lemma WorkDecreases(st: State, a: Action)
    requires Inv(st) && Enabled(st, a) && Internal(a)
    ensures TotalWork(Do(st, a)) < TotalWork(st)
  {
    match a
    case Dispatch => DispatchWorks(st);
    case Work(i, o) =>
      AttemptWorks(st, i, o);
      WorkersWorkUpdate(st.workers, st.chunks, i, WorkerGoto(st, i, o), ChunkAfter(st.chunks[i], st.workers[i], o),
            |st.chunks|);
  }

  lemma WorkerNeverBlocks(st: State, i: nat)
    requires Inv(st) && i < |st.workers| && InRun(st.workers[i])
    ensures exists o :: Enabled(st, Work(i, o))
  {
    CountBound(st.workers, InRun);
    CountBound(st.workers, HoldsSlot);
    if st.workers[i].Reading? || st.workers[i].Sending? {
      assert Enabled(st, Work(i, Good));
    } else {
      assert Enabled(st, Work(i, Tick));
    }
  }

  /** No deadlock: until the run is over, the dispatcher or some worker can step. */
  lemma RunNeverBlocks(st: State)
    requires Inv(st) && !RunOver(st)
    ensures exists a :: Internal(a) && Enabled(st, a)
  {
    if i :| 0 <= i < |st.workers| && InRun(st.workers[i]) {
      WorkerNeverBlocks(st, i);
      var o :| Enabled(st, Work(i, o));
      assert Internal(Work(i, o));
    } else {
      CountBound(st.workers, InRun);
      CountBound(st.workers, HoldsSlot);
      assert Enabled(st, Dispatch) && Internal(Dispatch);
    }
  }

  /** Every run comes to its end: from any state there is a continuation by the dispatcher and the workers alone that
      ends the run, and by WorkDecreases no continuation by them is longer than the work left. */
  lemma {:induction false} RunEnds(st: State) returns (run: seq<Action>)
    requires Inv(st)
    ensures ValidRun(st, run) && |run| <= TotalWork(st) && RunOver(After(st, run))
    ensures forall i :: 0 <= i < |run| ==> Internal(run[i])
    decreases TotalWork(st)
  {
    if RunOver(st) {
      run := [];
    } else {
      var a := GoesOn(st);
      var rest := RunEnds(Do(st, a));
      RunStep(st, a, Do(st, a), rest);
      run := [a] + rest;
    }
  }

  lemma GoesOn(st: State) returns (a: Action)
    requires Inv(st) && !RunOver(st)
    ensures Internal(a) && Enabled(st, a) && Inv(Do(st, a)) && TotalWork(Do(st, a)) < TotalWork(st)
  {
    RunNeverBlocks(st);
    a :| Internal(a) && Enabled(st, a);
    WorkDecreases(st, a);
    StepKeepsInv(st, a);
  }
}
