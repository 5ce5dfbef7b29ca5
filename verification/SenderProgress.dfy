/** When the recorded progress of a finished transfer is right: always if only one worker can be at work, and otherwise
    not, since the worker that counted first can write last. */
module SenderProgress {
  import opened Sequences
  import opened SenderModel
  import opened SenderInvariant
  import opened SenderResults

  // ---------------------------------------------------------------- one worker at a time

  predicate Single(st: State) {
    st.maxWorkers == 1 || |st.chunks| == 1
  }

  // A count under way agrees with the chunks looked at.
  ghost predicate CountExact(pc: WorkerPc, chunks: seq<Chunk>) {
    pc.Counting? ==> pc.i <= |chunks| && pc.n == Count(chunks[..pc.i], IsDone)
  }

  ghost predicate NobodyCounts(workers: seq<WorkerPc>) {
    forall i :: 0 <= i < |workers| ==> !workers[i].Counting?
  }

  // And when nobody counts, the recorded progress is right.
  ghost predicate ProgressExact(st: State)
    requires |st.chunks| > 0
  {
    && (forall i :: 0 <= i < |st.workers| ==> CountExact(st.workers[i], st.chunks))
    && (NobodyCounts(st.workers) ==> st.progress == Percent(DoneCount(st), |st.chunks|))
  }

  lemma {:induction false} TwoCount<T>(s: seq<T>, p: T -> bool, i: nat, j: nat)
    requires i < j < |s| && p(s[i]) && p(s[j])
    ensures Count(s, p) >= 2
  {
    var k := |s| - 1;
    if j == k {
      CountBound(s[..k], p);
      assert s[..k][i] == s[i];
    } else {
      TwoCount(s[..k], p, i, j);
    }
  }

  lemma OneAtWork(st: State, i: nat, j: nat)
    requires Shaped(st) && CountersOk(st) && Single(st)
    requires i < |st.workers| && j < |st.workers| && HoldsSlot(st.workers[i]) && HoldsSlot(st.workers[j])
    ensures i == j
  {
    if i < j {
      TwoCount(st.workers, HoldsSlot, i, j);
    } else if j < i {
      TwoCount(st.workers, HoldsSlot, j, i);
    }
  }

  lemma CountNext(chunks: seq<Chunk>, j: nat)
    requires j < |chunks|
    ensures Count(chunks[..j + 1], IsDone) == Count(chunks[..j], IsDone) + if IsDone(chunks[j]) then 1 else 0
  {
    assert chunks[..j + 1][..j] == chunks[..j];
  }

  // The worker's own count, and what it writes at its end.
  lemma OwnCount(st: State, i: nat, o: Outcome)
    requires Shaped(st) && PerChunk(st) && Enabled(st, Work(i, o)) && CountExact(st.workers[i], st.chunks)
    ensures CountExact(WorkerGoto(st, i, o), WorkDo(st, i, o).chunks)
  {
    var pc := st.workers[i];
    if pc.Counting? {
      assert st.chunks[i := st.chunks[i]] == st.chunks;
      if pc.i < |st.chunks| {
        CountNext(st.chunks, pc.i);
      }
    }
  }

  lemma OwnProgress(st: State, i: nat, o: Outcome)
    requires Shaped(st) && PerChunk(st) && Enabled(st, Work(i, o)) && CountExact(st.workers[i], st.chunks)
    requires !st.workers[i].Counting? ==> st.progress == Percent(DoneCount(st), |st.chunks|)
    requires !WorkerGoto(st, i, o).Counting?
    ensures WorkDo(st, i, o).progress == Percent(DoneCount(WorkDo(st, i, o)), |st.chunks|)
  {
    var pc := st.workers[i];
    CountUpdate(st.chunks, i, ChunkAfter(st.chunks[i], pc, o), IsDone);
    if pc.Counting? {
      assert st.chunks[..pc.i] == st.chunks;
    }
  }

  // A worker's step, while no other worker counts.
  lemma WorkExact(st: State, i: nat, o: Outcome)
    requires Shaped(st) && PerChunk(st) && Enabled(st, Work(i, o)) && ProgressExact(st)
    requires forall j :: 0 <= j < |st.workers| && j != i ==> !st.workers[j].Counting?
    ensures ProgressExact(WorkDo(st, i, o))
  {
    var st' := WorkDo(st, i, o);
    assert CountExact(st.workers[i], st.chunks);
    OwnCount(st, i, o);
    assert !st.workers[i].Counting? ==> NobodyCounts(st.workers);
    if NobodyCounts(st'.workers) {
      assert st'.workers[i] == WorkerGoto(st, i, o);
      OwnProgress(st, i, o);
    }
  }

  lemma ExactStep(st: State, a: Action)
    requires Inv(st) && Single(st) && |st.chunks| > 0 && ProgressExact(st) && Enabled(st, a)
    ensures Single(Do(st, a)) && |Do(st, a).chunks| == |st.chunks| && ProgressExact(Do(st, a))
  {
    match a
    case Work(i, o) =>
      WorkAlone(st, i, o);
    case Dispatch => DispatchKeepsPerChunk(st);
    case _ =>
  }

  // A worker that has given its slot back leaves everything as it is.
  lemma EndsQuietly(st: State, i: nat, o: Outcome)
    requires Shaped(st) && Enabled(st, Work(i, o)) && st.workers[i].Signalling? && |st.chunks| > 0 && ProgressExact(st)
    ensures ProgressExact(WorkDo(st, i, o))
  {
    var st' := WorkDo(st, i, o);
    assert st'.chunks == st.chunks;
    if NobodyCounts(st'.workers) {
      forall j | 0 <= j < |st.workers|
        ensures !st.workers[j].Counting?
      {
        assert j != i ==> st'.workers[j] == st.workers[j];
      }
    }
  }

  lemma WorkAlone(st: State, i: nat, o: Outcome)
    requires Inv(st) && Single(st) && |st.chunks| > 0 && ProgressExact(st) && Enabled(st, Work(i, o))
    ensures ProgressExact(WorkDo(st, i, o))
  {
    if st.workers[i].Signalling? {
      EndsQuietly(st, i, o);
    } else {
      forall j | 0 <= j < |st.workers| && j != i
        ensures !st.workers[j].Counting?
      {
        if HoldsSlot(st.workers[j]) {
          OneAtWork(st, i, j);
        }
      }
      WorkExact(st, i, o);
    }
  }

  lemma {:induction false} RunExact(st: State, run: seq<Action>)
    requires Inv(st) && Single(st) && |st.chunks| > 0 && ProgressExact(st) && ValidRun(st, run)
    ensures Inv(After(st, run)) && |After(st, run).chunks| == |st.chunks| && ProgressExact(After(st, run))
    decreases |run|
  {
    if run != [] {
      StepKeepsInv(st, run[0]);
      ExactStep(st, run[0]);
      RunExact(Do(st, run[0]), run[1..]);
    }
  }

  lemma OneWorkerPercent(n: nat, maxWorkers: int, run: seq<Action>)
    requires n > 0 && (n == 1 || Limit(maxWorkers) == 1)
    requires ValidRun(Start(n, maxWorkers), run) && After(Start(n, maxWorkers), run).dispatcher.Conclude?
    ensures var st := After(Start(n, maxWorkers), run); DoneCount(st) <= n && st.progress == Percent(DoneCount(st), n)
  {
    var st := Start(n, maxWorkers);
    StartInv(n, maxWorkers);
    CountAll(st.chunks, IsDone, Chunk(ChunkPending, 0));
    assert Percent(0, n) == 0.0;
    RunExact(st, run);
    CountBound(After(st, run).workers, InRun);
    CountBound(After(st, run).chunks, IsDone);
  }

  /** If at most one worker can be at work, the recorded progress at the end of every run is the share of done chunks,
      whatever fails, with Stop and over any number of resumes. */
  lemma OneWorkerIsExact(n: nat, maxWorkers: int, run: seq<Action>)
    requires n > 0 && (n == 1 || Limit(maxWorkers) == 1)
    requires ValidRun(Start(n, maxWorkers), run) && After(Start(n, maxWorkers), run).dispatcher.Conclude?
    ensures var st := After(Start(n, maxWorkers), run); IsShare(st.progress, DoneCount(st), n)
  {
    OneWorkerPercent(n, maxWorkers, run);
    var done := DoneCount(After(Start(n, maxWorkers), run));
    ShareBound(done, done, n);
  }

  // ---------------------------------------------------------------- a run with two workers

  const FRESH := Chunk(ChunkPending, 0)

  // The chunks before k are done, the first one's worker has counted just this one and is about to write it, the
  // others' workers have ended, and nothing has begun with the chunks after k.
  ghost predicate Line(st: State, n: nat, k: nat) {
    && Shaped(st) && |st.chunks| == n && k <= n && st.maxWorkers >= 2 && !st.failed && !st.stopped
    && (forall j :: 0 <= j < k ==> st.chunks[j].status.ChunkDone?)
    && (forall j :: k < j < n ==> st.chunks[j] == FRESH && st.workers[j] == Unstarted)
    && (forall j :: 0 < j < k ==> st.workers[j] == Ended)
    && (k > 0 ==> st.workers[0] == Counting(n, 1))
  }

  function One(b: bool): nat {
    if b then 1 else 0
  }

  // And chunk k's worker is at w, its chunk is c, and the dispatcher is at d.
  ghost predicate Serving(st: State, n: nat, k: nat, d: DispatcherPc, w: WorkerPc, c: Chunk) {
    && Line(st, n, k) && k < n && st.dispatcher == d && st.workers[k] == w && st.chunks[k] == c
    && st.slots == One(k > 0) + One(d.Spawn? || HoldsSlot(w))
    && st.waiting == One(k > 0) + One(d.TakeSlot? || d.Spawn? || InRun(w))
  }

  lemma {:induction false} RunExtend(st: State, run: seq<Action>, a: Action)
    requires ValidRun(st, run) && Enabled(After(st, run), a)
    ensures ValidRun(st, run + [a]) && After(st, run + [a]) == Do(After(st, run), a)
    decreases |run|
  {
    if run == [] {
      assert run + [a] == [a];
    } else {
      assert (run + [a])[1..] == run[1..] + [a];
      RunExtend(Do(st, run[0]), run[1..], a);
    }
  }

  lemma ServeDispatch(st: State, n: nat, k: nat, d: DispatcherPc)
    requires Serving(st, n, k, d, Unstarted, FRESH) && d in {Check(k), AddOne(k), TakeSlot(k), Spawn(k)}
    ensures Enabled(st, Dispatch)
    ensures Serving(DispatchDo(st), n, k, DispatcherGoto(st), if d.Spawn? then Trying else Unstarted, FRESH)
    ensures DispatcherGoto(st) == match d
                                  case Check(_) => AddOne(k)
                                  case AddOne(_) => TakeSlot(k)
                                  case TakeSlot(_) => Spawn(k)
                                  case _ => Check(k + 1)
  {
  }

  lemma Dispatches(s: State, run: seq<Action>, n: nat, k: nat, d: DispatcherPc) returns (run': seq<Action>)
    requires ValidRun(s, run) && Serving(After(s, run), n, k, d, Unstarted, FRESH)
    requires d in {Check(k), AddOne(k), TakeSlot(k), Spawn(k)}
    ensures ValidRun(s, run') && After(s, run') == DispatchDo(After(s, run))
    ensures Serving(After(s, run'), n, k, DispatcherGoto(After(s, run)), if d.Spawn? then Trying else Unstarted, FRESH)
  {
    ServeDispatch(After(s, run), n, k, d);
    RunExtend(s, run, Dispatch);
    run' := run + [Dispatch];
  }

  // The worker of chunk k starts.
  lemma Starts(s: State, run: seq<Action>, n: nat, k: nat) returns (run': seq<Action>)
    requires ValidRun(s, run) && Serving(After(s, run), n, k, Check(k), Unstarted, FRESH)
    ensures ValidRun(s, run') && Serving(After(s, run'), n, k, Check(k + 1), Trying, FRESH)
  {
    ServeDispatch(After(s, run), n, k, Check(k));
    run' := Dispatches(s, run, n, k, Check(k));
    ServeDispatch(After(s, run'), n, k, AddOne(k));
    run' := Dispatches(s, run', n, k, AddOne(k));
    ServeDispatch(After(s, run'), n, k, TakeSlot(k));
    run' := Dispatches(s, run', n, k, TakeSlot(k));
    ServeDispatch(After(s, run'), n, k, Spawn(k));
    run' := Dispatches(s, run', n, k, Spawn(k));
  }

  function GoodFor(w: WorkerPc): Outcome {
    if w.Reading? || w.Sending? then Good else Tick
  }

  lemma ServeWork(st: State, n: nat, k: nat, w: WorkerPc, c: Chunk)
    requires Serving(st, n, k, Check(k + 1), w, c) && InRun(w) && !w.Failing? && c.retries == 0
    ensures Enabled(st, Work(k, GoodFor(w)))
    ensures Serving(WorkDo(st, k, GoodFor(w)), n, k, Check(k + 1), WorkerGoto(st, k, GoodFor(w)),
                    ChunkAfter(c, w, GoodFor(w)))
  {
  }

  lemma Works(s: State, run: seq<Action>, n: nat, k: nat, w: WorkerPc, c: Chunk) returns (run': seq<Action>)
    requires ValidRun(s, run) && Serving(After(s, run), n, k, Check(k + 1), w, c)
    requires InRun(w) && !w.Failing? && c.retries == 0
    ensures ValidRun(s, run')
    ensures Serving(After(s, run'), n, k, Check(k + 1), WorkerGoto(After(s, run), k, GoodFor(w)),
                    ChunkAfter(c, w, GoodFor(w)))
  {
    var o := GoodFor(w);
    ServeWork(After(s, run), n, k, w, c);
    RunExtend(s, run, Work(k, o));
    run' := run + [Work(k, o)];
  }

  const DONE := Chunk(ChunkDone, 0)

  lemma Sends(s: State, run: seq<Action>, n: nat, k: nat) returns (run': seq<Action>)
    requires ValidRun(s, run) && Serving(After(s, run), n, k, Check(k + 1), Trying, FRESH)
    ensures ValidRun(s, run') && Serving(After(s, run'), n, k, Check(k + 1), Counting(0, 0), DONE)
  {
    run' := Works(s, run, n, k, Trying, FRESH);
    run' := Works(s, run', n, k, WorkerPc.Reading, FRESH);
    run' := Works(s, run', n, k, WorkerPc.Sending, Chunk(ChunkSending, 0));
  }

  // The worker of chunk k looks at all the chunks; the first one finds only its own done.
  lemma {:induction false} Counts(s: State, run: seq<Action>, n: nat, k: nat, i: nat, m: nat)
    returns (run': seq<Action>, m': nat)
    requires ValidRun(s, run) && Serving(After(s, run), n, k, Check(k + 1), Counting(i, m), DONE) && i <= n
    requires k == 0 ==> m == One(i > 0)
    ensures ValidRun(s, run') && Serving(After(s, run'), n, k, Check(k + 1), Counting(n, m'), DONE)
    ensures k == 0 ==> m' == 1
    decreases n - i
  {
    if i == n {
      run', m' := run, m;
    } else {
      var st := After(s, run);
      run' := Works(s, run, n, k, Counting(i, m), DONE);
      run', m' := Counts(s, run', n, k, i + 1, if st.chunks[i].status.ChunkDone? then m + 1 else m);
    }
  }

  lemma Writes(s: State, run: seq<Action>, n: nat, k: nat, m: nat) returns (run': seq<Action>)
    requires ValidRun(s, run) && Serving(After(s, run), n, k, Check(k + 1), Counting(n, m), DONE)
    ensures ValidRun(s, run') && Serving(After(s, run'), n, k, Check(k + 1), Leaving, DONE)
  {
    run' := Works(s, run, n, k, Counting(n, m), DONE);
    run' := Works(s, run', n, k, Emitting, DONE);
  }

  lemma Leaves(s: State, run: seq<Action>, n: nat, k: nat) returns (run': seq<Action>)
    requires ValidRun(s, run) && Serving(After(s, run), n, k, Check(k + 1), Leaving, DONE)
    ensures ValidRun(s, run') && Serving(After(s, run'), n, k, Check(k + 1), Ended, DONE)
  {
    run' := Works(s, run, n, k, Leaving, DONE);
    run' := Works(s, run', n, k, Signalling, DONE);
  }

  lemma ToCounting(s: State, run: seq<Action>, n: nat, k: nat) returns (run': seq<Action>, m: nat)
    requires ValidRun(s, run) && Serving(After(s, run), n, k, Check(k), Unstarted, FRESH)
    ensures ValidRun(s, run') && Serving(After(s, run'), n, k, Check(k + 1), Counting(n, m), DONE)
    ensures k == 0 ==> m == 1
  {
    run' := Starts(s, run, n, k);
    run' := Sends(s, run', n, k);
    run', m := Counts(s, run', n, k, 0, 0);
  }

  // The first k chunks are dealt with, and the first worker still has to write its count.
  ghost predicate Waiting(st: State, n: nat, k: nat) {
    && Line(st, n, k) && 0 < k && st.dispatcher == Check(k) && st.slots == 1 && st.waiting == 1
    && (k < n ==> st.chunks[k] == FRESH && st.workers[k] == Unstarted)
  }

  lemma {:induction false} Others(s: State, run: seq<Action>, n: nat, k: nat) returns (run': seq<Action>)
    requires ValidRun(s, run) && Waiting(After(s, run), n, k)
    ensures ValidRun(s, run') && Waiting(After(s, run'), n, n)
    decreases n - k
  {
    if k == n {
      run' := run;
    } else {
      var m;
      run', m := ToCounting(s, run, n, k);
      run' := Writes(s, run', n, k, m);
      run' := Leaves(s, run', n, k);
      run' := Others(s, run', n, k + 1);
    }
  }

  // ---------------------------------------------------------------- the first worker writes

  ghost predicate Closing(st: State, n: nat, w: WorkerPc, d: DispatcherPc) {
    && Shaped(st) && |st.chunks| == n && n > 0 && !st.failed && !st.stopped && st.workers[0] == w && st.dispatcher == d
    && (forall j :: 0 <= j < n ==> st.chunks[j].status.ChunkDone?)
    && st.slots == One(HoldsSlot(w)) && st.waiting == One(InRun(w))
    && (!w.Counting? ==> st.progress == Percent(1, n))
  }

  lemma CloseWork(st: State, n: nat, w: WorkerPc)
    requires Closing(st, n, w, Check(n)) && w in {Counting(n, 1), Emitting, Leaving, Signalling}
    ensures Enabled(st, Work(0, Tick))
    ensures Closing(WorkDo(st, 0, Tick), n, WorkerGoto(st, 0, Tick), Check(n))
  {
  }

  lemma Closes(s: State, run: seq<Action>, n: nat, w: WorkerPc) returns (run': seq<Action>)
    requires ValidRun(s, run) && Closing(After(s, run), n, w, Check(n))
    requires w in {Counting(n, 1), Emitting, Leaving, Signalling}
    ensures ValidRun(s, run') && Closing(After(s, run'), n, WorkerGoto(After(s, run), 0, Tick), Check(n))
  {
    CloseWork(After(s, run), n, w);
    RunExtend(s, run, Work(0, Tick));
    run' := run + [Work(0, Tick)];
  }

  lemma Concludes(s: State, run: seq<Action>, n: nat) returns (run': seq<Action>)
    requires ValidRun(s, run) && Closing(After(s, run), n, Ended, Check(n))
    ensures ValidRun(s, run') && Closing(After(s, run'), n, Ended, Conclude)
  {
    RunExtend(s, run, Dispatch);
    run' := run + [Dispatch];
    RunExtend(s, run', Dispatch);
    run' := run' + [Dispatch];
  }

  lemma FirstWrites(s: State, run: seq<Action>, n: nat) returns (run': seq<Action>)
    requires ValidRun(s, run) && Waiting(After(s, run), n, n)
    ensures ValidRun(s, run') && Closing(After(s, run'), n, Leaving, Check(n))
  {
    run' := Closes(s, run, n, Counting(n, 1));
    run' := Closes(s, run', n, Emitting);
  }

  lemma FirstEnds(s: State, run: seq<Action>, n: nat) returns (run': seq<Action>)
    requires ValidRun(s, run) && Closing(After(s, run), n, Leaving, Check(n))
    ensures ValidRun(s, run') && Closing(After(s, run'), n, Ended, Conclude)
  {
    run' := Closes(s, run, n, Leaving);
    run' := Closes(s, run', n, Signalling);
    run' := Concludes(s, run', n);
  }

  lemma StaleRun(n: nat, maxWorkers: int) returns (run: seq<Action>)
    requires n >= 2 && Limit(maxWorkers) >= 2
    ensures ValidRun(Start(n, maxWorkers), run)
    ensures Closing(After(Start(n, maxWorkers), run), n, Ended, Conclude)
  {
    var s := Start(n, maxWorkers);
    var m;
    run, m := ToCounting(s, [], n, 0);
    run := Others(s, run, n, 1);
    run := FirstWrites(s, run, n);
    run := FirstEnds(s, run, n);
  }

  /** With two chunks and two workers or more, a transfer can end Completed with every chunk done and report just one of
      them for good: the first worker counts before all others and writes after them. */
  lemma StaleProgress(n: nat, maxWorkers: int) returns (run: seq<Action>)
    requires n >= 2 && Limit(maxWorkers) >= 2
    ensures ValidRun(Start(n, maxWorkers), run)
    ensures var st := After(Start(n, maxWorkers), run);
            && st.dispatcher.Conclude? && !st.stopped && Enabled(st, Dispatch) && DispatchDo(st).status == Completed
            && (forall i :: 0 <= i < n ==> Done(st, i))
            && IsShare(DispatchDo(st).progress, 1, n) && DispatchDo(st).progress < 100.0
  {
    run := StaleRun(n, maxWorkers);
    TooLittle(n);
  }

  lemma TooLittle(n: nat)
    requires n >= 2
    ensures IsShare(Percent(1, n), 1, n) && Percent(1, n) < 100.0
  {
    ShareBound(1, 1, n);
    assert 1.0 / n as real <= 0.5;
  }

  lemma Whole(percent: real, n: nat)
    requires n > 0 && IsShare(percent, n, n)
    ensures percent == 100.0
  {
    assert (percent - 100.0) * n as real == 0.0;
  }

  // The run ends Completed, and Stop was not called.
  predicate EndsWell(n: nat, maxWorkers: int, run: seq<Action>) {
    && ValidRun(Start(n, maxWorkers), run)
    && var st := After(Start(n, maxWorkers), run);
       st.dispatcher.Conclude? && !st.stopped && Enabled(st, Dispatch) && DispatchDo(st).status == Completed
  }

  /** Every run that ends Completed without Stop reports 100 percent if and only if the transfer has one chunk or the
      service one worker. */
  lemma ProgressExactly(n: nat, maxWorkers: int)
    requires n > 0
    ensures (forall run :: EndsWell(n, maxWorkers, run) ==> After(Start(n, maxWorkers), run).progress == 100.0)
       <==> n == 1 || Limit(maxWorkers) == 1
  {
    if n == 1 || Limit(maxWorkers) == 1 {
      forall run | EndsWell(n, maxWorkers, run)
        ensures After(Start(n, maxWorkers), run).progress == 100.0
      {
        AllDone(n, maxWorkers, run);
      }
    } else {
      var run := StaleProgress(n, maxWorkers);
      assert EndsWell(n, maxWorkers, run);
    }
  }

  lemma AllDone(n: nat, maxWorkers: int, run: seq<Action>)
    requires n > 0 && (n == 1 || Limit(maxWorkers) == 1) && EndsWell(n, maxWorkers, run)
    ensures After(Start(n, maxWorkers), run).progress == 100.0
  {
    OneWorkerIsExact(n, maxWorkers, run);
    FinalStatus(n, maxWorkers, run);
    ChunkCountStays(Start(n, maxWorkers), run);
    var st := After(Start(n, maxWorkers), run);
    EverybodyCounts(st);
    Whole(st.progress, n);
  }

  lemma EverybodyCounts(st: State)
    requires forall i :: 0 <= i < |st.chunks| ==> Done(st, i)
    ensures DoneCount(st) == |st.chunks|
  {
    forall i | 0 <= i < |st.chunks|
      ensures IsDone(st.chunks[i])
    {
      assert Done(st, i);
    }
    CountBound(st.chunks, IsDone);
  }
}
