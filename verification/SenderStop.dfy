/** When Stop costs chunks: exactly when a transfer that was stopped can still end Completed with a chunk undone. */
module SenderStop {
  import opened Sequences
  import opened SenderModel
  import opened SenderInvariant
  import opened SenderResults

  // The dispatcher, stopped here, gets to the final status: it asks for Stop before each chunk, and none is left.
  predicate PastLastCheck(d: DispatcherPc, n: nat) {
    || d == Check(n) || d.AwaitAll?
    || ((d.AddOne? || d.TakeSlot? || d.Spawn?) && d.i + 1 == n)
  }

  // A worker, stopped here, can give its chunk up with retries left.
  predicate MayGiveUp(pc: WorkerPc, c: Chunk) {
    && !c.status.ChunkDone?
    && (match pc
        case Unstarted => true
        case Trying => c.retries < MAX_RETRIES
        case Reading => c.retries + 1 < MAX_RETRIES
        case Sending => c.retries + 1 < MAX_RETRIES
        case _ => false)
  }

  // The state in which Stop comes.
  ghost predicate MayLose(st: State)
    requires Shaped(st)
  {
    && PastLastCheck(st.dispatcher, |st.chunks|)
    && (forall i :: 0 <= i < |st.chunks| ==> !Exhausted(st.chunks[i]))
    && (exists i :: 0 <= i < |st.chunks| && MayGiveUp(st.workers[i], st.chunks[i]))
  }

  // The same for the states after Stop, where a chunk may have been given up already.
  predicate GivesUp(pc: WorkerPc, c: Chunk) {
    MayGiveUp(pc, c) || (Settled(pc) && Abandoned(c))
  }

  ghost predicate Losing(st: State)
    requires Shaped(st)
  {
    && (PastLastCheck(st.dispatcher, |st.chunks|) || st.dispatcher.Conclude?)
    && (forall i :: 0 <= i < |st.chunks| ==> !Exhausted(st.chunks[i]))
    && (exists i :: 0 <= i < |st.chunks| && GivesUp(st.workers[i], st.chunks[i]))
  }

  // The run ends Completed with chunk i undone.
  predicate Lost(st: State, more: seq<Action>, i: nat) {
    && ValidRun(st, more) && After(st, more).dispatcher.Conclude? && Enabled(After(st, more), Dispatch)
    && DispatchDo(After(st, more)).status == Completed
    && i < |After(st, more).chunks| && !Done(After(st, more), i)
  }

  // ---------------------------------------------------------------- only then

  lemma WorkBack(st: State, i: nat, o: Outcome, j: nat)
    requires Inv(st) && st.stopped && Enabled(st, Work(i, o)) && j < |st.chunks|
    ensures var st' := WorkDo(st, i, o);
            && (GivesUp(st'.workers[j], st'.chunks[j]) ==> GivesUp(st.workers[j], st.chunks[j]))
            && (Exhausted(st.chunks[j]) ==> Exhausted(st'.chunks[j]))
  {
  }

  lemma LosingBack(st: State, a: Action)
    requires Inv(st) && st.stopped && Enabled(st, a) && Losing(Do(st, a))
    ensures Losing(st)
  {
    var st' := Do(st, a);
    var j :| 0 <= j < |st'.chunks| && GivesUp(st'.workers[j], st'.chunks[j]);
    match a
    case Work(i, o) =>
      forall k | 0 <= k < |st.chunks|
        ensures !Exhausted(st.chunks[k])
      {
        WorkBack(st, i, o, k);
      }
      WorkBack(st, i, o, j);
      assert GivesUp(st.workers[j], st.chunks[j]);
    case Dispatch =>
      DispatchBack(st, j);
    case Resume =>
    case Stop =>
    case Pause =>
      assert GivesUp(st.workers[j], st.chunks[j]);
    case Cancel =>
      assert GivesUp(st.workers[j], st.chunks[j]);
  }

  lemma DispatchBack(st: State, j: nat)
    requires Inv(st) && st.stopped && Enabled(st, Dispatch) && Losing(DispatchDo(st))
    requires j < |st.chunks| && GivesUp(DispatchDo(st).workers[j], st.chunks[j])
    ensures Losing(st)
  {
    DispatchKeepsPerChunk(st);
    assert GivesUp(st.workers[j], st.chunks[j]);
  }

  lemma {:induction false} LostWasLosing(st: State, more: seq<Action>, i: nat)
    requires Inv(st) && st.stopped && Lost(st, more, i)
    ensures Losing(st)
    decreases |more|
  {
    if more == [] {
      forall k | 0 <= k < |st.chunks|
        ensures !Exhausted(st.chunks[k])
      {
        AllSettled(st, k);
      }
      AllSettled(st, i);
      assert GivesUp(st.workers[i], st.chunks[i]);
    } else {
      StepKeepsInv(st, more[0]);
      LostWasLosing(Do(st, more[0]), more[1..], i);
      LosingBack(st, more[0]);
    }
  }

  // ---------------------------------------------------------------- and then

  // The outcome that keeps all other chunks and gives chunk i up.
  function LosingOutcome(pc: WorkerPc, giveUp: bool): Outcome {
    if pc.Reading? || pc.Sending? then (if giveUp then Bad else Good) else Tick
  }

  // The step of worker j that still loses chunk i.
  lemma WorkLoses(st: State, i: nat, j: nat)
    requires Inv(st) && st.stopped && Losing(st) && i < |st.chunks| && GivesUp(st.workers[i], st.chunks[i])
    requires j < |st.workers| && Enabled(st, Work(j, LosingOutcome(st.workers[j], j == i)))
    ensures Losing(WorkDo(st, j, LosingOutcome(st.workers[j], j == i)))
  {
    var o := LosingOutcome(st.workers[j], j == i);
    var st' := WorkDo(st, j, o);
    assert !Exhausted(st.chunks[j]);
    OwnLoss(st, j, o, j == i);
    assert GivesUp(st'.workers[i], st'.chunks[i]);
  }

  lemma OwnLoss(st: State, j: nat, o: Outcome, giveUp: bool)
    requires Shaped(st) && PerChunk(st) && st.stopped && Enabled(st, Work(j, o)) && !Exhausted(st.chunks[j])
    requires o == LosingOutcome(st.workers[j], giveUp) && (giveUp ==> GivesUp(st.workers[j], st.chunks[j]))
    ensures !Exhausted(WorkDo(st, j, o).chunks[j])
    ensures giveUp ==> GivesUp(WorkDo(st, j, o).workers[j], WorkDo(st, j, o).chunks[j])
  {
  }

  lemma DispatchLoses(st: State, i: nat)
    requires Inv(st) && st.stopped && Losing(st) && i < |st.chunks| && GivesUp(st.workers[i], st.chunks[i])
    requires Enabled(st, Dispatch) && !st.dispatcher.Conclude?
    ensures Losing(DispatchDo(st))
  {
    DispatchKeepsPerChunk(st);
    assert GivesUp(DispatchDo(st).workers[i], st.chunks[i]);
  }

  lemma StillLosing(st: State) returns (a: Action)
    requires Inv(st) && st.stopped && Losing(st) && !st.dispatcher.Conclude?
    ensures Internal(a) && Enabled(st, a) && Losing(Do(st, a)) && Do(st, a).stopped
  {
    var i :| 0 <= i < |st.chunks| && GivesUp(st.workers[i], st.chunks[i]);
    CountBound(st.workers, InRun);
    CountBound(st.workers, HoldsSlot);
    if j :| 0 <= j < |st.workers| && InRun(st.workers[j]) {
      a := Work(j, LosingOutcome(st.workers[j], j == i));
      WorkLoses(st, i, j);
    } else {
      a := Dispatch;
      DispatchLoses(st, i);
    }
  }

  lemma {:induction false} LosingIsLost(st: State) returns (more: seq<Action>, i: nat)
    requires Inv(st) && st.stopped && Losing(st)
    ensures Lost(st, more, i)
    decreases TotalWork(st)
  {
    if st.dispatcher.Conclude? {
      more := [];
      i :| 0 <= i < |st.chunks| && GivesUp(st.workers[i], st.chunks[i]);
    } else {
      var a := StillLosing(st);
      WorkDecreases(st, a);
      StepKeepsInv(st, a);
      var rest;
      rest, i := LosingIsLost(Do(st, a));
      more := [a] + rest;
      assert more[1..] == rest;
    }
  }

  // ---------------------------------------------------------------- the moment of Stop

  lemma LosingAtStop(st: State)
    requires Inv(st) && !st.stopped
    ensures Losing(Do(st, Stop)) <==> MayLose(st)
  {
    var st' := Do(st, Stop);
    forall i | 0 <= i < |st.chunks|
      ensures Losing(st') ==> (GivesUp(st'.workers[i], st'.chunks[i]) <==> MayGiveUp(st.workers[i], st.chunks[i]))
      ensures Losing(st') && st.dispatcher.Conclude? ==> !GivesUp(st'.workers[i], st'.chunks[i])
      ensures MayGiveUp(st.workers[i], st.chunks[i]) ==> GivesUp(st'.workers[i], st'.chunks[i])
    {
      if st.dispatcher.Conclude? {
        AllSettled(st, i);
      }
    }
  }

  /** After Stop a transfer can still end Completed with a chunk undone if and only if at the moment of Stop the
      dispatcher has asked for it a last time, no chunk is exhausted, and some undone chunk's worker is yet to start,
      about to try, or in an attempt after which it would try again. Otherwise every continuation that ends Completed
      has all chunks done. */
  lemma StopLosesExactly(n: nat, maxWorkers: int, run: seq<Action>)
    requires ValidRun(Start(n, maxWorkers), run) && !After(Start(n, maxWorkers), run).stopped
    ensures Enabled(After(Start(n, maxWorkers), run), Stop) && Shaped(After(Start(n, maxWorkers), run))
    ensures var st := After(Start(n, maxWorkers), run);
            (exists more, i :: Lost(Do(st, Stop), more, i)) <==> MayLose(st)
  {
    Reached(n, maxWorkers, run);
    var st := After(Start(n, maxWorkers), run);
    var st' := Do(st, Stop);
    StepKeepsInv(st, Stop);
    LosingAtStop(st);
    if more, i :| Lost(st', more, i) {
      LostWasLosing(st', more, i);
    }
    if MayLose(st) {
      var more, i := LosingIsLost(st');
      assert Lost(st', more, i);
    }
  }
}
