/** The concurrent chunk sender (internal/fileservice/service.go) as a step machine: one dispatcher goroutine, one
    worker goroutine per chunk of the current run, a counting semaphore and a wait group. Any interleaving, any
    pattern of read and send failures, and Stop, PauseTransfer, CancelTransfer and ResumeTransfer at any moment
    (ResumeTransfer only when no run of the transfer is under way).
 */
module SenderModel {
  datatype ChunkStatus = ChunkPending | ChunkSending | ChunkDone | ChunkFailed

  datatype Status = Running | Completed | Failed | Paused

  datatype Chunk = Chunk(status: ChunkStatus, retries: nat)

  // Control points of a worker. Counting(i, n): updateProgress has looked at i chunks and found n of them done.
  datatype WorkerPc =
    | Unstarted | Trying | Reading | Sending | Counting(i: nat, n: nat) | Emitting
    | Failing | Leaving | Signalling | Ended

  datatype DispatcherPc =
    | Check(i: nat) | AddOne(i: nat) | TakeSlot(i: nat) | Spawn(i: nat)
    | AwaitAll | Conclude | EmitDone | Finished | Returned

  // What has been tried for a chunk.
  datatype Try = BadRead | GoodRead | BadSend | GoodSend

  datatype Event = TransferStart | ChunkSent(i: nat) | TransferDone

  datatype State = State(
    maxWorkers: nat,
    chunks: seq<Chunk>,
    workers: seq<WorkerPc>,     // the worker of each chunk in the current run
    dispatcher: DispatcherPc,
    slots: nat,                 // tokens in `sem`
    waiting: nat,               // the wait group's counter
    failed: bool,
    stopped: bool,              // is `done` closed?
    status: Status,
    progress: real,
    trace: seq<Event>,          // the plugin events of the current run
    first: bool,                // is the current run the first one?
    doneBefore: set<nat>,       // the chunks that were done when the current run began
    tries: seq<seq<Try>>)       // per chunk, its reads and sends so far, over all runs

  datatype Outcome = Tick | Good | Bad

  datatype Action = Dispatch | Work(i: nat, o: Outcome) | Stop | Pause | Cancel | Resume

  const MAX_RETRIES := 3

  // NewFileService: a limit that is not positive becomes 4.
  function Limit(maxWorkers: int): nat {
    if maxWorkers <= 0 then 4 else maxWorkers
  }

  // SendFile has split the file into n chunks, emitted transfer.start and started the dispatcher.
  function Start(n: nat, maxWorkers: int): State {
    State(Limit(maxWorkers), seq(n, _ => Chunk(ChunkPending, 0)), seq(n, _ => Unstarted), Check(0), 0, 0, false, false,
          Running, 0.0, [TransferStart], true, {}, seq(n, _ => []))
  }

  predicate Done(st: State, i: nat) {
    i < |st.chunks| && st.chunks[i].status.ChunkDone?
  }

  function DoneSet(st: State): set<nat> {
    set i | 0 <= i < |st.chunks| && st.chunks[i].status.ChunkDone?
  }

  predicate Shaped(st: State) {
    |st.workers| == |st.chunks| == |st.tries|
  }

  predicate InRun(pc: WorkerPc) {
    !pc.Unstarted? && !pc.Ended?
  }

  predicate RunOver(st: State) {
    && (st.dispatcher.Finished? || st.dispatcher.Returned?)
    && forall i :: 0 <= i < |st.workers| ==> !InRun(st.workers[i])
  }

  predicate Enabled(st: State, a: Action) {
    && Shaped(st)
    && match a
       case Dispatch =>
         (match st.dispatcher
          case Check(i) => i <= |st.chunks|
          case AddOne(i) => i < |st.chunks|
          case TakeSlot(i) => i < |st.chunks| && st.slots < st.maxWorkers
          case Spawn(i) => i < |st.chunks|
          case AwaitAll => st.waiting == 0
          case Conclude => true
          case EmitDone => true
          case Finished => false
          case Returned => false)
       case Work(i, o) =>
         i < |st.workers| && InRun(st.workers[i])
         && (st.workers[i].Reading? || st.workers[i].Sending? <==> !o.Tick?)
         && (st.workers[i].Leaving? ==> st.slots > 0) && (st.workers[i].Signalling? ==> st.waiting > 0)
       case Stop => !st.stopped
       case Pause => true
       case Cancel => true
       case Resume => RunOver(st)
  }

  function DispatcherGoto(st: State): DispatcherPc {
    match st.dispatcher
    case Check(i) =>
      if i >= |st.chunks| then AwaitAll
      else if st.stopped then Returned
      else if st.chunks[i].status.ChunkDone? then Check(i + 1)
      else AddOne(i)
    case AddOne(i) => TakeSlot(i)
    case TakeSlot(i) => Spawn(i)
    case Spawn(i) => Check(i + 1)
    case AwaitAll => Conclude
    case Conclude => EmitDone
    case EmitDone => Finished
    case d => d
  }

  function DispatchDo(st: State): State
    requires Enabled(st, Dispatch)
  {
    var d := st.dispatcher;
    st.(
    dispatcher := DispatcherGoto(st),
    workers := if d.Spawn? then st.workers[d.i := Trying] else st.workers,
    waiting := if d.AddOne? then st.waiting + 1 else st.waiting,
    slots := if d.TakeSlot? then st.slots + 1 else st.slots,
    status := if d.Conclude? then (if st.failed then Failed else Completed) else st.status,
    trace := if d.EmitDone? then st.trace + [TransferDone] else st.trace)
  }

  function Percent(n: nat, total: nat): real
    requires total > 0
  {
    n as real / total as real * 100.0
  }

  function WorkerGoto(st: State, i: nat, o: Outcome): WorkerPc
    requires Shaped(st) && i < |st.chunks|
  {
    match st.workers[i]
    case Trying =>
      if st.chunks[i].retries >= MAX_RETRIES then Failing else if st.stopped then Leaving else Reading
    case Reading => if o.Good? then Sending else Trying
    case Sending => if o.Good? then Counting(0, 0) else Trying
    case Counting(j, n) =>
      if j < |st.chunks| then Counting(j + 1, if st.chunks[j].status.ChunkDone? then n + 1 else n) else Emitting
    case Emitting => Leaving
    case Failing => Leaving
    case Leaving => Signalling
    case Signalling => Ended
    case pc => pc
  }

  function ChunkAfter(c: Chunk, pc: WorkerPc, o: Outcome): Chunk {
    match pc
    case Reading => if o.Good? then c.(status := ChunkSending) else c.(retries := c.retries + 1)
    case Sending => if o.Good? then c.(status := ChunkDone) else Chunk(ChunkFailed, c.retries + 1)
    case _ => c
  }

  function TriesAfter(tries: seq<Try>, pc: WorkerPc, o: Outcome): seq<Try> {
    match pc
    case Reading => tries + [if o.Good? then GoodRead else BadRead]
    case Sending => tries + [if o.Good? then GoodSend else BadSend]
    case _ => tries
  }

  function WorkDo(st: State, i: nat, o: Outcome): State
    requires Enabled(st, Work(i, o))
  {
    var pc := st.workers[i];
    st.(
    chunks := st.chunks[i := ChunkAfter(st.chunks[i], pc, o)],
    workers := st.workers[i := WorkerGoto(st, i, o)],
    tries := st.tries[i := TriesAfter(st.tries[i], pc, o)],
    progress := if pc.Counting? && pc.i >= |st.chunks| then Percent(pc.n, |st.chunks|) else st.progress,
    trace := if pc.Emitting? then st.trace + [ChunkSent(i)] else st.trace,
    failed := st.failed || pc.Failing?,
    slots := if pc.Leaving? then st.slots - 1 else st.slots,
    waiting := if pc.Signalling? then st.waiting - 1 else st.waiting)
  }

  function Do(st: State, a: Action): State
    requires Enabled(st, a)
  {
    match a
    case Dispatch => DispatchDo(st)
    case Work(i, o) => WorkDo(st, i, o)
    case Stop => st.(stopped := true)
    case Pause => st.(status := Paused)
    case Cancel => st.(status := Failed)
    case Resume =>
      st.(status := Running, workers := seq(|st.chunks|, _ => Unstarted), dispatcher := Check(0), slots := 0,
      waiting := 0, failed := false, trace := [], first := false, doneBefore := DoneSet(st))
  }

  predicate ValidRun(st: State, run: seq<Action>)
    decreases |run|
  {
    run == [] || (Enabled(st, run[0]) && ValidRun(Do(st, run[0]), run[1..]))
  }

  function After(st: State, run: seq<Action>): State
    requires ValidRun(st, run)
    decreases |run|
  {
    if run == [] then st else After(Do(st, run[0]), run[1..])
  }
}
