/** The relay server's routing core (cmd/lan-relay/main.go) as a step machine.

    Every session's handler goroutine and every delivery goroutine ("courier") is a thread with a program
    counter. A step is one lock operation together with the shared accesses made next to it. Locks have explicit
    owners: `owners[h]` is the set of threads that hold (or, for a writer, have announced) `h`. A session's mutex
    is taken by the sender's handler and handed to the courier that later releases it.
 */
module RelayModel {
  import opened Sequences

  type Id = string
  type Chan = string

  datatype Thread = Handler(s: nat) | Courier(d: nat)

  // channelIndexMu, s.mu, the mutex of session k, and the mutex of session k's connection.
  datatype Lock = IndexMu | RegistryMu | SessionMu(k: nat) | ConnMu(k: nat)

  // A claim on a lock. Go's RWMutex lets a writer announce itself first (Pending); from then on new readers wait.
  datatype Claim = Write(lock: Lock) | Read(lock: Lock) | Pending(lock: Lock)

  datatype Op =
    | Local
    | Announce(lock: Lock)
    | Acquire(lock: Lock)
    | RLock(lock: Lock)
    | RUnlock(lock: Lock)
    | MLock(lock: Lock)
    | Unlock(lock: Lock)
    | HandOver(lock: Lock)

  datatype ChannelEvent = NoEvent | Created(chan: Chan, members: seq<Id>) | PeerLeft(chan: Chan)

  datatype Msg =
    | Ping
    | QueryOnline
    | Text(chan: Chan, event: ChannelEvent, content: string)
    | File(chan: Chan, content: string)
    | Other

  // What the relay itself answers: a pong, or who is registered.
  datatype Answer = Pong | OnlineList(ids: set<Id>)

  // The answer to the num-th message read.
  datatype Reply = Reply(num: int, answer: Answer)

  // Control points of a session's handler.
  datatype Pc =
    | RegAnnounce | RegAcquire | RegBody | Crashed
    | CountLock(dying: bool) | CountUnlock(dying: bool)
    | Reading
    | QueryLock | QueryUnlock(ids: set<Id>)
    | ReplyLock(answer: Answer) | ReplySend(answer: Answer)
    | CreateAnnounce(chan: Chan, todo: seq<Id>) | CreateAcquire(chan: Chan, todo: seq<Id>)
    | CreateAdd(chan: Chan, todo: seq<Id>) | CreateRLock(chan: Chan, todo: seq<Id>)
    | CreateLook(chan: Chan, todo: seq<Id>) | CreateMark(chan: Chan, todo: seq<Id>, k: nat)
    | CreateRUnlock(chan: Chan, todo: seq<Id>)
    | LeaveAnnounce(chan: Chan) | LeaveAcquire(chan: Chan) | LeaveIndex(chan: Chan)
    | LeaveLock(chan: Chan) | LeaveUnpin(chan: Chan)
    | SnapLock | SnapTake
    | FwdLock(snap: set<Id>, todo: seq<Id>) | FwdLoop(snap: set<Id>, todo: seq<Id>)
    | FwdSpawn(snap: set<Id>, todo: seq<Id>, k: nat)
    | DownClose | DownAnnounce | DownAcquire | DownDeregister
    | DownIndexAnnounce | DownIndexAcquire | DownClean
    | Dead

  // A forwarded message on the wire: the num-th message read by session `from`.
  datatype Frame = Frame(from: nat, num: nat, msg: Msg)

  datatype Session = Session(
    id: Id,
    channels: set<Chan>,   // the back-pointers
    done: bool,            // has `done` been closed?
    inbox: seq<Msg>,       // the messages read so far
    wire: seq<Frame>,      // the forwarded messages written to this session's socket
    answers: seq<Reply>,   // the answers written to it
    pc: Pc)

  datatype Stage = Waiting | Sending | Unlocking | Finished

  datatype Delivery = Delivery(frame: Frame, to: nat, stage: Stage)

  // What happened to the index and to the back-pointers, in order.
  datatype Event =
    | Added(chan: Chan, id: Id)
    | Pinned(chan: Chan, id: Id, k: nat)
    | Unclaimed(chan: Chan, id: Id)
    | Departed(chan: Chan, id: Id)
    | Unpinned(chan: Chan, id: Id, k: nat)
    | Cleaned(id: Id, k: nat)

  datatype State = State(
    agents: map<Id, nat>,
    index: map<Chan, set<Id>>,
    sess: seq<Session>,
    couriers: seq<Delivery>,
    owners: map<Claim, set<Thread>>,
    log: seq<Event>)

  const INIT := State(map[], map[], [], [], map[], [])

  // What the environment decides at a step: the outcome of socket operations and of map iteration.
  datatype Choice = Tick | Recv(msg: Msg) | ReadError | Sent | SendFailed | Order(ts: seq<Id>)

  datatype Action = Accept(id: Id) | Run(t: Thread, c: Choice)

  // ---------------------------------------------------------------- locks

  function Owners(owners: map<Claim, set<Thread>>, c: Claim): set<Thread> {
    if c in owners then owners[c] else {}
  }

  predicate OpReady(owners: map<Claim, set<Thread>>, op: Op) {
    match op
    case Announce(l) => Owners(owners, Write(l)) == {} && Owners(owners, Pending(l)) == {}
    case Acquire(l) => Owners(owners, Read(l)) == {}
    case RLock(l) => Owners(owners, Write(l)) == {} && Owners(owners, Pending(l)) == {}
    case MLock(l) => Owners(owners, Write(l)) == {}
    case _ => true
  }

  function Take(owners: map<Claim, set<Thread>>, c: Claim, t: Thread): map<Claim, set<Thread>> {
    owners[c := Owners(owners, c) + {t}]
  }

  function Drop(owners: map<Claim, set<Thread>>, c: Claim, t: Thread): map<Claim, set<Thread>> {
    owners[c := Owners(owners, c) - {t}]
  }

  function OpDo(owners: map<Claim, set<Thread>>, t: Thread, op: Op, heir: Thread): map<Claim, set<Thread>> {
    match op
    case Local => owners
    case Announce(l) => Take(owners, Pending(l), t)
    case Acquire(l) => Take(Drop(owners, Pending(l), t), Write(l), t)
    case RLock(l) => Take(owners, Read(l), t)
    case RUnlock(l) => Drop(owners, Read(l), t)
    case MLock(l) => Take(owners, Write(l), t)
    case Unlock(l) => Drop(owners, Write(l), t)
    case HandOver(l) => Take(Drop(owners, Write(l), t), Write(l), heir)
  }

  // ---------------------------------------------------------------- handlers

  // Line 156 slices the first 12 characters of the channel ID and panics on a shorter one.
  function AfterCreate(chan: Chan): Pc {
    if |chan| < 12 then DownClose else SnapLock
  }

  function Dispatch(msg: Msg): Pc {
    match msg
    case Ping => ReplyLock(Pong)
    case QueryOnline => QueryLock
    case Text(chan, event, _) =>
      if chan == "" then Reading
      else (match event
            case NoEvent => SnapLock
            case Created(c, ms) => CreateAnnounce(c, ms)
            case PeerLeft(c) => LeaveAnnounce(c))
    case File(chan, _) => if chan == "" then Reading else SnapLock
    case Other => Reading
  }

  function Route(msg: Msg): Chan {
    if msg.Text? || msg.File? then msg.chan else ""
  }

  // The channel of the message being handled.
  function Current(s: Session): Chan {
    if s.inbox == [] then "" else Route(s.inbox[|s.inbox| - 1])
  }

  // The members a snapshot selects.
  function Targets(st: State, self: nat): set<Id>
    requires self < |st.sess|
  {
    var c := Current(st.sess[self]);
    if c in st.index then st.index[c] - {st.sess[self].id} else {}
  }

  function WithoutMember(index: map<Chan, set<Id>>, c: Chan, id: Id): map<Chan, set<Id>> {
    if c !in index then index
    else if index[c] - {id} == {} then index - {c}
    else index[c := index[c] - {id}]
  }

  // Removes id from every channel of cs, and removes the channels of cs left without members.
  function WithoutMemberOf(index: map<Chan, set<Id>>, cs: set<Chan>, id: Id): map<Chan, set<Id>> {
    map c | c in index && (c in cs ==> index[c] - {id} != {}) :: if c in cs then index[c] - {id} else index[c]
  }

  // Control points inside the handling of a message.
  predicate Handling(pc: Pc) {
    || pc.CreateAnnounce? || pc.CreateAcquire? || pc.CreateAdd? || pc.CreateRLock? || pc.CreateLook?
    || pc.CreateMark? || pc.CreateRUnlock?
    || pc.LeaveAnnounce? || pc.LeaveAcquire? || pc.LeaveIndex? || pc.LeaveLock? || pc.LeaveUnpin?
    || pc.SnapLock? || pc.SnapTake? || pc.FwdLock? || pc.FwdLoop? || pc.FwdSpawn?
  }

  predicate PcOk(st: State, self: nat)
    requires self < |st.sess|
  {
    var s := st.sess[self];
    && (Handling(s.pc) ==> s.inbox != [])
    && (s.pc.CreateRLock? || s.pc.CreateLook? || s.pc.CreateRUnlock? ==> s.pc.todo != [])
    && (s.pc.CreateMark? || s.pc.FwdSpawn? ==> s.pc.todo != [] && s.pc.k < |st.sess|)
  }

  // Does registering session `self` meet a registered session whose `done` is closed already? Closing it again
  // (line 72) panics, and s.mu is held at that moment with no deferred unlock.
  predicate MeetsClosed(st: State, self: nat)
    requires self < |st.sess|
  {
    var id := st.sess[self].id;
    id in st.agents && st.agents[id] < |st.sess| && st.sess[st.agents[id]].done
  }

  ghost predicate ChoiceOk(st: State, self: nat, ch: Choice)
    requires self < |st.sess|
  {
    match st.sess[self].pc
    case Reading => ch.Recv? || ch.ReadError?
    case ReplySend(_) => ch.Sent? || ch.SendFailed?
    case SnapTake =>
      if Current(st.sess[self]) in st.index then ch.Order? && Lists(ch.ts, Targets(st, self)) else ch.Tick?
    case Crashed => false
    case Dead => false
    case _ => ch.Tick?
  }

  // The lock operation of a handler's next step.
  function HandlerOp(st: State, self: nat): Op
    requires self < |st.sess| && PcOk(st, self)
  {
    match st.sess[self].pc
    case RegAnnounce => Announce(RegistryMu)
    case RegAcquire => Acquire(RegistryMu)
    case RegBody => if MeetsClosed(st, self) then Local else Unlock(RegistryMu)
    case CountLock(_) => RLock(RegistryMu)
    case CountUnlock(_) => RUnlock(RegistryMu)
    case QueryLock => RLock(RegistryMu)
    case QueryUnlock(_) => RUnlock(RegistryMu)
    case ReplyLock(_) => MLock(ConnMu(self))
    case ReplySend(_) => Unlock(ConnMu(self))
    case CreateAnnounce(_, _) => Announce(IndexMu)
    case CreateAcquire(_, _) => Acquire(IndexMu)
    case CreateAdd(_, todo) => if todo == [] then Unlock(IndexMu) else Local
    case CreateRLock(_, _) => RLock(RegistryMu)
    case CreateLook(_, todo) =>
      if todo[0] in st.agents then MLock(SessionMu(st.agents[todo[0]])) else RUnlock(RegistryMu)
    case CreateMark(_, _, k) => Unlock(SessionMu(k))
    case CreateRUnlock(_, _) => RUnlock(RegistryMu)
    case LeaveAnnounce(_) => Announce(IndexMu)
    case LeaveAcquire(_) => Acquire(IndexMu)
    case LeaveIndex(_) => Unlock(IndexMu)
    case LeaveLock(_) => MLock(SessionMu(self))
    case LeaveUnpin(_) => Unlock(SessionMu(self))
    case SnapLock => RLock(IndexMu)
    case SnapTake => RUnlock(IndexMu)
    case FwdLock(_, _) => RLock(RegistryMu)
    case FwdLoop(_, todo) =>
      if todo == [] then RUnlock(RegistryMu)
      else if todo[0] in st.agents then MLock(SessionMu(st.agents[todo[0]]))
      else Local
    case FwdSpawn(_, _, k) => HandOver(SessionMu(k))
    case DownAnnounce => Announce(RegistryMu)
    case DownAcquire => Acquire(RegistryMu)
    case DownDeregister => Unlock(RegistryMu)
    case DownIndexAnnounce => Announce(IndexMu)
    case DownIndexAcquire => Acquire(IndexMu)
    case DownClean => Unlock(IndexMu)
    case _ => Local
  }

  // Where a handler goes next.
  function HandlerGoto(st: State, self: nat, ch: Choice): Pc
    requires self < |st.sess| && PcOk(st, self)
  {
    var s := st.sess[self];
    match s.pc
    case RegAnnounce => RegAcquire
    case RegAcquire => RegBody
    case RegBody => if MeetsClosed(st, self) then Crashed else CountLock(false)
    case CountLock(d) => CountUnlock(d)
    case CountUnlock(d) => if d then Dead else Reading
    case Reading => if ch.Recv? then Dispatch(ch.msg) else DownClose
    case QueryLock => QueryUnlock(st.agents.Keys)
    case QueryUnlock(ids) => ReplyLock(OnlineList(ids))
    case ReplyLock(answer) => ReplySend(answer)
    case ReplySend(answer) => if answer.Pong? && ch.SendFailed? then DownClose else Reading
    case CreateAnnounce(c, todo) => CreateAcquire(c, todo)
    case CreateAcquire(c, todo) => CreateAdd(c, todo)
    case CreateAdd(c, todo) => if todo == [] then AfterCreate(c) else CreateRLock(c, todo)
    case CreateRLock(c, todo) => CreateLook(c, todo)
    case CreateLook(c, todo) =>
      if todo[0] in st.agents then CreateMark(c, todo, st.agents[todo[0]]) else CreateAdd(c, todo[1..])
    case CreateMark(c, todo, _) => CreateRUnlock(c, todo)
    case CreateRUnlock(c, todo) => CreateAdd(c, todo[1..])
    case LeaveAnnounce(c) => LeaveAcquire(c)
    case LeaveAcquire(c) => LeaveIndex(c)
    case LeaveIndex(c) => LeaveLock(c)
    case LeaveLock(c) => LeaveUnpin(c)
    case LeaveUnpin(c) => SnapLock
    case SnapLock => SnapTake
    case SnapTake => if ch.Order? then FwdLock(Targets(st, self), ch.ts) else Reading
    case FwdLock(snap, todo) => FwdLoop(snap, todo)
    case FwdLoop(snap, todo) =>
      if todo == [] then Reading
      else if todo[0] in st.agents then FwdSpawn(snap, todo, st.agents[todo[0]])
      else FwdLoop(snap, todo[1..])
    case FwdSpawn(snap, todo, _) => FwdLoop(snap, todo[1..])
    case DownClose => if s.done then Dead else DownAnnounce  // line 79 panics on a replaced session
    case DownAnnounce => DownAcquire
    case DownAcquire => DownDeregister
    case DownDeregister => DownIndexAnnounce
    case DownIndexAnnounce => DownIndexAcquire
    case DownIndexAcquire => DownClean
    case DownClean => CountLock(true)
    case Crashed => Crashed
    case Dead => Dead
  }

  // The registry after a handler's step.
  function AgentsAfter(st: State, self: nat): map<Id, nat>
    requires self < |st.sess|
  {
    var s := st.sess[self];
    if s.pc.RegBody? && !MeetsClosed(st, self) then st.agents[s.id := self]
    else if s.pc.DownDeregister? && s.id in st.agents && st.agents[s.id] == self then st.agents - {s.id}
    else st.agents
  }

  // The channel index after a handler's step.
  function IndexAfter(st: State, self: nat): map<Chan, set<Id>>
    requires self < |st.sess|
  {
    var s := st.sess[self];
    match s.pc
    case CreateAcquire(c, _) => if c in st.index then st.index else st.index[c := {}]
    case CreateAdd(c, todo) =>
      if todo == [] then st.index
      else st.index[c := (if c in st.index then st.index[c] else {}) + {todo[0]}]
    case LeaveIndex(c) => WithoutMember(st.index, c, s.id)
    case DownClean => WithoutMemberOf(st.index, s.channels, s.id)
    case _ => st.index
  }

  // Session j's own fields (its program counter apart) after a step of handler `self`.
  function SessionAfter(st: State, self: nat, ch: Choice, j: nat): Session
    requires self < |st.sess| && j < |st.sess|
  {
    var s := st.sess[self];
    var o := st.sess[j];
    match s.pc
    case RegBody =>
      if !MeetsClosed(st, self) && s.id in st.agents && st.agents[s.id] == j then o.(done := true) else o
    case Reading => if j == self && ch.Recv? then o.(inbox := o.inbox + [ch.msg]) else o
    case ReplySend(answer) =>
      if j == self && ch.Sent? then o.(answers := o.answers + [Reply(|o.inbox| - 1, answer)]) else o
    case CreateMark(c, _, k) => if j == k then o.(channels := o.channels + {c}) else o
    case LeaveUnpin(c) => if j == self then o.(channels := o.channels - {c}) else o
    case DownClose => if j == self then o.(done := true) else o
    case _ => o
  }

  function LogAfter(st: State, self: nat): seq<Event>
    requires self < |st.sess|
  {
    var s := st.sess[self];
    match s.pc
    case CreateAdd(c, todo) => if todo == [] then st.log else st.log + [Added(c, todo[0])]
    case CreateLook(c, todo) =>
      if todo != [] && todo[0] !in st.agents then st.log + [Unclaimed(c, todo[0])] else st.log
    case CreateMark(c, _, k) => if k < |st.sess| then st.log + [Pinned(c, st.sess[k].id, k)] else st.log
    case LeaveIndex(c) => st.log + [Departed(c, s.id)]
    case LeaveUnpin(c) => st.log + [Unpinned(c, s.id, self)]
    case DownClean => st.log + [Cleaned(s.id, self)]
    case _ => st.log
  }

  function CouriersAfter(st: State, self: nat): seq<Delivery>
    requires self < |st.sess| && PcOk(st, self)
  {
    var s := st.sess[self];
    match s.pc
    case FwdSpawn(_, _, k) =>
      st.couriers + [Delivery(Frame(self, |s.inbox| - 1, s.inbox[|s.inbox| - 1]), k, Waiting)]
    case _ => st.couriers
  }

  function SessionsAfter(st: State, self: nat, ch: Choice): (r: seq<Session>)
    requires self < |st.sess| && PcOk(st, self)
    ensures |r| == |st.sess|
  {
    seq(|st.sess|, j requires 0 <= j < |st.sess| =>
      var o := SessionAfter(st, self, ch, j); if j == self then o.(pc := HandlerGoto(st, self, ch)) else o)
  }

  function HandlerDo(st: State, self: nat, ch: Choice): State
    requires self < |st.sess| && PcOk(st, self)
  {
    State(
      AgentsAfter(st, self),
      IndexAfter(st, self),
      SessionsAfter(st, self, ch),
      CouriersAfter(st, self),
      OpDo(st.owners, Handler(self), HandlerOp(st, self), Courier(|st.couriers|)),
      LogAfter(st, self))
  }

  // ---------------------------------------------------------------- couriers

  function CourierOp(d: Delivery): Op {
    match d.stage
    case Waiting => MLock(ConnMu(d.to))
    case Sending => Unlock(ConnMu(d.to))
    case Unlocking => Unlock(SessionMu(d.to))
    case Finished => Local
  }

  function CourierGoto(d: Delivery): Stage {
    match d.stage
    case Waiting => Sending
    case Sending => Unlocking
    case Unlocking => Finished
    case Finished => Finished
  }

  predicate CourierChoiceOk(d: Delivery, ch: Choice) {
    match d.stage
    case Sending => ch.Sent? || ch.SendFailed?
    case Finished => false
    case _ => ch.Tick?
  }

  function CourierDo(st: State, i: nat, ch: Choice): State
    requires i < |st.couriers| && st.couriers[i].to < |st.sess|
  {
    var d := st.couriers[i];
    var r := st.sess[d.to];
    st.(
    couriers := st.couriers[i := d.(stage := CourierGoto(d))],
    sess := if d.stage.Sending? && ch.Sent? then st.sess[d.to := r.(wire := r.wire + [d.frame])] else st.sess,
    owners := OpDo(st.owners, Courier(i), CourierOp(d), Courier(i)))
  }

  // ---------------------------------------------------------------- steps and runs

  predicate Moves(a: Action, s: nat) {
    a.Run? && a.t == Handler(s)
  }

  ghost predicate Enabled(st: State, a: Action) {
    match a
    case Accept(_) => true
    case Run(Handler(s), ch) =>
      s < |st.sess| && PcOk(st, s) && ChoiceOk(st, s, ch) && OpReady(st.owners, HandlerOp(st, s))
    case Run(Courier(i), ch) =>
      && i < |st.couriers| && st.couriers[i].to < |st.sess|
      && CourierChoiceOk(st.couriers[i], ch) && OpReady(st.owners, CourierOp(st.couriers[i]))
  }

  ghost function Do(st: State, a: Action): State
    requires Enabled(st, a)
  {
    match a
    case Accept(id) => st.(sess := st.sess + [Session(id, {}, false, [], [], [], RegAnnounce)])
    case Run(Handler(s), ch) => HandlerDo(st, s, ch)
    case Run(Courier(i), ch) => CourierDo(st, i, ch)
  }

  ghost predicate ValidRun(st: State, run: seq<Action>)
    decreases |run|
  {
    run == [] || (Enabled(st, run[0]) && ValidRun(Do(st, run[0]), run[1..]))
  }

  ghost function After(st: State, run: seq<Action>): State
    requires ValidRun(st, run)
    decreases |run|
  {
    if run == [] then st else After(Do(st, run[0]), run[1..])
  }
}
