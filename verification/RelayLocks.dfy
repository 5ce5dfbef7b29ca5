/** Well-formed states and lock ownership, kept by every step. */
module RelayLocks {
  import opened RelayModel

  // ---------------------------------------------------------------- what each control point holds

  function HeldByHandler(pc: Pc, self: nat): set<Claim> {
    match pc
    case RegAcquire => {Pending(RegistryMu)}
    case RegBody => {Write(RegistryMu)}
    case Crashed => {Write(RegistryMu)}
    case CountUnlock(_) => {Read(RegistryMu)}
    case QueryUnlock(_) => {Read(RegistryMu)}
    case ReplySend(_) => {Write(ConnMu(self))}
    case CreateAcquire(_, _) => {Pending(IndexMu)}
    case CreateAdd(_, _) => {Write(IndexMu)}
    case CreateRLock(_, _) => {Write(IndexMu)}
    case CreateLook(_, _) => {Write(IndexMu), Read(RegistryMu)}
    case CreateMark(_, _, k) => {Write(IndexMu), Read(RegistryMu), Write(SessionMu(k))}
    case CreateRUnlock(_, _) => {Write(IndexMu), Read(RegistryMu)}
    case LeaveAcquire(_) => {Pending(IndexMu)}
    case LeaveIndex(_) => {Write(IndexMu)}
    case LeaveUnpin(_) => {Write(SessionMu(self))}
    case SnapTake => {Read(IndexMu)}
    case FwdLoop(_, _) => {Read(RegistryMu)}
    case FwdSpawn(_, _, k) => {Read(RegistryMu), Write(SessionMu(k))}
    case DownAcquire => {Pending(RegistryMu)}
    case DownDeregister => {Write(RegistryMu)}
    case DownIndexAcquire => {Pending(IndexMu)}
    case DownClean => {Write(IndexMu)}
    case _ => {}
  }

  function HeldByCourier(d: Delivery): set<Claim> {
    match d.stage
    case Waiting => {Write(SessionMu(d.to))}
    case Sending => {Write(SessionMu(d.to)), Write(ConnMu(d.to))}
    case Unlocking => {Write(SessionMu(d.to))}
    case Finished => {}
  }

  function Held(st: State, t: Thread): set<Claim> {
    match t
    case Handler(s) => if s < |st.sess| then HeldByHandler(st.sess[s].pc, s) else {}
    case Courier(d) => if d < |st.couriers| then HeldByCourier(st.couriers[d]) else {}
  }

  // ---------------------------------------------------------------- well-formedness

  // Registered sessions carry the ID they are registered under; session numbers in use exist; a delivery about to
  // be spawned is for the session whose mutex the handler has just taken.
  ghost predicate WellFormed(st: State) {
    && (forall id :: id in st.agents ==> st.agents[id] < |st.sess| && st.sess[st.agents[id]].id == id)
    && (forall s | 0 <= s < |st.sess| :: PcOk(st, s))
    && (forall d | 0 <= d < |st.couriers| :: CourierOk(st, st.couriers[d]))
  }

  ghost predicate CourierOk(st: State, d: Delivery) {
    && d.to < |st.sess| && d.frame.from < |st.sess|
    && d.frame.num < |st.sess[d.frame.from].inbox|
    && st.sess[d.frame.from].inbox[d.frame.num] == d.frame.msg
  }

  // What a step leaves alone in session j: its ID, the messages already read and, unless it is the actor, its
  // program counter.
  ghost predicate Extends(o: Session, o': Session) {
    o'.id == o.id && o.inbox <= o'.inbox && o.wire <= o'.wire && o.answers <= o'.answers
  }

  lemma FieldsFrame(st: State, s: nat, ch: Choice, j: nat)
    requires s < |st.sess| && j < |st.sess|
    ensures var o' := SessionAfter(st, s, ch, j);
            && Extends(st.sess[j], o') && o'.pc == st.sess[j].pc
            && (j != s ==> o'.inbox == st.sess[j].inbox)
  {
  }

  lemma HandlerFrame(st: State, s: nat, ch: Choice, j: nat)
    requires s < |st.sess| && PcOk(st, s) && j < |st.sess|
    ensures Extends(st.sess[j], SessionsAfter(st, s, ch)[j])
    ensures j != s ==>
              SessionsAfter(st, s, ch)[j].pc == st.sess[j].pc && SessionsAfter(st, s, ch)[j].inbox == st.sess[j].inbox
  {
    FieldsFrame(st, s, ch, j);
  }

  // The actor's own control point and messages.
  lemma OwnSession(st: State, s: nat, ch: Choice)
    requires s < |st.sess| && PcOk(st, s)
    ensures SessionsAfter(st, s, ch)[s].pc == HandlerGoto(st, s, ch)
    ensures SessionsAfter(st, s, ch)[s].inbox
         == st.sess[s].inbox + if st.sess[s].pc.Reading? && ch.Recv? then [ch.msg] else []
  {
  }

  lemma SessionFrame(st: State, a: Action, j: nat)
    requires Enabled(st, a) && j < |st.sess|
    ensures |Do(st, a).sess| >= |st.sess| && Extends(st.sess[j], Do(st, a).sess[j])
    ensures !Moves(a, j) ==>
              Do(st, a).sess[j].pc == st.sess[j].pc && Do(st, a).sess[j].inbox == st.sess[j].inbox
  {
    match a
    case Accept(_) =>
    case Run(Handler(s), ch) => HandlerFrame(st, s, ch, j);
    case Run(Courier(_), _) =>
  }

  lemma PcOkStep(st: State, a: Action, j: nat)
    requires WellFormed(st) && Enabled(st, a) && j < |Do(st, a).sess|
    ensures PcOk(Do(st, a), j)
  {
    if j < |st.sess| {
      SessionFrame(st, a, j);
      assert PcOk(st, j);
      if Moves(a, j) {
        ActorPcOk(st, j, a.c);
      }
    }
  }

  lemma ActorPcOk(st: State, s: nat, ch: Choice)
    requires WellFormed(st) && Enabled(st, Run(Handler(s), ch))
    ensures var o := SessionsAfter(st, s, ch)[s];
            && (Handling(o.pc) ==> o.inbox != [])
            && (o.pc.CreateRLock? || o.pc.CreateLook? || o.pc.CreateRUnlock? ==> o.pc.todo != [])
            && (o.pc.CreateMark? || o.pc.FwdSpawn? ==> o.pc.todo != [] && o.pc.k < |st.sess|)
  {
  }

  lemma CourierOkStep(st: State, a: Action, d: Delivery)
    requires Enabled(st, a) && CourierOk(st, d)
    ensures CourierOk(Do(st, a), d)
  {
    SessionFrame(st, a, d.to);
    SessionFrame(st, a, d.frame.from);
  }

  lemma AgentsOkStep(st: State, a: Action, id: Id)
    requires WellFormed(st) && Enabled(st, a) && id in Do(st, a).agents
    ensures Do(st, a).agents[id] < |Do(st, a).sess| && Do(st, a).sess[Do(st, a).agents[id]].id == id
  {
    if id in st.agents {
      SessionFrame(st, a, st.agents[id]);
    }
    if a.Run? && a.t.Handler? {
      SessionFrame(st, a, a.t.s);
    }
  }

  lemma WellFormedStep(st: State, a: Action)
    requires WellFormed(st) && Enabled(st, a)
    ensures WellFormed(Do(st, a))
  {
    var st' := Do(st, a);
    forall id | id in st'.agents ensures st'.agents[id] < |st'.sess| && st'.sess[st'.agents[id]].id == id {
      AgentsOkStep(st, a, id);
    }
    forall s | 0 <= s < |st'.sess| ensures PcOk(st', s) {
      PcOkStep(st, a, s);
    }
    forall d | 0 <= d < |st'.couriers| ensures CourierOk(st', st'.couriers[d]) {
      NewCourier(st, a, d);
    }
  }

  lemma NewCourier(st: State, a: Action, d: nat)
    requires WellFormed(st) && Enabled(st, a) && d < |Do(st, a).couriers|
    ensures CourierOk(Do(st, a), Do(st, a).couriers[d])
  {
    if d < |st.couriers| {
      CourierOkStep(st, a, st.couriers[d]);
    } else {
      SessionFrame(st, a, a.t.s);
    }
  }

  // ---------------------------------------------------------------- ownership

  ghost predicate Owns(st: State, t: Thread, c: Claim) {
    t in Owners(st.owners, c)
  }

  // Writers exclude each other and all readers; at most one writer is announced, and only while nobody writes.
  ghost predicate Exclusion(o: map<Claim, set<Thread>>) {
    && (forall l, t, u :: t in Owners(o, Write(l)) && u in Owners(o, Write(l)) ==> t == u)
    && (forall l, t, u :: t in Owners(o, Write(l)) ==> u !in Owners(o, Read(l)))
    && (forall l, t, u :: t in Owners(o, Pending(l)) && u in Owners(o, Pending(l)) ==> t == u)
    && (forall l, t, u :: t in Owners(o, Pending(l)) ==> u !in Owners(o, Write(l)))
  }

  // The owners are exactly the threads whose control points hold the lock, and they exclude each other.
  ghost predicate LockInv(st: State) {
    && (forall t, c :: Owns(st, t, c) <==> c in Held(st, t))
    && Exclusion(st.owners)
  }

  function HeldAfter(held: set<Claim>, op: Op): set<Claim> {
    match op
    case Local => held
    case Announce(l) => held + {Pending(l)}
    case Acquire(l) => held - {Pending(l)} + {Write(l)}
    case RLock(l) => held + {Read(l)}
    case RUnlock(l) => held - {Read(l)}
    case MLock(l) => held + {Write(l)}
    case Unlock(l) => held - {Write(l)}
    case HandOver(l) => held - {Write(l)}
  }

  // A thread releases, upgrades or hands over only what it holds, and never takes a mutex as a reader or announces it.
  predicate OpSound(held: set<Claim>, op: Op) {
    match op
    case Acquire(l) => Pending(l) in held
    case RUnlock(l) => Read(l) in held
    case MLock(l) => l.SessionMu? || l.ConnMu?
    case Unlock(l) => Write(l) in held
    case HandOver(l) => Write(l) in held
    case Announce(l) => l.IndexMu? || l.RegistryMu?
    case RLock(l) => l.IndexMu? || l.RegistryMu?
    case Local => true
  }

  predicate Creating(pc: Pc) {
    || pc.CreateAnnounce? || pc.CreateAcquire? || pc.CreateAdd? || pc.CreateRLock? || pc.CreateLook?
    || pc.CreateMark? || pc.CreateRUnlock?
  }

  predicate Forwarding(pc: Pc) {
    pc.SnapLock? || pc.SnapTake? || pc.FwdLock? || pc.FwdLoop? || pc.FwdSpawn?
  }

  // What a handler holds before and after its step differs by the step's lock operation, which it may do.
  ghost predicate HeldOk(st: State, s: nat, ch: Choice)
    requires s < |st.sess| && PcOk(st, s)
  {
    var held := HeldByHandler(st.sess[s].pc, s);
    && HeldByHandler(HandlerGoto(st, s, ch), s) == HeldAfter(held, HandlerOp(st, s))
    && OpSound(held, HandlerOp(st, s))
  }

  lemma CreatingHeld(st: State, s: nat, ch: Choice)
    requires s < |st.sess| && PcOk(st, s) && Creating(st.sess[s].pc)
    ensures HeldOk(st, s, ch)
  {
  }

  lemma ForwardingHeld(st: State, s: nat, ch: Choice)
    requires s < |st.sess| && PcOk(st, s) && Forwarding(st.sess[s].pc)
    ensures HeldOk(st, s, ch)
  {
  }

  lemma OtherHeld(st: State, s: nat, ch: Choice)
    requires s < |st.sess| && PcOk(st, s) && ChoiceOk(st, s, ch)
    requires !Creating(st.sess[s].pc) && !Forwarding(st.sess[s].pc)
    ensures HeldOk(st, s, ch)
  {
  }

  lemma HandlerHeld(st: State, s: nat, ch: Choice)
    requires s < |st.sess| && PcOk(st, s) && ChoiceOk(st, s, ch)
    ensures HeldOk(st, s, ch)
  {
    if Creating(st.sess[s].pc) {
      CreatingHeld(st, s, ch);
    } else if Forwarding(st.sess[s].pc) {
      ForwardingHeld(st, s, ch);
    } else {
      OtherHeld(st, s, ch);
    }
  }

  lemma CourierHeld(d: Delivery, ch: Choice)
    requires CourierChoiceOk(d, ch)
    ensures HeldByCourier(d.(stage := CourierGoto(d))) == HeldAfter(HeldByCourier(d), CourierOp(d))
    ensures OpSound(HeldByCourier(d), CourierOp(d))
    ensures !CourierOp(d).HandOver?
  {
  }

  // Session mutexes and connection mutexes are never read-locked or announced.
  lemma MutexPlain(st: State, t: Thread, c: Claim)
    requires c in Held(st, t) && !c.Write?
    ensures c.lock.IndexMu? || c.lock.RegistryMu?
  {
  }

  // The owners of a claim after an operation.
  lemma OwnersAfter(o: map<Claim, set<Thread>>, t: Thread, op: Op, heir: Thread, u: Thread, c: Claim)
    ensures u in Owners(OpDo(o, t, op, heir), c) <==>
      match op
      case Local => u in Owners(o, c)
      case Announce(l) => u in Owners(o, c) || (u == t && c == Pending(l))
      case Acquire(l) =>
        if u == t && c == Write(l) then true
        else if u == t && c == Pending(l) then false
        else u in Owners(o, c)
      case RLock(l) => u in Owners(o, c) || (u == t && c == Read(l))
      case RUnlock(l) => u in Owners(o, c) && !(u == t && c == Read(l))
      case MLock(l) => u in Owners(o, c) || (u == t && c == Write(l))
      case Unlock(l) => u in Owners(o, c) && !(u == t && c == Write(l))
      case HandOver(l) => (c == Write(l) && u == heir) || (u in Owners(o, c) && !(u == t && c == Write(l)))
  {
  }

  // The next step of t hands a mutex to the delivery u that it spawns.
  ghost predicate HandsTo(st: State, t: Thread, u: Thread)
    requires t.Handler? ==> t.s < |st.sess| && PcOk(st, t.s)
  {
    t.Handler? && HandlerOp(st, t.s).HandOver? && u == Courier(|st.couriers|)
  }

  lemma HeldElsewhere(st: State, a: Action, u: Thread)
    requires WellFormed(st) && Enabled(st, a)
    ensures a.Accept? || (a.t != u && !HandsTo(st, a.t, u)) ==> Held(Do(st, a), u) == Held(st, u)
  {
  }

  lemma HeldByActor(st: State, t: Thread, ch: Choice)
    requires WellFormed(st) && Enabled(st, Run(t, ch))
    ensures var op := if t.Handler? then HandlerOp(st, t.s) else CourierOp(st.couriers[t.d]);
            && Held(Do(st, Run(t, ch)), t) == HeldAfter(Held(st, t), op)
            && OpSound(Held(st, t), op)
            && OpReady(st.owners, op)
            && Do(st, Run(t, ch)).owners == OpDo(st.owners, t, op, if t.Handler? then Courier(|st.couriers|) else t)
            && (op.HandOver? ==> t.Handler? && Held(Do(st, Run(t, ch)), Courier(|st.couriers|)) == {Write(op.lock)})
  {
    if t.Handler? {
      HandlerHeld(st, t.s, ch);
    } else {
      CourierHeld(st.couriers[t.d], ch);
    }
  }

  // A thread owns after an operation what it holds after it: the actor, its heir, and everybody else.
  lemma OwnersFollow(o: map<Claim, set<Thread>>, t: Thread, op: Op, heir: Thread, u: Thread, c: Claim,
                     held: set<Claim>, held': set<Claim>)
    requires u == t ==> OpSound(held, op)
    requires u in Owners(o, c) <==> c in held
    requires held' == if u == t then HeldAfter(held, op)
                      else if op.HandOver? && u == heir then {Write(op.lock)}
                      else held
    requires op.HandOver? ==> heir != t && (u == heir ==> held == {})
    ensures u in Owners(OpDo(o, t, op, heir), c) <==> c in held'
  {
    OwnersAfter(o, t, op, heir, u, c);
  }

  lemma OwnershipStep(st: State, a: Action, u: Thread, c: Claim)
    requires WellFormed(st) && LockInv(st) && Enabled(st, a)
    ensures Owns(Do(st, a), u, c) <==> c in Held(Do(st, a), u)
  {
    assert Owns(st, u, c) <==> c in Held(st, u);
    HeldElsewhere(st, a, u);
    if a.Run? {
      RunOwnership(st, a.t, a.c, u, c);
    }
  }

  lemma RunOwnership(st: State, t: Thread, ch: Choice, u: Thread, c: Claim)
    requires WellFormed(st) && Enabled(st, Run(t, ch)) && (Owns(st, u, c) <==> c in Held(st, u))
    ensures Owns(Do(st, Run(t, ch)), u, c) <==> c in Held(Do(st, Run(t, ch)), u)
  {
    var op := if t.Handler? then HandlerOp(st, t.s) else CourierOp(st.couriers[t.d]);
    var heir := if t.Handler? then Courier(|st.couriers|) else t;
    HeldElsewhere(st, Run(t, ch), u);
    HeldByActor(st, t, ch);
    OwnersFollow(st.owners, t, op, heir, u, c, Held(st, u), Held(Do(st, Run(t, ch)), u));
  }

  lemma ExclusiveAt(st: State, actor: Thread, op: Op, heir: Thread, o': map<Claim, set<Thread>>, l: Lock, t: Thread,
          u: Thread)
    requires LockInv(st) && OpReady(st.owners, op) && OpSound(Held(st, actor), op)
    requires o' == OpDo(st.owners, actor, op, heir)
    ensures t in Owners(o', Write(l)) && u in Owners(o', Write(l)) ==> t == u
    ensures t in Owners(o', Write(l)) ==> u !in Owners(o', Read(l))
    ensures t in Owners(o', Pending(l)) && u in Owners(o', Pending(l)) ==> t == u
    ensures t in Owners(o', Pending(l)) ==> u !in Owners(o', Write(l))
  {
    forall x, c | x in {t, u} && c in {Write(l), Read(l), Pending(l)}
      ensures Owns(st, x, c) <==> x in Owners(st.owners, c)
      ensures !c.Write? && Owns(st, x, c) ==> c.lock.IndexMu? || c.lock.RegistryMu?
    {
      if c in Held(st, x) && !c.Write? { MutexPlain(st, x, c); }
    }
    OwnersAfter(st.owners, actor, op, heir, t, Write(l));
    OwnersAfter(st.owners, actor, op, heir, u, Write(l));
    OwnersAfter(st.owners, actor, op, heir, u, Read(l));
    OwnersAfter(st.owners, actor, op, heir, t, Pending(l));
    OwnersAfter(st.owners, actor, op, heir, u, Pending(l));
    if op.Acquire? { assert Owns(st, actor, Pending(op.lock)); }
    if op.HandOver? { assert Owns(st, actor, Write(op.lock)); }
  }

  lemma ExclusionStep(st: State, actor: Thread, op: Op, heir: Thread, o': map<Claim, set<Thread>>)
    requires LockInv(st) && OpReady(st.owners, op) && OpSound(Held(st, actor), op)
    requires o' == OpDo(st.owners, actor, op, heir)
    ensures Exclusion(o')
  {
    forall l, t, u
      ensures t in Owners(o', Write(l)) && u in Owners(o', Write(l)) ==> t == u
      ensures t in Owners(o', Write(l)) ==> u !in Owners(o', Read(l))
      ensures t in Owners(o', Pending(l)) && u in Owners(o', Pending(l)) ==> t == u
      ensures t in Owners(o', Pending(l)) ==> u !in Owners(o', Write(l))
    {
      ExclusiveAt(st, actor, op, heir, o', l, t, u);
    }
  }

  lemma LockInvStep(st: State, a: Action)
    requires WellFormed(st) && LockInv(st) && Enabled(st, a)
    ensures LockInv(Do(st, a))
  {
    forall t, c ensures Owns(Do(st, a), t, c) <==> c in Held(Do(st, a), t) {
      OwnershipStep(st, a, t, c);
    }
    OwnersStep(st, a);
  }

  lemma OwnersStep(st: State, a: Action)
    requires WellFormed(st) && LockInv(st) && Enabled(st, a)
    ensures Exclusion(Do(st, a).owners)
  {
    if a.Run? {
      HeldByActor(st, a.t, a.c);
      var op := if a.t.Handler? then HandlerOp(st, a.t.s) else CourierOp(st.couriers[a.t.d]);
      var heir := if a.t.Handler? then Courier(|st.couriers|) else a.t;
      ExclusionStep(st, a.t, op, heir, Do(st, a).owners);
    }
  }
}
