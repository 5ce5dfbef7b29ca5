/** Deadlock freedom, and the crash that breaks it. */
module RelayProgress {
  import opened Sequences
  import opened RelayModel
  import opened RelayLocks

  ghost predicate Inv(st: State) {
    WellFormed(st) && LockInv(st)
  }

  lemma {:induction false} RunKeepsInv(st: State, run: seq<Action>)
    requires Inv(st) && ValidRun(st, run)
    ensures Inv(After(st, run))
    decreases |run|
  {
    if run != [] {
      WellFormedStep(st, run[0]);
      LockInvStep(st, run[0]);
      RunKeepsInv(Do(st, run[0]), run[1..]);
    }
  }

  lemma {:induction false} RunExtend(st: State, run: seq<Action>, a: Action)
    requires ValidRun(st, run) && Enabled(After(st, run), a)
    ensures ValidRun(st, run + [a]) && After(st, run + [a]) == Do(After(st, run), a)
    decreases |run|
  {
    if run == [] {
      assert run + [a] == [a];
    } else {
      assert (run + [a])[1..] == run[1..] + [a];
      RunExtend(Do(st, run[0]), run[1..], a);
    }
  }

  lemma {:induction false} RunConcat(st: State, run: seq<Action>, more: seq<Action>)
    requires ValidRun(st, run) && ValidRun(After(st, run), more)
    ensures ValidRun(st, run + more) && After(st, run + more) == After(After(st, run), more)
    decreases |run|
  {
    if run == [] {
      assert run + more == more;
    } else {
      assert (run + more)[1..] == run[1..] + more;
      RunConcat(Do(st, run[0]), run[1..], more);
    }
  }

  lemma ReachableInv(run: seq<Action>)
    requires ValidRun(INIT, run)
    ensures Inv(After(INIT, run))
  {
    RunKeepsInv(INIT, run);
  }

  // ---------------------------------------------------------------- the states along a run

  lemma {:induction false} PrefixRuns(st: State, run: seq<Action>, i: nat)
    requires ValidRun(st, run) && i <= |run|
    ensures ValidRun(st, run[..i])
    decreases i
  {
    if i > 0 {
      assert run[..i][1..] == run[1..][..i - 1];
      PrefixRuns(Do(st, run[0]), run[1..], i - 1);
    }
  }

  lemma {:induction false} RunSplit(st: State, run: seq<Action>, a: Action)
    requires ValidRun(st, run + [a])
    ensures ValidRun(st, run) && Enabled(After(st, run), a) && After(st, run + [a]) == Do(After(st, run), a)
    decreases |run|
  {
    if run == [] {
      assert run + [a] == [a];
    } else {
      assert (run + [a])[1..] == run[1..] + [a];
      RunSplit(Do(st, run[0]), run[1..], a);
    }
  }

  // The state after the first i steps of a run.
  ghost function At(run: seq<Action>, i: nat): State
    requires ValidRun(INIT, run) && i <= |run|
  {
    PrefixRuns(INIT, run, i);
    After(INIT, run[..i])
  }

  lemma AtNext(run: seq<Action>, i: nat)
    requires ValidRun(INIT, run) && i < |run|
    ensures Enabled(At(run, i), run[i]) && At(run, i + 1) == Do(At(run, i), run[i])
  {
    PrefixRuns(INIT, run, i + 1);
    PrefixNext(run, i);
    RunSplit(INIT, run[..i], run[i]);
  }

  lemma PrefixNext(run: seq<Action>, i: nat)
    requires i < |run|
    ensures run[..i + 1] == run[..i] + [run[i]]
  {
  }

  lemma AtEnds(run: seq<Action>)
    requires ValidRun(INIT, run)
    ensures At(run, 0) == INIT && At(run, |run|) == After(INIT, run)
  {
    assert run[..|run|] == run;
  }

  lemma AtInv(run: seq<Action>, i: nat)
    requires ValidRun(INIT, run) && i <= |run|
    ensures Inv(At(run, i))
  {
    PrefixRuns(INIT, run, i);
    ReachableInv(run[..i]);
  }

  // ---------------------------------------------------------------- waiting

  // While a thread reads the registry, nobody changes it.
  lemma AgentsFrozen(st: State, a: Action, s: nat)
    requires Inv(st) && Enabled(st, a) && s < |st.sess| && Read(RegistryMu) in HeldByHandler(st.sess[s].pc, s)
    ensures Do(st, a).agents == st.agents
  {
    assert Owns(st, Handler(s), Read(RegistryMu));
    if a.Run? {
      assert !Owns(st, a.t, Write(RegistryMu));
      assert Write(RegistryMu) !in Held(st, a.t);
    }
  }

  /** Writers do not starve: while a writer has announced itself for a lock, nobody who has not got it already gets it,
      for reading or for writing, nor announces itself; so the readers it waits for only become fewer. */
  lemma NobodyOvertakes(st: State, a: Action, l: Lock, t: Thread, u: Thread)
    requires Inv(st) && Enabled(st, a) && Owns(st, t, Pending(l)) && u != t
    ensures !Owns(st, u, Read(l)) ==> !Owns(Do(st, a), u, Read(l))
    ensures !Owns(Do(st, a), u, Write(l)) && !Owns(Do(st, a), u, Pending(l))
  {
    assert Pending(l) in Held(st, t);
    MutexPlain(st, t, Pending(l));
    assert !Owns(st, u, Write(l)) && !Owns(st, u, Pending(l));
    if a.Run? {
      HeldByActor(st, a.t, a.c);
      var op := if a.t.Handler? then HandlerOp(st, a.t.s) else CourierOp(st.couriers[a.t.d]);
      var heir := if a.t.Handler? then Courier(|st.couriers|) else a.t;
      NotOvertaken(st.owners, a.t, op, heir, l, t, u);
    }
  }

  lemma NotOvertaken(o: map<Claim, set<Thread>>, actor: Thread, op: Op, heir: Thread, l: Lock, t: Thread, u: Thread)
    requires OpReady(o, op) && t in Owners(o, Pending(l)) && u != t
    requires u !in Owners(o, Write(l)) && u !in Owners(o, Pending(l))
    requires op.Acquire? ==> actor in Owners(o, Pending(op.lock))
    requires op.MLock? || op.HandOver? ==> op.lock != l
    ensures u !in Owners(o, Read(l)) ==> u !in Owners(OpDo(o, actor, op, heir), Read(l))
    ensures u !in Owners(OpDo(o, actor, op, heir), Write(l)) && u !in Owners(OpDo(o, actor, op, heir), Pending(l))
  {
    OwnersAfter(o, actor, op, heir, u, Read(l));
    OwnersAfter(o, actor, op, heir, u, Write(l));
    OwnersAfter(o, actor, op, heir, u, Pending(l));
  }

  predicate Present(st: State, t: Thread) {
    match t
    case Handler(s) => s < |st.sess|
    case Courier(d) => d < |st.couriers|
  }

  // Nothing left to do without new input.
  predicate Idle(st: State, t: Thread)
    requires Present(st, t)
  {
    match t
    case Handler(s) => st.sess[s].pc.Reading? || st.sess[s].pc.Dead?
    case Courier(d) => st.couriers[d].stage.Finished?
  }

  predicate HasCrashed(st: State, t: Thread) {
    t.Handler? && t.s < |st.sess| && st.sess[t.s].pc.Crashed?
  }

  ghost predicate Crash(st: State) {
    exists s :: 0 <= s < |st.sess| && st.sess[s].pc.Crashed?
  }

  function NextOp(st: State, t: Thread): Op
    requires Present(st, t) && (t.Handler? ==> PcOk(st, t.s))
  {
    match t
    case Handler(s) => HandlerOp(st, s)
    case Courier(d) => CourierOp(st.couriers[d])
  }

  // In the middle of something, and the lock it needs is not free.
  ghost predicate Waits(st: State, t: Thread) {
    && Present(st, t) && (t.Handler? ==> PcOk(st, t.s))
    && !Idle(st, t) && !HasCrashed(st, t) && !OpReady(st.owners, NextOp(st, t))
  }

  // In the middle of something and able to take its next step.
  ghost predicate CanStep(st: State, t: Thread) {
    Present(st, t) && !Idle(st, t) && exists ch :: Enabled(st, Run(t, ch))
  }

  lemma {:induction false} OrderingExists(s: set<Id>) returns (ts: seq<Id>)
    ensures Lists(ts, s)
  {
    if s == {} {
      ts := [];
    } else {
      var x :| x in s;
      var rest := OrderingExists(s - {x});
      ts := [x] + rest;
      assert forall i :: 1 <= i < |ts| ==> ts[i] == rest[i - 1] && rest[i - 1] in rest;
    }
  }

  lemma ReadyCanStep(st: State, t: Thread)
    requires WellFormed(st) && Present(st, t) && !Idle(st, t) && !HasCrashed(st, t)
    requires OpReady(st.owners, NextOp(st, t))
    ensures CanStep(st, t)
  {
    match t {
      case Handler(s) =>
        var pc := st.sess[s].pc;
        if pc.SnapTake? && Current(st.sess[s]) in st.index {
          var ts := OrderingExists(Targets(st, s));
          assert Enabled(st, Run(t, Order(ts)));
        } else if pc.ReplySend? {
          assert Enabled(st, Run(t, Sent));
        } else {
          assert Enabled(st, Run(t, Tick));
        }
      case Courier(d) =>
        assert CourierOk(st, st.couriers[d]);
        if st.couriers[d].stage.Sending? {
          assert Enabled(st, Run(t, Sent));
        } else {
          assert Enabled(st, Run(t, Tick));
        }
    }
  }

  // ---------------------------------------------------------------- the lock order

  // channelIndexMu < s.mu < a session's mutex < a connection's mutex.
  function Rank(l: Lock): nat {
    match l
    case IndexMu => 0
    case RegistryMu => 1
    case SessionMu(_) => 2
    case ConnMu(_) => 3
  }

  function OpLevel(op: Op): nat {
    match op
    case Announce(l) => 2 * Rank(l)
    case RLock(l) => 2 * Rank(l)
    case MLock(l) => 2 * Rank(l)
    case Acquire(l) => 2 * Rank(l) + 1
    case _ => 8
  }

  function ClaimLevel(c: Claim): nat {
    2 * Rank(c.lock) + if c.Pending? then 0 else 1
  }

  // A thread asks only for locks above everything it holds, and a thread that holds something is not idle.
  lemma LocksInOrder(st: State, t: Thread, c: Claim)
    requires WellFormed(st) && c in Held(st, t)
    ensures Present(st, t) && !Idle(st, t)
    ensures !HasCrashed(st, t) ==> ClaimLevel(c) < OpLevel(NextOp(st, t))
  {
    match t {
      case Handler(s) =>
      case Courier(d) => assert CourierOk(st, st.couriers[d]);
    }
  }

  // The claims that an operation finds in its way.
  predicate InTheWay(op: Op, c: Claim) {
    match op
    case Announce(l) => c == Write(l) || c == Pending(l)
    case Acquire(l) => c == Read(l)
    case RLock(l) => c == Write(l) || c == Pending(l)
    case MLock(l) => c == Write(l)
    case _ => false
  }

  // t waits, and u owns a claim that is in its way.
  ghost predicate Blocks(st: State, t: Thread, u: Thread) {
    Waits(st, t) && exists c :: InTheWay(NextOp(st, t), c) && Owns(st, u, c)
  }

  // Each thread but the last waits for something the next one owns.
  ghost predicate WaitChain(st: State, chain: seq<Thread>) {
    forall i :: 0 <= i < |chain| - 1 ==> Blocks(st, chain[i], chain[i + 1])
  }

  lemma BlockerAbove(st: State, t: Thread) returns (u: Thread)
    requires Inv(st) && !Crash(st) && Waits(st, t)
    ensures Blocks(st, t, u)
    ensures Present(st, u) && !Idle(st, u) && !HasCrashed(st, u)
    ensures OpLevel(NextOp(st, t)) < OpLevel(NextOp(st, u)) <= 8
  {
    var op := NextOp(st, t);
    var c: Claim;
    match op {
      case Acquire(l) =>
        c := Read(l);
      case Announce(l) =>
        c := if Owners(st.owners, Write(l)) != {} then Write(l) else Pending(l);
      case RLock(l) =>
        c := if Owners(st.owners, Write(l)) != {} then Write(l) else Pending(l);
      case MLock(l) =>
        c := Write(l);
      case _ =>
        assert false;
    }
    u :| u in Owners(st.owners, c);
    assert InTheWay(op, c) && Owns(st, u, c);
    LocksInOrder(st, u, c);
  }

  /** Deadlock freedom: in every state without a crash, whenever some thread waits for a lock, a chain of threads, each
      waiting for what the next one owns, leads from it to a thread that can take its next step. */
  lemma {:induction false} WaiterHasMover(st: State, t: Thread) returns (chain: seq<Thread>)
    requires Inv(st) && !Crash(st) && Waits(st, t)
    ensures |chain| > 1 && chain[0] == t && WaitChain(st, chain) && CanStep(st, chain[|chain| - 1])
    decreases 8 - OpLevel(NextOp(st, t))
  {
    var u := BlockerAbove(st, t);
    if OpReady(st.owners, NextOp(st, u)) {
      ReadyCanStep(st, u);
      chain := [t, u];
    } else {
      var rest := WaiterHasMover(st, u);
      chain := [t] + rest;
      assert forall i :: 1 <= i < |chain| ==> chain[i] == rest[i - 1];
    }
  }

  lemma DeadlockFree(run: seq<Action>, t: Thread)
    requires ValidRun(INIT, run) && Waits(After(INIT, run), t) && !Crash(After(INIT, run))
    ensures exists u :: CanStep(After(INIT, run), u)
  {
    ReachableInv(run);
    MoverExists(After(INIT, run), t);
  }

  lemma MoverExists(st: State, t: Thread)
    requires Inv(st) && !Crash(st) && Waits(st, t)
    ensures exists u :: CanStep(st, u)
  {
    var chain := WaiterHasMover(st, t);
    assert CanStep(st, chain[|chain| - 1]);
  }

  // ---------------------------------------------------------------- the crash

  // A registration that finds a registered session of the same ID whose `done` is closed already.
  ghost predicate FatalRegistration(st: State, a: Action) {
    && a.Run? && a.t.Handler? && a.t.s < |st.sess|
    && st.sess[a.t.s].pc.RegBody? && st.sess[a.t.s].id in st.agents
    && st.agents[st.sess[a.t.s].id] < |st.sess| && st.sess[st.agents[st.sess[a.t.s].id]].done
  }

  lemma CrashCause(st: State, a: Action)
    requires Enabled(st, a) && !Crash(st)
    ensures Crash(Do(st, a)) <==> FatalRegistration(st, a)
  {
    if FatalRegistration(st, a) {
      assert Do(st, a).sess[a.t.s].pc.Crashed?;
    } else {
      forall j | 0 <= j < |Do(st, a).sess| ensures !Do(st, a).sess[j].pc.Crashed? {
        if j < |st.sess| {
          SessionFrame(st, a, j);
          if Moves(a, j) { NoOtherCrash(st, j, a.c); }
        }
      }
    }
  }

  lemma NoOtherCrash(st: State, s: nat, ch: Choice)
    requires s < |st.sess| && PcOk(st, s) && !st.sess[s].pc.Crashed?
    requires !(st.sess[s].pc.RegBody? && MeetsClosed(st, s))
    ensures !HandlerGoto(st, s, ch).Crashed?
  {
  }

  ghost predicate WantsRegistry(st: State, t: Thread) {
    && Present(st, t) && (t.Handler? ==> PcOk(st, t.s))
    && (NextOp(st, t) == RLock(RegistryMu) || NextOp(st, t) == Announce(RegistryMu))
  }

  // The crashed session's hold on s.mu keeps everybody else from changing the registry.
  lemma StuckRegistry(st: State, a: Action, s: nat)
    requires LockInv(st) && Enabled(st, a) && s < |st.sess| && st.sess[s].pc.Crashed?
    ensures Do(st, a).sess[s].pc.Crashed? && Do(st, a).agents == st.agents
  {
    SessionFrame(st, a, s);
    if a.Run? && a.t.Handler? {
      OneRegistryWriter(st, s, a.t.s);
    }
  }

  lemma OneRegistryWriter(st: State, s: nat, u: nat)
    requires LockInv(st) && s < |st.sess| && st.sess[s].pc.Crashed? && u < |st.sess|
    ensures !st.sess[u].pc.RegBody? && !st.sess[u].pc.DownDeregister?
  {
    var w := Write(RegistryMu);
    assert Owns(st, Handler(s), w) <==> w in Held(st, Handler(s));
    assert Owns(st, Handler(u), w) <==> w in Held(st, Handler(u));
  }

  lemma StuckThread(st: State, a: Action, s: nat, t: Thread)
    requires LockInv(st) && Enabled(st, a) && s < |st.sess| && st.sess[s].pc.Crashed? && WantsRegistry(st, t)
    ensures a.Run? ==> a.t != t
  {
    assert Owns(st, Handler(s), Write(RegistryMu));
  }

  lemma StuckStep(st: State, a: Action, s: nat, t: Thread)
    requires Inv(st) && Enabled(st, a) && s < |st.sess| && st.sess[s].pc.Crashed? && WantsRegistry(st, t)
    ensures WantsRegistry(Do(st, a), t)
  {
    StuckThread(st, a, s, t);
    WantsByPc(st, t);
    SessionFrame(st, a, t.s);
    PcOkStep(st, a, t.s);
    WantsByPc(Do(st, a), t);
  }

  // Only handlers ever want s.mu, and their control points say so.
  lemma WantsByPc(st: State, t: Thread)
    ensures WantsRegistry(st, t) <==>
              t.Handler? && t.s < |st.sess| && PcOk(st, t.s) && WantingPc(st.sess[t.s].pc)
  {
  }

  predicate WantingPc(pc: Pc) {
    || pc.RegAnnounce? || pc.DownAnnounce? || pc.CountLock? || pc.QueryLock? || pc.CreateRLock? || pc.FwdLock?
  }

  /** After a crash s.mu is never released: whatever happens next, every thread that needs it waits forever, and the
      registry never changes again. */
  lemma {:induction false} CrashIsForever(st: State, run: seq<Action>, s: nat, t: Thread)
    requires Inv(st) && ValidRun(st, run)
    requires s < |st.sess| && st.sess[s].pc.Crashed? && WantsRegistry(st, t)
    ensures |After(st, run).sess| > s && After(st, run).sess[s].pc.Crashed?
    ensures WantsRegistry(After(st, run), t) && !OpReady(After(st, run).owners, NextOp(After(st, run), t))
    ensures forall i :: 0 <= i < |run| && run[i].Run? ==> run[i].t != t
    ensures After(st, run).agents == st.agents
    decreases |run|
  {
    if run == [] {
      assert Owns(st, Handler(s), Write(RegistryMu));
    } else {
      StuckRegistry(st, run[0], s);
      StuckThread(st, run[0], s, t);
      StuckStep(st, run[0], s, t);
      WellFormedStep(st, run[0]);
      LockInvStep(st, run[0]);
      CrashIsForever(Do(st, run[0]), run[1..], s, t);
      assert forall i :: 1 <= i < |run| ==> run[i] == run[1..][i - 1];
    }
  }
}
