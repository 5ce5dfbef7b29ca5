/** One live session per agent ID: what it rules out, and what happens without it. */
module RelaySolo {
  import opened RelayModel
  import opened RelayLocks
  import opened RelayProgress

  // An agent opens a new session only when every earlier session of its ID has ended.
  predicate Polite(st: State, a: Action) {
    a.Accept? ==> forall s :: 0 <= s < |st.sess| && st.sess[s].id == a.id ==> st.sess[s].pc.Dead?
  }

  ghost predicate PoliteRun(st: State, run: seq<Action>)
    requires ValidRun(st, run)
    decreases |run|
  {
    run == [] || (Polite(st, run[0]) && PoliteRun(Do(st, run[0]), run[1..]))
  }

  // Before the registry entry is made.
  predicate Registering(pc: Pc) {
    pc.RegAnnounce? || pc.RegAcquire? || pc.RegBody? || pc.Crashed?
  }

  // After `done` has been closed by the session's own teardown.
  predicate Closing(pc: Pc) {
    || pc.DownAnnounce? || pc.DownAcquire? || pc.DownDeregister? || pc.DownIndexAnnounce?
    || pc.DownIndexAcquire? || pc.DownClean? || ((pc.CountLock? || pc.CountUnlock?) && pc.dying)
  }

  // Between registration and removal from the registry.
  predicate Registered(pc: Pc) {
    !Registering(pc) && !pc.Dead? && (Closing(pc) ==> pc.DownAnnounce? || pc.DownAcquire? || pc.DownDeregister?)
  }

  predicate SameLiveId(o: Session, p: Session) {
    o.id == p.id && !o.pc.Dead? && !p.pc.Dead?
  }

  ghost predicate OneLive(st: State) {
    forall s, t | 0 <= s < |st.sess| && 0 <= t < |st.sess| && SameLiveId(st.sess[s], st.sess[t]) :: s == t
  }

  // The registry lists exactly the sessions between registration and removal, and only a session in its own
  // teardown has its `done` closed.
  ghost predicate SessionOk(st: State, s: nat)
    requires s < |st.sess|
  {
    var o := st.sess[s];
    && !o.pc.Crashed?
    && (o.done ==> Closing(o.pc) || o.pc.Dead?)
    && (Registered(o.pc) <==> o.id in st.agents && st.agents[o.id] == s)
  }

  ghost predicate SoloInv(st: State) {
    OneLive(st) && forall s :: 0 <= s < |st.sess| ==> SessionOk(st, s)
  }

  lemma OneLiveStep(st: State, a: Action)
    requires WellFormed(st) && OneLive(st) && Enabled(st, a) && Polite(st, a)
    ensures OneLive(Do(st, a))
  {
    var st' := Do(st, a);
    forall s, t | 0 <= s < |st'.sess| && 0 <= t < |st'.sess| && SameLiveId(st'.sess[s], st'.sess[t]) ensures s == t {
      StaysDead(st, a, s);
      StaysDead(st, a, t);
      assert s < |st.sess| && t < |st.sess| ==> SameLiveId(st.sess[s], st.sess[t]);
    }
  }

  lemma StaysDead(st: State, a: Action, s: nat)
    requires WellFormed(st) && Enabled(st, a) && s < |Do(st, a).sess|
    ensures s < |st.sess| ==> Do(st, a).sess[s].id == st.sess[s].id
    ensures s < |st.sess| && st.sess[s].pc.Dead? ==> Do(st, a).sess[s].pc.Dead?
    ensures s >= |st.sess| ==> a.Accept? && s == |st.sess| && Do(st, a).sess[s].id == a.id
  {
    if s < |st.sess| {
      SessionFrame(st, a, s);
    }
  }

  lemma ListedSession(st: State, k: nat, s: nat)
    requires OneLive(st) && k < |st.sess| && s < |st.sess|
    requires Registered(st.sess[k].pc) && Registering(st.sess[s].pc)
    ensures st.sess[k].id != st.sess[s].id
  {
    assert SameLiveId(st.sess[k], st.sess[s]) <==> st.sess[k].id == st.sess[s].id;
  }

  lemma NotListed(st: State, s: nat)
    requires SoloInv(st) && WellFormed(st) && s < |st.sess| && Registering(st.sess[s].pc)
    ensures st.sess[s].id !in st.agents
  {
    forall id | id in st.agents ensures id != st.sess[s].id {
      assert SessionOk(st, st.agents[id]);
      ListedSession(st, st.agents[id], s);
    }
  }

  // What a handler's step does to its own standing.
  lemma OwnStanding(st: State, s: nat, ch: Choice)
    requires SoloInv(st) && WellFormed(st) && Enabled(st, Run(Handler(s), ch))
    ensures !MeetsClosed(st, s) || !st.sess[s].pc.RegBody?
    ensures StandingOk(st, s, ch)
  {
    assert SessionOk(st, s);
    if Registering(st.sess[s].pc) {
      NotListed(st, s);
    }
    Standing(st, s, ch);
  }

  ghost predicate StandingOk(st: State, s: nat, ch: Choice)
    requires s < |st.sess| && PcOk(st, s)
  {
    var pc := st.sess[s].pc;
    var pc' := HandlerGoto(st, s, ch);
    && !pc'.Crashed?
    && (pc.DownClose? ==> !st.sess[s].done && Closing(pc'))
    && (Closing(pc) ==> Closing(pc') || pc'.Dead?)
    && (Registered(pc') <==> if pc.RegBody? then true else if pc.DownDeregister? then false else Registered(pc))
  }

  lemma Standing(st: State, s: nat, ch: Choice)
    requires s < |st.sess| && PcOk(st, s) && SessionOk(st, s) && ChoiceOk(st, s, ch)
    requires st.sess[s].pc.RegBody? ==> !MeetsClosed(st, s)
    ensures StandingOk(st, s, ch)
  {
  }

  lemma AgentsElsewhere(st: State, s: nat, j: nat)
    requires SoloInv(st) && WellFormed(st) && s < |st.sess| && j < |st.sess| && j != s
    requires st.sess[s].pc.RegBody? ==> !MeetsClosed(st, s)
    ensures (st.sess[j].id in AgentsAfter(st, s) && AgentsAfter(st, s)[st.sess[j].id] == j)
        <==> (st.sess[j].id in st.agents && st.agents[st.sess[j].id] == j)
  {
    if st.sess[s].pc.RegBody? {
      NotListed(st, s);
    }
  }

  lemma SessionOkElsewhere(st: State, s: nat, ch: Choice, j: nat)
    requires SoloInv(st) && WellFormed(st) && Enabled(st, Run(Handler(s), ch)) && j < |st.sess| && j != s
    ensures SessionAfter(st, s, ch, j).done == st.sess[j].done
  {
    assert SessionOk(st, s) && SessionOk(st, j);
    if st.sess[s].pc.RegBody? {
      NotListed(st, s);
    }
  }

  lemma SessionOkStep(st: State, a: Action, j: nat)
    requires SoloInv(st) && WellFormed(st) && Enabled(st, a) && Polite(st, a) && j < |Do(st, a).sess|
    ensures SessionOk(Do(st, a), j)
  {
    match a
    case Accept(id) =>
      if j < |st.sess| {
        assert SessionOk(st, j);
      }
    case Run(Courier(_), _) =>
      assert SessionOk(st, j);
    case Run(Handler(s), ch) =>
      if j != s {
        SessionOkOther(st, s, ch, j);
      } else {
        SessionOkOwn(st, s, ch);
      }
  }

  lemma SessionOkOther(st: State, s: nat, ch: Choice, j: nat)
    requires SoloInv(st) && WellFormed(st) && Enabled(st, Run(Handler(s), ch)) && j < |st.sess| && j != s
    ensures SessionOk(HandlerDo(st, s, ch), j)
  {
    OwnStanding(st, s, ch);
    AgentsElsewhere(st, s, j);
    SessionOkElsewhere(st, s, ch, j);
    HandlerFrame(st, s, ch, j);
    assert SessionOk(st, j);
  }

  lemma SessionOkOwn(st: State, s: nat, ch: Choice)
    requires SoloInv(st) && WellFormed(st) && Enabled(st, Run(Handler(s), ch))
    ensures SessionOk(HandlerDo(st, s, ch), s)
  {
    OwnStanding(st, s, ch);
    OwnAgents(st, s);
    OwnDone(st, s, ch);
    HandlerFrame(st, s, ch, s);
    assert SessionOk(st, s);
  }

  lemma OwnAgents(st: State, s: nat)
    requires s < |st.sess| && (st.sess[s].pc.RegBody? ==> !MeetsClosed(st, s))
    ensures (st.sess[s].id in AgentsAfter(st, s) && AgentsAfter(st, s)[st.sess[s].id] == s)
        <==> (if st.sess[s].pc.RegBody? then true
              else if st.sess[s].pc.DownDeregister? then false
              else st.sess[s].id in st.agents && st.agents[st.sess[s].id] == s)
  {
  }

  lemma OwnDone(st: State, s: nat, ch: Choice)
    requires SoloInv(st) && WellFormed(st) && Enabled(st, Run(Handler(s), ch))
    ensures SessionAfter(st, s, ch, s).done == (st.sess[s].done || st.sess[s].pc.DownClose?)
  {
    assert SessionOk(st, s);
  }

  lemma SoloInvStep(st: State, a: Action)
    requires SoloInv(st) && WellFormed(st) && Enabled(st, a) && Polite(st, a)
    ensures SoloInv(Do(st, a))
  {
    OneLiveStep(st, a);
    forall s | 0 <= s < |Do(st, a).sess| ensures SessionOk(Do(st, a), s) {
      SessionOkStep(st, a, s);
    }
  }

  lemma {:induction false} PoliteRunKeeps(st: State, run: seq<Action>)
    requires Inv(st) && SoloInv(st) && ValidRun(st, run) && PoliteRun(st, run)
    ensures Inv(After(st, run)) && SoloInv(After(st, run))
    decreases |run|
  {
    if run != [] {
      WellFormedStep(st, run[0]);
      LockInvStep(st, run[0]);
      SoloInvStep(st, run[0]);
      PoliteRunKeeps(Do(st, run[0]), run[1..]);
    }
  }

  lemma SoloNoCrash(st: State)
    requires SoloInv(st)
    ensures !Crash(st)
  {
    forall s | 0 <= s < |st.sess| ensures !st.sess[s].pc.Crashed? {
      assert SessionOk(st, s);
    }
  }

  /** With one live session per ID no registration ever meets a closed session, so the relay never locks itself up:
      whenever a thread waits, some thread can step. */
  lemma PoliteRunsAreDeadlockFree(run: seq<Action>, t: Thread)
    requires ValidRun(INIT, run) && PoliteRun(INIT, run)
    ensures !Crash(After(INIT, run))
    ensures Waits(After(INIT, run), t) ==> exists u :: CanStep(After(INIT, run), u)
  {
    PoliteRunKeeps(INIT, run);
    SoloNoCrash(After(INIT, run));
    if Waits(After(INIT, run), t) {
      MoverExists(After(INIT, run), t);
    }
  }

  // The control points of a session that registers, fails to read and starts its teardown.
  predicate Opening(pc: Pc) {
    || pc.RegAnnounce? || pc.RegAcquire? || pc.RegBody? || pc.Reading? || pc.DownClose?
    || ((pc.CountLock? || pc.CountUnlock?) && !pc.dying)
  }

  function OpeningChoice(pc: Pc): Choice {
    if pc.Reading? then ReadError else Tick
  }

  function OpeningNext(pc: Pc): Pc {
    match pc
    case RegAnnounce => RegAcquire
    case RegAcquire => RegBody
    case RegBody => CountLock(false)
    case CountLock(_) => CountUnlock(false)
    case CountUnlock(_) => Reading
    case Reading => DownClose
    case _ => DownAnnounce
  }

  // A relay with one session, at such a control point.
  ghost predicate Opened(st: State, id: Id, pc: Pc) {
    && st.sess == [Session(id, {}, pc.DownAnnounce?, [], [], [], pc)]
    && st.agents == (if Registering(pc) then map[] else map[id := 0])
    && (forall c: Claim | c.lock == RegistryMu ::
          Owners(st.owners, c) == if c in HeldByHandler(pc, 0) then {Handler(0)} else {})
  }

  lemma OpenedReady(st: State, id: Id, pc: Pc)
    requires Opened(st, id, pc) && Opening(pc)
    ensures Enabled(st, Run(Handler(0), OpeningChoice(pc)))
    ensures HandlerGoto(st, 0, OpeningChoice(pc)) == OpeningNext(pc)
  {
  }

  lemma OpenedLocks(st: State, id: Id, pc: Pc, c: Claim)
    requires Opened(st, id, pc) && Opening(pc) && PcOk(st, 0) && c.lock == RegistryMu
    ensures Owners(OpDo(st.owners, Handler(0), HandlerOp(st, 0), Courier(|st.couriers|)), c)
         == if c in HeldByHandler(OpeningNext(pc), 0) then {Handler(0)} else {}
  {
  }

  lemma OpenedStep(st: State, id: Id, pc: Pc)
    requires Opened(st, id, pc) && Opening(pc)
    ensures Enabled(st, Run(Handler(0), OpeningChoice(pc)))
    ensures Opened(Do(st, Run(Handler(0), OpeningChoice(pc))), id, OpeningNext(pc))
  {
    OpenedReady(st, id, pc);
    forall c: Claim | c.lock == RegistryMu
      ensures Owners(OpDo(st.owners, Handler(0), HandlerOp(st, 0), Courier(|st.couriers|)), c)
           == if c in HeldByHandler(OpeningNext(pc), 0) then {Handler(0)} else {}
    {
      OpenedLocks(st, id, pc, c);
    }
  }

  lemma OpenedRun(run: seq<Action>, id: Id, pc: Pc) returns (run': seq<Action>)
    requires ValidRun(INIT, run) && Opened(After(INIT, run), id, pc) && Opening(pc)
    ensures run' == run + [Run(Handler(0), OpeningChoice(pc))]
    ensures ValidRun(INIT, run') && Opened(After(INIT, run'), id, OpeningNext(pc))
  {
    OpenedStep(After(INIT, run), id, pc);
    RunExtend(INIT, run, Run(Handler(0), OpeningChoice(pc)));
    run' := run + [Run(Handler(0), OpeningChoice(pc))];
  }

  lemma FirstSessionCloses(id: Id) returns (run: seq<Action>)
    ensures ValidRun(INIT, run) && Opened(After(INIT, run), id, DownAnnounce)
  {
    RunExtend(INIT, [], Accept(id));
    run := [] + [Accept(id)];
    run := OpenedRun(run, id, RegAnnounce);
    run := OpenedRun(run, id, RegAcquire);
    run := OpenedRun(run, id, RegBody);
    run := OpenedRun(run, id, CountLock(false));
    run := OpenedRun(run, id, CountUnlock(false));
    run := OpenedRun(run, id, Reading);
    run := OpenedRun(run, id, DownClose);
  }

  // The second session of the same ID registers while the first one is about to lock s.mu for its removal.
  ghost predicate Reopened(st: State, id: Id, pc: Pc) {
    && st.sess == [Session(id, {}, true, [], [], [], DownAnnounce), Session(id, {}, false, [], [], [], pc)]
    && st.agents == map[id := 0]
    && (forall c: Claim | c.lock == RegistryMu ::
          Owners(st.owners, c) == if c in HeldByHandler(pc, 1) then {Handler(1)} else {})
  }

  lemma ReopenedRun(run: seq<Action>, id: Id, pc: Pc, pc': Pc) returns (run': seq<Action>)
    requires ValidRun(INIT, run) && Reopened(After(INIT, run), id, pc)
    requires (pc, pc') in {(RegAnnounce, RegAcquire), (RegAcquire, RegBody), (RegBody, Crashed)}
    ensures run' == run + [Run(Handler(1), Tick)]
    ensures ValidRun(INIT, run') && Reopened(After(INIT, run'), id, pc')
  {
    ReopenedStep(After(INIT, run), id, pc, pc');
    RunExtend(INIT, run, Run(Handler(1), Tick));
    run' := run + [Run(Handler(1), Tick)];
  }

  lemma ReopenedStep(st: State, id: Id, pc: Pc, pc': Pc)
    requires Reopened(st, id, pc)
    requires (pc, pc') in {(RegAnnounce, RegAcquire), (RegAcquire, RegBody), (RegBody, Crashed)}
    ensures Enabled(st, Run(Handler(1), Tick)) && Reopened(Do(st, Run(Handler(1), Tick)), id, pc')
  {
    ReopenedReady(st, id, pc, pc');
    forall c: Claim | c.lock == RegistryMu
      ensures Owners(OpDo(st.owners, Handler(1), HandlerOp(st, 1), Courier(|st.couriers|)), c)
           == if c in HeldByHandler(pc', 1) then {Handler(1)} else {}
    {
      ReopenedLocks(st, id, pc, pc', c);
    }
  }

  lemma ReopenedReady(st: State, id: Id, pc: Pc, pc': Pc)
    requires Reopened(st, id, pc)
    requires (pc, pc') in {(RegAnnounce, RegAcquire), (RegAcquire, RegBody), (RegBody, Crashed)}
    ensures Enabled(st, Run(Handler(1), Tick)) && HandlerGoto(st, 1, Tick) == pc'
  {
  }

  lemma ReopenedLocks(st: State, id: Id, pc: Pc, pc': Pc, c: Claim)
    requires Reopened(st, id, pc) && PcOk(st, 1) && c.lock == RegistryMu
    requires (pc, pc') in {(RegAnnounce, RegAcquire), (RegAcquire, RegBody), (RegBody, Crashed)}
    ensures Owners(OpDo(st.owners, Handler(1), HandlerOp(st, 1), Courier(|st.couriers|)), c)
         == if c in HeldByHandler(pc', 1) then {Handler(1)} else {}
  {
  }

  lemma ReopenedCrash(st: State, id: Id)
    requires Reopened(st, id, Crashed)
    ensures Crash(st) && Waits(st, Handler(0))
  {
    assert st.sess[1].pc.Crashed?;
    assert Owners(st.owners, Write(RegistryMu)) == {Handler(1)};
  }

  /** Without that discipline the relay can lock itself up. An agent reconnects after the relay has seen the old
      connection fail and before the old session has left the registry: the registration crashes holding s.mu, and
      the old session's teardown waits for s.mu. */
  lemma HastyReconnectCrashes(id: Id) returns (run: seq<Action>)
    ensures ValidRun(INIT, run)
    ensures Crash(After(INIT, run)) && Waits(After(INIT, run), Handler(0))
  {
    run := FirstSessionCloses(id);
    RunExtend(INIT, run, Accept(id));
    run := run + [Accept(id)];
    run := ReopenedRun(run, id, RegAnnounce, RegAcquire);
    run := ReopenedRun(run, id, RegAcquire, RegBody);
    run := ReopenedRun(run, id, RegBody, Crashed);
    ReopenedCrash(After(INIT, run), id);
  }
}
