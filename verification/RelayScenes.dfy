/** Short runs of one session at a time, from which longer ones are put together. */
module RelayScenes {
  import opened RelayModel
  import opened RelayLocks
  import opened RelayProgress

  // Only session s holds any lock, and nothing is being delivered.
  ghost predicate Alone(st: State, s: nat) {
    && s < |st.sess| && st.couriers == []
    && forall j :: 0 <= j < |st.sess| && j != s ==> HeldByHandler(st.sess[j].pc, j) == {}
  }

  // A session that holds nothing leaves the scene to another one.
  lemma Yields(st: State, s: nat, t: nat)
    requires Alone(st, s) && t < |st.sess| && HeldByHandler(st.sess[s].pc, s) == {}
    ensures Alone(st, t)
  {
  }

  lemma OnlyHolder(st: State, s: nat, c: Claim)
    requires LockInv(st) && Alone(st, s) && c !in HeldByHandler(st.sess[s].pc, s)
    ensures Owners(st.owners, c) == {}
  {
    forall t ensures t !in Owners(st.owners, c) {
      assert Owns(st, t, c) <==> c in Held(st, t);
    }
  }

  // A session alone is never held up: its own locks are none that its next operation needs.
  lemma AloneReady(st: State, s: nat)
    requires Inv(st) && Alone(st, s) && PcOk(st, s)
    ensures OpReady(st.owners, HandlerOp(st, s))
  {
    var op := HandlerOp(st, s);
    var held := HeldByHandler(st.sess[s].pc, s);
    if !op.Local? {
      if Write(op.lock) !in held { OnlyHolder(st, s, Write(op.lock)); }
      if Read(op.lock) !in held { OnlyHolder(st, s, Read(op.lock)); }
      if Pending(op.lock) !in held { OnlyHolder(st, s, Pending(op.lock)); }
    }
  }

  lemma Move(run: seq<Action>, s: nat, ch: Choice) returns (run': seq<Action>)
    requires ValidRun(INIT, run) && Alone(After(INIT, run), s) && !After(INIT, run).sess[s].pc.FwdSpawn?
    requires ChoiceOk(After(INIT, run), s, ch)
    ensures PcOk(After(INIT, run), s)
    ensures ValidRun(INIT, run') && After(INIT, run') == HandlerDo(After(INIT, run), s, ch)
    ensures Alone(After(INIT, run'), s)
  {
    var st := After(INIT, run);
    ReachableInv(run);
    AloneReady(st, s);
    RunExtend(INIT, run, Run(Handler(s), ch));
    run' := run + [Run(Handler(s), ch)];
  }

  // Control points whose steps change no other session.
  predicate Simple(pc: Pc) {
    !pc.RegBody? && !pc.CreateMark? && !pc.FwdSpawn?
  }

  // What such a step changes: its own session, and what AgentsAfter, IndexAfter and LogAfter say.
  ghost predicate Moved(st: State, st': State, s: nat, ch: Choice)
    requires s < |st.sess| && PcOk(st, s)
  {
    && st'.sess == st.sess[s := SessionAfter(st, s, ch, s).(pc := HandlerGoto(st, s, ch))]
    && st'.agents == AgentsAfter(st, s) && st'.index == IndexAfter(st, s) && st'.log == LogAfter(st, s)
  }

  lemma SimpleMoves(st: State, s: nat, ch: Choice)
    requires s < |st.sess| && PcOk(st, s) && Simple(st.sess[s].pc)
    ensures Moved(st, HandlerDo(st, s, ch), s, ch)
  {
  }

  lemma Go(run: seq<Action>, s: nat, ch: Choice) returns (run': seq<Action>)
    requires ValidRun(INIT, run) && Alone(After(INIT, run), s) && Simple(After(INIT, run).sess[s].pc)
    requires ChoiceOk(After(INIT, run), s, ch)
    ensures ValidRun(INIT, run') && Alone(After(INIT, run'), s)
    ensures PcOk(After(INIT, run), s) && Moved(After(INIT, run), After(INIT, run'), s, ch)
  {
    run' := Move(run, s, ch);
    SimpleMoves(After(INIT, run), s, ch);
  }

  // ---------------------------------------------------------------- the scenes of the run

  // Session s is now o; the registry, the index and the log are as before.
  ghost predicate Changed(st: State, st': State, s: nat, o: Session)
    requires s < |st.sess|
  {
    st'.sess == st.sess[s := o] && st'.agents == st.agents && st'.index == st.index && st'.log == st.log
  }

  lemma Accepts(run: seq<Action>, id: Id) returns (run': seq<Action>)
    requires ValidRun(INIT, run)
    ensures ValidRun(INIT, run')
    ensures var st := After(INIT, run);
            After(INIT, run') == st.(sess := st.sess + [Session(id, {}, false, [], [], [], RegAnnounce)])
  {
    RunExtend(INIT, run, Accept(id));
    run' := run + [Accept(id)];
  }

  // Up to the moment a new session has s.mu for its registration.
  lemma Approaches(run: seq<Action>, s: nat) returns (run': seq<Action>)
    requires ValidRun(INIT, run) && Alone(After(INIT, run), s) && After(INIT, run).sess[s].pc == RegAnnounce
    ensures ValidRun(INIT, run') && Alone(After(INIT, run'), s)
    ensures Changed(After(INIT, run), After(INIT, run'), s, After(INIT, run).sess[s].(pc := RegBody))
  {
    run' := Go(run, s, Tick);
    run' := Go(run', s, Tick);
  }

  // From its registration on to its read loop.
  lemma Settles(run: seq<Action>, s: nat) returns (run': seq<Action>)
    requires ValidRun(INIT, run) && Alone(After(INIT, run), s) && After(INIT, run).sess[s].pc == CountLock(false)
    ensures ValidRun(INIT, run') && Alone(After(INIT, run'), s)
    ensures Changed(After(INIT, run), After(INIT, run'), s, After(INIT, run).sess[s].(pc := Reading))
  {
    run' := Go(run, s, Tick);
    run' := Go(run', s, Tick);
  }

  // The registration of an ID nobody is registered under, or in the place of a session whose done is open.
  lemma Enters(run: seq<Action>, s: nat) returns (run': seq<Action>)
    requires ValidRun(INIT, run) && Alone(After(INIT, run), s) && After(INIT, run).sess[s].pc == RegBody
    requires !MeetsClosed(After(INIT, run), s)
    ensures ValidRun(INIT, run') && Alone(After(INIT, run'), s)
    ensures var st, st' := After(INIT, run), After(INIT, run');
            && st'.agents == st.agents[st.sess[s].id := s] && st'.index == st.index && st'.log == st.log
            && st'.sess == Replaced(st, st.sess[s].id)[s := Replaced(st, st.sess[s].id)[s].(pc := CountLock(false))]
  {
    run' := Move(run, s, Tick);
  }

  // The sessions once the one registered under id has had its done closed.
  function Replaced(st: State, id: Id): (sess: seq<Session>)
    ensures |sess| == |st.sess|
  {
    if id in st.agents && st.agents[id] < |st.sess| then
      st.sess[st.agents[id] := st.sess[st.agents[id]].(done := true)]
    else
      st.sess
  }

  lemma ApproachAndEnter(run: seq<Action>, s: nat) returns (run': seq<Action>)
    requires ValidRun(INIT, run) && Alone(After(INIT, run), s) && After(INIT, run).sess[s].pc == RegAnnounce
    requires !MeetsClosed(After(INIT, run), s)
    ensures ValidRun(INIT, run') && Alone(After(INIT, run'), s)
    ensures var st, st' := After(INIT, run), After(INIT, run');
            && st'.agents == st.agents[st.sess[s].id := s] && st'.index == st.index && st'.log == st.log
            && st'.sess == Replaced(st, st.sess[s].id)[s := Replaced(st, st.sess[s].id)[s].(pc := CountLock(false))]
  {
    var st := After(INIT, run);
    run' := Approaches(run, s);
    ReplacedLater(st, After(INIT, run'), s, st.sess[s].id, RegBody);
    run' := Enters(run', s);
  }

  // The session's own control point is no matter to the closing of done.
  lemma ReplacedLater(st: State, st': State, s: nat, id: Id, now: Pc)
    requires s < |st.sess| && Changed(st, st', s, st.sess[s].(pc := now))
    ensures forall pc :: Replaced(st', id)[s := Replaced(st', id)[s].(pc := pc)]
                      == Replaced(st, id)[s := Replaced(st, id)[s].(pc := pc)]
  {
  }

  lemma Registers(run: seq<Action>, s: nat) returns (run': seq<Action>)
    requires ValidRun(INIT, run) && Alone(After(INIT, run), s) && After(INIT, run).sess[s].pc == RegAnnounce
    requires !MeetsClosed(After(INIT, run), s)
    ensures ValidRun(INIT, run') && Alone(After(INIT, run'), s)
    ensures var st, st' := After(INIT, run), After(INIT, run');
            && st'.agents == st.agents[st.sess[s].id := s] && st'.index == st.index && st'.log == st.log
            && st'.sess == Replaced(st, st.sess[s].id)[s := Replaced(st, st.sess[s].id)[s].(pc := Reading)]
  {
    run' := ApproachAndEnter(run, s);
    run' := Settles(run', s);
  }

  // A new session, with nobody else at work.
  lemma Joins(run: seq<Action>, id: Id) returns (run': seq<Action>)
    requires ValidRun(INIT, run) && After(INIT, run).couriers == []
    requires var st := After(INIT, run); forall j :: 0 <= j < |st.sess| ==> HeldByHandler(st.sess[j].pc, j) == {}
    requires var st := After(INIT, run);
             id in st.agents ==> st.agents[id] < |st.sess| && !st.sess[st.agents[id]].done
    ensures ValidRun(INIT, run') && Alone(After(INIT, run'), |After(INIT, run).sess|)
    ensures var st, st' := After(INIT, run), After(INIT, run');
            && st'.agents == st.agents[id := |st.sess|] && st'.index == st.index && st'.log == st.log
            && st'.sess == Replaced(st, id) + [Session(id, {}, false, [], [], [], Reading)]
  {
    var st := After(INIT, run);
    run' := Accepts(run, id);
    var st' := After(INIT, run');
    assert Replaced(st', id) == Replaced(st, id) + [st'.sess[|st.sess|]];
    run' := Registers(run', |st.sess|);
  }

  // The first half of a leave.
  lemma AsksToLeave(run: seq<Action>, s: nat, c: Chan) returns (run': seq<Action>)
    requires ValidRun(INIT, run) && Alone(After(INIT, run), s) && After(INIT, run).sess[s].pc == Reading && c != ""
    ensures ValidRun(INIT, run') && Alone(After(INIT, run'), s)
    ensures var o := After(INIT, run).sess[s];
            Changed(After(INIT, run), After(INIT, run'), s,
                    o.(pc := LeaveAcquire(c), inbox := o.inbox + [Text(c, PeerLeft(c), "")]))
  {
    run' := Go(run, s, Recv(Text(c, PeerLeft(c), "")));
    run' := Go(run', s, Tick);
  }

  lemma Unindexes(run: seq<Action>, s: nat, c: Chan) returns (run': seq<Action>)
    requires ValidRun(INIT, run) && Alone(After(INIT, run), s) && After(INIT, run).sess[s].pc == LeaveAcquire(c)
    ensures ValidRun(INIT, run') && Alone(After(INIT, run'), s)
    ensures var st, st' := After(INIT, run), After(INIT, run');
            var o := st.sess[s];
            && st'.sess == st.sess[s := o.(pc := LeaveLock(c))] && st'.agents == st.agents
            && st'.index == WithoutMember(st.index, c, o.id) && st'.log == st.log + [Departed(c, o.id)]
  {
    run' := Go(run, s, Tick);
    run' := Go(run', s, Tick);
  }

  // The second half.
  lemma Unpins(run: seq<Action>, s: nat, c: Chan) returns (run': seq<Action>)
    requires ValidRun(INIT, run) && Alone(After(INIT, run), s) && After(INIT, run).sess[s].pc == LeaveLock(c)
    ensures ValidRun(INIT, run') && Alone(After(INIT, run'), s)
    ensures var st, st' := After(INIT, run), After(INIT, run');
            var o := st.sess[s];
            && st'.sess == st.sess[s := o.(pc := SnapLock, channels := o.channels - {c})]
            && st'.agents == st.agents && st'.index == st.index && st'.log == st.log + [Unpinned(c, o.id, s)]
  {
    run' := Go(run, s, Tick);
    run' := Go(run', s, Tick);
  }

  // Session s reads the creation of a channel and takes channelIndexMu.
  lemma Opens(run: seq<Action>, s: nat, c: Chan, ms: seq<Id>) returns (run': seq<Action>)
    requires ValidRun(INIT, run) && Alone(After(INIT, run), s) && After(INIT, run).sess[s].pc == Reading && c != ""
    ensures ValidRun(INIT, run') && Alone(After(INIT, run'), s)
    ensures var st, st' := After(INIT, run), After(INIT, run');
            var named := Text(c, Created(c, ms), "");
            && st'.sess == st.sess[s := st.sess[s].(pc := CreateAdd(c, ms), inbox := st.sess[s].inbox + [named])]
            && st'.agents == st.agents && st'.log == st.log
            && st'.index == if c in st.index then st.index else st.index[c := {}]
  {
    run' := Go(run, s, Recv(Text(c, Created(c, ms), "")));
    run' := Go(run', s, Tick);
    run' := Go(run', s, Tick);
  }

  lemma Adds(run: seq<Action>, s: nat, c: Chan, id: Id) returns (run': seq<Action>)
    requires ValidRun(INIT, run) && Alone(After(INIT, run), s) && After(INIT, run).sess[s].pc == CreateAdd(c, [id])
    requires c in After(INIT, run).index && id in After(INIT, run).agents
    ensures ValidRun(INIT, run') && Alone(After(INIT, run'), s)
    ensures var st, st' := After(INIT, run), After(INIT, run');
            && st'.sess == st.sess[s := st.sess[s].(pc := CreateMark(c, [id], st.agents[id]))]
            && st'.agents == st.agents && st'.log == st.log + [Added(c, id)]
            && st'.index == st.index[c := st.index[c] + {id}]
  {
    run' := Go(run, s, Tick);
    run' := Go(run', s, Tick);
    run' := Go(run', s, Tick);
  }

  lemma Marks(run: seq<Action>, s: nat, c: Chan, id: Id, k: nat) returns (run': seq<Action>)
    requires ValidRun(INIT, run) && Alone(After(INIT, run), s) && After(INIT, run).sess[s].pc == CreateMark(c, [id], k)
    requires k < |After(INIT, run).sess| && k != s
    ensures ValidRun(INIT, run') && Alone(After(INIT, run'), s)
    ensures var st, st' := After(INIT, run), After(INIT, run');
            && st'.sess == st.sess[k := st.sess[k].(channels := st.sess[k].channels + {c})]
                                  [s := st.sess[s].(pc := CreateRUnlock(c, [id]))]
            && st'.agents == st.agents && st'.index == st.index && st'.log == st.log + [Pinned(c, st.sess[k].id, k)]
  {
    run' := Move(run, s, Tick);
  }

  lemma Completes(run: seq<Action>, s: nat, c: Chan, id: Id) returns (run': seq<Action>)
    requires ValidRun(INIT, run) && Alone(After(INIT, run), s) && After(INIT, run).sess[s].pc == CreateRUnlock(c, [id])
    requires |c| >= 12
    ensures ValidRun(INIT, run') && Alone(After(INIT, run'), s)
    ensures Changed(After(INIT, run), After(INIT, run'), s, After(INIT, run).sess[s].(pc := SnapLock))
  {
    run' := Go(run, s, Tick);
    assert [id][1..] == [];
    run' := Go(run', s, Tick);
  }

  // A creation of a channel not in the index for one registered agent, up to the mutex of that agent's session.
  lemma Names(run: seq<Action>, s: nat, c: Chan, id: Id) returns (run': seq<Action>)
    requires ValidRun(INIT, run) && Alone(After(INIT, run), s) && After(INIT, run).sess[s].pc == Reading && c != ""
    requires c !in After(INIT, run).index && id in After(INIT, run).agents
    ensures ValidRun(INIT, run') && Alone(After(INIT, run'), s)
    ensures var st, st' := After(INIT, run), After(INIT, run');
            var inbox := st.sess[s].inbox + [Text(c, Created(c, [id]), "")];
            && st'.sess == st.sess[s := st.sess[s].(pc := CreateMark(c, [id], st.agents[id]), inbox := inbox)]
            && st'.agents == st.agents && st'.log == st.log + [Added(c, id)] && st'.index == st.index[c := {id}]
  {
    run' := Opens(run, s, c, [id]);
    run' := Adds(run', s, c, id);
    assert {} + {id} == {id};
  }

  // And the rest of it.
  lemma Pins(run: seq<Action>, s: nat, c: Chan, id: Id, k: nat) returns (run': seq<Action>)
    requires ValidRun(INIT, run) && Alone(After(INIT, run), s) && After(INIT, run).sess[s].pc == CreateMark(c, [id], k)
    requires k < |After(INIT, run).sess| && k != s && |c| >= 12
    ensures ValidRun(INIT, run') && Alone(After(INIT, run'), s)
    ensures var st, st' := After(INIT, run), After(INIT, run');
            && st'.sess == st.sess[k := st.sess[k].(channels := st.sess[k].channels + {c})]
                                  [s := st.sess[s].(pc := SnapLock)]
            && st'.agents == st.agents && st'.index == st.index && st'.log == st.log + [Pinned(c, st.sess[k].id, k)]
  {
    run' := Marks(run, s, c, id, k);
    run' := Completes(run', s, c, id);
  }

  // A session that is the only member of the channel of its last message has nobody to forward it to.
  lemma Snapshots(run: seq<Action>, s: nat, c: Chan) returns (run': seq<Action>)
    requires ValidRun(INIT, run) && Alone(After(INIT, run), s)
    requires After(INIT, run).sess[s].pc == SnapLock && Current(After(INIT, run).sess[s]) == c
    requires c in After(INIT, run).index && After(INIT, run).index[c] == {After(INIT, run).sess[s].id}
    ensures ValidRun(INIT, run') && Alone(After(INIT, run'), s)
    ensures Changed(After(INIT, run), After(INIT, run'), s, After(INIT, run).sess[s].(pc := FwdLock({}, [])))
  {
    run' := Go(run, s, Tick);
    assert Targets(After(INIT, run'), s) == {};
    run' := Go(run', s, Order([]));
  }

  lemma Finishes(run: seq<Action>, s: nat) returns (run': seq<Action>)
    requires ValidRun(INIT, run) && Alone(After(INIT, run), s) && After(INIT, run).sess[s].pc == FwdLock({}, [])
    ensures ValidRun(INIT, run') && Alone(After(INIT, run'), s)
    ensures Changed(After(INIT, run), After(INIT, run'), s, After(INIT, run).sess[s].(pc := Reading))
  {
    run' := Go(run, s, Tick);
    run' := Go(run', s, Tick);
  }

  // The session's socket fails.
  lemma Breaks(run: seq<Action>, s: nat) returns (run': seq<Action>)
    requires ValidRun(INIT, run) && Alone(After(INIT, run), s) && After(INIT, run).sess[s].pc == Reading
    ensures ValidRun(INIT, run') && Alone(After(INIT, run'), s)
    ensures var o := After(INIT, run).sess[s];
            Changed(After(INIT, run), After(INIT, run'), s,
                    if o.done then o.(pc := Dead) else o.(pc := DownAnnounce, done := true))
  {
    run' := Go(run, s, ReadError);
    run' := Go(run', s, Tick);
  }

  lemma Deregisters(run: seq<Action>, s: nat) returns (run': seq<Action>)
    requires ValidRun(INIT, run) && Alone(After(INIT, run), s) && After(INIT, run).sess[s].pc == DownAnnounce
    ensures ValidRun(INIT, run') && Alone(After(INIT, run'), s)
    ensures var st, st' := After(INIT, run), After(INIT, run');
            && st'.sess == st.sess[s := st.sess[s].(pc := DownIndexAnnounce)]
            && st'.index == st.index && st'.log == st.log
  {
    run' := Go(run, s, Tick);
    run' := Go(run', s, Tick);
    run' := Go(run', s, Tick);
  }

  lemma CleansUp(run: seq<Action>, s: nat) returns (run': seq<Action>)
    requires ValidRun(INIT, run) && Alone(After(INIT, run), s)
    requires After(INIT, run).sess[s].pc == DownIndexAnnounce && After(INIT, run).sess[s].channels == {}
    ensures ValidRun(INIT, run') && Alone(After(INIT, run'), s)
    ensures var st, st' := After(INIT, run), After(INIT, run');
            && st'.sess == st.sess[s := st.sess[s].(pc := CountLock(true))]
            && st'.index == st.index && st'.log == st.log + [Cleaned(st.sess[s].id, s)]
  {
    run' := Go(run, s, Tick);
    run' := Go(run', s, Tick);
    run' := Go(run', s, Tick);
  }

  lemma Dies(run: seq<Action>, s: nat) returns (run': seq<Action>)
    requires ValidRun(INIT, run) && Alone(After(INIT, run), s) && After(INIT, run).sess[s].pc == CountLock(true)
    ensures ValidRun(INIT, run') && Alone(After(INIT, run'), s)
    ensures Changed(After(INIT, run), After(INIT, run'), s, After(INIT, run).sess[s].(pc := Dead))
  {
    run' := Go(run, s, Tick);
    run' := Go(run', s, Tick);
  }

  // A session without back-pointers closes its own done and ends.
  lemma Disconnects(run: seq<Action>, s: nat) returns (run': seq<Action>)
    requires ValidRun(INIT, run) && Alone(After(INIT, run), s) && After(INIT, run).sess[s].channels == {}
    requires After(INIT, run).sess[s].pc == Reading && !After(INIT, run).sess[s].done
    ensures ValidRun(INIT, run')
    ensures var st, st' := After(INIT, run), After(INIT, run');
            && st'.sess == st.sess[s := st.sess[s].(pc := Dead, done := true)]
            && st'.index == st.index && st'.log == st.log + [Cleaned(st.sess[s].id, s)]
  {
    run' := Breaks(run, s);
    run' := Deregisters(run', s);
    run' := CleansUp(run', s);
    run' := Dies(run', s);
  }

  // The end of a creation: channelIndexMu is released.
  lemma Closes(run: seq<Action>, s: nat, c: Chan) returns (run': seq<Action>)
    requires ValidRun(INIT, run) && Alone(After(INIT, run), s) && After(INIT, run).sess[s].pc == CreateAdd(c, [])
    requires |c| >= 12
    ensures ValidRun(INIT, run') && Alone(After(INIT, run'), s)
    ensures After(INIT, run').index == After(INIT, run).index && Owners(After(INIT, run').owners, Write(IndexMu)) == {}
  {
    run' := Go(run, s, Tick);
    ReachableInv(run');
    OnlyHolder(After(INIT, run'), s, Write(IndexMu));
  }

  lemma OneAgent(a: Id) returns (run: seq<Action>)
    ensures ValidRun(INIT, run)
    ensures var st := After(INIT, run);
            && st.sess == [Session(a, {}, false, [], [], [], Reading)]
            && st.couriers == [] && st.agents == map[a := 0] && st.index == map[] && st.log == []
  {
    run := Joins([], a);
  }

  lemma TwoAgents(a: Id, b: Id) returns (run: seq<Action>)
    requires a != b
    ensures ValidRun(INIT, run)
    ensures var st := After(INIT, run);
            && |st.sess| == 2 && st.sess[0] == Session(a, {}, false, [], [], [], Reading)
            && st.sess[1] == Session(b, {}, false, [], [], [], Reading)
            && st.couriers == [] && st.agents == map[a := 0, b := 1] && st.index == map[] && st.log == []
  {
    run := OneAgent(a);
    run := Joins(run, b);
  }
}
