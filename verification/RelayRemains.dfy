/** What keeps an ID in a channel, and what remains of it when its sessions have ended. */
module RelayRemains {
  import opened Wrappers
  import opened RelayModel
  import opened RelayLocks
  import opened RelayProgress
  import opened RelaySolo
  import opened RelayIndex

  // ---------------------------------------------------------------- why an ID is in a channel

  // Between adding a named member to the index and settling its back-pointer; channelIndexMu is held throughout.
  predicate Settling(pc: Pc, c: Chan, id: Id) {
    (pc.CreateRLock? || pc.CreateLook? || pc.CreateMark?) && pc.chan == c && pc.todo != [] && pc.todo[0] == id
  }

  // Has session k, which is `o`, cleaned up the index?
  ghost predicate CleanedUp(st: State, k: nat)
    requires k < |st.sess|
  {
    exists i :: 0 <= i < |st.log| && st.log[i] == Cleaned(st.sess[k].id, k)
  }

  // Registered sessions have not begun to clean up, and a session that lost its registration to a newer one never
  // comes back.
  ghost predicate AgentLive(st: State, id: Id) {
    id in st.agents && st.agents[id] < |st.sess| ==>
      var o := st.sess[st.agents[id]];
      Registered(o.pc) && (o.done ==> Closing(o.pc))
  }

  ghost predicate AgentsLive(st: State) {
    && (forall id :: AgentLive(st, id))
    && (forall s :: 0 <= s < |st.sess| && Registering(st.sess[s].pc) ==> !st.sess[s].done)
  }

  // Where a session stands tells whether its cleanup is in the log.
  ghost predicate CleanupLogged(st: State) {
    forall i :: 0 <= i < |st.log| && st.log[i].Cleaned? ==>
      st.log[i].k < |st.sess| && PastCleanup(st.sess[st.log[i].k].pc)
  }

  predicate PastCleanup(pc: Pc) {
    pc.Dead? || ((pc.CountLock? || pc.CountUnlock?) && pc.dying)
  }

  ghost predicate SettlingOk(st: State, s: nat)
    requires s < |st.sess|
  {
    var pc := st.sess[s].pc;
    && (pc.CreateAdd? || pc.CreateRUnlock? ==> pc.chan in st.index)
    && (pc.CreateRLock? || pc.CreateLook? || pc.CreateMark? ==>
          pc.todo != [] && Indexed(st.index, pc.chan, pc.todo[0]))
    && (pc.CreateMark? ==> pc.todo[0] in st.agents && st.agents[pc.todo[0]] == pc.k)
  }

  // Event i pins session k to c, and since then neither has id been taken out of c nor the pin been taken back.
  ghost predicate PinKept(log: seq<Event>, i: nat, c: Chan, id: Id, k: nat) {
    && i < |log| && log[i] == Pinned(c, id, k) && KeptSince(log, i, c, id)
    && forall j :: i < j < |log| ==> !UnpinAt(log[j], c, k)
  }

  ghost predicate PinKeptIn(log: seq<Event>, c: Chan, id: Id, k: nat) {
    exists i: nat :: PinKept(log, i, c, id, k)
  }

  // Session k of this ID keeps id in c: it is pinned there and has not cleaned up.
  ghost predicate Backs(st: State, c: Chan, id: Id, k: nat) {
    k < |st.sess| && st.sess[k].id == id && !CleanedUp(st, k) && PinKeptIn(st.log, c, id, k)
  }

  // Why id is in c: a session that keeps it there, a loose entry, or a creation in progress.
  ghost predicate Accounted(st: State, c: Chan, id: Id) {
    || (exists k: nat :: Backs(st, c, id, k))
    || Stray(st.log, c, id)
    || (exists s :: 0 <= s < |st.sess| && Settling(st.sess[s].pc, c, id))
  }

  // A member is settled, pinned or loose, right after it has been added.
  ghost predicate SettledIsMember(log: seq<Event>) {
    forall i :: 0 <= i < |log| && (log[i].Unclaimed? || log[i].Pinned?) ==> MemberOf(log[..i], log[i].chan, log[i].id)
  }

  ghost predicate AccountInv(st: State) {
    && AgentsLive(st) && CleanupLogged(st) && SettledIsMember(st.log)
    && (forall s :: 0 <= s < |st.sess| ==> SettlingOk(st, s))
    && (forall c, id :: Indexed(st.index, c, id) ==> Accounted(st, c, id))
  }

  lemma IndexFrozen(st: State, a: Action, s: nat)
    requires Inv(st) && Enabled(st, a) && s < |st.sess| && Write(IndexMu) in HeldByHandler(st.sess[s].pc, s)
    requires !Moves(a, s)
    ensures Do(st, a).index == st.index
  {
    assert Owns(st, Handler(s), Write(IndexMu));
    if a.Run? {
      assert !Owns(st, a.t, Write(IndexMu)) && !Owns(st, a.t, Pending(IndexMu));
      assert Write(IndexMu) !in Held(st, a.t) && Pending(IndexMu) !in Held(st, a.t);
    }
  }

  lemma OwnSettling(st: State, s: nat, ch: Choice)
    requires Enabled(st, Run(Handler(s), ch)) && SettlingOk(st, s)
    ensures var pc := HandlerGoto(st, s, ch);
            && (pc.CreateAdd? || pc.CreateRUnlock? ==> pc.chan in IndexAfter(st, s))
            && (pc.CreateRLock? || pc.CreateLook? || pc.CreateMark? ==>
                  pc.todo != [] && Indexed(IndexAfter(st, s), pc.chan, pc.todo[0]))
            && (pc.CreateMark? ==> pc.todo[0] in AgentsAfter(st, s) && AgentsAfter(st, s)[pc.todo[0]] == pc.k)
  {
  }

  lemma SettlingOkStep(st: State, a: Action, s: nat)
    requires Inv(st) && Enabled(st, a) && s < |Do(st, a).sess| && (s < |st.sess| ==> SettlingOk(st, s))
    ensures SettlingOk(Do(st, a), s)
  {
    if s < |st.sess| {
      assert SettlingOk(st, s);
      SessionFrame(st, a, s);
      if Moves(a, s) {
        OwnSettling(st, s, a.c);
        OwnSession(st, s, a.c);
      } else {
        OtherSettling(st, a, s);
      }
    }
  }

  // A creation in progress holds channelIndexMu, and s.mu while it looks at the registry.
  lemma OtherSettling(st: State, a: Action, s: nat)
    requires Inv(st) && Enabled(st, a) && s < |st.sess| && SettlingOk(st, s) && !Moves(a, s)
    ensures SettlingOk(Do(st, a), s)
  {
    SessionFrame(st, a, s);
    var pc := st.sess[s].pc;
    if pc.CreateAdd? || pc.CreateRLock? || pc.CreateLook? || pc.CreateMark? || pc.CreateRUnlock? {
      IndexFrozen(st, a, s);
    }
    if pc.CreateMark? {
      AgentsFrozen(st, a, s);
    }
  }

  lemma DoneAfter(st: State, s: nat, ch: Choice, k: nat)
    requires s < |st.sess| && PcOk(st, s) && k < |st.sess|
    ensures SessionsAfter(st, s, ch)[k].done ==>
              || st.sess[k].done || (k == s && st.sess[s].pc.DownClose?)
              || (st.sess[s].pc.RegBody? && !MeetsClosed(st, s)
                  && st.sess[s].id in st.agents && st.agents[st.sess[s].id] == k)
    ensures k == s ==> SessionsAfter(st, s, ch)[k].pc == HandlerGoto(st, s, ch)
  {
  }

  // Where a handler's step takes it.
  lemma PhaseStep(st: State, s: nat, ch: Choice)
    requires Enabled(st, Run(Handler(s), ch))
    ensures var o := st.sess[s]; var pc' := HandlerGoto(st, s, ch);
            && (Registering(pc') ==> Registering(o.pc))
            && (Registered(o.pc) && !o.pc.DownDeregister? && !(o.pc.DownClose? && o.done) ==> Registered(pc'))
            && (o.pc.RegBody? && !MeetsClosed(st, s) ==> Registered(pc') && !Closing(pc'))
            && (o.pc.DownClose? && !o.done ==> Closing(pc'))
            && (Closing(o.pc) && !o.pc.DownDeregister? && Registered(o.pc) ==> Closing(pc'))
            && (PastCleanup(o.pc) || o.pc.DownClean? ==> PastCleanup(pc'))
  {
  }

  lemma AgentLiveStep(st: State, s: nat, ch: Choice, id: Id)
    requires Inv(st) && AgentsLive(st) && Enabled(st, Run(Handler(s), ch))
    ensures AgentLive(Do(st, Run(Handler(s), ch)), id)
  {
    assert AgentLive(st, id);
    if id in AgentsAfter(st, s) {
      var k := AgentsAfter(st, s)[id];
      DoneAfter(st, s, ch, k);
      PhaseStep(st, s, ch);
      HandlerFrame(st, s, ch, k);
      AgentsOkStep(st, Run(Handler(s), ch), id);
    }
  }

  lemma RegisteringStep(st: State, s: nat, ch: Choice, k: nat)
    requires Inv(st) && AgentsLive(st) && Enabled(st, Run(Handler(s), ch)) && k < |st.sess|
    ensures Registering(SessionsAfter(st, s, ch)[k].pc) ==> !SessionsAfter(st, s, ch)[k].done
  {
    DoneAfter(st, s, ch, k);
    PhaseStep(st, s, ch);
    HandlerFrame(st, s, ch, k);
    assert AgentLive(st, st.sess[s].id);
  }

  lemma AgentsLiveStep(st: State, a: Action)
    requires Inv(st) && AgentsLive(st) && Enabled(st, a)
    ensures AgentsLive(Do(st, a))
  {
    var st' := Do(st, a);
    match a
    case Accept(_) =>
      forall id ensures AgentLive(st', id) {
        assert AgentLive(st, id);
      }
    case Run(Handler(s), ch) =>
      forall id ensures AgentLive(st', id) {
        AgentLiveStep(st, s, ch, id);
      }
      forall k | 0 <= k < |st'.sess| && Registering(st'.sess[k].pc) ensures !st'.sess[k].done {
        RegisteringStep(st, s, ch, k);
      }
    case Run(Courier(_), _) =>
      forall id ensures AgentLive(st', id) {
        assert AgentLive(st, id);
      }
  }

  lemma PastCleanupStays(st: State, a: Action, k: nat)
    requires Enabled(st, a) && k < |st.sess| && PastCleanup(st.sess[k].pc)
    ensures k < |Do(st, a).sess| && PastCleanup(Do(st, a).sess[k].pc)
  {
    SessionFrame(st, a, k);
    if Moves(a, k) {
      PhaseStep(st, k, a.c);
      OwnSession(st, k, a.c);
    }
  }

  lemma CleanupLoggedStep(st: State, a: Action)
    requires CleanupLogged(st) && Enabled(st, a)
    ensures CleanupLogged(Do(st, a))
  {
    var st' := Do(st, a);
    if a.Run? && a.t.Handler? {
      LogAppends(st, a.t.s);
    }
    forall i | 0 <= i < |st'.log| && st'.log[i].Cleaned?
      ensures st'.log[i].k < |st'.sess| && PastCleanup(st'.sess[st'.log[i].k].pc)
    {
      if i < |st.log| {
        assert st'.log[i] == st.log[i];
        PastCleanupStays(st, a, st.log[i].k);
      } else {
        PhaseStep(st, a.t.s, a.c);
        OwnSession(st, a.t.s, a.c);
      }
    }
  }

  lemma SettledIsMemberStep(st: State, a: Action)
    requires WellFormed(st) && AccountInv(st) && RefineInv(st) && Enabled(st, a)
    ensures SettledIsMember(Do(st, a).log)
  {
    var log' := Do(st, a).log;
    if a.Run? && a.t.Handler? {
      var s := a.t.s;
      LogAppends(st, s);
      assert SettlingOk(st, s);
      if st.sess[s].pc.CreateLook? || st.sess[s].pc.CreateMark? {
        assert Indexed(st.index, st.sess[s].pc.chan, st.sess[s].pc.todo[0]);
      }
    }
    forall i | 0 <= i < |log'| && (log'[i].Unclaimed? || log'[i].Pinned?)
      ensures MemberOf(log'[..i], log'[i].chan, log'[i].id)
    {
      assert i <= |st.log| && log'[..i] == st.log[..i];
      assert i == |st.log| ==> st.log[..i] == st.log;
    }
  }

  // ---------------------------------------------------------------- every entry stays accounted for

  lemma PinKeptNext(log: seq<Event>, e: Event, c: Chan, id: Id, k: nat)
    ensures PinKeptIn(log, c, id, k) && !Removes(log, e, c, id) && !UnpinAt(e, c, k) ==> PinKeptIn(log + [e], c, id, k)
    ensures e == Pinned(c, id, k) ==> PinKeptIn(log + [e], c, id, k)
  {
    var log' := log + [e];
    if PinKeptIn(log, c, id, k) && !Removes(log, e, c, id) && !UnpinAt(e, c, k) {
      var i: nat :| PinKept(log, i, c, id, k);
      KeptNext(log, e, i, c, id);
      assert PinKept(log', i, c, id, k);
    }
    if e == Pinned(c, id, k) {
      assert KeptSince(log', |log|, c, id);
      assert PinKept(log', |log|, c, id, k);
    }
  }

  lemma PinKeptIsPinned(log: seq<Event>, c: Chan, id: Id, k: nat)
    requires PinKeptIn(log, c, id, k)
    ensures PinnedBy(log, |log|, c, k)
  {
    var i: nat :| PinKept(log, i, c, id, k);
    assert PinAt(log[i], c, k);
  }

  // One more event, with id still a member: the session keeps it, or its own unpinning leaves it loose.
  lemma BacksNext(log: seq<Event>, e: Event, c: Chan, id: Id, k: nat)
    requires PinKeptIn(log, c, id, k) && MemberOf(log, c, id) && MemberOf(log + [e], c, id)
    requires UnpinAt(e, c, k) ==> e.id == id
    ensures PinKeptIn(log + [e], c, id, k) || Stray(log + [e], c, id)
    ensures e != Cleaned(id, k)
  {
    MemberNext(log, e, c, id);
    PinKeptIsPinned(log, c, id, k);
    PinKeptNext(log, e, c, id, k);
    StrayNext(log, e, c, id);
  }

  lemma AccountedByPin(st: State, a: Action, c: Chan, id: Id, k: nat)
    requires WellFormed(st) && RefineInv(st) && Enabled(st, a) && Backs(st, c, id, k)
    requires Indexed(st.index, c, id) && Indexed(Do(st, a).index, c, id)
    ensures Accounted(Do(st, a), c, id)
  {
    var st' := Do(st, a);
    RefineStep(st, a);
    assert MemberOf(st.log, c, id) && MemberOf(st'.log, c, id);
    SessionFrame(st, a, k);
    if a.Run? && a.t.Handler? {
      LogAppends(st, a.t.s);
      match EventOf(st, a.t.s)
      case None =>
        assert Backs(st', c, id, k);
      case Some(e) =>
        BacksNext(st.log, e, c, id, k);
        assert Stray(st'.log, c, id) || Backs(st', c, id, k);
    } else {
      assert Backs(st', c, id, k);
    }
  }

  lemma CleanedNext(st: State, s: nat, k: nat)
    requires s < |st.sess| && PcOk(st, s) && k < |st.sess| && !CleanedUp(st, k)
    requires !(s == k && st.sess[s].pc.DownClean?)
    ensures forall i :: 0 <= i < |LogAfter(st, s)| ==> LogAfter(st, s)[i] != Cleaned(st.sess[k].id, k)
  {
    LogAppends(st, s);
  }

  lemma AccountedByStray(st: State, a: Action, c: Chan, id: Id)
    requires RefineInv(st) && Enabled(st, a) && Stray(st.log, c, id)
    requires Indexed(st.index, c, id) && Indexed(Do(st, a).index, c, id)
    ensures Accounted(Do(st, a), c, id)
  {
    RefineStep(st, a);
    if a.Run? && a.t.Handler? {
      LogAppends(st, a.t.s);
      match EventOf(st, a.t.s)
      case None =>
      case Some(e) =>
        StrayNext(st.log, e, c, id);
        MemberNext(st.log, e, c, id);
        assert MemberOf(Do(st, a).log, c, id);
    }
  }

  // The creation sets the back-pointer.
  lemma AccountedByMark(st: State, s: nat, ch: Choice, c: Chan, id: Id)
    requires WellFormed(st) && Enabled(st, Run(Handler(s), ch)) && AgentLive(st, id) && CleanupLogged(st)
    requires st.sess[s].pc.CreateMark? && Settling(st.sess[s].pc, c, id) && SettlingOk(st, s)
    ensures Accounted(Do(st, Run(Handler(s), ch)), c, id)
  {
    var k := st.sess[s].pc.k;
    LogAppends(st, s);
    HandlerFrame(st, s, ch, k);
    CleanedNext(st, s, k);
    PinKeptNext(st.log, Pinned(c, id, k), c, id, k);
    assert Backs(Do(st, Run(Handler(s), ch)), c, id, k);
  }

  lemma AccountedBySettling(st: State, a: Action, c: Chan, id: Id, s: nat)
    requires WellFormed(st) && Enabled(st, a) && AgentLive(st, id) && CleanupLogged(st)
    requires s < |st.sess| && Settling(st.sess[s].pc, c, id) && SettlingOk(st, s)
    ensures Accounted(Do(st, a), c, id)
  {
    var st' := Do(st, a);
    SessionFrame(st, a, s);
    if Moves(a, s) && st.sess[s].pc.CreateMark? {
      AccountedByMark(st, s, a.c, c, id);
    } else if Moves(a, s) && st.sess[s].pc.CreateLook? && id !in st.agents {
      LogAppends(st, s);
      StrayNext(st.log, Unclaimed(c, id), c, id);
    } else {
      if Moves(a, s) {
        OwnSession(st, s, a.c);
      }
      assert Settling(st'.sess[s].pc, c, id);
    }
  }

  lemma AccountedStep(st: State, a: Action, c: Chan, id: Id)
    requires Inv(st) && RefineInv(st) && AccountInv(st) && Enabled(st, a) && Indexed(Do(st, a).index, c, id)
    ensures Accounted(Do(st, a), c, id)
  {
    if Indexed(st.index, c, id) {
      assert Accounted(st, c, id);
      if k: nat :| Backs(st, c, id, k) {
        AccountedByPin(st, a, c, id, k);
      } else if Stray(st.log, c, id) {
        AccountedByStray(st, a, c, id);
      } else {
        var s :| 0 <= s < |st.sess| && Settling(st.sess[s].pc, c, id);
        assert SettlingOk(st, s) && AgentLive(st, id);
        AccountedBySettling(st, a, c, id, s);
      }
    } else {
      IndexedAfter(st, a.t.s, c, id);
      OwnSession(st, a.t.s, a.c);
      assert Settling(Do(st, a).sess[a.t.s].pc, c, id);
    }
  }

  lemma AccountInvStep(st: State, a: Action)
    requires Inv(st) && RefineInv(st) && AccountInv(st) && Enabled(st, a)
    ensures AccountInv(Do(st, a))
  {
    AgentsLiveStep(st, a);
    CleanupLoggedStep(st, a);
    SettledIsMemberStep(st, a);
    forall s | 0 <= s < |Do(st, a).sess| ensures SettlingOk(Do(st, a), s) {
      assert s < |st.sess| ==> SettlingOk(st, s);
      SettlingOkStep(st, a, s);
    }
    forall c, id | Indexed(Do(st, a).index, c, id) ensures Accounted(Do(st, a), c, id) {
      AccountedStep(st, a, c, id);
    }
  }

  lemma {:induction false} RunAccounts(st: State, run: seq<Action>)
    requires Inv(st) && RefineInv(st) && AccountInv(st) && ValidRun(st, run)
    ensures Inv(After(st, run)) && RefineInv(After(st, run)) && AccountInv(After(st, run))
    decreases |run|
  {
    if run != [] {
      WellFormedStep(st, run[0]);
      LockInvStep(st, run[0]);
      RefineStep(st, run[0]);
      AccountInvStep(st, run[0]);
      RunAccounts(Do(st, run[0]), run[1..]);
    }
  }

  lemma StrayIsMember(log: seq<Event>, c: Chan, id: Id)
    requires SettledIsMember(log) && Stray(log, c, id)
    ensures MemberOf(log, c, id)
  {
    var i :| 0 <= i < |log| && LooseAt(log, i, c, id) && KeptSince(log, i, c, id);
    assert MemberOf(log[..i], c, id);
    KeepsMember(log, i, c, id);
  }

  lemma {:induction false} KeepsMember(log: seq<Event>, n: nat, c: Chan, id: Id)
    requires n < |log| && MemberOf(log[..n], c, id) && KeptSince(log, n, c, id)
    requires !RemovedAt(log, n, c, id)
    ensures MemberOf(log, c, id)
    decreases |log| - n
  {
    var pre := log[..n];
    assert log[..n + 1] == pre + [log[n]];
    MemberNext(pre, log[n], c, id);
    assert !Removes(pre, log[n], c, id) by {
      if log[n].Cleaned? { PrefixPinned(log, n, c, log[n].k); }
    }
    if n + 1 == |log| {
      assert log[..n + 1] == log;
    } else {
      KeepsMember(log, n + 1, c, id);
    }
  }

  lemma PrefixPinned(log: seq<Event>, n: nat, c: Chan, k: nat)
    requires n <= |log|
    ensures PinnedBy(log[..n], n, c, k) <==> PinnedBy(log, n, c, k)
  {
    assert forall i :: 0 <= i < n ==> log[..n][i] == log[i];
    if PinnedBy(log, n, c, k) {
      var i :| 0 <= i < n && PinAt(log[i], c, k) && forall j :: i < j < n ==> !UnpinAt(log[j], c, k);
      assert PinAt(log[..n][i], c, k);
    }
  }

  lemma PinnedIsMember(log: seq<Event>, c: Chan, id: Id, k: nat)
    requires SettledIsMember(log) && PinKeptIn(log, c, id, k)
    ensures MemberOf(log, c, id)
  {
    var i: nat :| PinKept(log, i, c, id, k);
    assert MemberOf(log[..i], c, id);
    KeepsMember(log, i, c, id);
  }

  // Nobody is between naming id and settling it.
  ghost predicate Settled(st: State, c: Chan, id: Id) {
    forall s :: 0 <= s < |st.sess| ==> !Settling(st.sess[s].pc, c, id)
  }

  lemma NothingYet()
    ensures Inv(INIT) && RefineInv(INIT) && AccountInv(INIT) && SoloInv(INIT) && EndedClean(INIT) && PinInv(INIT)
  {
  }

  lemma ReachableAccounts(run: seq<Action>)
    requires ValidRun(INIT, run)
    ensures RefineInv(After(INIT, run)) && AccountInv(After(INIT, run))
  {
    NothingYet();
    RunAccounts(INIT, run);
  }

  /** Who is a member, in every run: with no creation under way, an ID is in a channel exactly if some session of it is
      pinned there since it was last named and has not cleaned up, or if the last word on it there was loose: it was
      named while unregistered, or named again between the two halves of its own leave. */
  lemma MembersExactly(run: seq<Action>, c: Chan, id: Id)
    requires ValidRun(INIT, run) && Settled(After(INIT, run), c, id)
    ensures var st := After(INIT, run);
            Indexed(st.index, c, id) <==> Stray(st.log, c, id) || exists k: nat :: Backs(st, c, id, k)
  {
    ReachableAccounts(run);
    MembersByAccount(After(INIT, run), c, id);
  }

  lemma MembersByAccount(st: State, c: Chan, id: Id)
    requires RefineInv(st) && AccountInv(st) && Settled(st, c, id)
    ensures Indexed(st.index, c, id) <==> Stray(st.log, c, id) || exists k: nat :: Backs(st, c, id, k)
  {
    assert Indexed(st.index, c, id) <==> MemberOf(st.log, c, id);
    if Indexed(st.index, c, id) {
      assert Accounted(st, c, id);
    }
    if Stray(st.log, c, id) {
      StrayIsMember(st.log, c, id);
    }
    if k: nat :| Backs(st, c, id, k) {
      PinnedIsMember(st.log, c, id, k);
    }
  }

  // ---------------------------------------------------------------- after the last session

  // The step registers another session in the place of session k, which is registered until then, and closes its done.
  predicate Replaces(st: State, a: Action, k: nat) {
    && a.Run? && a.t.Handler? && a.t.s < |st.sess| && a.t.s != k
    && st.sess[a.t.s].pc.RegBody? && !MeetsClosed(st, a.t.s)
    && st.sess[a.t.s].id in st.agents && st.agents[st.sess[a.t.s].id] == k
  }

  ghost predicate ReplacedAt(run: seq<Action>, i: nat, k: nat)
    requires ValidRun(INIT, run)
  {
    i < |run| && Replaces(At(run, i), run[i], k)
  }

  ghost predicate Replaced(run: seq<Action>, n: nat, k: nat)
    requires ValidRun(INIT, run)
  {
    exists i: nat :: i < n && ReplacedAt(run, i, k)
  }

  // Only the registration that replaces a session closes its done before the session does, and only then it ends
  // without cleaning up.
  ghost predicate EndOk(st: State, k: nat, replaced: bool)
    requires k < |st.sess|
  {
    var o := st.sess[k];
    && (o.done ==> Closing(o.pc) || o.pc.Dead? || replaced)
    && (PastCleanup(o.pc) ==> CleanedUp(st, k) || replaced)
  }

  lemma CleanedUpStays(st: State, a: Action, k: nat)
    requires Enabled(st, a) && k < |st.sess| && CleanedUp(st, k)
    ensures k < |Do(st, a).sess| && CleanedUp(Do(st, a), k)
  {
    SessionFrame(st, a, k);
    if a.Run? && a.t.Handler? {
      LogAppends(st, a.t.s);
    }
    var i :| 0 <= i < |st.log| && st.log[i] == Cleaned(st.sess[k].id, k);
    assert Do(st, a).log[i] == st.log[i];
  }

  // How a handler comes to its end.
  lemma EndGoto(st: State, s: nat, ch: Choice)
    requires Enabled(st, Run(Handler(s), ch))
    ensures var o := st.sess[s]; var pc' := HandlerGoto(st, s, ch);
            && (Closing(o.pc) || o.pc.DownClose? || o.pc.Dead? ==> Closing(pc') || pc'.Dead?)
            && (PastCleanup(pc') ==> PastCleanup(o.pc) || o.pc.DownClean? || (o.pc.DownClose? && o.done))
  {
  }

  lemma CleansUp(st: State, s: nat, ch: Choice)
    requires Enabled(st, Run(Handler(s), ch)) && st.sess[s].pc.DownClean?
    ensures CleanedUp(Do(st, Run(Handler(s), ch)), s)
  {
    SessionFrame(st, Run(Handler(s), ch), s);
    assert LogAfter(st, s)[|st.log|] == Cleaned(st.sess[s].id, s);
  }

  // Done is closed by the session itself or by the registration that replaces it.
  lemma DoneBy(st: State, s: nat, ch: Choice, k: nat)
    requires Inv(st) && AgentsLive(st) && Enabled(st, Run(Handler(s), ch)) && k < |st.sess|
    ensures SessionsAfter(st, s, ch)[k].done ==>
              || st.sess[k].done || (k == s && st.sess[s].pc.DownClose?) || Replaces(st, Run(Handler(s), ch), k)
  {
    DoneAfter(st, s, ch, k);
    assert AgentLive(st, st.sess[s].id);
  }

  lemma EndStep(st: State, s: nat, ch: Choice, k: nat, replaced: bool)
    requires Inv(st) && AgentsLive(st) && Enabled(st, Run(Handler(s), ch)) && k < |st.sess| && EndOk(st, k, replaced)
    requires Replaces(st, Run(Handler(s), ch), k) ==> replaced
    ensures EndOk(Do(st, Run(Handler(s), ch)), k, replaced)
  {
    var a := Run(Handler(s), ch);
    SessionFrame(st, a, k);
    DoneBy(st, s, ch, k);
    OwnSession(st, s, ch);
    EndGoto(st, s, ch);
    if CleanedUp(st, k) {
      CleanedUpStays(st, a, k);
    }
    if st.sess[s].pc.DownClean? {
      CleansUp(st, s, ch);
    }
  }

  lemma EndsStep(st: State, a: Action, k: nat, replaced: bool)
    requires Inv(st) && AgentsLive(st) && Enabled(st, a) && k < |Do(st, a).sess|
    requires k < |st.sess| ==> EndOk(st, k, replaced)
    requires Replaces(st, a, k) ==> replaced
    ensures EndOk(Do(st, a), k, replaced)
  {
    if k < |st.sess| {
      if a.Run? && a.t.Handler? {
        EndStep(st, a.t.s, a.c, k, replaced);
      } else {
        SessionFrame(st, a, k);
        if CleanedUp(st, k) {
          CleanedUpStays(st, a, k);
        }
      }
    }
  }

  lemma AtAccounts(run: seq<Action>, n: nat)
    requires ValidRun(INIT, run) && n <= |run|
    ensures RefineInv(At(run, n)) && AccountInv(At(run, n))
  {
    PrefixRuns(INIT, run, n);
    ReachableAccounts(run[..n]);
  }

  lemma EndMore(st: State, k: nat, replaced: bool, later: bool)
    requires k < |st.sess| && EndOk(st, k, replaced) && (replaced ==> later)
    ensures EndOk(st, k, later)
  {
  }

  lemma {:induction false} EndsWell(run: seq<Action>, n: nat, k: nat)
    requires ValidRun(INIT, run) && n <= |run| && k < |At(run, n).sess|
    ensures EndOk(At(run, n), k, Replaced(run, n, k))
  {
    AtEnds(run);
    if n > 0 {
      var st := At(run, n - 1);
      AtNext(run, n - 1);
      AtInv(run, n - 1);
      AtAccounts(run, n - 1);
      if k < |st.sess| {
        EndsWell(run, n - 1, k);
        EndMore(st, k, Replaced(run, n - 1, k), Replaced(run, n, k));
      }
      assert Replaces(st, run[n - 1], k) ==> ReplacedAt(run, n - 1, k);
      EndsStep(st, run[n - 1], k, Replaced(run, n, k));
    }
  }

  ghost predicate AllDead(st: State, id: Id) {
    forall k :: 0 <= k < |st.sess| && st.sess[k].id == id ==> st.sess[k].pc.Dead?
  }

  // Session k was replaced by the registration of another session and so ended without cleaning up, while it was
  // pinned to c.
  ghost predicate Orphan(run: seq<Action>, c: Chan, id: Id, k: nat)
    requires ValidRun(INIT, run)
  {
    Backs(After(INIT, run), c, id, k) && After(INIT, run).sess[k].pc.Dead? && exists i: nat :: ReplacedAt(run, i, k)
  }

  /** What remains, in every run, when all sessions of an ID have ended and no creation is under way: the ID is in a
      channel exactly if the last word on it there was loose, or if a session pinned there was replaced by the
      registration of another one and so ended without cleaning up. */
  lemma RemainsExactly(run: seq<Action>, c: Chan, id: Id)
    requires ValidRun(INIT, run) && AllDead(After(INIT, run), id) && Settled(After(INIT, run), c, id)
    ensures var st := After(INIT, run);
            Indexed(st.index, c, id) <==> Stray(st.log, c, id) || exists k: nat :: Orphan(run, c, id, k)
  {
    MembersExactly(run, c, id);
    forall k: nat
      ensures Backs(After(INIT, run), c, id, k) <==> Orphan(run, c, id, k)
    {
      BacksMeansOrphan(run, c, id, k);
    }
  }

  lemma BacksMeansOrphan(run: seq<Action>, c: Chan, id: Id, k: nat)
    requires ValidRun(INIT, run) && AllDead(After(INIT, run), id)
    ensures Backs(After(INIT, run), c, id, k) <==> Orphan(run, c, id, k)
  {
    AtEnds(run);
    if Backs(After(INIT, run), c, id, k) {
      EndsWell(run, |run|, k);
    }
  }

  ghost predicate EndedClean(st: State) {
    forall k :: 0 <= k < |st.sess| && PastCleanup(st.sess[k].pc) ==> CleanedUp(st, k)
  }

  lemma EndedCleanStep(st: State, a: Action)
    requires Inv(st) && SoloInv(st) && EndedClean(st) && Enabled(st, a)
    ensures EndedClean(Do(st, a))
  {
    forall k | 0 <= k < |Do(st, a).sess| && PastCleanup(Do(st, a).sess[k].pc)
      ensures CleanedUp(Do(st, a), k)
    {
      if k < |st.sess| {
        SessionFrame(st, a, k);
        assert SessionOk(st, k);
        if Moves(a, k) {
          EndGoto(st, k, a.c);
          OwnSession(st, k, a.c);
        }
        if PastCleanup(st.sess[k].pc) {
          CleanedUpStays(st, a, k);
        } else {
          CleansUp(st, k, a.c);
        }
      }
    }
  }

  lemma {:induction false} PoliteRunEndsClean(st: State, run: seq<Action>)
    requires Inv(st) && SoloInv(st) && EndedClean(st) && ValidRun(st, run) && PoliteRun(st, run)
    ensures EndedClean(After(st, run))
    decreases |run|
  {
    if run != [] {
      WellFormedStep(st, run[0]);
      LockInvStep(st, run[0]);
      SoloInvStep(st, run[0]);
      EndedCleanStep(st, run[0]);
      PoliteRunEndsClean(Do(st, run[0]), run[1..]);
    }
  }

  /** With one live session per ID, when all sessions of an ID have ended and no creation is under way, the ID is in a
      channel exactly if the last word on it there was loose: it was named while unregistered, or named again between
      the two halves of its own leave. */
  lemma OnlyStraysRemain(run: seq<Action>, c: Chan, id: Id)
    requires ValidRun(INIT, run) && PoliteRun(INIT, run)
    requires AllDead(After(INIT, run), id) && Settled(After(INIT, run), c, id)
    ensures c in After(INIT, run).index && id in After(INIT, run).index[c] <==> Stray(After(INIT, run).log, c, id)
  {
    MembersExactly(run, c, id);
    NothingYet();
    PoliteRunEndsClean(INIT, run);
    var st := After(INIT, run);
    forall k: nat
      ensures !Backs(st, c, id, k)
    {
      assert k < |st.sess| && st.sess[k].id == id ==> PastCleanup(st.sess[k].pc);
    }
  }

  // ---------------------------------------------------------------- back-pointers

  predicate InLeaveGap(pc: Pc, c: Chan) {
    (pc.LeaveLock? || pc.LeaveUnpin?) && pc.chan == c
  }

  ghost predicate PinOk(st: State, k: nat, c: Chan)
    requires k < |st.sess|
  {
    c in st.sess[k].channels ==>
      InLeaveGap(st.sess[k].pc, c) || PastCleanup(st.sess[k].pc) || Indexed(st.index, c, st.sess[k].id)
  }

  ghost predicate PinInv(st: State) {
    forall k, c :: 0 <= k < |st.sess| ==> PinOk(st, k, c)
  }

  lemma GapStep(st: State, s: nat, ch: Choice, c: Chan)
    requires Enabled(st, Run(Handler(s), ch)) && InLeaveGap(st.sess[s].pc, c)
    ensures InLeaveGap(HandlerGoto(st, s, ch), c) || c !in SessionsAfter(st, s, ch)[s].channels
  {
  }

  lemma PinOkStep(st: State, a: Action, k: nat, c: Chan)
    requires WellFormed(st) && OneLive(st) && Enabled(st, a) && k < |st.sess| && PinOk(st, k, c)
    requires a.Run? && a.t.Handler? ==> SettlingOk(st, a.t.s)
    ensures PinOk(Do(st, a), k, c)
  {
    SessionFrame(st, a, k);
    if a.Run? && a.t.Handler? {
      var s := a.t.s;
      ChannelsAfter(st, s, a.c, k);
      IndexedAfter(st, s, c, st.sess[k].id);
      PhaseStep(st, s, a.c);
      OwnSession(st, s, a.c);
      assert st.sess[s].id == st.sess[k].id && s != k && !st.sess[s].pc.Dead? ==> st.sess[k].pc.Dead? by {
        assert SameLiveId(st.sess[s], st.sess[k]) ==> s == k;
      }
      if s == k && InLeaveGap(st.sess[k].pc, c) {
        GapStep(st, s, a.c, c);
      }
    }
  }

  lemma PinInvStep(st: State, a: Action)
    requires Inv(st) && SoloInv(st) && AccountInv(st) && PinInv(st) && Enabled(st, a)
    ensures PinInv(Do(st, a))
  {
    forall k, c | 0 <= k < |Do(st, a).sess| ensures PinOk(Do(st, a), k, c) {
      if k < |st.sess| {
        assert PinOk(st, k, c);
        PinOkStep(st, a, k, c);
      }
    }
  }

  lemma {:induction false} PoliteRunPins(st: State, run: seq<Action>)
    requires Inv(st) && SoloInv(st) && RefineInv(st) && AccountInv(st) && PinInv(st)
    requires ValidRun(st, run) && PoliteRun(st, run)
    ensures PinInv(After(st, run))
    decreases |run|
  {
    if run != [] {
      WellFormedStep(st, run[0]);
      LockInvStep(st, run[0]);
      SoloInvStep(st, run[0]);
      RefineStep(st, run[0]);
      AccountInvStep(st, run[0]);
      PinInvStep(st, run[0]);
      PoliteRunPins(Do(st, run[0]), run[1..]);
    }
  }

  /** With one live session per ID, outside the gap between the two halves of a leave every back-pointer of a session
      that has yet to clean up has its index entry. */
  lemma BackPointersAreIndexed(run: seq<Action>, k: nat, c: Chan)
    requires ValidRun(INIT, run) && PoliteRun(INIT, run) && k < |After(INIT, run).sess|
    requires c in After(INIT, run).sess[k].channels
    requires !InLeaveGap(After(INIT, run).sess[k].pc, c) && !PastCleanup(After(INIT, run).sess[k].pc)
    ensures c in After(INIT, run).index && After(INIT, run).sess[k].id in After(INIT, run).index[c]
  {
    NothingYet();
    PoliteRunPins(INIT, run);
    assert PinOk(After(INIT, run), k, c);
  }
}
