/** Nothing that is read is passed over: every message with a channel gets its write to the index, its snapshot and its
    walk through the snapshot, each once, before the next message is read. */
module RelayHandled {
  import opened RelayModel
  import opened RelayLocks
  import opened RelayProgress
  import opened RelayMembers
  import opened RelayHand
  import opened RelayFold

  // ---------------------------------------------------------------- the steps of one message

  // Step m is a step of session s, and its num-th message is the last one it has read.
  ghost predicate StepFor(run: seq<Action>, m: nat, s: nat, num: int)
    requires ValidRun(INIT, run)
  {
    m < |run| && Moves(run[m], s) && s < |At(run, m).sess| && |At(run, m).sess[s].inbox| - 1 == num
  }

  // Step m releases the index after the write that this message asks for.
  ghost predicate CommitAt(run: seq<Action>, m: nat, s: nat, num: int)
    requires ValidRun(INIT, run)
  {
    StepFor(run, m, s, num) && Commits(At(run, m), run[m]) && Handling(At(run, m).sess[s].pc)
  }

  // Step m is the snapshot for this message.
  ghost predicate SnapAt(run: seq<Action>, m: nat, s: nat, num: int)
    requires ValidRun(INIT, run)
  {
    StepFor(run, m, s, num) && At(run, m).sess[s].pc.SnapTake?
  }

  ghost predicate Known(st: State, s: nat)
    requires s < |st.sess|
  {
    Current(st.sess[s]) in st.index
  }

  // After j steps the handler has gone through all of this snapshot.
  ghost predicate WalkedAt(run: seq<Action>, j: nat, s: nat, num: int, snap: set<Id>)
    requires ValidRun(INIT, run)
  {
    && j <= |run| && s < |At(run, j).sess| && |At(run, j).sess[s].inbox| - 1 == num
    && At(run, j).sess[s].pc == FwdLoop(snap, [])
  }

  ghost predicate Committed(run: seq<Action>, n: nat, s: nat, num: int)
    requires ValidRun(INIT, run)
  {
    exists m: nat :: m < n && CommitAt(run, m, s, num)
  }

  // The snapshot at step m has been gone through by step n, unless the channel was unknown.
  ghost predicate SnapServed(run: seq<Action>, n: nat, s: nat, num: int, m: nat)
    requires ValidRun(INIT, run)
  {
    && m < n && SnapAt(run, m, s, num)
    && (Known(At(run, m), s) ==> exists j: nat :: m < j < n && WalkedAt(run, j, s, num, Targets(At(run, m), s)))
  }

  ghost predicate Forwarded(run: seq<Action>, n: nat, s: nat, num: int)
    requires ValidRun(INIT, run)
  {
    exists m: nat :: SnapServed(run, n, s, num, m)
  }

  // The handler's plan is the snapshot of step m for the message in hand.
  ghost predicate PlannedAt(run: seq<Action>, n: nat, s: nat, m: nat)
    requires ValidRun(INIT, run) && n <= |run| && s < |At(run, n).sess|
  {
    var o := At(run, n).sess[s];
    && m < n && Forwards(o.pc) && SnapAt(run, m, s, |o.inbox| - 1) && Known(At(run, m), s)
    && o.pc.snap == Targets(At(run, m), s)
  }

  ghost predicate Planned(run: seq<Action>, n: nat, s: nat)
    requires ValidRun(INIT, run) && n <= |run| && s < |At(run, n).sess|
  {
    exists m: nat :: PlannedAt(run, n, s, m)
  }

  // ---------------------------------------------------------------- where a message stands

  // Past the write that a message asks for.
  predicate AfterWrite(pc: Pc) {
    pc.LeaveLock? || pc.LeaveUnpin? || Forwarding(pc)
  }

  predicate Ending(pc: Pc) {
    || pc.DownClose? || pc.DownAnnounce? || pc.DownAcquire? || pc.DownDeregister?
    || pc.DownIndexAnnounce? || pc.DownIndexAcquire? || pc.DownClean?
    || ((pc.CountLock? || pc.CountUnlock?) && pc.dying) || pc.Dead?
  }

  // A creation whose channel ID is too short for the log line after it: the handler panics.
  predicate Panics(msg: Msg) {
    msg.Text? && msg.chan != "" && msg.event.Created? && |msg.event.chan| < 12
  }

  // What has been done for the message in hand, by the handler's control point.
  predicate StageOk(o: Session, committed: bool, planned: bool, forwarded: bool) {
    && (AfterWrite(o.pc) ==> o.inbox != [] && (EventIn(Hand(o)) != NoEvent ==> committed))
    && (Forwards(o.pc) ==> planned)
    && ((o.pc.Reading? || Ending(o.pc)) && o.inbox != [] && Route(Hand(o)) != "" ==>
          && (EventIn(Hand(o)) != NoEvent ==> committed)
          && (forwarded || (Ending(o.pc) && Panics(Hand(o)))))
  }

  lemma StageReads(o: Session, msg: Msg, c: bool, p: bool, f: bool)
    ensures StageOk(o.(inbox := o.inbox + [msg], pc := Dispatch(msg)), c, p, f)
  {
  }

  // One step of the handler, with what it does for the message in hand.
  lemma StageGoes(st: State, s: nat, ch: Choice, c: bool, p: bool, f: bool, c': bool, p': bool, f': bool)
    requires Enabled(st, Run(Handler(s), ch)) && !(st.sess[s].pc.Reading? && ch.Recv?)
    requires HandOk(st.sess[s]) && StageOk(st.sess[s], c, p, f)
    requires (c ==> c') && (f ==> f')
    requires Commits(st, Run(Handler(s), ch)) && Handling(st.sess[s].pc) ==> c'
    requires st.sess[s].pc.SnapTake? ==> if Known(st, s) then p' else f'
    requires Forwards(st.sess[s].pc) ==> if st.sess[s].pc.FwdLoop? && st.sess[s].pc.todo == [] then f' else p'
    ensures StageOk(st.sess[s].(pc := HandlerGoto(st, s, ch)), c', p', f')
  {
    if Creating(st.sess[s].pc) {
      HandCreates(st.sess[s]);
      StageCreates(st, s, ch, c', p', f');
    } else if Handling(st.sess[s].pc) {
      StageForwards(st, s, ch, c, p, f, c', p', f');
    } else {
      StageElse(st, s, ch, c, p, f, c', p', f');
    }
  }

  lemma CreationEnds(st: State, s: nat, ch: Choice)
    requires s < |st.sess| && PcOk(st, s) && Creating(st.sess[s].pc)
    ensures var pc' := HandlerGoto(st, s, ch);
            || Creating(pc')
            || (Commits(st, Run(Handler(s), ch)) && Adding(st.sess[s].pc) && pc' == AfterCreate(st.sess[s].pc.chan))
  {
  }

  // The message in hand is the creation under way.
  predicate CreatesHand(o: Session) {
    o.inbox != [] && (Adding(o.pc) ==> EventIn(Hand(o)).Created? && EventIn(Hand(o)).chan == o.pc.chan)
  }

  lemma HandCreates(o: Session)
    requires HandOk(o) && Creating(o.pc)
    ensures CreatesHand(o)
  {
  }

  lemma StageCreates(st: State, s: nat, ch: Choice, c': bool, p': bool, f': bool)
    requires Enabled(st, Run(Handler(s), ch)) && Creating(st.sess[s].pc) && CreatesHand(st.sess[s])
    requires Commits(st, Run(Handler(s), ch)) ==> c'
    ensures StageOk(st.sess[s].(pc := HandlerGoto(st, s, ch)), c', p', f')
  {
    CreationEnds(st, s, ch);
  }

  lemma StageForwards(st: State, s: nat, ch: Choice, c: bool, p: bool, f: bool, c': bool, p': bool, f': bool)
    requires Enabled(st, Run(Handler(s), ch)) && Handling(st.sess[s].pc) && !Creating(st.sess[s].pc)
    requires HandOk(st.sess[s]) && StageOk(st.sess[s], c, p, f) && (c ==> c') && (f ==> f')
    requires Commits(st, Run(Handler(s), ch)) ==> c'
    requires st.sess[s].pc.SnapTake? ==> if Known(st, s) then p' else f'
    requires Forwards(st.sess[s].pc) ==> if st.sess[s].pc.FwdLoop? && st.sess[s].pc.todo == [] then f' else p'
    ensures StageOk(st.sess[s].(pc := HandlerGoto(st, s, ch)), c', p', f')
  {
  }

  lemma StageElse(st: State, s: nat, ch: Choice, c: bool, p: bool, f: bool, c': bool, p': bool, f': bool)
    requires Enabled(st, Run(Handler(s), ch)) && !Handling(st.sess[s].pc)
    requires !(st.sess[s].pc.Reading? && ch.Recv?)
    requires HandOk(st.sess[s]) && StageOk(st.sess[s], c, p, f) && (c ==> c') && (f ==> f')
    ensures StageOk(st.sess[s].(pc := HandlerGoto(st, s, ch)), c', p', f')
  {
  }

  // ---------------------------------------------------------------- over whole runs

  lemma CommittedStays(run: seq<Action>, n: nat, s: nat, num: int)
    requires ValidRun(INIT, run)
    ensures Committed(run, n, s, num) || CommitAt(run, n, s, num) ==> Committed(run, n + 1, s, num)
  {
  }

  lemma SnapServedStays(run: seq<Action>, n: nat, s: nat, num: int, m: nat)
    requires ValidRun(INIT, run) && SnapServed(run, n, s, num, m)
    ensures SnapServed(run, n + 1, s, num, m)
  {
  }

  lemma ForwardedStays(run: seq<Action>, n: nat, s: nat, num: int)
    requires ValidRun(INIT, run)
    ensures Forwarded(run, n, s, num) ==> Forwarded(run, n + 1, s, num)
    ensures SnapAt(run, n, s, num) && !Known(At(run, n), s) ==> Forwarded(run, n + 1, s, num)
  {
    if Forwarded(run, n, s, num) {
      var m: nat :| SnapServed(run, n, s, num, m);
      SnapServedStays(run, n, s, num, m);
    }
    if SnapAt(run, n, s, num) && !Known(At(run, n), s) {
      assert SnapServed(run, n + 1, s, num, n);
    }
  }

  // A handler that has gone through its plan has served the message.
  lemma PlanServed(run: seq<Action>, n: nat, s: nat)
    requires ValidRun(INIT, run) && n < |run| && s < |At(run, n).sess| && Planned(run, n, s)
    requires At(run, n).sess[s].pc.FwdLoop? && At(run, n).sess[s].pc.todo == []
    ensures Forwarded(run, n + 1, s, |At(run, n).sess[s].inbox| - 1)
  {
    var m: nat :| PlannedAt(run, n, s, m);
    var num := |At(run, n).sess[s].inbox| - 1;
    assert WalkedAt(run, n, s, num, Targets(At(run, m), s));
    assert SnapServed(run, n + 1, s, num, m);
  }

  // Where forwarding goes, the plan stays.
  lemma PlanKeeps(st: State, s: nat, ch: Choice)
    requires Enabled(st, Run(Handler(s), ch)) && Forwards(HandlerGoto(st, s, ch))
    ensures var o := st.sess[s]; var pc' := HandlerGoto(st, s, ch);
            if o.pc.SnapTake? then Known(st, s) && pc'.snap == Targets(st, s)
            else Forwards(o.pc) && pc'.snap == o.pc.snap
  {
  }

  lemma PlannedStays(run: seq<Action>, n: nat, s: nat)
    requires ValidRun(INIT, run) && n < |run| && s < |At(run, n).sess| && s < |At(run, n + 1).sess|
    requires Moves(run[n], s) && Forwards(At(run, n + 1).sess[s].pc)
    requires Forwards(At(run, n).sess[s].pc) ==> Planned(run, n, s)
    ensures Planned(run, n + 1, s)
  {
    PlanStays(run, n, s);
    if At(run, n).sess[s].pc.SnapTake? {
      assert PlannedAt(run, n + 1, s, n);
    } else {
      var m: nat :| PlannedAt(run, n, s, m);
      assert PlannedAt(run, n + 1, s, m);
    }
  }

  lemma PlanStays(run: seq<Action>, n: nat, s: nat)
    requires ValidRun(INIT, run) && n < |run| && s < |At(run, n).sess| && s < |At(run, n + 1).sess|
    requires Moves(run[n], s) && Forwards(At(run, n + 1).sess[s].pc)
    ensures var st := At(run, n); var o, o' := st.sess[s], At(run, n + 1).sess[s];
            && o'.inbox == o.inbox
            && if o.pc.SnapTake? then Known(st, s) && o'.pc.snap == Targets(st, s)
               else Forwards(o.pc) && o'.pc.snap == o.pc.snap
  {
    AtNext(run, n);
    OwnSession(At(run, n), s, run[n].c);
    PlanKeeps(At(run, n), s, run[n].c);
  }

  ghost predicate Stage(run: seq<Action>, n: nat, s: nat)
    requires ValidRun(INIT, run) && n <= |run| && s < |At(run, n).sess|
  {
    var o := At(run, n).sess[s];
    var num := |o.inbox| - 1;
    StageOk(o, Committed(run, n, s, num), Planned(run, n, s), Forwarded(run, n, s, num))
  }

  lemma OwnStage(run: seq<Action>, n: nat, s: nat)
    requires ValidRun(INIT, run) && n < |run| && s < |At(run, n).sess| && s < |At(run, n + 1).sess|
    requires Moves(run[n], s) && Stage(run, n, s)
    ensures Stage(run, n + 1, s)
  {
    if At(run, n).sess[s].pc.Reading? && run[n].c.Recv? {
      OwnStageReads(run, n, s);
    } else {
      OwnStageGoes(run, n, s);
    }
  }

  lemma OwnStageReads(run: seq<Action>, n: nat, s: nat)
    requires ValidRun(INIT, run) && n < |run| && s < |At(run, n).sess| && s < |At(run, n + 1).sess|
    requires Moves(run[n], s) && At(run, n).sess[s].pc.Reading? && run[n].c.Recv?
    ensures Stage(run, n + 1, s)
  {
    var o, o', msg := At(run, n).sess[s], At(run, n + 1).sess[s], run[n].c.msg;
    var num := |o'.inbox| - 1;
    var c, p, f := Committed(run, n + 1, s, num), Planned(run, n + 1, s), Forwarded(run, n + 1, s, num);
    AtNext(run, n);
    OwnSession(At(run, n), s, run[n].c);
    StageReads(o, msg, c, p, f);
    StageAlike(o.(inbox := o.inbox + [msg], pc := Dispatch(msg)), o', c, p, f);
  }

  lemma StageAlike(o: Session, o': Session, c: bool, p: bool, f: bool)
    requires StageOk(o, c, p, f) && o'.pc == o.pc && o'.inbox == o.inbox
    ensures StageOk(o', c, p, f)
  {
  }

  lemma OwnStageGoes(run: seq<Action>, n: nat, s: nat)
    requires ValidRun(INIT, run) && n < |run| && s < |At(run, n).sess| && s < |At(run, n + 1).sess|
    requires Moves(run[n], s) && Stage(run, n, s)
    requires !(At(run, n).sess[s].pc.Reading? && run[n].c.Recv?)
    ensures Stage(run, n + 1, s)
  {
    var num := |At(run, n).sess[s].inbox| - 1;
    FactsGo(run, n, s);
    StageOwnAt(run, n, s, Committed(run, n + 1, s, num), Planned(run, n + 1, s), Forwarded(run, n + 1, s, num));
    assert |At(run, n + 1).sess[s].inbox| - 1 == num;
  }

  lemma StageOwnAt(run: seq<Action>, n: nat, s: nat, c': bool, p': bool, f': bool)
    requires ValidRun(INIT, run) && n < |run| && s < |At(run, n).sess| && s < |At(run, n + 1).sess|
    requires Moves(run[n], s) && Stage(run, n, s)
    requires !(At(run, n).sess[s].pc.Reading? && run[n].c.Recv?)
    requires var st := At(run, n); var o := st.sess[s]; var num := |o.inbox| - 1;
             && (Committed(run, n, s, num) || (Commits(st, run[n]) && Handling(o.pc)) ==> c')
             && (Forwarded(run, n, s, num) || (o.pc.SnapTake? && !Known(st, s)) || (o.pc.FwdLoop? && o.pc.todo == [])
                 ==> f')
    requires Forwards(At(run, n + 1).sess[s].pc) ==> p'
    ensures At(run, n + 1).sess[s].inbox == At(run, n).sess[s].inbox && StageOk(At(run, n + 1).sess[s], c', p', f')
  {
    var num := |At(run, n).sess[s].inbox| - 1;
    OwnAt(run, n, s);
    HandAt(run, n, s);
    StageOwn(At(run, n), s, run[n].c, Committed(run, n, s, num), Planned(run, n, s), Forwarded(run, n, s, num),
             c', p', f');
  }

  lemma OwnAt(run: seq<Action>, n: nat, s: nat)
    requires ValidRun(INIT, run) && n < |run| && s < |At(run, n).sess| && Moves(run[n], s)
    ensures run[n] == Run(Handler(s), run[n].c) && Enabled(At(run, n), run[n])
    ensures s < |At(run, n + 1).sess| && At(run, n + 1).sess[s] == SessionsAfter(At(run, n), s, run[n].c)[s]
  {
    AtNext(run, n);
  }

  lemma HandAt(run: seq<Action>, n: nat, s: nat)
    requires ValidRun(INIT, run) && n <= |run| && s < |At(run, n).sess|
    ensures HandOk(At(run, n).sess[s])
  {
    AtHand(run, n);
  }

  lemma StageOwn(st: State, s: nat, ch: Choice, c: bool, p: bool, f: bool, c': bool, p': bool, f': bool)
    requires Enabled(st, Run(Handler(s), ch)) && !(st.sess[s].pc.Reading? && ch.Recv?)
    requires HandOk(st.sess[s]) && StageOk(st.sess[s], c, p, f)
    requires var pc := st.sess[s].pc;
             && (c || (Commits(st, Run(Handler(s), ch)) && Handling(pc)) ==> c')
             && (f || (pc.SnapTake? && !Known(st, s)) || (pc.FwdLoop? && pc.todo == []) ==> f')
    requires Forwards(SessionsAfter(st, s, ch)[s].pc) ==> p'
    ensures SessionsAfter(st, s, ch)[s].inbox == st.sess[s].inbox && StageOk(SessionsAfter(st, s, ch)[s], c', p', f')
  {
    OwnSession(st, s, ch);
    var pc' := HandlerGoto(st, s, ch);
    StageGoes(st, s, ch, c, p, f, c', Forwards(pc') ==> p', f');
    StageAlike(st.sess[s].(pc := pc'), SessionsAfter(st, s, ch)[s], c', p', f');
  }

  // What the handler's own step adds to the facts about its message.
  lemma FactsGo(run: seq<Action>, n: nat, s: nat)
    requires ValidRun(INIT, run) && n < |run| && s < |At(run, n).sess| && s < |At(run, n + 1).sess|
    requires Moves(run[n], s) && Stage(run, n, s)
    ensures var st := At(run, n); var o := st.sess[s]; var num := |o.inbox| - 1;
            && (Committed(run, n, s, num) || (Commits(st, run[n]) && Handling(o.pc)) ==> Committed(run, n + 1, s, num))
            && (Forwarded(run, n, s, num) || (o.pc.SnapTake? && !Known(st, s)) || (o.pc.FwdLoop? && o.pc.todo == [])
                ==> Forwarded(run, n + 1, s, num))
            && (Forwards(At(run, n + 1).sess[s].pc) ==> Planned(run, n + 1, s))
  {
    var o := At(run, n).sess[s];
    CommittedStays(run, n, s, |o.inbox| - 1);
    ForwardedStays(run, n, s, |o.inbox| - 1);
    if o.pc.FwdLoop? && o.pc.todo == [] {
      PlanServed(run, n, s);
    }
    if Forwards(At(run, n + 1).sess[s].pc) {
      PlannedStays(run, n, s);
    }
  }

  lemma PlannedElse(run: seq<Action>, n: nat, s: nat)
    requires ValidRun(INIT, run) && n < |run| && s < |At(run, n).sess| && s < |At(run, n + 1).sess|
    requires At(run, n + 1).sess[s].pc == At(run, n).sess[s].pc
    requires At(run, n + 1).sess[s].inbox == At(run, n).sess[s].inbox
    ensures Planned(run, n, s) ==> Planned(run, n + 1, s)
  {
    if Planned(run, n, s) {
      var m: nat :| PlannedAt(run, n, s, m);
      assert PlannedAt(run, n + 1, s, m);
    }
  }

  lemma OtherStage(run: seq<Action>, n: nat, s: nat)
    requires ValidRun(INIT, run) && n < |run| && s < |At(run, n).sess| && s < |At(run, n + 1).sess|
    requires !Moves(run[n], s) && Stage(run, n, s)
    ensures Stage(run, n + 1, s)
  {
    var o, o' := At(run, n).sess[s], At(run, n + 1).sess[s];
    var num := |o.inbox| - 1;
    AtNext(run, n);
    SessionFrame(At(run, n), run[n], s);
    CommittedStays(run, n, s, num);
    ForwardedStays(run, n, s, num);
    PlannedElse(run, n, s);
    StageAlike(o, o', Committed(run, n, s, num), Planned(run, n, s), Forwarded(run, n, s, num));
  }

  lemma {:induction false} AtStage(run: seq<Action>, n: nat, s: nat)
    requires ValidRun(INIT, run) && n <= |run| && s < |At(run, n).sess|
    ensures Stage(run, n, s)
  {
    AtEnds(run);
    if n > 0 {
      var m := n - 1;
      AtNext(run, m);
      if s < |At(run, m).sess| {
        AtStage(run, m, s);
        if Moves(run[m], s) {
          OwnStage(run, m, s);
        } else {
          OtherStage(run, m, s);
        }
      } else {
        assert At(run, n).sess[s].pc == RegAnnounce && At(run, n).sess[s].inbox == [];
      }
    }
  }

  // ---------------------------------------------------------------- every message

  // The write and the walk that the num-th message of session s asks for have been done by step n.
  ghost predicate Done(run: seq<Action>, n: nat, s: nat, num: nat)
    requires ValidRun(INIT, run) && n <= |run| && s < |At(run, n).sess| && num < |At(run, n).sess[s].inbox|
  {
    var msg := At(run, n).sess[s].inbox[num];
    Route(msg) != "" ==> (EventIn(msg) != NoEvent ==> Committed(run, n, s, num)) && Forwarded(run, n, s, num)
  }

  lemma DoneStays(run: seq<Action>, n: nat, s: nat, num: nat)
    requires ValidRun(INIT, run) && n < |run| && s < |At(run, n).sess| && num < |At(run, n).sess[s].inbox|
    requires Done(run, n, s, num)
    ensures s < |At(run, n + 1).sess| && num < |At(run, n + 1).sess[s].inbox| && Done(run, n + 1, s, num)
  {
    AtNext(run, n);
    SessionFrame(At(run, n), run[n], s);
    CommittedStays(run, n, s, num);
    ForwardedStays(run, n, s, num);
  }

  // When the next message is read, or the handler has come back to its loop.
  lemma LastDone(run: seq<Action>, n: nat, s: nat)
    requires ValidRun(INIT, run) && n <= |run| && s < |At(run, n).sess|
    requires At(run, n).sess[s].inbox != [] && At(run, n).sess[s].pc.Reading?
    ensures Done(run, n, s, |At(run, n).sess[s].inbox| - 1)
  {
    AtStage(run, n, s);
  }

  lemma {:induction false} EarlierDone(run: seq<Action>, n: nat, s: nat, num: nat)
    requires ValidRun(INIT, run) && n <= |run| && s < |At(run, n).sess| && num + 1 < |At(run, n).sess[s].inbox|
    ensures Done(run, n, s, num)
  {
    AtEnds(run);
    if n > 0 {
      var m := n - 1;
      AtNext(run, m);
      if s < |At(run, m).sess| {
        InboxNext(At(run, m), run[m], s);
        if num + 1 < |At(run, m).sess[s].inbox| {
          EarlierDone(run, m, s, num);
        } else {
          LastDone(run, m, s);
        }
        DoneStays(run, m, s, num);
      }
    }
  }

  lemma InboxNext(st: State, a: Action, s: nat)
    requires Enabled(st, a) && s < |st.sess|
    ensures s < |Do(st, a).sess| && |st.sess[s].inbox| <= |Do(st, a).sess[s].inbox| <= |st.sess[s].inbox| + 1
    ensures |Do(st, a).sess[s].inbox| > |st.sess[s].inbox| ==> st.sess[s].pc.Reading?
  {
    SessionFrame(st, a, s);
  }

  // The handler is past its num-th message.
  predicate Past(o: Session, num: nat) {
    num < |o.inbox| && (num + 1 < |o.inbox| || o.pc.Reading? || (Ending(o.pc) && !Panics(o.inbox[num])))
  }

  // Step m is the snapshot for this message, and if channel c was in the index then, the handler has gone through all
  // its members but the sender.
  ghost predicate WalksFrom(run: seq<Action>, s: nat, num: int, c: Chan, m: nat)
    requires ValidRun(INIT, run)
  {
    && SnapAt(run, m, s, num)
    && (c in At(run, m).index ==>
          exists j: nat :: m < j < |run| && WalkedAt(run, j, s, num, At(run, m).index[c] - {At(run, m).sess[s].id}))
  }

  /** Nothing that is read is passed over. When a handler is past a text or a file that names a channel, some earlier
      step of its own has released the index after the write the message asks for, if any, and another took the snapshot for
      it: if the channel named was in the index then, the handler has gone through all its other members. The only
      messages this leaves out are creations whose channel ID is too short: they end their handler after the write. */
  lemma EveryMessageHandled(run: seq<Action>, s: nat, num: nat)
    requires ValidRun(INIT, run) && s < |After(INIT, run).sess| && Past(After(INIT, run).sess[s], num)
    requires var msg := After(INIT, run).sess[s].inbox[num]; (msg.Text? || msg.File?) && msg.chan != ""
    ensures var msg := After(INIT, run).sess[s].inbox[num];
            && (msg.Text? && msg.event != NoEvent ==> Committed(run, |run|, s, num))
            && exists m: nat :: WalksFrom(run, s, num, msg.chan, m)
  {
    AtEnds(run);
    if num + 1 < |After(INIT, run).sess[s].inbox| {
      EarlierDone(run, |run|, s, num);
    } else {
      LastPast(run, |run|, s);
    }
    ServedWalks(run, s, num);
  }

  lemma ServedWalks(run: seq<Action>, s: nat, num: nat)
    requires ValidRun(INIT, run) && s < |After(INIT, run).sess| && num < |After(INIT, run).sess[s].inbox|
    requires var msg := After(INIT, run).sess[s].inbox[num]; (msg.Text? || msg.File?) && msg.chan != ""
    requires Forwarded(run, |run|, s, num)
    ensures exists m: nat :: WalksFrom(run, s, num, After(INIT, run).sess[s].inbox[num].chan, m)
  {
    var c := After(INIT, run).sess[s].inbox[num].chan;
    var m: nat :| SnapServed(run, |run|, s, num, m);
    SnapsTheNamed(run, m, s, num);
    if Known(At(run, m), s) {
      var j: nat :| m < j < |run| && WalkedAt(run, j, s, num, Targets(At(run, m), s));
      assert WalkedAt(run, j, s, num, At(run, m).index[c] - {At(run, m).sess[s].id});
    }
    assert WalksFrom(run, s, num, c, m);
  }

  // A snapshot looks up the channel that its message names.
  lemma SnapsTheNamed(run: seq<Action>, m: nat, s: nat, num: nat)
    requires ValidRun(INIT, run) && SnapAt(run, m, s, num)
    requires s < |After(INIT, run).sess| && num < |After(INIT, run).sess[s].inbox|
    requires var msg := After(INIT, run).sess[s].inbox[num]; (msg.Text? || msg.File?) && msg.chan != ""
    ensures var c := After(INIT, run).sess[s].inbox[num].chan;
            && (Known(At(run, m), s) <==> c in At(run, m).index)
            && Targets(At(run, m), s)
            == if c in At(run, m).index then At(run, m).index[c] - {At(run, m).sess[s].id} else {}
  {
    AtEnds(run);
    ReadOnce(run, m, |run|, s, num);
    HandAt(run, m, s);
    SnapsItsChannel(At(run, m), s, After(INIT, run).sess[s].inbox[num].chan);
  }

  lemma LastPast(run: seq<Action>, n: nat, s: nat)
    requires ValidRun(INIT, run) && n <= |run| && s < |At(run, n).sess| && At(run, n).sess[s].inbox != []
    requires Past(At(run, n).sess[s], |At(run, n).sess[s].inbox| - 1)
    ensures Done(run, n, s, |At(run, n).sess[s].inbox| - 1)
  {
    AtStage(run, n, s);
  }

  // ---------------------------------------------------------------- and once only

  predicate BeforeCommit(pc: Pc) {
    Creating(pc) || pc.LeaveAnnounce? || pc.LeaveAcquire? || pc.LeaveIndex?
  }

  predicate BeforeSnap(pc: Pc) {
    Creating(pc) || InLeave(pc) || pc.SnapLock? || pc.SnapTake?
  }

  // The session is past the write, or past the snapshot, of its num-th message.
  predicate WrittenFor(o: Session, num: int) {
    |o.inbox| - 1 > num || (|o.inbox| - 1 == num && !BeforeCommit(o.pc))
  }

  predicate SnappedFor(o: Session, num: int) {
    |o.inbox| - 1 > num || (|o.inbox| - 1 == num && !BeforeSnap(o.pc))
  }

  lemma OwnOnce(st: State, s: nat, ch: Choice, num: int)
    requires Enabled(st, Run(Handler(s), ch))
    ensures var o, o' := st.sess[s], SessionsAfter(st, s, ch)[s];
            && (WrittenFor(o, num) ==> WrittenFor(o', num)) && (SnappedFor(o, num) ==> SnappedFor(o', num))
            && (Commits(st, Run(Handler(s), ch)) && |o.inbox| - 1 == num ==> WrittenFor(o', num))
            && (o.pc.SnapTake? && |o.inbox| - 1 == num ==> SnappedFor(o', num))
  {
  }

  lemma OnceStep(run: seq<Action>, n: nat, s: nat, num: int)
    requires ValidRun(INIT, run) && n < |run| && s < |At(run, n).sess|
    ensures var o := At(run, n).sess[s];
            && s < |At(run, n + 1).sess|
            && (WrittenFor(o, num) || CommitAt(run, n, s, num) ==> WrittenFor(At(run, n + 1).sess[s], num))
            && (SnappedFor(o, num) || SnapAt(run, n, s, num) ==> SnappedFor(At(run, n + 1).sess[s], num))
  {
    AtNext(run, n);
    SessionFrame(At(run, n), run[n], s);
    if Moves(run[n], s) {
      OwnOnce(At(run, n), s, run[n].c, num);
    }
  }

  lemma {:induction false} StaysPast(run: seq<Action>, m: nat, n: nat, s: nat, num: int)
    requires ValidRun(INIT, run) && m < n <= |run| && s < |At(run, m).sess|
    ensures s < |At(run, n).sess|
    ensures CommitAt(run, m, s, num) ==> WrittenFor(At(run, n).sess[s], num)
    ensures SnapAt(run, m, s, num) ==> SnappedFor(At(run, n).sess[s], num)
  {
    if m < n - 1 {
      StaysPast(run, m, n - 1, s, num);
    }
    OnceStep(run, n - 1, s, num);
  }

  lemma NoSecond(run: seq<Action>, m: nat, n: nat, s: nat, num: int)
    requires ValidRun(INIT, run) && m < n
    ensures !(CommitAt(run, m, s, num) && CommitAt(run, n, s, num))
    ensures !(SnapAt(run, m, s, num) && SnapAt(run, n, s, num))
  {
    if n < |run| && s < |At(run, m).sess| {
      StaysPast(run, m, n, s, num);
      if CommitAt(run, n, s, num) {
        CommitStands(run, n, s, num);
      }
    }
  }

  lemma CommitStands(run: seq<Action>, n: nat, s: nat, num: int)
    requires ValidRun(INIT, run) && CommitAt(run, n, s, num)
    ensures BeforeCommit(At(run, n).sess[s].pc)
  {
    CommitPc(At(run, n), s, run[n].c);
  }

  lemma CommitPc(st: State, s: nat, ch: Choice)
    requires s < |st.sess| && PcOk(st, s) && Commits(st, Run(Handler(s), ch)) && Handling(st.sess[s].pc)
    ensures BeforeCommit(st.sess[s].pc)
  {
  }

  /** And each of this happens once only. */
  lemma HandledOnce(run: seq<Action>, m: nat, n: nat, s: nat, num: int)
    requires ValidRun(INIT, run)
    ensures CommitAt(run, m, s, num) && CommitAt(run, n, s, num) ==> m == n
    ensures SnapAt(run, m, s, num) && SnapAt(run, n, s, num) ==> m == n
  {
    if m < n {
      NoSecond(run, m, n, s, num);
    } else if n < m {
      NoSecond(run, n, m, s, num);
    }
  }

  /** What that write is: the creation or the leave that the message names, as a whole; a leave is also logged as the
      departure of the session's own ID. */
  lemma CommitWrites(run: seq<Action>, m: nat, s: nat, num: int)
    requires ValidRun(INIT, run) && CommitAt(run, m, s, num)
    ensures var o := At(run, m).sess[s];
            && num >= 0 && o.inbox[num].Text? && o.inbox[num].chan != ""
            && match o.inbox[num].event
               case Created(c, members) => Writes(run, m + 1) == Writes(run, m) + [Creation(c, members)]
               case PeerLeft(c) =>
                 && Writes(run, m + 1) == Writes(run, m) + [Leave(c, o.id)]
                 && At(run, m + 1).log == At(run, m).log + [Departed(c, o.id)]
               case NoEvent => false
  {
    HandAt(run, m, s);
    AtNext(run, m);
    CommitPc(At(run, m), s, run[m].c);
    CommitLogs(At(run, m), s, run[m].c);
  }

  lemma CommitLogs(st: State, s: nat, ch: Choice)
    requires Enabled(st, Run(Handler(s), ch)) && Commits(st, Run(Handler(s), ch)) && Handling(st.sess[s].pc)
    ensures st.sess[s].pc.CreateAdd? || st.sess[s].pc.LeaveIndex?
    ensures st.sess[s].pc.LeaveIndex? ==> LogAfter(st, s) == st.log + [Departed(st.sess[s].pc.chan, st.sess[s].id)]
  {
  }
}
