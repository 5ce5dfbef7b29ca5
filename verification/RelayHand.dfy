/** What a handler's control point says about the message in hand, and that the index events of the log come from
    messages. */
module RelayHand {
  import opened RelayModel
  import opened RelayLocks
  import opened RelayProgress

  // The message being handled.
  function Hand(o: Session): Msg
    requires o.inbox != []
  {
    o.inbox[|o.inbox| - 1]
  }

  // The channel event a message carries; without a channel of its own the message is not looked at.
  function EventIn(msg: Msg): ChannelEvent {
    if msg.Text? && msg.chan != "" then msg.event else NoEvent
  }

  // The message names this channel as the one it is for.
  predicate Addressed(msg: Msg, c: Chan) {
    c != "" && (msg.Text? || msg.File?) && msg.chan == c
  }

  predicate Suffix(todo: seq<Id>, members: seq<Id>) {
    |todo| <= |members| && forall i :: 0 <= i < |todo| ==> todo[i] == members[|members| - |todo| + i]
  }

  // Before the read loop.
  predicate BeforeReading(pc: Pc) {
    || pc.RegAnnounce? || pc.RegAcquire? || pc.RegBody? || pc.Crashed?
    || ((pc.CountLock? || pc.CountUnlock?) && !pc.dying)
  }

  predicate Answering(pc: Pc) {
    pc.QueryLock? || pc.QueryUnlock? || pc.ReplyLock? || pc.ReplySend?
  }

  predicate AnswersPing(pc: Pc) {
    (pc.ReplyLock? || pc.ReplySend?) && pc.answer.Pong?
  }

  predicate AboutToCreate(pc: Pc) {
    pc.CreateAnnounce? || pc.CreateAcquire?
  }

  // A creation under way, which holds channelIndexMu.
  predicate Adding(pc: Pc) {
    pc.CreateAdd? || pc.CreateRLock? || pc.CreateLook? || pc.CreateMark? || pc.CreateRUnlock?
  }

  predicate InLeave(pc: Pc) {
    pc.LeaveAnnounce? || pc.LeaveAcquire? || pc.LeaveIndex? || pc.LeaveLock? || pc.LeaveUnpin?
  }

  predicate HandOk(o: Session) {
    && (BeforeReading(o.pc) ==> o.inbox == [])
    && (Answering(o.pc) || Handling(o.pc) ==> o.inbox != [])
    && (Answering(o.pc) ==> Hand(o) == if AnswersPing(o.pc) then Ping else QueryOnline)
    && (AboutToCreate(o.pc) ==> EventIn(Hand(o)) == Created(o.pc.chan, o.pc.todo))
    && (Adding(o.pc) ==>
          && EventIn(Hand(o)).Created? && EventIn(Hand(o)).chan == o.pc.chan
          && Suffix(o.pc.todo, EventIn(Hand(o)).members))
    && (InLeave(o.pc) ==> EventIn(Hand(o)) == PeerLeft(o.pc.chan))
    && (Forwarding(o.pc) ==> Addressed(Hand(o), Current(o)))
  }

  ghost predicate HandInv(st: State) {
    forall s :: 0 <= s < |st.sess| ==> HandOk(st.sess[s])
  }

  lemma SuffixNext(todo: seq<Id>, members: seq<Id>)
    requires Suffix(todo, members) && todo != []
    ensures Suffix(todo[1..], members) && todo[0] == members[|members| - |todo|]
  {
  }

  lemma ReadsHand(o: Session, msg: Msg)
    ensures HandOk(o.(inbox := o.inbox + [msg], pc := Dispatch(msg)))
  {
  }

  lemma OwnHand(st: State, s: nat, ch: Choice)
    requires Enabled(st, Run(Handler(s), ch)) && HandOk(st.sess[s])
    ensures HandOk(SessionsAfter(st, s, ch)[s])
  {
    var o, o' := st.sess[s], SessionsAfter(st, s, ch)[s];
    if o.pc.Reading? && ch.Recv? {
      ReadsHand(o, ch.msg);
    } else {
      assert o'.inbox == o.inbox && o'.pc == HandlerGoto(st, s, ch);
      KeepsHand(st, s, ch);
    }
  }

  // A handler goes on with the message it has.
  lemma KeepsHand(st: State, s: nat, ch: Choice)
    requires Enabled(st, Run(Handler(s), ch)) && HandOk(st.sess[s]) && !(st.sess[s].pc.Reading? && ch.Recv?)
    ensures HandOk(st.sess[s].(pc := HandlerGoto(st, s, ch)))
  {
    if Creating(st.sess[s].pc) {
      KeepsCreation(st, s, ch);
    } else if Handling(st.sess[s].pc) {
      KeepsOther(st, s, ch);
    } else {
      KeepsNone(st, s, ch);
    }
  }

  // How a creation goes on.
  predicate CreationNext(pc: Pc, pc': Pc) {
    || pc'.SnapLock? || pc'.DownClose?
    || (AboutToCreate(pc) && (AboutToCreate(pc') || Adding(pc')) && pc'.chan == pc.chan && pc'.todo == pc.todo)
    || (Adding(pc) && Adding(pc') && pc'.chan == pc.chan
        && (pc'.todo == pc.todo || (pc.todo != [] && pc'.todo == pc.todo[1..])))
  }

  lemma CreationGoto(st: State, s: nat, ch: Choice)
    requires s < |st.sess| && PcOk(st, s) && Creating(st.sess[s].pc)
    ensures CreationNext(st.sess[s].pc, HandlerGoto(st, s, ch))
  {
  }

  lemma KeepsNext(o: Session, pc': Pc)
    requires HandOk(o) && Creating(o.pc) && CreationNext(o.pc, pc')
    ensures HandOk(o.(pc := pc'))
  {
    if Adding(o.pc) && o.pc.todo != [] {
      SuffixNext(o.pc.todo, EventIn(Hand(o)).members);
    }
  }

  lemma KeepsCreation(st: State, s: nat, ch: Choice)
    requires Enabled(st, Run(Handler(s), ch)) && HandOk(st.sess[s]) && Creating(st.sess[s].pc)
    ensures HandOk(st.sess[s].(pc := HandlerGoto(st, s, ch)))
  {
    CreationGoto(st, s, ch);
    KeepsNext(st.sess[s], HandlerGoto(st, s, ch));
  }

  lemma KeepsOther(st: State, s: nat, ch: Choice)
    requires Enabled(st, Run(Handler(s), ch)) && HandOk(st.sess[s])
    requires Handling(st.sess[s].pc) && !Creating(st.sess[s].pc)
    ensures HandOk(st.sess[s].(pc := HandlerGoto(st, s, ch)))
  {
  }

  lemma KeepsNone(st: State, s: nat, ch: Choice)
    requires Enabled(st, Run(Handler(s), ch)) && HandOk(st.sess[s])
    requires !Handling(st.sess[s].pc) && !(st.sess[s].pc.Reading? && ch.Recv?)
    ensures HandOk(st.sess[s].(pc := HandlerGoto(st, s, ch)))
  {
  }

  lemma HandInvStep(st: State, a: Action)
    requires HandInv(st) && Enabled(st, a)
    ensures HandInv(Do(st, a))
  {
    forall s | 0 <= s < |Do(st, a).sess|
      ensures HandOk(Do(st, a).sess[s])
    {
      if s < |st.sess| {
        SessionFrame(st, a, s);
        if Moves(a, s) {
          OwnHand(st, s, a.c);
        } else {
          HandAlike(st.sess[s], Do(st, a).sess[s]);
        }
      }
    }
  }

  lemma HandAlike(o: Session, o': Session)
    requires HandOk(o) && o'.pc == o.pc && o'.inbox == o.inbox
    ensures HandOk(o')
  {
  }

  lemma {:induction false} AtHand(run: seq<Action>, n: nat)
    requires ValidRun(INIT, run) && n <= |run|
    ensures HandInv(At(run, n))
  {
    AtEnds(run);
    if n > 0 {
      AtHand(run, n - 1);
      AtNext(run, n - 1);
      HandInvStep(At(run, n - 1), run[n - 1]);
    }
  }

  lemma ReachableHand(run: seq<Action>)
    requires ValidRun(INIT, run)
    ensures HandInv(After(INIT, run))
  {
    AtHand(run, |run|);
    AtEnds(run);
  }

  // Messages read stay read.
  lemma {:induction false} InboxesGrow(run: seq<Action>, i: nat, n: nat, s: nat)
    requires ValidRun(INIT, run) && i <= n <= |run| && s < |At(run, i).sess|
    ensures s < |At(run, n).sess| && At(run, i).sess[s].inbox <= At(run, n).sess[s].inbox
  {
    if i < n {
      InboxesGrow(run, i, n - 1, s);
      AtNext(run, n - 1);
      SessionFrame(At(run, n - 1), run[n - 1], s);
    }
  }

  lemma ReadOnce(run: seq<Action>, m: nat, n: nat, s: nat, num: nat)
    requires ValidRun(INIT, run) && m <= n <= |run| && s < |At(run, m).sess| && num < |At(run, m).sess[s].inbox|
    ensures s < |At(run, n).sess| && num < |At(run, n).sess[s].inbox|
    ensures At(run, n).sess[s].inbox[num] == At(run, m).sess[s].inbox[num]
  {
    InboxesGrow(run, m, n, s);
  }

  // The snapshot of a message is that of the channel the message names.
  lemma SnapsItsChannel(st: State, s: nat, c: Chan)
    requires s < |st.sess| && HandOk(st.sess[s]) && Forwarding(st.sess[s].pc) && Addressed(Hand(st.sess[s]), c)
    ensures Current(st.sess[s]) == c
    ensures Targets(st, s) == if c in st.index then st.index[c] - {st.sess[s].id} else {}
  {
  }

  // ---------------------------------------------------------------- the log

  predicate Names(msg: Msg, c: Chan, id: Id) {
    EventIn(msg).Created? && EventIn(msg).chan == c && id in EventIn(msg).members
  }

  // Session s, which is o, causes the event: by the message in hand, or by its teardown.
  predicate Causes(o: Session, s: nat, e: Event) {
    match e
    case Added(c, id) => o.inbox != [] && Names(Hand(o), c, id)
    case Pinned(c, id, _) => o.inbox != [] && Names(Hand(o), c, id)
    case Unclaimed(c, id) => o.inbox != [] && Names(Hand(o), c, id)
    case Departed(c, id) => o.inbox != [] && EventIn(Hand(o)) == PeerLeft(c) && id == o.id
    case Unpinned(c, id, k) => o.inbox != [] && EventIn(Hand(o)) == PeerLeft(c) && id == o.id && k == s
    case Cleaned(id, k) => o.pc.DownClean? && id == o.id && k == s
  }

  ghost predicate CausedAt(run: seq<Action>, m: nat, e: Event)
    requires ValidRun(INIT, run)
  {
    && m < |run| && run[m].Run? && run[m].t.Handler? && run[m].t.s < |At(run, m).sess|
    && Causes(At(run, m).sess[run[m].t.s], run[m].t.s, e)
  }

  lemma StepCauses(st: State, s: nat, ch: Choice)
    requires WellFormed(st) && Enabled(st, Run(Handler(s), ch)) && HandOk(st.sess[s])
    requires st.sess[s].pc.CreateMark? ==> st.sess[st.sess[s].pc.k].id == st.sess[s].pc.todo[0]
    ensures st.log <= LogAfter(st, s) && |LogAfter(st, s)| <= |st.log| + 1
    ensures |LogAfter(st, s)| == |st.log| + 1 ==> Causes(st.sess[s], s, LogAfter(st, s)[|st.log|])
  {
    var o := st.sess[s];
    if Adding(o.pc) && o.pc.todo != [] {
      SuffixNext(o.pc.todo, EventIn(Hand(o)).members);
    }
  }

  // A back-pointer is set under the ID that was looked up.
  ghost predicate MarkOk(st: State, s: nat)
    requires s < |st.sess|
  {
    var pc := st.sess[s].pc;
    pc.CreateMark? ==> pc.todo != [] && pc.k < |st.sess| && st.sess[pc.k].id == pc.todo[0]
  }

  lemma OwnMark(st: State, s: nat, ch: Choice)
    requires WellFormed(st) && Enabled(st, Run(Handler(s), ch)) && HandlerGoto(st, s, ch).CreateMark?
    ensures var pc := HandlerGoto(st, s, ch);
            pc.todo != [] && pc.k < |st.sess| && st.sess[pc.k].id == pc.todo[0]
  {
  }

  lemma MarkOkStep(st: State, a: Action, s: nat)
    requires WellFormed(st) && Enabled(st, a) && s < |Do(st, a).sess| && (s < |st.sess| ==> MarkOk(st, s))
    ensures MarkOk(Do(st, a), s)
  {
    if s < |st.sess| {
      var pc := Do(st, a).sess[s].pc;
      SessionFrame(st, a, s);
      if pc.CreateMark? {
        if Moves(a, s) {
          OwnSession(st, s, a.c);
          OwnMark(st, s, a.c);
        }
        SessionFrame(st, a, pc.k);
      }
    }
  }

  lemma {:induction false} AtMark(run: seq<Action>, n: nat, s: nat)
    requires ValidRun(INIT, run) && n <= |run| && s < |At(run, n).sess|
    ensures MarkOk(At(run, n), s)
  {
    AtEnds(run);
    if n > 0 {
      AtNext(run, n - 1);
      AtInv(run, n - 1);
      if s < |At(run, n - 1).sess| {
        AtMark(run, n - 1, s);
      }
      MarkOkStep(At(run, n - 1), run[n - 1], s);
    }
  }

  lemma OnlyHandlersLog(st: State, a: Action)
    requires Enabled(st, a) && !(a.Run? && a.t.Handler?)
    ensures Do(st, a).log == st.log
  {
  }

  lemma LogNext(run: seq<Action>, m: nat)
    requires ValidRun(INIT, run) && m < |run|
    ensures At(run, m).log <= At(run, m + 1).log && |At(run, m + 1).log| <= |At(run, m).log| + 1
    ensures |At(run, m + 1).log| == |At(run, m).log| + 1 ==> CausedAt(run, m, At(run, m + 1).log[|At(run, m).log|])
  {
    var st, a := At(run, m), run[m];
    AtNext(run, m);
    if a.Run? && a.t.Handler? {
      AtHand(run, m);
      AtInv(run, m);
      AtMark(run, m, a.t.s);
      StepCauses(st, a.t.s, a.c);
    } else {
      OnlyHandlersLog(st, a);
    }
  }

  /** Every event of every run's log was caused by a message that asks for just this, or by a teardown: an ID is added,
      pinned or passed over only for a creation in hand that names it, and departs or is unpinned only for a leave in
      its own hand. */
  lemma {:induction false} EventsHaveCauses(run: seq<Action>, n: nat, i: nat)
    requires ValidRun(INIT, run) && n <= |run| && i < |At(run, n).log|
    ensures exists m: nat :: m < n && CausedAt(run, m, At(run, n).log[i])
  {
    AtEnds(run);
    if n > 0 {
      LogNext(run, n - 1);
      if i < |At(run, n - 1).log| {
        EventsHaveCauses(run, n - 1, i);
        var m: nat :| m < n - 1 && CausedAt(run, m, At(run, n - 1).log[i]);
      }
    }
  }
}
