/** What the relay answers itself, pings and questions who is online, and what ends a handler. */
module RelayAnswers {
  import opened Sequences
  import opened RelayModel
  import opened RelayLocks
  import opened RelayProgress
  import opened RelayHand
  import opened RelayHandled

  // ---------------------------------------------------------------- the answers on a socket

  predicate Replies(pc: Pc) {
    pc.ReplyLock? || pc.ReplySend?
  }

  // The answer fits the message it is for.
  predicate Fits(msg: Msg, answer: Answer) {
    match answer
    case Pong => msg == Ping
    case OnlineList(_) => msg == QueryOnline
  }

  // Answers are for questions read, in the order of reading, each once, and the question in hand has none yet.
  predicate AnswersOk(o: Session) {
    && (forall k :: 0 <= k < |o.answers| ==>
          0 <= o.answers[k].num < |o.inbox| && Fits(o.inbox[o.answers[k].num], o.answers[k].answer))
    && (forall i, k :: 0 <= i < k < |o.answers| ==> o.answers[i].num < o.answers[k].num)
    && (Answering(o.pc) ==> forall k :: 0 <= k < |o.answers| ==> o.answers[k].num < |o.inbox| - 1)
  }

  lemma OwnAnswers(st: State, s: nat, ch: Choice)
    requires s < |st.sess| && PcOk(st, s)
    ensures SessionsAfter(st, s, ch)[s].answers == st.sess[s].answers +
              if st.sess[s].pc.ReplySend? && ch.Sent? then [Reply(|st.sess[s].inbox| - 1, st.sess[s].pc.answer)] else []
  {
  }

  lemma OtherAnswers(st: State, a: Action, s: nat)
    requires Enabled(st, a) && s < |st.sess| && !Moves(a, s)
    ensures s < |Do(st, a).sess| && Do(st, a).sess[s].answers == st.sess[s].answers
  {
  }

  // When a handler begins to answer, and when it goes on.
  lemma AnsweringNext(st: State, s: nat, ch: Choice)
    requires Enabled(st, Run(Handler(s), ch)) && Answering(HandlerGoto(st, s, ch))
    ensures (st.sess[s].pc.Reading? && ch.Recv?) || (Answering(st.sess[s].pc) && !st.sess[s].pc.ReplySend?)
  {
  }

  lemma AnswersMore(o: Session, o': Session)
    requires AnswersOk(o) && HandOk(o) && o.inbox <= o'.inbox
    requires o'.answers == o.answers ||
             (o.pc.ReplySend? && o'.inbox == o.inbox && o'.answers == o.answers + [Reply(|o.inbox| - 1, o.pc.answer)]
              && !Answering(o'.pc))
    requires Answering(o'.pc) ==> |o'.inbox| > |o.inbox| || (Answering(o.pc) && o'.answers == o.answers)
    ensures AnswersOk(o')
  {
  }

  lemma AnswersStep(st: State, a: Action, s: nat)
    requires Enabled(st, a) && HandInv(st) && s < |Do(st, a).sess| && (s < |st.sess| ==> AnswersOk(st.sess[s]))
    ensures AnswersOk(Do(st, a).sess[s])
  {
    if s < |st.sess| {
      SessionFrame(st, a, s);
      assert HandOk(st.sess[s]);
      if Moves(a, s) {
        OwnSession(st, s, a.c);
        OwnAnswers(st, s, a.c);
        if Answering(HandlerGoto(st, s, a.c)) {
          AnsweringNext(st, s, a.c);
        }
      } else {
        OtherAnswers(st, a, s);
      }
      AnswersMore(st.sess[s], Do(st, a).sess[s]);
    }
  }

  lemma {:induction false} AtAnswers(run: seq<Action>, n: nat, s: nat)
    requires ValidRun(INIT, run) && n <= |run| && s < |At(run, n).sess|
    ensures AnswersOk(At(run, n).sess[s])
  {
    AtEnds(run);
    if n > 0 {
      AtNext(run, n - 1);
      AtHand(run, n - 1);
      if s < |At(run, n - 1).sess| {
        AtAnswers(run, n - 1, s);
      }
      AnswersStep(At(run, n - 1), run[n - 1], s);
    }
  }

  /** In every run the answers on a socket are pongs for pings and lists for questions who is online, of that session,
      in the order it asked and none twice. */
  lemma AnswersInOrder(run: seq<Action>, s: nat)
    requires ValidRun(INIT, run) && s < |After(INIT, run).sess|
    ensures var o := After(INIT, run).sess[s];
            && (forall k :: 0 <= k < |o.answers| ==> 0 <= o.answers[k].num < |o.inbox|)
            && (forall k :: 0 <= k < |o.answers| ==>
                  o.inbox[o.answers[k].num] == if o.answers[k].answer.Pong? then Ping else QueryOnline)
            && (forall i, k :: 0 <= i < k < |o.answers| ==> o.answers[i].num < o.answers[k].num)
  {
    AtEnds(run);
    AtAnswers(run, |run|, s);
  }

  // ---------------------------------------------------------------- every question has one

  // Step q looks at the registry for this question.
  ghost predicate LooksAt(run: seq<Action>, q: nat, s: nat, num: int, ids: set<Id>)
    requires ValidRun(INIT, run)
  {
    StepFor(run, q, s, num) && At(run, q).sess[s].pc.QueryLock? && ids == At(run, q).agents.Keys
  }

  ghost predicate Looked(run: seq<Action>, n: nat, s: nat, num: int, ids: set<Id>)
    requires ValidRun(INIT, run)
  {
    exists q: nat :: q < n && LooksAt(run, q, s, num, ids)
  }

  // Step m sends this answer to this question, and the send succeeds or not.
  ghost predicate AnswerAt(run: seq<Action>, m: nat, s: nat, num: int, answer: Answer)
    requires ValidRun(INIT, run)
  {
    && StepFor(run, m, s, num) && At(run, m).sess[s].pc == ReplySend(answer)
    && (answer.OnlineList? ==> Looked(run, m, s, num, answer.ids))
  }

  // The list a handler carries is the registry it looked at.
  ghost predicate Carries(run: seq<Action>, n: nat, s: nat)
    requires ValidRun(INIT, run) && n <= |run| && s < |At(run, n).sess|
  {
    var o := At(run, n).sess[s];
    && (o.pc.QueryUnlock? ==> Looked(run, n, s, |o.inbox| - 1, o.pc.ids))
    && (Replies(o.pc) && o.pc.answer.OnlineList? ==> Looked(run, n, s, |o.inbox| - 1, o.pc.answer.ids))
  }

  ghost predicate Tried(run: seq<Action>, n: nat, s: nat, num: int)
    requires ValidRun(INIT, run)
  {
    exists m: nat, answer :: m < n && AnswerAt(run, m, s, num, answer)
  }

  // A question that the handler is past has had its answer sent, or tried.
  ghost predicate QuestionDone(run: seq<Action>, n: nat, s: nat, num: nat)
    requires ValidRun(INIT, run) && n <= |run| && s < |At(run, n).sess| && num < |At(run, n).sess[s].inbox|
  {
    At(run, n).sess[s].inbox[num] == Ping || At(run, n).sess[s].inbox[num] == QueryOnline ==> Tried(run, n, s, num)
  }

  predicate Free(pc: Pc) {
    pc.Reading? || Ending(pc)
  }

  ghost predicate QuestionsOk(run: seq<Action>, n: nat, s: nat)
    requires ValidRun(INIT, run) && n <= |run| && s < |At(run, n).sess|
  {
    var o := At(run, n).sess[s];
    && Carries(run, n, s)
    && (Free(o.pc) && o.inbox != [] ==> QuestionDone(run, n, s, |o.inbox| - 1))
    && (Handling(o.pc) ==> o.inbox != [] && Hand(o) != Ping && Hand(o) != QueryOnline)
    && var last := |o.inbox| - 1; forall num :: 0 <= num < last ==> QuestionDone(run, n, s, num)
  }

  lemma LookedStays(run: seq<Action>, n: nat, s: nat, num: int, ids: set<Id>)
    requires ValidRun(INIT, run)
    ensures Looked(run, n, s, num, ids) || LooksAt(run, n, s, num, ids) ==> Looked(run, n + 1, s, num, ids)
  {
  }

  lemma TriedStays(run: seq<Action>, n: nat, s: nat, num: int)
    requires ValidRun(INIT, run) && Tried(run, n, s, num)
    ensures Tried(run, n + 1, s, num)
  {
    var m: nat, answer :| m < n && AnswerAt(run, m, s, num, answer);
    assert AnswerAt(run, m, s, num, answer);
  }

  // Where the handler's own step takes a question.
  lemma QuestionGoto(st: State, s: nat, ch: Choice)
    requires Enabled(st, Run(Handler(s), ch))
    ensures var pc, pc' := st.sess[s].pc, HandlerGoto(st, s, ch);
            && (pc'.QueryUnlock? ==> pc.QueryLock? && pc'.ids == st.agents.Keys)
            && (Replies(pc') && pc'.answer.OnlineList? ==>
                  (pc.QueryUnlock? && pc.ids == pc'.answer.ids) || (Replies(pc) && pc.answer == pc'.answer))
            && (Free(pc') ==> Free(pc) || BeforeReading(pc) || pc.ReplySend? || Handling(pc))
            && (Handling(pc') ==> Handling(pc) || (pc.Reading? && ch.Recv?))
  {
  }

  lemma ReadsQuestion(msg: Msg)
    ensures Handling(Dispatch(msg)) ==> msg != Ping && msg != QueryOnline
    ensures Free(Dispatch(msg)) ==> msg != Ping && msg != QueryOnline
    ensures !Dispatch(msg).QueryUnlock? && !(Replies(Dispatch(msg)) && Dispatch(msg).answer.OnlineList?)
  {
  }

  lemma CarriesStep(run: seq<Action>, n: nat, s: nat)
    requires ValidRun(INIT, run) && n < |run| && s < |At(run, n).sess| && s < |At(run, n + 1).sess|
    requires Carries(run, n, s)
    ensures Carries(run, n + 1, s)
  {
    var st, a := At(run, n), run[n];
    var o, o' := st.sess[s], At(run, n + 1).sess[s];
    var num := |o.inbox| - 1;
    AtNext(run, n);
    SessionFrame(st, a, s);
    if Moves(a, s) {
      OwnSession(st, s, a.c);
      QuestionGoto(st, s, a.c);
    }
    if o'.pc.QueryUnlock? {
      LookedStays(run, n, s, num, o'.pc.ids);
    }
    if Replies(o'.pc) && o'.pc.answer.OnlineList? {
      LookedStays(run, n, s, num, o'.pc.answer.ids);
    }
  }

  lemma OldDone(run: seq<Action>, n: nat, s: nat, num: nat)
    requires ValidRun(INIT, run) && n < |run| && s < |At(run, n).sess| && num < |At(run, n).sess[s].inbox|
    requires QuestionDone(run, n, s, num)
    ensures s < |At(run, n + 1).sess| && num < |At(run, n + 1).sess[s].inbox| && QuestionDone(run, n + 1, s, num)
  {
    AtNext(run, n);
    SessionFrame(At(run, n), run[n], s);
    if Tried(run, n, s, num) {
      TriedStays(run, n, s, num);
    }
  }

  // The question in hand, when the handler is free again.
  lemma LastQuestion(run: seq<Action>, n: nat, s: nat)
    requires ValidRun(INIT, run) && n < |run| && s < |At(run, n).sess| && s < |At(run, n + 1).sess|
    requires QuestionsOk(run, n, s) && HandOk(At(run, n).sess[s])
    requires Free(At(run, n + 1).sess[s].pc) && At(run, n + 1).sess[s].inbox != []
    ensures QuestionDone(run, n + 1, s, |At(run, n + 1).sess[s].inbox| - 1)
  {
    if Moves(run[n], s) {
      OwnLastQuestion(run, n, s);
    } else {
      AtNext(run, n);
      SessionFrame(At(run, n), run[n], s);
      OldDone(run, n, s, |At(run, n).sess[s].inbox| - 1);
    }
  }

  lemma OwnLastQuestion(run: seq<Action>, n: nat, s: nat)
    requires ValidRun(INIT, run) && n < |run| && s < |At(run, n).sess| && s < |At(run, n + 1).sess|
    requires QuestionsOk(run, n, s) && HandOk(At(run, n).sess[s]) && Moves(run[n], s)
    requires Free(At(run, n + 1).sess[s].pc) && At(run, n + 1).sess[s].inbox != []
    ensures QuestionDone(run, n + 1, s, |At(run, n + 1).sess[s].inbox| - 1)
  {
    var o, ch := At(run, n).sess[s], run[n].c;
    OwnAt(run, n, s);
    OwnSession(At(run, n), s, ch);
    QuestionGoto(At(run, n), s, ch);
    if o.pc.Reading? && ch.Recv? {
      ReadsQuestion(ch.msg);
    } else if o.pc.ReplySend? {
      assert AnswerAt(run, n, s, |o.inbox| - 1, o.pc.answer);
    } else if Free(o.pc) {
      OldDone(run, n, s, |o.inbox| - 1);
    }
  }

  lemma QuestionsStep(run: seq<Action>, n: nat, s: nat)
    requires ValidRun(INIT, run) && n < |run| && s < |At(run, n).sess| && s < |At(run, n + 1).sess|
    requires QuestionsOk(run, n, s) && HandOk(At(run, n).sess[s])
    ensures QuestionsOk(run, n + 1, s)
  {
    var o, o' := At(run, n).sess[s], At(run, n + 1).sess[s];
    CarriesStep(run, n, s);
    if Free(o'.pc) && o'.inbox != [] {
      LastQuestion(run, n, s);
    }
    HandledIsNoQuestion(run, n, s);
    var last, next := |o'.inbox| - 1, n + 1;
    forall num | 0 <= num < last
      ensures QuestionDone(run, next, s, num)
    {
      EarlierQuestion(run, n, s, num);
    }
  }

  lemma HandledIsNoQuestion(run: seq<Action>, n: nat, s: nat)
    requires ValidRun(INIT, run) && n < |run| && s < |At(run, n).sess| && s < |At(run, n + 1).sess|
    requires QuestionsOk(run, n, s)
    ensures var o' := At(run, n + 1).sess[s];
            Handling(o'.pc) ==> o'.inbox != [] && Hand(o') != Ping && Hand(o') != QueryOnline
  {
    var st, a := At(run, n), run[n];
    AtNext(run, n);
    SessionFrame(st, a, s);
    if Moves(a, s) {
      OwnSession(st, s, a.c);
      QuestionGoto(st, s, a.c);
      if st.sess[s].pc.Reading? && a.c.Recv? {
        ReadsQuestion(a.c.msg);
      }
    }
  }

  lemma EarlierQuestion(run: seq<Action>, n: nat, s: nat, num: nat)
    requires ValidRun(INIT, run) && n < |run| && s < |At(run, n).sess| && s < |At(run, n + 1).sess|
    requires QuestionsOk(run, n, s) && num < |At(run, n + 1).sess[s].inbox| - 1
    ensures QuestionDone(run, n + 1, s, num)
  {
    AtNext(run, n);
    InboxNext(At(run, n), run[n], s);
    assert num < |At(run, n).sess[s].inbox| && QuestionDone(run, n, s, num);
    OldDone(run, n, s, num);
  }

  lemma {:induction false} AtQuestions(run: seq<Action>, n: nat, s: nat)
    requires ValidRun(INIT, run) && n <= |run| && s < |At(run, n).sess|
    ensures QuestionsOk(run, n, s)
  {
    AtEnds(run);
    if n > 0 {
      var m := n - 1;
      AtNext(run, m);
      if s < |At(run, m).sess| {
        AtQuestions(run, m, s);
        HandAt(run, m, s);
        QuestionsStep(run, m, s);
      } else {
        assert At(run, n).sess[s].pc == RegAnnounce && At(run, n).sess[s].inbox == [];
      }
    }
  }

  // ---------------------------------------------------------------- once, and for good

  // The session has left the answer to its num-th message behind.
  predicate LeftBehind(o: Session, num: int) {
    |o.inbox| - 1 > num || (|o.inbox| - 1 == num && !Answering(o.pc))
  }

  // A handler that has ended its loop reads no more.
  predicate EndedAt(o: Session, num: int) {
    |o.inbox| - 1 == num && Ending(o.pc)
  }

  lemma OwnLeaves(st: State, s: nat, ch: Choice, num: int)
    requires Enabled(st, Run(Handler(s), ch))
    ensures var o, o' := st.sess[s], SessionsAfter(st, s, ch)[s];
            && (LeftBehind(o, num) || (o.pc.ReplySend? && |o.inbox| - 1 == num) ==> LeftBehind(o', num))
            && (EndedAt(o, num) ==> EndedAt(o', num))
            && (o.pc == ReplySend(Pong) && ch.SendFailed? && |o.inbox| - 1 == num ==> EndedAt(o', num))
  {
  }

  // Step m fails to send a pong.
  ghost predicate PongFails(run: seq<Action>, m: nat, s: nat, num: int)
    requires ValidRun(INIT, run)
  {
    StepFor(run, m, s, num) && At(run, m).sess[s].pc == ReplySend(Pong) && run[m].c.SendFailed?
  }

  ghost predicate RepliesAt(run: seq<Action>, m: nat, s: nat, num: int)
    requires ValidRun(INIT, run)
  {
    StepFor(run, m, s, num) && At(run, m).sess[s].pc.ReplySend?
  }

  lemma LeavesStep(run: seq<Action>, n: nat, s: nat, num: int)
    requires ValidRun(INIT, run) && n < |run| && s < |At(run, n).sess|
    ensures var o := At(run, n).sess[s];
            && s < |At(run, n + 1).sess|
            && (LeftBehind(o, num) || RepliesAt(run, n, s, num) ==> LeftBehind(At(run, n + 1).sess[s], num))
            && (EndedAt(o, num) || PongFails(run, n, s, num) ==> EndedAt(At(run, n + 1).sess[s], num))
  {
    AtNext(run, n);
    SessionFrame(At(run, n), run[n], s);
    if Moves(run[n], s) {
      OwnLeaves(At(run, n), s, run[n].c, num);
    }
  }

  lemma {:induction false} StaysLeft(run: seq<Action>, m: nat, n: nat, s: nat, num: int)
    requires ValidRun(INIT, run) && m < n <= |run| && s < |At(run, m).sess|
    ensures s < |At(run, n).sess|
    ensures RepliesAt(run, m, s, num) ==> LeftBehind(At(run, n).sess[s], num)
    ensures PongFails(run, m, s, num) ==> EndedAt(At(run, n).sess[s], num)
  {
    if m < n - 1 {
      StaysLeft(run, m, n - 1, s, num);
    }
    LeavesStep(run, n - 1, s, num);
  }

  lemma RepliesOnce(run: seq<Action>, m: nat, n: nat, s: nat, num: int)
    requires ValidRun(INIT, run) && RepliesAt(run, m, s, num) && RepliesAt(run, n, s, num)
    ensures m == n
  {
    if m < n {
      StaysLeft(run, m, n, s, num);
    } else if n < m {
      StaysLeft(run, n, m, s, num);
    }
  }

  // Step m sends this answer, successfully.
  ghost predicate SendsAt(run: seq<Action>, m: nat, s: nat, num: int, answer: Answer)
    requires ValidRun(INIT, run)
  {
    StepFor(run, m, s, num) && At(run, m).sess[s].pc == ReplySend(answer) && run[m].c.Sent?
  }

  ghost predicate HasAnswer(st: State, s: nat, num: int, answer: Answer) {
    s < |st.sess| && Reply(num, answer) in st.sess[s].answers
  }

  // The step sends this answer, successfully.
  predicate Sends(st: State, a: Action, s: nat, num: int, answer: Answer) {
    && Moves(a, s) && s < |st.sess| && |st.sess[s].inbox| - 1 == num
    && st.sess[s].pc == ReplySend(answer) && a.c.Sent?
  }

  lemma HasAnswerNext(st: State, a: Action, s: nat, num: int, answer: Answer)
    requires Enabled(st, a)
    ensures HasAnswer(Do(st, a), s, num, answer) <==>
              HasAnswer(st, s, num, answer) || Sends(st, a, s, num, answer)
  {
    if s >= |st.sess| {
      NoAnswersYet(st, a, s);
    } else if Moves(a, s) {
      OwnAnswers(st, s, a.c);
    } else {
      OtherAnswers(st, a, s);
    }
  }

  lemma NoAnswersYet(st: State, a: Action, s: nat)
    requires Enabled(st, a) && s >= |st.sess|
    ensures s < |Do(st, a).sess| ==> Do(st, a).sess[s].answers == []
  {
  }

  lemma AnswersNext(run: seq<Action>, n: nat, s: nat, num: int, answer: Answer)
    requires ValidRun(INIT, run) && n < |run|
    ensures HasAnswer(At(run, n + 1), s, num, answer) <==>
              HasAnswer(At(run, n), s, num, answer) || SendsAt(run, n, s, num, answer)
  {
    AtNext(run, n);
    HasAnswerNext(At(run, n), run[n], s, num, answer);
  }

  lemma {:induction false} AnswersAreSent(run: seq<Action>, n: nat, s: nat, num: int, answer: Answer)
    requires ValidRun(INIT, run) && n <= |run|
    ensures HasAnswer(At(run, n), s, num, answer) <==> exists m: nat :: m < n && SendsAt(run, m, s, num, answer)
  {
    AtEnds(run);
    if n > 0 {
      AnswersAreSent(run, n - 1, s, num, answer);
      AnswersNext(run, n - 1, s, num, answer);
    }
  }

  // The answer that step m tries to send is on the socket in the end if and only if it succeeds.
  lemma OnSocketIfSent(run: seq<Action>, m: nat, s: nat, num: int, answer: Answer)
    requires ValidRun(INIT, run) && StepFor(run, m, s, num) && At(run, m).sess[s].pc == ReplySend(answer)
    ensures HasAnswer(At(run, |run|), s, num, answer) <==> run[m].c.Sent?
  {
    AnswersAreSent(run, |run|, s, num, answer);
    if n: nat :| n < |run| && SendsAt(run, n, s, num, answer) {
      RepliesOnce(run, m, n, s, num);
    }
    assert run[m].c.Sent? ==> SendsAt(run, m, s, num, answer);
  }

  lemma FailedPongEnds(run: seq<Action>, m: nat, s: nat, num: int)
    requires ValidRun(INIT, run) && StepFor(run, m, s, num) && At(run, m).sess[s].pc == ReplySend(Pong)
    requires !run[m].c.Sent?
    ensures s < |At(run, |run|).sess| && EndedAt(At(run, |run|).sess[s], num)
  {
    AtNext(run, m);
    StaysLeft(run, m, |run|, s, num);
  }

  // The handler is past its num-th message: it has read another one, is back at its loop, or ends.
  predicate PastQuestion(o: Session, num: nat) {
    num < |o.inbox| && (num + 1 < |o.inbox| || Free(o.pc))
  }

  /** Every ping and every question who is online is answered: once the handler is past it, one step has tried to send
      the answer, a pong or the list of all registered IDs at an earlier step for this very question. The answer is on
      the socket exactly if that step succeeded, and if it was a pong and failed, the handler has ended there. */
  lemma EveryQuestionAnswered(run: seq<Action>, s: nat, num: nat) returns (m: nat, answer: Answer)
    requires ValidRun(INIT, run) && s < |After(INIT, run).sess| && PastQuestion(After(INIT, run).sess[s], num)
    requires var msg := After(INIT, run).sess[s].inbox[num]; msg == Ping || msg == QueryOnline
    ensures RepliesAt(run, m, s, num) && forall n :: RepliesAt(run, n, s, num) ==> n == m
    ensures var o := After(INIT, run).sess[s];
            && (o.inbox[num] == Ping ==> answer == Pong)
            && (o.inbox[num] == QueryOnline ==>
                  answer.OnlineList? && exists q: nat :: q < m && LooksAt(run, q, s, num, answer.ids))
            && (Reply(num, answer) in o.answers <==> run[m].c.Sent?)
            && (answer.Pong? && !run[m].c.Sent? ==> EndedAt(o, num))
  {
    AtEnds(run);
    m, answer := AnswerOf(run, s, num);
    HandAt(run, m, s);
    ReadOnce(run, m, |run|, s, num);
    OnSocketIfSent(run, m, s, num, answer);
    forall n | RepliesAt(run, n, s, num)
      ensures n == m
    {
      RepliesOnce(run, m, n, s, num);
    }
    if answer.Pong? && !run[m].c.Sent? {
      FailedPongEnds(run, m, s, num);
    }
  }

  lemma AnswerOf(run: seq<Action>, s: nat, num: nat) returns (m: nat, answer: Answer)
    requires ValidRun(INIT, run) && s < |After(INIT, run).sess| && PastQuestion(After(INIT, run).sess[s], num)
    requires var msg := After(INIT, run).sess[s].inbox[num]; msg == Ping || msg == QueryOnline
    ensures m < |run| && AnswerAt(run, m, s, num, answer)
  {
    AtEnds(run);
    AtQuestions(run, |run|, s);
    assert QuestionDone(run, |run|, s, num);
    m, answer :| m < |run| && AnswerAt(run, m, s, num, answer);
  }

  // ---------------------------------------------------------------- what ends a handler

  /** A handler leaves its loop if and only if a read fails, a pong fails, or it has created a channel whose ID is too
      short; a failed list of who is online, or a failed delivery, ends nobody. */
  lemma HandlersEnd(st: State, a: Action, s: nat)
    requires HandInv(st) && Enabled(st, a) && s < |st.sess| && !Ending(st.sess[s].pc)
    ensures s < |Do(st, a).sess|
    ensures Ending(Do(st, a).sess[s].pc) <==>
              && Moves(a, s)
              && var o := st.sess[s];
                 || (o.pc.Reading? && a.c.ReadError?)
                 || (o.pc == ReplySend(Pong) && o.inbox != [] && Hand(o) == Ping && a.c.SendFailed?)
                 || (o.pc.CreateAdd? && o.pc.todo == [] && |o.pc.chan| < 12)
  {
    SessionFrame(st, a, s);
    assert HandOk(st.sess[s]);
    if Moves(a, s) {
      OwnSession(st, s, a.c);
      OwnEnd(st, s, a.c);
    }
  }

  lemma OwnEnd(st: State, s: nat, ch: Choice)
    requires Enabled(st, Run(Handler(s), ch)) && !Ending(st.sess[s].pc)
    ensures var pc := st.sess[s].pc;
            Ending(HandlerGoto(st, s, ch)) <==>
              || (pc.Reading? && ch.ReadError?)
              || (pc == ReplySend(Pong) && ch.SendFailed?)
              || (pc.CreateAdd? && pc.todo == [] && |pc.chan| < 12)
  {
  }

  // ---------------------------------------------------------------- what may happen

  /** Nothing that the sockets or the maps may do is left out: anybody can connect at any time; whoever reads can read
      any message or fail; each send can succeed or fail; and a snapshot can list the other members in any order. */
  lemma AnythingHappens(st: State, id: Id, s: nat, d: nat, msg: Msg, ts: seq<Id>)
    requires WellFormed(st)
    ensures Enabled(st, Accept(id))
    ensures s < |st.sess| && st.sess[s].pc.Reading? ==>
              Enabled(st, Run(Handler(s), Recv(msg))) && Enabled(st, Run(Handler(s), ReadError))
    ensures s < |st.sess| && st.sess[s].pc.ReplySend? ==>
              Enabled(st, Run(Handler(s), Sent)) && Enabled(st, Run(Handler(s), SendFailed))
    ensures s < |st.sess| && st.sess[s].pc.SnapTake? && Current(st.sess[s]) in st.index && Lists(ts, Targets(st, s)) ==>
              Enabled(st, Run(Handler(s), Order(ts)))
    ensures d < |st.couriers| && st.couriers[d].stage.Sending? ==>
              Enabled(st, Run(Courier(d), Sent)) && Enabled(st, Run(Courier(d), SendFailed))
  {
  }
}
