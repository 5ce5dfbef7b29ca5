/** The channel index against the messages: it is what the creations, leaves and teardowns give, each applied at one
    moment, in the order in which they release channelIndexMu. */
module RelayFold {
  import opened RelayModel
  import opened RelayLocks
  import opened RelayProgress
  import opened RelayRemains
  import opened RelayHand

  // ---------------------------------------------------------------- what a message asks for

  datatype Write =
    | Creation(chan: Chan, members: seq<Id>)
    | Leave(chan: Chan, id: Id)
    | Teardown(channels: set<Chan>, id: Id)

  function SetOf(ids: seq<Id>): set<Id> {
    set x | x in ids
  }

  function WithMembers(index: map<Chan, set<Id>>, c: Chan, members: seq<Id>): map<Chan, set<Id>> {
    index[c := (if c in index then index[c] else {}) + SetOf(members)]
  }

  function Applied(index: map<Chan, set<Id>>, w: Write): map<Chan, set<Id>> {
    match w
    case Creation(c, members) => WithMembers(index, c, members)
    case Leave(c, id) => WithoutMember(index, c, id)
    case Teardown(channels, id) => WithoutMemberOf(index, channels, id)
  }

  function Fold(writes: seq<Write>): map<Chan, set<Id>> {
    if writes == [] then map[] else Applied(Fold(writes[..|writes| - 1]), writes[|writes| - 1])
  }

  // What session o asks of the index: its message in hand tells, and outside of messages it is its teardown.
  function WriteOf(o: Session): Write {
    if !Handling(o.pc) || o.inbox == [] then Teardown(o.channels, o.id)
    else
      match EventIn(Hand(o))
      case Created(c, members) => Creation(c, members)
      case PeerLeft(c) => Leave(c, o.id)
      case NoEvent => Teardown({}, o.id)
  }

  // The step releases channelIndexMu after writing.
  ghost predicate Commits(st: State, a: Action) {
    && a.Run? && a.t.Handler? && a.t.s < |st.sess| && PcOk(st, a.t.s)
    && HandlerOp(st, a.t.s) == Unlock(IndexMu)
  }

  // The writes of the first n steps, in the order of their releases.
  ghost function Writes(run: seq<Action>, n: nat): seq<Write>
    requires ValidRun(INIT, run) && n <= |run|
  {
    if n == 0 then []
    else Writes(run, n - 1)
         + if Commits(At(run, n - 1), run[n - 1]) then [WriteOf(At(run, n - 1).sess[run[n - 1].t.s])] else []
  }

  // ---------------------------------------------------------------- a creation under way

  // All members but the last `left`, and the first of these if it has been added already.
  function Part(members: seq<Id>, left: nat, addedOne: bool): seq<Id>
    requires left <= |members|
  {
    if addedOne && left > 0 then members[..|members| - left + 1] else members[..|members| - left]
  }

  lemma PartNext(members: seq<Id>, left: nat)
    requires 0 < left <= |members|
    ensures SetOf(Part(members, left, true)) == SetOf(Part(members, left, false)) + {members[|members| - left]}
    ensures Part(members, left - 1, false) == Part(members, left, true)
  {
    assert Part(members, left, true) == Part(members, left, false) + [members[|members| - left]];
  }

  // The members a creation has added so far.
  function AddedSoFar(o: Session): seq<Id>
    requires Adding(o.pc) && HandOk(o)
  {
    Part(EventIn(Hand(o)).members, |o.pc.todo|, !o.pc.CreateAdd?)
  }

  // With `done` the index of the writes released so far, the index is that and what the creation under way has added.
  ghost predicate FoldOk(st: State, done: map<Chan, set<Id>>)
    requires HandInv(st)
  {
    && (forall s :: 0 <= s < |st.sess| && Adding(st.sess[s].pc) ==>
          st.index == WithMembers(done, st.sess[s].pc.chan, AddedSoFar(st.sess[s])))
    && (NobodyAdds(st) ==> st.index == done)
  }

  ghost predicate NobodyAdds(st: State) {
    forall s :: 0 <= s < |st.sess| ==> !Adding(st.sess[s].pc)
  }

  // A handler that writes the index, or is about to, excludes every creation but its own.
  lemma NoOtherAdds(st: State, s: nat, t: nat)
    requires Inv(st) && s < |st.sess| && t < |st.sess| && Adding(st.sess[t].pc)
    requires Write(IndexMu) in HeldByHandler(st.sess[s].pc, s) || Pending(IndexMu) in HeldByHandler(st.sess[s].pc, s)
    ensures s == t
  {
    assert Owns(st, Handler(t), Write(IndexMu));
    assert Owns(st, Handler(s), Write(IndexMu)) || Owns(st, Handler(s), Pending(IndexMu));
  }

  // The steps that change the index or release it.
  predicate AtIndex(pc: Pc) {
    pc.CreateAcquire? || Adding(pc) || pc.LeaveIndex? || pc.DownClean?
  }

  lemma OtherSteps(st: State, s: nat, ch: Choice)
    requires Enabled(st, Run(Handler(s), ch)) && !AtIndex(st.sess[s].pc)
    ensures IndexAfter(st, s) == st.index && !Commits(st, Run(Handler(s), ch))
    ensures !Adding(HandlerGoto(st, s, ch))
  {
  }

  // The index after the release, by the handler's own message.
  lemma ReleaseStep(st: State, s: nat, ch: Choice, done: map<Chan, set<Id>>)
    requires Inv(st) && HandInv(st) && FoldOk(st, done) && Enabled(st, Run(Handler(s), ch))
    requires Commits(st, Run(Handler(s), ch))
    ensures IndexAfter(st, s) == Applied(done, WriteOf(st.sess[s])) && !Adding(HandlerGoto(st, s, ch))
  {
    var o := st.sess[s];
    assert HandOk(o);
    if o.pc.CreateAdd? {
      assert AddedSoFar(o) == EventIn(Hand(o)).members;
    } else {
      AloneAtIndex(st, s);
    }
  }

  lemma AloneAtIndex(st: State, s: nat)
    requires Inv(st) && s < |st.sess| && AtIndex(st.sess[s].pc) && !Adding(st.sess[s].pc)
    ensures NobodyAdds(st)
  {
    forall t | 0 <= t < |st.sess|
      ensures !Adding(st.sess[t].pc)
    {
      if Adding(st.sess[t].pc) {
        NoOtherAdds(st, s, t);
      }
    }
  }

  // How a creation goes on that does not end here.
  predicate AddNext(pc: Pc, pc': Pc) {
    && Adding(pc) && Adding(pc') && pc'.chan == pc.chan && pc.todo != []
    && (if pc.CreateAdd? then !pc'.CreateAdd? && pc'.todo == pc.todo
        else if pc'.CreateAdd? then pc'.todo == pc.todo[1..]
        else pc'.todo == pc.todo)
  }

  lemma AddGoto(st: State, s: nat, ch: Choice)
    requires s < |st.sess| && PcOk(st, s) && Adding(st.sess[s].pc) && !Commits(st, Run(Handler(s), ch))
    ensures var pc := st.sess[s].pc;
            && AddNext(pc, HandlerGoto(st, s, ch))
            && IndexAfter(st, s) == if pc.CreateAdd? then WithMembers(st.index, pc.chan, [pc.todo[0]]) else st.index
  {
    var pc := st.sess[s].pc;
    assert pc.todo != [] ==> SetOf([pc.todo[0]]) == {pc.todo[0]};
  }

  lemma AddedNext(o: Session, pc': Pc)
    requires HandOk(o) && AddNext(o.pc, pc')
    ensures var o' := o.(pc := pc');
            && HandOk(o')
            && SetOf(AddedSoFar(o')) == SetOf(AddedSoFar(o)) + if o.pc.CreateAdd? then {o.pc.todo[0]} else {}
  {
    KeepsNext(o, pc');
    SuffixNext(o.pc.todo, EventIn(Hand(o)).members);
    PartNext(EventIn(Hand(o)).members, |o.pc.todo|);
  }

  lemma WithOneMore(index: map<Chan, set<Id>>, c: Chan, members: seq<Id>, more: seq<Id>, id: Id)
    requires SetOf(more) == SetOf(members) + {id}
    ensures WithMembers(WithMembers(index, c, members), c, [id]) == WithMembers(index, c, more)
  {
    var before := if c in index then index[c] else {};
    assert SetOf([id]) == {id};
    assert before + SetOf(members) + {id} == before + SetOf(more);
  }

  // A creation goes on.
  lemma AddStep(st: State, s: nat, ch: Choice, done: map<Chan, set<Id>>)
    requires HandInv(st) && FoldOk(st, done) && Enabled(st, Run(Handler(s), ch))
    requires Adding(st.sess[s].pc) && !Commits(st, Run(Handler(s), ch))
    ensures var o' := st.sess[s].(pc := HandlerGoto(st, s, ch));
            && HandOk(o') && Adding(o'.pc)
            && IndexAfter(st, s) == WithMembers(done, o'.pc.chan, AddedSoFar(o'))
  {
    var o := st.sess[s];
    assert HandOk(o);
    AddGoto(st, s, ch);
    AddedNext(o, HandlerGoto(st, s, ch));
    if o.pc.CreateAdd? {
      var o' := o.(pc := HandlerGoto(st, s, ch));
      WithOneMore(done, o.pc.chan, AddedSoFar(o), AddedSoFar(o'), o.pc.todo[0]);
    }
  }

  lemma OpenGoto(st: State, s: nat, ch: Choice)
    requires s < |st.sess| && PcOk(st, s) && st.sess[s].pc.CreateAcquire?
    ensures HandlerGoto(st, s, ch) == CreateAdd(st.sess[s].pc.chan, st.sess[s].pc.todo)
    ensures IndexAfter(st, s) == WithMembers(st.index, st.sess[s].pc.chan, [])
  {
    WithNone(st.index, st.sess[s].pc.chan);
  }

  lemma WithNone(index: map<Chan, set<Id>>, c: Chan)
    ensures WithMembers(index, c, []) == if c in index then index else index[c := {}]
  {
    var before: set<Id> := if c in index then index[c] else {};
    assert before + SetOf([]) == before;
    assert c in index ==> index[c := index[c]] == index;
  }

  lemma OpenStep(st: State, s: nat, ch: Choice, done: map<Chan, set<Id>>)
    requires Inv(st) && HandInv(st) && FoldOk(st, done) && Enabled(st, Run(Handler(s), ch))
    requires st.sess[s].pc.CreateAcquire?
    ensures var o' := st.sess[s].(pc := HandlerGoto(st, s, ch));
            && HandOk(o') && Adding(o'.pc)
            && IndexAfter(st, s) == WithMembers(done, o'.pc.chan, AddedSoFar(o'))
  {
    assert HandOk(st.sess[s]);
    OpenGoto(st, s, ch);
    AloneAtIndex(st, s);
    assert AddedSoFar(st.sess[s].(pc := HandlerGoto(st, s, ch))) == [];
  }

  lemma AddedAlike(o: Session, o': Session)
    requires Adding(o.pc) && HandOk(o) && o'.pc == o.pc && o'.inbox == o.inbox
    ensures HandOk(o') && AddedSoFar(o') == AddedSoFar(o)
  {
  }

  ghost function Released(st: State, a: Action, done: map<Chan, set<Id>>): map<Chan, set<Id>> {
    if Commits(st, a) then Applied(done, WriteOf(st.sess[a.t.s])) else done
  }

  // A step that leaves the creations and the index alone.
  lemma FoldKept(st: State, a: Action, done: map<Chan, set<Id>>)
    requires Inv(st) && HandInv(st) && FoldOk(st, done) && Enabled(st, a) && HandInv(Do(st, a))
    requires Do(st, a).index == st.index && !Commits(st, a)
    requires forall s :: 0 <= s < |st.sess| && Moves(a, s) ==> !Adding(st.sess[s].pc) && !Adding(Do(st, a).sess[s].pc)
    ensures FoldOk(Do(st, a), done)
  {
    var st' := Do(st, a);
    forall s | 0 <= s < |st'.sess|
      ensures s < |st.sess| && !Moves(a, s) ==>
                st'.sess[s].pc == st.sess[s].pc && st'.sess[s].inbox == st.sess[s].inbox
      ensures Adding(st'.sess[s].pc) ==>
                s < |st.sess| && !Moves(a, s) && AddedSoFar(st'.sess[s]) == AddedSoFar(st.sess[s])
    {
      if s < |st.sess| {
        SessionFrame(st, a, s);
        assert HandOk(st.sess[s]);
        if Adding(st'.sess[s].pc) {
          AddedAlike(st.sess[s], st'.sess[s]);
        }
      }
    }
    if NobodyAdds(st') {
      forall s | 0 <= s < |st.sess|
        ensures !Adding(st.sess[s].pc)
      {
        SessionFrame(st, a, s);
        assert !Adding(st'.sess[s].pc);
      }
    }
  }

  // With session s the only one that may be adding.
  lemma FoldOfOne(st: State, s: nat, done: map<Chan, set<Id>>)
    requires HandInv(st) && s < |st.sess| && forall t :: 0 <= t < |st.sess| && t != s ==> !Adding(st.sess[t].pc)
    requires Adding(st.sess[s].pc) ==>
               HandOk(st.sess[s]) && st.index == WithMembers(done, st.sess[s].pc.chan, AddedSoFar(st.sess[s]))
    requires !Adding(st.sess[s].pc) ==> st.index == done
    ensures FoldOk(st, done)
  {
  }

  // A step of the one handler that writes the index.
  lemma FoldWrites(st: State, s: nat, ch: Choice, done: map<Chan, set<Id>>)
    requires Inv(st) && HandInv(st) && FoldOk(st, done) && Enabled(st, Run(Handler(s), ch)) && AtIndex(st.sess[s].pc)
    requires HandInv(Do(st, Run(Handler(s), ch)))
    ensures FoldOk(Do(st, Run(Handler(s), ch)), Released(st, Run(Handler(s), ch), done))
  {
    var a := Run(Handler(s), ch);
    OwnSession(st, s, ch);
    OthersDoNotAdd(st, s, ch);
    if Commits(st, a) {
      ReleaseStep(st, s, ch, done);
    } else {
      AddsOrOpens(st, s, ch, done);
      AddedAlike(st.sess[s].(pc := HandlerGoto(st, s, ch)), Do(st, a).sess[s]);
    }
    FoldOfOne(Do(st, a), s, Released(st, a, done));
  }

  lemma AddsOrOpens(st: State, s: nat, ch: Choice, done: map<Chan, set<Id>>)
    requires Inv(st) && HandInv(st) && FoldOk(st, done) && Enabled(st, Run(Handler(s), ch)) && AtIndex(st.sess[s].pc)
    requires !Commits(st, Run(Handler(s), ch))
    ensures var o' := st.sess[s].(pc := HandlerGoto(st, s, ch));
            && HandOk(o') && Adding(o'.pc)
            && IndexAfter(st, s) == WithMembers(done, o'.pc.chan, AddedSoFar(o'))
  {
    if Adding(st.sess[s].pc) {
      AddStep(st, s, ch, done);
    } else {
      OpenStep(st, s, ch, done);
    }
  }

  lemma OthersDoNotAdd(st: State, s: nat, ch: Choice)
    requires Inv(st) && Enabled(st, Run(Handler(s), ch)) && AtIndex(st.sess[s].pc)
    ensures forall t :: 0 <= t < |st.sess| && t != s ==> !Adding(SessionsAfter(st, s, ch)[t].pc)
  {
    forall t | 0 <= t < |st.sess| && t != s
      ensures !Adding(SessionsAfter(st, s, ch)[t].pc)
    {
      HandlerFrame(st, s, ch, t);
      if Adding(st.sess[t].pc) {
        NoOtherAdds(st, s, t);
      }
    }
  }

  lemma FoldStep(st: State, a: Action, done: map<Chan, set<Id>>)
    requires Inv(st) && HandInv(st) && FoldOk(st, done) && Enabled(st, a) && HandInv(Do(st, a))
    ensures FoldOk(Do(st, a), Released(st, a, done))
  {
    if a.Run? && a.t.Handler? {
      if AtIndex(st.sess[a.t.s].pc) {
        FoldWrites(st, a.t.s, a.c, done);
      } else {
        OtherSteps(st, a.t.s, a.c);
        OwnSession(st, a.t.s, a.c);
        FoldKept(st, a, done);
      }
    } else {
      FoldKept(st, a, done);
    }
  }

  lemma WritesNext(run: seq<Action>, n: nat)
    requires ValidRun(INIT, run) && n < |run|
    ensures Fold(Writes(run, n + 1)) == Released(At(run, n), run[n], Fold(Writes(run, n)))
  {
    if Commits(At(run, n), run[n]) {
      assert Writes(run, n + 1)[..|Writes(run, n)|] == Writes(run, n);
    } else {
      assert Writes(run, n + 1) == Writes(run, n);
    }
  }

  lemma {:induction false} AtFold(run: seq<Action>, n: nat)
    requires ValidRun(INIT, run) && n <= |run|
    ensures HandInv(At(run, n)) && FoldOk(At(run, n), Fold(Writes(run, n)))
  {
    AtHand(run, n);
    if n == 0 {
      AtEnds(run);
      assert Writes(run, 0) == [];
    } else {
      var m := n - 1;
      AtFold(run, m);
      AtInv(run, m);
      AtNext(run, m);
      WritesNext(run, m);
      FoldStep(At(run, m), run[m], Fold(Writes(run, m)));
    }
  }

  /** The index is what the messages ask for: at any moment of any run, while nobody writes the index, it is the result
      of all creations, leaves and teardowns released so far, each applied as a whole, in the order of their
      releases. */
  lemma IndexIsFold(run: seq<Action>, n: nat)
    requires ValidRun(INIT, run) && n <= |run| && Owners(At(run, n).owners, Write(IndexMu)) == {}
    ensures At(run, n).index == Fold(Writes(run, n))
  {
    AtFold(run, n);
    AtInv(run, n);
    NobodyOwns(At(run, n));
  }

  lemma NobodyOwns(st: State)
    requires Inv(st) && Owners(st.owners, Write(IndexMu)) == {}
    ensures NobodyAdds(st)
  {
    forall s | 0 <= s < |st.sess|
      ensures !Adding(st.sess[s].pc)
    {
      assert Owns(st, Handler(s), Write(IndexMu)) <==> Write(IndexMu) in Held(st, Handler(s));
    }
  }

  /** A creation about to release the index has added every member that the message in hand names, and keeps those who
      were there. */
  lemma CreationAddsAll(run: seq<Action>, n: nat, s: nat)
    requires ValidRun(INIT, run) && n <= |run| && s < |At(run, n).sess|
    requires At(run, n).sess[s].pc.CreateAdd? && At(run, n).sess[s].pc.todo == []
    ensures var st := At(run, n); var o := st.sess[s];
            && o.inbox != [] && EventIn(Hand(o)).Created? && EventIn(Hand(o)).chan == o.pc.chan && o.pc.chan in st.index
            && forall x :: x in EventIn(Hand(o)).members ==> x in st.index[o.pc.chan]
  {
    AtFold(run, n);
    var o := At(run, n).sess[s];
    assert HandOk(o);
    assert AddedSoFar(o) == EventIn(Hand(o)).members;
  }
}
