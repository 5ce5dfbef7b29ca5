/** When a channel without members is in the index. */
module RelayEmpty {
  import opened RelayModel
  import opened RelayLocks
  import opened RelayProgress
  import opened RelayHand

  predicate Empty(st: State, c: Chan) {
    c in st.index && st.index[c] == {}
  }

  // The step enters channel c into the index, with nobody in it yet.
  predicate Opens(st: State, a: Action, c: Chan) {
    a.Run? && a.t.Handler? && a.t.s < |st.sess| && st.sess[a.t.s].pc.CreateAcquire? && st.sess[a.t.s].pc.chan == c
    && c !in st.index
  }

  // The step adds a member to c, or takes the channel out if it is empty.
  predicate Touches(st: State, a: Action, c: Chan) {
    && a.Run? && a.t.Handler? && a.t.s < |st.sess|
    && var o := st.sess[a.t.s];
       || (o.pc.CreateAdd? && o.pc.chan == c && o.pc.todo != [])
       || o.pc == LeaveIndex(c)
       || (o.pc.DownClean? && c in o.channels)
  }

  /** A step leaves a channel empty if and only if it enters it into the index, or the channel was empty and the step is
      no addition to it, no leave from it and no teardown of a session pinned to it. */
  lemma EmptyStep(st: State, a: Action, c: Chan)
    requires Enabled(st, a)
    ensures Empty(Do(st, a), c) <==> Opens(st, a, c) || (Empty(st, c) && !Touches(st, a, c))
  {
  }

  ghost predicate TouchedAt(run: seq<Action>, j: nat, c: Chan)
    requires ValidRun(INIT, run) && j < |run|
  {
    Touches(At(run, j), run[j], c)
  }

  ghost predicate OpensAt(run: seq<Action>, i: nat, c: Chan)
    requires ValidRun(INIT, run) && i < |run|
  {
    Opens(At(run, i), run[i], c)
  }

  ghost predicate Untouched(run: seq<Action>, n: nat, i: nat, c: Chan)
    requires ValidRun(INIT, run) && n <= |run|
  {
    forall j :: i < j < n ==> !TouchedAt(run, j, c)
  }

  // Step i has entered c into the index, and up to step n nothing has touched it.
  ghost predicate OpenedAt(run: seq<Action>, n: nat, i: nat, c: Chan)
    requires ValidRun(INIT, run) && n <= |run|
  {
    i < n && OpensAt(run, i, c) && Untouched(run, n, i, c)
  }

  lemma OpenedNext(run: seq<Action>, n: nat, i: nat, c: Chan)
    requires ValidRun(INIT, run) && n < |run|
    ensures OpenedAt(run, n + 1, i, c) <==>
              (i == n && OpensAt(run, n, c)) || (OpenedAt(run, n, i, c) && !TouchedAt(run, n, c))
  {
    if i < n {
      assert Untouched(run, n + 1, i, c) <==> Untouched(run, n, i, c) && !TouchedAt(run, n, c);
    }
  }

  /** Over every run and at every moment a channel is empty if and only if it was entered and not touched since. */
  lemma {:induction false} EmptyIsHistory(run: seq<Action>, n: nat, c: Chan)
    requires ValidRun(INIT, run) && n <= |run|
    ensures Empty(At(run, n), c) <==> exists i: nat :: OpenedAt(run, n, i, c)
  {
    AtEnds(run);
    if n > 0 {
      var m := n - 1;
      EmptyIsHistory(run, m, c);
      AtNext(run, m);
      EmptyStep(At(run, m), run[m], c);
      forall i: nat
        ensures OpenedAt(run, n, i, c) <==>
                  (i == m && OpensAt(run, m, c)) || (OpenedAt(run, m, i, c) && !TouchedAt(run, m, c))
      {
        OpenedNext(run, m, i, c);
      }
      if Empty(At(run, n), c) {
        if OpensAt(run, m, c) {
          assert OpenedAt(run, n, m, c);
        } else {
          var i: nat :| OpenedAt(run, m, i, c);
          assert OpenedAt(run, n, i, c);
        }
      }
    }
  }

  // ---------------------------------------------------------------- with the index unlocked

  // The message in hand creates c for these members.
  predicate InHand(o: Session, c: Chan, members: seq<Id>) {
    o.inbox != [] && EventIn(Hand(o)) == Created(c, members)
  }

  lemma OpensThenAdds(st: State, a: Action, c: Chan)
    requires Enabled(st, a) && Opens(st, a, c)
    ensures a.t.s < |Do(st, a).sess| && Do(st, a).sess[a.t.s].pc == CreateAdd(c, st.sess[a.t.s].pc.todo)
  {
  }

  lemma AddsUntilTouched(st: State, a: Action, s: nat, c: Chan, todo: seq<Id>)
    requires Enabled(st, a) && s < |st.sess| && st.sess[s].pc == CreateAdd(c, todo) && todo != [] && !Touches(st, a, c)
    ensures s < |Do(st, a).sess| && Do(st, a).sess[s].pc == CreateAdd(c, todo)
  {
    assert !Moves(a, s);
    SessionFrame(st, a, s);
  }

  // A creation that names somebody keeps the lock until it has touched the channel.
  lemma {:induction false} StillAdding(run: seq<Action>, n: nat, i: nat, c: Chan)
    requires ValidRun(INIT, run) && n <= |run| && OpenedAt(run, n, i, c)
    requires At(run, i).sess[run[i].t.s].pc.todo != []
    ensures var s := run[i].t.s;
            && s < |At(run, n).sess|
            && At(run, n).sess[s].pc == CreateAdd(c, At(run, i).sess[s].pc.todo)
  {
    var s := run[i].t.s;
    AtNext(run, n - 1);
    if n - 1 == i {
      OpensThenAdds(At(run, i), run[i], c);
    } else {
      assert OpenedAt(run, n - 1, i, c);
      StillAdding(run, n - 1, i, c);
      assert !TouchedAt(run, n - 1, c);
      AddsUntilTouched(At(run, n - 1), run[n - 1], s, c, At(run, i).sess[s].pc.todo);
    }
  }

  // Step i is a creation of c for nobody, which finds c not in the index.
  ghost predicate CreatesForNobody(run: seq<Action>, i: nat, c: Chan)
    requires ValidRun(INIT, run) && i < |run|
  {
    OpensAt(run, i, c) && InHand(At(run, i).sess[run[i].t.s], c, [])
  }

  // While nobody writes the index, what has been entered and not touched was entered for nobody.
  lemma OpenedForNobody(run: seq<Action>, i: nat, c: Chan)
    requires ValidRun(INIT, run) && OpenedAt(run, |run|, i, c)
    requires Owners(After(INIT, run).owners, Write(IndexMu)) == {}
    ensures CreatesForNobody(run, i, c)
  {
    var s := run[i].t.s;
    if At(run, i).sess[s].pc.todo != [] {
      StillAdding(run, |run|, i, c);
      AddingHolds(run, s);
    }
    AtHand(run, i);
    assert HandOk(At(run, i).sess[s]);
  }

  lemma AddingHolds(run: seq<Action>, s: nat)
    requires ValidRun(INIT, run) && Owners(After(INIT, run).owners, Write(IndexMu)) == {}
    ensures s < |At(run, |run|).sess| ==> !At(run, |run|).sess[s].pc.CreateAdd?
  {
    AtEnds(run);
    ReachableInv(run);
    var st := After(INIT, run);
    assert Owns(st, Handler(s), Write(IndexMu)) <==> Write(IndexMu) in Held(st, Handler(s));
  }

  /** Whenever nobody writes the index, a channel in it is empty if and only if it was entered by a creation that names
      nobody and nothing has touched it since. */
  lemma EmptyExactly(run: seq<Action>, c: Chan)
    requires ValidRun(INIT, run) && Owners(After(INIT, run).owners, Write(IndexMu)) == {}
    ensures Empty(After(INIT, run), c) <==>
              exists i: nat :: OpenedAt(run, |run|, i, c) && CreatesForNobody(run, i, c)
  {
    AtEnds(run);
    EmptyIsHistory(run, |run|, c);
    forall i: nat | OpenedAt(run, |run|, i, c)
      ensures CreatesForNobody(run, i, c)
    {
      OpenedForNobody(run, i, c);
    }
  }

  // Every creation names at least one member, as cmd/lan-a2a/main.go:166 builds them.
  ghost predicate NamesMembers(msgs: seq<Msg>) {
    forall i :: 0 <= i < |msgs| && msgs[i].Text? && msgs[i].event.Created? ==> msgs[i].event.members != []
  }

  ghost predicate AllNameMembers(st: State) {
    forall s :: 0 <= s < |st.sess| ==> NamesMembers(st.sess[s].inbox)
  }

  lemma NobodyIsVisible(run: seq<Action>, i: nat, c: Chan)
    requires ValidRun(INIT, run) && i < |run| && CreatesForNobody(run, i, c)
    ensures !AllNameMembers(After(INIT, run))
  {
    var s := run[i].t.s;
    AtEnds(run);
    InboxesGrow(run, i, |run|, s);
    var box, all := At(run, i).sess[s].inbox, After(INIT, run).sess[s].inbox;
    assert all[|box| - 1] == box[|box| - 1];
    assert !NamesMembers(all);
  }

  /** So as long as every creation message names somebody, no indexed channel is ever empty while nobody writes the
      index. */
  lemma NoEmptyChannels(run: seq<Action>, c: Chan)
    requires ValidRun(INIT, run) && AllNameMembers(After(INIT, run))
    requires Owners(After(INIT, run).owners, Write(IndexMu)) == {}
    ensures c in After(INIT, run).index ==> After(INIT, run).index[c] != {}
  {
    EmptyExactly(run, c);
    forall i: nat | OpenedAt(run, |run|, i, c)
      ensures !CreatesForNobody(run, i, c)
    {
      if CreatesForNobody(run, i, c) {
        NobodyIsVisible(run, i, c);
      }
    }
  }
}
