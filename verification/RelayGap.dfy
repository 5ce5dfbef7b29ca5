/** Three runs that show where the index keeps more than it should: an agent that is named again between the two
    halves of its leave stays a member for good, so does one whose session is replaced, and a creation without members
    leaves an empty channel. */
module RelayGap {
  import opened RelayModel
  import opened RelayProgress
  import opened RelayIndex
  import opened RelayRemains
  import opened RelayScenes

  // ---------------------------------------------------------------- a session replaced while it is pinned

  lemma NamedOnce(a: Id, b: Id, c: Chan) returns (run: seq<Action>)
    requires a != b && c != ""
    ensures ValidRun(INIT, run) && Alone(After(INIT, run), 1)
    ensures var st := After(INIT, run);
            && |st.sess| == 2 && st.sess[0] == Session(a, {}, false, [], [], [], Reading)
            && st.sess[1].id == b && st.sess[1].pc == CreateMark(c, [a], 0)
            && st.agents == map[a := 0, b := 1] && st.index == map[c := {a}] && st.log == [Added(c, a)]
  {
    run := TwoAgents(a, b);
    run := Names(run, 1, c, a);
  }

  lemma PinnedOnce(a: Id, b: Id, c: Chan) returns (run: seq<Action>)
    requires a != b && |c| >= 12
    ensures ValidRun(INIT, run) && Alone(After(INIT, run), 1)
    ensures var st := After(INIT, run);
            && |st.sess| == 2 && st.sess[0] == Session(a, {c}, false, [], [], [], Reading)
            && st.sess[1].id == b && st.sess[1].pc == SnapLock
            && st.agents == map[a := 0, b := 1] && st.index == map[c := {a}] && st.log == [Added(c, a), Pinned(c, a, 0)]
  {
    run := NamedOnce(a, b, c);
    run := Pins(run, 1, c, a, 0);
  }

  // The agent opens a second session while its first one is live.
  lemma SecondSession(a: Id, b: Id, c: Chan) returns (run: seq<Action>)
    requires a != b && |c| >= 12
    ensures ValidRun(INIT, run) && Alone(After(INIT, run), 0)
    ensures var st := After(INIT, run);
            && |st.sess| == 3 && st.sess[0] == Session(a, {c}, true, [], [], [], Reading)
            && st.sess[1].id == b && st.sess[1].pc == SnapLock
            && st.sess[2] == Session(a, {}, false, [], [], [], Reading)
            && st.index == map[c := {a}] && st.log == [Added(c, a), Pinned(c, a, 0)]
  {
    run := PinnedOnce(a, b, c);
    run := Joins(run, a);
  }

  lemma FirstSessionDies(a: Id, b: Id, c: Chan) returns (run: seq<Action>)
    requires a != b && |c| >= 12
    ensures ValidRun(INIT, run) && Alone(After(INIT, run), 2)
    ensures var st := After(INIT, run);
            && |st.sess| == 3 && st.sess[0].id == a && st.sess[0].pc == Dead
            && st.sess[1].id == b && st.sess[1].pc == SnapLock
            && st.sess[2] == Session(a, {}, false, [], [], [], Reading)
            && st.index == map[c := {a}] && st.log == [Added(c, a), Pinned(c, a, 0)]
  {
    run := SecondSession(a, b, c);
    var before := After(INIT, run);
    run := Breaks(run, 0);
    assert After(INIT, run).sess == before.sess[0 := before.sess[0].(pc := Dead)];
    Yields(After(INIT, run), 0, 2);
  }

  lemma BothSessionsGone(a: Id, b: Id, c: Chan) returns (run: seq<Action>)
    requires a != b && |c| >= 12
    ensures ValidRun(INIT, run)
    ensures var st := After(INIT, run);
            && |st.sess| == 3 && st.sess[0].id == a && st.sess[0].pc == Dead
            && st.sess[2].id == a && st.sess[2].pc == Dead
            && st.sess[1].id == b && st.sess[1].pc == SnapLock
            && st.index == map[c := {a}] && st.log == [Added(c, a), Pinned(c, a, 0), Cleaned(a, 2)]
  {
    run := FirstSessionDies(a, b, c);
    var before := After(INIT, run);
    run := Disconnects(run, 2);
    assert After(INIT, run).sess[0] == before.sess[0] && After(INIT, run).sess[1] == before.sess[1];
  }

  lemma NothingLoose(log: seq<Event>, c: Chan, id: Id)
    requires forall e :: e in log ==> !e.Unclaimed? && !e.Unpinned?
    ensures !Stray(log, c, id)
  {
    forall i | 0 <= i < |log|
      ensures !LooseAt(log, i, c, id)
    {
      assert log[i] in log;
    }
  }

  /** A second session of the same ID loses the first one's memberships: there is a run after which both sessions have
      ended, the agent was registered when it was named and has left nothing halfway, and it is still in the channel. */
  lemma ReplacedStays(a: Id, b: Id, c: Chan) returns (run: seq<Action>)
    requires a != b && |c| >= 12
    ensures ValidRun(INIT, run)
    ensures var st := After(INIT, run);
            && AllDead(st, a) && Settled(st, c, a)
            && st.log == [Added(c, a), Pinned(c, a, 0), Cleaned(a, 2)] && !Stray(st.log, c, a)
            && c in st.index && a in st.index[c]
  {
    run := BothSessionsGone(a, b, c);
    NothingLoose(After(INIT, run).log, c, a);
  }

  // ---------------------------------------------------------------- a creation for nobody

  /** A creation that names nobody leaves an empty channel in the index, with channelIndexMu free. */
  lemma EmptyChannelStays(a: Id, c: Chan) returns (run: seq<Action>)
    requires |c| >= 12
    ensures ValidRun(INIT, run) && Owners(After(INIT, run).owners, Write(IndexMu)) == {}
    ensures var st := After(INIT, run); c in st.index && st.index[c] == {}
  {
    run := OneAgent(a);
    run := Opens(run, 0, c, []);
    run := Closes(run, 0, c);
  }

  // ---------------------------------------------------------------- an agent named again while it leaves

  // The agent of session 0 when it has asked to leave c.
  function Leaver(a: Id, c: Chan, pc: Pc): Session {
    Session(a, {}, false, [Text(c, PeerLeft(c), "")], [], [], pc)
  }

  // Session 0 has begun to leave c; session 1 is idle.
  lemma LeaveBegins(a: Id, b: Id, c: Chan) returns (run: seq<Action>)
    requires a != b && c != ""
    ensures ValidRun(INIT, run) && Alone(After(INIT, run), 1)
    ensures var st := After(INIT, run);
            && |st.sess| == 2 && st.sess[0] == Leaver(a, c, LeaveLock(c))
            && st.sess[1] == Session(b, {}, false, [], [], [], Reading)
            && st.agents == map[a := 0, b := 1] && st.index == map[] && st.log == [Departed(c, a)]
  {
    run := LeaveAsked(a, b, c);
    var before := After(INIT, run);
    run := Unindexes(run, 0, c);
    var st := After(INIT, run);
    assert st.sess[0] == Leaver(a, c, LeaveLock(c)) && st.sess[1] == before.sess[1];
    Yields(st, 0, 1);
  }

  lemma LeaveAsked(a: Id, b: Id, c: Chan) returns (run: seq<Action>)
    requires a != b && c != ""
    ensures ValidRun(INIT, run) && Alone(After(INIT, run), 0)
    ensures var st := After(INIT, run);
            && |st.sess| == 2 && st.sess[0] == Leaver(a, c, LeaveAcquire(c))
            && st.sess[1] == Session(b, {}, false, [], [], [], Reading)
            && st.agents == map[a := 0, b := 1] && st.index == map[] && st.log == []
  {
    run := TwoAgents(a, b);
    run := AsksToLeave(run, 0, c);
    var none: seq<Msg> := [];
    assert none + [Text(c, PeerLeft(c), "")] == [Text(c, PeerLeft(c), "")];
  }

  // Session 1 names the agent of session 0 in the meantime.
  lemma NamedAgain(a: Id, b: Id, c: Chan) returns (run: seq<Action>)
    requires a != b && c != ""
    ensures ValidRun(INIT, run) && Alone(After(INIT, run), 1)
    ensures var st := After(INIT, run);
            && |st.sess| == 2 && st.sess[0] == Leaver(a, c, LeaveLock(c))
            && st.sess[1].id == b && st.sess[1].pc == CreateMark(c, [a], 0) && st.index == map[c := {a}]
            && st.log == [Departed(c, a), Added(c, a)]
  {
    run := LeaveBegins(a, b, c);
    var before := After(INIT, run);
    run := Names(run, 1, c, a);
    assert After(INIT, run).sess[0] == before.sess[0];
  }

  lemma PinnedAgain(a: Id, b: Id, c: Chan) returns (run: seq<Action>)
    requires a != b && |c| >= 12
    ensures ValidRun(INIT, run) && Alone(After(INIT, run), 1)
    ensures var st := After(INIT, run);
            && |st.sess| == 2 && st.sess[0] == Leaver(a, c, LeaveLock(c)).(channels := {c})
            && st.sess[1].id == b && st.sess[1].pc == SnapLock && st.index == map[c := {a}]
            && st.log == [Departed(c, a), Added(c, a), Pinned(c, a, 0)]
  {
    run := NamedAgain(a, b, c);
    run := Pins(run, 1, c, a, 0);
  }

  // Then session 0 finishes its leave and reads on.
  lemma GapUsed(a: Id, b: Id, c: Chan) returns (run: seq<Action>)
    requires a != b && |c| >= 12
    ensures ValidRun(INIT, run) && Alone(After(INIT, run), 0)
    ensures var st := After(INIT, run);
            && |st.sess| == 2 && st.sess[0] == Leaver(a, c, SnapLock)
            && st.sess[1].id == b && st.sess[1].pc == SnapLock && st.index == map[c := {a}]
            && st.log == [Departed(c, a), Added(c, a), Pinned(c, a, 0), Unpinned(c, a, 0)]
  {
    run := PinnedAgain(a, b, c);
    run := Unpins(run, 0, c);
    assert {c} - {c} == {};
  }

  lemma LeftBehind(a: Id, b: Id, c: Chan) returns (run: seq<Action>)
    requires a != b && |c| >= 12
    ensures ValidRun(INIT, run) && Alone(After(INIT, run), 0)
    ensures var st := After(INIT, run);
            && |st.sess| == 2 && st.sess[0] == Leaver(a, c, Reading)
            && st.sess[1].id == b && st.sess[1].pc == SnapLock && st.index == map[c := {a}]
            && st.log == [Departed(c, a), Added(c, a), Pinned(c, a, 0), Unpinned(c, a, 0)]
  {
    run := GapUsed(a, b, c);
    run := Snapshots(run, 0, c);
    run := Finishes(run, 0);
  }

  lemma LeaverGone(a: Id, b: Id, c: Chan) returns (run: seq<Action>)
    requires a != b && |c| >= 12
    ensures ValidRun(INIT, run)
    ensures var st := After(INIT, run);
            && |st.sess| == 2 && st.sess[0].id == a && st.sess[0].pc == Dead
            && st.sess[1].id == b && st.sess[1].pc == SnapLock
            && st.index == map[c := {a}]
            && st.log == [Departed(c, a), Added(c, a), Pinned(c, a, 0), Unpinned(c, a, 0), Cleaned(a, 0)]
  {
    run := LeftBehind(a, b, c);
    var before := After(INIT, run);
    run := Disconnects(run, 0);
    assert After(INIT, run).sess[1] == before.sess[1];
  }

  /** Leaving a channel and disconnecting does not always end a membership: there is a run after which every session of
      the agent has ended and cleaned up, nobody is adding it anywhere, and it is still in the channel it left, although
      it was registered whenever somebody named it. */
  lemma LeaverStays(a: Id, b: Id, c: Chan) returns (run: seq<Action>)
    requires a != b && |c| >= 12
    ensures ValidRun(INIT, run)
    ensures var st := After(INIT, run);
            && AllDead(st, a) && Settled(st, c, a)
            && st.log == [Departed(c, a), Added(c, a), Pinned(c, a, 0), Unpinned(c, a, 0), Cleaned(a, 0)]
            && c in st.index && a in st.index[c]
  {
    run := LeaverGone(a, b, c);
  }
}
