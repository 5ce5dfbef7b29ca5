/** The channel index and the back-pointers against the history of events. */
module RelayIndex {
  import opened Wrappers
  import opened RelayModel
  import opened RelayLocks
  import opened RelayProgress
  import opened RelaySolo

  // ---------------------------------------------------------------- what the log says

  // Session k's back-pointer to c after the first n events: pinned, and not unpinned since.
  ghost predicate PinnedBy(log: seq<Event>, n: nat, c: Chan, k: nat)
    requires n <= |log|
  {
    exists i :: 0 <= i < n && PinAt(log[i], c, k) && forall j :: i < j < n ==> !UnpinAt(log[j], c, k)
  }

  predicate PinAt(e: Event, c: Chan, k: nat) {
    e.Pinned? && e.chan == c && e.k == k
  }

  predicate UnpinAt(e: Event, c: Chan, k: nat) {
    e.Unpinned? && e.chan == c && e.k == k
  }

  // Event i takes id out of c: its own leave, or the teardown of a session of this ID that was pinned to c.
  ghost predicate RemovedAt(log: seq<Event>, i: nat, c: Chan, id: Id)
    requires i < |log|
  {
    log[i] == Departed(c, id) || (log[i].Cleaned? && log[i].id == id && PinnedBy(log, i, c, log[i].k))
  }

  // id belongs to c: named at some point, and not taken out since.
  ghost predicate MemberOf(log: seq<Event>, c: Chan, id: Id) {
    exists i :: 0 <= i < |log| && log[i] == Added(c, id) && KeptSince(log, i, c, id)
  }

  ghost predicate KeptSince(log: seq<Event>, i: nat, c: Chan, id: Id) {
    forall j :: i < j < |log| ==> !RemovedAt(log, j, c, id)
  }

  // Event i leaves id in c without a back-pointer: it was named while unregistered, or its own leave unpinned it
  // although somebody had named it again in between.
  ghost predicate LooseAt(log: seq<Event>, i: nat, c: Chan, id: Id)
    requires i < |log|
  {
    log[i] == Unclaimed(c, id) || (log[i].Unpinned? && log[i].chan == c && log[i].id == id && MemberOf(log[..i], c, id))
  }

  ghost predicate Stray(log: seq<Event>, c: Chan, id: Id) {
    exists i :: 0 <= i < |log| && LooseAt(log, i, c, id) && KeptSince(log, i, c, id)
  }

  // ---------------------------------------------------------------- one more event

  lemma PinnedPrefix(log: seq<Event>, e: Event, n: nat, c: Chan, k: nat)
    requires n <= |log|
    ensures PinnedBy(log + [e], n, c, k) <==> PinnedBy(log, n, c, k)
  {
    var log' := log + [e];
    assert forall i :: 0 <= i < n ==> log'[i] == log[i];
    if PinnedBy(log, n, c, k) {
      var i :| 0 <= i < n && PinAt(log[i], c, k) && forall j :: i < j < n ==> !UnpinAt(log[j], c, k);
      assert PinAt(log'[i], c, k);
    }
    if PinnedBy(log', n, c, k) {
      var i :| 0 <= i < n && PinAt(log'[i], c, k) && forall j :: i < j < n ==> !UnpinAt(log'[j], c, k);
      assert PinAt(log[i], c, k);
      assert forall j :: i < j < n ==> UnpinAt(log'[j], c, k) == UnpinAt(log[j], c, k);
    }
  }

  lemma PinnedNext(log: seq<Event>, e: Event, c: Chan, k: nat)
    ensures PinnedBy(log + [e], |log| + 1, c, k)
       <==> PinAt(e, c, k) || (PinnedBy(log, |log|, c, k) && !UnpinAt(e, c, k))
  {
    var log' := log + [e];
    var n := |log|;
    assert forall i :: 0 <= i < n ==> log'[i] == log[i];
    if PinAt(e, c, k) {
      assert PinAt(log'[n], c, k);
    }
    if PinnedBy(log, n, c, k) && !UnpinAt(e, c, k) {
      var i :| 0 <= i < n && PinAt(log[i], c, k) && forall j :: i < j < n ==> !UnpinAt(log[j], c, k);
      assert PinAt(log'[i], c, k);
      assert forall j :: i < j < n + 1 ==> !UnpinAt(log'[j], c, k);
    }
    if PinnedBy(log', n + 1, c, k) && !PinAt(e, c, k) {
      var i :| 0 <= i < n + 1 && PinAt(log'[i], c, k) && forall j :: i < j < n + 1 ==> !UnpinAt(log'[j], c, k);
      assert log'[n] == e;
      assert PinAt(log[i], c, k);
      assert forall j :: i < j < n ==> UnpinAt(log'[j], c, k) == UnpinAt(log[j], c, k);
    }
  }

  lemma RemovedPrefix(log: seq<Event>, e: Event, i: nat, c: Chan, id: Id)
    requires i < |log|
    ensures RemovedAt(log + [e], i, c, id) <==> RemovedAt(log, i, c, id)
  {
    if log[i].Cleaned? {
      PinnedPrefix(log, e, i, c, log[i].k);
    }
  }

  // Does event e, coming next, take id out of c?
  ghost predicate Removes(log: seq<Event>, e: Event, c: Chan, id: Id) {
    e == Departed(c, id) || (e.Cleaned? && e.id == id && PinnedBy(log, |log|, c, e.k))
  }

  lemma KeptNext(log: seq<Event>, e: Event, i: nat, c: Chan, id: Id)
    requires i < |log|
    ensures KeptSince(log + [e], i, c, id) <==> KeptSince(log, i, c, id) && !Removes(log, e, c, id)
  {
    var log' := log + [e];
    forall j | i < j < |log| ensures RemovedAt(log', j, c, id) <==> RemovedAt(log, j, c, id) {
      RemovedPrefix(log, e, j, c, id);
    }
    if e.Cleaned? {
      PinnedPrefix(log, e, |log|, c, e.k);
    }
    assert RemovedAt(log', |log|, c, id) <==> Removes(log, e, c, id);
  }

  lemma MemberNext(log: seq<Event>, e: Event, c: Chan, id: Id)
    ensures MemberOf(log + [e], c, id) <==> e == Added(c, id) || (MemberOf(log, c, id) && !Removes(log, e, c, id))
  {
    var log' := log + [e];
    if e == Added(c, id) {
      assert log'[|log|] == Added(c, id) && KeptSince(log', |log|, c, id);
    }
    if MemberOf(log, c, id) && !Removes(log, e, c, id) {
      var i :| 0 <= i < |log| && log[i] == Added(c, id) && KeptSince(log, i, c, id);
      KeptNext(log, e, i, c, id);
      assert log'[i] == Added(c, id);
    }
    if MemberOf(log', c, id) && e != Added(c, id) {
      var i :| 0 <= i < |log'| && log'[i] == Added(c, id) && KeptSince(log', i, c, id);
      KeptNext(log, e, i, c, id);
      assert log[i] == Added(c, id);
    }
  }

  // Is id loose in c once event e has come?
  ghost predicate Loosens(log: seq<Event>, e: Event, c: Chan, id: Id) {
    e == Unclaimed(c, id) || (e.Unpinned? && e.chan == c && e.id == id && MemberOf(log, c, id))
  }

  lemma StrayNext(log: seq<Event>, e: Event, c: Chan, id: Id)
    ensures Stray(log + [e], c, id) <==> Loosens(log, e, c, id) || (Stray(log, c, id) && !Removes(log, e, c, id))
  {
    var log' := log + [e];
    assert log'[..|log|] == log;
    assert LooseAt(log', |log|, c, id) <==> Loosens(log, e, c, id);
    forall i | 0 <= i < |log| ensures LooseAt(log', i, c, id) <==> LooseAt(log, i, c, id) {
      assert log'[..i] == log[..i];
    }
    if Loosens(log, e, c, id) {
      assert KeptSince(log', |log|, c, id);
    }
    if Stray(log, c, id) && !Removes(log, e, c, id) {
      var i :| 0 <= i < |log| && LooseAt(log, i, c, id) && KeptSince(log, i, c, id);
      KeptNext(log, e, i, c, id);
    }
    if Stray(log', c, id) && !Loosens(log, e, c, id) {
      var i :| 0 <= i < |log'| && LooseAt(log', i, c, id) && KeptSince(log', i, c, id);
      KeptNext(log, e, i, c, id);
    }
  }

  // ---------------------------------------------------------------- the index refines the log

  predicate Indexed(index: map<Chan, set<Id>>, c: Chan, id: Id) {
    c in index && id in index[c]
  }

  ghost predicate IndexOk(st: State) {
    forall c, id :: Indexed(st.index, c, id) <==> MemberOf(st.log, c, id)
  }

  ghost predicate PinsOk(st: State) {
    forall k, c :: 0 <= k < |st.sess| ==> (c in st.sess[k].channels <==> PinnedBy(st.log, |st.log|, c, k))
  }

  ghost predicate PinnedExist(st: State) {
    forall i :: 0 <= i < |st.log| && st.log[i].Pinned? ==> st.log[i].k < |st.sess|
  }

  ghost predicate RefineInv(st: State) {
    IndexOk(st) && PinsOk(st) && PinnedExist(st)
  }

  // A handler's step appends at most one event.
  function EventOf(st: State, s: nat): Option<Event>
    requires s < |st.sess| && PcOk(st, s)
  {
    var o := st.sess[s];
    match o.pc
    case CreateAdd(c, todo) => if todo == [] then None else Some(Added(c, todo[0]))
    case CreateLook(c, todo) => if todo[0] !in st.agents then Some(Unclaimed(c, todo[0])) else None
    case CreateMark(c, _, k) => Some(Pinned(c, st.sess[k].id, k))
    case LeaveIndex(c) => Some(Departed(c, o.id))
    case LeaveUnpin(c) => Some(Unpinned(c, o.id, s))
    case DownClean => Some(Cleaned(o.id, s))
    case _ => None
  }

  lemma LogAppends(st: State, s: nat)
    requires s < |st.sess| && PcOk(st, s)
    ensures LogAfter(st, s) == match EventOf(st, s) case None => st.log case Some(e) => st.log + [e]
  {
  }

  lemma IndexedWithout(index: map<Chan, set<Id>>, d: Chan, ds: set<Chan>, x: Id, c: Chan, id: Id)
    ensures Indexed(WithoutMember(index, d, x), c, id) <==> Indexed(index, c, id) && !(d == c && x == id)
    ensures Indexed(WithoutMemberOf(index, ds, x), c, id) <==> Indexed(index, c, id) && !(c in ds && x == id)
  {
    if Indexed(index, c, id) && id != x {
      assert id in index[c] - {x};
    }
  }

  lemma IndexedAfter(st: State, s: nat, c: Chan, id: Id)
    requires s < |st.sess| && PcOk(st, s)
    ensures Indexed(IndexAfter(st, s), c, id) <==>
              match EventOf(st, s)
              case Some(Added(d, x)) => (d == c && x == id) || Indexed(st.index, c, id)
              case Some(Departed(d, x)) => Indexed(st.index, c, id) && !(d == c && x == id)
              case Some(Cleaned(x, k)) => Indexed(st.index, c, id) && !(x == id && c in st.sess[s].channels)
              case _ => Indexed(st.index, c, id)
  {
    var pc := st.sess[s].pc;
    IndexedWithout(st.index, if pc.LeaveIndex? then pc.chan else c, st.sess[s].channels, st.sess[s].id, c, id);
  }

  lemma ChannelsAfter(st: State, s: nat, ch: Choice, k: nat)
    requires s < |st.sess| && PcOk(st, s) && k < |st.sess|
    ensures SessionsAfter(st, s, ch)[k].channels ==
              match EventOf(st, s)
              case Some(Pinned(c, _, j)) => if j == k then st.sess[k].channels + {c} else st.sess[k].channels
              case Some(Unpinned(c, _, j)) => if j == k then st.sess[k].channels - {c} else st.sess[k].channels
              case _ => st.sess[k].channels
  {
  }

  lemma IndexOkStep(st: State, s: nat, c: Chan, id: Id)
    requires RefineInv(st) && s < |st.sess| && PcOk(st, s)
    ensures Indexed(IndexAfter(st, s), c, id) <==> MemberOf(LogAfter(st, s), c, id)
  {
    LogAppends(st, s);
    IndexedAfter(st, s, c, id);
    assert Indexed(st.index, c, id) <==> MemberOf(st.log, c, id);
    match EventOf(st, s)
    case None =>
    case Some(e) =>
      MemberNext(st.log, e, c, id);
      assert c in st.sess[s].channels <==> PinnedBy(st.log, |st.log|, c, s);
  }

  lemma PinsOkStep(st: State, s: nat, ch: Choice, k: nat, c: Chan)
    requires RefineInv(st) && s < |st.sess| && PcOk(st, s) && k < |st.sess|
    ensures c in SessionsAfter(st, s, ch)[k].channels <==> PinnedBy(LogAfter(st, s), |LogAfter(st, s)|, c, k)
  {
    LogAppends(st, s);
    ChannelsAfter(st, s, ch, k);
    assert c in st.sess[k].channels <==> PinnedBy(st.log, |st.log|, c, k);
    match EventOf(st, s)
    case None =>
    case Some(e) => PinnedNext(st.log, e, c, k);
  }

  lemma RefineStep(st: State, a: Action)
    requires RefineInv(st) && Enabled(st, a)
    ensures RefineInv(Do(st, a))
  {
    var st' := Do(st, a);
    match a
    case Accept(_) =>
      NoPinsYet(st);
    case Run(Handler(s), ch) =>
      forall c, id ensures Indexed(st'.index, c, id) <==> MemberOf(st'.log, c, id) {
        IndexOkStep(st, s, c, id);
      }
      forall k, c | 0 <= k < |st'.sess| ensures c in st'.sess[k].channels <==> PinnedBy(st'.log, |st'.log|, c, k) {
        PinsOkStep(st, s, ch, k, c);
      }
      LogAppends(st, s);
    case Run(Courier(_), _) =>
  }

  lemma NoPinsYet(st: State)
    requires PinnedExist(st)
    ensures forall c :: !PinnedBy(st.log, |st.log|, c, |st.sess|)
  {
  }

  lemma {:induction false} RunRefines(st: State, run: seq<Action>)
    requires RefineInv(st) && ValidRun(st, run)
    ensures RefineInv(After(st, run))
    decreases |run|
  {
    if run != [] {
      RefineStep(st, run[0]);
      RunRefines(Do(st, run[0]), run[1..]);
    }
  }

  /** In every run the index and the back-pointers are what the history of events says: an ID is in a channel exactly
      if it was named there and neither its own leave nor a pinned session's teardown has taken it out since. */
  lemma IndexIsHistory(run: seq<Action>, c: Chan, id: Id, k: nat)
    requires ValidRun(INIT, run)
    ensures var st := After(INIT, run);
            && (c in st.index && id in st.index[c] <==> MemberOf(st.log, c, id))
            && (k < |st.sess| ==> (c in st.sess[k].channels <==> PinnedBy(st.log, |st.log|, c, k)))
  {
    RunRefines(INIT, run);
    var st := After(INIT, run);
    assert Indexed(st.index, c, id) <==> MemberOf(st.log, c, id);
  }

  // ---------------------------------------------------------------- who removes whom

  /** Only a member removes itself: whatever the step, an ID leaves a channel only by the leave of a session of this
      ID from this very channel, or by the teardown of such a session that was pinned to it. */
  lemma OnlySelfRemoves(st: State, a: Action, c: Chan, id: Id)
    requires Enabled(st, a) && Indexed(st.index, c, id) && !Indexed(Do(st, a).index, c, id)
    ensures a.Run? && a.t.Handler? && st.sess[a.t.s].id == id
    ensures st.sess[a.t.s].pc == LeaveIndex(c) || (st.sess[a.t.s].pc.DownClean? && c in st.sess[a.t.s].channels)
  {
    if a.Run? && a.t.Handler? {
      IndexedAfter(st, a.t.s, c, id);
    }
  }

  /** A teardown never evicts a newer registration: a step that ends the registration of session k is a step of k's
      own teardown or the registration of a newer session of the same ID. */
  lemma OnlySelfDeregisters(st: State, a: Action, id: Id)
    requires WellFormed(st) && Enabled(st, a) && id in st.agents
    ensures (id in Do(st, a).agents && Do(st, a).agents[id] == st.agents[id])
         || (Moves(a, st.agents[id]) && st.sess[st.agents[id]].pc.DownDeregister? && id !in Do(st, a).agents)
         || (a.Run? && a.t.Handler? && st.sess[a.t.s].pc.RegBody? && st.sess[a.t.s].id == id
             && id in Do(st, a).agents && Do(st, a).agents[id] == a.t.s)
  {
  }
}
