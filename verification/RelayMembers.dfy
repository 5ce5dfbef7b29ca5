/** To whom a forwarded message goes, over the whole run: every frame on a socket goes back to a snapshot that selected
    its recipient and to a lookup that found it. */
module RelayMembers {
  import opened RelayModel
  import opened RelayLocks
  import opened RelayProgress
  import opened RelayDelivery
  import opened RelayHand

  // The message is for a channel that has id as a member besides the sender.
  predicate MeantFor(st: State, sender: Id, msg: Msg, id: Id) {
    && (msg.Text? || msg.File?) && msg.chan != ""
    && msg.chan in st.index && id in st.index[msg.chan] && id != sender
  }

  // Step n is the snapshot of session s for its num-th message, and it selects id.
  ghost predicate Selects(run: seq<Action>, n: nat, s: nat, num: int, id: Id)
    requires ValidRun(INIT, run) && n < |run|
  {
    var st := At(run, n);
    && Moves(run[n], s) && s < |st.sess| && st.sess[s].pc.SnapTake?
    && 0 <= num == |st.sess[s].inbox| - 1 && MeantFor(st, st.sess[s].id, st.sess[s].inbox[num], id)
  }

  // Step n is the lookup of id for that message, and it finds session r.
  ghost predicate Finds(run: seq<Action>, n: nat, s: nat, num: int, id: Id, r: nat)
    requires ValidRun(INIT, run) && n < |run|
  {
    var st := At(run, n);
    && Moves(run[n], s) && s < |st.sess| && st.sess[s].pc.FwdLoop? && |st.sess[s].inbox| - 1 == num
    && st.sess[s].pc.todo != [] && st.sess[s].pc.todo[0] == id && id in st.agents && st.agents[id] == r
  }

  ghost predicate Selected(run: seq<Action>, n: nat, s: nat, num: int, id: Id)
    requires ValidRun(INIT, run) && n <= |run|
  {
    exists m :: 0 <= m < n && Selects(run, m, s, num, id)
  }

  ghost predicate Found(run: seq<Action>, n: nat, s: nat, num: int, id: Id, r: nat)
    requires ValidRun(INIT, run) && n <= |run|
  {
    exists m :: 0 <= m < n && Finds(run, m, s, num, id, r)
  }

  predicate Forwards(pc: Pc) {
    pc.FwdLock? || pc.FwdLoop? || pc.FwdSpawn?
  }

  // What a handler is going to forward has been selected, and what it is about to spawn has been found.
  ghost predicate PlanTraced(run: seq<Action>, n: nat, s: nat)
    requires ValidRun(INIT, run) && n <= |run| && s < |At(run, n).sess|
  {
    var o := At(run, n).sess[s];
    && (Forwards(o.pc) ==> forall id :: id in o.pc.snap ==> Selected(run, n, s, |o.inbox| - 1, id))
    && (o.pc.FwdSpawn? ==> o.pc.todo != [] && Found(run, n, s, |o.inbox| - 1, o.pc.todo[0], o.pc.k))
  }

  ghost predicate CourierTraced(run: seq<Action>, n: nat, d: nat)
    requires ValidRun(INIT, run) && n <= |run| && d < |At(run, n).couriers|
  {
    var st := At(run, n);
    var c := st.couriers[d];
    && c.to < |st.sess|
    && Selected(run, n, c.frame.from, c.frame.num, st.sess[c.to].id)
    && Found(run, n, c.frame.from, c.frame.num, st.sess[c.to].id, c.to)
  }

  lemma Earlier(run: seq<Action>, n: nat, s: nat, num: int, id: Id, r: nat)
    requires ValidRun(INIT, run) && n < |run|
    ensures Selected(run, n, s, num, id) || Selects(run, n, s, num, id) ==> Selected(run, n + 1, s, num, id)
    ensures Found(run, n, s, num, id, r) || Finds(run, n, s, num, id, r) ==> Found(run, n + 1, s, num, id, r)
  {
  }

  // The plan of a handler after its own step.
  lemma OwnPlanNext(st: State, s: nat, ch: Choice)
    requires Enabled(st, Run(Handler(s), ch)) && Forwards(HandlerGoto(st, s, ch))
    ensures var o := st.sess[s]; var pc := HandlerGoto(st, s, ch);
            && SessionsAfter(st, s, ch)[s].inbox == o.inbox && SessionsAfter(st, s, ch)[s].pc == pc
            && ((Forwards(o.pc) && pc.snap == o.pc.snap) || (o.pc.SnapTake? && pc.snap == Targets(st, s)))
            && (pc.FwdSpawn? ==> o.pc.FwdLoop? && o.pc.todo != [] && pc.todo == o.pc.todo
                                 && o.pc.todo[0] in st.agents && st.agents[o.pc.todo[0]] == pc.k)
  {
  }

  // The plan of a handler at the next step: what it was, or what its own step makes it.
  lemma PlanNext(run: seq<Action>, n: nat, s: nat)
    requires ValidRun(INIT, run) && n < |run| && s < |At(run, n).sess| && s < |At(run, n + 1).sess|
    requires PlanTraced(run, n, s) && Forwards(At(run, n + 1).sess[s].pc)
    ensures var o, o' := At(run, n).sess[s], At(run, n + 1).sess[s]; var num := |o'.inbox| - 1;
            && o'.inbox == o.inbox
            && (forall id :: id in o'.pc.snap ==> Selected(run, n, s, num, id) || Selects(run, n, s, num, id))
            && (o'.pc.FwdSpawn? ==>
                  && o'.pc.todo != []
                  && (Found(run, n, s, num, o'.pc.todo[0], o'.pc.k) || Finds(run, n, s, num, o'.pc.todo[0], o'.pc.k)))
  {
    AtNext(run, n);
    SessionFrame(At(run, n), run[n], s);
    if Moves(run[n], s) {
      OwnPlanNext(At(run, n), s, run[n].c);
      AtHand(run, n);
      if At(run, n).sess[s].pc.SnapTake? {
        TargetsAreMeant(At(run, n), s);
      }
    }
  }

  lemma TargetsAreMeant(st: State, s: nat)
    requires s < |st.sess| && HandOk(st.sess[s]) && st.sess[s].pc.SnapTake?
    ensures st.sess[s].inbox != []
    ensures forall id :: id in Targets(st, s) <==> MeantFor(st, st.sess[s].id, Hand(st.sess[s]), id)
  {
    SnapsItsChannel(st, s, Hand(st.sess[s]).chan);
  }

  lemma PlanStep(run: seq<Action>, n: nat, s: nat)
    requires ValidRun(INIT, run) && n < |run| && s < |At(run, n + 1).sess|
    requires s < |At(run, n).sess| ==> PlanTraced(run, n, s)
    ensures PlanTraced(run, n + 1, s)
  {
    var o' := At(run, n + 1).sess[s];
    if s >= |At(run, n).sess| {
      AtNext(run, n);
    } else if Forwards(o'.pc) {
      PlanNext(run, n, s);
      forall id | id in o'.pc.snap
        ensures Selected(run, n + 1, s, |o'.inbox| - 1, id)
      {
        Earlier(run, n, s, |o'.inbox| - 1, id, 0);
      }
      if o'.pc.FwdSpawn? {
        Earlier(run, n, s, |o'.inbox| - 1, o'.pc.todo[0], o'.pc.k);
      }
    }
  }

  // A delivery about to be spawned is for the session of an ID that was selected and found.
  lemma SpawnTraced(run: seq<Action>, n: nat, s: nat)
    requires ValidRun(INIT, run) && n < |run| && WellFormed(At(run, n)) && s < |At(run, n).sess|
    requires PlanTraced(run, n, s) && PlanOk(At(run, n), s) && At(run, n).sess[s].pc.FwdSpawn?
    ensures var st := At(run, n); var k, num := st.sess[s].pc.k, |st.sess[s].inbox| - 1;
            && k < |st.sess| && Selected(run, n, s, num, st.sess[k].id) && Found(run, n, s, num, st.sess[k].id, k)
  {
    var st := At(run, n);
    var pc := st.sess[s].pc;
    assert pc.todo[0] in pc.todo && pc.todo[0] in pc.snap;
    assert st.sess[pc.k].id == pc.todo[0];
  }

  // What was selected and found for a delivery is so at the next step; a new one is for whom its handler found.
  lemma CourierNow(run: seq<Action>, n: nat, d: nat)
    requires ValidRun(INIT, run) && n < |run| && WellFormed(At(run, n)) && d < |At(run, n + 1).couriers|
    requires d < |At(run, n).couriers| ==> CourierTraced(run, n, d)
    requires forall s :: 0 <= s < |At(run, n).sess| ==> PlanTraced(run, n, s) && PlanOk(At(run, n), s)
    ensures var st := At(run, n); var c := At(run, n + 1).couriers[d];
            && c.to < |st.sess| && Selected(run, n, c.frame.from, c.frame.num, st.sess[c.to].id)
            && Found(run, n, c.frame.from, c.frame.num, st.sess[c.to].id, c.to)
  {
    AtNext(run, n);
    CouriersStep(At(run, n), run[n], d);
    if d >= |At(run, n).couriers| {
      SpawnTraced(run, n, run[n].t.s);
    }
  }

  lemma CourierStep(run: seq<Action>, n: nat, d: nat)
    requires ValidRun(INIT, run) && n < |run| && d < |At(run, n + 1).couriers|
    requires d < |At(run, n).couriers| ==> CourierTraced(run, n, d)
    requires forall s :: 0 <= s < |At(run, n).sess| ==> PlanTraced(run, n, s) && PlanOk(At(run, n), s)
    ensures CourierTraced(run, n + 1, d)
  {
    var c := At(run, n + 1).couriers[d];
    AtInv(run, n);
    CourierNow(run, n, d);
    AtNext(run, n);
    SessionFrame(At(run, n), run[n], c.to);
    Earlier(run, n, c.frame.from, c.frame.num, At(run, n).sess[c.to].id, c.to);
  }

  lemma AtDelivers(run: seq<Action>, n: nat)
    requires ValidRun(INIT, run) && n <= |run|
    ensures OrderInv(At(run, n)) && ExactInv(At(run, n))
  {
    PrefixRuns(INIT, run, n);
    ReachableDelivers(run[..n]);
  }

  lemma {:induction false} AllTraced(run: seq<Action>, n: nat)
    requires ValidRun(INIT, run) && n <= |run|
    ensures forall s :: 0 <= s < |At(run, n).sess| ==> PlanTraced(run, n, s)
    ensures forall d :: 0 <= d < |At(run, n).couriers| ==> CourierTraced(run, n, d)
  {
    AtEnds(run);
    if n > 0 {
      AllTraced(run, n - 1);
      PlansNext(run, n - 1, n);
      CouriersNext(run, n - 1, n);
    }
  }

  lemma PlansNext(run: seq<Action>, n: nat, m: nat)
    requires ValidRun(INIT, run) && m == n + 1 <= |run|
    requires forall s :: 0 <= s < |At(run, n).sess| ==> PlanTraced(run, n, s)
    ensures forall s :: 0 <= s < |At(run, m).sess| ==> PlanTraced(run, m, s)
  {
    forall s | 0 <= s < |At(run, m).sess|
      ensures PlanTraced(run, m, s)
    {
      PlanStep(run, n, s);
    }
  }

  lemma CouriersNext(run: seq<Action>, n: nat, m: nat)
    requires ValidRun(INIT, run) && m == n + 1 <= |run|
    requires forall s :: 0 <= s < |At(run, n).sess| ==> PlanTraced(run, n, s)
    requires forall d :: 0 <= d < |At(run, n).couriers| ==> CourierTraced(run, n, d)
    ensures forall d :: 0 <= d < |At(run, m).couriers| ==> CourierTraced(run, m, d)
  {
    AtDelivers(run, n);
    forall d | 0 <= d < |At(run, m).couriers|
      ensures CourierTraced(run, m, d)
    {
      CourierStep(run, n, d);
    }
  }

  lemma {:induction false} IdStays(run: seq<Action>, n: nat, m: nat, s: nat)
    requires ValidRun(INIT, run) && n <= m <= |run| && s < |At(run, n).sess|
    ensures s < |At(run, m).sess| && At(run, m).sess[s].id == At(run, n).sess[s].id
  {
    if n < m {
      IdStays(run, n, m - 1, s);
      AtNext(run, m - 1);
      SessionFrame(At(run, m - 1), run[m - 1], s);
    }
  }

  // Step m is the snapshot of the frame's sender for the frame's message, whose channel then has id as another member.
  ghost predicate ChosenAt(run: seq<Action>, m: nat, f: Frame, id: Id)
    requires ValidRun(INIT, run)
  {
    && m < |run| && Moves(run[m], f.from) && f.from < |At(run, m).sess| && At(run, m).sess[f.from].pc.SnapTake?
    && |At(run, m).sess[f.from].inbox| - 1 == f.num
    && MeantFor(At(run, m), At(run, m).sess[f.from].id, f.msg, id)
  }

  /** Member-exact delivery over the whole run: for every frame on any socket at any time, the sender's handler took the
      snapshot for that very message, in which the channel that the message names had the recipient's ID as a member
      other than the sender's, and its lookup found the recipient's session registered under that ID. */
  lemma FramesReachMembers(run: seq<Action>, r: nat, i: nat)
    requires ValidRun(INIT, run) && r < |After(INIT, run).sess| && i < |After(INIT, run).sess[r].wire|
    ensures var st := After(INIT, run); var f := st.sess[r].wire[i];
            && f.from < |st.sess| && st.sess[r].id != st.sess[f.from].id
            && (exists m: nat :: ChosenAt(run, m, f, st.sess[r].id))
            && Found(run, |run|, f.from, f.num, st.sess[r].id, r)
  {
    AtEnds(run);
    var n := |run|;
    AllTraced(run, n);
    AtDelivers(run, n);
    var st := At(run, n);
    var f := st.sess[r].wire[i];
    assert FromCouriers(st, r) && Carried(st, f, r);
    var d :| 0 <= d < |st.couriers| && st.couriers[d].frame == f && st.couriers[d].to == r;
    assert CourierTraced(run, n, d) && WireOk(st, r) && FrameOk(st, f);
    SelectedIsChosen(run, f, st.sess[r].id);
  }

  lemma SelectedIsChosen(run: seq<Action>, f: Frame, id: Id)
    requires ValidRun(INIT, run) && Selected(run, |run|, f.from, f.num, id) && FrameOk(At(run, |run|), f)
    ensures At(run, |run|).sess[f.from].id != id
    ensures exists m: nat :: ChosenAt(run, m, f, id)
  {
    var m :| 0 <= m < |run| && Selects(run, m, f.from, f.num, id);
    IdStays(run, m, |run|, f.from);
    ReadOnce(run, m, |run|, f.from, f.num);
    assert ChosenAt(run, m, f, id);
  }

  // ---------------------------------------------------------------- nobody is forgotten, and nobody added later

  // The session has spawned all it will ever spawn for its num-th message.
  predicate Through(o: Session, num: int) {
    && |o.inbox| - 1 >= num
    && (|o.inbox| - 1 > num || !Handling(o.pc) || (o.pc.FwdLoop? && o.pc.todo == []))
  }

  lemma ThroughStep(st: State, a: Action, s: nat, num: int)
    requires WellFormed(st) && Enabled(st, a) && s < |st.sess| && Through(st.sess[s], num)
    ensures s < |Do(st, a).sess| && Through(Do(st, a).sess[s], num)
  {
    SessionFrame(st, a, s);
    if Moves(a, s) {
      OwnThrough(st, s, a.c, num);
    }
  }

  lemma OwnThrough(st: State, s: nat, ch: Choice, num: int)
    requires Enabled(st, Run(Handler(s), ch)) && Through(st.sess[s], num)
    ensures Through(SessionsAfter(st, s, ch)[s], num)
  {
  }

  lemma SameRecipients(st: State, a: Action, s: nat, num: int)
    requires WellFormed(st) && Enabled(st, a) && s < |st.sess| && Through(st.sess[s], num)
    ensures Recipients(Do(st, a), s, num) == Recipients(st, s, num)
  {
    RecipientsStep(st, a, s, num);
    assert !(Moves(a, s) && st.sess[s].pc.FwdSpawn? && num == |st.sess[s].inbox| - 1);
  }

  lemma {:induction false} RecipientsStay(run: seq<Action>, j: nat, n: nat, s: nat, num: int)
    requires ValidRun(INIT, run) && j <= n <= |run| && s < |At(run, j).sess| && Through(At(run, j).sess[s], num)
    ensures s < |At(run, n).sess| && Through(At(run, n).sess[s], num)
    ensures Recipients(At(run, n), s, num) == Recipients(At(run, j), s, num)
  {
    if j < n {
      RecipientsStay(run, j, n - 1, s, num);
      AtNext(run, n - 1);
      AtInv(run, n - 1);
      ThroughStep(At(run, n - 1), run[n - 1], s, num);
      SameRecipients(At(run, n - 1), run[n - 1], s, num);
    }
  }

  /** Whatever happens after a handler has gone through its snapshot, the deliveries ever spawned for that message are
      those for the sessions registered under the snapshot's IDs at that moment. */
  lemma ExactForever(run: seq<Action>, j: nat, s: nat)
    requires ValidRun(INIT, run) && j <= |run| && s < |At(run, j).sess|
    requires At(run, j).sess[s].pc.FwdLoop? && At(run, j).sess[s].pc.todo == []
    ensures var st := At(run, j); var o := st.sess[s];
            Recipients(After(INIT, run), s, |o.inbox| - 1) == RegisteredUnder(st.agents, o.pc.snap)
  {
    PrefixRuns(INIT, run, j);
    ExactDelivery(run[..j], s);
    RecipientsStay(run, j, |run|, s, |At(run, j).sess[s].inbox| - 1);
    AtEnds(run);
  }
}
