/** What reaches a recipient's socket: per-sender order, at most once, and exactly to the members. */
module RelayDelivery {
  import opened Sequences
  import opened RelayModel
  import opened RelayLocks
  import opened RelayProgress
  import opened RelayHand

  // ---------------------------------------------------------------- order

  // Frames of one sender appear in the order that sender's read loop read them, each at most once, and carry the
  // message that was read.
  ghost predicate WireOk(st: State, r: nat)
    requires r < |st.sess|
  {
    var w := st.sess[r].wire;
    && (forall i :: 0 <= i < |w| ==> FrameOk(st, w[i]))
    && (forall i, j :: 0 <= i < j < |w| && w[i].from == w[j].from ==> w[i].num < w[j].num)
  }

  ghost predicate FrameOk(st: State, f: Frame) {
    && f.from < |st.sess| && f.num < |st.sess[f.from].inbox|
    && st.sess[f.from].inbox[f.num] == f.msg
  }

  // Every frame session r has been sent by session s is older than the num-th message of s.
  ghost predicate Older(st: State, s: nat, num: int, r: nat)
    requires r < |st.sess|
  {
    forall i :: 0 <= i < |st.sess[r].wire| && st.sess[r].wire[i].from == s ==> st.sess[r].wire[i].num < num
  }

  // A delivery that has not written its frame yet.
  predicate Unwritten(d: Delivery) {
    d.stage.Waiting? || d.stage.Sending?
  }

  // May the handler still forward the message in hand to a session registered under id?
  predicate MayForward(pc: Pc, id: Id) {
    Handling(pc) && (pc.FwdLock? || pc.FwdLoop? || pc.FwdSpawn? ==> id in pc.todo)
  }

  ghost predicate PlanOk(st: State, s: nat)
    requires s < |st.sess|
  {
    var pc := st.sess[s].pc;
    && (pc.FwdLock? || pc.FwdLoop? || pc.FwdSpawn? ==>
          Distinct(pc.todo) && st.sess[s].id !in pc.snap && forall x :: x in pc.todo ==> x in pc.snap)
    && (pc.FwdLock? ==> forall x :: x in pc.snap ==> x in pc.todo)
    && (pc.FwdSpawn? ==> pc.todo != [] && pc.todo[0] in st.agents && st.agents[pc.todo[0]] == pc.k)
  }

  // What session s may still forward to session r is newer than everything it has forwarded there.
  ghost predicate Newest(st: State, s: nat, r: nat)
    requires s < |st.sess| && r < |st.sess|
  {
    MayForward(st.sess[s].pc, st.sess[r].id) ==>
      && Older(st, s, |st.sess[s].inbox| - 1, r)
      && (forall d :: 0 <= d < |st.couriers| && st.couriers[d].frame.from == s && st.couriers[d].to == r
            ==> st.couriers[d].frame.num < |st.sess[s].inbox| - 1)
  }

  ghost predicate CourierNewest(st: State, d: nat)
    requires d < |st.couriers|
  {
    var c := st.couriers[d];
    Unwritten(c) && c.to < |st.sess| ==> Older(st, c.frame.from, c.frame.num, c.to)
  }

  ghost predicate OrderInv(st: State) {
    && (forall r :: 0 <= r < |st.sess| ==> WireOk(st, r))
    && (forall s :: 0 <= s < |st.sess| ==> PlanOk(st, s))
    && (forall s, r :: 0 <= s < |st.sess| && 0 <= r < |st.sess| ==> Newest(st, s, r))
    && (forall d :: 0 <= d < |st.couriers| ==> CourierNewest(st, d))
  }

  // Only the courier that holds a session's mutex writes forwarded frames to it.
  lemma WireFrame(st: State, a: Action, r: nat)
    requires Enabled(st, a) && r < |st.sess|
    ensures var w, w' := st.sess[r].wire, Do(st, a).sess[r].wire;
            w' == if a.Run? && a.t.Courier? && st.couriers[a.t.d].to == r
                     && st.couriers[a.t.d].stage.Sending? && a.c.Sent?
                  then w + [st.couriers[a.t.d].frame] else w
  {
    match a
    case Accept(_) =>
    case Run(Handler(s), ch) => HandlerWire(st, s, ch, r);
    case Run(Courier(_), _) =>
  }

  lemma HandlerWire(st: State, s: nat, ch: Choice, r: nat)
    requires s < |st.sess| && PcOk(st, s) && r < |st.sess|
    ensures SessionsAfter(st, s, ch)[r].wire == st.sess[r].wire
  {
  }

  lemma NewWire(st: State, a: Action, r: nat)
    requires Enabled(st, a) && r < |Do(st, a).sess| && r >= |st.sess|
    ensures Do(st, a).sess[r].wire == [] && Do(st, a).sess[r].inbox == [] && Do(st, a).sess[r].pc == RegAnnounce
  {
  }

  lemma FrameOkStep(st: State, a: Action, f: Frame)
    requires Enabled(st, a) && FrameOk(st, f)
    ensures FrameOk(Do(st, a), f)
  {
    SessionFrame(st, a, f.from);
  }

  lemma WrittenOk(st: State, a: Action, r: nat, i: nat)
    requires WellFormed(st) && Enabled(st, a) && r < |st.sess| && WireOk(st, r) && i < |Do(st, a).sess[r].wire|
    ensures FrameOk(Do(st, a), Do(st, a).sess[r].wire[i])
  {
    WireFrame(st, a, r);
    if i < |st.sess[r].wire| {
      assert FrameOk(st, st.sess[r].wire[i]);
    } else {
      assert CourierOk(st, st.couriers[a.t.d]);
    }
    FrameOkStep(st, a, Do(st, a).sess[r].wire[i]);
  }

  lemma WireOkStep(st: State, a: Action, r: nat)
    requires Inv(st) && OrderInv(st) && Enabled(st, a) && r < |Do(st, a).sess|
    ensures WireOk(Do(st, a), r)
  {
    var st' := Do(st, a);
    if r < |st.sess| {
      WireFrame(st, a, r);
      assert WireOk(st, r);
      var w := st'.sess[r].wire;
      forall i | 0 <= i < |w| ensures FrameOk(st', w[i]) {
        WrittenOk(st, a, r, i);
      }
      if |w| > |st.sess[r].wire| {
        assert CourierNewest(st, a.t.d);
      }
    } else {
      NewWire(st, a, r);
    }
  }

  // ---------------------------------------------------------------- plans

  lemma OwnPlan(st: State, s: nat, ch: Choice)
    requires Enabled(st, Run(Handler(s), ch)) && PlanOk(st, s)
    ensures var pc := HandlerGoto(st, s, ch);
            && (pc.FwdLock? || pc.FwdLoop? || pc.FwdSpawn? ==>
                  Distinct(pc.todo) && st.sess[s].id !in pc.snap && forall x :: x in pc.todo ==> x in pc.snap)
            && (pc.FwdLock? ==> forall x :: x in pc.snap ==> x in pc.todo)
            && (pc.FwdSpawn? ==> pc.todo != [] && pc.todo[0] in st.agents && st.agents[pc.todo[0]] == pc.k)
  {
  }

  lemma PlanOkStep(st: State, a: Action, s: nat)
    requires Inv(st) && OrderInv(st) && Enabled(st, a) && s < |Do(st, a).sess|
    ensures PlanOk(Do(st, a), s)
  {
    if s < |st.sess| {
      assert PlanOk(st, s);
      if Moves(a, s) {
        OwnPlanStep(st, s, a.c);
      } else {
        OtherPlanStep(st, a, s);
      }
    } else {
      NewWire(st, a, s);
    }
  }

  lemma OwnPlanStep(st: State, s: nat, ch: Choice)
    requires Enabled(st, Run(Handler(s), ch)) && PlanOk(st, s)
    ensures PlanOk(HandlerDo(st, s, ch), s)
  {
    HandlerFrame(st, s, ch, s);
    OwnSession(st, s, ch);
    OwnPlan(st, s, ch);
    SpawnAgents(st, s, ch);
  }

  lemma OtherPlanStep(st: State, a: Action, s: nat)
    requires Inv(st) && Enabled(st, a) && s < |st.sess| && PlanOk(st, s) && !Moves(a, s)
    ensures PlanOk(Do(st, a), s)
  {
    SessionFrame(st, a, s);
    if st.sess[s].pc.FwdSpawn? {
      AgentsFrozen(st, a, s);
    }
  }

  lemma SpawnAgents(st: State, s: nat, ch: Choice)
    requires Enabled(st, Run(Handler(s), ch))
    ensures HandlerGoto(st, s, ch).FwdSpawn? ==> AgentsAfter(st, s) == st.agents
  {
  }

  // ---------------------------------------------------------------- freshness

  lemma OlderStep(st: State, a: Action, s: nat, num: int, r: nat)
    requires Enabled(st, a) && r < |st.sess| && Older(st, s, num, r)
    requires a.Run? && a.t.Courier? && st.couriers[a.t.d].to == r && st.couriers[a.t.d].frame.from == s
             ==> (st.couriers[a.t.d].frame.num < num || !Unwritten(st.couriers[a.t.d]))
    ensures Older(Do(st, a), s, num, r)
  {
    WireFrame(st, a, r);
  }

  // A handler that turns to a new message, or that spawns a delivery, gives up what it just forwarded.
  lemma MayForwardStep(st: State, s: nat, ch: Choice, id: Id)
    requires Enabled(st, Run(Handler(s), ch)) && PlanOk(st, s)
    requires MayForward(HandlerGoto(st, s, ch), id)
    ensures (st.sess[s].pc.Reading? && ch.Recv?) || MayForward(st.sess[s].pc, id)
    ensures st.sess[s].pc.FwdSpawn? ==> id != st.sess[s].pc.todo[0]
  {
  }

  lemma CouriersStep(st: State, a: Action, d: nat)
    requires WellFormed(st) && Enabled(st, a) && d < |Do(st, a).couriers|
    ensures d < |st.couriers| ==>
              && Do(st, a).couriers[d].frame == st.couriers[d].frame && Do(st, a).couriers[d].to == st.couriers[d].to
              && (Unwritten(Do(st, a).couriers[d]) ==> Unwritten(st.couriers[d]))
              && (a.Run? && a.t == Courier(d) && st.couriers[d].stage.Sending? ==> !Unwritten(Do(st, a).couriers[d]))
    ensures d >= |st.couriers| ==>
              && a.Run? && a.t.Handler? && st.sess[a.t.s].pc.FwdSpawn? && d == |st.couriers|
              && Do(st, a).couriers[d].to == st.sess[a.t.s].pc.k
              && Do(st, a).couriers[d].frame.from == a.t.s
              && Do(st, a).couriers[d].frame.num == |st.sess[a.t.s].inbox| - 1
  {
  }

  // After reading a message, a handler may forward something newer than all it has forwarded.
  lemma FreshMessage(st: State, s: nat, r: nat)
    requires WellFormed(st) && OrderInv(st) && s < |st.sess| && r < |st.sess|
    ensures Older(st, s, |st.sess[s].inbox|, r)
    ensures forall d :: 0 <= d < |st.couriers| && st.couriers[d].frame.from == s ==>
              st.couriers[d].frame.num < |st.sess[s].inbox|
  {
    assert WireOk(st, r);
    forall i | 0 <= i < |st.sess[r].wire| && st.sess[r].wire[i].from == s
      ensures st.sess[r].wire[i].num < |st.sess[s].inbox|
    {
      assert FrameOk(st, st.sess[r].wire[i]);
    }
    forall d | 0 <= d < |st.couriers|
      ensures st.couriers[d].frame.from == s ==> st.couriers[d].frame.num < |st.sess[s].inbox|
    {
      assert CourierOk(st, st.couriers[d]);
    }
  }

  lemma NewestStep(st: State, a: Action, s: nat, r: nat)
    requires Inv(st) && OrderInv(st) && Enabled(st, a) && s < |st.sess| && r < |st.sess|
    ensures Newest(Do(st, a), s, r)
  {
    var st' := Do(st, a);
    SessionFrame(st, a, s);
    SessionFrame(st, a, r);
    if MayForward(st'.sess[s].pc, st'.sess[r].id) {
      assert Newest(st, s, r) && PlanOk(st, s);
      FreshMessage(st, s, r);
      var num := |st'.sess[s].inbox| - 1;
      if Moves(a, s) {
        MayForwardStep(st, s, a.c, st.sess[r].id);
        OwnSession(st, s, a.c);
      }
      OlderStep(st, a, s, num, r);
      forall d | 0 <= d < |st'.couriers| && st'.couriers[d].frame.from == s && st'.couriers[d].to == r
        ensures st'.couriers[d].frame.num < num
      {
        CouriersStep(st, a, d);
      }
    }
  }

  lemma NewestNew(st: State, a: Action, s: nat, r: nat)
    requires Inv(st) && OrderInv(st) && Enabled(st, a) && s < |Do(st, a).sess| && r < |Do(st, a).sess|
    requires s >= |st.sess| || r >= |st.sess|
    ensures Newest(Do(st, a), s, r)
  {
    var st' := Do(st, a);
    if s >= |st.sess| {
      NewWire(st, a, s);
    } else {
      NewWire(st, a, r);
      forall d | 0 <= d < |st'.couriers| ensures st'.couriers[d].to != r {
        assert CourierOk(st, st.couriers[d]);
      }
    }
  }

  // Two deliveries to one session are never under way together.
  lemma OneCourier(st: State, d: nat, e: nat)
    requires Inv(st) && d < |st.couriers| && e < |st.couriers|
    requires Unwritten(st.couriers[d]) && Unwritten(st.couriers[e]) && st.couriers[d].to == st.couriers[e].to
    ensures d == e
  {
    assert Owns(st, Courier(d), Write(SessionMu(st.couriers[d].to)));
    assert Owns(st, Courier(e), Write(SessionMu(st.couriers[d].to)));
  }

  lemma CourierNewestStep(st: State, a: Action, d: nat)
    requires Inv(st) && OrderInv(st) && Enabled(st, a) && d < |Do(st, a).couriers|
    ensures CourierNewest(Do(st, a), d)
  {
    var st' := Do(st, a);
    CouriersStep(st, a, d);
    var c := st'.couriers[d];
    if Unwritten(c) {
      if d < |st.couriers| {
        assert CourierNewest(st, d) && CourierOk(st, st.couriers[d]);
        if a.Run? && a.t.Courier? && st.couriers[a.t.d].to == c.to && Unwritten(st.couriers[a.t.d]) {
          OneCourier(st, a.t.d, d);
          if !st.couriers[d].stage.Sending? {
            WireFrame(st, a, c.to);
          }
        } else {
          OlderStep(st, a, c.frame.from, c.frame.num, c.to);
        }
      } else {
        var s := a.t.s;
        assert PlanOk(st, s);
        assert Newest(st, s, c.to);
        OlderStep(st, a, s, c.frame.num, c.to);
      }
    }
  }

  lemma OrderInvStep(st: State, a: Action)
    requires Inv(st) && OrderInv(st) && Enabled(st, a)
    ensures OrderInv(Do(st, a))
  {
    var st' := Do(st, a);
    forall r | 0 <= r < |st'.sess| ensures WireOk(st', r) {
      WireOkStep(st, a, r);
    }
    forall s | 0 <= s < |st'.sess| ensures PlanOk(st', s) {
      PlanOkStep(st, a, s);
    }
    forall s, r | 0 <= s < |st'.sess| && 0 <= r < |st'.sess| ensures Newest(st', s, r) {
      if s < |st.sess| && r < |st.sess| {
        NewestStep(st, a, s, r);
      } else {
        NewestNew(st, a, s, r);
      }
    }
    forall d | 0 <= d < |st'.couriers| ensures CourierNewest(st', d) {
      CourierNewestStep(st, a, d);
    }
  }

  // ---------------------------------------------------------------- exactness

  // The sessions for which the handler of s has spawned a delivery of its num-th message.
  function Recipients(st: State, s: nat, num: int): set<nat> {
    set d | 0 <= d < |st.couriers| && st.couriers[d].frame.from == s && st.couriers[d].frame.num == num ::
      st.couriers[d].to
  }

  // The sessions registered under the given IDs.
  function RegisteredUnder(agents: map<Id, nat>, ids: set<Id>): set<nat> {
    set id | id in ids && id in agents :: agents[id]
  }

  // The part of the snapshot already dealt with.
  function Served(pc: Pc): set<Id> {
    if pc.FwdLoop? || pc.FwdSpawn? then set x | x in pc.snap && x !in pc.todo else {}
  }

  ghost predicate SentSoFar(st: State, s: nat)
    requires s < |st.sess|
  {
    Handling(st.sess[s].pc) ==>
      Recipients(st, s, |st.sess[s].inbox| - 1) == RegisteredUnder(st.agents, Served(st.sess[s].pc))
  }

  ghost predicate SameDelivery(c: Delivery, d: Delivery) {
    c.frame.from == d.frame.from && c.frame.num == d.frame.num && c.to == d.to
  }

  // Frames on a wire come from deliveries; no delivery is spawned twice; the deliveries of the message in hand are
  // those the plan has served.
  ghost predicate ExactInv(st: State) {
    && (forall s :: 0 <= s < |st.sess| ==> SentSoFar(st, s))
    && (forall c, d :: 0 <= c < d < |st.couriers| ==> !SameDelivery(st.couriers[c], st.couriers[d]))
    && (forall r :: 0 <= r < |st.sess| ==> FromCouriers(st, r))
  }

  ghost predicate FromCouriers(st: State, r: nat)
    requires r < |st.sess|
  {
    forall i :: 0 <= i < |st.sess[r].wire| ==> Carried(st, st.sess[r].wire[i], r)
  }

  ghost predicate Carried(st: State, f: Frame, r: nat) {
    exists d :: 0 <= d < |st.couriers| && st.couriers[d].frame == f && st.couriers[d].to == r
  }

  lemma FromCouriersStep(st: State, a: Action, r: nat)
    requires WellFormed(st) && ExactInv(st) && Enabled(st, a) && r < |Do(st, a).sess|
    ensures FromCouriers(Do(st, a), r)
  {
    var st' := Do(st, a);
    if r < |st.sess| {
      WireFrame(st, a, r);
      assert FromCouriers(st, r);
      forall i | 0 <= i < |st'.sess[r].wire| ensures Carried(st', st'.sess[r].wire[i], r) {
        var d: nat;
        if i < |st.sess[r].wire| {
          assert Carried(st, st.sess[r].wire[i], r);
          d :| 0 <= d < |st.couriers| && st.couriers[d].frame == st.sess[r].wire[i] && st.couriers[d].to == r;
        } else {
          d := a.t.d;
        }
        CouriersGrow(st, a);
        CouriersStep(st, a, d);
      }
    } else {
      NewWire(st, a, r);
    }
  }

  lemma CouriersGrow(st: State, a: Action)
    requires Enabled(st, a)
    ensures |Do(st, a).couriers|
         == |st.couriers| + if a.Run? && a.t.Handler? && st.sess[a.t.s].pc.FwdSpawn? then 1 else 0
  {
  }

  lemma SpawnedOnce(st: State, a: Action, c: nat, d: nat)
    requires Inv(st) && OrderInv(st) && ExactInv(st) && Enabled(st, a) && c < d < |Do(st, a).couriers|
    ensures !SameDelivery(Do(st, a).couriers[c], Do(st, a).couriers[d])
  {
    CouriersGrow(st, a);
    CouriersStep(st, a, c);
    CouriersStep(st, a, d);
    if d < |st.couriers| {
      assert !SameDelivery(st.couriers[c], st.couriers[d]);
    } else {
      var s := a.t.s;
      assert PlanOk(st, s);
      assert Newest(st, s, st.sess[s].pc.k);
      assert CourierOk(st, st.couriers[c]);
    }
  }

  // The deliveries so far keep their frames and recipients.
  ghost predicate KeepsDeliveries(st: State, st': State) {
    && |st.couriers| <= |st'.couriers|
    && forall d :: 0 <= d < |st.couriers| ==>
         st'.couriers[d].frame == st.couriers[d].frame && st'.couriers[d].to == st.couriers[d].to
  }

  lemma RecipientsAlike(st: State, st': State, s: nat, num: int)
    requires KeepsDeliveries(st, st')
    requires forall d :: |st.couriers| <= d < |st'.couriers| ==>
               !(st'.couriers[d].frame.from == s && st'.couriers[d].frame.num == num)
    ensures Recipients(st', s, num) == Recipients(st, s, num)
  {
    forall r | r in Recipients(st, s, num)
      ensures r in Recipients(st', s, num)
    {
      var d :| 0 <= d < |st.couriers| && st.couriers[d].frame.from == s && st.couriers[d].frame.num == num
               && st.couriers[d].to == r;
      assert st'.couriers[d].to == r;
    }
  }

  lemma RecipientsMore(st: State, st': State, s: nat, num: int, k: nat)
    requires KeepsDeliveries(st, st') && |st'.couriers| == |st.couriers| + 1
    requires var c := st'.couriers[|st.couriers|]; c.frame.from == s && c.frame.num == num && c.to == k
    ensures Recipients(st', s, num) == Recipients(st, s, num) + {k}
  {
    assert k in Recipients(st', s, num);
    forall r | r in Recipients(st, s, num)
      ensures r in Recipients(st', s, num)
    {
      var d :| 0 <= d < |st.couriers| && st.couriers[d].frame.from == s && st.couriers[d].frame.num == num
               && st.couriers[d].to == r;
      assert st'.couriers[d].to == r;
    }
  }

  lemma DeliveriesStep(st: State, a: Action)
    requires WellFormed(st) && Enabled(st, a)
    ensures KeepsDeliveries(st, Do(st, a))
  {
    CouriersGrow(st, a);
    forall d | 0 <= d < |st.couriers|
      ensures Do(st, a).couriers[d].frame == st.couriers[d].frame && Do(st, a).couriers[d].to == st.couriers[d].to
    {
      CouriersStep(st, a, d);
    }
  }

  // Recipients of a message gain only what the sender's own handler spawns.
  lemma RecipientsStep(st: State, a: Action, s: nat, num: int)
    requires WellFormed(st) && Enabled(st, a)
    ensures Recipients(Do(st, a), s, num)
         == if Moves(a, s) && st.sess[s].pc.FwdSpawn? && num == |st.sess[s].inbox| - 1
            then Recipients(st, s, num) + {st.sess[s].pc.k}
            else Recipients(st, s, num)
  {
    CouriersGrow(st, a);
    DeliveriesStep(st, a);
    if |Do(st, a).couriers| > |st.couriers| {
      CouriersStep(st, a, |st.couriers|);
    }
    if Moves(a, s) && st.sess[s].pc.FwdSpawn? && num == |st.sess[s].inbox| - 1 {
      RecipientsMore(st, Do(st, a), s, num, st.sess[s].pc.k);
    } else {
      RecipientsAlike(st, Do(st, a), s, num);
    }
  }

  lemma NothingSentYet(st: State, s: nat)
    requires WellFormed(st) && OrderInv(st) && s < |st.sess|
    ensures Recipients(st, s, |st.sess[s].inbox|) == {}
  {
    FreshMessage(st, s, s);
  }

  // What a handler's step adds to the part of the snapshot dealt with.
  lemma ServedStep(st: State, s: nat, ch: Choice)
    requires Enabled(st, Run(Handler(s), ch)) && PlanOk(st, s)
    requires Handling(HandlerGoto(st, s, ch)) && !st.sess[s].pc.Reading?
    ensures var pc, pc' := st.sess[s].pc, HandlerGoto(st, s, ch);
            Handling(pc) && Served(pc') ==
              if pc.FwdSpawn? then Served(pc) + {pc.todo[0]}
              else if pc.FwdLoop? && pc.todo != [] && pc.todo[0] !in st.agents then Served(pc) + {pc.todo[0]}
              else Served(pc)
  {
  }

  // What the handler's own step does to the left and to the right side of SentSoFar.
  lemma OwnSent(st: State, s: nat, ch: Choice)
    requires Inv(st) && OrderInv(st) && ExactInv(st) && Enabled(st, Run(Handler(s), ch))
    requires Handling(HandlerGoto(st, s, ch))
    ensures RegisteredUnder(AgentsAfter(st, s), Served(HandlerGoto(st, s, ch)))
         == if st.sess[s].pc.Reading? then {}
            else if st.sess[s].pc.FwdSpawn? then Recipients(st, s, |st.sess[s].inbox| - 1) + {st.sess[s].pc.k}
            else Recipients(st, s, |st.sess[s].inbox| - 1)
  {
    assert PlanOk(st, s) && SentSoFar(st, s);
    if !st.sess[s].pc.Reading? {
      ServedStep(st, s, ch);
      HandlingKeepsAgents(st, s, ch);
    }
  }

  lemma OwnSentStep(st: State, s: nat, ch: Choice)
    requires Inv(st) && OrderInv(st) && ExactInv(st) && Enabled(st, Run(Handler(s), ch))
    requires Handling(HandlerGoto(st, s, ch))
    ensures Recipients(Do(st, Run(Handler(s), ch)), s, |SessionsAfter(st, s, ch)[s].inbox| - 1)
         == RegisteredUnder(AgentsAfter(st, s), Served(HandlerGoto(st, s, ch)))
  {
    OwnSession(st, s, ch);
    OwnSent(st, s, ch);
    NothingSentYet(st, s);
    RecipientsStep(st, Run(Handler(s), ch), s, |SessionsAfter(st, s, ch)[s].inbox| - 1);
  }

  lemma SentSoFarStep(st: State, a: Action, s: nat)
    requires Inv(st) && OrderInv(st) && ExactInv(st) && Enabled(st, a) && s < |st.sess|
    ensures SentSoFar(Do(st, a), s)
  {
    if Moves(a, s) {
      OwnSession(st, s, a.c);
      if Handling(HandlerGoto(st, s, a.c)) {
        OwnSentStep(st, s, a.c);
      }
    } else {
      OtherSentStep(st, a, s);
    }
  }

  lemma OtherSentStep(st: State, a: Action, s: nat)
    requires Inv(st) && ExactInv(st) && Enabled(st, a) && s < |st.sess| && !Moves(a, s)
    ensures SentSoFar(Do(st, a), s)
  {
    SessionFrame(st, a, s);
    RecipientsStep(st, a, s, |st.sess[s].inbox| - 1);
    if st.sess[s].pc.FwdLoop? || st.sess[s].pc.FwdSpawn? {
      AgentsFrozen(st, a, s);
    }
    SentAlike(st, Do(st, a), s);
  }

  lemma SentAlike(st: State, st': State, s: nat)
    requires s < |st.sess| && s < |st'.sess| && SentSoFar(st, s)
    requires st'.sess[s].pc == st.sess[s].pc && st'.sess[s].inbox == st.sess[s].inbox
    requires Recipients(st', s, |st.sess[s].inbox| - 1) == Recipients(st, s, |st.sess[s].inbox| - 1)
    requires st.sess[s].pc.FwdLoop? || st.sess[s].pc.FwdSpawn? ==> st'.agents == st.agents
    ensures SentSoFar(st', s)
  {
    NoneRegistered(st.agents);
    NoneRegistered(st'.agents);
  }

  lemma NoneRegistered(agents: map<Id, nat>)
    ensures RegisteredUnder(agents, {}) == {}
  {
  }

  lemma HandlingKeepsAgents(st: State, s: nat, ch: Choice)
    requires s < |st.sess| && PcOk(st, s) && Handling(st.sess[s].pc)
    ensures AgentsAfter(st, s) == st.agents
  {
  }

  lemma ExactInvStep(st: State, a: Action)
    requires Inv(st) && OrderInv(st) && ExactInv(st) && Enabled(st, a)
    ensures ExactInv(Do(st, a))
  {
    var st' := Do(st, a);
    forall s | 0 <= s < |st'.sess| ensures SentSoFar(st', s) {
      if s < |st.sess| {
        SentSoFarStep(st, a, s);
      } else {
        NewWire(st, a, s);
      }
    }
    forall c, d | 0 <= c < d < |st'.couriers| ensures !SameDelivery(st'.couriers[c], st'.couriers[d]) {
      SpawnedOnce(st, a, c, d);
    }
    forall r | 0 <= r < |st'.sess| ensures FromCouriers(st', r) {
      FromCouriersStep(st, a, r);
    }
  }

  // ---------------------------------------------------------------- over whole runs

  lemma {:induction false} RunDelivers(st: State, run: seq<Action>)
    requires Inv(st) && OrderInv(st) && ExactInv(st) && ValidRun(st, run)
    ensures Inv(After(st, run)) && OrderInv(After(st, run)) && ExactInv(After(st, run))
    decreases |run|
  {
    if run != [] {
      WellFormedStep(st, run[0]);
      LockInvStep(st, run[0]);
      OrderInvStep(st, run[0]);
      ExactInvStep(st, run[0]);
      RunDelivers(Do(st, run[0]), run[1..]);
    }
  }

  lemma ReachableDelivers(run: seq<Action>)
    requires ValidRun(INIT, run)
    ensures Inv(After(INIT, run)) && OrderInv(After(INIT, run)) && ExactInv(After(INIT, run))
  {
    NothingYet();
    RunDelivers(INIT, run);
  }

  lemma NothingYet()
    ensures Inv(INIT) && OrderInv(INIT) && ExactInv(INIT)
  {
  }

  /** Per-sender FIFO, in every run: of two frames from one sender on one recipient's socket, the earlier one was read
      earlier by the sender's loop (so no message reaches a session twice), and each frame carries the message that
      was read. */
  lemma PerSenderFifo(run: seq<Action>, r: nat, i: nat, j: nat)
    requires ValidRun(INIT, run) && r < |After(INIT, run).sess| && i < j < |After(INIT, run).sess[r].wire|
    ensures var st := After(INIT, run); var f, g := st.sess[r].wire[i], st.sess[r].wire[j];
            && f.from < |st.sess| && f.num < |st.sess[f.from].inbox| && f.msg == st.sess[f.from].inbox[f.num]
            && (f.from == g.from ==> f.num < g.num < |st.sess[f.from].inbox|)
  {
    ReachableDelivers(run);
    var st := After(INIT, run);
    assert WireOk(st, r);
    assert FrameOk(st, st.sess[r].wire[i]) && FrameOk(st, st.sess[r].wire[j]);
  }

  /** Member-exact delivery: when a handler has gone through its snapshot, the message in hand names a channel, and the
      sessions it has spawned deliveries for are exactly those registered under the snapshot's IDs, one delivery each;
      the sender's own ID is never among them. If the snapshot is still all that channel's other members, every one of
      them that is registered is a recipient. */
  lemma ExactDelivery(run: seq<Action>, s: nat)
    requires ValidRun(INIT, run) && s < |After(INIT, run).sess|
    requires After(INIT, run).sess[s].pc.FwdLoop? && After(INIT, run).sess[s].pc.todo == []
    ensures var st := After(INIT, run); var o := st.sess[s]; var snap, num := o.pc.snap, |o.inbox| - 1;
            && num >= 0 && (o.inbox[num].Text? || o.inbox[num].File?) && o.inbox[num].chan != "" && o.id !in snap
            && Recipients(st, s, num) == RegisteredUnder(st.agents, snap)
            && (forall c, d :: 0 <= c < d < |st.couriers| ==> !SameDelivery(st.couriers[c], st.couriers[d]))
            && var c := o.inbox[num].chan;
               (c in st.index && snap == st.index[c] - {o.id} ==>
                  forall id :: id in st.index[c] && id != o.id && id in st.agents
                    ==> st.agents[id] in Recipients(st, s, num))
  {
    ReachableDelivers(run);
    ReachableHand(run);
    var st := After(INIT, run);
    assert SentSoFar(st, s) && PlanOk(st, s) && HandOk(st.sess[s]);
    assert Served(st.sess[s].pc) == st.sess[s].pc.snap;
  }

  /** Nothing reaches a socket but through a delivery the sender's handler spawned for that session. */
  lemma OnlyRecipients(run: seq<Action>, r: nat, i: nat)
    requires ValidRun(INIT, run) && r < |After(INIT, run).sess| && i < |After(INIT, run).sess[r].wire|
    ensures var st := After(INIT, run); var f := st.sess[r].wire[i]; r in Recipients(st, f.from, f.num)
  {
    ReachableDelivers(run);
    var st := After(INIT, run);
    assert FromCouriers(st, r);
    assert Carried(st, st.sess[r].wire[i], r);
  }
}
