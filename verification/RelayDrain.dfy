/** Every run without new input ends, with nothing left to do: no thread can spin or wait forever. */
module RelayDrain {
  import opened Sequences
  import opened RelayModel
  import opened RelayLocks
  import opened RelayProgress
  import opened RelaySolo

  // A step that takes no new input: neither a connection nor a message nor a read error.
  predicate Internal(st: State, a: Action) {
    a.Run? && Present(st, a.t) && !Idle(st, a.t)
  }

  ghost predicate InternalRun(st: State, run: seq<Action>)
    decreases |run|
  {
    run == [] || (Enabled(st, run[0]) && Internal(st, run[0]) && InternalRun(Do(st, run[0]), run[1..]))
  }

  // ---------------------------------------------------------------- the IDs a snapshot can select

  ghost predicate Bounded(st: State, ids: set<Id>) {
    && (forall c :: c in st.index ==> st.index[c] <= ids)
    && (forall s, x :: 0 <= s < |st.sess| && Creating(st.sess[s].pc) && x in st.sess[s].pc.todo ==> x in ids)
  }

  function IdsInUse(st: State): set<Id> {
    (set c, x | c in st.index && x in st.index[c] :: x)
    + (set s, x | 0 <= s < |st.sess| && Creating(st.sess[s].pc) && x in st.sess[s].pc.todo :: x)
  }

  lemma AlwaysBounded(st: State)
    ensures Bounded(st, IdsInUse(st))
  {
  }

  lemma TodoStep(st: State, s: nat, ch: Choice, x: Id)
    requires WellFormed(st) && Enabled(st, Run(Handler(s), ch)) && !st.sess[s].pc.Reading?
    requires Creating(HandlerGoto(st, s, ch)) && x in HandlerGoto(st, s, ch).todo
    ensures Creating(st.sess[s].pc) && x in st.sess[s].pc.todo
  {
  }

  lemma IndexBounded(st: State, s: nat, ids: set<Id>)
    requires s < |st.sess| && Bounded(st, ids)
    ensures forall c :: c in IndexAfter(st, s) ==> IndexAfter(st, s)[c] <= ids
  {
    if Creating(st.sess[s].pc) && st.sess[s].pc.todo != [] {
      assert st.sess[s].pc.todo[0] in st.sess[s].pc.todo;
    }
  }

  lemma BoundedStep(st: State, a: Action, ids: set<Id>)
    requires WellFormed(st) && Bounded(st, ids) && Enabled(st, a) && Internal(st, a)
    ensures Bounded(Do(st, a), ids)
  {
    var st' := Do(st, a);
    if a.t.Handler? {
      IndexBounded(st, a.t.s, ids);
    }
    forall s, x | 0 <= s < |st'.sess| && Creating(st'.sess[s].pc) && x in st'.sess[s].pc.todo ensures x in ids {
      SessionFrame(st, a, s);
      if Moves(a, s) {
        TodoStep(st, s, a.c, x);
      }
    }
  }

  // ---------------------------------------------------------------- the work left

  // A bound on the steps a handler takes before it is idle, when a snapshot selects at most n members. Each
  // delivery still to be spawned counts for its courier's steps too.
  function Work(pc: Pc, n: nat): nat {
    match pc
    case RegAnnounce => 5
    case RegAcquire => 4
    case RegBody => 3
    case CountLock(_) => 2
    case CountUnlock(_) => 1
    case QueryLock => 13
    case QueryUnlock(_) => 12
    case ReplyLock(_) => 11
    case ReplySend(_) => 10
    case CreateAnnounce(_, todo) => 6 * n + 16 + 5 * |todo|
    case CreateAcquire(_, todo) => 6 * n + 15 + 5 * |todo|
    case CreateAdd(_, todo) => 6 * n + 14 + 5 * |todo|
    case CreateRLock(_, todo) => 6 * n + 13 + 5 * |todo|
    case CreateLook(_, todo) => 6 * n + 12 + 5 * |todo|
    case CreateMark(_, todo, _) => 6 * n + 11 + 5 * |todo|
    case CreateRUnlock(_, todo) => 6 * n + 10 + 5 * |todo|
    case LeaveAnnounce(_) => 6 * n + 9
    case LeaveAcquire(_) => 6 * n + 8
    case LeaveIndex(_) => 6 * n + 7
    case LeaveLock(_) => 6 * n + 6
    case LeaveUnpin(_) => 6 * n + 5
    case SnapLock => 6 * n + 4
    case SnapTake => 6 * n + 3
    case FwdLock(_, todo) => 6 * |todo| + 2
    case FwdLoop(_, todo) => 6 * |todo| + 1
    case FwdSpawn(_, todo, _) => 6 * |todo|
    case DownClose => 9
    case DownAnnounce => 8
    case DownAcquire => 7
    case DownDeregister => 6
    case DownIndexAnnounce => 5
    case DownIndexAcquire => 4
    case DownClean => 3
    case Reading => 0
    case Dead => 0
    case Crashed => 0
  }

  function CourierWork(d: Delivery): nat {
    match d.stage
    case Waiting => 3
    case Sending => 2
    case Unlocking => 1
    case Finished => 0
  }

  function HandlersWork(sess: seq<Session>, n: nat): nat {
    if sess == [] then 0 else HandlersWork(sess[..|sess| - 1], n) + Work(sess[|sess| - 1].pc, n)
  }

  function CouriersWork(couriers: seq<Delivery>): nat {
    if couriers == [] then 0 else CouriersWork(couriers[..|couriers| - 1]) + CourierWork(couriers[|couriers| - 1])
  }

  function TotalWork(st: State, n: nat): nat {
    HandlersWork(st.sess, n) + CouriersWork(st.couriers)
  }

  lemma {:induction false} HandlersWorkUpdate(a: seq<Session>, b: seq<Session>, s: nat, n: nat)
    requires |a| == |b| && s < |a| && forall j :: 0 <= j < |a| && j != s ==> a[j].pc == b[j].pc
    ensures HandlersWork(b, n) == HandlersWork(a, n) - Work(a[s].pc, n) + Work(b[s].pc, n)
  {
    var k := |a| - 1;
    if s == k {
      HandlersWorkSame(a[..k], b[..k], n);
    } else {
      HandlersWorkUpdate(a[..k], b[..k], s, n);
    }
  }

  lemma {:induction false} HandlersWorkSame(a: seq<Session>, b: seq<Session>, n: nat)
    requires |a| == |b| && forall j :: 0 <= j < |a| ==> a[j].pc == b[j].pc
    ensures HandlersWork(a, n) == HandlersWork(b, n)
  {
    if a != [] {
      HandlersWorkSame(a[..|a| - 1], b[..|b| - 1], n);
    }
  }

  lemma {:induction false} CouriersWorkUpdate(a: seq<Delivery>, i: nat, d: Delivery)
    requires i < |a|
    ensures CouriersWork(a[i := d]) == CouriersWork(a) - CourierWork(a[i]) + CourierWork(d)
  {
    var k := |a| - 1;
    if i == k {
      assert a[i := d][..k] == a[..k];
    } else {
      assert a[i := d][..k] == a[..k][i := d];
      CouriersWorkUpdate(a[..k], i, d);
    }
  }

  lemma OrderingSize(ts: seq<Id>, s: set<Id>, ids: set<Id>)
    requires Lists(ts, s) && s <= ids
    ensures |ts| <= |ids|
  {
    if ts != [] {
      var last := ts[|ts| - 1];
      var front := ts[..|ts| - 1];
      forall x ensures x in front <==> x in s - {last} {
        if x in s - {last} {
          var i :| 0 <= i < |ts| && ts[i] == x;
          assert front[i] == x;
        }
      }
      OrderingSize(front, s - {last}, ids - {last});
    }
  }

  lemma CreateWorks(st: State, s: nat, ch: Choice, n: nat)
    requires s < |st.sess| && PcOk(st, s) && Creating(st.sess[s].pc)
    ensures Work(HandlerGoto(st, s, ch), n) < Work(st.sess[s].pc, n)
  {
  }

  lemma ForwardWorks(st: State, s: nat, ch: Choice, n: nat)
    requires s < |st.sess| && PcOk(st, s) && (ch.Order? ==> |ch.ts| <= n)
    requires Handling(st.sess[s].pc) && !Creating(st.sess[s].pc)
    ensures Work(HandlerGoto(st, s, ch), n) + (if st.sess[s].pc.FwdSpawn? then 3 else 0) < Work(st.sess[s].pc, n)
  {
  }

  lemma OtherWorks(st: State, s: nat, ch: Choice, n: nat)
    requires s < |st.sess| && PcOk(st, s) && !Handling(st.sess[s].pc)
    requires var pc := st.sess[s].pc; !pc.Reading? && !pc.Dead? && !pc.Crashed?
    ensures Work(HandlerGoto(st, s, ch), n) < Work(st.sess[s].pc, n)
  {
  }

  // One step of a handler costs at least one unit more than the courier it may spawn.
  lemma HandlerWorks(st: State, s: nat, ch: Choice, ids: set<Id>)
    requires WellFormed(st) && Bounded(st, ids) && Enabled(st, Run(Handler(s), ch))
    requires !st.sess[s].pc.Reading?
    ensures Work(HandlerGoto(st, s, ch), |ids|) + (if st.sess[s].pc.FwdSpawn? then 3 else 0)
          < Work(st.sess[s].pc, |ids|)
  {
    if ch.Order? {
      OrderingSize(ch.ts, Targets(st, s), ids);
    }
    if Creating(st.sess[s].pc) {
      CreateWorks(st, s, ch, |ids|);
    } else if Handling(st.sess[s].pc) {
      ForwardWorks(st, s, ch, |ids|);
    } else {
      OtherWorks(st, s, ch, |ids|);
    }
  }

  lemma CouriersAfterWork(st: State, s: nat)
    requires s < |st.sess| && PcOk(st, s)
    ensures CouriersWork(CouriersAfter(st, s)) == CouriersWork(st.couriers) + if st.sess[s].pc.FwdSpawn? then 3 else 0
  {
    if st.sess[s].pc.FwdSpawn? {
      var c := CouriersAfter(st, s);
      assert c[..|c| - 1] == st.couriers;
    }
  }

  lemma HandlersAfterWork(st: State, s: nat, ch: Choice, n: nat)
    requires s < |st.sess| && PcOk(st, s)
    ensures HandlersWork(SessionsAfter(st, s, ch), n)
         == HandlersWork(st.sess, n) - Work(st.sess[s].pc, n) + Work(HandlerGoto(st, s, ch), n)
  {
    forall j | 0 <= j < |st.sess| && j != s ensures SessionsAfter(st, s, ch)[j].pc == st.sess[j].pc {
      HandlerFrame(st, s, ch, j);
    }
    HandlersWorkUpdate(st.sess, SessionsAfter(st, s, ch), s, n);
  }

  /** Every step without new input leaves less work. */
  lemma WorkDecreases(st: State, a: Action, ids: set<Id>)
    requires WellFormed(st) && Bounded(st, ids) && Enabled(st, a) && Internal(st, a)
    ensures TotalWork(Do(st, a), |ids|) < TotalWork(st, |ids|)
  {
    match a.t
    case Handler(s) =>
      HandlerWorks(st, s, a.c, ids);
      HandlersAfterWork(st, s, a.c, |ids|);
      CouriersAfterWork(st, s);
    case Courier(i) =>
      var d := st.couriers[i];
      CouriersWorkUpdate(st.couriers, i, d.(stage := CourierGoto(d)));
      HandlersWorkSame(st.sess, Do(st, a).sess, |ids|);
  }

  lemma {:induction false} BoundedRunsEnd(st: State, run: seq<Action>, ids: set<Id>)
    requires Inv(st) && Bounded(st, ids) && InternalRun(st, run)
    ensures |run| <= TotalWork(st, |ids|)
    decreases |run|
  {
    if run != [] {
      WorkDecreases(st, run[0], ids);
      WellFormedStep(st, run[0]);
      LockInvStep(st, run[0]);
      BoundedStep(st, run[0], ids);
      BoundedRunsEnd(Do(st, run[0]), run[1..], ids);
    }
  }

  // The work left in a state, for the IDs that a snapshot can select there.
  function WorkLeft(st: State): nat {
    TotalWork(st, |IdsInUse(st)|)
  }

  /** A run without new input is no longer than the work there was at its start. */
  lemma InternalRunsEnd(st: State, run: seq<Action>)
    requires Inv(st) && InternalRun(st, run)
    ensures |run| <= WorkLeft(st)
  {
    AlwaysBounded(st);
    BoundedRunsEnd(st, run, IdsInUse(st));
  }

  // ---------------------------------------------------------------- quiescence

  // Every handler waits for input or has ended, every delivery is finished, and every lock is free.
  ghost predicate Quiet(st: State) {
    && (forall t :: Present(st, t) ==> Idle(st, t))
    && (forall c :: Owners(st.owners, c) == {})
  }

  lemma IdleMeansQuiet(st: State)
    requires Inv(st) && forall t :: Present(st, t) ==> Idle(st, t)
    ensures Quiet(st)
  {
    forall c ensures Owners(st.owners, c) == {} {
      if t :| t in Owners(st.owners, c) {
        assert Owns(st, t, c);
        LocksInOrder(st, t, c);
        assert false;
      }
    }
  }

  lemma SomeoneSteps(st: State, t: Thread) returns (u: Thread)
    requires Inv(st) && !Crash(st) && Present(st, t) && !Idle(st, t)
    ensures CanStep(st, u)
  {
    if OpReady(st.owners, NextOp(st, t)) {
      ReadyCanStep(st, t);
      u := t;
    } else {
      var chain := WaiterHasMover(st, t);
      u := chain[|chain| - 1];
    }
  }

  /** No partial deadlock: where no step without new input is possible, nobody has anything left to do and every lock is
      free, or a registration has crashed. */
  lemma StoppedMeansQuiet(st: State)
    requires Inv(st) && forall a :: Enabled(st, a) ==> !Internal(st, a)
    ensures Quiet(st) || Crash(st)
  {
    if !Crash(st) {
      forall t | Present(st, t)
        ensures Idle(st, t)
      {
        if !Idle(st, t) {
          var u := SomeoneSteps(st, t);
          var ch :| Enabled(st, Run(u, ch));
          assert Internal(st, Run(u, ch));
        }
      }
      IdleMeansQuiet(st);
    }
  }

  lemma {:induction false} InternalKeeps(st: State, run: seq<Action>)
    requires Inv(st) && InternalRun(st, run)
    ensures ValidRun(st, run) && Inv(After(st, run)) && (SoloInv(st) ==> SoloInv(After(st, run)))
    decreases |run|
  {
    if run != [] {
      WellFormedStep(st, run[0]);
      LockInvStep(st, run[0]);
      if SoloInv(st) {
        SoloInvStep(st, run[0]);
      }
      InternalKeeps(Do(st, run[0]), run[1..]);
    }
  }

  /** Left without new input, the relay always comes to rest: every run without new input that cannot be continued has
      at most as many steps as there was work, and ends where nobody has anything left to do and every lock is free, or
      in a crash; with one live session per ID it is never a crash. */
  lemma EveryRunDrains(st: State, run: seq<Action>)
    requires Inv(st) && InternalRun(st, run) && ValidRun(st, run)
    requires forall a :: Enabled(After(st, run), a) ==> !Internal(After(st, run), a)
    ensures |run| <= WorkLeft(st)
    ensures Quiet(After(st, run)) || Crash(After(st, run))
    ensures SoloInv(st) ==> Quiet(After(st, run)) && !Crash(After(st, run))
  {
    InternalRunsEnd(st, run);
    InternalKeeps(st, run);
    StoppedMeansQuiet(After(st, run));
    if SoloInv(st) {
      SoloNoCrash(After(st, run));
    }
  }

  /** And there is such a run from every state. */
  lemma Drains(st: State) returns (run: seq<Action>)
    requires Inv(st)
    ensures InternalRun(st, run) && ValidRun(st, run)
    ensures Quiet(After(st, run)) || Crash(After(st, run))
    ensures SoloInv(st) ==> Quiet(After(st, run)) && !Crash(After(st, run))
  {
    AlwaysBounded(st);
    run := BoundedDrains(st, IdsInUse(st));
  }

  lemma {:induction false} BoundedDrains(st: State, ids: set<Id>) returns (run: seq<Action>)
    requires Inv(st) && Bounded(st, ids)
    ensures InternalRun(st, run) && ValidRun(st, run)
    ensures Quiet(After(st, run)) || Crash(After(st, run))
    ensures SoloInv(st) ==> Quiet(After(st, run)) && !Crash(After(st, run))
    decreases TotalWork(st, |ids|)
  {
    if SoloInv(st) {
      SoloNoCrash(st);
    }
    if Crash(st) {
      run := [];
    } else if forall t :: Present(st, t) ==> Idle(st, t) {
      IdleMeansQuiet(st);
      run := [];
    } else {
      var t :| Present(st, t) && !Idle(st, t);
      var u := SomeoneSteps(st, t);
      var ch :| Enabled(st, Run(u, ch));
      var a := Run(u, ch);
      WorkDecreases(st, a, ids);
      WellFormedStep(st, a);
      LockInvStep(st, a);
      BoundedStep(st, a, ids);
      if SoloInv(st) {
        SoloInvStep(st, a);
      }
      var rest := BoundedDrains(Do(st, a), ids);
      run := [a] + rest;
    }
  }
}
