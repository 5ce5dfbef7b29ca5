/** What arrives: every message with a channel reaches the socket of every other registered member, and of nobody else,
    unless a send fails. */
module RelayArrival {
  import opened RelayModel
  import opened RelayLocks
  import opened RelayProgress
  import opened RelayDelivery
  import opened RelayMembers
  import opened RelayHand
  import opened RelayHandled
  import opened RelayDrain

  // ---------------------------------------------------------------- what is written to a socket

  // Step m is the send of delivery d.
  ghost predicate SendAt(run: seq<Action>, m: nat, d: nat)
    requires ValidRun(INIT, run)
  {
    && m < |run| && run[m].Run? && run[m].t == Courier(d)
    && d < |At(run, m).couriers| && At(run, m).couriers[d].stage.Sending?
  }

  // It sends this frame to session r, and succeeds.
  ghost predicate WritesAt(run: seq<Action>, m: nat, r: nat, f: Frame)
    requires ValidRun(INIT, run)
  {
    && m < |run| && run[m].Run? && run[m].t.Courier? && SendAt(run, m, run[m].t.d) && run[m].c.Sent?
    && At(run, m).couriers[run[m].t.d].to == r && At(run, m).couriers[run[m].t.d].frame == f
  }

  lemma WireNext(run: seq<Action>, m: nat, r: nat, f: Frame)
    requires ValidRun(INIT, run) && m < |run| && r < |At(run, m + 1).sess|
    ensures f in At(run, m + 1).sess[r].wire <==>
              (r < |At(run, m).sess| && f in At(run, m).sess[r].wire) || WritesAt(run, m, r, f)
  {
    AtNext(run, m);
    if r < |At(run, m).sess| {
      WireFrame(At(run, m), run[m], r);
    } else {
      NewWire(At(run, m), run[m], r);
    }
  }

  /** A frame is on a socket exactly if the send of a delivery of it to this session has succeeded. */
  lemma {:induction false} WireIsSent(run: seq<Action>, n: nat, r: nat, f: Frame)
    requires ValidRun(INIT, run) && n <= |run| && r < |At(run, n).sess|
    ensures f in At(run, n).sess[r].wire <==> exists m: nat :: m < n && WritesAt(run, m, r, f)
  {
    AtEnds(run);
    if n > 0 {
      WireNext(run, n - 1, r, f);
      if r < |At(run, n - 1).sess| {
        WireIsSent(run, n - 1, r, f);
      } else {
        NobodyYet(run, n - 1, r, f);
      }
    }
  }

  lemma {:induction false} SessionsGrow(run: seq<Action>, m: nat, n: nat)
    requires ValidRun(INIT, run) && m <= n <= |run|
    ensures |At(run, m).sess| <= |At(run, n).sess|
  {
    if m < n {
      SessionsGrow(run, m, n - 1);
      AtNext(run, n - 1);
    }
  }

  // Nothing is written to a session that does not exist yet.
  lemma NobodyYet(run: seq<Action>, n: nat, r: nat, f: Frame)
    requires ValidRun(INIT, run) && n <= |run| && r >= |At(run, n).sess|
    ensures forall m: nat :: m < n ==> !WritesAt(run, m, r, f)
  {
    forall m: nat | m < n && WritesAt(run, m, r, f)
      ensures false
    {
      AtNext(run, m);
      SessionsGrow(run, m, n);
    }
  }

  // ---------------------------------------------------------------- every delivery is sent once

  predicate PastSending(d: Delivery) {
    d.stage.Unlocking? || d.stage.Finished?
  }

  lemma CourierNext(run: seq<Action>, m: nat, d: nat)
    requires ValidRun(INIT, run) && m < |run| && d < |At(run, m + 1).couriers|
    ensures d < |At(run, m).couriers| ==>
              && At(run, m + 1).couriers[d].frame == At(run, m).couriers[d].frame
              && At(run, m + 1).couriers[d].to == At(run, m).couriers[d].to
    ensures PastSending(At(run, m + 1).couriers[d]) <==>
              d < |At(run, m).couriers| && (PastSending(At(run, m).couriers[d]) || SendAt(run, m, d))
    ensures |At(run, m).couriers| <= |At(run, m + 1).couriers|
  {
    AtNext(run, m);
  }

  lemma {:induction false} SentOnce(run: seq<Action>, n: nat, d: nat)
    requires ValidRun(INIT, run) && n <= |run| && d < |At(run, n).couriers|
    ensures PastSending(At(run, n).couriers[d]) <==> exists m: nat :: m < n && SendAt(run, m, d)
    ensures forall m: nat :: m < n && SendAt(run, m, d) ==>
              && At(run, m).couriers[d].frame == At(run, n).couriers[d].frame
              && At(run, m).couriers[d].to == At(run, n).couriers[d].to
  {
    AtEnds(run);
    if n > 0 {
      CourierNext(run, n - 1, d);
      if d < |At(run, n - 1).couriers| {
        SentOnce(run, n - 1, d);
      } else {
        CouriersOnlyGrow(run, n - 1, d);
      }
    }
  }

  lemma {:induction false} CouriersGrowing(run: seq<Action>, m: nat, n: nat)
    requires ValidRun(INIT, run) && m <= n <= |run|
    ensures |At(run, m).couriers| <= |At(run, n).couriers|
  {
    if m < n {
      CouriersGrowing(run, m, n - 1);
      AtNext(run, n - 1);
    }
  }

  lemma CouriersOnlyGrow(run: seq<Action>, n: nat, d: nat)
    requires ValidRun(INIT, run) && n <= |run| && d >= |At(run, n).couriers|
    ensures forall m: nat :: m < n ==> !SendAt(run, m, d)
  {
    forall m: nat | m < n && SendAt(run, m, d)
      ensures false
    {
      CouriersGrowing(run, m, n);
    }
  }

  // ---------------------------------------------------------------- deliveries and sockets

  ghost predicate OnWire(st: State, r: nat, s: nat, num: int) {
    && r < |st.sess|
    && exists i :: 0 <= i < |st.sess[r].wire| && st.sess[r].wire[i].from == s && st.sess[r].wire[i].num == num
  }

  // No send fails.
  predicate NoFailure(run: seq<Action>) {
    forall i :: 0 <= i < |run| && run[i].Run? && run[i].t.Courier? ==> !run[i].c.SendFailed?
  }

  // Every delivery is past its send.
  ghost predicate AllSent(st: State) {
    forall d :: 0 <= d < |st.couriers| ==> PastSending(st.couriers[d])
  }

  // The send of delivery d has succeeded.
  ghost predicate Succeeded(run: seq<Action>, d: nat)
    requires ValidRun(INIT, run)
  {
    exists m: nat :: SendAt(run, m, d) && run[m].c.Sent?
  }

  /** A delivery's message is on its recipient's socket exactly if its own send has succeeded: no other delivery brings
      the same message there. */
  lemma DeliveryArrives(run: seq<Action>, d: nat)
    requires ValidRun(INIT, run) && d < |After(INIT, run).couriers|
    ensures var st := After(INIT, run); var c := st.couriers[d];
            OnWire(st, c.to, c.frame.from, c.frame.num) <==> Succeeded(run, d)
  {
    var st, n := After(INIT, run), |run|;
    var c := st.couriers[d];
    AtEnds(run);
    AtInv(run, n);
    SentOnce(run, n, d);
    assert CourierOk(st, c);
    if m: nat :| SendAt(run, m, d) && run[m].c.Sent? {
      assert WritesAt(run, m, c.to, c.frame);
      WireIsSent(run, n, c.to, c.frame);
      assert c.frame in st.sess[c.to].wire;
    }
    if OnWire(st, c.to, c.frame.from, c.frame.num) {
      var i :| 0 <= i < |st.sess[c.to].wire| && st.sess[c.to].wire[i].from == c.frame.from
               && st.sess[c.to].wire[i].num == c.frame.num;
      OnlyItsOwn(run, d, st.sess[c.to].wire[i]);
    }
  }

  lemma OnlyItsOwn(run: seq<Action>, d: nat, f: Frame)
    requires ValidRun(INIT, run) && d < |After(INIT, run).couriers|
    requires var st := After(INIT, run); var c := st.couriers[d];
             && c.to < |st.sess| && f in st.sess[c.to].wire && f.from == c.frame.from && f.num == c.frame.num
    ensures Succeeded(run, d)
  {
    var st, n := After(INIT, run), |run|;
    var r := st.couriers[d].to;
    AtEnds(run);
    AtDelivers(run, n);
    WireIsSent(run, n, r, f);
    var m: nat :| m < n && WritesAt(run, m, r, f);
    var e := run[m].t.d;
    CouriersGrowing(run, m, n);
    SentOnce(run, n, e);
    assert SameDelivery(st.couriers[d], st.couriers[e]) && SameDelivery(st.couriers[e], st.couriers[d]);
    assert d == e;
  }

  /** When every delivery is past its send and no send has failed, a message is on a session's socket exactly if the
      handler has spawned a delivery of it to that session. */
  lemma RecipientsGetIt(run: seq<Action>, s: nat, num: int)
    requires ValidRun(INIT, run) && NoFailure(run) && AllSent(After(INIT, run))
    ensures forall r: nat :: OnWire(After(INIT, run), r, s, num) <==> r in Recipients(After(INIT, run), s, num)
  {
    var st := After(INIT, run);
    forall r: nat
      ensures OnWire(st, r, s, num) <==> r in Recipients(st, s, num)
    {
      if r in Recipients(st, s, num) {
        var d: nat :| d < |st.couriers| && st.couriers[d].frame.from == s && st.couriers[d].frame.num == num
                      && st.couriers[d].to == r;
        SentWell(run, d);
        DeliveryArrives(run, d);
      }
      if OnWire(st, r, s, num) {
        var i :| 0 <= i < |st.sess[r].wire| && st.sess[r].wire[i].from == s && st.sess[r].wire[i].num == num;
        OnlyRecipients(run, r, i);
      }
    }
  }

  lemma SentWell(run: seq<Action>, d: nat)
    requires ValidRun(INIT, run) && NoFailure(run) && d < |After(INIT, run).couriers|
    requires PastSending(After(INIT, run).couriers[d])
    ensures Succeeded(run, d)
  {
    AtEnds(run);
    SentOnce(run, |run|, d);
    var m: nat :| m < |run| && SendAt(run, m, d);
    AtNext(run, m);
  }

  // ---------------------------------------------------------------- from the message to the sockets

  // A handler that finds the channel unknown spawns nothing for the message.
  lemma UnknownGoesNowhere(run: seq<Action>, m: nat, s: nat, num: int)
    requires ValidRun(INIT, run) && SnapAt(run, m, s, num) && !Known(At(run, m), s)
    ensures Recipients(After(INIT, run), s, num) == {}
  {
    var st := At(run, m);
    AtDelivers(run, m);
    AtInv(run, m);
    AtNext(run, m);
    assert SentSoFar(st, s);
    assert RegisteredUnder(st.agents, Served(st.sess[s].pc)) == {};
    RecipientsStep(st, run[m], s, num);
    OwnAt(run, m, s);
    assert Through(At(run, m + 1).sess[s], num);
    RecipientsStay(run, m + 1, |run|, s, num);
    AtEnds(run);
  }

  // Session r was registered under one of these IDs when the handler had gone through the snapshot.
  ghost predicate RegisteredAt(run: seq<Action>, j: nat, ids: set<Id>, r: nat)
    requires ValidRun(INIT, run) && j <= |run|
  {
    r in RegisteredUnder(At(run, j).agents, ids)
  }

  // The num-th message of session s, which names channel c, has been dealt with: at step m the handler took the
  // snapshot for it; if c was in the index then, after j steps the handler had gone through all other members of c, and the
  // message is on exactly the sockets of those who were registered; otherwise it is on no socket.
  ghost predicate Arrived(run: seq<Action>, s: nat, num: int, c: Chan, m: nat, j: nat)
    requires ValidRun(INIT, run)
  {
    && SnapAt(run, m, s, num)
    && (c !in At(run, m).index ==> forall r: nat :: !OnWire(After(INIT, run), r, s, num))
    && (c in At(run, m).index ==>
          var others := At(run, m).index[c] - {At(run, m).sess[s].id};
          && m < j < |run| && WalkedAt(run, j, s, num, others)
          && forall r: nat :: OnWire(After(INIT, run), r, s, num) <==> RegisteredAt(run, j, others, r))
  }

  /** Member-exact delivery, from the message to the sockets: in any run in which no send fails and every delivery is
      past its send, every text or file with a channel that its handler is past has been dealt with, in the channel that it
      names itself. */
  lemma MessageArrives(run: seq<Action>, s: nat, num: nat) returns (m: nat, j: nat)
    requires ValidRun(INIT, run) && NoFailure(run) && AllSent(After(INIT, run))
    requires s < |After(INIT, run).sess| && Past(After(INIT, run).sess[s], num)
    requires var msg := After(INIT, run).sess[s].inbox[num]; (msg.Text? || msg.File?) && msg.chan != ""
    ensures Arrived(run, s, num, After(INIT, run).sess[s].inbox[num].chan, m, j)
  {
    var c := After(INIT, run).sess[s].inbox[num].chan;
    EveryMessageHandled(run, s, num);
    m :| WalksFrom(run, s, num, c, m);
    SnapsTheNamed(run, m, s, num);
    RecipientsGetIt(run, s, num);
    j := 0;
    if c in At(run, m).index {
      j :| m < j < |run| && WalkedAt(run, j, s, num, At(run, m).index[c] - {At(run, m).sess[s].id});
      ExactForever(run, j, s);
    } else {
      UnknownGoesNowhere(run, m, s, num);
    }
  }

  lemma QuietIsPast(st: State, s: nat, num: nat)
    requires Quiet(st) && s < |st.sess| && num < |st.sess[s].inbox| && !Panics(st.sess[s].inbox[num])
    ensures AllSent(st) && Past(st.sess[s], num)
  {
    assert Present(st, Handler(s)) && Idle(st, Handler(s));
    forall d | 0 <= d < |st.couriers|
      ensures PastSending(st.couriers[d])
    {
      assert Present(st, Courier(d)) && Idle(st, Courier(d));
    }
  }

  /** And it always gets that far: however the relay goes on without new input after a run, it comes to rest, unless a
      registration crashes, and then every text or file read that names a channel has arrived like that, if no send has
      failed. */
  lemma EverythingArrives(run: seq<Action>, more: seq<Action>, s: nat, num: nat) returns (m: nat, j: nat)
    requires ValidRun(INIT, run) && InternalRun(After(INIT, run), more) && ValidRun(After(INIT, run), more)
    requires forall a :: Enabled(After(After(INIT, run), more), a) ==> !Internal(After(After(INIT, run), more), a)
    requires NoFailure(run + more) && !Crash(After(After(INIT, run), more))
    requires var end := After(After(INIT, run), more);
             && s < |end.sess| && num < |end.sess[s].inbox|
             && (end.sess[s].inbox[num].Text? || end.sess[s].inbox[num].File?) && end.sess[s].inbox[num].chan != ""
             && !Panics(end.sess[s].inbox[num])
    ensures ValidRun(INIT, run + more) && After(INIT, run + more) == After(After(INIT, run), more)
    ensures Arrived(run + more, s, num, After(INIT, run + more).sess[s].inbox[num].chan, m, j)
  {
    ReachableInv(run);
    EveryRunDrains(After(INIT, run), more);
    RunConcat(INIT, run, more);
    QuietIsPast(After(INIT, run + more), s, num);
    m, j := MessageArrives(run + more, s, num);
  }
}
