/** Who is online (internal/p2p/p2p.go): the table of sightings, its cleanup every ten seconds, and what the table holds
    after any run of sightings, departures and cleanups. */
module Presence {
  import opened Wrappers
  import opened Sequences

  type Id = string
  type Profile = string

  // LastSeen is in nanoseconds.
  datatype Peer = Peer(addr: string, lastSeen: int, profile: Option<Profile>)

  const STALE := 30_000_000_000
  const TICK := 10_000_000_000

  // ---------------------------------------------------------------- what one operation does to the table

  type Table = map<Id, Peer>

  predicate Stale(p: Peer, now: int) {
    now - p.lastSeen > STALE
  }

  function Registered(t: Table, id: Id, addr: string, profile: Option<Profile>, now: int): Table {
    if id !in t then t[id := Peer(addr, now, profile)]
    else t[id := Peer(t[id].addr, now, if profile.Some? then profile else t[id].profile)]
  }

  function Profiled(t: Table, id: Id, profile: Profile): Table {
    if id in t then t[id := t[id].(profile := Some(profile))] else t
  }

  function Cleaned(t: Table, now: int): Table {
    map id | id in t && !Stale(t[id], now) :: t[id]
  }

  datatype Op =
    | Mark(id: Id, addr: string)
    | Register(id: Id, addr: string, profile: Option<Profile>)
    | Store(id: Id, learned: Profile)
    | Remove(id: Id)
    | Cleanup

  datatype Event = Event(time: int, op: Op)

  function Apply(t: Table, e: Event): Table {
    match e.op
    case Mark(id, addr) => t[id := Peer(addr, e.time, None)]
    case Register(id, addr, profile) => Registered(t, id, addr, profile, e.time)
    case Store(id, learned) => Profiled(t, id, learned)
    case Remove(id) => t - {id}
    case Cleanup => Cleaned(t, e.time)
  }

  class OnlineTable {
    var online: Table

    constructor ()
      ensures online == map[]
    {
      online := map[];
    }

    // A sighting by mDNS. It forgets the profile of a peer already known.
    method MarkOnline(id: Id, addr: string, now: int)
      modifies this
      ensures online == Apply(old(online), Event(now, Mark(id, addr)))
    {
      online := online[id := Peer(addr, now, None)];
    }

    // The registration of an incoming connection. A peer already known keeps its address.
    method Register(id: Id, remoteAddr: string, profile: Option<Profile>, now: int)
      modifies this
      ensures online == Apply(old(online), Event(now, Op.Register(id, remoteAddr, profile)))
    {
      if id in online {
        var existing := online[id].(lastSeen := now);
        if profile.Some? {
          existing := existing.(profile := profile);
        }
        online := online[id := existing];
      } else {
        online := online[id := Peer(remoteAddr, now, profile)];
      }
    }

    // The answer to an outgoing connection.
    method StoreProfile(id: Id, profile: Profile, ghost now: int)
      modifies this
      ensures online == Apply(old(online), Event(now, Store(id, profile)))
    {
      if id in online {
        online := online[id := online[id].(profile := Some(profile))];
      }
    }

    // A goodbye, or a connection that broke.
    method RemoveOnline(id: Id, ghost now: int)
      modifies this
      ensures online == Apply(old(online), Event(now, Remove(id)))
    {
      online := online - {id};
    }

    method CleanupStalePeers(now: int)
      modifies this
      ensures online == Apply(old(online), Event(now, Cleanup))
    {
      ghost var before := online;
      var todo := online.Keys;
      while todo != {}
        invariant todo <= online.Keys
        invariant online == map id | id in before && (id in todo || !Stale(before[id], now)) :: before[id]
        decreases |todo|
      {
        var id :| id in todo;
        if now - online[id].lastSeen > STALE {
          online := online - {id};
        }
        todo := todo - {id};
      }
    }

    method GetOnlinePeers() returns (ids: seq<Id>)
      ensures Lists(ids, online.Keys)
    {
      ids := [];
      var todo := online.Keys;
      while todo != {}
        invariant todo <= online.Keys
        invariant Lists(ids, online.Keys - todo)
        decreases |todo|
      {
        var id :| id in todo;
        assert id !in ids;
        ids := ids + [id];
        todo := todo - {id};
      }
    }

    // GetPeerProfile and IsOnline in one: nothing for a peer that is not online.
    method Lookup(id: Id) returns (peer: Option<Peer>)
      ensures peer == if id in online then Some(online[id]) else None
    {
      if id in online {
        return Some(online[id]);
      }
      return None;
    }
  }

  // ---------------------------------------------------------------- runs

  function Replay(run: seq<Event>): Table {
    if run == [] then map[] else Apply(Replay(run[..|run| - 1]), run[|run| - 1])
  }

  predicate Sighting(e: Event, id: Id) {
    (e.op.Mark? || e.op.Register?) && e.op.id == id
  }

  // Event e does not end the presence of a peer seen at time seen.
  predicate Spares(e: Event, id: Id, seen: int) {
    && !Sighting(e, id)
    && (e.op.Remove? ==> e.op.id != id)
    && (e.op.Cleanup? ==> e.time - seen <= STALE)
  }

  // The sighting at k still counts: no later sighting, departure or cleanup undid it.
  ghost predicate SeenAt(run: seq<Event>, id: Id, k: nat) {
    && k < |run| && Sighting(run[k], id)
    && forall j :: k < j < |run| ==> Spares(run[j], id, run[k].time)
  }

  lemma SeenMore(run: seq<Event>, e: Event, id: Id, k: nat)
    ensures SeenAt(run + [e], id, k) <==>
              if k == |run| then Sighting(e, id) else SeenAt(run, id, k) && Spares(e, id, run[k].time)
  {
    var more := run + [e];
    if k < |run| && SeenAt(more, id, k) {
      assert Spares(more[|run|], id, run[k].time);
      forall j | k < j < |run|
        ensures Spares(run[j], id, run[k].time)
      {
        assert Spares(more[j], id, run[k].time);
      }
    }
  }

  /** The table is its history: over any run, a peer is online exactly when a sighting of it still counts, and then it
      was last seen at that sighting. */
  lemma {:induction false} PresenceIsHistory(run: seq<Event>, id: Id)
    ensures id in Replay(run) <==> exists k: nat :: SeenAt(run, id, k)
    ensures forall k: nat :: SeenAt(run, id, k) ==> id in Replay(run) && Replay(run)[id].lastSeen == run[k].time
  {
    if run != [] {
      var init, e := run[..|run| - 1], run[|run| - 1];
      assert run == init + [e];
      PresenceIsHistory(init, id);
      forall k: nat
        ensures SeenAt(run, id, k) <==>
                  if k == |init| then Sighting(e, id) else SeenAt(init, id, k) && Spares(e, id, init[k].time)
      {
        SeenMore(init, e, id, k);
      }
      if Sighting(e, id) {
        assert SeenAt(run, id, |init|);
      } else if id in Replay(run) {
        var k: nat :| SeenAt(init, id, k);
        assert SeenAt(run, id, k);
      }
    }
  }

  // ---------------------------------------------------------------- staleness

  // The time of the last cleanup; the ticker starts at time 0.
  function LastTick(run: seq<Event>): int {
    if run == [] then 0
    else if run[|run| - 1].op.Cleanup? then run[|run| - 1].time
    else LastTick(run[..|run| - 1])
  }

  // Time does not run backwards, and no cleanup is later than period after the one before.
  ghost predicate OnTime(run: seq<Event>, period: int) {
    && (forall i, j :: 0 <= i < j < |run| ==> run[i].time <= run[j].time)
    && (forall i :: 0 <= i < |run| ==> 0 <= run[i].time <= LastTick(run[..i]) + period)
  }

  lemma {:induction false} LastTickBefore(run: seq<Event>, time: int)
    requires 0 <= time && forall i :: 0 <= i < |run| ==> run[i].time <= time
    ensures LastTick(run) <= time
  {
    if run != [] {
      LastTickBefore(run[..|run| - 1], time);
    }
  }

  // At the last cleanup nobody was stale, and later sightings are later than it.
  lemma {:induction false} FreshAtTick(run: seq<Event>, id: Id)
    requires forall i, j :: 0 <= i < j < |run| ==> run[i].time <= run[j].time
    requires forall i :: 0 <= i < |run| ==> 0 <= run[i].time
    requires id in Replay(run)
    ensures LastTick(run) - Replay(run)[id].lastSeen <= STALE
  {
    if run != [] {
      var init, e := run[..|run| - 1], run[|run| - 1];
      LastTickBefore(init, e.time);
      if id in Replay(init) {
        FreshAtTick(init, id);
      }
    }
  }

  /** Bounded staleness: with a cleanup at least every period, nobody in the table was last seen more than 30 seconds
      plus the period ago, at any moment of any run. */
  lemma BoundedStaleness(run: seq<Event>, period: int, now: int, id: Id)
    requires OnTime(run, period) && now <= LastTick(run) + period && id in Replay(run)
    ensures now - Replay(run)[id].lastSeen <= STALE + period
  {
    FreshAtTick(run, id);
  }

  /** So with the code's ten seconds a peer is gone 40 seconds after its last sighting, connected or not: messages on an
      open connection are no sightings. */
  lemma GoneAfterForty(run: seq<Event>, now: int, id: Id)
    requires OnTime(run, TICK) && now <= LastTick(run) + TICK
    requires forall k :: 0 <= k < |run| && Sighting(run[k], id) ==> now - run[k].time > 40_000_000_000
    ensures id !in Replay(run)
  {
    if id in Replay(run) {
      PresenceIsHistory(run, id);
      BoundedStaleness(run, TICK, now, id);
    }
  }

  /** The bound is exact: a peer seen as the ticker starts is online for all of 40 seconds. */
  lemma FortyIsReached(id: Id, addr: string)
    ensures var run :=
              [Event(0, Mark(id, addr)), Event(TICK, Cleanup), Event(2 * TICK, Cleanup), Event(3 * TICK, Cleanup)];
            var now := 4 * TICK;
            && OnTime(run, TICK) && now <= LastTick(run) + TICK
            && id in Replay(run) && now - Replay(run)[id].lastSeen == 40_000_000_000
  {
    var run := [Event(0, Mark(id, addr)), Event(TICK, Cleanup), Event(2 * TICK, Cleanup), Event(3 * TICK, Cleanup)];
    PresenceIsHistory(run, id);
    assert SeenAt(run, id, 0);
  }

  /** Nobody seen in the last 30 seconds is removed by a cleanup: only a goodbye or a broken connection does that. */
  lemma {:induction false} RecentStay(run: seq<Event>, k: nat, id: Id)
    requires k < |run| && Sighting(run[k], id)
    requires forall j :: k < j < |run| ==> run[j].op != Remove(id) && run[k].time <= run[j].time <= run[k].time + STALE
    ensures id in Replay(run) && Replay(run)[id].lastSeen >= run[k].time
  {
    if k < |run| - 1 {
      RecentStay(run[..|run| - 1], k, id);
    }
  }

  // ---------------------------------------------------------------- addresses

  // Event k gave the peer this address, by an mDNS sighting or by entering it, and it has been online since without
  // another mDNS sighting.
  ghost predicate AddressedAt(run: seq<Event>, id: Id, addr: string, k: nat) {
    && k < |run|
    && (run[k].op == Mark(id, addr)
        || (run[k].op.Register? && run[k].op.id == id && run[k].op.addr == addr && id !in Replay(run[..k])))
    && forall j :: k < j < |run| ==> id in Replay(run[..j]) && !(run[j].op.Mark? && run[j].op.id == id)
  }

  /** A peer's address is that of its last mDNS sighting or, if there was none since it came online, that of the
      connection it came online with: later connections do not change it. */
  lemma {:induction false} AddressIsFirst(run: seq<Event>, id: Id)
    requires id in Replay(run)
    ensures exists k: nat :: AddressedAt(run, id, Replay(run)[id].addr, k)
  {
    var n := |run| - 1;
    var init, e := run[..n], run[n];
    var addr := Replay(run)[id].addr;
    if e.op == Mark(id, addr) || id !in Replay(init) {
      assert AddressedAt(run, id, addr, n);
    } else {
      AddressIsFirst(init, id);
      var k: nat :| AddressedAt(init, id, addr, k);
      assert init[..k] == run[..k];
      forall j | k < j < |run|
        ensures id in Replay(run[..j]) && !(run[j].op.Mark? && run[j].op.id == id)
      {
        if j < n {
          assert init[..j] == run[..j] && init[j] == run[j];
        }
      }
      assert AddressedAt(run, id, addr, k);
    }
  }

  // ---------------------------------------------------------------- profiles

  predicate Tells(e: Event, id: Id, profile: Profile) {
    || (e.op.Register? && e.op.id == id && e.op.profile == Some(profile))
    || e.op == Store(id, profile)
  }

  predicate Told(e: Event, id: Id) {
    || (e.op.Register? && e.op.id == id && e.op.profile.Some?)
    || (e.op.Store? && e.op.id == id)
  }

  // Event j leaves the profile of a peer alone: it is no sighting by mDNS, tells nothing, and the peer stays online.
  ghost predicate KeepsProfile(run: seq<Event>, id: Id, j: nat)
    requires j < |run|
  {
    OnlineAfter(run, id, j) && !(run[j].op.Mark? && run[j].op.id == id) && !Told(run[j], id)
  }

  ghost predicate OnlineAfter(run: seq<Event>, id: Id, j: nat)
    requires j < |run|
  {
    id in Replay(run[..j + 1])
  }

  ghost predicate ProfileKept(run: seq<Event>, id: Id, k: nat) {
    forall j :: k < j < |run| ==> KeepsProfile(run, id, j)
  }

  // Event k told this profile, the peer was online after it, and nothing has changed the profile since.
  ghost predicate ToldAt(run: seq<Event>, id: Id, profile: Profile, k: nat) {
    k < |run| && Tells(run[k], id, profile) && OnlineAfter(run, id, k) && ProfileKept(run, id, k)
  }

  lemma KeepsMore(run: seq<Event>, e: Event, id: Id, j: nat)
    requires j < |run|
    ensures OnlineAfter(run + [e], id, j) <==> OnlineAfter(run, id, j)
    ensures KeepsProfile(run + [e], id, j) <==> KeepsProfile(run, id, j)
  {
    assert (run + [e])[..j + 1] == run[..j + 1];
  }

  lemma KeptMore(run: seq<Event>, e: Event, id: Id, k: nat)
    requires k < |run|
    ensures ProfileKept(run + [e], id, k) <==> ProfileKept(run, id, k) && KeepsProfile(run + [e], id, |run|)
  {
    forall j | k < j < |run|
      ensures KeepsProfile(run + [e], id, j) <==> KeepsProfile(run, id, j)
    {
      KeepsMore(run, e, id, j);
    }
  }

  lemma ToldMore(run: seq<Event>, e: Event, id: Id, profile: Profile, k: nat)
    ensures ToldAt(run + [e], id, profile, k) <==>
              if k == |run| then Tells(e, id, profile) && id in Replay(run + [e])
              else ToldAt(run, id, profile, k) && KeepsProfile(run + [e], id, |run|)
  {
    if k < |run| {
      KeepsMore(run, e, id, k);
      KeptMore(run, e, id, k);
    } else if k == |run| {
      assert (run + [e])[..k + 1] == run + [e];
    }
  }

  lemma ProfileNext(run: seq<Event>, e: Event, id: Id, profile: Profile)
    ensures HasProfile(run + [e], id, profile) <==>
              || (Tells(e, id, profile) && id in Replay(run + [e]))
              || (HasProfile(run, id, profile) && KeepsProfile(run + [e], id, |run|))
  {
    var more := run + [e];
    assert more[..|run|] == run && more[..|run| + 1] == more;
  }

  ghost predicate HasProfile(run: seq<Event>, id: Id, profile: Profile) {
    id in Replay(run) && Replay(run)[id].profile == Some(profile)
  }

  /** The table has a profile if and only if some event told it to a peer online after that event, and since then the
      peer has stayed online, mDNS has not found it again, and nothing else was told. */
  lemma {:induction false} ProfileIsRecent(run: seq<Event>, id: Id, profile: Profile)
    ensures id in Replay(run) && Replay(run)[id].profile == Some(profile) <==>
              exists k: nat :: ToldAt(run, id, profile, k)
  {
    if run != [] {
      var init, e := run[..|run| - 1], run[|run| - 1];
      assert run == init + [e];
      ProfileIsRecent(init, id, profile);
      ProfileNext(init, e, id, profile);
      if k: nat :| ToldAt(run, id, profile, k) {
        ToldMore(init, e, id, profile, k);
      }
      if HasProfile(run, id, profile) {
        if Tells(e, id, profile) {
          ToldMore(init, e, id, profile, |init|);
          assert ToldAt(run, id, profile, |init|);
        } else {
          var k: nat :| ToldAt(init, id, profile, k);
          ToldMore(init, e, id, profile, k);
          assert ToldAt(run, id, profile, k);
        }
      }
    }
  }
}
