/** The bodies of the relay's critical sections in the source's own imperative form. Each method with a ghost state is
    one step of RelayModel: it takes a server that reflects a state of the machine to one that reflects the state after
    the step, and the snapshot gives a choice that the machine allows. The others are parts of these, the whole creation
    when nothing comes in between, and the answer to a query. */
module RelayServer {
  import opened Sequences
  import opened RelayModel
  import opened RelayLocks
  import opened RelayFold

  lemma OneMoreChannel(index: map<Chan, set<Id>>, cs: set<Chan>, c: Chan, id: Id)
    requires c !in cs
    ensures WithoutMember(WithoutMemberOf(index, cs, id), c, id) == WithoutMemberOf(index, cs + {c}, id)
  {
  }

  // The handler of session self is at this control point.
  ghost predicate Stands(st: State, self: nat, pc: Pc) {
    WellFormed(st) && self < |st.sess| && st.sess[self].pc == pc
  }

  function ClosedIn(st: State): set<nat> {
    set k | 0 <= k < |st.sess| && st.sess[k].done
  }

  function PinsIn(st: State): set<(nat, Chan)> {
    set k, c | 0 <= k < |st.sess| && c in st.sess[k].channels :: (k, c)
  }

  lemma ClosedAfter(st: State, self: nat)
    requires WellFormed(st) && self < |st.sess|
    ensures ClosedIn(HandlerDo(st, self, Tick)) == ClosedIn(st) +
              (match st.sess[self].pc
               case RegBody =>
                 if !MeetsClosed(st, self) && st.sess[self].id in st.agents then {st.agents[st.sess[self].id]} else {}
               case DownClose => {self}
               case _ => {})
  {
    forall k: nat | k < |st.sess|
      ensures SessionsAfter(st, self, Tick)[k].done == SessionAfter(st, self, Tick, k).done
    {
    }
  }

  lemma PinsOf(st: State, self: nat, k: nat)
    requires WellFormed(st) && self < |st.sess| && k < |st.sess|
    ensures SessionsAfter(st, self, Tick)[k].channels ==
              match st.sess[self].pc
              case CreateMark(c, _, j) => if k == j then st.sess[k].channels + {c} else st.sess[k].channels
              case LeaveUnpin(c) => if k == self then st.sess[k].channels - {c} else st.sess[k].channels
              case _ => st.sess[k].channels
  {
  }

  // Pins with one more, or one less.
  lemma PinsUpdate(st: State, st': State, k: nat, c: Chan)
    requires |st'.sess| == |st.sess| && k < |st.sess|
    requires forall j :: 0 <= j < |st.sess| && j != k ==> st'.sess[j].channels == st.sess[j].channels
    ensures st'.sess[k].channels == st.sess[k].channels + {c} ==> PinsIn(st') == PinsIn(st) + {(k, c)}
    ensures st'.sess[k].channels == st.sess[k].channels - {c} ==> PinsIn(st') == PinsIn(st) - {(k, c)}
  {
  }

  lemma PinsSame(st: State, st': State)
    requires |st'.sess| == |st.sess|
    requires forall j :: 0 <= j < |st.sess| ==> st'.sess[j].channels == st.sess[j].channels
    ensures PinsIn(st') == PinsIn(st)
  {
  }

  lemma PinAfter(st: State, self: nat)
    requires WellFormed(st) && self < |st.sess| && st.sess[self].pc.CreateMark?
    ensures PinsIn(HandlerDo(st, self, Tick)) == PinsIn(st) + {(st.sess[self].pc.k, st.sess[self].pc.chan)}
  {
    forall j | 0 <= j < |st.sess| && j != st.sess[self].pc.k
      ensures SessionsAfter(st, self, Tick)[j].channels == st.sess[j].channels
    {
      PinsOf(st, self, j);
    }
    PinsOf(st, self, st.sess[self].pc.k);
    PinsUpdate(st, HandlerDo(st, self, Tick), st.sess[self].pc.k, st.sess[self].pc.chan);
  }

  lemma UnpinAfter(st: State, self: nat)
    requires WellFormed(st) && self < |st.sess| && st.sess[self].pc.LeaveUnpin?
    ensures PinsIn(HandlerDo(st, self, Tick)) == PinsIn(st) - {(self, st.sess[self].pc.chan)}
  {
    forall j | 0 <= j < |st.sess| && j != self
      ensures SessionsAfter(st, self, Tick)[j].channels == st.sess[j].channels
    {
      PinsOf(st, self, j);
    }
    PinsOf(st, self, self);
    PinsUpdate(st, HandlerDo(st, self, Tick), self, st.sess[self].pc.chan);
  }

  lemma PinsAfter(st: State, self: nat)
    requires WellFormed(st) && self < |st.sess| && !st.sess[self].pc.CreateMark? && !st.sess[self].pc.LeaveUnpin?
    ensures PinsIn(HandlerDo(st, self, Tick)) == PinsIn(st)
  {
    forall j | 0 <= j < |st.sess|
      ensures SessionsAfter(st, self, Tick)[j].channels == st.sess[j].channels
    {
      PinsOf(st, self, j);
    }
    PinsSame(st, HandlerDo(st, self, Tick));
  }

  class Server {
    var agents: map<Id, nat>                 // the session registered under each ID
    var channelIndex: map<Chan, set<Id>>
    var closed: set<nat>                     // the sessions whose `done` is closed
    var pins: set<(nat, Chan)>               // each session's back-pointers

    ghost predicate Reflects(st: State)
      reads this
    {
      agents == st.agents && channelIndex == st.index && closed == ClosedIn(st) && pins == PinsIn(st)
    }

    constructor ()
      ensures Reflects(INIT)
    {
      agents, channelIndex, closed, pins := map[], map[], {}, {};
    }

    // close(done) panics on a channel that is closed already.
    method CloseDone(k: nat) returns (panicked: bool)
      modifies this`closed
      ensures panicked == (k in old(closed)) && closed == old(closed) + {k}
    {
      panicked := k in closed;
      closed := closed + {k};
    }

    // The registration under s.mu. A panic leaves s.mu locked.
    method Register(id: Id, self: nat, ghost st: State) returns (panicked: bool)
      requires Reflects(st) && Stands(st, self, RegBody) && st.sess[self].id == id
      modifies this
      ensures panicked == HandlerGoto(st, self, Tick).Crashed?
      ensures Reflects(HandlerDo(st, self, Tick))
    {
      ClosedAfter(st, self);
      PinsAfter(st, self);
      if id in agents {
        panicked := CloseDone(agents[id]);
        if panicked {
          return;
        }
      }
      agents := agents[id := self];
      panicked := false;
    }

    // The start of the teardown: the session's own done.
    method BeginTeardown(self: nat, ghost st: State) returns (panicked: bool)
      requires Reflects(st) && Stands(st, self, DownClose)
      modifies this
      ensures panicked == HandlerGoto(st, self, Tick).Dead?
      ensures Reflects(HandlerDo(st, self, Tick))
    {
      ClosedAfter(st, self);
      PinsAfter(st, self);
      panicked := CloseDone(self);
    }

    // The removal under s.mu: only the session's own entry.
    method Deregister(id: Id, self: nat, ghost st: State)
      requires Reflects(st) && Stands(st, self, DownDeregister) && st.sess[self].id == id
      modifies this
      ensures Reflects(HandlerDo(st, self, Tick))
    {
      ClosedAfter(st, self);
      PinsAfter(st, self);
      if id in agents && agents[id] == self {
        agents := map x | x in agents && x != id :: agents[x];
      }
    }

    // The start of a creation, under channelIndexMu.
    method OpenChannel(c: Chan, self: nat, ghost todo: seq<Id>, ghost st: State)
      requires Reflects(st) && Stands(st, self, CreateAcquire(c, todo))
      modifies this
      ensures Reflects(HandlerDo(st, self, Tick))
    {
      ClosedAfter(st, self);
      PinsAfter(st, self);
      OpenGoto(st, self, Tick);
      Open(c);
    }

    method Open(c: Chan)
      modifies this`channelIndex
      ensures channelIndex == WithMembers(old(channelIndex), c, [])
    {
      WithNone(channelIndex, c);
      if c !in channelIndex {
        channelIndex := channelIndex[c := {}];
      }
    }

    // One named member, whose entry is made under channelIndexMu.
    method AddMember(c: Chan, id: Id, self: nat, ghost rest: seq<Id>, ghost st: State)
      requires Reflects(st) && Stands(st, self, CreateAdd(c, [id] + rest)) && c in channelIndex
      modifies this
      ensures Reflects(HandlerDo(st, self, Tick))
    {
      ClosedAfter(st, self);
      PinsAfter(st, self);
      channelIndex := channelIndex[c := channelIndex[c] + {id}];
    }

    // Its back-pointer, under the mutex of the session found.
    method PinMember(c: Chan, k: nat, self: nat, ghost todo: seq<Id>, ghost st: State)
      requires Reflects(st) && Stands(st, self, CreateMark(c, todo, k))
      modifies this
      ensures Reflects(HandlerDo(st, self, Tick))
    {
      ClosedAfter(st, self);
      PinAfter(st, self);
      pins := pins + {(k, c)};
    }

    // The whole of a creation, when nothing else comes in between: the named members are added to those there, and
    // those registered get their back-pointers.
    method CreateChannel(c: Chan, members: seq<Id>)
      modifies this`channelIndex, this`pins
      ensures channelIndex == WithMembers(old(channelIndex), c, members)
      ensures pins == old(pins) + set id | id in members && id in agents :: (agents[id], c)
    {
      Open(c);
      for i := 0 to |members|
        invariant channelIndex == WithMembers(old(channelIndex), c, members[..i])
        invariant pins == old(pins) + set id | id in members[..i] && id in agents :: (agents[id], c)
      {
        var id := members[i];
        assert members[..i + 1] == members[..i] + [id];
        assert SetOf(members[..i + 1]) == SetOf(members[..i]) + {id} && SetOf([id]) == {id};
        WithOneMore(old(channelIndex), c, members[..i], members[..i + 1], id);
        channelIndex := channelIndex[c := channelIndex[c] + {id}];
        if id in agents {
          pins := pins + {(agents[id], c)};
        }
      }
      assert members[..|members|] == members;
    }

    // The second half of a peer_left event, under the session's own mutex.
    method Unpin(c: Chan, self: nat, ghost st: State)
      requires Reflects(st) && Stands(st, self, LeaveUnpin(c))
      modifies this
      ensures Reflects(HandlerDo(st, self, Tick))
    {
      ClosedAfter(st, self);
      UnpinAfter(st, self);
      pins := pins - {(self, c)};
    }

    method RemoveMember(c: Chan, id: Id)
      modifies this`channelIndex
      ensures channelIndex == WithoutMember(old(channelIndex), c, id)
    {
      if c in channelIndex {
        var members := channelIndex[c] - {id};
        channelIndex := channelIndex[c := members];
        if |members| == 0 {
          channelIndex := map d | d in channelIndex && d != c :: channelIndex[d];
        }
      }
    }

    // The index half of a peer_left event, under channelIndexMu.
    method LeaveChannel(c: Chan, id: Id, self: nat, ghost st: State)
      requires Reflects(st) && Stands(st, self, LeaveIndex(c)) && st.sess[self].id == id
      modifies this
      ensures Reflects(HandlerDo(st, self, Tick))
    {
      ClosedAfter(st, self);
      PinsAfter(st, self);
      RemoveMember(c, id);
    }

    // The teardown's loop over the session's back-pointers, in any order.
    method RemoveFrom(channels: set<Chan>, id: Id)
      modifies this`channelIndex
      ensures channelIndex == WithoutMemberOf(old(channelIndex), channels, id)
    {
      ghost var index := channelIndex;
      var rest := channels;
      while rest != {}
        invariant rest <= channels
        invariant channelIndex == WithoutMemberOf(index, channels - rest, id)
        decreases rest
      {
        var c :| c in rest;
        rest := rest - {c};
        OneMoreChannel(index, channels - rest - {c}, c, id);
        RemoveMember(c, id);
        assert channels - rest - {c} + {c} == channels - rest;
      }
      assert channels - rest == channels;
    }

    // The cleanup of the index, under channelIndexMu.
    method CleanUp(channels: set<Chan>, id: Id, self: nat, ghost st: State)
      requires Reflects(st) && Stands(st, self, DownClean)
      requires st.sess[self].id == id && st.sess[self].channels == channels
      modifies this
      ensures Reflects(HandlerDo(st, self, Tick))
    {
      ClosedAfter(st, self);
      PinsAfter(st, self);
      RemoveFrom(channels, id);
    }

    // The snapshot of relayToChannel, under channelIndexMu for reading: the other members, in the map's own order.
    method Snapshot(c: Chan, from: Id, self: nat, ghost st: State) returns (ok: bool, targets: seq<Id>)
      requires Reflects(st) && Stands(st, self, SnapTake) && st.sess[self].id == from && Current(st.sess[self]) == c
      ensures ChoiceOk(st, self, if ok then Order(targets) else Tick)
      ensures Lists(targets, Targets(st, self))
    {
      targets := [];
      ok := c in channelIndex;
      if !ok {
        return;
      }
      var rest := channelIndex[c];
      while rest != {}
        invariant rest <= channelIndex[c]
        invariant Lists(targets, channelIndex[c] - rest - {from})
        decreases rest
      {
        var id :| id in rest;
        assert id !in targets;
        rest := rest - {id};
        if id != from {
          targets := targets + [id];
        }
      }
      assert channelIndex[c] - rest - {from} == Targets(st, self);
    }

    // The answer to query_online, under s.mu for reading.
    method OnlineIds() returns (ids: seq<Id>)
      ensures Lists(ids, agents.Keys)
    {
      ids := [];
      var rest := agents.Keys;
      while rest != {}
        invariant rest <= agents.Keys
        invariant Lists(ids, agents.Keys - rest)
        decreases rest
      {
        var id :| id in rest;
        assert id !in ids;
        rest := rest - {id};
        ids := ids + [id];
      }
    }
  }
}
