/** Channels, their members and their host (internal/channel/channel.go). */
module ChannelManager {
  import opened Wrappers
  import opened Sequences

  // ---------------------------------------------------------------- what a leave means

  datatype Chan = Chan(host: string, members: seq<string>)

  // The index of the first occurrence, or the length.
  function Find(members: seq<string>, a: string): (i: nat)
    ensures i <= |members| && (i < |members| ==> members[i] == a)
    ensures forall j :: 0 <= j < i ==> members[j] != a
  {
    if members == [] then 0 else if members[0] == a then 0 else 1 + Find(members[1..], a)
  }

  function RemoveFirst(members: seq<string>, a: string): seq<string> {
    var i := Find(members, a);
    if i < |members| then members[..i] + members[i + 1..] else members
  }

  // The backing array of a slice of this length after the first occurrence is deleted in place: the rest of the slice
  // moves down by one, and the array's element at the slice's old end stays behind.
  function ShiftOut(backing: seq<string>, len: nat, a: string): (r: seq<string>)
    requires len <= |backing|
    ensures |r| == |backing|
  {
    var i := Find(backing[..len], a);
    if i < len then backing[..i] + backing[i + 1..len] + backing[len - 1..] else backing
  }

  lemma ShiftIs(backing: seq<string>, len: nat, a: string)
    requires 0 < len <= |backing| && Find(backing[..len], a) < len
    ensures ShiftOut(backing, len, a)[..len - 1] == RemoveFirst(backing[..len], a)
  {
    var i := Find(backing[..len], a);
    assert backing[..i] == backing[..len][..i] && backing[i + 1..len] == backing[..len][i + 1..];
  }

  lemma ShiftTwo(a: string, b: string)
    ensures ShiftOut([a, b], 2, a) == [b, b]
  {
    assert [a, b][..2] == [a, b];
  }

  // The channel after a leave; None when it is deleted.
  function AfterLeave(c: Chan, a: string): Option<Chan> {
    var ms := RemoveFirst(c.members, a);
    if ms == [] then None else Some(Chan(if c.host == a then ms[0] else c.host, ms))
  }

  function Lookup(m: map<string, Chan>, id: string): Option<Chan> {
    if id in m then Some(m[id]) else None
  }

  // The manager after a leave. A leave from an unknown channel is an error and changes nothing.
  function LeaveIn(m: map<string, Chan>, id: string, a: string): map<string, Chan> {
    if id !in m then m
    else match AfterLeave(m[id], a)
         case None => m - {id}
         case Some(c) => m[id := c]
  }

  // ---------------------------------------------------------------- the source's own form

  class Channel {
    var host: string
    // The Members slice: the first `len` elements of its backing array, which may be the creator's own.
    const backing: array<string>
    var len: nat

    ghost predicate Valid()
      reads this
    {
      len <= backing.Length
    }

    ghost function View(): Chan
      reads this, backing
      requires Valid()
    {
      Chan(host, backing[..len])
    }

    constructor (creator: string, members: array<string>)
      ensures Valid() && backing == members && len == members.Length && host == creator
      ensures View() == Chan(creator, members[..])
    {
      host, backing, len := creator, members, members.Length;
    }

    // append(Members[:i], Members[i+1:]...): shifts the rest of the slice down in its backing array.
    method Delete(i: nat)
      requires Valid() && i < len
      modifies this`len, backing
      ensures Valid() && len == old(len) - 1
      ensures backing[..] == old(backing[..i] + backing[i + 1..len] + backing[len - 1..])
    {
      var j := i;
      while j + 1 < len
        modifies backing
        invariant i <= j < len
        invariant backing[..i] == old(backing[..i])
        invariant forall k :: i <= k < j ==> backing[k] == old(backing[k + 1])
        invariant forall k :: j <= k < backing.Length ==> backing[k] == old(backing[k])
      {
        backing[j] := backing[j + 1];
        j := j + 1;
      }
      len := len - 1;
    }

    // The search of Leave, and the deletion of what it finds.
    method Remove(a: string)
      requires Valid()
      modifies this`len, backing
      ensures Valid() && backing[..] == ShiftOut(old(backing[..]), old(len), a)
      ensures backing[..len] == RemoveFirst(old(backing[..len]), a)
    {
      var i := 0;
      while i < len && backing[i] != a
        invariant i <= len
        invariant forall j :: 0 <= j < i ==> backing[j] != a
      {
        i := i + 1;
      }
      ghost var whole, size := backing[..], len;
      assert backing[..len] == whole[..size];
      FindIs(whole[..size], a, i);
      if i < len {
        Delete(i);
        ShiftIs(whole, size, a);
        assert backing[..len] == backing[..][..len];
      }
    }

    // The rest of Leave inside the record: the succession of the host.
    method Drop(a: string)
      requires Valid()
      modifies this, backing
      ensures Valid() && AfterLeave(old(View()), a) == if len == 0 then None else Some(View())
      ensures backing[..] == ShiftOut(old(backing[..]), old(len), a)
    {
      Remove(a);
      if host == a && len > 0 {
        host := backing[0];
      }
    }
  }

  // A leave seen key by key.
  lemma LeaveByLookups(m: map<string, Chan>, n: map<string, Chan>, id: string, a: string)
    requires id in m && Lookup(n, id) == AfterLeave(m[id], a)
    requires forall other :: other != id ==> Lookup(n, other) == Lookup(m, other)
    ensures n == LeaveIn(m, id, a)
  {
    forall other
      ensures Lookup(n, other) == Lookup(LeaveIn(m, id, a), other)
    {
    }
    SameLookups(n, LeaveIn(m, id, a));
  }

  class Manager {
    var channels: map<string, Channel>

    // No two channels share their record.
    ghost predicate Valid()
      reads this, channels.Values
    {
      && (forall id :: id in channels ==> channels[id].Valid())
      && (forall id, other :: id in channels && other in channels && id != other ==> channels[id] != channels[other])
    }

    // Nor their backing array.
    ghost predicate Separate()
      reads this
    {
      forall id, other :: id in channels && other in channels && id != other ==>
        channels[id].backing != channels[other].backing
    }

    ghost function View(): map<string, Chan>
      reads this, channels.Values, set id | id in channels :: channels[id].backing
      requires Valid()
    {
      map id | id in channels :: channels[id].View()
    }

    constructor ()
      ensures Valid() && View() == map[]
    {
      channels := map[];
    }

    // The members slice is kept, not copied.
    method Create(id: string, creator: string, members: array<string>) returns (ch: Channel)
      requires Valid()
      modifies this
      ensures Valid() && fresh(ch) && channels == old(channels)[id := ch]
      ensures ch.backing == members && ch.len == members.Length && ch.host == creator
      ensures View() == old(View())[id := Chan(creator, members[..])]
      ensures
        && old(Separate())
        && (forall other :: other in old(channels) ==> old(channels)[other].backing != members)
        ==> Separate()
    {
      ch := new Channel(creator, members);
      channels := channels[id := ch];
    }

    // The part of Leave inside the channel's record and its backing array.
    method DropFrom(id: string, a: string)
      requires Valid() && id in channels
      modifies channels[id], channels[id].backing
      ensures Valid() && AfterLeave(old(View())[id], a) == if channels[id].len == 0 then None else Some(View()[id])
      ensures channels[id].backing[..] == ShiftOut(old(channels[id].backing[..]), old(channels[id].len), a)
      ensures forall other :: other in channels && other != id ==>
                channels[other].host == old(channels[other].host) && channels[other].len == old(channels[other].len)
    {
      channels[id].Drop(a);
    }

    method Forget(id: string)
      requires Valid() && id in channels
      modifies this
      ensures Valid() && View() == old(View()) - {id} && channels == old(channels) - {id}
    {
      channels := channels - {id};
    }

    // What a leave from the channel does to another one: nothing, unless they share their members' array.
    ghost function OthersView(id: string, a: string, other: string): Chan
      reads this, channels.Values, set x | x in channels :: channels[x].backing
      requires Valid() && id in channels && other in channels
    {
      if channels[other].backing != channels[id].backing then View()[other]
      else Chan(channels[other].host, ShiftOut(channels[id].backing[..], channels[id].len, a)[..channels[other].len])
    }

    // The same, seen from all channels.
    method DropSeen(id: string, a: string)
      requires Valid() && id in channels
      modifies channels[id], channels[id].backing
      ensures Valid() && AfterLeave(old(View())[id], a) == if channels[id].len == 0 then None else Some(View()[id])
      ensures forall other :: other in channels && other != id ==> View()[other] == old(OthersView(id, a, other))
    {
      ghost var shifted := ShiftOut(channels[id].backing[..], channels[id].len, a);
      DropFrom(id, a);
      forall other | other in channels && other != id
        ensures View()[other] == old(OthersView(id, a, other))
      {
        if channels[other].backing == channels[id].backing {
          assert channels[other].backing[..channels[other].len] == shifted[..channels[other].len];
        }
      }
    }

    // The leave from a channel that exists.
    method LeaveKnown(id: string, a: string)
      requires Valid() && id in channels
      modifies this, channels[id], channels[id].backing
      ensures Valid() && channels == if id in View() then old(channels) else old(channels) - {id}
      ensures Lookup(View(), id) == AfterLeave(old(View())[id], a)
      ensures forall other :: other in channels && other != id ==> View()[other] == old(OthersView(id, a, other))
    {
      DropSeen(id, a);
      if channels[id].len == 0 {
        Forget(id);
      }
    }

    method Leave(id: string, a: string) returns (found: bool)
      requires Valid()
      modifies this, if id in channels then {channels[id], channels[id].backing} else {}
      ensures Valid() && found == (id in old(channels))
      ensures channels == if id in View() then old(channels) else old(channels) - {id}
      ensures Lookup(View(), id) == if found then AfterLeave(old(View())[id], a) else None
      ensures found ==>
                forall other :: other in channels && other != id ==> View()[other] == old(OthersView(id, a, other))
      ensures old(Separate()) ==> Separate() && View() == LeaveIn(old(View()), id, a)
    {
      found := id in channels;
      if !found {
        return;
      }
      ghost var before, apart := View(), Separate();
      LeaveKnown(id, a);
      if apart {
        LeaveByLookups(before, View(), id, a);
      }
    }

    method IsMember(id: string, a: string) returns (yes: bool)
      requires Valid()
      ensures yes <==> id in View() && a in View()[id].members
    {
      if id !in channels {
        return false;
      }
      var ch := channels[id];
      var i := 0;
      while i < ch.len
        invariant i <= ch.len
        invariant forall j :: 0 <= j < i ==> ch.backing[j] != a
      {
        if ch.backing[i] == a {
          assert a in ch.backing[..ch.len];
          return true;
        }
        i := i + 1;
      }
      return false;
    }

    method GetHost(id: string) returns (host: string, ok: bool)
      requires Valid()
      ensures ok == (id in View())
      ensures host == if ok then View()[id].host else ""
    {
      ok := id in channels;
      host := if ok then channels[id].host else "";
    }

    method ListByPeer(a: string) returns (result: set<Channel>)
      requires Valid()
      ensures result == set id | id in channels && a in View()[id].members :: channels[id]
    {
      result := {};
      var rest := channels.Keys;
      while rest != {}
        invariant rest <= channels.Keys
        invariant result == set id | id in channels && id !in rest && a in View()[id].members :: channels[id]
        decreases rest
      {
        var id :| id in rest;
        rest := rest - {id};
        var yes := IsMember(id, a);
        assert yes <==> a in View()[id].members;
        if yes {
          result := result + {channels[id]};
        }
      }
    }
  }

  // A manager with two channels over one members slice.
  method Share(x: string, y: string, a: string, b: string) returns (m: Manager)
    requires x != y
    ensures fresh(m) && m.Valid() && x in m.channels && y in m.channels
    ensures fresh(m.channels[x]) && fresh(m.channels[x].backing) && m.channels[y].backing == m.channels[x].backing
    ensures m.channels[x].backing[..] == [a, b] && m.channels[x].len == m.channels[y].len == 2
  {
    var both := new string[2];
    both[0], both[1] := a, b;
    m := new Manager();
    var one := m.Create(x, a, both);
    var two := m.Create(y, a, both);
    assert both[..] == [a, b];
  }

  /** Two channels created with the same members slice: when the first member leaves the one, the other lists the second
      member twice and the first no more. */
  method SharedSlice(x: string, y: string, a: string, b: string) returns (members: seq<string>)
    requires x != y
    ensures members == [b, b]
  {
    var m := Share(x, y, a, b);
    ShiftTwo(a, b);
    assert m.OthersView(x, a, y).members == [b, b];
    var found := m.Leave(x, a);
    assert m.View()[y].members == [b, b];
    var ch := m.channels[y];
    members := ch.backing[..ch.len];
  }

  lemma {:induction false} FindIs(members: seq<string>, a: string, i: nat)
    requires i <= |members| && (i < |members| ==> members[i] == a) && forall j :: 0 <= j < i ==> members[j] != a
    ensures Find(members, a) == i
  {
  }

  // ---------------------------------------------------------------- sequences of leaves

  function LeaveAll(c: Option<Chan>, leavers: seq<string>): Option<Chan>
    decreases |leavers|
  {
    if leavers == [] || c.None? then c else LeaveAll(AfterLeave(c.value, leavers[0]), leavers[1..])
  }

  // The members in their order, less one occurrence for every leave.
  function Minus(members: seq<string>, l: multiset<string>): seq<string> {
    if members == [] then []
    else if members[0] in l then Minus(members[1..], l - multiset{members[0]})
    else [members[0]] + Minus(members[1..], l)
  }

  // What any sequence of these leaves comes to.
  function Outcome(c: Chan, l: multiset<string>): Option<Chan> {
    if l == multiset{} then Some(c)
    else
      var ms := Minus(c.members, l);
      if ms == [] then None else Some(Chan(if c.host in l then ms[0] else c.host, ms))
  }

  lemma {:induction false} MinusNothing(members: seq<string>)
    ensures Minus(members, multiset{}) == members
  {
    if members != [] {
      MinusNothing(members[1..]);
    }
  }

  lemma RemoveFirstCons(members: seq<string>, a: string)
    requires members != []
    ensures RemoveFirst(members, a)
         == if members[0] == a then members[1..] else [members[0]] + RemoveFirst(members[1..], a)
  {
  }

  lemma {:induction false} MinusOne(members: seq<string>, a: string, l: multiset<string>)
    ensures Minus(RemoveFirst(members, a), l) == Minus(members, l + multiset{a})
  {
    if members != [] {
      var x, rest := members[0], members[1..];
      RemoveFirstCons(members, a);
      if x == a {
        assert l + multiset{a} - multiset{a} == l;
      } else if x in l {
        assert l + multiset{a} - multiset{x} == l - multiset{x} + multiset{a};
        MinusOne(rest, a, l - multiset{x});
      } else {
        MinusOne(rest, a, l);
      }
    }
  }

  lemma {:induction false} LeaveThenOutcome(c: Chan, a: string, l: multiset<string>)
    ensures Outcome(c, l + multiset{a})
         == match AfterLeave(c, a) case None => None case Some(d) => Outcome(d, l)
  {
    MinusOne(c.members, a, l);
    var ms := RemoveFirst(c.members, a);
    if l == multiset{} {
      MinusNothing(ms);
    }
    if ms == [] {
      assert Minus(ms, l) == [];
    }
  }

  /** A closed form for every channel and every sequence of leaves, members or not, repeated or not: the members keep
      their order and lose one occurrence per leave; the channel is deleted once nobody is left; the host stays unless
      it is among the leavers, and is the first remaining member then. */
  lemma {:induction false} LeavesAreOutcome(c: Chan, leavers: seq<string>)
    ensures LeaveAll(Some(c), leavers) == Outcome(c, multiset(leavers))
    decreases |leavers|
  {
    if leavers != [] {
      var a, rest := leavers[0], leavers[1..];
      assert leavers == [a] + rest;
      assert multiset(leavers) == multiset(rest) + multiset{a};
      LeaveThenOutcome(c, a, multiset(rest));
      match AfterLeave(c, a)
      case None =>
      case Some(d) => LeavesAreOutcome(d, rest);
    }
  }

  /** Confluence: the order of the leaves does not matter, for any channel at all. */
  lemma Confluent(c: Chan, a: seq<string>, b: seq<string>)
    requires multiset(a) == multiset(b)
    ensures LeaveAll(Some(c), a) == LeaveAll(Some(c), b)
  {
    LeavesAreOutcome(c, a);
    LeavesAreOutcome(c, b);
  }

  // The members that are not among the leavers, in their order.
  function Remaining(members: seq<string>, gone: set<string>): seq<string> {
    if members == [] then []
    else if members[0] in gone then Remaining(members[1..], gone)
    else [members[0]] + Remaining(members[1..], gone)
  }

  lemma {:induction false} MinusDistinct(members: seq<string>, l: multiset<string>, gone: set<string>)
    requires Distinct(members) && forall x :: x in members ==> (x in l <==> x in gone)
    ensures Minus(members, l) == Remaining(members, gone)
  {
    if members != [] {
      var rest := members[1..];
      forall x | x in rest ensures x != members[0] {
        var i :| 0 <= i < |rest| && rest[i] == x;
        assert members[i + 1] == x;
      }
      MinusDistinct(rest, if members[0] in l then l - multiset{members[0]} else l, gone);
    }
  }

  lemma {:induction false} RemainingEmpty(members: seq<string>, gone: set<string>)
    ensures Remaining(members, gone) == [] <==> forall x :: x in members ==> x in gone
  {
    if members != [] {
      assert members == [members[0]] + members[1..];
      RemainingEmpty(members[1..], gone);
    }
  }

  /** With distinct members and the host first, any leaves keep the host first, leave the other members in their order,
      and delete the channel exactly when all have left. */
  lemma Succession(c: Chan, leavers: seq<string>)
    requires Distinct(c.members) && c.members != [] && c.host == c.members[0]
    ensures var rest := Remaining(c.members, set x | x in leavers);
            && LeaveAll(Some(c), leavers) == (if rest == [] then None else Some(Chan(rest[0], rest)))
            && (LeaveAll(Some(c), leavers).None? <==> forall x :: x in c.members ==> x in leavers)
  {
    var gone := set x | x in leavers;
    LeavesAreOutcome(c, leavers);
    MinusDistinct(c.members, multiset(leavers), gone);
    RemainingEmpty(c.members, gone);
    if leavers == [] {
      MinusNothing(c.members);
      assert multiset(leavers) == multiset{};
    }
  }

  // ---------------------------------------------------------------- the whole manager

  function LeaveAllIn(m: map<string, Chan>, leaves: seq<(string, string)>): map<string, Chan> {
    if leaves == [] then m else LeaveAllIn(LeaveIn(m, leaves[0].0, leaves[0].1), leaves[1..])
  }

  // Who leaves channel id.
  function Leavers(leaves: seq<(string, string)>, id: string): seq<string> {
    if leaves == [] then []
    else if leaves[0].0 == id then [leaves[0].1] + Leavers(leaves[1..], id)
    else Leavers(leaves[1..], id)
  }

  // No leave touches another channel.
  lemma {:induction false} ChannelByChannel(m: map<string, Chan>, leaves: seq<(string, string)>, id: string)
    ensures Lookup(LeaveAllIn(m, leaves), id) == LeaveAll(Lookup(m, id), Leavers(leaves, id))
  {
    if leaves != [] {
      ChannelByChannel(LeaveIn(m, leaves[0].0, leaves[0].1), leaves[1..], id);
    }
  }

  lemma {:induction false} LeaversCount(leaves: seq<(string, string)>, id: string, a: string)
    ensures multiset(Leavers(leaves, id))[a] == multiset(leaves)[(id, a)]
  {
    if leaves != [] {
      assert leaves == [leaves[0]] + leaves[1..];
      LeaversCount(leaves[1..], id, a);
    }
  }

  /** Confluence of the whole manager: leaves of any agents from any channels, in any order, come to the same state. */
  lemma ManagerConfluent(m: map<string, Chan>, a: seq<(string, string)>, b: seq<(string, string)>)
    requires multiset(a) == multiset(b)
    ensures LeaveAllIn(m, a) == LeaveAllIn(m, b)
  {
    forall id ensures Lookup(LeaveAllIn(m, a), id) == Lookup(LeaveAllIn(m, b), id) {
      ChannelByChannel(m, a, id);
      ChannelByChannel(m, b, id);
      forall x ensures multiset(Leavers(a, id))[x] == multiset(Leavers(b, id))[x] {
        LeaversCount(a, id, x);
        LeaversCount(b, id, x);
      }
      assert multiset(Leavers(a, id)) == multiset(Leavers(b, id));
      if id in m {
        Confluent(m[id], Leavers(a, id), Leavers(b, id));
      }
    }
    SameLookups(LeaveAllIn(m, a), LeaveAllIn(m, b));
  }

  lemma SameLookups(m: map<string, Chan>, n: map<string, Chan>)
    requires forall id :: Lookup(m, id) == Lookup(n, id)
    ensures m == n
  {
    forall id ensures id in m <==> id in n {
      assert Lookup(m, id) == Lookup(n, id);
    }
    forall id | id in m ensures m[id] == n[id] {
      assert Lookup(m, id) == Lookup(n, id);
    }
  }
}
