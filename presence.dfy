/** The relay's presence registry (Server/Server.py): every connection carries a display name
    and a channel tag, the Broadcast registry groups connections by tag, and the `peers` route
    keeps, per observing connection, the list of channels it wants rosters for. */
module Presence {
  import opened Lists

  /** A connection handler, identified as Highway identifies it. */
  type PeerId = int

  const EDITOR: int := 1
  const WALLABY: int := 2
  const WEB: int := 3
  /** `Subscribe.CHANNELS`, the closed set of channel tags. */
  const CHANNELS: seq<int> := [EDITOR, WALLABY, WEB]

  predicate ValidChannel(c: int) {
    c in CHANNELS
  }

  /** A connection as the relay's handler holds it: `name` starts as "Unknown" and
      `channel` as None (`Handler.setup`). */
  datatype Peer = Peer(name: string, address: string, port: int, channel: Option<int>)

  /** One value of a `peers` reply: `{"name", "address", "port", "channel"}`. */
  datatype Entry = Entry(name: string, address: string, port: int, channel: int)

  /** One `peers` reply sent to connection `to`. */
  datatype RosterMsg = RosterMsg(to: PeerId, roster: map<PeerId, Entry>)

  // ---------------------------------------------------------------------------------------
  // The roster of send_connected_peers
  // ---------------------------------------------------------------------------------------

  /** The reply built by `send_connected_peers`: every connection whose tag is one of
      `channels`, except the requester itself, with its name, address, port and tag. */
  function Roster(table: map<PeerId, Peer>, requester: PeerId, channels: seq<int>): (r: map<PeerId, Entry>)
    ensures requester !in r
    ensures forall id :: id in r ==> id in table && r[id].channel in channels && table[id].channel == Some(r[id].channel)
  {
    map id | id in table && id != requester && table[id].channel.Some? && table[id].channel.value in channels
      :: Entry(table[id].name, table[id].address, table[id].port, table[id].channel.value)
  }

  /** The roster lists a connection exactly when it is tagged with a requested channel and is
      not the requester, and reports that connection's own data. */
  lemma RosterMembership(table: map<PeerId, Peer>, requester: PeerId, channels: seq<int>, id: PeerId)
    ensures id in Roster(table, requester, channels) <==>
      id in table && id != requester && exists c :: c in channels && table[id].channel == Some(c)
    ensures id in Roster(table, requester, channels) ==>
      var p := table[id]; Roster(table, requester, channels)[id] == Entry(p.name, p.address, p.port, p.channel.value)
    ensures requester !in Roster(table, requester, channels)
  {
  }

  /** Only the set of requested channels matters: order and repetitions in the request do not. */
  lemma RosterIgnoresOrder(table: map<PeerId, Peer>, requester: PeerId, a: seq<int>, b: seq<int>)
    requires forall c :: c in a <==> c in b
    ensures Roster(table, requester, a) == Roster(table, requester, b)
  {
  }

  /** Asking for two channel lists at once gives the union of the two rosters. */
  lemma RosterOfConcat(table: map<PeerId, Peer>, requester: PeerId, a: seq<int>, b: seq<int>)
    ensures Roster(table, requester, a + b) == Roster(table, requester, a) + Roster(table, requester, b)
  {
  }

  /** `Peers.run`'s filtering (the loop of Server/Server.py:110-113): the valid tags of a
      request, in request order. */
  function ValidChannels(cs: seq<int>): (r: seq<int>)
    ensures forall c :: c in r <==> c in cs && ValidChannel(c)
    ensures |r| <= |cs|
  {
    if cs == [] then []
    else
      var init := ValidChannels(cs[..|cs| - 1]);
      assert cs == cs[..|cs| - 1] + [cs[|cs| - 1]];
      if ValidChannel(cs[|cs| - 1]) then init + [cs[|cs| - 1]] else init
  }

  /** Dropping invalid tags from a request does not change the roster, because no connection
      carries an invalid tag. */
  lemma RosterOfValidChannels(table: map<PeerId, Peer>, requester: PeerId, cs: seq<int>)
    requires forall id :: id in table && table[id].channel.Some? ==> ValidChannel(table[id].channel.value)
    ensures Roster(table, requester, ValidChannels(cs)) == Roster(table, requester, cs)
  {
  }

  /** Scenario: A is an editor watching controllers, B a controller; A's roster shows B only. */
  lemma EditorSeesController(a: PeerId, b: PeerId, pa: Peer, pb: Peer)
    requires a != b && pa.channel == Some(EDITOR) && pb.channel == Some(WALLABY)
    ensures Roster(map[a := pa, b := pb], a, [WALLABY]) == map[b := Entry(pb.name, pb.address, pb.port, WALLABY)]
  {
    var r := Roster(map[a := pa, b := pb], a, [WALLABY]);
    assert r.Keys == {b};
  }

  // ---------------------------------------------------------------------------------------
  // Interest lists: Peers.subscribe / unsubscribe as values
  // ---------------------------------------------------------------------------------------

  type Interests = map<PeerId, seq<int>>

  /** Every observer's list is duplicate-free. */
  ghost predicate AllNoDup(subs: Interests) {
    forall o :: o in subs ==> NoDup(subs[o])
  }

  /** `Peers.subscribe(o, c)`: a new observer gets `[c]`; a known one gets `c` appended unless present. */
  function WithChannel(subs: Interests, o: PeerId, c: int): (r: Interests)
    ensures r.Keys == subs.Keys + {o}
    ensures c in r[o] && forall d :: d in r[o] <==> d == c || (o in subs && d in subs[o])
    ensures forall p :: p in subs && p != o ==> r[p] == subs[p]
    ensures AllNoDup(subs) ==> AllNoDup(r)
  {
    if o in subs then subs[o := AppendIfAbsent(subs[o], c)] else subs[o := [c]]
  }

  /** Subscribing twice to a channel is the same as subscribing once. */
  lemma WithChannelIdempotent(subs: Interests, o: PeerId, c: int)
    ensures WithChannel(WithChannel(subs, o, c), o, c) == WithChannel(subs, o, c)
  {
  }

  /** `Peers.unsubscribe(o, c)`: removes `c` from `o`'s list; nothing else changes, and nothing
      at all when `o` has no list or its list lacks `c`. */
  function WithoutChannel(subs: Interests, o: PeerId, c: int): (r: Interests)
    ensures r.Keys == subs.Keys
    ensures forall p :: p in subs && p != o ==> r[p] == subs[p]
    ensures (o !in subs || c !in subs[o]) ==> r == subs
    ensures o in subs && NoDup(subs[o]) ==> forall d :: d in r[o] <==> d in subs[o] && d != c
    ensures AllNoDup(subs) ==> AllNoDup(r)
  {
    if o in subs then
      RemoveFirstNoDupFor(subs[o], c);
      subs[o := RemoveFirst(subs[o], c)]
    else subs
  }

  /** `RemoveFirstNoDup` stated as an implication, for use inside expressions. */
  lemma RemoveFirstNoDupFor(xs: seq<int>, x: int)
    ensures NoDup(xs) ==> NoDup(RemoveFirst(xs, x)) && forall y :: y in RemoveFirst(xs, x) <==> y in xs && y != x
  {
    if NoDup(xs) {
      RemoveFirstNoDup(xs, x);
    }
  }

  /** Subscribing to each channel of `cs` in turn. */
  function WithChannels(subs: Interests, o: PeerId, cs: seq<int>): Interests {
    if cs == [] then subs else WithChannel(WithChannels(subs, o, cs[..|cs| - 1]), o, cs[|cs| - 1])
  }

  /** Unsubscribing from each channel of `cs` in turn. */
  function WithoutChannels(subs: Interests, o: PeerId, cs: seq<int>): Interests {
    if cs == [] then subs else WithoutChannel(WithoutChannels(subs, o, cs[..|cs| - 1]), o, cs[|cs| - 1])
  }

  /** A `subscribe` request only touches the requester's list, keeps it duplicate-free, and
      leaves it holding every requested channel. */
  lemma {:induction false} WithChannelsEffect(subs: Interests, o: PeerId, cs: seq<int>)
    requires AllNoDup(subs)
    ensures var r := WithChannels(subs, o, cs);
      AllNoDup(r) && (forall p :: p in subs && p != o ==> p in r && r[p] == subs[p])
      && (cs != [] ==> o in r && forall c :: c in cs ==> c in r[o])
  {
    if cs != [] {
      WithChannelsEffect(subs, o, cs[..|cs| - 1]);
      var r0 := WithChannels(subs, o, cs[..|cs| - 1]);
      forall c | c in cs ensures c in WithChannels(subs, o, cs)[o] {
        if c != cs[|cs| - 1] {
          assert c in cs[..|cs| - 1] by {
            var k :| 0 <= k < |cs| && cs[k] == c;
            assert cs[..|cs| - 1][k] == c;
          }
        }
      }
    }
  }

  /** The requests that the three events of `Peers.run` carry, after filtering. */
  function Requested(event: Option<seq<int>>): seq<int> {
    if event.Some? then ValidChannels(event.value) else []
  }

  /** The input of `Peers.run`: which of the keys "subscribe", "unsubscribe", "channels" are present. */
  datatype PeersRequest = PeersRequest(subscribe: Option<seq<int>>, unsubscribe: Option<seq<int>>, channels: Option<seq<int>>)

  /** What `push_changes` sends and to whom: one roster, built from the observer's own interest
      list, to every observer that is reachable, and nothing to anybody else. */
  ghost predicate Pushed(sent: seq<RosterMsg>, subs: Interests, table: map<PeerId, Peer>, unreachable: set<PeerId>) {
    && (forall i :: 0 <= i < |sent| ==>
         sent[i].to in subs && sent[i].to !in unreachable && sent[i].roster == Roster(table, sent[i].to, subs[sent[i].to]))
    && (forall o :: o in subs && o !in unreachable ==> exists i :: 0 <= i < |sent| && sent[i].to == o)
    && (forall i, j :: 0 <= i < j < |sent| ==> sent[i].to != sent[j].to)
  }

  /** The `peers` route object with its per-observer interest lists. */
  class Peers {
    var subscriptions: Interests

    ghost predicate Valid()
      reads this
    {
      AllNoDup(subscriptions)
    }

    constructor ()
      ensures Valid() && subscriptions == map[]
    {
      subscriptions := map[];
    }

    /** Server/Server.py:139-144 */
    method Subscribe(o: PeerId, c: int)
      requires Valid()
      modifies this
      ensures Valid()
      ensures subscriptions == WithChannel(old(subscriptions), o, c)
    {
      if o !in subscriptions {
        subscriptions := subscriptions[o := [c]];
      } else if c !in subscriptions[o] {
        subscriptions := subscriptions[o := subscriptions[o] + [c]];
      }
    }

    /** Server/Server.py:147-150 */
    method Unsubscribe(o: PeerId, c: int)
      requires Valid()
      modifies this
      ensures Valid()
      ensures subscriptions == WithoutChannel(old(subscriptions), o, c)
    {
      if o in subscriptions {
        if c in subscriptions[o] {
          RemoveFirstNoDup(subscriptions[o], c);
          subscriptions := subscriptions[o := RemoveFirst(subscriptions[o], c)];
        }
      }
    }

    /** Server/Server.py:153-155 */
    method UnsubscribeAll(o: PeerId)
      requires Valid()
      modifies this
      ensures Valid()
      ensures subscriptions == old(subscriptions) - {o}
    {
      if o in subscriptions {
        subscriptions := subscriptions - {o};
      }
    }

    /** The filtering loop of `Peers.run`: keep the request's valid tags, in order. */
    static method FilterChannels(cs: seq<int>) returns (r: seq<int>)
      ensures r == ValidChannels(cs)
    {
      r := [];
      var i := 0;
      while i < |cs|
        invariant 0 <= i <= |cs|
        invariant r == ValidChannels(cs[..i])
      {
        assert cs[..i + 1][..i] == cs[..i];
        if cs[i] in CHANNELS {
          r := r + [cs[i]];
        }
        i := i + 1;
      }
      assert cs[..i] == cs;
    }

    method SubscribeEach(o: PeerId, cs: seq<int>)
      requires Valid()
      modifies this
      ensures Valid()
      ensures subscriptions == WithChannels(old(subscriptions), o, cs)
    {
      var i := 0;
      while i < |cs|
        invariant 0 <= i <= |cs|
        invariant Valid()
        invariant subscriptions == WithChannels(old(subscriptions), o, cs[..i])
      {
        assert cs[..i + 1][..i] == cs[..i];
        Subscribe(o, cs[i]);
        i := i + 1;
      }
      assert cs[..i] == cs;
    }

    method UnsubscribeEach(o: PeerId, cs: seq<int>)
      requires Valid()
      modifies this
      ensures Valid()
      ensures subscriptions == WithoutChannels(old(subscriptions), o, cs)
    {
      var i := 0;
      while i < |cs|
        invariant 0 <= i <= |cs|
        invariant Valid()
        invariant subscriptions == WithoutChannels(old(subscriptions), o, cs[..i])
      {
        assert cs[..i + 1][..i] == cs[..i];
        Unsubscribe(o, cs[i]);
        i := i + 1;
      }
      assert cs[..i] == cs;
    }

    /** `Peers.run` (Server/Server.py:107-122): "subscribe" subscribes and replies with the
        roster of the requested channels, "unsubscribe" unsubscribes and replies nothing,
        "channels" replies with the roster and changes nothing. Invalid tags are dropped first. */
    method Run(requester: PeerId, data: PeersRequest, table: map<PeerId, Peer>) returns (sent: seq<RosterMsg>)
      requires Valid()
      modifies this
      ensures Valid()
      ensures subscriptions ==
        WithoutChannels(WithChannels(old(subscriptions), requester, Requested(data.subscribe)),
                        requester, Requested(data.unsubscribe))
      ensures sent ==
        (if data.subscribe.Some? then [RosterMsg(requester, Roster(table, requester, Requested(data.subscribe)))] else [])
        + (if data.channels.Some? then [RosterMsg(requester, Roster(table, requester, Requested(data.channels)))] else [])
    {
      sent := [];
      if data.subscribe.Some? {
        var cs := FilterChannels(data.subscribe.value);
        SubscribeEach(requester, cs);
        sent := sent + [RosterMsg(requester, Roster(table, requester, cs))];
      }
      if data.unsubscribe.Some? {
        var cs := FilterChannels(data.unsubscribe.value);
        UnsubscribeEach(requester, cs);
      }
      if data.channels.Some? {
        var cs := FilterChannels(data.channels.value);
        sent := sent + [RosterMsg(requester, Roster(table, requester, cs))];
      }
    }

    /** The sending loop of `push_changes`: one roster to every reachable observer, and the
        observers whose send fails, collected for removal. */
    static method Rosters(subs: Interests, table: map<PeerId, Peer>, unreachable: set<PeerId>)
      returns (sent: seq<RosterMsg>, failed: seq<PeerId>)
      ensures Pushed(sent, subs, table, unreachable)
      ensures forall o :: o in failed <==> o in subs && o in unreachable
    {
      var pending := subs.Keys;
      failed := [];
      sent := [];
      while pending != {}
        invariant pending <= subs.Keys
        invariant forall i :: 0 <= i < |sent| ==>
          sent[i].to in subs && sent[i].to !in pending && sent[i].to !in unreachable
          && sent[i].roster == Roster(table, sent[i].to, subs[sent[i].to])
        invariant forall o :: o in subs && o !in pending && o !in unreachable ==>
          exists i :: 0 <= i < |sent| && sent[i].to == o
        invariant forall i, j :: 0 <= i < j < |sent| ==> sent[i].to != sent[j].to
        invariant forall o :: o in failed <==> o in subs && o !in pending && o in unreachable
        decreases pending
      {
        assert exists o :: o in pending by {
          NonEmptyHasMember(pending);
        }
        var o :| o in pending;
        if o in unreachable {
          failed := failed + [o];
        } else {
          var before := sent;
          sent := sent + [RosterMsg(o, Roster(table, o, subs[o]))];
          forall p | p in subs && p !in pending - {o} && p !in unreachable
            ensures exists i :: 0 <= i < |sent| && sent[i].to == p
          {
            if p == o {
              assert sent[|sent| - 1].to == p;
            } else {
              var i :| 0 <= i < |before| && before[i].to == p;
              assert sent[i].to == p;
            }
          }
        }
        pending := pending - {o};
      }
    }

    /** `push_changes` (Server/Server.py:158-168): re-send every observer its roster; an
        observer whose send fails (it is in `unreachable`) loses its whole interest list. */
    method PushChanges(table: map<PeerId, Peer>, unreachable: set<PeerId>) returns (sent: seq<RosterMsg>)
      requires Valid()
      modifies this
      ensures Valid()
      ensures subscriptions == old(subscriptions) - unreachable
      ensures Pushed(sent, old(subscriptions), table, unreachable)
    {
      var subs := subscriptions;
      var failed;
      sent, failed := Rosters(subs, table, unreachable);
      var k := 0;
      while k < |failed|
        invariant 0 <= k <= |failed|
        invariant Valid()
        invariant subscriptions == subs - (set j | 0 <= j < k :: failed[j])
      {
        UnsubscribeAll(failed[k]);
        assert (set j | 0 <= j < k + 1 :: failed[j]) == (set j | 0 <= j < k :: failed[j]) + {failed[k]};
        k := k + 1;
      }
      assert subscriptions == subs - unreachable by {
        var dropped := set j | 0 <= j < |failed| :: failed[j];
        forall o ensures o in dropped <==> o in subs && o in unreachable {
          if o in failed {
            var j :| 0 <= j < |failed| && failed[j] == o;
            assert o in dropped;
          }
        }
        assert (subs - dropped).Keys == (subs - unreachable).Keys;
      }
    }
  }

  // ---------------------------------------------------------------------------------------
  // Channel tags and the Broadcast registry
  // ---------------------------------------------------------------------------------------

  /** The Broadcast registry: channel tag -> the connections that carry it. */
  type Members = map<int, set<PeerId>>

  /** The registry agrees with the tags: every channel holds exactly its tagged connections. */
  ghost predicate Registered(members: Members, table: map<PeerId, Peer>) {
    && members.Keys == {EDITOR, WALLABY, WEB}
    && (forall c, id :: c in members && id in members[c] ==> id in table && table[id].channel == Some(c))
    && (forall id :: id in table && table[id].channel.Some? ==>
          table[id].channel.value in members && id in members[table[id].channel.value])
  }

  /** `handler.broadcast.add(handler, c)` as Server/Server.py:79 uses it: the connection joins
      `c` and stays in whatever channel it was in before. */
  function TagAsWritten(members: Members, id: PeerId, c: int): (r: Members)
    requires c in members
    ensures r.Keys == members.Keys
    ensures forall x :: x in r[c] <==> x in members[c] || x == id
    ensures forall d :: d in members && d != c ==> r[d] == members[d]
  {
    members[c := members[c] + {id}]
  }

  /** Re-tagging as intended: leave the old channel, join the new one. */
  function Tag(members: Members, id: PeerId, previous: Option<int>, c: int): (r: Members)
    requires c in members
    ensures r.Keys == members.Keys && id in r[c]
    ensures previous.Some? && previous.value in members && previous.value != c ==>
      r[previous.value] == members[previous.value] - {id}
    ensures forall d :: d in members && d != c && previous != Some(d) ==> r[d] == members[d]
  {
    var left := if previous.Some? && previous.value in members then members[previous.value := members[previous.value] - {id}] else members;
    left[c := left[c] + {id}]
  }

  /** The channel tag and name after a `subscribe` message (Server/Server.py:76-87): the tag
      changes only to one of the three channels, and a given name always replaces the old one. */
  function Identified(p: Peer, channel: Option<int>, name: Option<string>): (q: Peer)
    ensures q.address == p.address && q.port == p.port
    ensures q.channel != p.channel ==> q.channel == channel && q.channel.Some? && ValidChannel(q.channel.value)
    ensures channel.Some? && ValidChannel(channel.value) ==> q.channel == channel
    ensures (p.channel.Some? ==> ValidChannel(p.channel.value)) ==> (q.channel.Some? ==> ValidChannel(q.channel.value))
    ensures name.Some? ==> q.name == name.value
    ensures q.name != p.name ==> name == Some(q.name)
  {
    Peer(if name.Some? then name.value else p.name, p.address, p.port,
         if channel.Some? && channel.value in CHANNELS then channel else p.channel)
  }

  /** The intended re-tag keeps the registry equal to the tags. */
  lemma TagKeepsRegistered(members: Members, table: map<PeerId, Peer>, id: PeerId, c: int)
    requires Registered(members, table) && id in table && ValidChannel(c)
    ensures Registered(Tag(members, id, table[id].channel, c), table[id := table[id].(channel := Some(c))])
  {
  }

  /** As written, a controller that re-identifies as an editor is still listed as a controller. */
  lemma TagAsWrittenBreaksRegistry(members: Members, table: map<PeerId, Peer>, id: PeerId, p: Peer)
    requires p.channel == Some(WALLABY)
    requires members == map[EDITOR := {}, WALLABY := {id}, WEB := {}] && table == map[id := p]
    ensures Registered(members, table)
    ensures !Registered(TagAsWritten(members, id, EDITOR), table[id := p.(channel := Some(EDITOR))])
  {
    assert members.Keys == {EDITOR, WALLABY, WEB};
    forall c, i | c in members && i in members[c] ensures i in table && table[i].channel == Some(c) {
      assert c == WALLABY && i == id;
    }
    assert id in members[WALLABY];
    var table' := table[id := p.(channel := Some(EDITOR))];
    assert id in TagAsWritten(members, id, EDITOR)[WALLABY];
    assert table'[id].channel != Some(WALLABY);
  }

  /** The relay's registry invariant: the registry agrees with the tags, and every tag is one
      of the three channels. */
  ghost predicate Tagged(members: Members, table: map<PeerId, Peer>) {
    && Registered(members, table)
    && (forall id :: id in table && table[id].channel.Some? ==> ValidChannel(table[id].channel.value))
  }

  /** The registry after a `subscribe` message of connection `id`: only `id` moves, into the
      requested channel when that is one of the three, and the registry still agrees with
      the tags once `id`'s tag is updated as the message updates it (its name plays no part). */
  function Retagged(members: Members, table: map<PeerId, Peer>, id: PeerId, channel: Option<int>): (r: Members)
    requires members.Keys == {EDITOR, WALLABY, WEB} && id in table
    ensures r.Keys == members.Keys
    ensures forall d, x :: d in members && x != id ==> (x in r[d] <==> x in members[d])
    ensures channel.Some? && ValidChannel(channel.value) ==> id in r[channel.value]
    ensures !(channel.Some? && ValidChannel(channel.value)) ==> r == members
    ensures Tagged(members, table) ==> Tagged(r, table[id := Identified(table[id], channel, None)])
  {
    if channel.Some? && channel.value in CHANNELS then Tag(members, id, table[id].channel, channel.value) else members
  }

  /** A `subscribe` message keeps the registry invariant. */
  lemma IdentifiedKeepsTagged(members: Members, table: map<PeerId, Peer>, id: PeerId, channel: Option<int>, name: Option<string>)
    requires Tagged(members, table) && id in table
    ensures Tagged(Retagged(members, table, id, channel), table[id := Identified(table[id], channel, name)])
  {
    var q := Identified(table[id], channel, name);
    if channel.Some? && channel.value in CHANNELS {
      TagKeepsRegistered(members, table, id, channel.value);
      assert table[id := q] == table[id := table[id].(channel := Some(channel.value))][id := q];
    } else {
      assert q.channel == table[id].channel;
    }
  }

  /** The registry after connection `id` closes: it leaves its channel, nobody else moves,
      and the registry agrees with the tags of the remaining connections. */
  function Untagged(members: Members, table: map<PeerId, Peer>, id: PeerId): (r: Members)
    requires members.Keys == {EDITOR, WALLABY, WEB} && id in table
    requires table[id].channel.Some? ==> table[id].channel.value in members
    ensures r.Keys == members.Keys
    ensures forall d, x :: d in members && x != id ==> (x in r[d] <==> x in members[d])
    ensures table[id].channel.Some? ==> id !in r[table[id].channel.value]
    ensures Tagged(members, table) ==> Tagged(r, table - {id}) && forall d :: d in r ==> id !in r[d]
  {
    if table[id].channel.Some? then members[table[id].channel.value := members[table[id].channel.value] - {id}] else members
  }

  /** A closing connection keeps the registry invariant. */
  lemma UntaggedKeepsTagged(members: Members, table: map<PeerId, Peer>, id: PeerId)
    requires Tagged(members, table) && id in table
    ensures table[id].channel.Some? ==> table[id].channel.value in members
    ensures Tagged(Untagged(members, table, id), table - {id})
  {
  }

  /** The `subscribe` message: a mapping with optional "channel" and "name", or anything else. */
  datatype SubscribeData = NotDict | Dict(channel: Option<int>, name: Option<string>)

  /** The relay's shared state: the transport's table of connected handlers, the Broadcast
      registry and the `peers` route. */
  class Relay {
    var table: map<PeerId, Peer>
    var members: Members
    const peers: Peers

    ghost predicate Valid()
      reads this, peers
    {
      && peers.Valid()
      && Tagged(members, table)
    }

    /** The relay at start-up: no connections, and a Broadcast channel for each tag
        (Server/Server.py:216-219). */
    constructor ()
      ensures Valid() && fresh(peers)
      ensures table == map[] && members == map[EDITOR := {}, WALLABY := {}, WEB := {}]
      ensures peers.subscriptions == map[]
    {
      table := map[];
      members := map[EDITOR := {}, WALLABY := {}, WEB := {}];
      peers := new Peers();
    }

    /** `Handler.setup` for a connection the transport has just accepted. */
    method Setup(id: PeerId, address: string, port: int)
      requires Valid() && id !in table
      modifies this
      ensures Valid()
      ensures table == old(table)[id := Peer("Unknown", address, port, None)]
      ensures members == old(members)
    {
      table := table[id := Peer("Unknown", address, port, None)];
    }

    /** `Subscribe.run` (Server/Server.py:74-88): any mapping sets the tag (if it is one of
        the three), the name (if given), and then pushes the rosters exactly once; anything
        else is ignored. The connection leaves its previous Broadcast channel, as intended;
        see `TagAsWrittenBreaksRegistry` for the code as written. */
    method SubscribeRun(h: PeerId, data: SubscribeData, unreachable: set<PeerId>) returns (sent: seq<RosterMsg>)
      requires Valid() && h in table
      modifies this, peers
      ensures Valid()
      ensures data.NotDict? ==>
        table == old(table) && members == old(members) && peers.subscriptions == old(peers.subscriptions) && sent == []
      ensures data.Dict? ==> table == old(table)[h := Identified(old(table)[h], data.channel, data.name)]
      ensures data.Dict? && data.channel.Some? && ValidChannel(data.channel.value) ==>
        members == Tag(old(members), h, old(table)[h].channel, data.channel.value)
      ensures data.Dict? && !(data.channel.Some? && ValidChannel(data.channel.value)) ==> members == old(members)
      ensures data.Dict? ==> peers.subscriptions == old(peers.subscriptions) - unreachable
      ensures data.Dict? ==> Pushed(sent, old(peers.subscriptions), table, unreachable)
    {
      sent := [];
      if data.Dict? {
        IdentifiedKeepsTagged(members, table, h, data.channel, data.name);
        var m := Retagged(members, table, h, data.channel);
        var t := table[h := Identified(table[h], data.channel, data.name)];
        members, table := m, t;
        sent := peers.PushChanges(t, unreachable);
      }
    }

    /** `Handler.closed` (Server/Server.py:184-189): the connection leaves its Broadcast channel
        and the rosters are pushed. The transport drops the connection from its table; its own
        interest list goes only if the push to it fails. */
    method Closed(h: PeerId, unreachable: set<PeerId>) returns (sent: seq<RosterMsg>)
      requires Valid() && h in table
      modifies this, peers
      ensures Valid()
      ensures table == old(table) - {h}
      ensures old(table)[h].channel.Some? ==>
        members == old(members)[old(table)[h].channel.value := old(members)[old(table)[h].channel.value] - {h}]
      ensures old(table)[h].channel.None? ==> members == old(members)
      ensures peers.subscriptions == old(peers.subscriptions) - unreachable
      ensures Pushed(sent, old(peers.subscriptions), table, unreachable)
    {
      UntaggedKeepsTagged(members, table, h);
      var m := Untagged(members, table, h);
      var t := table - {h};
      members, table := m, t;
      sent := peers.PushChanges(t, unreachable);
    }
  }
}
