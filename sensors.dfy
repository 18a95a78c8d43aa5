/** Sensor streaming on the controller (Wallaby/Wallaby.py): the `SensorReadout` registry of
    which ports must be read and which connection wants which port, one round of the
    fetcher thread, and the `sensor` pipe that turns requests into registry updates. */
module Sensors {
  import opened Lists

  type PeerId = int

  const ANALOG: int := 1
  const DIGITAL: int := 2
  /** `NAMED_MODES`: the key under which each mode's readings travel. */
  const NAMED_MODES: map<int, string> := map[ANALOG := "analog", DIGITAL := "digital"]

  predicate IsMode(mode: int) {
    mode == ANALOG || mode == DIGITAL
  }

  /** `SensorReadout.valid_port` (Wallaby/Wallaby.py:114-120): analog ports 0-5, digital 0-9,
      any other mode refused. */
  predicate ValidPort(port: int, mode: int)
    ensures ValidPort(port, mode) ==> IsMode(mode) && 0 <= port <= 9
  {
    if mode == ANALOG then 0 <= port <= 5
    else if mode == DIGITAL then 0 <= port <= 9
    else false
  }

  /** Per-mode port lists, as `{ANALOG: [...], DIGITAL: [...]}`. */
  type PortLists = map<int, seq<int>>

  predicate HasModes(lists: PortLists) {
    lists.Keys == {ANALOG, DIGITAL}
  }

  /** The registry: `readout_required` and `peers`. */
  datatype Readout = Readout(required: PortLists, peers: map<PeerId, PortLists>)

  /** Some connection lists `port` under `mode`. */
  predicate Listed(peers: map<PeerId, PortLists>, port: int, mode: int) {
    exists p :: p in peers && mode in peers[p] && port in peers[p][mode]
  }

  /** The registry's invariant: both modes present everywhere, each required list free of
      duplicates, and a port is read exactly when some connection lists it. */
  ghost predicate Inv(r: Readout) {
    && HasModes(r.required)
    && (forall p :: p in r.peers ==> HasModes(r.peers[p]))
    && (forall m :: m in r.required ==> NoDup(r.required[m]))
    && (forall m, port :: m in r.required ==> (port in r.required[m] <==> Listed(r.peers, port, m)))
  }

  /** The registry `SensorReadout.__init__` starts with. */
  function Empty(): (r: Readout)
    ensures Inv(r)
  {
    Readout(map[ANALOG := [], DIGITAL := []], map[])
  }

  /** A connection's lists, or the empty lists it is given on first subscription. */
  function ListsOf(r: Readout, peer: PeerId): PortLists {
    if peer in r.peers then r.peers[peer] else map[ANALOG := [], DIGITAL := []]
  }

  /** `SensorReadout.subscribe` (Wallaby/Wallaby.py:62-68): mark the port as required (once)
      and append it to the connection's list (every time). */
  function Subscribed(r: Readout, port: int, mode: int, peer: PeerId): (s: Readout)
    requires Inv(r) && IsMode(mode)
    ensures s.required.Keys == r.required.Keys && port in s.required[mode]
    ensures s.peers.Keys == r.peers.Keys + {peer} && mode in s.peers[peer] && port in s.peers[peer][mode]
  {
    var lists := ListsOf(r, peer);
    Readout(r.required[mode := AppendIfAbsent(r.required[mode], port)],
            r.peers[peer := lists[mode := lists[mode] + [port]]])
  }

  /** Subscribing keeps the invariant, requires the port exactly as a set member, gives the
      connection one more occurrence of it, and changes nothing else. */
  lemma SubscribeEffect(r: Readout, port: int, mode: int, peer: PeerId)
    requires Inv(r) && IsMode(mode)
    ensures var s := Subscribed(r, port, mode, peer);
      && Inv(s)
      && port in s.required[mode]
      && (forall q :: q in s.required[mode] <==> q in r.required[mode] || q == port)
      && (forall m :: m in r.required && m != mode ==> s.required[m] == r.required[m])
      && s.peers.Keys == r.peers.Keys + {peer}
      && multiset(s.peers[peer][mode]) == multiset(ListsOf(r, peer)[mode]) + multiset{port}
      && (forall m :: m in r.required && m != mode ==> s.peers[peer][m] == ListsOf(r, peer)[m])
      && (forall p :: p in r.peers && p != peer ==> s.peers[p] == r.peers[p])
  {
    SubscribeKeepsInv(r, port, mode, peer);
    SubscribeFrame(r, port, mode, peer);
  }

  lemma SubscribeFrame(r: Readout, port: int, mode: int, peer: PeerId)
    requires Inv(r) && IsMode(mode)
    ensures var s := Subscribed(r, port, mode, peer);
      && port in s.required[mode]
      && (forall q :: q in s.required[mode] <==> q in r.required[mode] || q == port)
      && (forall m :: m in r.required && m != mode ==> s.required[m] == r.required[m])
      && s.peers.Keys == r.peers.Keys + {peer}
      && multiset(s.peers[peer][mode]) == multiset(ListsOf(r, peer)[mode]) + multiset{port}
      && (forall m :: m in r.required && m != mode ==> s.peers[peer][m] == ListsOf(r, peer)[m])
      && (forall p :: p in r.peers && p != peer ==> s.peers[p] == r.peers[p])
  {
  }

  lemma SubscribeKeepsInv(r: Readout, port: int, mode: int, peer: PeerId)
    requires Inv(r) && IsMode(mode)
    ensures Inv(Subscribed(r, port, mode, peer))
  {
    var s := Subscribed(r, port, mode, peer);
    SubscribedListings(r, port, mode, peer);
    forall m, q | m in s.required ensures q in s.required[m] <==> Listed(s.peers, q, m) {
      if m == mode {
        assert s.required[m] == AppendIfAbsent(r.required[m], port);
      } else {
        assert s.required[m] == r.required[m];
      }
    }
  }

  /** After subscribing, the listings are the old ones plus `port` under `mode`. */
  lemma SubscribedListings(r: Readout, port: int, mode: int, peer: PeerId)
    requires Inv(r) && IsMode(mode)
    ensures forall m, q :: Listed(Subscribed(r, port, mode, peer).peers, q, m) <==>
      Listed(r.peers, q, m) || (m == mode && q == port)
  {
    SubscribedGains(r, port, mode, peer);
    SubscribedAddsOnlyPort(r, port, mode, peer);
  }

  lemma SubscribedGains(r: Readout, port: int, mode: int, peer: PeerId)
    requires Inv(r) && IsMode(mode)
    ensures forall m, q :: Listed(r.peers, q, m) || (m == mode && q == port) ==>
      Listed(Subscribed(r, port, mode, peer).peers, q, m)
  {
    var s := Subscribed(r, port, mode, peer);
    var lists := ListsOf(r, peer);
    assert s.peers[peer] == lists[mode := lists[mode] + [port]];
    forall m, q | Listed(r.peers, q, m) || (m == mode && q == port) ensures Listed(s.peers, q, m) {
      if m == mode && q == port {
        assert port in s.peers[peer][mode];
      } else {
        var p :| p in r.peers && m in r.peers[p] && q in r.peers[p][m];
        assert q in s.peers[p][m];
      }
    }
  }

  lemma SubscribedAddsOnlyPort(r: Readout, port: int, mode: int, peer: PeerId)
    requires Inv(r) && IsMode(mode)
    ensures forall m, q :: Listed(Subscribed(r, port, mode, peer).peers, q, m) ==>
      Listed(r.peers, q, m) || (m == mode && q == port)
  {
    var s := Subscribed(r, port, mode, peer);
    var lists := ListsOf(r, peer);
    assert s.peers[peer] == lists[mode := lists[mode] + [port]];
    forall m, q | Listed(s.peers, q, m) && !(m == mode && q == port) ensures Listed(r.peers, q, m) {
      var p :| p in s.peers && m in s.peers[p] && q in s.peers[p][m];
      if p != peer {
        assert s.peers[p] == r.peers[p];
      } else {
        assert q in lists[m];
      }
    }
  }

  /** The connection's lists after removing the first occurrence of `port` under `mode`
      (Wallaby/Wallaby.py:72-74). */
  function Dropped(r: Readout, port: int, mode: int, peer: PeerId): (d: map<PeerId, PortLists>)
    requires Inv(r) && IsMode(mode)
    ensures d.Keys == r.peers.Keys
    ensures forall p :: p in r.peers && p != peer ==> d[p] == r.peers[p]
  {
    if peer in r.peers then r.peers[peer := r.peers[peer][mode := RemoveFirst(r.peers[peer][mode], port)]]
    else r.peers
  }

  /** `SensorReadout.unsubscribe` as written (Wallaby/Wallaby.py:71-81): the connection's
      listing is already gone (:74) when the flag, assigned as `readout_still_required` but
      read as `readout_required`, is read; when no connection lists the port any more that
      read raises UnboundLocalError, and the required lists stay as they were. So the call
      raises exactly when no other connection lists the port and the caller listed it at
      most once. */
  function UnsubscribedAsWritten(r: Readout, port: int, mode: int, peer: PeerId): (a: Applied)
    requires Inv(r) && IsMode(mode)
    ensures a.state.required == r.required && a.state.peers == Dropped(r, port, mode, peer)
    ensures a.raised <==>
      (forall p :: p in r.peers && p != peer ==> port !in r.peers[p][mode]) &&
      (peer in r.peers ==> multiset(r.peers[peer][mode])[port] <= 1)
  {
    DroppedUnlisted(r, port, mode, peer);
    var peers := Dropped(r, port, mode, peer);
    Applied(Readout(r.required, peers), !Listed(peers, port, mode))
  }

  /** After the removal nobody lists the port iff no other connection listed it and the
      caller listed it at most once. */
  lemma DroppedUnlisted(r: Readout, port: int, mode: int, peer: PeerId)
    requires Inv(r) && IsMode(mode)
    ensures !Listed(Dropped(r, port, mode, peer), port, mode) <==>
      (forall p :: p in r.peers && p != peer ==> port !in r.peers[p][mode]) &&
      (peer in r.peers ==> multiset(r.peers[peer][mode])[port] <= 1)
  {
    var peers := Dropped(r, port, mode, peer);
    if peer in r.peers {
      var l := r.peers[peer][mode];
      assert port in peers[peer][mode] <==> multiset(l)[port] >= 2 by {
        assert port in peers[peer][mode] <==> multiset(peers[peer][mode])[port] > 0;
        assert port !in l <==> multiset(l)[port] == 0;
      }
    }
  }

  /** As written, an unsubscribe that does not raise is the intended one; one that raises for
      a port still being read leaves that port required by nobody, breaking the invariant. */
  lemma UnsubscribedAsWrittenEffect(r: Readout, port: int, mode: int, peer: PeerId)
    requires Inv(r) && IsMode(mode)
    ensures var a := UnsubscribedAsWritten(r, port, mode, peer);
      !a.raised ==> Unsubscribed(r, port, mode, peer) == Some(a.state)
    ensures var a := UnsubscribedAsWritten(r, port, mode, peer);
      a.raised && port in r.required[mode] ==> !Inv(a.state)
  {
    var a := UnsubscribedAsWritten(r, port, mode, peer);
    if a.raised && port in r.required[mode] {
      assert mode in a.state.required && port in a.state.required[mode];
      assert !Listed(a.state.peers, port, mode);
    }
  }

  /** `unsubscribe` with the flag read under the name it was assigned: the port stops being
      read once no connection lists it. `del l[l.index(port)]` still raises ValueError (None)
      when the port was never required. */
  function Unsubscribed(r: Readout, port: int, mode: int, peer: PeerId): (s: Option<Readout>)
    requires Inv(r) && IsMode(mode)
    ensures s.Some? ==> s.value.peers == Dropped(r, port, mode, peer) && s.value.required.Keys == r.required.Keys
  {
    var peers := Dropped(r, port, mode, peer);
    if Listed(peers, port, mode) then Some(Readout(r.required, peers))
    else if port in r.required[mode] then Some(Readout(r.required[mode := RemoveFirst(r.required[mode], port)], peers))
    else None
  }

  /** Unsubscribing fails exactly for a port that was never required; otherwise it keeps the
      invariant, takes one occurrence from the connection's list, stops reading the port
      exactly when nobody lists it any more, and changes nothing else. */
  lemma UnsubscribeEffect(r: Readout, port: int, mode: int, peer: PeerId)
    requires Inv(r) && IsMode(mode)
    ensures Unsubscribed(r, port, mode, peer).None? <==> port !in r.required[mode]
    ensures Unsubscribed(r, port, mode, peer).Some? ==>
      var s := Unsubscribed(r, port, mode, peer).value;
      && Inv(s)
      && s.peers.Keys == r.peers.Keys
      && (peer in r.peers ==>
            multiset(s.peers[peer][mode]) == multiset(r.peers[peer][mode]) - multiset{port}
            && forall m :: m in r.required && m != mode ==> s.peers[peer][m] == r.peers[peer][m])
      && (forall p :: p in r.peers && p != peer ==> s.peers[p] == r.peers[p])
      && (port in s.required[mode] <==> Listed(s.peers, port, mode))
      && (forall q :: q != port ==> (q in s.required[mode] <==> q in r.required[mode]))
      && (forall m :: m in r.required && m != mode ==> s.required[m] == r.required[m])
  {
    UnsubscribedRaises(r, port, mode, peer);
    if Unsubscribed(r, port, mode, peer).Some? {
      UnsubscribedKeepsInv(r, port, mode, peer);
      UnsubscribedFrame(r, port, mode, peer);
    }
  }

  /** Removing one listing keeps every other listing and adds none. */
  lemma DroppedListings(r: Readout, port: int, mode: int, peer: PeerId)
    requires Inv(r) && IsMode(mode)
    ensures var d := Dropped(r, port, mode, peer);
      && d.Keys == r.peers.Keys
      && (forall p :: p in d ==> HasModes(d[p]))
      && (forall m, q :: Listed(d, q, m) ==> Listed(r.peers, q, m))
      && (forall m, q :: Listed(r.peers, q, m) && !(m == mode && q == port) ==> Listed(d, q, m))
  {
    DroppedAddsNone(r, port, mode, peer);
    DroppedKeepsOthers(r, port, mode, peer);
  }

  lemma DroppedAddsNone(r: Readout, port: int, mode: int, peer: PeerId)
    requires Inv(r) && IsMode(mode)
    ensures forall m, q :: Listed(Dropped(r, port, mode, peer), q, m) ==> Listed(r.peers, q, m)
  {
    var d := Dropped(r, port, mode, peer);
    forall m, q | Listed(d, q, m) ensures Listed(r.peers, q, m) {
      var p :| p in d && m in d[p] && q in d[p][m];
      assert q in r.peers[p][m];
    }
  }

  lemma DroppedKeepsOthers(r: Readout, port: int, mode: int, peer: PeerId)
    requires Inv(r) && IsMode(mode)
    ensures forall m, q :: Listed(r.peers, q, m) && !(m == mode && q == port) ==> Listed(Dropped(r, port, mode, peer), q, m)
  {
    var d := Dropped(r, port, mode, peer);
    forall m, q | Listed(r.peers, q, m) && !(m == mode && q == port) ensures Listed(d, q, m) {
      var p :| p in r.peers && m in r.peers[p] && q in r.peers[p][m];
      if p == peer && m == mode {
        RemoveFirstKeepsOthers(r.peers[p][m], port, q);
      }
      assert q in d[p][m];
    }
  }

  lemma UnsubscribedRaises(r: Readout, port: int, mode: int, peer: PeerId)
    requires Inv(r) && IsMode(mode)
    ensures Unsubscribed(r, port, mode, peer).None? <==> port !in r.required[mode]
  {
    DroppedListings(r, port, mode, peer);
  }

  lemma UnsubscribedKeepsInv(r: Readout, port: int, mode: int, peer: PeerId)
    requires Inv(r) && IsMode(mode)
    requires Unsubscribed(r, port, mode, peer).Some?
    ensures Inv(Unsubscribed(r, port, mode, peer).value)
  {
    DroppedListings(r, port, mode, peer);
    var d := Dropped(r, port, mode, peer);
    if Listed(d, port, mode) {
      StillListedKeepsInv(r, port, mode, d);
    } else {
      ReleasedKeepsInv(r, port, mode, d);
    }
  }

  /** The registry with the same required ports and listings `d` that differ from the old ones
      only in listings of `port` under `mode`, which `d` still has. */
  lemma StillListedKeepsInv(r: Readout, port: int, mode: int, d: map<PeerId, PortLists>)
    requires Inv(r) && IsMode(mode) && Listed(d, port, mode)
    requires (forall p :: p in d ==> HasModes(d[p]))
    requires forall m, q :: Listed(d, q, m) ==> Listed(r.peers, q, m)
    requires forall m, q :: Listed(r.peers, q, m) && !(m == mode && q == port) ==> Listed(d, q, m)
    ensures Inv(Readout(r.required, d))
  {
    forall m, q | m in r.required ensures q in r.required[m] <==> Listed(d, q, m) {
      if !(m == mode && q == port) {
        assert Listed(r.peers, q, m) ==> Listed(d, q, m);
      }
    }
  }

  /** The same, where nobody lists `port` under `mode` any more and it stops being required. */
  lemma ReleasedKeepsInv(r: Readout, port: int, mode: int, d: map<PeerId, PortLists>)
    requires Inv(r) && IsMode(mode) && !Listed(d, port, mode)
    requires (forall p :: p in d ==> HasModes(d[p]))
    requires forall m, q :: Listed(d, q, m) ==> Listed(r.peers, q, m)
    requires forall m, q :: Listed(r.peers, q, m) && !(m == mode && q == port) ==> Listed(d, q, m)
    ensures Inv(Readout(r.required[mode := RemoveFirst(r.required[mode], port)], d))
  {
    RemoveFirstNoDup(r.required[mode], port);
    var req := r.required[mode := RemoveFirst(r.required[mode], port)];
    forall m, q | m in req ensures q in req[m] <==> Listed(d, q, m) {
      if m != mode {
        assert req[m] == r.required[m];
      }
    }
  }

  lemma UnsubscribedFrame(r: Readout, port: int, mode: int, peer: PeerId)
    requires Inv(r) && IsMode(mode)
    requires Unsubscribed(r, port, mode, peer).Some?
    ensures var s := Unsubscribed(r, port, mode, peer).value;
      && s.peers.Keys == r.peers.Keys
      && (peer in r.peers ==>
            multiset(s.peers[peer][mode]) == multiset(r.peers[peer][mode]) - multiset{port}
            && forall m :: m in r.required && m != mode ==> s.peers[peer][m] == r.peers[peer][m])
      && (forall p :: p in r.peers && p != peer ==> s.peers[p] == r.peers[p])
      && (port in s.required[mode] <==> Listed(s.peers, port, mode))
      && (forall q :: q != port ==> (q in s.required[mode] <==> q in r.required[mode]))
      && (forall m :: m in r.required && m != mode ==> s.required[m] == r.required[m])
  {
    var s := Unsubscribed(r, port, mode, peer).value;
    DroppedPeers(r, port, mode, peer);
    UnsubscribedRequired(r, port, mode, peer);
    assert s.peers == Dropped(r, port, mode, peer);
  }

  lemma DroppedPeers(r: Readout, port: int, mode: int, peer: PeerId)
    requires Inv(r) && IsMode(mode)
    ensures var d := Dropped(r, port, mode, peer);
      && d.Keys == r.peers.Keys
      && (peer in r.peers ==>
            multiset(d[peer][mode]) == multiset(r.peers[peer][mode]) - multiset{port}
            && forall m :: m in r.required && m != mode ==> d[peer][m] == r.peers[peer][m])
      && (forall p :: p in r.peers && p != peer ==> d[p] == r.peers[p])
  {
    if peer in r.peers && port !in r.peers[peer][mode] {
      assert multiset(r.peers[peer][mode])[port] == 0;
      assert multiset(r.peers[peer][mode]) - multiset{port} == multiset(r.peers[peer][mode]);
    }
  }

  lemma UnsubscribedRequired(r: Readout, port: int, mode: int, peer: PeerId)
    requires Inv(r) && IsMode(mode)
    requires Unsubscribed(r, port, mode, peer).Some?
    ensures var s := Unsubscribed(r, port, mode, peer).value;
      && (port in s.required[mode] <==> Listed(s.peers, port, mode))
      && (forall q :: q != port ==> (q in s.required[mode] <==> q in r.required[mode]))
      && (forall m :: m in r.required && m != mode ==> s.required[m] == r.required[m])
  {
    var d := Dropped(r, port, mode, peer);
    if !Listed(d, port, mode) {
      RemoveFirstNoDup(r.required[mode], port);
    }
  }

  /** The case the code as written gets wrong: the only connection listing a port
      unsubscribes from it. As written that raises and leaves port 3 read for nobody; as
      intended the port stops being read. */
  lemma LastUnsubscribeRaises(r: Readout, peer: PeerId)
    requires r == Readout(map[ANALOG := [3], DIGITAL := []], map[peer := map[ANALOG := [3], DIGITAL := []]])
    ensures Inv(r)
    ensures UnsubscribedAsWritten(r, 3, ANALOG, peer).raised
    ensures !Inv(UnsubscribedAsWritten(r, 3, ANALOG, peer).state)
    ensures Unsubscribed(r, 3, ANALOG, peer) ==
      Some(Readout(map[ANALOG := [], DIGITAL := []], map[peer := map[ANALOG := [], DIGITAL := []]]))
  {
    assert r.required.Keys == {ANALOG, DIGITAL};
    forall m, q | m in r.required ensures q in r.required[m] <==> Listed(r.peers, q, m) {
      if q in r.required[m] {
        assert q in r.peers[peer][m];
      }
    }
    assert RemoveFirst([3], 3) == [];
    var peers := Dropped(r, 3, ANALOG, peer);
    assert r.peers[peer][ANALOG := []] == map[ANALOG := [], DIGITAL := []];
    assert peers == map[peer := map[ANALOG := [], DIGITAL := []]];
    assert !Listed(peers, 3, ANALOG);
    UnsubscribedAsWrittenEffect(r, 3, ANALOG, peer);
  }

  // ---------------------------------------------------------------------------------------
  // The fetcher round
  // ---------------------------------------------------------------------------------------

  /** A reading of `port` is plausible: in range for random readings, or what the controller
      library reports for real ones. */
  predicate Plausible(random: bool, hardware: (int, int) -> int, port: int, mode: int, v: int) {
    if random then (if mode == ANALOG then 0 <= v <= 4095 else 0 <= v <= 1)
    else v == hardware(port, mode)
  }

  /** The readings of the listed ports of one mode. */
  function Readings(ports: seq<int>, values: map<int, int>): map<int, int> {
    map q | q in ports && q in values :: values[q]
  }

  /** This round's readings cover every port a connection lists: no lookup of the fetcher
      can fail. */
  ghost predicate Covers(lists: PortLists, current: map<int, map<int, int>>) {
    HasModes(lists) && current.Keys == {ANALOG, DIGITAL}
    && forall m, q :: m in lists && q in lists[m] ==> q in current[m]
  }

  function ModeOf<V>(m: map<int, V>, mode: int, default: V): V {
    if mode in m then m[mode] else default
  }

  /** The `sensor` message one connection receives: under each mode's name, the readings of
      the ports it listed. */
  function Response(lists: PortLists, current: map<int, map<int, int>>): map<string, map<int, int>> {
    map[NAMED_MODES[ANALOG] := Readings(ModeOf(lists, ANALOG, []), ModeOf(current, ANALOG, map[])),
        NAMED_MODES[DIGITAL] := Readings(ModeOf(lists, DIGITAL, []), ModeOf(current, DIGITAL, map[]))]
  }

  /** A connection's message holds exactly the ports it listed, with this round's readings. */
  lemma ResponseContents(lists: PortLists, current: map<int, map<int, int>>, m: int, q: int)
    requires Covers(lists, current) && IsMode(m)
    ensures Response(lists, current).Keys == {"analog", "digital"}
    ensures q in Response(lists, current)[NAMED_MODES[m]] <==> q in lists[m]
    ensures q in lists[m] ==> Response(lists, current)[NAMED_MODES[m]][q] == current[m][q]
  {
  }

  /** One `sensor` message piped to connection `to`. */
  datatype SensorMsg = SensorMsg(to: PeerId, body: map<string, map<int, int>>)

  /** What one fetcher round pipes: to every registered connection exactly once, its own
      message, and to nobody else. */
  ghost predicate Delivered(pipes: seq<SensorMsg>, peers: map<PeerId, PortLists>,
                            current: map<int, map<int, int>>) {
    && (forall i :: 0 <= i < |pipes| ==> pipes[i].to in peers && pipes[i].body == Response(peers[pipes[i].to], current))
    && (forall p :: p in peers ==> exists i :: 0 <= i < |pipes| && pipes[i].to == p)
    && (forall i, j :: 0 <= i < j < |pipes| ==> pipes[i].to != pipes[j].to)
  }

  /** The `sensor_readout` object. */
  class SensorReadout {
    var required: PortLists
    var peers: map<PeerId, PortLists>
    /** `generate_random_values`: set off the hardware, or when the library is missing. */
    const generateRandom: bool

    function State(): Readout
      reads this
    {
      Readout(required, peers)
    }

    ghost predicate Valid()
      reads this
    {
      Inv(State())
    }

    /** The fetcher thread is not started here; `Tick` is one round of it. With real readings
        the code as written calls `cdll.LoadLibrary` (Wallaby/Wallaby.py:55) without importing
        ctypes, which raises NameError; the model loads the library as evidently intended. */
    constructor (onController: bool, libraryPresent: bool)
      ensures Valid() && State() == Empty()
      ensures generateRandom == !(onController && libraryPresent)
    {
      required := map[ANALOG := [], DIGITAL := []];
      peers := map[];
      generateRandom := !(onController && libraryPresent);
    }

    method Subscribe(port: int, mode: int, peer: PeerId)
      requires Valid() && IsMode(mode)
      modifies this
      ensures Valid()
      ensures State() == Subscribed(old(State()), port, mode, peer)
    {
      ghost var s := Subscribed(State(), port, mode, peer);
      SubscribeKeepsInv(State(), port, mode, peer);
      var req := required[mode];
      if port !in req {
        req := req + [port];
      }
      var lists := if peer in peers then peers[peer] else map[ANALOG := [], DIGITAL := []];
      assert req == AppendIfAbsent(required[mode], port);
      required := required[mode := req];
      peers := peers[peer := lists[mode := lists[mode] + [port]]];
      assert State() == s;
    }

    /** `ok` is false when the call raises; the registry is then unchanged. */
    method Unsubscribe(port: int, mode: int, peer: PeerId) returns (ok: bool)
      requires Valid() && IsMode(mode)
      modifies this
      ensures Valid()
      ensures ok == Unsubscribed(old(State()), port, mode, peer).Some?
      ensures ok ==> State() == Unsubscribed(old(State()), port, mode, peer).value
      ensures !ok ==> State() == old(State())
    {
      UnsubscribeEffect(State(), port, mode, peer);
      var res := Unsubscribed(State(), port, mode, peer);
      ok := res.Some?;
      if ok {
        required := res.value.required;
        peers := res.value.peers;
      }
    }

    /** `get_sensor_value`: the library's reading, or a random one in range. */
    method ReadSensor(port: int, mode: int, hardware: (int, int) -> int) returns (v: int)
      requires IsMode(mode)
      ensures Plausible(generateRandom, hardware, port, mode, v)
    {
      if generateRandom {
        if mode == ANALOG {
          v :| 0 <= v <= 4095;
        } else {
          v :| 0 <= v <= 1;
        }
      } else {
        v := hardware(port, mode);
      }
    }

    /** Read every required port of one mode. */
    method ReadMode(mode: int, hardware: (int, int) -> int) returns (values: map<int, int>)
      requires Valid() && IsMode(mode)
      ensures forall q :: q in values <==> q in required[mode]
      ensures forall q :: q in values ==> Plausible(generateRandom, hardware, q, mode, values[q])
    {
      var ports := required[mode];
      values := map[];
      var i := 0;
      while i < |ports|
        invariant 0 <= i <= |ports|
        invariant forall q :: q in values <==> q in ports[..i]
        invariant forall q :: q in values ==> Plausible(generateRandom, hardware, q, mode, values[q])
      {
        var v := ReadSensor(ports[i], mode, hardware);
        values := values[ports[i] := v];
        assert ports[..i + 1] == ports[..i] + [ports[i]];
        i := i + 1;
      }
      assert ports[..i] == ports;
    }

    /** Collect the readings of one mode's listed ports, as the fetcher's inner loop does.
        A port without a reading would raise KeyError in the fetcher; `Tick` shows that under
        the registry's invariant there is none, so skipping it here changes nothing. */
    static method CollectReadings(ports: seq<int>, values: map<int, int>) returns (resp: map<int, int>)
      ensures resp == Readings(ports, values)
    {
      resp := map[];
      var i := 0;
      while i < |ports|
        invariant 0 <= i <= |ports|
        invariant resp == Readings(ports[..i], values)
      {
        assert ports[..i + 1] == ports[..i] + [ports[i]];
        if ports[i] in values {
          resp := resp[ports[i] := values[ports[i]]];
        }
        i := i + 1;
      }
      assert ports[..i] == ports;
    }

    /** The message for one connection, built mode by mode. */
    static method BuildResponse(lists: PortLists, current: map<int, map<int, int>>) returns (resp: map<string, map<int, int>>)
      ensures resp == Response(lists, current)
    {
      var analogOut := CollectReadings(ModeOf(lists, ANALOG, []), ModeOf(current, ANALOG, map[]));
      var digitalOut := CollectReadings(ModeOf(lists, DIGITAL, []), ModeOf(current, DIGITAL, map[]));
      resp := map[NAMED_MODES[ANALOG] := analogOut, NAMED_MODES[DIGITAL] := digitalOut];
    }

    /** The fetcher's loop over `self.peers`: one message per registered connection. */
    static method PipeAll(table: map<PeerId, PortLists>, current: map<int, map<int, int>>)
      returns (pipes: seq<SensorMsg>)
      ensures Delivered(pipes, table, current)
    {
      pipes := [];
      var pending := table.Keys;
      while pending != {}
        invariant pending <= table.Keys
        invariant forall i :: 0 <= i < |pipes| ==>
          pipes[i].to in table && pipes[i].to !in pending && pipes[i].body == Response(table[pipes[i].to], current)
        invariant forall p :: p in table && p !in pending ==> exists i :: 0 <= i < |pipes| && pipes[i].to == p
        invariant forall i, j :: 0 <= i < j < |pipes| ==> pipes[i].to != pipes[j].to
        decreases pending
      {
        NonEmptyHasMember(pending);
        var p :| p in pending;
        var resp := BuildResponse(table[p], current);
        var before := pipes;
        pipes := pipes + [SensorMsg(p, resp)];
        forall o | o in table && o !in pending - {p} ensures exists i :: 0 <= i < |pipes| && pipes[i].to == o {
          if o == p {
            assert pipes[|pipes| - 1].to == o;
          } else {
            var i :| 0 <= i < |before| && before[i].to == o;
            assert pipes[i].to == o;
          }
        }
        pending := pending - {p};
      }
    }

    /** One round of `_sensor_fetcher` (Wallaby/Wallaby.py:99-111), without the sleep: read
        every required port once, then pipe every registered connection -- also one with
        empty lists -- exactly the readings of the ports it listed. */
    method Tick(hardware: (int, int) -> int) returns (current: map<int, map<int, int>>, pipes: seq<SensorMsg>)
      requires Valid()
      ensures current.Keys == {ANALOG, DIGITAL}
      ensures forall m, q :: m in current ==> (q in current[m] <==> q in required[m])
      ensures forall m, q :: m in current && q in current[m] ==> Plausible(generateRandom, hardware, q, m, current[m][q])
      ensures forall p :: p in peers ==> Covers(peers[p], current)
      ensures Delivered(pipes, peers, current)
    {
      var analog := ReadMode(ANALOG, hardware);
      var digital := ReadMode(DIGITAL, hardware);
      current := map[ANALOG := analog, DIGITAL := digital];
      ListingsAreRead(State(), current);
      pipes := PipeAll(peers, current);
    }
  }

  /** Under the invariant every listed port is among this round's readings. */
  lemma ListingsAreRead(r: Readout, current: map<int, map<int, int>>)
    requires Inv(r) && current.Keys == {ANALOG, DIGITAL}
    requires forall m, q :: m in current ==> (q in current[m] <==> q in r.required[m])
    ensures forall p :: p in r.peers ==> Covers(r.peers[p], current)
  {
    forall p, m, q | p in r.peers && m in r.peers[p] && q in r.peers[p][m] ensures q in current[m] {
      assert Listed(r.peers, q, m);
    }
  }

  // ---------------------------------------------------------------------------------------
  // The sensor pipe
  // ---------------------------------------------------------------------------------------

  /** A list element of a request: `type(port) is int`, or anything else (a bool, a string). */
  datatype Value = Int(n: int) | NotInt

  /** The optional "analog" and "digital" lists of one event. */
  datatype ModeLists = ModeLists(analog: Option<seq<Value>>, digital: Option<seq<Value>>)

  /** The `sensor` message: a mapping with optional "subscribe" and "unsubscribe", or anything else. */
  datatype SensorData = NotDict | Dict(subscribe: Option<ModeLists>, unsubscribe: Option<ModeLists>)

  /** One registry update the pipe makes. */
  datatype Request = Request(subscribe: bool, mode: int, port: int)

  /** The integer elements of `vs` that are valid ports for `mode`, in order. */
  function Ports(vs: seq<Value>, mode: int): (ports: seq<int>)
    ensures forall q :: q in ports <==> Int(q) in vs && ValidPort(q, mode)
  {
    if vs == [] then []
    else
      var init := Ports(vs[..|vs| - 1], mode);
      assert vs == vs[..|vs| - 1] + [vs[|vs| - 1]];
      match vs[|vs| - 1]
      case Int(q) => if ValidPort(q, mode) then init + [q] else init
      case NotInt => init
  }

  function Tagged(subscribe: bool, mode: int, ports: seq<int>): (reqs: seq<Request>)
    ensures |reqs| == |ports|
    ensures forall i :: 0 <= i < |reqs| ==> reqs[i] == Request(subscribe, mode, ports[i])
    ensures (forall i :: 0 <= i < |ports| ==> ValidPort(ports[i], mode)) ==> AllValid(reqs)
  {
    seq(|ports|, i requires 0 <= i < |ports| => Request(subscribe, mode, ports[i]))
  }

  function EventRequests(subscribe: bool, lists: Option<ModeLists>): (reqs: seq<Request>)
    ensures AllValid(reqs)
  {
    if lists.None? then []
    else
      var a := if lists.value.analog.Some? then Tagged(subscribe, ANALOG, Ports(lists.value.analog.value, ANALOG)) else [];
      var d := if lists.value.digital.Some? then Tagged(subscribe, DIGITAL, Ports(lists.value.digital.value, DIGITAL)) else [];
      AllValidConcat(a, d);
      a + d
  }

  /** The updates `Sensor.run` (Wallaby/Wallaby.py:129-145) makes, in the order it makes them. */
  function Requests(data: SensorData): (reqs: seq<Request>)
    ensures AllValid(reqs)
  {
    if data.NotDict? then []
    else
      var s := EventRequests(true, data.subscribe);
      var u := EventRequests(false, data.unsubscribe);
      AllValidConcat(s, u);
      s + u
  }

  lemma AllValidConcat(a: seq<Request>, b: seq<Request>)
    requires AllValid(a) && AllValid(b)
    ensures AllValid(a + b)
  {
    forall i | 0 <= i < |a + b| ensures ValidPort((a + b)[i].port, (a + b)[i].mode) {
      if i < |a| { assert (a + b)[i] == a[i]; } else { assert (a + b)[i] == b[i - |a|]; }
    }
  }

  /** The ports an event lists for a mode, by name. */
  predicate Names(lists: Option<ModeLists>, mode: int, port: int) {
    lists.Some? &&
    if mode == ANALOG then lists.value.analog.Some? && Int(port) in lists.value.analog.value
    else mode == DIGITAL && lists.value.digital.Some? && Int(port) in lists.value.digital.value
  }

  /** A request becomes an update exactly when its port is an integer valid for its mode, and
      every subscription of a message is made before any of its unsubscriptions. */
  lemma RequestsExactly(data: SensorData, q: Request)
    ensures q in Requests(data) <==>
      data.Dict? && ValidPort(q.port, q.mode)
      && Names(if q.subscribe then data.subscribe else data.unsubscribe, q.mode, q.port)
    ensures forall i, j :: 0 <= i < j < |Requests(data)| && !Requests(data)[i].subscribe ==> !Requests(data)[j].subscribe
  {
    if data.Dict? {
      EventRequestsExactly(true, data.subscribe, q);
      EventRequestsExactly(false, data.unsubscribe, q);
      RequestsOrdered(data);
    }
  }

  /** One event's updates: its valid integer ports, tagged with the event. */
  lemma EventRequestsExactly(e: bool, lists: Option<ModeLists>, q: Request)
    ensures q in EventRequests(e, lists) <==> q.subscribe == e && ValidPort(q.port, q.mode) && Names(lists, q.mode, q.port)
  {
    if lists.Some? {
      var a := if lists.value.analog.Some? then Tagged(e, ANALOG, Ports(lists.value.analog.value, ANALOG)) else [];
      var d := if lists.value.digital.Some? then Tagged(e, DIGITAL, Ports(lists.value.digital.value, DIGITAL)) else [];
      assert EventRequests(e, lists) == a + d;
      assert q in a <==> q.subscribe == e && q.mode == ANALOG && lists.value.analog.Some? && q.port in Ports(lists.value.analog.value, ANALOG);
      assert q in d <==> q.subscribe == e && q.mode == DIGITAL && lists.value.digital.Some? && q.port in Ports(lists.value.digital.value, DIGITAL);
    }
  }

  lemma EventRequestsTagged(e: bool, lists: Option<ModeLists>)
    ensures forall i :: 0 <= i < |EventRequests(e, lists)| ==> EventRequests(e, lists)[i].subscribe == e
  {
    var r := EventRequests(e, lists);
    forall i | 0 <= i < |r| ensures r[i].subscribe == e {
      EventRequestsExactly(e, lists, r[i]);
    }
  }

  lemma RequestsOrdered(data: SensorData)
    requires data.Dict?
    ensures forall i, j :: 0 <= i < j < |Requests(data)| && !Requests(data)[i].subscribe ==> !Requests(data)[j].subscribe
  {
    var subs := EventRequests(true, data.subscribe);
    var unsubs := EventRequests(false, data.unsubscribe);
    EventRequestsTagged(true, data.subscribe);
    EventRequestsTagged(false, data.unsubscribe);
    var r := Requests(data);
    assert r == subs + unsubs;
    forall k | 0 <= k < |r| ensures r[k].subscribe <==> k < |subs| {
      if k < |subs| {
        assert r[k] == subs[k];
      } else {
        assert r[k] == unsubs[k - |subs|];
      }
    }
  }

  /** Every update carries a valid port. */
  ghost predicate AllValid(reqs: seq<Request>) {
    forall i :: 0 <= i < |reqs| ==> ValidPort(reqs[i].port, reqs[i].mode)
  }

  /** The registry after some updates, and whether one of them raised (the rest are skipped). */
  datatype Applied = Applied(state: Readout, raised: bool)

  /** One update for connection `peer`. */
  function Step(r: Readout, q: Request, peer: PeerId): (a: Applied)
    requires Inv(r) && ValidPort(q.port, q.mode)
    ensures Inv(a.state)
    ensures a.raised ==> a.state == r
  {
    if q.subscribe then
      SubscribeKeepsInv(r, q.port, q.mode, peer);
      Applied(Subscribed(r, q.port, q.mode, peer), false)
    else
      var res := Unsubscribed(r, q.port, q.mode, peer);
      if res.Some? then
        UnsubscribedKeepsInv(r, q.port, q.mode, peer);
        Applied(res.value, false)
      else Applied(r, true)
  }

  /** The updates applied in order, stopping at the first that raises. */
  function ApplyAll(r: Readout, reqs: seq<Request>, peer: PeerId): (a: Applied)
    requires Inv(r) && AllValid(reqs)
    ensures Inv(a.state)
  {
    if reqs == [] then Applied(r, false)
    else
      var a := ApplyAll(r, reqs[..|reqs| - 1], peer);
      if a.raised then a else Step(a.state, reqs[|reqs| - 1], peer)
  }

  /** Without unsubscriptions nothing can raise. */
  lemma {:induction false} SubscriptionsNeverRaise(r: Readout, reqs: seq<Request>, peer: PeerId)
    requires Inv(r) && AllValid(reqs)
    requires forall i :: 0 <= i < |reqs| ==> reqs[i].subscribe
    ensures !ApplyAll(r, reqs, peer).raised
  {
    if reqs != [] {
      SubscriptionsNeverRaise(r, reqs[..|reqs| - 1], peer);
    }
  }

  /** The `sensor` pipe: holds the registry it feeds. */
  class Sensor {
    const readout: SensorReadout

    constructor (onController: bool, libraryPresent: bool)
      ensures fresh(readout) && readout.Valid() && readout.State() == Empty()
    {
      readout := new SensorReadout(onController, libraryPresent);
    }

    /** `Sensor.run`: apply the message's updates for `peer`; `raised` reports an exception
        that ended the call early. */
    method Run(data: SensorData, peer: PeerId) returns (raised: bool)
      requires readout.Valid()
      modifies readout
      ensures readout.Valid()
      ensures raised == ApplyAll(old(readout.State()), Requests(data), peer).raised
      ensures readout.State() == ApplyAll(old(readout.State()), Requests(data), peer).state
    {
      var reqs := Requests(data);
      ghost var r0 := readout.State();
      var i := 0;
      raised := false;
      AllValidPrefix(reqs, 0);
      while i < |reqs| && !raised
        invariant 0 <= i <= |reqs|
        invariant readout.Valid()
        invariant AllValid(reqs[..i])
        invariant ApplyAll(r0, reqs[..i], peer) == Applied(readout.State(), raised)
      {
        var q := reqs[i];
        ghost var s := readout.State();
        AllValidPrefix(reqs, i + 1);
        ApplyAllStep(r0, reqs, peer, i, s);
        if q.subscribe {
          readout.Subscribe(q.port, q.mode, peer);
          assert Applied(readout.State(), raised) == Step(s, q, peer);
        } else {
          var ok := readout.Unsubscribe(q.port, q.mode, peer);
          raised := !ok;
          assert Applied(readout.State(), raised) == Step(s, q, peer);
        }
        i := i + 1;
      }
      if raised {
        RaisedStays(r0, reqs, peer, i);
      } else {
        assert reqs[..i] == reqs;
      }
    }
  }

  lemma AllValidPrefix(reqs: seq<Request>, k: nat)
    requires AllValid(reqs) && k <= |reqs|
    ensures AllValid(reqs[..k])
  {
    forall i | 0 <= i < k ensures ValidPort(reqs[..k][i].port, reqs[..k][i].mode) {
      assert reqs[..k][i] == reqs[i];
    }
  }

  /** One more update extends `ApplyAll` by one `Step`. */
  lemma ApplyAllStep(r: Readout, reqs: seq<Request>, peer: PeerId, k: nat, s: Readout)
    requires Inv(r) && AllValid(reqs) && k < |reqs|
    requires AllValid(reqs[..k]) && ApplyAll(r, reqs[..k], peer) == Applied(s, false)
    ensures AllValid(reqs[..k + 1]) && Inv(s) && ValidPort(reqs[k].port, reqs[k].mode)
    ensures ApplyAll(r, reqs[..k + 1], peer) == Step(s, reqs[k], peer)
  {
    AllValidPrefix(reqs, k + 1);
    assert reqs[..k + 1][..k] == reqs[..k];
    assert reqs[..k + 1][k] == reqs[k];
  }

  /** Once an update raised, the later ones change nothing. */
  lemma {:induction false} RaisedStays(r: Readout, reqs: seq<Request>, peer: PeerId, k: nat)
    requires Inv(r) && AllValid(reqs) && k <= |reqs|
    requires ApplyAll(r, reqs[..k], peer).raised
    ensures ApplyAll(r, reqs, peer) == ApplyAll(r, reqs[..k], peer)
    decreases |reqs| - k
  {
    if k < |reqs| {
      var longer := reqs[..k + 1];
      assert longer[..k] == reqs[..k];
      assert ApplyAll(r, longer, peer) == ApplyAll(r, reqs[..k], peer);
      RaisedStays(r, reqs, peer, k + 1);
    } else {
      assert reqs[..k] == reqs;
    }
  }
}
