// src/node.rs, `State`: registry, connection map and in-flight dials behind one
// mutex. Each critical section is a method here, and computes the function of
// the locked values that the interleavings in NodeMachine are built from.
module NodeState {
  import opened Keys
  import opened Peers

  // A channel is named by the connection task that created it.
  type Chan = nat

  const MAX_GOSSIP_PEERS: nat := 64

  // What the lock protects.
  datatype Core = Core(
    me: Key, registry: map<Key, Peer>, connections: map<Key, Chan>, dialing: set<Key>)

  // ------------------------------------------------------------- The critical sections

  function AdmitConnection(core: Core, peer: Peer, inbound: bool, chan: Chan): Core {
    if Decide(core.me, core.registry.Keys, peer.publicKey, inbound).Refuse? then core
    else core.(registry := AfterAdmit(core.me, core.registry, peer, inbound),
               connections := core.connections[peer.publicKey := chan])
  }

  predicate StillOurs(core: Core, key: Key, chan: Chan) {
    key in core.connections && core.connections[key] == chan
  }

  function Retire(core: Core, key: Key, chan: Chan): Core {
    if StillOurs(core, key, chan) then
      core.(registry := core.registry - {key}, connections := core.connections - {key})
    else core
  }

  predicate WellFormed(rules: TextRules, info: Peer) {
    |info.publicKey| == KEY_LEN && !rules.blank(info.name) && rules.isAddress(info.listenAddr)
  }

  function Retained(rules: TextRules, infos: seq<Peer>): seq<Peer> {
    if infos == [] then []
    else
      var n := |infos| - 1;
      var front := Retained(rules, infos[..n]);
      if WellFormed(rules, infos[n]) then front + [infos[n]] else front
  }

  function Truncated(infos: seq<Peer>): seq<Peer> {
    if |infos| > MAX_GOSSIP_PEERS then infos[..MAX_GOSSIP_PEERS] else infos
  }

  // The stateful `dialing.insert` filter over the candidates.
  function Inserted(dialing: set<Key>, candidates: seq<Peer>): seq<Peer> {
    if candidates == [] then []
    else
      var n := |candidates| - 1;
      var front := Inserted(dialing, candidates[..n]);
      if candidates[n].publicKey in dialing + KeysOf(front) then front
      else front + [candidates[n]]
  }

  function Selected(rules: TextRules, core: Core, infos: seq<Peer>): seq<Peer> {
    Inserted(core.dialing,
             Undialed(core.me, core.registry.Keys, Retained(rules, Truncated(infos))))
  }

  function Dialing(core: Core, chosen: seq<Peer>): Core {
    core.(dialing := core.dialing + KeysOf(chosen))
  }

  function DialFinished(core: Core, key: Key): Core {
    core.(dialing := core.dialing - {key})
  }

  // A snapshot taken under the lock, in whatever order the map iterates.
  datatype Target = Target(key: Key, chan: Chan)

  predicate IsSnapshot(connections: map<Key, Chan>, keys: set<Key>, targets: seq<Target>) {
    && (forall i, j :: 0 <= i < j < |targets| ==> targets[i].key != targets[j].key)
    && (forall i :: 0 <= i < |targets| ==>
          targets[i].key in keys && targets[i].key in connections
          && connections[targets[i].key] == targets[i].chan)
    && (forall k :: k in keys && k in connections ==>
          exists i :: 0 <= i < |targets| && targets[i].key == k)
  }

  // The registry's values, in whatever order, each once.
  predicate IsPeerList(registry: map<Key, Peer>, infos: seq<Peer>) {
    && DistinctKeys(infos)
    && (forall i :: 0 <= i < |infos| ==>
          infos[i].publicKey in registry && registry[infos[i].publicKey] == infos[i])
    && (forall k :: k in registry ==> k in KeysOf(infos))
  }

  predicate DistinctKeys(infos: seq<Peer>) {
    forall i, j :: 0 <= i < j < |infos| ==> infos[i].publicKey != infos[j].publicKey
  }

  class State {
    const registry: PeerRegistry
    var connections: map<Key, Chan>
    var dialing: set<Key>

    constructor (registry: PeerRegistry)
      ensures this.registry == registry && connections == map[] && dialing == {}
    {
      this.registry, connections, dialing := registry, map[], {};
    }

    function View(): Core
      reads this, registry
    {
      Core(registry.me, registry.peers, connections, dialing)
    }

    // run_connection's admission.
    method Admit(peer: Peer, inbound: bool, chan: Chan) returns (admission: Admission)
      modifies this, registry
      ensures View() == AdmitConnection(old(View()), peer, inbound, chan)
      ensures Reports(admission,
                Decide(registry.me, old(registry.peers).Keys, peer.publicKey, inbound))
    {
      admission := registry.Admit(peer, inbound);
      if !admission.Rejected? {
        connections := connections[peer.publicKey := chan];
      }
    }

    // disconnect's lookup and removal.
    method Disconnect(key: Key, mine: Chan) returns (stillOurs: bool)
      modifies this, registry
      ensures stillOurs == StillOurs(old(View()), key, mine)
      ensures View() == Retire(old(View()), key, mine)
    {
      stillOurs := key in connections && connections[key] == mine;
      if stillOurs {
        connections := connections - {key};
        registry.Remove(key);
      }
    }

    // handle_gossip, up to the dials it starts. The address of every chosen
    // entry has been checked, so reading it again below cannot fail.
    method HandleGossip(infos: seq<Peer>) returns (toDial: seq<Peer>)
      modifies this
      ensures toDial == Selected(registry.rules, old(View()), infos)
      ensures View() == Dialing(old(View()), toDial)
      ensures forall i :: 0 <= i < |toDial| ==> registry.rules.isAddress(toDial[i].listenAddr)
    {
      var peers := infos;
      if |peers| > MAX_GOSSIP_PEERS {
        peers := peers[..MAX_GOSSIP_PEERS];
      }
      peers := Retain(registry.rules, peers);
      var candidates := registry.SelectUndialed(peers);
      toDial := [];
      assert candidates[..0] == [];
      for i := 0 to |candidates|
        invariant toDial == Inserted(old(dialing), candidates[..i])
        invariant dialing == old(dialing) + KeysOf(toDial)
        invariant registry.peers == old(registry.peers) && connections == old(connections)
      {
        var info := candidates[i];
        assert candidates[..i + 1][..i] == candidates[..i];
        if info.publicKey !in dialing {
          dialing := dialing + {info.publicKey};
          KeysOfAppend(toDial, info);
          toDial := toDial + [info];
        }
      }
      assert candidates[..|candidates|] == candidates;
      SelectedAreAddresses(registry.rules, old(View()), infos);
    }

    // finished_dialing.
    method FinishedDialing(key: Key)
      modifies this
      ensures View() == DialFinished(old(View()), key)
    {
      dialing := dialing - {key};
    }

    // The frame of `announce_peers`.
    method ListPeers() returns (infos: seq<Peer>)
      requires Keyed(registry.peers)
      ensures IsPeerList(registry.peers, infos)
    {
      infos := [];
      var left := registry.peers.Keys;
      while left != {}
        invariant left <= registry.peers.Keys
        invariant Lists(registry.peers, registry.peers.Keys - left, infos)
        decreases |left|
      {
        var key :| key in left;
        ListGrows(registry.peers, registry.peers.Keys - left, infos, key);
        infos := infos + [registry.peers[key]];
        left := left - {key};
        assert registry.peers.Keys - left == registry.peers.Keys - (left + {key}) + {key};
      }
    }

    // The snapshot of `say`; with every key, that of `announce_peers`.
    method Snapshot() returns (targets: seq<Target>)
      ensures IsSnapshot(connections, registry.peers.Keys, targets)
    {
      targets := [];
      var left := registry.peers.Keys;
      while left != {}
        invariant left <= registry.peers.Keys
        invariant IsSnapshot(connections, registry.peers.Keys - left, targets)
        decreases |left|
      {
        var key :| key in left;
        ghost var before := targets;
        if key in connections {
          targets := targets + [Target(key, connections[key])];
        }
        SnapshotGrows(connections, registry.peers.Keys - left, before, key, targets);
        left := left - {key};
        assert registry.peers.Keys - left == registry.peers.Keys - (left + {key}) + {key};
      }
      assert registry.peers.Keys - left == registry.peers.Keys;
    }
  }

  // The registry indexes every entry under its own key.
  predicate Keyed(registry: map<Key, Peer>) {
    forall k :: k in registry ==> registry[k].publicKey == k
  }

  lemma AdmitKeeps(core: Core, peer: Peer, inbound: bool, chan: Chan)
    requires Keyed(core.registry)
    ensures Keyed(AdmitConnection(core, peer, inbound, chan).registry)
  {
  }

  // Some of the registry's values, each once.
  ghost predicate Lists(registry: map<Key, Peer>, keys: set<Key>, infos: seq<Peer>) {
    && DistinctKeys(infos) && KeysOf(infos) == keys
    && forall i :: 0 <= i < |infos| ==>
         infos[i].publicKey in registry && registry[infos[i].publicKey] == infos[i]
  }

  lemma ListGrows(registry: map<Key, Peer>, keys: set<Key>, infos: seq<Peer>, key: Key)
    requires Keyed(registry) && Lists(registry, keys, infos) && key in registry && key !in keys
    ensures Lists(registry, keys + {key}, infos + [registry[key]])
  {
    KeysOfAppend(infos, registry[key]);
    forall i | 0 <= i < |infos| ensures infos[i].publicKey != key {
      assert infos[i].publicKey in KeysOf(infos);
    }
  }

  lemma SnapshotGrows(connections: map<Key, Chan>, keys: set<Key>, targets: seq<Target>,
                      key: Key, longer: seq<Target>)
    requires IsSnapshot(connections, keys, targets) && key !in keys
    requires longer == if key in connections then targets + [Target(key, connections[key])] else targets
    ensures IsSnapshot(connections, keys + {key}, longer)
  {
    forall k | k in keys + {key} && k in connections
      ensures exists i :: 0 <= i < |longer| && longer[i].key == k
    {
      if k == key {
        assert longer[|targets|].key == k;
      } else {
        var i :| 0 <= i < |targets| && targets[i].key == k;
        assert longer[i].key == k;
      }
    }
  }

  method Retain(rules: TextRules, infos: seq<Peer>) returns (kept: seq<Peer>)
    ensures kept == Retained(rules, infos)
  {
    kept := [];
    assert infos[..0] == [];
    for i := 0 to |infos|
      invariant kept == Retained(rules, infos[..i])
    {
      assert infos[..i + 1][..i] == infos[..i];
      if WellFormed(rules, infos[i]) {
        kept := kept + [infos[i]];
      }
    }
    assert infos[..|infos|] == infos;
  }

  // ------------------------------------------------- Gossip selection, declaratively

  // Entry i is dialled: within the cap, usable, the first usable one with its
  // key, not us, not connected, and not being dialled already.
  predicate Dialled(rules: TextRules, core: Core, infos: seq<Peer>, i: nat) {
    && i < |infos| && i < 64 && WellFormed(rules, infos[i])
    && (forall j :: 0 <= j < i && WellFormed(rules, infos[j]) ==>
          infos[j].publicKey != infos[i].publicKey)
    && infos[i].publicKey != core.me && infos[i].publicKey !in core.registry
    && infos[i].publicKey !in core.dialing
  }

  function DialledBefore(rules: TextRules, core: Core, infos: seq<Peer>, n: nat): seq<Peer>
    requires n <= |infos|
  {
    if n == 0 then []
    else
      var front := DialledBefore(rules, core, infos, n - 1);
      if Dialled(rules, core, infos, n - 1) then front + [infos[n - 1]] else front
  }

  lemma {:induction false} InUndialed(me: Key, held: set<Key>, gossiped: seq<Peer>, k: Key)
    ensures k in KeysOf(Undialed(me, held, gossiped))
            <==> k in KeysOf(gossiped) && k != me && k !in held
  {
    if gossiped != [] {
      var n := |gossiped| - 1;
      var front, last := gossiped[..n], gossiped[n];
      InUndialed(me, held, front, k);
      KeysOfAppend(front, last);
      assert gossiped == front + [last];
      KeysOfAppend(Undialed(me, held, front), last);
    }
  }

  lemma {:induction false} InInserted(dialing: set<Key>, candidates: seq<Peer>, k: Key)
    ensures k in KeysOf(Inserted(dialing, candidates))
            <==> k in KeysOf(candidates) && k !in dialing
  {
    if candidates != [] {
      var n := |candidates| - 1;
      InInserted(dialing, candidates[..n], k);
      KeysOfAppend(candidates[..n], candidates[n]);
      assert candidates == candidates[..n] + [candidates[n]];
      KeysOfAppend(Inserted(dialing, candidates[..n]), candidates[n]);
    }
  }

  lemma {:induction false} InRetained(rules: TextRules, infos: seq<Peer>, k: Key)
    ensures k in KeysOf(Retained(rules, infos))
            <==> exists j :: 0 <= j < |infos| && WellFormed(rules, infos[j]) && infos[j].publicKey == k
  {
    if infos != [] {
      var n := |infos| - 1;
      InRetained(rules, infos[..n], k);
      KeysOfAppend(Retained(rules, infos[..n]), infos[n]);
      if j :| 0 <= j < n && WellFormed(rules, infos[j]) && infos[j].publicKey == k {
        assert infos[..n][j] == infos[j];
      }
    }
  }

  // The dialled keys are exactly the eligible ones.
  lemma SelectedKeys(rules: TextRules, core: Core, infos: seq<Peer>, k: Key)
    ensures k in KeysOf(Selected(rules, core, infos)) <==>
            k in KeysOf(Retained(rules, Truncated(infos)))
            && k != core.me && k !in core.registry && k !in core.dialing
  {
    var kept := Retained(rules, Truncated(infos));
    InInserted(core.dialing, Undialed(core.me, core.registry.Keys, kept), k);
    InUndialed(core.me, core.registry.Keys, kept, k);
  }

  // One more entry: retained, fresh among the retained, and not being dialled.
  lemma SelectionStep(rules: TextRules, core: Core, infos: seq<Peer>, i: nat)
    requires i < |infos| && i < MAX_GOSSIP_PEERS
    ensures var before := Selected(rules, core, infos[..i]);
            Selected(rules, core, infos[..i + 1])
            == if Dialled(rules, core, infos, i) then before + [infos[i]] else before
  {
    hide Retained, Inserted, Undialed, KeysOf, WellFormed;
    var front, info := infos[..i], infos[i];
    var kept := Retained(rules, front);
    RetainedStep(rules, infos, i);
    if WellFormed(rules, info) {
      InRetained(rules, front, info.publicKey);
      forall j | 0 <= j < i ensures front[j] == infos[j] {
      }
      ChosenStep(core, kept, info);
    }
  }

  lemma RetainedStep(rules: TextRules, infos: seq<Peer>, i: nat)
    requires i < |infos|
    ensures Retained(rules, infos[..i + 1])
         == if WellFormed(rules, infos[i]) then Retained(rules, infos[..i]) + [infos[i]]
            else Retained(rules, infos[..i])
  {
    assert infos[..i + 1][..i] == infos[..i];
  }

  lemma ChosenStep(core: Core, kept: seq<Peer>, info: Peer)
    ensures var k := info.publicKey;
            var before := Inserted(core.dialing, Undialed(core.me, core.registry.Keys, kept));
            Inserted(core.dialing, Undialed(core.me, core.registry.Keys, kept + [info]))
            == if k != core.me && k !in core.registry && k !in KeysOf(kept) && k !in core.dialing
               then before + [info] else before
  {
    hide KeysOf;
    var novel := Undialed(core.me, core.registry.Keys, kept);
    assert (kept + [info])[..|kept|] == kept;
    assert (novel + [info])[..|novel|] == novel;
    InInserted(core.dialing, novel, info.publicKey);
    InUndialed(core.me, core.registry.Keys, kept, info.publicKey);
  }

  // Truncating, retaining, and the two stateful filters together pick exactly
  // the entries `Dialled` describes, in order.
  lemma {:induction false} SelectionIsDeclarative(rules: TextRules, core: Core, infos: seq<Peer>, n: nat)
    requires n <= |infos|
    ensures Selected(rules, core, infos[..n]) == DialledBefore(rules, core, infos, n)
  {
    if n > 0 {
      SelectionIsDeclarative(rules, core, infos, n - 1);
      if n - 1 < MAX_GOSSIP_PEERS {
        SelectionStep(rules, core, infos, n - 1);
      } else {
        CapReached(infos, n);
      }
    }
  }

  lemma CapReached(infos: seq<Peer>, n: nat)
    requires MAX_GOSSIP_PEERS < n <= |infos|
    ensures Truncated(infos[..n]) == Truncated(infos[..n - 1])
  {
    assert infos[..n][..MAX_GOSSIP_PEERS] == infos[..MAX_GOSSIP_PEERS];
    assert infos[..n - 1][..MAX_GOSSIP_PEERS] == infos[..MAX_GOSSIP_PEERS];
  }

  lemma SelectionOfFrame(rules: TextRules, core: Core, infos: seq<Peer>)
    ensures Selected(rules, core, infos) == DialledBefore(rules, core, infos, |infos|)
  {
    assert infos[..|infos|] == infos;
    SelectionIsDeclarative(rules, core, infos, |infos|);
  }

  lemma {:induction false} DialledAreAddresses(rules: TextRules, core: Core, infos: seq<Peer>, n: nat)
    requires n <= |infos|
    ensures forall i :: 0 <= i < |DialledBefore(rules, core, infos, n)| ==>
              WellFormed(rules, DialledBefore(rules, core, infos, n)[i])
  {
    if n > 0 {
      DialledAreAddresses(rules, core, infos, n - 1);
    }
  }

  lemma SelectedAreAddresses(rules: TextRules, core: Core, infos: seq<Peer>)
    ensures forall i :: 0 <= i < |Selected(rules, core, infos)| ==>
              rules.isAddress(Selected(rules, core, infos)[i].listenAddr)
  {
    SelectionOfFrame(rules, core, infos);
    DialledAreAddresses(rules, core, infos, |infos|);
  }
}
