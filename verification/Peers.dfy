// src/peers.rs: who we are connected to, which of two connections to one peer
// survives, and whom a gossip frame makes us dial.
module Peers {
  import opened Positional
  import opened Results
  import opened Keys

  // A registry entry, and equally the gossip entry made from it. The source's
  // fingerprint field is a function of the key and is not repeated here.
  datatype Peer = Peer(name: string, publicKey: Key, listenAddr: string)

  datatype NameClash = WithPeer(publicKey: Key) | WithYou

  datatype Rejection = SelfConnection | DuplicateConnection

  datatype Admission =
    | Admitted(conflict: Option<NameClash>)
    | Superseded
    | Rejected(reason: Rejection)

  // Rules on text that belong to Rust's standard library: `trim().to_lowercase()`,
  // `trim().is_empty()` and `parse::<SocketAddr>().is_ok()`.
  datatype TextRules = TextRules(
    folded: string -> string, blank: string -> bool, isAddress: string -> bool)

  // ------------------------------------------------------------- Admission decisions

  datatype Decision = Join | Supersede | Refuse(reason: Rejection)

  // The connection dialled by the smaller key wins.
  predicate ConnectionWins(me: Key, them: Key, inbound: bool) {
    if inbound then Less(them, me) else Less(me, them)
  }

  function Decide(me: Key, held: set<Key>, them: Key, inbound: bool): Decision {
    if them == me then Refuse(SelfConnection)
    else if them !in held then Join
    else if ConnectionWins(me, them, inbound) then Supersede
    else Refuse(DuplicateConnection)
  }

  function AfterAdmit(me: Key, peers: map<Key, Peer>, peer: Peer, inbound: bool): map<Key, Peer> {
    if Decide(me, peers.Keys, peer.publicKey, inbound).Refuse? then peers
    else peers[peer.publicKey := peer]
  }

  predicate Reports(admission: Admission, decision: Decision) {
    match admission
    case Admitted(_) => decision == Join
    case Superseded => decision == Supersede
    case Rejected(reason) => decision == Refuse(reason)
  }

  predicate SameName(rules: TextRules, a: string, b: string) {
    rules.folded(a) == rules.folded(b)
  }

  // ------------------------------------------------------------------- Gossip entries

  function KeysOf(infos: seq<Peer>): set<Key> {
    set i | 0 <= i < |infos| :: infos[i].publicKey
  }

  lemma KeysOfAppend(infos: seq<Peer>, info: Peer)
    ensures KeysOf(infos + [info]) == KeysOf(infos) + {info.publicKey}
  {
    var all := infos + [info];
    forall k | k in KeysOf(infos) ensures k in KeysOf(all) {
      var i :| 0 <= i < |infos| && infos[i].publicKey == k;
      assert all[i].publicKey == k;
    }
    assert all[|infos|] == info;
    forall k | k in KeysOf(all) ensures k in KeysOf(infos) + {info.publicKey} {
      var i :| 0 <= i < |all| && all[i].publicKey == k;
      if i < |infos| {
        assert infos[i].publicKey == k;
      }
    }
  }

  // Entries we hold no connection to, once each, in the order gossiped.
  function Undialed(me: Key, held: set<Key>, gossiped: seq<Peer>): seq<Peer> {
    if gossiped == [] then []
    else
      var front, last := gossiped[..|gossiped| - 1], gossiped[|gossiped| - 1];
      var chosen := Undialed(me, held, front);
      if last.publicKey != me && last.publicKey !in held && last.publicKey !in KeysOf(front)
      then chosen + [last] else chosen
  }

  class PeerRegistry {
    const me: Key
    const myName: string
    const rules: TextRules
    var peers: map<Key, Peer>

    constructor (me: Key, myName: string, rules: TextRules)
      ensures this.me == me && this.myName == myName && this.rules == rules && peers == map[]
    {
      this.me, this.myName, this.rules := me, myName, rules;
      peers := map[];
    }

    method Admit(peer: Peer, inbound: bool) returns (admission: Admission)
      modifies this
      ensures peers == AfterAdmit(me, old(peers), peer, inbound)
      ensures Reports(admission, Decide(me, old(peers).Keys, peer.publicKey, inbound))
      ensures admission.Admitted? ==>
                (admission.conflict == Some(WithYou) <==> rules.folded(peer.name) == rules.folded(myName))
      ensures forall k :: admission == Admitted(Some(WithPeer(k))) ==>
                k in old(peers) && rules.folded(old(peers)[k].name) == rules.folded(peer.name)
      ensures admission == Admitted(None) ==>
                forall k :: k in old(peers) ==>
                  rules.folded(old(peers)[k].name) != rules.folded(peer.name)
    {
      if peer.publicKey == me {
        return Rejected(SelfConnection);
      }
      if peer.publicKey in peers {
        if ConnectionWins(me, peer.publicKey, inbound) {
          peers := peers[peer.publicKey := peer];
          return Superseded;
        }
        return Rejected(DuplicateConnection);
      }
      var conflict: Option<NameClash> := None;
      if SameName(rules, peer.name, myName) {
        conflict := Some(WithYou);
      } else if k :| k in peers && SameName(rules, peers[k].name, peer.name) {
        conflict := Some(WithPeer(k));
      }
      peers := peers[peer.publicKey := peer];
      return Admitted(conflict);
    }

    method Remove(publicKey: Key)
      modifies this
      ensures peers == old(peers) - {publicKey}
    {
      peers := peers - {publicKey};
    }

    method SelectUndialed(gossiped: seq<Peer>) returns (selected: seq<Peer>)
      ensures selected == Undialed(me, peers.Keys, gossiped)
    {
      var seen: set<Key> := {};
      selected := [];
      assert gossiped[..0] == [];
      for i := 0 to |gossiped|
        invariant selected == Undialed(me, peers.Keys, gossiped[..i])
        invariant forall k :: k in seen <==>
                    k in KeysOf(gossiped[..i]) && k != me && k !in peers
      {
        var info := gossiped[i];
        var front, longer := gossiped[..i], gossiped[..i + 1];
        assert longer[..i] == front && longer == front + [info];
        KeysOfAppend(front, info);
        if info.publicKey != me && info.publicKey !in peers && info.publicKey !in seen {
          seen := seen + {info.publicKey};
          selected := selected + [info];
        }
      }
      assert gossiped[..|gossiped|] == gossiped;
    }
  }

  // ------------------------------------------------------- Which connection survives

  // Both ends give one connection the same verdict: it is the smaller key's dial
  // or it is not.
  lemma BothEndsAgree(x: Key, y: Key, dialledByX: bool)
    requires x != y
    ensures ConnectionWins(x, y, !dialledByX) == ConnectionWins(y, x, dialledByX)
         == (dialledByX == Less(x, y))
  {
    LessTotal(x, y);
  }

  // And that verdict is: the one dialled by the key that is the smaller number.
  lemma SmallerNumberWins(me: Key, them: Key, held: set<Key>, inbound: bool)
    requires |me| == |them| == KEY_LEN && me != them && them in held
    ensures var dialer, other := if inbound then them else me, if inbound then me else them;
            Decide(me, held, them, inbound)
            == if Value(256, dialer) < Value(256, other) then Supersede else Refuse(DuplicateConnection)
  {
    LessIsNumeric(me, them);
    LessIsNumeric(them, me);
  }

  datatype Arrival = Arrival(peer: Peer, inbound: bool)

  // The registry after admitting a list of connections in order.
  function AdmitAll(me: Key, peers: map<Key, Peer>, arrivals: seq<Arrival>): map<Key, Peer> {
    if arrivals == [] then peers
    else
      var n := |arrivals| - 1;
      AfterAdmit(me, AdmitAll(me, peers, arrivals[..n]), arrivals[n].peer, arrivals[n].inbound)
  }

  predicate IsSurvivor(me: Key, them: Key, arrivals: seq<Arrival>, i: nat) {
    && i < |arrivals|
    && (forall j :: i < j < |arrivals| ==> !ConnectionWins(me, them, arrivals[j].inbound))
    && (ConnectionWins(me, them, arrivals[i].inbound) || i == 0)
  }

  // Whatever arrives for one peer, the last of the smaller key's dials is held,
  // or the very first connection when there was none.
  lemma {:induction false} SurvivorIsHeld(me: Key, peers: map<Key, Peer>, them: Key,
                                          arrivals: seq<Arrival>, i: nat)
    requires them != me && them !in peers
    requires forall j :: 0 <= j < |arrivals| ==> arrivals[j].peer.publicKey == them
    requires IsSurvivor(me, them, arrivals, i)
    ensures AdmitAll(me, peers, arrivals) == peers[them := arrivals[i].peer]
  {
    var n := |arrivals| - 1;
    var front := arrivals[..n];
    if i < n {
      SurvivorIsHeld(me, peers, them, front, i);
    } else if n > 0 {
      var j := SurvivorExists(me, them, front);
      SurvivorIsHeld(me, peers, them, front, j);
    }
  }

  lemma {:induction false} SurvivorExists(me: Key, them: Key, arrivals: seq<Arrival>) returns (i: nat)
    requires arrivals != []
    ensures IsSurvivor(me, them, arrivals, i)
  {
    i := |arrivals| - 1;
    if i > 0 && !ConnectionWins(me, them, arrivals[i].inbound) {
      i := SurvivorExists(me, them, arrivals[..i]);
    }
  }

  // One connection, as recorded by both ends. `atX` and `atY` are what the
  // handshake at each end recorded of the other.
  datatype Dial = Dial(byX: bool, atX: Peer, atY: Peer)

  function ArrivalsAtX(dials: seq<Dial>): seq<Arrival> {
    seq(|dials|, i requires 0 <= i < |dials| => Arrival(dials[i].atX, !dials[i].byX))
  }

  function ArrivalsAtY(dials: seq<Dial>): seq<Arrival> {
    seq(|dials|, i requires 0 <= i < |dials| => Arrival(dials[i].atY, dials[i].byX))
  }

  // However the arrivals are ordered at either end, if exactly one connection is
  // the smaller key's dial, both ends end up holding that one.
  lemma BothEndsHoldTheSame(x: Key, y: Key, orderX: seq<Dial>, orderY: seq<Dial>, a: nat, b: nat,
                            peersX: map<Key, Peer>, peersY: map<Key, Peer>)
    requires x != y && y !in peersX && x !in peersY
    requires forall i :: 0 <= i < |orderX| ==> orderX[i].atX.publicKey == y
    requires forall i :: 0 <= i < |orderY| ==> orderY[i].atY.publicKey == x
    requires a < |orderX| && b < |orderY| && orderX[a] == orderY[b]
    requires forall i :: 0 <= i < |orderX| ==> (orderX[i].byX == Less(x, y) <==> i == a)
    requires forall i :: 0 <= i < |orderY| ==> (orderY[i].byX == Less(x, y) <==> i == b)
    ensures AdmitAll(x, peersX, ArrivalsAtX(orderX)) == peersX[y := orderX[a].atX]
    ensures AdmitAll(y, peersY, ArrivalsAtY(orderY)) == peersY[x := orderX[a].atY]
  {
    forall i | 0 <= i < |orderX|
      ensures ConnectionWins(x, y, ArrivalsAtX(orderX)[i].inbound) == (i == a)
    {
      BothEndsAgree(x, y, orderX[i].byX);
    }
    forall i | 0 <= i < |orderY|
      ensures ConnectionWins(y, x, ArrivalsAtY(orderY)[i].inbound) == (i == b)
    {
      BothEndsAgree(x, y, orderY[i].byX);
    }
    SurvivorIsHeld(x, peersX, y, ArrivalsAtX(orderX), a);
    SurvivorIsHeld(y, peersY, x, ArrivalsAtY(orderY), b);
  }
}
