// Gossip over a whole network: any number of nodes, dialling, admitting,
// announcing and delivering in any order, until nothing is left to do.
//
// Each node's locked state and its gossip selection are NodeState's. A pair has
// one connection: a dial that finds one there is given up (its collision has been
// decided), no connection breaks and no frame is lost. Frames form a multiset, so
// they may be delivered in any order.
module Mesh {
  import opened Keys
  import opened Peers
  import opened NodeState

  // The nodes there are, and the entry each one is known by.
  datatype World = World(rules: TextRules, info: map<Key, Peer>)

  datatype Outgoing = Outgoing(from: Key, to: Key, gossip: bool)

  datatype Frame = Frame(from: Key, to: Key, infos: seq<Peer>)

  // `opening` holds (i, j) while i's end of their connection awaits admission;
  // `owed` counts the announcements that admitted nodes have yet to make.
  datatype Net = Net(
    world: World, cores: map<Key, Core>, dials: multiset<Outgoing>, opening: set<(Key, Key)>,
    owed: multiset<Key>, frames: multiset<Frame>)

  datatype Step =
    | Connect(dial: Outgoing)
    | Admit(at: Key, peer: Key, inbound: bool)
    | Announce(at: Key, infos: seq<Peer>)
    | Deliver(frame: Frame)

  ghost predicate Valid(world: World) {
    forall k :: k in world.info ==>
         world.info[k].publicKey == k && WellFormed(world.rules, world.info[k])
  }

  // Nobody connected; some dials made by hand.
  function Start(world: World, dials: multiset<Outgoing>): Net {
    Net(world, map k | k in world.info :: Core(k, map[], map[], {}), dials, {}, multiset{}, multiset{})
  }

  ghost predicate Holds(net: Net, i: Key, j: Key) {
    i in net.cores && j in net.cores[i].registry
  }

  // i and j have a connection, admitted at i's end or about to be.
  ghost predicate Joined(net: Net, i: Key, j: Key) {
    Holds(net, i, j) || (i, j) in net.opening
  }

  function FramesFrom(at: Key, to: set<Key>, infos: seq<Peer>): set<Frame> {
    set k | k in to :: Frame(at, k, infos)
  }

  function DialsTo(at: Key, chosen: seq<Peer>): seq<Outgoing> {
    seq(|chosen|, i requires 0 <= i < |chosen| => Outgoing(at, chosen[i].publicKey, true))
  }

  ghost predicate Enabled(net: Net, step: Step) {
    match step
    case Connect(dial) => dial in net.dials && dial.from in net.cores
    case Admit(at, peer, _) =>
      (at, peer) in net.opening && at in net.cores && peer in net.world.info
    case Announce(at, infos) =>
      at in net.owed && at in net.cores && IsPeerList(net.cores[at].registry, infos)
    case Deliver(frame) => frame in net.frames && Holds(net, frame.to, frame.from)
  }

  ghost function Apply(net: Net, step: Step): Net
    requires Enabled(net, step)
  {
    match step
    case Connect(dial) => Connected(net, dial)
    case Admit(at, peer, inbound) =>
      net.(cores := net.cores[at := AdmitConnection(net.cores[at], net.world.info[peer], inbound, 0)],
           opening := net.opening - {(at, peer)},
           owed := net.owed + multiset{at})
    case Announce(at, infos) =>
      net.(owed := net.owed - multiset{at},
           frames := net.frames
                     + multiset(FramesFrom(at, net.cores[at].connections.Keys, infos)))
    case Deliver(frame) =>
      var chosen := Selected(net.world.rules, net.cores[frame.to], frame.infos);
      net.(cores := net.cores[frame.to := Dialing(net.cores[frame.to], chosen)],
           frames := net.frames - multiset{frame},
           dials := net.dials + multiset(DialsTo(frame.to, chosen)))
  }

  // A dial either opens the pair's connection, or ends: at ourselves, or because
  // the pair has one. A gossip dial that ends clears its in-flight mark.
  ghost function Connected(net: Net, dial: Outgoing): Net
    requires dial.from in net.cores
  {
    var i, j := dial.from, dial.to;
    var rest := net.dials - multiset{dial};
    if i == j || Joined(net, i, j) then
      net.(dials := rest,
           cores := if dial.gossip then net.cores[i := DialFinished(net.cores[i], j)] else net.cores)
    else net.(dials := rest, opening := net.opening + {(i, j), (j, i)})
  }

  ghost predicate Runs(net: Net, steps: seq<Step>)
    decreases |steps|
  {
    steps == [] || (Enabled(net, steps[0]) && Runs(Apply(net, steps[0]), steps[1..]))
  }

  ghost function After(net: Net, steps: seq<Step>): Net
    requires Runs(net, steps)
    decreases |steps|
  {
    if steps == [] then net else After(Apply(net, steps[0]), steps[1..])
  }

  ghost predicate Quiescent(net: Net) {
    forall step :: !Enabled(net, step)
  }

  // ------------------------------------------------------------------- Well-formed nets

  ghost predicate CoreOk(info: map<Key, Peer>, core: Core, i: Key) {
    && core.me == i && core.registry.Keys == core.connections.Keys && i !in core.registry
    && (forall j :: j in core.registry ==> j in info && core.registry[j] == info[j])
  }

  ghost predicate NodeOk(net: Net, i: Key) {
    i in net.cores && CoreOk(net.world.info, net.cores[i], i)
  }

  ghost predicate PairOk(net: Net, i: Key, j: Key) {
    && (Joined(net, i, j) ==> Joined(net, j, i) && i != j && j in net.world.info)
    && ((i, j) in net.opening ==> !Holds(net, i, j))
  }

  ghost predicate FrameOk(net: Net, frame: Frame) {
    && Joined(net, frame.to, frame.from)
    && forall i :: 0 <= i < |frame.infos| ==>
         frame.infos[i].publicKey in net.world.info
         && frame.infos[i] == net.world.info[frame.infos[i].publicKey]
  }

  ghost predicate DialOk(net: Net, dial: Outgoing) {
    dial.from in net.world.info && dial.to in net.world.info
  }

  // A key marked in flight is being dialled, or its connection has been made.
  ghost predicate MarkOk(net: Net, i: Key, k: Key) {
    i in net.cores && k in net.cores[i].dialing ==>
      Outgoing(i, k, true) in net.dials || Joined(net, i, k)
  }

  ghost predicate Proper(net: Net) {
    && Valid(net.world) && net.cores.Keys == net.world.info.Keys
    && (forall i :: i in net.world.info ==> NodeOk(net, i))
    && (forall i, j :: PairOk(net, i, j))
    && (forall frame :: frame in net.frames ==> FrameOk(net, frame))
    && (forall dial :: dial in net.dials ==> DialOk(net, dial))
    && (forall i, k :: MarkOk(net, i, k))
    && (forall i :: i in net.owed ==> i in net.world.info)
  }

  lemma StartProper(world: World, dials: multiset<Outgoing>)
    requires Valid(world)
    requires forall dial :: dial in dials ==> dial.from in world.info && dial.to in world.info
    ensures Proper(Start(world, dials))
  {
  }

  // Steps never break a connection, so what needs one keeps it.
  ghost predicate Grows(net: Net, next: Net) {
    && next.world == net.world && next.cores.Keys == net.cores.Keys
    && forall i, j :: Joined(net, i, j) ==> Joined(next, i, j)
  }

  lemma FramesGrow(net: Net, next: Net, frame: Frame)
    requires Grows(net, next) && FrameOk(net, frame)
    ensures FrameOk(next, frame)
  {
  }

  // The parts of a well-formed net, one at a time.
  lemma NodeOf(net: Net, i: Key)
    requires Proper(net) && i in net.world.info
    ensures NodeOk(net, i) && net.cores.Keys == net.world.info.Keys
  {
  }

  lemma PairOf(net: Net, i: Key, j: Key)
    requires Proper(net)
    ensures PairOk(net, i, j)
  {
  }

  lemma FrameOf(net: Net, frame: Frame)
    requires Proper(net) && frame in net.frames
    ensures FrameOk(net, frame)
  {
  }

  lemma DialOf(net: Net, dial: Outgoing)
    requires Proper(net) && dial in net.dials
    ensures DialOk(net, dial)
  {
  }

  lemma MarkOf(net: Net, i: Key, k: Key)
    requires Proper(net)
    ensures MarkOk(net, i, k)
  {
  }

  lemma WorldOf(net: Net)
    requires Proper(net)
    ensures Valid(net.world) && net.cores.Keys == net.world.info.Keys
    ensures forall i :: i in net.owed ==> i in net.world.info
  {
  }

  // ----------------------------------------------------------- What each step connects

  lemma ConnectJoins(net: Net, dial: Outgoing, i: Key, j: Key)
    requires Proper(net) && Enabled(net, Connect(dial))
    ensures var next := Connected(net, dial);
            (Holds(next, i, j) <==> Holds(net, i, j))
            && (Joined(next, i, j) <==>
                  Joined(net, i, j)
                  || (dial.from != dial.to && i == dial.from && j == dial.to)
                  || (dial.from != dial.to && j == dial.from && i == dial.to))
  {
    hide Proper;
    PairOf(net, dial.from, dial.to);
  }

  lemma AdmitCore(net: Net, at: Key, peer: Key, inbound: bool)
    requires Proper(net) && Enabled(net, Admit(at, peer, inbound))
    ensures var core, after := net.cores[at], Apply(net, Admit(at, peer, inbound)).cores[at];
            after.registry == core.registry[peer := net.world.info[peer]]
            && after.connections.Keys == core.connections.Keys + {peer}
            && after.me == core.me && after.dialing == core.dialing
  {
    hide Proper, Less;
    PairOf(net, at, peer);
    WorldOf(net);
    NodeOf(net, at);
    assert Decide(at, net.cores[at].registry.Keys, peer, inbound) == Join;
  }

  lemma AdmitJoins(net: Net, at: Key, peer: Key, inbound: bool, i: Key, j: Key)
    requires Proper(net) && Enabled(net, Admit(at, peer, inbound))
    ensures var next := Apply(net, Admit(at, peer, inbound));
            (Joined(next, i, j) <==> Joined(net, i, j))
            && (Holds(next, i, j) <==> Holds(net, i, j) || (i == at && j == peer))
  {
    AdmitHolds(net, at, peer, inbound, i, j);
    AdmitOpening(net, at, peer, inbound, i, j);
    hide Proper, Holds, Apply, Enabled;
    PairOf(net, at, peer);
  }

  lemma AdmitOpening(net: Net, at: Key, peer: Key, inbound: bool, i: Key, j: Key)
    requires Proper(net) && Enabled(net, Admit(at, peer, inbound))
    ensures (at, peer) in net.opening
    ensures (i, j) in Apply(net, Admit(at, peer, inbound)).opening
            <==> (i, j) in net.opening && !(i == at && j == peer)
  {
    hide Proper, AdmitConnection;
  }

  lemma AdmitHolds(net: Net, at: Key, peer: Key, inbound: bool, i: Key, j: Key)
    requires Proper(net) && Enabled(net, Admit(at, peer, inbound))
    ensures Holds(Apply(net, Admit(at, peer, inbound)), i, j)
            <==> Holds(net, i, j) || (i == at && j == peer)
  {
    AdmitCore(net, at, peer, inbound);
    hide Proper, AdmitConnection;
  }

  lemma QuietJoins(net: Net, step: Step, i: Key, j: Key)
    requires Proper(net) && Enabled(net, step) && (step.Announce? || step.Deliver?)
    ensures Holds(Apply(net, step), i, j) <==> Holds(net, i, j)
    ensures Joined(Apply(net, step), i, j) <==> Joined(net, i, j)
  {
    hide Proper, Selected;
  }

  lemma StepPair(net: Net, step: Step, i: Key, j: Key)
    requires Proper(net) && Enabled(net, step)
    ensures PairOk(Apply(net, step), i, j)
    ensures Joined(net, i, j) ==> Joined(Apply(net, step), i, j)
  {
    hide Proper, Selected, AdmitConnection, Connected;
    PairOf(net, i, j);
    match step
    case Connect(dial) => ConnectPair(net, dial, i, j);
    case Admit(at, peer, inbound) =>
      AdmitJoins(net, at, peer, inbound, i, j);
      AdmitJoins(net, at, peer, inbound, j, i);
    case _ => QuietJoins(net, step, i, j); QuietJoins(net, step, j, i);
  }

  lemma ConnectPair(net: Net, dial: Outgoing, i: Key, j: Key)
    requires Proper(net) && Enabled(net, Connect(dial))
    ensures PairOk(Connected(net, dial), i, j)
    ensures Joined(net, i, j) ==> Joined(Connected(net, dial), i, j)
  {
    ConnectJoins(net, dial, i, j);
    ConnectJoins(net, dial, j, i);
    hide Proper;
    PairOf(net, i, j);
    PairOf(net, dial.from, dial.to);
    PairOf(net, dial.to, dial.from);
    DialOf(net, dial);
  }

  lemma StepGrows(net: Net, step: Step)
    requires Proper(net) && Enabled(net, step)
    ensures Grows(net, Apply(net, step))
  {
    StepWorld(net, step);
    hide Proper, Joined, Connected, Selected, AdmitConnection;
    forall i, j ensures Joined(net, i, j) ==> Joined(Apply(net, step), i, j) {
      StepPair(net, step, i, j);
    }
  }

  lemma StepNode(net: Net, step: Step, i: Key)
    requires Proper(net) && Enabled(net, step) && i in net.world.info
    ensures NodeOk(Apply(net, step), i)
  {
    hide Proper, Selected, AdmitConnection, Joined;
    match step
    case Connect(dial) => NodeOf(net, i);
    case Admit(at, peer, inbound) => AdmitNode(net, at, peer, inbound, i);
    case Announce(_, _) => NodeOf(net, i);
    case Deliver(_) => NodeOf(net, i);
  }

  lemma AdmitNode(net: Net, at: Key, peer: Key, inbound: bool, i: Key)
    requires Proper(net) && Enabled(net, Admit(at, peer, inbound)) && i in net.world.info
    ensures NodeOk(Apply(net, Admit(at, peer, inbound)), i)
  {
    AdmitCore(net, at, peer, inbound);
    OpeningOf(net, at, peer);
    hide Proper, AdmitConnection, CoreOk;
    NodeOf(net, i);
    var next := Apply(net, Admit(at, peer, inbound));
    if i == at {
      CoreGains(net.world.info, net.cores[at], next.cores[at], at, peer);
    }
  }

  lemma CoreGains(info: map<Key, Peer>, core: Core, after: Core, i: Key, peer: Key)
    requires CoreOk(info, core, i) && peer in info && peer != i
    requires after.me == core.me && after.registry == core.registry[peer := info[peer]]
    requires after.connections.Keys == core.connections.Keys + {peer}
    ensures CoreOk(info, after, i)
  {
  }

  lemma OpeningOf(net: Net, i: Key, j: Key)
    requires Proper(net) && (i, j) in net.opening
    ensures i != j
  {
    PairOf(net, i, j);
  }

  // ------------------------------------------------------------------- Frames in flight

  lemma AnnouncedFrame(net: Net, at: Key, infos: seq<Peer>, frame: Frame)
    requires Proper(net) && Enabled(net, Announce(at, infos))
    requires frame in FramesFrom(at, net.cores[at].connections.Keys, infos)
    ensures FrameOk(net, frame)
  {
    hide Proper;
    WorldOf(net);
    NodeOf(net, at);
    PairOf(net, at, frame.to);
    assert Holds(net, at, frame.to);
  }

  lemma StepFrame(net: Net, step: Step, frame: Frame)
    requires Proper(net) && Enabled(net, step)
    ensures frame in Apply(net, step).frames ==> FrameOk(Apply(net, step), frame)
  {
    hide Proper, Selected, AdmitConnection, Joined;
    StepGrows(net, step);
    if frame in Apply(net, step).frames {
      if frame in net.frames {
        FrameOf(net, frame);
      } else {
        AnnouncedFrame(net, step.at, step.infos, frame);
      }
      FramesGrow(net, Apply(net, step), frame);
    }
  }

  lemma {:induction false} AllRetained(net: Net, infos: seq<Peer>)
    requires Valid(net.world)
    requires forall i :: 0 <= i < |infos| ==>
               infos[i].publicKey in net.world.info && infos[i] == net.world.info[infos[i].publicKey]
    ensures Retained(net.world.rules, infos) == infos
  {
    if infos != [] {
      var n := |infos| - 1;
      AllRetained(net, infos[..n]);
      assert infos == infos[..n] + [infos[n]];
    }
  }

  // From a frame of the network, exactly the unknown keys within the cap that are
  // not in flight are dialled.
  lemma DeliverSelects(net: Net, frame: Frame, k: Key)
    requires Proper(net) && Enabled(net, Deliver(frame))
    ensures var core := net.cores[frame.to];
            k in KeysOf(Selected(net.world.rules, core, frame.infos)) <==>
              k in KeysOf(Truncated(frame.infos)) && k != frame.to && !Holds(net, frame.to, k)
              && k !in core.dialing
  {
    hide Proper;
    FrameOf(net, frame);
    WorldOf(net);
    NodeOf(net, frame.to);
    AllRetained(net, Truncated(frame.infos));
    SelectedKeys(net.world.rules, net.cores[frame.to], frame.infos, k);
  }

  // ------------------------------------------------------------------- Dials in flight

  lemma InDialsTo(at: Key, chosen: seq<Peer>, dial: Outgoing)
    ensures dial in multiset(DialsTo(at, chosen)) <==>
              dial.from == at && dial.gossip && dial.to in KeysOf(chosen)
  {
    var dials := DialsTo(at, chosen);
    if dial.from == at && dial.gossip && dial.to in KeysOf(chosen) {
      var i :| 0 <= i < |chosen| && chosen[i].publicKey == dial.to;
      assert dials[i] == dial;
    }
    if dial in dials {
      var i :| 0 <= i < |dials| && dials[i] == dial;
      assert chosen[i].publicKey == dial.to;
    }
  }

  // A delivery dials the keys it learned of and does not know.
  lemma DeliverDials(net: Net, frame: Frame, dial: Outgoing)
    requires Proper(net) && Enabled(net, Deliver(frame))
    ensures dial in Apply(net, Deliver(frame)).dials <==>
              dial in net.dials
              || (dial.from == frame.to && dial.gossip && dial.to in KeysOf(Truncated(frame.infos))
                  && dial.to != frame.to && !Holds(net, frame.to, dial.to)
                  && dial.to !in net.cores[frame.to].dialing)
  {
    hide Proper, Selected;
    var chosen := Selected(net.world.rules, net.cores[frame.to], frame.infos);
    InDialsTo(frame.to, chosen, dial);
    DeliverSelects(net, frame, dial.to);
  }

  lemma StepDial(net: Net, step: Step, dial: Outgoing)
    requires Proper(net) && Enabled(net, step)
    ensures dial in Apply(net, step).dials ==> DialOk(Apply(net, step), dial)
  {
    StepWorld(net, step);
    hide Proper, Selected, AdmitConnection, Joined, Connected;
    if dial in net.dials {
      DialOf(net, dial);
    } else if dial in Apply(net, step).dials {
      NewDial(net, step.frame, dial);
    }
  }

  lemma NewDial(net: Net, frame: Frame, dial: Outgoing)
    requires Proper(net) && Enabled(net, Deliver(frame))
    ensures dial in Apply(net, Deliver(frame)).dials ==> DialOk(net, dial)
  {
    hide Proper, Apply, Enabled;
    DeliverDials(net, frame, dial);
    DialKnown(net, frame, dial);
  }

  lemma DialKnown(net: Net, frame: Frame, dial: Outgoing)
    requires Proper(net) && Enabled(net, Deliver(frame))
    ensures dial in net.dials ==> DialOk(net, dial)
    ensures dial.from == frame.to && dial.to in KeysOf(Truncated(frame.infos)) ==> DialOk(net, dial)
  {
    hide Proper;
    if dial in net.dials {
      DialOf(net, dial);
    }
    FrameOf(net, frame);
    PairOf(net, frame.to, frame.from);
    WorldOf(net);
    if dial.to in KeysOf(Truncated(frame.infos)) {
      TruncatedKeys(frame.infos, dial.to);
      InKeysOf(net, frame, dial.to);
    }
  }

  lemma TruncatedKeys(infos: seq<Peer>, k: Key)
    requires k in KeysOf(Truncated(infos))
    ensures k in KeysOf(infos)
  {
    var i :| 0 <= i < |Truncated(infos)| && Truncated(infos)[i].publicKey == k;
    assert infos[i].publicKey == k;
  }

  lemma InKeysOf(net: Net, frame: Frame, k: Key)
    requires FrameOk(net, frame) && k in KeysOf(frame.infos)
    ensures k in net.world.info
  {
  }

  lemma StepMark(net: Net, step: Step, i: Key, k: Key)
    requires Proper(net) && Enabled(net, step)
    ensures MarkOk(Apply(net, step), i, k)
  {
    hide Proper, Selected, AdmitConnection, Connected;
    MarkOf(net, i, k);
    match step
    case Connect(dial) => ConnectMark(net, dial, i, k);
    case Admit(at, peer, inbound) => AdmitMark(net, at, peer, inbound, i, k);
    case Announce(_, _) => QuietJoins(net, step, i, k);
    case Deliver(frame) => DeliverMark(net, frame, i, k);
  }

  lemma AdmitMark(net: Net, at: Key, peer: Key, inbound: bool, i: Key, k: Key)
    requires Proper(net) && Enabled(net, Admit(at, peer, inbound))
    ensures MarkOk(Apply(net, Admit(at, peer, inbound)), i, k)
  {
    AdmitCore(net, at, peer, inbound);
    AdmitJoins(net, at, peer, inbound, i, k);
    hide Proper, AdmitConnection, Joined;
    MarkOf(net, i, k);
  }

  lemma ConnectMark(net: Net, dial: Outgoing, i: Key, k: Key)
    requires Proper(net) && Enabled(net, Connect(dial))
    ensures MarkOk(Connected(net, dial), i, k)
  {
    hide Proper;
    MarkOf(net, i, k);
    ConnectJoins(net, dial, i, k);
    DialIs(dial, i, k);
  }

  lemma DialIs(dial: Outgoing, i: Key, k: Key)
    ensures dial == Outgoing(i, k, true) <==> dial.from == i && dial.to == k && dial.gossip
  {
  }

  lemma DeliverMark(net: Net, frame: Frame, i: Key, k: Key)
    requires Proper(net) && Enabled(net, Deliver(frame))
    ensures MarkOk(Apply(net, Deliver(frame)), i, k)
  {
    hide Proper, Selected, Joined;
    MarkOf(net, i, k);
    QuietJoins(net, Deliver(frame), i, k);
    InDialsTo(frame.to, Selected(net.world.rules, net.cores[frame.to], frame.infos),
              Outgoing(i, k, true));
  }

  // ------------------------------------------------------------------------- Every step

  lemma StepWorld(net: Net, step: Step)
    requires Proper(net) && Enabled(net, step)
    ensures var next := Apply(net, step);
            next.world == net.world && next.cores.Keys == net.cores.Keys
            && forall i :: i in next.owed ==> i in net.world.info
  {
    hide Proper, Selected, AdmitConnection, Joined, Connected;
    WorldOf(net);
    match step
    case Connect(dial) => ConnectWorld(net, dial);
    case Admit(at, _, _) =>
    case Announce(_, _) =>
    case Deliver(_) =>
  }

  lemma ConnectWorld(net: Net, dial: Outgoing)
    requires dial.from in net.cores
    ensures var next := Connected(net, dial);
            next.world == net.world && next.cores.Keys == net.cores.Keys && next.owed == net.owed
            && next.frames == net.frames
  {
    hide Joined;
  }

  lemma StepProper(net: Net, step: Step)
    requires Proper(net) && Enabled(net, step)
    ensures Proper(Apply(net, step)) && Grows(net, Apply(net, step))
  {
    StepGrows(net, step);
    StepWorld(net, step);
    StepLinks(net, step);
    StepFlights(net, step);
    WorldOf(net);
    hide Proper, Grows, Links, Flights, Apply;
    ProperParts(Apply(net, step));
  }

  ghost predicate Links(net: Net) {
    && (forall i :: i in net.world.info ==> NodeOk(net, i))
    && (forall i, j :: PairOk(net, i, j))
  }

  ghost predicate Flights(net: Net) {
    && (forall frame :: frame in net.frames ==> FrameOk(net, frame))
    && (forall dial :: dial in net.dials ==> DialOk(net, dial))
    && (forall i, k :: MarkOk(net, i, k))
  }

  lemma ProperParts(net: Net)
    requires Valid(net.world) && net.cores.Keys == net.world.info.Keys && Links(net) && Flights(net)
    requires forall i :: i in net.owed ==> i in net.world.info
    ensures Proper(net)
  {
    hide NodeOk, PairOk, FrameOk, DialOk, MarkOk;
  }

  lemma StepLinks(net: Net, step: Step)
    requires Proper(net) && Enabled(net, step)
    ensures Links(Apply(net, step))
  {
    hide Proper, NodeOk, PairOk, Apply, Enabled;
    var next := Apply(net, step);
    assert next.world == net.world by { StepWorld(net, step); }
    forall i | i in next.world.info ensures NodeOk(next, i) {
      StepNode(net, step, i);
    }
    forall i, j ensures PairOk(next, i, j) {
      StepPair(net, step, i, j);
    }
  }

  lemma StepFlights(net: Net, step: Step)
    requires Proper(net) && Enabled(net, step)
    ensures Flights(Apply(net, step))
  {
    hide Proper, FrameOk, DialOk, MarkOk, Apply, Enabled;
    var next := Apply(net, step);
    forall frame | frame in next.frames ensures FrameOk(next, frame) {
      StepFrame(net, step, frame);
    }
    forall dial | dial in next.dials ensures DialOk(next, dial) {
      StepDial(net, step, dial);
    }
    forall i, k ensures MarkOk(next, i, k) {
      StepMark(net, step, i, k);
    }
  }
}
