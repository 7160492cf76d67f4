// Gossip always stops, and closes every connected bootstrap graph whose peer lists
// fit in a frame into a full mesh.
module MeshLaws {
  import opened Keys
  import opened Peers
  import opened NodeState
  import opened Mesh

  // ------------------------------------------------ What an introduction still promises

  ghost predicate Told(net: Net, i: Key, k: Key) {
    exists frame :: frame in net.frames && frame.to == i && k in KeysOf(Truncated(frame.infos))
  }

  ghost predicate BeingDialled(net: Net, i: Key, k: Key) {
    Outgoing(i, k, true) in net.dials || Outgoing(i, k, false) in net.dials
  }

  // j's peer list fits in one frame: gossip from j leaves nobody out.
  ghost predicate Fits(net: Net, j: Key) {
    j in net.cores ==> |net.cores[j].registry| <= 64
  }

  // Two neighbours of j are connected, or something under way will connect them:
  // j's announcement, a frame telling i of k, or i's dial.
  ghost predicate Promised(net: Net, j: Key, i: Key, k: Key) {
    Joined(net, i, k) || j in net.owed || Told(net, i, k) || BeingDialled(net, i, k)
  }

  ghost predicate KeepsPromise(net: Net, j: Key, i: Key, k: Key) {
    Holds(net, j, i) && Holds(net, j, k) && i != k ==> Promised(net, j, i, k)
  }

  // A dial made by hand has connected its ends, or is still being made.
  ghost predicate Begun(net: Net, i: Key, j: Key) {
    i == j || Joined(net, i, j) || BeingDialled(net, i, j)
  }

  lemma DialStays(net: Net, step: Step, i: Key, k: Key)
    requires Proper(net) && Enabled(net, step) && BeingDialled(net, i, k) && i != k
    ensures BeingDialled(Apply(net, step), i, k) || Joined(Apply(net, step), i, k)
  {
    hide Proper, Selected, AdmitConnection, Joined;
    match step
    case Connect(dial) => ConnectKeepsDial(net, dial, i, k);
    case _ =>
  }

  lemma ConnectKeepsDial(net: Net, dial: Outgoing, i: Key, k: Key)
    requires Proper(net) && Enabled(net, Connect(dial)) && BeingDialled(net, i, k) && i != k
    ensures BeingDialled(Connected(net, dial), i, k) || Joined(Connected(net, dial), i, k)
  {
    ConnectJoins(net, dial, i, k);
    hide Proper, Joined;
    if !(dial.from == i && dial.to == k) {
      OtherDialStays(net, dial, Outgoing(i, k, true));
      OtherDialStays(net, dial, Outgoing(i, k, false));
    }
  }

  lemma OtherDialStays(net: Net, dial: Outgoing, other: Outgoing)
    requires dial.from in net.cores && other != dial
    ensures other in net.dials ==> other in Connected(net, dial).dials
  {
    hide Joined;
  }

  lemma TellingStays(net: Net, step: Step, i: Key, k: Key)
    requires Proper(net) && Enabled(net, step) && Told(net, i, k) && i != k
    ensures Told(Apply(net, step), i, k) || BeingDialled(Apply(net, step), i, k)
            || Joined(Apply(net, step), i, k)
  {
    var frame :| frame in net.frames && frame.to == i && k in KeysOf(Truncated(frame.infos));
    if step == Deliver(frame) {
      DeliveryDials(net, frame, k);
    } else {
      StepWorldFrames(net, step, frame);
      assert frame in Apply(net, step).frames;
    }
  }

  lemma StepWorldFrames(net: Net, step: Step, frame: Frame)
    requires Proper(net) && Enabled(net, step) && frame in net.frames && step != Deliver(frame)
    ensures frame in Apply(net, step).frames
  {
    hide Proper, Selected, AdmitConnection, Joined;
  }

  lemma DeliveryDials(net: Net, frame: Frame, k: Key)
    requires Proper(net) && Enabled(net, Deliver(frame))
    requires k in KeysOf(Truncated(frame.infos)) && k != frame.to
    ensures var next := Apply(net, Deliver(frame));
            BeingDialled(next, frame.to, k) || Joined(next, frame.to, k)
  {
    DeliverDials(net, frame, Outgoing(frame.to, k, true));
    MarkOf(net, frame.to, k);
    QuietJoins(net, Deliver(frame), frame.to, k);
    hide Proper, Apply, Enabled;
  }

  lemma {:induction false} DistinctFit(infos: seq<Peer>, keys: set<Key>)
    requires DistinctKeys(infos)
    requires forall i :: 0 <= i < |infos| ==> infos[i].publicKey in keys
    ensures |infos| <= |keys|
  {
    if infos != [] {
      var n := |infos| - 1;
      DistinctFit(infos[..n], keys - {infos[n].publicKey});
    }
  }

  lemma AnnounceTells(net: Net, at: Key, infos: seq<Peer>, i: Key, k: Key)
    requires Proper(net) && Enabled(net, Announce(at, infos))
    requires Holds(net, at, i) && Holds(net, at, k) && Fits(net, at)
    ensures Told(Apply(net, Announce(at, infos)), i, k)
  {
    WorldOf(net);
    hide Proper;
    NodeOf(net, at);
    var frame := Frame(at, i, infos);
    DistinctFit(infos, net.cores[at].registry.Keys);
    assert Truncated(infos) == infos;
    assert frame in FramesFrom(at, net.cores[at].connections.Keys, infos);
    assert frame in Apply(net, Announce(at, infos)).frames;
  }

  lemma OwedStays(net: Net, step: Step, j: Key)
    requires Proper(net) && Enabled(net, step)
    requires j in net.owed && !(step.Announce? && step.at == j)
    ensures j in Apply(net, step).owed
  {
    hide Proper, Selected, AdmitConnection, Joined;
  }

  // Only j's own admissions give it new neighbours, and each one owes a frame.
  lemma NewNeighbourOwes(net: Net, step: Step, j: Key, i: Key)
    requires Proper(net) && Enabled(net, step)
    ensures Holds(Apply(net, step), j, i) && !Holds(net, j, i) ==> j in Apply(net, step).owed
  {
    match step
    case Connect(dial) => ConnectJoins(net, dial, j, i);
    case Admit(at, peer, inbound) => AdmitJoins(net, at, peer, inbound, j, i);
    case _ => QuietJoins(net, step, j, i);
  }

  lemma StepPromise(net: Net, step: Step, j: Key, i: Key, k: Key)
    requires Proper(net) && Enabled(net, step) && KeepsPromise(net, j, i, k) && Fits(net, j)
    ensures KeepsPromise(Apply(net, step), j, i, k)
  {
    hide Proper, Apply, Enabled, Joined, Told, BeingDialled, Holds, Fits;
    var next := Apply(net, step);
    if Holds(next, j, i) && Holds(next, j, k) && i != k {
      if !Holds(net, j, i) {
        NewNeighbourOwes(net, step, j, i);
      } else if !Holds(net, j, k) {
        NewNeighbourOwes(net, step, j, k);
      } else if Joined(net, i, k) {
        StepPair(net, step, i, k);
      } else if j in net.owed {
        if step.Announce? && step.at == j {
          AnnounceTells(net, j, step.infos, i, k);
        } else {
          OwedStays(net, step, j);
        }
      } else if Told(net, i, k) {
        TellingStays(net, step, i, k);
      } else {
        DialStays(net, step, i, k);
      }
    }
  }

  lemma StepBegun(net: Net, step: Step, i: Key, j: Key)
    requires Proper(net) && Enabled(net, step) && Begun(net, i, j)
    ensures Begun(Apply(net, step), i, j)
  {
    hide Proper, Apply, Enabled, Joined, BeingDialled;
    if i != j {
      if Joined(net, i, j) {
        StepPair(net, step, i, j);
      } else {
        DialStays(net, step, i, j);
      }
    }
  }

  lemma {:induction false} RunProper(net: Net, steps: seq<Step>)
    requires Proper(net) && Runs(net, steps)
    ensures Proper(After(net, steps)) && After(net, steps).world == net.world
    decreases |steps|
  {
    hide Proper, Apply, Enabled;
    if steps != [] {
      StepProper(net, steps[0]);
      RunProper(Apply(net, steps[0]), steps[1..]);
    }
  }

  // Registries only grow, so one that fits at the end has always fitted.
  lemma StepHolds(net: Net, step: Step, i: Key, j: Key)
    requires Proper(net) && Enabled(net, step) && Holds(net, i, j)
    ensures Holds(Apply(net, step), i, j)
  {
    match step
    case Connect(dial) => ConnectJoins(net, dial, i, j);
    case Admit(at, peer, inbound) => AdmitHolds(net, at, peer, inbound, i, j);
    case _ => QuietJoins(net, step, i, j);
  }

  lemma StepFits(net: Net, step: Step, j: Key)
    requires Proper(net) && Enabled(net, step)
    ensures Fits(Apply(net, step), j) ==> Fits(net, j)
  {
    var next := Apply(net, step);
    StepWorld(net, step);
    hide Proper, Apply, Enabled;
    if j in net.cores {
      forall k | k in net.cores[j].registry ensures k in next.cores[j].registry {
        assert Holds(net, j, k);
        StepHolds(net, step, j, k);
      }
      SubsetSize(net.cores[j].registry.Keys, next.cores[j].registry.Keys);
    }
  }

  lemma {:induction false} FitsBefore(net: Net, steps: seq<Step>, j: Key)
    requires Proper(net) && Runs(net, steps) && Fits(After(net, steps), j)
    ensures Fits(net, j)
    decreases |steps|
  {
    hide Proper, Apply, Enabled, Fits;
    if steps != [] {
      StepProper(net, steps[0]);
      FitsBefore(Apply(net, steps[0]), steps[1..], j);
      StepFits(net, steps[0], j);
    }
  }

  lemma {:induction false} RunPromise(net: Net, steps: seq<Step>, j: Key, i: Key, k: Key)
    requires Proper(net) && Runs(net, steps) && KeepsPromise(net, j, i, k)
    requires Fits(After(net, steps), j)
    ensures KeepsPromise(After(net, steps), j, i, k)
    decreases |steps|
  {
    hide Proper, Apply, Enabled, KeepsPromise, Fits;
    if steps != [] {
      StepProper(net, steps[0]);
      FitsBefore(net, steps, j);
      StepPromise(net, steps[0], j, i, k);
      RunPromise(Apply(net, steps[0]), steps[1..], j, i, k);
    }
  }

  lemma {:induction false} RunBegun(net: Net, steps: seq<Step>, i: Key, j: Key)
    requires Proper(net) && Runs(net, steps) && Begun(net, i, j)
    ensures Begun(After(net, steps), i, j)
    decreases |steps|
  {
    hide Proper, Apply, Enabled, Begun;
    if steps != [] {
      StepProper(net, steps[0]);
      StepBegun(net, steps[0], i, j);
      RunBegun(Apply(net, steps[0]), steps[1..], i, j);
    }
  }

  // ----------------------------------------------------------------- At quiescence

  // With no step left nothing is under way: a quiet net is not a stuck one.
  lemma QuietNet(net: Net)
    requires Proper(net) && Quiescent(net)
    ensures net.dials == multiset{} && net.opening == {} && net.owed == multiset{}
    ensures net.frames == multiset{}
  {
    if dial :| dial in net.dials {
      DialReady(net, dial);
    }
    if pair :| pair in net.opening {
      EndReady(net, pair);
    }
    if at :| at in net.owed {
      var infos := AnnounceReady(net, at);
    }
    if frame :| frame in net.frames {
      FrameReady(net, frame);
    }
  }

  lemma DialReady(net: Net, dial: Outgoing)
    requires Proper(net) && dial in net.dials
    ensures Enabled(net, Connect(dial))
  {
    WorldOf(net);
    DialOf(net, dial);
  }

  lemma EndReady(net: Net, pair: (Key, Key))
    requires Proper(net) && pair in net.opening
    ensures Enabled(net, Admit(pair.0, pair.1, true))
  {
    WorldOf(net);
    assert pair == (pair.0, pair.1);
    PairOf(net, pair.0, pair.1);
    PairOf(net, pair.1, pair.0);
  }

  lemma AnnounceReady(net: Net, at: Key) returns (infos: seq<Peer>)
    requires Proper(net) && at in net.owed
    ensures Enabled(net, Announce(at, infos))
  {
    WorldOf(net);
    NodeOf(net, at);
    infos := ListPeers(net, net.cores[at].registry.Keys, at);
  }

  // A frame waits only for its receiver's end to be admitted.
  lemma FrameReady(net: Net, frame: Frame)
    requires Proper(net) && frame in net.frames && net.opening == {}
    ensures Enabled(net, Deliver(frame))
  {
    FrameOf(net, frame);
  }

  // Some order in which to list a registry.
  lemma {:induction false} ListPeers(net: Net, keys: set<Key>, at: Key) returns (infos: seq<Peer>)
    requires Valid(net.world) && NodeOk(net, at) && keys <= net.cores[at].registry.Keys
    ensures DistinctKeys(infos) && KeysOf(infos) == keys
    ensures forall i :: 0 <= i < |infos| ==>
              infos[i].publicKey in net.cores[at].registry
              && net.cores[at].registry[infos[i].publicKey] == infos[i]
  {
    infos := [];
    if keys != {} {
      var k :| k in keys;
      var rest := ListPeers(net, keys - {k}, at);
      var info := net.cores[at].registry[k];
      assert info == net.world.info[k];
      KeysOfAppend(rest, info);
      infos := rest + [info];
      forall i | 0 <= i < |rest| ensures rest[i].publicKey != k {
        assert rest[i].publicKey in KeysOf(rest);
      }
    }
  }

  ghost predicate StartOk(world: World, dials: multiset<Outgoing>) {
    Valid(world) && forall dial :: dial in dials ==> dial.from in world.info && dial.to in world.info
  }

  lemma AfterProper(world: World, dials: multiset<Outgoing>, steps: seq<Step>)
    requires StartOk(world, dials) && Runs(Start(world, dials), steps)
    ensures Proper(After(Start(world, dials), steps))
    ensures After(Start(world, dials), steps).world == world
  {
    StartProper(world, dials);
    hide Proper;
    RunProper(Start(world, dials), steps);
  }

  lemma AfterPromises(world: World, dials: multiset<Outgoing>, steps: seq<Step>, j: Key, i: Key, k: Key)
    requires StartOk(world, dials) && Runs(Start(world, dials), steps)
    requires Fits(After(Start(world, dials), steps), j)
    ensures KeepsPromise(After(Start(world, dials), steps), j, i, k)
  {
    StartProper(world, dials);
    StartPromises(world, dials, j, i, k);
    hide Proper, KeepsPromise, Fits, Start, Runs, StartOk;
    RunPromise(Start(world, dials), steps, j, i, k);
  }

  lemma AfterBegun(world: World, dials: multiset<Outgoing>, steps: seq<Step>, i: Key, k: Key)
    requires StartOk(world, dials) && Runs(Start(world, dials), steps)
    requires Outgoing(i, k, false) in dials
    ensures Begun(After(Start(world, dials), steps), i, k)
  {
    StartProper(world, dials);
    StartPromises(world, dials, i, i, k);
    hide Proper, Begun, Start, Runs, StartOk;
    RunBegun(Start(world, dials), steps, i, k);
  }

  lemma QuietLinks(net: Net, i: Key, k: Key)
    requires Proper(net) && net.opening == {} && net.dials == multiset{}
    ensures Holds(net, i, k) ==> Holds(net, k, i) && i != k
    ensures Begun(net, i, k) && i != k ==> Holds(net, i, k)
  {
    PairOf(net, i, k);
  }

  lemma QuietPromise(net: Net, j: Key, i: Key, k: Key)
    requires KeepsPromise(net, j, i, k) && net.opening == {} && net.dials == multiset{}
    requires net.owed == multiset{} && net.frames == multiset{}
    ensures Holds(net, j, i) && Holds(net, j, k) && i != k ==> Holds(net, i, k)
  {
  }

  // In every quiescent state of every run the link relation is symmetric, and
  // every dial made by hand is a link.
  lemma LinksAreMutual(world: World, dials: multiset<Outgoing>, steps: seq<Step>, i: Key, k: Key)
    requires StartOk(world, dials) && Runs(Start(world, dials), steps)
    requires Quiescent(After(Start(world, dials), steps))
    ensures var net := After(Start(world, dials), steps);
            (Holds(net, i, k) ==> Holds(net, k, i) && i != k)
            && (Outgoing(i, k, false) in dials && i != k ==> Holds(net, i, k))
  {
    hide Proper, Holds, Begun, Enabled, Quiescent, Start, Runs, StartOk;
    var net := After(Start(world, dials), steps);
    AfterProper(world, dials, steps);
    if Outgoing(i, k, false) in dials {
      AfterBegun(world, dials, steps, i, k);
    }
    QuietNet(net);
    QuietLinks(net, i, k);
  }

  // And two neighbours of a node whose peer list fits in one frame are neighbours.
  lemma MeshCloses(world: World, dials: multiset<Outgoing>, steps: seq<Step>, j: Key, i: Key, k: Key)
    requires StartOk(world, dials) && Runs(Start(world, dials), steps)
    requires Quiescent(After(Start(world, dials), steps))
    requires Fits(After(Start(world, dials), steps), j)
    ensures var net := After(Start(world, dials), steps);
            Holds(net, j, i) && Holds(net, j, k) && i != k ==> Holds(net, i, k)
  {
    hide Proper, Holds, Fits, KeepsPromise, Enabled, Quiescent, Start, Runs, StartOk;
    var net := After(Start(world, dials), steps);
    AfterProper(world, dials, steps);
    AfterPromises(world, dials, steps, j, i, k);
    QuietNet(net);
    QuietPromise(net, j, i, k);
  }

  lemma StartPromises(world: World, dials: multiset<Outgoing>, j: Key, i: Key, k: Key)
    ensures KeepsPromise(Start(world, dials), j, i, k)
    ensures Outgoing(i, k, false) in dials ==> Begun(Start(world, dials), i, k)
  {
  }

  // A walk along dials made by hand, in either direction.
  ghost predicate Walk(dials: multiset<Outgoing>, path: seq<Key>) {
    path != []
    && forall t :: 0 <= t < |path| - 1 ==>
         Outgoing(path[t], path[t + 1], false) in dials || Outgoing(path[t + 1], path[t], false) in dials
  }

  // Every connected component of the bootstrap graph ends up a clique, as far as
  // the peer lists of the nodes in between fit in one frame.
  lemma {:induction false} ComponentsBecomeCliques(world: World, dials: multiset<Outgoing>,
                                                   steps: seq<Step>, path: seq<Key>)
    requires StartOk(world, dials) && Runs(Start(world, dials), steps)
    requires Quiescent(After(Start(world, dials), steps)) && Walk(dials, path)
    requires forall t :: 0 < t < |path| - 1 ==> Fits(After(Start(world, dials), steps), path[t])
    ensures var net := After(Start(world, dials), steps);
            path[0] != path[|path| - 1] ==> Holds(net, path[0], path[|path| - 1])
    decreases |path|
  {
    hide Quiescent, Runs, Holds, Fits;
    var n := |path| - 1;
    if n > 0 {
      var a, b, c := path[0], path[n - 1], path[n];
      var front := path[..n];
      assert Walk(dials, front) by {
        forall t | 0 <= t < n - 1
          ensures Outgoing(front[t], front[t + 1], false) in dials
                  || Outgoing(front[t + 1], front[t], false) in dials
        {
          assert front[t] == path[t] && front[t + 1] == path[t + 1];
        }
      }
      ComponentsBecomeCliques(world, dials, steps, front);
      assert Outgoing(path[n - 1], path[n - 1 + 1], false) in dials
             || Outgoing(path[n - 1 + 1], path[n - 1], false) in dials;
      LinksAreMutual(world, dials, steps, b, c);
      LinksAreMutual(world, dials, steps, c, b);
      LinksAreMutual(world, dials, steps, a, b);
      if n > 1 {
        MeshCloses(world, dials, steps, b, a, c);
      }
    }
  }

  // ------------------------------------------------------------- Nothing beyond that

  // Anything that tells apart nodes no bootstrap dial connects.
  ghost predicate Respects(dials: multiset<Outgoing>, side: Key -> int) {
    forall dial :: dial in dials ==> side(dial.from) == side(dial.to)
  }

  ghost predicate JoinedSameSide(net: Net, side: Key -> int) {
    forall i, j :: Joined(net, i, j) ==> side(i) == side(j)
  }

  ghost predicate ToldSameSide(net: Net, side: Key -> int) {
    forall frame, k :: frame in net.frames && k in KeysOf(frame.infos) ==> side(frame.to) == side(k)
  }

  ghost predicate SameSide(net: Net, side: Key -> int) {
    JoinedSameSide(net, side) && Respects(net.dials, side) && ToldSameSide(net, side)
  }

  lemma StepSameSide(net: Net, step: Step, side: Key -> int)
    requires Proper(net) && Enabled(net, step) && SameSide(net, side)
    ensures SameSide(Apply(net, step), side)
  {
    hide Proper, Apply, Enabled, JoinedSameSide, Respects, ToldSameSide;
    StepJoinedSide(net, step, side);
    StepDialSide(net, step, side);
    StepToldSide(net, step, side);
  }

  lemma StepJoinedSide(net: Net, step: Step, side: Key -> int)
    requires Proper(net) && Enabled(net, step) && SameSide(net, side)
    ensures JoinedSameSide(Apply(net, step), side)
  {
    var next := Apply(net, step);
    hide Proper, Joined, Apply, Enabled, SameSide;
    forall i, j | Joined(next, i, j) ensures side(i) == side(j) {
      JoinedSide(net, step, side, i, j);
    }
  }

  lemma StepDialSide(net: Net, step: Step, side: Key -> int)
    requires Proper(net) && Enabled(net, step) && SameSide(net, side)
    ensures Respects(Apply(net, step).dials, side)
  {
    var next := Apply(net, step);
    hide Proper, Joined, Apply, Enabled, SameSide;
    forall dial | dial in next.dials ensures side(dial.from) == side(dial.to) {
      DialSide(net, step, side, dial);
    }
  }

  lemma StepToldSide(net: Net, step: Step, side: Key -> int)
    requires Proper(net) && Enabled(net, step) && SameSide(net, side)
    ensures ToldSameSide(Apply(net, step), side)
  {
    var next := Apply(net, step);
    hide Proper, Joined, Apply, Enabled, SameSide, KeysOf;
    forall frame, k | frame in next.frames && k in KeysOf(frame.infos)
      ensures side(frame.to) == side(k)
    {
      FrameSide(net, step, side, frame, k);
    }
  }

  lemma JoinedSide(net: Net, step: Step, side: Key -> int, i: Key, j: Key)
    requires Proper(net) && Enabled(net, step) && SameSide(net, side)
    ensures Joined(Apply(net, step), i, j) ==> side(i) == side(j)
  {
    match step
    case Connect(dial) => ConnectJoins(net, dial, i, j); hide Proper, Connected;
    case Admit(at, peer, inbound) => AdmitJoins(net, at, peer, inbound, i, j);
    case _ => QuietJoins(net, step, i, j);
  }

  lemma DialSide(net: Net, step: Step, side: Key -> int, dial: Outgoing)
    requires Proper(net) && Enabled(net, step) && SameSide(net, side)
    ensures dial in Apply(net, step).dials ==> side(dial.from) == side(dial.to)
  {
    hide Proper, Selected, AdmitConnection, Joined;
    if dial !in net.dials && dial in Apply(net, step).dials {
      DeliverDials(net, step.frame, dial);
    }
  }

  lemma FrameSide(net: Net, step: Step, side: Key -> int, frame: Frame, k: Key)
    requires Proper(net) && Enabled(net, step) && SameSide(net, side)
    ensures frame in Apply(net, step).frames && k in KeysOf(frame.infos) ==> side(frame.to) == side(k)
  {
    hide Proper, Selected, AdmitConnection;
    if frame !in net.frames && frame in Apply(net, step).frames && k in KeysOf(frame.infos) {
      WorldOf(net);
      NodeOf(net, step.at);
      assert frame in FramesFrom(step.at, net.cores[step.at].connections.Keys, step.infos);
      assert Holds(net, step.at, frame.to) && Holds(net, step.at, k);
      assert Joined(net, step.at, frame.to) && Joined(net, step.at, k);
    }
  }

  lemma {:induction false} RunSameSide(net: Net, steps: seq<Step>, side: Key -> int)
    requires Proper(net) && Runs(net, steps) && SameSide(net, side)
    ensures SameSide(After(net, steps), side)
    decreases |steps|
  {
    hide Proper, Apply, Enabled, SameSide;
    if steps != [] {
      StepProper(net, steps[0]);
      StepSameSide(net, steps[0], side);
      RunSameSide(Apply(net, steps[0]), steps[1..], side);
    }
  }

  // Gossip never connects nodes from different components: whatever property no
  // bootstrap dial crosses, no link crosses.
  lemma LinksStayInComponents(world: World, dials: multiset<Outgoing>, steps: seq<Step>,
                              side: Key -> int, i: Key, j: Key)
    requires StartOk(world, dials) && Runs(Start(world, dials), steps) && Respects(dials, side)
    requires Holds(After(Start(world, dials), steps), i, j)
    ensures side(i) == side(j)
  {
    StartProper(world, dials);
    StartSameSide(world, dials, side);
    hide Proper, SameSide, Start, Runs, Holds, StartOk;
    RunSameSide(Start(world, dials), steps, side);
    LinkSameSide(After(Start(world, dials), steps), side, i, j);
  }

  // Who is on i's side.
  ghost function Room(world: World, side: Key -> int, i: Key): set<Key> {
    set k | k in world.info && side(k) == side(i)
  }

  lemma RoomFits(world: World, dials: multiset<Outgoing>, steps: seq<Step>, side: Key -> int, i: Key)
    requires StartOk(world, dials) && Runs(Start(world, dials), steps) && Respects(dials, side)
    requires |Room(world, side, i)| <= 65
    ensures Fits(After(Start(world, dials), steps), i)
  {
    hide Proper, Start, Runs, StartOk, Respects;
    var net := After(Start(world, dials), steps);
    AfterProper(world, dials, steps);
    if i in net.cores {
      WorldOf(net);
      NodeOf(net, i);
      forall k | k in net.cores[i].registry ensures k in Room(world, side, i) - {i} {
        LinksStayInComponents(world, dials, steps, side, i, k);
      }
      SubsetSize(net.cores[i].registry.Keys, Room(world, side, i) - {i});
    }
  }

  // So wherever bootstrap dials connect at most 65 nodes, they all end up linked,
  // whatever other rooms there are beside theirs.
  lemma RoomsBecomeCliques(world: World, dials: multiset<Outgoing>, steps: seq<Step>,
                           side: Key -> int, path: seq<Key>)
    requires StartOk(world, dials) && Runs(Start(world, dials), steps) && Respects(dials, side)
    requires Quiescent(After(Start(world, dials), steps)) && Walk(dials, path)
    requires |Room(world, side, path[0])| <= 65
    ensures var net := After(Start(world, dials), steps);
            path[0] != path[|path| - 1] ==> Holds(net, path[0], path[|path| - 1])
  {
    hide Quiescent, Runs, Holds, Fits, StartOk, Start;
    forall t | 0 < t < |path| - 1 ensures Fits(After(Start(world, dials), steps), path[t]) {
      WalkSameSide(dials, side, path, t);
      assert Room(world, side, path[t]) == Room(world, side, path[0]);
      RoomFits(world, dials, steps, side, path[t]);
    }
    ComponentsBecomeCliques(world, dials, steps, path);
  }

  lemma {:induction false} WalkSameSide(dials: multiset<Outgoing>, side: Key -> int, path: seq<Key>, t: nat)
    requires Respects(dials, side) && Walk(dials, path) && t < |path|
    ensures side(path[t]) == side(path[0])
  {
    if t > 0 {
      WalkSameSide(dials, side, path, t - 1);
      assert Outgoing(path[t - 1], path[t - 1 + 1], false) in dials
             || Outgoing(path[t - 1 + 1], path[t - 1], false) in dials;
    }
  }

  lemma StartSameSide(world: World, dials: multiset<Outgoing>, side: Key -> int)
    requires Respects(dials, side)
    ensures SameSide(Start(world, dials), side)
  {
  }

  lemma LinkSameSide(net: Net, side: Key -> int, i: Key, j: Key)
    requires SameSide(net, side) && Holds(net, i, j)
    ensures side(i) == side(j)
  {
    assert Joined(net, i, j);
  }

  // ------------------------------------------------------------------------ Termination

  ghost function Unjoined(net: Net): set<(Key, Key)> {
    set i, j | i in net.world.info && j in net.world.info && i != j && !Joined(net, i, j) :: (i, j)
  }

  datatype Rank = Rank(unjoined: nat, opening: nat, owed: nat, frames: nat, dials: nat)

  ghost function RankOf(net: Net): Rank {
    Rank(|Unjoined(net)|, |net.opening|, |net.owed|, |net.frames|, |net.dials|)
  }

  predicate Below(a: Rank, b: Rank) {
    if a.unjoined != b.unjoined then a.unjoined < b.unjoined
    else if a.opening != b.opening then a.opening < b.opening
    else if a.owed != b.owed then a.owed < b.owed
    else if a.frames != b.frames then a.frames < b.frames
    else a.dials < b.dials
  }

  lemma Smaller<T>(a: set<T>, b: set<T>, x: T)
    requires a <= b && x in b && x !in a
    ensures |a| < |b|
  {
    SubsetSize(a, b - {x});
  }

  lemma {:induction false} SubsetSize<T>(a: set<T>, b: set<T>)
    requires a <= b
    ensures |a| <= |b|
  {
    if a != {} {
      var x :| x in a;
      SubsetSize(a - {x}, b - {x});
    }
  }

  lemma SameUnjoined(net: Net, next: Net)
    requires next.world == net.world
    requires forall i, j :: Joined(next, i, j) <==> Joined(net, i, j)
    ensures Unjoined(next) == Unjoined(net)
  {
  }

  lemma ConnectRanks(net: Net, dial: Outgoing)
    requires Proper(net) && Enabled(net, Connect(dial))
    ensures Below(RankOf(Connected(net, dial)), RankOf(net))
  {
    var next := Connected(net, dial);
    var i, j := dial.from, dial.to;
    DialOf(net, dial);
    if i == j || Joined(net, i, j) {
      PairOf(net, i, j);
      forall a, b ensures Joined(next, a, b) <==> Joined(net, a, b) {
        ConnectJoins(net, dial, a, b);
        PairOf(net, a, b);
      }
      SameUnjoined(net, next);
      assert |next.dials| == |net.dials| - 1;
    } else {
      FreshRanks(net, dial);
    }
  }

  lemma FreshRanks(net: Net, dial: Outgoing)
    requires Proper(net) && Enabled(net, Connect(dial))
    requires dial.from != dial.to && !Joined(net, dial.from, dial.to)
    ensures |Unjoined(Connected(net, dial))| < |Unjoined(net)|
  {
    var next := Connected(net, dial);
    var i, j := dial.from, dial.to;
    ConnectWorld(net, dial);
    DialOf(net, dial);
    forall p | p in Unjoined(next) ensures p in Unjoined(net) {
      ConnectJoins(net, dial, p.0, p.1);
    }
    ConnectJoins(net, dial, i, j);
    assert (i, j) in Unjoined(net) && (i, j) !in Unjoined(next);
    Smaller(Unjoined(next), Unjoined(net), (i, j));
  }

  lemma QuietRanks(net: Net, step: Step)
    requires Proper(net) && Enabled(net, step) && !step.Connect?
    ensures Unjoined(Apply(net, step)) == Unjoined(net)
  {
    StepWorld(net, step);
    var next := Apply(net, step);
    hide Proper, Joined, Apply;
    forall a, b ensures Joined(next, a, b) <==> Joined(net, a, b) {
      match step
      case Admit(at, peer, inbound) => AdmitJoins(net, at, peer, inbound, a, b);
      case _ => QuietJoins(net, step, a, b);
    }
    SameUnjoined(net, next);
  }

  // Every step makes progress on the first thing that is not yet done: pairs to
  // join, ends to admit, announcements, frames, dials.
  lemma StepRanks(net: Net, step: Step)
    requires Proper(net) && Enabled(net, step)
    ensures Below(RankOf(Apply(net, step)), RankOf(net))
  {
    hide Proper, Unjoined, Selected, AdmitConnection, Connected;
    match step
    case Connect(dial) => ConnectRanks(net, dial);
    case Admit(at, peer, inbound) => QuietRanks(net, step);
    case Announce(at, infos) => QuietRanks(net, step);
    case Deliver(frame) => QuietRanks(net, step);
  }

  // No schedule runs for ever: whatever it chooses, at some point the step it
  // chose is not there to be taken.
  lemma EveryRunEnds(net: nat -> Net, choice: nat -> Step) returns (t: nat)
    requires Proper(net(0))
    requires forall t: nat :: Enabled(net(t), choice(t)) ==> net(t + 1) == Apply(net(t), choice(t))
    ensures !Enabled(net(t), choice(t))
  {
    t := EndsFrom(net, choice, 0);
  }

  lemma {:induction false} EndsFrom(net: nat -> Net, choice: nat -> Step, from: nat) returns (t: nat)
    requires Proper(net(from))
    requires forall t: nat :: Enabled(net(t), choice(t)) ==> net(t + 1) == Apply(net(t), choice(t))
    ensures !Enabled(net(t), choice(t))
    decreases RankOf(net(from)).unjoined, RankOf(net(from)).opening, RankOf(net(from)).owed,
              RankOf(net(from)).frames, RankOf(net(from)).dials
  {
    hide Proper, Enabled, Apply, RankOf;
    t := from;
    if Enabled(net(from), choice(from)) {
      StepProper(net(from), choice(from));
      StepRanks(net(from), choice(from));
      t := EndsFrom(net, choice, from + 1);
    }
  }

  // And every run can be completed, so the laws of quiescent states speak of
  // something: from any well-formed state there is a schedule to the end.
  lemma {:induction false} Finish(net: Net) returns (steps: seq<Step>)
    requires Proper(net)
    ensures Runs(net, steps) && Quiescent(After(net, steps))
    decreases RankOf(net).unjoined, RankOf(net).opening, RankOf(net).owed, RankOf(net).frames,
              RankOf(net).dials
  {
    hide Proper, Enabled, Apply, RankOf;
    steps := [];
    if !Quiescent(net) {
      var step :| Enabled(net, step);
      StepProper(net, step);
      StepRanks(net, step);
      var rest := Finish(Apply(net, step));
      steps := [step] + rest;
      assert steps[1..] == rest;
    }
  }

  lemma EveryNetworkSettles(world: World, dials: multiset<Outgoing>, begun: seq<Step>)
      returns (rest: seq<Step>)
    requires StartOk(world, dials) && Runs(Start(world, dials), begun)
    ensures Runs(After(Start(world, dials), begun), rest)
    ensures Quiescent(After(After(Start(world, dials), begun), rest))
  {
    AfterProper(world, dials, begun);
    hide Proper, Quiescent;
    rest := Finish(After(Start(world, dials), begun));
  }
}
