// No misdirected ciphertext: a Chat frame is only ever queued for the peer it was
// sealed for, and each `say` tries each peer it found registered exactly once.
module NodeSends {
  import opened Counting
  import opened Results
  import opened Keys
  import opened Peers
  import opened NodeState
  import opened NodeMachine
  import opened NodeAgreement

  ghost predicate Knows(task: Task, key: Key) {
    task.peer.Some? && task.peer.value.publicKey == key
  }

  // Every target still leads to the peer whose key it was taken for.
  ghost predicate OpDirected(tasks: seq<Task>, op: Op) {
    && |op.outcomes| <= |op.targets|
    && (forall i, j :: 0 <= i < j < |op.targets| ==> op.targets[i].key != op.targets[j].key)
    && (forall i :: 0 <= i < |op.targets| ==>
          op.targets[i].chan < |tasks| && Knows(tasks[op.targets[i].chan], op.targets[i].key))
  }

  ghost predicate TaskDirected(task: Task, ops: nat) {
    && (task.phase.Handshaking? ==> task.peer.None?)
    && (forall f :: 0 <= f < |task.queued| ==>
          task.queued[f].op < ops
          && (task.queued[f].Chat? ==> Knows(task, task.queued[f].sealedFor)))
  }

  ghost predicate Directed(n: Node) {
    && (forall i :: 0 <= i < |n.ops| ==> OpDirected(n.tasks, n.ops[i]))
    && (forall c :: 0 <= c < |n.tasks| ==> TaskDirected(n.tasks[c], |n.ops|))
  }

  // Tasks keep the peer they met and, but for one, their queues.
  ghost predicate Stable(before: seq<Task>, after: seq<Task>) {
    && |before| <= |after|
    && (forall c :: 0 <= c < |before| && before[c].peer.Some? ==> after[c].peer == before[c].peer)
  }

  lemma StableDirected(before: seq<Task>, after: seq<Task>, op: Op)
    requires Stable(before, after) && OpDirected(before, op)
    ensures OpDirected(after, op)
  {
  }

  // Steps that queue nothing and start no loop.
  ghost predicate Quiet(n: Node, m: Node) {
    && Stable(n.tasks, m.tasks) && |m.ops| == |n.ops|
    && (forall i :: 0 <= i < |n.ops| ==>
          m.ops[i] == n.ops[i].(echoed := m.ops[i].echoed))
    && (forall c :: 0 <= c < |n.tasks| ==>
          m.tasks[c].queued == n.tasks[c].queued
          && (m.tasks[c].phase.Handshaking? ==>
                n.tasks[c].phase.Handshaking? && m.tasks[c].peer == n.tasks[c].peer))
    && (forall c :: |n.tasks| <= c < |m.tasks| ==>
          m.tasks[c].peer.None? && m.tasks[c].queued == [])
  }

  lemma QuietDirected(n: Node, m: Node)
    requires Directed(n) && Quiet(n, m)
    ensures Directed(m)
  {
    forall i | 0 <= i < |m.ops| ensures OpDirected(m.tasks, m.ops[i]) {
      StableDirected(n.tasks, m.tasks, n.ops[i]);
    }
    forall c | 0 <= c < |m.tasks| ensures TaskDirected(m.tasks[c], |m.ops|) {
      if c < |n.tasks| {
        assert TaskDirected(n.tasks[c], |n.ops|);
      }
    }
  }

  lemma StepQuiet(n: Node, step: Step)
    requires Directed(n) && Enabled(n, step)
    requires !step.AnnounceSnapshot? && !step.SaySnapshot? && !step.Send? && !step.Admit?
    ensures Quiet(n, Apply(n, step))
  {
    hide Directed, IsSnapshot, IsPeerList, Selected, TaskAdmitted, Sent, Retire;
    match step
    case FailHandshake(t) => HandshakingUnmet(n, t);
    case _ =>
  }

  lemma HandshakingUnmet(n: Node, t: nat)
    requires Directed(n) && InPhase(n, t, Handshaking)
    ensures n.tasks[t].peer.None?
  {
    assert TaskDirected(n.tasks[t], |n.ops|);
  }

  lemma AdmitQuiet(n: Node, t: nat, peer: Peer)
    requires Directed(n) && Enabled(n, Admit(t, peer))
    ensures Quiet(n, TaskAdmitted(n, t, peer))
  {
    assert TaskDirected(n.tasks[t], |n.ops|);
  }

  // A loop begins with a snapshot whose channels all lead to the keys named.
  lemma SnapshotDirected(n: Node, m: Node, op: Op, keys: set<Key>)
    requires Agreement(n) && Directed(n)
    requires IsSnapshot(n.core.connections, keys, op.targets) && op.outcomes == []
    requires m.ops == n.ops + [op] && |m.tasks| == |n.tasks|
    requires forall c :: 0 <= c < |n.tasks| ==>
               m.tasks[c] == n.tasks[c].(handles := m.tasks[c].handles, phase := m.tasks[c].phase)
               && (m.tasks[c].phase.Handshaking? ==> n.tasks[c].phase.Handshaking?)
    ensures Directed(m)
  {
    forall i | 0 <= i < |op.targets|
      ensures op.targets[i].chan < |n.tasks| && Knows(n.tasks[op.targets[i].chan], op.targets[i].key)
    {
      assert Entry(n, op.targets[i].key);
    }
    forall i | 0 <= i < |m.ops| ensures OpDirected(m.tasks, m.ops[i]) {
      if i < |n.ops| {
        StableDirected(n.tasks, m.tasks, n.ops[i]);
      }
    }
    forall c | 0 <= c < |m.tasks| ensures TaskDirected(m.tasks[c], |m.ops|) {
      assert TaskDirected(n.tasks[c], |n.ops|);
    }
  }

  lemma SentDirected(n: Node, i: nat, sealed: bool)
    requires Directed(n) && Enabled(n, Send(i, sealed))
    ensures Directed(Apply(n, Send(i, sealed)))
  {
    var m := Sent(n, i, sealed);
    var op := n.ops[i];
    assert OpDirected(n.tasks, op);
    forall j | 0 <= j < |m.ops| ensures OpDirected(m.tasks, m.ops[j]) {
      StableDirected(n.tasks, m.tasks, n.ops[j]);
    }
    forall c | 0 <= c < |m.tasks| ensures TaskDirected(m.tasks[c], |m.ops|) {
      assert TaskDirected(n.tasks[c], |n.ops|);
    }
  }

  lemma StepDirected(n: Node, step: Step)
    requires Agreement(n) && Directed(n) && Enabled(n, step)
    ensures Directed(Apply(n, step))
  {
    hide Agreement, Directed, Quiet;
    match step
    case AnnounceSnapshot(t, targets, infos) => AnnounceDirected(n, t, targets, infos);
    case SaySnapshot(text, targets) => SayDirected(n, text, targets);
    case Send(i, sealed) => SentDirected(n, i, sealed);
    case Admit(t, peer) => AdmitQuiet(n, t, peer); QuietDirected(n, Apply(n, step));
    case _ => StepQuiet(n, step); QuietDirected(n, Apply(n, step));
  }

  lemma AnnounceDirected(n: Node, t: nat, targets: seq<Target>, infos: seq<Peer>)
    requires Agreement(n) && Directed(n) && Enabled(n, AnnounceSnapshot(t, targets, infos))
    ensures Directed(Apply(n, AnnounceSnapshot(t, targets, infos)))
  {
    hide Agreement, Directed, IsPeerList;
    SnapshotDirected(n, Apply(n, AnnounceSnapshot(t, targets, infos)),
                     Op(Announce(infos), targets, [], false), n.core.connections.Keys);
  }

  lemma SayDirected(n: Node, text: string, targets: seq<Target>)
    requires Agreement(n) && Directed(n) && Enabled(n, SaySnapshot(text, targets))
    ensures Directed(Apply(n, SaySnapshot(text, targets)))
  {
    hide Agreement, Directed;
    SnapshotDirected(n, Apply(n, SaySnapshot(text, targets)),
                     Op(Say(text), targets, [], false), n.core.registry.Keys);
  }

  lemma {:induction false} AlwaysDirected(n: Node, steps: seq<Step>)
    requires Agreement(n) && Directed(n) && Runs(n, steps)
    ensures Agreement(After(n, steps)) && Directed(After(n, steps))
    decreases |steps|
  {
    if steps != [] {
      StepAgrees(n, steps[0]);
      StepDirected(n, steps[0]);
      AlwaysDirected(Apply(n, steps[0]), steps[1..]);
    }
  }

  // In every reachable state, every Chat frame ever queued on a channel was
  // sealed for the key that channel's own handshake established.
  lemma NoMisdirectedCiphertext(rules: TextRules, me: Key, steps: seq<Step>, c: nat, f: nat)
    requires Runs(Start(rules, me), steps)
    requires var n := After(Start(rules, me), steps);
             c < |n.tasks| && f < |n.tasks[c].queued| && n.tasks[c].queued[f].Chat?
    ensures var task := After(Start(rules, me), steps).tasks[c];
            task.peer.Some? && task.peer.value.publicKey == task.queued[f].sealedFor
  {
    AlwaysDirected(Start(rules, me), steps);
    assert TaskDirected(After(Start(rules, me), steps).tasks[c], |After(Start(rules, me), steps).ops|);
  }

  // ---------------------------------------------------- One attempt for each target

  // `say` snapshots every registered peer: none is missing, none extra.
  lemma SayCoversTheRegistry(n: Node, text: string, targets: seq<Target>)
    requires Agreement(n) && Enabled(n, SaySnapshot(text, targets))
    ensures forall k :: k in n.core.registry <==>
              exists i :: 0 <= i < |targets| && targets[i].key == k
  {
    forall k | k in n.core.registry ensures k in n.core.connections {
      assert Entry(n, k);
    }
  }

  function FromOp(i: nat): Frame -> bool {
    (frame: Frame) => frame.op == i
  }

  // How many of the first j attempts of a call were queued on channel c.
  function QueuedOn(op: Op, c: Chan, j: nat): nat
    requires j <= |op.outcomes| <= |op.targets|
  {
    if j == 0 then 0
    else QueuedOn(op, c, j - 1) + One(op.targets[j - 1].chan == c && op.outcomes[j - 1] == Queued)
  }

  // The frames of each call on each channel are its queued attempts.
  ghost predicate Accounted(n: Node) {
    forall i, c :: 0 <= i < |n.ops| && 0 <= c < |n.tasks|
                   && |n.ops[i].outcomes| <= |n.ops[i].targets| ==>
      CountIf(n.tasks[c].queued, FromOp(i)) == QueuedOn(n.ops[i], c, |n.ops[i].outcomes|)
  }

  lemma QueuedOnEcho(op: Op, c: Chan, j: nat, echoed: bool)
    requires j <= |op.outcomes| <= |op.targets|
    ensures QueuedOn(op.(echoed := echoed), c, j) == QueuedOn(op, c, j)
  {
  }

  lemma {:induction false} QueuedOnAppend(op: Op, outcome: Outcome, c: Chan, j: nat)
    requires j <= |op.outcomes| < |op.targets|
    ensures QueuedOn(op.(outcomes := op.outcomes + [outcome]), c, j) == QueuedOn(op, c, j)
  {
    if j > 0 {
      QueuedOnAppend(op, outcome, c, j - 1);
    }
  }

  lemma {:induction false} QueuedOnNowhere(op: Op, c: Chan, j: nat)
    requires j <= |op.outcomes| <= |op.targets|
    requires forall i :: 0 <= i < j ==> op.targets[i].chan != c
    ensures QueuedOn(op, c, j) == 0
  {
    if j > 0 {
      QueuedOnNowhere(op, c, j - 1);
    }
  }

  // A target's channel is its own: other targets have other keys, hence peers.
  lemma {:induction false} QueuedOnOwn(tasks: seq<Task>, op: Op, i: nat, j: nat)
    requires OpDirected(tasks, op) && i < j <= |op.outcomes|
    ensures QueuedOn(op, op.targets[i].chan, j) == One(op.outcomes[i] == Queued)
  {
    if i < j - 1 {
      QueuedOnOwn(tasks, op, i, j - 1);
      assert Knows(tasks[op.targets[i].chan], op.targets[i].key);
      assert Knows(tasks[op.targets[j - 1].chan], op.targets[j - 1].key);
      assert op.targets[j - 1].chan != op.targets[i].chan;
    } else {
      forall k | 0 <= k < i ensures op.targets[k].chan != op.targets[i].chan {
        assert Knows(tasks[op.targets[k].chan], op.targets[k].key);
        assert Knows(tasks[op.targets[i].chan], op.targets[i].key);
      }
      QueuedOnNowhere(op, op.targets[i].chan, i);
    }
  }

  lemma QuietAccounted(n: Node, m: Node)
    requires Directed(n) && Quiet(n, m) && Accounted(n)
    ensures Accounted(m)
  {
    forall i, c | 0 <= i < |m.ops| && 0 <= c < |m.tasks|
      ensures |m.ops[i].outcomes| <= |m.ops[i].targets|
           && CountIf(m.tasks[c].queued, FromOp(i)) == QueuedOn(m.ops[i], c, |m.ops[i].outcomes|)
    {
      assert OpDirected(n.tasks, n.ops[i]);
      QueuedOnEcho(n.ops[i], c, |n.ops[i].outcomes|, m.ops[i].echoed);
      if c >= |n.tasks| {
        QueuedOnNowhere(m.ops[i], c, |m.ops[i].outcomes|);
      }
    }
  }

  lemma SnapshotAccounted(n: Node, m: Node, op: Op)
    requires Directed(n) && Accounted(n)
    requires op.outcomes == [] && m.ops == n.ops + [op] && |m.tasks| == |n.tasks|
    requires forall c :: 0 <= c < |n.tasks| ==> m.tasks[c].queued == n.tasks[c].queued
    ensures Accounted(m)
  {
    forall i, c | 0 <= i < |m.ops| && 0 <= c < |m.tasks|
      ensures |m.ops[i].outcomes| <= |m.ops[i].targets| ==>
                CountIf(m.tasks[c].queued, FromOp(i)) == QueuedOn(m.ops[i], c, |m.ops[i].outcomes|)
    {
      if i == |n.ops| {
        assert TaskDirected(n.tasks[c], |n.ops|);
        CountZero(m.tasks[c].queued, FromOp(i));
      }
    }
  }

  lemma SentAccounted(n: Node, i: nat, sealed: bool)
    requires Directed(n) && Accounted(n) && Enabled(n, Send(i, sealed))
    ensures Accounted(Apply(n, Send(i, sealed)))
  {
    var m := Sent(n, i, sealed);
    forall j, c | 0 <= j < |m.ops| && 0 <= c < |m.tasks|
                  && |m.ops[j].outcomes| <= |m.ops[j].targets|
      ensures CountIf(m.tasks[c].queued, FromOp(j)) == QueuedOn(m.ops[j], c, |m.ops[j].outcomes|)
    {
      SentCounts(n, i, sealed, j, c);
    }
  }

  lemma SentCounts(n: Node, i: nat, sealed: bool, j: nat, c: nat)
    requires Directed(n) && Accounted(n) && Enabled(n, Send(i, sealed))
    requires j < |n.ops| && c < |n.tasks|
    ensures var m := Sent(n, i, sealed);
            |m.ops[j].outcomes| <= |m.ops[j].targets|
            && CountIf(m.tasks[c].queued, FromOp(j)) == QueuedOn(m.ops[j], c, |m.ops[j].outcomes|)
  {
    hide Directed;
    DirectedOp(n, j);
    if j == i {
      SentOwnCount(n, i, sealed, c);
    } else {
      SentOtherCount(n, i, sealed, j, c);
    }
  }

  lemma DirectedOp(n: Node, j: nat)
    requires Directed(n) && j < |n.ops|
    ensures OpDirected(n.tasks, n.ops[j])
  {
  }

  lemma SentOtherCount(n: Node, i: nat, sealed: bool, j: nat, c: nat)
    requires Enabled(n, Send(i, sealed)) && j < |n.ops| && c < |n.tasks| && j != i
    ensures Sent(n, i, sealed).ops[j] == n.ops[j]
    ensures CountIf(Sent(n, i, sealed).tasks[c].queued, FromOp(j)) == CountIf(n.tasks[c].queued, FromOp(j))
  {
    var op := n.ops[i];
    var target := op.targets[|op.outcomes|];
    CountAppend(n.tasks[target.chan].queued, FrameFor(i, op, target.key), FromOp(j));
  }

  lemma SentOwnCount(n: Node, i: nat, sealed: bool, c: nat)
    requires Accounted(n) && Enabled(n, Send(i, sealed)) && c < |n.tasks|
    ensures var op := Sent(n, i, sealed).ops[i];
            |op.outcomes| <= |op.targets|
            && CountIf(Sent(n, i, sealed).tasks[c].queued, FromOp(i)) == QueuedOn(op, c, |op.outcomes|)
  {
    hide Sent, Accounted, SendOutcome, CountIf;
    var op := n.ops[i];
    var k := |op.outcomes|;
    var outcome := SendOutcome(op, sealed, n.tasks[op.targets[k].chan]);
    SentOwn(n, i, sealed, c);
    hide Enabled, FrameFor;
    assert FromOp(i)(FrameFor(i, op, op.targets[k].key)) by {
      SaysFrame(i, op, op.targets[k].key);
    }
    CountAppend(n.tasks[c].queued, FrameFor(i, op, op.targets[k].key), FromOp(i));
    assert CountIf(n.tasks[c].queued, FromOp(i)) == QueuedOn(op, c, k) by {
      AccountedOf(n, i, c);
    }
    assert n.tasks[c].queued + [] == n.tasks[c].queued;
    QueuedOnAppend(op, outcome, c, k);
    var after := op.(outcomes := op.outcomes + [outcome]);
    assert QueuedOn(after, c, k + 1)
           == QueuedOn(after, c, k) + One(op.targets[k].chan == c && outcome == Queued);
  }

  lemma SaysFrame(i: nat, op: Op, key: Key)
    ensures FromOp(i)(FrameFor(i, op, key))
  {
  }

  lemma AccountedOf(n: Node, i: nat, c: nat)
    requires Accounted(n) && i < |n.ops| && c < |n.tasks|
    requires |n.ops[i].outcomes| <= |n.ops[i].targets|
    ensures CountIf(n.tasks[c].queued, FromOp(i)) == QueuedOn(n.ops[i], c, |n.ops[i].outcomes|)
  {
  }

  // What one attempt does to the call and to each queue.
  lemma SentOwn(n: Node, i: nat, sealed: bool, c: nat)
    requires Enabled(n, Send(i, sealed)) && c < |n.tasks|
    ensures var op := n.ops[i];
            var target := op.targets[|op.outcomes|];
            var outcome := SendOutcome(op, sealed, n.tasks[target.chan]);
            Sent(n, i, sealed).ops[i] == op.(outcomes := op.outcomes + [outcome])
            && Sent(n, i, sealed).tasks[c].queued
               == n.tasks[c].queued
                  + if target.chan == c && outcome == Queued then [FrameFor(i, op, target.key)] else []
  {
  }

  lemma StepAccounted(n: Node, step: Step)
    requires Agreement(n) && Directed(n) && Accounted(n) && Enabled(n, step)
    ensures Accounted(Apply(n, step))
  {
    hide Agreement, Directed, Quiet, Accounted;
    match step
    case AnnounceSnapshot(t, targets, infos) =>
      SnapshotAccounted(n, Apply(n, step), Op(Announce(infos), targets, [], false));
    case SaySnapshot(text, targets) =>
      SnapshotAccounted(n, Apply(n, step), Op(Say(text), targets, [], false));
    case Send(i, sealed) => SentAccounted(n, i, sealed);
    case Admit(t, peer) => AdmitQuiet(n, t, peer); QuietAccounted(n, Apply(n, step));
    case _ => StepQuiet(n, step); QuietAccounted(n, Apply(n, step));
  }

  lemma {:induction false} AlwaysAccounted(n: Node, steps: seq<Step>)
    requires Agreement(n) && Directed(n) && Accounted(n) && Runs(n, steps)
    ensures Directed(After(n, steps)) && Accounted(After(n, steps))
    decreases |steps|
  {
    if steps != [] {
      StepAgrees(n, steps[0]);
      StepDirected(n, steps[0]);
      StepAccounted(n, steps[0]);
      AlwaysAccounted(Apply(n, steps[0]), steps[1..]);
    }
  }

  // A call that got past target j tried it once: one frame on that peer's channel
  // if the attempt was queued, none if it was dropped or could not be sealed.
  lemma OneAttemptPerPeer(rules: TextRules, me: Key, steps: seq<Step>, i: nat, j: nat)
    requires Runs(Start(rules, me), steps)
    requires var n := After(Start(rules, me), steps);
             i < |n.ops| && j < |n.ops[i].outcomes|
    ensures var n := After(Start(rules, me), steps);
            var op := n.ops[i];
            j < |op.targets| && op.targets[j].chan < |n.tasks|
            && CountIf(n.tasks[op.targets[j].chan].queued, FromOp(i)) == One(op.outcomes[j] == Queued)
  {
    AlwaysAccounted(Start(rules, me), steps);
    var n := After(Start(rules, me), steps);
    assert OpDirected(n.tasks, n.ops[i]);
    QueuedOnOwn(n.tasks, n.ops[i], j, |n.ops[i].outcomes|);
  }

  // And no channel outside the snapshot ever carries a frame of the call.
  lemma NobodyElseIsSentTo(rules: TextRules, me: Key, steps: seq<Step>, i: nat, c: nat)
    requires Runs(Start(rules, me), steps)
    requires var n := After(Start(rules, me), steps);
             i < |n.ops| && c < |n.tasks|
             && forall j :: 0 <= j < |n.ops[i].targets| ==> n.ops[i].targets[j].chan != c
    ensures CountIf(After(Start(rules, me), steps).tasks[c].queued, FromOp(i)) == 0
  {
    AlwaysAccounted(Start(rules, me), steps);
    var n := After(Start(rules, me), steps);
    assert OpDirected(n.tasks, n.ops[i]);
    QueuedOnNowhere(n.ops[i], c, |n.ops[i].outcomes|);
  }

  // ------------------------------------------------------- From the snapshot to the end

  lemma StepOp(n: Node, step: Step, i: nat)
    requires Enabled(n, step) && i < |n.ops|
    ensures i < |Apply(n, step).ops|
    ensures Apply(n, step).ops[i].targets == n.ops[i].targets
    ensures Apply(n, step).ops[i].kind == n.ops[i].kind
  {
    hide IsSnapshot, IsPeerList, Selected, AdmitConnection, Retire;
  }

  lemma {:induction false} OpStays(n: Node, steps: seq<Step>, i: nat)
    requires Runs(n, steps) && i < |n.ops|
    ensures i < |After(n, steps).ops|
    ensures After(n, steps).ops[i].targets == n.ops[i].targets
    ensures After(n, steps).ops[i].kind == n.ops[i].kind
    decreases |steps|
  {
    hide Apply, Enabled;
    if steps != [] {
      StepOp(n, steps[0], i);
      OpStays(Apply(n, steps[0]), steps[1..], i);
    }
  }

  // Attempt j of call i went to the peer with key k: its channel has one frame of
  // the call if the attempt was queued, and none otherwise.
  ghost predicate Attempted(n: Node, i: nat, j: nat, k: Key) {
    && i < |n.ops| && j < |n.ops[i].outcomes| <= |n.ops[i].targets|
    && var target := n.ops[i].targets[j];
       target.key == k && target.chan < |n.tasks| && Knows(n.tasks[target.chan], k)
       && CountIf(n.tasks[target.chan].queued, FromOp(i)) == One(n.ops[i].outcomes[j] == Queued)
  }

  ghost predicate TriedOnceEach(n: Node, i: nat, keys: set<Key>) {
    && (forall k :: k in keys <==> exists j :: Attempted(n, i, j, k))
    && (forall j, l, k :: Attempted(n, i, j, k) && Attempted(n, i, l, k) ==> j == l)
  }

  // In every run, a `say` that has come to its end has tried exactly the peers that
  // were registered when it took its snapshot, each of them once.
  lemma SayTriesExactlyTheRegistered(rules: TextRules, me: Key, before: seq<Step>, text: string,
                                     targets: seq<Target>, rest: seq<Step>)
    requires Runs(Start(rules, me), before)
    requires Enabled(After(Start(rules, me), before), SaySnapshot(text, targets))
    requires Runs(Apply(After(Start(rules, me), before), SaySnapshot(text, targets)), rest)
    ensures var n := After(Start(rules, me), before);
            var m := After(Apply(n, SaySnapshot(text, targets)), rest);
            var i := |n.ops|;
            i < |m.ops| && m.ops[i].kind == Say(text) && m.ops[i].targets == targets
            && (!Unfinished(m.ops[i]) ==> TriedOnceEach(m, i, n.core.registry.Keys))
  {
    var n := After(Start(rules, me), before);
    hide Agreement, Directed, Accounted, Start, Runs, TriedOnceEach;
    ReachableSound(rules, me, before);
    SayCoversTheRegistry(n, text, targets);
    LoopThen(n, SaySnapshot(text, targets), Op(Say(text), targets, [], false),
             n.core.registry.Keys, rest);
  }

  // So has an announcement the connections of its snapshot, with the registry's
  // entries as they were then, each once.
  lemma AnnouncementTriesExactlyTheConnected(rules: TextRules, me: Key, before: seq<Step>, t: nat,
                                             targets: seq<Target>, infos: seq<Peer>, rest: seq<Step>)
    requires Runs(Start(rules, me), before)
    requires Enabled(After(Start(rules, me), before), AnnounceSnapshot(t, targets, infos))
    requires Runs(Apply(After(Start(rules, me), before), AnnounceSnapshot(t, targets, infos)), rest)
    ensures var n := After(Start(rules, me), before);
            var m := After(Apply(n, AnnounceSnapshot(t, targets, infos)), rest);
            var i := |n.ops|;
            i < |m.ops| && m.ops[i].kind == Announce(infos) && m.ops[i].targets == targets
            && (!Unfinished(m.ops[i]) ==> TriedOnceEach(m, i, n.core.connections.Keys))
            && DistinctKeys(infos) && KeysOf(infos) == n.core.registry.Keys
            && (forall j :: 0 <= j < |infos| ==>
                  infos[j].publicKey in n.core.registry
                  && infos[j] == n.core.registry[infos[j].publicKey])
  {
    var n := After(Start(rules, me), before);
    hide Agreement, Directed, Accounted, Start, Runs, TriedOnceEach, Enabled, Apply;
    ReachableSound(rules, me, before);
    AnnouncementBegins(n, t, targets, infos);
    LoopThen(n, AnnounceSnapshot(t, targets, infos), Op(Announce(infos), targets, [], false),
             n.core.connections.Keys, rest);
  }

  lemma AnnouncementBegins(n: Node, t: nat, targets: seq<Target>, infos: seq<Peer>)
    requires Enabled(n, AnnounceSnapshot(t, targets, infos))
    ensures Apply(n, AnnounceSnapshot(t, targets, infos)).ops
         == n.ops + [Op(Announce(infos), targets, [], false)]
    ensures forall k :: k in n.core.connections.Keys <==>
              exists j :: 0 <= j < |targets| && targets[j].key == k
    ensures DistinctKeys(infos) && KeysOf(infos) == n.core.registry.Keys
    ensures forall j :: 0 <= j < |infos| ==>
              infos[j].publicKey in n.core.registry
              && infos[j] == n.core.registry[infos[j].publicKey]
  {
  }

  lemma ReachableSound(rules: TextRules, me: Key, steps: seq<Step>)
    requires Runs(Start(rules, me), steps)
    ensures var n := After(Start(rules, me), steps); Agreement(n) && Directed(n) && Accounted(n)
  {
    StartSound(rules, me);
    hide Agreement, Directed, Accounted, Start, Runs;
    AlwaysAccounted(Start(rules, me), steps);
    AlwaysAgreement(Start(rules, me), steps);
  }

  lemma StartSound(rules: TextRules, me: Key)
    ensures var n := Start(rules, me); Agreement(n) && Directed(n) && Accounted(n)
  {
  }

  lemma LoopThen(n: Node, step: Step, op: Op, keys: set<Key>, rest: seq<Step>)
    requires Agreement(n) && Directed(n) && Accounted(n) && Enabled(n, step)
    requires Apply(n, step).ops == n.ops + [op] && op.outcomes == []
    requires forall k :: k in keys <==> exists j :: 0 <= j < |op.targets| && op.targets[j].key == k
    requires Runs(Apply(n, step), rest)
    ensures var m := After(Apply(n, step), rest);
            var i := |n.ops|;
            i < |m.ops| && m.ops[i].kind == op.kind && m.ops[i].targets == op.targets
            && (!Unfinished(m.ops[i]) ==> TriedOnceEach(m, i, keys))
  {
    hide Agreement, Directed, Accounted, Runs, Enabled, TriedOnceEach, Apply;
    var s, i := Apply(n, step), |n.ops|;
    assert s.ops[i] == op;
    StepAgrees(n, step);
    StepDirected(n, step);
    StepAccounted(n, step);
    AlwaysAccounted(s, rest);
    OpStays(s, rest, i);
    if !Unfinished(After(s, rest).ops[i]) {
      FinishedAttempts(After(s, rest), i, keys);
    }
  }

  lemma FinishedAttempts(n: Node, i: nat, keys: set<Key>)
    requires Directed(n) && Accounted(n) && i < |n.ops|
    requires !Unfinished(n.ops[i])
    requires forall k :: k in keys <==>
               exists j :: 0 <= j < |n.ops[i].targets| && n.ops[i].targets[j].key == k
    ensures TriedOnceEach(n, i, keys)
  {
    hide Directed, Accounted, Attempted;
    DirectedOp(n, i);
    forall j, l, k | Attempted(n, i, j, k) && Attempted(n, i, l, k) ensures j == l {
      AttemptedKey(n, i, j, k);
      AttemptedKey(n, i, l, k);
    }
    forall k ensures k in keys <==> exists j :: Attempted(n, i, j, k) {
      if k in keys {
        var j :| 0 <= j < |n.ops[i].targets| && n.ops[i].targets[j].key == k;
        AttemptCounted(n, i, j);
      }
      if j :| Attempted(n, i, j, k) {
        AttemptedKey(n, i, j, k);
      }
    }
  }

  lemma AttemptCounted(n: Node, i: nat, j: nat)
    requires Accounted(n) && i < |n.ops| && OpDirected(n.tasks, n.ops[i])
    requires j < |n.ops[i].outcomes|
    ensures Attempted(n, i, j, n.ops[i].targets[j].key)
  {
    QueuedOnOwn(n.tasks, n.ops[i], j, |n.ops[i].outcomes|);
  }

  lemma AttemptedKey(n: Node, i: nat, j: nat, k: Key)
    requires Attempted(n, i, j, k)
    ensures j < |n.ops[i].targets| && n.ops[i].targets[j].key == k
  {
  }

  // ----------------------------------------------------------------- Bounded queues

  predicate QueueOk(task: Task) {
    task.taken <= |task.queued| <= task.taken + SEND_QUEUE_DEPTH
  }

  ghost predicate QueuesOk(n: Node) {
    forall c :: 0 <= c < |n.tasks| ==> QueueOk(n.tasks[c])
  }

  lemma StepQueues(n: Node, step: Step)
    requires QueuesOk(n) && Enabled(n, step)
    ensures QueuesOk(Apply(n, step))
  {
    hide QueueOk, Apply, Enabled;
    forall c | 0 <= c < |Apply(n, step).tasks| ensures QueueOk(Apply(n, step).tasks[c]) {
      StepQueue(n, step, c);
    }
  }

  lemma StepQueue(n: Node, step: Step, c: nat)
    requires QueuesOk(n) && Enabled(n, step) && c < |Apply(n, step).tasks|
    ensures QueueOk(Apply(n, step).tasks[c])
  {
    hide IsSnapshot, IsPeerList, Selected, AdmitConnection, Retire;
    assert c < |n.tasks| ==> QueueOk(n.tasks[c]);
  }

  lemma {:induction false} AlwaysQueues(n: Node, steps: seq<Step>)
    requires QueuesOk(n) && Runs(n, steps)
    ensures QueuesOk(After(n, steps))
    decreases |steps|
  {
    hide QueuesOk, Apply, Enabled;
    if steps != [] {
      StepQueues(n, steps[0]);
      AlwaysQueues(Apply(n, steps[0]), steps[1..]);
    }
  }

  // A peer that stops reading costs at most 64 frames of memory.
  lemma QueuesAreBounded(rules: TextRules, me: Key, steps: seq<Step>, c: nat)
    requires Runs(Start(rules, me), steps) && c < |After(Start(rules, me), steps).tasks|
    ensures var task := After(Start(rules, me), steps).tasks[c];
            task.taken <= |task.queued| <= task.taken + SEND_QUEUE_DEPTH
  {
    AlwaysQueues(Start(rules, me), steps);
    assert QueueOk(After(Start(rules, me), steps).tasks[c]);
  }
}
