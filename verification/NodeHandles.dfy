// Who keeps a connection's channel open: its own task does, until after `pump`.
// Replacing the map entry therefore never ends the superseded task.
module NodeHandles {
  import opened Counting
  import opened Results
  import opened Keys
  import opened Peers
  import opened NodeState
  import opened NodeMachine
  import opened NodeAgreement
  import opened NodeSends

  // Clones of c's sender held by unfinished send loops.
  function Clones(ops: seq<Op>, c: Chan): nat {
    if ops == [] then 0
    else Clones(ops[..|ops| - 1], c) + CountIf(Pending(ops[|ops| - 1]), ToChan(c))
  }

  ghost predicate InMap(n: Node, c: Chan)
    requires c < |n.tasks|
  {
    n.tasks[c].peer.Some? && StillOurs(n.core, n.tasks[c].peer.value.publicKey, c)
  }

  // The live senders are `mine`, the map's, and the loops' clones.
  ghost predicate Balanced(n: Node, c: Chan)
    requires c < |n.tasks|
  {
    n.tasks[c].handles == One(Owning(n.tasks[c].phase)) + One(InMap(n, c)) + Clones(n.ops, c)
  }

  ghost predicate HandlesBalance(n: Node) {
    forall c :: 0 <= c < |n.tasks| ==> Balanced(n, c)
  }

  lemma ClonesAppend(ops: seq<Op>, op: Op, c: Chan)
    ensures Clones(ops + [op], c) == Clones(ops, c) + CountIf(Pending(op), ToChan(c))
  {
    assert (ops + [op])[..|ops|] == ops;
  }

  lemma {:induction false} ClonesUpdate(ops: seq<Op>, i: nat, op: Op, c: Chan)
    requires i < |ops|
    ensures Clones(ops[i := op], c)
         == Clones(ops, c) - CountIf(Pending(ops[i]), ToChan(c)) + CountIf(Pending(op), ToChan(c))
  {
    var n := |ops| - 1;
    if i < n {
      ClonesUpdate(ops[..n], i, op, c);
      assert ops[i := op][..n] == ops[..n][i := op];
    } else {
      assert ops[i := op][..n] == ops[..n];
    }
  }

  lemma {:induction false} NoClones(tasks: seq<Task>, ops: seq<Op>, c: Chan)
    requires forall i :: 0 <= i < |ops| ==> OpDirected(tasks, ops[i])
    requires c >= |tasks| || tasks[c].peer.None?
    ensures Clones(ops, c) == 0
  {
    hide OpDirected, Pending;
    if ops != [] {
      var n := |ops| - 1;
      NoClones(tasks, ops[..n], c);
      NonePending(tasks, ops[n], c);
    }
  }

  lemma NonePending(tasks: seq<Task>, op: Op, c: Chan)
    requires OpDirected(tasks, op) && (c >= |tasks| || tasks[c].peer.None?)
    ensures CountIf(Pending(op), ToChan(c)) == 0
  {
    var pending := Pending(op);
    forall i | 0 <= i < |pending| ensures pending[i].chan != c {
      assert pending[i] == op.targets[|op.outcomes| + i];
      assert Knows(tasks[pending[i].chan], pending[i].key);
    }
    CountZero(pending, ToChan(c));
  }

  // Steps that leave the loops, the map and the ownership of each channel alone.
  ghost predicate SameSenders(n: Node, m: Node) {
    && m.core.connections == n.core.connections && |m.tasks| >= |n.tasks|
    && |m.ops| == |n.ops|
    && (forall i :: 0 <= i < |n.ops| ==> m.ops[i] == n.ops[i].(echoed := m.ops[i].echoed))
    && (forall c :: 0 <= c < |n.tasks| ==>
          && m.tasks[c].peer == n.tasks[c].peer && m.tasks[c].handles == n.tasks[c].handles
          && Owning(m.tasks[c].phase) == Owning(n.tasks[c].phase))
    && (forall c :: |n.tasks| <= c < |m.tasks| ==>
          m.tasks[c].handles == 0 && m.tasks[c].peer.None? && !Owning(m.tasks[c].phase))
  }

  lemma {:induction false} ClonesEcho(ops: seq<Op>, echoed: seq<Op>, c: Chan)
    requires |ops| == |echoed|
    requires forall i :: 0 <= i < |ops| ==> echoed[i] == ops[i].(echoed := echoed[i].echoed)
    ensures Clones(echoed, c) == Clones(ops, c)
  {
    if ops != [] {
      ClonesEcho(ops[..|ops| - 1], echoed[..|ops| - 1], c);
    }
  }

  lemma SameSendersBalance(n: Node, m: Node)
    requires Directed(n) && HandlesBalance(n) && SameSenders(n, m)
    ensures HandlesBalance(m)
  {
    forall c | 0 <= c < |m.tasks| ensures Balanced(m, c) {
      ClonesEcho(n.ops, m.ops, c);
      if c < |n.tasks| {
        assert Balanced(n, c);
        assert InMap(m, c) == InMap(n, c);
      } else {
        NoClones(n.tasks, n.ops, c);
      }
    }
  }

  ghost predicate MovesSenders(step: Step) {
    step.Admit? || step.AnnounceSnapshot? || step.SaySnapshot? || step.Send?
    || step.Stop? || step.ChannelClosed? || step.EmitLeft?
  }

  lemma StepSameSenders(n: Node, step: Step)
    requires Enabled(n, step) && !MovesSenders(step)
    ensures SameSenders(n, Apply(n, step))
  {
  }

  lemma SnapshotBalance(n: Node, m: Node, op: Op)
    requires HandlesBalance(n) && op.outcomes == []
    requires m.ops == n.ops + [op] && |m.tasks| == |n.tasks|
    requires m.core.connections == n.core.connections
    requires forall c :: 0 <= c < |n.tasks| ==>
               && m.tasks[c].peer == n.tasks[c].peer
               && m.tasks[c].handles == n.tasks[c].handles + CountIf(op.targets, ToChan(c))
               && Owning(m.tasks[c].phase) == Owning(n.tasks[c].phase)
    ensures HandlesBalance(m)
  {
    forall c | 0 <= c < |m.tasks| ensures Balanced(m, c) {
      assert Balanced(n, c);
      assert InMap(m, c) == InMap(n, c);
      ClonesAppend(n.ops, op, c);
      assert Pending(op) == op.targets;
    }
  }

  lemma AnnounceBalance(n: Node, t: nat, targets: seq<Target>, infos: seq<Peer>)
    requires HandlesBalance(n) && Enabled(n, AnnounceSnapshot(t, targets, infos))
    ensures HandlesBalance(Apply(n, AnnounceSnapshot(t, targets, infos)))
  {
    SnapshotBalance(n, Apply(n, AnnounceSnapshot(t, targets, infos)),
                    Op(Announce(infos), targets, [], false));
  }

  lemma SayBalance(n: Node, text: string, targets: seq<Target>)
    requires HandlesBalance(n) && Enabled(n, SaySnapshot(text, targets))
    ensures HandlesBalance(Apply(n, SaySnapshot(text, targets)))
  {
    SnapshotBalance(n, Apply(n, SaySnapshot(text, targets)), Op(Say(text), targets, [], false));
  }

  lemma SentBalance(n: Node, i: nat, sealed: bool)
    requires HandlesBalance(n) && Enabled(n, Send(i, sealed))
    ensures HandlesBalance(Apply(n, Send(i, sealed)))
  {
    var m, op := Sent(n, i, sealed), n.ops[i];
    forall c | 0 <= c < |m.tasks| ensures Balanced(m, c) {
      assert Balanced(n, c);
      assert InMap(m, c) == InMap(n, c);
      ClonesUpdate(n.ops, i, m.ops[i], c);
      var pending := Pending(op);
      CountHead(pending, ToChan(c));
      assert Pending(m.ops[i]) == pending[1..];
    }
  }

  lemma AdmitBalance(n: Node, t: nat, peer: Peer)
    requires Agreement(n) && Directed(n) && HandlesBalance(n) && Enabled(n, Admit(t, peer))
    ensures HandlesBalance(Apply(n, Admit(t, peer)))
  {
    var m := TaskAdmitted(n, t, peer);
    assert TaskDirected(n.tasks[t], |n.ops|);
    NoClones(n.tasks, n.ops, t);
    assert Balanced(n, t);
    forall c | 0 <= c < |m.tasks| ensures Balanced(m, c) {
      assert Balanced(n, c);
      AdmitBalanced(n, t, peer, c);
    }
  }

  // A task still in its handshake owns no entry, and an entry leads to a task
  // that met the entry's key.
  lemma EntryOwner(n: Node, t: nat, key: Key)
    requires Agreement(n) && t < |n.tasks| && n.tasks[t].phase == Handshaking
    ensures !StillOurs(n.core, key, t)
    ensures key in n.core.connections ==>
              n.core.connections[key] < |n.tasks| && Knows(n.tasks[n.core.connections[key]], key)
  {
    if key in n.core.connections {
      assert key in n.core.registry && Entry(n, key);
    }
  }

  lemma AdmitBalanced(n: Node, t: nat, peer: Peer, c: nat)
    requires Agreement(n) && Enabled(n, Admit(t, peer)) && c < |n.tasks|
    requires n.tasks[t].peer.None? && n.tasks[t].handles == 0 && Clones(n.ops, t) == 0
    requires Balanced(n, c)
    ensures Balanced(TaskAdmitted(n, t, peer), c)
  {
    var key := peer.publicKey;
    EntryOwner(n, t, key);
    var keys := n.core.registry.Keys;
    assert keys == n.core.connections.Keys;
    match Decide(n.core.me, keys, key, n.tasks[t].inbound)
    case Refuse(_) =>
    case Join => JoinBalanced(n, t, peer, c);
    case Supersede => SupersedeBalanced(n, t, peer, c);
  }

  lemma JoinBalanced(n: Node, t: nat, peer: Peer, c: nat)
    requires t < |n.tasks| && c < |n.tasks| && peer.publicKey !in n.core.connections
    requires Decide(n.core.me, n.core.registry.Keys, peer.publicKey, n.tasks[t].inbound) == Join
    requires Clones(n.ops, t) == 0 && Balanced(n, c)
    ensures Balanced(TaskAdmitted(n, t, peer), c)
  {
    var m := TaskAdmitted(n, t, peer);
    assert m.core.connections == n.core.connections[peer.publicKey := t];
    assert m.ops == n.ops;
  }

  lemma SupersedeBalanced(n: Node, t: nat, peer: Peer, c: nat)
    requires t < |n.tasks| && c < |n.tasks| && peer.publicKey in n.core.connections
    requires var loser := n.core.connections[peer.publicKey];
             loser < |n.tasks| && loser != t && Knows(n.tasks[loser], peer.publicKey)
    requires Decide(n.core.me, n.core.registry.Keys, peer.publicKey, n.tasks[t].inbound) == Supersede
    requires Clones(n.ops, t) == 0 && Balanced(n, c)
    ensures Balanced(TaskAdmitted(n, t, peer), c)
  {
    var m := TaskAdmitted(n, t, peer);
    assert m.core.connections == n.core.connections[peer.publicKey := t];
    assert m.ops == n.ops;
  }

  lemma StopBalance(n: Node, t: nat)
    requires HandlesBalance(n) && Enabled(n, Stop(t))
    ensures HandlesBalance(Apply(n, Stop(t)))
  {
    var m := Stopped(n, t);
    forall c | 0 <= c < |m.tasks| ensures Balanced(m, c) {
      assert Balanced(n, c);
    }
  }

  lemma LeftBalance(n: Node, t: nat)
    requires HandlesBalance(n) && Enabled(n, EmitLeft(t))
    ensures HandlesBalance(Apply(n, EmitLeft(t)))
  {
    var m := Apply(n, EmitLeft(t));
    forall c | 0 <= c < |m.tasks| ensures Balanced(m, c) {
      assert Balanced(n, c);
      assert InMap(m, c) == InMap(n, c);
    }
  }

  lemma StepBalance(n: Node, step: Step)
    requires Agreement(n) && Directed(n) && HandlesBalance(n) && Enabled(n, step)
    ensures HandlesBalance(Apply(n, step))
  {
    hide Agreement, Directed, HandlesBalance, SameSenders;
    match step
    case Admit(t, peer) => AdmitBalance(n, t, peer);
    case AnnounceSnapshot(t, targets, infos) => AnnounceBalance(n, t, targets, infos);
    case SaySnapshot(text, targets) => SayBalance(n, text, targets);
    case Send(i, sealed) => SentBalance(n, i, sealed);
    case Stop(t) => StopBalance(n, t);
    case ChannelClosed(t) => StopBalance(n, t);
    case EmitLeft(t) => LeftBalance(n, t);
    case _ => StepSameSenders(n, step); SameSendersBalance(n, Apply(n, step));
  }

  lemma {:induction false} AlwaysBalanced(n: Node, steps: seq<Step>)
    requires Agreement(n) && Directed(n) && HandlesBalance(n) && Runs(n, steps)
    ensures HandlesBalance(After(n, steps))
    decreases |steps|
  {
    if steps != [] {
      StepAgrees(n, steps[0]);
      StepDirected(n, steps[0]);
      StepBalance(n, steps[0]);
      AlwaysBalanced(Apply(n, steps[0]), steps[1..]);
    }
  }

  // The exact number of live senders of every channel, in every reachable state.
  lemma HandleAccounting(rules: TextRules, me: Key, steps: seq<Step>, c: nat)
    requires Runs(Start(rules, me), steps)
    requires c < |After(Start(rules, me), steps).tasks|
    ensures var n := After(Start(rules, me), steps);
            n.tasks[c].handles
            == One(Owning(n.tasks[c].phase)) + One(InMap(n, c)) + Clones(n.ops, c)
  {
    AlwaysBalanced(Start(rules, me), steps);
    assert Balanced(After(Start(rules, me), steps), c);
  }

  // So the closed-channel arm of `pump` never fires, superseded or not: a pump
  // loop ends only through its socket.
  lemma ClosedChannelNeverFires(rules: TextRules, me: Key, steps: seq<Step>, t: nat)
    requires Runs(Start(rules, me), steps)
    ensures !Enabled(After(Start(rules, me), steps), ChannelClosed(t))
  {
    if t < |After(Start(rules, me), steps).tasks| {
      HandleAccounting(rules, me, steps, t);
    }
  }
}
