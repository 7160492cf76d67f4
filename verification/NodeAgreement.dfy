// Registry and connection map never disagree, whatever the interleaving, and a
// superseded task can do no harm.
module NodeAgreement {
  import opened Results
  import opened Keys
  import opened Peers
  import opened NodeState
  import opened NodeMachine

  // A task past its admission knows a valid peer that is not ourselves.
  ghost predicate Peered(n: Node) {
    forall c :: 0 <= c < |n.tasks| && Owning(n.tasks[c].phase) ==>
      && n.tasks[c].peer.Some?
      && |n.tasks[c].peer.value.publicKey| == KEY_LEN
      && n.tasks[c].peer.value.publicKey != n.core.me
  }

  // The entry for k is what the handshake of the task owning k's channel
  // recorded, and that task has not disconnected.
  ghost predicate Entry(n: Node, k: Key) {
    && k in n.core.registry && k in n.core.connections
    && var c := n.core.connections[k];
       && c < |n.tasks| && Live(n.tasks[c].phase)
       && n.tasks[c].peer == Some(n.core.registry[k])
       && n.core.registry[k].publicKey == k
  }

  ghost predicate Agreement(n: Node) {
    && Peered(n)
    && n.core.registry.Keys == n.core.connections.Keys
    && n.core.me !in n.core.registry
    && forall k :: k in n.core.registry ==> Entry(n, k)
  }

  // Steps that touch neither map and end no live task.
  ghost predicate Keeps(n: Node, m: Node) {
    && m.core.me == n.core.me && m.core.registry == n.core.registry
    && m.core.connections == n.core.connections
    && |n.tasks| <= |m.tasks|
    && (forall c :: 0 <= c < |n.tasks| ==> KeepsTask(n.tasks[c], m.tasks[c]))
    && (forall c :: |n.tasks| <= c < |m.tasks| ==> m.tasks[c].phase == Handshaking)
  }

  predicate KeepsTask(before: Task, after: Task) {
    && after.peer == before.peer
    && (Live(before.phase) ==> Live(after.phase))
    && (Owning(after.phase) ==> Owning(before.phase))
  }

  lemma KeepsAgreement(n: Node, m: Node)
    requires Agreement(n) && Keeps(n, m)
    ensures Agreement(m)
  {
    forall k | k in m.core.registry ensures Entry(m, k) {
      assert Entry(n, k);
      assert KeepsTask(n.tasks[n.core.connections[k]], m.tasks[n.core.connections[k]]);
    }
    forall c | 0 <= c < |m.tasks| && Owning(m.tasks[c].phase)
      ensures c < |n.tasks| && KeepsTask(n.tasks[c], m.tasks[c]) {
    }
  }

  lemma StepKeeps(n: Node, step: Step)
    requires Enabled(n, step)
    requires !step.Admit? && !step.Stop? && !step.ChannelClosed?
    ensures Keeps(n, Apply(n, step))
  {
    hide Sent, IsSnapshot, IsPeerList, Selected, TaskAdmitted, Stopped;
    match step
    case Send(i, sealed) => SentKeeps(n, i, sealed);
    case _ =>
  }

  lemma SentKeeps(n: Node, i: nat, sealed: bool)
    requires Enabled(n, Send(i, sealed))
    ensures Keeps(n, Sent(n, i, sealed))
  {
  }

  lemma AdmitAgrees(n: Node, t: nat, peer: Peer)
    requires Agreement(n) && Enabled(n, Admit(t, peer))
    ensures Agreement(Apply(n, Admit(t, peer)))
  {
    hide Peered, Entry;
    var m, key := TaskAdmitted(n, t, peer), peer.publicKey;
    AdmitPeered(n, t, peer);
    forall k | k in m.core.registry ensures Entry(m, k) {
      if Decide(n.core.me, n.core.registry.Keys, key, n.tasks[t].inbound).Refuse? {
        RefusedEntry(n, t, peer, k);
      } else {
        AdmitEntry(n, t, peer, k);
      }
    }
  }

  lemma RefusedEntry(n: Node, t: nat, peer: Peer, k: Key)
    requires Entry(n, k) && Enabled(n, Admit(t, peer))
    requires Decide(n.core.me, n.core.registry.Keys, peer.publicKey, n.tasks[t].inbound).Refuse?
    ensures Entry(TaskAdmitted(n, t, peer), k)
  {
  }

  lemma AdmitEntry(n: Node, t: nat, peer: Peer, k: Key)
    requires Agreement(n) && Enabled(n, Admit(t, peer))
    requires !Decide(n.core.me, n.core.registry.Keys, peer.publicKey, n.tasks[t].inbound).Refuse?
    requires k in TaskAdmitted(n, t, peer).core.registry
    ensures Entry(TaskAdmitted(n, t, peer), k)
  {
    hide Peered;
    if k != peer.publicKey {
      assert Entry(n, k);
      assert n.core.connections[k] != t;
    }
  }

  lemma AdmitPeered(n: Node, t: nat, peer: Peer)
    requires Agreement(n) && Enabled(n, Admit(t, peer))
    ensures Peered(TaskAdmitted(n, t, peer))
  {
    var m := TaskAdmitted(n, t, peer);
    forall c | 0 <= c < |m.tasks| && c != t
      ensures m.tasks[c].phase == n.tasks[c].phase && m.tasks[c].peer == n.tasks[c].peer {
    }
  }

  lemma StopAgrees(n: Node, t: nat)
    requires Agreement(n) && Enabled(n, Stop(t))
    ensures Agreement(Apply(n, Stop(t)))
  {
    var m := Stopped(n, t);
    var key := n.tasks[t].peer.value.publicKey;
    forall k | k in m.core.registry ensures Entry(m, k) {
      assert Entry(n, k);
      assert n.core.connections[k] == t ==> k == key;
    }
  }

  lemma StepAgrees(n: Node, step: Step)
    requires Agreement(n) && Enabled(n, step)
    ensures Agreement(Apply(n, step))
  {
    hide Agreement, Keeps;
    match step
    case Admit(t, peer) => AdmitAgrees(n, t, peer);
    case Stop(t) => StopAgrees(n, t);
    case ChannelClosed(t) => StopAgrees(n, t);
    case _ =>
      StepKeeps(n, step);
      KeepsAgreement(n, Apply(n, step));
  }

  // At every lock release of every interleaving of any number of tasks.
  lemma {:induction false} AlwaysAgreement(n: Node, steps: seq<Step>)
    requires Agreement(n) && Runs(n, steps)
    ensures Agreement(After(n, steps))
    decreases |steps|
  {
    if steps != [] {
      StepAgrees(n, steps[0]);
      AlwaysAgreement(Apply(n, steps[0]), steps[1..]);
    }
  }

  lemma RegistryAndConnectionsAgree(rules: TextRules, me: Key, steps: seq<Step>)
    requires Runs(Start(rules, me), steps)
    ensures Agreement(After(Start(rules, me), steps))
  {
    AlwaysAgreement(Start(rules, me), steps);
  }

  // --------------------------------------------------------------- Superseded tasks

  // Past its admission and no longer in the map.
  ghost predicate Lost(n: Node, t: nat) {
    && t < |n.tasks| && n.tasks[t].phase != Handshaking && n.tasks[t].peer.Some?
    && !StillOurs(n.core, n.tasks[t].peer.value.publicKey, t)
  }

  lemma LostForGood(n: Node, step: Step, t: nat)
    requires Agreement(n) && Enabled(n, step) && Lost(n, t)
    ensures Lost(Apply(n, step), t)
    ensures Apply(n, step).tasks[t].peer == n.tasks[t].peer
  {
    hide Lost, Agreement, Keeps;
    match step
    case Admit(u, peer) => LostOnAdmit(n, u, peer, t);
    case Stop(u) => LostOnStop(n, u, t);
    case ChannelClosed(u) => LostOnStop(n, u, t);
    case _ => StepKeeps(n, step); LostKept(n, step, t);
  }

  lemma LostOnAdmit(n: Node, u: nat, peer: Peer, t: nat)
    requires Enabled(n, Admit(u, peer)) && Lost(n, t)
    ensures Lost(TaskAdmitted(n, u, peer), t)
    ensures TaskAdmitted(n, u, peer).tasks[t].peer == n.tasks[t].peer
  {
    assert u != t;
  }

  lemma LostOnStop(n: Node, u: nat, t: nat)
    requires Enabled(n, Stop(u)) && Lost(n, t)
    ensures Lost(Stopped(n, u), t)
    ensures Stopped(n, u).tasks[t].peer == n.tasks[t].peer
  {
  }

  lemma LostKept(n: Node, step: Step, t: nat)
    requires Enabled(n, step) && Lost(n, t)
    requires !step.Admit? && !step.Stop? && !step.ChannelClosed?
    requires Keeps(n, Apply(n, step))
    ensures Lost(Apply(n, step), t)
    ensures Apply(n, step).tasks[t].peer == n.tasks[t].peer
  {
    assert KeepsTask(n.tasks[t], Apply(n, step).tasks[t]);
  }

  // However many times it was superseded and whatever happened since, the
  // disconnect of a task that lost its entry evicts nobody and announces nothing.
  lemma {:induction false} SupersededDisconnectIsHarmless(n: Node, steps: seq<Step>, t: nat)
    requires Agreement(n) && Runs(n, steps) && Lost(n, t)
    ensures var m := After(n, steps);
            Lost(m, t)
            && (Enabled(m, Stop(t)) ==>
                  var left := Apply(m, Stop(t));
                  left.core == m.core && left.changes == m.changes && left.events == m.events
                  && left.tasks[t].phase == Returned)
    decreases |steps|
  {
    if steps != [] {
      StepAgrees(n, steps[0]);
      LostForGood(n, steps[0], t);
      SupersededDisconnectIsHarmless(Apply(n, steps[0]), steps[1..], t);
    }
  }

  // Being superseded is how a task gets lost: the entry now belongs to the newer
  // task, and the older one is still pumping.
  lemma SupersedingLoses(n: Node, t: nat, peer: Peer)
    requires Agreement(n) && Enabled(n, Admit(t, peer))
    requires Decide(n.core.me, n.core.registry.Keys, peer.publicKey, n.tasks[t].inbound) == Supersede
    ensures var loser := n.core.connections[peer.publicKey];
            var m := Apply(n, Admit(t, peer));
            Lost(m, loser) && m.tasks[loser].phase == n.tasks[loser].phase
            && m.core.connections[peer.publicKey] == t && m.core.registry[peer.publicKey] == peer
            && m.events == n.events && m.changes == n.changes
  {
    assert Entry(n, peer.publicKey);
  }
}
