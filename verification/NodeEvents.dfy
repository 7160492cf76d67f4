// Joins and leaves are conserved: the registry's changes strictly alternate for
// each key, and the events emitted outside the lock add up to them.
module NodeEvents {
  import opened Counting
  import opened Results
  import opened Keys
  import opened Peers
  import opened NodeState
  import opened NodeMachine
  import opened NodeAgreement

  function AdmissionOf(k: Key): Change -> bool {
    (change: Change) => change == Admission(k)
  }

  function EvictionOf(k: Key): Change -> bool {
    (change: Change) => change == Eviction(k)
  }

  function JoinedEvent(k: Key): Event -> bool {
    (event: Event) => event.PeerJoined? && event.peer.publicKey == k
  }

  function LeftEvent(k: Key): Event -> bool {
    (event: Event) => event.PeerLeft? && event.peer.publicKey == k
  }

  function Owes(phase: Phase, k: Key): Task -> bool {
    (task: Task) => task.phase == phase && task.peer.Some? && task.peer.value.publicKey == k
  }

  // Admissions of k less evictions of k.
  function Net(changes: seq<Change>, k: Key): int {
    CountIf(changes, AdmissionOf(k)) - CountIf(changes, EvictionOf(k))
  }

  // Admissions and evictions of k take strict turns, an admission first.
  ghost predicate Alternates(changes: seq<Change>, k: Key) {
    forall i :: 0 <= i <= |changes| ==> 0 <= Net(changes[..i], k) <= 1
  }

  ghost predicate LedgerOf(n: Node, k: Key) {
    && Alternates(n.changes, k)
    && Net(n.changes, k) == One(k in n.core.registry)
    && CountIf(n.changes, AdmissionOf(k))
       == CountIf(n.events, JoinedEvent(k)) + CountIf(n.tasks, Owes(Joining, k))
    && CountIf(n.changes, EvictionOf(k))
       == CountIf(n.events, LeftEvent(k)) + CountIf(n.tasks, Owes(Leaving, k))
  }

  lemma NetAppend(changes: seq<Change>, change: Change, k: Key)
    requires Alternates(changes, k)
    requires change == Admission(k) ==> Net(changes, k) == 0
    requires change == Eviction(k) ==> Net(changes, k) == 1
    ensures Alternates(changes + [change], k)
    ensures CountIf(changes + [change], AdmissionOf(k))
         == CountIf(changes, AdmissionOf(k)) + One(change == Admission(k))
    ensures CountIf(changes + [change], EvictionOf(k))
         == CountIf(changes, EvictionOf(k)) + One(change == Eviction(k))
  {
    CountAppend(changes, change, AdmissionOf(k));
    CountAppend(changes, change, EvictionOf(k));
    var longer := changes + [change];
    forall i | 0 <= i <= |longer| ensures 0 <= Net(longer[..i], k) <= 1 {
      if i <= |changes| {
        assert longer[..i] == changes[..i];
      } else {
        assert longer[..i] == longer && changes[..|changes|] == changes;
      }
    }
  }

  // ------------------------------------------------------- Steps that owe nothing new

  ghost predicate SameLedger(n: Node, m: Node) {
    && m.changes == n.changes && m.core.registry == n.core.registry
    && |n.tasks| <= |m.tasks|
    && (forall c :: 0 <= c < |n.tasks| ==>
          && m.tasks[c].peer == n.tasks[c].peer
          && (m.tasks[c].phase == Joining <==> n.tasks[c].phase == Joining)
          && (m.tasks[c].phase == Leaving <==> n.tasks[c].phase == Leaving))
    && (forall c :: |n.tasks| <= c < |m.tasks| ==> m.tasks[c].phase == Handshaking)
    && (m.events == n.events
        || (m.events != [] && m.events[..|m.events| - 1] == n.events && m.events[|m.events| - 1].Echo?))
  }

  lemma SameLedgerOf(n: Node, m: Node, k: Key)
    requires LedgerOf(n, k) && SameLedger(n, m)
    ensures LedgerOf(m, k)
  {
    OwedSame(n.tasks, m.tasks, Joining, k);
    OwedSame(n.tasks, m.tasks, Leaving, k);
    if m.events != n.events {
      var event := m.events[|m.events| - 1];
      assert m.events == n.events + [event];
      CountAppend(n.events, event, JoinedEvent(k));
      CountAppend(n.events, event, LeftEvent(k));
    }
  }

  lemma {:induction false} OwedSame(before: seq<Task>, after: seq<Task>, phase: Phase, k: Key)
    requires phase != Handshaking && |before| <= |after|
    requires forall c :: 0 <= c < |before| ==>
               after[c].peer == before[c].peer && (after[c].phase == phase <==> before[c].phase == phase)
    requires forall c :: |before| <= c < |after| ==> after[c].phase == Handshaking
    ensures CountIf(after, Owes(phase, k)) == CountIf(before, Owes(phase, k))
  {
    var n := |after| - 1;
    if |before| < |after| {
      OwedSame(before, after[..n], phase, k);
    } else if before != [] {
      OwedSame(before[..n], after[..n], phase, k);
    }
  }

  ghost predicate OnLedger(step: Step) {
    step.Admit? || step.EmitJoined? || step.EmitLeft? || step.Stop? || step.ChannelClosed?
  }

  lemma StepSameLedger(n: Node, step: Step)
    requires Enabled(n, step) && !OnLedger(step)
    ensures SameLedger(n, Apply(n, step))
  {
    if step.EmitEcho? {
      assert Apply(n, step).events[..|n.events|] == n.events;
    }
  }

  // ---------------------------------------------------------- Steps on the ledger

  // Only an admission that joins is a change; superseding and refusing are not.
  lemma AdmitLedger(n: Node, t: nat, peer: Peer, k: Key)
    requires Agreement(n) && LedgerOf(n, k) && Enabled(n, Admit(t, peer))
    ensures LedgerOf(Apply(n, Admit(t, peer)), k)
  {
    var key := peer.publicKey;
    match Decide(n.core.me, n.core.registry.Keys, key, n.tasks[t].inbound)
    case Refuse(_) => QuietAdmission(n, t, peer, n.tasks, Returned, k);
    case Join => JoinLedger(n, t, peer, k);
    case Supersede => SupersedeLedger(n, t, peer, k);
  }

  lemma SupersedeLedger(n: Node, t: nat, peer: Peer, k: Key)
    requires Agreement(n) && LedgerOf(n, k) && Enabled(n, Admit(t, peer))
    requires Decide(n.core.me, n.core.registry.Keys, peer.publicKey, n.tasks[t].inbound) == Supersede
    ensures LedgerOf(TaskAdmitted(n, t, peer), k)
  {
    assert Entry(n, peer.publicKey);
    QuietAdmission(n, t, peer, DropHandle(n.tasks, n.core.connections[peer.publicKey]), Pumping, k);
  }

  lemma QuietAdmission(n: Node, t: nat, peer: Peer, tasks: seq<Task>, phase: Phase, k: Key)
    requires LedgerOf(n, k) && InPhase(n, t, Handshaking) && |tasks| == |n.tasks|
    requires phase == Returned || phase == Pumping
    requires forall c :: 0 <= c < |tasks| ==>
               tasks[c].phase == n.tasks[c].phase && tasks[c].peer == n.tasks[c].peer
    requires Enabled(n, Admit(t, peer))
    requires var m := TaskAdmitted(n, t, peer);
             m.changes == n.changes && m.core.registry.Keys == n.core.registry.Keys
             && m.events == n.events && |m.tasks| == |n.tasks| && m.tasks[t].phase == phase
             && forall c :: 0 <= c < |tasks| && c != t ==> m.tasks[c] == tasks[c]
    ensures LedgerOf(TaskAdmitted(n, t, peer), k)
  {
    var m := TaskAdmitted(n, t, peer);
    CountSame(n.tasks, m.tasks, Owes(Joining, k), Owes(Joining, k));
    CountSame(n.tasks, m.tasks, Owes(Leaving, k), Owes(Leaving, k));
  }

  // A change together with the emission its task now owes.
  lemma ChangeLedger(n: Node, m: Node, t: nat, change: Change, k: Key)
    requires LedgerOf(n, k) && t < |n.tasks| == |m.tasks|
    requires m.tasks == n.tasks[t := m.tasks[t]] && m.events == n.events
    requires m.changes == n.changes + [change]
    requires One(Owes(Joining, k)(m.tasks[t])) - One(Owes(Joining, k)(n.tasks[t]))
          == One(change == Admission(k))
    requires One(Owes(Leaving, k)(m.tasks[t])) - One(Owes(Leaving, k)(n.tasks[t]))
          == One(change == Eviction(k))
    requires One(k in m.core.registry)
          == One(k in n.core.registry) + One(change == Admission(k)) - One(change == Eviction(k))
    ensures LedgerOf(m, k)
  {
    NetAppend(n.changes, change, k);
    CountUpdate(n.tasks, t, m.tasks[t], Owes(Joining, k));
    CountUpdate(n.tasks, t, m.tasks[t], Owes(Leaving, k));
  }

  lemma JoinLedger(n: Node, t: nat, peer: Peer, k: Key)
    requires LedgerOf(n, k) && Enabled(n, Admit(t, peer))
    requires Decide(n.core.me, n.core.registry.Keys, peer.publicKey, n.tasks[t].inbound) == Join
    ensures LedgerOf(TaskAdmitted(n, t, peer), k)
  {
    var m := TaskAdmitted(n, t, peer);
    assert m.core.registry == n.core.registry[peer.publicKey := peer];
    ChangeLedger(n, m, t, Admission(peer.publicKey), k);
  }

  lemma StopLedger(n: Node, t: nat, k: Key)
    requires Agreement(n) && LedgerOf(n, k) && Enabled(n, Stop(t))
    ensures LedgerOf(Apply(n, Stop(t)), k)
  {
    var key := n.tasks[t].peer.value.publicKey;
    if StillOurs(n.core, key, t) {
      assert key in n.core.registry;
      EvictionLedger(n, t, key, k);
    } else {
      var m := Stopped(n, t);
      CountUpdate(n.tasks, t, m.tasks[t], Owes(Joining, k));
      CountUpdate(n.tasks, t, m.tasks[t], Owes(Leaving, k));
    }
  }

  lemma EvictionLedger(n: Node, t: nat, key: Key, k: Key)
    requires LedgerOf(n, k) && Enabled(n, Stop(t))
    requires n.tasks[t].peer.value.publicKey == key && StillOurs(n.core, key, t)
    requires key in n.core.registry
    ensures LedgerOf(Stopped(n, t), k)
  {
    ChangeLedger(n, Stopped(n, t), t, Eviction(key), k);
  }

  lemma EmitJoinedLedger(n: Node, t: nat, k: Key)
    requires LedgerOf(n, k) && Enabled(n, EmitJoined(t))
    ensures LedgerOf(Apply(n, EmitJoined(t)), k)
  {
    var m := Apply(n, EmitJoined(t));
    CountUpdate(n.tasks, t, m.tasks[t], Owes(Joining, k));
    CountUpdate(n.tasks, t, m.tasks[t], Owes(Leaving, k));
    CountAppend(n.events, PeerJoined(n.tasks[t].peer.value), JoinedEvent(k));
    CountAppend(n.events, PeerJoined(n.tasks[t].peer.value), LeftEvent(k));
  }

  lemma EmitLeftLedger(n: Node, t: nat, k: Key)
    requires LedgerOf(n, k) && Enabled(n, EmitLeft(t))
    ensures LedgerOf(Apply(n, EmitLeft(t)), k)
  {
    var m := Apply(n, EmitLeft(t));
    assert m.tasks == n.tasks[t := m.tasks[t]];
    CountUpdate(n.tasks, t, m.tasks[t], Owes(Joining, k));
    CountUpdate(n.tasks, t, m.tasks[t], Owes(Leaving, k));
    CountAppend(n.events, PeerLeft(n.tasks[t].peer.value), JoinedEvent(k));
    CountAppend(n.events, PeerLeft(n.tasks[t].peer.value), LeftEvent(k));
  }

  lemma StepLedger(n: Node, step: Step, k: Key)
    requires Agreement(n) && LedgerOf(n, k) && Enabled(n, step)
    ensures LedgerOf(Apply(n, step), k)
  {
    hide Agreement, LedgerOf, SameLedger;
    match step
    case Admit(t, peer) => AdmitLedger(n, t, peer, k);
    case EmitJoined(t) => EmitJoinedLedger(n, t, k);
    case EmitLeft(t) => EmitLeftLedger(n, t, k);
    case Stop(t) => StopLedger(n, t, k);
    case ChannelClosed(t) => StopLedger(n, t, k);
    case _ => StepSameLedger(n, step); SameLedgerOf(n, Apply(n, step), k);
  }

  lemma {:induction false} AlwaysLedger(n: Node, steps: seq<Step>, k: Key)
    requires Agreement(n) && LedgerOf(n, k) && Runs(n, steps)
    ensures LedgerOf(After(n, steps), k)
    decreases |steps|
  {
    if steps != [] {
      StepAgrees(n, steps[0]);
      StepLedger(n, steps[0], k);
      AlwaysLedger(Apply(n, steps[0]), steps[1..], k);
    }
  }

  // For every key and every run: admissions less evictions is one exactly while
  // the key is registered, they take turns, and once nothing is left to emit the
  // events say the same.
  lemma JoinsAndLeavesConserved(rules: TextRules, me: Key, steps: seq<Step>, k: Key)
    requires Runs(Start(rules, me), steps)
    ensures var n := After(Start(rules, me), steps);
            Alternates(n.changes, k) && Net(n.changes, k) == One(k in n.core.registry)
    ensures var n := After(Start(rules, me), steps);
            CountIf(n.tasks, Owes(Joining, k)) == 0 && CountIf(n.tasks, Owes(Leaving, k)) == 0 ==>
              CountIf(n.events, JoinedEvent(k)) - CountIf(n.events, LeftEvent(k))
              == One(k in n.core.registry)
  {
    assert LedgerOf(Start(rules, me), k) by {
      assert Start(rules, me).changes[..0] == [];
    }
    AlwaysLedger(Start(rules, me), steps, k);
  }

  // The event stream itself need not alternate. A second connection supersedes
  // the first before its join is reported, and leaves: PeerLeft comes out first,
  // and the peer that is gone is the one reported last as having joined.
  lemma LeftBeforeJoined(rules: TextRules, me: Key, peer: Peer) returns (steps: seq<Step>)
    requires |peer.publicKey| == KEY_LEN && peer.publicKey != me
    ensures Runs(Start(rules, me), steps)
    ensures After(Start(rules, me), steps).events == [PeerLeft(peer), PeerJoined(peer)]
    ensures peer.publicKey !in After(Start(rules, me), steps).core.registry
  {
    var rest := AfterSuperseding(rules, me, peer);
    steps := UpToSuperseding(rules, me, peer, rest);
    var n, inbound := Start(rules, me), Less(peer.publicKey, me);
    var one := n.(tasks := [NewTask(inbound, None)]);
    assert one.tasks + [NewTask(inbound, None)] == [NewTask(inbound, None), NewTask(inbound, None)];
    assert n.tasks + [NewTask(inbound, None)] == one.tasks;
    Extend(one, Open(inbound), steps);
    Extend(n, Open(inbound), [Open(inbound)] + steps);
    steps := [Open(inbound)] + ([Open(inbound)] + steps);
  }

  // Two connections the smaller key dialled; the second has just replaced the first.
  function Superseded(rules: TextRules, me: Key, peer: Peer): Node {
    Node(rules, Core(me, map[peer.publicKey := peer], map[peer.publicKey := 1], {}),
         [Task(Less(peer.publicKey, me), None, Joining, Some(peer), 1, [], 0),
          Task(Less(peer.publicKey, me), None, Pumping, Some(peer), 2, [], 0)],
         [], [], [], [Admission(peer.publicKey)])
  }

  lemma UpToSuperseding(rules: TextRules, me: Key, peer: Peer, rest: seq<Step>)
      returns (steps: seq<Step>)
    requires |peer.publicKey| == KEY_LEN && peer.publicKey != me
    requires Runs(Superseded(rules, me, peer), rest)
    ensures var inbound := Less(peer.publicKey, me);
            var n := Start(rules, me).(tasks := [NewTask(inbound, None), NewTask(inbound, None)]);
            Runs(n, steps) && After(n, steps) == After(Superseded(rules, me, peer), rest)
  {
    LessTotal(me, peer.publicKey);
    var k, inbound := peer.publicKey, Less(peer.publicKey, me);
    var n2 := Start(rules, me).(tasks := [NewTask(inbound, None), NewTask(inbound, None)]);
    var n3 := Node(rules, Core(me, map[k := peer], map[k := 0], {}),
                   [Task(inbound, None, Joining, Some(peer), 2, [], 0), NewTask(inbound, None)],
                   [], [], [], [Admission(k)]);
    assert Apply(n2, Admit(0, peer)) == n3;
    assert Apply(n3, Admit(1, peer)) == Superseded(rules, me, peer);
    Extend(n3, Admit(1, peer), rest);
    Extend(n2, Admit(0, peer), [Admit(1, peer)] + rest);
    steps := [Admit(0, peer)] + ([Admit(1, peer)] + rest);
  }

  lemma AfterSuperseding(rules: TextRules, me: Key, peer: Peer) returns (steps: seq<Step>)
    ensures var n := Superseded(rules, me, peer);
            Runs(n, steps) && After(n, steps).events == [PeerLeft(peer), PeerJoined(peer)]
            && peer.publicKey !in After(n, steps).core.registry
  {
    var n5 := Apply(Superseded(rules, me, peer), Stop(1));
    assert n5.tasks == [Task(Less(peer.publicKey, me), None, Joining, Some(peer), 1, [], 0),
                        Task(Less(peer.publicKey, me), None, Leaving, Some(peer), 1, [], 0)];
    steps := AfterLeaving(n5, peer);
    Extend(Superseded(rules, me, peer), Stop(1), steps);
    steps := [Stop(1)] + steps;
  }

  lemma AfterLeaving(n: Node, peer: Peer) returns (steps: seq<Step>)
    requires n.events == [] && peer.publicKey !in n.core.registry && |n.tasks| == 2
    requires n.tasks[0].phase == Joining && n.tasks[0].peer == Some(peer)
    requires n.tasks[1].phase == Leaving && n.tasks[1].peer == Some(peer)
    ensures Runs(n, steps) && After(n, steps).events == [PeerLeft(peer), PeerJoined(peer)]
    ensures peer.publicKey !in After(n, steps).core.registry
  {
    var left := Apply(n, EmitLeft(1));
    assert left.tasks[0] == n.tasks[0];
    Extend(left, EmitJoined(0), []);
    Extend(n, EmitLeft(1), [EmitJoined(0)] + []);
    steps := [EmitLeft(1)] + ([EmitJoined(0)] + []);
  }

  lemma Extend(n: Node, step: Step, rest: seq<Step>)
    requires Enabled(n, step) && Runs(Apply(n, step), rest)
    ensures Runs(n, [step] + rest) && After(n, [step] + rest) == After(Apply(n, step), rest)
  {
    assert ([step] + rest)[1..] == rest;
  }
}
