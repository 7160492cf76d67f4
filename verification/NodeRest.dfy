// Nothing is left behind: from every state a node can finish whatever it has
// begun, and when it has, no peer, sender or dial mark is left over.
module NodeRest {
  import opened Counting
  import opened Results
  import opened Keys
  import opened Peers
  import opened NodeState
  import opened NodeMachine
  import opened NodeAgreement
  import opened NodeSends
  import opened NodeIntroductions
  import NodeHandles
  import NodeEvents
  import NodeDials

  predicate Finished(op: Op) {
    |op.outcomes| >= |op.targets| && (op.kind.Say? ==> op.echoed)
  }

  // Every connection has ended, every call is complete, every dial is cleared.
  ghost predicate AtRest(n: Node) {
    && (forall t :: 0 <= t < |n.tasks| ==> n.tasks[t].phase == Returned)
    && (forall i :: 0 <= i < |n.ops| ==> Finished(n.ops[i]))
    && (forall a :: 0 <= a < |n.attempts| ==> n.attempts[a].phase == Ended)
  }

  // ----------------------------------------------------------------- What is at hand

  ghost predicate ServingKnown(n: Node) {
    forall a :: 0 <= a < |n.attempts| && n.attempts[a].phase.Serving? ==>
      n.attempts[a].phase.task < |n.tasks|
  }

  ghost predicate Sound(n: Node) {
    Agreement(n) && Directed(n) && TasksOk(n) && ServingKnown(n)
  }

  lemma StepServing(n: Node, step: Step)
    requires Enabled(n, step) && ServingKnown(n)
    ensures ServingKnown(Apply(n, step))
  {
    hide IsSnapshot, IsPeerList, Selected, AdmitConnection, Retire;
  }

  lemma StepSound(n: Node, step: Step)
    requires Sound(n) && Enabled(n, step)
    ensures Sound(Apply(n, step))
  {
    hide Agreement, Directed, TasksOk, ServingKnown, Apply, Enabled;
    StepAgrees(n, step);
    StepDirected(n, step);
    StepTasks(n, step);
    StepServing(n, step);
  }

  lemma {:induction false} RunSound(n: Node, steps: seq<Step>)
    requires Sound(n) && Runs(n, steps)
    ensures Sound(After(n, steps))
    decreases |steps|
  {
    hide Sound, Apply, Enabled;
    if steps != [] {
      StepSound(n, steps[0]);
      RunSound(Apply(n, steps[0]), steps[1..]);
    }
  }

  lemma StartAtRest(rules: TextRules, me: Key)
    ensures Sound(Start(rules, me)) && AtRest(Start(rules, me))
  {
  }

  // --------------------------------------------------------------- What is to be done

  function PhaseWork(phase: Phase): nat {
    match phase
    case Handshaking => 1
    case Joining => 6
    case Introducing => 5
    case Announcing(_) => 4
    case Pumping => 3
    case Leaving => 2
    case Returned => 0
  }

  function TasksWork(tasks: seq<Task>): nat {
    if tasks == [] then 0
    else TasksWork(tasks[..|tasks| - 1]) + PhaseWork(tasks[|tasks| - 1].phase)
  }

  function OpWork(op: Op): nat {
    (if |op.outcomes| < |op.targets| then |op.targets| - |op.outcomes| else 0)
    + One(op.kind.Say? && !op.echoed)
  }

  function OpsWork(ops: seq<Op>): nat {
    if ops == [] then 0 else OpsWork(ops[..|ops| - 1]) + OpWork(ops[|ops| - 1])
  }

  function Undone(): Attempt -> bool {
    (attempt: Attempt) => attempt.phase != Ended
  }

  lemma {:induction false} TasksWorkUpdate(before: seq<Task>, after: seq<Task>, t: nat)
    requires t < |before| == |after|
    requires forall c :: 0 <= c < |before| && c != t ==> after[c].phase == before[c].phase
    ensures TasksWork(after) + PhaseWork(before[t].phase)
         == TasksWork(before) + PhaseWork(after[t].phase)
  {
    var n := |before| - 1;
    if t < n {
      TasksWorkUpdate(before[..n], after[..n], t);
    } else {
      SamePhases(before[..n], after[..n]);
    }
  }

  lemma {:induction false} SamePhases(before: seq<Task>, after: seq<Task>)
    requires |before| == |after|
    requires forall c :: 0 <= c < |before| ==> after[c].phase == before[c].phase
    ensures TasksWork(after) == TasksWork(before)
  {
    if before != [] {
      SamePhases(before[..|before| - 1], after[..|after| - 1]);
    }
  }

  lemma {:induction false} OpsWorkUpdate(ops: seq<Op>, i: nat, op: Op)
    requires i < |ops|
    ensures OpsWork(ops[i := op]) + OpWork(ops[i]) == OpsWork(ops) + OpWork(op)
  {
    var n := |ops| - 1;
    if i < n {
      OpsWorkUpdate(ops[..n], i, op);
      assert ops[i := op][..n] == ops[..n][i := op];
    } else {
      assert ops[i := op][..n] == ops[..n];
    }
  }

  ghost predicate Nearer(m: Node, n: Node) {
    || TasksWork(m.tasks) < TasksWork(n.tasks)
    || (TasksWork(m.tasks) == TasksWork(n.tasks) && OpsWork(m.ops) < OpsWork(n.ops))
    || (TasksWork(m.tasks) == TasksWork(n.tasks) && OpsWork(m.ops) == OpsWork(n.ops)
        && CountIf(m.attempts, Undone()) < CountIf(n.attempts, Undone()))
  }

  // ------------------------------------------------------------------ There is a step

  // A task that has not returned can always go on, or its send loop can.
  lemma TaskAdvances(n: Node, t: nat) returns (step: Step)
    requires Sound(n) && t < |n.tasks| && n.tasks[t].phase != Returned
    ensures Enabled(n, step) && Nearer(Apply(n, step), n)
  {
    var task := n.tasks[t];
    assert TaskOk(n, t);
    match task.phase {
      case Handshaking => step := FailHandshake(t);
      case Joining => step := EmitJoined(t);
      case Introducing =>
        step := Introduction(n, t);
      case Announcing(op) =>
        if Unfinished(n.ops[op]) {
          step := LoopAdvances(n, op);
          return;
        }
        step := FinishAnnounce(t);
      case Pumping => step := Stop(t);
      case Leaving => step := EmitLeft(t);
      case Returned =>
    }
    TaskStep(n, step, t);
  }

  // The steps of a task itself bring it nearer to its end.
  ghost predicate OwnStep(step: Step, t: nat) {
    || step == FailHandshake(t) || step == EmitJoined(t) || step == FinishAnnounce(t)
    || step == Stop(t) || step == EmitLeft(t) || (step.AnnounceSnapshot? && step.task == t)
  }

  lemma TaskStep(n: Node, step: Step, t: nat)
    requires Enabled(n, step) && OwnStep(step, t) && t < |n.tasks|
    ensures Nearer(Apply(n, step), n)
  {
    TaskStepPhases(n, step, t);
    hide Apply, Enabled;
    TasksWorkUpdate(n.tasks, Apply(n, step).tasks, t);
  }

  lemma TaskStepPhases(n: Node, step: Step, t: nat)
    requires Enabled(n, step) && OwnStep(step, t) && t < |n.tasks|
    ensures |Apply(n, step).tasks| == |n.tasks|
    ensures forall c :: 0 <= c < |n.tasks| && c != t ==>
              Apply(n, step).tasks[c].phase == n.tasks[c].phase
    ensures PhaseWork(Apply(n, step).tasks[t].phase) < PhaseWork(n.tasks[t].phase)
  {
    hide IsSnapshot, IsPeerList, Retire;
  }

  lemma LoopAdvances(n: Node, i: nat) returns (step: Step)
    requires Directed(n) && i < |n.ops| && Unfinished(n.ops[i])
    ensures Enabled(n, step) && Nearer(Apply(n, step), n)
  {
    step := Send(i, false);
    DirectedOp(n, i);
    assert Knows(n.tasks[n.ops[i].targets[|n.ops[i].outcomes|].chan],
                 n.ops[i].targets[|n.ops[i].outcomes|].key);
    hide Directed;
    var m := Apply(n, step);
    SamePhases(n.tasks, m.tasks);
    OpsWorkUpdate(n.ops, i, m.ops[i]);
  }

  lemma EchoAdvances(n: Node, i: nat) returns (step: Step)
    requires i < |n.ops| && !Unfinished(n.ops[i]) && n.ops[i].kind.Say? && !n.ops[i].echoed
    ensures Enabled(n, step) && Nearer(Apply(n, step), n)
  {
    step := EmitEcho(i);
    OpsWorkUpdate(n.ops, i, n.ops[i].(echoed := true));
  }

  lemma DialAdvances(n: Node, a: nat) returns (step: Step)
    requires ServingKnown(n) && a < |n.attempts| && n.attempts[a].phase != Ended
    requires forall t :: 0 <= t < |n.tasks| ==> n.tasks[t].phase == Returned
    ensures Enabled(n, step) && Nearer(Apply(n, step), n)
  {
    step := EndDial(a);
    CountUpdate(n.attempts, a, n.attempts[a].(phase := Ended), Undone());
  }

  // A task that owes an announcement can take its snapshot: there is some order in
  // which to list its peers.
  lemma Introduction(n: Node, t: nat) returns (step: Step)
    requires Agreement(n) && InPhase(n, t, Introducing)
    ensures step.AnnounceSnapshot? && step.task == t && Enabled(n, step)
  {
    var infos := SomeList(n, n.core.registry.Keys);
    var targets := SomeTargets(n.core.connections, n.core.connections.Keys);
    step := AnnounceSnapshot(t, targets, infos);
  }

  lemma {:induction false} SomeList(n: Node, keys: set<Key>) returns (infos: seq<Peer>)
    requires Agreement(n) && keys <= n.core.registry.Keys
    ensures Lists(n.core.registry, keys, infos)
  {
    infos := [];
    if keys != {} {
      var k :| k in keys;
      var rest := SomeList(n, keys - {k});
      assert Keyed(n.core.registry) by {
        forall j | j in n.core.registry ensures n.core.registry[j].publicKey == j {
          assert Entry(n, j);
        }
      }
      hide Agreement;
      ListGrows(n.core.registry, keys - {k}, rest, k);
      assert keys - {k} + {k} == keys;
      infos := rest + [n.core.registry[k]];
    }
  }

  lemma {:induction false} SomeTargets(connections: map<Key, Chan>, keys: set<Key>)
      returns (targets: seq<Target>)
    requires keys <= connections.Keys
    ensures IsSnapshot(connections, keys, targets)
  {
    targets := [];
    if keys != {} {
      var k :| k in keys;
      var rest := SomeTargets(connections, keys - {k});
      targets := rest + [Target(k, connections[k])];
      SnapshotGrows(connections, keys - {k}, rest, k, targets);
      assert keys - {k} + {k} == keys;
    }
  }

  lemma Advances(n: Node) returns (step: Step)
    requires Sound(n) && !AtRest(n)
    ensures Enabled(n, step) && Nearer(Apply(n, step), n)
  {
    hide Agreement, Directed, TasksOk, Enabled, Nearer;
    if t :| 0 <= t < |n.tasks| && n.tasks[t].phase != Returned {
      step := TaskAdvances(n, t);
    } else if i :| 0 <= i < |n.ops| && !Finished(n.ops[i]) {
      if Unfinished(n.ops[i]) {
        step := LoopAdvances(n, i);
      } else {
        step := EchoAdvances(n, i);
      }
    } else {
      var a :| 0 <= a < |n.attempts| && n.attempts[a].phase != Ended;
      step := DialAdvances(n, a);
    }
  }

  lemma {:induction false} ComesToRest(n: Node) returns (steps: seq<Step>)
    requires Sound(n)
    ensures Runs(n, steps) && AtRest(After(n, steps))
    decreases TasksWork(n.tasks), OpsWork(n.ops), CountIf(n.attempts, Undone())
  {
    hide Sound, Enabled, Apply, AtRest;
    steps := [];
    if !AtRest(n) {
      var step := Advances(n);
      StepSound(n, step);
      var rest := ComesToRest(Apply(n, step));
      steps := [step] + rest;
      assert steps[1..] == rest;
    }
  }

  // From every reachable state, whatever it has begun, a node can finish it all.
  lemma EverythingCanEnd(rules: TextRules, me: Key, steps: seq<Step>) returns (rest: seq<Step>)
    requires Runs(Start(rules, me), steps)
    ensures Runs(After(Start(rules, me), steps), rest)
    ensures AtRest(After(After(Start(rules, me), steps), rest))
  {
    StartAtRest(rules, me);
    hide Sound, AtRest, Start, Runs;
    RunSound(Start(rules, me), steps);
    rest := ComesToRest(After(Start(rules, me), steps));
  }

  // ------------------------------------------------------------------- What is left

  lemma {:induction false} NoClonesLeft(ops: seq<Op>, c: Chan)
    requires forall i :: 0 <= i < |ops| ==> Finished(ops[i])
    ensures NodeHandles.Clones(ops, c) == 0
  {
    if ops != [] {
      NoClonesLeft(ops[..|ops| - 1], c);
    }
  }

  lemma NobodyLeft(n: Node)
    requires Agreement(n) && AtRest(n)
    ensures n.core.registry == map[] && n.core.connections == map[]
  {
    assert forall k :: k in n.core.registry ==> Entry(n, k);
  }

  lemma NoMarkLeft(n: Node, k: Key)
    requires NodeDials.DialsOf(n, k) && AtRest(n)
    ensures k !in n.core.dialing
  {
    if k in n.core.dialing {
      var a := CountWitness(n.attempts, NodeDials.Outstanding(k));
    }
  }

  // And whenever it has, nothing is left: nobody is registered or connected, no key
  // is marked as being dialled, no channel has a sender, and every join reported
  // has been followed by a leave.
  lemma AtRestNothingIsLeft(rules: TextRules, me: Key, steps: seq<Step>, c: nat, k: Key)
    requires Runs(Start(rules, me), steps) && AtRest(After(Start(rules, me), steps))
    ensures var n := After(Start(rules, me), steps);
            n.core == Core(me, map[], map[], {})
            && (c < |n.tasks| ==> n.tasks[c].handles == 0)
            && CountIf(n.events, NodeEvents.JoinedEvent(k)) == CountIf(n.events, NodeEvents.LeftEvent(k))
  {
    var n := After(Start(rules, me), steps);
    hide Start, Runs, Agreement, Directed, Accounted, AtRest;
    ReachableSound(rules, me, steps);
    NobodyLeft(n);
    forall j ensures j !in n.core.dialing {
      MarkGone(rules, me, steps, j);
    }
    SelfKept(rules, me, steps);
    if c < |n.tasks| {
      SendersGone(rules, me, steps, c);
    }
    ReportsGone(rules, me, steps, k);
  }

  lemma MarkGone(rules: TextRules, me: Key, steps: seq<Step>, k: Key)
    requires Runs(Start(rules, me), steps) && AtRest(After(Start(rules, me), steps))
    ensures k !in After(Start(rules, me), steps).core.dialing
  {
    NodeDials.AlwaysDials(Start(rules, me), steps, k);
    NoMarkLeft(After(Start(rules, me), steps), k);
  }

  lemma SendersGone(rules: TextRules, me: Key, steps: seq<Step>, c: nat)
    requires Runs(Start(rules, me), steps) && AtRest(After(Start(rules, me), steps))
    requires c < |After(Start(rules, me), steps).tasks|
    requires After(Start(rules, me), steps).core.connections == map[]
    ensures After(Start(rules, me), steps).tasks[c].handles == 0
  {
    hide Start, Runs;
    NodeHandles.HandleAccounting(rules, me, steps, c);
    NoClonesLeft(After(Start(rules, me), steps).ops, c);
  }

  lemma ReportsGone(rules: TextRules, me: Key, steps: seq<Step>, k: Key)
    requires Runs(Start(rules, me), steps) && AtRest(After(Start(rules, me), steps))
    requires k !in After(Start(rules, me), steps).core.registry
    ensures var events := After(Start(rules, me), steps).events;
            CountIf(events, NodeEvents.JoinedEvent(k)) == CountIf(events, NodeEvents.LeftEvent(k))
  {
    var n := After(Start(rules, me), steps);
    NodeEvents.JoinsAndLeavesConserved(rules, me, steps, k);
    hide Start, Runs;
    CountZero(n.tasks, NodeEvents.Owes(Joining, k));
    CountZero(n.tasks, NodeEvents.Owes(Leaving, k));
  }

  lemma {:induction false} MeStays(n: Node, steps: seq<Step>)
    requires Runs(n, steps)
    ensures After(n, steps).core.me == n.core.me
    decreases |steps|
  {
    if steps != [] {
      StepMe(n, steps[0]);
      MeStays(Apply(n, steps[0]), steps[1..]);
    }
  }

  lemma StepMe(n: Node, step: Step)
    requires Enabled(n, step)
    ensures Apply(n, step).core.me == n.core.me
  {
    hide IsSnapshot, IsPeerList, Selected;
  }

  lemma SelfKept(rules: TextRules, me: Key, steps: seq<Step>)
    requires Runs(Start(rules, me), steps)
    ensures After(Start(rules, me), steps).core.me == me
  {
    MeStays(Start(rules, me), steps);
  }

  // ------------------------------------------------------------------ What can happen

  lemma ReachableRest(rules: TextRules, me: Key, steps: seq<Step>)
    requires Runs(Start(rules, me), steps)
    ensures Sound(After(Start(rules, me), steps))
  {
    StartAtRest(rules, me);
    hide Sound, Start, Runs;
    RunSound(Start(rules, me), steps);
  }

  // In every reachable state, a task can do what its phase calls for, and only that:
  // complete its handshake with any peer whose key has 32 bytes, or fail; report;
  // announce; handle any frame and any gossip, and end.
  lemma WhatATaskCanDo(rules: TextRules, me: Key, steps: seq<Step>, t: nat, peer: Peer, infos: seq<Peer>)
    requires Runs(Start(rules, me), steps) && t < |After(Start(rules, me), steps).tasks|
    ensures var n := After(Start(rules, me), steps);
            var phase := n.tasks[t].phase;
            && (Enabled(n, FailHandshake(t)) <==> phase == Handshaking)
            && (Enabled(n, Admit(t, peer)) <==> phase == Handshaking && |peer.publicKey| == 32)
            && (Enabled(n, EmitJoined(t)) <==> phase == Joining)
            && ((exists targets, list :: Enabled(n, AnnounceSnapshot(t, targets, list))) <==>
                  phase == Introducing)
            && (Enabled(n, FinishAnnounce(t)) <==>
                  phase.Announcing? && phase.op < |n.ops|
                  && |n.ops[phase.op].outcomes| >= |n.ops[phase.op].targets|)
            && (Enabled(n, TakeFrame(t)) <==> phase == Pumping && n.tasks[t].taken < |n.tasks[t].queued|)
            && (Enabled(n, Gossip(t, infos)) <==> phase == Pumping)
            && (Enabled(n, Stop(t)) <==> phase == Pumping)
            && (Enabled(n, EmitLeft(t)) <==> phase == Leaving)
  {
    hide Start, Runs, Sound;
    ReachableRest(rules, me, steps);
    var n := After(Start(rules, me), steps);
    HandshakeCanEnd(n, t, peer);
    PhaseCanEnd(n, t);
    if n.tasks[t].phase == Introducing {
      AnnouncementCanBegin(n, t);
    }
  }

  lemma HandshakeCanEnd(n: Node, t: nat, peer: Peer)
    requires Sound(n) && t < |n.tasks|
    ensures Enabled(n, Admit(t, peer)) <==>
              n.tasks[t].phase == Handshaking && |peer.publicKey| == 32
  {
    if peer.publicKey in n.core.connections {
      assert peer.publicKey in n.core.registry;
      assert Entry(n, peer.publicKey);
    }
  }

  lemma PhaseCanEnd(n: Node, t: nat)
    requires Sound(n) && t < |n.tasks|
    ensures Owning(n.tasks[t].phase) ==> n.tasks[t].peer.Some?
  {
  }

  lemma AnnouncementCanBegin(n: Node, t: nat)
    requires Sound(n) && InPhase(n, t, Introducing)
    ensures exists targets, list :: Enabled(n, AnnounceSnapshot(t, targets, list))
  {
    var step := Introduction(n, t);
    assert Enabled(n, AnnounceSnapshot(t, step.targets, step.infos));
  }

  // Connections come in and are dialled at any time; a send loop can always make
  // its next attempt, sealed (the key it has seals) or not; something can be said
  // whenever somebody is registered; and a dial connects, or ends with its task.
  lemma WhatANodeCanDo(rules: TextRules, me: Key, steps: seq<Step>, inbound: bool, i: nat,
                       sealed: bool, text: string, a: nat)
    requires Runs(Start(rules, me), steps)
    ensures var n := After(Start(rules, me), steps);
            && Enabled(n, Open(inbound))
            && (Enabled(n, Send(i, sealed)) <==> i < |n.ops| && |n.ops[i].outcomes| < |n.ops[i].targets|)
            && (Enabled(n, EmitEcho(i)) <==>
                  i < |n.ops| && n.ops[i].kind.Say? && |n.ops[i].outcomes| >= |n.ops[i].targets|
                  && !n.ops[i].echoed)
            && ((exists targets :: Enabled(n, SaySnapshot(text, targets))) <==>
                  n.core.registry != map[])
            && (Enabled(n, GossipConnect(a)) <==> a < |n.attempts| && n.attempts[a].phase == Connecting)
            && (Enabled(n, EndDial(a)) <==>
                  a < |n.attempts|
                  && (n.attempts[a].phase == Connecting
                      || (n.attempts[a].phase.Serving?
                          && n.attempts[a].phase.task < |n.tasks|
                          && n.tasks[n.attempts[a].phase.task].phase == Returned)))
  {
    hide Start, Runs, Sound;
    ReachableRest(rules, me, steps);
    var n := After(Start(rules, me), steps);
    if i < |n.ops| && |n.ops[i].outcomes| < |n.ops[i].targets| {
      LoopCanSend(n, i, sealed);
    }
    SayCanBegin(n, text);
  }

  lemma LoopCanSend(n: Node, i: nat, sealed: bool)
    requires Sound(n) && i < |n.ops| && |n.ops[i].outcomes| < |n.ops[i].targets|
    ensures Enabled(n, Send(i, sealed))
  {
    var target := n.ops[i].targets[|n.ops[i].outcomes|];
    DirectedOp(n, i);
    assert Knows(n.tasks[target.chan], target.key);
    assert TaskOk(n, target.chan);
  }

  lemma SayCanBegin(n: Node, text: string)
    requires Sound(n)
    ensures (exists targets :: Enabled(n, SaySnapshot(text, targets))) <==> n.core.registry != map[]
  {
    assert n.core.registry.Keys == n.core.connections.Keys;
    if n.core.registry != map[] {
      var targets := SomeTargets(n.core.connections, n.core.registry.Keys);
      var k :| k in n.core.registry;
      assert Enabled(n, SaySnapshot(text, targets));
    }
    if targets: seq<Target> :| Enabled(n, SaySnapshot(text, targets)) {
      assert targets[0].key in n.core.registry;
    }
  }
}
