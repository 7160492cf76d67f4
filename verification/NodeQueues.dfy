// What is queued for a peer, and in what order: every single attempt of a send
// loop, told by what the channel was like, and every frame a task takes off.
module NodeQueues {
  import opened Counting
  import opened Results
  import opened Keys
  import opened Peers
  import opened NodeState
  import opened NodeMachine
  import opened NodeAgreement
  import opened NodeSends

  // The frame of call i for a peer: its text sealed for that peer, or the list
  // taken at its snapshot.
  function Meant(i: nat, kind: OpKind, key: Key): Frame {
    match kind
    case Say(_) => Chat(i, key)
    case Announce(infos) => PeerList(i, infos)
  }

  // One attempt of call i, in state n, left state m.
  ghost predicate AttemptMade(n: Node, m: Node, i: nat, sealed: bool) {
    && i < |n.ops| && |n.ops[i].outcomes| < |n.ops[i].targets|
    && var op := n.ops[i];
       var target := op.targets[|op.outcomes|];
       target.chan < |n.tasks|
       && var task := n.tasks[target.chan];
          var unsealed := op.kind.Say? && !sealed;
          var room := task.phase != Returned && |task.queued| - task.taken < 64;
          var outcome := if unsealed then Unsealed else if room then Queued else Dropped;
          var more := if outcome == Queued then [Meant(i, op.kind, target.key)] else [];
          m == n.(ops := n.ops[i := op.(outcomes := op.outcomes + [outcome])],
                  tasks := n.tasks[target.chan :=
                             task.(queued := task.queued + more, handles := task.handles - 1)])
  }

  // In every reachable state, an attempt that could be sealed, on a channel whose
  // task has not returned and on which fewer than 64 frames wait, puts its frame at
  // the end of the queue. Any other leaves the queue as it was. The outcome says
  // which, and nothing else changes but the loop's own handle.
  lemma EachAttempt(rules: TextRules, me: Key, steps: seq<Step>, i: nat, sealed: bool)
    requires Runs(Start(rules, me), steps)
    requires Enabled(After(Start(rules, me), steps), Send(i, sealed))
    ensures var n := After(Start(rules, me), steps);
            AttemptMade(n, Apply(n, Send(i, sealed)), i, sealed)
  {
    hide Start, Runs, Agreement, Accounted, Directed, AttemptMade, Enabled, Apply;
    ReachableSound(rules, me, steps);
    AttemptFrom(After(Start(rules, me), steps), i, sealed);
  }

  lemma AttemptFrom(n: Node, i: nat, sealed: bool)
    requires Directed(n) && Enabled(n, Send(i, sealed))
    ensures AttemptMade(n, Apply(n, Send(i, sealed)), i, sealed)
  {
    var target := n.ops[i].targets[|n.ops[i].outcomes|];
    DirectedOp(n, i);
    assert Knows(n.tasks[target.chan], target.key);
    TaskOf(n, target.chan);
    hide Directed;
    var task := n.tasks[target.chan];
    assert task.queued + [] == task.queued;
    assert Owning(task.phase) <==> task.phase != Returned;
  }

  lemma TaskOf(n: Node, c: nat)
    requires Directed(n) && c < |n.tasks|
    ensures TaskDirected(n.tasks[c], |n.ops|)
  {
  }

  // ------------------------------------------------------------ First in, first out

  function Taking(c: nat): Step -> bool {
    (step: Step) => step == TakeFrame(c)
  }

  function Taken(n: Node, c: nat): nat {
    if c < |n.tasks| then n.tasks[c].taken else 0
  }

  lemma StepTakes(n: Node, step: Step, c: nat)
    requires Enabled(n, step)
    ensures Taken(Apply(n, step), c) == Taken(n, c) + One(step == TakeFrame(c))
  {
    hide IsSnapshot, IsPeerList, Selected, AdmitConnection, Retire;
  }

  lemma StepKeepsQueue(n: Node, step: Step, c: nat)
    requires Enabled(n, step) && c < |n.tasks|
    ensures c < |Apply(n, step).tasks|
    ensures n.tasks[c].queued <= Apply(n, step).tasks[c].queued
  {
    hide IsSnapshot, IsPeerList, Selected, AdmitConnection, Retire;
  }

  lemma {:induction false} RunTakes(n: Node, steps: seq<Step>, c: nat)
    requires Runs(n, steps)
    ensures Taken(After(n, steps), c) == Taken(n, c) + CountIf(steps, Taking(c))
    decreases |steps|
  {
    hide Apply, Enabled, Taken;
    if steps != [] {
      StepTakes(n, steps[0], c);
      RunTakes(Apply(n, steps[0]), steps[1..], c);
      CountHead(steps, Taking(c));
    }
  }

  lemma {:induction false} RunKeepsQueue(n: Node, steps: seq<Step>, c: nat)
    requires Runs(n, steps) && c < |n.tasks|
    ensures c < |After(n, steps).tasks| && n.tasks[c].queued <= After(n, steps).tasks[c].queued
    decreases |steps|
  {
    hide Apply, Enabled;
    if steps != [] {
      StepKeepsQueue(n, steps[0], c);
      RunKeepsQueue(Apply(n, steps[0]), steps[1..], c);
    }
  }

  // A task takes frames off its channel one by one, from the front, and only ones
  // that were queued. What is queued is never changed.
  lemma FirstInFirstOut(rules: TextRules, me: Key, before: seq<Step>, rest: seq<Step>, c: nat)
    requires Runs(Start(rules, me), before)
    requires Runs(After(Start(rules, me), before), rest)
    requires c < |After(Start(rules, me), before).tasks|
    ensures var n := After(Start(rules, me), before);
            var m := After(n, rest);
            c < |m.tasks| && n.tasks[c].queued <= m.tasks[c].queued
            && n.tasks[c].taken == CountIf(before, Taking(c)) <= |n.tasks[c].queued|
            && m.tasks[c].taken == n.tasks[c].taken + CountIf(rest, Taking(c))
  {
    var n := After(Start(rules, me), before);
    RunTakes(Start(rules, me), before, c);
    RunTakes(n, rest, c);
    RunKeepsQueue(n, rest, c);
    QueuesAreBounded(rules, me, before, c);
  }

  // ------------------------------------------------------------- What calls have done

  // Something is said only to somebody, and shown to us once all have been tried.
  ghost predicate CallOk(op: Op) {
    && |op.outcomes| <= |op.targets|
    && (op.kind.Say? ==> op.targets != [])
    && (op.echoed ==> op.kind.Say? && |op.outcomes| == |op.targets|)
  }

  // Every queued frame is what its call meant for the channel's peer.
  ghost predicate Genuine(n: Node, frame: Frame) {
    frame.op < |n.ops|
    && match n.ops[frame.op].kind
       case Say(_) => frame.Chat?
       case Announce(infos) => frame == PeerList(frame.op, infos)
  }

  ghost predicate CallsOk(n: Node) {
    && (forall i :: 0 <= i < |n.ops| ==> CallOk(n.ops[i]))
    && (forall c, f :: 0 <= c < |n.tasks| && 0 <= f < |n.tasks[c].queued| ==>
          Genuine(n, n.tasks[c].queued[f]))
  }

  lemma StepCall(n: Node, step: Step, i: nat)
    requires CallsOk(n) && Enabled(n, step) && i < |Apply(n, step).ops|
    ensures CallOk(Apply(n, step).ops[i])
  {
    hide IsSnapshot, IsPeerList, Selected, AdmitConnection, Retire, Genuine;
    assert i < |n.ops| ==> CallOk(n.ops[i]);
  }

  lemma StepGenuine(n: Node, step: Step, c: nat, f: nat)
    requires CallsOk(n) && Enabled(n, step)
    requires c < |Apply(n, step).tasks| && f < |Apply(n, step).tasks[c].queued|
    ensures Genuine(Apply(n, step), Apply(n, step).tasks[c].queued[f])
  {
    var frame := Apply(n, step).tasks[c].queued[f];
    NewFrame(n, step, c, f);
    hide CallsOk, Apply, Enabled;
    StepOp(n, step, frame.op);
  }

  lemma NewFrame(n: Node, step: Step, c: nat, f: nat)
    requires CallsOk(n) && Enabled(n, step)
    requires c < |Apply(n, step).tasks| && f < |Apply(n, step).tasks[c].queued|
    ensures Genuine(n, Apply(n, step).tasks[c].queued[f])
  {
    hide IsSnapshot, IsPeerList, Selected, AdmitConnection, Retire, CallOk;
    if c < |n.tasks| && f < |n.tasks[c].queued| {
      StepKeepsQueue(n, step, c);
      assert Genuine(n, n.tasks[c].queued[f]);
    }
  }

  lemma StepCalls(n: Node, step: Step)
    requires CallsOk(n) && Enabled(n, step)
    ensures CallsOk(Apply(n, step))
  {
    hide Apply, Enabled, CallOk, Genuine;
    var m := Apply(n, step);
    forall i | 0 <= i < |m.ops| ensures CallOk(m.ops[i]) {
      StepCall(n, step, i);
    }
    forall c, f | 0 <= c < |m.tasks| && 0 <= f < |m.tasks[c].queued|
      ensures Genuine(m, m.tasks[c].queued[f])
    {
      StepGenuine(n, step, c, f);
    }
  }

  lemma {:induction false} AlwaysCalls(n: Node, steps: seq<Step>)
    requires CallsOk(n) && Runs(n, steps)
    ensures CallsOk(After(n, steps))
    decreases |steps|
  {
    hide Apply, Enabled, CallsOk;
    if steps != [] {
      StepCalls(n, steps[0]);
      AlwaysCalls(Apply(n, steps[0]), steps[1..]);
    }
  }

  // Whatever frame is or was on any channel is its call's own: a ciphertext of a
  // `say`, or the very list an announcement took at its snapshot.
  lemma FramesAreGenuine(rules: TextRules, me: Key, steps: seq<Step>, c: nat, f: nat)
    requires Runs(Start(rules, me), steps)
    requires var n := After(Start(rules, me), steps); c < |n.tasks| && f < |n.tasks[c].queued|
    ensures var n := After(Start(rules, me), steps);
            var frame := n.tasks[c].queued[f];
            frame.op < |n.ops|
            && (frame.Chat? <==> n.ops[frame.op].kind.Say?)
            && (frame.PeerList? ==> n.ops[frame.op].kind == Announce(frame.infos))
  {
    AlwaysCalls(Start(rules, me), steps);
    assert Genuine(After(Start(rules, me), steps), After(Start(rules, me), steps).tasks[c].queued[f]);
  }

  // -------------------------------------------------------------------------- Echoes

  function EchoOf(text: string): Event -> bool {
    (event: Event) => event == Echo(text)
  }

  function EchoedSay(text: string): Op -> bool {
    (op: Op) => op.kind == Say(text) && op.echoed
  }

  ghost predicate EchoesOf(n: Node, text: string) {
    CountIf(n.events, EchoOf(text)) == CountIf(n.ops, EchoedSay(text))
  }

  ghost predicate SameEchoes(n: Node, m: Node) {
    && (m.events == n.events
        || (m.events != [] && m.events[..|m.events| - 1] == n.events && !m.events[|m.events| - 1].Echo?))
    && |n.ops| <= |m.ops|
    && (forall i :: 0 <= i < |n.ops| ==>
          m.ops[i].kind == n.ops[i].kind && m.ops[i].echoed == n.ops[i].echoed)
    && (forall i :: |n.ops| <= i < |m.ops| ==> !m.ops[i].echoed)
  }

  lemma StepSameEchoes(n: Node, step: Step)
    requires Enabled(n, step) && !step.EmitEcho?
    ensures SameEchoes(n, Apply(n, step))
  {
    hide IsSnapshot, IsPeerList, Selected, AdmitConnection, Retire;
    assert step.EmitJoined? || step.EmitLeft? ==> Apply(n, step).events[..|n.events|] == n.events;
  }

  lemma SameEchoesOf(n: Node, m: Node, text: string)
    requires EchoesOf(n, text) && SameEchoes(n, m)
    ensures EchoesOf(m, text)
  {
    var kept, more := m.ops[..|n.ops|], m.ops[|n.ops|..];
    assert m.ops == kept + more;
    CountConcat(kept, more, EchoedSay(text));
    CountSame(n.ops, kept, EchoedSay(text), EchoedSay(text));
    CountZero(more, EchoedSay(text));
    if m.events != n.events {
      var event := m.events[|m.events| - 1];
      assert m.events == n.events + [event];
      CountAppend(n.events, event, EchoOf(text));
    }
  }

  lemma StepEchoes(n: Node, step: Step, text: string)
    requires EchoesOf(n, text) && Enabled(n, step)
    ensures EchoesOf(Apply(n, step), text)
  {
    if step.EmitEcho? {
      var i := step.op;
      CountAppend(n.events, Echo(n.ops[i].kind.text), EchoOf(text));
      CountUpdate(n.ops, i, n.ops[i].(echoed := true), EchoedSay(text));
    } else {
      hide Apply, Enabled, EchoesOf, SameEchoes;
      StepSameEchoes(n, step);
      SameEchoesOf(n, Apply(n, step), text);
    }
  }

  lemma {:induction false} AlwaysEchoes(n: Node, steps: seq<Step>, text: string)
    requires EchoesOf(n, text) && Runs(n, steps)
    ensures EchoesOf(After(n, steps), text)
    decreases |steps|
  {
    hide Apply, Enabled, EchoesOf;
    if steps != [] {
      StepEchoes(n, steps[0], text);
      AlwaysEchoes(Apply(n, steps[0]), steps[1..], text);
    }
  }

  // Our own messages: each `say` had somebody to go to, is shown to us at most once,
  // with its text, and not before everybody has been tried.
  lemma EachSayIsEchoedOnce(rules: TextRules, me: Key, steps: seq<Step>, text: string)
    requires Runs(Start(rules, me), steps)
    ensures var n := After(Start(rules, me), steps);
            CountIf(n.events, EchoOf(text)) == CountIf(n.ops, EchoedSay(text))
            && (forall i :: 0 <= i < |n.ops| && n.ops[i].kind.Say? ==> n.ops[i].targets != [])
            && (forall i :: 0 <= i < |n.ops| && n.ops[i].echoed ==>
                  n.ops[i].kind.Say? && |n.ops[i].outcomes| == |n.ops[i].targets|)
  {
    AlwaysEchoes(Start(rules, me), steps, text);
    AlwaysCalls(Start(rules, me), steps);
    forall i | 0 <= i < |After(Start(rules, me), steps).ops|
      ensures CallOk(After(Start(rules, me), steps).ops[i])
    {
    }
  }
}
