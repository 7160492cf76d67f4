// Exactly when the joins and leaves a node reports take turns. The registry's
// changes always do; their reports are emitted after the lock is released, and do
// so as long as nobody is taken in under a key that still awaits a report.
module NodeOrder {
  import opened Counting
  import opened Results
  import opened Keys
  import opened Peers
  import opened NodeState
  import opened NodeMachine
  import opened NodeAgreement
  import opened NodeEvents

  // Reported joins of k less reported leaves.
  function Reported(events: seq<Event>, k: Key): int {
    CountIf(events, JoinedEvent(k)) - CountIf(events, LeftEvent(k))
  }

  // Joins and leaves of k are reported in strict turns, a join first.
  ghost predicate InTurn(events: seq<Event>, k: Key) {
    forall i :: 0 <= i <= |events| ==> 0 <= Reported(events[..i], k) <= 1
  }

  function Unreported(n: Node, phase: Phase, k: Key): nat {
    CountIf(n.tasks, Owes(phase, k))
  }

  ghost predicate NobodyOwes(n: Node, k: Key) {
    Unreported(n, Joining, k) == 0 && Unreported(n, Leaving, k) == 0
  }

  // A connection of k is taken in, as a newcomer or in place of an older one.
  ghost predicate TakesIn(n: Node, step: Step, k: Key) {
    && step.Admit? && step.task < |n.tasks| && step.peer.publicKey == k
    && !Decide(n.core.me, n.core.registry.Keys, k, n.tasks[step.task].inbound).Refuse?
  }

  // Every connection of k is taken in while nobody owes a report on k.
  ghost predicate Calm(n: Node, steps: seq<Step>, k: Key)
    requires Runs(n, steps)
    decreases |steps|
  {
    steps != [] ==>
      && (TakesIn(n, steps[0], k) ==> NobodyOwes(n, k))
      && Calm(Apply(n, steps[0]), steps[1..], k)
  }

  // ------------------------------------------------------------ What calm runs preserve

  ghost predicate JoinerHolds(n: Node, k: Key) {
    && k in n.core.connections && n.core.connections[k] < |n.tasks|
    && n.tasks[n.core.connections[k]].phase == Joining
  }

  // At most one report is due: a join only while its task holds the entry, a leave
  // only while there is no entry.
  ghost predicate OneDue(n: Node, k: Key) {
    && Unreported(n, Joining, k) <= 1 && Unreported(n, Leaving, k) <= 1
    && (Unreported(n, Joining, k) == 1 ==> JoinerHolds(n, k))
    && (Unreported(n, Leaving, k) == 1 ==> k !in n.core.registry)
  }

  lemma ReportedIs(n: Node, k: Key)
    requires LedgerOf(n, k)
    ensures Reported(n.events, k)
         == One(k in n.core.registry) - Unreported(n, Joining, k) + Unreported(n, Leaving, k)
  {
  }

  lemma OneDueReported(n: Node, k: Key)
    requires Agreement(n) && LedgerOf(n, k) && OneDue(n, k)
    ensures 0 <= Reported(n.events, k) <= 1
  {
    ReportedIs(n, k);
  }

  // What is due changes with the registry's changes and the events.
  lemma DueIs(n: Node, k: Key)
    requires LedgerOf(n, k)
    ensures Unreported(n, Joining, k)
         == CountIf(n.changes, AdmissionOf(k)) - CountIf(n.events, JoinedEvent(k))
    ensures Unreported(n, Leaving, k)
         == CountIf(n.changes, EvictionOf(k)) - CountIf(n.events, LeftEvent(k))
  {
  }

  lemma AdmitDue(n: Node, t: nat, peer: Peer, k: Key)
    requires Agreement(n) && LedgerOf(n, k) && OneDue(n, k) && Enabled(n, Admit(t, peer))
    requires LedgerOf(Apply(n, Admit(t, peer)), k)
    requires TakesIn(n, Admit(t, peer), k) ==> NobodyOwes(n, k)
    ensures OneDue(Apply(n, Admit(t, peer)), k)
  {
    hide LedgerOf, Unreported, CountIf;
    assert Apply(n, Admit(t, peer)) == TaskAdmitted(n, t, peer);
    AdmitTurns(n, t, peer, k);
    if peer.publicKey != k {
      AdmitElsewhere(n, t, peer, k);
    }
  }

  // Only a join is a change, and then one more join is due.
  lemma AdmitTurns(n: Node, t: nat, peer: Peer, k: Key)
    requires LedgerOf(n, k) && Enabled(n, Admit(t, peer)) && LedgerOf(TaskAdmitted(n, t, peer), k)
    ensures var m, key := TaskAdmitted(n, t, peer), peer.publicKey;
            var joins := Decide(n.core.me, n.core.registry.Keys, key, n.tasks[t].inbound) == Join;
            m.events == n.events
            && Unreported(m, Joining, k) == Unreported(n, Joining, k) + One(joins && key == k)
            && Unreported(m, Leaving, k) == Unreported(n, Leaving, k)
  {
    var m := TaskAdmitted(n, t, peer);
    hide LedgerOf, Unreported, CountIf, AdmitConnection, Less;
    DueIs(n, k);
    DueIs(m, k);
    CountAppend(n.changes, Admission(peer.publicKey), AdmissionOf(k));
    CountAppend(n.changes, Admission(peer.publicKey), EvictionOf(k));
  }

  lemma AdmitElsewhere(n: Node, t: nat, peer: Peer, k: Key)
    requires Enabled(n, Admit(t, peer)) && peer.publicKey != k
    ensures var m := TaskAdmitted(n, t, peer);
            (k in m.core.registry <==> k in n.core.registry) && (JoinerHolds(n, k) ==> JoinerHolds(m, k))
  {
  }

  lemma StopDue(n: Node, t: nat, k: Key)
    requires Agreement(n) && LedgerOf(n, k) && OneDue(n, k) && Enabled(n, Stop(t))
    requires LedgerOf(Apply(n, Stop(t)), k)
    ensures OneDue(Apply(n, Stop(t)), k)
  {
    hide LedgerOf, Unreported, Agreement, CountIf;
    var key := n.tasks[t].peer.value.publicKey;
    assert Apply(n, Stop(t)) == Stopped(n, t);
    StopTurns(n, t, k);
    if key == k && StillOurs(n.core, k, t) {
      HeldIsRegistered(n, k);
    }
  }

  lemma ClosedIsStop(n: Node, t: nat)
    requires Enabled(n, ChannelClosed(t))
    ensures Enabled(n, Stop(t)) && Apply(n, ChannelClosed(t)) == Apply(n, Stop(t))
  {
  }

  lemma StopTurns(n: Node, t: nat, k: Key)
    requires LedgerOf(n, k) && Enabled(n, Stop(t)) && LedgerOf(Stopped(n, t), k)
    ensures var m, key := Stopped(n, t), n.tasks[t].peer.value.publicKey;
            m.events == n.events
            && Unreported(m, Joining, k) == Unreported(n, Joining, k)
            && Unreported(m, Leaving, k)
               == Unreported(n, Leaving, k) + One(key == k && StillOurs(n.core, k, t))
  {
    var m, key := Stopped(n, t), n.tasks[t].peer.value.publicKey;
    hide LedgerOf, Unreported, CountIf, Retire;
    DueIs(n, k);
    DueIs(m, k);
    CountAppend(n.changes, Eviction(key), AdmissionOf(k));
    CountAppend(n.changes, Eviction(key), EvictionOf(k));
  }

  lemma HeldIsRegistered(n: Node, k: Key)
    requires Agreement(n) && k in n.core.connections
    ensures k in n.core.registry && Entry(n, k)
  {
  }

  lemma EmitJoinedDue(n: Node, t: nat, k: Key)
    requires Agreement(n) && LedgerOf(n, k) && OneDue(n, k) && Enabled(n, EmitJoined(t))
    requires LedgerOf(Apply(n, EmitJoined(t)), k)
    ensures OneDue(Apply(n, EmitJoined(t)), k)
  {
    hide LedgerOf, Unreported, Agreement, CountIf;
    JoinedTurns(n, t, k);
    if n.tasks[t].peer.value.publicKey != k && k in n.core.connections {
      HeldIsRegistered(n, k);
      assert n.core.connections[k] != t;
    }
  }

  lemma EmissionAppends(n: Node, step: Step)
    requires Enabled(n, step) && (step.EmitJoined? || step.EmitLeft?)
    ensures step.task < |n.tasks| && n.tasks[step.task].peer.Some?
    ensures Apply(n, step).changes == n.changes
    ensures var peer := n.tasks[step.task].peer.value;
            Apply(n, step).events
            == n.events + [if step.EmitJoined? then PeerJoined(peer) else PeerLeft(peer)]
  {
  }

  lemma JoinedTurns(n: Node, t: nat, k: Key)
    requires LedgerOf(n, k) && Enabled(n, EmitJoined(t)) && LedgerOf(Apply(n, EmitJoined(t)), k)
    ensures var m, mine := Apply(n, EmitJoined(t)), n.tasks[t].peer.value.publicKey == k;
            Unreported(m, Joining, k) == Unreported(n, Joining, k) - One(mine)
            && Unreported(m, Leaving, k) == Unreported(n, Leaving, k)
            && Reported(m.events, k) == Reported(n.events, k) + One(mine)
  {
    hide LedgerOf, Unreported, CountIf, Apply, Enabled;
    EmissionAppends(n, EmitJoined(t));
    DueIs(n, k);
    DueIs(Apply(n, EmitJoined(t)), k);
    CountAppend(n.events, PeerJoined(n.tasks[t].peer.value), JoinedEvent(k));
    CountAppend(n.events, PeerJoined(n.tasks[t].peer.value), LeftEvent(k));
  }

  lemma EmitLeftDue(n: Node, t: nat, k: Key)
    requires LedgerOf(n, k) && OneDue(n, k) && Enabled(n, EmitLeft(t))
    requires LedgerOf(Apply(n, EmitLeft(t)), k)
    ensures OneDue(Apply(n, EmitLeft(t)), k)
  {
    hide LedgerOf, Unreported, CountIf;
    LeftTurns(n, t, k);
  }

  lemma LeftTurns(n: Node, t: nat, k: Key)
    requires LedgerOf(n, k) && Enabled(n, EmitLeft(t)) && LedgerOf(Apply(n, EmitLeft(t)), k)
    ensures var m, mine := Apply(n, EmitLeft(t)), n.tasks[t].peer.value.publicKey == k;
            Unreported(m, Joining, k) == Unreported(n, Joining, k)
            && Unreported(m, Leaving, k) == Unreported(n, Leaving, k) - One(mine)
            && Reported(m.events, k) == Reported(n.events, k) - One(mine)
  {
    hide LedgerOf, Unreported, CountIf, Apply, Enabled;
    EmissionAppends(n, EmitLeft(t));
    DueIs(n, k);
    DueIs(Apply(n, EmitLeft(t)), k);
    CountAppend(n.events, PeerLeft(n.tasks[t].peer.value), JoinedEvent(k));
    CountAppend(n.events, PeerLeft(n.tasks[t].peer.value), LeftEvent(k));
  }

  lemma QuietDue(n: Node, m: Node, k: Key)
    requires SameLedger(n, m) && Keeps(n, m) && OneDue(n, k)
    ensures OneDue(m, k)
  {
    OwedSame(n.tasks, m.tasks, Joining, k);
    OwedSame(n.tasks, m.tasks, Leaving, k);
  }

  lemma QuietStepDue(n: Node, step: Step, k: Key)
    requires OneDue(n, k) && Enabled(n, step) && !OnLedger(step)
    ensures OneDue(Apply(n, step), k)
  {
    StepSameLedger(n, step);
    StepKeeps(n, step);
    hide OneDue, SameLedger, Keeps, Apply, Enabled;
    QuietDue(n, Apply(n, step), k);
  }

  lemma StepDue(n: Node, step: Step, k: Key)
    requires Agreement(n) && LedgerOf(n, k) && OneDue(n, k) && Enabled(n, step)
    requires TakesIn(n, step, k) ==> NobodyOwes(n, k)
    ensures OneDue(Apply(n, step), k)
  {
    hide Agreement, LedgerOf, OneDue, TakesIn, NobodyOwes, Apply, Enabled;
    StepLedger(n, step, k);
    match step
    case Admit(t, peer) => AdmitDue(n, t, peer, k);
    case Stop(t) => StopDue(n, t, k);
    case ChannelClosed(t) => ClosedIsStop(n, t); StopDue(n, t, k);
    case EmitJoined(t) => EmitJoinedDue(n, t, k);
    case EmitLeft(t) => EmitLeftDue(n, t, k);
    case _ => QuietStepDue(n, step, k);
  }

  // Events are only ever appended, one at a time.
  lemma StepEvents(n: Node, step: Step)
    requires Enabled(n, step)
    ensures |n.events| <= |Apply(n, step).events| <= |n.events| + 1
    ensures Apply(n, step).events[..|n.events|] == n.events
  {
    hide IsSnapshot, IsPeerList, Selected, AdmitConnection, Retire;
  }

  lemma InTurnGrows(before: seq<Event>, after: seq<Event>, k: Key)
    requires |before| <= |after| <= |before| + 1 && after[..|before|] == before
    requires InTurn(before, k) && 0 <= Reported(after, k) <= 1
    ensures InTurn(after, k)
  {
    forall i | 0 <= i <= |after| ensures 0 <= Reported(after[..i], k) <= 1 {
      if i <= |before| {
        assert after[..i] == before[..i];
      } else {
        assert after[..i] == after;
      }
    }
  }

  lemma {:induction false} CalmKeepsTurns(n: Node, steps: seq<Step>, k: Key)
    requires Agreement(n) && LedgerOf(n, k) && OneDue(n, k) && InTurn(n.events, k)
    requires Runs(n, steps) && Calm(n, steps, k)
    ensures Agreement(After(n, steps)) && LedgerOf(After(n, steps), k)
    ensures OneDue(After(n, steps), k) && InTurn(After(n, steps).events, k)
    decreases |steps|
  {
    hide Agreement, LedgerOf, OneDue, InTurn, Apply, Enabled, TakesIn, NobodyOwes, Reported;
    if steps != [] {
      var m := Apply(n, steps[0]);
      StepAgrees(n, steps[0]);
      StepLedger(n, steps[0], k);
      StepDue(n, steps[0], k);
      StepEvents(n, steps[0]);
      OneDueReported(m, k);
      InTurnGrows(n.events, m.events, k);
      CalmKeepsTurns(m, steps[1..], k);
    }
  }

  lemma StartInTurn(rules: TextRules, me: Key, k: Key)
    ensures var n := Start(rules, me);
            Agreement(n) && LedgerOf(n, k) && OneDue(n, k) && InTurn(n.events, k)
  {
    assert Start(rules, me).changes[..0] == [];
    assert Start(rules, me).events[..0] == [];
  }

  // In every calm run, joins and leaves of k are reported in turns throughout.
  lemma CalmEventsTakeTurns(rules: TextRules, me: Key, steps: seq<Step>, k: Key)
    requires Runs(Start(rules, me), steps) && Calm(Start(rules, me), steps, k)
    ensures InTurn(After(Start(rules, me), steps).events, k)
  {
    StartInTurn(rules, me, k);
    hide Agreement, LedgerOf, OneDue, InTurn, Start;
    CalmKeepsTurns(Start(rules, me), steps, k);
  }

  // -------------------------------------------------------------- And no run that is not

  lemma OutOfTurn(events: seq<Event>, k: Key)
    requires !(0 <= Reported(events, k) <= 1)
    ensures !InTurn(events, k)
  {
    assert events[..|events|] == events;
  }

  lemma LeftTooEarly(n: Node, k: Key) returns (steps: seq<Step>)
    requires Agreement(n) && LedgerOf(n, k)
    requires Reported(n.events, k) == 0 && Unreported(n, Leaving, k) > 0
    ensures Runs(n, steps) && Calm(n, steps, k) && !InTurn(After(n, steps).events, k)
  {
    var t := CountWitness(n.tasks, Owes(Leaving, k));
    StepLedger(n, EmitLeft(t), k);
    LeftTurns(n, t, k);
    OutOfTurn(Apply(n, EmitLeft(t)).events, k);
    hide Agreement, LedgerOf, InTurn, Apply;
    OneStep(n, EmitLeft(t), k);
    steps := [EmitLeft(t)];
  }

  lemma JoinedTwice(n: Node, k: Key) returns (steps: seq<Step>)
    requires Agreement(n) && LedgerOf(n, k)
    requires Reported(n.events, k) == 1 && Unreported(n, Joining, k) > 0
    ensures Runs(n, steps) && Calm(n, steps, k) && !InTurn(After(n, steps).events, k)
  {
    var t := CountWitness(n.tasks, Owes(Joining, k));
    StepLedger(n, EmitJoined(t), k);
    JoinedTurns(n, t, k);
    OutOfTurn(Apply(n, EmitJoined(t)).events, k);
    hide Agreement, LedgerOf, InTurn, Apply;
    OneStep(n, EmitJoined(t), k);
    steps := [EmitJoined(t)];
  }

  lemma OneStep(n: Node, step: Step, k: Key)
    requires Enabled(n, step) && !step.Admit?
    ensures Runs(n, [step]) && Calm(n, [step], k) && After(n, [step]) == Apply(n, step)
  {
    assert [step][1..] == [];
  }

  // The newcomer leaves before the join it replaced is reported.
  lemma LeavesUnjoined(n: Node, t: nat, k: Key) returns (steps: seq<Step>)
    requires Agreement(n) && LedgerOf(n, k) && Enabled(n, Stop(t))
    requires n.tasks[t].peer.value.publicKey == k && StillOurs(n.core, k, t)
    requires Reported(n.events, k) == 0
    ensures Runs(n, steps) && Calm(n, steps, k) && !InTurn(After(n, steps).events, k)
  {
    hide Agreement, LedgerOf, InTurn, Unreported, CountIf;
    assert Apply(n, Stop(t)) == Stopped(n, t);
    StepLedger(n, Stop(t), k);
    StepAgrees(n, Stop(t));
    StopTurns(n, t, k);
    var rest := LeftTooEarly(Apply(n, Stop(t)), k);
    hide Apply;
    steps := [Stop(t)] + rest;
    assert steps[1..] == rest;
  }

  // Taking in a connection of k while a report on k is due, a node may go on to
  // report out of turn.
  lemma BusyAdmissionMayDisorder(n: Node, t: nat, peer: Peer) returns (steps: seq<Step>)
    requires var k := peer.publicKey; Agreement(n) && LedgerOf(n, k) && !NobodyOwes(n, k)
    requires Enabled(n, Admit(t, peer)) && TakesIn(n, Admit(t, peer), peer.publicKey)
    ensures var m, k := Apply(n, Admit(t, peer)), peer.publicKey;
            Runs(m, steps) && Calm(m, steps, k) && !InTurn(After(m, steps).events, k)
  {
    var m, k := Apply(n, Admit(t, peer)), peer.publicKey;
    StepLedger(n, Admit(t, peer), k);
    StepAgrees(n, Admit(t, peer));
    BusyAdmission(n, t, peer);
    hide Agreement, LedgerOf, InTurn, Apply, Enabled, Reported, Unreported, NobodyOwes, TakesIn;
    if !(0 <= Reported(m.events, k) <= 1) {
      OutOfTurn(m.events, k);
      steps := [];
    } else if Reported(m.events, k) == 1 {
      steps := JoinedTwice(m, k);
    } else if Unreported(m, Leaving, k) > 0 {
      steps := LeftTooEarly(m, k);
    } else {
      steps := LeavesUnjoined(m, t, k);
    }
  }

  lemma PumpingMayStop(n: Node, t: nat)
    requires t < |n.tasks| && n.tasks[t].phase == Pumping && n.tasks[t].peer.Some?
    ensures Enabled(n, Stop(t))
  {
  }

  // Then the reports are out of turn already, or one that is due will be, or the
  // newcomer holds the entry, while the join it replaced is still unreported.
  lemma BusyAdmission(n: Node, t: nat, peer: Peer)
    requires LedgerOf(n, peer.publicKey) && !NobodyOwes(n, peer.publicKey)
    requires Enabled(n, Admit(t, peer)) && TakesIn(n, Admit(t, peer), peer.publicKey)
    requires LedgerOf(Apply(n, Admit(t, peer)), peer.publicKey)
    ensures var m, k := Apply(n, Admit(t, peer)), peer.publicKey;
            || !(0 <= Reported(m.events, k) <= 1)
            || (Reported(m.events, k) == 1 && Unreported(m, Joining, k) > 0)
            || (Reported(m.events, k) == 0 && Unreported(m, Leaving, k) > 0)
            || (Reported(m.events, k) == 0 && Enabled(m, Stop(t)) && StillOurs(m.core, k, t)
                && m.tasks[t].peer.value.publicKey == k)
  {
    var m, k := Apply(n, Admit(t, peer)), peer.publicKey;
    AdmitTurns(n, t, peer, k);
    assert m == TaskAdmitted(n, t, peer);
    hide LedgerOf, Apply, Reported, Unreported, TakesIn, Decide, TaskAdmitted, InPhase;
    TakenInHolds(n, t, peer);
    ReportedIs(m, k);
    if Reported(m.events, k) == 0 && Unreported(m, Leaving, k) == 0 {
      assert Unreported(m, Joining, k) == 1;
      assert m.tasks[t].phase == Pumping;
      PumpingMayStop(m, t);
    }
  }

  lemma TakenInHolds(n: Node, t: nat, peer: Peer)
    requires Enabled(n, Admit(t, peer)) && TakesIn(n, Admit(t, peer), peer.publicKey)
    ensures var m, k := Apply(n, Admit(t, peer)), peer.publicKey;
            k in m.core.registry && StillOurs(m.core, k, t) && t < |m.tasks|
            && m.tasks[t].peer == Some(peer)
            && (m.tasks[t].phase == Pumping
                || Decide(n.core.me, n.core.registry.Keys, k, n.tasks[t].inbound) == Join)
  {
  }

  // However it is continued, with every later connection of k taken in calmly.
  ghost predicate StaysInTurn(n: Node, k: Key) {
    forall steps :: Runs(n, steps) && Calm(n, steps, k) ==> InTurn(After(n, steps).events, k)
  }

  // So, in every state a calm run reaches: taking in a connection is sure to keep
  // the reports in turn exactly when no task owes a report on its key.
  lemma SafeToTakeInExactlyWhen(rules: TextRules, me: Key, steps: seq<Step>, t: nat, peer: Peer)
    requires Runs(Start(rules, me), steps) && Calm(Start(rules, me), steps, peer.publicKey)
    requires Enabled(After(Start(rules, me), steps), Admit(t, peer))
    requires TakesIn(After(Start(rules, me), steps), Admit(t, peer), peer.publicKey)
    ensures var n := After(Start(rules, me), steps);
            StaysInTurn(Apply(n, Admit(t, peer)), peer.publicKey) <==> NobodyOwes(n, peer.publicKey)
  {
    var n, k := After(Start(rules, me), steps), peer.publicKey;
    StartInTurn(rules, me, k);
    hide Agreement, LedgerOf, OneDue, InTurn, Start, Apply, Enabled, TakesIn, NobodyOwes;
    CalmKeepsTurns(Start(rules, me), steps, k);
    var m := Apply(n, Admit(t, peer));
    if NobodyOwes(n, k) {
      forall rest | Runs(m, rest) && Calm(m, rest, k) ensures InTurn(After(m, rest).events, k) {
        CalmThen(n, Admit(t, peer), rest, k);
        CalmKeepsTurns(n, [Admit(t, peer)] + rest, k);
      }
    } else {
      var rest := BusyAdmissionMayDisorder(n, t, peer);
    }
  }

  lemma CalmThen(n: Node, step: Step, rest: seq<Step>, k: Key)
    requires Enabled(n, step) && Runs(Apply(n, step), rest) && Calm(Apply(n, step), rest, k)
    requires TakesIn(n, step, k) ==> NobodyOwes(n, k)
    ensures Runs(n, [step] + rest) && Calm(n, [step] + rest, k)
    ensures After(n, [step] + rest) == After(Apply(n, step), rest)
  {
    Extend(n, step, rest);
    assert ([step] + rest)[1..] == rest;
  }

  // Out of turn from any state at all, reached calmly or not.
  lemma BusyAdmissionAnywhere(rules: TextRules, me: Key, steps: seq<Step>, t: nat, peer: Peer)
      returns (rest: seq<Step>)
    requires Runs(Start(rules, me), steps)
    requires var n := After(Start(rules, me), steps);
             Enabled(n, Admit(t, peer)) && TakesIn(n, Admit(t, peer), peer.publicKey)
             && !NobodyOwes(n, peer.publicKey)
    ensures var m := Apply(After(Start(rules, me), steps), Admit(t, peer));
            Runs(m, rest) && !InTurn(After(m, rest).events, peer.publicKey)
  {
    var k := peer.publicKey;
    StartInTurn(rules, me, k);
    hide Agreement, LedgerOf, InTurn, Start, Apply, Enabled, TakesIn, NobodyOwes;
    AlwaysAgreement(Start(rules, me), steps);
    AlwaysLedger(Start(rules, me), steps, k);
    rest := BusyAdmissionMayDisorder(After(Start(rules, me), steps), t, peer);
  }
}
