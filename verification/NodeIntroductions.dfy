// Every newcomer is introduced to the room, and nobody else; and what a task does
// is done as what it is: outbound if it was dialled, in the name of whom it met.
module NodeIntroductions {
  import opened Counting
  import opened Results
  import opened Keys
  import opened Peers
  import opened Positional
  import opened NodeState
  import opened NodeMachine
  import opened NodeAgreement
  import opened NodeSends

  function IsAdmission(): Change -> bool {
    (change: Change) => change.Admission?
  }

  function IsAnnouncement(): Op -> bool {
    (op: Op) => op.kind.Announce?
  }

  // Admitted, and its peer list still to be announced.
  function Unannounced(): Task -> bool {
    (task: Task) => task.phase.Joining? || task.phase.Introducing?
  }

  // Each admission is one announcement, made or still owed.
  ghost predicate Introductions(n: Node) {
    CountIf(n.changes, IsAdmission())
    == CountIf(n.ops, IsAnnouncement()) + CountIf(n.tasks, Unannounced())
  }

  // ------------------------------------------------------------------- The steps

  // Steps that take nobody in and announce nothing.
  ghost predicate SameIntroductions(n: Node, m: Node) {
    && (m.changes == n.changes
        || (m.changes != [] && m.changes[..|m.changes| - 1] == n.changes
            && m.changes[|m.changes| - 1].Eviction?))
    && |m.ops| >= |n.ops| && |m.tasks| >= |n.tasks|
    && (forall i :: 0 <= i < |n.ops| ==> m.ops[i].kind == n.ops[i].kind)
    && (forall i :: |n.ops| <= i < |m.ops| ==> m.ops[i].kind.Say?)
    && (forall c :: 0 <= c < |n.tasks| ==>
          Unannounced()(m.tasks[c]) == Unannounced()(n.tasks[c]))
    && (forall c :: |n.tasks| <= c < |m.tasks| ==> !Unannounced()(m.tasks[c]))
  }

  lemma CountKept<T>(before: seq<T>, after: seq<T>, p: T -> bool)
    requires |before| <= |after|
    requires forall i :: 0 <= i < |before| ==> p(after[i]) == p(before[i])
    requires forall i :: |before| <= i < |after| ==> !p(after[i])
    ensures CountIf(after, p) == CountIf(before, p)
  {
    var kept, more := after[..|before|], after[|before|..];
    assert after == kept + more;
    CountConcat(kept, more, p);
    CountSame(before, kept, p, p);
    CountZero(more, p);
  }

  lemma SameIntroductionsKeep(n: Node, m: Node)
    requires Introductions(n) && SameIntroductions(n, m)
    ensures Introductions(m)
  {
    CountKept(n.ops, m.ops, IsAnnouncement());
    CountKept(n.tasks, m.tasks, Unannounced());
    if m.changes != n.changes {
      var change := m.changes[|m.changes| - 1];
      assert m.changes == n.changes + [change];
      CountAppend(n.changes, change, IsAdmission());
    }
  }

  lemma StepSameIntroductions(n: Node, step: Step)
    requires Enabled(n, step) && !step.Admit? && !step.AnnounceSnapshot?
    ensures SameIntroductions(n, Apply(n, step))
  {
    hide IsSnapshot, IsPeerList, Selected, TaskAdmitted, Stopped;
    match step
    case Stop(t) => StoppedSame(n, t);
    case ChannelClosed(t) => StoppedSame(n, t);
    case _ =>
  }

  lemma StoppedSame(n: Node, t: nat)
    requires InPhase(n, t, Pumping) && n.tasks[t].peer.Some?
    ensures SameIntroductions(n, Stopped(n, t))
  {
    hide Retire;
    var m := Stopped(n, t);
    assert m.changes == n.changes || m.changes[..|n.changes|] == n.changes;
  }

  lemma AdmitIntroductions(n: Node, t: nat, peer: Peer)
    requires Introductions(n) && Enabled(n, Admit(t, peer))
    ensures Introductions(TaskAdmitted(n, t, peer))
  {
    if Decide(n.core.me, n.core.registry.Keys, peer.publicKey, n.tasks[t].inbound) == Join {
      JoinIntroductions(n, t, peer);
    } else {
      hide Introductions, SameIntroductions, TaskAdmitted;
      QuietAdmission(n, t, peer);
      SameIntroductionsKeep(n, TaskAdmitted(n, t, peer));
    }
  }

  lemma JoinIntroductions(n: Node, t: nat, peer: Peer)
    requires Introductions(n) && Enabled(n, Admit(t, peer))
    requires Decide(n.core.me, n.core.registry.Keys, peer.publicKey, n.tasks[t].inbound) == Join
    ensures Introductions(TaskAdmitted(n, t, peer))
  {
    hide AdmitConnection, CountIf;
    CountAppend(n.changes, Admission(peer.publicKey), IsAdmission());
    CountUpdate(n.tasks, t, TaskAdmitted(n, t, peer).tasks[t], Unannounced());
  }

  lemma QuietAdmission(n: Node, t: nat, peer: Peer)
    requires Enabled(n, Admit(t, peer))
    requires Decide(n.core.me, n.core.registry.Keys, peer.publicKey, n.tasks[t].inbound) != Join
    ensures SameIntroductions(n, TaskAdmitted(n, t, peer))
  {
    hide AdmitConnection;
  }

  lemma AnnounceIntroductions(n: Node, t: nat, targets: seq<Target>, infos: seq<Peer>)
    requires Introductions(n) && Enabled(n, AnnounceSnapshot(t, targets, infos))
    ensures Introductions(Apply(n, AnnounceSnapshot(t, targets, infos)))
  {
    var m := Apply(n, AnnounceSnapshot(t, targets, infos));
    var phased := SetPhase(n, t, Announcing(|n.ops|));
    hide IsSnapshot, IsPeerList;
    CountAppend(n.ops, Op(Announce(infos), targets, [], false), IsAnnouncement());
    CountUpdate(n.tasks, t, phased.tasks[t], Unannounced());
    CountSame(phased.tasks, m.tasks, Unannounced(), Unannounced());
  }

  lemma StepIntroductions(n: Node, step: Step)
    requires Introductions(n) && Enabled(n, step)
    ensures Introductions(Apply(n, step))
  {
    hide Introductions, SameIntroductions, TaskAdmitted;
    match step
    case Admit(t, peer) => AdmitIntroductions(n, t, peer);
    case AnnounceSnapshot(t, targets, infos) => AnnounceIntroductions(n, t, targets, infos);
    case _ =>
      hide Apply, Enabled;
      StepSameIntroductions(n, step);
      SameIntroductionsKeep(n, Apply(n, step));
  }

  lemma {:induction false} AlwaysIntroductions(n: Node, steps: seq<Step>)
    requires Introductions(n) && Runs(n, steps)
    ensures Introductions(After(n, steps))
    decreases |steps|
  {
    hide Introductions, Apply, Enabled;
    if steps != [] {
      StepIntroductions(n, steps[0]);
      AlwaysIntroductions(Apply(n, steps[0]), steps[1..]);
    }
  }

  // In every run there are as many announcements, made or owed by a task just
  // admitted, as there were admissions; so superseding and refusing announce
  // nothing. None is owed by a task that is already pumping.
  lemma EachAdmissionIsAnnouncedOnce(rules: TextRules, me: Key, steps: seq<Step>)
    requires Runs(Start(rules, me), steps)
    ensures var n := After(Start(rules, me), steps);
            CountIf(n.changes, (change: Change) => change.Admission?)
            == CountIf(n.ops, (op: Op) => op.kind.Announce?)
               + CountIf(n.tasks, (task: Task) => task.phase == Joining || task.phase == Introducing)
  {
    AlwaysIntroductions(Start(rules, me), steps);
    var n := After(Start(rules, me), steps);
    CountSame(n.changes, n.changes, IsAdmission(), (change: Change) => change.Admission?);
    CountSame(n.ops, n.ops, IsAnnouncement(), (op: Op) => op.kind.Announce?);
    CountSame(n.tasks, n.tasks, Unannounced(),
              (task: Task) => task.phase == Joining || task.phase == Introducing);
  }

  // -------------------------------------------------------------- What a task is

  ghost predicate Met(n: Node, peer: Peer) {
    exists t :: 0 <= t < |n.tasks| && n.tasks[t].peer == Some(peer)
  }

  ghost predicate TaskOk(n: Node, t: nat) {
    t < |n.tasks| ==>
      && (n.tasks[t].dial.Some? ==> !n.tasks[t].inbound)
      && (n.tasks[t].peer.Some? ==> |n.tasks[t].peer.value.publicKey| == KEY_LEN)
      && (n.tasks[t].phase.Announcing? ==>
            n.tasks[t].phase.op < |n.ops| && n.ops[n.tasks[t].phase.op].kind.Announce?)
  }

  ghost predicate EventOk(n: Node, e: nat) {
    e < |n.events| ==>
      match n.events[e]
      case PeerJoined(peer) => Met(n, peer)
      case PeerLeft(peer) => Met(n, peer)
      case Echo(_) => true
  }

  ghost predicate TasksOk(n: Node) {
    (forall t :: TaskOk(n, t)) && (forall e :: EventOk(n, e))
  }

  lemma StepTask(n: Node, step: Step, t: nat)
    requires Enabled(n, step) && TasksOk(n)
    ensures TaskOk(Apply(n, step), t)
  {
    hide IsSnapshot, IsPeerList, Selected, AdmitConnection, Retire, EventOk;
    assert TaskOk(n, t);
  }

  lemma StepTaskKeeps(n: Node, step: Step, t: nat)
    requires Directed(n) && Enabled(n, step) && t < |n.tasks|
    ensures t < |Apply(n, step).tasks|
    ensures n.tasks[t].peer.Some? ==> Apply(n, step).tasks[t].peer == n.tasks[t].peer
    ensures Apply(n, step).tasks[t].inbound == n.tasks[t].inbound
    ensures Apply(n, step).tasks[t].dial == n.tasks[t].dial
  {
    hide IsSnapshot, IsPeerList, Selected, AdmitConnection, Retire;
    if step.Admit? && step.task == t {
      HandshakingUnmet(n, t);
    }
  }

  lemma StepMet(n: Node, step: Step, peer: Peer)
    requires Directed(n) && Enabled(n, step) && Met(n, peer)
    ensures Met(Apply(n, step), peer)
  {
    hide Directed, Apply, Enabled;
    var t :| 0 <= t < |n.tasks| && n.tasks[t].peer == Some(peer);
    StepTaskKeeps(n, step, t);
  }

  lemma StepEvent(n: Node, step: Step, e: nat)
    requires Directed(n) && Enabled(n, step) && TasksOk(n)
    ensures EventOk(Apply(n, step), e)
  {
    NewEvent(n, step, e);
    hide Directed, Apply, Enabled, TasksOk, Met;
    var m := Apply(n, step);
    if e < |m.events| {
      match m.events[e]
      case PeerJoined(peer) => StepMet(n, step, peer);
      case PeerLeft(peer) => StepMet(n, step, peer);
      case Echo(_) =>
    }
  }

  lemma NewEvent(n: Node, step: Step, e: nat)
    requires Enabled(n, step) && TasksOk(n)
    ensures e < |Apply(n, step).events| ==>
              match Apply(n, step).events[e]
              case PeerJoined(peer) => Met(n, peer)
              case PeerLeft(peer) => Met(n, peer)
              case Echo(_) => true
  {
    hide IsSnapshot, IsPeerList, Selected, AdmitConnection, Retire, TaskOk;
    assert EventOk(n, e);
  }

  lemma StepTasks(n: Node, step: Step)
    requires Directed(n) && Enabled(n, step) && TasksOk(n)
    ensures TasksOk(Apply(n, step))
  {
    hide Directed, Apply, Enabled, TaskOk, EventOk;
    forall t ensures TaskOk(Apply(n, step), t) {
      StepTask(n, step, t);
    }
    forall e ensures EventOk(Apply(n, step), e) {
      StepEvent(n, step, e);
    }
  }

  lemma {:induction false} AlwaysTasks(n: Node, steps: seq<Step>)
    requires Agreement(n) && Directed(n) && TasksOk(n) && Runs(n, steps)
    ensures TasksOk(After(n, steps))
    decreases |steps|
  {
    hide Agreement, Directed, TasksOk, Apply, Enabled;
    if steps != [] {
      StepAgrees(n, steps[0]);
      StepDirected(n, steps[0]);
      StepTasks(n, steps[0]);
      AlwaysTasks(Apply(n, steps[0]), steps[1..]);
    }
  }

  lemma ReachableTasks(rules: TextRules, me: Key, steps: seq<Step>)
    requires Runs(Start(rules, me), steps)
    ensures TasksOk(After(Start(rules, me), steps))
  {
    StartSound(rules, me);
    hide Agreement, Directed, Runs;
    AlwaysTasks(Start(rules, me), steps);
  }

  // A connection that gossip made us dial is ours, not the peer's: when the tiebreak
  // comes to it, it wins only if our key is the smaller number.
  lemma DialledConnectionsAreOurs(rules: TextRules, me: Key, steps: seq<Step>, t: nat, them: Key)
    requires Runs(Start(rules, me), steps)
    requires var n := After(Start(rules, me), steps); t < |n.tasks| && n.tasks[t].dial.Some?
    requires |me| == |them| == KEY_LEN && me != them
    ensures !After(Start(rules, me), steps).tasks[t].inbound
    ensures ConnectionWins(me, them, After(Start(rules, me), steps).tasks[t].inbound)
            <==> Value(256, me) < Value(256, them)
  {
    ReachableTasks(rules, me, steps);
    assert TaskOk(After(Start(rules, me), steps), t);
    LessIsNumeric(me, them);
  }

  // Whoever is reported to have joined or left, under whatever name, is somebody a
  // task of ours completed a handshake with, as that handshake gave it.
  lemma ReportsNameWhoWasMet(rules: TextRules, me: Key, steps: seq<Step>, e: nat)
    requires Runs(Start(rules, me), steps) && e < |After(Start(rules, me), steps).events|
    ensures var n := After(Start(rules, me), steps);
            n.events[e].PeerJoined? || n.events[e].PeerLeft? ==>
              exists t :: 0 <= t < |n.tasks| && n.tasks[t].peer == Some(n.events[e].peer)
  {
    ReachableTasks(rules, me, steps);
    assert EventOk(After(Start(rules, me), steps), e);
  }
}
