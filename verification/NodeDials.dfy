// At most one gossip dial per key: the in-flight set is exactly the keys with an
// outstanding attempt, and each of them has exactly one.
module NodeDials {
  import opened Counting
  import opened Results
  import opened Keys
  import opened Peers
  import opened NodeState
  import opened NodeMachine

  function Outstanding(k: Key): Attempt -> bool {
    (attempt: Attempt) => attempt.key == k && attempt.phase != Ended
  }

  function For(k: Key): Attempt -> bool {
    (attempt: Attempt) => attempt.key == k
  }

  function EndedFor(k: Key): Attempt -> bool {
    (attempt: Attempt) => attempt.key == k && attempt.phase == Ended
  }

  // Each attempt was one insertion into `dialing`, each ended one a removal.
  ghost predicate DialsOf(n: Node, k: Key) {
    && CountIf(n.attempts, Outstanding(k)) == One(k in n.core.dialing)
    && CountIf(n.attempts, For(k)) == CountIf(n.attempts, EndedFor(k)) + One(k in n.core.dialing)
  }

  // ------------------------------------------------------------ What a selection adds

  lemma {:induction false} InsertedDistinct(dialing: set<Key>, candidates: seq<Peer>)
    ensures DistinctKeys(Inserted(dialing, candidates))
    ensures forall i :: 0 <= i < |Inserted(dialing, candidates)| ==>
              Inserted(dialing, candidates)[i].publicKey !in dialing
  {
    if candidates != [] {
      InsertedDistinct(dialing, candidates[..|candidates| - 1]);
    }
  }

  lemma {:induction false} NewAttemptsCount(chosen: seq<Peer>, k: Key)
    requires DistinctKeys(chosen)
    ensures CountIf(NewAttempts(chosen), For(k)) == One(k in KeysOf(chosen))
    ensures CountIf(NewAttempts(chosen), Outstanding(k)) == One(k in KeysOf(chosen))
    ensures CountIf(NewAttempts(chosen), EndedFor(k)) == 0
  {
    if chosen != [] {
      var n := |chosen| - 1;
      NewAttemptsCount(chosen[..n], k);
      KeysOfAppend(chosen[..n], chosen[n]);
      assert chosen == chosen[..n] + [chosen[n]];
      assert NewAttempts(chosen)[..n] == NewAttempts(chosen[..n]);
      if k == chosen[n].publicKey {
        assert k !in KeysOf(chosen[..n]);
      }
    }
  }

  // ---------------------------------------------------------------------- The steps

  lemma GossipDials(n: Node, t: nat, infos: seq<Peer>, k: Key)
    requires DialsOf(n, k) && Enabled(n, Gossip(t, infos))
    ensures DialsOf(Apply(n, Gossip(t, infos)), k)
  {
    var chosen := Selected(n.rules, n.core, infos);
    InsertedDistinct(n.core.dialing,
      Undialed(n.core.me, n.core.registry.Keys, Retained(n.rules, Truncated(infos))));
    NewAttemptsCount(chosen, k);
    CountConcat(n.attempts, NewAttempts(chosen), For(k));
    CountConcat(n.attempts, NewAttempts(chosen), Outstanding(k));
    CountConcat(n.attempts, NewAttempts(chosen), EndedFor(k));
  }

  lemma ConnectDials(n: Node, a: nat, k: Key)
    requires DialsOf(n, k) && Enabled(n, GossipConnect(a))
    ensures DialsOf(Apply(n, GossipConnect(a)), k)
  {
    PhaseDials(n, a, Serving(|n.tasks|), k);
  }

  lemma EndDials(n: Node, a: nat, k: Key)
    requires DialsOf(n, k) && Enabled(n, EndDial(a))
    ensures DialsOf(Apply(n, EndDial(a)), k)
  {
    PhaseDials(n, a, Ended, k);
    if n.attempts[a].key == k {
      CountPositive(n.attempts, Outstanding(k), a);
    }
  }

  lemma PhaseDials(n: Node, a: nat, phase: AttemptPhase, k: Key)
    requires a < |n.attempts|
    ensures var attempts := n.attempts[a := n.attempts[a].(phase := phase)];
            var mine := n.attempts[a].key == k;
            CountIf(attempts, For(k)) == CountIf(n.attempts, For(k))
            && CountIf(attempts, Outstanding(k)) == CountIf(n.attempts, Outstanding(k))
               - One(mine && n.attempts[a].phase != Ended) + One(mine && phase != Ended)
            && CountIf(attempts, EndedFor(k)) == CountIf(n.attempts, EndedFor(k))
               - One(mine && n.attempts[a].phase == Ended) + One(mine && phase == Ended)
  {
    var x := n.attempts[a].(phase := phase);
    CountUpdate(n.attempts, a, x, For(k));
    CountUpdate(n.attempts, a, x, Outstanding(k));
    CountUpdate(n.attempts, a, x, EndedFor(k));
  }

  lemma StepSameDials(n: Node, step: Step)
    requires Enabled(n, step) && !step.Gossip? && !step.GossipConnect? && !step.EndDial?
    ensures Apply(n, step).attempts == n.attempts
    ensures Apply(n, step).core.dialing == n.core.dialing
  {
  }

  lemma StepDials(n: Node, step: Step, k: Key)
    requires DialsOf(n, k) && Enabled(n, step)
    ensures DialsOf(Apply(n, step), k)
  {
    hide Selected, IsSnapshot, IsPeerList, TaskAdmitted, Sent, Stopped;
    match step
    case Gossip(t, infos) => GossipDials(n, t, infos, k);
    case GossipConnect(a) => ConnectDials(n, a, k);
    case EndDial(a) => EndDials(n, a, k);
    case _ => StepSameDials(n, step);
  }

  lemma {:induction false} AlwaysDials(n: Node, steps: seq<Step>, k: Key)
    requires DialsOf(n, k) && Runs(n, steps)
    ensures DialsOf(After(n, steps), k)
    decreases |steps|
  {
    if steps != [] {
      StepDials(n, steps[0], k);
      AlwaysDials(Apply(n, steps[0]), steps[1..], k);
    }
  }

  // In every run a key is in flight exactly when some attempt on it has not
  // ended, never two attempts have, and every ended one removed the key once.
  lemma OneDialPerKey(rules: TextRules, me: Key, steps: seq<Step>, k: Key)
    requires Runs(Start(rules, me), steps)
    ensures var n := After(Start(rules, me), steps);
            (k in n.core.dialing <==>
               exists a :: 0 <= a < |n.attempts| && Outstanding(k)(n.attempts[a]))
            && (forall a, b :: 0 <= a < b < |n.attempts| ==>
                  !(Outstanding(k)(n.attempts[a]) && Outstanding(k)(n.attempts[b])))
            && CountIf(n.attempts, For(k))
               == CountIf(n.attempts, EndedFor(k)) + One(k in n.core.dialing)
  {
    AlwaysDials(Start(rules, me), steps, k);
    var n := After(Start(rules, me), steps);
    if k in n.core.dialing {
      var a := CountWitness(n.attempts, Outstanding(k));
    }
    forall a | 0 <= a < |n.attempts| && Outstanding(k)(n.attempts[a]) ensures k in n.core.dialing {
      CountPositive(n.attempts, Outstanding(k), a);
    }
    forall a, b | 0 <= a < b < |n.attempts|
      ensures !(Outstanding(k)(n.attempts[a]) && Outstanding(k)(n.attempts[b]))
    {
      if Outstanding(k)(n.attempts[a]) && Outstanding(k)(n.attempts[b]) {
        CountTwo(n.attempts, Outstanding(k), a, b);
      }
    }
  }

  function Ending(a: nat): Step -> bool {
    (step: Step) => step == EndDial(a)
  }

  predicate HasEnded(n: Node, a: nat) {
    a < |n.attempts| && n.attempts[a].phase == Ended
  }

  // A removal takes out a key that was in.
  lemma RemovalIsReal(n: Node, a: nat)
    requires Enabled(n, EndDial(a)) && DialsOf(n, n.attempts[a].key)
    ensures n.attempts[a].key in n.core.dialing
    ensures Apply(n, EndDial(a)).core.dialing == n.core.dialing - {n.attempts[a].key}
  {
    CountPositive(n.attempts, Outstanding(n.attempts[a].key), a);
  }

  lemma StepEnds(n: Node, step: Step, a: nat)
    requires Enabled(n, step)
    ensures HasEnded(Apply(n, step), a) <==> HasEnded(n, a) || step == EndDial(a)
    ensures step == EndDial(a) ==> !HasEnded(n, a)
  {
    match step
    case GossipConnect(_) =>
    case EndDial(_) =>
    case Gossip(_, infos) =>
    case _ => hide Apply, Enabled; StepSameDials(n, step);
  }

  lemma {:induction false} RunEnds(n: Node, steps: seq<Step>, a: nat)
    requires Runs(n, steps)
    ensures One(HasEnded(n, a)) + CountIf(steps, Ending(a)) == One(HasEnded(After(n, steps), a))
    decreases |steps|
  {
    hide Apply, Enabled, HasEnded;
    if steps != [] {
      StepEnds(n, steps[0], a);
      RunEnds(Apply(n, steps[0]), steps[1..], a);
      CountHead(steps, Ending(a));
    }
  }

  // Every attempt of every run removes its key once if it has ended, and never
  // before; and its removal takes out a key that is in flight.
  lemma EachDialIsClearedOnce(rules: TextRules, me: Key, steps: seq<Step>, a: nat)
    requires Runs(Start(rules, me), steps)
    ensures var n := After(Start(rules, me), steps);
            CountIf(steps, Ending(a)) == One(HasEnded(n, a))
            && (Enabled(n, EndDial(a)) ==>
                  n.attempts[a].key in n.core.dialing
                  && n.attempts[a].key !in Apply(n, EndDial(a)).core.dialing)
  {
    var n := After(Start(rules, me), steps);
    RunEnds(Start(rules, me), steps, a);
    if Enabled(n, EndDial(a)) {
      AlwaysDials(Start(rules, me), steps, n.attempts[a].key);
      RemovalIsReal(n, a);
    }
  }

  // The mark outlives the dial: it covers the dialled connection's whole life.
  ghost predicate Covered(n: Node) {
    && (forall a :: 0 <= a < |n.attempts| && n.attempts[a].phase != Ended ==>
          n.attempts[a].key in n.core.dialing)
    && (forall t :: ServingTask(n, t))
  }

  lemma StepCovered(n: Node, step: Step)
    requires Covered(n) && Enabled(n, step)
    requires forall k :: DialsOf(n, k)
    ensures Covered(Apply(n, step))
  {
    MarksCover(n, step);
    forall t ensures ServingTask(Apply(n, step), t) {
      ServingCovers(n, step, t);
    }
  }

  lemma MarksCover(n: Node, step: Step)
    requires Enabled(n, step) && forall k :: DialsOf(n, k)
    ensures var m := Apply(n, step);
            forall a :: 0 <= a < |m.attempts| && m.attempts[a].phase != Ended ==>
              m.attempts[a].key in m.core.dialing
  {
    hide Enabled, Apply;
    var m := Apply(n, step);
    forall a | 0 <= a < |m.attempts| && m.attempts[a].phase != Ended
      ensures m.attempts[a].key in m.core.dialing
    {
      StepDials(n, step, m.attempts[a].key);
      CountPositive(m.attempts, Outstanding(m.attempts[a].key), a);
    }
  }

  ghost predicate ServingTask(n: Node, t: nat) {
    t < |n.tasks| && n.tasks[t].dial.Some? ==>
      var a := n.tasks[t].dial.value;
      a < |n.attempts| && (n.tasks[t].phase != Returned ==> n.attempts[a].phase == Serving(t))
  }

  lemma ServingCovers(n: Node, step: Step, t: nat)
    requires Covered(n) && Enabled(n, step)
    ensures ServingTask(Apply(n, step), t)
  {
    hide IsSnapshot, IsPeerList, Selected, TaskAdmitted, Sent, Stopped;
    assert ServingTask(n, t);
    match step
    case GossipConnect(_) =>
    case EndDial(_) =>
    case Gossip(_, _) =>
    case _ => StepSameDials(n, step); StepKeepsDials(n, step);
  }

  lemma StepKeepsDials(n: Node, step: Step)
    requires Enabled(n, step) && !step.Gossip? && !step.GossipConnect? && !step.EndDial?
    ensures |n.tasks| <= |Apply(n, step).tasks|
    ensures forall t :: 0 <= t < |n.tasks| ==>
              Apply(n, step).tasks[t].dial == n.tasks[t].dial
              && (n.tasks[t].phase == Returned ==> Apply(n, step).tasks[t].phase == Returned)
    ensures forall t :: |n.tasks| <= t < |Apply(n, step).tasks| ==>
              Apply(n, step).tasks[t].dial == None
  {
    hide IsSnapshot, IsPeerList, Selected, AdmitConnection, Retire;
  }

  lemma {:induction false} AlwaysCovered(n: Node, steps: seq<Step>)
    requires Covered(n) && Runs(n, steps) && forall k :: DialsOf(n, k)
    ensures Covered(After(n, steps))
    decreases |steps|
  {
    if steps != [] {
      StepCovered(n, steps[0]);
      forall k ensures DialsOf(Apply(n, steps[0]), k) {
        StepDials(n, steps[0], k);
      }
      AlwaysCovered(Apply(n, steps[0]), steps[1..]);
    }
  }

  lemma MarkCoversTheConnection(rules: TextRules, me: Key, steps: seq<Step>, t: nat)
    requires Runs(Start(rules, me), steps)
    requires var n := After(Start(rules, me), steps);
             t < |n.tasks| && n.tasks[t].dial.Some? && n.tasks[t].phase != Returned
    ensures var n := After(Start(rules, me), steps);
            n.tasks[t].dial.value < |n.attempts|
            && n.attempts[n.tasks[t].dial.value].key in n.core.dialing
  {
    AlwaysCovered(Start(rules, me), steps);
    assert ServingTask(After(Start(rules, me), steps), t);
  }
}
