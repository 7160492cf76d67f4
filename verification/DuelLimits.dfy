// Exactly when a duel is sure to settle, and what settling leaves behind.
module DuelLimits {
  import opened Results
  import opened Keys
  import opened Peers
  import opened NodeState
  import opened Duel

  lemma {:induction false} RunsConcat(d: Pair, s: seq<Step>, t: seq<Step>)
    requires Runs(d, s) && Runs(After(d, s), t)
    ensures Runs(d, s + t) && After(d, s + t) == After(After(d, s), t)
    decreases |s|
  {
    hide Apply, Enabled;
    if s == [] {
      assert s + t == t;
    } else {
      RunsConcat(Apply(d, s[0]), s[1..], t);
      assert (s + t)[1..] == s[1..] + t;
    }
  }

  lemma RunsOne(d: Pair, step: Step)
    requires Enabled(d, step)
    ensures Runs(d, [step]) && After(d, [step]) == Apply(d, step)
  {
    assert [step][1..] == [];
  }

  // --------------------------------------------------------------- What runs preserve

  // A winner held after all admissions stays held; a closed end stays closed.
  ghost predicate AllArrived(d: Pair, atX: bool) {
    forall c :: 0 <= c < |Here(d, atX).ends| ==> Here(d, atX).ends[c] != Waiting
  }

  lemma HeldWinnerStep(d: Pair, step: Step, atX: bool, w: nat)
    requires Sound(d) && Enabled(d, step) && AllArrived(d, atX)
    requires w < |d.byX| && Wins(d, w) && Held(d, atX) == Some(w)
    ensures AllArrived(Apply(d, step), atX) && Held(Apply(d, step), atX) == Some(w)
  {
    StepSound(d, step);
    match step
    case AdmitAt(at, c) => AdmitEffect(d, at, c);
    case DisconnectAt(at, c) => DisconnectEffect(d, at, c);
  }

  lemma {:induction false} HeldWinnerStays(d: Pair, steps: seq<Step>, atX: bool, w: nat)
    requires Sound(d) && Runs(d, steps) && AllArrived(d, atX)
    requires w < |d.byX| && Wins(d, w) && Held(d, atX) == Some(w)
    ensures Held(After(d, steps), atX) == Some(w)
    decreases |steps|
  {
    if steps != [] {
      StepSound(d, steps[0]);
      HeldWinnerStep(d, steps[0], atX, w);
      HeldWinnerStays(Apply(d, steps[0]), steps[1..], atX, w);
    }
  }

  lemma {:induction false} ClosedStays(d: Pair, steps: seq<Step>, atX: bool, c: nat)
    requires Sound(d) && Runs(d, steps) && c < |d.byX| && Here(d, atX).ends[c] == Closed
    ensures c < |Here(After(d, steps), atX).ends| && Here(After(d, steps), atX).ends[c] == Closed
    decreases |steps|
  {
    if steps != [] {
      StepSound(d, steps[0]);
      match steps[0] {
        case AdmitAt(at, e) => AdmitEffect(d, at, e);
        case DisconnectAt(at, e) => DisconnectEffect(d, at, e);
      }
      ClosedStays(Apply(d, steps[0]), steps[1..], atX, c);
    }
  }

  // ---------------------------------------------------------------- Building schedules

  // Every run can be continued until nothing more can happen.
  lemma {:induction false} Finish(d: Pair) returns (steps: seq<Step>)
    requires Sound(d)
    ensures Runs(d, steps) && Quiescent(After(d, steps))
    decreases Measure(d)
  {
    steps := [];
    if !Quiescent(d) {
      var step :| Enabled(d, step);
      StepSound(d, step);
      StepShrinks(d, step);
      var rest := Finish(Apply(d, step));
      RunsOne(d, step);
      RunsConcat(d, [step], rest);
      steps := [step] + rest;
    }
  }

  ghost predicate Kept(d: Pair, m: Pair, atX: bool, c: nat)
    requires c < |Here(d, atX).ends| && c < |Here(m, atX).ends|
  {
    Here(d, atX).ends[c] != Waiting ==> Here(m, atX).ends[c] == Here(d, atX).ends[c]
  }

  // Admitting, at one side, all the connections from i on but one.
  lemma {:induction false} Drain(d: Pair, atX: bool, except: nat, i: nat) returns (steps: seq<Step>)
    requires Sound(d) && i <= |d.byX|
    requires forall c :: 0 <= c < i && c != except ==> Here(d, atX).ends[c] != Waiting
    ensures Runs(d, steps)
    ensures var m := After(d, steps);
            Sound(m) && m.byX == d.byX && Here(m, !atX) == Here(d, !atX)
            && Here(m, atX).core.me == Here(d, atX).core.me
            && (forall c :: 0 <= c < |d.byX| && c != except ==> Here(m, atX).ends[c] != Waiting)
            && (forall c :: 0 <= c < |d.byX| ==> Kept(d, m, atX, c))
            && (except < |d.byX| ==> Here(m, atX).ends[except] == Here(d, atX).ends[except])
    ensures var m := After(d, steps);
            Held(d, atX).Some? && (forall c :: 0 <= c < |d.byX| ==> !Wins(d, c)) ==>
              Held(m, atX) == Held(d, atX)
              && forall c :: 0 <= c < |d.byX| && c != except && Here(d, atX).ends[c] == Waiting ==>
                   Here(m, atX).ends[c] == Closed
    decreases |d.byX| - i
  {
    steps := [];
    if i < |d.byX| {
      if i == except || Here(d, atX).ends[i] != Waiting {
        steps := Drain(d, atX, except, i + 1);
      } else {
        var step := AdmitAt(atX, i);
        StepSound(d, step);
        AdmitEffect(d, atX, i);
        var m := Apply(d, step);
        var rest := Drain(m, atX, except, i + 1);
        RunsOne(d, step);
        RunsConcat(d, [step], rest);
        steps := [step] + rest;
        DrainStep(d, m, After(m, rest), atX, except, i);
      }
    }
  }

  lemma DrainStep(d: Pair, m: Pair, e: Pair, atX: bool, except: nat, i: nat)
    requires Sound(d) && Sound(m) && Sound(e) && m.byX == d.byX == e.byX
    requires i < |d.byX| && i != except && Here(d, atX).ends[i] == Waiting
    requires Here(m, !atX) == Here(d, !atX) && Here(m, atX).core.me == Here(d, atX).core.me
    requires var taken := Held(d, atX).None? || Wins(d, i);
             Here(m, atX).ends == Here(d, atX).ends[i := if taken then Up else Closed]
             && Held(m, atX) == if taken then Some(i) else Held(d, atX)
    requires forall c :: 0 <= c < |d.byX| ==> Kept(m, e, atX, c)
    requires Held(m, atX).Some? && (forall c :: 0 <= c < |d.byX| ==> !Wins(m, c)) ==>
               Held(e, atX) == Held(m, atX)
               && forall c :: 0 <= c < |d.byX| && c != except && Here(m, atX).ends[c] == Waiting ==>
                    Here(e, atX).ends[c] == Closed
    ensures forall c :: 0 <= c < |d.byX| ==> Kept(d, e, atX, c)
    ensures Held(d, atX).Some? && (forall c :: 0 <= c < |d.byX| ==> !Wins(d, c)) ==>
              Held(e, atX) == Held(d, atX)
              && forall c :: 0 <= c < |d.byX| && c != except && Here(d, atX).ends[c] == Waiting ==>
                   Here(e, atX).ends[c] == Closed
  {
    forall c | 0 <= c < |d.byX| ensures Wins(m, c) == Wins(d, c) {
    }
    forall c | 0 <= c < |d.byX| ensures Kept(d, e, atX, c) {
      assert Kept(m, e, atX, c);
    }
    assert Kept(m, e, atX, i);
  }

  // A schedule in which w is the last to be admitted at one side.
  lemma AdmitLast(d: Pair, atX: bool, w: nat) returns (steps: seq<Step>)
    requires Sound(d) && w < |d.byX| && Wins(d, w) && Here(d, atX).ends[w] == Waiting
    ensures Runs(d, steps)
    ensures var m := After(d, steps);
            Sound(m) && m.byX == d.byX && Here(m, !atX) == Here(d, !atX)
            && Here(m, atX).core.me == Here(d, atX).core.me
            && AllArrived(m, atX) && Held(m, atX) == Some(w)
  {
    steps := Drain(d, atX, w, 0);
    var m := After(d, steps);
    AdmitEffect(m, atX, w);
    StepSound(m, AdmitAt(atX, w));
    RunsOne(m, AdmitAt(atX, w));
    RunsConcat(d, steps, [AdmitAt(atX, w)]);
    steps := steps + [AdmitAt(atX, w)];
  }

  // Two dials by the smaller key: let a different one arrive last at each end.
  lemma TwoSmallDialsMaySplit(x: Key, y: Key, byX: seq<bool>, a: nat, b: nat)
      returns (steps: seq<Step>)
    requires x != y && a < |byX| && b < |byX| && a != b
    requires byX[a] == Less(x, y) && byX[b] == Less(x, y)
    ensures Runs(Begin(x, y, byX), steps)
    ensures var d := After(Begin(x, y, byX), steps);
            Quiescent(d) && Held(d, true) == Some(a) && Held(d, false) == Some(b)
  {
    var d0 := Begin(x, y, byX);
    BeginSound(x, y, byX);
    var s1 := AdmitLast(d0, true, a);
    var d1 := After(d0, s1);
    assert Here(d1, false) == Here(d0, false);
    assert Held(d1, true) == Some(a);
    var s2 := AdmitLast(d1, false, b);
    var d2 := After(d1, s2);
    assert Here(d2, !false) == Here(d1, !false);
    assert Held(d2, true) == Some(a) && AllArrived(d2, true);
    var s3 := Finish(d2);
    HeldWinnerStays(d2, s3, true, a);
    HeldWinnerStays(d2, s3, false, b);
    RunsConcat(d1, s2, s3);
    RunsConcat(d0, s1, s2 + s3);
    steps := s1 + (s2 + s3);
  }

  // Only the larger key dialled, and more than once: let each end take a
  // different one first. Each refuses the other's choice and both lose theirs.
  lemma LargeDialsMayAllDie(x: Key, y: Key, byX: seq<bool>) returns (steps: seq<Step>)
    requires x != y && |byX| >= 2
    requires forall c :: 0 <= c < |byX| ==> byX[c] != Less(x, y)
    ensures Runs(Begin(x, y, byX), steps)
    ensures var d := After(Begin(x, y, byX), steps);
            Quiescent(d) && Held(d, true) == None && Held(d, false) == None
  {
    var d0 := Begin(x, y, byX);
    BeginSound(x, y, byX);
    var d1 := Apply(d0, AdmitAt(true, 0));
    StepSound(d0, AdmitAt(true, 0));
    AdmitEffect(d0, true, 0);
    assert Held(d1, false) == None;
    var d2 := Apply(d1, AdmitAt(false, 1));
    StepSound(d1, AdmitAt(false, 1));
    AdmitEffect(d1, false, 1);
    assert Here(d2, !false) == Here(d1, !false);
    assert Held(d2, true) == Some(0);
    RunsOne(d0, AdmitAt(true, 0));
    RunsOne(d1, AdmitAt(false, 1));
    RunsConcat(d0, [AdmitAt(true, 0)], [AdmitAt(false, 1)]);
    var rest := RefuseTheRest(d2);
    RunsConcat(d0, [AdmitAt(true, 0)] + [AdmitAt(false, 1)], rest);
    steps := [AdmitAt(true, 0)] + [AdmitAt(false, 1)] + rest;
  }

  lemma RefuseTheRest(d: Pair) returns (steps: seq<Step>)
    requires Sound(d) && |d.byX| >= 2 && forall c :: 0 <= c < |d.byX| ==> !Wins(d, c)
    requires Held(d, true) == Some(0) && Held(d, false) == Some(1)
    requires forall c :: 0 <= c < |d.byX| && c != 0 ==> d.x.ends[c] == Waiting
    requires forall c :: 0 <= c < |d.byX| && c != 1 ==> d.y.ends[c] == Waiting
    ensures Runs(d, steps)
    ensures Quiescent(After(d, steps))
    ensures Held(After(d, steps), true) == None && Held(After(d, steps), false) == None
  {
    var s1 := Drain(d, true, |d.byX|, 0);
    var d1 := After(d, s1);
    RunSound(d, s1);
    assert Here(d1, false) == Here(d, false);
    assert Held(d1, false) == Some(1);
    var s2 := Drain(d1, false, |d.byX|, 0);
    var d2 := After(d1, s2);
    assert Here(d2, !false) == Here(d1, !false);
    var s3 := Finish(d2);
    AllHalfClosed(d2, s3);
    RunsConcat(d1, s2, s3);
    RunsConcat(d, s1, s2 + s3);
    steps := s1 + (s2 + s3);
  }

  lemma AllHalfClosed(d: Pair, steps: seq<Step>)
    requires Sound(d) && Runs(d, steps) && Quiescent(After(d, steps))
    requires forall c :: 0 <= c < |d.byX| ==> d.x.ends[c] == Closed || d.y.ends[c] == Closed
    ensures Held(After(d, steps), true) == None && Held(After(d, steps), false) == None
  {
    RunSound(d, steps);
    var m := After(d, steps);
    forall c | 0 <= c < |d.byX| ensures m.x.ends[c] != Up && m.y.ends[c] != Up {
      if d.x.ends[c] == Closed {
        ClosedStays(d, steps, true, c);
      } else {
        ClosedStays(d, steps, false, c);
      }
      QuiescentEnds(m, true, c);
    }
  }

  // ------------------------------------------------------------------- The condition

  ghost predicate SurelySettles(x: Key, y: Key, byX: seq<bool>) {
    forall steps :: Runs(Begin(x, y, byX), steps) && Quiescent(After(Begin(x, y, byX), steps)) ==>
      Settled(After(Begin(x, y, byX), steps))
  }

  predicate OneSmallDial(x: Key, y: Key, byX: seq<bool>) {
    exists w :: 0 <= w < |byX| && byX[w] == Less(x, y)
      && forall c :: 0 <= c < |byX| && byX[c] == Less(x, y) ==> c == w
  }

  // The two ends are sure to settle on one connection exactly when the smaller
  // key dialled once, or there is only one connection at all.
  lemma SettlesExactlyWhen(x: Key, y: Key, byX: seq<bool>)
    requires x != y
    ensures SurelySettles(x, y, byX) <==> OneSmallDial(x, y, byX) || |byX| == 1
  {
    if OneSmallDial(x, y, byX) {
      SettlesIf(x, y, byX);
    } else if |byX| == 1 {
      LoneDialSettles(x, y, byX);
    } else {
      MayNotSettle(x, y, byX);
    }
  }

  lemma SettlesIf(x: Key, y: Key, byX: seq<bool>)
    requires x != y && OneSmallDial(x, y, byX)
    ensures SurelySettles(x, y, byX)
  {
    var w :| 0 <= w < |byX| && byX[w] == Less(x, y)
             && forall c :: 0 <= c < |byX| && byX[c] == Less(x, y) ==> c == w;
    forall steps | Runs(Begin(x, y, byX), steps) && Quiescent(After(Begin(x, y, byX), steps))
      ensures Settled(After(Begin(x, y, byX), steps))
    {
      OneSmallDialSettles(x, y, byX, steps, w);
    }
  }

  lemma MayNotSettle(x: Key, y: Key, byX: seq<bool>)
    requires x != y && !OneSmallDial(x, y, byX) && |byX| != 1
    ensures !SurelySettles(x, y, byX)
  {
    var steps: seq<Step> := [];
    if byX == [] {
      BeginSound(x, y, byX);
      steps := Finish(Begin(x, y, byX));
      RunSound(Begin(x, y, byX), steps);
      assert Sound(After(Begin(x, y, byX), steps));
    } else if a :| 0 <= a < |byX| && byX[a] == Less(x, y) {
      var b :| 0 <= b < |byX| && byX[b] == Less(x, y) && b != a;
      steps := TwoSmallDialsMaySplit(x, y, byX, a, b);
    } else {
      steps := LargeDialsMayAllDie(x, y, byX);
    }
    assert !Settled(After(Begin(x, y, byX), steps));
  }

  // With a single connection nothing is ever refused.
  ghost predicate Lone(d: Pair) {
    && |d.byX| == 1
    && d.x.ends != [Closed] && d.y.ends != [Closed]
    && (d.x.ends == [Up] ==> Held(d, true) == Some(0))
    && (d.y.ends == [Up] ==> Held(d, false) == Some(0))
  }

  lemma LoneStep(d: Pair, step: Step)
    requires Sound(d) && Lone(d) && Enabled(d, step)
    ensures Lone(Apply(d, step))
  {
    assert d.x.ends == [d.x.ends[0]] && d.y.ends == [d.y.ends[0]];
    match step
    case AdmitAt(atX, c) =>
      AdmitEffect(d, atX, c);
      assert Held(d, atX).None?;
      assert Held(Apply(d, step), !atX) == Held(d, !atX);
    case DisconnectAt(_, _) =>
  }

  lemma {:induction false} LoneRun(d: Pair, steps: seq<Step>)
    requires Sound(d) && Lone(d) && Runs(d, steps)
    ensures Lone(After(d, steps))
    decreases |steps|
  {
    if steps != [] {
      StepSound(d, steps[0]);
      LoneStep(d, steps[0]);
      LoneRun(Apply(d, steps[0]), steps[1..]);
    }
  }

  lemma LoneDialSettles(x: Key, y: Key, byX: seq<bool>)
    requires x != y && |byX| == 1
    ensures SurelySettles(x, y, byX)
  {
    BeginSound(x, y, byX);
    forall steps | Runs(Begin(x, y, byX), steps) && Quiescent(After(Begin(x, y, byX), steps))
      ensures Settled(After(Begin(x, y, byX), steps))
    {
      var d := After(Begin(x, y, byX), steps);
      RunSound(Begin(x, y, byX), steps);
      LoneRun(Begin(x, y, byX), steps);
      QuiescentEnds(d, true, 0);
      QuiescentEnds(d, false, 0);
      assert d.x.ends == [d.x.ends[0]] && d.y.ends == [d.y.ends[0]];
    }
  }

  // -------------------------------------------------------------- What is left behind

  // Both ends of c are up: neither sees the other close, so neither ever closes.
  ghost predicate BothUp(d: Pair, c: nat) {
    c < |d.x.ends| && c < |d.y.ends| && d.x.ends[c] == Up && d.y.ends[c] == Up
  }

  lemma BothUpStep(d: Pair, step: Step, c: nat)
    requires Sound(d) && Enabled(d, step) && BothUp(d, c)
    ensures BothUp(Apply(d, step), c)
  {
    hide Sound;
    match step
    case AdmitAt(at, e) => AdmitEffect(d, at, e);
    case DisconnectAt(at, e) => DisconnectEffect(d, at, e);
  }

  lemma {:induction false} BothUpStays(d: Pair, steps: seq<Step>, c: nat)
    requires Sound(d) && Runs(d, steps) && BothUp(d, c)
    ensures BothUp(After(d, steps), c)
    decreases |steps|
  {
    hide Sound, Apply, Enabled, BothUp;
    if steps != [] {
      StepSound(d, steps[0]);
      BothUpStep(d, steps[0], c);
      BothUpStays(Apply(d, steps[0]), steps[1..], c);
    }
  }

  // Settling does not retire the losers. Whatever the smaller key's dial w is up
  // against, any other connection c may be taken by both ends first. Then w comes
  // (and is what both maps point to, if it is the smaller key's only dial), and c
  // stays open with nothing left to close it.
  lemma LoserMayStayOpen(x: Key, y: Key, byX: seq<bool>, w: nat, c: nat) returns (steps: seq<Step>)
    requires x != y && w < |byX| && c < |byX| && w != c && byX[w] == Less(x, y)
    ensures Runs(Begin(x, y, byX), steps)
    ensures var d := After(Begin(x, y, byX), steps);
            Quiescent(d) && BothUp(d, w) && BothUp(d, c)
            && ((forall e :: 0 <= e < |byX| && byX[e] == Less(x, y) ==> e == w) ==>
                  Held(d, true) == Held(d, false) == Some(w))
  {
    var d0 := Begin(x, y, byX);
    BeginSound(x, y, byX);
    var taken := TakeFirst(d0, c);
    var d2 := After(d0, taken);
    RunSound(d0, taken);
    var rest := Finish(d2);
    hide Sound, Quiescent, Runs, Begin;
    BothUpStays(d2, rest, c);
    RunSound(d2, rest);
    RunsConcat(d0, taken, rest);
    steps := taken + rest;
    WinnerEndsUp(After(d2, rest), w);
    if forall e :: 0 <= e < |byX| && byX[e] == Less(x, y) ==> e == w {
      OneSmallDialSettles(x, y, byX, steps, w);
    }
  }

  lemma TakeFirst(d: Pair, c: nat) returns (steps: seq<Step>)
    requires Sound(d) && c < |d.byX| && Held(d, true) == None && Held(d, false) == None
    requires d.x.ends[c] == Waiting && d.y.ends[c] == Waiting
    ensures Runs(d, steps) && BothUp(After(d, steps), c)
  {
    var d1 := Apply(d, AdmitAt(true, c));
    StepSound(d, AdmitAt(true, c));
    AdmitEffect(d, true, c);
    assert Here(d1, false) == Here(d, false) && Held(d1, false) == None;
    AdmitEffect(d1, false, c);
    var d2 := Apply(d1, AdmitAt(false, c));
    assert Here(d2, !false) == Here(d1, true);
    hide Apply, Enabled;
    RunsOne(d, AdmitAt(true, c));
    RunsOne(d1, AdmitAt(false, c));
    RunsConcat(d, [AdmitAt(true, c)], [AdmitAt(false, c)]);
    steps := [AdmitAt(true, c)] + [AdmitAt(false, c)];
  }

  lemma WinnerEndsUp(d: Pair, w: nat)
    requires Sound(d) && Quiescent(d) && w < |d.byX| && Wins(d, w)
    ensures BothUp(d, w)
  {
    assert SideSound(d, true) && SideSound(d, false);
    QuiescentEnds(d, true, w);
    QuiescentEnds(d, false, w);
  }

  // With no dial of the smaller key nothing supersedes: what is up is held.
  ghost predicate NoneWins(d: Pair) {
    forall c :: 0 <= c < |d.byX| ==> !Wins(d, c)
  }

  ghost predicate OnlyHeldUp(d: Pair, atX: bool) {
    forall c :: 0 <= c < |Here(d, atX).ends| && Here(d, atX).ends[c] == Up ==> Held(d, atX) == Some(c)
  }

  lemma OnlyHeldUpStep(d: Pair, step: Step, atX: bool)
    requires Sound(d) && NoneWins(d) && Enabled(d, step) && OnlyHeldUp(d, atX)
    ensures NoneWins(Apply(d, step)) && OnlyHeldUp(Apply(d, step), atX)
  {
    StepSound(d, step);
    hide Sound, Less;
    match step
    case AdmitAt(at, c) =>
      AdmitEffect(d, at, c);
      assert at != atX ==> Held(Apply(d, step), atX) == Held(d, atX);
    case DisconnectAt(at, c) =>
      DisconnectEffect(d, at, c);
      assert at != atX ==> Held(Apply(d, step), atX) == Held(d, atX);
  }

  lemma {:induction false} OnlyHeldUpRun(d: Pair, steps: seq<Step>, atX: bool)
    requires Sound(d) && NoneWins(d) && Runs(d, steps) && OnlyHeldUp(d, atX)
    ensures OnlyHeldUp(After(d, steps), atX)
    decreases |steps|
  {
    hide Sound, NoneWins, Apply, Enabled, OnlyHeldUp;
    if steps != [] {
      StepSound(d, steps[0]);
      OnlyHeldUpStep(d, steps[0], atX);
      OnlyHeldUpRun(Apply(d, steps[0]), steps[1..], atX);
    }
  }

  // No quiescent state has two connections up at one end.
  ghost predicate SurelyRetires(x: Key, y: Key, byX: seq<bool>) {
    forall steps, atX, a: nat, b: nat ::
      Runs(Begin(x, y, byX), steps) && Quiescent(After(Begin(x, y, byX), steps))
      && UpAt(After(Begin(x, y, byX), steps), atX, a) && UpAt(After(Begin(x, y, byX), steps), atX, b) ==>
        a == b
  }

  ghost predicate UpAt(d: Pair, atX: bool, c: nat) {
    c < |Here(d, atX).ends| && Here(d, atX).ends[c] == Up
  }

  // Losing connections are sure to be retired exactly when there is nothing to
  // lose against: a single connection, or no dial of the smaller key.
  lemma LosersRetireExactlyWhen(x: Key, y: Key, byX: seq<bool>)
    requires x != y
    ensures SurelyRetires(x, y, byX) <==>
              |byX| <= 1 || forall c :: 0 <= c < |byX| ==> byX[c] != Less(x, y)
  {
    if |byX| <= 1 {
      LoneRetires(x, y, byX);
    } else if w :| 0 <= w < |byX| && byX[w] == Less(x, y) {
      var c := if w == 0 then 1 else 0;
      var steps := LoserMayStayOpen(x, y, byX, w, c);
      assert UpAt(After(Begin(x, y, byX), steps), true, w);
      assert UpAt(After(Begin(x, y, byX), steps), true, c);
    } else {
      UnopposedRetire(x, y, byX);
    }
  }

  lemma LoneRetires(x: Key, y: Key, byX: seq<bool>)
    requires x != y && |byX| <= 1
    ensures SurelyRetires(x, y, byX)
  {
    forall steps, atX, a: nat, b: nat |
      Runs(Begin(x, y, byX), steps) && Quiescent(After(Begin(x, y, byX), steps))
      && UpAt(After(Begin(x, y, byX), steps), atX, a) && UpAt(After(Begin(x, y, byX), steps), atX, b)
      ensures a == b
    {
      BeginSound(x, y, byX);
      RunSound(Begin(x, y, byX), steps);
      assert SideSound(After(Begin(x, y, byX), steps), atX);
    }
  }

  lemma UnopposedRetire(x: Key, y: Key, byX: seq<bool>)
    requires x != y && forall c :: 0 <= c < |byX| ==> byX[c] != Less(x, y)
    ensures SurelyRetires(x, y, byX)
  {
    BeginSound(x, y, byX);
    forall steps, atX, a: nat, b: nat |
      Runs(Begin(x, y, byX), steps) && Quiescent(After(Begin(x, y, byX), steps))
      && UpAt(After(Begin(x, y, byX), steps), atX, a) && UpAt(After(Begin(x, y, byX), steps), atX, b)
      ensures a == b
    {
      OnlyHeldUpRun(Begin(x, y, byX), steps, atX);
    }
  }
}
