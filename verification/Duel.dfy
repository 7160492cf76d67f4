// Two nodes dialling each other: which connections survive, when neither end
// negotiates. Both ends run the admission and disconnect of NodeState; a refused
// connection is closed, and the other end sees that only later.
module Duel {
  import opened Counting
  import opened Results
  import opened Keys
  import opened Peers
  import opened NodeState

  // One end of a connection: handshake not done, pumping, or closed.
  datatype End = Waiting | Up | Closed

  datatype Side = Side(core: Core, ends: seq<End>)

  // `byX[c]` says who dialled connection c.
  datatype Pair = Pair(byX: seq<bool>, x: Side, y: Side)

  datatype Step = AdmitAt(atX: bool, c: nat) | DisconnectAt(atX: bool, c: nat)

  function Begin(x: Key, y: Key, byX: seq<bool>): Pair {
    Pair(byX, Side(Core(x, map[], map[], {}), seq(|byX|, i => Waiting)),
         Side(Core(y, map[], map[], {}), seq(|byX|, i => Waiting)))
  }

  function Here(d: Pair, atX: bool): Side {
    if atX then d.x else d.y
  }

  function With(d: Pair, atX: bool, side: Side): Pair {
    if atX then d.(x := side) else d.(y := side)
  }

  function Them(d: Pair, atX: bool): Key {
    Here(d, !atX).core.me
  }

  function Met(key: Key): Peer {
    Peer("", key, "")
  }

  ghost predicate Enabled(d: Pair, step: Step) {
    match step
    case AdmitAt(atX, c) =>
      c < |d.byX| && c < |Here(d, atX).ends| && Here(d, atX).ends[c] == Waiting
    case DisconnectAt(atX, c) =>
      && c < |Here(d, atX).ends| && Here(d, atX).ends[c] == Up
      && c < |Here(d, !atX).ends| && Here(d, !atX).ends[c] == Closed
  }

  ghost function Apply(d: Pair, step: Step): Pair
    requires Enabled(d, step)
  {
    match step
    case AdmitAt(atX, c) =>
      var side, inbound := Here(d, atX), d.byX[c] != atX;
      var refused := Decide(side.core.me, side.core.registry.Keys, Them(d, atX), inbound).Refuse?;
      With(d, atX, Side(AdmitConnection(side.core, Met(Them(d, atX)), inbound, c),
                        side.ends[c := if refused then Closed else Up]))
    case DisconnectAt(atX, c) =>
      var side := Here(d, atX);
      With(d, atX, Side(Retire(side.core, Them(d, atX), c), side.ends[c := Closed]))
  }

  ghost predicate Runs(d: Pair, steps: seq<Step>)
    decreases |steps|
  {
    steps == [] || (Enabled(d, steps[0]) && Runs(Apply(d, steps[0]), steps[1..]))
  }

  ghost function After(d: Pair, steps: seq<Step>): Pair
    requires Runs(d, steps)
    decreases |steps|
  {
    if steps == [] then d else After(Apply(d, steps[0]), steps[1..])
  }

  ghost predicate Quiescent(d: Pair) {
    forall step :: !Enabled(d, step)
  }

  // The connection a node's map points to.
  function Held(d: Pair, atX: bool): Option<nat> {
    var connections, them := Here(d, atX).core.connections, Them(d, atX);
    if them in connections then Some(connections[them]) else None
  }

  // Both maps point to one and the same connection.
  ghost predicate Settled(d: Pair) {
    Held(d, true).Some? && Held(d, true) == Held(d, false)
  }

  // -------------------------------------------------------------- What every step keeps

  // Connection c is a dial of the smaller key.
  predicate Wins(d: Pair, c: nat)
    requires c < |d.byX|
  {
    d.byX[c] == Less(d.x.core.me, d.y.core.me)
  }

  ghost predicate WinnerUp(d: Pair, atX: bool, c: nat) {
    c < |d.byX| && c < |Here(d, atX).ends| && Wins(d, c) && Here(d, atX).ends[c] == Up
  }

  ghost predicate SideSound(d: Pair, atX: bool) {
    var side, them := Here(d, atX), Them(d, atX);
    && |side.ends| == |d.byX|
    && side.core.connections.Keys == side.core.registry.Keys
    && (Held(d, atX).Some? ==> Held(d, atX).value < |d.byX| && side.ends[Held(d, atX).value] == Up)
    && (forall c :: 0 <= c < |d.byX| && Wins(d, c) ==> side.ends[c] != Closed)
    && (forall c :: WinnerUp(d, atX, c) ==> Held(d, atX).Some? && Wins(d, Held(d, atX).value))
  }

  ghost predicate Sound(d: Pair) {
    d.x.core.me != d.y.core.me && SideSound(d, true) && SideSound(d, false)
  }

  lemma Verdict(d: Pair, atX: bool, c: nat)
    requires Sound(d) && Enabled(d, AdmitAt(atX, c))
    ensures var side := Here(d, atX);
            Decide(side.core.me, side.core.registry.Keys, Them(d, atX), d.byX[c] != atX)
            == if Held(d, atX).None? then Join
               else if Wins(d, c) then Supersede else Refuse(DuplicateConnection)
  {
    BothEndsAgree(d.x.core.me, d.y.core.me, d.byX[c]);
  }

  // An admission, in terms of the map: a newcomer is taken when there is nothing
  // to compare it with or it wins, and refused otherwise.
  lemma AdmitEffect(d: Pair, atX: bool, c: nat)
    requires Sound(d) && Enabled(d, AdmitAt(atX, c))
    ensures var m := Apply(d, AdmitAt(atX, c));
            var taken := Held(d, atX).None? || Wins(d, c);
            m.byX == d.byX && Here(m, !atX) == Here(d, !atX)
            && Here(m, atX).core.me == Here(d, atX).core.me
            && Here(m, atX).core.connections.Keys == Here(m, atX).core.registry.Keys
            && Held(m, atX) == (if taken then Some(c) else Held(d, atX))
            && Here(m, atX).ends == Here(d, atX).ends[c := if taken then Up else Closed]
  {
    Verdict(d, atX, c);
  }

  lemma AdmitSound(d: Pair, atX: bool, c: nat)
    requires Sound(d) && Enabled(d, AdmitAt(atX, c))
    ensures Sound(Apply(d, AdmitAt(atX, c)))
  {
    var m := Apply(d, AdmitAt(atX, c));
    AdmitEffect(d, atX, c);
    var other := !atX;
    assert Held(m, other) == Held(d, other);
    assert SideSound(m, other) by {
      forall w | WinnerUp(m, other, w) ensures WinnerUp(d, other, w) {
      }
    }
    forall w | WinnerUp(m, atX, w) && w != c ensures WinnerUp(d, atX, w) {
    }
  }

  lemma DisconnectEffect(d: Pair, atX: bool, c: nat)
    requires Sound(d) && Enabled(d, DisconnectAt(atX, c))
    ensures var m := Apply(d, DisconnectAt(atX, c));
            m.byX == d.byX && Here(m, !atX) == Here(d, !atX) && !Wins(d, c)
            && Here(m, atX).core.me == Here(d, atX).core.me
            && Here(m, atX).core.connections.Keys == Here(m, atX).core.registry.Keys
            && Held(m, atX) == (if Held(d, atX) == Some(c) then None else Held(d, atX))
            && Here(m, atX).ends == Here(d, atX).ends[c := Closed]
  {
    assert SideSound(d, atX) && SideSound(d, !atX);
  }

  lemma DisconnectSound(d: Pair, atX: bool, c: nat)
    requires Sound(d) && Enabled(d, DisconnectAt(atX, c))
    ensures Sound(Apply(d, DisconnectAt(atX, c)))
  {
    var m := Apply(d, DisconnectAt(atX, c));
    DisconnectEffect(d, atX, c);
    var other := !atX;
    assert Held(m, other) == Held(d, other);
    assert SideSound(m, other) by {
      forall w | WinnerUp(m, other, w) ensures WinnerUp(d, other, w) {
      }
    }
    forall w | WinnerUp(m, atX, w) ensures WinnerUp(d, atX, w) {
    }
  }

  lemma StepSound(d: Pair, step: Step)
    requires Sound(d) && Enabled(d, step)
    ensures Sound(Apply(d, step)) && Apply(d, step).byX == d.byX
    ensures forall c :: 0 <= c < |d.byX| ==> Wins(Apply(d, step), c) == Wins(d, c)
  {
    match step
    case AdmitAt(atX, c) => AdmitSound(d, atX, c); AdmitEffect(d, atX, c);
    case DisconnectAt(atX, c) => DisconnectSound(d, atX, c); DisconnectEffect(d, atX, c);
  }

  lemma {:induction false} RunSound(d: Pair, steps: seq<Step>)
    requires Sound(d) && Runs(d, steps)
    ensures Sound(After(d, steps)) && After(d, steps).byX == d.byX
    ensures forall c :: 0 <= c < |d.byX| ==> Wins(After(d, steps), c) == Wins(d, c)
    decreases |steps|
  {
    if steps != [] {
      StepSound(d, steps[0]);
      RunSound(Apply(d, steps[0]), steps[1..]);
    }
  }

  lemma BeginSound(x: Key, y: Key, byX: seq<bool>)
    requires x != y
    ensures Sound(Begin(x, y, byX))
    ensures forall c :: 0 <= c < |byX| ==> (Wins(Begin(x, y, byX), c) <==> byX[c] == Less(x, y))
  {
  }

  // ------------------------------------------------------------------ Runs are finite

  function IsWaiting(): End -> bool { (e: End) => e == Waiting }

  function IsUp(): End -> bool { (e: End) => e == Up }

  function Work(ends: seq<End>): nat {
    2 * CountIf(ends, IsWaiting()) + CountIf(ends, IsUp())
  }

  function Measure(d: Pair): nat {
    Work(d.x.ends) + Work(d.y.ends)
  }

  lemma WorkShrinks(ends: seq<End>, c: nat, e: End)
    requires c < |ends| && ((ends[c] == Waiting && e != Waiting) || (ends[c] == Up && e == Closed))
    ensures Work(ends[c := e]) < Work(ends)
  {
    CountUpdate(ends, c, e, IsWaiting());
    CountUpdate(ends, c, e, IsUp());
  }

  lemma StepShrinks(d: Pair, step: Step)
    requires Sound(d) && Enabled(d, step)
    ensures Measure(Apply(d, step)) < Measure(d)
  {
    match step
    case AdmitAt(atX, c) =>
      AdmitEffect(d, atX, c);
      WorkShrinks(Here(d, atX).ends, c, Here(Apply(d, step), atX).ends[c]);
    case DisconnectAt(atX, c) =>
      DisconnectEffect(d, atX, c);
      WorkShrinks(Here(d, atX).ends, c, Closed);
  }

  lemma {:induction false} RunsAreFinite(d: Pair, steps: seq<Step>)
    requires Sound(d) && Runs(d, steps)
    ensures |steps| <= Measure(d)
    decreases |steps|
  {
    if steps != [] {
      StepSound(d, steps[0]);
      StepShrinks(d, steps[0]);
      RunsAreFinite(Apply(d, steps[0]), steps[1..]);
    }
  }

  // --------------------------------------------------------------- When duels settle

  lemma QuiescentEnds(d: Pair, atX: bool, c: nat)
    requires Sound(d) && Quiescent(d) && c < |d.byX|
    ensures Here(d, atX).ends[c] != Waiting
    ensures Here(d, atX).ends[c] == Up <==> Here(d, !atX).ends[c] == Up
  {
    assert !Enabled(d, AdmitAt(atX, c)) && !Enabled(d, AdmitAt(!atX, c));
    assert !Enabled(d, DisconnectAt(atX, c)) && !Enabled(d, DisconnectAt(!atX, c));
  }

  // The smaller key's dials are never closed, at either end, and once one is up
  // only another of them can replace it. In particular a lone one is kept.
  lemma SmallerKeysDialIsKept(x: Key, y: Key, byX: seq<bool>, steps: seq<Step>, w: nat, atX: bool)
    requires x != y && Runs(Begin(x, y, byX), steps) && w < |byX| && byX[w] == Less(x, y)
    requires forall c :: 0 <= c < |byX| && byX[c] == Less(x, y) ==> c == w
    ensures var d := After(Begin(x, y, byX), steps);
            w < |Here(d, atX).ends| && Here(d, atX).ends[w] != Closed
            && (Here(d, atX).ends[w] == Up ==> Held(d, atX) == Some(w))
  {
    BeginSound(x, y, byX);
    RunSound(Begin(x, y, byX), steps);
    var d := After(Begin(x, y, byX), steps);
    assert SideSound(d, atX);
    assert Wins(d, w);
    if Here(d, atX).ends[w] == Up {
      assert WinnerUp(d, atX, w);
      assert Wins(d, Held(d, atX).value);
    }
  }

  // Exactly one dial by the smaller key, any number by the larger, any
  // interleaving: whenever the dust settles, both maps point to that one.
  lemma OneSmallDialSettles(x: Key, y: Key, byX: seq<bool>, steps: seq<Step>, w: nat)
    requires x != y && Runs(Begin(x, y, byX), steps) && w < |byX| && byX[w] == Less(x, y)
    requires forall c :: 0 <= c < |byX| && byX[c] == Less(x, y) ==> c == w
    requires Quiescent(After(Begin(x, y, byX), steps))
    ensures var d := After(Begin(x, y, byX), steps);
            Held(d, true) == Held(d, false) == Some(w)
  {
    BeginSound(x, y, byX);
    RunSound(Begin(x, y, byX), steps);
    var d := After(Begin(x, y, byX), steps);
    SmallerKeysDialIsKept(x, y, byX, steps, w, true);
    SmallerKeysDialIsKept(x, y, byX, steps, w, false);
    QuiescentEnds(d, true, w);
    QuiescentEnds(d, false, w);
  }
}
