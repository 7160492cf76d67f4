// src/node.rs, `handshake`, under a network adversary. It reads, drops, replays
// and makes up frames at will; what it cannot do is compute the MAC of a room
// code it does not know. Honest nodes may hold different codes, and any number
// of sessions are open at once.
module Handshake {
  import opened Positional
  import opened Results
  import opened RoomCodec
  import opened Keys
  import opened Peers
  import opened AdmissionProof
  import NodeState

  const MAX_NAME_LEN: nat := 32

  // An ideal MAC: equal only for the same code and the same bytes. Anything else
  // sent as a proof is junk.
  datatype Proof = Mac(code: RoomCode, input: seq<Byte>) | Junk(bytes: Tag)

  datatype Hello = Hello(name: string, party: Party, port: nat)

  datatype Error =
    | Closed | ExpectedHello | ExpectedAuth
    | KeyLength | BlankName | LongName | ZeroPort
    | WrongRoom

  // The checks on a Hello, in the order they are made.
  function Refusal(rules: TextRules, hello: Hello): Option<Error> {
    if |hello.party.key| != KEY_LEN then Some(KeyLength)
    else if rules.blank(hello.name) then Some(BlankName)
    else if |hello.name| > MAX_NAME_LEN then Some(LongName)
    else if hello.port == 0 then Some(ZeroPort)
    else None
  }

  // What passes the checks is what gossip about it keeps, but for two checks that
  // gossip does not make. So no frame's receiver takes an admitted peer for unusable.
  lemma GossipKeepsWhatIsAdmitted(rules: TextRules, hello: Hello, listenAddr: string)
    requires rules.isAddress(listenAddr)
    ensures Refusal(rules, hello).None? <==>
              NodeState.WellFormed(rules, Peer(hello.name, hello.party.key, listenAddr))
              && |hello.name| <= MAX_NAME_LEN && hello.port != 0
  {
  }

  // Which fault a Hello is refused for: the first it has, in this order.
  lemma RefusesForTheFirstFault(rules: TextRules, hello: Hello)
    ensures var refusal, key, name := Refusal(rules, hello), hello.party.key, hello.name;
            && (refusal == Some(KeyLength) <==> |key| != 32)
            && (refusal == Some(BlankName) <==> |key| == 32 && rules.blank(name))
            && (refusal == Some(LongName) <==> |key| == 32 && !rules.blank(name) && |name| > 32)
            && (refusal == Some(ZeroPort) <==>
                  |key| == 32 && !rules.blank(name) && |name| <= 32 && hello.port == 0)
            && (refusal == None <==>
                  |key| == 32 && !rules.blank(name) && |name| <= 32 && hello.port != 0)
  {
  }

  function MyProof(code: RoomCode, mine: Party, theirs: Party): Proof {
    Mac(code, ProofInput(mine, theirs))
  }

  predicate Accepts(code: RoomCode, claimed: Proof, theirs: Party, mine: Party) {
    claimed == MyProof(code, theirs, mine)
  }

  // The bytes an ideal proof stands for.
  function Bytes(p: Primitives, proof: Proof): Tag {
    match proof
    case Mac(code, input) => p.hmac(RoomKey(p, code), input)
    case Junk(bytes) => bytes
  }

  // A proof made here is the proof `RoomCode::proof` makes, and passes here exactly
  // when it passes `RoomCode::verify`, as long as the hashes do not collide on it.
  lemma ProofsAreTheRoomCodes(p: Primitives, code: RoomCode, prover: Party, checker: Party,
                              other: RoomCode, theirs: Party, mine: Party)
    requires Checked(prover) && Checked(checker) && Checked(theirs) && Checked(mine)
    requires NoCollision(p, code, ProofInput(prover, checker), other, ProofInput(theirs, mine))
    ensures Bytes(p, MyProof(code, prover, checker)) == ProofOf(p, code, prover, checker)
    ensures Accepts(other, MyProof(code, prover, checker), theirs, mine)
            <==> Bytes(p, MyProof(code, prover, checker)) == ProofOf(p, other, theirs, mine)
  {
    ProofBindsItsInputs(p, code, prover, checker, other, theirs, mine);
  }

  // ------------------------------------------------------------------------ Sessions

  datatype Phase = AwaitingHello | AwaitingAuth | Accepted | Failed(error: Error)

  // One run of `handshake` by the honest node `mine.key`. `theirs` is what it
  // recorded of the other end, once it took the Hello for valid.
  datatype Session = Session(mine: Party, theirs: Option<Party>, phase: Phase)

  // The honest nodes and the code each holds; the codes the adversary knows.
  datatype World = World(rules: TextRules, codes: map<Key, RoomCode>, known: set<RoomCode>)

  datatype State = State(sessions: seq<Session>, sent: set<Proof>)

  datatype Step =
    | Open(mine: Party)
    | TakeHello(s: nat, hello: Hello)
    | TakeAuth(s: nat, proof: Proof)
    | Break(s: nat, error: Error)

  ghost predicate HonestKeys(world: World) {
    forall k :: k in world.codes ==> |k| == KEY_LEN
  }

  // What the adversary can put on the wire.
  predicate CanSend(world: World, state: State, proof: Proof) {
    proof.Junk? || proof.code in world.known || proof in state.sent
  }

  ghost predicate Enabled(world: World, state: State, step: Step) {
    match step
    case Open(mine) =>
      // A nonce is fresh: no other session drew it.
      mine.key in world.codes
      && forall s :: 0 <= s < |state.sessions| ==> state.sessions[s].mine.nonce != mine.nonce
    case TakeHello(s, _) =>
      s < |state.sessions| && state.sessions[s].phase == AwaitingHello
      && state.sessions[s].mine.key in world.codes
    case TakeAuth(s, proof) =>
      && s < |state.sessions| && state.sessions[s].phase == AwaitingAuth
      && state.sessions[s].mine.key in world.codes && state.sessions[s].theirs.Some?
      && CanSend(world, state, proof)
    case Break(s, _) =>
      s < |state.sessions| && state.sessions[s].phase in {AwaitingHello, AwaitingAuth}
  }

  ghost function Apply(world: World, state: State, step: Step): State
    requires Enabled(world, state, step)
  {
    match step
    case Open(mine) => state.(sessions := state.sessions + [Session(mine, None, AwaitingHello)])
    case TakeHello(s, hello) =>
      var session := state.sessions[s];
      match Refusal(world.rules, hello) {
        case Some(error) =>
          state.(sessions := state.sessions[s := session.(phase := Failed(error))])
        case None =>
          State(state.sessions[s := session.(theirs := Some(hello.party), phase := AwaitingAuth)],
                state.sent + {MyProof(world.codes[session.mine.key], session.mine, hello.party)})
      }
    case TakeAuth(s, proof) =>
      var session := state.sessions[s];
      var ok := Accepts(world.codes[session.mine.key], proof, session.theirs.value, session.mine);
      state.(sessions := state.sessions[s :=
               session.(phase := if ok then Accepted else Failed(WrongRoom))])
    case Break(s, error) =>
      state.(sessions := state.sessions[s := state.sessions[s].(phase := Failed(error))])
  }

  ghost predicate Runs(world: World, state: State, steps: seq<Step>)
    decreases |steps|
  {
    steps == []
    || (Enabled(world, state, steps[0]) && Runs(world, Apply(world, state, steps[0]), steps[1..]))
  }

  ghost function After(world: World, state: State, steps: seq<Step>): State
    requires Runs(world, state, steps)
    decreases |steps|
  {
    if steps == [] then state else After(world, Apply(world, state, steps[0]), steps[1..])
  }

  // ---------------------------------------------------------------------- Invariants

  ghost predicate SessionOk(world: World, state: State, s: nat)
    requires s < |state.sessions|
  {
    var session := state.sessions[s];
    && session.mine.key in world.codes
    && (session.phase == AwaitingHello ==> session.theirs.None?)
    && (session.phase == AwaitingAuth ==> session.theirs.Some?)
    && (session.theirs.Some? ==> Checked(session.theirs.value))
    && (session.phase == Accepted ==>
          session.theirs.Some?
          && CanSend(world, state,
               MyProof(world.codes[session.mine.key], session.theirs.value, session.mine)))
  }

  // Session t computed this proof.
  ghost predicate Made(world: World, state: State, t: nat, proof: Proof) {
    && t < |state.sessions| && state.sessions[t].mine.key in world.codes
    && state.sessions[t].theirs.Some?
    && proof == MyProof(world.codes[state.sessions[t].mine.key],
                        state.sessions[t].mine, state.sessions[t].theirs.value)
  }

  ghost predicate FreshNonces(state: State) {
    forall s, t :: 0 <= s < t < |state.sessions| ==>
      state.sessions[s].mine.nonce != state.sessions[t].mine.nonce
  }

  ghost predicate Sound(world: World, state: State) {
    && HonestKeys(world) && FreshNonces(state)
    && (forall s :: 0 <= s < |state.sessions| ==> SessionOk(world, state, s))
    && (forall proof :: proof in state.sent ==> exists t :: Made(world, state, t, proof))
  }

  lemma MadeStays(world: World, state: State, step: Step, t: nat, proof: Proof)
    requires Sound(world, state) && Enabled(world, state, step) && Made(world, state, t, proof)
    ensures Made(world, Apply(world, state, step), t, proof)
  {
    assert SessionOk(world, state, t);
  }

  lemma SentStays(world: World, state: State, step: Step)
    requires Enabled(world, state, step)
    ensures state.sent <= Apply(world, state, step).sent
  {
  }

  lemma SessionStays(world: World, state: State, step: Step, s: nat)
    requires Sound(world, state) && Enabled(world, state, step)
    requires s < |Apply(world, state, step).sessions|
    ensures SessionOk(world, Apply(world, state, step), s)
  {
    SentStays(world, state, step);
    if s < |state.sessions| {
      assert SessionOk(world, state, s);
    }
  }

  lemma ProofStays(world: World, state: State, step: Step, proof: Proof)
    requires Sound(world, state) && Enabled(world, state, step)
    requires proof in Apply(world, state, step).sent
    ensures exists t :: Made(world, Apply(world, state, step), t, proof)
  {
    if proof in state.sent {
      var t :| Made(world, state, t, proof);
      MadeStays(world, state, step, t, proof);
    } else {
      assert Made(world, Apply(world, state, step), step.s, proof);
    }
  }

  lemma StepSound(world: World, state: State, step: Step)
    requires Sound(world, state) && Enabled(world, state, step)
    ensures Sound(world, Apply(world, state, step))
  {
    var next := Apply(world, state, step);
    forall s | 0 <= s < |next.sessions| ensures SessionOk(world, next, s) {
      SessionStays(world, state, step, s);
    }
    forall proof | proof in next.sent ensures exists t :: Made(world, next, t, proof) {
      ProofStays(world, state, step, proof);
    }
  }

  lemma {:induction false} RunSound(world: World, state: State, steps: seq<Step>)
    requires Sound(world, state) && Runs(world, state, steps)
    ensures Sound(world, After(world, state, steps))
    decreases |steps|
  {
    hide Sound, Apply, Enabled;
    if steps != [] {
      StepSound(world, state, steps[0]);
      RunSound(world, Apply(world, state, steps[0]), steps[1..]);
    }
  }

  const FRESH: State := State([], {})

  // ------------------------------------------------------------- Matching conversations

  // Session t is the other half of session s.
  ghost predicate Matches(state: State, s: nat, t: nat) {
    && s < |state.sessions| && t < |state.sessions|
    && state.sessions[s].theirs == Some(state.sessions[t].mine)
    && state.sessions[t].theirs == Some(state.sessions[s].mine)
  }

  // Whoever an honest node accepts, under a code the adversary does not know, is
  // an honest node with that very key and nonce, holding the same code, which ran
  // the handshake with the accepting session and no other.
  lemma MatchingConversations(world: World, steps: seq<Step>, s: nat) returns (t: nat)
    requires HonestKeys(world) && Runs(world, FRESH, steps)
    requires var state := After(world, FRESH, steps);
             s < |state.sessions| && state.sessions[s].phase == Accepted
             && (state.sessions[s].mine.key in world.codes ==>
                   world.codes[state.sessions[s].mine.key] !in world.known)
    ensures var state := After(world, FRESH, steps);
            Matches(state, s, t)
            && state.sessions[t].mine.key in world.codes && state.sessions[s].mine.key in world.codes
            && world.codes[state.sessions[t].mine.key] == world.codes[state.sessions[s].mine.key]
            && (forall u :: Matches(state, s, u) ==> u == t)
            && (forall u :: Matches(state, u, t) ==> u == s)
  {
    RunSound(world, FRESH, steps);
    var state := After(world, FRESH, steps);
    t := Partner(world, state, s);
    forall u | Matches(state, s, u) ensures u == t {
      SameNonce(state, u, t);
    }
    forall u | Matches(state, u, t) ensures u == s {
      SameNonce(state, u, s);
    }
  }

  lemma SameNonce(state: State, u: nat, v: nat)
    requires FreshNonces(state) && u < |state.sessions| && v < |state.sessions|
    requires state.sessions[u].mine == state.sessions[v].mine
    ensures u == v
  {
  }

  lemma Partner(world: World, state: State, s: nat) returns (t: nat)
    requires Sound(world, state)
    requires s < |state.sessions| && state.sessions[s].phase == Accepted
    requires state.sessions[s].mine.key in world.codes ==>
               world.codes[state.sessions[s].mine.key] !in world.known
    ensures Matches(state, s, t)
    ensures state.sessions[t].mine.key in world.codes && state.sessions[s].mine.key in world.codes
    ensures world.codes[state.sessions[t].mine.key] == world.codes[state.sessions[s].mine.key]
  {
    assert SessionOk(world, state, s);
    var session := state.sessions[s];
    var proof := MyProof(world.codes[session.mine.key], session.theirs.value, session.mine);
    t :| Made(world, state, t, proof);
    assert SessionOk(world, state, t);
    ProofInputBinds(session.theirs.value, session.mine,
                    state.sessions[t].mine, state.sessions[t].theirs.value);
  }

  // Two accepted sessions never rest on one proof.
  lemma ProofServesOneSession(world: World, steps: seq<Step>, s: nat, t: nat, proof: Proof)
    requires HonestKeys(world) && Runs(world, FRESH, steps)
    requires var state := After(world, FRESH, steps);
             s < |state.sessions| && t < |state.sessions|
             && state.sessions[s].phase == Accepted && state.sessions[t].phase == Accepted
             && state.sessions[s].theirs.Some? && state.sessions[t].theirs.Some?
             && state.sessions[s].mine.key in world.codes && state.sessions[t].mine.key in world.codes
             && Accepts(world.codes[state.sessions[s].mine.key], proof,
                        state.sessions[s].theirs.value, state.sessions[s].mine)
             && Accepts(world.codes[state.sessions[t].mine.key], proof,
                        state.sessions[t].theirs.value, state.sessions[t].mine)
    ensures s == t
  {
    RunSound(world, FRESH, steps);
    var state := After(world, FRESH, steps);
    assert SessionOk(world, state, s) && SessionOk(world, state, t);
    ProofInputBinds(state.sessions[s].theirs.value, state.sessions[s].mine,
                    state.sessions[t].theirs.value, state.sessions[t].mine);
    SameNonce(state, s, t);
  }

  // A session fed its own proof accepts it only from its own key and nonce, that
  // is, when its own Hello was mirrored too; and then admission refuses it.
  lemma MirroredHandshakeIsRefused(world: World, steps: seq<Step>, s: nat, held: set<Key>, inbound: bool)
    requires HonestKeys(world) && Runs(world, FRESH, steps)
    requires var state := After(world, FRESH, steps);
             s < |state.sessions| && state.sessions[s].theirs.Some?
             && state.sessions[s].mine.key in world.codes
             && Accepts(world.codes[state.sessions[s].mine.key],
                  MyProof(world.codes[state.sessions[s].mine.key],
                          state.sessions[s].mine, state.sessions[s].theirs.value),
                  state.sessions[s].theirs.value, state.sessions[s].mine)
    ensures var session := After(world, FRESH, steps).sessions[s];
            session.theirs.value == session.mine
            && Decide(session.mine.key, held, session.theirs.value.key, inbound)
               == Refuse(SelfConnection)
  {
    RunSound(world, FRESH, steps);
    var state := After(world, FRESH, steps);
    assert SessionOk(world, state, s);
    ProofInputBinds(state.sessions[s].theirs.value, state.sessions[s].mine,
                    state.sessions[s].mine, state.sessions[s].theirs.value);
  }

  // Whoever sends a bad Hello is refused for it and gets no proof; whoever sends a
  // good one gets ours, made for it.
  lemma ProvesOnlyToGoodHellos(world: World, state: State, s: nat, hello: Hello)
    requires Enabled(world, state, TakeHello(s, hello))
    ensures var next, mine := Apply(world, state, TakeHello(s, hello)), state.sessions[s].mine;
            match Refusal(world.rules, hello)
            case Some(error) => next.sent == state.sent && next.sessions[s].phase == Failed(error)
            case None =>
              next.sessions[s] == Session(mine, Some(hello.party), AwaitingAuth)
              && next.sent == state.sent + {MyProof(world.codes[mine.key], mine, hello.party)}
  {
  }

  // Two honest nodes whose frames get through end their sessions alike, after any
  // run: both accept if their codes are equal, and both refuse if not.
  lemma HonestHandshakeCompletes(world: World, steps: seq<Step>, a: Hello, b: Hello)
      returns (rest: seq<Step>)
    requires Runs(world, FRESH, steps)
    requires Enabled(world, After(world, FRESH, steps), Open(a.party))
    requires Enabled(world, After(world, FRESH, steps), Open(b.party))
    requires a.party.nonce != b.party.nonce
    requires Refusal(world.rules, a).None? && Refusal(world.rules, b).None?
    ensures var before := After(world, FRESH, steps);
            var phase := if world.codes[a.party.key] == world.codes[b.party.key] then Accepted
                         else Failed(WrongRoom);
            Runs(world, before, rest)
            && After(world, before, rest).sessions
               == before.sessions + [Session(a.party, Some(b.party), phase),
                                     Session(b.party, Some(a.party), phase)]
  {
    var s0 := After(world, FRESH, steps);
    var n := |s0.sessions|;
    var x, y := a.party, b.party;
    var proofA := MyProof(world.codes[x.key], x, y);
    var proofB := MyProof(world.codes[y.key], y, x);
    var phase := if world.codes[x.key] == world.codes[y.key] then Accepted else Failed(WrongRoom);
    var s2 := s0.(sessions := s0.sessions + [Session(x, None, AwaitingHello),
                                             Session(y, None, AwaitingHello)]);
    var s4 := State(s0.sessions + [Session(x, Some(y), AwaitingAuth), Session(y, Some(x), AwaitingAuth)],
                    s0.sent + {proofA} + {proofB});
    var s6 := s4.(sessions := s0.sessions + [Session(x, Some(y), phase), Session(y, Some(x), phase)]);
    OpenBoth(world, s0, x, y, s2);
    HearBoth(world, s0, s2, a, b, s4);
    CheckBoth(world, s0, s4, x, y, s6);
    hide Enabled, Apply;
    TwoSteps(world, s4, TakeAuth(n, proofB), TakeAuth(n + 1, proofA), []);
    var last := [TakeAuth(n, proofB), TakeAuth(n + 1, proofA)] + [];
    TwoSteps(world, s2, TakeHello(n, b), TakeHello(n + 1, a), last);
    var middle := [TakeHello(n, b), TakeHello(n + 1, a)] + last;
    TwoSteps(world, s0, Open(x), Open(y), middle);
    rest := [Open(x), Open(y)] + middle;
  }

  lemma OpenBoth(world: World, s0: State, x: Party, y: Party, s2: State)
    requires Enabled(world, s0, Open(x)) && Enabled(world, s0, Open(y)) && x.nonce != y.nonce
    requires s2 == s0.(sessions := s0.sessions + [Session(x, None, AwaitingHello),
                                                  Session(y, None, AwaitingHello)])
    ensures var s1 := Apply(world, s0, Open(x));
            Enabled(world, s1, Open(y)) && Apply(world, s1, Open(y)) == s2
  {
  }

  lemma HearBoth(world: World, s0: State, s2: State, a: Hello, b: Hello, s4: State)
    requires var x, y := a.party, b.party;
             x.key in world.codes && y.key in world.codes
             && Refusal(world.rules, a).None? && Refusal(world.rules, b).None?
             && s2 == s0.(sessions := s0.sessions + [Session(x, None, AwaitingHello),
                                                     Session(y, None, AwaitingHello)])
             && s4 == State(s0.sessions + [Session(x, Some(y), AwaitingAuth),
                                           Session(y, Some(x), AwaitingAuth)],
                            s0.sent + {MyProof(world.codes[x.key], x, y)}
                            + {MyProof(world.codes[y.key], y, x)})
    ensures var n := |s0.sessions|;
            Enabled(world, s2, TakeHello(n, b))
            && var s3 := Apply(world, s2, TakeHello(n, b));
               Enabled(world, s3, TakeHello(n + 1, a)) && Apply(world, s3, TakeHello(n + 1, a)) == s4
  {
    hide Refusal, MyProof;
  }

  lemma CheckBoth(world: World, s0: State, s4: State, x: Party, y: Party, s6: State)
    requires x.key in world.codes && y.key in world.codes
    requires s4 == State(s0.sessions + [Session(x, Some(y), AwaitingAuth),
                                        Session(y, Some(x), AwaitingAuth)],
                         s0.sent + {MyProof(world.codes[x.key], x, y)}
                         + {MyProof(world.codes[y.key], y, x)})
    requires var phase := if world.codes[x.key] == world.codes[y.key] then Accepted
                          else Failed(WrongRoom);
             s6 == s4.(sessions := s0.sessions + [Session(x, Some(y), phase), Session(y, Some(x), phase)])
    ensures var n := |s0.sessions|;
            var proofA := MyProof(world.codes[x.key], x, y);
            var proofB := MyProof(world.codes[y.key], y, x);
            Enabled(world, s4, TakeAuth(n, proofB))
            && var s5 := Apply(world, s4, TakeAuth(n, proofB));
               Enabled(world, s5, TakeAuth(n + 1, proofA)) && Apply(world, s5, TakeAuth(n + 1, proofA)) == s6
  {
    hide ProofInput;
  }

  lemma TwoSteps(world: World, state: State, one: Step, two: Step, rest: seq<Step>)
    requires Enabled(world, state, one) && Enabled(world, Apply(world, state, one), two)
    requires Runs(world, Apply(world, Apply(world, state, one), two), rest)
    ensures Runs(world, state, [one, two] + rest)
    ensures After(world, state, [one, two] + rest)
         == After(world, Apply(world, Apply(world, state, one), two), rest)
  {
    Extend(world, Apply(world, state, one), two, rest);
    Extend(world, state, one, [two] + rest);
    assert [one, two] + rest == [one] + ([two] + rest);
  }

  // The code is all the handshake proves. Knowing it, an adversary is accepted
  // under any key it names, with nobody of that key anywhere.
  lemma KnownCodeAdmitsAnyone(world: World, mine: Party, hello: Hello) returns (steps: seq<Step>)
    requires HonestKeys(world) && mine.key in world.codes && world.codes[mine.key] in world.known
    requires Refusal(world.rules, hello).None?
    ensures Runs(world, FRESH, steps)
    ensures After(world, FRESH, steps).sessions == [Session(mine, Some(hello.party), Accepted)]
  {
    var code := world.codes[mine.key];
    var s1 := State([Session(mine, None, AwaitingHello)], {});
    var s2 := State([Session(mine, Some(hello.party), AwaitingAuth)],
                    {MyProof(code, mine, hello.party)});
    var proof := MyProof(code, hello.party, mine);
    var s3 := s2.(sessions := [Session(mine, Some(hello.party), Accepted)]);
    assert Apply(world, FRESH, Open(mine)) == s1;
    assert Apply(world, s1, TakeHello(0, hello)) == s2;
    assert Apply(world, s2, TakeAuth(0, proof)) == s3;
    Extend(world, s2, TakeAuth(0, proof), []);
    Extend(world, s1, TakeHello(0, hello), [TakeAuth(0, proof)] + []);
    Extend(world, FRESH, Open(mine), [TakeHello(0, hello)] + ([TakeAuth(0, proof)] + []));
    steps := [Open(mine)] + ([TakeHello(0, hello)] + ([TakeAuth(0, proof)] + []));
  }

  // Whoever the node k accepts is the honest other half of its session.
  ghost predicate Assured(world: World, k: Key) {
    forall steps, s: nat ::
      Runs(world, FRESH, steps) && s < |After(world, FRESH, steps).sessions|
      && After(world, FRESH, steps).sessions[s].mine.key == k
      && After(world, FRESH, steps).sessions[s].phase == Accepted ==>
        exists t :: Matches(After(world, FRESH, steps), s, t)
  }

  // An honest node is assured of that exactly as long as its code is secret (and
  // there is anybody else to impersonate).
  lemma AssuredExactlyWhileSecret(world: World, mine: Party, hello: Hello)
    requires HonestKeys(world) && mine.key in world.codes
    requires Refusal(world.rules, hello).None? && hello.party != mine
    ensures Assured(world, mine.key) <==> world.codes[mine.key] !in world.known
  {
    if world.codes[mine.key] in world.known {
      var steps := KnownCodeAdmitsAnyone(world, mine, hello);
      var state := After(world, FRESH, steps);
      assert state.sessions[0].phase == Accepted;
      assert forall t :: !Matches(state, 0, t);
    } else {
      forall steps, s: nat |
        Runs(world, FRESH, steps) && s < |After(world, FRESH, steps).sessions|
        && After(world, FRESH, steps).sessions[s].mine.key == mine.key
        && After(world, FRESH, steps).sessions[s].phase == Accepted
        ensures exists t :: Matches(After(world, FRESH, steps), s, t)
      {
        var t := MatchingConversations(world, steps, s);
      }
    }
  }

  lemma Extend(world: World, state: State, step: Step, rest: seq<Step>)
    requires Enabled(world, state, step) && Runs(world, Apply(world, state, step), rest)
    ensures Runs(world, state, [step] + rest)
    ensures After(world, state, [step] + rest) == After(world, Apply(world, state, step), rest)
  {
    assert ([step] + rest)[1..] == rest;
  }
}
