// src/crypto.rs and `say`/`receive_chat` of src/node.rs: who wrote the messages a
// node shows. The AEAD is ideal: only the shared secret of a pair opens or makes
// a ciphertext, and the sender's public key is authenticated with it.
module Attribution {
  import opened Results
  import opened Keys
  import opened Peers

  datatype Message = Message(sender: string, content: string, timestamp: nat)

  datatype Plaintext = Json(message: Message) | MalformedJson | InvalidUtf8

  // Diffie-Hellman gives both ends of a pair the same secret: the pair itself.
  function Shared(mine: Key, theirs: Key): set<Key> {
    {mine, theirs}
  }

  datatype Ciphertext =
    | Sealed(secret: set<Key>, sender: Key, nonce: nat, plaintext: Plaintext)
    | Noise(n: nat)

  datatype CryptoError = BadPublicKey | Decrypt

  function Seal(plaintext: Plaintext, recipient: Key, sender: Key, nonce: nat)
    : Result<Ciphertext, CryptoError>
  {
    if |recipient| != KEY_LEN then Err(BadPublicKey)
    else Ok(Sealed(Shared(sender, recipient), sender, nonce, plaintext))
  }

  function Open(ciphertext: Ciphertext, nonce: nat, recipient: Key, sender: Key)
    : Result<Plaintext, CryptoError>
  {
    if |sender| != KEY_LEN then Err(BadPublicKey)
    else if ciphertext.Sealed? && ciphertext.secret == Shared(recipient, sender)
            && ciphertext.sender == sender && ciphertext.nonce == nonce
    then Ok(ciphertext.plaintext)
    else Err(Decrypt)
  }

  // What was sealed opens for exactly the recipient it was sealed for, taking it
  // to come from exactly its sender, under its own nonce.
  lemma OpensForItsPairOnly(plaintext: Plaintext, recipient: Key, sender: Key, nonce: nat,
                            at: Key, from: Key, given: nat)
    requires |recipient| == |sender| == |from| == KEY_LEN
    ensures var result := Open(Seal(plaintext, recipient, sender, nonce).value, given, at, from);
            (result.Ok? <==> at == recipient && from == sender && given == nonce)
            && (result.Ok? ==> result.value == plaintext)
  {
    var ciphertext := Seal(plaintext, recipient, sender, nonce).value;
    if Open(ciphertext, given, at, from).Ok? {
      assert at in ciphertext.secret && recipient in Shared(at, from);
    }
  }

  // A ciphertext sent back to its author does not pass for its recipient's,
  // although the shared secret is right, unless the two are one key.
  lemma ReflectionsDoNotOpen(plaintext: Plaintext, mine: Key, theirs: Key, nonce: nat)
    requires |mine| == |theirs| == KEY_LEN
    ensures Seal(plaintext, theirs, mine, nonce).value.secret == Shared(theirs, mine)
    ensures Open(Seal(plaintext, theirs, mine, nonce).value, nonce, mine, theirs).Ok? <==> mine == theirs
  {
    OpensForItsPairOnly(plaintext, theirs, mine, nonce, mine, theirs, nonce);
  }

  // ---------------------------------------------------------------------- receive_chat

  datatype Event = Shown(owner: Key, sender: string, key: Key, content: string)

  datatype Received =
    | Emitted(event: Event)
    | CouldNotDecrypt | NotUtf8 | NotAMessage | SignedByAnother

  function ReceiveChat(me: Key, peer: Peer, ciphertext: Ciphertext, nonce: nat): Received {
    match Open(ciphertext, nonce, me, peer.publicKey)
    case Err(_) => CouldNotDecrypt
    case Ok(InvalidUtf8) => NotUtf8
    case Ok(MalformedJson) => NotAMessage
    case Ok(Json(message)) =>
      if message.sender != peer.name then SignedByAnother
      else Emitted(Shown(me, peer.name, peer.publicKey, message.content))
  }

  // Each outcome, in terms of what was sealed, by whom, for whom: whatever will not
  // open is not read, what is no message is not shown, and what is shown is all of
  // what the peer signed with the name it gave, and nothing else.
  lemma OutcomesExactly(plaintext: Plaintext, recipient: Key, sender: Key, nonce: nat,
                        me: Key, peer: Peer, given: nat)
    requires |recipient| == |sender| == |peer.publicKey| == KEY_LEN
    ensures var ciphertext := Seal(plaintext, recipient, sender, nonce).value;
            var received := ReceiveChat(me, peer, ciphertext, given);
            var opens := me == recipient && peer.publicKey == sender && given == nonce;
            && (received == CouldNotDecrypt <==> !opens)
            && (received == NotUtf8 <==> opens && plaintext == InvalidUtf8)
            && (received == NotAMessage <==> opens && plaintext == MalformedJson)
            && (received == SignedByAnother <==>
                  opens && plaintext.Json? && plaintext.message.sender != peer.name)
            && (forall content ::
                  received == Emitted(Shown(me, peer.name, peer.publicKey, content)) <==>
                    opens && exists timestamp ::
                      plaintext == Json(Message(peer.name, content, timestamp)))
    ensures forall n :: ReceiveChat(me, peer, Noise(n), given) == CouldNotDecrypt
  {
    OpensForItsPairOnly(plaintext, recipient, sender, nonce, me, peer.publicKey, given);
    var ciphertext := Seal(plaintext, recipient, sender, nonce).value;
    if plaintext.Json? {
      var m := plaintext.message;
      assert plaintext == Json(Message(m.sender, m.content, m.timestamp));
    }
  }

  // --------------------------------------------------------------------- The network

  // The honest nodes and their names; the keys whose secrets the adversary has.
  datatype World = World(names: map<Key, string>, exposed: set<Key>)

  // A connection some node admitted: anyone may be claimed to be at the other
  // end of it, since a handshake proves only the room code.
  datatype Connection = Connection(owner: Key, peer: Peer)

  datatype Said = Said(author: Key, recipient: Key, content: string)

  datatype State = State(
    connections: set<Connection>, sent: set<Ciphertext>, said: set<Said>, events: seq<Event>)

  const SILENT: State := State({}, {}, {}, [])

  datatype Step =
    | Admit(owner: Key, peer: Peer, inbound: bool)
    | Say(connection: Connection, text: string, timestamp: nat, nonce: nat)
    | Receive(connection: Connection, ciphertext: Ciphertext, nonce: nat)

  // What the adversary can deliver: what it saw, noise, and whatever it can seal
  // with a secret it has.
  ghost predicate CanSend(world: World, state: State, ciphertext: Ciphertext) {
    || ciphertext in state.sent
    || ciphertext.Noise?
    || exists k :: k in ciphertext.secret && k in world.exposed
  }

  ghost predicate Enabled(world: World, state: State, step: Step) {
    match step
    case Admit(owner, peer, inbound) =>
      && owner in world.names && |peer.publicKey| == KEY_LEN
      && Decide(owner, {}, peer.publicKey, inbound) == Join
    case Say(connection, _, _, _) =>
      && connection in state.connections && connection.owner in world.names
      && |connection.peer.publicKey| == KEY_LEN
    case Receive(connection, ciphertext, _) =>
      connection in state.connections && CanSend(world, state, ciphertext)
  }

  ghost function Apply(world: World, state: State, step: Step): State
    requires Enabled(world, state, step)
  {
    match step
    case Admit(owner, peer, _) =>
      state.(connections := state.connections + {Connection(owner, peer)})
    case Say(connection, text, timestamp, nonce) =>
      var author, recipient := connection.owner, connection.peer.publicKey;
      var message := Message(world.names[author], text, timestamp);
      state.(sent := state.sent + {Seal(Json(message), recipient, author, nonce).value},
             said := state.said + {Said(author, recipient, text)})
    case Receive(connection, ciphertext, nonce) =>
      match ReceiveChat(connection.owner, connection.peer, ciphertext, nonce) {
        case Emitted(event) => state.(events := state.events + [event])
        case _ => state
      }
  }

  ghost predicate Runs(world: World, state: State, steps: seq<Step>)
    decreases |steps|
  {
    steps == []
    || (Enabled(world, state, steps[0]) && Runs(world, Apply(world, state, steps[0]), steps[1..]))
  }

  ghost function After(world: World, state: State, steps: seq<Step>): State
    requires Runs(world, state, steps)
    decreases |steps|
  {
    if steps == [] then state else After(world, Apply(world, state, steps[0]), steps[1..])
  }

  // ------------------------------------------------------------------------ Invariants

  ghost predicate SentBy(world: World, state: State, ciphertext: Ciphertext, said: Said) {
    && said in state.said && said.author in world.names && said.recipient != said.author
    && ciphertext.Sealed? && ciphertext.secret == {said.author, said.recipient}
    && ciphertext.sender == said.author && ciphertext.plaintext.Json?
    && ciphertext.plaintext.message.sender == world.names[said.author]
    && ciphertext.plaintext.message.content == said.content
  }

  // The author meant this event's content for its owner.
  ghost predicate Attributed(world: World, state: State, event: Event) {
    && event.key in world.names && event.sender == world.names[event.key]
    && Said(event.key, event.owner, event.content) in state.said
  }

  ghost predicate Sound(world: World, state: State) {
    && (forall c :: c in state.connections ==>
          c.owner in world.names && c.peer.publicKey != c.owner)
    && (forall ciphertext :: ciphertext in state.sent ==>
          exists said :: SentBy(world, state, ciphertext, said))
    && (forall i :: 0 <= i < |state.events| ==>
          state.events[i].owner in world.exposed || state.events[i].key in world.exposed
          || Attributed(world, state, state.events[i]))
  }

  lemma ReceivedIsAttributed(world: World, state: State, connection: Connection,
                             ciphertext: Ciphertext, nonce: nat)
    requires Sound(world, state) && Enabled(world, state, Receive(connection, ciphertext, nonce))
    requires connection.owner !in world.exposed && connection.peer.publicKey !in world.exposed
    ensures var received := ReceiveChat(connection.owner, connection.peer, ciphertext, nonce);
            received.Emitted? ==> Attributed(world, state, received.event)
  {
    var me, them := connection.owner, connection.peer.publicKey;
    if ReceiveChat(me, connection.peer, ciphertext, nonce).Emitted? {
      assert ciphertext.secret == {me, them};
      assert ciphertext in state.sent;
      var said :| SentBy(world, state, ciphertext, said);
      assert said.recipient in ciphertext.secret;
      assert said.recipient == me;
      assert said == Said(them, me, said.content);
    }
  }

  lemma SentStays(world: World, state: State, step: Step, ciphertext: Ciphertext)
    requires Sound(world, state) && Enabled(world, state, step)
    requires ciphertext in Apply(world, state, step).sent
    ensures exists said :: SentBy(world, Apply(world, state, step), ciphertext, said)
  {
    var next := Apply(world, state, step);
    if ciphertext in state.sent {
      var said :| SentBy(world, state, ciphertext, said);
      assert SentBy(world, next, ciphertext, said);
    } else {
      var c := step.connection;
      assert SentBy(world, next, ciphertext, Said(c.owner, c.peer.publicKey, step.text));
    }
  }

  lemma EventsStay(world: World, state: State, step: Step, i: nat)
    requires Sound(world, state) && Enabled(world, state, step)
    requires i < |Apply(world, state, step).events|
    ensures var next := Apply(world, state, step);
            next.events[i].owner in world.exposed || next.events[i].key in world.exposed
            || Attributed(world, next, next.events[i])
  {
    if i >= |state.events| {
      var c := step.connection;
      if c.owner !in world.exposed && c.peer.publicKey !in world.exposed {
        ReceivedIsAttributed(world, state, c, step.ciphertext, step.nonce);
      }
    }
  }

  lemma ConnectionsStay(world: World, state: State, step: Step)
    requires Sound(world, state) && Enabled(world, state, step)
    ensures forall c :: c in Apply(world, state, step).connections ==>
              c.owner in world.names && c.peer.publicKey != c.owner
  {
  }

  lemma StepSound(world: World, state: State, step: Step)
    requires Sound(world, state) && Enabled(world, state, step)
    ensures Sound(world, Apply(world, state, step))
  {
    var next := Apply(world, state, step);
    ConnectionsStay(world, state, step);
    hide SentBy, Attributed, Enabled, Apply;
    forall ciphertext | ciphertext in next.sent
      ensures exists said :: SentBy(world, next, ciphertext, said)
    {
      SentStays(world, state, step, ciphertext);
    }
    forall i | 0 <= i < |next.events|
      ensures next.events[i].owner in world.exposed || next.events[i].key in world.exposed
              || Attributed(world, next, next.events[i])
    {
      EventsStay(world, state, step, i);
    }
  }

  lemma {:induction false} RunSound(world: World, state: State, steps: seq<Step>)
    requires Sound(world, state) && Runs(world, state, steps)
    ensures Sound(world, After(world, state, steps))
    decreases |steps|
  {
    hide Sound, Enabled, Apply;
    if steps != [] {
      StepSound(world, state, steps[0]);
      RunSound(world, Apply(world, state, steps[0]), steps[1..]);
    }
  }

  // Every message a node shows under a key was said for it by the honest owner of
  // that key, under its own name, as long as neither secret is out.
  lemma ShownWasSaid(world: World, steps: seq<Step>, i: nat)
    requires Runs(world, SILENT, steps) && i < |After(world, SILENT, steps).events|
    requires var event := After(world, SILENT, steps).events[i];
             event.owner !in world.exposed && event.key !in world.exposed
    ensures var state := After(world, SILENT, steps);
            var event := state.events[i];
            event.key in world.names && event.sender == world.names[event.key]
            && Said(event.key, event.owner, event.content) in state.said
  {
    RunSound(world, SILENT, steps);
    assert Attributed(world, After(world, SILENT, steps), After(world, SILENT, steps).events[i]);
  }

  // -------------------------------------------------------------------------- Delivery

  // What has been connected and sent stays so.
  ghost predicate Continues(before: State, after: State) {
    before.connections <= after.connections && before.sent <= after.sent && before.said <= after.said
  }

  ghost predicate KeysChecked(state: State) {
    forall c :: c in state.connections ==> |c.peer.publicKey| == KEY_LEN
  }

  lemma {:induction false} RunContinues(world: World, state: State, steps: seq<Step>)
    requires Runs(world, state, steps) && KeysChecked(state)
    ensures Continues(state, After(world, state, steps)) && KeysChecked(After(world, state, steps))
    decreases |steps|
  {
    if steps != [] {
      RunContinues(world, Apply(world, state, steps[0]), steps[1..]);
    }
  }

  // In every reachable state, an honest node may be connected to anybody but itself,
  // and may say anything on any of its connections.
  lemma NobodyIsSilenced(world: World, steps: seq<Step>, owner: Key, peer: Peer, inbound: bool,
                         c: Connection, text: string, timestamp: nat, nonce: nat)
    requires Runs(world, SILENT, steps)
    ensures var state := After(world, SILENT, steps);
            && (Enabled(world, state, Admit(owner, peer, inbound)) <==>
                  owner in world.names && |peer.publicKey| == 32 && peer.publicKey != owner)
            && (Enabled(world, state, Say(c, text, timestamp, nonce)) <==>
                  c in state.connections && c.owner in world.names)
  {
    RunContinues(world, SILENT, steps);
  }

  // Whatever an honest node says for a recipient, at any point of any run, the
  // recipient shows once it is delivered on its connection with that node: the
  // text, under the author's key and name, and nothing besides.
  lemma WhatIsSaidIsShown(world: World, steps: seq<Step>, c: Connection, text: string,
                          timestamp: nat, nonce: nat, rest: seq<Step>, d: Connection)
    requires Runs(world, SILENT, steps)
    requires Enabled(world, After(world, SILENT, steps), Say(c, text, timestamp, nonce))
    requires Runs(world, Apply(world, After(world, SILENT, steps), Say(c, text, timestamp, nonce)), rest)
    requires var said := Apply(world, After(world, SILENT, steps), Say(c, text, timestamp, nonce));
             d in After(world, said, rest).connections
             && d.owner == c.peer.publicKey && d.peer.publicKey == c.owner
             && d.peer.name == world.names[c.owner]
    ensures var said := Apply(world, After(world, SILENT, steps), Say(c, text, timestamp, nonce));
            var state := After(world, said, rest);
            var message := Message(world.names[c.owner], text, timestamp);
            var ciphertext := Seal(Json(message), d.owner, c.owner, nonce);
            ciphertext.Ok?
            && Enabled(world, state, Receive(d, ciphertext.value, nonce))
            && Apply(world, state, Receive(d, ciphertext.value, nonce))
               == state.(events := state.events
                                   + [Shown(d.owner, world.names[c.owner], c.owner, text)])
  {
    var before := After(world, SILENT, steps);
    var said := Apply(world, before, Say(c, text, timestamp, nonce));
    RunContinues(world, SILENT, steps);
    RunContinues(world, said, rest);
    var message := Message(world.names[c.owner], text, timestamp);
    assert Seal(Json(message), d.owner, c.owner, nonce).value in said.sent;
    OutcomesExactly(Json(message), d.owner, c.owner, nonce, d.owner, d.peer, nonce);
  }

  // ------------------------------------------------------------------- Exactly that much

  ghost predicate OnlyWhatWasSaid(world: World, me: Key, them: Key) {
    forall steps, i: nat ::
      Runs(world, SILENT, steps) && i < |After(world, SILENT, steps).events|
      && After(world, SILENT, steps).events[i].owner == me
      && After(world, SILENT, steps).events[i].key == them ==>
        Said(them, me, After(world, SILENT, steps).events[i].content)
          in After(world, SILENT, steps).said
  }

  // With either secret the adversary can put any words in them's mouth, to me.
  lemma EitherSecretForges(world: World, me: Key, them: Key, name: string, content: string)
      returns (steps: seq<Step>)
    requires me in world.names && me != them && |them| == KEY_LEN
    requires me in world.exposed || them in world.exposed
    ensures Runs(world, SILENT, steps)
    ensures After(world, SILENT, steps).events == [Shown(me, name, them, content)]
    ensures After(world, SILENT, steps).said == {}
  {
    var peer := Peer(name, them, "");
    var connection := Connection(me, peer);
    var forged := Sealed(Shared(me, them), them, 0, Json(Message(name, content, 0)));
    var s1 := SILENT.(connections := {connection});
    assert Decide(me, {}, them, true) == Join;
    assert Apply(world, SILENT, Admit(me, peer, true)) == s1;
    var k := if me in world.exposed then me else them;
    assert k in forged.secret && k in world.exposed;
    assert ReceiveChat(me, peer, forged, 0) == Emitted(Shown(me, name, them, content));
    Extend(world, s1, Receive(connection, forged, 0), []);
    Extend(world, SILENT, Admit(me, peer, true), [Receive(connection, forged, 0)] + []);
    steps := [Admit(me, peer, true)] + ([Receive(connection, forged, 0)] + []);
  }

  // Authorship is assured exactly while both ends' secrets are kept: the pair's
  // secret is symmetric, so the recipient could have written it all (which is
  // what makes it deniable).
  lemma AssuredExactlyWhileSecret(world: World, me: Key, them: Key)
    requires me in world.names && me != them && |them| == KEY_LEN
    ensures OnlyWhatWasSaid(world, me, them) <==> me !in world.exposed && them !in world.exposed
  {
    if me in world.exposed || them in world.exposed {
      var steps := EitherSecretForges(world, me, them, "", "");
      assert After(world, SILENT, steps).events[0].owner == me;
    } else {
      forall steps, i: nat |
        Runs(world, SILENT, steps) && i < |After(world, SILENT, steps).events|
        && After(world, SILENT, steps).events[i].owner == me
        && After(world, SILENT, steps).events[i].key == them
        ensures Said(them, me, After(world, SILENT, steps).events[i].content)
                  in After(world, SILENT, steps).said
      {
        ShownWasSaid(world, steps, i);
      }
    }
  }

  // Nothing counts how often: a message replayed on its connection is shown again.
  lemma ReplaysAreShownAgain(world: World, state: State, connection: Connection,
                             ciphertext: Ciphertext, nonce: nat)
    requires Enabled(world, state, Receive(connection, ciphertext, nonce))
    requires ReceiveChat(connection.owner, connection.peer, ciphertext, nonce).Emitted?
    ensures var once := Apply(world, state, Receive(connection, ciphertext, nonce));
            Enabled(world, once, Receive(connection, ciphertext, nonce))
            && var twice := Apply(world, once, Receive(connection, ciphertext, nonce));
               |twice.events| == |state.events| + 2
               && twice.events[|state.events|] == twice.events[|state.events| + 1]
  {
  }

  lemma Extend(world: World, state: State, step: Step, rest: seq<Step>)
    requires Enabled(world, state, step) && Runs(world, Apply(world, state, step), rest)
    ensures Runs(world, state, [step] + rest)
    ensures After(world, state, [step] + rest) == After(world, Apply(world, state, step), rest)
  {
    assert ([step] + rest)[1..] == rest;
  }
}
