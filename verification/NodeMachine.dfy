// src/node.rs as a state machine: any number of connection tasks, `say` calls
// and gossip dials of one node, interleaved at every lock, queue and event.
//
// Each critical section is one step and so is each emission and each send made
// after the lock is released. Which step happens next, what peers present, when
// sockets fail, and the order maps iterate in are all left open.
module NodeMachine {
  import opened Counting
  import opened Results
  import opened Keys
  import opened Peers
  import opened NodeState

  const SEND_QUEUE_DEPTH: nat := 64

  datatype Phase =
    | Handshaking
    | Joining          // admitted; PeerJoined still to be emitted
    | Introducing      // PeerJoined emitted; peer list still to be announced
    | Announcing(op: nat)
    | Pumping
    | Leaving          // evicted; PeerLeft still to be emitted
    | Returned

  // Before `disconnect` has run.
  predicate Live(phase: Phase) {
    phase.Joining? || phase.Introducing? || phase.Announcing? || phase.Pumping?
  }

  // While the task's function still owns its receiver and its `mine` sender.
  predicate Owning(phase: Phase) {
    Live(phase) || phase.Leaving?
  }

  // A frame is tagged with the call it came from, and a Chat frame with the key it
  // was sealed for.
  datatype Frame = Chat(op: nat, sealedFor: Key) | PeerList(op: nat, infos: seq<Peer>)

  // A connection task together with the channel it created: the senders alive
  // for that channel, every frame ever queued on it, and how many of those the
  // task has taken off.
  datatype Task = Task(
    inbound: bool, dial: Option<nat>, phase: Phase, peer: Option<Peer>,
    handles: int, queued: seq<Frame>, taken: nat)

  datatype Outcome = Queued | Dropped | Unsealed

  datatype OpKind = Say(text: string) | Announce(infos: seq<Peer>)

  // A send loop: its snapshot, and what became of the targets handled so far.
  datatype Op = Op(kind: OpKind, targets: seq<Target>, outcomes: seq<Outcome>, echoed: bool)

  datatype AttemptPhase = Connecting | Serving(task: nat) | Ended

  datatype Attempt = Attempt(key: Key, phase: AttemptPhase)

  datatype Event = PeerJoined(peer: Peer) | PeerLeft(peer: Peer) | Echo(text: string)

  // What happened to the registry, in order.
  datatype Change = Admission(key: Key) | Eviction(key: Key)

  datatype Node = Node(
    rules: TextRules, core: Core, tasks: seq<Task>, ops: seq<Op>, attempts: seq<Attempt>,
    events: seq<Event>, changes: seq<Change>)

  function Start(rules: TextRules, me: Key): Node {
    Node(rules, Core(me, map[], map[], {}), [], [], [], [], [])
  }

  datatype Step =
    | Open(inbound: bool)
    | GossipConnect(attempt: nat)
    | FailHandshake(task: nat)
    | Admit(task: nat, peer: Peer)
    | EmitJoined(task: nat)
    | AnnounceSnapshot(task: nat, targets: seq<Target>, infos: seq<Peer>)
    | SaySnapshot(text: string, targets: seq<Target>)
    | Send(op: nat, sealed: bool)
    | EmitEcho(op: nat)
    | FinishAnnounce(task: nat)
    | TakeFrame(task: nat)
    | Gossip(task: nat, infos: seq<Peer>)
    | EndDial(attempt: nat)
    | Stop(task: nat)
    | ChannelClosed(task: nat)
    | EmitLeft(task: nat)

  // --------------------------------------------------------------------- Send loops

  predicate Unfinished(op: Op) {
    |op.outcomes| < |op.targets|
  }

  function ToChan(c: Chan): Target -> bool {
    (target: Target) => target.chan == c
  }

  // The clones of c's sender that a loop has not dropped yet.
  function Pending(op: Op): seq<Target> {
    if Unfinished(op) then op.targets[|op.outcomes|..] else []
  }

  function Cloned(tasks: seq<Task>, targets: seq<Target>): seq<Task> {
    seq(|tasks|, c requires 0 <= c < |tasks| =>
      tasks[c].(handles := tasks[c].handles + CountIf(targets, ToChan(c))))
  }

  function DropHandle(tasks: seq<Task>, c: Chan): seq<Task>
    requires c < |tasks|
  {
    tasks[c := tasks[c].(handles := tasks[c].handles - 1)]
  }

  predicate HasRoom(task: Task) {
    Owning(task.phase) && |task.queued| - task.taken < SEND_QUEUE_DEPTH
  }

  function FrameFor(i: nat, op: Op, key: Key): Frame {
    match op.kind
    case Say(_) => Chat(i, key)
    case Announce(infos) => PeerList(i, infos)
  }

  function SendOutcome(op: Op, sealed: bool, receiver: Task): Outcome {
    if op.kind.Say? && !sealed then Unsealed
    else if HasRoom(receiver) then Queued
    else Dropped
  }

  function Sent(n: Node, i: nat, sealed: bool): Node
    requires i < |n.ops| && Unfinished(n.ops[i])
    requires n.ops[i].targets[|n.ops[i].outcomes|].chan < |n.tasks|
  {
    var op := n.ops[i];
    var target := op.targets[|op.outcomes|];
    var receiver := n.tasks[target.chan];
    var outcome := SendOutcome(op, sealed, receiver);
    var queued := if outcome == Queued then receiver.queued + [FrameFor(i, op, target.key)]
                  else receiver.queued;
    n.(tasks := n.tasks[target.chan :=
                  receiver.(queued := queued, handles := receiver.handles - 1)],
       ops := n.ops[i := op.(outcomes := op.outcomes + [outcome])])
  }

  // ------------------------------------------------------------------------- Tasks

  function SetPhase(n: Node, t: nat, phase: Phase): Node
    requires t < |n.tasks|
  {
    n.(tasks := n.tasks[t := n.tasks[t].(phase := phase)])
  }

  function NewTask(inbound: bool, dial: Option<nat>): Task {
    Task(inbound, dial, Handshaking, None, 0, [], 0)
  }

  // The admission: the channel exists with two senders, `mine` and the one in
  // the map, and a superseded entry's sender is dropped.
  function TaskAdmitted(n: Node, t: nat, peer: Peer): Node
    requires t < |n.tasks|
    requires peer.publicKey in n.core.connections ==>
               n.core.connections[peer.publicKey] < |n.tasks|
  {
    var task, key := n.tasks[t].(peer := Some(peer)), peer.publicKey;
    var core := AdmitConnection(n.core, peer, task.inbound, t);
    match Decide(n.core.me, n.core.registry.Keys, key, task.inbound)
    case Refuse(_) =>
      n.(tasks := n.tasks[t := task.(phase := Returned)])
    case Join =>
      n.(core := core, changes := n.changes + [Admission(key)],
         tasks := n.tasks[t := task.(phase := Joining, handles := 2)])
    case Supersede =>
      var tasks := if key in n.core.connections
                   then DropHandle(n.tasks, n.core.connections[key]) else n.tasks;
      n.(core := core, tasks := tasks[t := task.(phase := Pumping, handles := 2)])
  }

  // After pump: disconnect, which drops the map's sender if it is this task's,
  // and otherwise ends the function and drops `mine`.
  function Stopped(n: Node, t: nat): Node
    requires t < |n.tasks| && n.tasks[t].peer.Some?
  {
    var task := n.tasks[t];
    var key := task.peer.value.publicKey;
    var ours := StillOurs(n.core, key, t);
    n.(core := Retire(n.core, key, t),
       changes := if ours then n.changes + [Eviction(key)] else n.changes,
       tasks := n.tasks[t := task.(phase := if ours then Leaving else Returned,
                                   handles := task.handles - 1)])
  }

  function NewAttempts(chosen: seq<Peer>): seq<Attempt> {
    seq(|chosen|, i requires 0 <= i < |chosen| => Attempt(chosen[i].publicKey, Connecting))
  }

  // ------------------------------------------------------------------- The interleaving

  ghost predicate InPhase(n: Node, t: nat, phase: Phase) {
    t < |n.tasks| && n.tasks[t].phase == phase
  }

  ghost predicate Enabled(n: Node, step: Step) {
    match step
    case Open(_) => true
    case GossipConnect(a) => a < |n.attempts| && n.attempts[a].phase == Connecting
    case FailHandshake(t) => InPhase(n, t, Handshaking)
    case Admit(t, peer) =>
      && InPhase(n, t, Handshaking) && |peer.publicKey| == KEY_LEN
      && (peer.publicKey in n.core.connections ==>
            n.core.connections[peer.publicKey] < |n.tasks|)
    case EmitJoined(t) => InPhase(n, t, Joining) && n.tasks[t].peer.Some?
    case AnnounceSnapshot(t, targets, infos) =>
      && InPhase(n, t, Introducing)
      && IsSnapshot(n.core.connections, n.core.connections.Keys, targets)
      && IsPeerList(n.core.registry, infos)
    case SaySnapshot(_, targets) =>
      targets != [] && IsSnapshot(n.core.connections, n.core.registry.Keys, targets)
    case Send(i, sealed) =>
      && i < |n.ops| && Unfinished(n.ops[i])
      && var target := n.ops[i].targets[|n.ops[i].outcomes|];
         target.chan < |n.tasks| && (sealed ==> |target.key| == KEY_LEN)
    case EmitEcho(i) =>
      i < |n.ops| && n.ops[i].kind.Say? && !Unfinished(n.ops[i]) && !n.ops[i].echoed
    case FinishAnnounce(t) =>
      && t < |n.tasks| && n.tasks[t].phase.Announcing?
      && n.tasks[t].phase.op < |n.ops| && !Unfinished(n.ops[n.tasks[t].phase.op])
    case TakeFrame(t) => InPhase(n, t, Pumping) && n.tasks[t].taken < |n.tasks[t].queued|
    case Gossip(t, _) => InPhase(n, t, Pumping)
    case EndDial(a) =>
      && a < |n.attempts|
      && (n.attempts[a].phase == Connecting
          || (n.attempts[a].phase.Serving? && InPhase(n, n.attempts[a].phase.task, Returned)))
    case Stop(t) => InPhase(n, t, Pumping) && n.tasks[t].peer.Some?
    case ChannelClosed(t) =>
      && InPhase(n, t, Pumping) && n.tasks[t].peer.Some?
      && n.tasks[t].handles == 0 && n.tasks[t].taken >= |n.tasks[t].queued|
    case EmitLeft(t) => InPhase(n, t, Leaving) && n.tasks[t].peer.Some?
  }

  ghost function Apply(n: Node, step: Step): Node
    requires Enabled(n, step)
  {
    match step
    case Open(inbound) => n.(tasks := n.tasks + [NewTask(inbound, None)])
    case GossipConnect(a) =>
      n.(tasks := n.tasks + [NewTask(false, Some(a))],
         attempts := n.attempts[a := n.attempts[a].(phase := Serving(|n.tasks|))])
    case FailHandshake(t) => SetPhase(n, t, Returned)
    case Admit(t, peer) => TaskAdmitted(n, t, peer)
    case EmitJoined(t) =>
      SetPhase(n, t, Introducing).(events := n.events + [PeerJoined(n.tasks[t].peer.value)])
    case AnnounceSnapshot(t, targets, infos) =>
      var m := SetPhase(n, t, Announcing(|n.ops|));
      m.(tasks := Cloned(m.tasks, targets), ops := n.ops + [Op(Announce(infos), targets, [], false)])
    case SaySnapshot(text, targets) =>
      n.(tasks := Cloned(n.tasks, targets), ops := n.ops + [Op(Say(text), targets, [], false)])
    case Send(i, sealed) => Sent(n, i, sealed)
    case EmitEcho(i) =>
      n.(ops := n.ops[i := n.ops[i].(echoed := true)],
         events := n.events + [Echo(n.ops[i].kind.text)])
    case FinishAnnounce(t) => SetPhase(n, t, Pumping)
    case TakeFrame(t) => n.(tasks := n.tasks[t := n.tasks[t].(taken := n.tasks[t].taken + 1)])
    case Gossip(_, infos) =>
      var chosen := Selected(n.rules, n.core, infos);
      n.(core := Dialing(n.core, chosen), attempts := n.attempts + NewAttempts(chosen))
    case EndDial(a) =>
      n.(core := DialFinished(n.core, n.attempts[a].key),
         attempts := n.attempts[a := n.attempts[a].(phase := Ended)])
    case Stop(t) => Stopped(n, t)
    case ChannelClosed(t) => Stopped(n, t)
    case EmitLeft(t) =>
      var m := SetPhase(n, t, Returned);
      m.(tasks := DropHandle(m.tasks, t), events := n.events + [PeerLeft(n.tasks[t].peer.value)])
  }

  // A run from n: every step enabled where it is taken.
  ghost predicate Runs(n: Node, steps: seq<Step>)
    decreases |steps|
  {
    steps == [] || (Enabled(n, steps[0]) && Runs(Apply(n, steps[0]), steps[1..]))
  }

  ghost function After(n: Node, steps: seq<Step>): Node
    requires Runs(n, steps)
    decreases |steps|
  {
    if steps == [] then n else After(Apply(n, steps[0]), steps[1..])
  }
}
