// Two nodes running the handshake on one undisturbed connection: it cannot
// deadlock, its length is known, and both ends reach one verdict, for one reason.
module Rendezvous {
  import opened Results
  import opened RoomCodec
  import opened Keys
  import opened Peers
  import opened AdmissionProof
  import opened Handshake

  datatype Message = HelloFrame(hello: Hello) | AuthFrame(proof: Proof)

  datatype Outcome = Welcome | Refused(error: Error)

  // An end after `done` of its four actions: send Hello, read Hello, send proof,
  // read proof. `inbox` is what has been sent to it and not read.
  datatype End = End(done: nat, theirs: Option<Party>, outcome: Option<Outcome>, inbox: seq<Message>)

  // Who the two ends are: any two nodes, with whatever identities and codes.
  datatype Ends = Ends(rules: TextRules, hello: bool -> Hello, code: bool -> RoomCode)

  // Both ends, told apart by a flag.
  datatype Meeting = Meeting(a: End, b: End)

  function At(m: Meeting, side: bool): End {
    if side then m.a else m.b
  }

  function Put(m: Meeting, side: bool, end: End): Meeting {
    if side then m.(a := end) else m.(b := end)
  }

  const BEGIN: Meeting := Meeting(End(0, None, None, []), End(0, None, None, []))

  predicate Over(m: Meeting) {
    m.a.outcome.Some? && m.b.outcome.Some?
  }

  // An end that refuses closes the connection.
  predicate HasClosed(end: End) {
    end.outcome.Some? && end.outcome.value.Refused?
  }

  // A read waits for a frame, or for the other end to close.
  predicate CanAct(m: Meeting, side: bool) {
    var end := At(m, side);
    && end.outcome.None? && end.done < 4
    && (end.done % 2 == 1 ==> end.inbox != [] || HasClosed(At(m, !side)))
  }

  function Post(m: Meeting, to: bool, message: Message): Meeting {
    Put(m, to, At(m, to).(inbox := At(m, to).inbox + [message]))
  }

  // One end's next action.
  function Act(ends: Ends, m: Meeting, side: bool): Meeting
    requires CanAct(m, side)
  {
    var end := At(m, side);
    var next := end.(done := end.done + 1);
    if end.done == 0 then Put(Post(m, !side, HelloFrame(ends.hello(side))), side, next)
    else if end.done == 2 then
      var theirs := if end.theirs.Some? then end.theirs.value else ends.hello(side).party;
      var proof := MyProof(ends.code(side), ends.hello(side).party, theirs);
      Put(Post(m, !side, AuthFrame(proof)), side, next)
    else if end.inbox == [] then Put(m, side, next.(outcome := Some(Refused(Closed))))
    else
      var rest := next.(inbox := end.inbox[1..]);
      match end.inbox[0]
      case HelloFrame(hello) =>
        if end.done != 1 then Put(m, side, rest.(outcome := Some(Refused(ExpectedAuth))))
        else (match Refusal(ends.rules, hello)
              case Some(error) => Put(m, side, rest.(outcome := Some(Refused(error))))
              case None => Put(m, side, rest.(theirs := Some(hello.party))))
      case AuthFrame(proof) =>
        if end.done != 3 || end.theirs.None?
        then Put(m, side, rest.(outcome := Some(Refused(ExpectedHello))))
        else if Accepts(ends.code(side), proof, end.theirs.value, ends.hello(side).party)
        then Put(m, side, rest.(outcome := Some(Welcome)))
        else Put(m, side, rest.(outcome := Some(Refused(WrongRoom))))
  }

  // A frame of the wrong kind, or none, ends the handshake there and then.
  lemma OutOfPlaceIsRefused(ends: Ends, m: Meeting, side: bool)
    requires CanAct(m, side) && At(m, side).done % 2 == 1
    ensures var end, after := At(m, side), At(Act(ends, m, side), side);
            && (end.inbox == [] ==> after.outcome == Some(Refused(Closed)))
            && (end.done == 1 && end.inbox != [] && end.inbox[0].AuthFrame? ==>
                  after.outcome == Some(Refused(ExpectedHello)))
            && (end.done == 3 && end.inbox != [] && end.inbox[0].HelloFrame? ==>
                  after.outcome == Some(Refused(ExpectedAuth)))
  {
  }

  // ------------------------------------------------------------------- The verdict

  // What becomes of one end: it refuses a bad Hello for its first fault; finds the
  // connection closed if its own was refused; and otherwise goes by the codes.
  function Verdict(ends: Ends, side: bool): Outcome {
    match Refusal(ends.rules, ends.hello(!side))
    case Some(error) => Refused(error)
    case None =>
      if Refusal(ends.rules, ends.hello(side)).Some? then Refused(Closed)
      else if ends.code(true) == ends.code(false) then Welcome
      else Refused(WrongRoom)
  }

  // The actions an end takes in all.
  function Actions(ends: Ends, side: bool): nat {
    if Refusal(ends.rules, ends.hello(!side)).Some? then 2 else 4
  }

  // -------------------------------------------------------------------- The invariant

  // Everything an end has sent after so many actions.
  function SentBy(ends: Ends, side: bool, done: nat): seq<Message> {
    var theirs := ends.hello(!side).party;
    if done == 0 then []
    else if done < 3 then [HelloFrame(ends.hello(side))]
    else [HelloFrame(ends.hello(side)),
          AuthFrame(MyProof(ends.code(side), ends.hello(side).party, theirs))]
  }

  function ReadBy(done: nat): nat {
    if done < 2 then 0 else if done < 4 then 1 else 2
  }

  ghost predicate EndOk(ends: Ends, m: Meeting, side: bool) {
    var end := At(m, side);
    var sent := SentBy(ends, !side, At(m, !side).done);
    var total := Actions(ends, side);
    && end.done <= total
    && end.theirs == (if end.done < 2 || total == 2 then None else Some(ends.hello(!side).party))
    && end.outcome == (if end.done < total then None else Some(Verdict(ends, side)))
    && (end.done < total ==>
          ReadBy(end.done) <= |sent| && end.inbox == sent[ReadBy(end.done)..])
  }

  ghost predicate MeetingOk(ends: Ends, m: Meeting) {
    EndOk(ends, m, true) && EndOk(ends, m, false)
  }

  lemma ActsOk(ends: Ends, m: Meeting, side: bool)
    requires MeetingOk(ends, m) && CanAct(m, side)
    ensures MeetingOk(ends, Act(ends, m, side))
    ensures Act(ends, m, side).a.done + Act(ends, m, side).b.done == m.a.done + m.b.done + 1
  {
    hide EndOk, Act, CanAct;
    assert EndOk(ends, m, side) && EndOk(ends, m, !side);
    ActorOk(ends, m, side);
    OtherOk(ends, m, side);
    assert EndOk(ends, Act(ends, m, side), side) && EndOk(ends, Act(ends, m, side), !side);
  }

  lemma ActorOk(ends: Ends, m: Meeting, side: bool)
    requires EndOk(ends, m, side) && EndOk(ends, m, !side) && CanAct(m, side)
    ensures EndOk(ends, Act(ends, m, side), side)
    ensures At(Act(ends, m, side), side).done == At(m, side).done + 1
    ensures At(Act(ends, m, side), !side).done == At(m, !side).done
  {
    hide Refusal;
    if At(m, side).done == 3 {
      ProofVerdict(ends, side);
    }
  }

  // The proof one end makes for the other passes if and only if the codes agree.
  lemma ProofVerdict(ends: Ends, side: bool)
    ensures Accepts(ends.code(side),
                    MyProof(ends.code(!side), ends.hello(!side).party, ends.hello(side).party),
                    ends.hello(!side).party, ends.hello(side).party)
            <==> ends.code(true) == ends.code(false)
  {
  }

  lemma OtherOk(ends: Ends, m: Meeting, side: bool)
    requires EndOk(ends, m, side) && EndOk(ends, m, !side) && CanAct(m, side)
    ensures EndOk(ends, Act(ends, m, side), !side)
  {
    hide Refusal, Accepts;
  }

  // ------------------------------------------------------------------------- Any order

  predicate Runs(ends: Ends, m: Meeting, order: seq<bool>)
    decreases |order|
  {
    order == [] || (CanAct(m, order[0]) && Runs(ends, Act(ends, m, order[0]), order[1..]))
  }

  function After(ends: Ends, m: Meeting, order: seq<bool>): Meeting
    requires Runs(ends, m, order)
    decreases |order|
  {
    if order == [] then m else After(ends, Act(ends, m, order[0]), order[1..])
  }

  lemma {:induction false} RunOk(ends: Ends, m: Meeting, order: seq<bool>)
    requires MeetingOk(ends, m) && Runs(ends, m, order)
    ensures MeetingOk(ends, After(ends, m, order))
    ensures After(ends, m, order).a.done + After(ends, m, order).b.done
         == m.a.done + m.b.done + |order|
    decreases |order|
  {
    hide MeetingOk, Act, CanAct;
    if order != [] {
      ActsOk(ends, m, order[0]);
      RunOk(ends, Act(ends, m, order[0]), order[1..]);
    }
  }

  // Whatever happened so far, either both ends are finished or one can act: both
  // send before they read, so they never wait for each other.
  lemma {:induction false} NeverDeadlocks(ends: Ends, order: seq<bool>)
    requires Runs(ends, BEGIN, order)
    ensures var m := After(ends, BEGIN, order);
            Over(m) || CanAct(m, true) || CanAct(m, false)
    ensures |order| <= 8
  {
    hide Act, EndOk, Over, CanAct;
    assert MeetingOk(ends, BEGIN) by { BeginOk(ends); }
    RunOk(ends, BEGIN, order);
    SomeoneCanAct(ends, After(ends, BEGIN, order));
  }

  lemma BeginOk(ends: Ends)
    ensures MeetingOk(ends, BEGIN)
  {
  }

  lemma SomeoneCanAct(ends: Ends, m: Meeting)
    requires MeetingOk(ends, m)
    ensures Over(m) || CanAct(m, true) || CanAct(m, false)
    ensures m.a.done + m.b.done <= 8
  {
    hide Refusal, Accepts;
    assert EndOk(ends, m, true) && EndOk(ends, m, false);
  }

  // When both are finished, each has its verdict: both are admitted if both Hellos
  // are valid and the codes are equal, and otherwise both refuse. It has then taken
  // four actions at each end, or two where the other's Hello was refused.
  lemma {:induction false} SymmetricVerdict(ends: Ends, order: seq<bool>)
    requires Runs(ends, BEGIN, order)
    ensures var m := After(ends, BEGIN, order);
            var valid := Refusal(ends.rules, ends.hello(true)).None?
                         && Refusal(ends.rules, ends.hello(false)).None?;
            (Over(m) <==> |order| == Actions(ends, true) + Actions(ends, false))
            && (Over(m) ==>
              m.a.outcome == Some(Verdict(ends, true)) && m.b.outcome == Some(Verdict(ends, false))
              && (m.a.outcome == Some(Welcome) <==> valid && ends.code(true) == ends.code(false))
              && (m.a.outcome == Some(Welcome) <==> m.b.outcome == Some(Welcome)))
  {
    hide Act, CanAct, Refusal, Accepts;
    BeginOk(ends);
    RunOk(ends, BEGIN, order);
    assert EndOk(ends, After(ends, BEGIN, order), true) && EndOk(ends, After(ends, BEGIN, order), false);
  }
}
