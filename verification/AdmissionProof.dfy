// src/room.rs, admission proofs: an HMAC under the room's key over both public
// keys and both nonces. SHA-256 and HMAC are parameters; nothing is assumed of
// them except, where a lemma says so, that they do not collide on its inputs.
module AdmissionProof {
  import opened Positional
  import opened RoomCodec
  import opened Keys

  const NONCE_LEN: nat := 32
  const PROOF_LEN: nat := 32

  type Nonce = bytes: seq<Byte> | |bytes| == NONCE_LEN
    witness seq(NONCE_LEN, i => 0)
  type Tag = bytes: seq<Byte> | |bytes| == PROOF_LEN
    witness seq(PROOF_LEN, i => 0)

  datatype Primitives = Primitives(sha256: seq<Byte> -> Tag, hmac: (Tag, seq<Byte>) -> Tag)

  // "tio-chat v1 room key" and "tio-chat v1 admission".
  const KEY_CONTEXT: seq<Byte> :=
    [116, 105, 111, 45, 99, 104, 97, 116, 32, 118, 49, 32, 114, 111, 111, 109, 32, 107, 101, 121]
  const PROOF_CONTEXT: seq<Byte> :=
    [116, 105, 111, 45, 99, 104, 97, 116, 32, 118, 49, 32, 97, 100, 109, 105, 115, 115, 105, 111, 110]

  // One side of a connection: its key and the nonce it drew for it.
  datatype Party = Party(key: Key, nonce: Nonce)

  function ProofInput(prover: Party, checker: Party): seq<Byte> {
    PROOF_CONTEXT + prover.key + prover.nonce + checker.key + checker.nonce
  }

  function RoomKey(p: Primitives, code: RoomCode): Tag {
    p.sha256(KEY_CONTEXT + code)
  }

  function ProofOf(p: Primitives, code: RoomCode, prover: Party, checker: Party): Tag {
    p.hmac(RoomKey(p, code), ProofInput(prover, checker))
  }

  // ------------------------------------------------------------------ As computed

  method Proof(p: Primitives, code: RoomCode, mine: Party, theirs: Party) returns (tag: Tag)
    ensures tag == ProofOf(p, code, mine, theirs)
  {
    var keyed := KEY_CONTEXT;
    keyed := keyed + code;
    var fed := PROOF_CONTEXT;
    fed := fed + mine.key;
    fed := fed + mine.nonce;
    fed := fed + theirs.key;
    fed := fed + theirs.nonce;
    tag := p.hmac(p.sha256(keyed), fed);
  }

  // The fold looks at every byte, and accepts exactly equal arrays.
  method ConstantTimeEq(a: Tag, b: Tag) returns (same: bool)
    ensures same <==> a == b
  {
    var acc: nat := 0;
    for i := 0 to PROOF_LEN
      invariant acc == 0 <==> a[..i] == b[..i]
    {
      XorZero(a[i], b[i]);
      OrIsZero(acc, Xor(a[i], b[i]));
      assert a[..i + 1] == a[..i] + [a[i]] && b[..i + 1] == b[..i] + [b[i]];
      acc := Or(acc, Xor(a[i], b[i]));
    }
    assert a[..PROOF_LEN] == a && b[..PROOF_LEN] == b;
    same := acc == 0;
  }

  method Verify(p: Primitives, code: RoomCode, claimed: Tag, theirs: Party, mine: Party)
      returns (accepted: bool)
    ensures accepted <==> claimed == ProofOf(p, code, theirs, mine)
  {
    var expected := Proof(p, code, theirs, mine);
    accepted := ConstantTimeEq(expected, claimed);
  }

  // ------------------------------------------------------------- What a proof binds

  predicate Checked(party: Party) {
    |party.key| == KEY_LEN
  }

  // With 32-byte keys the fields sit at fixed offsets, so nothing can be moved
  // from one to the next.
  lemma ProofInputBinds(a: Party, b: Party, c: Party, d: Party)
    requires Checked(a) && Checked(b) && Checked(c) && Checked(d)
    requires ProofInput(a, b) == ProofInput(c, d)
    ensures a == c && b == d
  {
    Fields(a, b);
    Fields(c, d);
  }

  lemma Fields(a: Party, b: Party)
    requires Checked(a) && Checked(b)
    ensures var s, n := ProofInput(a, b), |PROOF_CONTEXT|;
            |s| == n + 128 && a.key == s[n..n + 32] && a.nonce == s[n + 32..n + 64]
            && b.key == s[n + 64..n + 96] && b.nonce == s[n + 96..]
  {
  }

  // Without the length check the same bytes are also a 31- and a 33-byte key.
  lemma UncheckedKeysCollide(a: Party, b: Party)
    requires Checked(a) && Checked(b)
    ensures var shorter := Party(a.key[..31], [a.key[31]] + a.nonce[..31]);
            var longer := Party([a.nonce[31]] + b.key, b.nonce);
            ProofInput(a, b) == ProofInput(shorter, longer)
            && |shorter.key| == 31 && |longer.key| == 33
  {
    assert a.key == a.key[..31] + [a.key[31]];
    assert a.nonce == a.nonce[..31] + [a.nonce[31]];
  }

  ghost predicate NoCollision(p: Primitives, code: RoomCode, m: seq<Byte>, other: RoomCode, n: seq<Byte>) {
    && (RoomKey(p, code) == RoomKey(p, other) ==> KEY_CONTEXT + code == KEY_CONTEXT + other)
    && (p.hmac(RoomKey(p, code), m) == p.hmac(RoomKey(p, other), n) ==>
          RoomKey(p, code) == RoomKey(p, other) && m == n)
  }

  // A proof is accepted for exactly the code, roles, keys and nonces it was made
  // for, as long as the hashes do not collide on these two inputs.
  lemma ProofBindsItsInputs(p: Primitives, code: RoomCode, prover: Party, checker: Party,
                            other: RoomCode, theirs: Party, mine: Party)
    requires Checked(prover) && Checked(checker) && Checked(theirs) && Checked(mine)
    requires NoCollision(p, code, ProofInput(prover, checker), other, ProofInput(theirs, mine))
    ensures ProofOf(p, code, prover, checker) == ProofOf(p, other, theirs, mine)
            <==> code == other && prover == theirs && checker == mine
  {
    if ProofOf(p, code, prover, checker) == ProofOf(p, other, theirs, mine) {
      ProofInputBinds(prover, checker, theirs, mine);
      assert code == (KEY_CONTEXT + code)[|KEY_CONTEXT|..];
      assert other == (KEY_CONTEXT + other)[|KEY_CONTEXT|..];
    }
  }

  // Echoed at its maker, a proof is checked with the roles swapped: it passes
  // only if both ends are one and the same party.
  lemma EchoedProofFails(p: Primitives, code: RoomCode, mine: Party, theirs: Party)
    requires Checked(mine) && Checked(theirs)
    requires NoCollision(p, code, ProofInput(mine, theirs), code, ProofInput(theirs, mine))
    ensures ProofOf(p, code, mine, theirs) == ProofOf(p, code, theirs, mine) <==> mine == theirs
  {
    ProofBindsItsInputs(p, code, mine, theirs, code, theirs, mine);
  }
}
