// The texts that tell the room's two hashes apart, spelled out.
module RoomContexts {
  import opened Positional
  import opened AdmissionProof

  function Ascii(text: string): seq<Byte>
    requires forall i :: 0 <= i < |text| ==> text[i] < 128 as char
  {
    seq(|text|, i requires 0 <= i < |text| => text[i] as nat)
  }

  // What the two hashes are told apart by.
  lemma ContextsSpell()
    ensures KEY_CONTEXT == Ascii("tio-chat v1 room key")
    ensures PROOF_CONTEXT == Ascii("tio-chat v1 admission")
  {
  }
}
