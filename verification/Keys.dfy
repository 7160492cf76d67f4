// Public keys, and the byte order on them that decides every dial collision.
module Keys {
  import opened Positional

  type Key = seq<Byte>

  const KEY_LEN: nat := 32

  // Slice comparison: the first differing byte decides, then the length.
  predicate Less(a: Key, b: Key) {
    if b == [] then false
    else if a == [] then true
    else if a[0] != b[0] then a[0] < b[0]
    else Less(a[1..], b[1..])
  }

  lemma {:induction false} LessIrreflexive(a: Key)
    ensures !Less(a, a)
  {
    if a != [] {
      LessIrreflexive(a[1..]);
    }
  }

  lemma {:induction false} LessTransitive(a: Key, b: Key, c: Key)
    requires Less(a, b) && Less(b, c)
    ensures Less(a, c)
  {
    if a != [] && b != [] && c != [] && a[0] == b[0] == c[0] {
      LessTransitive(a[1..], b[1..], c[1..]);
    }
  }

  // Exactly one of two distinct keys is the smaller.
  lemma {:induction false} LessTotal(a: Key, b: Key)
    ensures a != b ==> (Less(a, b) <==> !Less(b, a))
  {
    if a != [] && b != [] && a[0] == b[0] {
      assert a == [a[0]] + a[1..] && b == [b[0]] + b[1..];
      LessTotal(a[1..], b[1..]);
    }
  }

  // ------------------------------------------------------------ Which one is smaller

  // What `[u8]` comparison means: after a common prefix of length i, a has the
  // smaller byte, or a ends and b goes on.
  ghost predicate DecidedAt(a: Key, b: Key, i: nat) {
    && i <= |a| && i < |b| && a[..i] == b[..i]
    && (i == |a| || a[i] < b[i])
  }

  lemma {:induction false} LessExactly(a: Key, b: Key)
    ensures Less(a, b) <==> exists i :: DecidedAt(a, b, i)
  {
    if a == [] || b == [] || a[0] != b[0] {
      if Less(a, b) {
        assert DecidedAt(a, b, 0);
      }
      if i: nat :| DecidedAt(a, b, i) {
        assert i > 0 ==> a[..i][0] == b[..i][0];
      }
    } else {
      LessExactly(a[1..], b[1..]);
      if i: nat :| DecidedAt(a[1..], b[1..], i) {
        assert a[..i + 1] == [a[0]] + a[1..][..i] && b[..i + 1] == [b[0]] + b[1..][..i];
        assert DecidedAt(a, b, i + 1);
      }
      if i: nat :| DecidedAt(a, b, i) {
        TailDecided(a, b, i);
      }
    }
  }

  lemma TailDecided(a: Key, b: Key, i: nat)
    requires a != [] && b != [] && a[0] == b[0] && DecidedAt(a, b, i)
    ensures i > 0 && DecidedAt(a[1..], b[1..], i - 1)
  {
    assert a[1..][..i - 1] == a[..i][1..] && b[1..][..i - 1] == b[..i][1..];
  }

  // Keys of one length compare like the numbers their bytes spell.
  lemma {:induction false} LessIsNumeric(a: Key, b: Key)
    requires |a| == |b|
    ensures Less(a, b) <==> Value(256, a) < Value(256, b)
  {
    if a != [] {
      LessIsNumeric(a[1..], b[1..]);
      ValueHead(256, a);
      ValueHead(256, b);
      ValueBound(256, a[1..]);
      ValueBound(256, b[1..]);
      HeadDecides(a[0], b[0], Pow(256, |a| - 1), Value(256, a[1..]), Value(256, b[1..]));
      HeadDecides(b[0], a[0], Pow(256, |a| - 1), Value(256, b[1..]), Value(256, a[1..]));
    }
  }

  lemma HeadDecides(x: nat, y: nat, power: nat, v: nat, w: nat)
    requires v < power && w < power
    ensures x < y ==> x * power + v < y * power + w
  {
    if x < y {
      MulMonotone(power, x + 1, y);
    }
  }
}
