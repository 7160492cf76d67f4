// src/room.rs, the codec: a room code as ten bytes, and as the sixteen Crockford
// base-32 symbols people read aloud. Text is modelled as the source handles it,
// one `char` per byte of its UTF-8 encoding.
module RoomCodec {
  import opened Positional
  import opened Results

  const CODE_BYTES: nat := 10
  const CODE_SYMBOLS: nat := CODE_BYTES * 8 / 5

  const ALPHABET := "0123456789ABCDEFGHJKMNPQRSTVWXYZ"

  type RoomCode = bytes: seq<Byte> | |bytes| == CODE_BYTES
    witness [0, 0, 0, 0, 0, 0, 0, 0, 0, 0]

  datatype RoomError = WrongLength | BadCharacter

  // ------------------------------------------------------ What was typed, folded

  predicate IsSeparator(c: char) {
    c == '-' || c == ' ' || c == '\t' || c == '\n' || c == '\r' || c == '_'
  }

  function Cleaned(text: string): string {
    if text == "" then ""
    else (if IsSeparator(text[0]) then "" else [text[0]]) + Cleaned(text[1..])
  }

  predicate HasPrefix(cleaned: string) {
    "TIO" <= cleaned || "tio" <= cleaned
  }

  function Body(text: string): string {
    var cleaned := Cleaned(text);
    if HasPrefix(cleaned) then cleaned[3..] else cleaned
  }

  function Upper(c: char): char {
    if 'a' <= c <= 'z' then c - 32 as char else c
  }

  // Crockford's lookalikes: I and L read as 1, O as 0.
  function Folded(c: char): char {
    var upper := Upper(c);
    if upper == 'I' || upper == 'L' then '1'
    else if upper == 'O' then '0'
    else upper
  }

  function FoldedText(text: string): string {
    seq(|text|, i requires 0 <= i < |text| => Folded(text[i]))
  }

  function Position(alphabet: string, c: char): (found: Option<nat>)
    ensures found.Some? ==> found.value < |alphabet| && alphabet[found.value] == c
    ensures found.None? ==> c !in alphabet
  {
    if alphabet == "" then None
    else if alphabet[0] == c then Some(0)
    else match Position(alphabet[1..], c)
      case None => None
      case Some(n) => Some(n + 1)
  }

  function SymbolValue(c: char): (value: Option<nat>)
    ensures value.Some? ==> value.value < 32 && ALPHABET[value.value] == Folded(c)
  {
    Position(ALPHABET, Folded(c))
  }

  predicate AllSymbols(body: string) {
    forall i :: 0 <= i < |body| ==> SymbolValue(body[i]).Some?
  }

  function SymbolValues(body: string): (values: seq<nat>)
    requires AllSymbols(body)
    ensures |values| == |body| && InBase(32, values)
  {
    seq(|body|, i requires 0 <= i < |body| => SymbolValue(body[i]).value)
  }

  // What `parse` computes: the number the folded symbols denote, in bytes.
  function Parsed(text: string): Result<RoomCode, RoomError> {
    var body := Body(text);
    if |body| != CODE_SYMBOLS then Err(WrongLength)
    else if !AllSymbols(body) then Err(BadCharacter)
    else Ok(Digits(256, CODE_BYTES, Value(32, SymbolValues(body))))
  }

  // ------------------------------------------------------------------ What is shown

  function Symbols(code: RoomCode): (symbols: seq<nat>)
    ensures |symbols| == CODE_SYMBOLS && InBase(32, symbols)
  {
    Digits(32, CODE_SYMBOLS, Value(256, code))
  }

  function Letters(symbols: seq<nat>): (text: string)
    requires InBase(32, symbols)
    ensures |text| == |symbols|
  {
    seq(|symbols|, i requires 0 <= i < |symbols| => ALPHABET[symbols[i]])
  }

  // `chunks(4)` joined with dashes.
  function Grouped(text: string): string {
    if |text| <= 4 then text else text[..4] + "-" + Grouped(text[4..])
  }

  function Displayed(code: RoomCode): string {
    "TIO-" + Grouped(Letters(Symbols(code)))
  }

  // ---------------------------------------------------------- The u16 accumulators

  // The low `width` bits of the register are the part of the stream `n` that has
  // not been emitted yet. Nothing is said of the bits above, which wrap.
  ghost predicate Holds(bits: nat, width: nat, n: nat) {
    PowPositive(2, width);
    bits < U16 && bits % Pow(2, width) == n % Pow(2, width)
  }

  // `bits = (bits << k) | v` appends k bits to the stream, although the shift
  // wraps, as long as the register has room for the pending ones.
  lemma ShiftIn(bits: nat, width: nat, n: nat, v: nat, k: nat)
    requires Holds(bits, width, n) && v < Pow(2, k) && width + k <= 16
    ensures Holds(Or(Shl16(bits, k), v), width + k, n * Pow(2, k) + v)
    ensures Pow(2, width) > 0 && Pow(2, width + k) > 0
    ensures (n * Pow(2, k) + v) / Pow(2, width + k) == n / Pow(2, width)
  {
    PowPositive(2, width);
    PowPositive(2, 16 - width - k);
    PowSum(2, width, k);
    PowSum(2, width + k, 16 - width - k);
    RegisterWidth();
    var kept := ShiftedNumber(bits, n, Pow(2, width), Pow(2, k), Pow(2, 16 - width - k), v);
    OrLowBits(kept, v, k);
    AppendOne(n, Pow(2, width), Pow(2, k), v);
  }

  lemma ShiftedNumber(bits: nat, n: nat, w: nat, e: nat, rest: nat, v: nat) returns (kept: nat)
    requires w > 0 && rest > 0 && v < e && (w * e) * rest == U16 && bits % w == n % w
    ensures w * e > 0
    ensures (bits * e) % U16 == kept * e && kept * e + v < U16
    ensures (kept * e + v) % (w * e) == (n * e + v) % (w * e)
  {
    WrappedShift(bits, e, w * rest, w, rest);
    kept := bits % (w * rest);
    RegisterBound(kept, e, w * rest, v);
    ModOfMod(bits, w, rest);
    Append(kept, n, w, e, v);
  }

  lemma WrappedShift(bits: nat, e: nat, m: nat, w: nat, rest: nat)
    requires e > 0 && w > 0 && rest > 0 && m == w * rest && (w * e) * rest == U16
    ensures m > 0 && e * m == U16 && (bits * e) % U16 == (bits % m) * e
  {
    MulMonotone(w, 1, rest);
    assert e * m == U16 by {
      MulAssociates(e, w, rest);
    }
    var q, r := bits / m, bits % m;
    DivMod(bits, m);
    assert bits * e == U16 * q + r * e by {
      MulAssociates(e, m, q);
      Distribute(e, m * q, r);
    }
    RegisterBound(r, e, m, 0);
    SplitUnique(U16, q, r * e);
  }

  lemma RegisterBound(r: nat, e: nat, m: nat, v: nat)
    requires r < m && e * m == U16 && v < e
    ensures r * e + v < U16
  {
    MulMonotone(e, r + 1, m);
    Distribute(e, r, 1);
  }

  lemma Distribute(a: nat, b: nat, c: nat)
    ensures a * (b + c) == a * b + a * c
  {
  }

  lemma ModOfMod(x: nat, a: nat, b: nat)
    requires a > 0 && b > 0
    ensures a * b > 0 && (x % (a * b)) % a == x % a
  {
    MulMonotone(a, 1, b);
    var q, r := x / (a * b), x % (a * b);
    DivMod(x, a * b);
    DivMod(r, a);
    assert x == a * (b * q + r / a) + r % a by {
      MulAssociates(a, b, q);
      Distribute(a, b * q, r / a);
    }
    SplitUnique(a, b * q + r / a, r % a);
  }

  // Appending the same e-ary digit keeps two numbers equal modulo a longer width.
  lemma Append(x: nat, y: nat, w: nat, e: nat, v: nat)
    requires w > 0 && v < e && x % w == y % w
    ensures w * e > 0 && (x * e + v) % (w * e) == (y * e + v) % (w * e)
  {
    AppendOne(x, w, e, v);
    AppendOne(y, w, e, v);
  }

  lemma AppendOne(x: nat, w: nat, e: nat, v: nat)
    requires w > 0 && v < e
    ensures w * e > 0 && (x * e + v) % (w * e) == (x % w) * e + v
    ensures (x * e + v) / (w * e) == x / w
  {
    MulMonotone(w, 1, e);
    var q, r := x / w, x % w;
    DivMod(x, w);
    assert x * e + v == (w * e) * q + (r * e + v) by {
      MulAssociates(e, w, q);
      Distribute(e, w * q, r);
    }
    assert r * e + v < w * e by {
      MulMonotone(e, r + 1, w);
      Distribute(e, r, 1);
    }
    SplitUnique(w * e, q, r * e + v);
  }

  // Emitting the top k pending bits continues the emitted numeral by the digit
  // the stream has there.
  lemma ShiftOut(bits: nat, width: nat, n: nat, k: nat)
    requires k <= width && Holds(bits, width, n)
    ensures Holds(bits, width - k, n)
    ensures Pow(2, k) > 0 && Pow(2, width) > 0 && Pow(2, width - k) > 0
    ensures n / Pow(2, width - k)
         == (n / Pow(2, width)) * Pow(2, k) + Shr(bits, width - k) % Pow(2, k)
  {
    PowPositive(2, k);
    PowPositive(2, width);
    PowPositive(2, width - k);
    PowSum(2, width - k, k);
    var p, e := Pow(2, width - k), Pow(2, k);
    SplitTwice(bits, p, e);
    SplitTwice(n, p, e);
    ModOfMod(bits, p, e);
    ModOfMod(n, p, e);
  }

  lemma SplitTwice(x: nat, p: nat, e: nat)
    requires p > 0 && e > 0
    ensures p * e > 0
    ensures x / p == (x / (p * e)) * e + (x % (p * e)) / p
    ensures (x / p) % e == (x % (p * e)) / p
  {
    MulMonotone(p, 1, e);
    var q, r := x / (p * e), x % (p * e);
    DivMod(x, p * e);
    DivMod(r, p);
    QuotientBound(p, e, r);
    assert x == p * (e * q + r / p) + r % p by {
      MulAssociates(p, e, q);
      Distribute(p, e * q, r / p);
    }
    SplitUnique(p, e * q + r / p, r % p);
    SplitUnique(e, q, r / p);
  }

  // --------------------------------------------------------------------- The loops

  // One loop's state: the digits emitted so far and the register's pending low
  // bits are together the stream n.
  ghost predicate Streaming(base: nat, emitted: seq<nat>, bits: nat, width: nat, n: nat) {
    PowPositive(2, width);
    InBase(base, emitted) && Holds(bits, width, n) && Value(base, emitted) == n / Pow(2, width)
  }

  lemma StreamStart(base: nat)
    ensures Streaming(base, [], 0, 0, 0)
  {
  }

  lemma StreamFeed(base: nat, emitted: seq<nat>, bits: nat, width: nat, n: nat, v: nat, k: nat)
    requires Streaming(base, emitted, bits, width, n) && v < Pow(2, k) && width + k <= 16
    ensures Streaming(base, emitted, Or(Shl16(bits, k), v), width + k, n * Pow(2, k) + v)
  {
    ShiftIn(bits, width, n, v, k);
  }

  lemma StreamEmit(base: nat, emitted: seq<nat>, bits: nat, width: nat, n: nat, k: nat)
    requires Streaming(base, emitted, bits, width, n) && k <= width && base == Pow(2, k) > 0
    ensures Streaming(base, emitted + [Shr(bits, width - k) % base], bits, width - k, n)
  {
    ShiftOut(bits, width, n, k);
    DigitAppend(base, emitted, n / Pow(2, width), Shr(bits, width - k) % base);
  }

  lemma DigitAppend(base: nat, digits: seq<nat>, value: nat, digit: nat)
    requires InBase(base, digits) && digit < base && Value(base, digits) == value
    ensures InBase(base, digits + [digit])
    ensures Value(base, digits + [digit]) == value * base + digit
  {
    ValueAppend(base, digits, digit);
  }

  lemma StreamEnd(base: nat, count: nat, emitted: seq<nat>, bits: nat, n: nat)
    requires base > 0 && |emitted| == count && n < Pow(base, count)
    requires Streaming(base, emitted, bits, 0, n)
    ensures emitted == Digits(base, count, n)
  {
    DigitsValue(base, count, n);
    ValueUnique(base, emitted, Digits(base, count, n));
  }

  lemma SmallPowers()
    ensures Pow(2, 5) == 32 && Pow(2, 8) == 256
  {
  }

  // The stream fed by a prefix of the body.
  ghost predicate Fed(body: string, i: nat, n: nat)
    requires i <= |body|
  {
    AllSymbols(body[..i]) && n == Value(32, SymbolValues(body[..i]))
  }

  lemma FedStart(body: string)
    ensures Fed(body, 0, 0)
  {
  }

  lemma FedStep(body: string, i: nat, n: nat)
    requires i < |body| && Fed(body, i, n) && SymbolValue(body[i]).Some?
    ensures Fed(body, i + 1, n * 32 + SymbolValue(body[i]).value)
  {
    hide SymbolValue, Value;
    var shorter, longer := body[..i], body[..i + 1];
    assert longer == shorter + [body[i]];
    forall j | 0 <= j < |longer| ensures SymbolValue(longer[j]).Some? {
      if j < i {
        assert longer[j] == shorter[j];
      }
    }
    var v := SymbolValue(body[i]).value;
    assert SymbolValues(longer) == SymbolValues(shorter) + [v];
    ValueAppend(32, SymbolValues(shorter), v);
  }

  lemma FedAll(body: string, n: nat)
    requires |body| == CODE_SYMBOLS && Fed(body, |body|, n)
    ensures AllSymbols(body) && n == Value(32, SymbolValues(body)) < Pow(256, CODE_BYTES)
  {
    assert body[..|body|] == body;
    SymbolsBound(SymbolValues(body));
  }

  lemma SymbolsBound(values: seq<nat>)
    requires |values| == CODE_SYMBOLS && InBase(32, values)
    ensures Value(32, values) < Pow(256, CODE_BYTES)
  {
    ValueBound(32, values);
    EightyBits();
  }

  lemma NotAllSymbols(body: string, i: nat)
    requires i < |body| && SymbolValue(body[i]).None?
    ensures !AllSymbols(body)
  {
  }

  method Parse(text: string) returns (result: Result<RoomCode, RoomError>)
    ensures result == Parsed(text)
  {
    hide Streaming, Fed, Or, Shl16, Shr, Pow, Value, Digits, SymbolValue, Body;
    var body := Body(text);
    if |body| != CODE_SYMBOLS {
      return Err(WrongLength);
    }
    var bits: nat, width: nat, out: seq<Byte> := 0, 0, [];
    ghost var n: nat := 0;
    StreamStart(256);
    FedStart(body);
    for i := 0 to |body|
      invariant Fed(body, i, n)
      invariant width < 8 && 5 * i == 8 * |out| + width
      invariant Streaming(256, out, bits, width, n)
    {
      var found := SymbolValue(body[i]);
      if found.None? {
        NotAllSymbols(body, i);
        return Err(BadCharacter);
      }
      var value := found.value;
      SmallPowers();
      FedStep(body, i, n);
      StreamFeed(256, out, bits, width, n, value, 5);
      bits, width, n := Or(Shl16(bits, 5), value), width + 5, n * 32 + value;
      if width >= 8 {
        StreamEmit(256, out, bits, width, n, 8);
        width := width - 8;
        out := out + [Shr(bits, width) % 256];
      }
    }
    // The conversion to a ten-byte array cannot fail: 16 * 5 == 10 * 8.
    assert |out| == CODE_BYTES && width == 0;
    FedAll(body, n);
    StreamEnd(256, CODE_BYTES, out, bits, n);
    return Ok(out);
  }

  lemma BytesValueAppend(code: RoomCode, i: nat)
    requires i < |code|
    ensures Value(256, code[..i + 1]) == Value(256, code[..i]) * 256 + code[i]
  {
    assert code[..i + 1] == code[..i] + [code[i]];
    ValueAppend(256, code[..i], code[i]);
  }

  lemma BytesFed(code: RoomCode, n: nat)
    requires n == Value(256, code[..|code|])
    ensures n == Value(256, code) < Pow(32, CODE_SYMBOLS)
  {
    assert code[..|code|] == code;
    ValueBound(256, code);
    EightyBits();
  }

  lemma LettersAppend(symbols: seq<nat>, symbol: nat)
    requires InBase(32, symbols) && symbol < 32
    ensures InBase(32, symbols + [symbol])
    ensures Letters(symbols + [symbol]) == Letters(symbols) + [ALPHABET[symbol]]
  {
  }

  ghost predicate Encoding(symbols: seq<nat>, encoded: string, bits: nat, width: nat, n: nat) {
    Streaming(32, symbols, bits, width, n) && encoded == Letters(symbols)
  }

  // `ALPHABET[(bits >> width) & 0x1F]` is the letter of the next symbol.
  lemma EncodeOne(symbols: seq<nat>, encoded: string, bits: nat, width: nat, n: nat, symbol: nat)
    requires Encoding(symbols, encoded, bits, width, n) && width >= 5
    requires symbol == And(Shr(bits, width - 5), 0x1F)
    ensures symbol < 32
    ensures Encoding(symbols + [symbol], encoded + [ALPHABET[symbol]], bits, width - 5, n)
  {
    SmallPowers();
    AndMask(Shr(bits, width - 5), 5);
    StreamEmit(32, symbols, bits, width, n, 5);
    LettersAppend(symbols, symbol);
  }

  lemma EncodeFeed(symbols: seq<nat>, encoded: string, bits: nat, width: nat, n: nat, byte: Byte)
    requires Encoding(symbols, encoded, bits, width, n) && width < 5
    ensures Encoding(symbols, encoded, Or(Shl16(bits, 8), byte), width + 8, n * 256 + byte)
  {
    SmallPowers();
    StreamFeed(32, symbols, bits, width, n, byte, 8);
  }

  lemma EncodeEnd(symbols: seq<nat>, encoded: string, bits: nat, n: nat, code: RoomCode)
    requires Encoding(symbols, encoded, bits, 0, n) && |symbols| == CODE_SYMBOLS
    requires n == Value(256, code[..|code|])
    ensures encoded == Letters(Symbols(code))
  {
    BytesFed(code, n);
    StreamEnd(32, CODE_SYMBOLS, symbols, bits, n);
  }

  method Display(code: RoomCode) returns (shown: string)
    ensures shown == Displayed(code)
  {
    hide Encoding, Or, Shl16, And;
    var encoded := "";
    var bits: nat, width: nat := 0, 0;
    ghost var n: nat, symbols: seq<nat> := 0, [];
    EncodeStart();
    for i := 0 to |code|
      invariant n == Value(256, code[..i])
      invariant width < 5 && 8 * i == 5 * |symbols| + width
      invariant Encoding(symbols, encoded, bits, width, n)
    {
      BytesValueAppend(code, i);
      EncodeFeed(symbols, encoded, bits, width, n, code[i]);
      bits, width, n := Or(Shl16(bits, 8), code[i]), width + 8, n * 256 + code[i];
      while width >= 5
        invariant width <= 12 && 8 * (i + 1) == 5 * |symbols| + width
        invariant Encoding(symbols, encoded, bits, width, n)
      {
        var symbol := And(Shr(bits, width - 5), 0x1F);
        EncodeOne(symbols, encoded, bits, width, n, symbol);
        width := width - 5;
        encoded := encoded + [ALPHABET[symbol]];
        symbols := symbols + [symbol];
      }
    }
    EncodeEnd(symbols, encoded, bits, n, code);
    return "TIO-" + Grouped(encoded);
  }

  lemma EncodeStart()
    ensures Encoding([], "", 0, 0, 0)
  {
    StreamStart(32);
  }
}
