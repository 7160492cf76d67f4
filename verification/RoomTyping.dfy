// What a typed text is read as, character by character: which texts are a given
// code, and which are refused, in terms of the letters themselves.
module RoomTyping {
  import opened Positional
  import opened Results
  import opened RoomCodec
  import opened RoomLaws

  const UPPER_CASE := "0123456789ABCDEFGHJKMNPQRSTVWXYZ"
  const LOWER_CASE := "0123456789abcdefghjkmnpqrstvwxyz"

  // A symbol may be typed in either case; 1 and 0 also as what they look like.
  predicate ReadsAs(c: char, v: nat) {
    && v < 32
    && (c == UPPER_CASE[v] || c == LOWER_CASE[v]
        || (v == 1 && c in "IiLl")
        || (v == 0 && c in "Oo"))
  }

  lemma CaseOf(v: nat)
    requires v < 32
    ensures ALPHABET[v] == UPPER_CASE[v]
    ensures if 'A' <= ALPHABET[v] then LOWER_CASE[v] == ALPHABET[v] + 32 as char
            else LOWER_CASE[v] == ALPHABET[v]
    ensures '0' <= ALPHABET[v] <= '9' || 'A' <= ALPHABET[v] <= 'Z'
  {
  }

  lemma OneIndex(v: nat)
    requires v < 32
    ensures ALPHABET[v] == '1' <==> v == 1
    ensures ALPHABET[v] == '0' <==> v == 0
  {
  }

  lemma FoldsExactly(c: char, v: nat)
    requires v < 32
    ensures Folded(c) == ALPHABET[v] <==> ReadsAs(c, v)
  {
    CaseOf(v);
    OneIndex(v);
    LetterFoldsToItself(v);
  }

  lemma ReadingExactly(c: char, v: nat)
    ensures SymbolValue(c) == Some(v) <==> ReadsAs(c, v)
  {
    if v < 32 {
      FoldsExactly(c, v);
      AlphabetIncreasing();
      PositionOf(ALPHABET, v);
    }
  }

  lemma ReadableExactly(c: char)
    ensures SymbolValue(c).Some? <==> exists v :: ReadsAs(c, v)
  {
    if SymbolValue(c).Some? {
      ReadingExactly(c, SymbolValue(c).value);
    }
    if v: nat :| ReadsAs(c, v) {
      ReadingExactly(c, v);
    }
  }

  // ------------------------------------------------------------------ Whole texts

  const SEPARATORS := "- \t\n\r_"

  // `text` is `solid` with any number of separators put anywhere.
  predicate Spread(text: string, solid: string)
    decreases |text|
  {
    if text == "" then solid == ""
    else if text[0] in SEPARATORS then Spread(text[1..], solid)
    else solid != "" && text[0] == solid[0] && Spread(text[1..], solid[1..])
  }

  predicate IsPrefix(prefix: string, body: string) {
    || prefix == "TIO"
    || prefix == "tio"
    || (prefix == "" && !("TIO" <= body) && !("tio" <= body))
  }

  predicate IsBody(text: string, prefix: string, body: string) {
    IsPrefix(prefix, body) && Spread(text, prefix + body)
  }

  predicate Spells(body: string, symbols: seq<nat>) {
    |body| == |symbols| && forall i :: 0 <= i < |body| ==> ReadsAs(body[i], symbols[i])
  }

  lemma {:induction false} SpreadIsCleaned(text: string, solid: string)
    ensures Spread(text, solid) <==> Cleaned(text) == solid
    decreases |text|
  {
    if text != "" {
      assert IsSeparator(text[0]) <==> text[0] in SEPARATORS;
      if IsSeparator(text[0]) {
        SpreadIsCleaned(text[1..], solid);
        assert Cleaned(text) == Cleaned(text[1..]);
      } else {
        assert Cleaned(text)[1..] == Cleaned(text[1..]);
        if solid != "" {
          assert solid == [solid[0]] + solid[1..];
          SpreadIsCleaned(text[1..], solid[1..]);
        }
      }
    }
  }

  lemma BodyExactly(text: string, prefix: string, body: string)
    ensures IsBody(text, prefix, body) ==> Body(text) == body
    ensures exists p :: IsBody(text, p, Body(text))
  {
    var cleaned := Cleaned(text);
    SpreadIsCleaned(text, prefix + body);
    if IsBody(text, prefix, body) {
      assert prefix != "" ==> cleaned[..3] == prefix && cleaned[3..] == body;
      assert prefix == "" ==> cleaned == body;
    }
    if HasPrefix(cleaned) {
      assert cleaned == cleaned[..3] + cleaned[3..];
      SpreadIsCleaned(text, cleaned[..3] + Body(text));
      assert IsBody(text, cleaned[..3], Body(text));
    } else {
      assert "" + cleaned == cleaned;
      SpreadIsCleaned(text, cleaned);
      assert IsBody(text, "", Body(text));
    }
  }

  lemma SpellsExactly(body: string, symbols: seq<nat>)
    requires |body| == CODE_SYMBOLS
    ensures Spells(body, symbols) <==> AllSymbols(body) && SymbolValues(body) == symbols
  {
    if Spells(body, symbols) {
      forall i | 0 <= i < |body| ensures SymbolValue(body[i]) == Some(symbols[i]) {
        ReadingExactly(body[i], symbols[i]);
      }
    }
    if AllSymbols(body) && SymbolValues(body) == symbols {
      forall i | 0 <= i < |body| ensures ReadsAs(body[i], symbols[i]) {
        ReadingExactly(body[i], SymbolValue(body[i]).value);
      }
    }
  }

  lemma ParsedAs(text: string, code: RoomCode)
    ensures Parsed(text) == Ok(code) <==>
              |Body(text)| == CODE_SYMBOLS && AllSymbols(Body(text))
              && SymbolValues(Body(text)) == Symbols(code)
  {
    CodeOfSymbols(code);
    if |Body(text)| == CODE_SYMBOLS && AllSymbols(Body(text)) {
      SymbolsOfCode(SymbolValues(Body(text)));
    }
  }

  // The texts read as a code are exactly these: its 16 symbols, each in any of its
  // readings, after `TIO`, `tio` or (unless they would be taken for it) nothing,
  // with separators anywhere.
  lemma AcceptsExactly(text: string, code: RoomCode)
    ensures Parsed(text) == Ok(code) <==>
              exists prefix, body :: IsBody(text, prefix, body) && Spells(body, Symbols(code))
  {
    hide Parsed, Body, Spells, IsBody, Symbols, SymbolValues, AllSymbols;
    ParsedAs(text, code);
    if Parsed(text) == Ok(code) {
      BodyExactly(text, "", "");
      var prefix :| IsBody(text, prefix, Body(text));
      SpellsExactly(Body(text), Symbols(code));
    }
    if prefix, body :| IsBody(text, prefix, body) && Spells(body, Symbols(code)) {
      BodyExactly(text, prefix, body);
      SpelledLength(body, code);
      SpellsExactly(body, Symbols(code));
    }
  }

  lemma SpelledLength(body: string, code: RoomCode)
    requires Spells(body, Symbols(code))
    ensures |body| == CODE_SYMBOLS
  {
  }

  // And these are the refusals.
  lemma RefusesExactly(text: string, prefix: string, body: string)
    requires IsBody(text, prefix, body)
    ensures Parsed(text) == Err(WrongLength) <==> |body| != 16
    ensures Parsed(text) == Err(BadCharacter) <==>
              |body| == 16 && exists i: nat :: Unreadable(body, i)
  {
    hide IsBody, Body, AllSymbols, Unreadable, SymbolValues, Digits, Value;
    BodyExactly(text, prefix, body);
    AllReadable(body);
  }

  ghost predicate Unreadable(body: string, i: nat) {
    i < |body| && forall v :: !ReadsAs(body[i], v)
  }

  lemma AllReadable(body: string)
    ensures AllSymbols(body) <==> !exists i: nat :: Unreadable(body, i)
  {
    hide SymbolValue;
    if !AllSymbols(body) {
      var i :| 0 <= i < |body| && SymbolValue(body[i]).None?;
      ReadableExactly(body[i]);
      assert Unreadable(body, i);
    }
    if i: nat :| Unreadable(body, i) {
      ReadableExactly(body[i]);
    }
  }

  // ------------------------------------------------------------------- Any mixture of cases

  predicate Recased(shown: string, typed: string) {
    |shown| == |typed|
    && forall i :: 0 <= i < |shown| ==>
         typed[i] == shown[i] || ('A' <= shown[i] <= 'Z' && typed[i] == shown[i] + 32 as char)
  }

  lemma {:induction false} RecasedCleaned(shown: string, typed: string)
    requires Recased(shown, typed)
    ensures Recased(Cleaned(shown), Cleaned(typed))
    decreases |shown|
  {
    if shown != "" {
      RecasedCleaned(shown[1..], typed[1..]);
      assert IsSeparator(shown[0]) <==> IsSeparator(typed[0]);
      if !IsSeparator(shown[0]) {
        assert Cleaned(shown) == [shown[0]] + Cleaned(shown[1..]);
        assert Cleaned(typed) == [typed[0]] + Cleaned(typed[1..]);
      }
    }
  }

  lemma RecasedLetters(symbols: seq<nat>, typed: string)
    requires InBase(32, symbols) && Recased(Letters(symbols), typed)
    ensures Spells(typed, symbols)
  {
    forall i | 0 <= i < |typed| ensures ReadsAs(typed[i], symbols[i]) {
      CaseOf(symbols[i]);
    }
  }

  // A code as shown, in any mixture of cases after its prefix, is that code.
  lemma AnyCaseIsRead(code: RoomCode, prefix: string, typed: string)
    requires prefix == "TIO" || prefix == "tio"
    requires Recased(Displayed(code)[3..], typed)
    ensures Parsed(prefix + typed) == Ok(code)
  {
    hide Displayed, Letters, Symbols, Cleaned, Spread, Spells, Parsed, Recased;
    var body := Cleaned(typed);
    ShownBody(code);
    RecasedCleaned(Displayed(code)[3..], typed);
    RecasedLetters(Symbols(code), body);
    CleanedConcat(prefix, typed);
    CleanedSolid(prefix);
    SpreadIsCleaned(prefix + typed, prefix + body);
    assert IsBody(prefix + typed, prefix, body);
    AcceptsExactly(prefix + typed, code);
  }

  lemma ShownBody(code: RoomCode)
    ensures |Displayed(code)| >= 3 && Cleaned(Displayed(code)[3..]) == Letters(Symbols(code))
  {
    var letters := Letters(Symbols(code));
    assert Displayed(code)[3..] == "-" + Grouped(letters);
    LettersSolid(Symbols(code));
    CleanedGroups(letters);
    CleanedConcat("-", Grouped(letters));
    CleanedDash();
    assert "" + letters == letters;
  }
}
