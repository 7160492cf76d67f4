// What the codec promises: parsing undoes display, and parsing computes a normal
// form that ignores separators, case and lookalikes (but not the prefix's).
module RoomLaws {
  import opened Positional
  import opened Results
  import opened RoomCodec

  // ------------------------------------------------------------------- The alphabet

  ghost predicate Increasing(text: string) {
    forall i, j :: 0 <= i < j < |text| ==> text[i] < text[j]
  }

  lemma {:induction false} IncreasingFromSteps(text: string)
    requires forall i :: 0 <= i < |text| - 1 ==> text[i] < text[i + 1]
    ensures Increasing(text)
  {
    if |text| > 1 {
      var front := text[..|text| - 1];
      IncreasingFromSteps(front);
      var last := |text| - 1;
      forall i | 0 <= i < last ensures text[i] < text[last] {
        if i < last - 1 {
          assert front[i] < front[last - 1];
        }
      }
      forall i, j | 0 <= i < j < |text| ensures text[i] < text[j] {
        if j < last {
          assert front[i] < front[j];
        }
      }
    }
  }

  lemma AlphabetIncreasing()
    ensures |ALPHABET| == 32 && Increasing(ALPHABET)
  {
    IncreasingFromSteps(ALPHABET);
  }

  lemma {:induction false} PositionOf(text: string, v: nat)
    requires v < |text| && Increasing(text)
    ensures Position(text, text[v]) == Some(v)
  {
    if v > 0 {
      assert text[0] < text[v];
      forall i, j | 0 <= i < j < |text[1..]| ensures text[1..][i] < text[1..][j] {
        assert text[i + 1] < text[j + 1];
      }
      PositionOf(text[1..], v - 1);
    }
  }

  // The alphabet has no lookalikes: every letter folds to itself.
  lemma LetterFoldsToItself(v: nat)
    requires v < 32
    ensures Folded(ALPHABET[v]) == ALPHABET[v] && !IsSeparator(ALPHABET[v])
    ensures ALPHABET[v] != 'I' && ALPHABET[v] != 'i' && ALPHABET[v] != 't'
  {
    assert '0' <= ALPHABET[v] <= 'Z';
    assert ALPHABET[v] != 'I' && ALPHABET[v] != 'L' && ALPHABET[v] != 'O';
  }

  lemma LetterValue(v: nat)
    requires v < 32
    ensures SymbolValue(ALPHABET[v]) == Some(v)
  {
    LetterFoldsToItself(v);
    AlphabetIncreasing();
    PositionOf(ALPHABET, v);
  }

  lemma LettersValues(symbols: seq<nat>)
    requires InBase(32, symbols)
    ensures AllSymbols(Letters(symbols)) && SymbolValues(Letters(symbols)) == symbols
  {
    forall i | 0 <= i < |symbols| ensures SymbolValue(Letters(symbols)[i]) == Some(symbols[i]) {
      LetterValue(symbols[i]);
    }
  }

  // --------------------------------------------------------------------- Separators

  lemma {:induction false} CleanedConcat(a: string, b: string)
    ensures Cleaned(a + b) == Cleaned(a) + Cleaned(b)
  {
    if a == "" {
      assert a + b == b;
    } else {
      assert (a + b)[1..] == a[1..] + b;
      CleanedConcat(a[1..], b);
    }
  }

  lemma {:induction false} CleanedSolid(text: string)
    requires forall i :: 0 <= i < |text| ==> !IsSeparator(text[i])
    ensures Cleaned(text) == text
  {
    if text != "" {
      CleanedSolid(text[1..]);
    }
  }

  lemma {:induction false} CleanedGroups(text: string)
    requires forall i :: 0 <= i < |text| ==> !IsSeparator(text[i])
    ensures Cleaned(Grouped(text)) == text
    decreases |text|
  {
    if |text| <= 4 {
      CleanedSolid(text);
    } else {
      var rest := text[4..];
      CleanedGroups(rest);
      CleanedSolid(text[..4]);
      CleanedConcat(text[..4] + "-", Grouped(rest));
      CleanedConcat(text[..4], "-");
      CleanedDash();
      assert text == text[..4] + rest;
    }
  }

  lemma CleanedDash()
    ensures Cleaned("-") == ""
  {
  }

  // A separator may be typed anywhere, inside the prefix included.
  lemma SeparatorsAreIgnored(before: string, separator: char, after: string)
    requires IsSeparator(separator)
    ensures Parsed(before + [separator] + after) == Parsed(before + after)
  {
    CleanedConcat(before + [separator], after);
    CleanedConcat(before, [separator]);
    CleanedConcat(before, after);
    CleanedSeparator(separator);
    assert Cleaned(before) + "" == Cleaned(before);
    SameCleaned(before + [separator] + after, before + after);
  }

  lemma CleanedSeparator(separator: char)
    requires IsSeparator(separator)
    ensures Cleaned([separator]) == ""
  {
    assert [separator][1..] == "";
  }

  lemma SameCleaned(a: string, b: string)
    requires Cleaned(a) == Cleaned(b)
    ensures Parsed(a) == Parsed(b)
  {
  }

  // ------------------------------------------------------------------- Round trips

  lemma CodeOfSymbols(code: RoomCode)
    ensures Digits(256, CODE_BYTES, Value(32, Symbols(code))) == code
  {
    ValueBound(256, code);
    EightyBits();
    DigitsValue(32, CODE_SYMBOLS, Value(256, code));
    DigitsValue(256, CODE_BYTES, Value(256, code));
    ValueUnique(256, Digits(256, CODE_BYTES, Value(256, code)), code);
  }

  lemma SymbolsOfCode(symbols: seq<nat>)
    requires |symbols| == CODE_SYMBOLS && InBase(32, symbols)
    ensures Symbols(Digits(256, CODE_BYTES, Value(32, symbols))) == symbols
  {
    ValueBound(32, symbols);
    EightyBits();
    DigitsValue(256, CODE_BYTES, Value(32, symbols));
    DigitsValue(32, CODE_SYMBOLS, Value(32, symbols));
    ValueUnique(32, Symbols(Digits(256, CODE_BYTES, Value(32, symbols))), symbols);
  }

  lemma LettersSolid(symbols: seq<nat>)
    requires InBase(32, symbols)
    ensures forall i :: 0 <= i < |symbols| ==> !IsSeparator(Letters(symbols)[i])
  {
    forall i | 0 <= i < |symbols| ensures !IsSeparator(Letters(symbols)[i]) {
      LetterFoldsToItself(symbols[i]);
    }
  }

  lemma ParsedLetters(text: string, code: RoomCode)
    requires Body(text) == Letters(Symbols(code))
    ensures Parsed(text) == Ok(code)
  {
    LettersValues(Symbols(code));
    CodeOfSymbols(code);
  }

  // `parse` undoes `display`, for every code.
  lemma ParseUndoesDisplay(code: RoomCode)
    ensures Parsed(Displayed(code)) == Ok(code)
  {
    var letters := Letters(Symbols(code));
    LettersSolid(Symbols(code));
    CleanedGroups(letters);
    CleanedConcat("TIO-", Grouped(letters));
    CleanedPrefix();
    assert "TIO" + letters == Cleaned(Displayed(code));
    assert Body(Displayed(code)) == letters;
    ParsedLetters(Displayed(code), code);
  }

  lemma CleanedPrefix()
    ensures Cleaned("TIO-") == "TIO"
  {
    CleanedConcat("TIO", "-");
    CleanedSolid("TIO");
    CleanedDash();
  }

  // The prefix may be left off what was displayed: no shown body looks like one.
  lemma ParseUndoesDisplayWithoutPrefix(code: RoomCode)
    ensures Parsed(Displayed(code)[4..]) == Ok(code)
  {
    var letters := Letters(Symbols(code));
    LettersSolid(Symbols(code));
    CleanedGroups(letters);
    assert Displayed(code)[4..] == Grouped(letters);
    LetterFoldsToItself(Symbols(code)[1]);
    assert letters[1] != 'I' && letters[1] != 'i';
    assert !HasPrefix(letters);
    ParsedLetters(Displayed(code)[4..], code);
  }

  // The shown form is 16 letters in four groups of four.
  lemma DisplayShape(code: RoomCode)
    ensures var letters := Letters(Symbols(code));
            |letters| == 16
            && Displayed(code) == "TIO-" + letters[..4] + "-" + letters[4..8] + "-"
                                  + letters[8..12] + "-" + letters[12..]
  {
    var letters := Letters(Symbols(code));
    var last3, last2, last1 := letters[4..], letters[8..], letters[12..];
    assert last3[4..] == last2 && last2[4..] == last1;
    assert last3[..4] == letters[4..8] && last2[..4] == letters[8..12];
    assert Grouped(last2) == last2[..4] + "-" + last1;
    assert Grouped(last3) == last3[..4] + "-" + Grouped(last2);
  }

  // -------------------------------------------------------------------- Normal form

  lemma FoldedTextValues(a: string, b: string)
    requires FoldedText(a) == FoldedText(b)
    ensures AllSymbols(a) == AllSymbols(b)
    ensures AllSymbols(a) ==> SymbolValues(a) == SymbolValues(b)
  {
    assert |a| == |FoldedText(a)| == |b|;
    forall i | 0 <= i < |a| ensures SymbolValue(a[i]) == SymbolValue(b[i]) {
      assert FoldedText(a)[i] == FoldedText(b)[i];
    }
  }

  lemma ValuesFoldedText(body: string)
    requires AllSymbols(body)
    ensures FoldedText(body) == Letters(SymbolValues(body))
  {
  }

  // What `parse` accepted, `display` shows as its folded symbols: the display of
  // a parse is the text's normal form.
  lemma DisplayOfParse(text: string)
    requires Parsed(text).Ok?
    ensures Displayed(Parsed(text).value) == "TIO-" + Grouped(FoldedText(Body(text)))
  {
    var body := Body(text);
    SymbolsOfCode(SymbolValues(body));
    ValuesFoldedText(body);
  }

  // Two accepted texts are the same code exactly when their folded symbols agree.
  lemma SameCodeIffSameSymbols(a: string, b: string)
    requires Parsed(a).Ok? && Parsed(b).Ok?
    ensures Parsed(a) == Parsed(b) <==> FoldedText(Body(a)) == FoldedText(Body(b))
  {
    if FoldedText(Body(a)) == FoldedText(Body(b)) {
      FoldedTextValues(Body(a), Body(b));
    }
    if Parsed(a) == Parsed(b) {
      SymbolsOfCode(SymbolValues(Body(a)));
      SymbolsOfCode(SymbolValues(Body(b)));
      ValuesFoldedText(Body(a));
      ValuesFoldedText(Body(b));
    }
  }

  // Retyping a text in another case or with lookalikes changes the outcome only
  // through the prefix test: the outcome is kept exactly when both texts pass
  // it, or neither does, or the lengths rule a code out either way.
  lemma RetypingKeepsTheOutcome(a: string, b: string)
    requires FoldedText(Cleaned(a)) == FoldedText(Cleaned(b))
    ensures Parsed(a) == Parsed(b) <==>
            HasPrefix(Cleaned(a)) == HasPrefix(Cleaned(b))
            || |Cleaned(a)| !in {CODE_SYMBOLS, CODE_SYMBOLS + 3}
  {
    var ca, cb := Cleaned(a), Cleaned(b);
    assert |ca| == |FoldedText(ca)| == |cb|;
    if HasPrefix(ca) == HasPrefix(cb) {
      if HasPrefix(ca) {
        FoldedTextTail(ca, cb);
      }
      FoldedTextValues(Body(a), Body(b));
    }
  }

  lemma FoldedTextTail(a: string, b: string)
    requires FoldedText(a) == FoldedText(b) && |a| >= 3
    ensures |a| == |b| && FoldedText(a[3..]) == FoldedText(b[3..])
  {
    assert |a| == |FoldedText(a)| == |b|;
    forall i | 0 <= i < |a| - 3 ensures Folded(a[3..][i]) == Folded(b[3..][i]) {
      assert FoldedText(a)[i + 3] == FoldedText(b)[i + 3];
    }
  }

  // The prefix is not folded: in mixed case it is refused with any code.
  lemma MixedCasePrefixIsRefused(code: RoomCode)
    ensures var letters := Letters(Symbols(code));
            Parsed("TIO" + letters) == Ok(code) && Parsed("Tio" + letters) == Err(WrongLength)
  {
    var letters := Letters(Symbols(code));
    LettersSolid(Symbols(code));
    CleanedSolid("TIO" + letters);
    CleanedSolid("Tio" + letters);
    assert ("TIO" + letters)[3..] == letters;
    ParsedLetters("TIO" + letters, code);
    assert ("Tio" + letters)[1] == 'i';
    assert !HasPrefix("Tio" + letters);
  }
}
