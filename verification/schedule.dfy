/**
 * The single-day schedule conversion of `set_cool_pgm` and `set_heat_pgm`:
 * the schedule text is split on commas and every token that is all digits
 * becomes an integer, every other token stays text.
 */
module Schedule {
  import opened Json
  import opened PyText

  /** `int(e) if e.isdigit() else e`. */
  function ParseToken(e: string): (v: Value)
    ensures v.JInt? || v.JStr?
    ensures v.JInt? <==> IsDigits(e)
    ensures v.JInt? ==> v.i == DigitsValue(e)
    ensures v.JInt? ==> v.i >= 0 && (NatToDecimal(v.i) == e <==> Canonical(e))
    ensures v.JStr? ==> v.s == e
  {
    if IsDigits(e) then
      var n := DigitsValue(e);
      assert Canonical(e) ==> NatToDecimal(n) == e by {
        if Canonical(e) { CanonicalRoundTrip(e); }
      }
      JInt(n)
    else JStr(e)
  }

  /** The list built from the schedule text: one element per comma-separated token. */
  function ParseSchedule(text: string): (r: seq<Value>)
    ensures |r| == |Split(text, ',')| == Count(text, ',') + 1
    ensures forall i :: 0 <= i < |r| ==>
      var e := Split(text, ',')[i];
      (IsDigits(e) ==> r[i] == JInt(DigitsValue(e))) && (!IsDigits(e) ==> r[i] == JStr(e))
  {
    var tokens := Split(text, ',');
    SplitCount(text, ',');
    seq(|tokens|, i requires 0 <= i < |tokens| => ParseToken(tokens[i]))
  }

  /** The schedule written back as comma-separated text, each element by `str()`. */
  function UnparseSchedule(vs: seq<Value>): (r: string)
  {
    Join(seq(|vs|, i requires 0 <= i < |vs| => Str(vs[i])), ",")
  }

  /** A token survives conversion and `str()` unchanged unless it is digits with a leading zero. */
  lemma TokenRoundTrip(e: string)
    ensures Str(ParseToken(e)) == e <==> !IsDigits(e) || Canonical(e)
  {
  }

  /** The comma-separated text written back from a converted token has no comma in it. */
  lemma TokenTextHasNoComma(e: string)
    requires ',' !in e
    ensures ',' !in Str(ParseToken(e))
  {
  }

  /** Every token of the text is digits without a leading zero, or not digits at all. */
  predicate NoPaddedNumbers(text: string)
  {
    forall i :: 0 <= i < |Split(text, ',')| ==>
      !IsDigits(Split(text, ',')[i]) || Canonical(Split(text, ',')[i])
  }

  /** The converted elements written back one by one: token by token, `str(int(e))` or `e`. */
  lemma WrittenBack(text: string)
    ensures var parsed := ParseSchedule(text);
      var texts := seq(|parsed|, i requires 0 <= i < |parsed| => Str(parsed[i]));
      && UnparseSchedule(parsed) == Join(texts, [','])
      && |texts| == |Split(text, ',')|
      && (forall i :: 0 <= i < |texts| ==> texts[i] == Str(ParseToken(Split(text, ',')[i])))
      && (forall i :: 0 <= i < |texts| ==> ',' !in texts[i])
  {
  }

  lemma {:induction false} RoundTripWhenUnpadded(text: string)
    requires NoPaddedNumbers(text)
    ensures UnparseSchedule(ParseSchedule(text)) == text
  {
    var tokens := Split(text, ',');
    var parsed := ParseSchedule(text);
    var texts := seq(|parsed|, i requires 0 <= i < |parsed| => Str(parsed[i]));
    WrittenBack(text);
    forall i | 0 <= i < |tokens| ensures texts[i] == tokens[i] {
      TokenRoundTrip(tokens[i]);
    }
    assert texts == tokens;
    JoinSplit(text, ',');
  }

  lemma {:induction false} UnpaddedWhenRoundTrip(text: string)
    requires UnparseSchedule(ParseSchedule(text)) == text
    ensures NoPaddedNumbers(text)
  {
    var tokens := Split(text, ',');
    var parsed := ParseSchedule(text);
    var texts := seq(|parsed|, i requires 0 <= i < |parsed| => Str(parsed[i]));
    WrittenBack(text);
    SplitJoin(texts, ',');
    assert texts == tokens;
    forall i | 0 <= i < |tokens| ensures !IsDigits(tokens[i]) || Canonical(tokens[i]) {
      TokenRoundTrip(tokens[i]);
    }
  }

  /**
   * Converting the schedule text and writing it back gives the same text
   * exactly when no all-digit token carries a leading zero.
   */
  lemma ScheduleRoundTrip(text: string)
    ensures UnparseSchedule(ParseSchedule(text)) == text <==> NoPaddedNumbers(text)
  {
    if NoPaddedNumbers(text) {
      RoundTripWhenUnpadded(text);
    }
    if UnparseSchedule(ParseSchedule(text)) == text {
      UnpaddedWhenRoundTrip(text);
    }
  }

  lemma CompactTokens(text: string)
    requires text == "360,80,480,80"
    ensures Split(text, ',') == ["360", "80", "480", "80"]
  {
    var parts := ["360", "80", "480", "80"];
    assert Join(parts, ",") == text;
    SplitJoin(parts, ',');
  }

  /** A schedule written without spaces: every token is digits, so every element is a number. */
  lemma CompactDigitsBecomeNumbers(text: string)
    requires text == "360,80,480,80"
    ensures ParseSchedule(text) == [JInt(360), JInt(80), JInt(480), JInt(80)]
  {
    CompactTokens(text);
    DigitsOfTwo("80");
    DigitsOfThree("360");
    DigitsOfThree("480");
  }

  lemma PaddedTokens(text: string)
    requires text == "360, 80"
    ensures Split(text, ',') == ["360", " 80"]
  {
    assert text == "360" + [','] + " 80";
    SplitPiece(" 80", ',');
    SplitAfterPiece("360", ',', " 80");
  }

  /** A token with a space in it, such as " 80", is not all digits and stays text. */
  lemma PaddedTokensStayText(text: string)
    requires text == "360, 80"
    ensures ParseSchedule(text) == [JInt(360), JStr(" 80")]
  {
    PaddedTokens(text);
    var tokens := Split(text, ',');
    assert !IsDigits(tokens[1]) by { assert !IsDigit(tokens[1][0]); }
    DigitsOfThree("360");
  }

  lemma DigitsOfTwo(s: string)
    requires |s| == 2 && AllDigits(s)
    ensures DigitsValue(s) == 10 * DigitValue(s[0]) + DigitValue(s[1])
  {
    var a := s[..1];
    assert a[..0] == [];
    assert DigitsValue(a) == DigitValue(s[0]);
  }

  lemma DigitsOfThree(s: string)
    requires |s| == 3 && AllDigits(s)
    ensures DigitsValue(s) == 100 * DigitValue(s[0]) + 10 * DigitValue(s[1]) + DigitValue(s[2])
  {
    var b := s[..2];
    DigitsOfTwo(b);
    assert DigitsValue(s) == 10 * DigitsValue(b) + DigitValue(s[2]);
  }

  /** Every comma in `s` is directly followed by a space. */
  predicate SpaceAfterCommas(s: string)
  {
    forall i :: 0 <= i < |s| && s[i] == ',' ==> i + 1 < |s| && s[i + 1] == ' '
  }

  /**
   * When every comma is followed by a space, every token after the first
   * starts with that space, and the first token starts with the text's
   * first character.
   */
  lemma {:induction false} TokensAfterCommaSpace(s: string)
    requires SpaceAfterCommas(s)
    ensures s != [] && s[0] != ',' ==> |Split(s, ',')[0]| > 0 && Split(s, ',')[0][0] == s[0]
    ensures forall k :: 1 <= k < |Split(s, ',')| ==>
      |Split(s, ',')[k]| > 0 && Split(s, ',')[k][0] == ' '
  {
    if s != [] {
      var tail := s[1..];
      assert SpaceAfterCommas(tail) by {
        forall i | 0 <= i < |tail| && tail[i] == ','
          ensures i + 1 < |tail| && tail[i + 1] == ' '
        {
          assert s[i + 1] == ',';
        }
      }
      TokensAfterCommaSpace(tail);
      if s[0] == ',' {
        assert tail != [] && tail[0] == ' ';
      }
    }
  }

  /**
   * A schedule written with ", " between entries: no token after the first
   * is all digits, so every element after the first stays text.
   */
  lemma CommaSpaceTokensStayText(text: string)
    requires SpaceAfterCommas(text)
    ensures forall k :: 1 <= k < |ParseSchedule(text)| ==> ParseSchedule(text)[k].JStr?
    ensures text != [] && !IsDigit(text[0]) ==> ParseSchedule(text)[0].JStr?
  {
    TokensAfterCommaSpace(text);
  }

  /**
   * The schedule text of the `set_cool_pgm` and `set_heat_pgm` usage notes,
   * with its leading `{"` and trailing `"`: no element becomes a number.
   */
  lemma UsageNoteScheduleStaysText(text: string)
    requires text == "{\"360, 80, 480, 80, 1080, 80, 1320 , 80\""
    ensures forall k :: 0 <= k < |ParseSchedule(text)| ==> ParseSchedule(text)[k].JStr?
  {
    UsageNoteSpacing(text);
    CommaSpaceTokensStayText(text);
  }

  lemma UsageNoteSpacing(text: string)
    requires text == "{\"360, 80, 480, 80, 1080, 80, 1320 , 80\""
    ensures SpaceAfterCommas(text) && !IsDigit(text[0])
  {
  }
}
