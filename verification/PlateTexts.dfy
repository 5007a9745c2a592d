/** What the plate rules say about texts: the shape of a valid plate, its first two characters, the text that fusion spells,
    and what the emitted form tells about the plate. */
module PlateTexts {
  import opened Voting
  import opened Rules

  // ---------------------------------------------------------------------------------------------
  // The shape of a plate

  /** N for a digit, C for a letter. */
  function ShapeChar(c: char): char { if IsDigit(c) then 'N' else if IsAlpha(c) then 'C' else '?' }

  function Shape(plate: string): (s: string)
    ensures |s| == |plate| && forall i :: 0 <= i < |plate| ==> s[i] == ShapeChar(plate[i])
  {
    if plate == "" then "" else [ShapeChar(plate[0])] + Shape(plate[1..])
  }

  ghost predicate PlainStyle(style: string) { forall i :: 0 <= i < |style| ==> style[i] == 'N' || style[i] == 'C' }

  /** A plate matches a style of Ns and Cs exactly when that is its shape. */
  lemma MatchIffShape(plate: string, style: string)
    requires PlainStyle(style)
    ensures MatchesStyle(plate, style) <==> Shape(plate) == style
  {
    if MatchesStyle(plate, style) {
      assert forall i :: 0 <= i < |plate| ==> Shape(plate)[i] == style[i];
    }
  }

  function Digit(c: char): nat
    requires IsDigit(c)
  {
    c as int - '0' as int
  }

  /** Two leading digits are refused exactly for the numbers up to 10 and for 44, 45, 46, 87, 91 and 96. */
  lemma DigitPrefixIff(plate: string)
    requires |plate| >= 2 && IsDigit(plate[0]) && IsDigit(plate[1])
    ensures var n := 10 * Digit(plate[0]) + Digit(plate[1]);
            CheckAlphaDigit(plate) <==> n > 10 && n !in {44, 45, 46, 87, 91, 96}
  {
    var prefix := ToUpper(plate[..2]);
    assert prefix == [plate[0], plate[1]];
    LowPrefix(prefix);
    HighPrefix(prefix);
  }

  /** Two leading letters must be a military prefix, in either case; a mixed pair or a shorter text is not refused. */
  lemma LetterPrefixIff(plate: string)
    ensures |plate| >= 2 && IsAlpha(plate[0]) && IsAlpha(plate[1]) ==>
              (CheckAlphaDigit(plate) <==> UpperChar(plate[1]) in ArmySecondLetters(UpperChar(plate[0])))
    ensures |plate| < 2 || !((IsAlpha(plate[0]) && IsAlpha(plate[1])) || (IsDigit(plate[0]) && IsDigit(plate[1]))) ==>
              CheckAlphaDigit(plate)
  {
    if |plate| >= 2 {
      var prefix := ToUpper(plate[..2]);
      assert prefix[0] == UpperChar(plate[0]) && prefix[1] == UpperChar(plate[1]);
    }
  }

  const LOW_PREFIXES: set<string> := {"00", "01", "02", "03", "04", "05", "06", "07", "08", "09", "10"}

  const HIGH_PREFIXES: set<string> := {"44", "45", "46", "87", "91", "96"}

  lemma PairIs(p: string, x: char, y: char)
    requires |p| == 2
    ensures p == [x, y] <==> p[0] == x && p[1] == y
  {
  }

  lemma HighPrefix(p: string)
    requires |p| == 2 && IsDigit(p[0]) && IsDigit(p[1])
    ensures p in HIGH_PREFIXES <==> 10 * Digit(p[0]) + Digit(p[1]) in {44, 45, 46, 87, 91, 96}
  {
    PairIs(p, '4', '4');
    PairIs(p, '4', '5');
    PairIs(p, '4', '6');
    PairIs(p, '8', '7');
    PairIs(p, '9', '1');
    PairIs(p, '9', '6');
  }

  lemma LowPrefix(p: string)
    requires |p| == 2 && IsDigit(p[0]) && IsDigit(p[1])
    ensures p in LOW_PREFIXES <==> 10 * Digit(p[0]) + Digit(p[1]) <= 10
  {
    PairIs(p, '1', '0');
    if p[0] == '0' {
      LeadingZero(p);
    }
  }

  lemma LeadingZero(p: string)
    requires |p| == 2 && p[0] == '0' && IsDigit(p[1])
    ensures p in LOW_PREFIXES
  {
    PairIs(p, '0', '0');
    PairIs(p, '0', '1');
    PairIs(p, '0', '2');
    PairIs(p, '0', '3');
    PairIs(p, '0', '4');
    PairIs(p, '0', '5');
    PairIs(p, '0', '6');
    PairIs(p, '0', '7');
    PairIs(p, '0', '8');
    PairIs(p, '0', '9');
  }

  // ---------------------------------------------------------------------------------------------
  // The text that fusion spells

  lemma {:induction false} JoinedMore(a: seq<string>, b: seq<string>)
    ensures Joined(a + b) == Joined(a) + Joined(b)
  {
    if b == [] {
      assert a + b == a;
    } else {
      var n := |b| - 1;
      JoinedMore(a, b[..n]);
      assert (a + b)[..|a + b| - 1] == a + b[..n];
    }
  }

  lemma JoinedOne(x: string)
    ensures Joined([x]) == x
  {
    assert [x][..0] == [];
  }

  lemma {:induction false} JoinedLetters(parts: seq<string>)
    requires forall i :: 0 <= i < |parts| ==> |parts[i]| == 1
    ensures |Joined(parts)| == |parts| && forall i :: 0 <= i < |parts| ==> Joined(parts)[i] == parts[i][0]
  {
    if parts == [] {
    } else {
      JoinedLetters(parts[..|parts| - 1]);
    }
  }

  ghost predicate Letters(readings: seq<CharSequence>) {
    forall r, i :: 0 <= r < |readings| && 0 <= i < |readings[r]| ==> |readings[r][i].text| == 1
  }

  lemma WinnerIsCast(ballots: seq<(string, real)>) returns (i: nat)
    requires ballots != []
    ensures i < |ballots| && ballots[i].0 == Winner(ballots)
  {
    WinnerIsArgmax(ballots, Winner(ballots));
    i :| 0 <= i < |ballots| && ballots[i].0 == Winner(ballots);
  }

  lemma OneLetterEach(readings: seq<CharSequence>, i: nat)
    requires readings != [] && Rectangular(readings) && Letters(readings) && i < |readings[0]|
    ensures |FusedTexts(readings, |readings[0]|)[i]| == 1
  {
    FusedTextAt(readings, |readings[0]|, i);
    var r := WinnerIsCast(Column(readings, i));
    assert Column(readings, i)[r].0 == ToUpper(readings[r][i].text);
  }

  /** Readings of the same length with one letter per character fuse to a text of that length, and each of its letters is
      the winner of its position. */
  lemma FusionSpellsWinners(readings: seq<CharSequence>)
    requires readings != [] && Rectangular(readings) && Letters(readings)
    ensures FuseChars(readings).Ok? && |FuseChars(readings).value| == |readings[0]|
    ensures forall i :: 0 <= i < |readings[0]| ==> IsWinner(Column(readings, i), [FuseChars(readings).value[i]])
  {
    var n := |readings[0]|;
    var parts := FusedTexts(readings, n);
    forall i | 0 <= i < n ensures |parts[i]| == 1 {
      OneLetterEach(readings, i);
    }
    JoinedLetters(parts);
    forall i | 0 <= i < n ensures IsWinner(Column(readings, i), [Joined(parts)[i]]) {
      assert [Joined(parts)[i]] == parts[i];
      FusionIsPositionalArgmax(readings, i, parts[i]);
    }
  }

  // ---------------------------------------------------------------------------------------------
  // The emitted form

  ghost predicate Blank(s: string) { forall i :: 0 <= i < |s| ==> IsSpace(s[i]) }

  lemma {:induction false} LeftTrimmed(s: string) returns (a: string)
    ensures s == a + TrimLeft(s) && Blank(a)
    ensures TrimLeft(s) != "" ==> !IsSpace(TrimLeft(s)[0])
  {
    if s != "" && IsSpace(s[0]) {
      var b := LeftTrimmed(s[1..]);
      a := [s[0]] + b;
      assert s == [s[0]] + s[1..];
    } else {
      a := "";
    }
  }

  lemma {:induction false} RightTrimmed(s: string) returns (b: string)
    ensures s == TrimRight(s) + b && Blank(b)
    ensures TrimRight(s) != "" ==> !IsSpace(TrimRight(s)[|TrimRight(s)| - 1]) && TrimRight(s)[0] == s[0]
  {
    if s != "" && IsSpace(s[|s| - 1]) {
      var a := RightTrimmed(s[..|s| - 1]);
      b := a + [s[|s| - 1]];
      assert s == s[..|s| - 1] + [s[|s| - 1]];
    } else {
      b := "";
    }
  }

  /** Trimming takes spaces off both ends, all of them. */
  lemma TrimExact(s: string) returns (a: string, b: string)
    ensures s == a + Trim(s) + b && Blank(a) && Blank(b)
    ensures Trim(s) != "" ==> !IsSpace(Trim(s)[0]) && !IsSpace(Trim(s)[|Trim(s)| - 1])
  {
    a := LeftTrimmed(s);
    b := RightTrimmed(TrimLeft(s));
    assert a + (Trim(s) + b) == a + Trim(s) + b;
  }

  /** What is sent: everything in mode 2, exactly the valid plates in mode 1, nothing in any other mode. */
  lemma SendModes(plate: string, styles: seq<string>, mode: int)
    ensures ShouldEmitPlate(NormalizePlateForEmit(plate, styles), mode) <==>
              mode == 2 || (mode == 1 && IsPlateValid(Trim(plate), styles))
  {
    SendModeOneEmitsExactlyValid(plate, styles);
  }

  ghost predicate NoPlate(plate: string) { ToUpper(Trim(plate)) == "" || ToUpper(Trim(plate)) == EMPTY_PLATE }

  /** The emitted form tells the plate apart: two plates with the same form have the same trimmed text up to letter case, or
      neither is a plate at all. So the cache key of a plate, which is made of its emitted form, is never that of another. */
  lemma EmittedFormIsInjective(p: string, q: string, styles: seq<string>)
    requires NormalizePlateForEmit(p, styles) == NormalizePlateForEmit(q, styles)
    ensures ToUpper(Trim(p)) == ToUpper(Trim(q)) || (NoPlate(p) && NoPlate(q))
  {
    ReservedWordsInvalid(styles);
    if !NoPlate(p) {
      EmittedEnding(p, styles);
    }
    if !NoPlate(q) {
      EmittedEnding(q, styles);
    }
    var a, b := ToUpper(Trim(p)), ToUpper(Trim(q));
    if !NoPlate(p) && !NoPlate(q) && !IsPlateValid(a, styles) && !IsPlateValid(b, styles) {
      SameFront(a, b, UNK_SUFFIX);
    }
  }

  lemma SameFront(a: string, b: string, c: string)
    requires a + c == b + c
    ensures a == b
  {
    assert |a| == |b|;
    assert a == (a + c)[..|a|] && b == (b + c)[..|b|];
  }

  /** The suffix ends in a small letter, the plate never does. */
  lemma EmittedEnding(p: string, styles: seq<string>)
    requires !NoPlate(p)
    ensures var e := NormalizePlateForEmit(p, styles);
            e != "" && (e[|e| - 1] == 'k' <==> !IsPlateValid(ToUpper(Trim(p)), styles))
  {
    var text := ToUpper(Trim(p));
    assert text[|text| - 1] != 'k';
    assert (text + UNK_SUFFIX)[|text| + 3] == 'k';
  }
}
