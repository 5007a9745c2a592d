/** Plate rules: validity, fusion of several OCR readings, choice of the best group, normalisation for emission. */
module Rules {
  import opened StableSorting
  import opened Voting

  datatype CharReading = CharReading(text: string, confidence: real)
  type CharSequence = seq<CharReading>

  datatype Result<T> = Ok(value: T) | LengthMismatch

  const EMPTY_PLATE := "EMPTY"
  const UNKNOWN_PLATE := "UNKOWN"
  const UNK_SUFFIX := "_unk"

  // ---------------------------------------------------------------------------------------------
  // Text helpers

  predicate IsDigit(c: char) { '0' <= c <= '9' }

  predicate IsAlpha(c: char) { 'A' <= c <= 'Z' || 'a' <= c <= 'z' }

  function UpperChar(c: char): char {
    if 'a' <= c <= 'z' then ((c as int) - 32) as char else c
  }

  function ToUpper(s: string): (r: string)
    ensures |r| == |s| && forall i :: 0 <= i < |s| ==> r[i] == UpperChar(s[i])
  {
    if s == "" then "" else [UpperChar(s[0])] + ToUpper(s[1..])
  }

  predicate IsSpace(c: char) { c == ' ' || c == '\t' || c == '\r' || c == '\n' }

  function TrimLeft(s: string): string {
    if s != "" && IsSpace(s[0]) then TrimLeft(s[1..]) else s
  }

  function TrimRight(s: string): string {
    if s != "" && IsSpace(s[|s| - 1]) then TrimRight(s[..|s| - 1]) else s
  }

  function Trim(s: string): string { TrimRight(TrimLeft(s)) }

  predicate EndsWith(s: string, suffix: string) {
    |s| >= |suffix| && s[|s| - |suffix|..] == suffix
  }

  // ---------------------------------------------------------------------------------------------
  // Validity

  const DIGIT_CAR_PREFIXES: set<string> := {
    "00", "01", "02", "03", "04", "05", "06", "07", "08", "09", "10", "44", "45", "46", "87", "91", "96"}

  /** The army prefixes, by first letter: the second letters allowed after it. */
  function ArmySecondLetters(first: char): string {
    match first
    case 'A' => "ABCDMNTV"
    case 'B' => "BCHKLPT"
    case 'C' => "ABCDHMNPTV"
    case 'H' => "ABCDEHNQT"
    case 'K' => "ABCDKPTV"
    case 'P' => "AGKMQX"
    case 'Q' => "ABCHM"
    case 'T' => "ACHKMNT"
    case 'V' => "T"
    case _ => ""
  }

  predicate MatchesStyle(plate: string, style: string) {
    && |plate| == |style|
    && forall i :: 0 <= i < |plate| ==>
         && (style[i] == 'N' ==> IsDigit(plate[i]))
         && (style[i] == 'C' ==> IsAlpha(plate[i]))
  }

  predicate CheckAlphaDigit(plate: string) {
    if |plate| < 2 then true
    else
      var prefix := ToUpper(plate[..2]);
      if IsDigit(prefix[0]) && IsDigit(prefix[1]) then prefix !in DIGIT_CAR_PREFIXES
      else if IsAlpha(prefix[0]) && IsAlpha(prefix[1]) then prefix[1] in ArmySecondLetters(prefix[0])
      else true
  }

  predicate IsPlateValid(plate: string, styles: seq<string>) {
    var text := ToUpper(plate);
    && text != ""
    && (exists i :: 0 <= i < |styles| && MatchesStyle(text, styles[i]))
    && CheckAlphaDigit(text)
  }

  function NormalizePlateForEmit(plate: string, styles: seq<string>): string {
    var text := ToUpper(Trim(plate));
    if text == "" || text == EMPTY_PLATE then UNKNOWN_PLATE
    else if !IsPlateValid(text, styles) then text + UNK_SUFFIX
    else text
  }

  predicate ShouldEmitPlate(plate: string, sendMode: int) {
    if sendMode == 2 then true
    else if sendMode == 1 then
      plate != UNKNOWN_PLATE && !EndsWith(plate, UNK_SUFFIX) && plate != ""
    else false
  }

  lemma {:induction false} ToUpperTwice(s: string)
    ensures ToUpper(ToUpper(s)) == ToUpper(s)
  {
    var t := ToUpper(s);
    assert forall i :: 0 <= i < |s| ==> ToUpper(t)[i] == t[i];
  }

  lemma PrefixOutsideArmy(text: string, styles: seq<string>)
    requires |text| >= 2 && (text[0] == 'U' || text[0] == 'E') && 'A' <= text[1] <= 'Z'
    ensures !IsPlateValid(text, styles)
  {
    var prefix := ToUpper(ToUpper(text)[..2]);
    assert prefix[0] == text[0] && prefix[1] == text[1];
  }

  /** A two-letter prefix outside the army list is never valid: this is why "UNKOWN" and "EMPTY" cannot
      pass as plates, whatever the configured styles. */
  lemma ReservedWordsInvalid(styles: seq<string>)
    ensures !IsPlateValid(UNKNOWN_PLATE, styles)
    ensures !IsPlateValid(EMPTY_PLATE, styles)
    ensures !IsPlateValid("", styles)
  {
    PrefixOutsideArmy(UNKNOWN_PLATE, styles);
    PrefixOutsideArmy(EMPTY_PLATE, styles);
  }

  lemma ValidIgnoresCase(s: string, styles: seq<string>)
    ensures IsPlateValid(ToUpper(s), styles) == IsPlateValid(s, styles)
  {
    ToUpperTwice(s);
  }

  /** With send_mode 1 exactly the valid plates are emitted: the two markers that normalisation writes
      ("UNKOWN", "_unk") never collide with a valid text. */
  lemma SendModeOneEmitsExactlyValid(plate: string, styles: seq<string>)
    ensures ShouldEmitPlate(NormalizePlateForEmit(plate, styles), 1) <==> IsPlateValid(Trim(plate), styles)
  {
    var text := ToUpper(Trim(plate));
    ReservedWordsInvalid(styles);
    ValidIgnoresCase(Trim(plate), styles);
    if text == "" || text == EMPTY_PLATE {
    } else if !IsPlateValid(text, styles) {
      var e := text + UNK_SUFFIX;
      assert e[|e| - 4..] == UNK_SUFFIX;
    } else {
      assert text[|text| - 1] != 'k';
      assert |text| >= 4 ==> text[|text| - 4..][3] == text[|text| - 1];
    }
  }

  // ---------------------------------------------------------------------------------------------
  // Fusion: one vote per reading at every position

  ghost predicate SameLength(readings: seq<CharSequence>, n: nat) {
    forall r :: 0 <= r < |readings| ==> |readings[r]| == n
  }

  function Column(readings: seq<CharSequence>, i: nat): (c: seq<(string, real)>)
    requires forall r :: 0 <= r < |readings| ==> i < |readings[r]|
    ensures |c| == |readings|
    ensures forall r :: 0 <= r < |readings| ==> c[r] == (ToUpper(readings[r][i].text), readings[r][i].confidence)
  {
    seq(|readings|, r requires 0 <= r < |readings| => (ToUpper(readings[r][i].text), readings[r][i].confidence))
  }

  /** The winning text of each of the first `n` positions. */
  function FusedTexts(readings: seq<CharSequence>, n: nat): (t: seq<string>)
    requires readings != [] && forall r :: 0 <= r < |readings| ==> n <= |readings[r]|
    ensures |t| == n
  {
    if n == 0 then [] else FusedTexts(readings, n - 1) + [Winner(Column(readings, n - 1))]
  }

  function Joined(parts: seq<string>): string {
    if parts == [] then "" else Joined(parts[..|parts| - 1]) + parts[|parts| - 1]
  }

  predicate Rectangular(readings: seq<CharSequence>) {
    forall r :: 0 <= r < |readings| ==> |readings[r]| == |readings[0]|
  }

  function FuseChars(readings: seq<CharSequence>): Result<string> {
    if readings == [] then Ok("")
    else if !Rectangular(readings) then LengthMismatch
    else Ok(Joined(FusedTexts(readings, |readings[0]|)))
  }

  lemma {:induction false} FusedTextAt(readings: seq<CharSequence>, n: nat, i: nat)
    requires readings != [] && (forall r :: 0 <= r < |readings| ==> n <= |readings[r]|) && i < n
    ensures FusedTexts(readings, n)[i] == Winner(Column(readings, i))
  {
    var front := FusedTexts(readings, n - 1);
    assert FusedTexts(readings, n) == front + [Winner(Column(readings, n - 1))];
    if i == n - 1 {
    } else {
      FusedTextAt(readings, n - 1, i);
      assert FusedTexts(readings, n)[i] == front[i];
    }
  }

  /** Every position carries the declared argmax of its column, and a strict majority there always wins. */
  lemma FusionIsPositionalArgmax(readings: seq<CharSequence>, i: nat, x: string)
    requires readings != [] && Rectangular(readings) && i < |readings[0]|
    ensures FuseChars(readings) == Ok(Joined(FusedTexts(readings, |readings[0]|)))
    ensures FusedTexts(readings, |readings[0]|)[i] == x <==> IsWinner(Column(readings, i), x)
    ensures 2 * Votes(Column(readings, i), x) > |readings| ==> FusedTexts(readings, |readings[0]|)[i] == x
  {
    FusedTextAt(readings, |readings[0]|, i);
    WinnerIsArgmax(Column(readings, i), x);
    if 2 * Votes(Column(readings, i), x) > |readings| {
      MajorityWins(Column(readings, i), x);
    }
  }

  method CollectColumn(readings: seq<CharSequence>, i: nat) returns (column: seq<(string, real)>)
    requires forall r :: 0 <= r < |readings| ==> i < |readings[r]|
    ensures column == Column(readings, i)
  {
    column := [];
    for j := 0 to |readings|
      invariant |column| == j
      invariant forall r :: 0 <= r < j ==> column[r] == Column(readings, i)[r]
    {
      column := column + [(ToUpper(readings[j][i].text), readings[j][i].confidence)];
    }
  }

  lemma JoinedGrows(readings: seq<CharSequence>, i: nat)
    requires readings != [] && (forall r :: 0 <= r < |readings| ==> i < |readings[r]|)
    ensures Joined(FusedTexts(readings, i + 1)) == Joined(FusedTexts(readings, i)) + Winner(Column(readings, i))
  {
    var shorter, best := FusedTexts(readings, i), Winner(Column(readings, i));
    assert FusedTexts(readings, i + 1) == shorter + [best];
    assert (shorter + [best])[..i] == shorter;
  }

  method Fuse(readings: seq<CharSequence>) returns (r: Result<string>)
    ensures r == FuseChars(readings)
  {
    if readings == [] {
      return Ok("");
    }
    var length := |readings[0]|;
    for i := 0 to |readings|
      invariant forall k :: 0 <= k < i ==> |readings[k]| == length
    {
      if |readings[i]| != length {
        return LengthMismatch;
      }
    }
    var fused := "";
    for i := 0 to length
      invariant fused == Joined(FusedTexts(readings, i))
    {
      var column := CollectColumn(readings, i);
      var best := Vote(column);
      fused := fused + best;
      JoinedGrows(readings, i);
    }
    return Ok(fused);
  }

  // ---------------------------------------------------------------------------------------------
  // Grouping by length and ranking

  /** A group holds the readings of one length, in order. */
  type Group = (nat, seq<CharSequence>)

  function FindGroup(groups: seq<Group>, n: nat): (i: nat)
    ensures i <= |groups|
    ensures i < |groups| ==> groups[i].0 == n
    ensures forall j :: 0 <= j < i ==> groups[j].0 != n
  {
    if groups == [] || groups[0].0 == n then 0 else 1 + FindGroup(groups[1..], n)
  }

  function AddToGroups(groups: seq<Group>, chars: CharSequence): seq<Group> {
    var i := FindGroup(groups, |chars|);
    if i == |groups| then groups + [(|chars|, [chars])]
    else groups[i := (groups[i].0, groups[i].1 + [chars])]
  }

  function GroupsOf(list: seq<CharSequence>): seq<Group> {
    if list == [] then []
    else
      var n := |list| - 1;
      if list[n] == [] then GroupsOf(list[..n]) else AddToGroups(GroupsOf(list[..n]), list[n])
  }

  /** The readings of length n, in order. */
  function OfLength(list: seq<CharSequence>, n: nat): (r: seq<CharSequence>)
    ensures SameLength(r, n)
  {
    if list == [] then []
    else
      var k := |list| - 1;
      OfLength(list[..k], n) + if |list[k]| == n then [list[k]] else []
  }

  /** The groups are the length partition of the non-empty readings: one group for each length that occurs. */
  ghost predicate LengthPartition(groups: seq<Group>, list: seq<CharSequence>) {
    && (forall i :: 0 <= i < |groups| ==>
          groups[i].0 > 0 && groups[i].1 != [] && groups[i].1 == OfLength(list, groups[i].0))
    && (forall i, j :: 0 <= i < j < |groups| ==> groups[i].0 != groups[j].0)
    && (forall n: nat :: n > 0 && OfLength(list, n) != [] ==> exists i :: 0 <= i < |groups| && groups[i].0 == n)
  }

  lemma OfLengthAppend(prev: seq<CharSequence>, chars: CharSequence, n: nat)
    ensures OfLength(prev + [chars], n) == OfLength(prev, n) + if |chars| == n then [chars] else []
  {
    assert (prev + [chars])[..|prev|] == prev;
  }

  lemma AddKeepsGroups(g: seq<Group>, prev: seq<CharSequence>, chars: CharSequence, i: int)
    requires LengthPartition(g, prev) && chars != [] && 0 <= i < |AddToGroups(g, chars)|
    ensures var e := AddToGroups(g, chars)[i]; e.0 > 0 && e.1 != [] && e.1 == OfLength(prev + [chars], e.0)
  {
    var p := FindGroup(g, |chars|);
    var e := AddToGroups(g, chars)[i];
    OfLengthAppend(prev, chars, e.0);
    if i == |g| {
      assert OfLength(prev, |chars|) == [];
    } else if i != p {
      assert e == g[i];
      assert e.0 != |chars| by {
        if p < |g| {
          assert g[p].0 == |chars|;
        }
      }
    }
  }

  lemma AddCoversLength(g: seq<Group>, prev: seq<CharSequence>, chars: CharSequence, n: nat) returns (i: int)
    requires LengthPartition(g, prev) && chars != [] && n > 0 && OfLength(prev + [chars], n) != []
    ensures 0 <= i < |AddToGroups(g, chars)| && AddToGroups(g, chars)[i].0 == n
  {
    if n == |chars| {
      i := FindGroup(g, |chars|);
    } else {
      OfLengthAppend(prev, chars, n);
      i := GroupOfLength(g, prev, n);
      AddKeepsLengths(g, chars, i);
    }
  }

  lemma GroupOfLength(g: seq<Group>, prev: seq<CharSequence>, n: nat) returns (i: int)
    requires LengthPartition(g, prev) && n > 0 && OfLength(prev, n) != []
    ensures 0 <= i < |g| && g[i].0 == n
  {
    i :| 0 <= i < |g| && g[i].0 == n;
  }

  lemma AddKeepsLengths(g: seq<Group>, chars: CharSequence, i: int)
    requires 0 <= i < |g|
    ensures i < |AddToGroups(g, chars)| && AddToGroups(g, chars)[i].0 == g[i].0
  {
  }

  lemma AddKeepsDistinct(g: seq<Group>, chars: CharSequence)
    requires forall i, j :: 0 <= i < j < |g| ==> g[i].0 != g[j].0
    ensures var g' := AddToGroups(g, chars); forall i, j :: 0 <= i < j < |g'| ==> g'[i].0 != g'[j].0
  {
  }

  lemma AddKeepsPartition(g: seq<Group>, prev: seq<CharSequence>, chars: CharSequence)
    requires LengthPartition(g, prev) && chars != []
    ensures LengthPartition(AddToGroups(g, chars), prev + [chars])
  {
    var g' := AddToGroups(g, chars);
    forall i | 0 <= i < |g'| ensures g'[i].0 > 0 && g'[i].1 != [] && g'[i].1 == OfLength(prev + [chars], g'[i].0) {
      AddKeepsGroups(g, prev, chars, i);
    }
    AddKeepsDistinct(g, chars);
    forall n: nat | n > 0 && OfLength(prev + [chars], n) != [] ensures exists i :: 0 <= i < |g'| && g'[i].0 == n {
      var i := AddCoversLength(g, prev, chars, n);
    }
  }

  lemma {:induction false} GroupsPartition(list: seq<CharSequence>)
    ensures LengthPartition(GroupsOf(list), list)
  {
    if list == [] {
    } else {
      var k := |list| - 1;
      assert list == list[..k] + [list[k]];
      GroupsPartition(list[..k]);
      if list[k] != [] {
        AddKeepsPartition(GroupsOf(list[..k]), list[..k], list[k]);
      } else {
        forall n: nat | n > 0 ensures OfLength(list, n) == OfLength(list[..k], n) {
          OfLengthAppend(list[..k], list[k], n);
        }
      }
    }
  }

  datatype ScoredGroup = ScoredGroup(valid: bool, count: nat, meanConf: real, fused: string)

  predicate RanksBefore(a: ScoredGroup, b: ScoredGroup) {
    if a.valid != b.valid then a.valid
    else if a.count != b.count then a.count > b.count
    else a.meanConf > b.meanConf
  }

  lemma RankingIsStrictWeak()
    ensures StrictWeakOrder(RanksBefore)
  {
  }

  function SumConf(chars: CharSequence): real {
    if chars == [] then 0.0 else SumConf(chars[..|chars| - 1]) + chars[|chars| - 1].confidence
  }

  function SumConfs(group: seq<CharSequence>): real {
    if group == [] then 0.0 else SumConfs(group[..|group| - 1]) + SumConf(group[|group| - 1])
  }

  function CountChars(group: seq<CharSequence>): nat {
    if group == [] then 0 else CountChars(group[..|group| - 1]) + |group[|group| - 1]|
  }

  function MeanConf(group: seq<CharSequence>): real {
    if CountChars(group) > 0 then SumConfs(group) / CountChars(group) as real else 0.0
  }

  function FusedText(group: seq<CharSequence>): string {
    match FuseChars(group)
    case Ok(text) => text
    case LengthMismatch => ""
  }

  function ScoreGroup(group: seq<CharSequence>, styles: seq<string>): ScoredGroup {
    ScoredGroup(IsPlateValid(FusedText(group), styles), |group|, MeanConf(group), FusedText(group))
  }

  function ScoreGroups(groups: seq<Group>, styles: seq<string>): (r: seq<ScoredGroup>)
    ensures |r| == |groups| && forall i :: 0 <= i < |groups| ==> r[i] == ScoreGroup(groups[i].1, styles)
  {
    seq(|groups|, i requires 0 <= i < |groups| => ScoreGroup(groups[i].1, styles))
  }

  function SelectBestPlate(list: seq<CharSequence>, styles: seq<string>): string {
    var scored := ScoreGroups(GroupsOf(list), styles);
    SortPermutes(scored, RanksBefore);
    if scored == [] then "" else Sort(scored, RanksBefore)[0].fused
  }

  /** The chosen plate is the fused text of the first lexicographic maximum of (valid, count, mean confidence)
      over the length partition; so it is valid as soon as any group fuses to a valid plate. */
  lemma SelectionIsFirstMaximum(list: seq<CharSequence>, styles: seq<string>) returns (best: int)
    requires exists i :: 0 <= i < |list| && list[i] != []
    ensures LengthPartition(GroupsOf(list), list)
    ensures FirstBest(ScoreGroups(GroupsOf(list), styles), RanksBefore, best)
    ensures SelectBestPlate(list, styles) == FusedText(GroupsOf(list)[best].1)
    ensures (exists i :: 0 <= i < |GroupsOf(list)| && IsPlateValid(FusedText(GroupsOf(list)[i].1), styles)) ==>
              IsPlateValid(SelectBestPlate(list, styles), styles)
  {
    GroupsPartition(list);
    RankingIsStrictWeak();
    var k :| 0 <= k < |list| && list[k] != [];
    OfLengthContains(list, k);
    var scored := ScoreGroups(GroupsOf(list), styles);
    assert scored != [];
    best := SortFront(scored, RanksBefore);
    if i :| 0 <= i < |GroupsOf(list)| && IsPlateValid(FusedText(GroupsOf(list)[i].1), styles) {
      assert !RanksBefore(scored[i], scored[best]);
    }
  }

  lemma {:induction false} OfLengthContains(list: seq<CharSequence>, k: nat)
    requires k < |list|
    ensures list[k] in OfLength(list, |list[k]|)
  {
    if k < |list| - 1 {
      OfLengthContains(list[..|list| - 1], k);
      assert list[..|list| - 1][k] == list[k];
    }
  }

  method CollectGroups(list: seq<CharSequence>) returns (groups: seq<Group>)
    ensures groups == GroupsOf(list)
  {
    groups := [];
    for i := 0 to |list|
      invariant groups == GroupsOf(list[..i])
    {
      var chars := list[i];
      assert list[..i + 1][..i] == list[..i];
      if chars != [] {
        var p := 0;
        while p < |groups| && groups[p].0 != |chars|
          invariant p <= |groups|
          invariant forall j :: 0 <= j < p ==> groups[j].0 != |chars|
        {
          p := p + 1;
        }
        assert p == FindGroup(groups, |chars|);
        if p == |groups| {
          groups := groups + [(|chars|, [chars])];
        } else {
          groups := groups[p := (groups[p].0, groups[p].1 + [chars])];
        }
      }
    }
    assert list[..|list|] == list;
  }

  method SumGroup(group: seq<CharSequence>) returns (totalConf: real, totalChar: nat)
    ensures totalConf == SumConfs(group) && totalChar == CountChars(group)
  {
    totalConf, totalChar := 0.0, 0;
    for i := 0 to |group|
      invariant totalConf == SumConfs(group[..i]) && totalChar == CountChars(group[..i])
    {
      assert group[..i + 1][..i] == group[..i];
      var before := totalConf;
      for j := 0 to |group[i]|
        invariant totalConf == before + SumConf(group[i][..j])
      {
        assert group[i][..j + 1][..j] == group[i][..j];
        totalConf := totalConf + group[i][j].confidence;
      }
      assert group[i][..|group[i]|] == group[i];
      totalChar := totalChar + |group[i]|;
    }
    assert group[..|group|] == group;
  }

  method ScoreOne(group: seq<CharSequence>, styles: seq<string>) returns (scored: ScoredGroup)
    ensures scored == ScoreGroup(group, styles)
  {
    var fused := Fuse(group);
    var totalConf, totalChar := SumGroup(group);
    var text := match fused case Ok(t) => t case LengthMismatch => "";
    var mean := if totalChar > 0 then totalConf / totalChar as real else 0.0;
    scored := ScoredGroup(IsPlateValid(text, styles), |group|, mean, text);
  }

  method SelectBest(list: seq<CharSequence>, styles: seq<string>) returns (plate: string)
    ensures plate == SelectBestPlate(list, styles)
  {
    var groups := CollectGroups(list);
    if groups == [] {
      return "";
    }
    var scored := ScoreAll(groups, styles);
    SortPermutes(scored, RanksBefore);
    return Sort(scored, RanksBefore)[0].fused;
  }

  method ScoreAll(groups: seq<Group>, styles: seq<string>) returns (scored: seq<ScoredGroup>)
    ensures scored == ScoreGroups(groups, styles)
  {
    scored := [];
    for g := 0 to |groups|
      invariant |scored| == g
      invariant forall i :: 0 <= i < g ==> scored[i] == ScoreGroup(groups[i].1, styles)
    {
      var one := ScoreOne(groups[g].1, styles);
      scored := scored + [one];
    }
  }
}
