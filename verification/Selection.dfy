/** Which reading length wins, in terms of the readings themselves, and what the plate rules say about texts. */
module Selection {
  import opened Rules

  // ---------------------------------------------------------------------------------------------
  // Lengths, sizes and confidences of the readings

  /** The position of the first reading of length n. */
  function FirstOf(list: seq<CharSequence>, n: nat): (i: nat)
    ensures i <= |list| && (i < |list| ==> |list[i]| == n) && forall j :: 0 <= j < i ==> |list[j]| != n
  {
    if list == [] || |list[0]| == n then 0 else 1 + FirstOf(list[1..], n)
  }

  ghost predicate Occurs(list: seq<CharSequence>, n: nat) {
    n > 0 && exists i :: 0 <= i < |list| && |list[i]| == n
  }

  /** All characters of a group, reading after reading. */
  function Flat(group: seq<CharSequence>): CharSequence {
    if group == [] then [] else group[0] + Flat(group[1..])
  }

  function Total(chars: CharSequence): real {
    if chars == [] then 0.0 else chars[0].confidence + Total(chars[1..])
  }

  function Scaled(total: real, n: nat): real { total * n as real }

  /** Length n is preferred to length m: its fused text is valid and the other is not; else more readings have it; else its
      readings have more confidence per character; else it appeared first. */
  ghost predicate Preferred(list: seq<CharSequence>, styles: seq<string>, n: nat, m: nat) {
    var a, b := OfLength(list, n), OfLength(list, m);
    var validA, validB := IsPlateValid(FusedText(a), styles), IsPlateValid(FusedText(b), styles);
    var totalA, totalB := Scaled(Total(Flat(a)), m), Scaled(Total(Flat(b)), n);
    || (validA && !validB)
    || (validA == validB && |a| > |b|)
    || (validA == validB && |a| == |b| && totalA > totalB)
    || (validA == validB && |a| == |b| && totalA == totalB && FirstOf(list, n) < FirstOf(list, m))
  }

  // ---------------------------------------------------------------------------------------------
  // Sums

  lemma {:induction false} TotalJoin(a: CharSequence, b: CharSequence)
    ensures Total(a + b) == Total(a) + Total(b)
  {
    if a == [] {
      assert a + b == b;
    } else {
      TotalJoin(a[1..], b);
      assert (a + b)[1..] == a[1..] + b;
    }
  }

  lemma {:induction false} FlatJoin(a: seq<CharSequence>, b: seq<CharSequence>)
    ensures Flat(a + b) == Flat(a) + Flat(b)
  {
    if a == [] {
      assert a + b == b && Flat(a) == [];
    } else {
      FlatJoin(a[1..], b);
      assert (a + b)[1..] == a[1..] + b;
    }
  }

  lemma {:induction false} SumConfIsTotal(chars: CharSequence)
    ensures SumConf(chars) == Total(chars)
  {
    if chars == [] {
    } else {
      var n := |chars| - 1;
      SumConfIsTotal(chars[..n]);
      TotalJoin(chars[..n], [chars[n]]);
      assert chars[..n] + [chars[n]] == chars && [chars[n]][1..] == [];
    }
  }

  lemma {:induction false} SumConfsIsTotal(group: seq<CharSequence>)
    ensures SumConfs(group) == Total(Flat(group))
  {
    if group == [] {
    } else {
      var n := |group| - 1;
      SumConfsIsTotal(group[..n]);
      SumConfIsTotal(group[n]);
      assert group[..n] + [group[n]] == group;
      FlatJoin(group[..n], [group[n]]);
      assert [group[n]][1..] == [] && Flat([group[n]]) == group[n] + [];
      assert group[n] + [] == group[n];
      TotalJoin(Flat(group[..n]), group[n]);
    }
  }

  lemma {:induction false} CountOfLength(group: seq<CharSequence>, n: nat)
    requires SameLength(group, n)
    ensures CountChars(group) == |group| * n
  {
    if group == [] {
    } else {
      CountOfLength(group[..|group| - 1], n);
      OneMoreTimes(|group| - 1, n);
    }
  }

  lemma OneMoreTimes(k: nat, n: nat)
    ensures (k + 1) * n == k * n + n
  {
  }

  /** The mean confidence of a group, as its total over the number of its characters. */
  lemma MeanOfGroup(group: seq<CharSequence>, n: nat)
    requires SameLength(group, n) && n > 0 && group != []
    ensures |group| * n > 0 && MeanConf(group) == Total(Flat(group)) / (|group| * n) as real
  {
    CountOfLength(group, n);
    SumConfsIsTotal(group);
    assert |group| * n >= 1 * n by {
      TimesGrows(|group|, n);
    }
  }

  lemma TimesGrows(k: nat, n: nat)
    requires k >= 1
    ensures k * n >= n
  {
  }

  /** Groups of equal size compare by total confidence per character. */
  lemma CompareMeans(k: nat, n: nat, m: nat, s: real, t: real)
    requires k > 0 && n > 0 && m > 0 && k * n > 0 && k * m > 0
    ensures s / (k * n) as real > t / (k * m) as real <==> Scaled(s, m) > Scaled(t, n)
    ensures s / (k * n) as real == t / (k * m) as real <==> Scaled(s, m) == Scaled(t, n)
  {
    var p, q := s / (k * n) as real, t / (k * m) as real;
    var kr, nr, mr := k as real, n as real, m as real;
    assert (k * n) as real == kr * nr && (k * m) as real == kr * mr;
    Denominator(p, s, kr, nr, mr);
    Denominator(q, t, kr, mr, nr);
    Scaling(kr * (nr * mr), p, q);
  }

  lemma Denominator(p: real, s: real, k: real, n: real, m: real)
    requires k > 0.0 && n > 0.0 && m > 0.0 && k * n > 0.0 && p == s / (k * n)
    ensures (k * (n * m)) * p == s * m && (k * (m * n)) * p == s * m && k * (n * m) > 0.0
  {
    assert p * (k * n) == s;
    assert (k * (n * m)) * p == (p * (k * n)) * m;
    assert m * n == n * m;
    assert k * (n * m) == (k * n) * m;
  }

  lemma Scaling(f: real, p: real, q: real)
    requires f > 0.0
    ensures f * p > f * q <==> p > q
    ensures f * p == f * q <==> p == q
  {
    if p > q {
      assert f * (p - q) > 0.0;
    }
    if q > p {
      assert f * (q - p) > 0.0;
    }
  }

  // ---------------------------------------------------------------------------------------------
  // The groups come in the order of their first readings

  ghost predicate InOrder(groups: seq<Group>, list: seq<CharSequence>) {
    forall i, j :: 0 <= i < j < |groups| ==> FirstOf(list, groups[i].0) < FirstOf(list, groups[j].0)
  }

  lemma FirstOfMore(list: seq<CharSequence>, chars: CharSequence, n: nat)
    ensures FirstOf(list, n) < |list| ==> FirstOf(list + [chars], n) == FirstOf(list, n)
    ensures FirstOf(list, n) == |list| ==> FirstOf(list + [chars], n) >= |list|
    ensures FirstOf(list, n) == |list| && |chars| == n ==> FirstOf(list + [chars], n) == |list|
  {
    var all := list + [chars];
    var i, k := FirstOf(all, n), FirstOf(list, n);
    assert forall j :: 0 <= j < |list| ==> all[j] == list[j];
    assert all[|list|] == chars;
    if k < |list| {
      assert |all[k]| == n;
    }
  }

  lemma {:induction false} OfLengthOccurs(list: seq<CharSequence>, n: nat)
    ensures OfLength(list, n) != [] <==> FirstOf(list, n) < |list|
  {
    if list == [] {
    } else {
      var k := |list| - 1;
      OfLengthOccurs(list[..k], n);
      FirstOfMore(list[..k], list[k], n);
      assert list[..k] + [list[k]] == list;
    }
  }

  lemma AddKeepsOrder(groups: seq<Group>, list: seq<CharSequence>, chars: CharSequence)
    requires LengthPartition(groups, list) && InOrder(groups, list) && chars != []
    ensures InOrder(AddToGroups(groups, chars), list + [chars])
  {
    var more := AddToGroups(groups, chars);
    if FindGroup(groups, |chars|) == |groups| && FirstOf(list, |chars|) < |list| {
      OfLengthOccurs(list, |chars|);
      var k := GroupOfLength(groups, list, |chars|);
    }
    forall i, j | 0 <= i < j < |more| ensures FirstOf(list + [chars], more[i].0) < FirstOf(list + [chars], more[j].0) {
      FirstOfMore(list, chars, more[i].0);
      FirstOfMore(list, chars, more[j].0);
      assert more[i].0 == groups[i].0;
      OfLengthOccurs(list, groups[i].0);
      if j < |groups| {
        assert more[j].0 == groups[j].0;
        OfLengthOccurs(list, groups[j].0);
      }
    }
  }

  lemma {:induction false} GroupsInOrder(list: seq<CharSequence>)
    ensures InOrder(GroupsOf(list), list)
  {
    if list == [] {
    } else {
      var k := |list| - 1;
      assert list == list[..k] + [list[k]];
      GroupsInOrder(list[..k]);
      GroupsPartition(list[..k]);
      if list[k] != [] {
        AddKeepsOrder(GroupsOf(list[..k]), list[..k], list[k]);
      } else {
        EmptyKeepsOrder(GroupsOf(list[..k]), list[..k], list[k]);
      }
    }
  }

  lemma EmptyKeepsOrder(groups: seq<Group>, list: seq<CharSequence>, chars: CharSequence)
    requires LengthPartition(groups, list) && InOrder(groups, list)
    ensures InOrder(groups, list + [chars])
  {
    forall i, j | 0 <= i < j < |groups| ensures FirstOf(list + [chars], groups[i].0) < FirstOf(list + [chars], groups[j].0) {
      OfLengthOccurs(list, groups[i].0);
      OfLengthOccurs(list, groups[j].0);
      FirstOfMore(list, chars, groups[i].0);
      FirstOfMore(list, chars, groups[j].0);
    }
  }

  // ---------------------------------------------------------------------------------------------
  // The selection

  lemma MeansOfGroups(a: seq<CharSequence>, b: seq<CharSequence>, n: nat, m: nat)
    requires SameLength(a, n) && SameLength(b, m) && n > 0 && m > 0 && a != [] && |a| == |b|
    ensures MeanConf(a) > MeanConf(b) <==> Scaled(Total(Flat(a)), m) > Scaled(Total(Flat(b)), n)
    ensures MeanConf(a) == MeanConf(b) <==> Scaled(Total(Flat(a)), m) == Scaled(Total(Flat(b)), n)
  {
    MeanOfGroup(a, n);
    MeanOfGroup(b, m);
    CompareMeans(|a|, n, m, Total(Flat(a)), Total(Flat(b)));
  }

  lemma RankOfGroups(list: seq<CharSequence>, styles: seq<string>, n: nat, m: nat)
    requires n > 0 && m > 0 && OfLength(list, n) != [] && OfLength(list, m) != []
    ensures var a, b := ScoreGroup(OfLength(list, n), styles), ScoreGroup(OfLength(list, m), styles);
            && (RanksBefore(a, b) ==> Preferred(list, styles, n, m))
            && (!RanksBefore(b, a) && FirstOf(list, n) < FirstOf(list, m) ==> Preferred(list, styles, n, m))
  {
    var a, b := OfLength(list, n), OfLength(list, m);
    if |a| == |b| {
      MeansOfGroups(a, b, n, m);
    }
  }

  /** The selected plate is the fused text of the one reading length that is preferred to every other length read: valid
      before invalid, then more readings, then more confidence per character, then the earlier first reading. */
  lemma SelectionIsPreferred(list: seq<CharSequence>, styles: seq<string>) returns (n: nat)
    requires exists i :: 0 <= i < |list| && list[i] != []
    ensures Occurs(list, n) && SelectBestPlate(list, styles) == FusedText(OfLength(list, n))
    ensures forall m :: Occurs(list, m) && m != n ==> Preferred(list, styles, n, m)
    ensures forall m :: Occurs(list, m) && m != n ==> !Preferred(list, styles, m, n)
  {
    var best := SelectionIsFirstMaximum(list, styles);
    var groups := GroupsOf(list);
    n := groups[best].0;
    GroupOccurs(list, groups, best);
    forall m | Occurs(list, m) && m != n ensures Preferred(list, styles, n, m) && !Preferred(list, styles, m, n) {
      var j := GroupForLength(list, groups, m);
      GroupsInOrder(list);
      assert j != best;
      RankOfGroups(list, styles, n, m);
      ScoredAt(groups, styles, best);
      ScoredAt(groups, styles, j);
      NotBoth(list, styles, n, m);
    }
  }

  lemma NotBoth(list: seq<CharSequence>, styles: seq<string>, n: nat, m: nat)
    ensures !(Preferred(list, styles, n, m) && Preferred(list, styles, m, n))
  {
  }

  lemma ScoredAt(groups: seq<Group>, styles: seq<string>, i: nat)
    requires i < |groups|
    ensures ScoreGroups(groups, styles)[i] == ScoreGroup(groups[i].1, styles)
  {
  }

  lemma GroupOccurs(list: seq<CharSequence>, groups: seq<Group>, i: nat)
    requires LengthPartition(groups, list) && i < |groups|
    ensures Occurs(list, groups[i].0)
  {
    OfLengthOccurs(list, groups[i].0);
    var k := FirstOf(list, groups[i].0);
    assert |list[k]| == groups[i].0;
  }

  lemma GroupForLength(list: seq<CharSequence>, groups: seq<Group>, m: nat) returns (j: nat)
    requires LengthPartition(groups, list) && Occurs(list, m)
    ensures j < |groups| && groups[j].0 == m
  {
    OfLengthOccurs(list, m);
    j := GroupOfLength(groups, list, m);
  }
}
