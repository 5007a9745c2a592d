/** Weighted voting with first appearance breaking ties: the loop shared by character fusion and class voting. */
module Voting {

  datatype Stat<T> = Stat(item: T, votes: nat, total: real)

  /** Position of the statistic for `item`, or |stats|. */
  function FindStat<T(==)>(stats: seq<Stat<T>>, item: T): (i: nat)
    ensures i <= |stats|
    ensures i < |stats| ==> stats[i].item == item
    ensures forall j :: 0 <= j < i ==> stats[j].item != item
  {
    if stats == [] || stats[0].item == item then 0 else 1 + FindStat(stats[1..], item)
  }

  function Bump<T(==)>(stats: seq<Stat<T>>, item: T, conf: real): seq<Stat<T>> {
    var i := FindStat(stats, item);
    if i == |stats| then stats + [Stat(item, 1, conf)]
    else stats[i := Stat(item, stats[i].votes + 1, stats[i].total + conf)]
  }

  function Tally<T(==)>(ballots: seq<(T, real)>): seq<Stat<T>> {
    if ballots == [] then []
    else
      var n := |ballots| - 1;
      Bump(Tally(ballots[..n]), ballots[n].0, ballots[n].1)
  }

  predicate Beats<T>(a: Stat<T>, b: Stat<T>) {
    a.votes > b.votes || (a.votes == b.votes && a.total > b.total)
  }

  /** The scan that keeps the first best of `stats[..n]`. */
  function BestOf<T>(stats: seq<Stat<T>>, n: nat): (i: nat)
    requires 0 < n <= |stats|
    ensures i < n
  {
    if n == 1 then 0
    else
      var b := BestOf(stats, n - 1);
      if Beats(stats[n - 1], stats[b]) then n - 1 else b
  }

  lemma {:induction false} TallyNonEmpty<T>(ballots: seq<(T, real)>)
    ensures ballots != [] ==> Tally(ballots) != []
  {
  }

  function Winner<T(==)>(ballots: seq<(T, real)>): T
    requires ballots != []
  {
    TallyNonEmpty(ballots);
    var stats := Tally(ballots);
    stats[BestOf(stats, |stats|)].item
  }

  // ---------------------------------------------------------------------------------------------
  // The declarative meaning

  function Votes<T(==)>(ballots: seq<(T, real)>, x: T): nat {
    if ballots == [] then 0
    else
      var n := |ballots| - 1;
      Votes(ballots[..n], x) + if ballots[n].0 == x then 1 else 0
  }

  function Confidence<T(==)>(ballots: seq<(T, real)>, x: T): real {
    if ballots == [] then 0.0
    else
      var n := |ballots| - 1;
      Confidence(ballots[..n], x) + if ballots[n].0 == x then ballots[n].1 else 0.0
  }

  ghost predicate Cast<T>(ballots: seq<(T, real)>, x: T) {
    exists i :: 0 <= i < |ballots| && ballots[i].0 == x
  }

  /** Index of the first ballot for x. */
  function FirstAt<T(==)>(ballots: seq<(T, real)>, x: T): (i: nat)
    ensures i <= |ballots|
    ensures i < |ballots| ==> ballots[i].0 == x
    ensures forall j :: 0 <= j < i ==> ballots[j].0 != x
  {
    if ballots == [] || ballots[0].0 == x then 0 else 1 + FirstAt(ballots[1..], x)
  }

  /** w has the most votes; on a tie the larger total confidence; on a tie the earliest appearance. */
  ghost predicate IsWinner<T(!new)>(ballots: seq<(T, real)>, w: T) {
    && Cast(ballots, w)
    && forall x :: Cast(ballots, x) && x != w ==>
         || Votes(ballots, x) < Votes(ballots, w)
         || (Votes(ballots, x) == Votes(ballots, w) && Confidence(ballots, x) < Confidence(ballots, w))
         || (Votes(ballots, x) == Votes(ballots, w) && Confidence(ballots, x) == Confidence(ballots, w)
             && FirstAt(ballots, w) < FirstAt(ballots, x))
  }

  /** The statistics list every item once, in order of first appearance, with its votes and confidence. */
  ghost predicate TalliesBallots<T(!new)>(stats: seq<Stat<T>>, ballots: seq<(T, real)>) {
    && (forall i :: 0 <= i < |stats| ==>
          && Cast(ballots, stats[i].item)
          && stats[i].votes == Votes(ballots, stats[i].item)
          && stats[i].total == Confidence(ballots, stats[i].item))
    && (forall i, j :: 0 <= i < j < |stats| ==> FirstAt(ballots, stats[i].item) < FirstAt(ballots, stats[j].item))
    && (forall x :: Cast(ballots, x) ==> exists i :: 0 <= i < |stats| && stats[i].item == x)
  }

  lemma {:induction false} FirstAtPrefix<T(!new)>(ballots: seq<(T, real)>, e: (T, real), x: T)
    ensures FirstAt(ballots + [e], x) ==
              if Cast(ballots, x) then FirstAt(ballots, x) else if e.0 == x then |ballots| else |ballots| + 1
  {
    var i := FirstAt(ballots + [e], x);
    forall j | 0 <= j < |ballots| ensures (ballots + [e])[j] == ballots[j] {
    }
    if Cast(ballots, x) {
      var j :| 0 <= j < |ballots| && ballots[j].0 == x;
      assert (ballots + [e])[j].0 == x;
      var k := FirstAt(ballots, x);
      assert (ballots + [e])[k].0 == x;
    } else {
      assert (ballots + [e])[|ballots|] == e;
    }
  }

  lemma {:induction false} VotesOfAbsent<T(!new)>(ballots: seq<(T, real)>, x: T)
    requires !Cast(ballots, x)
    ensures Votes(ballots, x) == 0 && Confidence(ballots, x) == 0.0
  {
    if ballots == [] {
    } else {
      var n := |ballots| - 1;
      assert forall i :: 0 <= i < n ==> ballots[..n][i] == ballots[i];
      VotesOfAbsent(ballots[..n], x);
    }
  }

  lemma {:induction false} TallyCorrect<T(!new)>(ballots: seq<(T, real)>)
    ensures TalliesBallots(Tally(ballots), ballots)
  {
    if ballots == [] {
    } else {
      var n := |ballots| - 1;
      var prev, e := ballots[..n], ballots[n];
      assert ballots == prev + [e];
      TallyCorrect(prev);
      BumpCorrect(Tally(prev), prev, e);
    }
  }

  lemma CastAppend<T(!new)>(prev: seq<(T, real)>, e: (T, real), x: T)
    ensures Cast(prev + [e], x) <==> Cast(prev, x) || e.0 == x
    ensures Votes(prev + [e], x) == Votes(prev, x) + if e.0 == x then 1 else 0
    ensures Confidence(prev + [e], x) == Confidence(prev, x) + if e.0 == x then e.1 else 0.0
  {
    var all := prev + [e];
    assert all[..|prev|] == prev && all[|prev|] == e;
    if Cast(prev, x) {
      var i :| 0 <= i < |prev| && prev[i].0 == x;
      assert all[i].0 == x;
    }
  }

  lemma FoundIffCast<T(!new)>(stats: seq<Stat<T>>, prev: seq<(T, real)>, x: T)
    requires TalliesBallots(stats, prev)
    ensures FindStat(stats, x) < |stats| <==> Cast(prev, x)
    ensures forall i :: 0 <= i < |stats| && i != FindStat(stats, x) ==> stats[i].item != x
  {
    var p := FindStat(stats, x);
    forall i | 0 <= i < |stats| && i != p ensures stats[i].item != x {
      if i > p {
        assert FirstAt(prev, stats[p].item) < FirstAt(prev, stats[i].item);
      }
    }
  }

  lemma BumpCounts<T(!new)>(stats: seq<Stat<T>>, prev: seq<(T, real)>, e: (T, real), i: int)
    requires TalliesBallots(stats, prev) && 0 <= i < |Bump(stats, e.0, e.1)|
    ensures var st := Bump(stats, e.0, e.1)[i];
            && Cast(prev + [e], st.item)
            && st.votes == Votes(prev + [e], st.item)
            && st.total == Confidence(prev + [e], st.item)
  {
    var st := Bump(stats, e.0, e.1)[i];
    CastAppend(prev, e, st.item);
    FoundIffCast(stats, prev, e.0);
    if i == |stats| {
      VotesOfAbsent(prev, e.0);
    }
  }

  lemma BumpOrder<T(!new)>(stats: seq<Stat<T>>, prev: seq<(T, real)>, e: (T, real), i: int, j: int)
    requires TalliesBallots(stats, prev) && 0 <= i < j < |Bump(stats, e.0, e.1)|
    ensures var r := Bump(stats, e.0, e.1); FirstAt(prev + [e], r[i].item) < FirstAt(prev + [e], r[j].item)
  {
    var r := Bump(stats, e.0, e.1);
    FoundIffCast(stats, prev, e.0);
    FirstAtPrefix(prev, e, r[i].item);
    FirstAtPrefix(prev, e, r[j].item);
    assert r[i].item == stats[i].item && Cast(prev, stats[i].item);
    if j < |stats| {
      assert r[j].item == stats[j].item && Cast(prev, stats[j].item);
    }
  }

  lemma BumpComplete<T(!new)>(stats: seq<Stat<T>>, prev: seq<(T, real)>, e: (T, real), x: T) returns (i: int)
    requires TalliesBallots(stats, prev) && Cast(prev + [e], x)
    ensures 0 <= i < |Bump(stats, e.0, e.1)| && Bump(stats, e.0, e.1)[i].item == x
  {
    CastAppend(prev, e, x);
    if e.0 == x {
      i := FindStat(stats, x);
    } else {
      i :| 0 <= i < |stats| && stats[i].item == x;
    }
  }

  lemma BumpCorrect<T(!new)>(stats: seq<Stat<T>>, prev: seq<(T, real)>, e: (T, real))
    requires TalliesBallots(stats, prev)
    ensures TalliesBallots(Bump(stats, e.0, e.1), prev + [e])
  {
    var r, all := Bump(stats, e.0, e.1), prev + [e];
    forall i | 0 <= i < |r|
      ensures Cast(all, r[i].item) && r[i].votes == Votes(all, r[i].item) && r[i].total == Confidence(all, r[i].item)
    {
      BumpCounts(stats, prev, e, i);
    }
    forall i, j | 0 <= i < j < |r| ensures FirstAt(all, r[i].item) < FirstAt(all, r[j].item) {
      BumpOrder(stats, prev, e, i, j);
    }
    forall x | Cast(all, x) ensures exists i :: 0 <= i < |r| && r[i].item == x {
      var i := BumpComplete(stats, prev, e, x);
    }
  }

  lemma {:induction false} BestOfCorrect<T>(stats: seq<Stat<T>>, n: nat)
    requires 0 < n <= |stats|
    ensures forall j :: 0 <= j < n ==> !Beats(stats[j], stats[BestOf(stats, n)])
    ensures forall j :: 0 <= j < BestOf(stats, n) ==> Beats(stats[BestOf(stats, n)], stats[j])
  {
    if n > 1 {
      BestOfCorrect(stats, n - 1);
    }
  }

  /** The loop computes the declared winner, and there is only one. */
  lemma WinnerIsArgmax<T(!new)>(ballots: seq<(T, real)>, w: T)
    requires ballots != []
    ensures IsWinner(ballots, w) <==> w == Winner(ballots)
  {
    var stats := Tally(ballots);
    TallyNonEmpty(ballots);
    TallyCorrect(ballots);
    var b := BestOf(stats, |stats|);
    BestOfCorrect(stats, |stats|);
    var best := stats[b].item;
    forall x | Cast(ballots, x) && x != best
      ensures
        || Votes(ballots, x) < Votes(ballots, best)
        || (Votes(ballots, x) == Votes(ballots, best) && Confidence(ballots, x) < Confidence(ballots, best))
        || (Votes(ballots, x) == Votes(ballots, best) && Confidence(ballots, x) == Confidence(ballots, best)
            && FirstAt(ballots, best) < FirstAt(ballots, x))
    {
      var i :| 0 <= i < |stats| && stats[i].item == x;
      if i < b {
        assert Beats(stats[b], stats[i]);
      } else {
        assert FirstAt(ballots, stats[b].item) < FirstAt(ballots, stats[i].item);
      }
    }
    assert IsWinner(ballots, best);
  }

  lemma {:induction false} TwoItemsShareVotes<T(!new)>(ballots: seq<(T, real)>, x: T, y: T)
    requires x != y
    ensures Votes(ballots, x) + Votes(ballots, y) <= |ballots|
  {
    if ballots == [] {
    } else {
      TwoItemsShareVotes(ballots[..|ballots| - 1], x, y);
    }
  }

  /** A strict majority always wins, whatever the confidences and the order. */
  lemma MajorityWins<T(!new)>(ballots: seq<(T, real)>, x: T)
    requires 2 * Votes(ballots, x) > |ballots|
    ensures ballots != [] && Winner(ballots) == x
  {
    var w := Winner(ballots);
    WinnerIsArgmax(ballots, w);
    if w != x {
      TwoItemsShareVotes(ballots, x, w);
      if !Cast(ballots, x) {
        VotesOfAbsent(ballots, x);
      }
    }
  }

  /** Counting loop, find-or-append loop and best scan, as the program writes them. */
  method Vote<T(==)>(ballots: seq<(T, real)>) returns (w: T)
    requires ballots != []
    ensures w == Winner(ballots)
  {
    var stats: seq<Stat<T>> := [];
    for i := 0 to |ballots|
      invariant stats == Tally(ballots[..i])
    {
      assert ballots[..i + 1][..i] == ballots[..i];
      var (item, conf) := ballots[i];
      var p := 0;
      while p < |stats| && stats[p].item != item
        invariant p <= |stats|
        invariant forall j :: 0 <= j < p ==> stats[j].item != item
      {
        p := p + 1;
      }
      assert p == FindStat(stats, item);
      if p == |stats| {
        stats := stats + [Stat(item, 1, conf)];
      } else {
        stats := stats[p := Stat(item, stats[p].votes + 1, stats[p].total + conf)];
      }
    }
    assert ballots[..|ballots|] == ballots;
    TallyNonEmpty(ballots);
    var best := 0;
    for i := 0 to |stats|
      invariant best < |stats|
      invariant i > 0 ==> best == BestOf(stats, i)
      invariant i == 0 ==> best == 0
    {
      if Beats(stats[i], stats[best]) {
        best := i;
      }
    }
    w := stats[best].item;
  }
}
