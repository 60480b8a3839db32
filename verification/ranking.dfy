/** Ranking the scored table: rows sorted by score, highest first; the top N
    rows shown; the first row reported as the top market.

    The page's sort is not stable, so nothing is promised about the order of
    rows with equal scores. `Rank` is one admissible sort; what the rest of
    the model relies on is only its contract (a permutation whose scores never
    increase), and `SortedPermutationsAgreeOnScores` shows that every order
    meeting that contract shows the same sequence of scores. */
module Ranking {

  import opened Optional
  import opened Priorities
  import opened Scoring

  /** A row of the table together with its computed score. */
  datatype ScoredMarket = ScoredMarket(record: MarketRecord, score: real)

  /** Scores never increase along the sequence. */
  predicate SortedByScore(xs: seq<ScoredMarket>)
  {
    forall i, j :: 0 <= i < j < |xs| ==> xs[i].score >= xs[j].score
  }

  /** The scores along a sequence of scored rows. */
  function Scores(xs: seq<ScoredMarket>): (ss: seq<real>)
    ensures |ss| == |xs|
    ensures forall i :: 0 <= i < |xs| ==> ss[i] == xs[i].score
  {
    seq(|xs|, i requires 0 <= i < |xs| => xs[i].score)
  }

  /** The table with a score column added: row i of the result is row i of
      the input, scored under w. The input rows are not changed. */
  function ScoreAll(rows: seq<MarketRecord>, w: Weights): (scored: seq<ScoredMarket>)
    ensures |scored| == |rows|
    ensures forall i :: 0 <= i < |rows| ==> scored[i] == ScoredMarket(rows[i], Score(rows[i], w))
  {
    if rows == [] then [] else [ScoredMarket(rows[0], Score(rows[0], w))] + ScoreAll(rows[1..], w)
  }

  /** Inserting a row into a ranking keeps it a ranking holding one more row. */
  function Insert(x: ScoredMarket, xs: seq<ScoredMarket>): (r: seq<ScoredMarket>)
    requires SortedByScore(xs)
    ensures multiset(r) == multiset(xs) + multiset{x}
    ensures SortedByScore(r)
  {
    if xs == [] || x.score >= xs[0].score then
      PrependKeepsSorted(x, xs);
      [x] + xs
    else
      var rest := Insert(x, xs[1..]);
      InsertBehindHead(x, xs, rest);
      [xs[0]] + rest
  }

  /** When x goes behind the head of a ranking, the head followed by the
      ranking of x with the other rows is a ranking of x with all rows. */
  lemma InsertBehindHead(x: ScoredMarket, xs: seq<ScoredMarket>, rest: seq<ScoredMarket>)
    requires SortedByScore(xs) && |xs| > 0 && x.score < xs[0].score
    requires SortedByScore(rest) && multiset(rest) == multiset(xs[1..]) + multiset{x}
    ensures SortedByScore([xs[0]] + rest)
    ensures multiset([xs[0]] + rest) == multiset(xs) + multiset{x}
  {
    MultisetTail(xs);
    forall y | y in rest
      ensures y.score <= xs[0].score
    {
      assert y in multiset(rest);
      if y != x {
        assert y in multiset(xs[1..]);
      }
    }
    PrependKeepsSorted(xs[0], rest);
  }

  /** A row scoring at least as much as every row of a ranking can head it. */
  lemma PrependKeepsSorted(h: ScoredMarket, t: seq<ScoredMarket>)
    requires SortedByScore(t)
    requires forall y :: y in t ==> y.score <= h.score
    ensures SortedByScore([h] + t)
  {
  }

  /** Sorting by score, highest first: the result holds the same rows, each
      as often as the input does, and its scores never increase. */
  function Rank(xs: seq<ScoredMarket>): (r: seq<ScoredMarket>)
    ensures multiset(r) == multiset(xs)
    ensures |r| == |xs|
    ensures SortedByScore(r)
  {
    if xs == [] then []
    else
      assert xs == [xs[0]] + xs[1..];
      var r := Insert(xs[0], Rank(xs[1..]));
      assert |r| == |multiset(r)| == |multiset(xs)| == |xs|;
      r
  }

  /** The ranked table of a selection: every input row once, each carrying
      its score under the selection's weights, highest score first. */
  function Ranked(rows: seq<MarketRecord>, selection: seq<string>): (ranked: seq<ScoredMarket>)
    ensures multiset(ranked) == multiset(ScoreAll(rows, ComputeWeights(selection)))
    ensures SortedByScore(ranked)
    ensures forall x :: x in ranked ==>
      x.record in rows && x.score == Score(x.record, ComputeWeights(selection))
  {
    var scored := ScoreAll(rows, ComputeWeights(selection));
    var ranked := Rank(scored);
    assert forall x :: x in ranked ==> x in multiset(scored);
    ranked
  }

  /** The rows shown for a top-N choice (the table's head): the prefix of the
      ranking of length min(n, number of rows). */
  function TopN(ranked: seq<ScoredMarket>, n: nat): (shown: seq<ScoredMarket>)
    ensures shown <= ranked
    ensures |shown| == if n <= |ranked| then n else |ranked|
  {
    if n <= |ranked| then ranked[..n] else ranked
  }

  /** The choices the top-N slider admits: from 3 up to the number of rows. */
  predicate SliderAdmits(n: nat, rowCount: nat)
  {
    3 <= n <= rowCount
  }

  /** For a choice the slider admits, exactly n rows are shown, and each of
      them scores at least as much as every row left out. */
  lemma TopNShowsBestN(ranked: seq<ScoredMarket>, n: nat)
    requires SortedByScore(ranked)
    requires SliderAdmits(n, |ranked|)
    ensures |TopN(ranked, n)| == n
    ensures forall i, j :: 0 <= i < n <= j < |ranked| ==> TopN(ranked, n)[i].score >= ranked[j].score
  {
  }

  /** The top market is the first row of the ranking; an empty table has
      none (indexing its first row fails). */
  function TopMarket(ranked: seq<ScoredMarket>): (top: Option<ScoredMarket>)
    ensures top.Some? <==> |ranked| > 0
    ensures top.Some? ==> top.value in ranked
    ensures top.Some? && SortedByScore(ranked) ==>
      forall x :: x in ranked ==> x.score <= top.value.score
  {
    if |ranked| == 0 then None else Some(ranked[0])
  }

  /** On a non-empty table the reported top market is an entry of the
      ranking: one of the input rows carrying its own score, and no row
      scores more than it does. */
  lemma TopMarketIsBest(rows: seq<MarketRecord>, selection: seq<string>)
    requires |rows| > 0
    ensures TopMarket(Ranked(rows, selection)).Some?
    ensures TopMarket(Ranked(rows, selection)).value in Ranked(rows, selection)
    ensures TopMarket(Ranked(rows, selection)).value.record in rows
    ensures TopMarket(Ranked(rows, selection)).value.score
         == Score(TopMarket(Ranked(rows, selection)).value.record, ComputeWeights(selection))
    ensures forall r :: r in rows ==>
      Score(r, ComputeWeights(selection)) <= TopMarket(Ranked(rows, selection)).value.score
  {
    var w := ComputeWeights(selection);
    var scored := ScoreAll(rows, w);
    var ranked := Ranked(rows, selection);
    assert |ranked| == |multiset(ranked)| == |multiset(scored)| == |rows|;
    var top := TopMarket(ranked).value;
    forall r | r in rows
      ensures Score(r, w) <= top.score
    {
      var i :| 0 <= i < |rows| && rows[i] == r;
      assert scored[i] in multiset(ranked);
    }
  }

  /** Removing the first element of a non-empty sequence removes it once
      from the multiset. */
  lemma MultisetTail<T>(xs: seq<T>)
    requires |xs| > 0
    ensures multiset(xs[1..]) == multiset(xs) - multiset{xs[0]}
  {
    assert xs == [xs[0]] + xs[1..];
  }

  /** Scores never increase along a sequence of reals. */
  predicate NonIncreasing(a: seq<real>)
  {
    forall i, j :: 0 <= i < j < |a| ==> a[i] >= a[j]
  }

  /** The head of a non-increasing sequence is at least any of its values. */
  lemma HeadIsLargest(a: seq<real>, v: real)
    requires NonIncreasing(a)
    requires v in multiset(a)
    ensures |a| > 0 && v <= a[0]
  {
  }

  /** Dropping the head keeps a sequence non-increasing. */
  lemma TailNonIncreasing(a: seq<real>)
    requires NonIncreasing(a) && |a| > 0
    ensures NonIncreasing(a[1..])
  {
  }

  /** Two sequences of reals that are permutations of each other and both
      non-increasing are equal. */
  lemma {:induction false} SortedPermutationsOfRealsAreEqual(a: seq<real>, b: seq<real>)
    requires multiset(a) == multiset(b)
    requires NonIncreasing(a) && NonIncreasing(b)
    ensures a == b
  {
    assert |a| == |multiset(a)| == |multiset(b)| == |b|;
    if |a| > 0 {
      assert a[0] == b[0] by {
        HeadIsLargest(b, a[0]);
        HeadIsLargest(a, b[0]);
      }
      assert multiset(a[1..]) == multiset(b[1..]) by {
        MultisetTail(a);
        MultisetTail(b);
      }
      TailNonIncreasing(a);
      TailNonIncreasing(b);
      SortedPermutationsOfRealsAreEqual(a[1..], b[1..]);
      calc {
        a;
        [a[0]] + a[1..];
        [b[0]] + b[1..];
        b;
      }
    }
  }

  /** The first row of a sequence sits at some position k of any permutation
      of it, and the rest of the sequence is a permutation of the other rows. */
  lemma MatchFirst(xs: seq<ScoredMarket>, ys: seq<ScoredMarket>) returns (k: nat)
    requires multiset(xs) == multiset(ys)
    requires |xs| > 0
    ensures k < |ys| && ys[k] == xs[0]
    ensures multiset(xs[1..]) == multiset(ys[..k] + ys[k+1..])
  {
    assert xs[0] in multiset(ys);
    k :| 0 <= k < |ys| && ys[k] == xs[0];
    assert ys == ys[..k] + [ys[k]] + ys[k+1..];
    MultisetTail(xs);
  }

  /** Permuting the rows permutes their scores. */
  lemma {:induction false} PermutationPermutesScores(xs: seq<ScoredMarket>, ys: seq<ScoredMarket>)
    requires multiset(xs) == multiset(ys)
    ensures multiset(Scores(xs)) == multiset(Scores(ys))
  {
    if xs == [] {
      assert |ys| == |multiset(ys)| == 0;
      assert Scores(xs) == [] == Scores(ys);
    } else {
      var k := MatchFirst(xs, ys);
      var rest := ys[..k] + ys[k+1..];
      PermutationPermutesScores(xs[1..], rest);
      ScoresWithout(ys, k);
      ScoresHead(xs);
      calc {
        multiset(Scores(xs));
        multiset(Scores(xs[1..])) + multiset{xs[0].score};
        multiset(Scores(rest)) + multiset{ys[k].score};
        multiset(Scores(ys));
      }
    }
  }

  /** The scores of a non-empty sequence are its first score and the scores
      of the rest. */
  lemma ScoresHead(xs: seq<ScoredMarket>)
    requires |xs| > 0
    ensures multiset(Scores(xs)) == multiset(Scores(xs[1..])) + multiset{xs[0].score}
  {
    var ss, tail := Scores(xs), Scores(xs[1..]);
    assert ss == [ss[0]] + tail by {
      forall i | 0 <= i < |ss|
        ensures ss[i] == ([ss[0]] + tail)[i]
      {
        if i > 0 {
          assert xs[1..][i - 1] == xs[i];
        }
      }
    }
  }

  /** Taking row k out of a sequence takes its score out of the scores. */
  lemma ScoresWithout(ys: seq<ScoredMarket>, k: nat)
    requires k < |ys|
    ensures multiset(Scores(ys)) == multiset(Scores(ys[..k] + ys[k+1..])) + multiset{ys[k].score}
  {
    var ss := Scores(ys);
    var rest := ys[..k] + ys[k+1..];
    var sr := Scores(rest);
    assert sr == ss[..k] + ss[k+1..] by {
      forall i | 0 <= i < |sr|
        ensures sr[i] == (ss[..k] + ss[k+1..])[i]
      {
        if i < k {
          assert rest[i] == ys[i];
        } else {
          assert rest[i] == ys[i + 1];
        }
      }
    }
    assert ss == ss[..k] + [ss[k]] + ss[k+1..];
    calc {
      multiset(ss);
      multiset(ss[..k]) + multiset{ss[k]} + multiset(ss[k+1..]);
      multiset(sr) + multiset{ys[k].score};
    }
  }

  /** Ties are not ordered, but any two rankings of the same scored rows
      show the same scores in the same positions: the top-N scores and the
      top score do not depend on how ties were broken. */
  lemma SortedPermutationsAgreeOnScores(xs: seq<ScoredMarket>, ys: seq<ScoredMarket>)
    requires multiset(xs) == multiset(ys)
    requires SortedByScore(xs) && SortedByScore(ys)
    ensures Scores(xs) == Scores(ys)
  {
    PermutationPermutesScores(xs, ys);
    assert NonIncreasing(Scores(xs)) && NonIncreasing(Scores(ys));
    SortedPermutationsOfRealsAreEqual(Scores(xs), Scores(ys));
  }

}
