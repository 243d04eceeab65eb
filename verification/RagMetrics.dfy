/**
 Ranking metrics of the retrieval evaluation, over the reals: recall, reciprocal rank, hit rate and
 normalised discounted cumulative gain at a cutoff.

 The discount is any positive, strictly decreasing function of the rank; the evaluation uses
 1 / log2(rank + 1). A cutoff is an integer, and slicing with a negative one drops from the end.
 */
module RagMetrics {
  import opened Collections
  import opened Wrappers

  // ---------- The ranking ----------

  /** First occurrences of the given identifiers, in order; absent ones are skipped. */
  function FirstOccurrences(values: seq<Option<string>>): seq<string> {
    if values == [] then []
    else
      var earlier, last := FirstOccurrences(values[..|values| - 1]), values[|values| - 1];
      if last.None? || last.value in earlier then earlier else earlier + [last.value]
  }

  method RankedIds(values: seq<Option<string>>) returns (ranked: seq<string>)
    ensures ranked == FirstOccurrences(values)
  {
    ranked := [];
    var seen: set<string> := {};
    for i := 0 to |values|
      invariant ranked == FirstOccurrences(values[..i])
      invariant forall x :: x in seen <==> x in ranked
    {
      assert values[..i + 1][..i] == values[..i];
      if values[i].None? {
        continue;
      }
      if values[i].value !in seen {
        seen := seen + {values[i].value};
        ranked := ranked + [values[i].value];
      }
    }
    assert values[..|values|] == values;
  }

  lemma {:induction false} OccurrencesDistinct(values: seq<Option<string>>)
    ensures Distinct(FirstOccurrences(values))
  {
    if values != [] {
      OccurrencesDistinct(values[..|values| - 1]);
    }
  }

  lemma {:induction false} OccurrencesHold(values: seq<Option<string>>, x: string)
    ensures x in FirstOccurrences(values) <==> Some(x) in values
  {
    if values != [] {
      OccurrencesHold(values[..|values| - 1], x);
      assert values == values[..|values| - 1] + [values[|values| - 1]];
    }
  }

  /** A ranking names each given identifier once. */
  lemma RankingIsDistinct(values: seq<Option<string>>, x: string)
    ensures Distinct(FirstOccurrences(values))
    ensures x in FirstOccurrences(values) <==> Some(x) in values
  {
    OccurrencesDistinct(values);
    OccurrencesHold(values, x);
  }

  // ---------- The metrics ----------

  /** The length of `ranked[:cutoff]`. */
  function CutLength(n: nat, cutoff: int): (m: nat)
    ensures m <= n && (cutoff >= 0 ==> m <= cutoff)
  {
    if cutoff >= 0 then (if cutoff <= n then cutoff else n) else if n + cutoff > 0 then n + cutoff else 0
  }

  function Cut(ranked: seq<string>, cutoff: int): seq<string> {
    ranked[..CutLength(|ranked|, cutoff)]
  }

  function Overlap(relevant: set<string>, s: seq<string>): set<string> {
    set x <- relevant | x in s
  }

  function Recall(relevant: set<string>, ranked: seq<string>, cutoff: int): real {
    if relevant == {} then 0.0 else |Overlap(relevant, Cut(ranked, cutoff))| as real / |relevant| as real
  }

  function HitRate(relevant: set<string>, ranked: seq<string>, cutoff: int): real {
    if Overlap(relevant, Cut(ranked, cutoff)) != {} then 1.0 else 0.0
  }

  function FirstRank(relevant: set<string>, s: seq<string>, rank: nat): real
    requires rank > 0
  {
    if s == [] then 0.0 else if s[0] in relevant then 1.0 / rank as real else FirstRank(relevant, s[1..], rank + 1)
  }

  function ReciprocalRank(relevant: set<string>, ranked: seq<string>, cutoff: int): real {
    FirstRank(relevant, Cut(ranked, cutoff), 1)
  }

  type Discount = nat -> real

  ghost predicate Decreasing(d: Discount) {
    (forall r: nat :: d(r) > 0.0) && forall r: nat, s: nat :: r < s ==> d(r) > d(s)
  }

  /** The gain of a list whose first element has this rank. */
  function Gain(relevant: set<string>, s: seq<string>, d: Discount, rank: nat): real {
    if s == [] then 0.0 else (if s[0] in relevant then d(rank) else 0.0) + Gain(relevant, s[1..], d, rank + 1)
  }

  function Ideal(n: nat, d: Discount, rank: nat): real {
    if n == 0 then 0.0 else d(rank) + Ideal(n - 1, d, rank + 1)
  }

  function IdealCount(relevant: set<string>, cutoff: int): nat {
    if cutoff <= 0 then 0 else if |relevant| < cutoff then |relevant| else cutoff
  }

  function Ndcg(relevant: set<string>, ranked: seq<string>, cutoff: int, d: Discount): real {
    var ideal := Ideal(IdealCount(relevant, cutoff), d, 1);
    if relevant == {} || ideal == 0.0 then 0.0 else Gain(relevant, Cut(ranked, cutoff), d, 1) / ideal
  }

  // ---------- Counting ----------

  function Count(relevant: set<string>, s: seq<string>): nat {
    if s == [] then 0 else (if s[0] in relevant then 1 else 0) + Count(relevant, s[1..])
  }

  lemma {:induction false} CountIsOverlap(relevant: set<string>, s: seq<string>)
    requires Distinct(s)
    ensures Count(relevant, s) == |Overlap(relevant, s)|
  {
    if s != [] {
      CountIsOverlap(relevant, s[1..]);
      assert s == [s[0]] + s[1..];
      if s[0] in relevant {
        assert Overlap(relevant, s) == Overlap(relevant, s[1..]) + {s[0]};
      } else {
        assert Overlap(relevant, s) == Overlap(relevant, s[1..]);
      }
    } else {
      assert Overlap(relevant, s) == {};
    }
  }

  lemma {:induction false} CountAtMostLength(relevant: set<string>, s: seq<string>)
    ensures Count(relevant, s) <= |s|
  {
    if s != [] {
      CountAtMostLength(relevant, s[1..]);
    }
  }

  lemma CountAtMostIdeal(relevant: set<string>, ranked: seq<string>, cutoff: int)
    requires Distinct(ranked) && cutoff >= 0
    ensures Count(relevant, Cut(ranked, cutoff)) <= IdealCount(relevant, cutoff)
  {
    CountIsOverlap(relevant, Cut(ranked, cutoff));
    SubsetSize(Overlap(relevant, Cut(ranked, cutoff)), relevant);
    CountAtMostLength(relevant, Cut(ranked, cutoff));
  }

  // ---------- Gain against the ideal ----------

  lemma {:induction false} IdealShape(n: nat, d: Discount, rank: nat)
    requires Decreasing(d)
    ensures Ideal(n, d, rank) >= 0.0
    ensures n > 0 ==> Ideal(n, d, rank) > Ideal(n, d, rank + 1) && Ideal(n, d, rank) > 0.0
    ensures Ideal(n + 1, d, rank) > Ideal(n, d, rank)
  {
    if n > 0 {
      IdealShape(n - 1, d, rank + 1);
      assert d(rank) > d(rank + 1);
    }
  }

  lemma {:induction false} IdealGrows(m: nat, n: nat, d: Discount, rank: nat)
    requires Decreasing(d) && m <= n
    ensures Ideal(m, d, rank) <= Ideal(n, d, rank)
  {
    if m < n {
      IdealGrows(m, n - 1, d, rank);
      IdealShape(n - 1, d, rank);
    }
  }

  lemma {:induction false} GainAtMostIdeal(relevant: set<string>, s: seq<string>, d: Discount, rank: nat)
    requires Decreasing(d)
    ensures 0.0 <= Gain(relevant, s, d, rank) <= Ideal(Count(relevant, s), d, rank)
    ensures Gain(relevant, s, d, rank) > 0.0 <==> Count(relevant, s) > 0
  {
    if s != [] {
      GainAtMostIdeal(relevant, s[1..], d, rank + 1);
      IdealShape(Count(relevant, s[1..]), d, rank);
    }
  }

  /** The first `n` positions exist and are all relevant. */
  predicate StartsRelevant(relevant: set<string>, s: seq<string>, n: nat) {
    n <= |s| && forall i :: 0 <= i < n ==> s[i] in relevant
  }

  lemma {:induction false} GainIsIdealIffFirst(relevant: set<string>, s: seq<string>, n: nat, d: Discount, rank: nat)
    requires Decreasing(d) && Count(relevant, s) <= n
    ensures Gain(relevant, s, d, rank) == Ideal(n, d, rank) <==> StartsRelevant(relevant, s, n)
  {
    if n == 0 {
      GainAtMostIdeal(relevant, s, d, rank);
    } else if s == [] {
      IdealShape(n, d, rank);
    } else if s[0] in relevant {
      GainIsIdealIffFirst(relevant, s[1..], n - 1, d, rank + 1);
      assert StartsRelevant(relevant, s, n) <==> StartsRelevant(relevant, s[1..], n - 1) by {
        assert forall i :: 0 < i < |s| ==> s[i] == s[1..][i - 1];
        assert forall i :: 0 <= i < |s| - 1 ==> s[1..][i] == s[i + 1];
      }
    } else {
      GainAtMostIdeal(relevant, s[1..], d, rank + 1);
      IdealGrows(Count(relevant, s[1..]), n, d, rank + 1);
      IdealShape(n, d, rank);
    }
  }

  lemma Quotient(a: real, b: real)
    requires b > 0.0 && 0.0 <= a <= b
    ensures 0.0 <= a / b <= 1.0 && (a / b == 1.0 <==> a == b) && (a / b > 0.0 <==> a > 0.0)
  {
  }

  /** For a distinct ranking, at any cutoff and for any positive strictly decreasing discount, the
      normalised gain lies between 0 and 1, and is 1 exactly when the cutoff is positive and the first
      min(|relevant|, cutoff) positions are all relevant. */
  lemma NdcgIsNormalised(relevant: set<string>, ranked: seq<string>, cutoff: int, d: Discount)
    requires Distinct(ranked) && relevant != {} && Decreasing(d)
    ensures 0.0 <= Ndcg(relevant, ranked, cutoff, d) <= 1.0
    ensures Ndcg(relevant, ranked, cutoff, d) == 1.0
            <==> cutoff > 0 && StartsRelevant(relevant, ranked, IdealCount(relevant, cutoff))
    ensures Ndcg(relevant, ranked, cutoff, d) > 0.0 <==> cutoff > 0 && Overlap(relevant, Cut(ranked, cutoff)) != {}
  {
    var n := IdealCount(relevant, cutoff);
    if cutoff > 0 {
      var s := Cut(ranked, cutoff);
      CountAtMostIdeal(relevant, ranked, cutoff);
      GainAtMostIdeal(relevant, s, d, 1);
      IdealGrows(Count(relevant, s), n, d, 1);
      IdealShape(n, d, 1);
      GainIsIdealIffFirst(relevant, s, n, d, 1);
      Quotient(Gain(relevant, s, d, 1), Ideal(n, d, 1));
      CountIsOverlap(relevant, s);
      assert StartsRelevant(relevant, ranked, n) <==> StartsRelevant(relevant, s, n);
    }
  }

  // ---------- Positive together ----------

  lemma {:induction false} FirstRankPositive(relevant: set<string>, s: seq<string>, rank: nat)
    requires rank > 0
    ensures FirstRank(relevant, s, rank) > 0.0 <==> Overlap(relevant, s) != {}
  {
    if s != [] {
      FirstRankPositive(relevant, s[1..], rank + 1);
      assert s == [s[0]] + s[1..];
      if s[0] in relevant {
        assert s[0] in Overlap(relevant, s);
      } else {
        assert Overlap(relevant, s) == Overlap(relevant, s[1..]);
      }
    }
  }

  /** Recall, reciprocal rank and hit rate are always positive together. */
  lemma PositiveTogether(relevant: set<string>, ranked: seq<string>, cutoff: int)
    requires relevant != {}
    ensures Recall(relevant, ranked, cutoff) > 0.0 <==> HitRate(relevant, ranked, cutoff) > 0.0
    ensures ReciprocalRank(relevant, ranked, cutoff) > 0.0 <==> HitRate(relevant, ranked, cutoff) > 0.0
  {
    var s := Cut(ranked, cutoff);
    FirstRankPositive(relevant, s, 1);
    SubsetSize(Overlap(relevant, s), relevant);
    Quotient(|Overlap(relevant, s)| as real, |relevant| as real);
  }

  /** The normalised gain is positive together with them exactly when the cutoff is not negative, or the
      negative cutoff leaves nothing relevant. */
  lemma NdcgPositiveTogetherIff(relevant: set<string>, ranked: seq<string>, cutoff: int, d: Discount)
    requires Distinct(ranked) && relevant != {} && Decreasing(d)
    ensures (Ndcg(relevant, ranked, cutoff, d) > 0.0 <==> HitRate(relevant, ranked, cutoff) > 0.0)
            <==> cutoff >= 0 || Overlap(relevant, Cut(ranked, cutoff)) == {}
  {
    NdcgIsNormalised(relevant, ranked, cutoff, d);
    if cutoff == 0 {
      assert Cut(ranked, cutoff) == [];
    }
  }

  /** With cutoff -1 a relevant first item is a hit with full recall and yet no gain. */
  lemma NegativeCutoffHasNoGain(d: Discount)
    requires Decreasing(d)
    ensures Recall({"a"}, ["a", "b"], -1) == 1.0 && Ndcg({"a"}, ["a", "b"], -1, d) == 0.0
  {
    assert Cut(["a", "b"], -1) == ["a"];
    assert Overlap({"a"}, ["a"]) == {"a"};
  }

  // ---------- Growing cutoffs ----------

  lemma RecallOfLongerCut(relevant: set<string>, ranked: seq<string>, small: int, large: int)
    requires CutLength(|ranked|, small) <= CutLength(|ranked|, large)
    ensures Recall(relevant, ranked, small) <= Recall(relevant, ranked, large)
  {
    var a, b := Overlap(relevant, Cut(ranked, small)), Overlap(relevant, Cut(ranked, large));
    assert Cut(ranked, small) <= Cut(ranked, large);
    assert a <= b by {
      forall x | x in a
        ensures x in b
      {
        var i :| 0 <= i < |Cut(ranked, small)| && Cut(ranked, small)[i] == x;
        assert Cut(ranked, large)[i] == x;
      }
    }
    SubsetSize(a, b);
    if relevant != {} {
      DivideBoth(|a| as real, |b| as real, |relevant| as real);
    }
  }

  lemma DivideBoth(a: real, b: real, n: real)
    requires a <= b && n > 0.0
    ensures a / n <= b / n
  {
  }

  /** Whatever is relevant, recall does not fall from one cutoff to another exactly when the second keeps
      at least as much of the ranking. */
  lemma RecallGrowsIffCutGrows(ranked: seq<string>, small: int, large: int)
    requires Distinct(ranked)
    ensures (forall relevant :: Recall(relevant, ranked, small) <= Recall(relevant, ranked, large))
            <==> CutLength(|ranked|, small) <= CutLength(|ranked|, large)
  {
    if CutLength(|ranked|, small) <= CutLength(|ranked|, large) {
      forall relevant
        ensures Recall(relevant, ranked, small) <= Recall(relevant, ranked, large)
      {
        RecallOfLongerCut(relevant, ranked, small, large);
      }
    } else {
      var i := CutLength(|ranked|, large);
      var x := ranked[i];
      assert Cut(ranked, small)[i] == x;
      assert Overlap({x}, Cut(ranked, small)) == {x};
      assert Overlap({x}, Cut(ranked, large)) == {};
      assert Recall({x}, ranked, small) > Recall({x}, ranked, large);
    }
  }

  /** From cutoff -1 to cutoff 0 recall drops from one to zero. */
  lemma RecallDropsAtZero()
    ensures Recall({"a"}, ["a", "b"], -1) == 1.0 && Recall({"a"}, ["a", "b"], 0) == 0.0
  {
    assert Cut(["a", "b"], -1) == ["a"] && Cut(["a", "b"], 0) == [];
    assert Overlap({"a"}, ["a"]) == {"a"} && Overlap({"a"}, []) == {};
  }

  /** A growing cutoff keeps at least as much unless it goes from negative to non-negative. */
  lemma CutGrows(n: nat, small: int, large: int)
    requires small <= large
    ensures CutLength(n, small) <= CutLength(n, large) <==> small >= 0 || large < 0 || n + small <= CutLength(n, large)
  {
  }
}
