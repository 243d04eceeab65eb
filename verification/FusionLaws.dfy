/**
 What reciprocal rank fusion promises, proved of the ranking computed by `RankFusion`.
 */
module FusionLaws {
  import opened Collections
  import opened Wrappers
  import opened RankFusion

  // ---------- What an item says ----------

  lemma KeysDistinct(rankings: seq<seq<Hit>>)
    ensures Distinct(Keys(rankings))
  {
    if rankings != [] {
      KeysDistinct(rankings[..|rankings| - 1]);
      ExtendDistinct(Keys(rankings[..|rankings| - 1]), Ids(rankings[|rankings| - 1]));
    }
  }

  /** The item is in this ranking. */
  predicate Holds(hits: seq<Hit>, x: string) {
    x in Dedup(Ids(hits))
  }

  /** Its position among the distinct items of the ranking. */
  function RankIn(hits: seq<Hit>, x: string): nat
    requires Holds(hits, x)
  {
    IndexOf(Dedup(Ids(hits)), x) + 1
  }

  ghost predicate Ascending(channels: seq<nat>, bound: nat) {
    && (forall i :: 0 <= i < |channels| ==> channels[i] < bound)
    && (forall i, j :: 0 <= i < j < |channels| ==> channels[i] < channels[j])
  }

  /** The distinct items of each ranking. */
  function DistinctLists(rankings: seq<seq<Hit>>): seq<seq<string>> {
    if rankings == [] then []
    else DistinctLists(rankings[..|rankings| - 1]) + [Dedup(Ids(rankings[|rankings| - 1]))]
  }

  /** What an item says about the rankings that hold it, given the distinct items of each. */
  ghost predicate TellsRanks(lists: seq<seq<string>>, item: Item) {
    && Ascending(item.channels, |lists|)
    && (forall c: nat :: c in item.channels <==> c in item.ranks)
    && (forall c: nat :: c in item.ranks <==> c < |lists| && item.id in lists[c])
    && (forall c: nat :: c in item.ranks ==> item.ranks[c] == IndexOf(lists[c], item.id) + 1)
  }

  lemma CreditTellsRanks(k: nat, lists: seq<seq<string>>, d: seq<string>, item: Item)
    requires TellsRanks(lists, item)
    ensures TellsRanks(lists + [d], CreditedFor(item, k, |lists|, d))
  {
  }

  lemma {:induction false} StandingScore(k: nat, rankings: seq<seq<Hit>>, x: string)
    ensures Standing(k, rankings, x).score == Score(k, rankings, x)
  {
    if rankings != [] {
      StandingScore(k, rankings[..|rankings| - 1], x);
    }
  }

  lemma {:induction false} StandingTells(k: nat, rankings: seq<seq<Hit>>, x: string)
    ensures |DistinctLists(rankings)| == |rankings| && TellsRanks(DistinctLists(rankings), Standing(k, rankings, x))
  {
    if rankings != [] {
      var front, last := rankings[..|rankings| - 1], rankings[|rankings| - 1];
      StandingTells(k, front, x);
      CreditTellsRanks(k, DistinctLists(front), Dedup(Ids(last)), Started(Standing(k, front, x), last));
    }
  }

  lemma {:induction false} DistinctListAt(rankings: seq<seq<Hit>>, c: nat)
    requires c < |rankings|
    ensures |DistinctLists(rankings)| == |rankings| && DistinctLists(rankings)[c] == Dedup(Ids(rankings[c]))
  {
    var front := rankings[..|rankings| - 1];
    if c < |front| {
      DistinctListAt(front, c);
    } else if front != [] {
      DistinctListAt(front, 0);
    }
  }

  /** A fused item carries its score, the rankings that hold it in order, and its rank in each. */
  lemma StandingMeans(k: nat, rankings: seq<seq<Hit>>, x: string, c: nat)
    ensures var item := Standing(k, rankings, x);
            && item.score == Score(k, rankings, x)
            && Ascending(item.channels, |rankings|)
            && (c in item.channels <==> c in item.ranks)
            && (c in item.ranks <==> c < |rankings| && Holds(rankings[c], x))
            && (c in item.ranks ==> item.ranks[c] == RankIn(rankings[c], x))
  {
    StandingScore(k, rankings, x);
    StandingTells(k, rankings, x);
    if c < |rankings| {
      DistinctListAt(rankings, c);
    }
  }

  /** Some ranking holds the item. */
  ghost predicate Held(rankings: seq<seq<Hit>>, x: string) {
    exists c :: 0 <= c < |rankings| && Holds(rankings[c], x)
  }

  lemma {:induction false} KeysAreHeld(rankings: seq<seq<Hit>>, x: string)
    ensures x in Keys(rankings) <==> Held(rankings, x)
  {
    if rankings != [] {
      var front, last := rankings[..|rankings| - 1], rankings[|rankings| - 1];
      KeysAreHeld(front, x);
      ExtendHasSame(Keys(front), Ids(last));
      ExtendHasSame([], Ids(last));
      if x in Keys(front) {
        var c :| 0 <= c < |front| && Holds(front[c], x);
        assert Holds(rankings[c], x);
      }
      if Holds(last, x) {
        assert Holds(rankings[|rankings| - 1], x);
      }
      if c :| 0 <= c < |rankings| && Holds(rankings[c], x) {
        assert c < |front| ==> Holds(front[c], x);
      }
    }
  }

  lemma ShareIsPositive(k: nat, d: seq<string>, x: string)
    ensures if x in d then Share(k, d, x) > 0.0 else Share(k, d, x) == 0.0
  {
  }

  lemma {:induction false} ScoredIffHeld(k: nat, rankings: seq<seq<Hit>>, x: string)
    ensures Score(k, rankings, x) >= 0.0
    ensures x in Keys(rankings) <==> Score(k, rankings, x) > 0.0
  {
    if rankings != [] {
      var front, last := rankings[..|rankings| - 1], rankings[|rankings| - 1];
      ScoredIffHeld(k, front, x);
      ExtendHasSame(Keys(front), Ids(last));
      ExtendHasSame([], Ids(last));
      ShareIsPositive(k, Dedup(Ids(last)), x);
    }
  }

  // ---------- The order is strict and total ----------

  lemma {:induction false} LexOrder(a: string, b: string)
    ensures !LexLess(a, a)
    ensures a == b || LexLess(a, b) || LexLess(b, a)
    ensures !(LexLess(a, b) && LexLess(b, a))
  {
    if a != [] {
      LexOrder(a[1..], if b == [] then [] else b[1..]);
      assert a == [a[0]] + a[1..];
      assert b != [] ==> b == [b[0]] + b[1..];
    }
  }

  lemma {:induction false} LexTransitive(a: string, b: string, c: string)
    requires LexLess(a, b) && LexLess(b, c)
    ensures LexLess(a, c)
  {
    if a != [] && a[0] == b[0] && b[0] == c[0] {
      LexTransitive(a[1..], b[1..], c[1..]);
    }
  }

  lemma AheadOrder(a: Item, b: Item)
    ensures !Ahead(a, a) && !(Ahead(a, b) && Ahead(b, a))
    ensures a.id != b.id ==> Ahead(a, b) || Ahead(b, a)
  {
    LexOrder(a.id, b.id);
    LexOrder(a.id, a.id);
  }

  lemma AheadTransitive(a: Item, b: Item, c: Item)
    requires Ahead(a, b) && Ahead(b, c)
    ensures Ahead(a, c)
  {
    if a.score == b.score == c.score {
      LexTransitive(a.id, b.id, c.id);
    }
  }

  // ---------- Sorting ----------

  ghost predicate InOrder(items: seq<Item>) {
    forall i, j :: 0 <= i < j < |items| ==> Ahead(items[i], items[j])
  }

  ghost predicate DistinctIds(items: seq<Item>) {
    forall i, j :: 0 <= i < j < |items| ==> items[i].id != items[j].id
  }

  lemma {:induction false} InsertHolds(item: Item, items: seq<Item>)
    ensures multiset(Insert(item, items)) == multiset([item]) + multiset(items)
    ensures forall x :: x in Insert(item, items) <==> x == item || x in items
  {
    if items != [] && !Ahead(item, items[0]) {
      InsertHolds(item, items[1..]);
      assert items == [items[0]] + items[1..];
    }
  }

  lemma {:induction false} InsertInOrder(item: Item, items: seq<Item>)
    requires InOrder(items) && forall x <- items :: x.id != item.id
    ensures InOrder(Insert(item, items))
  {
    if items != [] {
      var rest := items[1..];
      if Ahead(item, items[0]) {
        forall x | x in rest
          ensures Ahead(item, x)
        {
          AheadTransitive(item, items[0], x);
        }
      } else {
        AheadOrder(item, items[0]);
        InsertInOrder(item, rest);
        InsertHolds(item, rest);
        forall x | x in Insert(item, rest)
          ensures Ahead(items[0], x)
        {
          if x != item {
            assert x in rest;
          }
        }
      }
    }
  }

  lemma {:induction false} SortHolds(items: seq<Item>)
    requires DistinctIds(items)
    ensures multiset(SortItems(items)) == multiset(items)
    ensures forall x :: x in SortItems(items) <==> x in items
    ensures InOrder(SortItems(items))
  {
    if items != [] {
      var rest := SortItems(items[1..]);
      SortHolds(items[1..]);
      InsertHolds(items[0], rest);
      InsertInOrder(items[0], rest);
      assert items == [items[0]] + items[1..];
    }
  }

  /** All fused items, best first. */
  function Order(k: nat, rankings: seq<seq<Hit>>): seq<Item> {
    SortItems(Standings(k, rankings))
  }

  lemma OrderHolds(k: nat, rankings: seq<seq<Hit>>)
    ensures InOrder(Order(k, rankings)) && |Order(k, rankings)| == |Keys(rankings)|
    ensures forall item :: item in Order(k, rankings) <==> item.id in Keys(rankings) && item == Standing(k, rankings, item.id)
  {
    KeysDistinct(rankings);
    SortHolds(Standings(k, rankings));
    assert |multiset(Order(k, rankings))| == |multiset(Standings(k, rankings))|;
    forall item
      ensures item in Standings(k, rankings) <==> item.id in Keys(rankings) && item == Standing(k, rankings, item.id)
    {
      if item.id in Keys(rankings) {
        var i :| 0 <= i < |Keys(rankings)| && Keys(rankings)[i] == item.id;
        assert Standings(k, rankings)[i] == Standing(k, rankings, item.id);
      }
    }
  }

  /** The fused ranking is the first `limit` of the union of the rankings in the strict order by score
      and identity: every returned item is held by some ranking and has the sum of its shares as score,
      and whatever else a ranking holds is behind everything returned, and is left out only for want of
      room. */
  lemma FusedIsTheBest(k: nat, rankings: seq<seq<Hit>>, limit: nat)
    ensures var out := Fused(k, rankings, limit);
            && InOrder(out) && |out| <= limit
            && (forall item <- out :: Held(rankings, item.id) && item == Standing(k, rankings, item.id)
                                      && item.score == Score(k, rankings, item.id))
            && (forall x :: Held(rankings, x) && Standing(k, rankings, x) !in out
                  ==> |out| == limit && forall item <- out :: Ahead(item, Standing(k, rankings, x)))
  {
    OrderHolds(k, rankings);
    var all, out := Order(k, rankings), Fused(k, rankings, limit);
    forall item | item in out
      ensures Held(rankings, item.id) && item.score == Score(k, rankings, item.id)
    {
      assert item in all;
      KeysAreHeld(rankings, item.id);
      StandingScore(k, rankings, item.id);
    }
    forall x | Held(rankings, x) && Standing(k, rankings, x) !in out
      ensures |out| == limit && forall item <- out :: Ahead(item, Standing(k, rankings, x))
    {
      KeysAreHeld(rankings, x);
      assert Standing(k, rankings, x) in all;
      var j :| 0 <= j < |all| && all[j] == Standing(k, rankings, x);
      assert forall i :: 0 <= i < |out| ==> out[i] == all[i];
      assert |out| <= j;
    }
  }

  /** A smaller limit gives a prefix. */
  lemma SmallerLimitIsPrefix(k: int, rankings: seq<seq<Hit>>, fewer: int, more: int)
    requires fewer <= more && Fusion(k, rankings, more).Ok?
    ensures Fusion(k, rankings, fewer).Ok? && Fusion(k, rankings, fewer).value <= Fusion(k, rankings, more).value
  {
    if fewer > 0 {
      var small, large := Fused(k, rankings, fewer), Fused(k, rankings, more);
      assert small <= large;
      assert forall i :: 0 <= i < |small| ==> Numbered(small)[i] == Numbered(large)[i];
    }
  }

  // ---------- The order of the rankings does not matter ----------

  datatype Scored = Scored(id: string, score: real)

  function View(items: seq<Item>): seq<Scored> {
    seq(|items|, i requires 0 <= i < |items| => Scored(items[i].id, items[i].score))
  }

  function Without<T>(s: seq<T>, i: nat): seq<T>
    requires i < |s|
  {
    s[..i] + s[i + 1..]
  }

  lemma WithoutEnds<T>(s: seq<T>, i: nat)
    requires i < |s|
    ensures var n := |s| - 1; var w := Without(s, i);
            if i == n then w == s[..n] else w != [] && w[..|w| - 1] == Without(s[..n], i) && w[|w| - 1] == s[n]
  {
  }

  lemma {:induction false} ScoreWithout(k: nat, rankings: seq<seq<Hit>>, i: nat, x: string)
    requires i < |rankings|
    ensures Score(k, rankings, x) == Score(k, Without(rankings, i), x) + Share(k, Dedup(Ids(rankings[i])), x)
    decreases |rankings|
  {
    WithoutEnds(rankings, i);
    if i < |rankings| - 1 {
      ScoreWithout(k, rankings[..|rankings| - 1], i, x);
    }
  }

  lemma MultisetWithout<T>(s: seq<T>, i: nat)
    requires i < |s|
    ensures multiset(Without(s, i)) == multiset(s) - multiset{s[i]}
  {
    assert s == s[..i] + [s[i]] + s[i + 1..];
  }

  lemma {:induction false} ScorePermuted(k: nat, a: seq<seq<Hit>>, b: seq<seq<Hit>>, x: string)
    requires multiset(a) == multiset(b)
    ensures Score(k, a, x) == Score(k, b, x)
    decreases |a|
  {
    assert |a| == |multiset(a)| == |multiset(b)| == |b|;
    if a != [] {
      var front, last := a[..|a| - 1], a[|a| - 1];
      assert a == front + [last];
      assert last in multiset(b);
      var i :| 0 <= i < |b| && b[i] == last;
      MultisetWithout(b, i);
      MultisetWithout(a, |a| - 1);
      assert Without(a, |a| - 1) == front;
      ScorePermuted(k, front, Without(b, i), x);
      ScoreWithout(k, b, i, x);
    }
  }

  /** Two lists in order with the same identities and scores show the same order. */
  lemma {:induction false} OrderDetermined(a: seq<Item>, b: seq<Item>)
    requires InOrder(a) && InOrder(b)
    requires forall s :: s in View(a) <==> s in View(b)
    ensures View(a) == View(b)
    decreases |a|
  {
    assert View(a) != [] ==> View(a)[0] in View(b);
    assert View(b) != [] ==> View(b)[0] in View(a);
    if a != [] {
      HeadDetermined(a, b);
      TailHolds(a);
      TailHolds(b);
      OrderDetermined(a[1..], b[1..]);
      assert View(a) == [View(a)[0]] + View(a[1..]);
      assert View(b) == [View(b)[0]] + View(b[1..]);
    }
  }

  lemma NotBothAhead(a: Item, x: Item, b: Item, y: Item)
    requires a.id == y.id && a.score == y.score && b.id == x.id && b.score == x.score
    ensures !(Ahead(a, x) && Ahead(b, y))
  {
    AheadOrder(a, x);
  }

  lemma HeadDetermined(a: seq<Item>, b: seq<Item>)
    requires a != [] && b != [] && InOrder(a) && InOrder(b)
    requires forall s :: s in View(a) <==> s in View(b)
    ensures View(a)[0] == View(b)[0]
  {
    assert View(a)[0] in View(a) && View(b)[0] in View(b);
    var i :| 0 <= i < |b| && View(b)[i] == View(a)[0];
    var j :| 0 <= j < |a| && View(a)[j] == View(b)[0];
    NotBothAhead(a[0], a[j], b[0], b[i]);
  }

  lemma TailHolds(a: seq<Item>)
    requires a != [] && InOrder(a)
    ensures InOrder(a[1..]) && forall s :: s in View(a[1..]) <==> s in View(a) && s != View(a)[0]
  {
    forall s
      ensures s in View(a[1..]) <==> s in View(a) && s != View(a)[0]
    {
      if s in View(a) && s != View(a)[0] {
        var i :| 0 <= i < |a| && View(a)[i] == s;
        assert View(a[1..])[i - 1] == s;
      }
      if s in View(a[1..]) {
        var i :| 0 <= i < |a[1..]| && View(a[1..])[i] == s;
        assert View(a)[i + 1] == s;
        AheadOrder(a[0], a[i + 1]);
      }
    }
  }

  lemma ViewOfOrder(k: nat, rankings: seq<seq<Hit>>, s: Scored)
    ensures s in View(Order(k, rankings)) <==> Score(k, rankings, s.id) > 0.0 && s.score == Score(k, rankings, s.id)
  {
    var all := Order(k, rankings);
    OrderHolds(k, rankings);
    StandingScore(k, rankings, s.id);
    ScoredIffHeld(k, rankings, s.id);
    if s.id in Keys(rankings) {
      assert Standing(k, rankings, s.id) in all;
      var i :| 0 <= i < |all| && all[i] == Standing(k, rankings, s.id);
      assert View(all)[i] == Scored(s.id, Score(k, rankings, s.id));
    }
    if s in View(all) {
      var i :| 0 <= i < |all| && View(all)[i] == s;
      assert all[i] in all;
    }
  }

  /** Order and scores do not depend on the order in which the rankings are given. */
  lemma RankingsPermuted(k: nat, a: seq<seq<Hit>>, b: seq<seq<Hit>>, limit: nat)
    requires multiset(a) == multiset(b)
    ensures View(Fused(k, a, limit)) == View(Fused(k, b, limit))
  {
    forall s
      ensures s in View(Order(k, a)) <==> s in View(Order(k, b))
    {
      ViewOfOrder(k, a, s);
      ViewOfOrder(k, b, s);
      ScorePermuted(k, a, b, s.id);
    }
    OrderHolds(k, a);
    OrderHolds(k, b);
    OrderDetermined(Order(k, a), Order(k, b));
    assert |Order(k, a)| == |View(Order(k, a))| == |View(Order(k, b))| == |Order(k, b)|;
    assert View(Fused(k, a, limit)) == Take(View(Order(k, a)), limit);
    assert View(Fused(k, b, limit)) == Take(View(Order(k, b)), limit);
  }

  // ---------- Dominance ----------

  lemma EarlierSharesMore(k: nat, r: nat, s: nat)
    requires 0 < r < s
    ensures 1.0 / (k + r) as real > 1.0 / (k + s) as real > 0.0
  {
    var a, b := (k + r) as real, (k + s) as real;
    assert a < b;
    assert 1.0 / a - 1.0 / b == (b - a) / (a * b);
  }

  /** Wherever `y` occurs, `x` comes earlier. */
  ghost predicate AlwaysEarlier(rankings: seq<seq<Hit>>, x: string, y: string) {
    forall hits <- rankings :: Holds(hits, y) ==> Holds(hits, x) && RankIn(hits, x) < RankIn(hits, y)
  }

  lemma EarlierShare(k: nat, hits: seq<Hit>, x: string, y: string)
    requires Holds(hits, y) ==> Holds(hits, x) && RankIn(hits, x) < RankIn(hits, y)
    ensures var d := Dedup(Ids(hits));
            Share(k, d, x) >= Share(k, d, y) && (Holds(hits, y) ==> Share(k, d, x) > Share(k, d, y))
  {
    var d := Dedup(Ids(hits));
    ShareIsPositive(k, d, x);
    ShareIsPositive(k, d, y);
    if Holds(hits, y) {
      EarlierSharesMore(k, RankIn(hits, x), RankIn(hits, y));
    }
  }

  lemma KeysStep(rankings: seq<seq<Hit>>, y: string)
    requires rankings != []
    ensures y in Keys(rankings) <==> y in Keys(rankings[..|rankings| - 1]) || Holds(rankings[|rankings| - 1], y)
  {
    ExtendHasSame(Keys(rankings[..|rankings| - 1]), Ids(rankings[|rankings| - 1]));
    ExtendHasSame([], Ids(rankings[|rankings| - 1]));
  }

  lemma {:induction false} EarlierScoresMore(k: nat, rankings: seq<seq<Hit>>, x: string, y: string)
    requires AlwaysEarlier(rankings, x, y)
    ensures Score(k, rankings, x) >= Score(k, rankings, y)
    ensures y in Keys(rankings) ==> Score(k, rankings, x) > Score(k, rankings, y)
  {
    if rankings != [] {
      EarlierScoresMore(k, rankings[..|rankings| - 1], x, y);
      EarlierShare(k, rankings[|rankings| - 1], x, y);
      KeysStep(rankings, y);
    }
  }

  lemma DominantIsAhead(k: nat, rankings: seq<seq<Hit>>, x: string, y: string)
    requires y in Keys(rankings) && AlwaysEarlier(rankings, x, y)
    ensures x in Keys(rankings) && Ahead(Standing(k, rankings, x), Standing(k, rankings, y))
  {
    EarlierScoresMore(k, rankings, x, y);
    StandingScore(k, rankings, x);
    StandingScore(k, rankings, y);
    ScoredIffHeld(k, rankings, x);
    ScoredIffHeld(k, rankings, y);
  }

  lemma AheadIsEarlier(items: seq<Item>, i: nat, j: nat)
    requires i < |items| && j < |items| && InOrder(items) && Ahead(items[i], items[j])
    ensures i < j
  {
    AheadOrder(items[i], items[j]);
  }

  /** An item that is ahead of another in every ranking containing the other comes first: if the other
      is returned, so is it, and earlier. */
  lemma DominantComesFirst(k: nat, rankings: seq<seq<Hit>>, limit: nat, x: string, j: nat)
    requires j < |Fused(k, rankings, limit)|
    requires AlwaysEarlier(rankings, x, Fused(k, rankings, limit)[j].id)
    ensures exists i :: 0 <= i < j && Fused(k, rankings, limit)[i].id == x
  {
    var all, out := Order(k, rankings), Fused(k, rankings, limit);
    OrderHolds(k, rankings);
    assert out[j] == all[j] && all[j] in all;
    DominantIsAhead(k, rankings, x, out[j].id);
    var i :| 0 <= i < |all| && all[i] == Standing(k, rankings, x);
    AheadIsEarlier(all, i, j);
    assert out[i] == all[i];
  }
}
