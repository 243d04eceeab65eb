/**
 Reciprocal rank fusion of several rankings, over the reals.

 The fusing methods update a dictionary of merged items hit by hit; `Standing` says what one item
 becomes and `Fused` what is returned. A hit's identity is the text of its `chunk_id`, or of its `id`
 when that key is absent.
 */
module RankFusion {
  import opened Collections
  import opened Wrappers

  datatype Field = Absent | Null | Given(text: string)

  /** `given`: the channel's own score, `raw_score` or else `score`. */
  datatype Hit = Hit(chunkId: Field, id: Field, payload: string, given: Option<real>)

  /** `hit.get("chunk_id", hit.get("id"))`: a null `chunk_id` hides the `id`. */
  function IdField(h: Hit): Field {
    if h.chunkId.Absent? then h.id else h.chunkId
  }

  predicate Named(h: Hit) {
    IdField(h).Given?
  }

  function Name(h: Hit): string {
    if Named(h) then IdField(h).text else ""
  }

  function Ids(hits: seq<Hit>): (ids: seq<string>)
    ensures |ids| == |hits|
  {
    if hits == [] then [] else Ids(hits[..|hits| - 1]) + [Name(hits[|hits| - 1])]
  }

  // ---------- Ranks and scores ----------

  /** `known` followed by the new ones among `ids`, each once, in order. */
  function Extend(known: seq<string>, ids: seq<string>): seq<string> {
    if ids == [] then known
    else
      var d := Extend(known, ids[..|ids| - 1]);
      if ids[|ids| - 1] in d then d else d + [ids[|ids| - 1]]
  }

  /** First occurrences, in order. */
  function Dedup(ids: seq<string>): seq<string> {
    Extend([], ids)
  }

  function IndexOf(d: seq<string>, x: string): (i: nat)
    requires x in d
    ensures i < |d| && d[i] == x && x !in d[..i]
  {
    if d[0] == x then 0 else
      var i := IndexOf(d[1..], x) + 1;
      assert d[..i] == [d[0]] + d[1..][..i - 1];
      i
  }

  /** 1 / (k + rank), for the rank of an item among the distinct items of a ranking, from one. */
  function Share(k: nat, d: seq<string>, x: string): real {
    if x in d then 1.0 / (k + IndexOf(d, x) + 1) as real else 0.0
  }

  /** The sum of the shares over the rankings that hold the item. */
  function Score(k: nat, rankings: seq<seq<Hit>>, x: string): real {
    if rankings == [] then 0.0
    else Score(k, rankings[..|rankings| - 1], x) + Share(k, Dedup(Ids(rankings[|rankings| - 1])), x)
  }

  lemma {:induction false} ExtendHasSame(known: seq<string>, ids: seq<string>)
    ensures forall x :: x in Extend(known, ids) <==> x in known || x in ids
  {
    if ids != [] {
      ExtendHasSame(known, ids[..|ids| - 1]);
      assert ids == ids[..|ids| - 1] + [ids[|ids| - 1]];
    }
  }

  lemma {:induction false} ExtendDistinct(known: seq<string>, ids: seq<string>)
    requires Distinct(known)
    ensures Distinct(Extend(known, ids))
  {
    if ids != [] {
      ExtendDistinct(known, ids[..|ids| - 1]);
    }
  }

  lemma {:induction false} IndexOfLast(d: seq<string>, y: string)
    requires y !in d
    ensures IndexOf(d + [y], y) == |d|
  {
    if d != [] {
      assert (d + [y])[1..] == d[1..] + [y];
      IndexOfLast(d[1..], y);
    }
  }

  lemma {:induction false} IndexKept(d: seq<string>, y: string, x: string)
    requires x in d
    ensures IndexOf(d + [y], x) == IndexOf(d, x)
  {
    if d[0] != x {
      assert (d + [y])[1..] == d[1..] + [y];
      IndexKept(d[1..], y, x);
    }
  }

  lemma ExtendAppend(known: seq<string>, ids: seq<string>, y: string)
    ensures Extend(known, ids + [y]) == if y in Extend(known, ids) then Extend(known, ids) else Extend(known, ids) + [y]
  {
    assert (ids + [y])[..|ids|] == ids;
  }

  lemma IdsAppend(hits: seq<Hit>, h: Hit)
    ensures Ids(hits + [h]) == Ids(hits) + [Name(h)]
  {
    assert (hits + [h])[..|hits|] == hits;
  }

  // ---------- The merged dictionary ----------

  /** `ranks` maps the number of a ranking to the item's rank there; `channels` lists those numbers. */
  datatype Item = Item(id: string, payload: string, score: real, channels: seq<nat>, ranks: map<nat, nat>)

  function Credited(item: Item, k: nat, channel: nat, rank: nat): Item
    requires rank > 0
  {
    Item(item.id, item.payload, item.score + 1.0 / (k + rank) as real, item.channels + [channel], item.ranks[channel := rank])
  }

  function CreditedFor(item: Item, k: nat, channel: nat, d: seq<string>): Item {
    if item.id in d then Credited(item, k, channel, IndexOf(d, item.id) + 1) else item
  }

  /** The content of the first hit with this identity. */
  function FirstPayload(hits: seq<Hit>, x: string): string {
    if hits == [] then ""
    else if Name(hits[0]) == x then hits[0].payload
    else FirstPayload(hits[1..], x)
  }

  /** An item that has not been merged yet takes its content from its first hit. */
  function Started(item: Item, hits: seq<Hit>): Item {
    if item.channels == [] then item.(payload := FirstPayload(hits, item.id)) else item
  }

  /** What an item says after these rankings. */
  function Standing(k: nat, rankings: seq<seq<Hit>>, x: string): (item: Item)
    ensures item.id == x
  {
    if rankings == [] then Item(x, "", 0.0, [], map[])
    else
      var hits := rankings[|rankings| - 1];
      CreditedFor(Started(Standing(k, rankings[..|rankings| - 1], x), hits), k, |rankings| - 1, Dedup(Ids(hits)))
  }

  /** Distinct items of the rankings in the order in which they were first seen. */
  function Keys(rankings: seq<seq<Hit>>): seq<string> {
    if rankings == [] then [] else Extend(Keys(rankings[..|rankings| - 1]), Ids(rankings[|rankings| - 1]))
  }

  datatype Table = Table(keys: seq<string>, items: map<string, Item>)

  ghost predicate Consistent(t: Table) {
    forall x :: x in t.items <==> x in t.keys
  }

  function Before(t: Table, x: string): Item {
    if x in t.items then t.items[x] else Item(x, "", 0.0, [], map[])
  }

  /** Every merged item has been credited by some ranking. */
  ghost predicate AllCredited(t: Table) {
    forall x <- t.items :: t.items[x].id == x && t.items[x].channels != []
  }

  /** `t` is `t0` with part of a ranking merged in, `d` being the distinct items of that part. */
  ghost predicate MergedPart(k: nat, channel: nat, t0: Table, part: seq<Hit>, d: seq<string>, t: Table) {
    && Consistent(t)
    && t.keys == Extend(t0.keys, Ids(part))
    && d == Dedup(Ids(part))
    && (forall x <- t.keys :: t.items[x] == CreditedFor(Started(Before(t0, x), part), k, channel, d))
  }

  lemma {:induction false} FirstPayloadAppend(hits: seq<Hit>, h: Hit, x: string)
    ensures FirstPayload(hits + [h], x)
            == if x in Ids(hits) then FirstPayload(hits, x) else if Name(h) == x then h.payload else ""
    ensures x !in Ids(hits) ==> FirstPayload(hits, x) == ""
  {
    if hits == [] {
      assert (hits + [h])[1..] == [];
    } else {
      assert (hits + [h])[1..] == hits[1..] + [h];
      IdsCons(hits);
      FirstPayloadAppend(hits[1..], h, x);
    }
  }

  lemma {:induction false} IdsCons(hits: seq<Hit>)
    requires hits != []
    ensures Ids(hits) == [Name(hits[0])] + Ids(hits[1..])
    decreases |hits|
  {
    if |hits| > 1 {
      var front := hits[..|hits| - 1];
      IdsCons(front);
      assert front[1..] == hits[1..][..|hits| - 2];
    } else {
      assert hits[..0] == [] && hits[1..] == [];
    }
  }

  /** A hit whose item is not `x` leaves `x` alone. */
  lemma OtherKept(k: nat, channel: nat, base: Item, part: seq<Hit>, h: Hit, d: seq<string>)
    requires base.id != Name(h) && (base.channels != [] || base.id in Ids(part))
    ensures Started(base, part + [h]) == Started(base, part)
    ensures CreditedFor(Started(base, part), k, channel, d + [Name(h)]) == CreditedFor(Started(base, part), k, channel, d)
  {
    FirstPayloadAppend(part, h, base.id);
    if base.id in d {
      IndexKept(d, Name(h), base.id);
    }
  }

  /** A hit that is new in this ranking is credited with the next rank. */
  lemma NewCredited(k: nat, channel: nat, base: Item, part: seq<Hit>, h: Hit, d: seq<string>)
    requires base.id == Name(h) && Name(h) !in d && d == Dedup(Ids(part))
    ensures CreditedFor(Started(base, part + [h]), k, channel, d + [Name(h)])
            == Credited(if base.channels == [] then base.(payload := h.payload) else base, k, channel, |d| + 1)
  {
    ExtendHasSame([], Ids(part));
    FirstPayloadAppend(part, h, base.id);
    IndexOfLast(d, Name(h));
  }

  /** The table and the distinct items after one more hit. */
  function AfterHit(k: nat, channel: nat, t: Table, d: seq<string>, h: Hit): Table {
    var y := Name(h);
    if y in d then t
    else
      var item := if y in t.items then t.items[y] else Item(y, h.payload, 0.0, [], map[]);
      Table(if y in t.items then t.keys else t.keys + [y], t.items[y := Credited(item, k, channel, |d| + 1)])
  }

  lemma RepeatMerged(k: nat, channel: nat, t0: Table, part: seq<Hit>, d: seq<string>, t: Table, h: Hit)
    requires MergedPart(k, channel, t0, part, d, t) && Name(h) in d && Consistent(t0) && AllCredited(t0)
    ensures MergedPart(k, channel, t0, part + [h], d, t)
  {
    IdsAppend(part, h);
    ExtendAppend(t0.keys, Ids(part), Name(h));
    ExtendAppend([], Ids(part), Name(h));
    ExtendHasSame([], Ids(part));
    ExtendHasSame(t0.keys, Ids(part));
    forall x | x in t.keys
      ensures Started(Before(t0, x), part + [h]) == Started(Before(t0, x), part)
    {
      FirstPayloadAppend(part, h, x);
    }
  }

  /** A key is an old item or occurs in this ranking. */
  lemma KeyIsOldOrHere(k: nat, channel: nat, t0: Table, part: seq<Hit>, d: seq<string>, t: Table, x: string)
    requires MergedPart(k, channel, t0, part, d, t) && Consistent(t0) && AllCredited(t0)
    ensures x in t.items <==> x in t0.items || x in Ids(part)
    ensures x in d <==> x in Ids(part)
    ensures x in t.items ==> Before(t0, x).channels != [] || x in Ids(part)
    ensures Before(t0, x).id == x && (Before(t0, x).channels == [] <==> x !in t0.items)
  {
    ExtendHasSame([], Ids(part));
    ExtendHasSame(t0.keys, Ids(part));
  }

  /** The item about to be credited. */
  lemma ItemSoFar(k: nat, channel: nat, t0: Table, part: seq<Hit>, d: seq<string>, t: Table, h: Hit)
    requires MergedPart(k, channel, t0, part, d, t) && Name(h) !in d && Consistent(t0) && AllCredited(t0)
    ensures var y, base := Name(h), Before(t0, Name(h));
            (if y in t.items then t.items[y] else Item(y, h.payload, 0.0, [], map[]))
            == if base.channels == [] then base.(payload := h.payload) else base
  {
    KeyIsOldOrHere(k, channel, t0, part, d, t, Name(h));
  }

  lemma KeysExtended(t0: Table, part: seq<Hit>, d: seq<string>, t: Table, h: Hit)
    requires t.keys == Extend(t0.keys, Ids(part)) && d == Dedup(Ids(part)) && Consistent(t)
    ensures Extend(t0.keys, Ids(part + [h])) == if Name(h) in t.items then t.keys else t.keys + [Name(h)]
    ensures Dedup(Ids(part + [h])) == if Name(h) in d then d else d + [Name(h)]
  {
    IdsAppend(part, h);
    ExtendAppend(t0.keys, Ids(part), Name(h));
    ExtendAppend([], Ids(part), Name(h));
  }

  lemma OtherMerged(k: nat, channel: nat, t0: Table, part: seq<Hit>, d: seq<string>, t: Table, h: Hit, x: string)
    requires MergedPart(k, channel, t0, part, d, t) && Name(h) !in d && Consistent(t0) && AllCredited(t0)
    requires x in t.items && x != Name(h)
    ensures AfterHit(k, channel, t, d, h).items[x] == CreditedFor(Started(Before(t0, x), part + [h]), k, channel, d + [Name(h)])
  {
    KeyIsOldOrHere(k, channel, t0, part, d, t, x);
    OtherKept(k, channel, Before(t0, x), part, h, d);
  }

  lemma OwnMerged(k: nat, channel: nat, t0: Table, part: seq<Hit>, d: seq<string>, t: Table, h: Hit)
    requires MergedPart(k, channel, t0, part, d, t) && Name(h) !in d && Consistent(t0) && AllCredited(t0)
    ensures AfterHit(k, channel, t, d, h).items[Name(h)]
            == CreditedFor(Started(Before(t0, Name(h)), part + [h]), k, channel, d + [Name(h)])
  {
    KeyIsOldOrHere(k, channel, t0, part, d, t, Name(h));
    ItemSoFar(k, channel, t0, part, d, t, h);
    NewCredited(k, channel, Before(t0, Name(h)), part, h, d);
  }

  lemma NewMerged(k: nat, channel: nat, t0: Table, part: seq<Hit>, d: seq<string>, t: Table, h: Hit)
    requires MergedPart(k, channel, t0, part, d, t) && Name(h) !in d && Consistent(t0) && AllCredited(t0)
    ensures MergedPart(k, channel, t0, part + [h], d + [Name(h)], AfterHit(k, channel, t, d, h))
  {
    var y := Name(h);
    var after := AfterHit(k, channel, t, d, h);
    KeysExtended(t0, part, d, t, h);
    OwnMerged(k, channel, t0, part, d, t, h);
    forall x | x in after.keys
      ensures after.items[x] == CreditedFor(Started(Before(t0, x), part + [h]), k, channel, d + [y])
    {
      if x != y {
        OtherMerged(k, channel, t0, part, d, t, h, x);
      }
    }
  }

  predicate AllNamed(hits: seq<Hit>) {
    forall h <- hits :: Named(h)
  }

  /** Merge one more ranking; false if a hit has no identity. */
  method MergeRanking(k: nat, hits: seq<Hit>, channel: nat, t0: Table) returns (ok: bool, t: Table)
    requires Consistent(t0) && AllCredited(t0)
    ensures ok <==> AllNamed(hits)
    ensures ok ==> MergedPart(k, channel, t0, hits, Dedup(Ids(hits)), t)
  {
    t := t0;
    var seen: set<string> := {};
    var rank := 0;
    ghost var d: seq<string> := [];
    StartsMerged(k, channel, t0);
    for i := 0 to |hits|
      invariant AllNamed(hits[..i])
      invariant MergedPart(k, channel, t0, hits[..i], d, t)
      invariant forall x :: x in seen <==> x in d
      invariant rank == |d|
    {
      var hit := hits[i];
      if !Named(hit) {
        return false, t;
      }
      var y := Name(hit);
      assert hits[..i + 1] == hits[..i] + [hit];
      if y in seen {
        RepeatMerged(k, channel, t0, hits[..i], d, t, hit);
        continue;
      }
      NewMerged(k, channel, t0, hits[..i], d, t, hit);
      seen := seen + {y};
      rank := rank + 1;
      var item := if y in t.items then t.items[y] else Item(y, hit.payload, 0.0, [], map[]);
      t := Table(if y in t.items then t.keys else t.keys + [y], t.items[y := Credited(item, k, channel, rank)]);
      d := d + [y];
    }
    assert hits[..|hits|] == hits;
    ok := true;
  }

  lemma StartsMerged(k: nat, channel: nat, t0: Table)
    requires Consistent(t0) && AllCredited(t0)
    ensures MergedPart(k, channel, t0, [], [], t0)
  {
  }

  /** The table after whole rankings. */
  ghost predicate MergedAll(k: nat, rankings: seq<seq<Hit>>, t: Table) {
    && t.keys == Keys(rankings)
    && Consistent(t) && AllCredited(t)
    && (forall x <- t.keys :: t.items[x] == Standing(k, rankings, x))
    && (forall x :: x !in t.keys ==> Standing(k, rankings, x).(payload := "") == Item(x, "", 0.0, [], map[]))
  }

  lemma RankingMerged(k: nat, done: seq<seq<Hit>>, hits: seq<Hit>, t0: Table, t: Table)
    requires MergedAll(k, done, t0) && MergedPart(k, |done|, t0, hits, Dedup(Ids(hits)), t)
    ensures MergedAll(k, done + [hits], t)
  {
    var d := Dedup(Ids(hits));
    assert (done + [hits])[..|done|] == done;
    forall x: string
      ensures x in t.keys ==> t.items[x] == Standing(k, done + [hits], x) && t.items[x].channels != []
      ensures x !in t.keys ==> Standing(k, done + [hits], x).(payload := "") == Item(x, "", 0.0, [], map[])
    {
      KeyIsOldOrHere(k, |done|, t0, hits, d, t, x);
    }
  }

  // ---------- Ordering ----------

  /** Strings by code points. */
  predicate LexLess(a: string, b: string) {
    b != [] && (a == [] || a[0] < b[0] || (a[0] == b[0] && LexLess(a[1..], b[1..])))
  }

  /** Higher score first, equal scores by identity. */
  predicate Ahead(a: Item, b: Item) {
    a.score > b.score || (a.score == b.score && LexLess(a.id, b.id))
  }

  function Insert(item: Item, items: seq<Item>): seq<Item> {
    if items == [] || Ahead(item, items[0]) then [item] + items else [items[0]] + Insert(item, items[1..])
  }

  function SortItems(items: seq<Item>): seq<Item> {
    if items == [] then [] else Insert(items[0], SortItems(items[1..]))
  }

  function Values(t: Table): seq<Item>
    requires forall x <- t.keys :: x in t.items
  {
    seq(|t.keys|, i requires 0 <= i < |t.keys| => t.items[t.keys[i]])
  }

  function Standings(k: nat, rankings: seq<seq<Hit>>): (items: seq<Item>)
    ensures |items| == |Keys(rankings)|
    ensures forall i :: 0 <= i < |items| ==> items[i].id == Keys(rankings)[i]
  {
    var keys := Keys(rankings);
    seq(|keys|, i requires 0 <= i < |keys| => Standing(k, rankings, keys[i]))
  }

  function Take<T>(items: seq<T>, limit: nat): seq<T> {
    if |items| <= limit then items else items[..limit]
  }

  /** The fused ranking. */
  function Fused(k: nat, rankings: seq<seq<Hit>>, limit: nat): seq<Item> {
    Take(SortItems(Standings(k, rankings)), limit)
  }

  // ---------- The fusing methods ----------

  datatype Problem = NegativeK | MissingId(channel: nat)

  datatype Ranked = Ranked(rank: nat, item: Item)

  function Numbered(items: seq<Item>): seq<Ranked> {
    seq(|items|, i requires 0 <= i < |items| => Ranked(i + 1, items[i]))
  }

  /** The first ranking with a hit that has no identity, or the number of rankings. */
  function FirstUnnamed(rankings: seq<seq<Hit>>): (c: nat)
    ensures c <= |rankings|
    ensures forall i :: 0 <= i < c ==> AllNamed(rankings[i])
    ensures c < |rankings| ==> !AllNamed(rankings[c])
  {
    if rankings == [] || !AllNamed(rankings[0]) then 0
    else
      var c := FirstUnnamed(rankings[1..]) + 1;
      assert forall i :: 1 <= i < c ==> rankings[i] == rankings[1..][i - 1];
      c
  }

  function Fusion(k: int, rankings: seq<seq<Hit>>, limit: int): Result<seq<Ranked>, Problem> {
    if k < 0 then Err(NegativeK)
    else if limit <= 0 then Ok([])
    else if FirstUnnamed(rankings) < |rankings| then Err(MissingId(FirstUnnamed(rankings)))
    else Ok(Numbered(Fused(k, rankings, limit)))
  }

  lemma FirstUnnamedAt(rankings: seq<seq<Hit>>, c: nat)
    requires c < |rankings| && !AllNamed(rankings[c]) && forall i :: 0 <= i < c ==> AllNamed(rankings[i])
    ensures FirstUnnamed(rankings) == c
  {
  }

  /** The table after the first c rankings. Quantified so that it is unfolded only where it is named. */
  ghost predicate MergedFirst(k: nat, rankings: seq<seq<Hit>>, c: nat, t: Table) {
    forall n: nat :: n == c <= |rankings| ==> MergedAll(k, rankings[..n], t)
  }

  lemma NextMerged(k: nat, rankings: seq<seq<Hit>>, c: nat, t0: Table, t: Table)
    requires c < |rankings| && MergedFirst(k, rankings, c, t0)
    requires MergedPart(k, c, t0, rankings[c], Dedup(Ids(rankings[c])), t)
    ensures MergedFirst(k, rankings, c + 1, t)
  {
    assert MergedAll(k, rankings[..c], t0);
    assert rankings[..c + 1] == rankings[..c] + [rankings[c]];
    RankingMerged(k, rankings[..c], rankings[c], t0, t);
  }

  lemma FirstMayMerge(k: nat, rankings: seq<seq<Hit>>, c: nat, t: Table)
    requires c <= |rankings| && MergedFirst(k, rankings, c, t)
    ensures Consistent(t) && AllCredited(t)
    ensures c == |rankings| ==> MergedAll(k, rankings, t)
  {
    assert MergedAll(k, rankings[..c], t);
    assert c == |rankings| ==> rankings[..c] == rankings;
  }

  lemma MergedNone(k: nat, rankings: seq<seq<Hit>>)
    ensures MergedFirst(k, rankings, 0, Table([], map[]))
  {
    assert MergedAll(k, [], Table([], map[]));
  }

  /** Merge all rankings into one table. */
  method MergeRankings(k: nat, rankings: seq<seq<Hit>>) returns (failed: Option<nat>, t: Table)
    ensures failed.Some? ==> failed.value == FirstUnnamed(rankings) < |rankings|
    ensures failed.None? ==> FirstUnnamed(rankings) == |rankings| && MergedAll(k, rankings, t)
  {
    t := Table([], map[]);
    MergedNone(k, rankings);
    for c := 0 to |rankings|
      invariant forall i :: 0 <= i < c ==> AllNamed(rankings[i])
      invariant MergedFirst(k, rankings, c, t)
    {
      FirstMayMerge(k, rankings, c, t);
      var ok, next := MergeRanking(k, rankings[c], c, t);
      if !ok {
        FirstUnnamedAt(rankings, c);
        return Some(c), t;
      }
      NextMerged(k, rankings, c, t, next);
      t := next;
    }
    FirstMayMerge(k, rankings, |rankings|, t);
    failed := None;
  }

  method NumberItems(items: seq<Item>) returns (out: seq<Ranked>)
    ensures out == Numbered(items)
  {
    out := [];
    for i := 0 to |items|
      invariant out == Numbered(items)[..i]
    {
      out := out + [Ranked(i + 1, items[i])];
    }
  }

  method FuseRankings(rankings: seq<seq<Hit>>, k: int, limit: int) returns (r: Result<seq<Ranked>, Problem>)
    ensures r == Fusion(k, rankings, limit)
  {
    if k < 0 {
      return Err(NegativeK);
    }
    if limit <= 0 {
      return Ok([]);
    }
    var failed, t := MergeRankings(k, rankings);
    if failed.Some? {
      return Err(MissingId(failed.value));
    }
    assert Values(t) == Standings(k, rankings);
    var ranked := Take(SortItems(Values(t)), limit);
    var out := NumberItems(ranked);
    return Ok(out);
  }

  // ---------- Two channels ----------

  datatype Channel = Dense | Keyword

  datatype TwoItem = TwoItem(
    id: string,
    payload: string,
    score: real,
    denseRank: Option<nat>,
    denseScore: Option<real>,
    keywordRank: Option<nat>,
    keywordScore: Option<real>,
    channels: seq<Channel>
  )

  datatype TwoTable = TwoTable(keys: seq<string>, items: map<string, TwoItem>)

  datatype RankedTwo = RankedTwo(rank: nat, item: TwoItem)

  /** The channel's own score of an item: that of its first hit there. */
  function FirstGiven(hits: seq<Hit>, x: string): Option<real> {
    if hits == [] then None
    else if Name(hits[0]) == x then hits[0].given
    else FirstGiven(hits[1..], x)
  }

  function ChannelNames(channels: seq<nat>): seq<Channel> {
    seq(|channels|, i requires 0 <= i < |channels| => if channels[i] == 0 then Dense else Keyword)
  }

  function RankAt(item: Item, channel: nat): Option<nat> {
    if channel in item.ranks then Some(item.ranks[channel]) else None
  }

  /** A merged item of the general form, seen as one of the form with two channels. */
  function AsTwo(item: Item, dense: seq<Hit>, keyword: seq<Hit>): TwoItem {
    TwoItem(item.id, item.payload, item.score, RankAt(item, 0), FirstGiven(dense, item.id),
            RankAt(item, 1), FirstGiven(keyword, item.id), ChannelNames(item.channels))
  }

  function AsTwos(items: seq<Item>, dense: seq<Hit>, keyword: seq<Hit>): (twos: seq<TwoItem>)
    ensures |twos| == |items|
    ensures forall i :: 0 <= i < |items| ==> twos[i] == AsTwo(items[i], dense, keyword)
  {
    if items == [] then [] else [AsTwo(items[0], dense, keyword)] + AsTwos(items[1..], dense, keyword)
  }

  function NumberedTwos(items: seq<TwoItem>): seq<RankedTwo> {
    seq(|items|, i requires 0 <= i < |items| => RankedTwo(i + 1, items[i]))
  }

  function ItemsOf(ranked: seq<Ranked>): seq<Item> {
    seq(|ranked|, i requires 0 <= i < |ranked| => ranked[i].item)
  }

  /** What the general form says of the two rankings, with each item's rank and own score per channel. */
  function FusionOfTwo(k: int, dense: seq<Hit>, keyword: seq<Hit>, limit: int): Result<seq<RankedTwo>, Problem> {
    match Fusion(k, [dense, keyword], limit)
    case Err(e) => Err(e)
    case Ok(ranked) => Ok(NumberedTwos(AsTwos(ItemsOf(ranked), dense, keyword)))
  }

  function Number(channel: Channel): nat {
    if channel == Dense then 0 else 1
  }

  function CreditedIn(item: TwoItem, k: nat, channel: Channel, rank: nat, given: Option<real>): TwoItem
    requires rank > 0
  {
    var i := item.(score := item.score + 1.0 / (k + rank) as real, channels := item.channels + [channel]);
    match channel
    case Dense => i.(denseRank := Some(rank), denseScore := given)
    case Keyword => i.(keywordRank := Some(rank), keywordScore := given)
  }

  /** The hits of each channel that have been merged, when `part` of this channel has been. */
  function DensePart(channel: Channel, part: seq<Hit>, earlier: seq<Hit>): seq<Hit> {
    if channel == Dense then part else earlier
  }

  function KeywordPart(channel: Channel, part: seq<Hit>): seq<Hit> {
    if channel == Dense then [] else part
  }

  /** `t` shows the items of `g`. */
  ghost predicate Mirrors(t: TwoTable, g: Table, dense: seq<Hit>, keyword: seq<Hit>) {
    && t.keys == g.keys && t.items.Keys == g.items.Keys
    && forall x <- g.items :: t.items[x] == AsTwo(g.items[x], dense, keyword)
  }

  lemma {:induction false} FirstGivenAppend(hits: seq<Hit>, h: Hit, x: string)
    ensures FirstGiven(hits + [h], x)
            == if x in Ids(hits) then FirstGiven(hits, x) else if Name(h) == x then h.given else None
    ensures x !in Ids(hits) ==> FirstGiven(hits, x) == None
  {
    if hits == [] {
      assert (hits + [h])[1..] == [];
    } else {
      assert (hits + [h])[1..] == hits[1..] + [h];
      IdsCons(hits);
      FirstGivenAppend(hits[1..], h, x);
    }
  }

  /** Crediting an item in the general form shows as crediting it in its channel. */
  lemma CreditShows(item: Item, k: nat, channel: Channel, rank: nat, part: seq<Hit>, earlier: seq<Hit>, h: Hit)
    requires rank > 0 && item.id == Name(h) && Name(h) !in Ids(part)
    ensures AsTwo(Credited(item, k, Number(channel), rank), DensePart(channel, part + [h], earlier), KeywordPart(channel, part + [h]))
            == CreditedIn(AsTwo(item, DensePart(channel, part, earlier), KeywordPart(channel, part)), k, channel, rank, h.given)
  {
    FirstGivenAppend(part, h, item.id);
    assert ChannelNames(item.channels + [Number(channel)]) == ChannelNames(item.channels) + [channel];
  }

  /** Other items show the same after one more hit. */
  lemma OtherShows(item: Item, channel: Channel, part: seq<Hit>, earlier: seq<Hit>, h: Hit)
    requires item.id != Name(h) || Name(h) in Ids(part)
    ensures AsTwo(item, DensePart(channel, part + [h], earlier), KeywordPart(channel, part + [h]))
            == AsTwo(item, DensePart(channel, part, earlier), KeywordPart(channel, part))
  {
    FirstGivenAppend(part, h, item.id);
  }

  /** An item that has not been merged yet shows nothing. */
  lemma FreshShows(x: string, payload: string, dense: seq<Hit>, keyword: seq<Hit>)
    requires x !in Ids(dense) && x !in Ids(keyword)
    ensures AsTwo(Item(x, payload, 0.0, [], map[]), dense, keyword) == TwoItem(x, payload, 0.0, None, None, None, None, [])
  {
    FirstGivenAppend(dense, Hit(Absent, Absent, "", None), x);
    FirstGivenAppend(keyword, Hit(Absent, Absent, "", None), x);
  }

  function TwoAfterHit(k: nat, channel: Channel, t: TwoTable, rank: nat, h: Hit): TwoTable
    requires rank > 0
  {
    var y := Name(h);
    var item := if y in t.items then t.items[y] else TwoItem(y, h.payload, 0.0, None, None, None, None, []);
    TwoTable(if y in t.items then t.keys else t.keys + [y], t.items[y := CreditedIn(item, k, channel, rank, h.given)])
  }

  lemma CreditMirrored(k: nat, channel: Channel, g: Table, d: seq<string>, part: seq<Hit>, earlier: seq<Hit>, h: Hit, t: TwoTable)
    requires Name(h) !in d && Name(h) !in Ids(part) && forall x <- g.items :: g.items[x].id == x
    requires Name(h) !in g.items ==> Name(h) !in Ids(earlier)
    requires Mirrors(t, g, DensePart(channel, part, earlier), KeywordPart(channel, part))
    ensures TwoAfterHit(k, channel, t, |d| + 1, h).items[Name(h)]
            == AsTwo(AfterHit(k, Number(channel), g, d, h).items[Name(h)],
                     DensePart(channel, part + [h], earlier), KeywordPart(channel, part + [h]))
  {
    var y := Name(h);
    if y in g.items {
      CreditShows(g.items[y], k, channel, |d| + 1, part, earlier, h);
    } else {
      FreshShows(y, h.payload, DensePart(channel, part, earlier), KeywordPart(channel, part));
      CreditShows(Item(y, h.payload, 0.0, [], map[]), k, channel, |d| + 1, part, earlier, h);
    }
  }

  lemma HitMirrored(k: nat, channel: Channel, g: Table, d: seq<string>, part: seq<Hit>, earlier: seq<Hit>, h: Hit, t: TwoTable)
    requires Name(h) !in d && Name(h) !in Ids(part) && forall x <- g.items :: g.items[x].id == x
    requires Name(h) !in g.items ==> Name(h) !in Ids(earlier)
    requires Mirrors(t, g, DensePart(channel, part, earlier), KeywordPart(channel, part))
    ensures Mirrors(TwoAfterHit(k, channel, t, |d| + 1, h), AfterHit(k, Number(channel), g, d, h),
                    DensePart(channel, part + [h], earlier), KeywordPart(channel, part + [h]))
  {
    CreditMirrored(k, channel, g, d, part, earlier, h, t);
    forall x | x in g.items && x != Name(h)
      ensures AsTwo(g.items[x], DensePart(channel, part + [h], earlier), KeywordPart(channel, part + [h])) == t.items[x]
    {
      OtherShows(g.items[x], channel, part, earlier, h);
    }
  }

  lemma RepeatMirrored(channel: Channel, g: Table, part: seq<Hit>, earlier: seq<Hit>, h: Hit, t: TwoTable)
    requires Name(h) in Ids(part) && Mirrors(t, g, DensePart(channel, part, earlier), KeywordPart(channel, part))
    ensures Mirrors(t, g, DensePart(channel, part + [h], earlier), KeywordPart(channel, part + [h]))
  {
    forall x | x in g.items
      ensures AsTwo(g.items[x], DensePart(channel, part + [h], earlier), KeywordPart(channel, part + [h])) == t.items[x]
    {
      OtherShows(g.items[x], channel, part, earlier, h);
    }
  }

  /** What a table merged so far says of an item. */
  lemma MergedItem(k: nat, channel: nat, t0: Table, part: seq<Hit>, d: seq<string>, t: Table, x: string)
    requires MergedPart(k, channel, t0, part, d, t) && Consistent(t0) && AllCredited(t0)
    ensures x in d <==> x in Ids(part)
    ensures x in t0.items ==> x in t.items
    ensures x in t.items ==> t.items[x].id == x
  {
    KeyIsOldOrHere(k, channel, t0, part, d, t, x);
  }

  /** Part of a channel is merged into `t`, and into `g` in the general form. */
  ghost predicate Merging(k: nat, channel: Channel, g0: Table, earlier: seq<Hit>, part: seq<Hit>, d: seq<string>,
                          t: TwoTable, g: Table) {
    && Consistent(g0) && AllCredited(g0) && (forall x :: x in Ids(earlier) ==> x in g0.items)
    && MergedPart(k, Number(channel), g0, part, d, g)
    && Mirrors(t, g, DensePart(channel, part, earlier), KeywordPart(channel, part))
  }

  lemma MergingRepeat(k: nat, channel: Channel, g0: Table, earlier: seq<Hit>, part: seq<Hit>, d: seq<string>,
                      t: TwoTable, g: Table, h: Hit)
    requires Merging(k, channel, g0, earlier, part, d, t, g) && Name(h) in d
    ensures Merging(k, channel, g0, earlier, part + [h], d, t, g)
  {
    MergedItem(k, Number(channel), g0, part, d, g, Name(h));
    RepeatMerged(k, Number(channel), g0, part, d, g, h);
    RepeatMirrored(channel, g, part, earlier, h, t);
  }

  lemma MergingNew(k: nat, channel: Channel, g0: Table, earlier: seq<Hit>, part: seq<Hit>, d: seq<string>,
                   t: TwoTable, g: Table, h: Hit)
    requires Merging(k, channel, g0, earlier, part, d, t, g) && Name(h) !in d
    ensures Merging(k, channel, g0, earlier, part + [h], d + [Name(h)],
                    TwoAfterHit(k, channel, t, |d| + 1, h), AfterHit(k, Number(channel), g, d, h))
  {
    MergedItem(k, Number(channel), g0, part, d, g, Name(h));
    NewMerged(k, Number(channel), g0, part, d, g, h);
    AllNamedItems(k, Number(channel), g0, part, d, g);
    HitMirrored(k, channel, g, d, part, earlier, h, t);
  }

  /** The first i hits of a channel are merged. Quantified so that it is unfolded only where it is named. */
  ghost predicate MergingFirst(k: nat, channel: Channel, g0: Table, earlier: seq<Hit>, hits: seq<Hit>, i: nat, d: seq<string>,
                               t: TwoTable, g: Table) {
    forall n: nat :: n == i <= |hits| ==> Merging(k, channel, g0, earlier, hits[..n], d, t, g)
  }

  lemma MergingHit(k: nat, channel: Channel, g0: Table, earlier: seq<Hit>, hits: seq<Hit>, i: nat, d: seq<string>,
                   t: TwoTable, g: Table)
    requires i < |hits| && MergingFirst(k, channel, g0, earlier, hits, i, d, t, g)
    ensures var h := hits[i];
            if Name(h) in d then MergingFirst(k, channel, g0, earlier, hits, i + 1, d, t, g)
            else MergingFirst(k, channel, g0, earlier, hits, i + 1, d + [Name(h)],
                              TwoAfterHit(k, channel, t, |d| + 1, h), AfterHit(k, Number(channel), g, d, h))
  {
    assert Merging(k, channel, g0, earlier, hits[..i], d, t, g);
    assert hits[..i + 1] == hits[..i] + [hits[i]];
    if Name(hits[i]) in d {
      MergingRepeat(k, channel, g0, earlier, hits[..i], d, t, g, hits[i]);
    } else {
      MergingNew(k, channel, g0, earlier, hits[..i], d, t, g, hits[i]);
    }
  }

  lemma MergingAll(k: nat, channel: Channel, g0: Table, earlier: seq<Hit>, hits: seq<Hit>, d: seq<string>, t: TwoTable, g: Table)
    requires MergingFirst(k, channel, g0, earlier, hits, |hits|, d, t, g)
    ensures MergedPart(k, Number(channel), g0, hits, Dedup(Ids(hits)), g)
    ensures Mirrors(t, g, DensePart(channel, hits, earlier), KeywordPart(channel, hits))
  {
    assert hits[..|hits|] == hits;
    assert Merging(k, channel, g0, earlier, hits[..|hits|], d, t, g);
  }

  lemma MergingStarts(k: nat, channel: Channel, g0: Table, earlier: seq<Hit>, hits: seq<Hit>, t0: TwoTable)
    requires Consistent(g0) && AllCredited(g0) && forall x :: x in Ids(earlier) ==> x in g0.items
    requires Mirrors(t0, g0, DensePart(channel, [], earlier), KeywordPart(channel, []))
    ensures MergingFirst(k, channel, g0, earlier, hits, 0, [], t0, g0)
  {
    StartsMerged(k, Number(channel), g0);
    assert Merging(k, channel, g0, earlier, [], [], t0, g0);
  }

  /** Merge one channel; false if a hit has no identity. `g` is the table of the general form. */
  method MergeChannel(k: nat, channel: Channel, hits: seq<Hit>, t0: TwoTable, ghost g0: Table, ghost earlier: seq<Hit>)
    returns (ok: bool, t: TwoTable, ghost g: Table)
    requires Consistent(g0) && AllCredited(g0) && forall x :: x in Ids(earlier) ==> x in g0.items
    requires Mirrors(t0, g0, DensePart(channel, [], earlier), KeywordPart(channel, []))
    ensures ok <==> AllNamed(hits)
    ensures ok ==> MergedPart(k, Number(channel), g0, hits, Dedup(Ids(hits)), g)
    ensures ok ==> Mirrors(t, g, DensePart(channel, hits, earlier), KeywordPart(channel, hits))
  {
    t, g := t0, g0;
    var seen: set<string> := {};
    var rank := 0;
    ghost var d: seq<string> := [];
    MergingStarts(k, channel, g0, earlier, hits, t0);
    for i := 0 to |hits|
      invariant forall j :: 0 <= j < i ==> Named(hits[j])
      invariant MergingFirst(k, channel, g0, earlier, hits, i, d, t, g)
      invariant forall x :: x in seen <==> x in d
      invariant rank == |d|
    {
      var hit := hits[i];
      if !Named(hit) {
        return false, t, g;
      }
      var y := Name(hit);
      MergingHit(k, channel, g0, earlier, hits, i, d, t, g);
      if y in seen {
        continue;
      }
      seen := seen + {y};
      rank := rank + 1;
      var item := if y in t.items then t.items[y] else TwoItem(y, hit.payload, 0.0, None, None, None, None, []);
      t := TwoTable(if y in t.items then t.keys else t.keys + [y],
                    t.items[y := CreditedIn(item, k, channel, rank, hit.given)]);
      g := AfterHit(k, Number(channel), g, d, hit);
      d := d + [y];
    }
    MergingAll(k, channel, g0, earlier, hits, d, t, g);
    ok := true;
  }

  lemma AllNamedItems(k: nat, channel: nat, t0: Table, part: seq<Hit>, d: seq<string>, t: Table)
    requires MergedPart(k, channel, t0, part, d, t) && Consistent(t0) && AllCredited(t0)
    ensures forall x <- t.items :: t.items[x].id == x
  {
    forall x | x in t.items
      ensures t.items[x].id == x
    {
      MergedItem(k, channel, t0, part, d, t, x);
    }
  }

  predicate AheadTwo(a: TwoItem, b: TwoItem) {
    a.score > b.score || (a.score == b.score && LexLess(a.id, b.id))
  }

  function InsertTwo(item: TwoItem, items: seq<TwoItem>): seq<TwoItem> {
    if items == [] || AheadTwo(item, items[0]) then [item] + items else [items[0]] + InsertTwo(item, items[1..])
  }

  function SortTwos(items: seq<TwoItem>): seq<TwoItem> {
    if items == [] then [] else InsertTwo(items[0], SortTwos(items[1..]))
  }

  lemma {:induction false} InsertShows(item: Item, items: seq<Item>, dense: seq<Hit>, keyword: seq<Hit>)
    ensures AsTwos(Insert(item, items), dense, keyword) == InsertTwo(AsTwo(item, dense, keyword), AsTwos(items, dense, keyword))
  {
    if items != [] && !Ahead(item, items[0]) {
      InsertShows(item, items[1..], dense, keyword);
      assert ([items[0]] + Insert(item, items[1..]))[1..] == Insert(item, items[1..]);
    } else {
      assert ([item] + items)[1..] == items;
    }
  }

  /** Sorting does not look at what the two forms show differently. */
  lemma {:induction false} SortShows(items: seq<Item>, dense: seq<Hit>, keyword: seq<Hit>)
    ensures AsTwos(SortItems(items), dense, keyword) == SortTwos(AsTwos(items, dense, keyword))
  {
    if items != [] {
      SortShows(items[1..], dense, keyword);
      InsertShows(items[0], SortItems(items[1..]), dense, keyword);
    }
  }

  function TwoValues(t: TwoTable): seq<TwoItem>
    requires forall x <- t.keys :: x in t.items
  {
    seq(|t.keys|, i requires 0 <= i < |t.keys| => t.items[t.keys[i]])
  }

  lemma ValuesShow(t: TwoTable, g: Table, dense: seq<Hit>, keyword: seq<Hit>)
    requires Consistent(g) && Mirrors(t, g, dense, keyword)
    ensures forall x <- t.keys :: x in t.items
    ensures TwoValues(t) == AsTwos(Values(g), dense, keyword)
  {
  }

  lemma TakeShows(items: seq<Item>, limit: nat, dense: seq<Hit>, keyword: seq<Hit>)
    ensures AsTwos(ItemsOf(Numbered(Take(items, limit))), dense, keyword) == Take(AsTwos(items, dense, keyword), limit)
  {
    assert ItemsOf(Numbered(Take(items, limit))) == Take(items, limit);
  }

  const EMPTY := Table([], map[])

  lemma FirstMerged(k: nat, dense: seq<Hit>, g: Table)
    requires MergedPart(k, 0, EMPTY, dense, Dedup(Ids(dense)), g)
    ensures MergedAll(k, [dense], g) && forall x :: x in Ids(dense) ==> x in g.items
  {
    assert [] + [dense] == [dense];
    RankingMerged(k, [], dense, EMPTY, g);
    ExtendHasSame([], Ids(dense));
  }

  lemma SecondMerged(k: nat, dense: seq<Hit>, keyword: seq<Hit>, g1: Table, g: Table)
    requires MergedAll(k, [dense], g1) && MergedPart(k, 1, g1, keyword, Dedup(Ids(keyword)), g)
    ensures MergedAll(k, [dense, keyword], g)
  {
    assert [dense] + [keyword] == [dense, keyword];
    RankingMerged(k, [dense], keyword, g1, g);
  }

  lemma FirstUnnamedOfTwo(dense: seq<Hit>, keyword: seq<Hit>)
    ensures FirstUnnamed([dense, keyword]) == if !AllNamed(dense) then 0 else if !AllNamed(keyword) then 1 else 2
  {
    var both := [dense, keyword];
    assert both[0] == dense && both[1] == keyword;
    if !AllNamed(dense) {
      FirstUnnamedAt(both, 0);
    } else if !AllNamed(keyword) {
      FirstUnnamedAt(both, 1);
    }
  }

  /** The merged table of the two channels. */
  method MergeChannels(k: nat, dense: seq<Hit>, keyword: seq<Hit>) returns (failed: Option<nat>, t: TwoTable, ghost g: Table)
    ensures failed.Some? ==> failed.value == FirstUnnamed([dense, keyword]) < 2
    ensures failed.None? ==> FirstUnnamed([dense, keyword]) == 2 && MergedAll(k, [dense, keyword], g) && Mirrors(t, g, dense, keyword)
  {
    FirstUnnamedOfTwo(dense, keyword);
    var ok;
    t, g := TwoTable([], map[]), EMPTY;
    ok, t, g := MergeChannel(k, Dense, dense, t, g, []);
    if !ok {
      return Some(0), t, g;
    }
    FirstMerged(k, dense, g);
    ghost var g1 := g;
    ok, t, g := MergeChannel(k, Keyword, keyword, t, g, dense);
    if !ok {
      return Some(1), t, g;
    }
    SecondMerged(k, dense, keyword, g1, g);
    failed := None;
  }

  lemma FusedFromTable(k: nat, dense: seq<Hit>, keyword: seq<Hit>, limit: nat, t: TwoTable, g: Table)
    requires limit > 0 && FirstUnnamed([dense, keyword]) == 2
    requires MergedAll(k, [dense, keyword], g) && Mirrors(t, g, dense, keyword)
    ensures forall x <- t.keys :: x in t.items
    ensures FusionOfTwo(k, dense, keyword, limit) == Ok(NumberedTwos(Take(SortTwos(TwoValues(t)), limit)))
  {
    assert Values(g) == Standings(k, [dense, keyword]);
    ValuesShow(t, g, dense, keyword);
    SortShows(Values(g), dense, keyword);
    TakeShows(SortItems(Values(g)), limit, dense, keyword);
  }

  method NumberTwos(items: seq<TwoItem>) returns (out: seq<RankedTwo>)
    ensures out == NumberedTwos(items)
  {
    out := [];
    for i := 0 to |items|
      invariant out == NumberedTwos(items)[..i]
    {
      out := out + [RankedTwo(i + 1, items[i])];
    }
  }

  /** The form with a vector channel and a keyword channel, which merges into a table of its own, fuses
      exactly as the general form fuses the two rankings, and gives each item's rank and own score in
      each channel. */
  method FuseChannels(dense: seq<Hit>, keyword: seq<Hit>, k: int, limit: int) returns (r: Result<seq<RankedTwo>, Problem>)
    ensures r == FusionOfTwo(k, dense, keyword, limit)
  {
    if k < 0 {
      return Err(NegativeK);
    }
    if limit <= 0 {
      assert NumberedTwos(AsTwos(ItemsOf([]), dense, keyword)) == [];
      return Ok([]);
    }
    var failed, t, g := MergeChannels(k, dense, keyword);
    if failed.Some? {
      return Err(MissingId(failed.value));
    }
    FusedFromTable(k, dense, keyword, limit, t, g);
    var out := NumberTwos(Take(SortTwos(TwoValues(t)), limit));
    return Ok(out);
  }
}
