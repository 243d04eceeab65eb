/**
 Splitting source text into parts within a token and a character limit.

 Unicode normalisation (form NFKC of UAX #15) is an arbitrary expansion of each character;
 the character predicates are arbitrary too, except that no space is alphanumeric. Tokens are
 then CJK characters, maximal words, and single symbols.
 */
module TokenSplitter {
  import opened Collections
  import opened Wrappers

  datatype Tables = Tables(nfkc: char -> string, isSpace: char -> bool, isAlnum: char -> bool)

  ghost predicate SpacesAreNotWords(t: Tables) {
    forall c: char :: t.isSpace(c) ==> !t.isAlnum(c) && c != '_'
  }

  type Lexicon = t: Tables | SpacesAreNotWords(t)
    witness Tables((c: char) => [c], (c: char) => c == ' ', (c: char) => false)

  predicate IsCjk(c: char) {
    var cp := c as int;
    0x3400 <= cp <= 0x4DBF || 0x4E00 <= cp <= 0x9FFF || 0xF900 <= cp <= 0xFAFF || 0x20000 <= cp <= 0x2EBEF
    || 0x30000 <= cp <= 0x323AF
  }

  // ---------- Counting tokens ----------

  datatype CharClass = Space | Cjk | WordChar | Symbol

  function Classify(lex: Lexicon, c: char): CharClass {
    if lex.isSpace(c) then Space
    else if IsCjk(c) then Cjk
    else if lex.isAlnum(c) || c == '_' then WordChar
    else Symbol
  }

  function Normalize(lex: Lexicon, text: string): string {
    if text == [] then [] else lex.nfkc(text[0]) + Normalize(lex, text[1..])
  }

  /** The cost of one character, given whether the previous one was in a word. */
  function Charge(k: CharClass, inWord: bool): nat {
    match k
    case Space => 0
    case WordChar => if inWord then 0 else 1
    case _ => 1
  }

  /** Tokens of an already normalised text that follows a word character or not. */
  function Count(lex: Lexicon, s: string, inWord: bool): nat {
    if s == [] then 0
    else Charge(Classify(lex, s[0]), inWord) + Count(lex, s[1..], Classify(lex, s[0]).WordChar?)
  }

  function Estimate(lex: Lexicon, text: string): nat {
    Count(lex, Normalize(lex, text), false)
  }

  method EstimateTokens(lex: Lexicon, text: string) returns (tokens: nat)
    ensures tokens == Estimate(lex, text)
  {
    var normalized := Normalize(lex, text);
    tokens := 0;
    var inWord := false;
    for i := 0 to |normalized|
      invariant tokens + Count(lex, normalized[i..], inWord) == Estimate(lex, text)
    {
      var character := normalized[i];
      assert normalized[i..][1..] == normalized[i + 1..];
      if lex.isSpace(character) {
        inWord := false;
      } else if IsCjk(character) {
        tokens := tokens + 1;
        inWord := false;
      } else if lex.isAlnum(character) || character == '_' {
        if !inWord {
          tokens := tokens + 1;
          inWord := true;
        }
      } else {
        tokens := tokens + 1;
        inWord := false;
      }
    }
  }

  lemma {:induction false} NormalizeConcat(lex: Lexicon, a: string, b: string)
    ensures Normalize(lex, a + b) == Normalize(lex, a) + Normalize(lex, b)
  {
    if a == [] {
      assert a + b == b;
    } else {
      assert (a + b)[1..] == a[1..] + b;
      NormalizeConcat(lex, a[1..], b);
    }
  }

  predicate EndsInWord(lex: Lexicon, s: string, inWord: bool) {
    if s == [] then inWord else Classify(lex, s[|s| - 1]).WordChar?
  }

  lemma {:induction false} CountConcat(lex: Lexicon, a: string, b: string, inWord: bool)
    ensures Count(lex, a + b, inWord) == Count(lex, a, inWord) + Count(lex, b, EndsInWord(lex, a, inWord))
  {
    if a == [] {
      assert a + b == b;
    } else {
      assert (a + b)[1..] == a[1..] + b;
      CountConcat(lex, a[1..], b, Classify(lex, a[0]).WordChar?);
    }
  }

  /** Following a word can only save the one token of a continued word. */
  lemma ContinuingSavesAtMostOne(lex: Lexicon, s: string)
    ensures Count(lex, s, true) <= Count(lex, s, false) <= Count(lex, s, true) + 1
  {
  }

  /** The token measure is subadditive: joining texts never costs more than the pieces. */
  lemma EstimateSubadditive(lex: Lexicon, a: string, b: string)
    ensures Estimate(lex, a + b) <= Estimate(lex, a) + Estimate(lex, b)
  {
    NormalizeConcat(lex, a, b);
    CountConcat(lex, Normalize(lex, a), Normalize(lex, b), false);
    ContinuingSavesAtMostOne(lex, Normalize(lex, b));
  }

  // ---------- Lexical units ----------

  datatype Kind = Whitespace | Word | Other

  function KindOf(lex: Lexicon, c: char): Kind {
    var n := lex.nfkc(c);
    if n != [] && forall x <- n :: lex.isSpace(x) then Whitespace
    else if n != [] && forall x <- n :: (lex.isAlnum(x) || x == '_') && !IsCjk(x) then Word
    else Other
  }

  predicate AllOfKind(lex: Lexicon, s: string, k: Kind) {
    forall i :: 0 <= i < |s| ==> KindOf(lex, s[i]) == k
  }

  /** Length of the longest prefix of characters of kind k. */
  function RunLength(lex: Lexicon, s: string, k: Kind): (n: nat)
    ensures n <= |s| && AllOfKind(lex, s[..n], k)
    ensures n < |s| ==> KindOf(lex, s[n]) != k
  {
    if s == [] || KindOf(lex, s[0]) != k then 0
    else
      var n := RunLength(lex, s[1..], k) + 1;
      assert s[..n] == [s[0]] + s[1..][..n - 1];
      n
  }

  function FirstUnitLength(lex: Lexicon, s: string): (n: nat)
    requires s != []
    ensures 1 <= n <= |s|
  {
    if KindOf(lex, s[0]).Other? then 1
    else
      assert RunLength(lex, s, KindOf(lex, s[0])) >= 1;
      RunLength(lex, s, KindOf(lex, s[0]))
  }

  /** Maximal runs of word or of whitespace characters; every other character on its own. */
  function Units(lex: Lexicon, s: string): seq<string> {
    if s == [] then []
    else
      var n := FirstUnitLength(lex, s);
      [s[..n]] + Units(lex, s[n..])
  }

  lemma {:induction false} RunLengthOfRun(lex: Lexicon, run: string, rest: string, k: Kind)
    requires AllOfKind(lex, run, k) && (rest == [] || KindOf(lex, rest[0]) != k)
    ensures RunLength(lex, run + rest, k) == |run|
  {
    if run == [] {
      assert run + rest == rest;
    } else {
      assert (run + rest)[1..] == run[1..] + rest;
      RunLengthOfRun(lex, run[1..], rest, k);
    }
  }

  /** A finished run is the first unit. */
  lemma EmitPending(lex: Lexicon, pending: string, rest: string, k: Kind)
    requires pending != [] && !k.Other? && AllOfKind(lex, pending, k)
    requires rest == [] || KindOf(lex, rest[0]) != k
    ensures Units(lex, pending + rest) == [pending] + Units(lex, rest)
  {
    RunLengthOfRun(lex, pending, rest, k);
    assert (pending + rest)[0] == pending[0];
    assert (pending + rest)[..|pending|] == pending && (pending + rest)[|pending|..] == rest;
  }

  /** The lexer's state spells out the same units as the whole text. */
  ghost predicate Lexing(lex: Lexicon, text: string, names: seq<string>, pending: string, kind: Kind, rest: string) {
    && names + Units(lex, pending + rest) == Units(lex, text)
    && (pending == [] <==> kind.Other?)
    && AllOfKind(lex, pending, kind)
  }

  lemma LexingEmits(lex: Lexicon, text: string, names: seq<string>, pending: string, kind: Kind, rest: string)
    requires Lexing(lex, text, names, pending, kind, rest) && pending != []
    requires rest == [] || KindOf(lex, rest[0]) != kind
    ensures Lexing(lex, text, names + [pending], [], Other, rest)
  {
    EmitPending(lex, pending, rest, kind);
    assert [] + rest == rest;
    Associate(names, [pending], Units(lex, rest));
  }

  lemma LexingExtends(lex: Lexicon, text: string, names: seq<string>, pending: string, kind: Kind, rest: string)
    requires rest != [] && Lexing(lex, text, names, pending, kind, rest)
    requires !KindOf(lex, rest[0]).Other? && (pending == [] || KindOf(lex, rest[0]) == kind)
    ensures Lexing(lex, text, names, pending + [rest[0]], KindOf(lex, rest[0]), rest[1..])
  {
    assert (pending + [rest[0]]) + rest[1..] == pending + rest;
  }

  lemma LexingSingle(lex: Lexicon, text: string, names: seq<string>, rest: string)
    requires rest != [] && Lexing(lex, text, names, [], Other, rest) && KindOf(lex, rest[0]).Other?
    ensures Lexing(lex, text, names + [[rest[0]]], [], Other, rest[1..])
  {
    assert [] + rest == rest && [] + rest[1..] == rest[1..] && rest[..1] == [rest[0]];
    Associate(names, [[rest[0]]], Units(lex, rest[1..]));
  }

  ghost function Names(units: seq<(string, nat)>): seq<string> {
    seq(|units|, i requires 0 <= i < |units| => units[i].0)
  }

  ghost predicate Priced(lex: Lexicon, units: seq<(string, nat)>) {
    forall i :: 0 <= i < |units| ==> units[i].1 == Estimate(lex, units[i].0)
  }

  method EmitUnit(lex: Lexicon, units: seq<(string, nat)>, unit: string) returns (more: seq<(string, nat)>)
    requires Priced(lex, units)
    ensures Names(more) == Names(units) + [unit] && Priced(lex, more)
  {
    var cost := EstimateTokens(lex, unit);
    more := units + [(unit, cost)];
  }

  method SourceUnits(lex: Lexicon, text: string) returns (units: seq<(string, nat)>)
    ensures Names(units) == Units(lex, text) && Priced(lex, units)
  {
    units := [];
    var pending: string := [];
    var pendingKind := Other;
    assert [] + text[0..] == text;
    for i := 0 to |text|
      invariant Lexing(lex, text, Names(units), pending, pendingKind, text[i..]) && Priced(lex, units)
    {
      var character := text[i];
      var kind := KindOf(lex, character);
      assert text[i..][1..] == text[i + 1..];
      if kind.Other? || kind != pendingKind {
        if pending != [] {
          LexingEmits(lex, text, Names(units), pending, pendingKind, text[i..]);
          units := EmitUnit(lex, units, pending);
          pending, pendingKind := [], Other;
        }
      }
      if kind.Other? {
        LexingSingle(lex, text, Names(units), text[i..]);
        units := EmitUnit(lex, units, [character]);
      } else {
        LexingExtends(lex, text, Names(units), pending, pendingKind, text[i..]);
        pending, pendingKind := pending + [character], kind;
      }
    }
    if pending != [] {
      LexingEmits(lex, text, Names(units), pending, pendingKind, []);
      units := EmitUnit(lex, units, pending);
    }
    assert Names(units) + [] == Names(units);
  }

  function Join(parts: seq<string>): string {
    if parts == [] then [] else parts[0] + Join(parts[1..])
  }

  lemma {:induction false} JoinConcat(a: seq<string>, b: seq<string>)
    ensures Join(a + b) == Join(a) + Join(b)
  {
    if a == [] {
      assert a + b == b;
    } else {
      assert (a + b)[1..] == a[1..] + b;
      JoinConcat(a[1..], b);
    }
  }

  /** No character is lost or moved by the lexer. */
  lemma {:induction false} UnitsLossless(lex: Lexicon, s: string)
    ensures Join(Units(lex, s)) == s
  {
    if s != [] {
      var n := FirstUnitLength(lex, s);
      UnitsLossless(lex, s[n..]);
      assert Units(lex, s)[1..] == Units(lex, s[n..]);
      assert s == s[..n] + s[n..];
    }
  }

  /** A unit is never empty, and a unit of several characters is a run of one cheap kind. */
  predicate UnitShape(lex: Lexicon, u: string) {
    u != [] && (|u| == 1 || AllOfKind(lex, u, Word) || AllOfKind(lex, u, Whitespace))
  }

  lemma {:induction false} UnitsShape(lex: Lexicon, s: string)
    ensures forall u <- Units(lex, s) :: UnitShape(lex, u)
  {
    if s != [] {
      var n := FirstUnitLength(lex, s);
      UnitsShape(lex, s[n..]);
      assert UnitShape(lex, s[..n]) by {
        if n > 1 {
          var k := KindOf(lex, s[0]);
          assert AllOfKind(lex, s[..n], k) && !k.Other?;
        }
      }
    }
  }

  // ---------- Cost of a run ----------

  lemma {:induction false} CountOfSpaces(lex: Lexicon, s: string, inWord: bool)
    requires forall x <- s :: lex.isSpace(x)
    ensures Count(lex, s, inWord) == 0
  {
    if s != [] {
      CountOfSpaces(lex, s[1..], false);
    }
  }

  lemma {:induction false} CountOfWord(lex: Lexicon, s: string, inWord: bool)
    requires forall x <- s :: (lex.isAlnum(x) || x == '_') && !IsCjk(x)
    ensures Count(lex, s, inWord) == if s == [] || inWord then 0 else 1
  {
    if s != [] {
      assert Classify(lex, s[0]).WordChar?;
      CountOfWord(lex, s[1..], true);
    }
  }

  lemma {:induction false} NormalizedRun(lex: Lexicon, s: string)
    ensures AllOfKind(lex, s, Whitespace) ==> forall x <- Normalize(lex, s) :: lex.isSpace(x)
    ensures AllOfKind(lex, s, Word) ==>
              (s != [] ==> Normalize(lex, s) != [])
              && forall x <- Normalize(lex, s) :: (lex.isAlnum(x) || x == '_') && !IsCjk(x)
  {
    if s != [] {
      NormalizedRun(lex, s[1..]);
      assert KindOf(lex, s[0]) == KindOf(lex, s[0]);
    }
  }

  /** A run of whitespace is free and a run of word characters costs one token, however long it is. */
  lemma RunCost(lex: Lexicon, s: string)
    ensures AllOfKind(lex, s, Whitespace) ==> Estimate(lex, s) == 0
    ensures AllOfKind(lex, s, Word) ==> Estimate(lex, s) == if s == [] then 0 else 1
  {
    NormalizedRun(lex, s);
    if AllOfKind(lex, s, Whitespace) {
      CountOfSpaces(lex, Normalize(lex, s), false);
    }
    if AllOfKind(lex, s, Word) {
      CountOfWord(lex, Normalize(lex, s), false);
    }
  }

  // ---------- Packing ----------

  datatype Limits = Limits(tokens: int, chars: int)

  datatype SplitError = BadLimit | IndivisibleUnit

  function Cost(lex: Lexicon, run: seq<string>): nat {
    if run == [] then 0 else Estimate(lex, run[0]) + Cost(lex, run[1..])
  }

  function Length(run: seq<string>): nat {
    if run == [] then 0 else |run[0]| + Length(run[1..])
  }

  lemma {:induction false} CostConcat(lex: Lexicon, a: seq<string>, b: seq<string>)
    ensures Cost(lex, a + b) == Cost(lex, a) + Cost(lex, b)
    ensures Length(a + b) == Length(a) + Length(b)
  {
    if a == [] {
      assert a + b == b;
    } else {
      assert (a + b)[1..] == a[1..] + b;
      CostConcat(lex, a[1..], b);
    }
  }

  /** A run of units within both budgets, measured unit by unit. */
  predicate Fits(lex: Lexicon, lim: Limits, run: seq<string>) {
    Cost(lex, run) <= lim.tokens && Length(run) <= lim.chars
  }

  function Flush(run: seq<string>): seq<string> {
    if run == [] then [] else [Join(run)]
  }

  function Slices(u: string, size: int): seq<string>
    requires size > 0
  {
    if u == [] then [] else if |u| <= size then [u] else [u[..size]] + Slices(u[size..], size)
  }

  /** The greedy packing: `current` is the run being filled. */
  function Pack(lex: Lexicon, lim: Limits, units: seq<string>, current: seq<string>): Result<seq<string>, SplitError>
    requires lim.tokens > 0 && lim.chars > 0
    decreases |units|
  {
    if units == [] then Ok(Flush(current))
    else
      var u, rest := units[0], units[1..];
      if |u| > lim.chars then Prepend(Flush(current) + Slices(u, lim.chars), Pack(lex, lim, rest, []))
      else if Estimate(lex, u) > lim.tokens then Err(IndivisibleUnit)
      else if current == [] || Fits(lex, lim, current + [u]) then Pack(lex, lim, rest, current + [u])
      else Prepend(Flush(current), Pack(lex, lim, rest, [u]))
  }

  function Prepend(parts: seq<string>, r: Result<seq<string>, SplitError>): Result<seq<string>, SplitError> {
    match r
    case Ok(more) => Ok(parts + more)
    case Err(e) => Err(e)
  }

  function SplitSpec(lex: Lexicon, text: string, lim: Limits): Result<seq<string>, SplitError> {
    if lim.tokens <= 0 || lim.chars <= 0 then Err(BadLimit) else Pack(lex, lim, Units(lex, text), [])
  }

  lemma JoinSnoc(run: seq<string>, u: string)
    ensures Join(run + [u]) == Join(run) + u
  {
    JoinConcat(run, [u]);
  }

  method SliceUnit(parts: seq<string>, unit: string, size: int) returns (more: seq<string>)
    requires size > 0
    ensures more == parts + Slices(unit, size)
  {
    more := parts;
    var start := 0;
    while start < |unit|
      invariant 0 <= start
      invariant more + (if start < |unit| then Slices(unit[start..], size) else []) == parts + Slices(unit, size)
    {
      var stop := if start + size < |unit| then start + size else |unit|;
      ghost var rest := if stop < |unit| then Slices(unit[stop..], size) else [];
      assert unit[start..][..stop - start] == unit[start..stop] && unit[start..][stop - start..] == unit[stop..];
      assert stop == |unit| ==> unit[start..] == unit[start..stop];
      assert Slices(unit[start..], size) == [unit[start..stop]] + rest;
      Associate(more, [unit[start..stop]], rest);
      more := more + [unit[start..stop]];
      start := start + size;
    }
  }

  lemma PrependTwice(a: seq<string>, b: seq<string>, r: Result<seq<string>, SplitError>)
    ensures Prepend(a, Prepend(b, r)) == Prepend(a + b, r)
  {
    if r.Ok? {
      Associate(a, b, r.value);
    }
  }

  lemma PrependNothing(r: Result<seq<string>, SplitError>)
    ensures Prepend([], r) == r
  {
    if r.Ok? {
      assert [] + r.value == r.value;
    }
  }

  method Split(lex: Lexicon, text: string, lim: Limits) returns (r: Result<seq<string>, SplitError>)
    ensures r == SplitSpec(lex, text, lim)
  {
    if lim.tokens <= 0 || lim.chars <= 0 {
      return Err(BadLimit);
    }
    if text == [] {
      return Ok([]);
    }
    var units := SourceUnits(lex, text);
    ghost var names := Names(units);
    var parts: seq<string> := [];
    var current: seq<string> := [];
    var currentTokens, currentChars := 0, 0;
    assert names[0..] == names;
    PrependNothing(Pack(lex, lim, names, []));
    for i := 0 to |units|
      invariant currentTokens == Cost(lex, current) && currentChars == Length(current)
      invariant Prepend(parts, Pack(lex, lim, names[i..], current)) == SplitSpec(lex, text, lim)
    {
      var (unit, unitTokens) := units[i];
      ghost var rest := names[i + 1..];
      Tail(names, i);
      CostConcat(lex, current, [unit]);
      var exceeds := current != [] && (currentTokens + unitTokens > lim.tokens || currentChars + |unit| > lim.chars);
      if |unit| > lim.chars {
        PrependTwice(parts, Flush(current) + Slices(unit, lim.chars), Pack(lex, lim, rest, []));
        Associate(parts, Flush(current), Slices(unit, lim.chars));
        parts := parts + Flush(current);
        current, currentTokens, currentChars := [], 0, 0;
        parts := SliceUnit(parts, unit, lim.chars);
      } else if unitTokens > lim.tokens {
        return Err(IndivisibleUnit);
      } else if exceeds {
        PrependTwice(parts, Flush(current), Pack(lex, lim, rest, [unit]));
        parts := parts + Flush(current);
        current, currentTokens, currentChars := [unit], unitTokens, |unit|;
      } else {
        current := current + [unit];
        currentTokens := currentTokens + unitTokens;
        currentChars := currentChars + |unit|;
      }
    }
    parts := parts + Flush(current);
    return Ok(parts);
  }

  // ---------- Lossless and bounded ----------

  lemma {:induction false} SlicesLossless(u: string, size: int)
    requires size > 0
    ensures Join(Slices(u, size)) == u
  {
    if |u| > size {
      SlicesLossless(u[size..], size);
      assert Slices(u, size)[1..] == Slices(u[size..], size);
      assert u == u[..size] + u[size..];
    }
  }

  lemma {:induction false} PackLossless(lex: Lexicon, lim: Limits, units: seq<string>, current: seq<string>)
    requires lim.tokens > 0 && lim.chars > 0 && Pack(lex, lim, units, current).Ok?
    ensures Join(Pack(lex, lim, units, current).value) == Join(current) + Join(units)
    decreases |units|
  {
    if units != [] {
      var u, rest := units[0], units[1..];
      Associate(Join(current), u, Join(rest));
      if |u| > lim.chars {
        PackLossless(lex, lim, rest, []);
        FlushAndSliceJoin(current, u, lim.chars);
        JoinedAfter(Flush(current) + Slices(u, lim.chars), Pack(lex, lim, rest, []).value, Join(current) + u, Join(rest));
      } else if current == [] || Fits(lex, lim, current + [u]) {
        PackLossless(lex, lim, rest, current + [u]);
        JoinSnoc(current, u);
      } else {
        PackLossless(lex, lim, rest, [u]);
        JoinSnoc([], u);
        JoinedAfter(Flush(current), Pack(lex, lim, rest, [u]).value, Join(current), u + Join(rest));
      }
    }
  }

  lemma FlushAndSliceJoin(current: seq<string>, u: string, size: int)
    requires size > 0
    ensures Join(Flush(current) + Slices(u, size)) == Join(current) + u
  {
    SlicesLossless(u, size);
    JoinConcat(Flush(current), Slices(u, size));
  }

  lemma JoinedAfter(a: seq<string>, b: seq<string>, x: string, y: string)
    requires Join(a) == x && Join(b) == y
    ensures Join(a + b) == x + y
  {
    JoinConcat(a, b);
  }

  /** What every part of an accepted text satisfies. */
  predicate PartOk(lex: Lexicon, lim: Limits, part: string) {
    0 < |part| <= lim.chars && Estimate(lex, part) <= lim.tokens
  }

  /** The estimate of a joined run is at most the sum over its units. */
  lemma {:induction false} JoinWithinCost(lex: Lexicon, run: seq<string>)
    ensures Estimate(lex, Join(run)) <= Cost(lex, run) && |Join(run)| == Length(run)
  {
    if run != [] {
      JoinWithinCost(lex, run[1..]);
      EstimateSubadditive(lex, run[0], Join(run[1..]));
    }
  }

  lemma {:induction false} SlicesOk(lex: Lexicon, lim: Limits, u: string)
    requires lim.tokens > 0 && lim.chars > 0 && (AllOfKind(lex, u, Word) || AllOfKind(lex, u, Whitespace))
    ensures forall part <- Slices(u, lim.chars) :: PartOk(lex, lim, part)
  {
    if |u| > lim.chars {
      RunCost(lex, u[..lim.chars]);
      SlicesOk(lex, lim, u[lim.chars..]);
    } else {
      RunCost(lex, u);
    }
  }

  lemma {:induction false} PackBounded(lex: Lexicon, lim: Limits, units: seq<string>, current: seq<string>)
    requires lim.tokens > 0 && lim.chars > 0 && Pack(lex, lim, units, current).Ok?
    requires forall u <- units :: UnitShape(lex, u)
    requires current != [] ==> Fits(lex, lim, current) && Length(current) > 0
    ensures forall part <- Pack(lex, lim, units, current).value :: PartOk(lex, lim, part)
    decreases |units|
  {
    JoinWithinCost(lex, current);
    if units != [] {
      var u, rest := units[0], units[1..];
      assert UnitShape(lex, u);
      if |u| > lim.chars {
        SlicesOk(lex, lim, u);
        PackBounded(lex, lim, rest, []);
      } else if current == [] || Fits(lex, lim, current + [u]) {
        CostConcat(lex, current, [u]);
        PackBounded(lex, lim, rest, current + [u]);
      } else {
        PackBounded(lex, lim, rest, [u]);
      }
    }
  }

  /** Splitting loses nothing and respects both limits, for every text it accepts. */
  lemma SplitLosslessAndBounded(lex: Lexicon, text: string, lim: Limits)
    requires SplitSpec(lex, text, lim).Ok?
    ensures Join(SplitSpec(lex, text, lim).value) == text
    ensures forall part <- SplitSpec(lex, text, lim).value :: PartOk(lex, lim, part)
  {
    UnitsLossless(lex, text);
    UnitsShape(lex, text);
    PackLossless(lex, lim, Units(lex, text), []);
    PackBounded(lex, lim, Units(lex, text), []);
  }

  // ---------- Exactly when it is refused ----------

  lemma {:induction false} PackRefuses(lex: Lexicon, lim: Limits, units: seq<string>, current: seq<string>)
    requires lim.tokens > 0 && lim.chars > 0
    ensures Pack(lex, lim, units, current).Err? <==>
              exists u <- units :: |u| <= lim.chars && Estimate(lex, u) > lim.tokens
    decreases |units|
  {
    if units != [] {
      var u, rest := units[0], units[1..];
      assert units == [u] + rest;
      if |u| > lim.chars {
        PackRefuses(lex, lim, rest, []);
      } else if Estimate(lex, u) <= lim.tokens {
        if current == [] || Fits(lex, lim, current + [u]) {
          PackRefuses(lex, lim, rest, current + [u]);
        } else {
          PackRefuses(lex, lim, rest, [u]);
        }
      }
    }
  }

  /** A character that is neither word nor whitespace stands alone as a unit. */
  lemma {:induction false} UnitsHoldCharacters(lex: Lexicon, s: string, c: char)
    requires KindOf(lex, c).Other?
    ensures c in s <==> [c] in Units(lex, s)
  {
    if s != [] {
      var n := FirstUnitLength(lex, s);
      UnitsHoldCharacters(lex, s[n..], c);
      assert s == s[..n] + s[n..];
      assert c in s <==> c in s[..n] || c in s[n..];
      assert c in s[..n] <==> s[..n] == [c] by {
        if !KindOf(lex, s[0]).Other? {
          assert AllOfKind(lex, s[..n], KindOf(lex, s[0]));
        }
      }
    }
  }

  /** Valid limits are refused exactly when some single character of the text costs more than the
      token limit on its own. */
  lemma RefusedIffCharacterTooCostly(lex: Lexicon, text: string, lim: Limits)
    requires lim.tokens > 0 && lim.chars > 0
    ensures SplitSpec(lex, text, lim).Err? <==> exists c <- text :: Estimate(lex, [c]) > lim.tokens
  {
    UnitsShape(lex, text);
    PackRefuses(lex, lim, Units(lex, text), []);
    if u :| u in Units(lex, text) && |u| <= lim.chars && Estimate(lex, u) > lim.tokens {
      RunCost(lex, u);
      assert UnitShape(lex, u) && |u| == 1;
      assert u == [u[0]] && KindOf(lex, u[0]).Other? by {
        assert AllOfKind(lex, u, KindOf(lex, u[0]));
      }
      UnitsHoldCharacters(lex, text, u[0]);
    }
    if c :| c in text && Estimate(lex, [c]) > lim.tokens {
      RunCost(lex, [c]);
      assert AllOfKind(lex, [c], KindOf(lex, c));
      UnitsHoldCharacters(lex, text, c);
    }
  }

  // ---------- The greedy cut is optimal ----------

  function Flatten(groups: seq<seq<string>>): seq<string> {
    if groups == [] then [] else groups[0] + Flatten(groups[1..])
  }

  /** A cut of the units into contiguous runs, each within both budgets. */
  predicate IsCut(lex: Lexicon, lim: Limits, units: seq<string>, groups: seq<seq<string>>) {
    Flatten(groups) == units && forall g <- groups :: Fits(lex, lim, g)
  }

  lemma SubrunFits(lex: Lexicon, lim: Limits, a: seq<string>, b: seq<string>)
    requires Fits(lex, lim, a + b)
    ensures Fits(lex, lim, a) && Fits(lex, lim, b)
  {
    CostConcat(lex, a, b);
  }

  /** Dropping leading units turns a cut into a cut with no more runs. */
  lemma {:induction false} DropFromCut(lex: Lexicon, lim: Limits, units: seq<string>, groups: seq<seq<string>>, n: nat)
    returns (fewer: seq<seq<string>>)
    requires IsCut(lex, lim, units, groups) && n <= |units|
    ensures IsCut(lex, lim, units[n..], fewer) && |fewer| <= |groups|
    decreases groups
  {
    if n == 0 {
      fewer := groups;
      assert units[0..] == units;
    } else {
      var g, rest := groups[0], groups[1..];
      assert units == g + Flatten(rest);
      if n < |g| {
        fewer := [g[n..]] + rest;
        assert g == g[..n] + g[n..];
        SubrunFits(lex, lim, g[..n], g[n..]);
        assert fewer[1..] == rest;
        assert units[n..] == g[n..] + Flatten(rest);
      } else {
        fewer := DropFromCut(lex, lim, Flatten(rest), rest, n - |g|);
        assert units[n..] == Flatten(rest)[n - |g|..];
      }
    }
  }

  lemma {:induction false} GreedyStaysAhead(lex: Lexicon, lim: Limits, units: seq<string>, current: seq<string>,
                                            groups: seq<seq<string>>)
    requires lim.tokens > 0 && lim.chars > 0
    requires forall u <- units :: |u| <= lim.chars
    requires IsCut(lex, lim, current + units, groups)
    ensures Pack(lex, lim, units, current).Ok? ==> |Pack(lex, lim, units, current).value| <= |groups|
    decreases |units|
  {
    if units == [] {
      assert current + units == current;
    } else {
      var u, rest := units[0], units[1..];
      assert units == [u] + rest;
      if Estimate(lex, u) <= lim.tokens {
        if current == [] || Fits(lex, lim, current + [u]) {
          assert (current + [u]) + rest == current + units;
          GreedyStaysAhead(lex, lim, rest, current + [u], groups);
        } else {
          FirstRunIsShort(lex, lim, units, current, groups);
          var g := groups[0];
          var all := current + units;
          assert all == g + Flatten(groups[1..]);
          assert Flatten(groups[1..]) == all[|g|..];
          var fewer := DropFromCut(lex, lim, all[|g|..], groups[1..], |current| - |g|);
          assert all[|g|..][|current| - |g|..] == all[|current|..] == units;
          GreedyStaysAhead(lex, lim, rest, [u], fewer);
        }
      }
    }
  }

  /** If the current run cannot take the next unit, no cut's first run reaches past it. */
  lemma FirstRunIsShort(lex: Lexicon, lim: Limits, units: seq<string>, current: seq<string>, groups: seq<seq<string>>)
    requires units != [] && !Fits(lex, lim, current + [units[0]])
    requires IsCut(lex, lim, current + units, groups)
    ensures groups != [] && |groups[0]| <= |current|
  {
    var g := groups[0];
    if |g| > |current| {
      var all := current + units;
      assert all == g + Flatten(groups[1..]);
      var n := |current| + 1;
      assert g[..n] == all[..n] == current + [units[0]];
      assert g == g[..n] + g[n..];
      SubrunFits(lex, lim, g[..n], g[n..]);
    }
  }

  /** Greedy is optimal: when no unit exceeds the character limit, no cut of the source units into
      contiguous runs within both budgets has fewer runs than the split has parts. */
  lemma GreedyIsOptimal(lex: Lexicon, text: string, lim: Limits, groups: seq<seq<string>>)
    requires SplitSpec(lex, text, lim).Ok?
    requires forall u <- Units(lex, text) :: |u| <= lim.chars
    requires IsCut(lex, lim, Units(lex, text), groups)
    ensures |SplitSpec(lex, text, lim).value| <= |groups|
  {
    assert [] + Units(lex, text) == Units(lex, text);
    GreedyStaysAhead(lex, lim, Units(lex, text), [], groups);
  }

  /** And the split itself is such a cut: it packs the units, in order, into runs that fit, and its
      parts are those runs joined. */
  lemma {:induction false} PackIsACut(lex: Lexicon, lim: Limits, units: seq<string>, current: seq<string>)
    returns (groups: seq<seq<string>>)
    requires lim.tokens > 0 && lim.chars > 0 && Pack(lex, lim, units, current).Ok?
    requires forall u <- units :: |u| <= lim.chars
    requires Fits(lex, lim, current)
    ensures IsCut(lex, lim, current + units, groups)
    ensures JoinEach(groups) == Pack(lex, lim, units, current).value
    decreases |units|
  {
    if units == [] {
      groups := if current == [] then [] else [current];
      assert current + units == current;
      assert current != [] ==> groups[1..] == [];
    } else {
      var u, rest := units[0], units[1..];
      SingleFits(lex, lim, u);
      Regroup(current, units);
      if current == [] || Fits(lex, lim, current + [u]) {
        groups := PackIsACut(lex, lim, rest, current + [u]);
      } else {
        var more := PackIsACut(lex, lim, rest, [u]);
        groups := [current] + more;
        ConsCut(lex, lim, current, units, more);
      }
    }
  }

  lemma Regroup(current: seq<string>, units: seq<string>)
    requires units != []
    ensures [units[0]] + units[1..] == units && (current + [units[0]]) + units[1..] == current + units
    ensures current == [] ==> current + [units[0]] == [units[0]]
  {
  }

  lemma SingleFits(lex: Lexicon, lim: Limits, u: string)
    ensures Fits(lex, lim, [u]) <==> Estimate(lex, u) <= lim.tokens && |u| <= lim.chars
  {
    assert [u][1..] == [];
    assert Cost(lex, [u]) == Estimate(lex, u) + Cost(lex, []) && Length([u]) == |u| + Length([]);
  }

  function JoinEach(groups: seq<seq<string>>): seq<string> {
    if groups == [] then [] else [Join(groups[0])] + JoinEach(groups[1..])
  }

  lemma ConsCut(lex: Lexicon, lim: Limits, run: seq<string>, units: seq<string>, groups: seq<seq<string>>)
    requires IsCut(lex, lim, units, groups) && Fits(lex, lim, run)
    ensures IsCut(lex, lim, run + units, [run] + groups)
    ensures JoinEach([run] + groups) == [Join(run)] + JoinEach(groups)
  {
    assert ([run] + groups)[1..] == groups;
  }
}
