/**
 Validation of the model's answer to "is this retrieval enough, and what else should be searched?".

 `Python` carries the two operations that are not modelled: case folding and the text of a value
 that is not a string. Every result below holds for any choice of the two.
 */
module RagRewrite {
  import opened Collections
  import opened Whitespace
  import opened Wrappers

  datatype Json =
    | Null
    | Bool(value: bool)
    | Number(number: real)
    | NotFinite
    | Text(text: string)
    | List(items: seq<Json>)
    | Object(fields: map<string, Json>)

  datatype Python = Python(fold: string -> string, repr: Json -> string)

  /** `raw.get(key)`. */
  function Get(raw: Json, key: string): Json
    requires raw.Object?
  {
    if key in raw.fields then raw.fields[key] else Null
  }

  /** `str(value or "")`. */
  function TextOf(py: Python, v: Json): string {
    match v
    case Null => ""
    case Text(s) => s
    case Bool(b) => if b then py.repr(v) else ""
    case Number(n) => if n == 0.0 then "" else py.repr(v)
    case List(items) => if items == [] then "" else py.repr(v)
    case Object(fields) => if fields == map[] then "" else py.repr(v)
    case NotFinite => py.repr(v)
  }

  // ---------- Whitespace ----------

  /** Every maximal run of whitespace becomes one blank. */
  function Collapse(s: string): string {
    if s == [] then []
    else if !IsSpace(s[0]) then [s[0]] + Collapse(s[1..])
    else if |s| > 1 && IsSpace(s[1]) then Collapse(s[1..])
    else [' '] + Collapse(s[1..])
  }

  function Normalize(s: string): string {
    Strip(Collapse(s))
  }

  /** Whitespace only as single blanks between words. */
  ghost predicate Normal(s: string) {
    (s != [] ==> !IsSpace(s[0]) && !IsSpace(s[|s| - 1])) && SingleBlanks(s)
  }

  ghost predicate SingleBlanks(s: string) {
    forall i :: 0 <= i < |s| && IsSpace(s[i]) ==> s[i] == ' ' && (i + 1 < |s| ==> !IsSpace(s[i + 1]))
  }

  /** The words of a text, in order. */
  ghost function Words(s: string): (words: seq<string>)
    ensures s != [] && !IsSpace(s[0]) ==> words != []
  {
    if s == [] then []
    else if IsSpace(s[0]) then Words(s[1..])
    else if |s| == 1 || IsSpace(s[1]) then [[s[0]]] + Words(s[1..])
    else
      var rest := Words(s[1..]);
      [[s[0]] + rest[0]] + rest[1..]
  }

  lemma {:induction false} CollapseShape(s: string)
    ensures SingleBlanks(Collapse(s))
    ensures Collapse(s) == [] <==> s == []
    ensures s != [] ==> IsSpace(Collapse(s)[0]) == IsSpace(s[0])
  {
    if s != [] {
      CollapseShape(s[1..]);
      var rest := Collapse(s[1..]);
      assert forall c: char :: ([c] + rest)[1..] == rest;
    }
  }

  lemma {:induction false} CollapseKeepsWords(s: string)
    ensures Words(Collapse(s)) == Words(s)
  {
    if s != [] {
      CollapseKeepsWords(s[1..]);
      CollapseShape(s[1..]);
      var rest := Collapse(s[1..]);
      assert forall c: char :: ([c] + rest)[1..] == rest;
    }
  }

  lemma {:induction false} StripLeftKeepsWords(s: string)
    requires SingleBlanks(s)
    ensures SingleBlanks(StripLeft(s)) && Words(StripLeft(s)) == Words(s)
    ensures StripLeft(s) != [] ==> !IsSpace(StripLeft(s)[0])
  {
    if s != [] && IsSpace(s[0]) {
      forall i | 0 <= i < |s[1..]| && IsSpace(s[1..][i])
        ensures s[1..][i] == ' ' && (i + 1 < |s[1..]| ==> !IsSpace(s[1..][i + 1]))
      {
        assert s[1..][i] == s[i + 1];
      }
      StripLeftKeepsWords(s[1..]);
    }
  }

  lemma {:induction false} WordsBeforeBlank(s: string, blank: char)
    requires IsSpace(blank)
    ensures Words(s + [blank]) == Words(s)
  {
    if s != [] {
      assert (s + [blank])[1..] == s[1..] + [blank];
      WordsBeforeBlank(s[1..], blank);
    } else {
      assert Words([blank]) == [];
    }
  }

  lemma {:induction false} StripRightKeepsWords(s: string)
    requires SingleBlanks(s) && (s != [] ==> !IsSpace(s[0]))
    ensures Normal(StripRight(s)) && Words(StripRight(s)) == Words(s)
  {
    if s != [] && IsSpace(s[|s| - 1]) {
      var front := s[..|s| - 1];
      assert s == front + [s[|s| - 1]];
      WordsBeforeBlank(front, s[|s| - 1]);
      StripRightKeepsWords(front);
    }
  }

  /** Normalising keeps exactly the words and separates them by single blanks. */
  lemma NormalizeKeepsWords(s: string)
    ensures Normal(Normalize(s)) && Words(Normalize(s)) == Words(s)
  {
    CollapseShape(s);
    CollapseKeepsWords(s);
    StripLeftKeepsWords(Collapse(s));
    StripRightKeepsWords(StripLeft(Collapse(s)));
  }

  lemma {:induction false} CollapseOfSingle(s: string)
    requires SingleBlanks(s)
    ensures Collapse(s) == s
  {
    if s != [] {
      forall i | 0 <= i < |s[1..]| && IsSpace(s[1..][i])
        ensures s[1..][i] == ' ' && (i + 1 < |s[1..]| ==> !IsSpace(s[1..][i + 1]))
      {
        assert s[1..][i] == s[i + 1];
      }
      CollapseOfSingle(s[1..]);
      assert s == [s[0]] + s[1..];
    }
  }

  /** The normal texts are exactly the ones normalising leaves alone; so normalising twice is normalising once. */
  lemma NormalIffFixed(s: string)
    ensures Normalize(s) == s <==> Normal(s)
    ensures Normalize(Normalize(s)) == Normalize(s)
  {
    NormalizeKeepsWords(s);
    if Normal(s) {
      CollapseOfSingle(s);
    }
    CollapseOfSingle(Normalize(s));
  }

  // ---------- Candidates ----------

  datatype Candidate = Candidate(query: string, focus: string)

  predicate Contains(hay: string, needle: string) {
    if |hay| < |needle| then false else needle <= hay || (hay != [] && Contains(hay[1..], needle))
  }

  predicate ValidQuery(py: Python, query: string) {
    8 <= |query| <= 240 && query[0] != '{' && query[0] != '['
    && !Contains(py.fold(query), "\"tool_name\"") && !Contains(py.fold(query), "\"tool_arguments\"")
  }

  function CleanText(py: Python, v: Json, maximum: nat): string {
    var text := Normalize(TextOf(py, v));
    if |text| <= maximum then text else text[..maximum]
  }

  function QueryOf(py: Python, raw: Json): string
    requires raw.Object?
  {
    Normalize(TextOf(py, Get(raw, "query")))
  }

  /** A proposed item whose query is well formed and not yet used. */
  predicate Usable(py: Python, raw: Json, used: set<string>) {
    raw.Object? && ValidQuery(py, QueryOf(py, raw)) && py.fold(QueryOf(py, raw)) !in used
  }

  function Chosen(py: Python, raw: Json): Candidate
    requires raw.Object?
  {
    Candidate(QueryOf(py, raw), CleanText(py, Get(raw, "focus"), 120))
  }

  /** The first `room` usable items. */
  function Select(py: Python, items: seq<Json>, used: set<string>, room: nat): seq<Candidate> {
    if items == [] || room == 0 then []
    else if Usable(py, items[0], used) then
      [Chosen(py, items[0])] + Select(py, items[1..], used + {py.fold(QueryOf(py, items[0]))}, room - 1)
    else Select(py, items[1..], used, room)
  }

  function Limit(maxCandidates: int): (n: nat)
    ensures 1 <= n <= 3
  {
    if maxCandidates < 1 then 1 else if maxCandidates > 3 then 3 else maxCandidates
  }

  function FoldedOf(py: Python, queries: seq<string>): set<string> {
    set q <- queries | Normalize(q) != "" :: py.fold(Normalize(q))
  }

  ghost function Folds(py: Python, cs: seq<Candidate>): set<string> {
    set c <- cs :: py.fold(c.query)
  }

  datatype Problem =
    | NotAnObject
    | SufficientNotBool
    | ConfidenceNotNumber
    | ConfidenceOutOfRange
    | NotAList(field: string)
    | NoValidQuery

  function Candidates(py: Python, value: Json, original: string, previous: seq<string>, maxCandidates: int)
    : Result<seq<Candidate>, Problem>
  {
    if !value.List? then Err(NotAList("queries"))
    else Ok(Select(py, value.items, FoldedOf(py, [original] + previous), Limit(maxCandidates)))
  }

  method ValidateCandidates(py: Python, value: Json, original: string, previous: seq<string>, maxCandidates: int)
    returns (r: Result<seq<Candidate>, Problem>)
    ensures r == Candidates(py, value, original, previous, maxCandidates)
  {
    if !value.List? {
      return Err(NotAList("queries"));
    }
    var used := FoldedOf(py, [original] + previous);
    var candidates: seq<Candidate> := [];
    var limit := Limit(maxCandidates);
    ghost var all := Select(py, value.items, used, limit);
    for i := 0 to |value.items|
      invariant |candidates| < limit
      invariant all == candidates + Select(py, value.items[i..], used, limit - |candidates|)
    {
      var raw := value.items[i];
      assert value.items[i..][0] == raw && value.items[i..][1..] == value.items[i + 1..];
      if !raw.Object? {
        continue;
      }
      var query := QueryOf(py, raw);
      var focus := CleanText(py, Get(raw, "focus"), 120);
      if !ValidQuery(py, query) || py.fold(query) in used {
        continue;
      }
      used := used + {py.fold(query)};
      Associate(candidates, [Candidate(query, focus)], Select(py, value.items[i + 1..], used, limit - |candidates| - 1));
      candidates := candidates + [Candidate(query, focus)];
      if |candidates| >= limit {
        assert all == candidates + [];
        break;
      }
    }
    assert all == candidates + [];
    assert all == candidates;
    return Ok(candidates);
  }

  ghost predicate AllFresh(py: Python, cs: seq<Candidate>, used: set<string>) {
    && (forall c <- cs :: ValidQuery(py, c.query) && Normal(c.query) && py.fold(c.query) !in used)
    && (forall i, j :: 0 <= i < j < |cs| ==> py.fold(cs[i].query) != py.fold(cs[j].query))
  }

  /** The chosen queries are well formed, distinct from each other and from every query used before,
      and no more than the limit. */
  lemma {:induction false} SelectedAreFresh(py: Python, items: seq<Json>, used: set<string>, room: nat)
    ensures |Select(py, items, used, room)| <= room
    ensures AllFresh(py, Select(py, items, used, room), used)
  {
    if items != [] && room > 0 {
      if Usable(py, items[0], used) {
        NormalizeKeepsWords(TextOf(py, Get(items[0], "query")));
        SelectedAreFresh(py, items[1..], used + {py.fold(QueryOf(py, items[0]))}, room - 1);
      } else {
        SelectedAreFresh(py, items[1..], used, room);
      }
    }
  }

  /** An item spoilt by one used query stays unusable when more are used. */
  lemma UsableShrinks(py: Python, raw: Json, used: set<string>, more: set<string>)
    requires used <= more && !Usable(py, raw, used)
    ensures !Usable(py, raw, more)
  {
  }

  lemma FoldsOfCons(py: Python, c: Candidate, cs: seq<Candidate>, used: set<string>)
    ensures used + {py.fold(c.query)} + Folds(py, cs) == used + Folds(py, [c] + cs)
  {
    assert forall x <- [c] + cs :: x == c || x in cs;
    assert c in [c] + cs;
    assert forall x <- cs :: x in [c] + cs;
  }

  /** Nothing usable is passed over while there is room. */
  lemma {:induction false} NothingUsablePassedOver(py: Python, items: seq<Json>, used: set<string>, room: nat, raw: Json)
    requires |Select(py, items, used, room)| < room && raw in items
    ensures !Usable(py, raw, used + Folds(py, Select(py, items, used, room)))
  {
    var first := items[0];
    if Usable(py, first, used) {
      var key := py.fold(QueryOf(py, first));
      var rest := Select(py, items[1..], used + {key}, room - 1);
      FoldsOfCons(py, Chosen(py, first), rest, used);
      if raw != first {
        NothingUsablePassedOver(py, items[1..], used + {key}, room - 1, raw);
      }
    } else if raw == first {
      UsableShrinks(py, first, used, used + Folds(py, Select(py, items, used, room)));
    } else {
      NothingUsablePassedOver(py, items[1..], used, room, raw);
    }
  }

  /** Later items never change what was chosen from earlier ones. */
  lemma {:induction false} SelectIsIncremental(py: Python, items: seq<Json>, more: seq<Json>, used: set<string>, room: nat)
    ensures Select(py, items, used, room) <= Select(py, items + more, used, room)
  {
    if items != [] && room > 0 {
      assert (items + more)[0] == items[0] && (items + more)[1..] == items[1..] + more;
      if Usable(py, items[0], used) {
        SelectIsIncremental(py, items[1..], more, used + {py.fold(QueryOf(py, items[0]))}, room - 1);
      } else {
        SelectIsIncremental(py, items[1..], more, used, room);
      }
    }
  }

  /** No query is chosen exactly when no item is usable. */
  lemma {:induction false} NoneChosenIffNoneUsable(py: Python, items: seq<Json>, used: set<string>, room: nat)
    requires room > 0
    ensures Select(py, items, used, room) == [] <==> forall raw <- items :: !Usable(py, raw, used)
  {
    if items != [] && !Usable(py, items[0], used) {
      NoneChosenIffNoneUsable(py, items[1..], used, room);
      assert items == [items[0]] + items[1..];
    }
  }

  // ---------- Decision ----------

  datatype Decision = Decision(
    sufficient: bool,
    confidence: real,
    covered: seq<string>,
    missing: seq<string>,
    queries: seq<Candidate>,
    caseFactGaps: seq<string>,
    outOfScope: seq<string>
  )

  function NonEmptyTexts(py: Python, items: seq<Json>): seq<string> {
    if items == [] then []
    else
      var text := CleanText(py, items[0], 160);
      (if text == "" then [] else [text]) + NonEmptyTexts(py, items[1..])
  }

  function StringList(py: Python, value: Json, field: string): Result<seq<string>, Problem> {
    if !value.List? then Err(NotAList(field))
    else Ok(NonEmptyTexts(py, if |value.items| <= 8 then value.items else value.items[..8]))
  }

  function OptionalStringList(py: Python, value: Json, field: string): Result<seq<string>, Problem> {
    if value.Null? then Ok([]) else StringList(py, value, field)
  }

  function MissingAspects(raw: Json): Json
    requires raw.Object?
  {
    if "knowledge_missing_aspects" in raw.fields then raw.fields["knowledge_missing_aspects"] else Get(raw, "missing_aspects")
  }

  datatype Question = Question(original: string, previous: seq<string>, allowRewrite: bool, maxCandidates: int)

  function ValidateDecision(py: Python, raw: Json, q: Question): Result<Decision, Problem> {
    if !raw.Object? then Err(NotAnObject)
    else if !Get(raw, "sufficient").Bool? then Err(SufficientNotBool)
    else if !Get(raw, "confidence").Number? && !Get(raw, "confidence").NotFinite? then Err(ConfidenceNotNumber)
    else if Get(raw, "confidence").NotFinite? || !(0.0 <= Get(raw, "confidence").number <= 1.0) then Err(ConfidenceOutOfRange)
    else
      match StringList(py, Get(raw, "covered_aspects"), "covered_aspects")
      case Err(e) => Err(e)
      case Ok(covered) =>
        match StringList(py, MissingAspects(raw), "knowledge_missing_aspects")
        case Err(e) => Err(e)
        case Ok(missing) =>
          match OptionalStringList(py, Get(raw, "case_fact_gaps"), "case_fact_gaps")
          case Err(e) => Err(e)
          case Ok(gaps) =>
            match OptionalStringList(py, Get(raw, "out_of_scope_aspects"), "out_of_scope_aspects")
            case Err(e) => Err(e)
            case Ok(scope) =>
              var sufficient := missing == [] && (Get(raw, "sufficient").value || gaps != [] || scope != []);
              var d := Decision(sufficient, Get(raw, "confidence").number, covered, missing, [], gaps, scope);
              if sufficient || !q.allowRewrite then Ok(d)
              else
                match Candidates(py, Get(raw, "queries"), q.original, q.previous, q.maxCandidates)
                case Err(e) => Err(e)
                case Ok(queries) => if queries == [] then Err(NoValidQuery) else Ok(d.(queries := queries))
  }

  /** A list of further searches that the workflow may run. */
  ghost predicate GoodRewrite(py: Python, queries: seq<Candidate>, original: string, previous: seq<string>) {
    1 <= |queries| <= 3 && AllFresh(py, queries, FoldedOf(py, [original] + previous))
  }

  /** An accepted answer that finds knowledge missing is never sufficient, an accepted sufficient one
      proposes nothing, and an accepted insufficient one, when rewriting is allowed, proposes one to
      three new, distinct queries. */
  lemma AcceptedDecision(py: Python, raw: Json, q: Question)
    requires ValidateDecision(py, raw, q).Ok?
    ensures var d := ValidateDecision(py, raw, q).value;
            && 0.0 <= d.confidence <= 1.0
            && (d.sufficient ==> d.missing == [])
            && (d.missing == [] && (d.caseFactGaps != [] || d.outOfScope != []) ==> d.sufficient)
            && (d.queries != [] <==> q.allowRewrite && !d.sufficient)
            && (d.queries != [] ==> GoodRewrite(py, d.queries, q.original, q.previous))
  {
    var d := ValidateDecision(py, raw, q).value;
    if q.allowRewrite && !d.sufficient {
      SelectedAreFresh(py, Get(raw, "queries").items, FoldedOf(py, [q.original] + q.previous), Limit(q.maxCandidates));
    }
  }

  /** Replace the proposed queries of an answer. */
  function WithQueries(raw: Json, queries: Json): Json
    requires raw.Object?
  {
    Object(raw.fields["queries" := queries])
  }

  /** An insufficient answer is accepted exactly when one of its proposals is usable. */
  lemma InsufficientNeedsAUsableQuery(py: Python, raw: Json, items: seq<Json>, q: Question)
    requires raw.Object? && q.allowRewrite
    requires var rest := ValidateDecision(py, raw, q.(allowRewrite := false)); rest.Ok? && !rest.value.sufficient
    ensures ValidateDecision(py, WithQueries(raw, List(items)), q).Ok?
            <==> exists item <- items :: Usable(py, item, FoldedOf(py, [q.original] + q.previous))
  {
    var with := WithQueries(raw, List(items));
    assert Get(with, "sufficient") == Get(raw, "sufficient") && Get(with, "confidence") == Get(raw, "confidence");
    assert Get(with, "covered_aspects") == Get(raw, "covered_aspects") && MissingAspects(with) == MissingAspects(raw);
    assert Get(with, "case_fact_gaps") == Get(raw, "case_fact_gaps");
    assert Get(with, "out_of_scope_aspects") == Get(raw, "out_of_scope_aspects");
    NoneChosenIffNoneUsable(py, items, FoldedOf(py, [q.original] + q.previous), Limit(q.maxCandidates));
  }
}
