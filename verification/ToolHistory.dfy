/**
 Conversation histories with tool calls: the normaliser that accepts or refuses a history and the
 renderer for the two providers.

 A message is a dictionary of arbitrary Python values, edited in place after a deep copy. JSON is a pair
 of functions given by the caller; `Lawful` says what is assumed of them.
 */
module ToolHistory {
  import opened Whitespace
  import opened Wrappers

  datatype Key = Role | Content | ToolCalls | Id | Type | Function | Name | Arguments | ToolCallId | Key(name: string)

  datatype Value =
    | Null
    | Text(text: string)
    | Number(number: real)
    | List(items: seq<Value>)
    | Tuple(items: seq<Value>)
    | Dict(fields: map<Key, Value>)
    | OddDict(keys: seq<int>, values: seq<Value>)
    | Opaque(id: int)

  /** `dumps` refuses what is not JSON-compatible; `loads` refuses what is not JSON. */
  datatype Codec = Codec(dumps: Value -> Option<string>, loads: string -> Option<Value>)

  /** Only what JSON has: no tuples, and dictionaries with string keys only. */
  predicate JsonShaped(v: Value) {
    match v
    case Null => true
    case Text(_) => true
    case Number(_) => true
    case List(items) => forall i :: 0 <= i < |items| ==> JsonShaped(items[i])
    case Dict(fields) => forall k <- fields :: JsonShaped(fields[k])
    case Tuple(_) => false
    case OddDict(_, _) => false
    case Opaque(_) => false
  }

  /** Reading gives JSON-shaped values, and reads back exactly the JSON-shaped values that were written. */
  ghost predicate Lawful(codec: Codec) {
    && (forall s :: codec.loads(s).Some? ==> JsonShaped(codec.loads(s).value))
    && (forall v :: JsonShaped(v) && codec.dumps(v).Some? ==> codec.loads(codec.dumps(v).value) == Some(v))
  }

  predicate IsDict(v: Value) {
    v.Dict? || v.OddDict?
  }

  function Get(m: map<Key, Value>, k: Key): Value {
    if k in m then m[k] else Null
  }

  // ---------- Refusals ----------

  datatype Problem =
    | NotAList | NotAnObject | NoAdjacentObservation | Orphan | ReusedId | MissingObservation
    | NotAssistant | BadContent | NotOneCall | CallNotAnObject | NoId | NotFunctionType | NoFunction | NoName
    | ArgumentsNotJson | ArgumentsNotAnObject | ArgumentsNotCompatible
    | ObservationHasCalls | NoCallId | IdMismatch | NameMismatch | ContentNotText

  datatype Invalid = Invalid(index: nat, problem: Problem)

  predicate NonBlank(v: Value) {
    v.Text? && Strip(v.text) != ""
  }

  // ---------- One call, one observation ----------

  datatype Pending = Pending(id: string, name: string)

  datatype Call = Call(message: map<Key, Value>, pending: Pending)

  function ReadArguments(codec: Codec, raw: Value): Result<Value, Problem> {
    if raw.Text? && codec.loads(raw.text).None? then Err(ArgumentsNotJson)
    else
      var v := if raw.Text? then codec.loads(raw.text).value else raw;
      if !IsDict(v) then Err(ArgumentsNotAnObject)
      else if codec.dumps(v).None? then Err(ArgumentsNotCompatible)
      else Ok(v)
  }

  function WithCall(m: map<Key, Value>, call: map<Key, Value>): map<Key, Value> {
    m[ToolCalls := List([Dict(call)])]
  }

  function NormalizeFunction(codec: Codec, m: map<Key, Value>, call: map<Key, Value>, f: map<Key, Value>): Result<Call, Problem>
    requires NonBlank(Get(call, Id))
  {
    if !NonBlank(Get(f, Name)) then Err(NoName)
    else
      match ReadArguments(codec, Get(f, Arguments))
      case Err(e) => Err(e)
      case Ok(arguments) =>
        var id, name := Strip(Get(call, Id).text), Strip(Get(f, Name).text);
        var f' := f[Name := Text(name)][Arguments := arguments];
        Ok(Call(WithCall(m, call[Id := Text(id)][Function := Dict(f')]), Pending(id, name)))
  }

  function NormalizeCall(codec: Codec, m: map<Key, Value>): Result<Call, Problem> {
    var calls := Get(m, ToolCalls);
    if Get(m, Role) != Text("assistant") then Err(NotAssistant)
    else if !Get(m, Content).Null? && !Get(m, Content).Text? then Err(BadContent)
    else if !calls.List? || |calls.items| != 1 then Err(NotOneCall)
    else if !calls.items[0].Dict? then Err(CallNotAnObject)
    else
      var call := calls.items[0].fields;
      if !NonBlank(Get(call, Id)) then Err(NoId)
      else if Get(call, Type) != Text("function") then Err(NotFunctionType)
      else if !Get(call, Function).Dict? then Err(NoFunction)
      else NormalizeFunction(codec, m, call, Get(call, Function).fields)
  }

  function NormalizeObservation(m: map<Key, Value>, p: Pending): Result<map<Key, Value>, Problem> {
    if !Get(m, ToolCalls).Null? then Err(ObservationHasCalls)
    else if !NonBlank(Get(m, ToolCallId)) then Err(NoCallId)
    else if Strip(Get(m, ToolCallId).text) != p.id then Err(IdMismatch)
    else if Name in m && !(m[Name].Text? && Strip(m[Name].text) == p.name) then Err(NameMismatch)
    else if !Get(m, Content).Text? then Err(ContentNotText)
    else Ok(m[Name := Text(p.name)][ToolCallId := Text(p.id)])
  }

  predicate IsObservation(m: map<Key, Value>) {
    Get(m, Role) == Text("tool")
  }

  predicate HasCalls(m: map<Key, Value>) {
    !Get(m, ToolCalls).Null?
  }

  // ---------- Normalising a history ----------

  function Prepend(v: Value, r: Result<seq<Value>, Invalid>): Result<seq<Value>, Invalid> {
    match r
    case Ok(vs) => Ok([v] + vs)
    case Err(e) => Err(e)
  }

  function Rest(codec: Codec, messages: seq<Value>, index: nat, pending: Option<Pending>, seen: set<string>)
    : Result<seq<Value>, Invalid>
    decreases messages
  {
    if messages == [] then (if pending.Some? then Err(Invalid(index, MissingObservation)) else Ok([]))
    else if !messages[0].Dict? then Err(Invalid(index, NotAnObject))
    else
      var m := messages[0].fields;
      if pending.Some? then
        (if !IsObservation(m) then Err(Invalid(index, NoAdjacentObservation))
         else match NormalizeObservation(m, pending.value)
           case Err(e) => Err(Invalid(index, e))
           case Ok(m') => Prepend(Dict(m'), Rest(codec, messages[1..], index + 1, None, seen)))
      else if IsObservation(m) then Err(Invalid(index, Orphan))
      else if !HasCalls(m) then Prepend(messages[0], Rest(codec, messages[1..], index + 1, None, seen))
      else
        match NormalizeCall(codec, m)
        case Err(e) => Err(Invalid(index, e))
        case Ok(c) =>
          if c.pending.id in seen then Err(Invalid(index, ReusedId))
          else Prepend(Dict(c.message), Rest(codec, messages[1..], index + 1, Some(c.pending), seen + {c.pending.id}))
  }

  function Normalize(codec: Codec, messages: Value): Result<seq<Value>, Invalid> {
    if !messages.List? then Err(Invalid(0, NotAList)) else Rest(codec, messages.items, 0, None, {})
  }

  /** The outcome once the first messages have become `done`. */
  ghost function After(done: seq<Value>, rest: Result<seq<Value>, Invalid>): Result<seq<Value>, Invalid> {
    match rest
    case Ok(vs) => Ok(done + vs)
    case Err(e) => Err(e)
  }

  lemma AfterOne(done: seq<Value>, v: Value, rest: Result<seq<Value>, Invalid>)
    ensures After(done, Prepend(v, rest)) == After(done + [v], rest)
  {
    if rest.Ok? {
      assert done + ([v] + rest.value) == (done + [v]) + rest.value;
    }
  }

  lemma AfterNone(rest: Result<seq<Value>, Invalid>)
    ensures After([], rest) == rest
  {
    if rest.Ok? {
      assert [] + rest.value == rest.value;
    }
  }

  /** The loop of the normaliser: it edits a copy message by message. */
  method NormalizeToolHistory(codec: Codec, messages: Value) returns (r: Result<seq<Value>, Invalid>)
    ensures r == Normalize(codec, messages)
  {
    if !messages.List? {
      return Err(Invalid(0, NotAList));
    }
    var normalized := messages.items;
    var pending: Option<Pending> := None;
    var seen: set<string> := {};
    var index := 0;
    assert normalized[..index] == [] && normalized[index..] == normalized;
    AfterNone(Normalize(codec, messages));
    while index < |normalized|
      invariant 0 <= index <= |normalized| == |messages.items|
      invariant normalized[index..] == messages.items[index..]
      invariant Normalize(codec, messages) == After(normalized[..index], Rest(codec, normalized[index..], index, pending, seen))
    {
      ghost var tail := normalized[index..];
      assert tail[0] == normalized[index] && tail[1..] == normalized[index + 1..];
      if !normalized[index].Dict? {
        return Err(Invalid(index, NotAnObject));
      }
      var m := normalized[index].fields;
      ghost var wasPending, wasSeen := pending, seen;
      if pending.Some? {
        if !IsObservation(m) {
          return Err(Invalid(index, NoAdjacentObservation));
        }
        var observation := NormalizeObservation(m, pending.value);
        if observation.Err? {
          return Err(Invalid(index, observation.error));
        }
        m := observation.value;
        pending := None;
      } else if IsObservation(m) {
        return Err(Invalid(index, Orphan));
      } else if HasCalls(m) {
        var call := NormalizeCall(codec, m);
        if call.Err? {
          return Err(Invalid(index, call.error));
        }
        if call.value.pending.id in seen {
          return Err(Invalid(index, ReusedId));
        }
        seen := seen + {call.value.pending.id};
        pending := Some(call.value.pending);
        m := call.value.message;
      }
      AfterOne(normalized[..index], Dict(m), Rest(codec, tail[1..], index + 1, pending, seen));
      assert Rest(codec, tail, index, wasPending, wasSeen) == Prepend(Dict(m), Rest(codec, tail[1..], index + 1, pending, seen));
      normalized := normalized[index := Dict(m)];
      assert normalized[..index + 1] == normalized[..index] + [Dict(m)];
      index := index + 1;
    }
    assert normalized[..index] == normalized && normalized[index..] == [];
    if pending.Some? {
      return Err(Invalid(index, MissingObservation));
    }
    assert normalized + [] == normalized;
    return Ok(normalized);
  }

  // ---------- What is accepted ----------

  predicate Plain(v: Value) {
    v.Dict? && !IsObservation(v.fields) && !HasCalls(v.fields)
  }

  /** An assistant message with one readable call. */
  predicate CallMessage(codec: Codec, v: Value) {
    && v.Dict? && Get(v.fields, Role) == Text("assistant")
    && (Get(v.fields, Content).Null? || Get(v.fields, Content).Text?)
    && Get(v.fields, ToolCalls).List? && |Get(v.fields, ToolCalls).items| == 1
    && Get(v.fields, ToolCalls).items[0].Dict?
    && var call := TheCall(v);
       && NonBlank(Get(call, Id)) && Get(call, Type) == Text("function")
       && Get(call, Function).Dict? && NonBlank(Get(Get(call, Function).fields, Name))
       && ReadArguments(codec, Get(Get(call, Function).fields, Arguments)).Ok?
  }

  function TheCall(v: Value): map<Key, Value>
    requires v.Dict? && Get(v.fields, ToolCalls).List? && |Get(v.fields, ToolCalls).items| == 1
    requires Get(v.fields, ToolCalls).items[0].Dict?
  {
    Get(v.fields, ToolCalls).items[0].fields
  }

  function CallKey(codec: Codec, v: Value): Pending
    requires CallMessage(codec, v)
  {
    Pending(Strip(Get(TheCall(v), Id).text), Strip(Get(Get(TheCall(v), Function).fields, Name).text))
  }

  /** The observation of a call: the same identifier and, if it gives one, the same name, up to blanks. */
  predicate Observes(v: Value, p: Pending) {
    && v.Dict? && IsObservation(v.fields) && !HasCalls(v.fields)
    && NonBlank(Get(v.fields, ToolCallId)) && Strip(Get(v.fields, ToolCallId).text) == p.id
    && (Name in v.fields ==> v.fields[Name].Text? && Strip(v.fields[Name].text) == p.name)
    && Get(v.fields, Content).Text?
  }

  /** Plain messages and adjacent call/observation pairs, no identifier used twice. */
  predicate History(codec: Codec, messages: seq<Value>, used: set<string>) {
    messages == []
    || (Plain(messages[0]) && History(codec, messages[1..], used))
    || (|messages| > 1 && CallMessage(codec, messages[0]) && CallKey(codec, messages[0]).id !in used
        && Observes(messages[1], CallKey(codec, messages[0]))
        && History(codec, messages[2..], used + {CallKey(codec, messages[0]).id}))
  }

  lemma CallAccepted(codec: Codec, v: Value)
    requires v.Dict?
    ensures NormalizeCall(codec, v.fields).Ok? <==> CallMessage(codec, v)
    ensures CallMessage(codec, v) ==> NormalizeCall(codec, v.fields).value.pending == CallKey(codec, v)
  {
  }

  lemma ObservationAccepted(v: Value, p: Pending)
    requires v.Dict? && IsObservation(v.fields)
    ensures NormalizeObservation(v.fields, p).Ok? <==> Observes(v, p)
  {
  }

  lemma {:induction false} RestAccepts(codec: Codec, messages: seq<Value>, index: nat, used: set<string>)
    ensures Rest(codec, messages, index, None, used).Ok? <==> History(codec, messages, used)
    decreases |messages|
  {
    if messages != [] && messages[0].Dict? && !IsObservation(messages[0].fields) {
      if !HasCalls(messages[0].fields) {
        RestAccepts(codec, messages[1..], index + 1, used);
      } else {
        CallAccepted(codec, messages[0]);
        if CallMessage(codec, messages[0]) && |messages| > 1 {
          var p := CallKey(codec, messages[0]);
          assert messages[1..][0] == messages[1] && messages[1..][1..] == messages[2..];
          if messages[1].Dict? && IsObservation(messages[1].fields) {
            ObservationAccepted(messages[1], p);
          }
          RestAccepts(codec, messages[2..], index + 2, used + {p.id});
        }
      }
    }
  }

  /** Normalisation accepts exactly the sequences of plain messages and adjacent call/observation pairs
      with matching and never reused identifiers. */
  lemma AcceptsExactlyHistories(codec: Codec, messages: Value)
    ensures Normalize(codec, messages).Ok? <==> messages.List? && History(codec, messages.items, {})
  {
    if messages.List? {
      RestAccepts(codec, messages.items, 0, {});
    }
  }

  // ---------- Normalising twice ----------

  lemma CallNormalizedTwice(codec: Codec, m: map<Key, Value>)
    requires NormalizeCall(codec, m).Ok?
    ensures NormalizeCall(codec, NormalizeCall(codec, m).value.message) == NormalizeCall(codec, m)
  {
    var call := Get(m, ToolCalls).items[0].fields;
    var f := Get(call, Function).fields;
    StripIdempotent(Get(call, Id).text);
    StripIdempotent(Get(f, Name).text);
    var id, name := Text(Strip(Get(call, Id).text)), Text(Strip(Get(f, Name).text));
    var arguments := ReadArguments(codec, Get(f, Arguments)).value;
    var f' := f[Name := name][Arguments := arguments];
    assert f'[Name := name][Arguments := arguments] == f';
    var call' := call[Id := id][Function := Dict(f')];
    assert call'[Id := id][Function := Dict(f')] == call';
    assert WithCall(WithCall(m, call'), call') == WithCall(m, call');
  }

  predicate Clean(p: Pending) {
    Strip(p.id) == p.id && Strip(p.name) == p.name
  }

  lemma ObservationNormalizedTwice(m: map<Key, Value>, p: Pending)
    requires NormalizeObservation(m, p).Ok? && IsObservation(m) && Clean(p)
    ensures NormalizeObservation(NormalizeObservation(m, p).value, p) == NormalizeObservation(m, p)
    ensures IsObservation(NormalizeObservation(m, p).value)
  {
    var m' := m[Name := Text(p.name)][ToolCallId := Text(p.id)];
    StripIdempotent(Get(m, ToolCallId).text);
    if Name in m {
      StripIdempotent(m[Name].text);
    }
    assert m'[Name := Text(p.name)][ToolCallId := Text(p.id)] == m';
  }

  /** A call message keeps its role and its call, and waits for a clean identifier and name. */
  lemma CallStaysACall(codec: Codec, m: map<Key, Value>)
    requires NormalizeCall(codec, m).Ok?
    ensures var c := NormalizeCall(codec, m).value;
            HasCalls(c.message) && !IsObservation(c.message) && Clean(c.pending)
  {
    var call := Get(m, ToolCalls).items[0].fields;
    StripIdempotent(Get(call, Id).text);
    StripIdempotent(Get(Get(call, Function).fields, Name).text);
  }

  ghost predicate CleanPending(pending: Option<Pending>) {
    pending.Some? ==> Clean(pending.value)
  }

  lemma {:induction false} RestTwice(codec: Codec, ms: seq<Value>, index: nat, pending: Option<Pending>, seen: set<string>)
    requires CleanPending(pending) && Rest(codec, ms, index, pending, seen).Ok?
    ensures var ns := Rest(codec, ms, index, pending, seen).value;
            Rest(codec, ns, index, pending, seen) == Ok(ns)
    decreases |ms|
  {
    if ms != [] {
      var m := ms[0].fields;
      var ns := Rest(codec, ms, index, pending, seen).value;
      if pending.Some? {
        ObservationNormalizedTwice(m, pending.value);
        RestTwice(codec, ms[1..], index + 1, None, seen);
        assert ns[1..] == Rest(codec, ms[1..], index + 1, None, seen).value;
      } else if !HasCalls(m) {
        RestTwice(codec, ms[1..], index + 1, None, seen);
        assert ns[1..] == Rest(codec, ms[1..], index + 1, None, seen).value;
      } else {
        var c := NormalizeCall(codec, m).value;
        CallNormalizedTwice(codec, m);
        CallStaysACall(codec, m);
        RestTwice(codec, ms[1..], index + 1, Some(c.pending), seen + {c.pending.id});
        assert ns[1..] == Rest(codec, ms[1..], index + 1, Some(c.pending), seen + {c.pending.id}).value;
      }
    }
  }

  /** Normalising a normalised history changes nothing. */
  lemma NormalizeIdempotent(codec: Codec, messages: Value)
    requires Normalize(codec, messages).Ok?
    ensures var ns := Normalize(codec, messages).value; Normalize(codec, List(ns)) == Ok(ns)
  {
    RestTwice(codec, messages.items, 0, None, {});
  }

  // ---------- Rendering ----------

  datatype Provider = OpenAI | Ollama | OtherProvider

  function RenderCall(codec: Codec, provider: Provider, call: Value): Result<Value, Problem> {
    if !call.Dict? then Err(CallNotAnObject)
    else if !NonBlank(Get(call.fields, Id)) then Err(NoId)
    else if Get(call.fields, Type) != Text("function") then Err(NotFunctionType)
    else if !Get(call.fields, Function).Dict? then Err(NoFunction)
    else
      var f := Get(call.fields, Function).fields;
      var arguments := Get(f, Arguments);
      if !NonBlank(Get(f, Name)) then Err(NoName)
      else if !IsDict(arguments) then Err(ArgumentsNotAnObject)
      else if provider != OpenAI then Ok(Dict(call.fields - {Id, Type}))
      else
        match codec.dumps(arguments)
        case None => Err(ArgumentsNotCompatible)
        case Some(text) => Ok(Dict(call.fields[Function := Dict(f[Arguments := Text(text)])]))
  }

  function RenderCalls(codec: Codec, provider: Provider, calls: seq<Value>): Result<seq<Value>, Problem> {
    if calls == [] then Ok([])
    else
      match RenderCall(codec, provider, calls[0])
      case Err(e) => Err(e)
      case Ok(call) =>
        match RenderCalls(codec, provider, calls[1..])
        case Err(e) => Err(e)
        case Ok(more) => Ok([call] + more)
  }

  function RenderMessage(codec: Codec, provider: Provider, m: map<Key, Value>): Result<map<Key, Value>, Problem> {
    if HasCalls(m) then
      if Get(m, Role) != Text("assistant") then Err(NotAssistant)
      else if !Get(m, Content).Null? && !Get(m, Content).Text? then Err(BadContent)
      else if !Get(m, ToolCalls).List? || Get(m, ToolCalls).items == [] then Err(NotOneCall)
      else
        match RenderCalls(codec, provider, Get(m, ToolCalls).items)
        case Err(e) => Err(e)
        case Ok(calls) => Ok(m[ToolCalls := List(calls)])
    else if IsObservation(m) then
      if !NonBlank(Get(m, ToolCallId)) then Err(NoCallId)
      else if !NonBlank(Get(m, Name)) then Err(NoName)
      else if !Get(m, Content).Text? then Err(ContentNotText)
      else Ok(if provider == Ollama then m - {ToolCallId, Name} else m)
    else Ok(m)
  }

  function RenderAll(codec: Codec, provider: Provider, ms: seq<Value>, index: nat): Result<seq<Value>, Invalid> {
    if ms == [] then Ok([])
    else if !ms[0].Dict? then Err(Invalid(index, NotAnObject))
    else
      match RenderMessage(codec, provider, ms[0].fields)
      case Err(e) => Err(Invalid(index, e))
      case Ok(m) => Prepend(Dict(m), RenderAll(codec, provider, ms[1..], index + 1))
  }

  function RenderToolHistory(codec: Codec, provider: Provider, messages: Value): Result<seq<Value>, Invalid> {
    match Normalize(codec, messages)
    case Err(e) => Err(e)
    case Ok(ns) => RenderAll(codec, provider, ns, 0)
  }

  /** The renderer's loop over the normalised copy. */
  method Render(codec: Codec, provider: Provider, messages: Value) returns (r: Result<seq<Value>, Invalid>)
    ensures r == RenderToolHistory(codec, provider, messages)
  {
    var normalized := NormalizeToolHistory(codec, messages);
    if normalized.Err? {
      return normalized;
    }
    var rendered := normalized.value;
    var index := 0;
    assert rendered[..index] == [] && rendered[index..] == rendered;
    AfterNone(RenderAll(codec, provider, rendered, 0));
    while index < |rendered|
      invariant 0 <= index <= |rendered| == |normalized.value|
      invariant RenderAll(codec, provider, normalized.value, 0)
                == After(rendered[..index], RenderAll(codec, provider, rendered[index..], index))
    {
      ghost var tail := rendered[index..];
      assert tail[0] == rendered[index] && tail[1..] == rendered[index + 1..];
      if !rendered[index].Dict? {
        return Err(Invalid(index, NotAnObject));
      }
      var message := RenderMessage(codec, provider, rendered[index].fields);
      if message.Err? {
        return Err(Invalid(index, message.error));
      }
      AfterOne(rendered[..index], Dict(message.value), RenderAll(codec, provider, tail[1..], index + 1));
      rendered := rendered[index := Dict(message.value)];
      assert rendered[..index + 1] == rendered[..index] + [Dict(message.value)];
      index := index + 1;
    }
    assert rendered[..index] == rendered && rendered[index..] == [] && rendered + [] == rendered;
    return Ok(rendered);
  }

  // ---------- Rendering what was normalised ----------

  lemma OneCall(codec: Codec, provider: Provider, call: Value)
    ensures RenderCalls(codec, provider, [call])
            == match RenderCall(codec, provider, call) case Err(e) => Err(e) case Ok(c) => Ok([c])
  {
    assert [call][1..] == [];
    assert RenderCalls(codec, provider, []) == Ok([]);
    if RenderCall(codec, provider, call).Ok? {
      assert [RenderCall(codec, provider, call).value] + [] == [RenderCall(codec, provider, call).value];
    }
  }

  /** A message that normalising leaves alone can be rendered. */
  lemma NormalCallRenders(codec: Codec, provider: Provider, m: map<Key, Value>)
    requires NormalizeCall(codec, m).Ok? && NormalizeCall(codec, m).value.message == m
    ensures RenderMessage(codec, provider, m).Ok?
    ensures HasCalls(m) && !IsObservation(m)
  {
    var calls := Get(m, ToolCalls).items;
    CallStaysACall(codec, m);
    assert calls == [calls[0]];
    OneCall(codec, provider, calls[0]);
    assert Get(NormalizeCall(codec, m).value.message, ToolCalls) == Get(m, ToolCalls);
  }

  lemma NormalObservationRenders(codec: Codec, provider: Provider, m: map<Key, Value>, p: Pending)
    requires IsObservation(m) && NormalizeObservation(m, p) == Ok(m) && Clean(p) && p.name != ""
    ensures RenderMessage(codec, provider, m).Ok?
  {
    assert m[Name := Text(p.name)][ToolCallId := Text(p.id)] == m;
  }

  /** A sequence that normalising leaves alone. */
  ghost predicate Fixed(codec: Codec, ns: seq<Value>, index: nat, pending: Option<Pending>, seen: set<string>) {
    Rest(codec, ns, index, pending, seen) == Ok(ns) && (pending.Some? ==> Clean(pending.value) && pending.value.name != "")
  }

  /** The first message of such a sequence is left alone too, and so is the rest. */
  lemma FixedParts(codec: Codec, ns: seq<Value>, index: nat, pending: Option<Pending>, seen: set<string>)
    requires Fixed(codec, ns, index, pending, seen) && ns != []
    ensures ns[0].Dict?
    ensures var m := ns[0].fields;
            if pending.Some? then
              IsObservation(m) && NormalizeObservation(m, pending.value) == Ok(m)
              && Fixed(codec, ns[1..], index + 1, None, seen)
            else if !HasCalls(m) then !IsObservation(m) && Fixed(codec, ns[1..], index + 1, None, seen)
            else
              && NormalizeCall(codec, m).Ok? && NormalizeCall(codec, m).value.message == m
              && NormalizeCall(codec, m).value.pending.id !in seen
              && Fixed(codec, ns[1..], index + 1, Some(NormalizeCall(codec, m).value.pending),
                       seen + {NormalizeCall(codec, m).value.pending.id})
  {
    var m := ns[0].fields;
    if pending.None? && HasCalls(m) && NormalizeCall(codec, m).Ok? {
      CallStaysACall(codec, m);
    }
  }

  lemma {:induction false} FixedRenders(codec: Codec, provider: Provider, ns: seq<Value>, index: nat,
                                        pending: Option<Pending>, seen: set<string>)
    requires Fixed(codec, ns, index, pending, seen)
    ensures RenderAll(codec, provider, ns, index).Ok?
    decreases |ns|
  {
    if ns != [] {
      FixedParts(codec, ns, index, pending, seen);
      var m := ns[0].fields;
      if pending.Some? {
        NormalObservationRenders(codec, provider, m, pending.value);
        FixedRenders(codec, provider, ns[1..], index + 1, None, seen);
      } else if !HasCalls(m) {
        FixedRenders(codec, provider, ns[1..], index + 1, None, seen);
      } else {
        NormalCallRenders(codec, provider, m);
        var p := NormalizeCall(codec, m).value.pending;
        FixedRenders(codec, provider, ns[1..], index + 1, Some(p), seen + {p.id});
      }
    }
  }

  /** Rendering never fails on a history that normalisation accepts. */
  lemma RenderingNeverFails(codec: Codec, provider: Provider, messages: Value)
    ensures RenderToolHistory(codec, provider, messages).Ok? <==> Normalize(codec, messages).Ok?
  {
    if Normalize(codec, messages).Ok? {
      NormalizeIdempotent(codec, messages);
      FixedRenders(codec, provider, Normalize(codec, messages).value, 0, None, {});
    }
  }

  // ---------- Reading a rendered history back ----------

  function ArgumentsOf(codec: Codec, v: Value): Value
    requires CallMessage(codec, v)
  {
    Get(Get(TheCall(v), Function).fields, Arguments)
  }

  /** Every call's arguments use only what JSON has. */
  predicate AllJsonShaped(codec: Codec, ns: seq<Value>) {
    forall i :: 0 <= i < |ns| && CallMessage(codec, ns[i]) ==> JsonShaped(ArgumentsOf(codec, ns[i]))
  }

  /** Normalising an OpenAI-rendered call gives the call back exactly when its arguments are JSON-shaped. */
  lemma RenderedCallReadBack(codec: Codec, m: map<Key, Value>)
    requires Lawful(codec) && NormalizeCall(codec, m).Ok? && NormalizeCall(codec, m).value.message == m
    ensures CallMessage(codec, Dict(m))
    ensures var r := RenderMessage(codec, OpenAI, m);
            && r.Ok? && HasCalls(r.value) && !IsObservation(r.value)
            && (JsonShaped(ArgumentsOf(codec, Dict(m))) ==> NormalizeCall(codec, r.value) == NormalizeCall(codec, m))
            && (!JsonShaped(ArgumentsOf(codec, Dict(m)))
                ==> NormalizeCall(codec, r.value).Err? || NormalizeCall(codec, r.value).value.message != m)
  {
    CallAccepted(codec, Dict(m));
    NormalCallRenders(codec, OpenAI, m);
    var calls := Get(m, ToolCalls).items;
    assert calls == [calls[0]];
    OneCall(codec, OpenAI, calls[0]);
    var call := calls[0].fields;
    var f := Get(call, Function).fields;
    var v := Get(f, Arguments);
    assert Get(NormalizeCall(codec, m).value.message, ToolCalls) == Get(m, ToolCalls);
    var id, name := Text(Strip(Get(call, Id).text)), Text(Strip(Get(f, Name).text));
    assert f[Name := name][Arguments := v] == f;
    assert call[Id := id][Function := Dict(f)] == call;
    assert WithCall(m, call) == m;
    var text := codec.dumps(v).value;
    var g := f[Arguments := Text(text)];
    var back := call[Function := Dict(g)];
    var r := m[ToolCalls := List([Dict(back)])];
    assert RenderMessage(codec, OpenAI, m) == Ok(r);
    if codec.loads(text).Some? {
      var w := codec.loads(text).value;
      assert g[Name := name][Arguments := w] == f[Arguments := w];
      assert back[Id := id][Function := Dict(f[Arguments := w])] == call[Function := Dict(f[Arguments := w])];
      assert WithCall(r, call[Function := Dict(f[Arguments := w])]) == WithCall(m, call[Function := Dict(f[Arguments := w])]);
      if w == v {
        assert f[Arguments := w] == f;
        assert call[Function := Dict(f)] == call;
      }
    }
  }

  lemma FirstArguments(codec: Codec, ns: seq<Value>)
    requires ns != []
    ensures AllJsonShaped(codec, ns) <==>
            (CallMessage(codec, ns[0]) ==> JsonShaped(ArgumentsOf(codec, ns[0]))) && AllJsonShaped(codec, ns[1..])
  {
    if AllJsonShaped(codec, ns) {
      forall i | 0 <= i < |ns[1..]| && CallMessage(codec, ns[1..][i])
        ensures JsonShaped(ArgumentsOf(codec, ns[1..][i]))
      {
        assert ns[1..][i] == ns[i + 1];
      }
    } else {
      var i :| 0 <= i < |ns| && CallMessage(codec, ns[i]) && !JsonShaped(ArgumentsOf(codec, ns[i]));
      assert i > 0 ==> ns[1..][i - 1] == ns[i];
    }
  }

  /** Equal results have equal parts. */
  lemma PrependEqual(v: Value, r: Result<seq<Value>, Invalid>, ns: seq<Value>)
    requires ns != []
    ensures Prepend(v, r) == Ok(ns) <==> v == ns[0] && r == Ok(ns[1..])
  {
    if r.Ok? {
      assert ([v] + r.value)[1..] == r.value;
      assert ns == [ns[0]] + ns[1..];
    }
  }

  lemma {:induction false} FixedRoundTrip(codec: Codec, ns: seq<Value>, index: nat, pending: Option<Pending>, seen: set<string>)
    requires Lawful(codec) && Fixed(codec, ns, index, pending, seen)
    requires RenderAll(codec, OpenAI, ns, index).Ok?
    ensures Rest(codec, RenderAll(codec, OpenAI, ns, index).value, index, pending, seen) == Ok(ns) <==> AllJsonShaped(codec, ns)
    decreases |ns|
  {
    if ns != [] {
      FixedParts(codec, ns, index, pending, seen);
      FirstArguments(codec, ns);
      var m := ns[0].fields;
      var rs := RenderAll(codec, OpenAI, ns, index).value;
      var tail := RenderAll(codec, OpenAI, ns[1..], index + 1).value;
      assert rs[1..] == tail;
      if pending.Some? || !HasCalls(m) {
        FixedRoundTrip(codec, ns[1..], index + 1, None, seen);
        PrependEqual(ns[0], Rest(codec, tail, index + 1, None, seen), ns);
      } else {
        var p := NormalizeCall(codec, m).value.pending;
        RenderedCallReadBack(codec, m);
        FixedRoundTrip(codec, ns[1..], index + 1, Some(p), seen + {p.id});
        var r := RenderMessage(codec, OpenAI, m).value;
        if NormalizeCall(codec, r).Ok? {
          var c := NormalizeCall(codec, r).value;
          PrependEqual(Dict(c.message), Rest(codec, tail, index + 1, Some(c.pending), seen + {c.pending.id}), ns);
        }
      }
    }
  }

  /** Normalising an OpenAI-rendered history gives back the normalised history exactly when every call's
      arguments are JSON-shaped: no tuples and only string keys. */
  lemma RoundTripIffJsonShaped(codec: Codec, messages: Value)
    requires Lawful(codec) && Normalize(codec, messages).Ok?
    ensures var ns := Normalize(codec, messages).value;
            var rendered := RenderToolHistory(codec, OpenAI, messages);
            rendered.Ok? && (Normalize(codec, List(rendered.value)) == Ok(ns) <==> AllJsonShaped(codec, ns))
  {
    NormalizeIdempotent(codec, messages);
    RenderingNeverFails(codec, OpenAI, messages);
    FixedRoundTrip(codec, Normalize(codec, messages).value, 0, None, {});
  }

  const TUPLE_ARGUMENTS := Dict(map[Key("range") := Tuple([Number(1.0), Number(2.0)])])

  const TUPLE_CALL := map[
    Id := Text("c"), Type := Text("function"),
    Function := Dict(map[Name := Text("f"), Arguments := TUPLE_ARGUMENTS])
  ]

  const TUPLE_HISTORY := List([
    Dict(map[Role := Text("assistant"), ToolCalls := List([Dict(TUPLE_CALL)])]),
    Dict(map[Role := Text("tool"), Name := Text("f"), ToolCallId := Text("c"), Content := Text("")])
  ])

  lemma TupleCallAccepted(codec: Codec)
    requires codec.dumps(TUPLE_ARGUMENTS).Some?
    ensures var m := TUPLE_HISTORY.items[0].fields;
            NormalizeCall(codec, m) == Ok(Call(m, Pending("c", "f")))
  {
    var m := TUPLE_HISTORY.items[0].fields;
    var f := TUPLE_CALL[Function].fields;
    assert Strip("c") == "c" && Strip("f") == "f";
    assert f[Name := Text("f")][Arguments := TUPLE_ARGUMENTS] == f;
    assert TUPLE_CALL[Id := Text("c")][Function := Dict(f)] == TUPLE_CALL;
    assert WithCall(m, TUPLE_CALL) == m;
  }

  /** A tuple among the arguments of a call does not come back, whatever the codec writes for it. */
  lemma TupleDoesNotComeBack(codec: Codec)
    requires Lawful(codec) && codec.dumps(TUPLE_ARGUMENTS).Some?
    ensures Normalize(codec, TUPLE_HISTORY) == Ok(TUPLE_HISTORY.items)
    ensures var rendered := RenderToolHistory(codec, OpenAI, TUPLE_HISTORY);
            rendered.Ok? && Normalize(codec, List(rendered.value)) != Ok(TUPLE_HISTORY.items)
  {
    var ns := TUPLE_HISTORY.items;
    TupleCallAccepted(codec);
    CallAccepted(codec, ns[0]);
    TupleObserved(codec);
    assert Key("range") in TUPLE_ARGUMENTS.fields && !JsonShaped(TUPLE_ARGUMENTS.fields[Key("range")]);
    assert ArgumentsOf(codec, ns[0]) == TUPLE_ARGUMENTS;
    RoundTripIffJsonShaped(codec, TUPLE_HISTORY);
  }

  lemma TupleObserved(codec: Codec)
    requires codec.dumps(TUPLE_ARGUMENTS).Some?
    ensures Normalize(codec, TUPLE_HISTORY) == Ok(TUPLE_HISTORY.items)
  {
    var ns := TUPLE_HISTORY.items;
    TupleCallAccepted(codec);
    var o := ns[1].fields;
    assert Strip("c") == "c" && Strip("f") == "f";
    assert o[Name := Text("f")][ToolCallId := Text("c")] == o;
    assert ns == [ns[0]] + ([ns[1]] + []);
    assert ns[1..] == [ns[1]] && ns[1..][1..] == [];
    assert Rest(codec, ns[1..], 1, Some(Pending("c", "f")), {} + {"c"}) == Prepend(ns[1], Rest(codec, [], 2, None, {} + {"c"}));
  }

  /** Arguments that arrived as text always survive the round trip. */
  lemma ReadArgumentsAreJsonShaped(codec: Codec, raw: Value)
    requires Lawful(codec) && raw.Text? && ReadArguments(codec, raw).Ok?
    ensures JsonShaped(ReadArguments(codec, raw).value)
  {
  }

  lemma OllamaCallUnreadable(codec: Codec, m: map<Key, Value>)
    requires NormalizeCall(codec, m).Ok? && NormalizeCall(codec, m).value.message == m
    ensures var r := RenderMessage(codec, Ollama, m);
            r.Ok? && HasCalls(r.value) && !IsObservation(r.value) && NormalizeCall(codec, r.value) == Err(NoId)
  {
    NormalCallRenders(codec, Ollama, m);
    var calls := Get(m, ToolCalls).items;
    assert calls == [calls[0]];
    OneCall(codec, Ollama, calls[0]);
  }

  /** The Ollama form drops the identifiers, so a history with a call cannot be normalised from it. */
  lemma {:induction false} OllamaFormLosesCalls(codec: Codec, ns: seq<Value>, index: nat, seen: set<string>)
    requires Fixed(codec, ns, index, None, seen) && RenderAll(codec, Ollama, ns, index).Ok?
    ensures Rest(codec, RenderAll(codec, Ollama, ns, index).value, index, None, seen).Ok?
            <==> forall v <- ns :: v.Dict? && !HasCalls(v.fields)
    decreases |ns|
  {
    if ns != [] {
      FixedParts(codec, ns, index, None, seen);
      var m := ns[0].fields;
      assert RenderAll(codec, Ollama, ns, index).value[1..] == RenderAll(codec, Ollama, ns[1..], index + 1).value;
      assert ns == [ns[0]] + ns[1..];
      if !HasCalls(m) {
        OllamaFormLosesCalls(codec, ns[1..], index + 1, seen);
      } else {
        OllamaCallUnreadable(codec, m);
      }
    }
  }
}
