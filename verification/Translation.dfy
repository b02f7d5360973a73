/**
 The Messages-to-chat translation of routes/messages.py and the chat-to-Messages translation of
 providers/anthropic_provider.py, for requests and for responses.
 */
module Translation {
  import opened Prelude

  /** JSON values are only passed on, printed and parsed. */
  datatype Json = Json(value: string)

  datatype Codec = Codec(write: Json -> string, parse: string -> Option<Json>, empty: Json)

  ghost predicate Lawful(c: Codec) {
    forall x: Json :: c.parse(c.write(x)) == Some(x)
  }

  datatype Role = User | Assistant | SystemRole

  // ---------- the Messages format ----------

  datatype ResultContent = Plain(text: string) | Parts(parts: seq<string>)

  datatype Block =
    | Text(text: string)
    | ToolUse(id: Name, name: Name, input: Json)
    | ToolResult(id: Name, content: ResultContent)
    | OtherBlock

  datatype Content = Str(text: string) | Blocks(blocks: seq<Block>) | Null

  datatype Turn = Turn(role: Role, content: Content)

  // ---------- the chat format ----------

  datatype Call = Call(id: Name, name: Name, arguments: string)

  datatype Message =
    | Message(role: Role, content: Option<string>, calls: seq<Call>)
    | ToolMessage(callId: Name, text: string)

  // ---------- pieces of blocks ----------

  function Join(separator: string, parts: seq<string>): string {
    if parts == [] then ""
    else if |parts| == 1 then parts[0]
    else parts[0] + separator + Join(separator, parts[1..])
  }

  function TextOf(b: Block): seq<string> {
    if b.Text? then [b.text] else []
  }

  function CallOf(c: Codec, b: Block): seq<Call> {
    if b.ToolUse? then [Call(b.id, b.name, c.write(b.input))] else []
  }

  function CallWith(c: Codec): Block -> seq<Call> {
    b => CallOf(c, b)
  }

  function Flat(r: ResultContent): string {
    match r
    case Plain(text) => text
    case Parts(parts) => Join(" ", parts)
  }

  function ResultOf(b: Block): seq<Message> {
    if b.ToolResult? then [ToolMessage(b.id, Flat(b.content))] else []
  }

  function Texts(bs: seq<Block>): seq<string> {
    FlatMap(TextOf, bs)
  }

  function Calls(c: Codec, bs: seq<Block>): seq<Call> {
    FlatMap(CallWith(c), bs)
  }

  function Results(bs: seq<Block>): seq<Message> {
    FlatMap(ResultOf, bs)
  }

  // ---------- turns to messages ----------

  function OfBlocks(role: Role, texts: seq<string>, calls: seq<Call>, results: seq<Message>): seq<Message> {
    if results != [] then results
    else if calls != [] then [Message(role, if texts == [] then None else Some(Join("\n", texts)), calls)]
    else [Message(role, Some(Join("\n", texts)), [])]
  }

  function TurnToMessages(c: Codec, t: Turn): seq<Message> {
    match t.content
    case Str(text) => [Message(t.role, Some(text), [])]
    case Blocks(bs) => OfBlocks(t.role, Texts(bs), Calls(c, bs), Results(bs))
    case Null => []
  }

  function TurnsToMessages(c: Codec, ts: seq<Turn>): seq<Message> {
    if ts == [] then [] else TurnToMessages(c, ts[0]) + TurnsToMessages(c, ts[1..])
  }

  method SortBlocks(c: Codec, bs: seq<Block>) returns (texts: seq<string>, calls: seq<Call>, results: seq<Message>)
    ensures texts == Texts(bs) && calls == Calls(c, bs) && results == Results(bs)
  {
    hide Flat, Join, FlatMap;
    texts, calls, results := [], [], [];
    NoBlocks(c);
    for n := 0 to |bs|
      invariant texts == Texts(bs[..n]) && calls == Calls(c, bs[..n]) && results == Results(bs[..n])
    {
      FlatMapConcat(TextOf, bs[..n], [bs[n]]);
      FlatMapConcat(CallWith(c), bs[..n], [bs[n]]);
      FlatMapConcat(ResultOf, bs[..n], [bs[n]]);
      OneBlock(c, bs[n]);
      assert bs[..n] + [bs[n]] == bs[..n + 1];
      match bs[n] {
        case Text(text) => texts := texts + [text];
        case ToolUse(id, name, input) => calls := calls + [Call(id, name, c.write(input))];
        case ToolResult(id, content) => results := results + [ToolMessage(id, Flat(content))];
        case OtherBlock =>
      }
    }
    assert bs[..|bs|] == bs;
  }

  lemma NoBlocks(c: Codec)
    ensures Texts([]) == [] && Calls(c, []) == [] && Results([]) == []
  {
  }

  lemma OneBlock(c: Codec, b: Block)
    ensures Texts([b]) == TextOf(b) && Calls(c, [b]) == CallOf(c, b) && Results([b]) == ResultOf(b)
  {
    FlatMapOne(TextOf, b);
    FlatMapOne(CallWith(c), b);
    FlatMapOne(ResultOf, b);
  }

  method MessagesOfTurn(c: Codec, t: Turn) returns (messages: seq<Message>)
    ensures messages == TurnToMessages(c, t)
  {
    match t.content {
      case Str(text) => messages := [Message(t.role, Some(text), [])];
      case Null => messages := [];
      case Blocks(bs) =>
        var texts, calls, results := SortBlocks(c, bs);
        if results != [] {
          messages := results;
        } else if calls != [] {
          messages := [Message(t.role, if texts == [] then None else Some(Join("\n", texts)), calls)];
        } else {
          messages := [Message(t.role, Some(Join("\n", texts)), [])];
        }
    }
  }

  // ---------- messages to turns ----------

  /** Arguments that do not parse become the empty object. */
  function InputOf(c: Codec, call: Call): Json {
    c.parse(call.arguments).GetOr(c.empty)
  }

  function UseWith(c: Codec): Call -> seq<Block> {
    (call: Call) => [ToolUse(call.id, call.name, InputOf(c, call))]
  }

  function Uses(c: Codec, calls: seq<Call>): seq<Block> {
    FlatMap(UseWith(c), calls)
  }

  /** An empty text gives no block. */
  function Lead(text: Option<string>): seq<Block> {
    if text.Some? && text.value != "" then [Text(text.value)] else []
  }

  function MessageToTurn(c: Codec, m: Message): Turn {
    match m
    case ToolMessage(id, text) => Turn(User, Blocks([ToolResult(id, Plain(text))]))
    case Message(role, content, calls) =>
      if role == Assistant && calls != [] then Turn(Assistant, Blocks(Lead(content) + Uses(c, calls)))
      else Turn(role, if content.Some? then Str(content.value) else Null)
  }

  function TurnWith(c: Codec): Message -> seq<Turn> {
    m => [MessageToTurn(c, m)]
  }

  function MessagesToTurns(c: Codec, ms: seq<Message>): seq<Turn> {
    FlatMap(TurnWith(c), ms)
  }

  method TurnsOfMessages(c: Codec, ms: seq<Message>) returns (turns: seq<Turn>)
    ensures turns == MessagesToTurns(c, ms)
  {
    hide Lead, MessagesToTurns;
    turns := [];
    NoMessages(c);
    for n := 0 to |ms|
      invariant turns == MessagesToTurns(c, ms[..n])
    {
      TurnsOfOneMore(c, ms[..n], ms[n]);
      assert ms[..n] + [ms[n]] == ms[..n + 1];
      var m := ms[n];
      if m.ToolMessage? {
        turns := turns + [Turn(User, Blocks([ToolResult(m.callId, Plain(m.text))]))];
      } else if m.role == Assistant && m.calls != [] {
        var uses := UsesOfCalls(c, m.calls);
        turns := turns + [Turn(Assistant, Blocks(Lead(m.content) + uses))];
      } else {
        turns := turns + [Turn(m.role, if m.content.Some? then Str(m.content.value) else Null)];
      }
    }
    assert ms[..|ms|] == ms;
  }

  lemma NoMessages(c: Codec)
    ensures MessagesToTurns(c, []) == []
  {
  }

  lemma TurnsOfOneMore(c: Codec, ms: seq<Message>, m: Message)
    ensures MessagesToTurns(c, ms + [m]) == MessagesToTurns(c, ms) + [MessageToTurn(c, m)]
  {
    FlatMapConcat(TurnWith(c), ms, [m]);
    assert MessagesToTurns(c, [m][1..]) == [];
  }

  lemma NoUses(c: Codec)
    ensures Uses(c, []) == []
  {
  }

  method UsesOfCalls(c: Codec, calls: seq<Call>) returns (uses: seq<Block>)
    ensures uses == Uses(c, calls)
  {
    hide FlatMap, InputOf;
    uses := [];
    NoUses(c);
    for n := 0 to |calls|
      invariant uses == Uses(c, calls[..n])
    {
      FlatMapConcat(UseWith(c), calls[..n], [calls[n]]);
      FlatMapOne(UseWith(c), calls[n]);
      assert calls[..n] + [calls[n]] == calls[..n + 1];
      uses := uses + [ToolUse(calls[n].id, calls[n].name, InputOf(c, calls[n]))];
    }
    assert calls[..|calls|] == calls;
  }

  // ---------- the canonical forms ----------

  ghost predicate AllUses(bs: seq<Block>) {
    forall b | b in bs :: b.ToolUse?
  }

  /** At most one text, not empty and in front, and otherwise tool uses only. */
  ghost predicate TextThenUses(bs: seq<Block>) {
    bs == [] || (AllUses(bs[1..]) && (bs[0].ToolUse? || (bs[0].Text? && bs[0].text != "")))
  }

  /** Plain text, one tool result, or a text followed by at least one tool use. */
  ghost predicate Canonical(t: Turn) {
    match t.content
    case Str(_) => true
    case Null => false
    case Blocks(bs) =>
      if t.role == Assistant then bs != [] && bs[|bs| - 1].ToolUse? && TextThenUses(bs)
      else t.role == User && |bs| == 1 && bs[0].ToolResult? && bs[0].content.Plain?
  }

  /** What the Messages format allows: tool uses by the assistant, tool results by the user. */
  ghost predicate WellFormed(t: Turn) {
    && t.role != SystemRole && t.content != Null
    && (t.content.Blocks? ==>
          forall b | b in t.content.blocks :: (b.ToolUse? ==> t.role == Assistant) && (b.ToolResult? ==> t.role == User))
  }

  ghost function Normal(c: Codec, t: Turn): seq<Turn> {
    MessagesToTurns(c, TurnToMessages(c, t))
  }

  function UseOf(b: Block): seq<Block> {
    if b.ToolUse? then [b] else []
  }

  function ToolUses(bs: seq<Block>): seq<Block> {
    FlatMap(UseOf, bs)
  }

  /** Printing and parsing the arguments brings back every tool use, in order, with its id and input. */
  lemma {:induction false} UsesSurvive(c: Codec, bs: seq<Block>)
    requires Lawful(c)
    ensures Uses(c, Calls(c, bs)) == ToolUses(bs)
    ensures Calls(c, bs) == [] <==> ToolUses(bs) == []
    ensures AllUses(ToolUses(bs))
  {
    if bs != [] {
      UsesSurvive(c, bs[1..]);
      if bs[0].ToolUse? {
        var call, rest := Call(bs[0].id, bs[0].name, c.write(bs[0].input)), Calls(c, bs[1..]);
        assert ([call] + rest)[1..] == rest;
        assert Uses(c, [call] + rest) == [ToolUse(call.id, call.name, InputOf(c, call))] + Uses(c, rest);
      } else {
        assert Calls(c, bs) == Calls(c, bs[1..]) && ToolUses(bs) == ToolUses(bs[1..]);
      }
    }
  }

  lemma {:induction false} OnlyUses(bs: seq<Block>)
    requires AllUses(bs)
    ensures ToolUses(bs) == bs && Texts(bs) == [] && ResultTurns(bs) == []
  {
    if bs != [] {
      OnlyUses(bs[1..]);
    }
  }

  lemma CanonicalPieces(bs: seq<Block>)
    requires TextThenUses(bs)
    ensures ResultTurns(bs) == [] && bs == Lead(Some(Join("\n", Texts(bs)))) + ToolUses(bs)
    ensures Texts(bs) != [] ==> Join("\n", Texts(bs)) != ""
  {
    if bs != [] {
      OnlyUses(bs[1..]);
    }
  }

  /** One user turn for each tool result, its content flattened. */
  ghost function ResultTurns(bs: seq<Block>): seq<Turn> {
    if bs == [] then []
    else (if bs[0].ToolResult? then [Turn(User, Blocks([ToolResult(bs[0].id, Plain(Flat(bs[0].content)))]))] else [])
         + ResultTurns(bs[1..])
  }

  lemma OneTurn(c: Codec, m: Message)
    ensures MessagesToTurns(c, [m]) == [MessageToTurn(c, m)]
  {
    FlatMapOne(TurnWith(c), m);
  }

  lemma {:induction false} TurnsOfResults(c: Codec, bs: seq<Block>)
    ensures MessagesToTurns(c, Results(bs)) == ResultTurns(bs)
    ensures Results(bs) == [] <==> ResultTurns(bs) == []
  {
    if bs != [] {
      TurnsOfResults(c, bs[1..]);
      FlatMapConcat(TurnWith(c), ResultOf(bs[0]), Results(bs[1..]));
      if bs[0].ToolResult? {
        OneTurn(c, ToolMessage(bs[0].id, Flat(bs[0].content)));
      }
    }
  }

  /** The translation there and back, in the terms of the Messages format alone. */
  ghost function NormalForm(t: Turn): seq<Turn> {
    if t.content.Str? then [t]
    else if t.content.Null? then []
    else
      var bs := t.content.blocks;
      var text := Join("\n", Texts(bs));
      if ResultTurns(bs) != [] then ResultTurns(bs)
      else if ToolUses(bs) != [] then [Turn(t.role, Blocks(Lead(Some(text)) + ToolUses(bs)))]
      else [Turn(t.role, Str(text))]
  }

  lemma ThereAndBack(c: Codec, t: Turn)
    requires Lawful(c) && WellFormed(t)
    ensures Normal(c, t) == NormalForm(t)
  {
    if t.content.Str? {
      OneTurn(c, Message(t.role, Some(t.content.text), []));
    } else {
      var bs := t.content.blocks;
      TurnsOfResults(c, bs);
      UsesSurvive(c, bs);
      if Results(bs) == [] {
        UsesByTheAssistant(t);
        OneTurn(c, TurnToMessages(c, t)[0]);
      }
    }
  }

  lemma UsesByTheAssistant(t: Turn)
    requires WellFormed(t) && t.content.Blocks?
    ensures ToolUses(t.content.blocks) != [] ==> t.role == Assistant
    ensures ResultTurns(t.content.blocks) != [] ==> t.role == User
  {
    var bs := t.content.blocks;
    SomeUse(bs);
    SomeResult(bs);
  }

  lemma {:induction false} SomeUse(bs: seq<Block>)
    ensures ToolUses(bs) != [] ==> exists b :: b in bs && b.ToolUse?
    ensures forall b | b in ToolUses(bs) :: b.ToolUse?
  {
    if bs != [] {
      SomeUse(bs[1..]);
      if bs[0].ToolUse? {
        assert bs[0] in bs;
      }
    }
  }

  lemma {:induction false} SomeResult(bs: seq<Block>)
    ensures ResultTurns(bs) != [] ==> exists b :: b in bs && b.ToolResult?
    ensures forall x | x in ResultTurns(bs) :: Canonical(x) && WellFormed(x) && x.role == User
  {
    if bs != [] {
      SomeResult(bs[1..]);
      if bs[0].ToolResult? {
        assert bs[0] in bs;
      }
    }
  }

  /** Every turn becomes canonical turns. */
  lemma NormalIsCanonical(t: Turn)
    requires WellFormed(t)
    ensures forall x | x in NormalForm(t) :: Canonical(x) && WellFormed(x)
  {
    if t.content.Blocks? {
      SomeResult(t.content.blocks);
      SomeUse(t.content.blocks);
      UsesByTheAssistant(t);
    }
  }

  lemma CanonicalIsFixed(t: Turn)
    requires WellFormed(t) && Canonical(t)
    ensures NormalForm(t) == [t]
  {
    if t.content.Blocks? {
      var bs := t.content.blocks;
      if t.role == Assistant {
        CanonicalPieces(bs);
      } else {
        assert bs == [ToolResult(bs[0].id, Plain(Flat(bs[0].content)))];
        assert ResultTurns(bs[1..]) == [];
      }
    }
  }

  // ---------- conversations ----------

  ghost predicate AllWellFormed(ts: seq<Turn>) {
    forall t | t in ts :: WellFormed(t)
  }

  ghost predicate AllCanonical(ts: seq<Turn>) {
    forall t | t in ts :: Canonical(t)
  }

  ghost function NormalTurns(c: Codec, ts: seq<Turn>): seq<Turn> {
    MessagesToTurns(c, TurnsToMessages(c, ts))
  }

  lemma NormalHead(c: Codec, ts: seq<Turn>)
    requires Lawful(c) && AllWellFormed(ts) && ts != []
    ensures NormalTurns(c, ts) == NormalForm(ts[0]) + NormalTurns(c, ts[1..])
  {
    hide NormalForm, TurnToMessages, WellFormed;
    FlatMapConcat(TurnWith(c), TurnToMessages(c, ts[0]), TurnsToMessages(c, ts[1..]));
    ThereAndBack(c, ts[0]);
  }

  lemma {:induction false} NormalTurnsAreCanonical(c: Codec, ts: seq<Turn>)
    requires Lawful(c) && AllWellFormed(ts)
    ensures AllCanonical(NormalTurns(c, ts)) && AllWellFormed(NormalTurns(c, ts))
  {
    if ts != [] {
      hide Canonical, WellFormed, NormalForm, NormalTurns;
      NormalHead(c, ts);
      NormalTurnsAreCanonical(c, ts[1..]);
      NormalIsCanonical(ts[0]);
    }
  }

  lemma {:induction false} CanonicalTurnsAreFixed(c: Codec, ts: seq<Turn>)
    requires Lawful(c) && AllWellFormed(ts) && AllCanonical(ts)
    ensures NormalTurns(c, ts) == ts
  {
    if ts != [] {
      NormalHead(c, ts);
      CanonicalTurnsAreFixed(c, ts[1..]);
      CanonicalIsFixed(ts[0]);
    }
  }

  /** There and back is the identity exactly on canonical conversations. */
  lemma FixedIffCanonical(c: Codec, ts: seq<Turn>)
    requires Lawful(c) && AllWellFormed(ts)
    ensures NormalTurns(c, ts) == ts <==> AllCanonical(ts)
  {
    NormalTurnsAreCanonical(c, ts);
    if AllCanonical(ts) {
      CanonicalTurnsAreFixed(c, ts);
    }
  }

  // ---------- what a conversation keeps ----------

  function UsesOf(t: Turn): seq<Block> {
    if t.content.Blocks? then ToolUses(t.content.blocks) else []
  }

  function ResultsOf(t: Turn): seq<Message> {
    if t.content.Blocks? then Results(t.content.blocks) else []
  }

  ghost function UsesIn(ts: seq<Turn>): seq<Block> {
    FlatMap(UsesOf, ts)
  }

  ghost function ResultsIn(ts: seq<Turn>): seq<Message> {
    FlatMap(ResultsOf, ts)
  }

  lemma {:induction false} ResultTurnsKeepResults(bs: seq<Block>)
    ensures ResultsIn(ResultTurns(bs)) == Results(bs) && UsesIn(ResultTurns(bs)) == []
  {
    if bs != [] {
      var rest := ResultTurns(bs[1..]);
      ResultTurnsKeepResults(bs[1..]);
      if bs[0].ToolResult? {
        var b := ToolResult(bs[0].id, Plain(Flat(bs[0].content)));
        var t := Turn(User, Blocks([b]));
        FlatMapOne(ResultOf, b);
        FlatMapOne(UseOf, b);
        FlatMapConcat(UsesOf, [t], rest);
        FlatMapConcat(ResultsOf, [t], rest);
        assert UsesIn([t][1..]) == [] && ResultsIn([t][1..]) == [];
      } else {
        assert ResultTurns(bs) == rest && Results(bs) == Results(bs[1..]);
      }
    }
  }

  lemma UsesAreTextThenUses(text: string, uses: seq<Block>)
    requires AllUses(uses)
    ensures ToolUses(Lead(Some(text)) + uses) == uses && Results(Lead(Some(text)) + uses) == []
  {
    OnlyUses(uses);
    NoResults(uses);
    if text != "" {
      assert (Lead(Some(text)) + uses)[1..] == uses;
    } else {
      assert Lead(Some(text)) + uses == uses;
    }
  }

  lemma {:induction false} NoResults(bs: seq<Block>)
    requires AllUses(bs)
    ensures Results(bs) == []
  {
    if bs != [] {
      NoResults(bs[1..]);
      assert bs[0] in bs;
    }
  }

  lemma InOneTurn(t: Turn)
    ensures UsesIn([t]) == if t.content.Blocks? then ToolUses(t.content.blocks) else []
    ensures ResultsIn([t]) == if t.content.Blocks? then Results(t.content.blocks) else []
  {
    FlatMapOne(UsesOf, t);
    FlatMapOne(ResultsOf, t);
  }

  lemma NormalFormKeeps(c: Codec, t: Turn)
    requires Lawful(c) && WellFormed(t)
    ensures UsesIn(NormalForm(t)) == UsesIn([t]) && ResultsIn(NormalForm(t)) == ResultsIn([t])
  {
    assert t.content != Null;
    hide UsesIn, ResultsIn, ToolUses, Results, ResultTurns, Texts, Lead, WellFormed;
    InOneTurn(t);
    if t.content.Blocks? {
      var bs := t.content.blocks;
      var text := Join("\n", Texts(bs));
      ResultTurnsKeepResults(bs);
      UsesByTheAssistant(t);
      TurnsOfResults(c, bs);
      UsesSurvive(c, bs);
      UsesAreTextThenUses(text, ToolUses(bs));
      InOneTurn(Turn(t.role, Blocks(Lead(Some(text)) + ToolUses(bs))));
      InOneTurn(Turn(t.role, Str(text)));
    }
  }

  lemma {:induction false} UsesAndMessagesSurvive(c: Codec, ts: seq<Turn>)
    requires Lawful(c) && AllWellFormed(ts)
    ensures UsesIn(NormalTurns(c, ts)) == UsesIn(ts) && ResultsIn(NormalTurns(c, ts)) == ResultsIn(ts)
  {
    if ts != [] {
      hide NormalForm, WellFormed, NormalTurns;
      NormalHead(c, ts);
      UsesAndMessagesSurvive(c, ts[1..]);
      NormalFormKeeps(c, ts[0]);
      FlatMapConcat(UsesOf, NormalForm(ts[0]), NormalTurns(c, ts[1..]));
      FlatMapConcat(ResultsOf, NormalForm(ts[0]), NormalTurns(c, ts[1..]));
      FlatMapConcat(UsesOf, [ts[0]], ts[1..]);
      FlatMapConcat(ResultsOf, [ts[0]], ts[1..]);
      assert ts == [ts[0]] + ts[1..];
    }
  }

  ghost function TurnText(t: Turn): string {
    match t.content
    case Str(text) => text
    case Blocks(bs) => Join("\n", Texts(bs))
    case Null => ""
  }

  /** A turn without tool results keeps its role and its text; the text beside tool results is lost. */
  lemma TextSurvivesIff(t: Turn)
    requires WellFormed(t)
    ensures
      (exists x :: x in NormalForm(t) && x.role == t.role && TurnText(x) == TurnText(t)) <==>
      TurnText(t) == "" || !(t.content.Blocks? && ResultTurns(t.content.blocks) != [])
  {
    if t.content.Blocks? {
      var bs := t.content.blocks;
      var text := Join("\n", Texts(bs));
      ResultTurnsHaveNoText(bs);
      UsesByTheAssistant(t);
      if ResultTurns(bs) != [] {
        assert ResultTurns(bs)[0] in NormalForm(t);
      } else {
        SomeUse(bs);
        TextOfLead(text, ToolUses(bs));
        assert NormalForm(t)[0] in NormalForm(t) && TurnText(NormalForm(t)[0]) == text;
      }
    } else {
      assert t in NormalForm(t);
    }
  }

  lemma TextOfLead(text: string, uses: seq<Block>)
    requires AllUses(uses)
    ensures Join("\n", Texts(Lead(Some(text)) + uses)) == text
  {
    OnlyUses(uses);
    FlatMapConcat(TextOf, Lead(Some(text)), uses);
    assert text != "" ==> Texts([Text(text)]) == [text];
  }

  lemma {:induction false} ResultTurnsHaveNoText(bs: seq<Block>)
    ensures forall x | x in ResultTurns(bs) :: x.role == User && TurnText(x) == ""
  {
    if bs != [] {
      ResultTurnsHaveNoText(bs[1..]);
      if bs[0].ToolResult? {
        FlatMapOne(TextOf, ToolResult(bs[0].id, Plain(Flat(bs[0].content))));
      }
    }
  }

  // ---------- requests ----------

  const DEFAULT_MAX_TOKENS := 4096

  datatype Tool = Tool(name: Name, description: string, schema: Json)

  datatype FunctionTool = FunctionTool(name: Name, description: string, parameters: Json)

  /** What is passed on as it is; no stop sequences are an empty list. */
  datatype Sampling = Sampling(temperature: Option<real>, topP: Option<real>, stop: seq<string>, stream: bool)

  /** An absent system prompt is empty, an absent token limit is zero. */
  datatype MessagesRequest = MessagesRequest(
    model: Name, system: string, turns: seq<Turn>, maxTokens: int, sampling: Sampling, tools: seq<Tool>, metadata: Option<Json>)

  datatype ChatRequest = ChatRequest(
    model: Name, messages: seq<Message>, maxTokens: int, sampling: Sampling, tools: seq<FunctionTool>, metadata: Option<Json>)

  function SystemMessage(system: string): seq<Message> {
    if system != "" then [Message(SystemRole, Some(system), [])] else []
  }

  function ToFunctions(tools: seq<Tool>): seq<FunctionTool> {
    if tools == [] then []
    else [FunctionTool(tools[0].name, tools[0].description, tools[0].schema)] + ToFunctions(tools[1..])
  }

  function FromFunctions(tools: seq<FunctionTool>): seq<Tool> {
    if tools == [] then []
    else [Tool(tools[0].name, tools[0].description, tools[0].parameters)] + FromFunctions(tools[1..])
  }

  function ToChat(c: Codec, r: MessagesRequest): ChatRequest {
    ChatRequest(
      r.model, SystemMessage(r.system) + TurnsToMessages(c, r.turns), r.maxTokens, r.sampling, ToFunctions(r.tools), r.metadata)
  }

  predicate StartsWithSystem(ms: seq<Message>) {
    ms != [] && ms[0].Message? && ms[0].role == SystemRole
  }

  /** A leading system message becomes the system field; a null content is read as the text None. */
  function ToMessages(c: Codec, r: ChatRequest, providerModel: Name): MessagesRequest {
    var led := StartsWithSystem(r.messages);
    MessagesRequest(
      providerModel,
      if led then r.messages[0].content.GetOr("None") else "",
      MessagesToTurns(c, if led then r.messages[1..] else r.messages),
      if r.maxTokens != 0 then r.maxTokens else DEFAULT_MAX_TOKENS,
      r.sampling, FromFunctions(r.tools), None)
  }

  method AnthropicToOpenAIRequest(c: Codec, r: MessagesRequest) returns (chat: ChatRequest)
    ensures chat == ToChat(c, r)
  {
    hide TurnToMessages;
    var messages: seq<Message> := [];
    if r.system != "" {
      messages := [Message(SystemRole, Some(r.system), [])];
    }
    for n := 0 to |r.turns|
      invariant messages + TurnsToMessages(c, r.turns[n..]) == SystemMessage(r.system) + TurnsToMessages(c, r.turns)
    {
      assert r.turns[n..][1..] == r.turns[n + 1..];
      var more := MessagesOfTurn(c, r.turns[n]);
      messages := messages + more;
    }
    var functions := [];
    for n := 0 to |r.tools|
      invariant functions + ToFunctions(r.tools[n..]) == ToFunctions(r.tools)
    {
      assert r.tools[n..][1..] == r.tools[n + 1..];
      functions := functions + [FunctionTool(r.tools[n].name, r.tools[n].description, r.tools[n].schema)];
    }
    chat := ChatRequest(r.model, messages, r.maxTokens, r.sampling, functions, r.metadata);
  }

  method TransformRequest(c: Codec, r: ChatRequest, providerModel: Name) returns (request: MessagesRequest)
    ensures request == ToMessages(c, r, providerModel)
  {
    var messages, system := r.messages, "";
    if messages != [] && messages[0].Message? && messages[0].role == SystemRole {
      system := messages[0].content.GetOr("None");
      messages := messages[1..];
    }
    var turns := TurnsOfMessages(c, messages);
    var tools := [];
    for n := 0 to |r.tools|
      invariant tools + FromFunctions(r.tools[n..]) == FromFunctions(r.tools)
    {
      assert r.tools[n..][1..] == r.tools[n + 1..];
      tools := tools + [Tool(r.tools[n].name, r.tools[n].description, r.tools[n].parameters)];
    }
    var maxTokens := if r.maxTokens != 0 then r.maxTokens else DEFAULT_MAX_TOKENS;
    request := MessagesRequest(providerModel, system, turns, maxTokens, r.sampling, tools, None);
  }

  lemma {:induction false} ToolsSurvive(tools: seq<Tool>)
    ensures FromFunctions(ToFunctions(tools)) == tools
  {
    if tools != [] {
      ToolsSurvive(tools[1..]);
      assert ToFunctions(tools)[1..] == ToFunctions(tools[1..]);
    }
  }

  lemma {:induction false} NoSystemMessages(c: Codec, ts: seq<Turn>)
    requires AllWellFormed(ts)
    ensures !StartsWithSystem(TurnsToMessages(c, ts))
  {
    if ts != [] {
      NoSystemMessages(c, ts[1..]);
      assert WellFormed(ts[0]);
      if ts[0].content.Blocks? {
        ResultsAreToolMessages(ts[0].content.blocks);
        assert Results(ts[0].content.blocks) != [] ==> Results(ts[0].content.blocks)[0].ToolMessage?;
        assert TurnToMessages(c, ts[0]) != [];
      }
    }
  }

  lemma {:induction false} ResultsAreToolMessages(bs: seq<Block>)
    ensures forall m | m in Results(bs) :: m.ToolMessage?
  {
    if bs != [] {
      ResultsAreToolMessages(bs[1..]);
    }
  }

  ghost function NormalRequest(c: Codec, r: MessagesRequest, providerModel: Name): MessagesRequest {
    ToMessages(c, ToChat(c, r), providerModel)
  }

  ghost predicate CanonicalRequest(r: MessagesRequest, providerModel: Name) {
    r.model == providerModel && r.maxTokens != 0 && r.metadata.None? && AllCanonical(r.turns)
  }

  /** There and back keeps the system prompt, the sampling and the tools, and normalises the conversation. */
  lemma RequestThereAndBack(c: Codec, r: MessagesRequest, m: Name)
    requires Lawful(c) && AllWellFormed(r.turns)
    ensures
      NormalRequest(c, r, m) ==
      r.(model := m, turns := NormalTurns(c, r.turns), maxTokens := if r.maxTokens != 0 then r.maxTokens else DEFAULT_MAX_TOKENS,
         metadata := None)
  {
    hide AllWellFormed, TurnsToMessages;
    NoSystemMessages(c, r.turns);
    ToolsSurvive(r.tools);
    var ms := TurnsToMessages(c, r.turns);
    if r.system == "" {
      assert SystemMessage(r.system) + ms == ms;
    } else {
      assert (SystemMessage(r.system) + ms)[1..] == ms;
    }
  }

  /** Doing it twice is doing it once. */
  lemma RequestNormalFormIsStable(c: Codec, r: MessagesRequest, m: Name)
    requires Lawful(c) && AllWellFormed(r.turns)
    ensures NormalRequest(c, NormalRequest(c, r, m), m) == NormalRequest(c, r, m)
    ensures CanonicalRequest(NormalRequest(c, r, m), m)
  {
    hide NormalRequest;
    RequestThereAndBack(c, r, m);
    NormalTurnsAreCanonical(c, r.turns);
    RequestThereAndBack(c, NormalRequest(c, r, m), m);
    CanonicalTurnsAreFixed(c, NormalTurns(c, r.turns));
  }

  lemma RequestFixedIffCanonical(c: Codec, r: MessagesRequest, m: Name)
    requires Lawful(c) && AllWellFormed(r.turns)
    ensures NormalRequest(c, r, m) == r <==> CanonicalRequest(r, m)
  {
    hide NormalRequest;
    RequestThereAndBack(c, r, m);
    FixedIffCanonical(c, r.turns);
  }

  // ---------- responses ----------

  /** `Unset` stands for a missing or null stop reason. */
  datatype StopReason = EndTurn | StopSequence | MaxTokens | ToolUseStop | Unset | OtherStop(name: Name)

  datatype Finish = Stop | Length | ToolCalls | OtherFinish(name: Name)

  datatype Usage = Usage(input: int, output: int, cacheCreation: int, cacheRead: int)

  datatype MessagesResponse = MessagesResponse(id: Name, model: Name, content: seq<Block>, stop: StopReason, usage: Usage)

  datatype Choice = Choice(content: Option<string>, calls: seq<Call>, finish: Finish)

  datatype ChatResponse = ChatResponse(id: Name, model: Name, choice: Option<Choice>, usage: Usage, total: int)

  function FinishOf(s: StopReason): Finish {
    match s
    case MaxTokens => Length
    case ToolUseStop => ToolCalls
    case _ => Stop
  }

  function StopOf(f: Finish): StopReason {
    match f
    case Length => MaxTokens
    case ToolCalls => ToolUseStop
    case _ => EndTurn
  }

  function ToChatResponse(c: Codec, r: MessagesResponse): ChatResponse {
    var texts := Texts(r.content);
    ChatResponse(
      r.id, r.model,
      Some(Choice(if texts == [] then None else Some(Join("\n", texts)), Calls(c, r.content), FinishOf(r.stop))),
      r.usage, r.usage.input + r.usage.output)
  }

  function ToMessagesResponse(c: Codec, r: ChatResponse, model: Name): MessagesResponse {
    match r.choice
    case None => MessagesResponse(r.id, model, [], EndTurn, r.usage)
    case Some(x) => MessagesResponse(r.id, model, Lead(x.content) + Uses(c, x.calls), StopOf(x.finish), r.usage)
  }

  method TransformResponse(c: Codec, r: MessagesResponse) returns (chat: ChatResponse)
    ensures chat == ToChatResponse(c, r)
  {
    hide Join, FlatMap;
    var texts, calls: seq<Call> := [], [];
    NoBlocks(c);
    for n := 0 to |r.content|
      invariant texts == Texts(r.content[..n]) && calls == Calls(c, r.content[..n])
    {
      var b := r.content[n];
      FlatMapConcat(TextOf, r.content[..n], [b]);
      FlatMapConcat(CallWith(c), r.content[..n], [b]);
      OneBlock(c, b);
      assert r.content[..n] + [b] == r.content[..n + 1];
      if b.Text? {
        texts := texts + [b.text];
      } else if b.ToolUse? {
        calls := calls + [Call(b.id, b.name, c.write(b.input))];
      }
    }
    assert r.content[..|r.content|] == r.content;
    var content := if texts == [] then None else Some(Join("\n", texts));
    var usage := r.usage;
    chat := ChatResponse(r.id, r.model, Some(Choice(content, calls, FinishOf(r.stop))), usage, usage.input + usage.output);
  }

  method OpenAIToAnthropicResponse(c: Codec, r: ChatResponse, model: Name) returns (response: MessagesResponse)
    ensures response == ToMessagesResponse(c, r, model)
  {
    var content, stop := [], EndTurn;
    if r.choice.Some? {
      var x := r.choice.value;
      if x.content.Some? && x.content.value != "" {
        content := [Text(x.content.value)];
      }
      var uses := UsesOfCalls(c, x.calls);
      content := content + uses;
      stop := StopOf(x.finish);
    }
    response := MessagesResponse(r.id, model, content, stop, r.usage);
  }

  ghost function NormalResponse(c: Codec, r: MessagesResponse, model: Name): MessagesResponse {
    ToMessagesResponse(c, ToChatResponse(c, r), model)
  }

  ghost predicate CanonicalResponse(r: MessagesResponse, model: Name) {
    r.model == model && TextThenUses(r.content) && r.stop in {EndTurn, MaxTokens, ToolUseStop}
  }

  /** No texts at all and an empty joined text lead with nothing alike. */
  lemma LeadOfTexts(texts: seq<string>)
    ensures Lead(if texts == [] then None else Some(Join("\n", texts))) == Lead(Some(Join("\n", texts)))
  {
  }

  lemma LeadThenUses(text: string, uses: seq<Block>)
    requires AllUses(uses)
    ensures TextThenUses(Lead(Some(text)) + uses)
  {
    if text == "" {
      assert Lead(Some(text)) + uses == uses;
    } else {
      assert (Lead(Some(text)) + uses)[1..] == uses;
    }
  }

  /** There and back keeps the text, every tool use in order with its id, the token counts, and the stop reason up to end_turn. */
  lemma ResponseThereAndBack(c: Codec, r: MessagesResponse, model: Name)
    requires Lawful(c)
    ensures
      NormalResponse(c, r, model) ==
      r.(model := model, content := Lead(Some(Join("\n", Texts(r.content)))) + ToolUses(r.content),
         stop := if r.stop in {MaxTokens, ToolUseStop} then r.stop else EndTurn)
    ensures ToolUses(NormalResponse(c, r, model).content) == ToolUses(r.content)
    ensures Join("\n", Texts(NormalResponse(c, r, model).content)) == Join("\n", Texts(r.content))
    ensures CanonicalResponse(NormalResponse(c, r, model), model)
  {
    hide FlatMap, Join, AllUses, Lead, TextThenUses;
    var text, uses := Join("\n", Texts(r.content)), ToolUses(r.content);
    UsesSurvive(c, r.content);
    LeadOfTexts(Texts(r.content));
    UsesAreTextThenUses(text, uses);
    TextOfLead(text, uses);
    LeadThenUses(text, uses);
  }

  lemma ResponseFixedIffCanonical(c: Codec, r: MessagesResponse, model: Name)
    requires Lawful(c)
    ensures NormalResponse(c, r, model) == r <==> CanonicalResponse(r, model)
    ensures NormalResponse(c, NormalResponse(c, r, model), model) == NormalResponse(c, r, model)
  {
    hide NormalResponse;
    ResponseThereAndBack(c, r, model);
    ResponseThereAndBack(c, NormalResponse(c, r, model), model);
    CanonicalPieces(NormalResponse(c, r, model).content);
    if CanonicalResponse(r, model) {
      CanonicalPieces(r.content);
    }
  }

  // ---------- what each direction says, block by block ----------

  datatype Sort = IsText | IsUse | IsResult

  ghost predicate Is(s: Sort, b: Block) {
    match s
    case IsText => b.Text?
    case IsUse => b.ToolUse?
    case IsResult => b.ToolResult?
  }

  /** How many of the first n blocks are of a sort. */
  ghost function Count(s: Sort, bs: seq<Block>, n: nat): nat
    requires n <= |bs|
  {
    if n == 0 then 0 else Count(s, bs, n - 1) + if Is(s, bs[n - 1]) then 1 else 0
  }

  /** Where part k of a joined text begins. */
  ghost function Offset(parts: seq<string>, k: nat): nat
    requires k <= |parts|
  {
    if k == 0 then 0 else Offset(parts, k - 1) + |parts[k - 1]| + 1
  }

  ghost predicate PartAt(text: string, parts: seq<string>, k: nat, between: char)
    requires k < |parts|
  {
    var at := Offset(parts, k);
    && at + |parts[k]| <= |text| && text[at..at + |parts[k]|] == parts[k]
    && (k > 0 ==> text[at - 1] == between)
  }

  /** The parts in order, exactly one character between neighbours. */
  ghost predicate IsJoined(text: string, parts: seq<string>, between: char) {
    if parts == [] then text == ""
    else |text| + 1 == Offset(parts, |parts|) && forall k: nat | k < |parts| :: PartAt(text, parts, k, between)
  }

  lemma {:induction false} OffsetOfRest(parts: seq<string>, k: nat)
    requires 1 <= k <= |parts|
    ensures Offset(parts, k) == |parts[0]| + 1 + Offset(parts[1..], k - 1)
  {
    if k > 1 {
      OffsetOfRest(parts, k - 1);
    }
  }

  lemma PartOfRest(parts: seq<string>, rest: string, k: nat, between: char)
    requires |parts| > 1 && 1 <= k < |parts| && PartAt(rest, parts[1..], k - 1, between)
    ensures PartAt(parts[0] + [between] + rest, parts, k, between)
  {
    OffsetOfRest(parts, k);
    var text, at := parts[0] + [between] + rest, Offset(parts[1..], k - 1);
    assert text[|parts[0]| + 1 + at..|parts[0]| + 1 + at + |parts[k]|] == rest[at..at + |parts[k]|];
    if k == 1 {
      assert text[|parts[0]|] == between;
    } else {
      assert text[|parts[0]| + 1 + (at - 1)] == rest[at - 1];
    }
  }

  lemma {:induction false} JoinIsJoined(parts: seq<string>, between: char)
    ensures IsJoined(Join([between], parts), parts, between)
  {
    hide PartAt;
    if |parts| == 1 {
      OnePart(parts, between);
    } else if |parts| > 1 {
      JoinIsJoined(parts[1..], between);
      var rest := Join([between], parts[1..]);
      OffsetOfRest(parts, |parts|);
      FirstPart(parts, rest, between);
      forall k: nat | k < |parts|
        ensures PartAt(parts[0] + [between] + rest, parts, k, between)
      {
        if k > 0 {
          PartOfRest(parts, rest, k, between);
        }
      }
    }
  }

  lemma OnePart(parts: seq<string>, between: char)
    requires |parts| == 1
    ensures PartAt(parts[0], parts, 0, between)
  {
  }

  lemma FirstPart(parts: seq<string>, rest: string, between: char)
    requires |parts| > 0
    ensures PartAt(parts[0] + [between] + rest, parts, 0, between)
  {
  }

  ghost predicate ListsTexts(bs: seq<Block>, texts: seq<string>) {
    && |texts| == Count(IsText, bs, |bs|)
    && forall n: nat | n < |bs| && bs[n].Text? ::
         Count(IsText, bs, n) < |texts| && texts[Count(IsText, bs, n)] == bs[n].text
  }

  ghost predicate ListsUses(c: Codec, bs: seq<Block>, calls: seq<Call>) {
    && |calls| == Count(IsUse, bs, |bs|)
    && forall n: nat | n < |bs| && bs[n].ToolUse? ::
         && Count(IsUse, bs, n) < |calls|
         && var call := calls[Count(IsUse, bs, n)];
            call.id == bs[n].id && call.name == bs[n].name && call.arguments == c.write(bs[n].input)
  }

  /** A result's text is its plain content, or its parts with one blank between them. */
  ghost predicate TellsResult(text: string, content: ResultContent) {
    match content
    case Plain(plain) => text == plain
    case Parts(parts) => IsJoined(text, parts, ' ')
  }

  ghost predicate ListsResults(bs: seq<Block>, ms: seq<Message>) {
    && |ms| == Count(IsResult, bs, |bs|)
    && forall n: nat | n < |bs| && bs[n].ToolResult? ::
         && Count(IsResult, bs, n) < |ms|
         && var m := ms[Count(IsResult, bs, n)];
            m.ToolMessage? && m.callId == bs[n].id && TellsResult(m.text, bs[n].content)
  }

  lemma FlatTells(content: ResultContent)
    ensures TellsResult(Flat(content), content)
  {
    if content.Parts? {
      JoinIsJoined(content.parts, ' ');
    }
  }

  lemma OneMoreBlockOf(c: Codec, bs: seq<Block>, n: nat)
    requires n < |bs|
    ensures Texts(bs[..n + 1]) == Texts(bs[..n]) + TextOf(bs[n])
    ensures Calls(c, bs[..n + 1]) == Calls(c, bs[..n]) + CallOf(c, bs[n])
    ensures Results(bs[..n + 1]) == Results(bs[..n]) + ResultOf(bs[n])
  {
    hide FlatMap, TextOf, CallOf, ResultOf;
    assert bs[..n + 1] == bs[..n] + [bs[n]];
    FlatMapConcat(TextOf, bs[..n], [bs[n]]);
    FlatMapConcat(CallWith(c), bs[..n], [bs[n]]);
    FlatMapConcat(ResultOf, bs[..n], [bs[n]]);
    OneBlock(c, bs[n]);
  }

  lemma {:induction false} CountsUpTo(c: Codec, bs: seq<Block>, n: nat)
    requires n <= |bs|
    ensures |Texts(bs[..n])| == Count(IsText, bs, n)
    ensures |Calls(c, bs[..n])| == Count(IsUse, bs, n)
    ensures |Results(bs[..n])| == Count(IsResult, bs, n)
  {
    hide Texts, Calls, Results, Flat;
    if n == 0 {
      NoBlocks(c);
    } else {
      CountsUpTo(c, bs, n - 1);
      OneMoreBlockOf(c, bs, n - 1);
    }
  }

  lemma {:induction false} PrefixOfPieces(c: Codec, bs: seq<Block>, n: nat, m: nat)
    requires n <= m <= |bs|
    ensures Texts(bs[..n]) <= Texts(bs[..m]) && Calls(c, bs[..n]) <= Calls(c, bs[..m]) && Results(bs[..n]) <= Results(bs[..m])
  {
    hide Texts, Calls, Results, TextOf, CallOf, ResultOf;
    if n < m {
      PrefixOfPieces(c, bs, n, m - 1);
      OneMoreBlockOf(c, bs, m - 1);
    }
  }

  lemma PieceAt(c: Codec, bs: seq<Block>, n: nat)
    requires n < |bs|
    ensures bs[n].Text? ==> Count(IsText, bs, n) < |Texts(bs)| && Texts(bs)[Count(IsText, bs, n)] == bs[n].text
    ensures
      bs[n].ToolUse? ==>
        Count(IsUse, bs, n) < |Calls(c, bs)|
        && Calls(c, bs)[Count(IsUse, bs, n)] == Call(bs[n].id, bs[n].name, c.write(bs[n].input))
    ensures
      bs[n].ToolResult? ==>
        Count(IsResult, bs, n) < |Results(bs)|
        && Results(bs)[Count(IsResult, bs, n)] == ToolMessage(bs[n].id, Flat(bs[n].content))
  {
    hide Texts, Calls, Results, Flat, Count;
    CountsUpTo(c, bs, n);
    OneMoreBlockOf(c, bs, n);
    PrefixOfPieces(c, bs, n + 1, |bs|);
    assert bs[..|bs|] == bs;
  }

  /** Texts, tool uses and tool results come out in order, none left out and none added. */
  lemma PiecesAreListed(c: Codec, bs: seq<Block>)
    ensures ListsTexts(bs, Texts(bs)) && ListsUses(c, bs, Calls(c, bs)) && ListsResults(bs, Results(bs))
  {
    hide Texts, Calls, Results, Flat, Count;
    CountsUpTo(c, bs, |bs|);
    assert bs[..|bs|] == bs;
    forall n: nat | n < |bs|
      ensures bs[n].ToolResult? ==> TellsResult(Flat(bs[n].content), bs[n].content)
    {
      PieceAt(c, bs, n);
      if bs[n].ToolResult? {
        FlatTells(bs[n].content);
      }
    }
    forall n: nat | n < |bs| {
      PieceAt(c, bs, n);
    }
  }

  function ResultBlockOf(b: Block): seq<Block> {
    if b.ToolResult? then [b] else []
  }

  function ToolResults(bs: seq<Block>): seq<Block> {
    FlatMap(ResultBlockOf, bs)
  }

  function ToolResultsOf(t: Turn): seq<Block> {
    if t.content.Blocks? then ToolResults(t.content.blocks) else []
  }

  ghost function ToolResultsIn(ts: seq<Turn>): seq<Block> {
    FlatMap(ToolResultsOf, ts)
  }

  /** The blocks of one sort, in order, none left out and none added. */
  ghost predicate ListsBlocks(s: Sort, bs: seq<Block>, listed: seq<Block>) {
    && |listed| == Count(s, bs, |bs|)
    && forall n: nat | n < |bs| && Is(s, bs[n]) :: Count(s, bs, n) < |listed| && listed[Count(s, bs, n)] == bs[n]
  }

  lemma ListsOneMore(s: Sort, bs: seq<Block>, b: Block, listed: seq<Block>)
    requires ListsBlocks(s, bs, listed)
    ensures ListsBlocks(s, bs + [b], listed + if Is(s, b) then [b] else [])
  {
    var longer, more := bs + [b], listed + if Is(s, b) then [b] else [];
    CountOfPrefix(s, bs, b, |bs|);
    forall n: nat | n < |longer| && Is(s, longer[n])
      ensures Count(s, longer, n) < |more| && more[Count(s, longer, n)] == longer[n]
    {
      CountOfPrefix(s, bs, b, n);
      if n < |bs| {
        assert Is(s, bs[n]);
      }
    }
  }

  lemma {:induction false} CountOfPrefix(s: Sort, bs: seq<Block>, b: Block, n: nat)
    requires n <= |bs|
    ensures Count(s, bs + [b], n) == Count(s, bs, n)
  {
    if n > 0 {
      CountOfPrefix(s, bs, b, n - 1);
    }
  }

  lemma {:induction false} SortsAreListed(bs: seq<Block>)
    ensures ListsBlocks(IsUse, bs, ToolUses(bs)) && ListsBlocks(IsResult, bs, ToolResults(bs))
  {
    hide ListsBlocks;
    if bs == [] {
      NothingListed();
    } else {
      var n := |bs| - 1;
      var before, b := bs[..n], bs[n];
      SortsAreListed(before);
      FlatMapConcat(UseOf, before, [b]);
      FlatMapConcat(ResultBlockOf, before, [b]);
      FlatMapOne(UseOf, b);
      FlatMapOne(ResultBlockOf, b);
      ListsOneMore(IsUse, before, b, ToolUses(before));
      ListsOneMore(IsResult, before, b, ToolResults(before));
      assert bs == before + [b];
    }
  }

  lemma NothingListed()
    ensures ListsBlocks(IsUse, [], ToolUses([])) && ListsBlocks(IsResult, [], ToolResults([]))
  {
  }

  ghost predicate SameResults(messages: seq<Message>, results: seq<Block>) {
    && |messages| == |results|
    && forall k | 0 <= k < |results| ::
         results[k].ToolResult? && messages[k] == ToolMessage(results[k].id, Flat(results[k].content))
  }

  lemma {:induction false} MessagesOfToolResults(bs: seq<Block>)
    ensures SameResults(Results(bs), ToolResults(bs))
  {
    hide Flat;
    if bs != [] {
      MessagesOfToolResults(bs[1..]);
    }
  }

  lemma {:induction false} MessagesOfToolResultsIn(ts: seq<Turn>)
    ensures SameResults(ResultsIn(ts), ToolResultsIn(ts))
  {
    hide Flat, Results, ToolResults;
    if ts != [] {
      MessagesOfToolResultsIn(ts[1..]);
      if ts[0].content.Blocks? {
        MessagesOfToolResults(ts[0].content.blocks);
      }
    }
  }

  lemma {:induction false} PlainResultsIn(ts: seq<Turn>)
    requires AllCanonical(ts)
    ensures forall b | b in ToolResultsIn(ts) :: b.ToolResult? && b.content.Plain?
  {
    if ts != [] {
      assert Canonical(ts[0]);
      PlainResultsIn(ts[1..]);
      PlainResultsOf(ts[0]);
    }
  }

  lemma PlainResultsOf(t: Turn)
    requires Canonical(t)
    ensures forall b | b in ToolResultsOf(t) :: b.ToolResult? && b.content.Plain?
  {
    if t.content.Blocks? {
      var bs := t.content.blocks;
      if t.role == Assistant {
        assert bs == [bs[0]] + bs[1..];
        NoToolResults(bs);
      } else {
        FlatMapOne(ResultBlockOf, bs[0]);
        assert bs == [bs[0]];
      }
    }
  }

  lemma {:induction false} NoToolResults(bs: seq<Block>)
    requires forall b | b in bs :: !b.ToolResult?
    ensures ToolResults(bs) == []
  {
    if bs != [] {
      NoToolResults(bs[1..]);
      assert bs[0] in bs;
    }
  }

  /** Every result keeps its id and becomes plain text: its own, or its parts in order with one blank between neighbours. */
  ghost predicate KeepsResults(before: seq<Block>, after: seq<Block>) {
    && |after| == |before|
    && forall k | 0 <= k < |before| ::
         && before[k].ToolResult? && after[k].ToolResult? && after[k].id == before[k].id
         && after[k].content.Plain? && TellsResult(after[k].content.text, before[k].content)
  }

  /** Every tool use and every tool result survives, in order, with its id; only results are flattened to text. */
  lemma UsesAndResultsSurvive(c: Codec, ts: seq<Turn>)
    requires Lawful(c) && AllWellFormed(ts)
    ensures UsesIn(NormalTurns(c, ts)) == UsesIn(ts)
    ensures KeepsResults(ToolResultsIn(ts), ToolResultsIn(NormalTurns(c, ts)))
  {
    hide Flat, NormalTurns, ToolResultsIn, ResultsIn, UsesIn, AllWellFormed, AllCanonical;
    UsesAndMessagesSurvive(c, ts);
    NormalTurnsAreCanonical(c, ts);
    PlainResultsIn(NormalTurns(c, ts));
    MessagesOfToolResultsIn(ts);
    MessagesOfToolResultsIn(NormalTurns(c, ts));
    var before, after := ToolResultsIn(ts), ToolResultsIn(NormalTurns(c, ts));
    forall k | 0 <= k < |before|
      ensures after[k].content.Plain? && TellsResult(after[k].content.text, before[k].content)
    {
      assert after[k] in after;
      FlatTells(before[k].content);
      FlatTells(after[k].content);
    }
  }

  // ---------- turns and messages ----------

  /** The messages that a turn becomes. */
  ghost predicate TellsTurn(c: Codec, t: Turn, ms: seq<Message>) {
    match t.content
    case Str(text) => ms == [Message(t.role, Some(text), [])]
    case Null => ms == []
    case Blocks(bs) =>
      if Count(IsResult, bs, |bs|) > 0 then ListsResults(bs, ms)
      else
        && |ms| == 1 && ms[0].Message? && ms[0].role == t.role && ListsUses(c, bs, ms[0].calls)
        && TellsTexts(bs, ms[0].content)
  }

  /** The texts with line breaks between; no text at all is null beside tool uses, and empty otherwise. */
  ghost predicate TellsTexts(bs: seq<Block>, content: Option<string>) {
    if Count(IsText, bs, |bs|) == 0 then content == if Count(IsUse, bs, |bs|) > 0 then None else Some("")
    else content.Some? && exists texts :: ListsTexts(bs, texts) && IsJoined(content.value, texts, '\n')
  }

  lemma TurnIsTold(c: Codec, t: Turn)
    ensures TellsTurn(c, t, TurnToMessages(c, t))
  {
    hide Texts, Calls, Results, Count, ListsTexts, ListsUses, ListsResults, IsJoined;
    if t.content.Blocks? {
      var bs := t.content.blocks;
      PiecesAreListed(c, bs);
      CountsUpTo(c, bs, |bs|);
      assert bs[..|bs|] == bs;
      JoinIsJoined(Texts(bs), '\n');
      EmptyJoin();
    }
  }

  lemma EmptyJoin()
    ensures Join("\n", []) == ""
  {
  }

  lemma {:induction false} TurnsConcat(c: Codec, a: seq<Turn>, b: seq<Turn>)
    ensures TurnsToMessages(c, a + b) == TurnsToMessages(c, a) + TurnsToMessages(c, b)
  {
    hide TurnToMessages;
    if a == [] {
      assert a + b == b;
    } else {
      assert (a + b)[1..] == a[1..] + b;
      TurnsConcat(c, a[1..], b);
    }
  }

  /** The messages of a conversation are those of its turns, one turn after the other. */
  lemma ConversationIsTold(c: Codec, ts: seq<Turn>, n: nat)
    requires n < |ts|
    ensures
      var before, behind := TurnsToMessages(c, ts[..n]), TurnsToMessages(c, ts[n + 1..]);
      var all := TurnsToMessages(c, ts);
      && |before| + |behind| <= |all| && all == before + all[|before|..|all| - |behind|] + behind
      && TellsTurn(c, ts[n], all[|before|..|all| - |behind|])
  {
    hide TurnToMessages, TellsTurn;
    TurnIsTold(c, ts[n]);
    TurnsConcat(c, ts[..n], ts[n..]);
    assert ts == ts[..n] + ts[n..] && ts[n..][1..] == ts[n + 1..];
    var before, own, behind := TurnsToMessages(c, ts[..n]), TurnToMessages(c, ts[n]), TurnsToMessages(c, ts[n + 1..]);
    assert TurnsToMessages(c, ts) == before + (own + behind);
    Middle(before, own, behind);
  }

  lemma Middle<T>(a: seq<T>, b: seq<T>, c: seq<T>)
    ensures (a + (b + c))[|a|..|a + (b + c)| - |c|] == b && a + (b + c) == a + b + c
  {
  }

  /** The one turn that a message becomes. */
  ghost predicate TellsMessage(c: Codec, m: Message, t: Turn) {
    match m
    case ToolMessage(id, text) => t.role == User && t.content == Blocks([ToolResult(id, Plain(text))])
    case Message(role, content, calls) =>
      && t.role == role
      && if role != Assistant || calls == [] then t.content == (if content.Some? then Str(content.value) else Null)
         else t.content.Blocks? && TellsReply(c, content, calls, t.content.blocks)
  }

  /** A text unless it is empty or missing, and then one tool use for each call; arguments that do not parse are the empty object. */
  ghost predicate TellsReply(c: Codec, content: Option<string>, calls: seq<Call>, bs: seq<Block>) {
    var lead := if content == None || content == Some("") then 0 else 1;
    && |bs| == lead + |calls| && (lead == 1 ==> bs[0] == Text(content.value))
    && forall k | 0 <= k < |calls| :: TellsCall(c, calls[k], bs[lead + k])
  }

  ghost predicate TellsCall(c: Codec, call: Call, b: Block) {
    && b.ToolUse? && b.id == call.id && b.name == call.name
    && match c.parse(call.arguments)
       case Some(input) => b.input == input
       case None => b.input == c.empty
  }

  lemma {:induction false} UsesAreTold(c: Codec, calls: seq<Call>)
    ensures TellsReply(c, None, calls, Uses(c, calls))
  {
    if calls != [] {
      UsesAreTold(c, calls[1..]);
    }
  }

  lemma ReplyIsTold(c: Codec, content: Option<string>, calls: seq<Call>)
    ensures TellsReply(c, content, calls, Lead(content) + Uses(c, calls))
  {
    hide Uses;
    UsesAreTold(c, calls);
    var uses, bs, lead := Uses(c, calls), Lead(content) + Uses(c, calls), |Lead(content)|;
    forall k | 0 <= k < |calls|
      ensures TellsCall(c, calls[k], bs[lead + k])
    {
      assert bs[lead + k] == uses[k];
      assert TellsCall(c, calls[k], uses[0 + k]);
    }
  }

  lemma {:induction false} MessagesAreTold(c: Codec, ms: seq<Message>)
    ensures |MessagesToTurns(c, ms)| == |ms|
    ensures forall n | 0 <= n < |ms| :: TellsMessage(c, ms[n], MessagesToTurns(c, ms)[n])
  {
    hide Lead, Uses, TellsReply;
    if ms != [] {
      MessagesAreTold(c, ms[1..]);
      if ms[0].Message? {
        ReplyIsTold(c, ms[0].content, ms[0].calls);
      }
    }
  }

  // ---------- requests and responses ----------

  ghost predicate TellsTools(tools: seq<Tool>, functions: seq<FunctionTool>) {
    && |functions| == |tools|
    && forall k | 0 <= k < |tools| ::
         && functions[k].name == tools[k].name && functions[k].description == tools[k].description
         && functions[k].parameters == tools[k].schema
  }

  lemma {:induction false} FunctionsAreTold(tools: seq<Tool>)
    ensures TellsTools(tools, ToFunctions(tools))
  {
    if tools != [] {
      FunctionsAreTold(tools[1..]);
    }
  }

  lemma {:induction false} ToolsAreTold(functions: seq<FunctionTool>)
    ensures TellsTools(FromFunctions(functions), functions)
  {
    if functions != [] {
      ToolsAreTold(functions[1..]);
    }
  }

  /** A Messages request as a chat request: its system prompt, unless empty, is the first message. */
  lemma ChatRequestIsTold(c: Codec, r: MessagesRequest)
    ensures
      var chat := ToChat(c, r);
      && chat.model == r.model && chat.maxTokens == r.maxTokens && chat.sampling == r.sampling && chat.metadata == r.metadata
      && TellsTools(r.tools, chat.tools)
      && chat.messages ==
         (if r.system == "" then [] else [Message(SystemRole, Some(r.system), [])]) + TurnsToMessages(c, r.turns)
  {
    hide TurnsToMessages;
    FunctionsAreTold(r.tools);
  }

  /** A chat request as a Messages request: a system message in front is the system prompt, and the metadata is left behind. */
  lemma MessagesRequestIsTold(c: Codec, r: ChatRequest, providerModel: Name)
    ensures
      var request := ToMessages(c, r, providerModel);
      && request.model == providerModel && request.sampling == r.sampling && request.metadata == None
      && request.maxTokens == (if r.maxTokens == 0 then 4096 else r.maxTokens)
      && TellsTools(request.tools, r.tools)
      && if r.messages != [] && r.messages[0].Message? && r.messages[0].role == SystemRole
         then
           && request.system == (if r.messages[0].content.Some? then r.messages[0].content.value else "None")
           && request.turns == MessagesToTurns(c, r.messages[1..])
         else request.system == "" && request.turns == MessagesToTurns(c, r.messages)
  {
    hide MessagesToTurns;
    ToolsAreTold(r.tools);
  }

  /** The finish reason of every chat response: only running out of tokens and calling tools have their own. */
  lemma FinishIsTold(c: Codec, r: MessagesResponse)
    ensures
      var finish := ToChatResponse(c, r).choice.value.finish;
      finish == if r.stop == MaxTokens then Length else if r.stop == ToolUseStop then ToolCalls else Stop
  {
  }

  lemma StopIsTold(c: Codec, r: ChatResponse, model: Name)
    ensures
      var stop := ToMessagesResponse(c, r, model).stop;
      stop ==
        if r.choice.Some? && r.choice.value.finish == Length then MaxTokens
        else if r.choice.Some? && r.choice.value.finish == ToolCalls then ToolUseStop else EndTurn
  {
  }

  /** A Messages response as a chat response, field by field. */
  lemma ChatResponseIsTold(c: Codec, r: MessagesResponse)
    ensures
      var chat := ToChatResponse(c, r);
      && chat.id == r.id && chat.model == r.model && chat.usage == r.usage && chat.total == r.usage.input + r.usage.output
      && chat.choice.Some? && ListsUses(c, r.content, chat.choice.value.calls)
      && if Count(IsText, r.content, |r.content|) == 0 then chat.choice.value.content == None
         else
           && chat.choice.value.content.Some?
           && exists texts :: ListsTexts(r.content, texts) && IsJoined(chat.choice.value.content.value, texts, '\n')
  {
    hide Texts, Calls, Count, ListsTexts, ListsUses, ListsResults, IsJoined;
    PiecesAreListed(c, r.content);
    CountsUpTo(c, r.content, |r.content|);
    assert r.content[..|r.content|] == r.content;
    JoinIsJoined(Texts(r.content), '\n');
  }

  /** A chat response as a Messages response, field by field; without a choice it is empty. */
  lemma MessagesResponseIsTold(c: Codec, r: ChatResponse, model: Name)
    ensures
      var response := ToMessagesResponse(c, r, model);
      && response.id == r.id && response.model == model && response.usage == r.usage
      && if r.choice.None? then response.content == []
         else TellsReply(c, r.choice.value.content, r.choice.value.calls, response.content)
  {
    hide TellsReply, Lead, Uses;
    if r.choice.Some? {
      ReplyIsTold(c, r.choice.value.content, r.choice.value.calls);
    }
  }

  /** A chat response whose finish reason the Messages format knows comes back with it. */
  lemma FinishComesBack(c: Codec, r: ChatResponse, model: Name)
    requires r.choice.Some?
    ensures
      var back := ToChatResponse(c, ToMessagesResponse(c, r, model));
      back.choice.value.finish == r.choice.value.finish <==> r.choice.value.finish in {Stop, Length, ToolCalls}
  {
  }
}
