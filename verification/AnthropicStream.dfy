/**
 The streaming half of providers/anthropic_provider.py: typed server-sent events are turned into chat chunks one
 line at a time, and what a client merges from them is compared with the translation of the whole response.
 */
module AnthropicStream {
  import opened Prelude
  import opened Translation

  // ---------- events ----------

  datatype EventName =
    | MessageStart | BlockStart | BlockDelta | BlockStop | MessageDelta | MessageStop | Ping
    | OtherEvent(name: Name)

  datatype StartedBlock = StartedUse(id: Name, name: Name) | StartedOther

  datatype Delta = TextDelta(text: string) | JsonDelta(text: string) | StopDelta(stop: StopReason) | OtherDelta

  datatype Tokens = Tokens(input: int, output: int)

  /** The fields the adapter looks at; a missing name is None, a missing index or count is zero. */
  datatype Payload = Payload(
    id: Option<Name>, model: Option<Name>, index: nat, block: StartedBlock, delta: Delta, usage: Option<Tokens>)

  datatype Event = Event(name: EventName, payload: Payload)

  // ---------- chunks ----------

  datatype ChunkDelta =
    | RoleDelta
    | ContentDelta(text: string)
    | CallDelta(index: nat, head: Option<StartedBlock>, arguments: string)
    | EmptyDelta

  datatype Chunk = Chunk(id: Name, model: Name, delta: ChunkDelta, finish: Option<Finish>, usage: Option<Tokens>) | Done

  /** What message_start leaves behind for the chunks that follow. */
  datatype Ids = Ids(id: Option<Name>, model: Option<Name>)

  datatype Defaults = Defaults(freshId: Name, streamId: Name, model: Name)

  function IdsAfter(d: Defaults, ids: Ids, e: Event): Ids {
    if e.name == MessageStart then Ids(Some(e.payload.id.GetOr(d.freshId)), Some(e.payload.model.GetOr(d.model))) else ids
  }

  function DeltaOf(e: Event): Option<ChunkDelta> {
    var p := e.payload;
    match e.name
    case MessageStart => Some(RoleDelta)
    case BlockDelta =>
      (match p.delta
       case TextDelta(text) => Some(ContentDelta(text))
       case JsonDelta(text) => Some(CallDelta(p.index, None, text))
       case _ => None)
    case BlockStart => if p.block.StartedUse? then Some(CallDelta(p.index, Some(p.block), "")) else None
    case MessageDelta => Some(EmptyDelta)
    case _ => None
  }

  function Emit(d: Defaults, ids: Ids, e: Event): Option<Chunk> {
    if e.name == MessageStop then Some(Done)
    else if DeltaOf(e).None? then None
    else
      var after := IdsAfter(d, ids, e);
      var last := e.name == MessageDelta;
      var stop := if e.payload.delta.StopDelta? then e.payload.delta.stop else Unset;
      Some(Chunk(
        after.id.GetOr(d.streamId), after.model.GetOr(d.model), DeltaOf(e).value,
        if last then Some(FinishOf(stop)) else None,
        if last then e.payload.usage else None))
  }

  // ---------- the adapter ----------

  /** A line of the stream; `Ignored` is any other field, a comment, or data that is not JSON. */
  datatype Line = EventLine(name: EventName) | DataLine(payload: Payload) | Blank | Ignored

  datatype State = State(current: EventName, ids: Ids)

  function AdaptLine(d: Defaults, s: State, line: Line): (State, Option<Chunk>) {
    match line
    case EventLine(name) => (s.(current := name), None)
    case DataLine(p) =>
      var e := Event(s.current, p);
      (s.(ids := IdsAfter(d, s.ids, e)), Emit(d, s.ids, e))
    case _ => (s, None)
  }

  class Adapter {
    const defaults: Defaults
    var currentEvent: EventName
    var streamId: Option<Name>
    var streamModel: Option<Name>

    function Now(): State
      reads this
    {
      State(currentEvent, Ids(streamId, streamModel))
    }

    method TransformStreamChunk(line: Line) returns (chunk: Option<Chunk>)
      modifies this
      ensures (Now(), chunk) == AdaptLine(defaults, old(Now()), line)
    {
      if line.EventLine? {
        currentEvent := line.name;
        return None;
      }
      if !line.DataLine? {
        return None;
      }
      var p := line.payload;
      if currentEvent == MessageStart {
        streamModel := Some(p.model.GetOr(defaults.model));
        streamId := Some(p.id.GetOr(defaults.freshId));
        return Some(Chunk(streamId.value, streamModel.value, RoleDelta, None, None));
      }
      var id, model := streamId.GetOr(defaults.streamId), streamModel.GetOr(defaults.model);
      if currentEvent == BlockDelta {
        if p.delta.TextDelta? {
          return Some(Chunk(id, model, ContentDelta(p.delta.text), None, None));
        } else if p.delta.JsonDelta? {
          return Some(Chunk(id, model, CallDelta(p.index, None, p.delta.text), None, None));
        }
      }
      if currentEvent == BlockStart && p.block.StartedUse? {
        return Some(Chunk(id, model, CallDelta(p.index, Some(p.block), ""), None, None));
      }
      if currentEvent == MessageDelta {
        var stop := if p.delta.StopDelta? then p.delta.stop else Unset;
        return Some(Chunk(id, model, EmptyDelta, Some(FinishOf(stop)), p.usage));
      }
      if currentEvent == MessageStop {
        return Some(Done);
      }
      chunk := None;
    }
  }

  /** What the adapter remembers of a line: the last event name and, from message_start, the id and model of the message. */
  lemma StateIsTold(d: Defaults, s: State, line: Line)
    ensures
      var after := AdaptLine(d, s, line).0;
      && after.current == (if line.EventLine? then line.name else s.current)
      && after.ids ==
         if line.DataLine? && s.current == MessageStart then
           Ids(Some(if line.payload.id.Some? then line.payload.id.value else d.freshId),
               Some(if line.payload.model.Some? then line.payload.model.value else d.model))
         else s.ids
  {
  }

  /** What it says of a data line, if anything, with the id and model it then remembers or else the defaults. */
  lemma ChunkIsTold(d: Defaults, s: State, p: Payload)
    ensures
      var (after, chunk) := AdaptLine(d, s, DataLine(p));
      var id := if after.ids.id.Some? then after.ids.id.value else d.streamId;
      var model := if after.ids.model.Some? then after.ids.model.value else d.model;
      match s.current
      case MessageStart => chunk == Some(Chunk(id, model, RoleDelta, None, None))
      case BlockStart =>
        (match p.block
         case StartedUse(callId, name) =>
           chunk == Some(Chunk(id, model, CallDelta(p.index, Some(StartedUse(callId, name)), ""), None, None))
         case StartedOther => chunk == None)
      case BlockDelta =>
        (match p.delta
         case TextDelta(text) => chunk == Some(Chunk(id, model, ContentDelta(text), None, None))
         case JsonDelta(text) => chunk == Some(Chunk(id, model, CallDelta(p.index, None, text), None, None))
         case _ => chunk == None)
      case MessageDelta =>
        var finish := match p.delta
          case StopDelta(stop) => if stop == MaxTokens then Length else if stop == ToolUseStop then ToolCalls else Stop
          case _ => Stop;
        chunk == Some(Chunk(id, model, EmptyDelta, Some(finish), p.usage))
      case MessageStop => chunk == Some(Done)
      case _ => chunk == None
  {
  }

  /** Lines without data say nothing. */
  lemma OtherLinesAreSilent(d: Defaults, s: State, line: Line)
    requires !line.DataLine?
    ensures AdaptLine(d, s, line).1 == None
  {
  }

  // ---------- the client ----------

  datatype OpenCall = OpenCall(index: nat, head: Option<StartedBlock>, arguments: string)

  datatype View = View(
    id: Option<Name>, model: Option<Name>, text: string, calls: seq<OpenCall>, finish: Option<Finish>, usage: Option<Tokens>,
    done: bool)

  const NOTHING := View(None, None, "", [], None, None, false)

  function Place(calls: seq<OpenCall>, index: nat): (at: Option<nat>)
    ensures at.Some? ==> at.value < |calls| && calls[at.value].index == index
    ensures at.None? ==> forall n | 0 <= n < |calls| :: calls[n].index != index
  {
    if calls == [] then None
    else if calls[|calls| - 1].index == index then Some(|calls| - 1)
    else Place(calls[..|calls| - 1], index)
  }

  /** Fragments of one index are one call: the first gives its id and name, all give its arguments. */
  function AddFragment(calls: seq<OpenCall>, index: nat, head: Option<StartedBlock>, arguments: string): seq<OpenCall> {
    match Place(calls, index)
    case None => calls + [OpenCall(index, head, arguments)]
    case Some(n) => calls[n := calls[n].(arguments := calls[n].arguments + arguments)]
  }

  function Absorb(v: View, c: Chunk): View {
    if c.Done? then v.(done := true)
    else
      View(
        Some(c.id), Some(c.model),
        if c.delta.ContentDelta? then v.text + c.delta.text else v.text,
        if c.delta.CallDelta? then AddFragment(v.calls, c.delta.index, c.delta.head, c.delta.arguments) else v.calls,
        if c.finish.Some? then c.finish else v.finish,
        if c.usage.Some? then c.usage else v.usage,
        v.done)
  }

  datatype Both = Both(ids: Ids, view: View)

  function AbsorbIf(v: View, c: Option<Chunk>): View {
    if c.Some? then Absorb(v, c.value) else v
  }

  function FollowOne(d: Defaults, b: Both, e: Event): Both {
    Both(IdsAfter(d, b.ids, e), AbsorbIf(b.view, Emit(d, b.ids, e)))
  }

  /** The client's view of a sequence of events. */
  function Follow(d: Defaults, b: Both, events: seq<Event>): Both
    decreases |events|
  {
    if events == [] then b else Follow(d, FollowOne(d, b, events[0]), events[1..])
  }

  /** The client's view of a sequence of lines. */
  function FollowLines(d: Defaults, s: State, v: View, lines: seq<Line>): Both
    decreases |lines|
  {
    if lines == [] then Both(s.ids, v)
    else
      var (next, chunk) := AdaptLine(d, s, lines[0]);
      FollowLines(d, next, AbsorbIf(v, chunk), lines[1..])
  }

  // ---------- lines and events ----------

  /** Section 9.2.6 of the WHATWG HTML Living Standard: a blank line dispatches the event collected since the last one. */
  ghost function Dispatched(lines: seq<Line>, name: Option<EventName>, data: Option<Payload>): seq<Event>
    decreases |lines|
  {
    if lines == [] then []
    else
      match lines[0]
      case EventLine(n) => Dispatched(lines[1..], Some(n), data)
      case DataLine(p) => Dispatched(lines[1..], name, Some(p))
      case Ignored => Dispatched(lines[1..], name, data)
      case Blank =>
        (if data.Some? then [Event(name.GetOr(OtherEvent(Name("message"))), data.value)] else [])
        + Dispatched(lines[1..], None, None)
  }

  /** Each event names its type before its one data line, and the last one is complete. */
  ghost predicate Typed(lines: seq<Line>, name: Option<EventName>, data: Option<Payload>)
    decreases |lines|
  {
    if lines == [] then data.None?
    else
      match lines[0]
      case EventLine(n) => data.None? && Typed(lines[1..], Some(n), data)
      case DataLine(p) => data.None? && name.Some? && Typed(lines[1..], name, Some(p))
      case Ignored => Typed(lines[1..], name, data)
      case Blank => Typed(lines[1..], None, None)
  }

  /** On such a stream the adapter, which never looks for blank lines, reads the events the standard dispatches. */
  lemma {:induction false} AdapterReadsDispatchedEvents(
    d: Defaults, s: State, v: View, lines: seq<Line>, name: Option<EventName>, data: Option<Payload>, b: Both)
    requires Typed(lines, name, data) && (name.Some? ==> s.current == name.value)
    requires data.Some? ==> name.Some?
    requires Both(s.ids, v) == if data.Some? then FollowOne(d, b, Event(name.value, data.value)) else b
    ensures FollowLines(d, s, v, lines) == Follow(d, b, Dispatched(lines, name, data))
    decreases |lines|
  {
    hide FollowOne, AbsorbIf, Emit, IdsAfter;
    if lines != [] {
      var (next, chunk) := AdaptLine(d, s, lines[0]);
      match lines[0] {
        case EventLine(n) =>
          AbsorbNothing(v);
          AdapterReadsDispatchedEvents(d, next, v, lines[1..], Some(n), data, b);
        case DataLine(p) =>
          OneEvent(d, s.ids, v, Event(s.current, p));
          AdapterReadsDispatchedEvents(d, next, AbsorbIf(v, chunk), lines[1..], name, Some(p), b);
        case Ignored =>
          AbsorbNothing(v);
          AdapterReadsDispatchedEvents(d, next, v, lines[1..], name, data, b);
        case Blank =>
          AbsorbNothing(v);
          AdapterReadsDispatchedEvents(d, next, v, lines[1..], None, None, Both(s.ids, v));
          if data.Some? {
            var rest := Dispatched(lines[1..], None, None);
            assert ([Event(name.value, data.value)] + rest)[1..] == rest;
          } else {
            assert Dispatched(lines, name, data) == Dispatched(lines[1..], None, None);
          }
      }
    }
  }

  lemma AbsorbNothing(v: View)
    ensures AbsorbIf(v, None) == v
  {
  }

  lemma OneEvent(d: Defaults, ids: Ids, v: View, e: Event)
    ensures Both(IdsAfter(d, ids, e), AbsorbIf(v, Emit(d, ids, e))) == FollowOne(d, Both(ids, v), e)
  {
  }

  lemma {:induction false} FollowConcat(d: Defaults, b: Both, front: seq<Event>, back: seq<Event>)
    ensures Follow(d, b, front + back) == Follow(d, Follow(d, b, front), back)
    decreases |front|
  {
    hide FollowOne;
    if front == [] {
      assert front + back == back;
    } else {
      FollowConcat(d, FollowOne(d, b, front[0]), front[1..], back);
      assert (front + back)[1..] == front[1..] + back;
    }
  }

  lemma FollowSingle(d: Defaults, b: Both, e: Event)
    ensures Follow(d, b, [e]) == FollowOne(d, b, e)
  {
    hide FollowOne;
    assert [e][1..] == [];
  }

  // ---------- how a response is streamed ----------

  function Itself(piece: string): string {
    piece
  }

  function Concat(pieces: seq<string>): string {
    FlatMap(Itself, pieces)
  }

  /** The deltas of a block spell its text, or JSON for its input; no JSON at all stands for the empty object. */
  ghost predicate Spells(c: Codec, b: Block, pieces: seq<string>) {
    match b
    case Text(text) => Concat(pieces) == text
    case ToolUse(_, _, input) => c.parse(Concat(pieces)).GetOr(c.empty) == input
    case _ => true
  }

  ghost function BlockEvent(name: EventName, index: nat, block: StartedBlock, delta: Delta): Event {
    Event(name, Payload(None, None, index, block, delta, None))
  }

  ghost function DeltaFor(b: Block, piece: string): Delta {
    if b.Text? then TextDelta(piece) else if b.ToolUse? then JsonDelta(piece) else OtherDelta
  }

  ghost function DeltaEvents(index: nat, b: Block, pieces: seq<string>): seq<Event> {
    if pieces == [] then []
    else [BlockEvent(BlockDelta, index, StartedOther, DeltaFor(b, pieces[0]))] + DeltaEvents(index, b, pieces[1..])
  }

  ghost function StartOf(index: nat, b: Block): Event {
    BlockEvent(BlockStart, index, if b.ToolUse? then StartedUse(b.id, b.name) else StartedOther, OtherDelta)
  }

  ghost function BlockEvents(index: nat, b: Block, pieces: seq<string>): seq<Event> {
    [StartOf(index, b)]
    + DeltaEvents(index, b, pieces)
    + [BlockEvent(BlockStop, index, StartedOther, OtherDelta)]
  }

  /** The first k blocks. */
  ghost function ContentEvents(content: seq<Block>, pieces: seq<seq<string>>, k: nat): seq<Event>
    requires k <= |content| == |pieces|
  {
    if k == 0 then [] else ContentEvents(content, pieces, k - 1) + BlockEvents(k - 1, content[k - 1], pieces[k - 1])
  }

  ghost function StartEvent(r: MessagesResponse): Event {
    Event(MessageStart, Payload(Some(r.id), Some(r.model), 0, StartedOther, OtherDelta, None))
  }

  /** The prompt tokens of message_start are not among the fields the adapter reads; message_delta may repeat them. */
  ghost function EndEvents(r: MessagesResponse, repeatedInput: int): seq<Event> {
    [ Event(MessageDelta, Payload(None, None, 0, StartedOther, StopDelta(r.stop), Some(Tokens(repeatedInput, r.usage.output)))),
      BlockEvent(MessageStop, 0, StartedOther, OtherDelta)]
  }

  ghost function WithoutNoise(events: seq<Event>): seq<Event> {
    if events == [] then []
    else (if events[0].name.Ping? || events[0].name.OtherEvent? then [] else [events[0]]) + WithoutNoise(events[1..])
  }

  /** Pings and unknown events aside, the events stream the response, cut into any pieces. */
  ghost predicate Streams(c: Codec, events: seq<Event>, r: MessagesResponse, pieces: seq<seq<string>>, repeatedInput: int) {
    && |pieces| == |r.content| && (forall k | 0 <= k < |pieces| :: Spells(c, r.content[k], pieces[k]))
    && WithoutNoise(events) ==
         [StartEvent(r)] + ContentEvents(r.content, pieces, |pieces|) + EndEvents(r, repeatedInput)
  }

  lemma {:induction false} NoiseIsInvisible(d: Defaults, b: Both, events: seq<Event>)
    ensures Follow(d, b, events) == Follow(d, b, WithoutNoise(events))
    decreases |events|
  {
    if events != [] {
      var e, rest := events[0], WithoutNoise(events[1..]);
      if e.name.Ping? || e.name.OtherEvent? {
        assert FollowOne(d, b, e) == b;
        assert WithoutNoise(events) == rest;
      } else {
        assert ([e] + rest)[1..] == rest;
      }
      NoiseIsInvisible(d, FollowOne(d, b, e), events[1..]);
    }
  }

  // ---------- what the client has after each block ----------

  ghost function CallsAfter(content: seq<Block>, pieces: seq<seq<string>>, k: nat): seq<OpenCall>
    requires k <= |content| == |pieces|
  {
    if k == 0 then [] else
      var b := content[k - 1];
      CallsAfter(content, pieces, k - 1)
      + if b.ToolUse? then [OpenCall(k - 1, Some(StartedUse(b.id, b.name)), Concat(pieces[k - 1]))] else []
  }

  lemma {:induction false} CallsHaveEarlierIndexes(content: seq<Block>, pieces: seq<seq<string>>, k: nat)
    requires k <= |content| == |pieces|
    ensures forall n | 0 <= n < |CallsAfter(content, pieces, k)| :: CallsAfter(content, pieces, k)[n].index < k
  {
    if k > 0 {
      CallsHaveEarlierIndexes(content, pieces, k - 1);
    }
  }

  /** The view with more text and the last call's arguments longer. */
  ghost function Longer(b: Both, block: Block, more: string): Both {
    var v := b.view;
    if block.Text? then b.(view := v.(text := v.text + more))
    else if block.ToolUse? && v.calls != [] then
      var n := |v.calls| - 1;
      b.(view := v.(calls := v.calls[n := v.calls[n].(arguments := v.calls[n].arguments + more)]))
    else b
  }

  /** A view whose chunks so far carried these ids. */
  ghost predicate Named(b: Both, id: Name, model: Name) {
    b.ids == Ids(Some(id), Some(model)) && b.view.id == Some(id) && b.view.model == Some(model)
  }

  ghost predicate LastIs(b: Both, block: Block, index: nat) {
    block.ToolUse? ==> b.view.calls != [] && b.view.calls[|b.view.calls| - 1].index == index
  }

  lemma OneDelta(d: Defaults, b: Both, index: nat, block: Block, piece: string, id: Name, model: Name)
    requires Named(b, id, model) && LastIs(b, block, index)
    ensures
      var after := FollowOne(d, b, BlockEvent(BlockDelta, index, StartedOther, DeltaFor(block, piece)));
      after == Longer(b, block, piece) && Named(after, id, model) && LastIs(after, block, index)
  {
  }

  lemma {:induction false} Deltas(d: Defaults, b: Both, index: nat, block: Block, pieces: seq<string>, id: Name, model: Name)
    requires Named(b, id, model) && LastIs(b, block, index)
    ensures Follow(d, b, DeltaEvents(index, block, pieces)) == Longer(b, block, Concat(pieces))
    decreases |pieces|
  {
    hide FollowOne, Named, LastIs;
    if pieces == [] {
      LongerByNothing(b, block);
    } else {
      var e := BlockEvent(BlockDelta, index, StartedOther, DeltaFor(block, pieces[0]));
      OneDelta(d, b, index, block, pieces[0], id, model);
      Deltas(d, FollowOne(d, b, e), index, block, pieces[1..], id, model);
      assert ([e] + DeltaEvents(index, block, pieces[1..]))[1..] == DeltaEvents(index, block, pieces[1..]);
      LongerTwice(b, block, pieces[0], Concat(pieces[1..]));
    }
  }

  lemma LongerByNothing(b: Both, block: Block)
    ensures Longer(b, block, "") == b
  {
    assert b.view.text + "" == b.view.text;
    if b.view.calls != [] {
      var n := |b.view.calls| - 1;
      assert b.view.calls[n].arguments + "" == b.view.calls[n].arguments;
    }
  }

  lemma LongerTwice(b: Both, block: Block, x: string, y: string)
    ensures Longer(Longer(b, block, x), block, y) == Longer(b, block, x + y)
  {
    assert b.view.text + x + y == b.view.text + (x + y);
    if b.view.calls != [] {
      var n := |b.view.calls| - 1;
      assert b.view.calls[n].arguments + x + y == b.view.calls[n].arguments + (x + y);
    }
  }

  /** After message_start and the first k blocks. */
  ghost function AfterBlocks(r: MessagesResponse, pieces: seq<seq<string>>, k: nat): Both
    requires k <= |r.content| == |pieces|
  {
    Both(
      Ids(Some(r.id), Some(r.model)),
      View(
        Some(r.id), Some(r.model), Concat(Texts(r.content[..k])), CallsAfter(r.content, pieces, k), None, None, false))
  }

  lemma BlockStarts(d: Defaults, b: Both, index: nat, block: Block, id: Name, model: Name)
    requires Named(b, id, model) && forall n | 0 <= n < |b.view.calls| :: b.view.calls[n].index < index
    ensures
      var e := StartOf(index, block);
      FollowOne(d, b, e) ==
      if block.ToolUse?
      then b.(view := b.view.(calls := b.view.calls + [OpenCall(index, Some(StartedUse(block.id, block.name)), "")]))
      else b
  {
  }

  /** A whole block, deltas in any pieces, adds its text or its call. */
  lemma WholeBlock(d: Defaults, b: Both, index: nat, block: Block, pieces: seq<string>, id: Name, model: Name)
    requires Named(b, id, model) && forall n | 0 <= n < |b.view.calls| :: b.view.calls[n].index < index
    ensures
      var v := b.view;
      Follow(d, b, BlockEvents(index, block, pieces)) ==
      match block
      case Text(_) => b.(view := v.(text := v.text + Concat(pieces)))
      case ToolUse(callId, name, _) =>
        b.(view := v.(calls := v.calls + [OpenCall(index, Some(StartedUse(callId, name)), Concat(pieces))]))
      case _ => b
  {
    var start := StartOf(index, block);
    var stop := BlockEvent(BlockStop, index, StartedOther, OtherDelta);
    var deltas := DeltaEvents(index, block, pieces);
    BlockStarts(d, b, index, block, id, model);
    var started := FollowOne(d, b, start);
    assert Named(started, id, model) && LastIs(started, block, index);
    Deltas(d, started, index, block, pieces, id, model);
    var spelled := Longer(started, block, Concat(pieces));
    assert FollowOne(d, spelled, stop) == spelled;
    hide FollowOne;
    FollowConcat(d, b, [start] + deltas, [stop]);
    FollowConcat(d, b, [start], deltas);
    FollowSingle(d, b, start);
    FollowSingle(d, spelled, stop);
    if block.ToolUse? {
      assert "" + Concat(pieces) == Concat(pieces);
      assert spelled.view.calls == b.view.calls + [OpenCall(index, Some(StartedUse(block.id, block.name)), Concat(pieces))];
    }
  }

  lemma OneMoreBlock(d: Defaults, c: Codec, r: MessagesResponse, pieces: seq<seq<string>>, k: nat)
    requires k < |r.content| == |pieces| && Spells(c, r.content[k], pieces[k])
    ensures Follow(d, AfterBlocks(r, pieces, k), BlockEvents(k, r.content[k], pieces[k])) == AfterBlocks(r, pieces, k + 1)
  {
    hide Follow, BlockEvents, FlatMap;
    var block := r.content[k];
    CallsHaveEarlierIndexes(r.content, pieces, k);
    WholeBlock(d, AfterBlocks(r, pieces, k), k, block, pieces[k], r.id, r.model);
    TextOfOneMore(r.content, k);
    NothingToAdd(Concat(Texts(r.content[..k])), CallsAfter(r.content, pieces, k));
  }

  lemma NothingToAdd(text: string, calls: seq<OpenCall>)
    ensures text + "" == text && calls + [] == calls
  {
  }

  lemma TextOfOneMore(content: seq<Block>, k: nat)
    requires k < |content|
    ensures
      Concat(Texts(content[..k + 1])) == Concat(Texts(content[..k])) + if content[k].Text? then content[k].text else ""
  {
    hide FlatMap;
    var block := content[k];
    assert content[..k + 1] == content[..k] + [block];
    FlatMapConcat(TextOf, content[..k], [block]);
    FlatMapOne(TextOf, block);
    FlatMapConcat(Itself, Texts(content[..k]), TextOf(block));
    if block.Text? {
      FlatMapOne(Itself, block.text);
    } else {
      NoPieces();
    }
  }

  lemma NoPieces()
    ensures Concat([]) == ""
  {
  }

  lemma {:induction false} BlocksFollow(d: Defaults, c: Codec, r: MessagesResponse, pieces: seq<seq<string>>, k: nat)
    requires k <= |r.content| == |pieces| && forall n | 0 <= n < |pieces| :: Spells(c, r.content[n], pieces[n])
    ensures Follow(d, AfterBlocks(r, pieces, 0), ContentEvents(r.content, pieces, k)) == AfterBlocks(r, pieces, k)
  {
    hide AfterBlocks, BlockEvents;
    if k > 0 {
      BlocksFollow(d, c, r, pieces, k - 1);
      OneMoreBlock(d, c, r, pieces, k - 1);
      FollowConcat(
        d, AfterBlocks(r, pieces, 0), ContentEvents(r.content, pieces, k - 1),
        BlockEvents(k - 1, r.content[k - 1], pieces[k - 1]));
    }
  }

  /** What the client has at the end of the stream. */
  lemma StreamMerges(
    d: Defaults, c: Codec, ids: Ids, events: seq<Event>, r: MessagesResponse, pieces: seq<seq<string>>, repeatedInput: int)
    requires Streams(c, events, r, pieces, repeatedInput)
    ensures
      Follow(d, Both(ids, NOTHING), events).view ==
      View(
        Some(r.id), Some(r.model), Concat(Texts(r.content)), CallsAfter(r.content, pieces, |pieces|),
        Some(if r.stop == MaxTokens then Length else if r.stop == ToolUseStop then ToolCalls else Stop),
        Some(Tokens(repeatedInput, r.usage.output)), true)
  {
    var first := Both(ids, NOTHING);
    var blocks, end := ContentEvents(r.content, pieces, |pieces|), EndEvents(r, repeatedInput);
    NoiseIsInvisible(d, first, events);
    FollowConcat(d, first, [StartEvent(r)] + blocks, end);
    FollowConcat(d, first, [StartEvent(r)], blocks);
    FollowSingle(d, first, StartEvent(r));
    NothingYet(d, ids, r, pieces);
    BlocksFollow(d, c, r, pieces, |pieces|);
    assert r.content[..|pieces|] == r.content;
    StreamEnds(d, AfterBlocks(r, pieces, |pieces|), r, repeatedInput);
  }

  lemma NothingYet(d: Defaults, ids: Ids, r: MessagesResponse, pieces: seq<seq<string>>)
    requires |r.content| == |pieces|
    ensures FollowOne(d, Both(ids, NOTHING), StartEvent(r)) == AfterBlocks(r, pieces, 0)
  {
    assert r.content[..0] == [];
  }

  lemma StreamEnds(d: Defaults, b: Both, r: MessagesResponse, repeatedInput: int)
    requires Named(b, r.id, r.model)
    ensures
      Follow(d, b, EndEvents(r, repeatedInput)).view ==
      b.view.(finish := Some(FinishOf(r.stop)), usage := Some(Tokens(repeatedInput, r.usage.output)), done := true)
  {
    var e := EndEvents(r, repeatedInput);
    assert e == [e[0]] + [e[1]];
    FollowConcat(d, b, [e[0]], [e[1]]);
    FollowSingle(d, b, e[0]);
    FollowSingle(d, FollowOne(d, b, e[0]), e[1]);
  }

  // ---------- streaming agrees with not streaming ----------

  /** The call a client builds from its fragments. */
  function CallOfFragments(o: OpenCall): Call {
    if o.head.Some? && o.head.value.StartedUse? then Call(o.head.value.id, o.head.value.name, o.arguments)
    else Call(Name(""), Name(""), o.arguments)
  }

  function CallsOf(os: seq<OpenCall>): seq<Call> {
    if os == [] then [] else CallsOf(os[..|os| - 1]) + [CallOfFragments(os[|os| - 1])]
  }

  /** The streamed calls stand for the message's tool uses, in order. */
  lemma {:induction false} StreamedCallsAreTheUses(c: Codec, content: seq<Block>, pieces: seq<seq<string>>, k: nat)
    requires k <= |content| == |pieces| && forall n | 0 <= n < |pieces| :: Spells(c, content[n], pieces[n])
    ensures Uses(c, CallsOf(CallsAfter(content, pieces, k))) == ToolUses(content[..k])
  {
    if k > 0 {
      var b := content[k - 1];
      StreamedCallsAreTheUses(c, content, pieces, k - 1);
      assert content[..k] == content[..k - 1] + [b];
      FlatMapConcat(UseOf, content[..k - 1], [b]);
      assert ToolUses([b][1..]) == [];
      if b.ToolUse? {
        var before, o := CallsAfter(content, pieces, k - 1), OpenCall(k - 1, Some(StartedUse(b.id, b.name)), Concat(pieces[k - 1]));
        assert (before + [o])[..|before|] == before;
        FlatMapConcat(UseWith(c), CallsOf(before), [CallOfFragments(o)]);
        OneUse(c, CallOfFragments(o), b);
      } else {
        assert CallsAfter(content, pieces, k) == CallsAfter(content, pieces, k - 1);
        assert ToolUses([b]) == [];
      }
    }
  }

  lemma OneUse(c: Codec, call: Call, b: Block)
    requires b.ToolUse? && call.id == b.id && call.name == b.name && InputOf(c, call) == b.input
    ensures Uses(c, [call]) == [b]
  {
    assert Uses(c, [call][1..]) == [];
  }

  lemma {:induction false} LengthOfJoin(texts: seq<string>)
    ensures |Join("\n", texts)| == |Concat(texts)| + if texts == [] then 0 else |texts| - 1
  {
    if |texts| == 1 {
      FlatMapOne(Itself, texts[0]);
      assert texts == [texts[0]];
    } else if |texts| > 1 {
      LengthOfJoin(texts[1..]);
    }
  }

  /** Joining texts with line breaks is joining them without exactly when there is at most one. */
  lemma TextsAgreeIff(texts: seq<string>)
    ensures Join("\n", texts) == Concat(texts) <==> |texts| <= 1
  {
    LengthOfJoin(texts);
    if |texts| == 1 {
      assert Concat(texts[1..]) == "";
    }
  }

  /**
   Merging the streamed chunks gives the ids, the tool uses, the finish reason and the completion tokens of the
   translated response, and its text exactly when the message has at most one text block.
   */
  lemma StreamAgreesWithResponse(
    d: Defaults, c: Codec, ids: Ids, events: seq<Event>, r: MessagesResponse, pieces: seq<seq<string>>, repeatedInput: int)
    requires Lawful(c) && Streams(c, events, r, pieces, repeatedInput)
    ensures
      var v, chat := Follow(d, Both(ids, NOTHING), events).view, ToChatResponse(c, r);
      var choice := chat.choice.value;
      && v.done && v.id == Some(chat.id) && v.model == Some(chat.model)
      && Uses(c, CallsOf(v.calls)) == Uses(c, choice.calls) == ToolUses(r.content)
      && v.finish == Some(choice.finish)
      && v.usage.Some? && v.usage.value.output == chat.usage.output
      && (v.text == choice.content.GetOr("") <==> |Texts(r.content)| <= 1)
      && (v.usage.value.input == chat.usage.input <==> repeatedInput == r.usage.input)
  {
    StreamMerges(d, c, ids, events, r, pieces, repeatedInput);
    hide Follow, Streams;
    StreamedCallsAreTheUses(c, r.content, pieces, |pieces|);
    assert r.content[..|pieces|] == r.content;
    UsesSurvive(c, r.content);
    TextsAgreeIff(Texts(r.content));
  }

  /** The same for the lines of a well-formed event stream, read by an adapter in any earlier state. */
  lemma LinesAgreeWithResponse(
    d: Defaults, c: Codec, s: State, lines: seq<Line>, r: MessagesResponse, pieces: seq<seq<string>>, repeatedInput: int)
    requires Lawful(c) && Typed(lines, None, None) && Streams(c, Dispatched(lines, None, None), r, pieces, repeatedInput)
    ensures
      var v, choice := FollowLines(d, s, NOTHING, lines).view, ToChatResponse(c, r).choice.value;
      && v.done && Uses(c, CallsOf(v.calls)) == Uses(c, choice.calls)
      && v.finish == Some(choice.finish)
      && v.usage.Some? && v.usage.value.output == r.usage.output
      && (v.text == choice.content.GetOr("") <==> |Texts(r.content)| <= 1)
  {
    AdapterReadsDispatchedEvents(d, s, NOTHING, lines, None, None, Both(s.ids, NOTHING));
    StreamAgreesWithResponse(d, c, s.ids, Dispatched(lines, None, None), r, pieces, repeatedInput);
  }
}
