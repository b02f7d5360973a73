/** StreamingCacheAssembler and rechunk_for_streaming of middleware/cache.py: what is cached of a stream, and its replay. */
module StreamReplay {
  import opened Prelude

  /** How much text one replayed chunk carries. */
  const PIECE := 20

  /** A piece of a tool call; the pieces of one call share its index. */
  datatype Fragment = Fragment(index: nat, id: Option<Name>, name: Option<Name>, arguments: string)

  datatype Usage = Usage(prompt: int, completion: int)

  datatype Choice = Choice(index: nat, content: string, toolCalls: seq<Fragment>, finish: Option<Name>)

  /** A chunk without an id has the empty one. */
  datatype Chunk = Chunk(id: string, choices: seq<Choice>, usage: Option<Usage>)

  // ---------- what a client makes of a stream ----------

  datatype Reply = Reply(text: string, fragments: seq<Fragment>, finish: Option<Name>) {
    function Plus(c: Choice): Reply {
      Reply(text + c.content, fragments + c.toolCalls, if c.finish.Some? then c.finish else finish)
    }
  }

  const NOTHING := Reply("", [], None)

  function MergeChoices(r: Reply, choices: seq<Choice>, index: nat): Reply {
    if choices == [] then r
    else
      var before := MergeChoices(r, choices[..|choices| - 1], index);
      var last := choices[|choices| - 1];
      if last.index == index then before.Plus(last) else before
  }

  /** The reply number `index`: text and fragments joined in order, and the last finish reason. */
  function Merge(chunks: seq<Chunk>, index: nat): Reply {
    if chunks == [] then NOTHING
    else MergeChoices(Merge(chunks[..|chunks| - 1], index), chunks[|chunks| - 1].choices, index)
  }

  /** The first choice of a chunk is its only one of index 0, or the chunk has no choice at all. */
  ghost predicate ZeroAlone(c: Chunk) {
    c.choices != [] ==> c.choices[0].index == 0 && forall k | 1 <= k < |c.choices| :: c.choices[k].index != 0
  }

  // ---------- assembling ----------

  datatype Response = Response(
    id: string, model: Name, content: Option<string>, toolCalls: Option<seq<Fragment>>, finish: Option<Name>,
    usage: Option<Usage>)

  /** Only the first choice of each chunk is looked at, whatever its index. */
  function FirstChoices(chunks: seq<Chunk>): Reply {
    if chunks == [] then NOTHING
    else
      var before, last := FirstChoices(chunks[..|chunks| - 1]), chunks[|chunks| - 1];
      if last.choices == [] then before else before.Plus(last.choices[0])
  }

  function FirstId(chunks: seq<Chunk>): string {
    if chunks == [] then ""
    else
      var before := FirstId(chunks[..|chunks| - 1]);
      if before == "" then chunks[|chunks| - 1].id else before
  }

  function LastUsage(chunks: seq<Chunk>): Option<Usage> {
    if chunks == [] then None
    else if chunks[|chunks| - 1].usage.Some? then chunks[|chunks| - 1].usage
    else LastUsage(chunks[..|chunks| - 1])
  }

  function ResponseOf(chunks: seq<Chunk>, model: Name): Response {
    var r := FirstChoices(chunks);
    Response(
      FirstId(chunks), model,
      if r.text == "" then None else Some(r.text),
      if r.fragments == [] then None else Some(r.fragments),
      r.finish, LastUsage(chunks))
  }

  lemma OneMoreChunk(chunks: seq<Chunk>, c: Chunk)
    ensures
      FirstChoices(chunks + [c]) == if c.choices == [] then FirstChoices(chunks) else FirstChoices(chunks).Plus(c.choices[0])
    ensures FirstId(chunks + [c]) == if FirstId(chunks) == "" then c.id else FirstId(chunks)
    ensures LastUsage(chunks + [c]) == if c.usage.Some? then c.usage else LastUsage(chunks)
  {
    assert (chunks + [c])[..|chunks|] == chunks;
  }

  /** The first chunk that has an id gives it. */
  lemma {:induction false} IdIsTheFirst(chunks: seq<Chunk>)
    ensures
      if FirstId(chunks) == "" then forall c | c in chunks :: c.id == ""
      else exists n :: 0 <= n < |chunks| && chunks[n].id == FirstId(chunks) && forall k | 0 <= k < n :: chunks[k].id == ""
  {
    if chunks != [] {
      IdIsTheFirst(chunks[..|chunks| - 1]);
      assert chunks == chunks[..|chunks| - 1] + [chunks[|chunks| - 1]];
    }
  }

  /** The last chunk that has usage figures gives them. */
  lemma {:induction false} UsageIsTheLast(chunks: seq<Chunk>)
    ensures
      if LastUsage(chunks) == None then forall c | c in chunks :: c.usage == None
      else
        exists n ::
          0 <= n < |chunks| && chunks[n].usage == LastUsage(chunks) && forall k | n < k < |chunks| :: chunks[k].usage == None
  {
    if chunks != [] {
      UsageIsTheLast(chunks[..|chunks| - 1]);
      assert chunks == chunks[..|chunks| - 1] + [chunks[|chunks| - 1]];
    }
  }

  /** The last first choice that has a finish reason gives it. */
  lemma {:induction false} FinishIsTheLast(chunks: seq<Chunk>)
    ensures
      if FirstChoices(chunks).finish == None
      then forall c | c in chunks && c.choices != [] :: c.choices[0].finish == None
      else
        exists n ::
          && 0 <= n < |chunks| && chunks[n].choices != [] && chunks[n].choices[0].finish == FirstChoices(chunks).finish
          && forall k | n < k < |chunks| && chunks[k].choices != [] :: chunks[k].choices[0].finish == None
  {
    if chunks != [] {
      FinishIsTheLast(chunks[..|chunks| - 1]);
      assert chunks == chunks[..|chunks| - 1] + [chunks[|chunks| - 1]];
    }
  }

  function ContentOf(c: Chunk): string {
    if c.choices == [] then "" else c.choices[0].content
  }

  function CallsOf(c: Chunk): seq<Fragment> {
    if c.choices == [] then [] else c.choices[0].toolCalls
  }

  /**
   The cached response: the stream's first id, its last usage and finish reason, and the contents and tool calls of the
   first choices, one after the other; no text and no calls are null.
   */
  lemma {:induction false} ResponseIsTold(chunks: seq<Chunk>, model: Name)
    ensures
      var r := ResponseOf(chunks, model);
      && r.model == model && r.id == FirstId(chunks) && r.usage == LastUsage(chunks) && r.finish == FirstChoices(chunks).finish
      && var text, calls := FlatMap(ContentOf, chunks), FlatMap(CallsOf, chunks);
         && r.content == (if text == "" then None else Some(text))
         && r.toolCalls == (if calls == [] then None else Some(calls))
  {
    if chunks != [] {
      var before, last := chunks[..|chunks| - 1], chunks[|chunks| - 1];
      ResponseIsTold(before, model);
      FlatMapConcat(ContentOf, before, [last]);
      FlatMapConcat(CallsOf, before, [last]);
      FlatMapOne(ContentOf, last);
      FlatMapOne(CallsOf, last);
      assert chunks == before + [last];
      assert FirstChoices(before).text + "" == FirstChoices(before).text;
      assert FirstChoices(before).fragments + [] == FirstChoices(before).fragments;
    }
  }

  class Assembler {
    const model: Name
    const noStore: bool
    var chunks: seq<Chunk>
    var responseId: string
    var fullContent: string
    var toolCalls: seq<Fragment>
    var usage: Option<Usage>
    var finishReason: Option<Name>
    var completed: bool

    ghost predicate Valid()
      reads this
    {
      && responseId == FirstId(chunks) && usage == LastUsage(chunks)
      && Reply(fullContent, toolCalls, finishReason) == FirstChoices(chunks)
    }

    constructor (model: Name, noStore: bool)
      ensures Valid() && chunks == [] && this.model == model && this.noStore == noStore && !completed
    {
      this.model, this.noStore := model, noStore;
      chunks, responseId, fullContent, toolCalls, usage, finishReason, completed := [], "", "", [], None, None, false;
    }

    method AddChunk(chunk: Chunk)
      requires Valid()
      modifies this
      ensures Valid() && chunks == old(chunks) + [chunk] && completed == old(completed)
    {
      hide FirstChoices, FirstId, LastUsage;
      OneMoreChunk(chunks, chunk);
      chunks := chunks + [chunk];
      if responseId == "" && chunk.id != "" {
        responseId := chunk.id;
      }
      if chunk.choices != [] {
        var choice := chunk.choices[0];
        if choice.content != "" {
          fullContent := fullContent + choice.content;
        }
        if choice.toolCalls != [] {
          toolCalls := toolCalls + choice.toolCalls;
        }
        if choice.finish.Some? {
          finishReason := choice.finish;
        }
      }
      if chunk.usage.Some? {
        usage := chunk.usage;
      }
    }

    /** What is handed to the cache, if anything. */
    method Finalize() returns (stored: Option<Response>)
      requires Valid()
      modifies this
      ensures Valid() && chunks == old(chunks)
      ensures stored == if noStore then None else Some(ResponseOf(chunks, model))
      ensures completed == (old(completed) || !noStore)
    {
      if noStore {
        return None;
      }
      completed := true;
      stored := Some(Response(
        responseId, model,
        if fullContent == "" then None else Some(fullContent),
        if toolCalls == [] then None else Some(toolCalls),
        finishReason, usage));
    }
  }

  // ---------- replaying ----------

  function Said(id: string, content: string, toolCalls: seq<Fragment>, finish: Option<Name>): Chunk {
    Chunk(id, [Choice(0, content, toolCalls, finish)], None)
  }

  function Least(a: nat, b: nat): nat {
    if a <= b then a else b
  }

  function TextChunks(id: string, content: string): seq<Chunk>
    decreases |content|
  {
    if content == "" then []
    else
      var n := Least(PIECE, |content|);
      [Said(id, content[..n], [], None)] + TextChunks(id, content[n..])
  }

  function CallChunks(id: string, calls: seq<Fragment>): seq<Chunk> {
    if calls == [] then [] else [Said(id, "", [calls[0]], None)] + CallChunks(id, calls[1..])
  }

  /** The role comes first, then the text in pieces, one chunk for each tool call, and the finish reason. */
  function Replay(r: Response): seq<Chunk> {
    [Said(r.id, "", [], None)]
    + TextChunks(r.id, r.content.GetOr(""))
    + CallChunks(r.id, r.toolCalls.GetOr([]))
    + [Said(r.id, "", [], r.finish)]
  }

  method RechunkForStreaming(r: Response) returns (chunks: seq<Chunk>)
    ensures chunks == Replay(r)
  {
    chunks := [Said(r.id, "", [], None)];
    var content, calls := r.content.GetOr(""), r.toolCalls.GetOr([]);
    ghost var head, text := chunks, TextChunks(r.id, content);
    var i := 0;
    while i < |content|
      invariant chunks + TextChunks(r.id, content[Least(i, |content|)..]) == head + text
      decreases |content| - i
    {
      var piece := content[i..Least(i + PIECE, |content|)];
      assert content[i..][..Least(PIECE, |content[i..]|)] == piece;
      assert content[i..][Least(PIECE, |content[i..]|)..] == content[Least(i + PIECE, |content|)..];
      chunks := chunks + [Said(r.id, piece, [], None)];
      i := i + PIECE;
    }
    assert chunks == head + text;
    for n := 0 to |calls|
      invariant chunks + CallChunks(r.id, calls[n..]) == head + text + CallChunks(r.id, calls)
    {
      assert calls[n..][1..] == calls[n + 1..];
      chunks := chunks + [Said(r.id, "", [calls[n]], None)];
    }
    chunks := chunks + [Said(r.id, "", [], r.finish)];
  }

  /** Piece k of the text carries its characters from 20 * k on, 20 of them or what is left. */
  lemma {:induction false} TextIsCutEvenly(id: string, content: string, k: nat)
    requires 20 * k < |content|
    ensures k < |TextChunks(id, content)|
    ensures
      var piece := content[20 * k..if 20 * k + 20 <= |content| then 20 * k + 20 else |content|];
      TextChunks(id, content)[k] == Chunk(id, [Choice(0, piece, [], None)], None)
    decreases |content|
  {
    if k > 0 {
      TextIsCutEvenly(id, content[20..], k - 1);
      var end := if 20 * k + 20 <= |content| then 20 * k + 20 else |content|;
      assert content[20..][20 * (k - 1)..end - 20] == content[20 * k..end];
    }
  }

  /** No piece is empty, so there are no more than these. */
  lemma {:induction false} NoEmptyPiece(id: string, content: string)
    ensures 20 * |TextChunks(id, content)| < |content| + 20
    decreases |content|
  {
    if content != "" {
      NoEmptyPiece(id, content[Least(PIECE, |content|)..]);
    }
  }

  // ---------- replaying keeps the meaning ----------

  lemma MergeOneMore(chunks: seq<Chunk>, c: Chunk)
    requires |c.choices| == 1 && c.choices[0].index == 0
    ensures Merge(chunks + [c], 0) == Merge(chunks, 0).Plus(c.choices[0])
  {
    assert (chunks + [c])[..|chunks|] == chunks;
    assert c.choices[..0] == [];
    assert MergeChoices(Merge(chunks, 0), [], 0) == Merge(chunks, 0);
  }

  lemma {:induction false} MergeText(chunks: seq<Chunk>, id: string, content: string)
    ensures
      var r := Merge(chunks, 0);
      Merge(chunks + TextChunks(id, content), 0) == Reply(r.text + content, r.fragments, r.finish)
    decreases |content|
  {
    hide Merge;
    if content == "" {
      assert chunks + [] == chunks;
      assert Merge(chunks, 0).text + "" == Merge(chunks, 0).text;
    } else {
      var n := Least(PIECE, |content|);
      var c := Said(id, content[..n], [], None);
      MergeOneMore(chunks, c);
      MergeText(chunks + [c], id, content[n..]);
      assert chunks + ([c] + TextChunks(id, content[n..])) == chunks + [c] + TextChunks(id, content[n..]);
      assert Merge(chunks, 0).text + content == Merge(chunks, 0).text + content[..n] + content[n..];
    }
  }

  lemma {:induction false} MergeCalls(chunks: seq<Chunk>, id: string, calls: seq<Fragment>)
    ensures
      var r := Merge(chunks, 0);
      Merge(chunks + CallChunks(id, calls), 0) == Reply(r.text, r.fragments + calls, r.finish)
    decreases |calls|
  {
    hide Merge;
    if calls == [] {
      assert chunks + [] == chunks;
      assert Merge(chunks, 0).fragments + [] == Merge(chunks, 0).fragments;
    } else {
      var c := Said(id, "", [calls[0]], None);
      MergeOneMore(chunks, c);
      MergeCalls(chunks + [c], id, calls[1..]);
      assert chunks + ([c] + CallChunks(id, calls[1..])) == chunks + [c] + CallChunks(id, calls[1..]);
      assert Merge(chunks, 0).fragments + [calls[0]] + calls[1..] == Merge(chunks, 0).fragments + calls;
      assert Merge(chunks, 0).text + "" == Merge(chunks, 0).text;
    }
  }

  /** A client that merges the replay has the cached text, tool calls and finish reason. */
  lemma ReplayMergesToTheResponse(r: Response)
    ensures Merge(Replay(r), 0) == Reply(r.content.GetOr(""), r.toolCalls.GetOr([]), r.finish)
  {
    hide TextChunks, CallChunks, Merge;
    var text, calls := TextChunks(r.id, r.content.GetOr("")), CallChunks(r.id, r.toolCalls.GetOr([]));
    var first, last := Said(r.id, "", [], None), Said(r.id, "", [], r.finish);
    MergeOfNothing();
    MergeOneMore([], first);
    assert [] + [first] == [first];
    MergeText([first], r.id, r.content.GetOr(""));
    MergeCalls([first] + text, r.id, r.toolCalls.GetOr([]));
    MergeOneMore([first] + text + calls, last);
    assert r.content.GetOr("") + "" == r.content.GetOr("");
  }

  lemma MergeOfNothing()
    ensures Merge([], 0) == NOTHING
  {
  }

  lemma {:induction false} OnlyTheFirstMatters(r: Reply, choices: seq<Choice>)
    requires forall k | 1 <= k < |choices| :: choices[k].index != 0
    ensures MergeChoices(r, choices, 0) == if choices != [] && choices[0].index == 0 then r.Plus(choices[0]) else r
  {
    if |choices| > 1 {
      OnlyTheFirstMatters(r, choices[..|choices| - 1]);
    } else if |choices| == 1 {
      assert choices[..0] == [];
      assert MergeChoices(r, [], 0) == r;
    }
  }

  lemma {:induction false} FirstChoicesAreMerged(chunks: seq<Chunk>)
    requires forall c | c in chunks :: ZeroAlone(c)
    ensures FirstChoices(chunks) == Merge(chunks, 0)
  {
    if chunks != [] {
      var before, last := chunks[..|chunks| - 1], chunks[|chunks| - 1];
      FirstChoicesAreMerged(before);
      assert ZeroAlone(last);
      OnlyTheFirstMatters(Merge(before, 0), last.choices);
    }
  }

  /** Caching a stream and replaying it changes nothing a client merges, where each chunk's first choice is the one of index 0. */
  lemma ReplayKeepsTheMeaning(chunks: seq<Chunk>, model: Name)
    requires forall c | c in chunks :: ZeroAlone(c)
    ensures Merge(Replay(ResponseOf(chunks, model)), 0) == Merge(chunks, 0)
  {
    ReplayMergesToTheResponse(ResponseOf(chunks, model));
    FirstChoicesAreMerged(chunks);
  }

  // ---------- streams of a given shape ----------

  /** The indexes of the choices, chunk by chunk. */
  type Shape = seq<seq<nat>>

  ghost predicate HasShape(chunks: seq<Chunk>, shape: Shape) {
    && |chunks| == |shape|
    && forall i | 0 <= i < |shape| ::
         |chunks[i].choices| == |shape[i]| && forall k | 0 <= k < |shape[i]| :: chunks[i].choices[k].index == shape[i][k]
  }

  ghost predicate ZeroAloneIn(indexes: seq<nat>) {
    indexes != [] ==> indexes[0] == 0 && forall k | 1 <= k < |indexes| :: indexes[k] != 0
  }

  ghost predicate ReplaysAsItself(chunks: seq<Chunk>, model: Name) {
    Merge(Replay(ResponseOf(chunks, model)), 0) == Merge(chunks, 0)
  }

  /** Choices of these indexes, of which only number l says something. */
  function OneSays(indexes: seq<nat>, l: nat): seq<Choice> {
    seq(|indexes|, k requires 0 <= k < |indexes| => Choice(indexes[k], if k == l then "x" else "", [], None))
  }

  /** Only choice l of chunk n says something. */
  function OneChunkSays(shape: Shape, n: nat, l: nat): seq<Chunk> {
    seq(|shape|, i requires 0 <= i < |shape| => Chunk("", OneSays(shape[i], if i == n then l else |shape[i]|), None))
  }

  lemma {:induction false} MergeOneSays(r: Reply, indexes: seq<nat>, l: nat)
    ensures MergeChoices(r, OneSays(indexes, l), 0).text == r.text + if l < |indexes| && indexes[l] == 0 then "x" else ""
  {
    if indexes == [] {
      assert r.text + "" == r.text;
    } else {
      var n := |indexes| - 1;
      MergeOneSays(r, indexes[..n], l);
      assert OneSays(indexes, l)[..n] == OneSays(indexes[..n], l);
      if indexes[n] == 0 {
        var before := MergeChoices(r, OneSays(indexes[..n], l), 0);
        assert before.text + "" == before.text && r.text + "" == r.text;
      }
    }
  }

  lemma {:induction false} OneChunkSaysText(shape: Shape, n: nat, l: nat)
    ensures
      var chunks := OneChunkSays(shape, n, l);
      && Merge(chunks, 0).text == (if n < |shape| && l < |shape[n]| && shape[n][l] == 0 then "x" else "")
      && FirstChoices(chunks).text == (if n < |shape| && shape[n] != [] && l == 0 then "x" else "")
  {
    if shape != [] {
      var k := |shape| - 1;
      var before := OneChunkSays(shape[..k], n, l);
      OneChunkSaysText(shape[..k], n, l);
      assert OneChunkSays(shape, n, l)[..k] == before;
      MergeOneSays(Merge(before, 0), shape[k], if k == n then l else |shape[k]|);
    }
  }

  /** Every stream of a shape replays as itself exactly when each chunk has index 0 first and nowhere else, or no choice. */
  lemma EveryStreamOfShapeReplaysIff(shape: Shape, model: Name)
    ensures
      (forall chunks | HasShape(chunks, shape) :: ReplaysAsItself(chunks, model)) <==>
      (forall indexes | indexes in shape :: ZeroAloneIn(indexes))
  {
    if forall indexes | indexes in shape :: ZeroAloneIn(indexes) {
      forall chunks | HasShape(chunks, shape)
        ensures ReplaysAsItself(chunks, model)
      {
        WellShaped(chunks, shape);
        ReplayKeepsTheMeaning(chunks, model);
      }
    } else {
      var n :| 0 <= n < |shape| && !ZeroAloneIn(shape[n]);
      var l: nat := 0;
      if shape[n][0] == 0 {
        l :| 1 <= l < |shape[n]| && shape[n][l] == 0;
      }
      var chunks := OneChunkSays(shape, n, l);
      assert HasShape(chunks, shape);
      OneChunkSaysText(shape, n, l);
      ReplayMergesToTheResponse(ResponseOf(chunks, model));
      assert !ReplaysAsItself(chunks, model);
    }
  }

  lemma WellShaped(chunks: seq<Chunk>, shape: Shape)
    requires HasShape(chunks, shape) && forall indexes | indexes in shape :: ZeroAloneIn(indexes)
    ensures forall c | c in chunks :: ZeroAlone(c)
  {
    forall c | c in chunks
      ensures ZeroAlone(c)
    {
      var i :| 0 <= i < |chunks| && chunks[i] == c;
      assert shape[i] in shape && ZeroAloneIn(shape[i]);
    }
  }

  // ---------- streams with several choices ----------

  /** Where a chunk has a choice of index 0, it is its first. */
  ghost predicate ZeroFirst(chunks: seq<Chunk>) {
    forall c | c in chunks :: forall k | 1 <= k < |c.choices| :: c.choices[k].index != 0
  }

  /** What a chunk puts first for another index than 0 has neither text nor fragments. */
  predicate QuietFirst(c: Chunk) {
    c.choices != [] && c.choices[0].index != 0 ==> c.choices[0].content == "" && c.choices[0].toolCalls == []
  }

  ghost predicate OthersQuiet(chunks: seq<Chunk>) {
    forall c | c in chunks :: QuietFirst(c)
  }

  /** The assembled text and fragments are at least as long as the client's, and the same exactly if the others are quiet. */
  lemma {:induction false} AssembledIsNoShorter(chunks: seq<Chunk>)
    requires ZeroFirst(chunks)
    ensures
      var assembled, client := FirstChoices(chunks), Merge(chunks, 0);
      && |client.text| <= |assembled.text| && |client.fragments| <= |assembled.fragments|
      && (|client.text| == |assembled.text| && |client.fragments| == |assembled.fragments| ==> OthersQuiet(chunks))
      && (OthersQuiet(chunks) ==> client.text == assembled.text && client.fragments == assembled.fragments)
  {
    if chunks != [] {
      var before, last := chunks[..|chunks| - 1], chunks[|chunks| - 1];
      assert chunks == before + [last];
      OthersQuietStep(before, last);
      AssembledIsNoShorter(before);
      OnlyTheFirstMatters(Merge(before, 0), last.choices);
      hide MergeChoices, OthersQuiet;
      if last.choices != [] && QuietFirst(last) {
        assert FirstChoices(before).text + "" == FirstChoices(before).text;
      }
    }
  }

  lemma OthersQuietStep(before: seq<Chunk>, last: Chunk)
    ensures OthersQuiet(before + [last]) <==> OthersQuiet(before) && QuietFirst(last)
  {
    if OthersQuiet(before + [last]) {
      assert forall c | c in before :: c in before + [last];
      assert last in before + [last];
    }
  }

  /** A replay means the same exactly when no other choice that comes first says anything, and the last finish reasons agree. */
  lemma ReplayKeepsTheMeaningIff(chunks: seq<Chunk>, model: Name)
    requires ZeroFirst(chunks)
    ensures
      Merge(Replay(ResponseOf(chunks, model)), 0) == Merge(chunks, 0) <==>
      OthersQuiet(chunks) && FirstChoices(chunks).finish == Merge(chunks, 0).finish
  {
    hide FirstChoices, Merge, Replay, OthersQuiet;
    ReplayMergesToTheResponse(ResponseOf(chunks, model));
    AssembledIsNoShorter(chunks);
  }

  // ---------- what a reader of the cached response gets ----------

  /** Where in the list a call of this index is. */
  function Place(calls: seq<Fragment>, index: nat): (at: Option<nat>)
    ensures at.Some? ==> at.value < |calls| && calls[at.value].index == index
    ensures at.None? ==> forall c | c in calls :: c.index != index
  {
    if calls == [] then None
    else if calls[|calls| - 1].index == index then Some(|calls| - 1)
    else Place(calls[..|calls| - 1], index)
  }

  /** The calls the fragments make up: later fragments of an index lengthen its arguments. */
  function Calls(fragments: seq<Fragment>): seq<Fragment> {
    if fragments == [] then []
    else
      var calls, f := Calls(fragments[..|fragments| - 1]), fragments[|fragments| - 1];
      match Place(calls, f.index)
      case None => calls + [f]
      case Some(n) => calls[n := calls[n].(arguments := calls[n].arguments + f.arguments)]
  }

  ghost predicate OneFragmentEach(fragments: seq<Fragment>) {
    forall i, j | 0 <= i < j < |fragments| :: fragments[i].index != fragments[j].index
  }

  lemma {:induction false} NeverMoreCalls(fragments: seq<Fragment>)
    ensures |Calls(fragments)| <= |fragments|
  {
    if fragments != [] {
      NeverMoreCalls(fragments[..|fragments| - 1]);
    }
  }

  lemma OneFragmentEachStep(before: seq<Fragment>, f: Fragment)
    ensures OneFragmentEach(before + [f]) <==> OneFragmentEach(before) && forall g | g in before :: g.index != f.index
  {
    if OneFragmentEach(before + [f]) {
      var longer := before + [f];
      assert forall i | 0 <= i < |before| :: longer[i] == before[i];
      assert longer[|before|] == f;
    }
  }

  lemma CallsStep(before: seq<Fragment>, f: Fragment)
    ensures
      var calls := Calls(before);
      Calls(before + [f]) ==
      match Place(calls, f.index)
      case None => calls + [f]
      case Some(n) => calls[n := calls[n].(arguments := calls[n].arguments + f.arguments)]
  {
    hide Place;
    assert (before + [f])[..|before|] == before;
  }

  /** The cached response holds the fragments as they came; they are the calls exactly when every call came in one piece. */
  lemma {:induction false} CachedCallsAreWholeIff(fragments: seq<Fragment>)
    ensures Calls(fragments) == fragments <==> OneFragmentEach(fragments)
  {
    hide OneFragmentEach, Calls, Place;
    if fragments == [] {
      NoCalls();
    } else {
      var before, f := fragments[..|fragments| - 1], fragments[|fragments| - 1];
      CachedCallsAreWholeIff(before);
      NeverMoreCalls(before);
      OneFragmentEachStep(before, f);
      CallsStep(before, f);
      assert fragments == before + [f];
      WholeStep(Calls(before), before, f, Calls(fragments));
    }
  }

  lemma NoCalls()
    ensures Calls([]) == [] && OneFragmentEach([])
  {
  }

  lemma WholeStep(calls: seq<Fragment>, before: seq<Fragment>, f: Fragment, longer: seq<Fragment>)
    requires |calls| <= |before|
    requires
      longer ==
      match Place(calls, f.index)
      case None => calls + [f]
      case Some(n) => calls[n := calls[n].(arguments := calls[n].arguments + f.arguments)]
    ensures longer == before + [f] <==> calls == before && forall g | g in before :: g.index != f.index
  {
    match Place(calls, f.index)
    case None =>
      if longer == before + [f] {
        assert calls == longer[..|calls|] && |calls| == |before|;
        assert before == longer[..|before|];
      }
    case Some(n) =>
      assert |longer| < |before + [f]|;
      assert calls[n] in calls;
  }
}
