/** The presentation rules of src/view.py that are more than rendering: the response-stream
    aggregator behind `live_response`, which panels it shows, the column rule of
    `print_table`, the numbering of `print_ordered_list` and the role routing of
    `reconstruct_history`. Console output is a sequence of lines or rendered items. */
module View {
  import opened Wrappers
  import opened Seqs
  import opened Text
  import opened Models

  // ------------------------------------------------------------ live_response

  /** `chunk["message"]`: its `thinking` and `content` keys, each possibly absent. */
  datatype Delta = Delta(thinking: Option<string>, content: Option<string>)

  /** One streamed chunk; `message` is absent when the chunk has no such key. */
  datatype Chunk = Chunk(message: Option<Delta>)

  /** A rich Panel: title, Markdown body, style. */
  datatype Panel = Panel(title: string, body: string, style: string)

  /** The thinking text a chunk carries, "" when absent. */
  function ThinkingOf(c: Chunk): string {
    match c.message
    case None => ""
    case Some(d) => match d.thinking case None => "" case Some(s) => s
  }

  /** The content text a chunk carries, "" when absent. */
  function ContentOf(c: Chunk): string {
    match c.message
    case None => ""
    case Some(d) => match d.content case None => "" case Some(s) => s
  }

  /** All thinking deltas, in arrival order. */
  function Thoughts(chunks: seq<Chunk>): string {
    if chunks == [] then "" else Thoughts(chunks[..|chunks| - 1]) + ThinkingOf(chunks[|chunks| - 1])
  }

  /** All content deltas, in arrival order. */
  function Content(chunks: seq<Chunk>): string {
    if chunks == [] then "" else Content(chunks[..|chunks| - 1]) + ContentOf(chunks[|chunks| - 1])
  }

  function ThoughtsTitle(modelName: string): string {
    modelName + "'s Thoughts..."
  }

  function ContentTitle(modelName: string, style: string, time: string): string {
    "[bold " + style + "]" + modelName + "[/bold " + style + "] - " + time
  }

  /** The panels shown for the text so far: thoughts first, each only when non-empty. */
  function Display(thinking: string, content: string, modelName: string, time: string,
                   style: string, thinkingStyle: string): (d: seq<Panel>)
    ensures |d| == (if thinking != "" then 1 else 0) + (if content != "" then 1 else 0)
    ensures thinking != "" ==> d[0] == Panel(ThoughtsTitle(modelName), thinking, thinkingStyle)
    ensures content != "" ==> d[|d| - 1] == Panel(ContentTitle(modelName, style, time), content, style)
  {
    (if thinking != "" then [Panel(ThoughtsTitle(modelName), thinking, thinkingStyle)] else [])
    + (if content != "" then [Panel(ContentTitle(modelName, style, time), content, style)] else [])
  }

  /** The `live.update` calls, one per chunk after which something is shown. */
  function Frames(chunks: seq<Chunk>, modelName: string, time: string, style: string, thinkingStyle: string): seq<seq<Panel>> {
    if chunks == [] then []
    else
      var d := Display(Thoughts(chunks), Content(chunks), modelName, time, style, thinkingStyle);
      Frames(chunks[..|chunks| - 1], modelName, time, style, thinkingStyle) + (if d != [] then [d] else [])
  }

  /** Folds the stream into the two accumulators, updating the live display after each chunk
      that leaves something to show; returns once the stream is exhausted. */
  method LiveResponse(modelName: string, time: string, responseStream: seq<Chunk>, style: string, thinkingStyle: string)
    returns (frames: seq<seq<Panel>>, response: ModelResponse)
    ensures response == ModelResponse(Thoughts(responseStream), Content(responseStream))
    ensures frames == Frames(responseStream, modelName, time, style, thinkingStyle)
  {
    var thinkingStr := "";
    var contentStr := "";
    frames := [];
    for i := 0 to |responseStream|
      invariant thinkingStr == Thoughts(responseStream[..i])
      invariant contentStr == Content(responseStream[..i])
      invariant frames == Frames(responseStream[..i], modelName, time, style, thinkingStyle)
    {
      var chunk := responseStream[i];
      assert responseStream[..i + 1][..i] == responseStream[..i];
      var thinking := ThinkingOf(chunk);
      var content := ContentOf(chunk);
      if thinking != "" {
        thinkingStr := thinkingStr + thinking;
      }
      if content != "" {
        contentStr := contentStr + content;
      }
      var displayElements := Display(thinkingStr, contentStr, modelName, time, style, thinkingStyle);
      if displayElements != [] {
        frames := frames + [displayElements];
      }
    }
    assert responseStream[..|responseStream|] == responseStream;
    response := ModelResponse(thinkingStr, contentStr);
  }

  /** Both accumulators are homomorphisms: a stream split in two yields the
      concatenation of what each part yields. */
  lemma {:induction false} AccumulateConcat(a: seq<Chunk>, b: seq<Chunk>)
    ensures Thoughts(a + b) == Thoughts(a) + Thoughts(b)
    ensures Content(a + b) == Content(a) + Content(b)
    decreases |b|
  {
    if b == [] {
      assert a + b == a;
    } else {
      var init, last := b[..|b| - 1], b[|b| - 1];
      assert (a + b)[..|a + b| - 1] == a + init && (a + b)[|a + b| - 1] == last;
      AccumulateConcat(a, init);
      ConcatAssoc(Thoughts(a), Thoughts(init), ThinkingOf(last));
      ConcatAssoc(Content(a), Content(init), ContentOf(last));
    }
  }

  /** The accumulators are independent: the content depends only on the content deltas,
      the thoughts only on the thinking deltas. */
  lemma {:induction false} AccumulatorsIndependent(a: seq<Chunk>, b: seq<Chunk>)
    requires |a| == |b|
    ensures (forall k :: 0 <= k < |a| ==> ContentOf(a[k]) == ContentOf(b[k])) ==> Content(a) == Content(b)
    ensures (forall k :: 0 <= k < |a| ==> ThinkingOf(a[k]) == ThinkingOf(b[k])) ==> Thoughts(a) == Thoughts(b)
  {
    if a != [] {
      AccumulatorsIndependent(a[..|a| - 1], b[..|b| - 1]);
    }
  }

  /** A chunk without a `message`, or whose deltas are absent or empty, changes neither
      accumulator; the display is refreshed with the same panels, and not at all while
      nothing has arrived yet. */
  lemma EmptyChunkChangesNothing(chunks: seq<Chunk>, c: Chunk, modelName: string, time: string, style: string, thinkingStyle: string)
    requires ThinkingOf(c) == "" && ContentOf(c) == ""
    ensures Thoughts(chunks + [c]) == Thoughts(chunks) && Content(chunks + [c]) == Content(chunks)
    ensures var d := Display(Thoughts(chunks), Content(chunks), modelName, time, style, thinkingStyle);
            Frames(chunks + [c], modelName, time, style, thinkingStyle)
            == Frames(chunks, modelName, time, style, thinkingStyle) + (if d != [] then [d] else [])
  {
    assert (chunks + [c])[..|chunks|] == chunks;
  }

  /** The last display update shows exactly the final accumulators. */
  lemma LastFrameIsFinal(chunks: seq<Chunk>, modelName: string, time: string, style: string, thinkingStyle: string)
    requires chunks != [] && (Thoughts(chunks) != "" || Content(chunks) != "")
    ensures var f := Frames(chunks, modelName, time, style, thinkingStyle);
            f != [] && f[|f| - 1] == Display(Thoughts(chunks), Content(chunks), modelName, time, style, thinkingStyle)
  {
  }

  /** The example stream: content "Hel", thinking "thinking", content "lo". */
  lemma ExampleStream()
    ensures var s := [Chunk(Some(Delta(None, Some("Hel")))), Chunk(Some(Delta(Some("thinking"), None))),
                      Chunk(Some(Delta(None, Some("lo"))))];
            Thoughts(s) == "thinking" && Content(s) == "Hello"
  {
    var s := [Chunk(Some(Delta(None, Some("Hel")))), Chunk(Some(Delta(Some("thinking"), None))),
              Chunk(Some(Delta(None, Some("lo"))))];
    assert s[..1][..0] == [];
    assert Thoughts(s[..1]) == "" && Content(s[..1]) == "Hel";
    assert s[..2][..1] == s[..1];
    assert Thoughts(s[..2]) == "thinking" && Content(s[..2]) == "Hel";
    assert s[..|s| - 1] == s[..2];
  }

  // ------------------------------------------------------------ print_* helpers

  /** The markup `print_system_message` prints. */
  function SystemLine(message: string, style: string): string {
    "[bold " + style + "][*][/bold " + style + "][" + style + "] " + message + "[/" + style + "]"
  }

  /** The markup of the `n`-th entry of `print_ordered_list`. */
  function OrderedLine(n: int, message: string, style: string): string {
    "[bold " + style + "][" + IntToStr(n) + "][/bold " + style + "][" + style + "] " + message + "[/" + style + "]"
  }

  /** What `print` emits for one message: an empty line first when `line_break` is set. */
  function Emit(message: string, lineBreak: bool): seq<string> {
    (if lineBreak then [""] else []) + [message]
  }

  /** The console lines of `print_ordered_list`. */
  function OrderedLines(messages: seq<string>, style: string, lineBreak: bool): seq<string> {
    if messages == [] then []
    else OrderedLines(messages[..|messages| - 1], style, lineBreak)
         + Emit(OrderedLine(|messages|, messages[|messages| - 1], style), lineBreak)
  }

  method PrintOrderedList(messageList: seq<string>, style: string, lineBreak: bool) returns (lines: seq<string>)
    ensures lines == OrderedLines(messageList, style, lineBreak)
  {
    lines := [];
    for i := 0 to |messageList|
      invariant lines == OrderedLines(messageList[..i], style, lineBreak)
    {
      assert messageList[..i + 1][..i] == messageList[..i];
      lines := lines + Emit(OrderedLine(i + 1, messageList[i], style), lineBreak);
    }
    assert messageList[..|messageList|] == messageList;
  }

  /** Every entry takes one line, two with `line_break`. */
  lemma {:induction false} OrderedLinesLength(messages: seq<string>, style: string, lineBreak: bool)
    ensures |OrderedLines(messages, style, lineBreak)| == (if lineBreak then 2 else 1) * |messages|
  {
    if messages != [] {
      OrderedLinesLength(messages[..|messages| - 1], style, lineBreak);
    }
  }

  /** Entry `k` is labelled `k + 1`, and with `line_break` it is preceded by an empty line. */
  lemma {:induction false} OrderedLineAt(messages: seq<string>, style: string, lineBreak: bool, k: nat)
    requires k < |messages|
    ensures var lines := OrderedLines(messages, style, lineBreak);
            if lineBreak then
              2 * k + 1 < |lines| && lines[2 * k + 1] == OrderedLine(k + 1, messages[k], style) && lines[2 * k] == ""
            else
              k < |lines| && lines[k] == OrderedLine(k + 1, messages[k], style)
  {
    var n := |messages|;
    var init := messages[..n - 1];
    var prev := OrderedLines(init, style, lineBreak);
    OrderedLinesLength(init, style, lineBreak);
    assert OrderedLines(messages, style, lineBreak) == prev + Emit(OrderedLine(n, messages[n - 1], style), lineBreak);
    if k < n - 1 {
      OrderedLineAt(init, style, lineBreak, k);
      assert init[k] == messages[k];
    }
  }

  /** Items are labelled 1..n in input order, one line each, or two with `line_break`. */
  lemma OrderedLinesNumbering(messages: seq<string>, style: string, lineBreak: bool)
    ensures var lines := OrderedLines(messages, style, lineBreak);
            !lineBreak ==>
              && |lines| == |messages|
              && forall k :: 0 <= k < |messages| ==> lines[k] == OrderedLine(k + 1, messages[k], style)
    ensures var lines := OrderedLines(messages, style, lineBreak);
            lineBreak ==>
              && |lines| == 2 * |messages|
              && forall k :: 0 <= k < |messages| ==>
                   lines[2 * k + 1] == OrderedLine(k + 1, messages[k], style) && lines[2 * k] == ""
  {
    var lines := OrderedLines(messages, style, lineBreak);
    OrderedLinesLength(messages, style, lineBreak);
    if lineBreak {
      forall k | 0 <= k < |messages|
        ensures lines[2 * k + 1] == OrderedLine(k + 1, messages[k], style) && lines[2 * k] == ""
      {
        OrderedLineAt(messages, style, lineBreak, k);
      }
    } else {
      forall k | 0 <= k < |messages|
        ensures lines[k] == OrderedLine(k + 1, messages[k], style)
      {
        OrderedLineAt(messages, style, lineBreak, k);
      }
    }
  }

  // ------------------------------------------------------------ print_table

  /** A column added to the table: header, justification and ratio (`None` when unset). */
  datatype Column = Column(header: string, justify: string, ratio: Option<int>)

  datatype ViewError = IndexError

  predicate IsAlignment(a: string) {
    a == "left" || a == "center" || a == "right"
  }

  /** The columns `print_table` adds. A non-empty `col_alignment` shorter than `columns`
      raises IndexError; an alignment outside left/center/right becomes "center"; only the
      last column gets ratio 1. */
  method TableColumns(columns: seq<string>, colAlignment: Option<seq<string>>) returns (r: Result<seq<Column>, ViewError>)
    ensures r.Failure? <==> colAlignment.Some? && 0 < |colAlignment.value| < |columns|
    ensures r.Success? ==> |r.value| == |columns|
    ensures r.Success? ==> forall i :: 0 <= i < |columns| ==>
              && r.value[i].header == columns[i]
              && r.value[i].ratio == (if i == |columns| - 1 then Some(1) else None)
              && IsAlignment(r.value[i].justify)
              && (r.value[i].justify == if colAlignment.Some? && colAlignment.value != [] && IsAlignment(colAlignment.value[i])
                                        then colAlignment.value[i] else "center")
  {
    var table: seq<Column> := [];
    for i := 0 to |columns|
      invariant |table| == i
      invariant colAlignment.Some? && 0 < |colAlignment.value| < i ==> false
      invariant forall j :: 0 <= j < i ==>
                  && table[j].header == columns[j]
                  && table[j].ratio == (if j == |columns| - 1 then Some(1) else None)
                  && IsAlignment(table[j].justify)
                  && (table[j].justify == if colAlignment.Some? && colAlignment.value != [] && IsAlignment(colAlignment.value[j])
                                          then colAlignment.value[j] else "center")
    {
      var alignment := "center";
      if colAlignment.Some? && colAlignment.value != [] {
        if i >= |colAlignment.value| {
          return Failure(IndexError);
        }
        if IsAlignment(colAlignment.value[i]) {
          alignment := colAlignment.value[i];
        }
      }
      var ratio := if i == |columns| - 1 then Some(1) else None;
      table := table + [Column(columns[i], alignment, ratio)];
    }
    r := Success(table);
  }

  // ------------------------------------------------------------ reconstruct_history

  /** What `reconstruct_history` puts on the console. */
  datatype Rendered =
    | Line(text: string)
    | UserMessage(message: string)
    | AssistantMessage(message: string, name: string)

  /** Python's `created[:19]`: the first 19 characters, or all of a shorter string. */
  function Stamp(created: string): (s: string)
    ensures |s| <= 19 && s <= created
    ensures |created| >= 19 ==> |s| == 19
  {
    if |created| <= 19 then created else created[..19]
  }

  /** "user" items are user messages; every other role is an assistant message. */
  function RenderItem(item: ChatItem, style: string): Rendered {
    if item.role == "user" then UserMessage(item.message)
    else AssistantMessage(item.message, "Past AI[" + style + "] - " + Stamp(item.created) + "[/" + style + "]")
  }

  method ReconstructHistory(chatItems: seq<ChatItem>, style: string) returns (out: seq<Rendered>)
    ensures |out| == |chatItems| + 2
    ensures out[..2] == [Line(""), Line(SystemLine("Reconstructing History...", style))]
    ensures forall k :: 0 <= k < |chatItems| ==>
              && out[k + 2] == RenderItem(chatItems[k], style)
              && (out[k + 2].UserMessage? <==> chatItems[k].role == "user")
              && out[k + 2].message == chatItems[k].message
  {
    out := [Line(""), Line(SystemLine("Reconstructing History...", style))];
    for i := 0 to |chatItems|
      invariant |out| == i + 2
      invariant out[..2] == [Line(""), Line(SystemLine("Reconstructing History...", style))]
      invariant forall k :: 0 <= k < i ==> out[k + 2] == RenderItem(chatItems[k], style)
    {
      var item := chatItems[i];
      if item.role == "user" {
        out := out + [UserMessage(item.message)];
      } else {
        var timeOfMessage := Stamp(item.created);
        out := out + [AssistantMessage(item.message, "Past AI[" + style + "] - " + timeOfMessage + "[/" + style + "]")];
      }
    }
  }
}
