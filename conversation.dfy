/**
 * The tool-calling conversation loop of the analysis agent's MCP client
 * (MCPClient.process_query): the values it exchanges with the model gateway,
 * a reference definition of one run of the loop, and what is proved about it.
 *
 * The model gateway is a script: the i-th call to messages.create answers
 * with the i-th response of the script, and a call past the end of the
 * script fails (an API error, which the source lets propagate).
 */
module Conversation {
  import opened Wrappers

  datatype Role = User | Assistant

  /** A tool's arguments: the key/value pairs of the JSON object the model sent, in order. */
  type Args = seq<(string, string)>

  /** A content block of a model response or of a transcript turn. */
  datatype Block =
    | Text(text: string)
    | ToolUse(id: string, name: string, input: Args)
    | ToolResult(toolUseId: string, output: string)
    | OtherBlock  // any other block type the gateway may send; the scan skips it

  /** A turn's content: the plain query string, or a list of blocks. */
  datatype Content = Plain(text: string) | Blocks(blocks: seq<Block>)

  datatype Turn = Turn(role: Role, content: Content)

  /** One answer of the model gateway: its content blocks, in order. */
  type Response = seq<Block>

  datatype ToolCall = ToolCall(name: string, input: Args)

  /** The MCP session's call_tool: the tool's result content, or None when the call raised. */
  type Tool = ToolCall -> Option<string>

  /** The summary call to the gateway: (system instruction, transcript) to its response. */
  type Summarizer = (string, seq<Turn>) -> Response

  /** Why the loop stopped: a tool-free response, a tool call that raised, or a failed model call. */
  datatype Status = Finished | ToolRaised | GatewayFailed

  /**
   * What one run of the loop built: the transcript, the accumulated text
   * trace, the transcript sent with each model call (requests[i] goes with
   * the i-th call), the tool calls made, and why it stopped.
   */
  datatype Run = Run(
    messages: seq<Turn>,
    finalText: seq<string>,
    requests: seq<seq<Turn>>,
    toolCalls: seq<ToolCall>,
    status: Status)

  /** The ways process_query can raise. */
  datatype Failure = NotConnected | ToolCallFailed | GatewayError | SummaryNotText

  /** The summary call process_query makes once the loop is over. */
  datatype SummaryRequest = SummaryRequest(system: string, messages: seq<Turn>)

  /** The index of the first tool_use block of a response, or its length when there is none. */
  function FirstToolIndex(r: Response): (k: nat)
    ensures k <= |r|
    ensures forall j :: 0 <= j < k ==> !r[j].ToolUse?
    ensures k < |r| ==> r[k].ToolUse?
  {
    if r == [] || r[0].ToolUse? then 0 else 1 + FirstToolIndex(r[1..])
  }

  predicate HasToolUse(r: Response) {
    FirstToolIndex(r) < |r|
  }

  /** The tool call that the first tool_use block of a response asks for. */
  function FirstCall(r: Response): ToolCall
    requires HasToolUse(r)
  {
    var b := r[FirstToolIndex(r)];
    ToolCall(b.name, b.input)
  }

  /** The text of the text blocks, in order. */
  function Texts(bs: seq<Block>): seq<string> {
    if bs == [] then []
    else Texts(bs[..|bs| - 1]) + (if bs[|bs| - 1].Text? then [bs[|bs| - 1].text] else [])
  }

  /** The text blocks themselves, in order. */
  function TextBlocks(bs: seq<Block>): (ts: seq<Block>)
    ensures |ts| <= |bs|
    ensures |ts| == |Texts(bs)| && forall i :: 0 <= i < |ts| ==> ts[i] == Text(Texts(bs)[i])
  {
    if bs == [] then []
    else TextBlocks(bs[..|bs| - 1]) + (if bs[|bs| - 1].Text? then [bs[|bs| - 1]] else [])
  }

  /** Python's rendering of a dict of strings, "{'k': 'v', ...}" (no escaping inside the quotes). */
  function ArgsText(a: Args): string {
    "{" + Items(a) + "}"
  }

  function Items(a: Args): string {
    if a == [] then ""
    else "'" + a[0].0 + "': '" + a[0].1 + "'" + (if |a| == 1 then "" else ", " + Items(a[1..]))
  }

  /** The trace line recorded after a tool call returns. */
  function Marker(c: ToolCall): string {
    "[Calling tool " + c.name + " with args " + ArgsText(c.input) + "]"
  }

  /** The assistant turn committed for a tool-using response: the text blocks before the tool_use, then the tool_use. */
  function AssistantTurn(r: Response): Turn
    requires HasToolUse(r)
  {
    var k := FirstToolIndex(r);
    Turn(Assistant, Blocks(TextBlocks(r[..k]) + [r[k]]))
  }

  /** The user turn carrying the tool's result, tagged with the id of the tool_use it answers. */
  function ResultTurn(r: Response, output: string): Turn
    requires HasToolUse(r)
  {
    Turn(User, Blocks([ToolResult(r[FirstToolIndex(r)].id, output)]))
  }

  /** What the trace gains from a tool-using response whose tool call returned. */
  function RoundText(r: Response): seq<string>
    requires HasToolUse(r)
  {
    Texts(r[..FirstToolIndex(r)]) + [Marker(FirstCall(r))]
  }

  /**
   * The loop, from the moment the n-th response of the script is in hand.
   * The text blocks are traced in order; on the first tool_use block the
   * tool is called, the assistant turn and the tool-result turn are
   * appended, and the next response is requested; a response without a
   * tool_use ends the loop without adding a turn.
   */
  function Round(script: seq<Response>, tool: Tool, n: nat, messages: seq<Turn>, finalText: seq<string>,
                 requests: seq<seq<Turn>>, toolCalls: seq<ToolCall>): (run: Run)
    requires n < |script|
    ensures messages <= run.messages && finalText <= run.finalText
    ensures requests <= run.requests && toolCalls <= run.toolCalls
    ensures |run.messages| == |messages| + 2 * (|run.requests| - |requests|)
    ensures |run.toolCalls| - |toolCalls| <= |script| - n
    ensures |run.requests| - |requests| <= |script| - n
    ensures run.status == GatewayFailed <==> |run.requests| - |requests| == |script| - n
    decreases |script| - n
  {
    var r := script[n];
    var k := FirstToolIndex(r);
    if k == |r| then
      Run(messages, finalText + Texts(r), requests, toolCalls, Finished)
    else
      var said := finalText + Texts(r[..k]);
      var calls := toolCalls + [FirstCall(r)];
      match tool(FirstCall(r))
      case None => Run(messages, said, requests, calls, ToolRaised)
      case Some(output) =>
        var next := messages + [AssistantTurn(r), ResultTurn(r, output)];
        var text := said + [Marker(FirstCall(r))];
        if n + 1 == |script| then Run(next, text, requests + [next], calls, GatewayFailed)
        else Round(script, tool, n + 1, next, text, requests + [next], calls)
  }

  /** A whole run of the loop for a query: the transcript starts with one user turn holding the query. */
  function Converse(query: string, script: seq<Response>, tool: Tool): (run: Run)
    ensures |run.messages| >= 1 && run.messages[0] == Turn(User, Plain(query))
    ensures |run.requests| >= 1 && run.requests[0] == [Turn(User, Plain(query))]
    ensures |run.messages| == 2 * |run.requests| - 1
    ensures |run.toolCalls| <= |script|
    ensures run.status == GatewayFailed <==> |run.requests| == |script| + 1
  {
    var start := [Turn(User, Plain(query))];
    if script == [] then Run(start, [], [start], [], GatewayFailed)
    else Round(script, tool, 0, start, [], [start], [])
  }

  const SummaryLead: string := "Provide a summary of the analysis conducted for the query: "
  const SummaryTail: string := " based on the below messages"

  /** The system instruction of the summary call: the query, verbatim, between a fixed lead and tail. */
  function SummaryInstruction(query: string): (s: string)
    ensures |s| == |SummaryLead| + |query| + |SummaryTail|
    ensures s[..|SummaryLead|] == SummaryLead
    ensures s[|SummaryLead|..|SummaryLead| + |query|] == query
    ensures s[|SummaryLead| + |query|..] == SummaryTail
  {
    SummaryLead + query + SummaryTail
  }

  /** The text of the first content block of the summary response; anything else raises. */
  function FirstText(r: Response): (out: Result<string, Failure>)
    ensures out.Ok? <==> |r| > 0 && r[0].Text?
    ensures out.Ok? ==> Text(out.value) == r[0]
  {
    if |r| > 0 && r[0].Text? then Ok(r[0].text) else Err(SummaryNotText)
  }

  /** What process_query returns or raises once the loop has stopped. */
  function Reply(query: string, run: Run, summarize: Summarizer): (out: Result<string, Failure>)
    ensures var s := summarize(SummaryInstruction(query), run.messages);
      && (out.Ok? <==> run.status == Finished && |s| > 0 && s[0].Text?)
      && (out.Ok? ==> Text(out.value) == s[0])
      && (out == Err(SummaryNotText) <==> run.status == Finished && !(|s| > 0 && s[0].Text?))
    ensures run.status == ToolRaised ==> out == Err(ToolCallFailed)
    ensures run.status == GatewayFailed ==> out == Err(GatewayError)
  {
    match run.status
    case Finished => FirstText(summarize(SummaryInstruction(query), run.messages))
    case ToolRaised => Err(ToolCallFailed)
    case GatewayFailed => Err(GatewayError)
  }

  // ---------------------------------------------------------------------
  // A description of a run by index, independent of the recursion above.

  /** The response asked for a tool and the tool returned. */
  predicate Completed(r: Response, tool: Tool) {
    HasToolUse(r) && tool(FirstCall(r)).Some?
  }

  /** The trace of a series of tool-using responses whose tool calls returned. */
  function Narration(rs: seq<Response>): seq<string>
    requires forall j :: 0 <= j < |rs| ==> HasToolUse(rs[j])
  {
    if rs == [] then [] else Narration(rs[..|rs| - 1]) + RoundText(rs[|rs| - 1])
  }

  /** The tool calls of a series of tool-using responses. */
  function Calls(rs: seq<Response>): seq<ToolCall>
    requires forall j :: 0 <= j < |rs| ==> HasToolUse(rs[j])
  {
    if rs == [] then [] else Calls(rs[..|rs| - 1]) + [FirstCall(rs[|rs| - 1])]
  }

  /**
   * The transcript and the model calls after the first m responses of the
   * script each had a tool call that returned: the query turn, then one
   * assistant turn and one tool-result turn per response, and the j-th
   * model call saw the transcript as it stood after j rounds.
   */
  ghost predicate AfterRounds(query: string, script: seq<Response>, tool: Tool, m: nat,
                              messages: seq<Turn>, requests: seq<seq<Turn>>)
  {
    && m <= |script|
    && |messages| == 1 + 2 * m
    && messages[0] == Turn(User, Plain(query))
    && (forall j :: 0 <= j < m ==>
          && Completed(script[j], tool)
          && messages[1 + 2 * j] == AssistantTurn(script[j])
          && messages[2 + 2 * j] == ResultTurn(script[j], tool(FirstCall(script[j])).value))
    && |requests| == m + 1
    && (forall j :: 0 <= j <= m ==> requests[j] == messages[..1 + 2 * j])
  }

  /** A run, described response by response. */
  ghost predicate Describes(query: string, script: seq<Response>, tool: Tool, run: Run) {
    var m := |run.requests| - 1;
    && 1 <= |run.requests|
    && AfterRounds(query, script, tool, m, run.messages, run.requests)
    && match run.status
       case Finished =>
         && m < |script| && !HasToolUse(script[m])
         && run.finalText == Narration(script[..m]) + Texts(script[m])
         && run.toolCalls == Calls(script[..m])
       case ToolRaised =>
         && m < |script| && HasToolUse(script[m]) && tool(FirstCall(script[m])).None?
         && run.finalText == Narration(script[..m]) + Texts(script[m][..FirstToolIndex(script[m])])
         && run.toolCalls == Calls(script[..m]) + [FirstCall(script[m])]
       case GatewayFailed =>
         && m == |script|
         && run.finalText == Narration(script)
         && run.toolCalls == Calls(script)
  }

  /** One more completed round extends the transcript by its two turns and the model calls by that transcript. */
  lemma AfterOneMore(query: string, script: seq<Response>, tool: Tool, n: nat,
                     messages: seq<Turn>, requests: seq<seq<Turn>>)
    requires n < |script| && Completed(script[n], tool)
    requires AfterRounds(query, script, tool, n, messages, requests)
    ensures var next := messages + [AssistantTurn(script[n]), ResultTurn(script[n], tool(FirstCall(script[n])).value)];
      AfterRounds(query, script, tool, n + 1, next, requests + [next])
  {
    var next := messages + [AssistantTurn(script[n]), ResultTurn(script[n], tool(FirstCall(script[n])).value)];
    forall j | 0 <= j <= n + 1
      ensures (requests + [next])[j] == next[..1 + 2 * j]
    {
      if j <= n {
        assert next[..1 + 2 * j] == messages[..1 + 2 * j];
      }
    }
  }

  /** The trace and the calls of the first n + 1 responses, from those of the first n. */
  lemma NarrationStep(script: seq<Response>, n: nat)
    requires n < |script| && forall j :: 0 <= j <= n ==> HasToolUse(script[j])
    ensures Narration(script[..n + 1]) == Narration(script[..n]) + RoundText(script[n])
    ensures Calls(script[..n + 1]) == Calls(script[..n]) + [FirstCall(script[n])]
  {
    assert script[..n + 1][..n] == script[..n];
  }

  /** A round that ends the loop: a response without a tool call, or a tool call that raised. */
  lemma StopDescribed(query: string, script: seq<Response>, tool: Tool, n: nat,
                      messages: seq<Turn>, finalText: seq<string>,
                      requests: seq<seq<Turn>>, toolCalls: seq<ToolCall>)
    requires n < |script| && !Completed(script[n], tool)
    requires AfterRounds(query, script, tool, n, messages, requests)
    requires finalText == Narration(script[..n]) && toolCalls == Calls(script[..n])
    ensures Describes(query, script, tool, Round(script, tool, n, messages, finalText, requests, toolCalls))
  {
    var r := script[n];
    var k := FirstToolIndex(r);
    var run := Round(script, tool, n, messages, finalText, requests, toolCalls);
    if k == |r| {
      assert run == Run(messages, finalText + Texts(r), requests, toolCalls, Finished);
    } else {
      assert run == Run(messages, finalText + Texts(r[..k]), requests, toolCalls + [FirstCall(r)], ToolRaised);
    }
  }

  /** The last response of the script had a tool call that returned: the gateway has no further response. */
  lemma ExhaustedDescribed(query: string, script: seq<Response>, tool: Tool, n: nat,
                           messages: seq<Turn>, finalText: seq<string>,
                           requests: seq<seq<Turn>>, toolCalls: seq<ToolCall>)
    requires n + 1 == |script| && Completed(script[n], tool)
    requires AfterRounds(query, script, tool, n, messages, requests)
    requires finalText == Narration(script[..n]) && toolCalls == Calls(script[..n])
    ensures Describes(query, script, tool, Round(script, tool, n, messages, finalText, requests, toolCalls))
  {
    var r := script[n];
    var next := messages + [AssistantTurn(r), ResultTurn(r, tool(FirstCall(r)).value)];
    NarrationStep(script, n);
    AfterOneMore(query, script, tool, n, messages, requests);
    assert script[..n + 1] == script;
    assert Round(script, tool, n, messages, finalText, requests, toolCalls)
      == Run(next, finalText + RoundText(r), requests + [next], toolCalls + [FirstCall(r)], GatewayFailed);
  }

  lemma {:induction false} RoundDescribed(query: string, script: seq<Response>, tool: Tool, n: nat,
                                          messages: seq<Turn>, finalText: seq<string>,
                                          requests: seq<seq<Turn>>, toolCalls: seq<ToolCall>)
    requires n < |script|
    requires AfterRounds(query, script, tool, n, messages, requests)
    requires finalText == Narration(script[..n]) && toolCalls == Calls(script[..n])
    ensures Describes(query, script, tool, Round(script, tool, n, messages, finalText, requests, toolCalls))
    decreases |script| - n
  {
    var r := script[n];
    if !Completed(r, tool) {
      StopDescribed(query, script, tool, n, messages, finalText, requests, toolCalls);
    } else if n + 1 == |script| {
      ExhaustedDescribed(query, script, tool, n, messages, finalText, requests, toolCalls);
    } else {
      var next := messages + [AssistantTurn(r), ResultTurn(r, tool(FirstCall(r)).value)];
      var text := finalText + Texts(r[..FirstToolIndex(r)]) + [Marker(FirstCall(r))];
      var calls := toolCalls + [FirstCall(r)];
      NarrationStep(script, n);
      assert text == Narration(script[..n + 1]);
      AfterOneMore(query, script, tool, n, messages, requests);
      assert Round(script, tool, n, messages, finalText, requests, toolCalls)
        == Round(script, tool, n + 1, next, text, requests + [next], calls);
      RoundDescribed(query, script, tool, n + 1, next, text, requests + [next], calls);
    }
  }

  /** Every run of the loop is the one described response by response. */
  lemma ConverseDescribed(query: string, script: seq<Response>, tool: Tool)
    ensures Describes(query, script, tool, Converse(query, script, tool))
  {
    var start := [Turn(User, Plain(query))];
    assert AfterRounds(query, script, tool, 0, start, [start]);
    if script != [] {
      assert script[..0] == [];
      RoundDescribed(query, script, tool, 0, start, [], [start], []);
    }
  }

  // ---------------------------------------------------------------------
  // Properties of the loop.

  /**
   * An assistant turn that ends in a tool_use preceded only by text, and the
   * next turn a user turn whose single block is the tool_result for that
   * tool_use's id.
   */
  predicate Answers(asked: Turn, answer: Turn) {
    && asked.role == Assistant
    && asked.content.Blocks?
    && |asked.content.blocks| > 0
    && asked.content.blocks[|asked.content.blocks| - 1].ToolUse?
    && (forall j :: 0 <= j < |asked.content.blocks| - 1 ==> asked.content.blocks[j].Text?)
    && answer.role == User
    && answer.content.Blocks?
    && |answer.content.blocks| == 1
    && answer.content.blocks[0].ToolResult?
    && answer.content.blocks[0].toolUseId == asked.content.blocks[|asked.content.blocks| - 1].id
  }

  lemma RoundAnswers(r: Response, output: string)
    requires HasToolUse(r)
    ensures Answers(AssistantTurn(r), ResultTurn(r, output))
  {
    var k := FirstToolIndex(r);
    var bs := TextBlocks(r[..k]) + [r[k]];
    assert bs[|bs| - 1] == r[k];
  }

  /** The transcript of every run is the one its rounds describe. */
  lemma ConverseRounds(query: string, script: seq<Response>, tool: Tool)
    ensures var run := Converse(query, script, tool);
      1 <= |run.requests| && AfterRounds(query, script, tool, |run.requests| - 1, run.messages, run.requests)
  {
    ConverseDescribed(query, script, tool);
  }

  /** After completed rounds, every assistant turn is followed by the tool result that answers it. */
  lemma PairsAnswer(query: string, script: seq<Response>, tool: Tool, m: nat,
                    messages: seq<Turn>, requests: seq<seq<Turn>>)
    requires AfterRounds(query, script, tool, m, messages, requests)
    ensures forall j :: 0 <= j < m ==> Answers(messages[1 + 2 * j], messages[2 + 2 * j])
  {
    forall j | 0 <= j < m
      ensures Answers(messages[1 + 2 * j], messages[2 + 2 * j])
    {
      RoundAnswers(script[j], tool(FirstCall(script[j])).value);
    }
  }

  /** After completed rounds, each model call saw the previous one's transcript plus one pair of turns. */
  lemma RequestsGrow(query: string, script: seq<Response>, tool: Tool, m: nat,
                     messages: seq<Turn>, requests: seq<seq<Turn>>)
    requires AfterRounds(query, script, tool, m, messages, requests)
    ensures forall i :: 1 <= i < |requests| ==>
      |requests[i]| == 2 * i + 1 && requests[i][..2 * i - 1] == requests[i - 1]
  {
    forall i | 1 <= i < |requests|
      ensures |requests[i]| == 2 * i + 1 && requests[i][..2 * i - 1] == requests[i - 1]
    {
      assert requests[i] == messages[..1 + 2 * i];
      assert requests[i - 1] == messages[..1 + 2 * (i - 1)];
    }
  }

  /**
   * The transcript of every run: the first model call sees exactly the query
   * turn; after it come pairs of turns, an assistant turn ending in one
   * tool_use and a user turn holding the tool_result with the same id; and
   * each model call after the first sees the previous call's transcript plus
   * exactly one such pair.
   */
  lemma TranscriptShape(query: string, script: seq<Response>, tool: Tool)
    ensures var run := Converse(query, script, tool);
      && |run.requests| >= 1
      && run.requests[0] == [Turn(User, Plain(query))]
      && |run.messages| == 2 * |run.requests| - 1
      && (forall j :: 0 <= j < |run.requests| - 1 ==> Answers(run.messages[1 + 2 * j], run.messages[2 + 2 * j]))
      && (forall i :: 1 <= i < |run.requests| ==>
            |run.requests[i]| == 2 * i + 1 && run.requests[i][..2 * i - 1] == run.requests[i - 1])
  {
    var run := Converse(query, script, tool);
    ConverseRounds(query, script, tool);
    var m := |run.requests| - 1;
    PairsAnswer(query, script, tool, m, run.messages, run.requests);
    RequestsGrow(query, script, tool, m, run.messages, run.requests);
  }

  /**
   * k responses that each call a tool that returns, then a response without
   * a tool_use: the loop stops there, after exactly k + 1 model calls and k
   * tool calls, and the final response adds no turn to the transcript.
   */
  lemma ToolRoundsThenFinish(query: string, script: seq<Response>, tool: Tool, k: nat)
    requires k < |script|
    requires forall j :: 0 <= j < k ==> Completed(script[j], tool)
    requires !HasToolUse(script[k])
    ensures var run := Converse(query, script, tool);
      && run.status == Finished
      && |run.requests| == k + 1
      && |run.toolCalls| == k
      && |run.messages| == 1 + 2 * k
      && run.messages == run.requests[k]
  {
    var run := Converse(query, script, tool);
    ConverseDescribed(query, script, tool);
    var m := |run.requests| - 1;
    assert !Completed(script[k], tool);
    assert m == k;
    CallsLength(script[..k]);
  }

  /** The loop stops normally only on a response without a tool_use, after every earlier response called a tool that returned. */
  lemma FinishOnlyWhenToolFree(query: string, script: seq<Response>, tool: Tool)
    ensures var run := Converse(query, script, tool);
      run.status == Finished ==>
        var k := |run.requests| - 1;
        && 0 <= k < |script|
        && !HasToolUse(script[k])
        && (forall j :: 0 <= j < k ==> Completed(script[j], tool))
  {
    ConverseDescribed(query, script, tool);
  }

  /**
   * When every response asks for a tool and every tool call returns, the
   * loop never stops on its own: it uses up the whole script, one tool call
   * per response, and never reaches the summary.
   */
  lemma AlwaysCallingNeverFinishes(query: string, script: seq<Response>, tool: Tool)
    requires forall j :: 0 <= j < |script| ==> Completed(script[j], tool)
    ensures var run := Converse(query, script, tool);
      && run.status == GatewayFailed
      && |run.requests| == |script| + 1
      && |run.toolCalls| == |script|
  {
    var run := Converse(query, script, tool);
    ConverseDescribed(query, script, tool);
    if |run.requests| - 1 < |script| {
      assert false;
    }
    CallsLength(script);
  }

  /**
   * Every tool call of a series of completed rounds leaves its marker in
   * the trace, and the trace ends with the marker of the last call.
   */
  lemma {:induction false} MarkersInTrace(rs: seq<Response>)
    requires forall j :: 0 <= j < |rs| ==> HasToolUse(rs[j])
    ensures |Calls(rs)| == |rs| <= |Narration(rs)|
    ensures forall j :: 0 <= j < |rs| ==> Marker(Calls(rs)[j]) in Narration(rs)
    ensures rs != [] ==> Narration(rs)[|Narration(rs)| - 1] == Marker(Calls(rs)[|rs| - 1])
  {
    CallsLength(rs);
    if rs != [] {
      var init := rs[..|rs| - 1];
      MarkersInTrace(init);
      CallsLength(init);
      forall j | 0 <= j < |rs|
        ensures Marker(Calls(rs)[j]) in Narration(rs)
      {
        if j < |rs| - 1 {
          assert Calls(rs)[j] == Calls(init)[j];
        } else {
          assert Narration(rs)[|Narration(rs)| - 1] == Marker(FirstCall(rs[j]));
        }
      }
    }
  }

  lemma {:induction false} CallsLength(rs: seq<Response>)
    requires forall j :: 0 <= j < |rs| ==> HasToolUse(rs[j])
    ensures |Calls(rs)| == |rs|
    ensures forall j :: 0 <= j < |rs| ==> Calls(rs)[j] == FirstCall(rs[j])
  {
    if rs != [] {
      CallsLength(rs[..|rs| - 1]);
    }
  }

  /** The part of a response the scan looks at: up to and including its first tool_use. */
  function Scanned(r: Response): Response {
    if HasToolUse(r) then r[..FirstToolIndex(r) + 1] else r
  }

  lemma FirstToolOfPrefix(r: Response, n: nat)
    requires FirstToolIndex(r) < n <= |r|
    ensures FirstToolIndex(r[..n]) == FirstToolIndex(r)
  {
    var k, k' := FirstToolIndex(r), FirstToolIndex(r[..n]);
    assert r[..n][k] == r[k];
    assert k' < n ==> r[..n][k'] == r[k'];
  }

  lemma ScannedDecides(r1: Response, r2: Response)
    requires Scanned(r1) == Scanned(r2)
    ensures HasToolUse(r1) == HasToolUse(r2)
    ensures HasToolUse(r1) ==> FirstToolIndex(r1) == FirstToolIndex(r2) && r1[..FirstToolIndex(r1) + 1] == r2[..FirstToolIndex(r2) + 1]
    ensures !HasToolUse(r1) ==> r1 == r2
  {
    if HasToolUse(r1) {
      FirstToolOfPrefix(r1, FirstToolIndex(r1) + 1);
    }
    if HasToolUse(r2) {
      FirstToolOfPrefix(r2, FirstToolIndex(r2) + 1);
    }
  }

  lemma {:induction false} RoundsAgree(s1: seq<Response>, s2: seq<Response>, tool: Tool, n: nat,
                                       messages: seq<Turn>, finalText: seq<string>,
                                       requests: seq<seq<Turn>>, toolCalls: seq<ToolCall>)
    requires n < |s1| == |s2|
    requires forall j :: n <= j < |s1| ==> Scanned(s1[j]) == Scanned(s2[j])
    ensures Round(s1, tool, n, messages, finalText, requests, toolCalls)
         == Round(s2, tool, n, messages, finalText, requests, toolCalls)
    decreases |s1| - n
  {
    var r1, r2 := s1[n], s2[n];
    ScannedDecides(r1, r2);
    if HasToolUse(r1) {
      var k := FirstToolIndex(r1);
      assert r1[..k] == r1[..k + 1][..k] && r2[..k] == r2[..k + 1][..k];
      assert r1[k] == r1[..k + 1][k] && r2[k] == r2[..k + 1][k];
      if n + 1 < |s1| && tool(FirstCall(r1)).Some? {
        var output := tool(FirstCall(r1)).value;
        var next := messages + [AssistantTurn(r1), ResultTurn(r1, output)];
        var text := finalText + Texts(r1[..k]) + [Marker(FirstCall(r1))];
        RoundsAgree(s1, s2, tool, n + 1, next, text, requests + [next], toolCalls + [FirstCall(r1)]);
      }
    }
  }

  /**
   * Blocks after the first tool_use of a response are never executed and
   * never reach the trace or the transcript: two scripts that agree on every
   * response up to and including its first tool_use give the same run.
   */
  lemma OnlyScannedBlocksMatter(query: string, s1: seq<Response>, s2: seq<Response>, tool: Tool)
    requires |s1| == |s2|
    requires forall j :: 0 <= j < |s1| ==> Scanned(s1[j]) == Scanned(s2[j])
    ensures Converse(query, s1, tool) == Converse(query, s2, tool)
  {
    if s1 != [] {
      var start := [Turn(User, Plain(query))];
      RoundsAgree(s1, s2, tool, 0, start, [], [start], []);
    }
  }
}
