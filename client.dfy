/**
 * The analysis agent's MCP client (analysis/client.py): choosing how to
 * launch the tool server, the conversation loop of process_query run
 * against a scripted model gateway, and cleanup.
 */
module Client {
  import opened Wrappers
  import opened Conversation
  import opened Strings

  /** How the MCP server process is started: command, arguments and environment. */
  datatype Launch = Launch(command: string, args: seq<string>, env: map<string, string>)

  /** ValueError for a script that is neither .py nor .js; a failed launch or handshake. */
  datatype ConnectError = NotAScript | ConnectionFailed

  /** The script connect_to_server launches when it is given no path. */
  const DefaultServerScript: string := "analysisagent/server.py"

  /**
   * The launch parameters for a server script: python3 for a .py file, node
   * for a .js file, the script as the only argument and the requester's id
   * as USER_ID; any other path is refused.
   */
  function LaunchFor(path: string, userId: string): (r: Result<Launch, ConnectError>)
    ensures r.Err? <==> !EndsWith(path, ".py") && !EndsWith(path, ".js")
    ensures r.Err? ==> r.error == NotAScript
    ensures r.Ok? ==> r.value.args == [path] && r.value.env == map["USER_ID" := userId]
    ensures r.Ok? ==> (r.value.command == "python3" <==> EndsWith(path, ".py"))
    ensures r.Ok? ==> (r.value.command == "node" <==> EndsWith(path, ".js"))
  {
    var isPython := EndsWith(path, ".py");
    var isJs := EndsWith(path, ".js");
    if !(isPython || isJs) then Err(NotAScript)
    else Ok(Launch(if isPython then "python3" else "node", [path], map["USER_ID" := userId]))
  }

  /**
   * The scan of one response, block by block, up to its first tool_use: the
   * text it traces, the text blocks it keeps for the assistant turn, and
   * where it stopped (the response's length when there is no tool_use).
   */
  method ScanResponse(response: Response) returns (said: seq<string>, pending: seq<Block>, k: nat)
    ensures k == FirstToolIndex(response)
    ensures said == Texts(response[..k])
    ensures pending == TextBlocks(response[..k])
  {
    said, pending, k := [], [], 0;
    while k < |response|
      invariant k <= |response|
      invariant forall j :: 0 <= j < k ==> !response[j].ToolUse?
      invariant said == Texts(response[..k])
      invariant pending == TextBlocks(response[..k])
    {
      var content := response[k];
      if content.ToolUse? {
        break;
      }
      assert response[..k + 1][..k] == response[..k];
      if content.Text? {
        said := said + [content.text];
        pending := pending + [content];
      }
      k := k + 1;
    }
  }

  class McpClient {
    const userId: string
    const ticketId: string
    /** The launch parameters of the server process, once connect_to_server has started it. */
    var transport: Option<Launch>
    /** The MCP session is initialised and has listed its tools. */
    var ready: bool
    /** How many times cleanup has closed the exit stack. */
    var cleanups: nat

    constructor (userId: string, ticketId: string)
      ensures this.userId == userId && this.ticketId == ticketId
      ensures transport == None && !ready && cleanups == 0
    {
      this.userId := userId;
      this.ticketId := ticketId;
      transport := None;
      ready := false;
      cleanups := 0;
    }

    /**
     * connect_to_server: refuse a path that is not a .py or .js script
     * before starting anything; otherwise start the server with the chosen
     * launcher and run the session handshake (handshake says whether
     * starting the process, initialize and list_tools all succeed).
     */
    method ConnectToServer(path: string, handshake: Launch -> bool) returns (r: Result<(), ConnectError>)
      modifies this
      ensures cleanups == old(cleanups)
      ensures LaunchFor(path, userId).Err? ==>
        r == Err(NotAScript) && transport == old(transport) && ready == old(ready)
      ensures LaunchFor(path, userId).Ok? ==>
        && transport == Some(LaunchFor(path, userId).value)
        && ready == handshake(LaunchFor(path, userId).value)
        && r == (if ready then Ok(()) else Err(ConnectionFailed))
    {
      var launch := LaunchFor(path, userId);
      if launch.Err? {
        return Err(NotAScript);
      }
      transport := Some(launch.value);
      ready := handshake(launch.value);
      r := if ready then Ok(()) else Err(ConnectionFailed);
    }

    /**
     * process_query: start the transcript with the query, then answer the
     * model's tool requests one per response until a response asks for no
     * tool, and return the first text block of one final summary call over
     * the transcript. Besides the reply, the method gives the transcript and
     * the trace it built, the transcript sent with each model call, the tool
     * calls it made and the summary calls it made.
     */
    method ProcessQuery(query: string, script: seq<Response>, tool: Tool, summarize: Summarizer)
      returns (reply: Result<string, Failure>, messages: seq<Turn>, finalText: seq<string>,
               requests: seq<seq<Turn>>, toolCalls: seq<ToolCall>, summaries: seq<SummaryRequest>)
      ensures !ready ==> reply == Err(NotConnected) && requests == [] && toolCalls == [] && summaries == []
      ensures ready ==>
        var run := Converse(query, script, tool);
        && messages == run.messages
        && finalText == run.finalText
        && requests == run.requests
        && toolCalls == run.toolCalls
        && summaries == (if run.status == Finished then [SummaryRequest(SummaryInstruction(query), run.messages)] else [])
        && reply == Reply(query, run, summarize)
    {
      if !ready {
        reply, messages, finalText, requests, toolCalls, summaries := Err(NotConnected), [], [], [], [], [];
        return;
      }
      messages := [Turn(User, Plain(query))];
      finalText, requests, toolCalls, summaries := [], [messages], [], [];
      if |script| == 0 {
        reply := Err(GatewayError);
        return;
      }
      var n := 0;
      var response := script[0];
      while true
        invariant n < |script| && response == script[n]
        invariant Round(script, tool, n, messages, finalText, requests, toolCalls) == Converse(query, script, tool)
        invariant summaries == []
        decreases |script| - n
      {
        var said, pending, k := ScanResponse(response);
        finalText := finalText + said;
        if k == |response| {
          assert response[..k] == response;
          break;
        }
        var call := ToolCall(response[k].name, response[k].input);
        toolCalls := toolCalls + [call];
        var result := tool(call);
        if result.None? {
          reply := Err(ToolCallFailed);
          return;
        }
        finalText := finalText + [Marker(call)];
        messages := messages + [Turn(Assistant, Blocks(pending + [response[k]])),
                                Turn(User, Blocks([ToolResult(response[k].id, result.value)]))];
        requests := requests + [messages];
        if n + 1 == |script| {
          reply := Err(GatewayError);
          return;
        }
        n := n + 1;
        response := script[n];
      }
      summaries := [SummaryRequest(SummaryInstruction(query), messages)];
      reply := FirstText(summarize(SummaryInstruction(query), messages));
    }

    /** cleanup: close the exit stack, which stops the server process and ends the session. */
    method Cleanup()
      modifies this
      ensures cleanups == old(cleanups) + 1
      ensures transport == None && !ready
    {
      cleanups := cleanups + 1;
      transport := None;
      ready := false;
    }
  }
}
