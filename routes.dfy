/**
 * The agent routes of the API server (main.py): each makes a fresh MCP
 * client for the requesting user and ticket, connects it to the default
 * server script, runs the request's description as a query, and closes the
 * client whether that returned or raised.
 */
module Routes {
  import opened Wrappers
  import opened Conversation
  import opened Client

  /** Why a route fails: connect_to_server raised, or process_query did. */
  datatype RouteError = Connect(connectError: ConnectError) | Query(failure: Failure)

  /** The launch the routes' connect_to_server uses: python3 on the default server script. */
  function RouteLaunch(userId: string): (l: Launch)
    ensures l.command == "python3" && l.args == [DefaultServerScript] && l.env == map["USER_ID" := userId]
  {
    LaunchFor(DefaultServerScript, userId).value
  }

  /**
   * What a route answers. It answers with text only after a conversation
   * that reached the summary, and the text is the first block of the summary
   * over its transcript; a server that does not connect fails the route
   * before any model call, and every other failure is the query's.
   */
  function AgentReply(userId: string, description: string, handshake: Launch -> bool,
                      script: seq<Response>, tool: Tool, summarize: Summarizer): (out: Result<string, RouteError>)
    ensures var run := Converse(description, script, tool);
      var s := summarize(SummaryInstruction(description), run.messages);
      && (out.Ok? <==> handshake(RouteLaunch(userId)) && run.status == Finished && |s| > 0 && s[0].Text?)
      && (out.Ok? ==> Text(out.value) == s[0])
    ensures out == Err(Connect(ConnectionFailed)) <==> !handshake(RouteLaunch(userId))
    ensures out.Err? && handshake(RouteLaunch(userId)) ==> out.error.Query?
  {
    if !handshake(RouteLaunch(userId)) then Err(Connect(ConnectionFailed))
    else
      match Reply(description, Converse(description, script, tool), summarize)
      case Ok(text) => Ok(text)
      case Err(f) => Err(Query(f))
  }

  /**
   * analysis_agent, chat_agent and execution_agent: one client per request,
   * connect, process the description, and clean up exactly once on every
   * path. Besides the reply, the method gives how many times the client was
   * cleaned up and whether its session is still open afterwards.
   */
  method AgentRoute(userId: string, ticketId: string, description: string, handshake: Launch -> bool,
                    script: seq<Response>, tool: Tool, summarize: Summarizer)
    returns (reply: Result<string, RouteError>, cleanups: nat, open: bool)
    ensures reply == AgentReply(userId, description, handshake, script, tool, summarize)
    ensures cleanups == 1 && !open
  {
    var client := new McpClient(userId, ticketId);
    var connected := client.ConnectToServer(DefaultServerScript, handshake);
    if connected.Err? {
      client.Cleanup();
      reply := Err(Connect(connected.error));
    } else {
      var answer, _, _, _, _, _ := client.ProcessQuery(description, script, tool, summarize);
      client.Cleanup();
      reply := match answer
        case Ok(text) => Ok(text)
        case Err(f) => Err(Query(f));
    }
    cleanups, open := client.cleanups, client.ready;
  }
}
