# Salesforce analysis agent: a verified model of its core

The system is an API server for a Salesforce analysis agent. A user first
links their Salesforce org through an OAuth flow:

- the connect route sends the browser to Salesforce's authorization page, carrying the user and environment in a base64 JSON `state`;
- the callback checks the code and state, exchanges the code for tokens, stores them, and registers the user with the analysis backend, retrying when that fails.

Requests to the agent routes then run an MCP client. The client starts
the tool server as a subprocess and runs a conversation loop with the model
gateway: every tool the model asks for is executed and its result fed back,
until the model answers without asking for a tool. The client then returns
the first block of one final summary call over the transcript.

The Dafny modules follow the program's structure:

| module | models |
|---|---|
| `Conversation` (conversation.dfy) | the values of the loop (blocks, turns, responses, tool calls); the loop as a recursive reference definition `Round`/`Converse`; an index-by-index description of a run; the loop's properties |
| `Client` (client.dfy) | `MCPClient` of analysis/client.py as a class: the launcher choice, `connect_to_server`, `process_query` as a `while` loop proved equal to `Converse`, `cleanup` |
| `Base64`, `Utf8`, `StateJson` (base64.dfy, utf8.dfy, state_json.dfy) | the three layers of the OAuth state: base64 with the standard alphabet and padding (section 4 of RFC 4648), UTF-8 (RFC 3629), and the JSON text `json.dumps` writes for the two-entry dictionary, together with a reader for JSON objects with string values |
| `OAuth` (oauth.dfy) | `get_salesforce_urls`, the connect redirect, the encoding and decoding of the state, and the callback's checks of code and state |
| `Callback` (callback.dfy) | the rest of `oauth_callback`: token request, token storage, and the `new_user` retry loop |
| `Routes` (routes.dfy) | the three agent routes: one client per request, with cleanup on every path |
| `Strings` (strings.dfy) | `str.endswith`, shared by the launcher choice and the URL helpers |

The outside world is passed in as values:

- The model gateway is a script: a sequence of responses, where the i-th `messages.create` call gets the i-th response. A call past the end of the script is a gateway failure, which the source lets propagate.
- `call_tool` is a function from tool call to `Option` of result text. `None` means the call raised.
- The summary call is a function from the system instruction and the transcript to a response.
- The MCP handshake (starting the process, `initialize`, `list_tools`) is a predicate on the launch parameters.
- The token endpoint is a function from token request to `Option` of status and body. `None` means the POST raised (a connection error or a timeout).
- The `new_user` endpoint is a function from attempt number to outcome.

The exceptions of these calls that the model represents become `Err` values of `Result`, a dedicated status, or the `Crashed` reply. "## Left out" names the outside calls whose exceptions have no counterpart.

## Model

| member | source | states |
|---|---|---|
| `Client.LaunchFor` | analysis/client.py:57-67 | A path is refused, with the not-a-script error, exactly when it ends in neither `.py` nor `.js`. Otherwise the command is `python3` exactly for `.py` and `node` exactly for `.js`, the only argument is the path, and the environment is `USER_ID` set to the client's user. |
| `Client.McpClient.constructor` | analysis/client.py:22-28 | A new client keeps its user and ticket ids and starts with no transport, no session and no cleanup. |
| `Client.McpClient.ConnectToServer` | analysis/client.py:51-77 | A refused path changes nothing and reports the not-a-script error. An accepted path records the chosen launch parameters. The session is ready exactly when the handshake with them succeeds; otherwise a connection failure is reported. |
| `Client.ScanResponse` | analysis/client.py:120-159 | The scan of a response stops at its first `tool_use` block, or at its end when there is none. It returns the texts of the text blocks before that point, in order, and the text blocks themselves for the assistant turn. |
| `Client.McpClient.ProcessQuery` | analysis/client.py:79-172 | Without a ready session the call fails with no model or tool call. Otherwise the transcript, text trace, per-call transcripts and tool calls are exactly those of the reference run `Converse`. The summary call happens once, with the summary instruction and the final transcript, exactly when the loop ended on a tool-free response. The reply is the summary's first text block, or the error that stopped the run. |
| `Client.McpClient.Cleanup` | analysis/client.py:174-176 | Cleanup closes the transport and the session and counts one more cleanup. |
| `Conversation.FirstToolIndex` | analysis/client.py:121-126 | The index where the scan stops: no `tool_use` before it, and a `tool_use` at it unless it is the response's length. |
| `Conversation.Round` | analysis/client.py:119-162 | From any point of the loop, a run only appends: the transcript, trace, model calls and tool calls so far are prefixes of the final ones. Every further model call comes with exactly two new turns. Each remaining response adds at most one tool call and one model call. The gateway fails exactly when every remaining response was used up by a completed tool call. |
| `Conversation.Converse` | analysis/client.py:94-162 | The transcript starts with the query as a user turn, and the first model call sees exactly that turn. The transcript has 2·calls − 1 turns. There are at most as many tool calls as scripted responses. The gateway fails exactly when the loop asks it once more than the script has responses. |
| `Conversation.SummaryInstruction` | analysis/client.py:167-167 | The summary's system instruction carries the query verbatim between the fixed lead "Provide a summary of the analysis conducted for the query: " and tail " based on the below messages", so the query can be read back from it. |
| `Conversation.TextBlocks` | analysis/client.py:122-125 | The blocks kept for the assistant turn are the text blocks and nothing else: one per traced text, in the same order, each holding exactly the text the trace records for it. |
| `Conversation.FirstText` | analysis/client.py:170-170 | The reply is the text of the summary's first block exactly when there is a first block and it is a text block; otherwise the call raises. |
| `Conversation.Reply` | analysis/client.py:164-172 | `process_query` returns text exactly when the loop finished on a tool-free response and the summary's first block is text, and then returns that block's text. A tool call that raised and a failed model call propagate as their own errors. A summary whose first block is missing or not text fails only after a finished loop. |
| `Conversation.RoundDescribed` | analysis/client.py:119-162 | From any point of the loop where the rounds so far match the per-response description, the rest of the run matches it too. |
| `Conversation.ConverseDescribed` | analysis/client.py:94-162 | Every run fits the description. The transcript is the query turn, then one assistant turn and one tool-result turn for each response whose tool call returned. The j-th model call sees the transcript after j rounds. The trace and the tool calls are those of the rounds so far plus the stopping response. The run stops on a tool-free response (finished), on a tool call that raised, or when the gateway has no answer left. |
| `Conversation.RoundAnswers` | analysis/client.py:135-149 | The two turns a tool call appends are an assistant turn (text blocks, then the `tool_use`) and a user turn whose single `tool_result` carries that `tool_use`'s id. |
| `Conversation.TranscriptShape` | analysis/client.py:94-157 | The first model call sees only the query turn. Every later call sees the previous call's transcript plus exactly one assistant/tool-result pair. The transcript has 2·calls − 1 turns. After the query turn, the transcript is made of such pairs, one per completed round. |
| `Conversation.ToolRoundsThenFinish` | analysis/client.py:109-162 | After k tool-using responses whose tools returned, a tool-free response ends the loop normally. That run makes k + 1 model calls and k tool calls, has 1 + 2k turns, and the last response adds no turn. |
| `Conversation.FinishOnlyWhenToolFree` | analysis/client.py:160-162 | The loop ends normally only on a response without a `tool_use`, and only after every earlier response called a tool that returned. |
| `Conversation.AlwaysCallingNeverFinishes` | analysis/client.py:119-159 | If every response asks for a tool and every tool returns, the loop never ends by itself. It makes one tool call per response and runs out of gateway answers, so it never reaches the summary. |
| `Conversation.CallsLength` | analysis/client.py:126-132 | Over a series of tool-using responses, the tool calls made are exactly one per response, namely the call that response's first `tool_use` asks for. |
| `Conversation.FirstToolOfPrefix` | analysis/client.py:121-126 | Cutting a response after its first `tool_use` does not move the first `tool_use`. |
| `Conversation.ScannedDecides` | analysis/client.py:121-159 | Two responses that agree up to and including their first `tool_use` agree on whether they call a tool, on where, and on everything the scan reads. |
| `Conversation.RoundsAgree` | analysis/client.py:119-162 | From any point of the loop, two scripts that agree on every remaining response's scanned part give the same run. |
| `Conversation.OnlyScannedBlocksMatter` | analysis/client.py:121-159 | Blocks after a response's first `tool_use` are never executed and never reach the trace or the transcript. Two scripts that differ only there give identical runs. |
| `Conversation.MarkersInTrace` | analysis/client.py:133-133 | Over completed tool rounds, every tool call leaves its `[Calling tool … with args …]` marker in the trace, the trace has at least one entry per call, and it ends with the marker of the last call. |
| `Base64.ValueOf` | main.py:82-82 | Decoding a character gives a value only for alphabet characters, and that value encodes back to the same character. |
| `Base64.Encode` | main.py:60-60 | The encoding has four characters per started group of three bytes, all of them ASCII. |
| `Base64.Decode` | main.py:82-82 | A string decodes only when its length is a multiple of four. A non-empty one with g groups of four characters gives between 3g − 2 and 3g bytes. |
| `Base64.RoundTrip` | main.py:60-82 | Decoding the encoding of any byte string gives that byte string back. |
| `Utf8.AsciiBytes` | main.py:60-60 | Encoding an ASCII text gives one byte per character, of the same value. |
| `Utf8.Decode` | main.py:82-82 | A decoded text never has more characters than the bytes it came from, and each character takes one to four bytes. |
| `Utf8.AsciiRoundTrip` | main.py:82-82 | Strict UTF-8 decoding of an ASCII text's bytes gives the text back. |
| `StateJson.EscapeAllPrintable` | main.py:60-60 | Everything `json.dumps` writes inside a string literal is printable ASCII. |
| `StateJson.PairPrintable` | main.py:60-60 | The JSON text `DumpsPair` writes for a two-entry dictionary is printable ASCII, so its UTF-8 encoding is one byte per character. |
| `StateJson.EscapeReadsBack` | main.py:60-82 | The JSON escape of any character (short escapes, `\uXXXX`, surrogate pairs above U+FFFF) reads back as that character. |
| `StateJson.QuoteReadsBack` | main.py:60-82 | A string literal written by `json.dumps` reads back as the same string, leaving what follows untouched. |
| `StateJson.MemberReadsBack` | main.py:60-82 | A `"key": "value"` member written by `json.dumps` is read as that entry. What follows it then ends the object or leads to the next member. |
| `StateJson.PairReadsBack` | main.py:56-82 | A two-entry dictionary written by `json.dumps` (`DumpsPair`) reads back as the same two entries. |
| `StateJson.StateReadsBack` | main.py:56-82 | The state dictionary `{"userId", "environment"}` reads back as the same two entries. |
| `StateJson.LaterKeyWins` | main.py:82-82 | When the same key is written twice, the object reader keeps one entry with the later value, as `json.loads` does. |
| `OAuth.SalesforceUrls` | main.py:41-51 | The authorize and token URLs share one host. The host is test.salesforce.com exactly for the environment `sandbox`, and login.salesforce.com for every other string, the empty one included. |
| `OAuth.EncodeState` | main.py:60-60 | The state is ASCII only, and its length is a multiple of four. |
| `OAuth.DecodeState` | main.py:82-82 | The empty string decodes to no object: base64 gives no bytes, and no JSON object is read from the empty text. |
| `OAuth.StateRoundTrip` | main.py:56-87 | The callback's decoding of the state (base64, then UTF-8, then JSON) gives back exactly the user and environment the connect route put into it. |
| `OAuth.ConnectRedirect` | main.py:53-71 | The redirect goes to the chosen environment's authorize URL. It asks for a `code` with the application's client id, redirect URI and the scope `full refresh_token`. Its state decodes to the requesting user and environment. |
| `OAuth.CheckCallback` | main.py:74-90 | A missing or empty code or state is rejected as missing parameters before anything else. A state that does not decode, or lacks a non-empty `userId` or `environment`, is rejected as invalid. Otherwise the callback goes on with the code and the decoded user and environment. |
| `OAuth.DecodedStateChecked` | main.py:81-90 | Once code and state are present, the decision depends only on the decoded object: accepted exactly when both entries are present and non-empty. |
| `OAuth.ConnectedStateAccepted` | main.py:56-90 | A callback with a code and a state that decodes to a user and an environment (as every connect redirect's state does, by `ConnectRedirect`) is accepted exactly when both are non-empty, and then carries that code, user and environment. |
| `Callback.TokenRequestFor` | main.py:92-102 | The token request is an `authorization_code` grant for the callback's code. It carries the application's client id, secret and redirect URI. It goes to the token path on the same host as the authorization page of the state's environment. |
| `Callback.TokenExchangedAtIssuingHost` | main.py:53-102 | A callback with a code and a state that decodes to a non-empty user and environment (as the connect route's state does) is accepted. Its code is then exchanged at the token endpoint on the same host as the authorization page the connect route redirected to. |
| `Callback.NewUserWithRetry` | main.py:125-154 | Between one and three attempts are made. Every attempt before the last had a retryable outcome (status ≥ 500 or a read timeout). Fewer than three attempts means the last outcome was not retryable. The pauses number exactly one fewer than the attempts, so there are at most two. |
| `Callback.OAuthCallback` | main.py:73-162 | A rejected code or state gives 400 with its reason, before any token request. Otherwise exactly one token request is made. A non-200 answer gives 400 with nothing stored. A token POST that raises, or a 200 answer whose body is not a JSON object, fails with a server error before storing and without a `new_user` call. On every path without a `new_user` call there is no pause. A 200 answer with an object stores the user's access token, refresh token and instance URL. The callback then calls `new_user` for that user one to three times: every call but the last had a retryable outcome, fewer than three calls means the last was not retryable, and there is one pause fewer than calls. It then redirects to the front end's `/excel-tasks` page, whatever those calls returned. |
| `Routes.RouteLaunch` | main.py:166-168 | The routes connect without a path, so they always launch the default server script `analysisagent/server.py` with `python3` and the user's id. |
| `Routes.AgentReply` | main.py:164-171 | A route answers with text exactly when the server connected, the conversation ended on a tool-free response and the summary's first block is text. The answer is that block's text. A failed handshake gives the connection error; every other failure is the query's. |
| `Routes.AgentRoute` | main.py:164-189 | A route's reply is the connection failure, the query's failure or the summary text (`AgentReply`). The client is cleaned up exactly once on every path and its session is closed afterwards. |

## Left out

- `Base64.Decode` is strict: it rejects non-alphabet characters and misplaced padding. Python's `b64decode` without `validate=True` discards non-alphabet characters instead, so some malformed states that the source would decode are rejected here. Every state the connect route makes decodes the same way in both.
- `StateJson.ParseObject` reads only JSON objects whose values are all strings. A state whose JSON is not an object is rejected by both: the source's `state_data.get` raises (main.py:83) and its handler answers 400 (main.py:89-90). But the source accepts an object whose `userId` and `environment` are truthy non-strings (numbers, `true`, non-empty lists or objects). It also accepts an object with string `userId` and `environment` plus any member that is not a string (`"n": null`, `"f": false`). The model rejects both kinds as an invalid state. Lone surrogate escapes cannot be represented as Dafny characters and are rejected too.
- `Callback.TokenReply` models the token response body as a string-valued object or nothing. A body that is JSON but not an object, or whose values are not strings, is not distinguished.
- The query-string encoding of the connect redirect (`httpx.QueryParams`) is not modelled. The redirect carries its parameters as named fields.
- Tool arguments are rendered in the trace marker as Python's dict repr, with string values only and without Python's escaping of quotes inside them.
- Logging, the per-user log files (analysis/client.py:16-19 and 30-49) and `print` output have no behavioural contract and are left out.
- `process_query` also fetches the `analysis_system_prompt` prompt and lists the server's tools. The prompt text it extracts is never used, and the tool list is passed to the gateway unchanged, so the gateway script stands for both.
- The model name, token limits and the tool catalogue sent to the gateway are not modelled.
- `asyncio` scheduling and the one-second pauses are modelled as a count of pauses. Concurrency between requests is not modelled.
- Failures of the token store (`db.update_user_salesforce_tokens`) are not modelled: storing always succeeds.
- The execution agent's client (`executionagent.client`) is not part of this model. `Routes.AgentRoute` uses the analysis client for all three routes, which share the same shape.
- The source's 400 for a state without a truthy user or environment is raised inside the `try` and re-raised by its `except` with a longer detail message. The model keeps the status and the reason, not the message text.
- A loop model call that fails is modelled only as the gateway running out of answers. The source has no retry or timeout around these calls.
- A summary call that raises (analysis/client.py:164-169) is not modelled, because the summarizer is a total function. Only an empty or non-text summary is modelled, as `SummaryNotText`.
- `get_prompt` and `list_tools` in `process_query` (analysis/client.py:81 and 101) can raise before the first model call. Both are left out with the values they return, so `Client.McpClient.ProcessQuery` has no failure for them.
- `cleanup`'s `aclose` (analysis/client.py:176) is modelled as always succeeding. If it raised in a route's `finally` (main.py:170-171), its exception would replace the route's answer; `Routes.AgentRoute` does not model that.
- `process_query` calls the tool before it commits the assistant turn (analysis/client.py:132-139), and a tool exception propagates. The model does the same.
