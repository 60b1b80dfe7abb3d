# MC-QueryServer, modelled in Dafny

MC-QueryServer is a Bukkit plugin that opens a line-based TCP query service on a
Minecraft server. A client sends one command per line: a query name followed by
whitespace-separated arguments. The server answers each line with one response
frame, `<code> <reason>\n\r`, then `Length: <n>\n\r`, then `\n\r`, then the
body and a final `\n\r`. Here `n` is the body's length as Java counts it: in
UTF-16 code units, so a character above U+FFFF counts twice. Other plugins register query types
(handlers) under case-insensitive names. The plugin keeps track of which host
plugin registered which name. It replays the registrations into a fresh server
when it starts, and drops a plugin's names when that plugin is disabled.

The model covers the four core classes.

- `request.dfy` (module `Request`) covers `QueryRequest`, which is pure. It
  models the parse of a command line (trim, split at whitespace, lower-cased
  name) and its printed form (`getUniqueCommandLine`). Proved: every parsed
  request is well formed, blank lines give the empty name, and printing a
  well-formed request then parsing it gives it back.
- `response.dfy` (module `Response`) covers `QueryResponse` as a class. Its
  fields are the status, the body buffer and the `finished` flag, and the wire
  frame is written by `Send`. Proved: a decoder that takes `Length` UTF-16 code
  units of body reads a frame back to the exact status and body, whatever
  follows it on the stream.
- `server.dfy` (module `Server`) covers `QueryServer`. It models:
  - the dispatch rule for one request, as a function;
  - the session as a function of the lines read (`Replies`, `Transcript`);
  - the imperative session loop `ConnectionHandler.Run`, proved against those
    functions;
  - the idle-connection reaper `ConnectionCleaner`, with its token queue and
    stop/drain;
  - the registry and start/stop lifecycle of `QueryServer`.
- `plugin.dfy` (module `Plugin`) covers `QueryServerPlugin` as a class. Its
  fields are `queryNames`, `pluginQueryMap`, the server and the executor, and
  its invariant ties them together: names are unique across plugins, and the
  server's registry mirrors every registration while a server exists.
- `net.dfy` (module `Net`) abstracts a client socket. It holds the lines still
  to be read, the characters written (which only grow) and a closed flag.
- `text.dfy` holds whitespace and ASCII lower-casing. `wrappers.dfy` holds
  `Option` and the outcome of a call that may throw.

Where the code and its documentation differ, the model follows the code.

- A `login` line is answered with a `200 OK` frame with an empty body, because
  the code falls through to `send()`. It is not left unanswered.
- The `exit` branch calls `response.addToMessage("Close Connection")`, a method
  `QueryResponse` does not define. It is modelled as `print`, so the body is
  `Close Connection`.

## Model

| member | source | states |
|---|---|---|
| Text.LowerChar | src/de/xgme/mc/query/server/QueryRequest.java:9 | A capital ASCII letter becomes the matching lower-case letter (`A` to `a`, ..., `Z` to `z`); every other character is unchanged |
| Text.ToLower | src/de/xgme/mc/query/server/QueryRequest.java:9 | Lower-casing keeps the length of the string |
| Text.ToLowerAt | src/de/xgme/mc/query/server/QueryRequest.java:9 | Character i of the lower-cased string is character i of the original, lower-cased |
| Text.ToLowerSpec | src/de/xgme/mc/query/server/QueryRequest.java:9 | The lower-cased string has no capital letter, and whitespace stays exactly where it was |
| Text.ToLowerOfLower | src/de/xgme/mc/query/server/QueryServer.java:62 | A string without capitals is its own lower-case form |
| Text.ToLowerIdempotent | src/de/xgme/mc/query/server/QueryServer.java:98-102 | Lower-casing twice equals lower-casing once, so a key stored lower-cased is found again by the lower-cased lookup |
| Request.Tokens | src/de/xgme/mc/query/server/QueryRequest.java:8 | There are never more tokens than characters, and no token is empty |
| Request.Split | src/de/xgme/mc/query/server/QueryRequest.java:8 | The split always has a first part, so `split[0]` exists |
| Request.WordLengthSpec | src/de/xgme/mc/query/server/QueryRequest.java:8 | The first word stops exactly at the first whitespace character |
| Request.TokensAreWords | src/de/xgme/mc/query/server/QueryRequest.java:8 | Every token is non-empty and free of whitespace |
| Request.TokensBlank | src/de/xgme/mc/query/server/QueryRequest.java:8 | A line has no tokens if and only if it is all whitespace |
| Request.TokensAppend | src/de/xgme/mc/query/server/QueryRequest.java:8 | Tokenising two strings joined at whitespace gives the tokens of each, in order |
| Request.SplitSpec | src/de/xgme/mc/query/server/QueryRequest.java:8 | The split is `[""]` if and only if the line is blank; otherwise every part is a word |
| Request.TokensKeepText | src/de/xgme/mc/query/server/QueryRequest.java:8 | No character is lost or reordered: the tokens, written one after the other, are the line with its whitespace removed |
| Request.Parse | src/de/xgme/mc/query/server/QueryRequest.java:7-14 | The name is empty if and only if the line has no tokens, and there is one argument per part of the split after the first |
| Request.ParseKeepsText | src/de/xgme/mc/query/server/QueryRequest.java:7-14 | The line's non-whitespace text starts with the query name, up to letter case, and goes on with the arguments in order |
| Request.ParseWellFormed | src/de/xgme/mc/query/server/QueryRequest.java:7-14 | Every parsed request has a lower-case word (or empty) name and word arguments |
| Request.BlankLine | src/de/xgme/mc/query/server/QueryRequest.java:8-10 | The name is empty if and only if the line is blank, and then there are no arguments |
| Request.Join | src/de/xgme/mc/query/server/QueryRequest.java:33-36 | The joined line starts with the name and is at least one character longer per argument; `TokensJoin` pins its content |
| Request.CommandLine | src/de/xgme/mc/query/server/QueryRequest.java:26-38 | The printed form starts with the query name, and is just the name exactly when there are no arguments |
| Request.TokensJoin | src/de/xgme/mc/query/server/QueryRequest.java:32-38 | Splitting the space-joined name and arguments gives back exactly the name and the arguments |
| Request.RoundTrip | src/de/xgme/mc/query/server/QueryRequest.java:7-38 | Parsing the printed form of a well-formed request gives back the same request |
| Request.CanonicalLine | src/de/xgme/mc/query/server/QueryRequest.java:26-38 | The printed form of any parsed line parses to the same request |
| Response.DecimalDigits | src/de/xgme/mc/query/server/QueryResponse.java:41 | A printed length is all digits, with no leading zero |
| Response.DecimalValue | src/de/xgme/mc/query/server/QueryResponse.java:41 | Reading a printed length gives the number back |
| Response.Status.Code | src/de/xgme/mc/query/server/QueryResponse.java:10-13 | Every status code has three digits |
| Response.Status.Message | src/de/xgme/mc/query/server/QueryResponse.java:10-13 | Every reason text is non-empty and holds no line terminator |
| Response.Utf16Length | src/de/xgme/mc/query/server/QueryResponse.java:41 | `message.length()`: at least one and at most two code units per character |
| Response.Utf16LengthBasic | src/de/xgme/mc/query/server/QueryResponse.java:41 | The length in code units equals the number of characters if and only if no character lies above U+FFFF |
| Response.UnitPrefixOf | src/de/xgme/mc/query/server/QueryResponse.java:41-43 | Taking as many code units as the length line gives takes exactly the body, whatever follows it |
| Response.CodeDigits | src/de/xgme/mc/query/server/QueryResponse.java:10-13 | The four status codes print as 200, 403, 404 and 500 |
| Response.StatusLines | src/de/xgme/mc/query/server/QueryResponse.java:40 | The status lines are `200 OK`, `403 Forbidden`, `404 Not Found` and `500 Internal Server Error`, each ended by `\n\r` |
| Response.StatusLine | src/de/xgme/mc/query/server/QueryResponse.java:40 | The status line ends with `\n\r` and holds no other line terminator |
| Response.Frame | src/de/xgme/mc/query/server/QueryResponse.java:39-44 | The frame starts with the status line and ends with the body followed by `\n\r` |
| Response.ReadStatusLine | src/de/xgme/mc/query/server/QueryResponse.java:40 | Reading a status line gives back the status it was written for, and the rest of the stream |
| Response.ReadNumberDecimal | src/de/xgme/mc/query/server/QueryResponse.java:41 | A length followed by a non-digit reads back as itself |
| Response.ReadFrameRoundTrip | src/de/xgme/mc/query/server/QueryResponse.java:39-44 | The frame is self-delimiting: reading the length in UTF-16 code units gives back the status, the exact body (even one that holds line terminators or characters above U+FFFF) and the rest of the stream |
| Response.QueryResponse.constructor | src/de/xgme/mc/query/server/QueryResponse.java:30-33 | A new response is unfinished, with status OK and an empty body |
| Response.QueryResponse.Print | src/de/xgme/mc/query/server/QueryResponse.java:54-56 | The body grows by exactly the printed string; the status stays |
| Response.QueryResponse.EndLine | src/de/xgme/mc/query/server/QueryResponse.java:72-74 | The body grows by `\n\r` |
| Response.QueryResponse.PrintLine | src/de/xgme/mc/query/server/QueryResponse.java:62-65 | The body grows by the string and then `\n\r` |
| Response.QueryResponse.GetContent | src/de/xgme/mc/query/server/QueryResponse.java:76-78 | Returns the body so far |
| Response.QueryResponse.GetStatus | src/de/xgme/mc/query/server/QueryResponse.java:80-82 | Returns the status, which is null after a completed send |
| Response.QueryResponse.SetStatus | src/de/xgme/mc/query/server/QueryResponse.java:84-87 | Fails with an illegal-state error and changes nothing once finished; otherwise sets the status and keeps the body |
| Response.QueryResponse.Reset | src/de/xgme/mc/query/server/QueryResponse.java:89-93 | Fails once finished; otherwise restores status OK and an empty body |
| Response.QueryResponse.Send | src/de/xgme/mc/query/server/QueryResponse.java:35-50 | A second send fails and writes nothing. A first send marks the response finished and writes exactly the frame of its status and body, then clears both; on a closed socket it fails, writes nothing and keeps them |
| Net.Socket.ReadLine | src/de/xgme/mc/query/server/QueryServer.java:194 | Returns the next pending line and consumes it, end of stream when none is left, and a failure on a closed socket |
| Net.Socket.Write | src/de/xgme/mc/query/server/QueryResponse.java:40-46 | Appends exactly the string to what was written, or fails and writes nothing on a closed socket |
| Net.Socket.Close | src/de/xgme/mc/query/server/QueryServer.java:251 | The socket is closed; its pending input and written output are kept |
| Server.HandlerReply | src/de/xgme/mc/query/server/QueryServer.java:217-230 | A handler never ends the session, and a throwing handler's reply is 500 with an empty body |
| Server.Dispatch | src/de/xgme/mc/query/server/QueryServer.java:207-231 | A reply that ends the session is always `200 OK` with body `Close Connection` |
| Server.ClosesOnExit | src/de/xgme/mc/query/server/QueryServer.java:207-231 | A reply ends the session if and only if the query name is `exit` |
| Server.ExitLine | src/de/xgme/mc/query/server/QueryServer.java:210-215 | `exit`, in any letter case and with any arguments, is answered `200 OK` with body `Close Connection` and ends the session |
| Server.LoginLine | src/de/xgme/mc/query/server/QueryServer.java:208-209 | `login`, in any letter case, is answered `200 OK` with an empty body, and the session goes on |
| Server.BlankLineNotFound | src/de/xgme/mc/query/server/QueryServer.java:217-222 | A blank line is answered 404 with an empty body unless the empty name is registered |
| Server.RegisteredLine | src/de/xgme/mc/query/server/QueryServer.java:217-219 | A name registered through the registry is found from a line that uses it in any letter case, and answered by its handler |
| Server.ThrowingHandler | src/de/xgme/mc/query/server/QueryServer.java:224-230 | A handler that throws leads to 500 with an empty body, whatever it had printed |
| Server.Replies | src/de/xgme/mc/query/server/QueryServer.java:192-233 | There is at most one reply per line; fewer replies than lines means the last reply ended the session |
| Server.ReplyToLine | src/de/xgme/mc/query/server/QueryServer.java:198-231 | Reply i is the dispatch of line i |
| Server.OnlyLastCloses | src/de/xgme/mc/query/server/QueryServer.java:210-215 | No reply before the last one ends the session |
| Server.ExitsAt | src/de/xgme/mc/query/server/QueryServer.java:192-215 | A session whose reply i ends it has exactly i + 1 replies and read i + 1 times |
| Server.ReadAttempts | src/de/xgme/mc/query/server/QueryServer.java:192-196 | A session always reads at least once |
| Server.Transcript | src/de/xgme/mc/query/server/QueryServer.java:231 | A session's output is empty if and only if it sent no reply |
| Server.TranscriptReadsBack | src/de/xgme/mc/query/server/QueryServer.java:231 | A client reading the session's output frame by frame gets back every reply's status and body, in order |
| Server.TranscriptCons | src/de/xgme/mc/query/server/QueryServer.java:231 | The output of a session begins with the frame of its first reply |
| Server.Registrations | src/de/xgme/mc/query/server/QueryServer.java:193 | A session queues one idle token per read attempt |
| Server.RegistrationAt | src/de/xgme/mc/query/server/QueryServer.java:307-311 | Token k belongs to the session, carries the counter after k reads, and expires 30 minutes after read k |
| Server.OnlyNewestTokenLive | src/de/xgme/mc/query/server/QueryServer.java:281-288 | While a session waits, only its newest token still matches its counter, so only that one can close it |
| Server.Invoke | src/de/xgme/mc/query/server/QueryServer.java:60-94 | A handler appends its text to the body and sets its status if it chose one, or reports that it threw; a primary-thread handler has the same effect |
| Server.ServeLine | src/de/xgme/mc/query/server/QueryServer.java:198-232 | Serving a line writes exactly the frame of its dispatch reply and says whether the session ends; on a closed socket nothing is written and the send error is reported, except after exit where it is swallowed |
| Server.ConnectionHandler.constructor | src/de/xgme/mc/query/server/QueryServer.java:180-182 | A new session holds its socket and a zero counter |
| Server.ConnectionHandler.Close | src/de/xgme/mc/query/server/QueryServer.java:255-263 | The reaper's close closes the socket and keeps its input and output |
| Server.ConnectionHandler.Turn | src/de/xgme/mc/query/server/QueryServer.java:192-233 | One turn queues this session's idle token and then serves the next line; it keeps the invariant that the first k lines are consumed and answered in order |
| Server.ConnectionHandler.Step | src/de/xgme/mc/query/server/QueryServer.java:194-232 | Reading and serving the k-th line extends the transcript by its reply, or ends the session with the complete transcript |
| Server.ConnectionHandler.ReadAndServe | src/de/xgme/mc/query/server/QueryServer.java:194-232 | The counter grows on each successful read, including the one that sees end of input. A line is answered with its dispatch frame; end of input or a closed socket stops the session |
| Server.ConnectionHandler.Run | src/de/xgme/mc/query/server/QueryServer.java:185-253 | The session writes exactly the frames of `Replies` of its input. The counter grows by the number of reads, the reaper queue grows by one token per read, the lines after the last one read stay pending, and the socket ends closed |
| Server.ConnectionHandler.Turns | src/de/xgme/mc/query/server/QueryServer.java:192-233 | The loop ends in the state `Ended`: every reply written, one token per read queued |
| Server.ConnectionCleaner.constructor | src/de/xgme/mc/query/server/QueryServer.java:267-268 | A new reaper has an empty queue and is not stopping |
| Server.ConnectionCleaner.Register | src/de/xgme/mc/query/server/QueryServer.java:295-311 | Appends a token with the session's current counter and a deadline 30 minutes after now |
| Server.ConnectionCleaner.Poll | src/de/xgme/mc/query/server/QueryServer.java:273-281 | Takes the oldest token. It drops the token if the session made progress, otherwise sleeps on it; it sleeps idle on an empty queue and stops when asked |
| Server.ConnectionCleaner.Wake | src/de/xgme/mc/query/server/QueryServer.java:282-288 | After the deadline, the session is closed if and only if its counter is still the token's |
| Server.ConnectionCleaner.StopAll | src/de/xgme/mc/query/server/QueryServer.java:284-301 | Stopping interrupts the sleep, with one last check and close. It then empties the queue and leaves every queued session's socket closed; input and output are kept and no socket reopens. No other socket changes: a session the reaper slept on that made progress, and has no queued token, stays open |
| Server.ConnectionCleaner.DrainQueue | src/de/xgme/mc/query/server/QueryServer.java:290-293 | The queue ends empty and every queued session's socket closed |
| Server.QueryServer.constructor | src/de/xgme/mc/query/server/QueryServer.java:44-51 | A new server has an empty registry, no executor and is not running |
| Server.QueryServer.SetExecutor | src/de/xgme/mc/query/server/QueryServer.java:53-58 | A null executor is rejected with an illegal-argument error and changes nothing; otherwise it is stored |
| Server.QueryServer.AddQueryType | src/de/xgme/mc/query/server/QueryServer.java:60-95 | The registry maps the lower-cased name to the handler and its thread affinity, replacing any entry; all keys stay lower-case |
| Server.QueryServer.RemoveQueryType | src/de/xgme/mc/query/server/QueryServer.java:97-99 | Exactly the lower-cased name leaves the registry |
| Server.QueryServer.QueryTypeExist | src/de/xgme/mc/query/server/QueryServer.java:101-103 | True if and only if the lower-cased name is registered |
| Server.QueryServer.IsRunning | src/de/xgme/mc/query/server/QueryServer.java:105-107 | True if and only if a listener is running |
| Server.QueryServer.Start | src/de/xgme/mc/query/server/QueryServer.java:109-117 | Does nothing when running. Fails with an illegal-state error without an executor. Otherwise runs with a fresh, empty reaper, keeping the registry |
| Server.QueryServer.Stop | src/de/xgme/mc/query/server/QueryServer.java:119-135 | Fails when not running. Otherwise stops the listener and the reaper: the session the reaper slept on is closed if its counter is still the token's, every session with a queued token is closed, every socket the reaper held keeps its input and output, no closed socket reopens, and no other socket is closed. A failed stop changes nothing: the server, the reaper and its sockets are untouched |
| Server.QueryServer.ListenerFailed | src/de/xgme/mc/query/server/QueryServer.java:161-172 | A listener that could not bind clears itself: the server is no longer running and nothing else changes |
| Plugin.UniqueDistinct | src/de/xgme/mc/query/QueryServerPlugin.java:66-80 | When names are unique across plugins, all registrations together have distinct names |
| Plugin.NamesAdd | src/de/xgme/mc/query/QueryServerPlugin.java:79-80 | One more registration adds exactly its lower-cased name |
| Plugin.NamesMore | src/de/xgme/mc/query/QueryServerPlugin.java:52-53 | One more registration handled by a loop adds exactly its name to the names handled |
| Plugin.NamesMinus | src/de/xgme/mc/query/QueryServerPlugin.java:50-56 | With distinct names, removing some registrations removes exactly their names |
| Plugin.MirrorAdd | src/de/xgme/mc/query/QueryServerPlugin.java:82-84 | Adding a registration with a new name to a mirroring registry keeps it a mirror |
| Plugin.MirrorMinus | src/de/xgme/mc/query/QueryServerPlugin.java:50-56 | Removing some registrations' names from a mirroring registry mirrors what is left |
| Plugin.AllAdd | src/de/xgme/mc/query/QueryServerPlugin.java:73-79 | Adding to one plugin's set adds exactly that registration to all registrations |
| Plugin.UniqueAdd | src/de/xgme/mc/query/QueryServerPlugin.java:66-80 | A registration with an unused name keeps names unique |
| Plugin.RemovePlugin | src/de/xgme/mc/query/QueryServerPlugin.java:50 | Removing a plugin's entry removes exactly its registrations, and names stay unique |
| Plugin.ClearPlugin | src/de/xgme/mc/query/QueryServerPlugin.java:128 | Emptying a plugin's set removes exactly its registrations, and names stay unique |
| Plugin.ReplayStep | src/de/xgme/mc/query/QueryServerPlugin.java:119-130 | Handling one more plugin forwards its registrations if it is enabled; otherwise it empties its set |
| Plugin.ReplayDone | src/de/xgme/mc/query/QueryServerPlugin.java:119-130 | Once every plugin is handled, the map is the started map and exactly its registrations were forwarded |
| Plugin.ReplayedUnique | src/de/xgme/mc/query/QueryServerPlugin.java:119-130 | The replay only drops registrations, so names stay unique |
| Plugin.ForwardedApart | src/de/xgme/mc/query/QueryServerPlugin.java:119-123 | A plugin not yet handled has none of its registrations forwarded |
| Plugin.ForwardedWithin | src/de/xgme/mc/query/QueryServerPlugin.java:119-123 | Only registrations in the map are forwarded |
| Plugin.ForwardAll | src/de/xgme/mc/query/QueryServerPlugin.java:121-123 | After forwarding a plugin's registrations, the registry mirrors the earlier ones plus these; executor and lifecycle are unchanged |
| Plugin.ForwardOne | src/de/xgme/mc/query/QueryServerPlugin.java:122 | Forwarding one registration keeps the registry a mirror of what was forwarded |
| Plugin.ForwardStep | src/de/xgme/mc/query/QueryServerPlugin.java:122 | A registration not yet forwarded has a name new to the registry, and adding it keeps the mirror |
| Plugin.QueryServerPlugin.constructor | src/de/xgme/mc/query/QueryServerPlugin.java:26-29 | A new plugin has no server, no executor, no names and no registrations |
| Plugin.QueryServerPlugin.RegisterQueryType | src/de/xgme/mc/query/QueryServerPlugin.java:59-85 | A name in use in any letter case changes nothing. Otherwise the registration joins the plugin's set, its lower-cased name joins the names, and a running server gets the handler under that name; names stay unique and the registry a mirror |
| Plugin.QueryServerPlugin.OnPluginDisable | src/de/xgme/mc/query/QueryServerPlugin.java:48-57 | The plugin's entry leaves the map, and exactly its names leave the names and the server's registry; everything of other plugins stays |
| Plugin.QueryServerPlugin.Unregister | src/de/xgme/mc/query/QueryServerPlugin.java:52-55 | The loop removes exactly the names of the given registrations from the names and the registry |
| Plugin.QueryServerPlugin.UnregisterOne | src/de/xgme/mc/query/QueryServerPlugin.java:53-54 | One name leaves the names and the registry |
| Plugin.QueryServerPlugin.StartServer | src/de/xgme/mc/query/QueryServerPlugin.java:91-137 | A no-op when a server exists. Otherwise a fresh running server with the pool as executor receives the registrations of enabled plugins, disabled plugins' sets are emptied, and the invariant holds |
| Plugin.QueryServerPlugin.ReplayAll | src/de/xgme/mc/query/QueryServerPlugin.java:119-130 | The replay loop handles every plugin of the map once |
| Plugin.QueryServerPlugin.ReplayBegins | src/de/xgme/mc/query/QueryServerPlugin.java:112-119 | Before the replay, the map is unchanged and the empty registry mirrors nothing |
| Plugin.QueryServerPlugin.ReplayComplete | src/de/xgme/mc/query/QueryServerPlugin.java:119-130 | After the replay, the map is the started map and the plugin invariant holds |
| Plugin.QueryServerPlugin.ReplayPlugin | src/de/xgme/mc/query/QueryServerPlugin.java:120-129 | One plugin handled: forwarded if enabled, emptied if not |
| Plugin.QueryServerPlugin.DropQueries | src/de/xgme/mc/query/QueryServerPlugin.java:125-128 | A disabled plugin's names leave the names and its set is emptied; the key stays |
| Plugin.QueryServerPlugin.ForgetNames | src/de/xgme/mc/query/QueryServerPlugin.java:125-127 | The loop removes exactly the names of the given registrations from the names |
| Plugin.QueryServerPlugin.StopServer | src/de/xgme/mc/query/QueryServerPlugin.java:139-172 | Without a server, nothing happens. A running server is stopped and forgotten with its executor. A server whose listener already died fails to stop with an illegal-state error and is kept, together with its reaper and the reaper's sockets, untouched |

## Left out

- Sockets, threads and the clock are explicit state or parameters. A session's input is its list of pending lines. The time of each read is a `clock` sequence given to `ConnectionHandler.Run`. The reaper's sleeps are split into `Poll` and `Wake(now)`, so a session can act in between. Interleavings beyond those steps are not modelled.
- The listener thread's accept loop (`QueryServer.java:139-173`) is not modelled beyond its effect on `running`. It hands each accepted socket to a fresh `ConnectionHandler` on the executor.
- Server.QueryServer.Stop: sets `running` to false itself. In the source, `stop()` only interrupts the listener and waits for it; the listener thread clears `listener` in its `finally` block (`QueryServer.java:171`). The model puts that end of the listener thread inside `Stop`, so a listener that outlives the 20-second join is not modelled. `ListenerFailed` is the same end when binding fails.
- Server.ConnectionHandler.Run: the session counter `queryCount` is a Java `int` (`QueryServer.java:178`) that wraps around after 2^31 reads. The model's counter is unbounded, so a wrap-around that would make an old idle token match again is not modelled.
- Response.QueryResponse.SetStatus: takes a `Status`, never null. The source accepts `setStatus(null)`; a later `send()` then throws a NullPointerException at `QueryResponse.java:40` before writing anything. Neither the `Status` parameter nor a handler outcome (`QueryHandler`) can express a null status.
- Response.QueryResponse.Send: the length line counts UTF-16 code units, one per character up to U+FFFF and two above, as `String.length()` does (`Response.Frame`, `Response.Utf16Length`). A Dafny string holds Unicode scalar values, so a Java string with an unpaired surrogate cannot be represented.
- Server.ConnectionHandler.Run: it takes the enclosing server's reaper and handler map as parameters instead of reading them through the outer instance.
- Interruption of the session thread (`isInterrupted` at `QueryServer.java:192`) is not modelled. The session loop ends only on end of input, exit, or a failed read or write.
- Handlers are reduced to their outcome (`QueryHandler`): text to print and an optional status, or a throw after printing. Their own logic, such as the sample `ListPlayers`, is not part of this model.
- For a primary-thread handler, the round trip through the host scheduler and its interrupt-retry loop are not modelled. Only its effect on the response is: the handler runs, and its exception is rethrown.
- Net.Socket.Write: a write is all-or-nothing. A partial write before an IOException is not modelled.
- Text.ToLower: lower-cases ASCII letters only. Java's locale-sensitive `toLowerCase` also maps non-ASCII letters, and under some default locales it maps ASCII letters differently: with a Turkish locale `"EXIT"` becomes `"exıt"` (dotless i). `Server.ExitLine`, `Server.LoginLine` and `Server.RegisteredLine` therefore hold for a root-like locale such as English.
- Text.IsSpace: a single whitespace predicate stands for both `trim()` and `\s`. `trim()` also strips other control characters below U+0020, which the model does not distinguish.
- Plugin.QueryServerPlugin.OnPluginDisable: requires a server whenever the plugin has registrations. The source calls `server.removeQueryType` there unconditionally and would throw a NullPointerException when no server exists.
- The plugin's configuration (bind address, port, backlog, shutdown timeout) is not modelled, nor is `onLoad`.
- Executor creation and shutdown are not modelled: `Executors.newCachedThreadPool`, `shutdownNow` and `awaitTermination`. The pool is a parameter of `StartServer` and an opaque identity (`Executor`).
- Whether a host plugin is enabled (`isEnabled()`) is an `enabled` set given to `StartServer`. Host plugins are identified by number (`PluginId`).
- Registrations are modelled as values (name, handler, affinity). In the source they are compared by identity. This is faithful as long as names are unique, which the invariant guarantees.
- `onEnable` and `onDisable` are `StartServer` and `StopServer`. Registering the event listener with the host is not modelled.
- All logging is left out.
