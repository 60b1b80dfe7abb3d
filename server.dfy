/**
 * The query server (QueryServer): the handler registry, the per-connection
 * session loop with its dispatch rule, the idle-connection reaper and the
 * start/stop lifecycle. Threads are replaced by explicit sequential steps.
 */
module Server {
  import opened Wrappers
  import opened Text
  import opened Request
  import opened Net
  import opened Response

  /** How long a connection may stay idle: 30 minutes, in milliseconds. */
  const IdleTimeout: int := 30 * 60 * 1000

  /** What a registered handler does with a request, reduced to its outcome. */
  datatype QueryHandler =
    | Answers(text: string, status: Option<Status>)  // prints text, sets status if given, returns
    | Throws(partial: string)                        // prints partial, then throws

  /** A registry entry: the handler and whether it runs on the host's primary thread. */
  datatype MyHandler = MyHandler(handler: QueryHandler, sync: bool)

  /** The response a session sends for one request line, and whether the session ends after it. */
  datatype Reply = Reply(status: Status, body: string, closes: bool)

  // ---------------------------------------------------------------------------
  // Dispatch of one request
  // ---------------------------------------------------------------------------

  /** The response a handler's outcome leads to: its text and status, or a reset 500. */
  function HandlerReply(h: MyHandler): (r: Reply)
    ensures !r.closes
    ensures h.handler.Throws? ==> r.status == InternalServerError && r.body == ""
  {
    match h.handler
    case Answers(text, status) => Reply(status.GetOr(Ok), text, false)
    case Throws(_) => Reply(InternalServerError, "", false)
  }

  /**
   * The dispatch rule: `login` does nothing and is answered 200 with an empty
   * body, `exit` is answered "Close Connection" and ends the session, a
   * registered name is answered by its handler and anything else is 404.
   */
  function Dispatch(request: QueryRequest, handlers: map<string, MyHandler>): (r: Reply)
    ensures r.closes ==> r == Reply(Ok, "Close Connection", true)
  {
    if request.queryName == "login" then Reply(Ok, "", false)
    else if request.queryName == "exit" then Reply(Ok, "Close Connection", true)
    else if request.queryName in handlers then HandlerReply(handlers[request.queryName])
    else Reply(NotFound, "", false)
  }

  /** Exactly the `exit` request ends the session. */
  lemma ClosesOnExit(request: QueryRequest, handlers: map<string, MyHandler>)
    ensures Dispatch(request, handlers).closes <==> request.queryName == "exit"
  {
    if request.queryName in handlers && request.queryName != "login" && request.queryName != "exit" {
      assert !HandlerReply(handlers[request.queryName]).closes;
    }
  }

  /** `exit`, in any letter case and with any arguments, is answered OK "Close Connection" and ends the session. */
  lemma ExitLine(line: string, handlers: map<string, MyHandler>)
    requires Tokens(line) != [] && ToLower(Tokens(line)[0]) == "exit"
    ensures Dispatch(Parse(line), handlers) == Reply(Ok, "Close Connection", true)
  {
    ParseIsTokens(line);
  }

  /** `login`, in any letter case, is answered OK with an empty body and the session goes on. */
  lemma LoginLine(line: string, handlers: map<string, MyHandler>)
    requires Tokens(line) != [] && ToLower(Tokens(line)[0]) == "login"
    ensures Dispatch(Parse(line), handlers) == Reply(Ok, "", false)
  {
    ParseIsTokens(line);
  }

  /** A blank line names the empty query: 404 with an empty body, unless "" was registered. */
  lemma BlankLineNotFound(line: string, handlers: map<string, MyHandler>)
    requires AllSpace(line) && "" !in handlers
    ensures Dispatch(Parse(line), handlers) == Reply(NotFound, "", false)
  {
    BlankLine(line);
  }

  /**
   * A name registered through the registry (stored lower-cased) is found from a
   * line that uses it in any letter case; login and exit stay reserved.
   */
  lemma RegisteredLine(line: string, handlers: map<string, MyHandler>, name: string, h: MyHandler)
    requires Tokens(line) != [] && ToLower(Tokens(line)[0]) == ToLower(name)
    requires ToLower(name) != "login" && ToLower(name) != "exit"
    ensures Dispatch(Parse(line), handlers[ToLower(name) := h]) == HandlerReply(h)
  {
    ParseIsTokens(line);
  }

  /** A handler that throws, whatever it printed first, leads to 500 with an empty body. */
  lemma ThrowingHandler(request: QueryRequest, handlers: map<string, MyHandler>)
    requires request.queryName != "login" && request.queryName != "exit"
    requires request.queryName in handlers && handlers[request.queryName].handler.Throws?
    ensures Dispatch(request, handlers) == Reply(InternalServerError, "", false)
  {
  }

  // ---------------------------------------------------------------------------
  // A session, as a function of the lines it reads
  // ---------------------------------------------------------------------------

  /**
   * The replies a session sends for the lines it reads: one per line, in order, up
   * to and including the first line that ends the session.
   */
  function Replies(lines: seq<string>, handlers: map<string, MyHandler>): (rs: seq<Reply>)
    ensures |rs| <= |lines|
    ensures |rs| < |lines| ==> rs != [] && rs[|rs| - 1].closes
    decreases |lines|
  {
    if lines == [] then []
    else
      var r := Dispatch(Parse(lines[0]), handlers);
      if r.closes then [r] else [r] + Replies(lines[1..], handlers)
  }

  /** A session with more than one reply went on past its first line, which therefore was not exit. */
  lemma FirstReply(lines: seq<string>, handlers: map<string, MyHandler>)
    requires |Replies(lines, handlers)| > 1
    ensures !Dispatch(Parse(lines[0]), handlers).closes
    ensures Replies(lines, handlers) == [Dispatch(Parse(lines[0]), handlers)] + Replies(lines[1..], handlers)
  {
  }

  /** The i-th reply is the one the i-th line gets from the dispatch rule. */
  lemma {:induction false} ReplyToLine(lines: seq<string>, handlers: map<string, MyHandler>, i: nat)
    requires i < |Replies(lines, handlers)|
    ensures Replies(lines, handlers)[i] == Dispatch(Parse(lines[i]), handlers)
    decreases i
  {
    if i > 0 {
      FirstReply(lines, handlers);
      ReplyToLine(lines[1..], handlers, i - 1);
      assert lines[1..][i - 1] == lines[i];
    }
  }

  /** Only the last reply can end the session. */
  lemma {:induction false} OnlyLastCloses(lines: seq<string>, handlers: map<string, MyHandler>, i: nat)
    requires i + 1 < |Replies(lines, handlers)|
    ensures !Replies(lines, handlers)[i].closes
    decreases i
  {
    FirstReply(lines, handlers);
    if i > 0 {
      OnlyLastCloses(lines[1..], handlers, i - 1);
    }
  }

  /** Whether the session ended on an exit line rather than at the end of the input. */
  predicate EndedByExit(rs: seq<Reply>) {
    rs != [] && rs[|rs| - 1].closes
  }

  /** A session that has read i lines without meeting exit has a reply for the next line. */
  lemma StillOpen(lines: seq<string>, handlers: map<string, MyHandler>, i: nat)
    requires i < |lines| && i <= |Replies(lines, handlers)|
    requires i < |Replies(lines, handlers)| || !EndedByExit(Replies(lines, handlers))
    ensures i < |Replies(lines, handlers)|
  {
  }

  /** A session that reads every line without meeting exit answers them all, and reads once more to see the end. */
  lemma RunsOut(lines: seq<string>, handlers: map<string, MyHandler>, i: nat)
    requires i == |lines| <= |Replies(lines, handlers)|
    ensures Replies(lines, handlers)[..i] == Replies(lines, handlers)
    ensures !EndedByExit(Replies(lines, handlers)) ==> ReadAttempts(lines, handlers) == |lines| + 1
  {
  }

  /** A session whose i-th reply ends it sends exactly i + 1 replies and reads i + 1 times. */
  lemma ExitsAt(lines: seq<string>, handlers: map<string, MyHandler>, i: nat)
    requires i < |Replies(lines, handlers)| && Replies(lines, handlers)[i].closes
    ensures |Replies(lines, handlers)| == i + 1
    ensures Replies(lines, handlers)[..i + 1] == Replies(lines, handlers)
    ensures ReadAttempts(lines, handlers) == i + 1
  {
    if i + 1 < |Replies(lines, handlers)| {
      OnlyLastCloses(lines, handlers, i);
    }
  }

  /**
   * Serving the k-th line of a session that is still open appends that line's
   * reply to the transcript; if the reply ends the session, the transcript is
   * complete and the session has read k + 1 times.
   */
  lemma ServedLine(lines: seq<string>, handlers: map<string, MyHandler>, k: nat,
                   written0: string, before: string, after: string, stop: bool)
    requires k < |lines|
    requires var rs := Replies(lines, handlers); k <= |rs| && (k < |rs| || !EndedByExit(rs))
    requires before == written0 + Transcript(Replies(lines, handlers)[..k])
    requires var reply := Dispatch(Parse(lines[k]), handlers);
      after == before + Frame(reply.status, reply.body) && stop == reply.closes
    ensures var rs := Replies(lines, handlers);
      && k < |rs|
      && (!stop ==> k + 1 < |rs| || !EndedByExit(rs))
      && (!stop ==> after == written0 + Transcript(rs[..k + 1]))
      && (stop ==> ReadAttempts(lines, handlers) == k + 1 && after == written0 + Transcript(rs))
  {
    var rs := Replies(lines, handlers);
    StillOpen(lines, handlers, k);
    ReplyToLine(lines, handlers, k);
    assert after == written0 + Transcript(rs[..k + 1]) by {
      TranscriptSnoc(rs, k);
      AppendRegroup(written0, Transcript(rs[..k]), Frame(rs[k].status, rs[k].body));
    }
    if stop {
      ExitsAt(lines, handlers, k);
    }
  }

  /** The number of readLine calls a session makes: one per line up to exit, plus the one that sees end of input. */
  function ReadAttempts(lines: seq<string>, handlers: map<string, MyHandler>): (n: nat)
    ensures n >= 1
  {
    var rs := Replies(lines, handlers);
    if EndedByExit(rs) then |rs| else |lines| + 1
  }

  /** How many turns a session takes: one on a socket already closed, ReadAttempts otherwise. */
  function Attempts(lines: seq<string>, handlers: map<string, MyHandler>, wasClosed: bool): nat {
    if wasClosed then 1 else ReadAttempts(lines, handlers)
  }

  /** Everything a session writes: the frames of its replies, in order. */
  function Transcript(rs: seq<Reply>): (t: string)
    ensures rs == [] <==> t == []
  {
    if rs == [] then []
    else Transcript(rs[..|rs| - 1]) + Frame(rs[|rs| - 1].status, rs[|rs| - 1].body)
  }

  /** A client reading the session's output frame by frame: n frames, in order, or None if one is malformed. */
  function ReadFrames(s: string, n: nat): Option<seq<(Status, string)>>
    decreases n
  {
    if n == 0 then Some([])
    else
      match ReadFrame(s)
      case None => None
      case Some(f) =>
        match ReadFrames(f.rest, n - 1)
        case None => None
        case Some(more) => Some([(f.status, f.body)] + more)
  }

  /** The sequence of frames a session writes can be read back reply by reply, whatever follows it. */
  lemma {:induction false} TranscriptReadsBack(rs: seq<Reply>, rest: string)
    ensures var read := ReadFrames(Transcript(rs) + rest, |rs|);
      && read.Some? && |read.value| == |rs|
      && forall i :: 0 <= i < |rs| ==> read.value[i] == (rs[i].status, rs[i].body)
    decreases |rs|
  {
    if rs != [] {
      var r, tail := rs[0], rs[1..];
      assert rs == [r] + tail;
      FirstFrame(r, tail, rest);
      TranscriptReadsBack(tail, rest);
    }
  }

  /** Reading a transcript starts with its first reply's frame and goes on with the rest. */
  lemma FirstFrame(r: Reply, tail: seq<Reply>, rest: string)
    ensures ReadFrames(Transcript([r] + tail) + rest, |tail| + 1)
         == match ReadFrames(Transcript(tail) + rest, |tail|)
            case None => None
            case Some(more) => Some([(r.status, r.body)] + more)
  {
    var x := Transcript(tail) + rest;
    assert ReadFrame(Transcript([r] + tail) + rest) == Some(ParsedFrame(r.status, r.body, x)) by {
      TranscriptCons(r, tail);
      AppendRegroup(Frame(r.status, r.body), Transcript(tail), rest);
      ReadFrameRoundTrip(r.status, r.body, x);
    }
  }

  /** The transcript seen from its first reply. */
  lemma {:induction false} TranscriptCons(r: Reply, rs: seq<Reply>)
    ensures Transcript([r] + rs) == Frame(r.status, r.body) + Transcript(rs)
    decreases |rs|
  {
    var f := Frame(r.status, r.body);
    if rs == [] {
      assert ([r] + rs)[..0] == [];
      assert [] + f == f + [];
    } else {
      var init, last := rs[..|rs| - 1], rs[|rs| - 1];
      TranscriptCons(r, init);
      assert ([r] + rs)[..|rs|] == [r] + init;
      AppendRegroup(f, Transcript(init), Frame(last.status, last.body));
    }
  }

  /** The transcript of one more reply. */
  lemma TranscriptSnoc(rs: seq<Reply>, i: nat)
    requires i < |rs|
    ensures Transcript(rs[..i + 1]) == Transcript(rs[..i]) + Frame(rs[i].status, rs[i].body)
  {
    assert rs[..i + 1][..i] == rs[..i];
  }

  /** Three pieces appended (output frames, queued tokens): the grouping does not matter. */
  lemma AppendRegroup<T>(a: seq<T>, b: seq<T>, c: seq<T>)
    ensures (a + b) + c == a + (b + c)
  {
  }

  /** The idle tokens a session registers: one per read attempt, carrying the counter before that attempt. */
  function Registrations(h: ConnectionHandler, count: int, clock: seq<int>, n: nat): (crs: seq<CleanRequest>)
    requires n <= |clock|
    ensures |crs| == n
  {
    if n == 0 then []
    else Registrations(h, count, clock, n - 1) + [CleanRequest(h, count + n - 1, clock[n - 1] + IdleTimeout)]
  }

  /** Queueing one more token extends the session's registrations by the token of that turn. */
  lemma RegistrationStep(h: ConnectionHandler, count: int, clock: seq<int>, k: nat,
                          queue0: seq<CleanRequest>, queue: seq<CleanRequest>)
    requires k < |clock| && queue == queue0 + Registrations(h, count, clock, k)
    ensures queue + [CleanRequest(h, count + k, clock[k] + IdleTimeout)]
         == queue0 + Registrations(h, count, clock, k + 1)
  {
    AppendRegroup(queue0, Registrations(h, count, clock, k), [CleanRequest(h, count + k, clock[k] + IdleTimeout)]);
  }

  /** The k-th token belongs to the session, carries the counter after k attempts and expires IdleTimeout after the k-th read. */
  lemma {:induction false} RegistrationAt(h: ConnectionHandler, count: int, clock: seq<int>, n: nat, k: nat)
    requires k < n <= |clock|
    ensures Registrations(h, count, clock, n)[k] == CleanRequest(h, count + k, clock[k] + IdleTimeout)
    decreases n
  {
    if k < n - 1 {
      RegistrationAt(h, count, clock, n - 1, k);
    }
  }

  /**
   * While a session waits for its next line, the newest of its tokens is the only
   * one whose counter still matches: every older token is superseded.
   */
  lemma OnlyNewestTokenLive(h: ConnectionHandler, count: int, clock: seq<int>, n: nat, k: nat)
    requires 0 < n <= |clock| && k < n
    ensures Registrations(h, count, clock, n)[k].queryCount == count + n - 1 <==> k == n - 1
  {
    RegistrationAt(h, count, clock, n, k);
  }

  // ---------------------------------------------------------------------------
  // The imperative session
  // ---------------------------------------------------------------------------

  /**
   * Calls a handler on a response (MyHandler.handle). A primary-thread handler runs
   * through the host scheduler and its exception is rethrown to the caller, so both
   * affinities have the same effect on the response. Returns whether it threw.
   */
  method Invoke(h: MyHandler, request: QueryRequest, response: QueryResponse) returns (thrown: bool)
    requires response.Valid() && !response.finished
    modifies response
    ensures response.Valid() && !response.finished
    ensures thrown == h.handler.Throws?
    ensures h.handler.Answers? ==>
              response.message == Some(old(response.message.value) + h.handler.text)
              && response.status == (if h.handler.status.Some? then h.handler.status else old(response.status))
    ensures h.handler.Throws? ==>
              response.message == Some(old(response.message.value) + h.handler.partial)
              && response.status == old(response.status)
  {
    match h.handler
    case Answers(text, status) =>
      response.Print(text);
      if status.Some? {
        var _ := response.SetStatus(status.value);
      }
      thrown := false;
    case Throws(partial) =>
      response.Print(partial);
      thrown := true;
  }

  /**
   * One request of a session: build the request and a fresh response, run the
   * dispatch branch and send. The IOException of the exit branch's send is
   * swallowed; any other failed send is returned to end the session.
   */
  method ServeLine(line: string, output: Socket, handlers: map<string, MyHandler>)
    returns (exit: bool, o: Outcome)
    modifies output
    ensures var reply := Dispatch(Parse(line), handlers);
      && exit == reply.closes
      && output.pending == old(output.pending) && output.closed == old(output.closed)
      && (!old(output.closed) ==>
            o == Pass && output.written == old(output.written) + Frame(reply.status, reply.body))
      && (old(output.closed) ==>
            output.written == old(output.written) && (exit || o == Fail(IOFailure)))
  {
    var request := Parse(line);
    ghost var reply := Dispatch(request, handlers);
    var response := new QueryResponse(output);
    if request.queryName == "login" {
      assert reply == Reply(Ok, [], false);
    } else if request.queryName == "exit" {
      response.Print("Close Connection");
      assert response.message.value == reply.body;
      var _ := response.Send();
      return true, Pass;
    } else if request.queryName in handlers {
      var h := handlers[request.queryName];
      var thrown := Invoke(h, request, response);
      if h.handler.Answers? {
        assert [] + h.handler.text == h.handler.text;
      }
      if thrown {
        var _ := response.Reset();
        var _ := response.SetStatus(InternalServerError);
      }
    } else {
      var _ := response.SetStatus(NotFound);
    }
    assert response.status == Some(reply.status) && response.message == Some(reply.body);
    o := response.Send();
    exit := false;
  }

  /** One client connection (ConnectionHandler) and its activity counter. */
  class ConnectionHandler {
    const clientSocket: Socket
    var queryCount: int

    constructor (socket: Socket)
      ensures clientSocket == socket && queryCount == 0
    {
      clientSocket := socket;
      queryCount := 0;
    }

    /** Forced closure by the reaper. */
    method Close()
      modifies clientSocket
      ensures clientSocket.closed
      ensures clientSocket.pending == old(clientSocket.pending)
      ensures clientSocket.written == old(clientSocket.written)
    {
      clientSocket.Close();
    }

    /**
     * The connection before the k-th turn of a session that started with `lines`
     * pending, `written0` written and counter `count0`: the first k lines are
     * consumed and answered and the counter has grown by k. A closed socket is only
     * ever seen at the first turn.
     */
    ghost predicate Answered(handlers: map<string, MyHandler>, k: nat, lines: seq<string>, written0: string, count0: int)
      reads this, clientSocket
    {
      var rs := Replies(lines, handlers);
      && k <= |lines|
      && (clientSocket.closed ==> k == 0 && clientSocket.written == written0)
      && clientSocket.pending == lines[k..]
      && k <= |rs| && (k < |rs| || !EndedByExit(rs))
      && clientSocket.written == written0 + Transcript(rs[..k])
      && queryCount == count0 + k
    }

    /**
     * The connection after the last turn of a session that started with `lines`
     * pending, `written0` written and counter `count0`: on a socket that was
     * already closed, one failed read and nothing else; otherwise every reply is
     * written, the counter has grown by the number of reads and the lines after
     * the last one read are still pending.
     */
    ghost predicate Ended(handlers: map<string, MyHandler>, lines: seq<string>, written0: string, count0: int,
                          wasClosed: bool)
      reads this, clientSocket
    {
      var n := ReadAttempts(lines, handlers);
      && clientSocket.closed == wasClosed
      && (wasClosed ==>
            clientSocket.written == written0 && queryCount == count0 && clientSocket.pending == lines)
      && (!wasClosed ==>
            && clientSocket.written == written0 + Transcript(Replies(lines, handlers))
            && queryCount == count0 + n
            && clientSocket.pending == lines[if n <= |lines| then n else |lines|..])
    }

    /** The reaper's queue after k turns of this session: `queue0` followed by the k idle tokens. */
    ghost predicate Queued(cleaner: ConnectionCleaner, clock: seq<int>, k: nat, count0: int, queue0: seq<CleanRequest>)
      reads cleaner
    {
      k <= |clock| && cleaner.cleanRequests == queue0 + Registrations(this, count0, clock, k)
    }

    /**
     * One turn of the session loop: register an idle token taken at time
     * `clock[k]`, then read a line and serve it (Step). `stop` says whether the
     * loop ends after this turn.
     */
    method Turn(cleaner: ConnectionCleaner, handlers: map<string, MyHandler>, clock: seq<int>, k: nat,
                ghost lines: seq<string>, ghost written0: string, ghost count0: int,
                ghost queue0: seq<CleanRequest>)
      returns (stop: bool)
      requires |lines| < |clock|
      requires Answered(handlers, k, lines, written0, count0) && Queued(cleaner, clock, k, count0, queue0)
      modifies this, clientSocket, cleaner
      ensures Queued(cleaner, clock, k + 1, count0, queue0)
      ensures cleaner.stopAll == old(cleaner.stopAll) && cleaner.sleepingOn == old(cleaner.sleepingOn)
      ensures clientSocket.closed == old(clientSocket.closed)
      ensures old(clientSocket.closed) ==> stop
      ensures !stop ==> Answered(handlers, k + 1, lines, written0, count0)
      ensures stop ==>
                && Ended(handlers, lines, written0, count0, old(clientSocket.closed))
                && k + 1 == Attempts(lines, handlers, old(clientSocket.closed))
    {
      cleaner.Register(this, clock[k]);
      RegistrationStep(this, count0, clock, k, queue0, old(cleaner.cleanRequests));
      assert Queued(cleaner, clock, k + 1, count0, queue0);
      stop := Step(handlers, k, lines, written0, count0);
    }

    /**
     * The reading half of the k-th turn: read a line, count the attempt and, when a
     * line came, serve it.
     */
    method Step(handlers: map<string, MyHandler>, k: nat,
                ghost lines: seq<string>, ghost written0: string, ghost count0: int)
      returns (stop: bool)
      requires Answered(handlers, k, lines, written0, count0)
      modifies this, clientSocket
      ensures clientSocket.closed == old(clientSocket.closed)
      ensures old(clientSocket.closed) ==> stop
      ensures !stop ==> Answered(handlers, k + 1, lines, written0, count0)
      ensures stop ==>
                && Ended(handlers, lines, written0, count0, old(clientSocket.closed))
                && k + 1 == Attempts(lines, handlers, old(clientSocket.closed))
    {
      ghost var before := clientSocket.written;
      var served;
      served, stop := ReadAndServe(handlers);
      if served {
        ServedLine(lines, handlers, k, written0, before, clientSocket.written, stop);
      } else if !clientSocket.closed {
        RunsOut(lines, handlers, k);
      } else {
        assert lines[0..] == lines;
      }
    }

    /**
     * Reads one line and counts the attempt; when a line came, serves it. `served`
     * says whether a line was served and `stop` whether the session ends.
     */
    method ReadAndServe(handlers: map<string, MyHandler>) returns (served: bool, stop: bool)
      modifies this, clientSocket
      ensures clientSocket.closed == old(clientSocket.closed)
      ensures served <==> !old(clientSocket.closed) && old(clientSocket.pending) != []
      ensures old(clientSocket.closed) ==>
                && stop && queryCount == old(queryCount)
                && clientSocket.written == old(clientSocket.written)
                && clientSocket.pending == old(clientSocket.pending)
      ensures !old(clientSocket.closed) && old(clientSocket.pending) == [] ==>
                && stop && queryCount == old(queryCount) + 1
                && clientSocket.written == old(clientSocket.written)
                && clientSocket.pending == []
      ensures served ==>
                var reply := Dispatch(Parse(old(clientSocket.pending)[0]), handlers);
                && stop == reply.closes && queryCount == old(queryCount) + 1
                && clientSocket.written == old(clientSocket.written) + Frame(reply.status, reply.body)
                && clientSocket.pending == old(clientSocket.pending)[1..]
    {
      var read := clientSocket.ReadLine();
      if read.ReadFailed? {
        return false, true;
      }
      queryCount := queryCount + 1;
      if read.EndOfStream? {
        return false, true;
      }
      var exit, o := ServeLine(read.text, clientSocket, handlers);
      served, stop := true, exit || o.Fail?;
    }

    /**
     * The session loop (ConnectionHandler.run): turns until end of input, exit or a
     * failed send, then the socket is closed. `cleaner` and `handlers` are the
     * enclosing server's reaper and handler map; `clock[k]` is the time of the k-th
     * read attempt.
     */
    method Run(cleaner: ConnectionCleaner, handlers: map<string, MyHandler>, clock: seq<int>)
      requires |clock| > |clientSocket.pending|
      modifies this, clientSocket, cleaner
      ensures clientSocket.closed
      ensures var lines, rs := old(clientSocket.pending), Replies(old(clientSocket.pending), handlers);
        var n := ReadAttempts(lines, handlers);
        if old(clientSocket.closed) then
          && clientSocket.written == old(clientSocket.written)
          && queryCount == old(queryCount)
          && cleaner.cleanRequests == old(cleaner.cleanRequests) + Registrations(this, old(queryCount), clock, 1)
        else
          && clientSocket.written == old(clientSocket.written) + Transcript(rs)
          && queryCount == old(queryCount) + n
          && cleaner.cleanRequests == old(cleaner.cleanRequests) + Registrations(this, old(queryCount), clock, n)
          && clientSocket.pending == lines[if n <= |lines| then n else |lines|..]
      ensures cleaner.stopAll == old(cleaner.stopAll) && cleaner.sleepingOn == old(cleaner.sleepingOn)
    {
      Turns(cleaner, handlers, clock, clientSocket.pending, clientSocket.written, queryCount, cleaner.cleanRequests);
      clientSocket.Close();
    }

    /**
     * The turns of a session that starts with `lines` pending, `written0` written,
     * counter `count0` and reaper queue `queue0`, up to the one that stops.
     */
    method Turns(cleaner: ConnectionCleaner, handlers: map<string, MyHandler>, clock: seq<int>,
                 ghost lines: seq<string>, ghost written0: string, ghost count0: int,
                 ghost queue0: seq<CleanRequest>)
      requires |clock| > |lines|
      requires clientSocket.pending == lines && clientSocket.written == written0
      requires queryCount == count0 && cleaner.cleanRequests == queue0
      modifies this, clientSocket, cleaner
      ensures Ended(handlers, lines, written0, count0, old(clientSocket.closed))
      ensures Queued(cleaner, clock, Attempts(lines, handlers, old(clientSocket.closed)), count0, queue0)
      ensures cleaner.stopAll == old(cleaner.stopAll) && cleaner.sleepingOn == old(cleaner.sleepingOn)
    {
      ghost var rs := Replies(lines, handlers);
      assert written0 + Transcript(rs[..0]) == written0 by {
        assert rs[..0] == [];
      }
      var i := 0;
      while true
        invariant clientSocket.closed == old(clientSocket.closed)
        invariant Answered(handlers, i, lines, written0, count0) && Queued(cleaner, clock, i, count0, queue0)
        invariant cleaner.stopAll == old(cleaner.stopAll) && cleaner.sleepingOn == old(cleaner.sleepingOn)
        decreases |lines| - i
      {
        var stop := Turn(cleaner, handlers, clock, i, lines, written0, count0, queue0);
        if stop {
          return;
        }
        i := i + 1;
      }
    }
  }

  // ---------------------------------------------------------------------------
  // The idle-connection reaper
  // ---------------------------------------------------------------------------

  /** An idle token (CleanRequest): the session, its counter when taken, and the deadline. */
  datatype CleanRequest = CleanRequest(handler: ConnectionHandler, queryCount: int, cleanTime: int)

  /** What one step of the reaper did. */
  datatype Sweep =
    | Stopped         // the stop flag is set: the sweeping loop has ended
    | Idle            // the queue was empty: the thread sleeps for the poll interval
    | Superseded      // the session made progress since the token: token dropped
    | Waiting         // the session is idle so far: the thread sleeps until the deadline
    | StillSleeping   // the deadline has not come yet
    | ClosedIdle      // no progress until the deadline: the session's socket was closed

  /** The reaper thread's state (ConnectionCleaner): its token queue, its stop flag, and the token it sleeps on. */
  class ConnectionCleaner {
    var cleanRequests: seq<CleanRequest>
    var stopAll: bool
    var sleepingOn: Option<CleanRequest>

    constructor ()
      ensures cleanRequests == [] && !stopAll && sleepingOn == None
    {
      cleanRequests := [];
      stopAll := false;
      sleepingOn := None;
    }

    /** The sockets of the sessions the reaper holds tokens for. */
    ghost function Sockets(): set<Socket>
      reads this
    {
      QueuedSockets() + (if sleepingOn.Some? then {sleepingOn.value.handler.clientSocket} else {})
    }

    /** The sockets of the sessions with a queued token. */
    ghost function QueuedSockets(): set<Socket>
      reads this
    {
      set cr | cr in cleanRequests :: cr.handler.clientSocket
    }

    /** A session registers a token before each read; `now` is the current time. */
    method Register(handler: ConnectionHandler, now: int)
      modifies this
      ensures cleanRequests == old(cleanRequests) + [CleanRequest(handler, handler.queryCount, now + IdleTimeout)]
      ensures stopAll == old(stopAll) && sleepingOn == old(sleepingOn)
    {
      cleanRequests := cleanRequests + [CleanRequest(handler, handler.queryCount, now + IdleTimeout)];
    }

    /**
     * The first half of one turn of the sweeping loop: take the oldest token and
     * drop it if its session has made progress since; otherwise go to sleep on it.
     */
    method Poll() returns (v: Sweep)
      requires sleepingOn.None?
      modifies this
      ensures stopAll == old(stopAll)
      ensures old(stopAll) ==> v == Stopped && cleanRequests == old(cleanRequests) && sleepingOn == None
      ensures !old(stopAll) && old(cleanRequests) == [] ==>
                v == Idle && cleanRequests == [] && sleepingOn == None
      ensures !old(stopAll) && old(cleanRequests) != [] ==>
                var cr := old(cleanRequests)[0];
                && cleanRequests == old(cleanRequests)[1..]
                && (cr.handler.queryCount == cr.queryCount ==> v == Waiting && sleepingOn == Some(cr))
                && (cr.handler.queryCount != cr.queryCount ==> v == Superseded && sleepingOn == None)
    {
      if stopAll {
        return Stopped;
      }
      if cleanRequests == [] {
        return Idle;
      }
      var cr := cleanRequests[0];
      cleanRequests := cleanRequests[1..];
      if cr.handler.queryCount != cr.queryCount {
        return Superseded;
      }
      sleepingOn := Some(cr);
      v := Waiting;
    }

    /**
     * The second half: once the deadline has come, check the counter again and
     * close the session if it is still unchanged.
     */
    method Wake(now: int) returns (v: Sweep)
      requires sleepingOn.Some?
      modifies this, sleepingOn.value.handler.clientSocket
      ensures cleanRequests == old(cleanRequests) && stopAll == old(stopAll)
      ensures var cr := old(sleepingOn.value);
        var socket := cr.handler.clientSocket;
        && socket.pending == old(socket.pending) && socket.written == old(socket.written)
        && (now < cr.cleanTime ==>
              v == StillSleeping && sleepingOn == old(sleepingOn) && socket.closed == old(socket.closed))
        && (now >= cr.cleanTime && cr.handler.queryCount != cr.queryCount ==>
              v == Superseded && sleepingOn == None && socket.closed == old(socket.closed))
        && (now >= cr.cleanTime && cr.handler.queryCount == cr.queryCount ==>
              v == ClosedIdle && sleepingOn == None && socket.closed)
    {
      var cr := sleepingOn.value;
      if now < cr.cleanTime {
        return StillSleeping;
      }
      sleepingOn := None;
      if cr.handler.queryCount != cr.queryCount {
        return Superseded;
      }
      cr.handler.Close();
      v := ClosedIdle;
    }

    /**
     * Stop: the sleep (if any) is interrupted, after which the counter is checked
     * once more and the session closed if unchanged; then every queued token is
     * drained and the sessions whose sockets are still open are closed.
     */
    method StopAll()
      modifies this, Sockets()
      ensures stopAll && cleanRequests == [] && sleepingOn == None
      ensures forall cr :: cr in old(cleanRequests) ==> cr.handler.clientSocket.closed
      ensures (old(sleepingOn).Some? && old(sleepingOn.value.handler.queryCount) == old(sleepingOn.value.queryCount))
                ==> old(sleepingOn.value.handler.clientSocket).closed
      ensures forall s :: s in old(Sockets()) ==> s.pending == old(s.pending) && s.written == old(s.written)
      ensures forall s :: s in old(Sockets()) && old(s.closed) ==> s.closed
      ensures forall s :: s in old(Sockets()) && s !in old(QueuedSockets())
                && !(old(sleepingOn).Some? && s == old(sleepingOn.value.handler.clientSocket)
                     && old(sleepingOn.value.handler.queryCount) == old(sleepingOn.value.queryCount))
                ==> s.closed == old(s.closed)
    {
      stopAll := true;
      if sleepingOn.Some? {
        var cr := sleepingOn.value;
        sleepingOn := None;
        if cr.handler.queryCount == cr.queryCount {
          cr.handler.Close();
        }
      }
      DrainQueue();
    }

    /** The drain at the end of a stop: every queued token is taken and its session closed if still open. */
    method DrainQueue()
      modifies this, QueuedSockets()
      ensures cleanRequests == [] && stopAll == old(stopAll) && sleepingOn == old(sleepingOn)
      ensures forall cr :: cr in old(cleanRequests) ==> cr.handler.clientSocket.closed
      ensures forall s :: s in old(QueuedSockets()) ==>
                s.pending == old(s.pending) && s.written == old(s.written) && (old(s.closed) ==> s.closed)
    {
      ghost var queue := cleanRequests;
      ghost var sockets := QueuedSockets();
      ghost var k := 0;
      while cleanRequests != []
        invariant 0 <= k <= |queue|
        invariant cleanRequests == queue[k..] && stopAll == old(stopAll) && sleepingOn == old(sleepingOn)
        invariant forall j :: 0 <= j < k ==> queue[j].handler.clientSocket.closed
        invariant forall s :: s in sockets ==>
                    s.pending == old(s.pending) && s.written == old(s.written) && (old(s.closed) ==> s.closed)
      {
        var cr := cleanRequests[0];
        assert cr.handler.clientSocket in sockets by {
          assert cr == queue[k];
        }
        cleanRequests := cleanRequests[1..];
        if !cr.handler.clientSocket.closed {
          cr.handler.Close();
        }
        k := k + 1;
      }
      assert forall cr :: cr in queue ==> exists j :: 0 <= j < |queue| && queue[j] == cr;
    }
  }

  // ---------------------------------------------------------------------------
  // The server: registry and lifecycle
  // ---------------------------------------------------------------------------

  /** The worker thread pool handed to the server, by identity; null is None. */
  type Executor = nat

  class QueryServer {
    var handlers: map<string, MyHandler>
    var executor: Option<Executor>
    var running: bool  // the listener field is non-null
    var connCleaner: ConnectionCleaner?

    ghost predicate Valid()
      reads this
    {
      && (forall name :: name in handlers ==> ToLower(name) == name)
      && (running ==> connCleaner != null)
    }

    /** What stopping the server may change: the server, its reaper and the sockets the reaper holds. */
    ghost function StopFrame(): set<object>
      reads this, connCleaner
    {
      {this} + (if connCleaner != null then {connCleaner} + connCleaner.Sockets() else {})
    }

    constructor ()
      ensures Valid()
      ensures handlers == map[] && executor == None && !running && connCleaner == null
    {
      handlers := map[];
      executor := None;
      running := false;
      connCleaner := null;
    }

    method SetExecutor(e: Option<Executor>) returns (o: Outcome)
      modifies this
      ensures o == if e.None? then Fail(IllegalArgument) else Pass
      ensures executor == if e.None? then old(executor) else e
      ensures handlers == old(handlers) && running == old(running) && connCleaner == old(connCleaner)
    {
      if e.None? {
        return Fail(IllegalArgument);
      }
      executor := e;
      o := Pass;
    }

    /** Registers a handler under the lower-cased name, replacing any handler already there. */
    method AddQueryType(queryName: string, handler: QueryHandler, sync: bool)
      requires Valid()
      modifies this
      ensures Valid()
      ensures handlers == old(handlers)[ToLower(queryName) := MyHandler(handler, sync)]
      ensures executor == old(executor) && running == old(running) && connCleaner == old(connCleaner)
    {
      ToLowerIdempotent(queryName);
      handlers := handlers[ToLower(queryName) := MyHandler(handler, sync)];
    }

    /** Unregisters the lower-cased name; every other entry stays. */
    method RemoveQueryType(queryName: string)
      requires Valid()
      modifies this
      ensures Valid()
      ensures handlers == old(handlers) - {ToLower(queryName)}
      ensures executor == old(executor) && running == old(running) && connCleaner == old(connCleaner)
    {
      handlers := handlers - {ToLower(queryName)};
    }

    method QueryTypeExist(queryName: string) returns (b: bool)
      ensures b <==> ToLower(queryName) in handlers
    {
      b := ToLower(queryName) in handlers;
    }

    method IsRunning() returns (b: bool)
      ensures b == running
    {
      b := running;
    }

    /** Starts the reaper and the listener; a no-op when running, an error without executor. */
    method Start() returns (o: Outcome)
      requires Valid()
      modifies this
      ensures Valid() && handlers == old(handlers) && executor == old(executor)
      ensures old(running) ==> o == Pass && running && connCleaner == old(connCleaner)
      ensures !old(running) && executor.None? ==>
                o == Fail(IllegalState) && !running && connCleaner == old(connCleaner)
      ensures !old(running) && executor.Some? ==>
                o == Pass && running && fresh(connCleaner)
                && connCleaner.cleanRequests == [] && !connCleaner.stopAll && connCleaner.sleepingOn == None
    {
      if running {
        return Pass;
      }
      if executor.None? {
        return Fail(IllegalState);
      }
      connCleaner := new ConnectionCleaner();
      running := true;
      o := Pass;
    }

    /**
     * Stops the listener and tells the reaper to close every connection it holds a
     * token for; an error when not running.
     */
    method Stop() returns (o: Outcome)
      requires Valid()
      modifies StopFrame()
      ensures Valid() && handlers == old(handlers) && executor == old(executor)
      ensures connCleaner == old(connCleaner) && !running
      ensures o == if old(running) then Pass else Fail(IllegalState)
      ensures old(running) ==>
                && connCleaner.stopAll && connCleaner.cleanRequests == [] && connCleaner.sleepingOn == None
                && (forall cr :: cr in old(connCleaner.cleanRequests) ==> cr.handler.clientSocket.closed)
                && (old(connCleaner.sleepingOn).Some?
                    && old(connCleaner.sleepingOn.value.handler.queryCount) == old(connCleaner.sleepingOn.value.queryCount)
                    ==> old(connCleaner.sleepingOn.value.handler.clientSocket).closed)
                && (forall s :: s in old(connCleaner.Sockets()) ==>
                      s.pending == old(s.pending) && s.written == old(s.written) && (old(s.closed) ==> s.closed))
                && (forall s :: s in old(connCleaner.Sockets()) && s !in old(connCleaner.QueuedSockets())
                      && !(old(connCleaner.sleepingOn).Some?
                           && s == old(connCleaner.sleepingOn.value.handler.clientSocket)
                           && old(connCleaner.sleepingOn.value.handler.queryCount) == old(connCleaner.sleepingOn.value.queryCount))
                      ==> s.closed == old(s.closed))
      ensures !old(running) ==> unchanged(this)
      ensures !old(running) && connCleaner != null ==>
                unchanged(connCleaner) && forall s :: s in old(connCleaner.Sockets()) ==> unchanged(s)
    {
      if !running {
        return Fail(IllegalState);
      }
      running := false;
      connCleaner.StopAll();
      o := Pass;
    }

    /** The listener thread ends on its own (the socket could not be bound) and clears the listener. */
    method ListenerFailed()
      requires Valid()
      modifies this
      ensures Valid() && !running
      ensures handlers == old(handlers) && executor == old(executor) && connCleaner == old(connCleaner)
    {
      running := false;
    }
  }
}
