/**
 * A client connection, reduced to what the protocol logic observes: the lines the
 * client has still to send, the characters written back so far (which only ever
 * grow), and whether the socket has been closed.
 */
module Net {
  import opened Wrappers

  /** The result of BufferedReader.readLine on the connection. */
  datatype ReadResult =
    | Line(text: string)  // one line, without its terminator
    | EndOfStream         // readLine returned null
    | ReadFailed          // readLine threw an IOException (the socket was closed)

  class Socket {
    var pending: seq<string>
    var written: string
    var closed: bool

    constructor (lines: seq<string>)
      ensures pending == lines && written == [] && !closed
    {
      pending := lines;
      written := [];
      closed := false;
    }

    /** Reads the next line; fails once the socket is closed. */
    method ReadLine() returns (r: ReadResult)
      modifies this
      ensures written == old(written) && closed == old(closed)
      ensures old(closed) ==> r == ReadFailed && pending == old(pending)
      ensures !old(closed) && old(pending) == [] ==> r == EndOfStream && pending == []
      ensures !old(closed) && old(pending) != [] ==>
                r == Line(old(pending)[0]) && pending == old(pending)[1..]
    {
      if closed {
        r := ReadFailed;
      } else if pending == [] {
        r := EndOfStream;
      } else {
        r := Line(pending[0]);
        pending := pending[1..];
      }
    }

    /** Writes and flushes s; on a closed socket nothing is written and an IOException is thrown. */
    method Write(s: string) returns (o: Outcome)
      modifies this
      ensures pending == old(pending) && closed == old(closed)
      ensures o == if old(closed) then Fail(IOFailure) else Pass
      ensures written == if old(closed) then old(written) else old(written) + s
    {
      if closed {
        o := Fail(IOFailure);
      } else {
        written := written + s;
        o := Pass;
      }
    }

    method Close()
      modifies this
      ensures closed && pending == old(pending) && written == old(written)
    {
      closed := true;
    }
  }
}
