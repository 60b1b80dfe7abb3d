/**
 * The response object (QueryResponse): a status and a body buffer that handlers
 * fill in, framed and written to the connection exactly once.
 */
module Response {
  import opened Wrappers
  import opened Net

  /** The response statuses, each with its numeric code and its reason text. */
  datatype Status =
    | Ok
    | Forbidden  // spelled FORBIDDED in the source; defined but never used by the server
    | NotFound
    | InternalServerError
  {
    /** The numeric status code: always three digits. */
    function Code(): (c: nat)
      ensures 100 <= c <= 999
    {
      match this
      case Ok => 200
      case Forbidden => 403
      case NotFound => 404
      case InternalServerError => 500
    }

    /** The reason text: never empty and never containing a line terminator. */
    function Message(): (m: string)
      ensures |m| > 0 && forall i :: 0 <= i < |m| ==> m[i] != '\n' && m[i] != '\r'
    {
      match this
      case Ok => "OK"
      case Forbidden => "Forbidden"
      case NotFound => "Not Found"
      case InternalServerError => "Internal Server Error"
    }
  }

  // ---------------------------------------------------------------------------
  // Decimal numbers, as Java prints a non-negative int
  // ---------------------------------------------------------------------------

  predicate IsDigit(c: char) {
    '0' <= c <= '9'
  }

  function DigitChar(d: nat): (c: char)
    requires d < 10
    ensures IsDigit(c) && c as int - '0' as int == d
  {
    ('0' as int + d) as char
  }

  /** The decimal representation of n, without leading zeros. */
  function Decimal(n: nat): (s: string)
    ensures |s| > 0
  {
    if n < 10 then [DigitChar(n)] else Decimal(n / 10) + [DigitChar(n % 10)]
  }

  /** A printed number is all digits, with no leading zero unless it is 0 itself. */
  lemma {:induction false} DecimalDigits(n: nat)
    ensures forall i :: 0 <= i < |Decimal(n)| ==> IsDigit(Decimal(n)[i])
    ensures |Decimal(n)| > 1 ==> Decimal(n)[0] != '0'
  {
    if n >= 10 {
      DecimalDigits(n / 10);
      assert Decimal(n)[0] == Decimal(n / 10)[0];
    }
  }

  /** The number a string of digits denotes. */
  function DigitsValue(s: string): nat
    requires forall i :: 0 <= i < |s| ==> IsDigit(s[i])
  {
    if s == [] then 0
    else
      assert IsDigit(s[|s| - 1]);
      10 * DigitsValue(s[..|s| - 1]) + (s[|s| - 1] as int - '0' as int)
  }

  /** Reading a printed number gives the number back. */
  lemma {:induction false} DecimalValue(n: nat)
    ensures (DecimalDigits(n); DigitsValue(Decimal(n)) == n)
  {
    DecimalDigits(n);
    if n >= 10 {
      DecimalValue(n / 10);
      var s := Decimal(n);
      assert s[..|s| - 1] == Decimal(n / 10);
    }
  }

  // ---------------------------------------------------------------------------
  // Lengths as Java counts them: in UTF-16 code units
  // ---------------------------------------------------------------------------

  /** The UTF-16 code units of one character: two for a character above U+FFFF (a surrogate pair). */
  function Units(c: char): (n: nat)
    ensures 1 <= n <= 2
  {
    if c as int < 0x1_0000 then 1 else 2
  }

  /** String.length(): the number of UTF-16 code units of s. */
  function Utf16Length(s: string): (n: nat)
    ensures |s| <= n <= 2 * |s|
  {
    if s == [] then 0 else Units(s[0]) + Utf16Length(s[1..])
  }

  /** Utf16Length counts one unit per character exactly when no character lies above U+FFFF. */
  lemma {:induction false} Utf16LengthBasic(s: string)
    ensures Utf16Length(s) == |s| <==> forall i :: 0 <= i < |s| ==> s[i] as int < 0x1_0000
    decreases |s|
  {
    if s != [] {
      Utf16LengthBasic(s[1..]);
      if forall i :: 0 <= i < |s| - 1 ==> s[1..][i] as int < 0x1_0000 {
        forall i | 0 < i < |s| ensures s[i] as int < 0x1_0000 {
          assert s[i] == s[1..][i - 1];
        }
      }
    }
  }

  /**
   * How many characters at the front of s make up exactly `len` code units; None
   * when `len` units end inside a surrogate pair or run past the end of s.
   */
  function UnitPrefix(s: string, len: nat): (k: Option<nat>)
    ensures k.Some? ==> k.value <= |s| && Utf16Length(s[..k.value]) == len
    decreases len
  {
    if len == 0 then Some(0)
    else if s == [] || Units(s[0]) > len then None
    else
      match UnitPrefix(s[1..], len - Units(s[0]))
      case None => None
      case Some(k) =>
        assert s[..k + 1][1..] == s[1..][..k];
        Some(k + 1)
  }

  /** The code units of a string cover exactly its characters, whatever follows it. */
  lemma {:induction false} UnitPrefixOf(body: string, rest: string)
    ensures UnitPrefix(body + rest, Utf16Length(body)) == Some(|body|)
    decreases |body|
  {
    if body != [] {
      UnitPrefixOf(body[1..], rest);
      assert (body + rest)[1..] == body[1..] + rest;
    }
  }

  /** Length of the longest prefix of s made of digits. */
  function DigitRun(s: string): (n: nat)
    ensures n <= |s|
    ensures forall i :: 0 <= i < n ==> IsDigit(s[i])
    ensures n < |s| ==> !IsDigit(s[n])
  {
    if s == [] || !IsDigit(s[0]) then 0 else 1 + DigitRun(s[1..])
  }

  // ---------------------------------------------------------------------------
  // The wire frame of a response, and a reader for it
  // ---------------------------------------------------------------------------

  /** The first line of a frame: it ends with a terminator and holds no other. */
  function StatusLine(st: Status): (line: string)
    ensures |line| >= 2 && line[|line| - 2..] == "\n\r"
    ensures forall i :: 0 <= i < |line| - 2 ==> line[i] != '\n' && line[i] != '\r'
  {
    DecimalDigits(st.Code());
    Decimal(st.Code()) + " " + st.Message() + "\n\r"
  }

  /**
   * What send writes: the status line, the length line, an empty line, the body and
   * a final line terminator; every terminator is "\n\r". The frame is the
   * concatenation of its pieces, in the order they are written.
   */
  function Frame(st: Status, body: string): (f: string)
    ensures StatusLine(st) <= f
    ensures |f| >= |body| + 2 && f[|f| - |body| - 2..] == body + "\n\r"
  {
    FramePieces(st, body);
    Concat([Decimal(st.Code()), " ", st.Message(), "\n\r", "Length: ", Decimal(Utf16Length(body)), "\n\r", "\n\r", body, "\n\r"])
  }

  /** The frame's pieces, concatenated, start with the status line and end with the body and a terminator. */
  lemma FramePieces(st: Status, body: string)
    ensures var c := Concat([Decimal(st.Code()), " ", st.Message(), "\n\r", "Length: ", Decimal(Utf16Length(body)), "\n\r", "\n\r", body, "\n\r"]);
      && StatusLine(st) <= c
      && |c| >= |body| + 2 && c[|c| - |body| - 2..] == body + "\n\r"
  {
    var code, msg, len := Decimal(st.Code()), st.Message(), Decimal(Utf16Length(body));
    ConcatFramePieces(code, " ", msg, "\n\r", "Length: ", len, "\n\r", "\n\r", body, "\n\r");
    var p4 := code + " " + msg + "\n\r";
    var p5 := p4 + "Length: ";
    var p6 := p5 + len;
    var p7 := p6 + "\n\r";
    var p8 := p7 + "\n\r";
    var p9 := p8 + body;
    var c := p9 + "\n\r";
    PrefixExtends(p4, p4, "Length: ");
    PrefixExtends(p4, p5, len);
    PrefixExtends(p4, p6, "\n\r");
    PrefixExtends(p4, p7, "\n\r");
    PrefixExtends(p4, p8, body);
    PrefixExtends(p4, p9, "\n\r");
    assert c[|p8|..] == body + "\n\r";
  }

  /** A prefix stays a prefix when the longer string grows. */
  lemma PrefixExtends(a: string, b: string, x: string)
    requires a <= b
    ensures a <= b + x
  {
    assert (b + x)[..|a|] == b[..|a|];
  }

  /** The pieces, one after the other. */
  function Concat(ws: seq<string>): string {
    if ws == [] then [] else Concat(ws[..|ws| - 1]) + ws[|ws| - 1]
  }

  /** The ten pieces of a frame, concatenated, are their plain concatenation. */
  lemma ConcatFramePieces(a: string, b: string, c: string, d: string, e: string,
                 f: string, g: string, h: string, i: string, j: string)
    ensures Concat([a, b, c, d, e, f, g, h, i, j]) == a + b + c + d + e + f + g + h + i + j
  {
    var ws := [a, b, c, d, e, f, g, h, i, j];
    assert ws[..0] == [];
    ConcatStep(ws, 0);
    ConcatStep(ws, 1);
    ConcatStep(ws, 2);
    ConcatStep(ws, 3);
    ConcatStep(ws, 4);
    ConcatStep(ws, 5);
    ConcatStep(ws, 6);
    ConcatStep(ws, 7);
    ConcatStep(ws, 8);
    ConcatStep(ws, 9);
    assert ws[..10] == ws;
  }

  /** Concatenating one more piece. */
  lemma ConcatStep(ws: seq<string>, k: nat)
    requires k < |ws|
    ensures Concat(ws[..k + 1]) == Concat(ws[..k]) + ws[k]
  {
    assert ws[..k + 1][..k] == ws[..k];
  }

  /** The frame, regrouped as a reader consumes it. */
  lemma FrameText(st: Status, body: string, rest: string)
    ensures Frame(st, body) + rest
         == StatusLine(st) + ("Length: " + (Decimal(Utf16Length(body)) + ("\n\r" + ("\n\r" + (body + ("\n\r" + rest))))))
  {
    var code, msg, len := Decimal(st.Code()), st.Message(), Decimal(Utf16Length(body));
    ConcatFramePieces(code, " ", msg, "\n\r", "Length: ", len, "\n\r", "\n\r", body, "\n\r");
    RegroupFrame(code, " ", msg, "\n\r", "Length: ", len, "\n\r", body, rest);
  }

  /** The pieces of a frame followed by a stream, grouped from the right as a reader takes them. */
  lemma RegroupFrame(a: string, b: string, c: string, nl: string, e: string, f: string, nl2: string, body: string, rest: string)
    ensures (a + b + c + nl + e + f + nl2 + nl2 + body + nl2) + rest
         == a + b + c + nl + (e + (f + (nl2 + (nl2 + (body + (nl2 + rest))))))
  {
  }

  /** A frame read off the front of a stream: its status, its body and what follows it. */
  datatype ParsedFrame = ParsedFrame(status: Status, body: string, rest: string)

  /** s without the prefix p, if s starts with p. */
  function Expect(p: string, s: string): (r: Option<string>)
    ensures r.Some? <==> p <= s
    ensures r.Some? ==> s == p + r.value
  {
    if p <= s then Some(s[|p|..]) else None
  }

  /** A decimal number at the front of s, and the rest of s. */
  function ReadNumber(s: string): Option<(nat, string)> {
    var n := DigitRun(s);
    if n == 0 then None else Some((DigitsValue(s[..n]), s[n..]))
  }

  /** The status whose status line starts s, and the rest of s. */
  function ReadStatus(s: string): Option<(Status, string)> {
    if StatusLine(Ok) <= s then Some((Ok, s[|StatusLine(Ok)|..]))
    else if StatusLine(Forbidden) <= s then Some((Forbidden, s[|StatusLine(Forbidden)|..]))
    else if StatusLine(NotFound) <= s then Some((NotFound, s[|StatusLine(NotFound)|..]))
    else if StatusLine(InternalServerError) <= s then
      Some((InternalServerError, s[|StatusLine(InternalServerError)|..]))
    else None
  }

  /**
   * A client's reading of one response off the front of a stream: the status line,
   * the length line, the empty line, then exactly `Length` UTF-16 code units of body and a
   * line terminator. The body may itself contain line terminators.
   */
  function ReadFrame(s: string): Option<ParsedFrame> {
    match ReadStatus(s)
    case None => None
    case Some((st, s1)) =>
      match Expect("Length: ", s1)
      case None => None
      case Some(s2) =>
        match ReadNumber(s2)
        case None => None
        case Some((len, s3)) => ReadBody(st, len, s3)
  }

  /** After the number of the length line: its terminator, the empty line, `len` code units of body and a terminator. */
  function ReadBody(st: Status, len: nat, s: string): Option<ParsedFrame> {
    match Expect("\n\r", s)
    case None => None
    case Some(s3) =>
      match Expect("\n\r", s3)
      case None => None
      case Some(s4) =>
        match UnitPrefix(s4, len)
        case None => None
        case Some(k) =>
          match Expect("\n\r", s4[k..])
          case None => None
          case Some(s5) => Some(ParsedFrame(st, s4[..k], s5))
  }

  /** The three-digit codes as they appear on the wire. */
  lemma CodeDigits()
    ensures Decimal(200) == "200" && Decimal(403) == "403"
    ensures Decimal(404) == "404" && Decimal(500) == "500"
  {
    assert Decimal(2) == "2" && Decimal(4) == "4" && Decimal(5) == "5";
    assert Decimal(20) == "20" && Decimal(40) == "40" && Decimal(50) == "50";
  }

  /** The status lines as they appear on the wire. */
  lemma StatusLines()
    ensures StatusLine(Ok) == "200 OK\n\r"
    ensures StatusLine(Forbidden) == "403 Forbidden\n\r"
    ensures StatusLine(NotFound) == "404 Not Found\n\r"
    ensures StatusLine(InternalServerError) == "500 Internal Server Error\n\r"
  {
    OkLine();
    ForbiddenLine();
    NotFoundLine();
    InternalServerErrorLine();
  }

  lemma OkLine() ensures StatusLine(Ok) == "200 OK\n\r" {
    CodeDigits();
  }

  lemma ForbiddenLine() ensures StatusLine(Forbidden) == "403 Forbidden\n\r" {
    CodeDigits();
  }

  lemma NotFoundLine() ensures StatusLine(NotFound) == "404 Not Found\n\r" {
    CodeDigits();
  }

  lemma InternalServerErrorLine() ensures StatusLine(InternalServerError) == "500 Internal Server Error\n\r" {
    CodeDigits();
  }

  /** The status line identifies the status: reading it back gives the same status. */
  lemma ReadStatusLine(st: Status, t: string)
    ensures ReadStatus(StatusLine(st) + t) == Some((st, t))
  {
    StatusLines();
    var s := StatusLine(st) + t;
    assert s[..|StatusLine(st)|] == StatusLine(st);
    assert s[|StatusLine(st)|..] == t;
    assert s[0] == StatusLine(st)[0] && s[2] == StatusLine(st)[2];
  }

  /** A digit run is determined by where the first non-digit stands. */
  lemma {:induction false} DigitRunExact(s: string, m: nat)
    requires m <= |s|
    requires forall i :: 0 <= i < m ==> IsDigit(s[i])
    requires m < |s| ==> !IsDigit(s[m])
    ensures DigitRun(s) == m
  {
    if m > 0 {
      DigitRunExact(s[1..], m - 1);
    }
  }

  /** A printed number, followed by a non-digit, reads back as itself. */
  lemma ReadNumberDecimal(n: nat, t: string)
    requires t == [] || !IsDigit(t[0])
    ensures ReadNumber(Decimal(n) + t) == Some((n, t))
  {
    var d := Decimal(n);
    var s := d + t;
    DecimalDigits(n);
    DigitRunExact(s, |d|);
    assert s[..|d|] == d && s[|d|..] == t;
    DecimalValue(n);
  }

  lemma ReadBodyRoundTrip(st: Status, body: string, rest: string)
    ensures ReadBody(st, Utf16Length(body), "\n\r" + ("\n\r" + (body + ("\n\r" + rest))))
         == Some(ParsedFrame(st, body, rest))
  {
    var s4 := body + ("\n\r" + rest);
    UnitPrefixOf(body, "\n\r" + rest);
    assert s4[..|body|] == body;
    assert s4[|body|..] == "\n\r" + rest;
  }

  /**
   * The frame is self-delimiting: a client reading a frame off the front of the
   * stream gets back the status and the exact body, and the stream after it.
   */
  lemma ReadFrameRoundTrip(st: Status, body: string, rest: string)
    ensures ReadFrame(Frame(st, body) + rest) == Some(ParsedFrame(st, body, rest))
  {
    var s3 := "\n\r" + ("\n\r" + (body + ("\n\r" + rest)));
    var s2 := Decimal(Utf16Length(body)) + s3;
    var s1 := "Length: " + s2;
    FrameText(st, body, rest);
    ReadStatusLine(st, s1);
    assert Expect("Length: ", s1) == Some(s2);
    ReadNumberDecimal(Utf16Length(body), s3);
    ReadBodyRoundTrip(st, body, rest);
  }

  // ---------------------------------------------------------------------------
  // The response object
  // ---------------------------------------------------------------------------

  /**
   * A response under construction. `status` and `message` become null (None) once
   * send has written the frame; `finished` is set before the write, so a failed
   * write leaves a finished response that still holds its status and body.
   */
  class QueryResponse {
    const output: Socket
    var finished: bool
    var status: Option<Status>
    var message: Option<string>

    ghost predicate Valid()
      reads this
    {
      && (!finished ==> status.Some? && message.Some?)
      && (status.None? <==> message.None?)
    }

    /** A fresh response: status OK, empty body, not finished (the constructor calls reset). */
    constructor (output: Socket)
      ensures Valid() && this.output == output
      ensures !finished && status == Some(Ok) && message == Some([])
    {
      this.output := output;
      finished := false;
      status := Some(Ok);
      message := Some([]);
    }

    /** Appends str to the body; the buffer is null after a completed send. */
    method Print(str: string)
      requires Valid() && message.Some?
      modifies this
      ensures Valid()
      ensures message == Some(old(message.value) + str)
      ensures finished == old(finished) && status == old(status)
    {
      message := Some(message.value + str);
    }

    /** Appends a line terminator to the body (printLine()). */
    method EndLine()
      requires Valid() && message.Some?
      modifies this
      ensures Valid()
      ensures message == Some(old(message.value) + "\n\r")
      ensures finished == old(finished) && status == old(status)
    {
      Print("\n\r");
    }

    /** Appends str and a line terminator to the body (printLine(String)). */
    method PrintLine(str: string)
      requires Valid() && message.Some?
      modifies this
      ensures Valid()
      ensures message == Some(old(message.value) + str + "\n\r")
      ensures finished == old(finished) && status == old(status)
    {
      Print(str);
      EndLine();
    }

    method GetContent() returns (content: string)
      requires message.Some?
      ensures content == message.value
    {
      content := message.value;
    }

    method GetStatus() returns (st: Option<Status>)
      ensures st == status
    {
      st := status;
    }

    /** Changes the status; throws once the response is finished. */
    method SetStatus(st: Status) returns (o: Outcome)
      requires Valid()
      modifies this
      ensures Valid()
      ensures o == if old(finished) then Fail(IllegalState) else Pass
      ensures status == if old(finished) then old(status) else Some(st)
      ensures finished == old(finished) && message == old(message)
    {
      if finished {
        return Fail(IllegalState);
      }
      status := Some(st);
      o := Pass;
    }

    /** Back to status OK with an empty body; throws once the response is finished. */
    method Reset() returns (o: Outcome)
      requires Valid()
      modifies this
      ensures Valid()
      ensures o == if old(finished) then Fail(IllegalState) else Pass
      ensures old(finished) ==> status == old(status) && message == old(message)
      ensures !old(finished) ==> status == Some(Ok) && message == Some([])
      ensures finished == old(finished)
    {
      if finished {
        return Fail(IllegalState);
      }
      status := Some(Ok);
      message := Some([]);
      o := Pass;
    }

    /**
     * Writes the frame of the status and body to the connection. Succeeds at most
     * once: a second call throws and writes nothing. The response is finished
     * afterwards whether or not the write succeeded.
     */
    method Send() returns (o: Outcome)
      requires Valid()
      modifies this, output
      ensures Valid() && finished
      ensures output.pending == old(output.pending) && output.closed == old(output.closed)
      ensures old(finished) ==> o == Fail(IllegalState)
      ensures old(finished) ==>
                status == old(status) && message == old(message) && output.written == old(output.written)
      ensures !old(finished) && old(output.closed) ==>
                o == Fail(IOFailure) && output.written == old(output.written)
                && status == old(status) && message == old(message)
      ensures !old(finished) && !old(output.closed) ==>
                o == Pass && status == None && message == None
                && output.written == old(output.written) + Frame(old(status).value, old(message).value)
    {
      if finished {
        return Fail(IllegalState);
      }
      finished := true;
      var body := message.value;
      var st := status.value;
      o := output.Write(Frame(st, body));
      if o.Fail? {
        return;
      }
      status := None;
      message := None;
    }
  }
}
