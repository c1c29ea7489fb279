/**
 * The hand-rolled LMTP client of `script/activitypub-send.py`: the reply parser
 * `_read_reply` and the dialogue `send_via_lmtp` (RFC 2033, replies as in section
 * 4.2.1 of RFC 5321).
 *
 * The connected socket is a script of what successive `readline()` calls meet: a
 * line, or a timeout. Once the script is used up the server has closed the
 * connection and `readline()` returns an empty line. Every write is recorded.
 * Connecting (socket path or host and port, the 3-second timeout) is not part of
 * this model: it starts from an open connection.
 */
module LmtpClient {
  import opened Wrappers
  import opened Text

  /** What one `readline()` on the connection meets. */
  datatype Event = Line(raw: string) | Timeout

  /**
   * The client's view of one connection:
   * - `pending`: what the server will still deliver; when empty, reads see end of file,
   * - `timedOut`: a read has timed out; Python's socket file object then refuses
   *   every later read,
   * - `writable`: how many more writes the peer accepts before writes fail,
   * - `written`: every write so far, in order.
   */
  datatype Link = Link(pending: seq<Event>, timedOut: bool, writable: nat, written: seq<string>)

  /** Why an exchange failed; each one is an exception in the source. */
  datatype Fault =
    | EmptyReply                                // "LMTP: empty reply"
    | InvalidReply(first: string)               // "LMTP: invalid reply"
    | TruncatedReply                            // "unexpected EOF in multiline reply"
    | UnexpectedCode(code: int, expected: int)  // "unexpected code ..., expected ..."
    | UnexpectedGreeting(code: int)             // "unexpected code after LHLO"
    | ReadTimedOut                              // socket.timeout
    | ReadAfterTimeout                          // "cannot read from timed out object"
    | WriteFailed                               // a write or flush raised

  /** A parsed reply: its code and every line read, stripped, in order. */
  datatype Reply = Reply(code: int, lines: seq<string>)

  /** The outcome of one operation and the connection afterwards. */
  datatype Step<T> = Step(result: Result<T, Fault>, link: Link)

  const Lhlo := "LHLO localhost\r\n"
  const DataCommand := "DATA\r\n"
  const Quit := "QUIT\r\n"

  function MailFrom(address: string): string { "MAIL FROM:<" + address + ">\r\n" }

  function RcptTo(address: string): string { "RCPT TO:<" + address + ">\r\n" }

  /** The message followed by the end-of-data line (no dot-stuffing is done). */
  function Body(message: string): string { message + "\r\n.\r\n" }

  // ---------------------------------------------------------------------------
  // Reading and writing

  /** `s_file.readline().decode(errors="replace").strip()` */
  function NextLine(l: Link): (s: Step<string>)
    ensures s.link.written == l.written && s.link.writable == l.writable
    ensures |s.link.pending| <= |l.pending|
    ensures s.result.Success? && s.result.value != "" ==> |s.link.pending| < |l.pending| && !s.link.timedOut
  {
    if l.timedOut then Step(Failure(ReadAfterTimeout), l)
    else if l.pending == [] then Step(Success(""), l)
    else match l.pending[0]
      case Timeout => Step(Failure(ReadTimedOut), l.(pending := l.pending[1..], timedOut := true))
      case Line(raw) => Step(Success(Strip(raw)), l.(pending := l.pending[1..]))
  }

  /** `s_file.write(data); s_file.flush()` */
  function WriteLine(l: Link, data: string): (s: Step<()>)
    ensures s.link.pending == l.pending && s.link.timedOut == l.timedOut
    ensures s.result.Success? <==> l.writable > 0
    ensures s.link.written == if l.writable > 0 then l.written + [data] else l.written
  {
    if l.writable == 0 then Step(Failure(WriteFailed), l)
    else Step(Success(()), l.(writable := l.writable - 1, written := l.written + [data]))
  }

  // ---------------------------------------------------------------------------
  // `_read_reply`

  /** `first[3:4] == "-"`: the reply goes on after its first line. */
  predicate Continues(first: string) {
    |first| >= 4 && first[3] == '-'
  }

  /** `f"{code}-"`: the prefix every continuation line but the last carries. */
  function ContinuationPrefix(code: int): string {
    IntToString(code) + "-"
  }

  /** The loop of `_read_reply` after the first line. */
  function ReadContinuation(l: Link, code: int, lines: seq<string>): (s: Step<Reply>)
    ensures s.link.written == l.written && s.link.writable == l.writable
    ensures s.result.Success? ==> s.result.value.code == code && |s.result.value.lines| > |lines|
                                  && s.result.value.lines[..|lines|] == lines
    decreases |l.pending|
  {
    var s := NextLine(l);
    if s.result.Failure? then Step(Failure(s.result.error), s.link)
    else if s.result.value == "" then Step(Failure(TruncatedReply), s.link)
    else
      var line := s.result.value;
      if StartsWith(line, ContinuationPrefix(code)) then ReadContinuation(s.link, code, lines + [line])
      else Step(Success(Reply(code, lines + [line])), s.link)
  }

  /** Fail with the code a complete reply carried when it is not the one expected. */
  function CheckCode(s: Step<Reply>, expected: Option<int>): Step<Reply>
  {
    if s.result.Success? && expected.Some? && s.result.value.code != expected.value
    then Step(Failure(UnexpectedCode(s.result.value.code, expected.value)), s.link)
    else s
  }

  /** `_read_reply(s_file, expected)` */
  function ParseReply(l: Link, expected: Option<int>): (s: Step<Reply>)
    ensures s.link.written == l.written && s.link.writable == l.writable
  {
    var s := NextLine(l);
    if s.result.Failure? then Step(Failure(s.result.error), s.link)
    else
      var first := s.result.value;
      if first == "" then Step(Failure(EmptyReply), s.link)
      else match ParseInt(Take(first, 3))
        case None => Step(Failure(InvalidReply(first)), s.link)
        case Some(code) =>
          var whole := if Continues(first) then ReadContinuation(s.link, code, [first])
                       else Step(Success(Reply(code, [first])), s.link);
          CheckCode(whole, expected)
  }

  // ---------------------------------------------------------------------------
  // `send_via_lmtp`

  /** Write a command and read the reply to it. */
  function Exchange(l: Link, data: string, expected: Option<int>): (s: Step<Reply>)
    ensures s.link.written == if l.writable > 0 then l.written + [data] else l.written
    ensures s.result.Success? ==> l.writable > 0
  {
    var w := WriteLine(l, data);
    if w.result.Failure? then Step(Failure(w.result.error), w.link)
    else ParseReply(w.link, expected)
  }

  /** Keep only whether a step succeeded. */
  function Done<T>(s: Step<T>): Step<()>
  {
    match s.result
    case Success(_) => Step(Success(()), s.link)
    case Failure(f) => Step(Failure(f), s.link)
  }

  /**
   * The greeting once the banner probe `probe` is done: after a 220 banner one LHLO
   * must be answered with 250; otherwise LHLO is sent blind on `resume`, and its
   * reply must be 250, or 220 followed by a second LHLO answered with 250.
   */
  function GreetAfterProbe(probe: Step<Reply>, resume: Link): Step<()>
  {
    if probe.result.Success? && probe.result.value.code == 220 then
      Done(Exchange(probe.link, Lhlo, Some(250)))
    else
      var blind := Exchange(resume, Lhlo, None);
      if blind.result.Failure? then Done(blind)
      else if blind.result.value.code == 220 then Done(Exchange(blind.link, Lhlo, Some(250)))
      else if blind.result.value.code == 250 then Step(Success(()), blind.link)
      else Step(Failure(UnexpectedGreeting(blind.result.value.code)), blind.link)
  }

  /** The greeting as the source runs it: a timed-out probe leaves the socket file
      refusing every later read. */
  function GreetingAsWritten(l: Link): Step<()>
  {
    var probe := ParseReply(l, None);
    GreetAfterProbe(probe, probe.link)
  }

  /** The greeting as intended: waiting for a banner that does not come leaves the
      connection usable for the blind LHLO. */
  function Greeting(l: Link): Step<()>
  {
    var probe := ParseReply(l, None);
    GreetAfterProbe(probe, probe.link.(timedOut := l.timedOut))
  }

  /** A command and the reply code it must draw. */
  datatype Request = Request(data: string, expected: int)

  /** Send the requests in order, each reply checked against its own code; the first
      failure ends the exchange. */
  function Converse(l: Link, requests: seq<Request>): Step<()>
    decreases |requests|
  {
    if requests == [] then Step(Success(()), l)
    else
      var x := Exchange(l, requests[0].data, Some(requests[0].expected));
      if x.result.Failure? then Done(x) else Converse(x.link, requests[1..])
  }

  /** MAIL FROM, RCPT TO, DATA and the body, to be answered 250, 250, 354 and 250. */
  function TransactionRequests(message: string, from: string, to: string): seq<Request>
  {
    [Request(MailFrom(from), 250), Request(RcptTo(to), 250), Request(DataCommand, 354), Request(Body(message), 250)]
  }

  /** The transaction after the greeting; then a QUIT whose outcome is ignored. */
  function Transaction(l: Link, message: string, from: string, to: string): Step<()>
  {
    var sent := Converse(l, TransactionRequests(message, from, to));
    if sent.result.Failure? then sent
    else Step(Success(()), Exchange(sent.link, Quit, Some(221)).link)
  }

  /** `send_via_lmtp` on an open connection, as the source is written. */
  function DialogueAsWritten(l: Link, message: string, from: string, to: string): Step<()>
  {
    var g := GreetingAsWritten(l);
    if g.result.Failure? then g else Transaction(g.link, message, from, to)
  }

  /** `send_via_lmtp` on an open connection, with the banner fallback working as intended. */
  function Dialogue(l: Link, message: string, from: string, to: string): Step<()>
  {
    var g := Greeting(l);
    if g.result.Failure? then g else Transaction(g.link, message, from, to)
  }

  /** The corrected greeting differs from the source only when the banner probe
      itself times out: otherwise the two are the same step. */
  lemma GreetingAgrees(l: Link)
    ensures ParseReply(l, None).link.timedOut == l.timedOut ==> GreetingAsWritten(l) == Greeting(l)
  {
  }

  /** The same for the whole delivery dialogue. */
  lemma DialogueAgrees(l: Link, message: string, from: string, to: string)
    ensures ParseReply(l, None).link.timedOut == l.timedOut ==>
              DialogueAsWritten(l, message, from, to) == Dialogue(l, message, from, to)
  {
    GreetingAgrees(l);
  }

  // ---------------------------------------------------------------------------
  // The connection object

  class Connection {
    var pending: seq<Event>
    var timedOut: bool
    var writable: nat
    var written: seq<string>

    function State(): Link
      reads this
    {
      Link(pending, timedOut, writable, written)
    }

    /** A freshly connected socket whose server will behave as `script` says. */
    constructor (script: seq<Event>, writable: nat)
      ensures State() == Link(script, false, writable, [])
    {
      pending, timedOut, this.writable, written := script, false, writable, [];
    }

    method ReadLine() returns (r: Result<string, Fault>)
      modifies this
      ensures Step(r, State()) == NextLine(old(State()))
    {
      if timedOut {
        return Failure(ReadAfterTimeout);
      }
      if pending == [] {
        return Success("");
      }
      match pending[0]
      case Timeout =>
        pending, timedOut := pending[1..], true;
        r := Failure(ReadTimedOut);
      case Line(raw) =>
        pending := pending[1..];
        r := Success(Strip(raw));
    }

    method Write(data: string) returns (r: Result<(), Fault>)
      modifies this
      ensures Step(r, State()) == WriteLine(old(State()), data)
    {
      if writable == 0 {
        return Failure(WriteFailed);
      }
      writable, written := writable - 1, written + [data];
      r := Success(());
    }

    /** `_read_reply(s_file, expected)` */
    method ReadReply(expected: Option<int>) returns (r: Result<Reply, Fault>)
      modifies this
      ensures Step(r, State()) == ParseReply(old(State()), expected)
    {
      var firstRead := ReadLine();
      if firstRead.Failure? {
        return Failure(firstRead.error);
      }
      var first := firstRead.value;
      if first == "" {
        return Failure(EmptyReply);
      }
      var parsed := ParseInt(Take(first, 3));
      if parsed.None? {
        return Failure(InvalidReply(first));
      }
      var code := parsed.value;
      var lines := [first];
      var cont := Continues(first);
      ghost var afterFirst := State();
      while cont
        invariant lines != [] && lines[0] == first
        invariant (if Continues(first) then ReadContinuation(afterFirst, code, [first])
                   else Step(Success(Reply(code, [first])), afterFirst))
                  == (if cont then ReadContinuation(State(), code, lines)
                      else Step(Success(Reply(code, lines)), State()))
        decreases |pending|, cont
      {
        var next := ReadLine();
        if next.Failure? {
          return Failure(next.error);
        }
        var line := next.value;
        if line == "" {
          return Failure(TruncatedReply);
        }
        lines := lines + [line];
        cont := StartsWith(line, ContinuationPrefix(code));
      }
      if expected.Some? && code != expected.value {
        return Failure(UnexpectedCode(code, expected.value));
      }
      r := Success(Reply(code, lines));
    }

    /** Write a command and read its reply. */
    method Command(data: string, expected: Option<int>) returns (r: Result<Reply, Fault>)
      modifies this
      ensures Step(r, State()) == Exchange(old(State()), data, expected)
    {
      var w := Write(data);
      if w.Failure? {
        return Failure(w.error);
      }
      r := ReadReply(expected);
    }

    /** The banner probe and the greeting, with the fallback working as intended. */
    method Greet() returns (r: Result<(), Fault>)
      modifies this
      ensures Step(r, State()) == Greeting(old(State()))
      ensures ParseReply(old(State()), None).link.timedOut == old(timedOut) ==>
                Step(r, State()) == GreetingAsWritten(old(State()))
    {
      GreetingAgrees(State());
      var wasTimedOut := timedOut;
      var probe := ReadReply(None);
      if probe.Success? && probe.value.code == 220 {
        var ack := Command(Lhlo, Some(250));
        r := if ack.Success? then Success(()) else Failure(ack.error);
        return;
      }
      // A missing or unusable banner is swallowed; the connection stays usable.
      timedOut := wasTimedOut;
      var blind := Command(Lhlo, None);
      if blind.Failure? {
        return Failure(blind.error);
      }
      if blind.value.code == 220 {
        var ack := Command(Lhlo, Some(250));
        r := if ack.Success? then Success(()) else Failure(ack.error);
      } else if blind.value.code == 250 {
        r := Success(());
      } else {
        r := Failure(UnexpectedGreeting(blind.value.code));
      }
    }

    /** `send_via_lmtp` on this connection. */
    method SendViaLmtp(message: string, from: string, to: string) returns (r: Result<(), Fault>)
      modifies this
      ensures Step(r, State()) == Dialogue(old(State()), message, from, to)
      ensures ParseReply(old(State()), None).link.timedOut == old(timedOut) ==>
                Step(r, State()) == DialogueAsWritten(old(State()), message, from, to)
    {
      DialogueAgrees(State(), message, from, to);
      r := Greet();
      if r.Failure? {
        return;
      }
      ghost var requests := TransactionRequests(message, from, to);
      ghost var greeted := State();
      assert Converse(greeted, requests) == Converse(greeted, requests[0..]);
      var mail := Command(MailFrom(from), Some(250));
      if mail.Failure? {
        return Failure(mail.error);
      }
      assert Converse(greeted, requests) == Converse(State(), requests[1..]);
      var rcpt := Command(RcptTo(to), Some(250));
      if rcpt.Failure? {
        return Failure(rcpt.error);
      }
      assert Converse(greeted, requests) == Converse(State(), requests[2..]);
      var data := Command(DataCommand, Some(354));
      if data.Failure? {
        return Failure(data.error);
      }
      assert Converse(greeted, requests) == Converse(State(), requests[3..]);
      var body := Command(Body(message), Some(250));
      if body.Failure? {
        return Failure(body.error);
      }
      assert Converse(greeted, requests) == Converse(State(), requests[4..]);
      // QUIT is best effort: whatever happens to it, the delivery stands.
      var _ := Command(Quit, Some(221));
      r := Success(());
    }
  }
}
