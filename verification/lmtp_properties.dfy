/**
 * What the LMTP client of `script/activitypub-send.py` guarantees: how a reply is
 * read, how the greeting falls back when no banner is seen, and which commands a
 * successful delivery writes.
 */
module LmtpProperties {
  import opened Wrappers
  import opened Text
  import opened LmtpClient

  /** A raw line that reads as a complete one-line reply carrying `code`. */
  predicate OneLineReply(raw: string, code: int) {
    var t := Strip(raw);
    && |t| >= 3 && IsDigit(t[0]) && IsDigit(t[1]) && IsDigit(t[2])
    && code == 100 * DigitValue(t[0]) + 10 * DigitValue(t[1]) + DigitValue(t[2])
    && !Continues(t)
  }

  /** The events a server sends for these raw lines. */
  function Lines(raws: seq<string>): (es: seq<Event>)
    ensures |es| == |raws|
  {
    if raws == [] then [] else [Line(raws[0])] + Lines(raws[1..])
  }

  /** The lines as the client keeps them. */
  function Stripped(raws: seq<string>): (ls: seq<string>)
    ensures |ls| == |raws|
  {
    if raws == [] then [] else [Strip(raws[0])] + Stripped(raws[1..])
  }

  /** The commands of one mail transaction, after the greeting. */
  function TransactionCommands(message: string, from: string, to: string): seq<string> {
    [MailFrom(from), RcptTo(to), DataCommand, Body(message)]
  }

  /** The commands of these requests, in order. */
  function Sent(requests: seq<Request>): (ws: seq<string>)
    ensures |ws| == |requests|
  {
    if requests == [] then [] else [requests[0].data] + Sent(requests[1..])
  }

  lemma SentTransaction(message: string, from: string, to: string)
    ensures Sent(TransactionRequests(message, from, to)) == TransactionCommands(message, from, to)
  {
    var rs := TransactionRequests(message, from, to);
    assert Sent(rs[3..]) == [Body(message)] by {
      assert rs[3..][1..] == [];
    }
    assert Sent(rs[2..]) == [DataCommand, Body(message)] by {
      assert rs[2..][1..] == rs[3..];
    }
    assert Sent(rs[1..]) == [RcptTo(to), DataCommand, Body(message)] by {
      assert rs[1..][1..] == rs[2..];
    }
  }

  // ---------------------------------------------------------------------------
  // Reading one reply

  /** An end of file, or a first line of nothing but whitespace, is an empty reply. */
  lemma EmptyFirstLineFails(l: Link, expected: Option<int>)
    requires !l.timedOut
    requires l.pending == [] || (l.pending[0].Line? && forall i :: 0 <= i < |l.pending[0].raw| ==> IsSpace(l.pending[0].raw[i]))
    ensures ParseReply(l, expected).result == Failure(EmptyReply)
  {
    if l.pending != [] {
      StripSpec(l.pending[0].raw);
    }
  }

  /** Reading from a script that starts with a line yields that line, stripped. */
  lemma NextLineOf(raw: string, rest: seq<Event>, w: nat, t: seq<string>)
    ensures NextLine(Link([Line(raw)] + rest, false, w, t)) == Step(Success(Strip(raw)), Link(rest, false, w, t))
  {
    var l := Link([Line(raw)] + rest, false, w, t);
    assert l.pending[0] == Line(raw) && l.pending[1..] == rest;
  }

  /** When the first three characters are digits, the code is the number they spell,
      and the reply is neither empty nor invalid. */
  lemma FirstThreeDigitsAreTheCode(raw: string, rest: seq<Event>, w: nat, t: seq<string>, expected: Option<int>)
    requires var f := Strip(raw); |f| >= 3 && IsDigit(f[0]) && IsDigit(f[1]) && IsDigit(f[2])
    ensures var f := Strip(raw);
            var s := ParseReply(Link([Line(raw)] + rest, false, w, t), expected);
            && s.result != Failure(EmptyReply) && s.result != Failure(InvalidReply(f))
            && (s.result.Success? ==> s.result.value.code == 100 * DigitValue(f[0]) + 10 * DigitValue(f[1]) + DigitValue(f[2]))
  {
    NextLineOf(raw, rest, w, t);
    var f := Strip(raw);
    ParseThreeDigits(Take(f, 3));
    assert Take(f, 3) == f[..3];
    var code := 100 * DigitValue(f[0]) + 10 * DigitValue(f[1]) + DigitValue(f[2]);
    var next := Link(rest, false, w, t);
    ContinuationNeverJudgesCode(next, code, [f]);
    var whole := if Continues(f) then ReadContinuation(next, code, [f]) else Step(Success(Reply(code, [f])), next);
    assert ParseReply(Link([Line(raw)] + rest, false, w, t), expected) == CheckCode(whole, expected);
  }

  /** A first line whose first three characters hold no digit is an invalid reply,
      and only that line is consumed. */
  lemma NonNumericCodeFails(raw: string, rest: seq<Event>, w: nat, t: seq<string>, expected: Option<int>)
    requires Strip(raw) != []
    requires var p := Take(Strip(raw), 3); forall i :: 0 <= i < |p| ==> !IsDigit(p[i])
    ensures ParseReply(Link([Line(raw)] + rest, false, w, t), expected)
            == Step(Failure(InvalidReply(Strip(raw))), Link(rest, false, w, t))
  {
    NextLineOf(raw, rest, w, t);
    ParseRejectsNoDigits(Take(Strip(raw), 3));
  }

  /** A reply whose fourth character is not `-` is that one line. */
  lemma ReadsOneLine(raw: string, code: int, rest: seq<Event>, w: nat, t: seq<string>, expected: Option<int>)
    requires OneLineReply(raw, code)
    ensures ParseReply(Link([Line(raw)] + rest, false, w, t), expected)
            == Step(if expected.Some? && expected.value != code then Failure(UnexpectedCode(code, expected.value))
                    else Success(Reply(code, [Strip(raw)])),
                    Link(rest, false, w, t))
  {
    NextLineOf(raw, rest, w, t);
    ParseThreeDigits(Take(Strip(raw), 3));
  }

  /** A line carrying the `code-` prefix is kept and the loop reads on. */
  lemma ContinuationStep(raw: string, rest: seq<Event>, w: nat, t: seq<string>, code: int, lines: seq<string>)
    requires StartsWith(Strip(raw), ContinuationPrefix(code))
    ensures ReadContinuation(Link([Line(raw)] + rest, false, w, t), code, lines)
            == ReadContinuation(Link(rest, false, w, t), code, lines + [Strip(raw)])
  {
    NextLineOf(raw, rest, w, t);
    assert |ContinuationPrefix(code)| > 0;
  }

  /** A non-empty line without the `code-` prefix ends the reply. */
  lemma ContinuationEnds(last: string, rest: seq<Event>, w: nat, t: seq<string>, code: int, lines: seq<string>)
    requires Strip(last) != "" && !StartsWith(Strip(last), ContinuationPrefix(code))
    ensures ReadContinuation(Link([Line(last)] + rest, false, w, t), code, lines)
            == Step(Success(Reply(code, lines + [Strip(last)])), Link(rest, false, w, t))
  {
    NextLineOf(last, rest, w, t);
  }

  lemma StrippedCons(lines: seq<string>, raws: seq<string>)
    requires raws != []
    ensures lines + [Strip(raws[0])] + Stripped(raws[1..]) == lines + Stripped(raws)
  {
    assert Stripped(raws) == [Strip(raws[0])] + Stripped(raws[1..]);
  }

  /** Continuation lines are read up to and including the first line that does not
      carry the `code-` prefix; every line is kept, in order. */
  lemma {:induction false} ContinuationReadsAll(
    raws: seq<string>, last: string, rest: seq<Event>, w: nat, t: seq<string>, code: int, lines: seq<string>)
    requires forall i :: 0 <= i < |raws| ==> StartsWith(Strip(raws[i]), ContinuationPrefix(code))
    requires Strip(last) != "" && !StartsWith(Strip(last), ContinuationPrefix(code))
    ensures ReadContinuation(Link(Lines(raws) + [Line(last)] + rest, false, w, t), code, lines)
            == Step(Success(Reply(code, lines + Stripped(raws) + [Strip(last)])), Link(rest, false, w, t))
  {
    if raws == [] {
      assert Lines(raws) + [Line(last)] + rest == [Line(last)] + rest;
      ContinuationEnds(last, rest, w, t, code, lines);
      assert lines + Stripped(raws) + [Strip(last)] == lines + [Strip(last)];
    } else {
      var after := Lines(raws[1..]) + [Line(last)] + rest;
      assert Lines(raws) + [Line(last)] + rest == [Line(raws[0])] + after;
      ContinuationStep(raws[0], after, w, t, code, lines);
      ContinuationReadsAll(raws[1..], last, rest, w, t, code, lines + [Strip(raws[0])]);
      StrippedCons(lines, raws);
    }
  }

  /** A first line with a three-digit code and `-` as its fourth character hands the
      rest of the reply to the continuation loop. */
  lemma FirstLineContinues(first: string, after: seq<Event>, w: nat, t: seq<string>, code: int, expected: Option<int>)
    requires var f := Strip(first); |f| >= 4 && IsDigit(f[0]) && IsDigit(f[1]) && IsDigit(f[2]) && f[3] == '-'
    requires var f := Strip(first); code == 100 * DigitValue(f[0]) + 10 * DigitValue(f[1]) + DigitValue(f[2])
    ensures ParseReply(Link([Line(first)] + after, false, w, t), expected)
            == CheckCode(ReadContinuation(Link(after, false, w, t), code, [Strip(first)]), expected)
  {
    NextLineOf(first, after, w, t);
    ParseThreeDigits(Take(Strip(first), 3));
  }

  /** A multi-line reply (`code-` on every line but the last) is read whole, every
      line kept in order; the code is judged only once the last line is in. */
  lemma ReadsMultiLine(
    first: string, raws: seq<string>, last: string, rest: seq<Event>, w: nat, t: seq<string>,
    code: int, expected: Option<int>)
    requires var f := Strip(first); |f| >= 4 && IsDigit(f[0]) && IsDigit(f[1]) && IsDigit(f[2]) && f[3] == '-'
    requires var f := Strip(first); code == 100 * DigitValue(f[0]) + 10 * DigitValue(f[1]) + DigitValue(f[2])
    requires forall i :: 0 <= i < |raws| ==> StartsWith(Strip(raws[i]), ContinuationPrefix(code))
    requires Strip(last) != "" && !StartsWith(Strip(last), ContinuationPrefix(code))
    ensures ParseReply(Link([Line(first)] + (Lines(raws) + [Line(last)] + rest), false, w, t), expected)
            == Step(if expected.Some? && expected.value != code then Failure(UnexpectedCode(code, expected.value))
                    else Success(Reply(code, [Strip(first)] + Stripped(raws) + [Strip(last)])),
                    Link(rest, false, w, t))
  {
    var after := Lines(raws) + [Line(last)] + rest;
    FirstLineContinues(first, after, w, t, code, expected);
    ContinuationReadsAll(raws, last, rest, w, t, code, [Strip(first)]);
  }

  /** A multi-line reply cut short, by end of file or by an empty line, is truncated. */
  lemma {:induction false} TruncatedContinuationFails(
    raws: seq<string>, tail: seq<Event>, w: nat, t: seq<string>, code: int, lines: seq<string>)
    requires forall i :: 0 <= i < |raws| ==> StartsWith(Strip(raws[i]), ContinuationPrefix(code))
    requires tail == [] || (tail[0].Line? && Strip(tail[0].raw) == "")
    ensures ReadContinuation(Link(Lines(raws) + tail, false, w, t), code, lines).result == Failure(TruncatedReply)
  {
    if raws == [] {
      assert Lines(raws) + tail == tail;
      if tail != [] {
        NextLineOf(tail[0].raw, tail[1..], w, t);
        assert tail == [Line(tail[0].raw)] + tail[1..];
      }
    } else {
      assert Lines(raws) + tail == [Line(raws[0])] + (Lines(raws[1..]) + tail);
      NextLineOf(raws[0], Lines(raws[1..]) + tail, w, t);
      TruncatedContinuationFails(raws[1..], tail, w, t, code, lines + [Strip(raws[0])]);
    }
  }

  /** An expected code changes nothing but the verdict on a complete reply: the same
      lines are consumed either way. */
  lemma ExpectationOnlyJudgesCode(l: Link, code: int)
    ensures ParseReply(l, Some(code)).link == ParseReply(l, None).link
    ensures ParseReply(l, Some(code)).result
            == match ParseReply(l, None).result
               case Success(r) => if r.code == code then Success(r) else Failure(UnexpectedCode(r.code, code))
               case Failure(f) => Failure(f)
  {
  }

  /** The rest of a multi-line reply never fails on its code. */
  lemma {:induction false} ContinuationNeverJudgesCode(l: Link, code: int, lines: seq<string>)
    ensures var s := ReadContinuation(l, code, lines);
            s.result.Failure? ==> s.result.error in {TruncatedReply, ReadTimedOut, ReadAfterTimeout}
    decreases |l.pending|
  {
    var s := NextLine(l);
    if s.result.Success? && s.result.value != "" && StartsWith(s.result.value, ContinuationPrefix(code)) {
      ContinuationNeverJudgesCode(s.link, code, lines + [s.result.value]);
    }
  }

  /** Without an expected code no code is ever a failure. */
  lemma NoExpectationAcceptsAnyCode(l: Link)
    ensures !(ParseReply(l, None).result.Failure? && ParseReply(l, None).result.error.UnexpectedCode?)
  {
    var s := NextLine(l);
    if s.result.Success? && s.result.value != "" {
      ContinuationNeverJudgesCode(s.link, 0, []);
      match ParseInt(Take(s.result.value, 3))
      case None =>
      case Some(code) =>
        ContinuationNeverJudgesCode(s.link, code, [s.result.value]);
    }
  }

  // ---------------------------------------------------------------------------
  // The dialogue

  /** A conversation that succeeds has written every request's command, in order,
      and nothing else. */
  lemma {:induction false} ConverseTrace(l: Link, requests: seq<Request>)
    requires Converse(l, requests).result.Success?
    ensures Converse(l, requests).link.written == l.written + Sent(requests)
    decreases |requests|
  {
    if requests != [] {
      var x := Exchange(l, requests[0].data, Some(requests[0].expected));
      ConverseTrace(x.link, requests[1..]);
      assert l.written + [requests[0].data] + Sent(requests[1..]) == l.written + Sent(requests);
    }
  }

  /** A successful transaction writes exactly its four commands, then maybe QUIT. */
  lemma TransactionTrace(l: Link, message: string, from: string, to: string)
    requires Transaction(l, message, from, to).result.Success?
    ensures var w := Transaction(l, message, from, to).link.written;
            || w == l.written + TransactionCommands(message, from, to)
            || w == l.written + TransactionCommands(message, from, to) + [Quit]
  {
    ConverseTrace(l, TransactionRequests(message, from, to));
    SentTransaction(message, from, to);
  }

  /** A successful greeting writes one LHLO, or two when the blind LHLO was answered
      with 220; after a 220 banner it writes exactly one. */
  lemma GreetingTrace(l: Link)
    requires Greeting(l).result.Success?
    ensures var w := Greeting(l).link.written;
            w == l.written + [Lhlo] || w == l.written + [Lhlo, Lhlo]
    ensures var probe := ParseReply(l, None);
            probe.result.Success? && probe.result.value.code == 220 ==> Greeting(l).link.written == l.written + [Lhlo]
  {
  }

  /** A successful delivery writes one or two LHLO commands, MAIL FROM, RCPT TO, DATA
      and the body with its end-of-data line, in that order, then maybe QUIT; after a
      220 banner there is exactly one LHLO. */
  lemma DeliveryTrace(l: Link, message: string, from: string, to: string)
    requires Dialogue(l, message, from, to).result.Success?
    ensures var w := Dialogue(l, message, from, to).link.written;
            exists greeting, quit ::
              && (greeting == [Lhlo] || greeting == [Lhlo, Lhlo])
              && (quit == [] || quit == [Quit])
              && w == l.written + greeting + TransactionCommands(message, from, to) + quit
    ensures var probe := ParseReply(l, None);
            probe.result.Success? && probe.result.value.code == 220 ==>
            exists quit :: (quit == [] || quit == [Quit])
              && Dialogue(l, message, from, to).link.written == l.written + [Lhlo] + TransactionCommands(message, from, to) + quit
  {
    var g := Greeting(l);
    GreetingTrace(l);
    TransactionTrace(g.link, message, from, to);
    var w := Dialogue(l, message, from, to).link.written;
    var greeting := g.link.written[|l.written|..];
    assert g.link.written == l.written + greeting;
    var quit := if w == g.link.written + TransactionCommands(message, from, to) then [] else [Quit];
    assert w == l.written + greeting + TransactionCommands(message, from, to) + quit;
  }
}

module LmtpScenarios {
  import opened Wrappers
  import opened Text
  import opened LmtpClient
  import opened LmtpProperties

  /** What the banner probe may meet short of a 220 banner: a timeout, a blank
      line, a line that is not a reply, or a one-line reply with another code. */
  ghost predicate NoBanner(e: Event) {
    || e == Timeout
    || (e.Line? && Strip(e.raw) == "")
    || (e.Line? && Strip(e.raw) != "" && forall i :: 0 <= i < |Take(Strip(e.raw), 3)| ==> !IsDigit(Take(Strip(e.raw), 3)[i]))
    || (e.Line? && exists code :: code != 220 && OneLineReply(e.raw, code))
  }

  /** The probe consumes exactly the one event, and sees no banner. */
  lemma ProbeSeesNoBanner(e: Event, rest: seq<Event>, w: nat, t: seq<string>)
    requires NoBanner(e)
    ensures var p := ParseReply(Link([e] + rest, false, w, t), None);
            && !(p.result.Success? && p.result.value.code == 220)
            && p.link == Link(rest, e == Timeout, w, t)
  {
    var l := Link([e] + rest, false, w, t);
    assert l.pending[0] == e && l.pending[1..] == rest;
    if e.Line? {
      NextLineOf(e.raw, rest, w, t);
      if Strip(e.raw) == "" {
      } else if forall i :: 0 <= i < |Take(Strip(e.raw), 3)| ==> !IsDigit(Take(Strip(e.raw), 3)[i]) {
        NonNumericCodeFails(e.raw, rest, w, t, None);
      } else {
        var code :| code != 220 && OneLineReply(e.raw, code);
        ReadsOneLine(e.raw, code, rest, w, t, None);
      }
    }
  }

  /** Without a banner the greeting goes on with a blind LHLO on a usable connection,
      right after the one event the probe consumed. */
  lemma GreetingWithoutBanner(l: Link, e: Event, rest: seq<Event>)
    requires NoBanner(e) && l.pending == [e] + rest && !l.timedOut
    ensures var probe := ParseReply(l, None);
            && !(probe.result.Success? && probe.result.value.code == 220)
            && Greeting(l) == GreetAfterProbe(probe, Link(rest, false, l.writable, l.written))
    ensures e != Timeout ==> GreetingAsWritten(l) == Greeting(l)
  {
    assert l == Link([e] + rest, false, l.writable, l.written);
    ProbeSeesNoBanner(e, rest, l.writable, l.written);
    GreetingAgrees(l);
  }

  /** A written command is followed by the reading of its reply. */
  lemma ExchangeWrites(l: Link, data: string, expected: Option<int>)
    requires l.writable > 0
    ensures Exchange(l, data, expected) == ParseReply(Link(l.pending, l.timedOut, l.writable - 1, l.written + [data]), expected)
  {
    assert WriteLine(l, data) == Step(Success(()), Link(l.pending, l.timedOut, l.writable - 1, l.written + [data]));
  }

  /** Writing a command and reading a one-line reply to it. */
  lemma ExchangeOneLine(raw: string, code: int, rest: seq<Event>, w: nat, t: seq<string>, data: string, expected: Option<int>)
    requires OneLineReply(raw, code) && w > 0
    ensures Exchange(Link([Line(raw)] + rest, false, w, t), data, expected)
            == Step(if expected.Some? && expected.value != code then Failure(UnexpectedCode(code, expected.value))
                    else Success(Reply(code, [Strip(raw)])),
                    Link(rest, false, w - 1, t + [data]))
  {
    ReadsOneLine(raw, code, rest, w - 1, t + [data], expected);
  }

  /** Requests each answered with a one-line reply carrying its expected code all
      succeed, and write their commands in order. */
  lemma {:induction false} ConverseAccepted(l: Link, raws: seq<string>, requests: seq<Request>, tail: seq<Event>)
    requires l.pending == Lines(raws) + tail && !l.timedOut
    requires |raws| == |requests| <= l.writable
    requires forall i :: 0 <= i < |raws| ==> OneLineReply(raws[i], requests[i].expected)
    ensures Converse(l, requests) == Step(Success(()), Link(tail, false, l.writable - |requests|, l.written + Sent(requests)))
    decreases |raws|
  {
    if raws == [] {
      assert l.pending == tail;
      assert l.written + Sent(requests) == l.written;
    } else {
      var rest := Lines(raws[1..]) + tail;
      var r := requests[0];
      var l1 := Link(rest, false, l.writable - 1, l.written + [r.data]);
      assert l == Link([Line(raws[0])] + rest, false, l.writable, l.written);
      ConverseStep(raws[0], rest, l.writable, l.written, requests);
      assert Converse(l, requests) == Converse(l1, requests[1..]);
      ConverseAccepted(l1, raws[1..], requests[1..], tail);
      assert Sent(requests) == [r.data] + Sent(requests[1..]);
      AppendOne(l.written, r.data, Sent(requests[1..]));
      assert l1.written + Sent(requests[1..]) == l.written + Sent(requests);
      assert l1.writable - |requests[1..]| == l.writable - |requests|;
    }
  }

  /** A request answered with a one-line reply carrying its expected code passes. */
  lemma ConverseStep(raw: string, rest: seq<Event>, w: nat, t: seq<string>, requests: seq<Request>)
    requires requests != [] && OneLineReply(raw, requests[0].expected) && w > 0
    ensures Converse(Link([Line(raw)] + rest, false, w, t), requests)
            == Converse(Link(rest, false, w - 1, t + [requests[0].data]), requests[1..])
  {
    ExchangeOneLine(raw, requests[0].expected, rest, w, t, requests[0].data, Some(requests[0].expected));
  }

  lemma AppendOne<T>(t: seq<T>, a: T, u: seq<T>)
    ensures t + [a] + u == t + ([a] + u)
  {
  }

  /** After the greeting, replies 250, 250, 354 and 250 deliver the message whatever
      happens to QUIT: its reply may be anything, missing, or its write may fail. */
  lemma TransactionDelivers(
    m: string, r: string, d: string, f: string, tail: seq<Event>, w: nat, t: seq<string>,
    message: string, from: string, to: string)
    requires OneLineReply(m, 250) && OneLineReply(r, 250) && OneLineReply(d, 354) && OneLineReply(f, 250)
    requires w >= 4
    ensures var s := Transaction(Link([Line(m), Line(r), Line(d), Line(f)] + tail, false, w, t), message, from, to);
            && s.result == Success(())
            && s.link.written == t + TransactionCommands(message, from, to) + (if w > 4 then [Quit] else [])
  {
    var raws := [m, r, d, f];
    LinesOfFour(m, r, d, f);
    var l := Link([Line(m), Line(r), Line(d), Line(f)] + tail, false, w, t);
    ConverseAccepted(l, raws, TransactionRequests(message, from, to), tail);
    SentTransaction(message, from, to);
    var sent := Converse(l, TransactionRequests(message, from, to));
    assert sent.link == Link(tail, false, w - 4, t + TransactionCommands(message, from, to));
    assert Transaction(l, message, from, to) == Step(Success(()), Exchange(sent.link, Quit, Some(221)).link);
  }

  lemma LinesOfFour(m: string, r: string, d: string, f: string)
    ensures Lines([m, r, d, f]) == [Line(m), Line(r), Line(d), Line(f)]
  {
    var raws := [m, r, d, f];
    assert raws[1..] == [r, d, f] && [r, d, f][1..] == [d, f] && [d, f][1..] == [f] && [f][1..] == [];
    assert Lines([f]) == [Line(f)];
    assert Lines([d, f]) == [Line(d), Line(f)];
    assert Lines([r, d, f]) == [Line(r), Line(d), Line(f)];
  }

  /** Reply codes other than 250 to MAIL FROM fail the delivery with that code. */
  lemma MailFromRefused(m: string, code: int, tail: seq<Event>, w: nat, t: seq<string>, message: string, from: string, to: string)
    requires OneLineReply(m, code) && code != 250 && w >= 1
    ensures Transaction(Link([Line(m)] + tail, false, w, t), message, from, to).result == Failure(UnexpectedCode(code, 250))
  {
    ExchangeOneLine(m, code, tail, w, t, MailFrom(from), Some(250));
  }

  /** A 220 banner: exactly one LHLO, which must be answered with 250. */
  lemma GreetingAfterBanner(b: string, g: string, code: int, rest: seq<Event>, w: nat, t: seq<string>)
    requires OneLineReply(b, 220) && OneLineReply(g, code) && w >= 1
    ensures Greeting(Link([Line(b), Line(g)] + rest, false, w, t))
            == Step(if code == 250 then Success(()) else Failure(UnexpectedCode(code, 250)), Link(rest, false, w - 1, t + [Lhlo]))
  {
    assert [Line(b), Line(g)] + rest == [Line(b)] + ([Line(g)] + rest);
    ReadsOneLine(b, 220, [Line(g)] + rest, w, t, None);
    ExchangeOneLine(g, code, rest, w, t, Lhlo, Some(250));
  }

  /** No banner, and the blind LHLO is answered with 250: one LHLO and on we go. */
  lemma BlindGreetingAccepted(e: Event, g: string, rest: seq<Event>, w: nat, t: seq<string>)
    requires NoBanner(e) && OneLineReply(g, 250) && w >= 1
    ensures Greeting(Link([e, Line(g)] + rest, false, w, t)) == Step(Success(()), Link(rest, false, w - 1, t + [Lhlo]))
    ensures e != Timeout ==> GreetingAsWritten(Link([e, Line(g)] + rest, false, w, t)) == Greeting(Link([e, Line(g)] + rest, false, w, t))
  {
    var l := Link([e, Line(g)] + rest, false, w, t);
    assert l.pending == [e] + ([Line(g)] + rest);
    GreetingWithoutBanner(l, e, [Line(g)] + rest);
    ExchangeOneLine(g, 250, rest, w, t, Lhlo, None);
  }

  /** After a probe that saw no banner, a 220 reply to the blind LHLO draws a second
      LHLO, which must be answered with 250. */
  lemma BlindLhloMetBanner(probe: Step<Reply>, b: string, g: string, code: int, rest: seq<Event>, w: nat, t: seq<string>)
    requires !(probe.result.Success? && probe.result.value.code == 220)
    requires OneLineReply(b, 220) && OneLineReply(g, code) && w >= 2
    ensures GreetAfterProbe(probe, Link([Line(b)] + ([Line(g)] + rest), false, w, t))
            == Step(if code == 250 then Success(()) else Failure(UnexpectedCode(code, 250)),
                    Link(rest, false, w - 2, t + [Lhlo, Lhlo]))
  {
    ExchangeOneLine(b, 220, [Line(g)] + rest, w, t, Lhlo, None);
    ExchangeOneLine(g, code, rest, w - 1, t + [Lhlo], Lhlo, Some(250));
    AppendTwice(t, Lhlo);
  }

  lemma AppendTwice<T>(t: seq<T>, a: T)
    ensures t + [a] + [a] == t + [a, a]
  {
  }

  /** No banner, and the blind LHLO is answered with a 220 banner: LHLO is sent a
      second time and must be answered with 250. */
  lemma BlindGreetingMetBanner(e: Event, b: string, g: string, code: int, rest: seq<Event>, w: nat, t: seq<string>)
    requires NoBanner(e) && OneLineReply(b, 220) && OneLineReply(g, code) && w >= 2
    ensures Greeting(Link([e, Line(b), Line(g)] + rest, false, w, t))
            == Step(if code == 250 then Success(()) else Failure(UnexpectedCode(code, 250)),
                    Link(rest, false, w - 2, t + [Lhlo, Lhlo]))
    ensures e != Timeout ==> GreetingAsWritten(Link([e, Line(b), Line(g)] + rest, false, w, t)) == Greeting(Link([e, Line(b), Line(g)] + rest, false, w, t))
  {
    var l := Link([e, Line(b), Line(g)] + rest, false, w, t);
    var after := [Line(b)] + ([Line(g)] + rest);
    assert l.pending == [e] + after;
    GreetingWithoutBanner(l, e, after);
    BlindLhloMetBanner(ParseReply(l, None), b, g, code, rest, w, t);
  }

  /** No banner, and the blind LHLO is answered with neither 220 nor 250: failure. */
  lemma BlindGreetingRefused(e: Event, g: string, code: int, rest: seq<Event>, w: nat, t: seq<string>)
    requires NoBanner(e) && OneLineReply(g, code) && code != 220 && code != 250 && w >= 1
    ensures Greeting(Link([e, Line(g)] + rest, false, w, t)).result == Failure(UnexpectedGreeting(code))
    ensures e != Timeout ==> GreetingAsWritten(Link([e, Line(g)] + rest, false, w, t)) == Greeting(Link([e, Line(g)] + rest, false, w, t))
  {
    var l := Link([e, Line(g)] + rest, false, w, t);
    assert l.pending == [e] + ([Line(g)] + rest);
    GreetingWithoutBanner(l, e, [Line(g)] + rest);
    ExchangeOneLine(g, code, rest, w, t, Lhlo, None);
  }

  /** Only the probe is protected: a malformed reply to the blind LHLO fails the
      delivery. */
  lemma BlindGreetingMalformed(l: Link, e: Event, g: string, rest: seq<Event>)
    requires l.pending == [e, Line(g)] + rest && !l.timedOut && l.writable >= 1
    requires NoBanner(e)
    requires Strip(g) != "" && forall i :: 0 <= i < |Take(Strip(g), 3)| ==> !IsDigit(Take(Strip(g), 3)[i])
    ensures Greeting(l).result == Failure(InvalidReply(Strip(g)))
    ensures e != Timeout ==> GreetingAsWritten(l) == Greeting(l)
  {
    assert l.pending == [e] + ([Line(g)] + rest);
    GreetingWithoutBanner(l, e, [Line(g)] + rest);
    BlindLhloMalformed(ParseReply(l, None), g, rest, l.writable, l.written);
  }

  /** After a probe that saw no banner, a blind LHLO answered with a line that is
      not a reply fails on that line. */
  lemma BlindLhloMalformed(probe: Step<Reply>, g: string, rest: seq<Event>, w: nat, t: seq<string>)
    requires !(probe.result.Success? && probe.result.value.code == 220) && w >= 1
    requires Strip(g) != "" && forall i :: 0 <= i < |Take(Strip(g), 3)| ==> !IsDigit(Take(Strip(g), 3)[i])
    ensures GreetAfterProbe(probe, Link([Line(g)] + rest, false, w, t)).result == Failure(InvalidReply(Strip(g)))
  {
    var resume := Link([Line(g)] + rest, false, w, t);
    ExchangeWrites(resume, Lhlo, None);
    NonNumericCodeFails(g, rest, w - 1, t + [Lhlo], None);
    BlindLhloFails(probe, resume);
  }

  /** A blind LHLO whose exchange fails fails the greeting the same way. */
  lemma BlindLhloFails(probe: Step<Reply>, resume: Link)
    requires !(probe.result.Success? && probe.result.value.code == 220)
    requires Exchange(resume, Lhlo, None).result.Failure?
    ensures GreetAfterProbe(probe, resume).result == Failure(Exchange(resume, Lhlo, None).result.error)
  {
  }

  /** As the source is written, a banner probe that times out leaves the socket file
      refusing reads, so the blind LHLO can never be answered: whatever the server
      sends next, the delivery fails. */
  lemma TimedOutProbeBreaksFallbackAsWritten(rest: seq<Event>, w: nat, t: seq<string>, message: string, from: string, to: string)
    requires w >= 1
    ensures DialogueAsWritten(Link([Timeout] + rest, false, w, t), message, from, to).result == Failure(ReadAfterTimeout)
  {
    var l := Link([Timeout] + rest, false, w, t);
    assert l.pending[0] == Timeout && l.pending[1..] == rest;
  }

  /** The corrected greeting: after a banner probe that times out, replies 250 to the
      blind LHLO and 250, 250, 354, 250 deliver the message. */
  lemma DeliversAfterBannerTimeout(
    g: string, m: string, r: string, d: string, f: string, tail: seq<Event>, w: nat, t: seq<string>,
    message: string, from: string, to: string)
    requires OneLineReply(g, 250) && OneLineReply(m, 250) && OneLineReply(r, 250) && OneLineReply(d, 354) && OneLineReply(f, 250)
    requires w >= 5
    ensures var s := Dialogue(Link([Timeout, Line(g), Line(m), Line(r), Line(d), Line(f)] + tail, false, w, t), message, from, to);
            && s.result == Success(())
            && s.link.written == t + [Lhlo] + TransactionCommands(message, from, to) + (if w > 5 then [Quit] else [])
  {
    DeliversWithoutBanner(Timeout, g, m, r, d, f, tail, w, t, message, from, to);
  }

  /** The usual dialogue: banner 220, then 250, 250, 250, 354 and 250. */
  lemma DeliversAfterBanner(
    b: string, g: string, m: string, r: string, d: string, f: string, tail: seq<Event>, w: nat, t: seq<string>,
    message: string, from: string, to: string)
    requires OneLineReply(b, 220) && OneLineReply(g, 250)
    requires OneLineReply(m, 250) && OneLineReply(r, 250) && OneLineReply(d, 354) && OneLineReply(f, 250)
    requires w >= 5
    ensures var s := Dialogue(Link([Line(b), Line(g), Line(m), Line(r), Line(d), Line(f)] + tail, false, w, t), message, from, to);
            && s.result == Success(())
            && s.link.written == t + [Lhlo] + TransactionCommands(message, from, to) + (if w > 5 then [Quit] else [])
  {
    var txn := [Line(m), Line(r), Line(d), Line(f)] + tail;
    var l := Link([Line(b), Line(g)] + txn, false, w, t);
    assert [Line(b), Line(g), Line(m), Line(r), Line(d), Line(f)] + tail == l.pending;
    GreetingAfterBanner(b, g, 250, txn, w, t);
    DialogueAfterGreeting(l, message, from, to);
    TransactionDelivers(m, r, d, f, tail, w - 1, t + [Lhlo], message, from, to);
  }

  /** Without a banner: the blind LHLO answered with 250, then 250, 250, 354 and 250. */
  lemma DeliversWithoutBanner(
    e: Event, g: string, m: string, r: string, d: string, f: string, tail: seq<Event>, w: nat, t: seq<string>,
    message: string, from: string, to: string)
    requires NoBanner(e) && OneLineReply(g, 250)
    requires OneLineReply(m, 250) && OneLineReply(r, 250) && OneLineReply(d, 354) && OneLineReply(f, 250)
    requires w >= 5
    ensures var s := Dialogue(Link([e, Line(g), Line(m), Line(r), Line(d), Line(f)] + tail, false, w, t), message, from, to);
            && s.result == Success(())
            && s.link.written == t + [Lhlo] + TransactionCommands(message, from, to) + (if w > 5 then [Quit] else [])
    ensures var l := Link([e, Line(g), Line(m), Line(r), Line(d), Line(f)] + tail, false, w, t);
            e != Timeout ==> DialogueAsWritten(l, message, from, to) == Dialogue(l, message, from, to)
  {
    var txn := [Line(m), Line(r), Line(d), Line(f)] + tail;
    var l := Link([e, Line(g)] + txn, false, w, t);
    assert [e, Line(g), Line(m), Line(r), Line(d), Line(f)] + tail == l.pending;
    BlindGreetingAccepted(e, g, txn, w, t);
    DialogueAfterGreeting(l, message, from, to);
    TransactionDelivers(m, r, d, f, tail, w - 1, t + [Lhlo], message, from, to);
  }

  /** Once the greeting succeeds, the dialogue is the transaction that follows it. */
  lemma DialogueAfterGreeting(l: Link, message: string, from: string, to: string)
    requires Greeting(l).result.Success?
    ensures Dialogue(l, message, from, to) == Transaction(Greeting(l).link, message, from, to)
  {
  }
}
