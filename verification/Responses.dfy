/** Responses: the server's printer (server/src/protocol/response_builder.cpp) and the
    console client's parser (cli/src/tdpservice/responseanalyzer.cpp). */
module Responses {
  import opened Options
  import opened Text
  import opened Decimal

  /** The codes of server/include/tds/protocol/protocol_error.hpp. */
  predicate IsProtocolCode(code: nat) { code == 100 || 300 <= code <= 303 || 401 <= code <= 415 }

  /** The codes the client knows. */
  predicate Accepted(code: nat) { code == 100 || 300 <= code <= 303 || 401 <= code <= 409 }

  function Header(code: nat, command: string): string { ToDecimal(code) + " " + command }

  function ResponseText(code: nat, command: string, lines: seq<string>): string {
    Message([Header(code, command)] + lines)
  }

  class ResponseBuilder {
    var code: nat
    var commandName: string
    var lines: string
    ghost var added: seq<string>

    ghost predicate Valid()
      reads this
    {
      lines == Terminated(added)
    }

    constructor (code: nat, commandName: string)
      ensures Valid() && added == [] && this.code == code && this.commandName == commandName
    {
      this.code, this.commandName, lines, added := code, commandName, "", [];
    }

    method AddLine(line: string)
      requires Valid()
      modifies this
      ensures Valid() && added == old(added) + [line]
      ensures code == old(code) && commandName == old(commandName)
    {
      lines := lines + line;
      lines := lines + [LF];
      assert (added + [line])[..|added|] == added;
      added := added + [line];
    }

    method GetResponse() returns (text: string)
      requires Valid()
      ensures text == ResponseText(code, commandName, added)
    {
      text := ToDecimal(code) + " " + commandName + [LF] + lines + [LF];
      TerminatedCons(Header(code, commandName), added);
    }
  }

  lemma {:induction false} TerminatedCons(l: string, ls: seq<string>)
    ensures Terminated([l] + ls) == l + [LF] + Terminated(ls)
  {
    if ls == [] {
      assert [l] + ls == [l] && [l][..0] == [];
    } else {
      var n := |ls| - 1;
      TerminatedCons(l, ls[..n]);
      assert ([l] + ls)[..n + 1] == [l] + ls[..n];
      assert ([l] + ls)[n + 1] == ls[n];
      Regroup(l + [LF], Terminated(ls[..n]), ls[n] + [LF]);
      Regroup(l + [LF] + Terminated(ls[..n]), ls[n], [LF]);
      Regroup(Terminated(ls[..n]), ls[n], [LF]);
    }
  }

  // ---------- what the client accepts ----------

  /** `*iter`: the character under the iterator, NUL at the end of the buffer. */
  function At(buf: string, i: nat): char { if i < |buf| then buf[i] else '\0' }

  function HeaderEnding(command: string): string { " " + command + [LF] }

  /** A three-digit accepted code, the expected command, and at least one more byte. */
  ghost predicate HasHeader(text: string, command: string) {
    var ending := HeaderEnding(command);
    && |text| > 3 + |ending|
    && AllDigits(text[..3]) && Accepted(FromDecimal(text[..3]))
    && text[3..3 + |ending|] == ending
  }

  ghost function AfterHeader(text: string, command: string): string
    requires HasHeader(text, command)
  {
    text[3 + |HeaderEnding(command)|..]
  }

  /** A body of any number of lines up to the first blank line. */
  ghost function MultilineBody(rest: string): Option<string>
    requires rest != ""
  {
    if rest[0] == LF then Some([LF])
    else if BlankAt(rest) < |rest| then Some(rest[..BlankAt(rest) + 2])
    else None
  }

  /** A body of exactly one line. */
  ghost function SimpleBody(rest: string): Option<string>
    requires rest != ""
  {
    var i := BlankAt(rest);
    if rest[0] != LF && i < |rest| && LF !in rest[..i] then Some(rest[..i + 2]) else None
  }

  datatype Analysis = Rejected | Analysed(code: nat, body: string, reprinted: string)

  ghost function Reprint(text: string, command: string, body: Option<string>): Analysis
    requires |text| >= 3 && AllDigits(text[..3])
  {
    if body.None? then Rejected
    else
      var code := FromDecimal(text[..3]);
      Analysed(code, body.value, Header(code, command) + [LF] + body.value)
  }

  /** What the two analysers make of a text. */
  ghost function MultilineAnalysis(received: string, command: string): Analysis {
    if HasHeader(received, command)
    then Reprint(received, command, MultilineBody(AfterHeader(received, command)))
    else Rejected
  }

  /** Where no answer is expected, a reply with code 100 must have none. */
  ghost function SimpleAnalysis(received: string, command: string, answerExpected: bool): Analysis {
    if !HasHeader(received, command) then Rejected
    else
      var rest := AfterHeader(received, command);
      if FromDecimal(received[..3]) == 100 && !answerExpected then
        if rest[0] == LF then Analysed(100, "", Header(100, command) + [LF, LF]) else Rejected
      else Reprint(received, command, SimpleBody(rest))
  }

  class ResponseAnalyzer {
    var readBuf: string

    method AnalyseMultilineResponse(command: string, received: string) returns (r: Analysis)
      modifies this
      ensures r == MultilineAnalysis(received, command)
    {
      readBuf := received;
      var iter, code := GetResponseHeader(command);
      if code.None? { return Rejected; }
      var body := GetMultipleLineResponse(iter);
      if body.None? { return Rejected; }
      r := Analysed(code.value, body.value, ToDecimal(code.value) + " " + command + [LF] + body.value);
    }

    method AnalyseSimpleResponse(command: string, received: string, answerExpected: bool) returns (r: Analysis)
      modifies this
      ensures r == SimpleAnalysis(received, command, answerExpected)
    {
      readBuf := received;
      var iter, code := GetResponseHeader(command);
      if code.None? { return Rejected; }
      if code.value == 100 && !answerExpected {
        if At(readBuf, iter) == LF {
          r := Analysed(100, "", ToDecimal(100) + " " + command + [LF, LF]);
        } else {
          r := Rejected;
        }
      } else {
        var body := GetResponseLine(iter);
        if body.None? { return Rejected; }
        r := Analysed(code.value, body.value, ToDecimal(code.value) + " " + command + [LF] + body.value);
      }
    }

    method GetResponseHeader(command: string) returns (iter: nat, code: Option<nat>)
      ensures code.Some? <==> HasHeader(readBuf, command)
      ensures code.Some? ==> code.value == FromDecimal(readBuf[..3]) && iter == 3 + |HeaderEnding(command)|
    {
      iter, code := GetErrorCode();
      if code.Some? {
        var ok;
        iter, ok := CheckRestOfResponseHeader(iter, command);
        if !ok { code := None; }
      }
    }

    /** nextReadChar: one step, refused at the end of the buffer. */
    method NextReadChar(iter: nat) returns (next: nat, ok: bool)
      requires iter <= |readBuf|
      ensures ok <==> iter + 1 < |readBuf|
      ensures next == if iter < |readBuf| then iter + 1 else iter
    {
      next := iter;
      if iter == |readBuf| { return next, false; }
      next := iter + 1;
      ok := next != |readBuf|;
    }

    method GetErrorCode() returns (iter: nat, code: Option<nat>)
      ensures code.Some? <==> |readBuf| > 3 && AllDigits(readBuf[..3]) && Accepted(FromDecimal(readBuf[..3]))
      ensures code.Some? ==> iter == 3 && code.value == FromDecimal(readBuf[..3])
    {
      var value := 0;
      iter := 0;
      assert readBuf[..0] == "";
      while iter != 3
        invariant iter <= 3 && iter <= |readBuf| && (iter > 0 ==> iter < |readBuf|)
        invariant AllDigits(readBuf[..iter]) && value == FromDecimal(readBuf[..iter])
        decreases 3 - iter
      {
        if !IsDigit(At(readBuf, iter)) {
          assert |readBuf| > 3 ==> readBuf[iter] in readBuf[..3];
          return iter, None;
        }
        value := 10 * value + (At(readBuf, iter) as int - '0' as int);
        assert readBuf[..iter + 1] == readBuf[..iter] + [readBuf[iter]];
        FromDecimalPush(readBuf[..iter], readBuf[iter]);
        var ok;
        iter, ok := NextReadChar(iter);
        if !ok { return iter, None; }
      }
      code := if Accepted(value) then Some(value) else None;
    }

    method CheckRestOfResponseHeader(start: nat, command: string) returns (iter: nat, ok: bool)
      requires start < |readBuf|
      ensures var ending := HeaderEnding(command);
        && (ok <==> start + |ending| < |readBuf| && readBuf[start..start + |ending|] == ending)
        && (ok ==> iter == start + |ending|)
    {
      var ending := HeaderEnding(command);
      iter := start;
      for i := 0 to |ending|
        invariant iter == start + i < |readBuf|
        invariant readBuf[start..iter] == ending[..i]
      {
        if At(readBuf, iter) != ending[i] {
          assert iter < start + |ending| < |readBuf| ==> readBuf[start..start + |ending|][i] == readBuf[iter];
          return iter, false;
        }
        assert readBuf[start..iter + 1] == readBuf[start..iter] + [readBuf[iter]];
        var more;
        iter, more := NextReadChar(iter);
        if !more { return iter, false; }
      }
      assert ending[..|ending|] == ending;
      ok := true;
    }

    method GetMultipleLineResponse(start: nat) returns (body: Option<string>)
      requires start < |readBuf|
      ensures body == MultilineBody(readBuf[start..])
    {
      ghost var rest := readBuf[start..];
      var iter, text := start, "";
      if At(readBuf, iter) != LF {
        var separator := false;
        while !separator
          invariant start <= iter < |readBuf| && text == rest[..iter - start]
          invariant forall j | 0 <= j < iter - start - 1 :: !BlankLineAt(rest, j)
          invariant separator ==> iter > start && BlankLineAt(rest, iter - start - 1)
          invariant !separator ==> rest[iter - start] != LF
          invariant !separator && iter > start ==> !BlankLineAt(rest, iter - start - 1)
          decreases |readBuf| - iter
        {
          ghost var before := iter;
          var newLine := false;
          while !newLine
            invariant start <= iter < |readBuf| && text == rest[..iter - start]
            invariant before <= iter && (newLine ==> iter > before && rest[iter - start - 1] == LF)
            invariant forall j | 0 <= j < iter - start - 1 :: !BlankLineAt(rest, j)
            invariant !newLine && iter > start ==> !BlankLineAt(rest, iter - start - 1)
            decreases |readBuf| - iter
          {
            newLine := At(readBuf, iter) == LF;
            text := text + [At(readBuf, iter)];
            var ok;
            iter, ok := NextReadChar(iter);
            if !ok {
              BlankAtUnique(rest, |rest|);
              return None;
            }
          }
          separator := At(readBuf, iter) == LF;
        }
        BlankAtUnique(rest, iter - start - 1);
        assert rest[..iter - start] + [LF] == rest[..iter - start + 1];
      }
      assert "" + [LF] == [LF];
      body := Some(text + [LF]);
    }

    method GetResponseLine(start: nat) returns (body: Option<string>)
      requires start < |readBuf|
      ensures body == SimpleBody(readBuf[start..])
    {
      ghost var rest := readBuf[start..];
      if At(readBuf, start) == LF { return None; }
      var iter, text, newLine := start, "", false;
      while !newLine
        invariant start <= iter < |readBuf| && text == rest[..iter - start]
        invariant newLine ==> iter > start && rest[iter - start - 1] == LF && LF !in rest[..iter - start - 1]
        invariant !newLine ==> LF !in text
        decreases |readBuf| - iter
      {
        newLine := At(readBuf, iter) == LF;
        text := text + [At(readBuf, iter)];
        var ok;
        iter, ok := NextReadChar(iter);
        if !ok {
          assert forall j | 0 <= j < |rest| - 1 :: rest[j] == rest[..|rest| - 1][j];
          BlankAtUnique(rest, |rest|);
          return None;
        }
      }
      var k := iter - start - 1;
      assert forall j | 0 <= j < k :: rest[j] == rest[..k][j];
      if At(readBuf, iter) == LF {
        BlankAtUnique(rest, k);
        assert rest[..k + 1] + [LF] == rest[..k + 2];
        body := Some(text + [LF]);
      } else {
        assert BlankAt(rest) < |rest| ==> rest[..BlankAt(rest)][k] == LF;
        body := None;
      }
    }
  }

  // ---------- what is accepted, exactly ----------

  /** Nothing but the blank line, or lines up to and with the first blank line. */
  ghost predicate WholeBody(body: string) {
    || body == "\n"
    || (|body| >= 3 && body[0] != '\n' && body[|body| - 2] == '\n' && body[|body| - 1] == '\n'
        && forall j | 0 <= j < |body| - 2 :: !(body[j] == '\n' && body[j + 1] == '\n'))
  }

  /** The text is this header, this body, and anything behind it. */
  ghost predicate BeginsWith(text: string, command: string, code: nat, body: string) {
    && (code == 100 || 300 <= code <= 303 || 401 <= code <= 409)
    && ToDecimal(code) + (" " + command + "\n") + body <= text && WholeBody(body)
  }

  lemma CodeText(text: string)
    requires |text| >= 3 && AllDigits(text[..3]) && FromDecimal(text[..3]) >= 100
    ensures ToDecimal(FromDecimal(text[..3])) == text[..3]
  {
    var d := text[..3];
    assert d[..2][..1][..0] == "" && d[2] in d && d[..2][1] in d && d[..2][..1][0] in d;
    assert FromDecimal(d[..2][..1]) == d[0] as int - '0' as int;
    assert FromDecimal(d[..2]) < 10 * FromDecimal(d[..2][..1]) + 10;
    TextRoundTrip(d);
  }

  /** The header test in terms of the text it is for. */
  lemma HeaderTaken(text: string, command: string)
    requires HasHeader(text, command)
    ensures text == ToDecimal(FromDecimal(text[..3])) + HeaderEnding(command) + AfterHeader(text, command)
  {
    hide HeaderEnding, ToDecimal, FromDecimal;
    CodeText(text);
    assert text == text[..3] + HeaderEnding(command) + AfterHeader(text, command);
  }

  lemma HeaderFound(text: string, command: string, code: nat, rest: string)
    requires Accepted(code) && rest != "" && text == ToDecimal(code) + HeaderEnding(command) + rest
    ensures HasHeader(text, command) && AfterHeader(text, command) == rest && FromDecimal(text[..3]) == code
  {
    ThreeDigits(code);
    DecimalRoundTrip(code);
    hide HeaderEnding, ToDecimal, FromDecimal;
    assert text[..3] == ToDecimal(code);
    assert text[3..3 + |HeaderEnding(command)|] == HeaderEnding(command);
  }

  lemma BodyExactly(rest: string, body: string)
    requires rest != ""
    ensures MultilineBody(rest) == Some(body) <==> body <= rest && WholeBody(body)
  {
    hide BlankAt;
    var k := BlankAt(rest);
    if MultilineBody(rest) == Some(body) && body != "\n" {
      assert BlankLineAt(rest, k);
      forall j | 0 <= j < |body| - 2 ensures !(body[j] == '\n' && body[j + 1] == '\n') {
        assert !BlankLineAt(rest, j);
      }
    }
    if body <= rest && WholeBody(body) && body != "\n" {
      forall j | 0 <= j < |body| - 2 ensures !BlankLineAt(rest, j) {
        assert body[j] == rest[j] && body[j + 1] == rest[j + 1];
      }
      BlankAtUnique(rest, |body| - 2);
      assert rest[..|body|] == body;
    }
  }

  /** A line and the blank line. */
  lemma LineExactly(rest: string, body: string)
    requires rest != ""
    ensures SimpleBody(rest) == Some(body) <==>
      body <= rest && WholeBody(body) && body != "\n" && '\n' !in body[..|body| - 2]
  {
    BodyExactly(rest, body);
    hide BlankAt, WholeBody;
    assert BlankAt(rest) < |rest| ==> rest[..BlankAt(rest) + 2][..BlankAt(rest)] == rest[..BlankAt(rest)];
  }

  /** The analyser's cut into header and body is the only one. */
  lemma CutExactly(text: string, command: string, code: nat, b: string)
    requires b != ""
    ensures Accepted(code) && ToDecimal(code) + HeaderEnding(command) + b <= text <==>
      HasHeader(text, command) && FromDecimal(text[..3]) == code && b <= AfterHeader(text, command)
  {
    hide HeaderEnding, ToDecimal, FromDecimal;
    var head := ToDecimal(code) + HeaderEnding(command);
    if Accepted(code) && head + b <= text {
      var rest := text[|head|..];
      assert text == head + rest;
      HeaderFound(text, command, code, rest);
      assert b <= rest by { assert text[|head|..|head + b|] == (head + b)[|head|..]; }
    }
    if HasHeader(text, command) && FromDecimal(text[..3]) == code {
      HeaderTaken(text, command);
    }
  }

  /** What the multi-line analyser makes of any text: it answers exactly with the header and
      body the text begins with, and what it prints is their text again. */
  lemma MultilineExactly(text: string, command: string, code: nat, body: string)
    ensures var r := MultilineAnalysis(text, command);
      && (r.Analysed? && r.code == code && r.body == body <==> BeginsWith(text, command, code, body))
      && (r.Analysed? ==> r.reprinted == ToDecimal(r.code) + (" " + command + "\n") + r.body)
  {
    if body != "" { CutExactly(text, command, code, body); }
    if HasHeader(text, command) { BodyExactly(AfterHeader(text, command), body); }
    var r := MultilineAnalysis(text, command);
    assert r.Analysed? ==> Header(r.code, command) + [LF] == ToDecimal(r.code) + (" " + command + "\n");
    hide HasHeader, MultilineBody, WholeBody, ToDecimal, FromDecimal;
  }

  /** The simple analyser: exactly one line, or none where none is expected and the code is
      100. */
  lemma SimpleExactly(text: string, command: string, expected: bool, code: nat, body: string)
    ensures var r := SimpleAnalysis(text, command, expected);
      r.Analysed? && r.code == code && r.body == body <==>
        if code == 100 && !expected then body == "" && BeginsWith(text, command, 100, "\n")
        else BeginsWith(text, command, code, body) && body != "\n" && '\n' !in body[..|body| - 2]
  {
    if body != "" { CutExactly(text, command, code, body); }
    CutExactly(text, command, 100, "\n");
    if HasHeader(text, command) { LineExactly(AfterHeader(text, command), body); }
    hide HasHeader, SimpleBody, ToDecimal, FromDecimal;
  }

  // ---------- round trip and framing ----------

  lemma ThreeDigits(code: nat)
    requires IsProtocolCode(code)
    ensures |ToDecimal(code)| == 3
  {
    assert 1 <= code / 10 / 10 < 10;
    assert |ToDecimal(code / 10 / 10)| == 1;
    assert |ToDecimal(code / 10)| == 2;
  }

  /** The response text as the analyser takes it apart. */
  lemma ResponseHeader(code: nat, command: string, lines: seq<string>)
    requires IsProtocolCode(code)
    ensures var text := ResponseText(code, command, lines);
      && |text| > 3 + |HeaderEnding(command)|
      && text[..3] == ToDecimal(code)
      && text[3..3 + |HeaderEnding(command)|] == HeaderEnding(command)
      && text[3 + |HeaderEnding(command)|..] == Message(lines)
      && text == Header(code, command) + [LF] + Message(lines)
  {
    ThreeDigits(code);
    TerminatedCons(Header(code, command), lines);
    var text := ResponseText(code, command, lines);
    var digits, ending := ToDecimal(code), HeaderEnding(command);
    assert Header(code, command) + [LF] == digits + ending;
    assert text == digits + ending + Message(lines);
  }

  /** The codes the server sends and the client does not know. */
  predicate Unknown(code: nat) { 410 <= code <= 415 }

  lemma Recognised(code: nat, command: string, lines: seq<string>)
    requires IsProtocolCode(code)
    ensures var text := ResponseText(code, command, lines);
      && |text| >= 3 && AllDigits(text[..3]) && FromDecimal(text[..3]) == code
      && (HasHeader(text, command) <==> !Unknown(code))
      && (HasHeader(text, command) ==> AfterHeader(text, command) == Message(lines))
      && text == Header(code, command) + [LF] + Message(lines)
  {
    ResponseHeader(code, command, lines);
    DecimalRoundTrip(code);
    hide ResponseText, Message, ToDecimal, FromDecimal;
  }

  /** What the builder prints, the analyser reads back: the code, the body, and a
      reprinted text equal to the input, for every list of non-empty lines. The codes 410
      to 415, which the server also sends, are refused. */
  lemma MultilineRoundTrip(code: nat, command: string, lines: seq<string>)
    requires IsProtocolCode(code) && Solid(lines)
    ensures var text := ResponseText(code, command, lines);
      MultilineAnalysis(text, command) == if Unknown(code) then Rejected else Analysed(code, Message(lines), text)
  {
    hide ResponseText, HasHeader, AfterHeader, FromDecimal, ToDecimal;
    Recognised(code, command, lines);
    MessageBody(lines);
  }

  /** Replies of one line survive the simple analyser, except that an answer which is not
      expected is refused. */
  lemma SimpleRoundTrip(code: nat, command: string, line: string, answerExpected: bool)
    requires IsProtocolCode(code) && line != "" && LF !in line
    ensures var text := ResponseText(code, command, [line]);
      SimpleAnalysis(text, command, answerExpected) ==
        if Unknown(code) || (code == 100 && !answerExpected) then Rejected else Analysed(code, Message([line]), text)
  {
    hide ResponseText, HasHeader, AfterHeader, FromDecimal, ToDecimal;
    Recognised(code, command, [line]);
    MessageBody([line]);
    OneLine(line);
  }

  /** Replies without lines are understood exactly where none is expected, with code 100. */
  lemma EmptyRoundTrip(code: nat, command: string, answerExpected: bool)
    requires IsProtocolCode(code)
    ensures var text := ResponseText(code, command, []);
      SimpleAnalysis(text, command, answerExpected) ==
        if code == 100 && !answerExpected then Analysed(100, "", text) else Rejected
  {
    hide ResponseText, HasHeader, AfterHeader, FromDecimal, ToDecimal;
    Recognised(code, command, []);
    assert Message([]) == [LF];
    var header := Header(code, command);
    assert header + [LF] + [LF] == header + [LF, LF];
  }

  lemma OneLine(line: string)
    requires line != "" && LF !in line
    ensures Message([line]) == line + [LF] + [LF] && Message([line])[..|line|] == line
  {
    TerminatedCons(line, []);
    assert [line] + [] == [line];
  }

  lemma MessageBody(lines: seq<string>)
    requires Solid(lines)
    ensures MultilineBody(Message(lines)) == Some(Message(lines))
    ensures lines != [] ==> Message(lines)[0] != LF && BlankAt(Message(lines)) == |Message(lines)| - 2
  {
    if lines == [] {
      assert Message(lines) == [LF];
    } else {
      var t := Message(lines);
      MessageEnds(lines);
      assert t[..|t| - 2 + 2] == t;
    }
  }

  /** `message.ends_with("\n\n")`, the client's test for a whole response. */
  predicate LooksComplete(received: string) {
    |received| >= 2 && received[|received| - 2] == LF && received[|received| - 1] == LF
  }

  /** The completeness test fires at the end of a response and never before, exactly when
      no line of the body is empty. */
  lemma FramingExact(code: nat, command: string, lines: seq<string>)
    requires LF !in command && forall l <- lines :: LF !in l
    ensures var text := ResponseText(code, command, lines);
      && LooksComplete(text)
      && ((forall n | 0 <= n < |text| :: !LooksComplete(text[..n])) <==> Solid(lines))
  {
    var all := [Header(code, command)] + lines;
    var text := Message(all);
    assert LF !in Header(code, command) by { assert forall c <- ToDecimal(code) :: IsDigit(c); }
    if Solid(lines) {
      MessageEnds(all);
      forall n | 0 <= n < |text| ensures !LooksComplete(text[..n]) {
        assert n >= 2 ==> !BlankLineAt(text, n - 2);
      }
    } else {
      var k :| 0 <= k < |lines| && lines[k] == "";
      EmptyLineLooksComplete(all, k + 1);
      assert LooksComplete(text[..|Terminated(all[..k + 2])|]);
    }
    TerminatedEndsInLF(all);
  }

  lemma TerminatedEndsInLF(ls: seq<string>)
    ensures ls != [] ==> Terminated(ls) != "" && Terminated(ls)[|Terminated(ls)| - 1] == LF
  {
  }

  lemma EmptyLineLooksComplete(ls: seq<string>, k: nat)
    requires 0 < k < |ls| && ls[k] == ""
    ensures var p := Terminated(ls[..k + 1]); |p| < |Message(ls)| && Message(ls)[..|p|] == p && LooksComplete(p)
  {
    TerminatedEndsInLF(ls[..k]);
    assert ls[..k + 1][..k] == ls[..k];
    TerminatedPrefix(ls, k + 1);
  }

  lemma {:induction false} TerminatedPrefix(ls: seq<string>, n: nat)
    requires n <= |ls|
    ensures Terminated(ls[..n]) <= Terminated(ls)
  {
    if n < |ls| {
      assert ls[..|ls| - 1][..n] == ls[..n];
      TerminatedPrefix(ls[..|ls| - 1], n);
    } else {
      assert ls[..n] == ls;
    }
  }
}
