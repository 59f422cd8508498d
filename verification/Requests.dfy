/** The console client's request printer, `TDPService::sendAndGetResponse`
    (cli/src/tdpservice/tdpservice.cpp), against the server's interpreter. */
module Requests {
  import opened Options
  import opened Text
  import Fields
  import Interpreter

  const BUF_MAX_SIZE: nat := 2048
  const MAX_COMMAND: nat := 6

  /** A field name and its value as text; an empty name means no field. */
  datatype Pair = Pair(name: string, value: string)

  predicate Fits(p: Pair) { |p.name| + |p.value| < BUF_MAX_SIZE - 1 }

  function FieldLines(pairs: seq<Pair>): seq<string> {
    if pairs == [] then []
    else
      var init, p := FieldLines(pairs[..|pairs| - 1]), pairs[|pairs| - 1];
      if p.name == "" then init else init + [p.name + ":" + p.value]
  }

  function RequestText(command: string, pairs: seq<Pair>): string {
    Message([command] + FieldLines(pairs))
  }

  datatype ErrorCode = NoError | LineTooLong

  class TDPService {
    var errorCode: ErrorCode
    var lastSentCommand: string

    /** The text is what goes to the server; nothing is sent when the guard refuses. */
    method PrepareRequest(command: string, p1: Pair, p2: Pair, p3: Pair) returns (ok: bool)
      modifies this
      ensures ok <==>
        && |command| <= 6 && |p1.name| + |p1.value| <= 2046 && |p2.name| + |p2.value| <= 2046
        && |p3.name| + |p3.value| <= 2046
      ensures errorCode == if ok then NoError else LineTooLong
      ensures lastSentCommand == if ok then RequestText(command, [p1, p2, p3]) else old(lastSentCommand)
    {
      errorCode := NoError;
      if |command| > MAX_COMMAND || !Fits(p1) || !Fits(p2) || !Fits(p3) {
        errorCode := LineTooLong;
        return false;
      }
      var pairs := [p1, p2, p3];
      lastSentCommand := command + [LF];
      assert Terminated([command] + FieldLines([])) == command + [LF] by {
        assert [command] + FieldLines([]) == [command] && [command][..0] == [];
      }
      for i := 0 to 3
        invariant errorCode == NoError
        invariant lastSentCommand == Terminated([command] + FieldLines(pairs[..i]))
      {
        assert pairs[..i + 1][..i] == pairs[..i];
        if pairs[i].name != "" {
          var line := pairs[i].name + ":" + pairs[i].value;
          PushLine([command] + FieldLines(pairs[..i]), line);
          assert [command] + FieldLines(pairs[..i]) + [line] == [command] + FieldLines(pairs[..i + 1]);
          lastSentCommand := lastSentCommand + (line + [LF]);
        }
      }
      assert pairs[..3] == pairs;
      lastSentCommand := lastSentCommand + [LF];
      ok := true;
    }
  }

  lemma PushLine(ls: seq<string>, line: string)
    ensures Terminated(ls + [line]) == Terminated(ls) + (line + [LF])
  {
    assert (ls + [line])[..|ls|] == ls;
  }

  // ---------- the round trip ----------

  /** A field as the client sends it: a proper name and a value on one line that fits. */
  ghost predicate ProperField(f: Fields.Field) {
    && f.name != "" && Fields.AllLower(f.name)
    && Fields.Sendable(f.value)
    && (f.value.Str? ==> LF !in f.value.s)
    && |f.name| + |Fields.Printed(f.value)| <= 2046
  }

  ghost predicate ProperFields(fields: seq<Fields.Field>) { forall f <- fields :: ProperField(f) }

  function Pairs(fields: seq<Fields.Field>): seq<Pair> {
    seq(|fields|, i requires 0 <= i < |fields| => Pair(fields[i].name, Fields.Printed(fields[i].value)))
  }

  lemma {:induction false} PairsPush(fields: seq<Fields.Field>)
    requires fields != []
    ensures Pairs(fields)[..|fields| - 1] == Pairs(fields[..|fields| - 1])
  {
  }

  /** Field lines are printed one per field, are single lines within the server's limit,
      and are read back as the fields. */
  lemma {:induction false} FieldLinesParse(fields: seq<Fields.Field>)
    requires ProperFields(fields)
    ensures var ls := FieldLines(Pairs(fields));
      && |ls| == |fields|
      && (forall l <- ls :: l != "" && LF !in l && |l| < 2048)
      && Interpreter.ParseFields(ls) == Some(fields)
  {
    hide Fields.FieldFromString, Fields.Printed, Fields.Typed;
    if fields != [] {
      var n := |fields| - 1;
      PairsPush(fields);
      FieldLinesParse(fields[..n]);
      var f := fields[n];
      assert f in fields;
      Fields.FieldRoundTrip(f);
      PrintedOneLine(f);
      var init := FieldLines(Pairs(fields[..n]));
      assert (init + [Fields.PrintedField(f)])[..n] == init;
      assert fields == fields[..n] + [f];
    }
  }

  lemma PrintedOneLine(f: Fields.Field)
    requires ProperField(f)
    ensures LF !in Fields.PrintedField(f)
  {
    var v := Fields.Printed(f.value);
    assert LF !in v by {
      if f.value.Integer? { assert forall c <- v :: Fields.Decimal.IsDigit(c); }
    }
  }

  /** The text of a request as the one-shot reading sees it. */
  lemma RequestTextShape(ls: seq<string>)
    requires ls != [] && Solid(ls) && forall l <- ls :: |l| < 2048
    ensures Interpreter.OneShot(Message(ls)) ==
      if |ls| < 16 then Interpreter.Complete(ls, "") else Interpreter.OverLimit
  {
    MessageEnds(ls);
    MessageLines(ls);
    MessageInLimits(ls);
    Interpreter.OneShotWhole(Message(ls));
  }

  lemma MessageInLimits(ls: seq<string>)
    requires ls != [] && forall l <- ls :: LF !in l && |l| < 2048
    ensures Interpreter.InLimits(Message(ls)) <==> |ls| < 16
  {
    MessageLines(ls);
    var ms := Lines(Message(ls));
    assert Interpreter.Busy(Message(ls)) == ls + [""];
    forall i | 0 <= i < |ms| - 1 ensures |ms[i]| < 2048 {
      if i < |ls| { assert ms[i] == ls[i] && ls[i] in ls; }
    }
  }

  /** For every command and field list the client's guard accepts, and for every way of
      cutting the printed text into chunks, the server ends up with exactly that request
      and nothing left over. The field limit is exact: 14, since the command and the
      closing blank line count among the 16 lines. */
  lemma RequestRoundTrip(command: string, fields: seq<Fields.Field>, chunks: seq<string>)
    requires command != "" && LF !in command && |command| <= 6
    requires ProperFields(fields)
    requires Concat(chunks) == RequestText(command, Pairs(fields))
    ensures var r := Interpreter.CommitChunks(Interpreter.INIT, chunks);
      if |fields| <= 14
      then r == Interpreter.Done(Interpreter.State([], true, Some(Interpreter.Request(command, fields))), "")
      else r.Thrown? && r.error.Limit()
  {
    FieldLinesParse(fields);
    var ls := FieldLines(Pairs(fields));
    var lines := [command] + ls;
    RequestTextShape(lines);
    assert lines[1..] == ls;
    Interpreter.FeedIsOneShot(Message(lines));
    Interpreter.CuttingIrrelevant(Interpreter.INIT, chunks);
  }
}
