/** The request assembler: server/src/protocol/protocol_interpreter.cpp.

    Three forms of the same thing. The class works on fragments of lines, as the source
    does. `Feed` works byte by byte, so it composes over any cutting of the stream.
    `OneShot` looks at a whole stream at once: cut at LF, drop leading blank lines, take
    what precedes the first blank line. The lemmas show that the three agree. */
module Interpreter {
  import opened Options
  import opened Text
  import Fields

  const MAX_LINE_LENGTH: nat := 2048
  const MAX_LINE_COUNT: nat := 16

  datatype Request = Request(name: string, fields: seq<Fields.Field>)

  datatype Error = TooLongLine | TooManyFields | BadField {
    predicate Limit() { !BadField? }
  }

  /** `m_lines`, `m_last_line_complete` and `m_request`. */
  datatype State = State(lines: seq<string>, complete: bool, request: Option<Request>)

  const INIT := State([], true, None)

  /** What the interpreter holds between calls, whatever bytes it was given: at most 16
      lines, none empty, none longer than 2048 bytes with its LF. */
  ghost predicate Valid(s: State) {
    && |s.lines| <= 16
    && (forall i | 0 <= i < |s.lines| :: ValidLine(s.lines[i], s.complete || i < |s.lines| - 1))
    && (!s.complete ==> s.lines != [])
    && (s.request.Some? ==> s.lines == [] && s.complete)
  }

  ghost predicate ValidLine(line: string, complete: bool) {
    line != "" && LF !in line && |line| <= if complete then 2047 else 2048
  }

  // ---------- fields of a request ----------

  function ParseFields(lines: seq<string>): Option<seq<Fields.Field>> {
    if lines == [] then Some([])
    else
      var rest := ParseFields(lines[..|lines| - 1]);
      var last := Fields.FieldFromString(lines[|lines| - 1]);
      if rest.Some? && last.Ok? then Some(rest.value + [last.field]) else None
  }

  function ParseRequest(lines: seq<string>): Option<Request>
    requires lines != []
  {
    var fields := ParseFields(lines[1..]);
    if fields.Some? then Some(Request(lines[0], fields.value)) else None
  }

  // ---------- one fragment ----------

  /** A non-empty piece whose only LF, if any, is its last byte. */
  ghost predicate Fragment(f: string) { f != "" && LF !in f[..|f| - 1] }

  datatype Step = Next(state: State) | Throw(error: Error)

  function Held(s: State, f: string): (ls: seq<string>)
    requires !s.complete ==> s.lines != []
    ensures ls != [] && |ls[|ls| - 1]| >= |f|
  {
    if s.complete then s.lines + [f]
    else
      var last := |s.lines| - 1;
      s.lines[..last] + [s.lines[last] + f]
  }

  function CommitLine(s: State, f: string): Step
    requires !s.complete ==> s.lines != []
    requires f != ""
  {
    Judged(Held(s, f), f[|f| - 1] == LF)
  }

  /** The lines with the new piece in place: limits first, then the end of a line, then
      the end of a request. */
  function Judged(held: seq<string>, ended: bool): Step
    requires held != [] && (ended ==> held[|held| - 1] != "")
  {
    var n := |held| - 1;
    if |held[n]| > MAX_LINE_LENGTH then Throw(TooLongLine)
    else if |held| > MAX_LINE_COUNT then Throw(TooManyFields)
    else if !ended then Next(State(held, false, None))
    else if |held[n]| > 1 then Next(State(held[..n] + [held[n][..|held[n]| - 1]], true, None))
    else if n == 0 then Next(INIT)
    else
      var request := ParseRequest(held[..n]);
      if request.Some? then Next(State([], true, request)) else Throw(BadField)
  }

  /** The last line held is without LF but for its end, the others are as they were. */
  lemma HeldShape(s: State, f: string)
    requires Valid(s) && s.request.None? && Fragment(f)
    ensures var held := Held(s, f);
      var n := |held| - 1;
      && (forall i | 0 <= i < n :: ValidLine(held[i], true))
      && held[n] != "" && LF !in held[n][..|held[n]| - 1] && held[n][|held[n]| - 1] == f[|f| - 1]
  {
    var held := Held(s, f);
    var n := |held| - 1;
    assert forall i | 0 <= i < n :: held[i] == s.lines[i];
    if s.complete {
      assert held[n] == f;
    } else {
      assert held[n] == s.lines[n] + f && ValidLine(s.lines[n], false);
      assert held[n][..|held[n]| - 1] == s.lines[n] + f[..|f| - 1];
    }
  }

  lemma CommitLineValid(s: State, f: string)
    requires Valid(s) && s.request.None? && Fragment(f)
    ensures CommitLine(s, f).Next? ==> Valid(CommitLine(s, f).state)
  {
    hide ParseRequest, Held;
    HeldShape(s, f);
    var held := Held(s, f);
    var n := |held| - 1;
    assert held[n] == held[n][..|held[n]| - 1] + [f[|f| - 1]];
  }

  // ---------- a call with a chunk of bytes ----------

  datatype Outcome = Done(state: State, rest: string) | Thrown(error: Error, rest: string)

  function FragmentLength(bytes: string): (n: nat)
    requires bytes != ""
    ensures 1 <= n <= |bytes| && Fragment(bytes[..n])
    ensures n < |bytes| ==> bytes[n - 1] == LF
  {
    if bytes[0] == LF || |bytes| == 1 then 1
    else
      var n := FragmentLength(bytes[1..]);
      assert bytes[..n + 1][..n] == [bytes[0]] + bytes[1..][..n][..n - 1];
      n + 1
  }

  /** commit_bytes: line by line until the bytes or the request is complete. */
  function Commit(s: State, bytes: string): Outcome
    requires Valid(s)
    decreases |bytes|
  {
    if bytes == "" || s.request.Some? then Done(s, bytes)
    else
      var n := FragmentLength(bytes);
      CommitLineValid(s, bytes[..n]);
      match CommitLine(s, bytes[..n])
      case Next(s') => Commit(s', bytes[n..])
      case Throw(e) => Thrown(e, bytes[n..])
  }

  /** The same, one byte at a time. */
  function Feed(s: State, bytes: string): Outcome
    requires Valid(s)
    decreases |bytes|
  {
    if bytes == "" || s.request.Some? then Done(s, bytes)
    else
      CommitLineValid(s, bytes[..1]);
      match CommitLine(s, bytes[..1])
      case Next(s') => Feed(s', bytes[1..])
      case Throw(e) => Thrown(e, bytes[1..])
  }

  /** Whatever the bytes, the interpreter stays within its bounds. */
  lemma {:induction false} CommitKeepsValid(s: State, bytes: string)
    requires Valid(s)
    ensures Commit(s, bytes).Done? ==> Valid(Commit(s, bytes).state)
    decreases |bytes|
  {
    if bytes != "" && s.request.None? {
      var n := FragmentLength(bytes);
      CommitLineValid(s, bytes[..n]);
      var step := CommitLine(s, bytes[..n]);
      if step.Next? { CommitKeepsValid(step.state, bytes[n..]); }
    }
  }

  // ---------- fragments are bytes ----------

  /** Growing a fragment at its front: the first byte alone, then the others, has the
      effect of the whole. */
  lemma FirstByte(s: State, f: string)
    requires Valid(s) && s.request.None? && Fragment(f) && |f| > 1
    ensures var step := CommitLine(s, f[..1]);
      if step.Next? then
        && step.state.request.None? && Fragment(f[1..]) && Valid(step.state)
        && CommitLine(step.state, f[1..]) == CommitLine(s, f)
      else
        step.error.Limit() && CommitLine(s, f).Throw? && CommitLine(s, f).error.Limit()
  {
    hide ParseRequest, Held;
    var c := f[..1];
    assert f[0] == f[..|f| - 1][0] && c[0] != LF;
    assert c[..|c| - 1] == "" && Fragment(c);
    HeldGrows(s, f);
    CommitLineValid(s, c);
    assert f[1..][..|f| - 2] == f[..|f| - 1][1..];
    assert f[1..][|f| - 2] == f[|f| - 1];
  }

  lemma HeldGrows(s: State, f: string)
    requires (!s.complete ==> s.lines != []) && |f| > 1
    ensures var held := Held(s, f[..1]);
      && |held| == |Held(s, f)|
      && |held[|held| - 1]| + |f| - 1 == |Held(s, f)[|held| - 1]|
      && Held(State(held, false, None), f[1..]) == Held(s, f)
  {
    var c, n := f[..1], |Held(s, f)| - 1;
    assert f == c + f[1..];
    if !s.complete { assert s.lines[n] + c + f[1..] == s.lines[n] + f; }
  }

  lemma {:induction false} FragmentIsFed(s: State, f: string, rest: string)
    requires Valid(s) && s.request.None? && Fragment(f)
    ensures var step := CommitLine(s, f);
      if step.Next? then Valid(step.state) && Feed(s, f + rest) == Feed(step.state, rest)
      else if step.error.Limit() then Feed(s, f + rest).Thrown? && Feed(s, f + rest).error.Limit()
      else Feed(s, f + rest) == Thrown(step.error, rest)
    decreases |f|
  {
    CommitLineValid(s, f);
    assert (f + rest)[..1] == f[..1] && (f + rest)[1..] == f[1..] + rest;
    if |f| == 1 {
      assert f[..1] == f && f[1..] + rest == rest;
    } else {
      FirstByte(s, f);
      var step := CommitLine(s, f[..1]);
      if step.Next? { FragmentIsFed(step.state, f[1..], rest); }
    }
  }

  /** A chunk has the effect of its bytes one by one, unless a limit is exceeded; then
      both forms report a limit. */
  lemma {:induction false} CommitIsFeed(s: State, bytes: string)
    requires Valid(s)
    ensures var r := Feed(s, bytes);
      if r.Thrown? && r.error.Limit()
      then Commit(s, bytes).Thrown? && Commit(s, bytes).error.Limit()
      else Commit(s, bytes) == r
    decreases |bytes|
  {
    if bytes != "" && s.request.None? {
      var n := FragmentLength(bytes);
      var f, rest := bytes[..n], bytes[n..];
      assert bytes == f + rest;
      FragmentIsFed(s, f, rest);
      var step := CommitLine(s, f);
      if step.Next? { CommitIsFeed(step.state, rest); }
    }
  }

  /** Feeding composes over concatenation. */
  lemma {:induction false} FeedAppend(s: State, a: string, b: string)
    requires Valid(s)
    ensures var r := Feed(s, a);
      if r.Done? then Valid(r.state) && Feed(s, a + b) == Feed(r.state, r.rest + b)
      else Feed(s, a + b) == Thrown(r.error, r.rest + b)
    decreases |a|
  {
    if a == "" || s.request.Some? {
    } else {
      assert (a + b)[..1] == a[..1] && (a + b)[1..] == a[1..] + b;
      CommitLineValid(s, a[..1]);
      var step := CommitLine(s, a[..1]);
      if step.Next? { FeedAppend(step.state, a[1..], b); }
    }
  }

  // ---------- the one-shot reading of a stream ----------

  /** The lines a text without leading LF keeps an interpreter busy with. */
  function Busy(d: string): (ls: seq<string>) {
    var ls := Lines(d);
    if ls[|ls| - 1] == "" then ls[..|ls| - 1] else ls
  }

  /** No line exceeds its limit and there are not too many. */
  ghost predicate InLimits(d: string) {
    var ls := Lines(d);
    && |Busy(d)| <= 16
    && (forall i | 0 <= i < |ls| - 1 :: |ls[i]| < 2048)
    && |ls[|ls| - 1]| <= 2048
  }

  datatype Reading = OverLimit | Incomplete(text: string) | Complete(lines: seq<string>, rest: string)

  ghost function OneShot(stream: string): Reading {
    var d := TrimBlank(stream);
    var i := BlankAt(d);
    if i == |d| then if InLimits(d) then Incomplete(d) else OverLimit
    else if InLimits(d[..i + 2]) then Complete(Lines(d[..i]), d[i + 2..])
    else OverLimit
  }

  /** A stream that ends at its first blank line. */
  lemma OneShotWhole(t: string)
    requires TrimBlank(t) == t && |t| >= 2 && BlankAt(t) == |t| - 2
    ensures OneShot(t) == if InLimits(t) then Complete(Lines(t[..|t| - 2]), "") else OverLimit
  {
    hide InLimits, Lines, TrimBlank, BlankAt;
    var i := BlankAt(TrimBlank(t));
    assert i + 2 == |t|;
    assert t[..i + 2] == t && t[i + 2..] == "";
  }

  /** The state that stands for an incomplete text. */
  function Assembled(d: string): State {
    State(Busy(d), Lines(d)[|Lines(d)| - 1] == "", None)
  }

  /** Lines of a text without blank line are not empty, save for the tail. */
  lemma {:induction false} LinesSolid(d: string)
    requires BlankAt(d) == |d| && (d == "" || d[0] != LF)
    ensures var ls := Lines(d); forall i | 0 <= i < |ls| - 1 :: ls[i] != ""
    ensures Lines(d)[|Lines(d)| - 1] == "" <==> d == "" || d[|d| - 1] == LF
  {
    if d != "" {
      var p := d[..|d| - 1];
      forall j | 0 <= j < |p| ensures !BlankLineAt(p, j) {
        assert !BlankLineAt(d, j);
      }
      BlankAtUnique(p, |p|);
      LinesSolid(p);
      assert |d| >= 2 ==> !BlankLineAt(d, |d| - 2);
    }
  }

  lemma AssembledValid(d: string)
    requires BlankAt(d) == |d| && (d == "" || d[0] != LF) && InLimits(d)
    ensures Valid(Assembled(d))
  {
    LinesSolid(d);
    var ls := Lines(d);
    forall i | 0 <= i < |ls| ensures LF !in ls[i] { assert ls[i] in ls; }
    hide Lines;
    BusyValid(ls);
  }

  lemma BusyValid(ls: seq<string>)
    requires ls != [] && forall i | 0 <= i < |ls| :: LF !in ls[i]
    requires forall i | 0 <= i < |ls| - 1 :: ls[i] != "" && |ls[i]| < 2048
    requires |ls[|ls| - 1]| <= 2048
    ensures var n := |ls| - 1;
      var complete := ls[n] == "";
      var busy := if complete then ls[..n] else ls;
      |busy| <= 16 ==> Valid(State(busy, complete, None))
  {
  }

  lemma InLimitsPrefix(d: string, c: char)
    requires InLimits(d + [c])
    ensures InLimits(d)
  {
    assert (d + [c])[..|d|] == d;
    var ls, ms := Lines(d), Lines(d + [c]);
    assert forall i | 0 <= i < |ls| - 1 :: ls[i] == ms[i];
    assert |ls[|ls| - 1]| <= |ms[|ls| - 1]|;
  }

  lemma LinesPush(d: string, c: char)
    ensures Lines(d + [c]) ==
      if c == LF then Lines(d) + [""]
      else Lines(d)[..|Lines(d)| - 1] + [Lines(d)[|Lines(d)| - 1] + [c]]
  {
    assert (d + [c])[..|d|] == d;
  }

  lemma AssembledHeld(d: string, c: char)
    ensures var ls := Lines(d);
      Held(Assembled(d), [c]) == ls[..|ls| - 1] + [ls[|ls| - 1] + [c]]
  {
    var ls := Lines(d);
    if ls[|ls| - 1] == "" { assert "" + [c] == [c]; }
  }

  /** One more byte on an incomplete text: part of a line, ... */
  lemma AssembledByte(d: string, c: char)
    requires InLimits(d) && c != LF
    ensures var step, e := CommitLine(Assembled(d), [c]), d + [c];
      if InLimits(e) then step == Next(Assembled(e)) else step.Throw? && step.error.Limit()
  {
    hide InLimits, Lines;
    AssembledHeld(d, c);
    LinesPush(d, c);
    InLimitsByte(d, c);
    assert Busy(d + [c]) == Lines(d + [c]);
  }

  lemma InLimitsByte(d: string, c: char)
    requires InLimits(d) && c != LF
    ensures var ls := Lines(d);
      InLimits(d + [c]) <==> |ls[|ls| - 1]| < MAX_LINE_LENGTH && |ls| <= MAX_LINE_COUNT
  {
    LinesPush(d, c);
    hide Lines;
    var ls, ms := Lines(d), Lines(d + [c]);
    assert forall i | 0 <= i < |ls| - 1 :: ms[i] == ls[i];
    assert Busy(d + [c]) == ms;
  }

  lemma JudgedLF(ls: seq<string>)
    requires ls != []
    ensures var n := |ls| - 1;
      Judged(ls[..n] + [ls[n] + [LF]], true) ==
        if |ls[n]| >= MAX_LINE_LENGTH then Throw(TooLongLine)
        else if |ls| > MAX_LINE_COUNT then Throw(TooManyFields)
        else if ls[n] != "" then Next(State(ls, true, None))
        else if n == 0 then Next(INIT)
        else if ParseRequest(ls[..n]).Some? then Next(State([], true, ParseRequest(ls[..n])))
        else Throw(BadField)
  {
    var n := |ls| - 1;
    var held := ls[..n] + [ls[n] + [LF]];
    assert held[..n] == ls[..n] && held[n][..|held[n]| - 1] == ls[n];
    assert ls[..n] + [ls[n]] == ls;
  }

  lemma InLimitsLF(d: string)
    requires InLimits(d)
    ensures var ls := Lines(d);
      InLimits(d + [LF]) <==> |ls[|ls| - 1]| < MAX_LINE_LENGTH && |ls| <= MAX_LINE_COUNT
  {
    LinesPush(d, LF);
    var ls, ms := Lines(d), Lines(d + [LF]);
    assert Busy(d + [LF]) == ls;
    assert forall i | 0 <= i < |ls| :: ms[i] == ls[i];
  }

  /** ... or the end of one. */
  lemma AssembledLF(d: string)
    requires InLimits(d) && d != "" && (Lines(d)[|Lines(d)| - 1] == "" <==> d[|d| - 1] == LF)
    ensures Busy(d) != []
    ensures var step := CommitLine(Assembled(d), [LF]);
      if !InLimits(d + [LF]) then step.Throw? && step.error.Limit()
      else if d[|d| - 1] != LF then step == Next(Assembled(d + [LF]))
      else if ParseRequest(Busy(d)).Some? then step == Next(State([], true, ParseRequest(Busy(d))))
      else step == Throw(BadField)
  {
    var ls := Lines(d);
    AssembledHeld(d, LF);
    InLimitsLF(d);
    BusyNotEmpty(d);
    JudgedLF(ls);
    LinesPush(d, LF);
    assert Assembled(d + [LF]) == State(ls, true, None);
  }

  lemma BusyNotEmpty(d: string)
    requires d != ""
    ensures Busy(d) != []
  {
    LinesRebuild(d);
    assert Lines(d) == [""] ==> Terminated([]) + "" == "";
  }

  lemma PrefixHasNoBlank(d: string, n: nat)
    requires n <= |d| && n <= BlankAt(d) + 1
    ensures BlankAt(d[..n]) == n
  {
    forall j | 0 <= j < n ensures !BlankLineAt(d[..n], j) {
      assert j < BlankAt(d) ==> !BlankLineAt(d, j);
    }
    BlankAtUnique(d[..n], n);
  }

  lemma FeedByte(s: State, c: char)
    requires Valid(s) && s.request.None?
    ensures var step := CommitLine(s, [c]);
      Feed(s, [c]) == if step.Next? then Done(step.state, "") else Thrown(step.error, "")
  {
    assert [c][..1] == [c] && [c][1..] == "";
    CommitLineValid(s, [c]);
  }

  lemma NothingRead()
    ensures InLimits("") && Assembled("") == INIT && Valid(INIT)
  {
  }

  /** Reading an incomplete text from the start assembles it, or breaks a limit. */
  lemma {:induction false} FeedText(d: string)
    requires d == "" || d[0] != LF
    requires BlankAt(d) == |d|
    ensures if InLimits(d) then Valid(Assembled(d)) && Feed(INIT, d) == Done(Assembled(d), "")
            else Feed(INIT, d).Thrown? && Feed(INIT, d).error.Limit()
  {
    hide InLimits, Busy, CommitLine;
    if d == "" {
      NothingRead();
    } else {
      var p, c := d[..|d| - 1], d[|d| - 1];
      assert d == p + [c];
      PrefixHasNoBlank(d, |p|);
      FeedText(p);
      FeedAppend(INIT, p, [c]);
      if InLimits(p) {
        FeedByte(Assembled(p), c);
        assert "" + [c] == [c];
        if c == LF {
          LinesSolid(p);
          AssembledLF(p);
          assert |d| >= 2 ==> !BlankLineAt(d, |d| - 2);
        } else {
          AssembledByte(p, c);
        }
        if InLimits(d) { AssembledValid(d); }
      } else {
        assert InLimits(p + [c]) ==> InLimits(p) by { if InLimits(p + [c]) { InLimitsPrefix(p, c); } }
      }
    }
  }

  ghost function Taken(lines: seq<string>, rest: string): Outcome
    requires lines != []
  {
    var request := ParseRequest(lines);
    if request.Some? then Done(State([], true, request), rest) else Thrown(BadField, rest)
  }

  /** The blank line that ends a request. */
  lemma FeedBlankLine(p: string)
    requires p != "" && p[0] != LF && p[|p| - 1] == LF && BlankAt(p) == |p|
    ensures Busy(p) != []
    ensures var r := Feed(INIT, p + [LF]);
      if InLimits(p + [LF]) then r == Taken(Busy(p), "") else r.Thrown? && r.error.Limit()
  {
    hide Feed, InLimits, ParseRequest, CommitLine, Busy;
    BusyNotEmpty(p);
    FeedText(p);
    FeedAppend(INIT, p, [LF]);
    if InLimits(p) {
      FeedByte(Assembled(p), LF);
      assert "" + [LF] == [LF];
      LinesSolid(p);
      AssembledLF(p);
    } else {
      assert InLimits(p + [LF]) ==> InLimits(p) by { if InLimits(p + [LF]) { InLimitsPrefix(p, LF); } }
    }
  }

  lemma PrefixPush(d: string, n: nat)
    requires n < |d|
    ensures d[..n + 1] == d[..n] + [d[n]]
  {
  }

  /** Reading up to and including the first blank line. */
  lemma FeedRequest(d: string)
    requires d != "" && d[0] != LF && BlankAt(d) < |d|
    ensures var i, r := BlankAt(d), Feed(INIT, d);
      if InLimits(d[..i + 2]) then r == Taken(Lines(d[..i]), d[i + 2..])
      else r.Thrown? && r.error.Limit()
  {
    hide Feed, InLimits, Taken, Lines, Busy, BlankAt;
    var i := BlankAt(d);
    SplitAtBlank(d);
    FeedBlankThen(d[..i + 1], d[i + 2..]);
  }

  lemma SplitAtBlank(d: string)
    requires d != "" && d[0] != LF && BlankAt(d) < |d|
    ensures var i := BlankAt(d);
      && i + 2 <= |d| && d[i] == LF && d[..i + 1] + [LF] == d[..i + 2]
      && d == d[..i + 1] + [LF] + d[i + 2..]
      && BlankAt(d[..i + 1]) == i + 1 && Busy(d[..i + 1]) == Lines(d[..i])
  {
    hide BlankAt, Lines, Busy;
    var i := BlankAt(d);
    assert BlankLineAt(d, i);
    PrefixHasNoBlank(d, i + 1);
    PrefixPush(d, i);
    BusyLF(d[..i]);
    Cut(d, i + 1);
  }

  lemma BusyLF(t: string)
    ensures Busy(t + [LF]) == Lines(t)
  {
    LinesPush(t, LF);
  }

  lemma Cut(d: string, n: nat)
    requires n < |d|
    ensures d[..n] + [d[n]] == d[..n + 1] && d[..n] + [d[n]] + d[n + 1..] == d
  {
  }

  lemma FeedBlankThen(p: string, rest: string)
    requires p != "" && p[0] != LF && p[|p| - 1] == LF && BlankAt(p) == |p|
    ensures Busy(p) != []
    ensures var r := Feed(INIT, p + [LF] + rest);
      if InLimits(p + [LF]) then r == Taken(Busy(p), rest) else r.Thrown? && r.error.Limit()
  {
    FeedBlankLine(p);
    if InLimits(p + [LF]) {
      FeedBeyond(p + [LF], Busy(p), rest);
    } else {
      FeedAppend(INIT, p + [LF], rest);
    }
  }

  lemma FeedBeyond(text: string, lines: seq<string>, rest: string)
    requires lines != [] && Feed(INIT, text) == Taken(lines, "")
    ensures Feed(INIT, text + rest) == Taken(lines, rest)
  {
    hide CommitLine, ParseRequest;
    FeedAppend(INIT, text, rest);
    assert "" + rest == rest;
  }

  lemma BlankLineIgnored()
    ensures CommitLine(INIT, [LF]) == Next(INIT)
  {
    assert Held(INIT, [LF]) == [[LF]];
  }

  lemma FeedLeadingLF(t: string)
    requires t != "" && t[0] == LF
    ensures Feed(INIT, t) == Feed(INIT, t[1..])
  {
    hide CommitLine;
    assert t[..1] == [LF];
    BlankLineIgnored();
  }

  lemma {:induction false} FeedTrims(t: string)
    ensures Feed(INIT, t) == Feed(INIT, TrimBlank(t))
  {
    hide Feed;
    if t != "" && t[0] == LF {
      FeedLeadingLF(t);
      FeedTrims(t[1..]);
    }
  }

  // ---------- what the interpreter holds, as text ----------

  /** The bytes that produced the held lines. */
  function Buffered(s: State): string {
    if s.complete || s.lines == [] then Terminated(s.lines)
    else Terminated(s.lines[..|s.lines| - 1]) + s.lines[|s.lines| - 1]
  }

  lemma BufferedAssembles(s: State)
    requires Valid(s) && s.request.None?
    ensures var d := Buffered(s);
      && (d == "" || d[0] != LF) && BlankAt(d) == |d| && InLimits(d) && Assembled(d) == s
  {
    var d, n := Buffered(s), |s.lines| - 1;
    if s.complete {
      TerminatedHasNoBlank(s.lines);
      LinesOfTerminated(s.lines);
      assert Lines(d)[..|s.lines|] == s.lines;
    } else {
      var full, tail := s.lines[..n], s.lines[n];
      TerminatedHasNoBlank(full);
      LinesOfTerminated(full);
      LinesAppendPiece(Terminated(full), tail);
      assert (full + [""])[..n] == full && "" + tail == tail;
      assert full + [tail] == s.lines;
      BlankAtAppendPiece(Terminated(full), tail);
    }
  }

  lemma BlankAtAppendPiece(t: string, piece: string)
    requires BlankAt(t) == |t| && LF !in piece
    ensures BlankAt(t + piece) == |t + piece|
  {
    var u := t + piece;
    forall j | 0 <= j < |u| ensures !BlankLineAt(u, j) {
      if j + 1 < |t| {
        assert !BlankLineAt(t, j);
      } else if j + 1 < |u| {
        assert u[j + 1] == piece[j + 1 - |t|];
      }
    }
    BlankAtUnique(u, |u|);
  }

  lemma FeedIsOneShot(t: string)
    ensures var r := Feed(INIT, t);
      match OneShot(t)
      case OverLimit => r.Thrown? && r.error.Limit()
      case Incomplete(text) => r == Done(Assembled(text), "") && Valid(r.state) && Buffered(r.state) == text
      case Complete(lines, rest) => r == Taken(lines, rest)
  {
    hide Feed, InLimits, Lines, Busy, Buffered, Taken;
    var d := TrimBlank(t);
    FeedTrims(t);
    if BlankAt(d) == |d| {
      FeedText(d);
      AssembledBuffered(d);
    } else {
      FeedRequest(d);
    }
  }

  /** The interpreter refines the one-shot reading. Whatever it holds and however the
      stream reached it, a chunk is over the limits exactly when the stream so far is;
      otherwise it stops right after the first blank line with exactly the remainder,
      having parsed exactly the lines before it, or holds the whole stream but for its
      leading blank lines. */
  lemma RefinesOneShot(s: State, bytes: string)
    requires Valid(s) && s.request.None?
    ensures var r := Commit(s, bytes);
      match OneShot(Buffered(s) + bytes)
      case OverLimit => r.Thrown? && r.error.Limit()
      case Incomplete(text) =>
        r.Done? && r.rest == "" && Valid(r.state) && r.state.request.None? && Buffered(r.state) == text
      case Complete(lines, rest) => r == Taken(lines, rest)
  {
    hide OneShot, Commit, Feed, InLimits, Lines, Busy, Buffered, ParseRequest;
    BufferedAssembles(s);
    FeedText(Buffered(s));
    FeedAppend(INIT, Buffered(s), bytes);
    assert "" + bytes == bytes;
    FeedIsOneShot(Buffered(s) + bytes);
    CommitIsFeed(s, bytes);
  }

  lemma AssembledBuffered(d: string)
    ensures Buffered(Assembled(d)) == d
  {
    LinesRebuild(d);
    var ls := Lines(d);
    if ls[|ls| - 1] == "" {
      assert Terminated(ls[..|ls| - 1]) + "" == Terminated(ls[..|ls| - 1]);
    }
  }

  // ---------- any cutting of the stream ----------

  /** Chunk after chunk until a request or an error, with all that is left over. */
  function CommitChunks(s: State, chunks: seq<string>): Outcome
    requires Valid(s)
    decreases |chunks|
  {
    if chunks == [] then Done(s, "")
    else
      CommitKeepsValid(s, chunks[0]);
      match Commit(s, chunks[0])
      case Thrown(e, rest) => Thrown(e, rest + Concat(chunks[1..]))
      case Done(s', rest) =>
        if s'.request.Some? then Done(s', rest + Concat(chunks[1..])) else CommitChunks(s', chunks[1..])
  }

  /** However a stream within the limits is cut, the outcome is that of its bytes. */
  lemma {:induction false} CuttingIrrelevant(s: State, chunks: seq<string>)
    requires Valid(s) && s.request.None?
    ensures var r := Feed(s, Concat(chunks));
      if r.Thrown? && r.error.Limit()
      then CommitChunks(s, chunks).Thrown? && CommitChunks(s, chunks).error.Limit()
      else CommitChunks(s, chunks) == r
    decreases |chunks|
  {
    if chunks != [] {
      var c, more := chunks[0], chunks[1..];
      CommitKeepsValid(s, c);
      CommitIsFeed(s, c);
      FeedAppend(s, c, Concat(more));
      var r := Feed(s, c);
      if r.Done? && r.state.request.None? {
        FeedFinishes(s, c);
        assert "" + Concat(more) == Concat(more);
        CuttingIrrelevant(r.state, more);
      }
    }
  }

  /** Bytes are left over only when a request is ready. */
  lemma {:induction false} FeedFinishes(s: State, bytes: string)
    requires Valid(s)
    ensures Feed(s, bytes).Done? && Feed(s, bytes).state.request.None? ==> Feed(s, bytes).rest == ""
    decreases |bytes|
  {
    if bytes != "" && s.request.None? {
      CommitLineValid(s, bytes[..1]);
      var step := CommitLine(s, bytes[..1]);
      if step.Next? { FeedFinishes(step.state, bytes[1..]); }
    }
  }

  // ---------- recovery ----------

  /** The interpreter after a command-mode client has dealt with what a byte produced:
      a request is taken and an error restarts (server/src/server/client.cpp). */
  function Settled(s: State, c: char): (r: State)
    requires Valid(s) && s.request.None?
    ensures Valid(r) && r.request.None?
  {
    CommitLineValid(s, [c]);
    match CommitLine(s, [c])
    case Next(s') => if s'.request.Some? then INIT else s'
    case Throw(_) => INIT
  }

  /** Two LFs bring the interpreter back to its initial state from anywhere. */
  lemma TwoLFsRecover(s: State)
    requires Valid(s) && s.request.None?
    ensures Settled(Settled(s, LF), LF) == INIT
  {
    var n := |s.lines| - 1;
    if !s.complete { assert ValidLine(s.lines[n], false); }
  }

  // ---------- the class ----------

  class ProtocolInterpreter {
    var lines: seq<string>
    var lastLineComplete: bool
    var request: Option<Request>

    function View(): State
      reads this
    {
      State(lines, lastLineComplete, request)
    }

    constructor ()
      ensures View() == INIT
    {
      lines, lastLineComplete, request := [], true, None;
    }

    method Restart()
      modifies this
      ensures View() == INIT
    {
      lines := [];
      request := None;
      lastLineComplete := true;
    }

    method CommitBytes(bytes: string) returns (rest: string, thrown: Option<Error>)
      requires Valid(View())
      modifies this
      ensures match Commit(old(View()), bytes)
        case Done(s, r) => thrown == None && View() == s && rest == r && Valid(s)
        case Thrown(e, r) => thrown == Some(e) && rest == r && (e.Limit() ==> View() == INIT)
    {
      rest, thrown := bytes, None;
      while rest != "" && request.None?
        invariant Valid(View()) && thrown == None
        invariant Commit(old(View()), bytes) == Commit(View(), rest)
        decreases |rest|
      {
        var n := FragmentLength(rest);
        var line := rest[..n];
        CommitLineValid(View(), line);
        rest := rest[n..];
        thrown := AddLine(line);
        if thrown.Some? { return; }
      }
    }

    method AddLine(line: string) returns (thrown: Option<Error>)
      requires Valid(View()) && request.None? && line != ""
      modifies this
      ensures match CommitLine(old(View()), line)
        case Next(s) => thrown == None && View() == s
        case Throw(e) => thrown == Some(e) && (e.Limit() ==> View() == INIT)
    {
      if lastLineComplete {
        lines := lines + [line];
      } else {
        lines := lines[..|lines| - 1] + [lines[|lines| - 1] + line];
      }
      thrown := CheckForProtocolErrors();
      if thrown.Some? { return; }

      var n := |lines| - 1;
      lastLineComplete := lines[n][|lines[n]| - 1] == LF;
      if lastLineComplete {
        lines := lines[..n] + [lines[n][..|lines[n]| - 1]];
      }

      if lines[n] == "" {
        if n > 0 {
          lines := lines[..n];
          thrown := CommitRequest();
          if thrown.Some? { return; }
        }
        lines := [];
      }
    }

    method CheckForProtocolErrors() returns (thrown: Option<Error>)
      requires lines != []
      modifies this
      ensures thrown == if |old(lines)[|old(lines)| - 1]| > 2048 then Some(TooLongLine)
                        else if |old(lines)| > 16 then Some(TooManyFields)
                        else None
      ensures View() == if thrown.Some? then INIT else old(View())
    {
      var tooLongLine := |lines[|lines| - 1]| > MAX_LINE_LENGTH;
      var tooManyLines := |lines| > MAX_LINE_COUNT;
      thrown := None;
      if tooLongLine || tooManyLines {
        Restart();
        thrown := Some(if tooLongLine then TooLongLine else TooManyFields);
      }
    }

    method CommitRequest() returns (thrown: Option<Error>)
      requires request.None? && lines != []
      modifies this
      ensures lines == old(lines) && lastLineComplete == old(lastLineComplete)
      ensures request == ParseRequest(lines)
      ensures thrown == if request.Some? then None else Some(BadField)
    {
      var fields: seq<Fields.Field> := [];
      thrown := None;
      for i := 1 to |lines|
        invariant request.None? && lines == old(lines) && lastLineComplete == old(lastLineComplete)
        invariant ParseFields(lines[1..i]) == Some(fields)
      {
        assert lines[1..i + 1][..i - 1] == lines[1..i];
        var field := Fields.FieldFromString(lines[i]);
        if field.BadField? {
          FieldsFail(lines[1..], i - 1);
          return Some(BadField);
        }
        fields := fields + [field.field];
      }
      assert lines[1..|lines|] == lines[1..];
      request := Some(Request(lines[0], fields));
    }

    method GetRequest() returns (r: Request)
      requires request.Some?
      modifies this
      ensures Some(r) == old(request) && View() == INIT
    {
      r := request.value;
      Restart();
    }
  }

  lemma {:induction false} FieldsFail(lines: seq<string>, i: nat)
    requires i < |lines| && !Fields.FieldFromString(lines[i]).Ok?
    ensures ParseFields(lines).None?
  {
    if i < |lines| - 1 { FieldsFail(lines[..|lines| - 1], i); }
  }
}
