/** Requests sent without waiting for the reply to the one before: two pairs of runs that
    read the same bytes and do different things with them. */
module Pipelining {
  import opened Options
  import opened Text
  import opened ProtocolMode
  import opened Connection
  import opened Client
  import opened ClientProgress
  import I = Interpreter
  import Requests

  /** Knows `exit` and `dls`; the file that `dls` sends has one byte. */
  const SERVER := Server((log: seq<Event>, request: I.Request) => Answer(request), (e: I.Error) => "300\n\n", (log: seq<Event>) => true)

  function Answer(request: I.Request): Action {
    if request.name == "exit" then Reply("100\n\n", true)
    else if request.name == "dls" then StartDownload("x", 0)
    else Reply("100\n\n", false)
  }

  /** A request without fields. */
  function Bare(name: string): string { Message([name]) }

  ghost predicate Short(name: string) { name != "" && LF !in name && |name| < 10 }

  /** A bare request in front of anything. */
  lemma BareIsTaken(name: string, rest: string)
    requires Short(name)
    ensures I.Commit(I.INIT, Bare(name) + rest) == I.Done(I.State([], true, Some(I.Request(name, []))), rest)
  {
    hide I.Commit, I.Feed, I.OneShot, Message;
    BareIsComplete(name);
    I.FeedIsOneShot(Bare(name));
    I.FeedBeyond(Bare(name), [name], rest);
    I.NothingRead();
    I.CommitIsFeed(I.INIT, Bare(name) + rest);
  }

  lemma BareIsComplete(name: string)
    requires Short(name)
    ensures I.OneShot(Bare(name)) == I.Complete([name], "")
  {
    assert Solid([name]);
    Requests.RequestTextShape([name]);
  }

  lemma BareNotEmpty(name: string)
    ensures Bare(name) != ""
  {
  }

  function MayWrite(): Readiness { Readiness(false, true, None, [5, 5], false, 1) }

  /** One request of a batch, then the others. */
  lemma BatchTakes(c: Conn, name: string, rest: string)
    requires Valid(c) && c.mode == Command && c.interp == I.INIT && Short(name)
    ensures var r := Execute(SERVER, c, I.Request(name, []));
      && Valid(r.conn)
      && Batch(SERVER, c, Bare(name) + rest) ==
           if r.thrown || rest == "" then r.(rest := rest) else Batch(SERVER, r.conn, rest)
  {
    BareIsTaken(name, rest);
    BareNotEmpty(name);
    RoundProgress(SERVER, c, Bare(name) + rest);
    assert c.(interp := I.INIT) == c;
    hide I.Commit, Bare;
  }

  const LS := I.Request("ls", [])
  const EXIT := I.Request("exit", [])
  const DLS := I.Request("dls", [])
  const OK := Reply("100\n\n", false)

  lemma Names()
    ensures Short("ls") && Short("exit") && Short("dls")
    ensures Answer(LS) == OK && Answer(EXIT) == Reply("100\n\n", true) && Answer(DLS) == StartDownload("x", 0)
  {
    assert |"ls"| != |"exit"| && |"ls"| != |"dls"| && |"dls"| != |"exit"|;
  }

  lemma BatchOne(c: Conn, name: string)
    requires Valid(c) && c.mode == Command && c.interp == I.INIT && Short(name)
    ensures Batch(SERVER, c, Bare(name)) == Execute(SERVER, c, I.Request(name, []))
  {
    BatchTakes(c, name, "");
    assert Bare(name) + "" == Bare(name);
  }

  /** After reading one request that arrives alone. */
  lemma HandlesOne(c: Conn, name: string)
    requires Valid(c) && c.mode == Command && c.interp == I.INIT && c.pending == "" && Short(name)
    ensures var r := Execute(SERVER, c, I.Request(name, []));
      Handle(SERVER, c, Arrives(Bare(name))) == if r.thrown then r.conn.(alive := false) else r.conn
  {
    BatchOne(c, name);
    BareNotEmpty(name);
    hide Bare, Batch;
  }

  lemma HandlesTwo(c: Conn, first: string, second: string)
    requires Valid(c) && c.mode == Command && c.interp == I.INIT && c.pending == "" && Short(first) && Short(second)
    requires Execute(SERVER, c, I.Request(first, [])).conn.mode == Command
    requires Execute(SERVER, c, I.Request(first, [])).conn.interp == I.INIT && !Execute(SERVER, c, I.Request(first, [])).thrown
    ensures var c1 := Execute(SERVER, c, I.Request(first, [])).conn;
      var r := Execute(SERVER, c1, I.Request(second, []));
      Handle(SERVER, c, Arrives(Bare(first) + Bare(second))) == if r.thrown then r.conn.(alive := false) else r.conn
  {
    hide Bare, Batch, Execute;
    BatchTakes(c, first, Bare(second));
    BareNotEmpty(first);
    BareNotEmpty(second);
    BatchOne(Execute(SERVER, c, I.Request(first, [])).conn, second);
  }

  lemma TwoEvents(c: Conn, a: Readiness, b: Readiness)
    requires Valid(c) && c.alive
    ensures HandleAll(SERVER, c, [a]) == Handle(SERVER, c, a)
    ensures HandleAll(SERVER, c, [a, b]) ==
      if Handle(SERVER, c, a).alive then Handle(SERVER, Handle(SERVER, c, a), b) else Handle(SERVER, c, a)
  {
    hide Handle;
    assert [a, b][1..] == [b] && [b][1..] == [] && [a][1..] == [];
    var c' := Handle(SERVER, c, a);
    assert HandleAll(SERVER, c', []) == c';
    if c'.alive {
      var c2 := Handle(SERVER, c', b);
      assert HandleAll(SERVER, c2, []) == c2;
      assert HandleAll(SERVER, c', [b]) == c2;
    }
  }

  /** `exit` and `ls` together: both are executed; one after the other: only `exit`. */
  lemma ExitThenLs()
    ensures HandleAll(SERVER, START, [Arrives(Bare("exit") + Bare("ls"))]).log ==
      [Executed(EXIT, Reply("100\n\n", true)), Executed(LS, OK)]
    ensures HandleAll(SERVER, START, [Arrives(Bare("exit")), Arrives(Bare("ls"))]).log ==
      [Executed(EXIT, Reply("100\n\n", true))]
  {
    Names();
    hide Answer, Bare;
    TwoEvents(START, Arrives(Bare("exit") + Bare("ls")), Arrives(""));
    TwoEvents(START, Arrives(Bare("exit")), Arrives(Bare("ls")));
    HandlesOne(START, "exit");
    HandlesTwo(START, "exit", "ls");
    assert [Executed(EXIT, Reply("100\n\n", true))] + [Executed(LS, OK)] ==
      [Executed(EXIT, Reply("100\n\n", true)), Executed(LS, OK)];
  }

  // ---------- `dls` and `ls` ----------

  /** While the file is being sent. */
  const SENDING := START.(mode := Download, transfer := Some(Transfer("x", 0)), log := [Executed(DLS, StartDownload("x", 0))])

  /** Once it has gone. */
  const SENT := START.(log := [Executed(DLS, StartDownload("x", 0))], written := "x")

  lemma StartsSending()
    ensures Execute(SERVER, START, DLS) == Turn(SENDING, "", false) && Valid(SENDING)
  {
    Names();
    hide Answer;
  }

  lemma FileGoes(pending: string)
    ensures Valid(SENDING.(pending := pending)) && Handle(SERVER, SENDING.(pending := pending), MayWrite()) == SENT
  {
    assert "x"[0..][..1] == "x" && "" + "x" == "x";
    if pending != "" { assert Batch(SERVER, SENDING.(pending := pending), pending).conn == SENDING.(pending := pending); }
  }

  lemma TogetherParks()
    ensures Handle(SERVER, START, Arrives(Bare("dls") + Bare("ls"))) == SENDING.(pending := Bare("ls"))
  {
    Names();
    StartsSending();
    BareNotEmpty("dls");
    BareNotEmpty("ls");
    BatchTakes(START, "dls", Bare("ls"));
    hide Bare, Execute, Answer;
    var c := SENDING.(pending := Bare("ls"));
    assert Round(SERVER, SENDING, Bare("ls")) == Turn(c, "", false);
    assert Batch(SERVER, SENDING, Bare("ls")) == Turn(c, "", false);
  }

  /** `dls` and `ls` together: `ls` is never executed, though the file is sent; one after
      the other: both are. */
  lemma DlsThenLs()
    ensures var c := HandleAll(SERVER, START, [Arrives(Bare("dls") + Bare("ls")), MayWrite()]);
      c.log == [Executed(DLS, StartDownload("x", 0))] && c.pending == "" && c.written == "x"
    ensures var c := HandleAll(SERVER, START, [Arrives(Bare("dls")), MayWrite()]);
      Handle(SERVER, c, Arrives(Bare("ls"))).log == [Executed(DLS, StartDownload("x", 0)), Executed(LS, OK)]
  {
    Names();
    StartsSending();
    hide Bare, Answer, Handle, HandleAll;
    FileGoes("");
    FileGoes(Bare("ls"));
    TogetherParks();
    assert SENDING.(pending := "") == SENDING;
    TwoEvents(START, Arrives(Bare("dls") + Bare("ls")), MayWrite());
    TwoEvents(START, Arrives(Bare("dls")), MayWrite());
    HandlesOne(START, "dls");
    HandlesOne(SENT, "ls");
    assert [Executed(DLS, StartDownload("x", 0))] + [Executed(LS, OK)] ==
      [Executed(DLS, StartDownload("x", 0)), Executed(LS, OK)];
  }
}
