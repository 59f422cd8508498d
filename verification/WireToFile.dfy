/** From the bytes on a connection to the file on the disk: the bytes that the connection
    takes for an upload, however they arrive, are the ones that make up the file. */
module WireToFile {
  import opened Options
  import opened Paths
  import opened Disks
  import opened Uploads
  import opened ProtocolMode
  import opened ServerState
  import opened ServerSafety
  import opened ServerRuns
  import opened ServerTheorems
  import opened UploadTheorems
  import Text
  import N = Connection
  import K = Client

  // ---------- the connection ----------

  lemma StepStores(server: N.Server, i: N.Input, b: char)
    requires N.ValidInput(i) && i.left.Some? && i.left.value > 1
    ensures N.Step(server, i, b) == i.(left := Some(i.left.value - 1), log := i.log + [N.Stored(b)])
  {
  }

  /** An upload that is put in place takes exactly the bytes it is missing. */
  lemma {:induction false} StoresAll(server: N.Server, i: N.Input, stream: string)
    requires N.ValidInput(i) && i.left.Some? && i.left.value <= |stream| && stream != ""
    requires server.places(i.log + N.StoredBytes(stream[..i.left.value]))
    ensures var left := i.left.value;
      var j := i.(left := None, log := i.log + N.StoredBytes(stream[..left]) + [N.Finished]);
      N.Run(server, i, stream) == N.Run(server, j, stream[left..])
    decreases i.left.value
  {
    var left := i.left.value;
    if left == 0 {
      assert stream[..0] == "" && stream[0..] == stream && i.log + N.StoredBytes("") == i.log;
      var j := i.(left := None, log := i.log + [N.Finished]);
      assert N.Step(server, i, stream[0]) == N.Step(server, j, stream[0]);
      hide N.Step;
    } else {
      var b, more := stream[0], stream[1..];
      var k := i.(left := Some(left - 1), log := i.log + [N.Stored(b)]);
      N.StoredFirst(i.log, stream, left);
      assert more[left - 1..] == stream[left..];
      if left == 1 {
        assert more[..0] == "" && k.log + N.StoredBytes("") == k.log;
      } else {
        StepStores(server, i, b);
        hide N.Step;
        StoresAll(server, k, more);
      }
    }
  }

  lemma StepLog(server: N.Server, i: N.Input, b: char)
    requires N.ValidInput(i)
    ensures i.log <= N.Step(server, i, b).log
  {
  }

  lemma {:induction false} RunLog(server: N.Server, i: N.Input, stream: string)
    requires N.ValidInput(i)
    ensures i.log <= N.Run(server, i, stream).log
    decreases |stream|
  {
    hide N.Step;
    if stream != "" {
      StepLog(server, i, stream[0]);
      RunLog(server, N.Step(server, i, stream[0]), stream[1..]);
    }
  }

  /** Whatever the batches, the connection stores the first bytes of its stream and then
      goes on with requests. */
  lemma ConnectionStores(server: N.Server, conn: N.Conn, evs: seq<K.Readiness>)
    requires N.Valid(conn) && conn.mode == Upload && conn.pending == "" && K.CleanRun(server, conn, evs)
    requires var stream, left := K.Stream(server, conn, evs), conn.uploadLeft.value;
      left <= |stream| && stream != "" && server.places(conn.log + N.StoredBytes(stream[..left]))
    ensures var stream, left := K.Stream(server, conn, evs), conn.uploadLeft.value;
      conn.log + N.StoredBytes(stream[..left]) + [N.Finished] <= K.HandleAll(server, conn, evs).log
  {
    hide N.Run, K.CleanRun, K.Stream, K.HandleAll, N.StoredBytes;
    var stream, left, i := K.Stream(server, conn, evs), conn.uploadLeft.value, N.InputOf(conn);
    K.StreamDecides(server, conn, evs);
    StoresAll(server, i, stream);
    RunLog(server, i.(left := None, log := i.log + N.StoredBytes(stream[..left]) + [N.Finished]), stream[left..]);
  }

  // ---------- the disk ----------

  lemma WrittenTwice(d: Disk, h: Handle, a: string, b: string)
    ensures Written(Written(d, h, a), h, b) == Written(d, h, a + b)
  {
    if a == "" {
      assert a + b == b;
    } else if b == "" {
      assert a + b == a;
    } else if h in d.open && d.open[h] in d.tree {
      var text := TextOf(d.tree[d.open[h]]);
      assert text + a + b == text + (a + b);
    }
  }

  /** Bytes in two pieces, the first of which does not end the upload. */
  lemma CommittedTwice(d: Disk, root: Path, h: Handle, t: Token, a: string, b: string)
    requires ValidToken(t) && |a| < t.size - t.offset
    ensures var r := Committed(d, root, h, t, a);
      && r == Progress(Written(d, h, a), Some(t.(offset := t.offset + |a|)), "", false)
      && Committed(r.disk, root, h, r.token.value, b) == Committed(d, root, h, t, a + b)
  {
    assert a[..|a|] == a && a[|a|..] == "";
    var missing := t.size - t.offset - |a|;
    var count := if |b| < missing then |b| else missing;
    assert (a + b)[..|a| + count] == a + b[..count] && (a + b)[|a| + count..] == b[count..];
    WrittenTwice(d, h, a, b[..count]);
    hide Written, Replaced, Renamable;
  }

  lemma DataTwice(s: State, c: ClientId, a: string, b: string)
    requires Receives(s, c) && |a| < TokenOf(s, c).size - TokenOf(s, c).offset
    ensures var s1 := Data(s, c, a); Receives(s1, c) && Data(s1, c, b) == Data(s, c, a + b)
    ensures TokenOf(Data(s, c, a), c) == TokenOf(s, c).(offset := TokenOf(s, c).offset + |a|)
  {
    CommittedTwice(s.disk, s.root, FileOf(s, c), TokenOf(s, c), a, b);
    hide Committed, Written;
    var s1 := Data(s, c, a);
    assert Receives(s1, c) && FileOf(s1, c) == FileOf(s, c);
    DataRest(s, s1, c, b, Committed(s.disk, s.root, FileOf(s, c), TokenOf(s, c), a + b));
  }

  /** The same outcome for two states that differ in how far the upload is. */
  lemma DataRest(s: State, s1: State, c: ClientId, b: string, r: Progress)
    requires Receives(s, c) && Receives(s1, c) && FileOf(s1, c) == FileOf(s, c)
    requires r == Committed(s1.disk, s1.root, FileOf(s1, c), TokenOf(s1, c), b)
    requires var id := FileOf(s, c);
      && s1.clients == s.clients
      && s1 == s.(disk := s1.disk, locks := s.locks[id := s.locks[id].(payload := s1.locks[id].payload)])
    ensures Data(s1, c, b) == Outcome(s, c, r)
  {
    hide Committed;
    var id := FileOf(s, c);
    assert s1.locks - {id} == s.locks - {id};
  }

  /** What a step of an upload makes of the state. */
  function Outcome(s: State, c: ClientId, r: Progress): State
    requires Receives(s, c)
  {
    var s, ctx, id := SetDisk(s, r.disk), s.clients[c], FileOf(s, c);
    if r.token.None? then
      s.(locks := s.locks - {id}, clients := s.clients[c := ctx.(held := ctx.held - {Storing}, mode := Command)])
    else
      var t := r.token.value;
      s.(locks := s.locks[id := s.locks[id].(payload := Store(t.size, t.offset, t.stem, true))],
         clients := s.clients[c := ctx.(alive := ctx.alive && !r.thrown)])
  }

  function DataEvents(c: ClientId, chunks: seq<string>): seq<Event> {
    if chunks == [] then [] else [DoData(c, chunks[0])] + DataEvents(c, chunks[1..])
  }

  lemma RunChunk(s: State, c: ClientId, chunks: seq<string>)
    requires chunks != []
    ensures Run(s, DataEvents(c, chunks)) == Run(Step(s, DoData(c, chunks[0])), DataEvents(c, chunks[1..]))
  {
    hide Step;
    var more := DataEvents(c, chunks[1..]);
    assert ([DoData(c, chunks[0])] + more)[1..] == more;
  }

  lemma {:induction false} NothingMore(s: State, c: ClientId, chunks: seq<string>)
    requires !Receives(s, c)
    ensures Run(s, DataEvents(c, chunks)) == s
    decreases |chunks|
  {
    hide Receives;
    if chunks != [] {
      RunChunk(s, c, chunks);
      NothingMore(s, c, chunks[1..]);
    }
  }

  /** However the missing bytes are cut into chunks, the state is that of all of them at
      once. */
  lemma {:induction false} ChunksAreOne(s: State, c: ClientId, chunks: seq<string>)
    requires Receives(s, c) && chunks != [] && |Text.Concat(chunks)| == TokenOf(s, c).size - TokenOf(s, c).offset
    requires Finishes(s, c, Text.Concat(chunks))
    ensures Run(s, DataEvents(c, chunks)) == Data(s, c, Text.Concat(chunks))
    decreases |chunks|
  {
    hide Receives, TokenOf, Finishes, Data, Run;
    var a, more := chunks[0], chunks[1..];
    RunChunk(s, c, chunks);
    assert Step(s, DoData(c, a)) == Data(s, c, a);
    hide Step;
    if |a| == |Text.Concat(chunks)| {
      assert a + Text.Concat(more) == a;
      FinishesMode(s, c, a);
      NothingMore(Data(s, c, a), c, more);
    } else {
      DataTwice(s, c, a, Text.Concat(more));
      FinishesLater(s, c, a, Text.Concat(more));
      assert more != [];
      ChunksAreOne(Data(s, c, a), c, more);
    }
  }

  lemma FinishesMode(s: State, c: ClientId, bytes: string)
    requires Receives(s, c) && Finishes(s, c, bytes)
    ensures !Receives(Data(s, c, bytes), c)
  {
    hide Written, Renamable;
  }

  lemma FinishesLater(s: State, c: ClientId, a: string, b: string)
    requires Receives(s, c) && |a| < TokenOf(s, c).size - TokenOf(s, c).offset
    requires |a + b| == TokenOf(s, c).size - TokenOf(s, c).offset
    requires Finishes(s, c, a + b) && Receives(Data(s, c, a), c)
    ensures Finishes(Data(s, c, a), c, b)
  {
    CommittedTwice(s.disk, s.root, FileOf(s, c), TokenOf(s, c), a, b);
    WrittenTwice(s.disk, FileOf(s, c), a, b);
    assert (a + b)[..|a + b|] == a + b && b[..|b|] == b;
    hide Written, Renamable, Committed;
  }

  /** The file that the missing bytes complete. */
  lemma DataCompletes(s: State, c: ClientId, bytes: string)
    requires Inv(s) && ContentInv(s) && Receives(s, c) && |bytes| == TokenOf(s, c).size - TokenOf(s, c).offset
    requires Finishes(s, c, bytes)
    ensures var t, p := TokenOf(s, c), PartialPath(s.root, TokenOf(s, c).stem);
      && p in s.disk.tree
      && Data(s, c, bytes).disk.tree == (s.disk.tree - {p})[t.path := File(TextOf(s.disk.tree[p]) + bytes)]
  {
    hide Inv, ContentInv, Data, Receives, TokenOf, FileOf, Filled;
    var t := TokenOf(s, c);
    UploadOnDisk(s, c);
    FilledWhole(s, c, bytes);
    DataDisk(s, c, bytes);
    ReplacedWhole(Filled(s, c, bytes), s.disk.tree, PartialPath(s.root, t.stem), t.path);
  }

  lemma FilledWhole(s: State, c: ClientId, bytes: string)
    requires Receives(s, c) && |bytes| == TokenOf(s, c).size - TokenOf(s, c).offset
    requires var t, p, h := TokenOf(s, c), PartialPath(s.root, TokenOf(s, c).stem), FileOf(s, c);
      && p in s.disk.tree && s.disk.tree[p].File?
      && (t.offset < t.size ==> h in s.disk.open && s.disk.open[h] == p)
    ensures var p := PartialPath(s.root, TokenOf(s, c).stem);
      Filled(s, c, bytes).tree == s.disk.tree[p := File(TextOf(s.disk.tree[p]) + bytes)]
  {
    var p := PartialPath(s.root, TokenOf(s, c).stem);
    assert bytes[..|bytes|] == bytes;
    if bytes == "" { assert TextOf(s.disk.tree[p]) + bytes == TextOf(s.disk.tree[p]); }
  }

  lemma ReplacedWhole(d: Disk, t: Tree, p: Path, dest: Path)
    requires p in d.tree && d.tree == t[p := d.tree[p]]
    ensures Replaced(d, p, dest).tree == (t - {p})[dest := d.tree[p]]
  {
  }

  lemma UploadOnDisk(s: State, c: ClientId)
    requires Inv(s) && ContentInv(s) && Receives(s, c)
    ensures var t, p, h := TokenOf(s, c), PartialPath(s.root, TokenOf(s, c).stem), FileOf(s, c);
      && p in s.disk.tree && s.disk.tree[p].File? && !Inside(s.root, t.path)
      && (t.offset < t.size ==> h in s.disk.open && s.disk.open[h] == p)
  {
    assert LockHolds(s, FileOf(s, c));
    TokenPlaced(s, c);
  }

  /** The bytes that a connection logs as stored, whatever the batches it reads them in, are
      the bytes that complete the file, whatever the chunks they are committed in. */
  lemma StoredBytesAreTheFile(server: N.Server, conn: N.Conn, evs: seq<K.Readiness>, s: State, c: ClientId, chunks: seq<string>)
    requires N.Valid(conn) && conn.mode == Upload && conn.pending == "" && K.CleanRun(server, conn, evs)
    requires Inv(s) && ContentInv(s) && Receives(s, c)
    requires conn.uploadLeft == Some(TokenOf(s, c).size - TokenOf(s, c).offset)
    requires var stream, left := K.Stream(server, conn, evs), conn.uploadLeft.value;
      && left <= |stream| && stream != "" && server.places(conn.log + N.StoredBytes(stream[..left]))
      && chunks != [] && Text.Concat(chunks) == stream[..left] && Finishes(s, c, stream[..left])
    ensures var bytes := K.Stream(server, conn, evs)[..conn.uploadLeft.value];
      var t, p := TokenOf(s, c), PartialPath(s.root, TokenOf(s, c).stem);
      && conn.log + N.StoredBytes(bytes) + [N.Finished] <= K.HandleAll(server, conn, evs).log
      && p in s.disk.tree
      && Run(s, DataEvents(c, chunks)).disk.tree ==
           (s.disk.tree - {p})[t.path := File(TextOf(s.disk.tree[p]) + bytes)]
  {
    hide Inv, ContentInv, Receives, TokenOf, Finishes, Data, Run, K.Stream, K.CleanRun, K.HandleAll, N.StoredBytes;
    ConnectionStores(server, conn, evs);
    ChunksAreOne(s, c, chunks);
    DataCompletes(s, c, Text.Concat(chunks));
  }
}
