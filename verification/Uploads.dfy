/** Receiving a file: server/src/protocol/upload_manager.cpp. Bytes collect in the user's
    `.partial` file; a broken connection leaves a `.upload` record to resume from. */
module Uploads {
  import opened Options
  import opened Paths
  import opened Disks

  /** UploadToken; the stem of the temporary files is the user's name. */
  datatype Token = Token(path: Path, size: nat, offset: nat, stem: User)

  ghost predicate ValidToken(t: Token) { t.path != [] && t.offset <= t.size }

  /** The temporary file can be opened for writing. */
  predicate Openable(tree: Tree, root: Path, u: User) {
    IsDir(tree, Conf(root)) && (PartialPath(root, u) in tree ==> !IsDir(tree, PartialPath(root, u)))
  }

  /** start_upload: from an offset the partial file is appended to, else emptied. */
  function Opened(d: Disk, root: Path, h: Handle, t: Token): Disk {
    var p := PartialPath(root, t.stem);
    var node := if t.offset != 0 && p in d.tree then d.tree[p] else File("");
    Forgotten(Disk(d.tree[p := node], d.open[h := p]), root, t.stem)
  }

  /** The user's record is removed, if there is one. */
  function Forgotten(d: Disk, root: Path, u: User): Disk {
    if IsFile(d.tree, BackupPath(root, u)) then Unlinked(d, BackupPath(root, u)) else d
  }

  datatype Progress = Progress(disk: Disk, token: Option<Token>, rest: string, thrown: bool)

  /** A file can be renamed onto a path in a directory, unless a directory is there. */
  predicate Renamable(tree: Tree, src: Path, dest: Path)
    requires dest != []
  {
    IsFile(tree, src) && IsDir(tree, Parent(dest)) && !IsDir(tree, dest)
  }

  function Closed(d: Disk, h: Handle): Disk { d.(open := d.open - {h}) }

  /** commit_bytes */
  function Committed(d: Disk, root: Path, h: Handle, t: Token, bytes: string): Progress
    requires ValidToken(t)
  {
    var missing := t.size - t.offset;
    var count := if |bytes| < missing then |bytes| else missing;
    var t', d' := t.(offset := t.offset + count), Written(d, h, bytes[..count]);
    if t'.offset < t.size then Progress(d', Some(t'), bytes[count..], false)
    else
      var d' := Closed(d', h);
      if Renamable(d'.tree, PartialPath(root, t.stem), t.path) then
        Progress(Replaced(d', PartialPath(root, t.stem), t.path), None, bytes[count..], false)
      else Progress(d', Some(t'), bytes[count..], true)
  }

  /** create_backup: nothing happens when the file cannot be written. */
  function BackedUp(d: Disk, root: Path, t: Token): Disk {
    if IsDir(d.tree, Conf(root)) && !IsDir(d.tree, BackupPath(root, t.stem))
    then d.(tree := d.tree[BackupPath(root, t.stem) := Notes(Record(t.path, t.size, t.offset))])
    else d
  }

  /** The record of a user's interrupted upload. */
  function RecordOf(d: Disk, root: Path, u: User): Option<Record> {
    var b := BackupPath(root, u);
    if b in d.tree && d.tree[b].Notes? then Some(d.tree[b].record) else None
  }

  // ---------- the disk stays well formed ----------

  lemma ForgottenOk(root: Path, d: Disk, u: User)
    requires DiskOk(root, d)
    ensures DiskOk(root, Forgotten(d, root, u)) && KeepsKinds(root, d.tree, Forgotten(d, root, u).tree)
  {
    TemporaryInside(root, u);
    if IsFile(d.tree, BackupPath(root, u)) { UnlinkedOk(root, d, BackupPath(root, u)); }
  }

  lemma ConfOrdinary(root: Path, t: Tree)
    requires WellFormed(t, root) && IsDir(t, Conf(root))
    ensures Ordinary(Conf(root))
  {
  }

  lemma OpenedOk(root: Path, d: Disk, h: Handle, t: Token)
    requires DiskOk(root, d) && UserName(t.stem) && Openable(d.tree, root, t.stem)
    ensures DiskOk(root, Opened(d, root, h, t)) && KeepsKinds(root, d.tree, Opened(d, root, h, t).tree)
  {
    var p := PartialPath(root, t.stem);
    var node := if t.offset != 0 && p in d.tree then d.tree[p] else File("");
    ConfOrdinary(root, d.tree);
    TemporaryInside(root, t.stem);
    TemporaryOrdinary(root, t.stem);
    hide WellFormed;
    PutOk(root, d, p, node);
    var d1 := Disk(d.tree[p := node], d.open[h := p]);
    ForgottenOk(root, d1, t.stem);
    KindsChain(root, d.tree, d1.tree, Opened(d, root, h, t).tree);
  }

  lemma CommittedOk(root: Path, d: Disk, h: Handle, t: Token, bytes: string)
    requires DiskOk(root, d) && ValidToken(t) && Ordinary(t.path) && !Inside(root, t.path)
    ensures var d' := Committed(d, root, h, t, bytes).disk; DiskOk(root, d') && KeepsKinds(root, d.tree, d'.tree)
  {
    hide WellFormed;
    var missing := t.size - t.offset;
    var count := if |bytes| < missing then |bytes| else missing;
    WrittenOk(root, d, h, bytes[..count]);
    var d1 := Closed(Written(d, h, bytes[..count]), h);
    assert DiskOk(root, d1);
    var src := PartialPath(root, t.stem);
    if count == missing && Renamable(d1.tree, src, t.path) {
      TemporaryInside(root, t.stem);
      ReplacedOk(root, d1, src, t.path);
      KindsChain(root, d.tree, d1.tree, Replaced(d1, src, t.path).tree);
    }
  }

  lemma BackedUpOk(root: Path, d: Disk, t: Token)
    requires DiskOk(root, d) && UserName(t.stem) && RecordOk(root, Record(t.path, t.size, t.offset))
    ensures DiskOk(root, BackedUp(d, root, t)) && KeepsKinds(root, d.tree, BackedUp(d, root, t).tree)
  {
    if IsDir(d.tree, Conf(root)) && !IsDir(d.tree, BackupPath(root, t.stem)) {
      ConfOrdinary(root, d.tree);
      TemporaryInside(root, t.stem);
      TemporaryOrdinary(root, t.stem);
      hide WellFormed;
      PutOk(root, d, BackupPath(root, t.stem), Notes(Record(t.path, t.size, t.offset)));
    }
  }

  // ---------- one session keeps what it needs to go on ----------

  /** The partial file is the first `offset` bytes of the source. */
  ghost predicate Holds(d: Disk, root: Path, u: User, source: string, offset: nat) {
    var p := PartialPath(root, u);
    offset <= |source| && p in d.tree && d.tree[p] == File(source[..offset])
  }

  /** The handle is on the user's partial file. */
  ghost predicate Writing(d: Disk, root: Path, h: Handle, u: User) {
    h in d.open && d.open[h] == PartialPath(root, u)
  }

  lemma OpenedHolds(d: Disk, root: Path, h: Handle, t: Token, source: string)
    requires t.offset == 0 || Holds(d, root, t.stem, source, t.offset)
    ensures Holds(Opened(d, root, h, t), root, t.stem, source, t.offset)
    ensures Writing(Opened(d, root, h, t), root, h, t.stem)
  {
    TemporaryApart(root, t.stem, t.stem);
  }

  /** The client sends source[offset..], perhaps followed by something else. */
  ghost predicate Continues(bytes: string, source: string, offset: nat) {
    offset <= |source| && forall k | 0 <= k < |bytes| && offset + k < |source| :: bytes[k] == source[offset + k]
  }

  lemma WrittenHolds(d: Disk, root: Path, h: Handle, u: User, source: string, offset: nat, bytes: string)
    requires Holds(d, root, u, source, offset) && Writing(d, root, h, u)
    requires offset + |bytes| <= |source| && bytes == source[offset..offset + |bytes|]
    ensures Holds(Written(d, h, bytes), root, u, source, offset + |bytes|)
    ensures Written(d, h, bytes).tree == d.tree[PartialPath(root, u) := File(source[..offset + |bytes|])]
  {
    assert source[..offset] + bytes == source[..offset + |bytes|];
  }

  /** Bytes that continue the source keep the partial file a prefix of it, however many
      come; when the last one is there, the destination is exactly the source. */
  lemma CommittedHolds(d: Disk, root: Path, h: Handle, t: Token, bytes: string, source: string)
    requires ValidToken(t) && !Inside(root, t.path) && t.size == |source| && Holds(d, root, t.stem, source, t.offset)
    requires t.offset < t.size ==> Writing(d, root, h, t.stem)
    requires Continues(bytes, source, t.offset)
    ensures var r := Committed(d, root, h, t, bytes);
      && (r.token.Some? ==> Holds(r.disk, root, t.stem, source, r.token.value.offset))
      && (r.token.None? ==> r.disk.tree == (d.tree - {PartialPath(root, t.stem)})[t.path := File(source)])
  {
    var missing := t.size - t.offset;
    var count := if |bytes| < missing then |bytes| else missing;
    assert bytes[..count] == source[t.offset..t.offset + count];
    if t.offset < t.size { WrittenHolds(d, root, h, t.stem, source, t.offset, bytes[..count]); }
    assert source[..|source|] == source;
    TemporaryInside(root, t.stem);
  }

  // ---------- the class ----------

  class Storage {
    const root: Path
    var disk: Disk

    constructor (root: Path, tree: Tree)
      ensures this.root == root && disk == Disk(tree, map[])
    {
      this.root, disk := root, Disk(tree, map[]);
    }
  }

  class UploadManager {
    const storage: Storage
    const file: Handle
    var token: Option<Token>
    /** The name of the record is known: the partial file was opened. */
    var begun: bool

    ghost predicate Valid()
      reads this
    {
      token.Some? ==> ValidToken(token.value)
    }

    constructor (storage: Storage, file: Handle)
      ensures Valid() && token == None && !begun && this.storage == storage && this.file == file
    {
      this.storage, this.file, token, begun := storage, file, None, false;
    }

    /** A file that cannot be opened is an exception. */
    method StartUpload(t: Token) returns (thrown: bool)
      requires ValidToken(t)
      modifies this, storage
      ensures Valid() && token == Some(t) && begun == !thrown
      ensures thrown == !Openable(old(storage.disk).tree, storage.root, t.stem)
      ensures storage.disk == if thrown then old(storage.disk) else Opened(old(storage.disk), storage.root, file, t)
    {
      token := Some(t);
      var d, p := storage.disk, PartialPath(storage.root, t.stem);
      begun := Openable(d.tree, storage.root, t.stem);
      thrown := !begun;
      if thrown { return; }
      if t.offset != 0 && p in d.tree {
        assert d.tree == d.tree[p := d.tree[p]];
      } else {
        d := d.(tree := d.tree[p := File("")]);
      }
      d := d.(open := d.open[file := p]);
      if IsFile(d.tree, BackupPath(storage.root, t.stem)) {
        d := Unlinked(d, BackupPath(storage.root, t.stem));
      }
      storage.disk := d;
    }

    method CommitBytes(bytes: string) returns (rest: string, thrown: bool)
      requires Valid() && token.Some?
      modifies this, storage
      ensures Valid() && begun == old(begun)
      ensures Progress(storage.disk, token, rest, thrown) ==
        Committed(old(storage.disk), storage.root, file, old(token).value, bytes)
    {
      var t := token.value;
      var missing := t.size - t.offset;
      var count := if |bytes| < missing then |bytes| else missing;
      storage.disk := Written(storage.disk, file, bytes[..count]);
      token := Some(t.(offset := t.offset + count));
      thrown := false;
      if token.value.offset == t.size {
        thrown := Finish();
      }
      rest := bytes[count..];
    }

    method Finish() returns (thrown: bool)
      requires Valid() && token.Some?
      modifies this, storage
      ensures Valid() && begun == old(begun)
      ensures var d, t := Closed(old(storage.disk), file), old(token).value;
        var partial := PartialPath(storage.root, t.stem);
        && thrown == !Renamable(d.tree, partial, t.path)
        && token == (if thrown then Some(t) else None)
        && storage.disk == if thrown then d else Replaced(d, partial, t.path)
    {
      var t := token.value;
      var partial := PartialPath(storage.root, t.stem);
      storage.disk := Closed(storage.disk, file);
      thrown := !Renamable(storage.disk.tree, partial, t.path);
      if !thrown {
        storage.disk := Replaced(storage.disk, partial, t.path);
        token := None;
      }
    }

    /** The destructor; the record is lost when the file was never opened. */
    method Close()
      requires Valid()
      modifies storage
      ensures Valid()
      ensures storage.disk == Closed(if token.Some? && begun
                                     then BackedUp(old(storage.disk), storage.root, token.value)
                                     else old(storage.disk), file)
    {
      if token.Some? && begun {
        storage.disk := BackedUp(storage.disk, storage.root, token.value);
      }
      storage.disk := Closed(storage.disk, file);
    }
  }
}
