/** Queue entries and the remote operations each one turns into.

    The intake handlers put tuples `(tag, params)` on the queue, with the
    tags "CREATE", "DELETE", "MODIFY" (params: a path) and "MOVE" (params: a
    source and a destination path).  The worker turns each entry into zero,
    one or two remote operations, asking the local file system what kind of
    object a path names at that moment. */
module Actions {
  import opened Paths

  /** What the local file system reports for a path.  `Special` is an
      existing object that is neither a regular file nor a directory (a
      serial device node, for one). */
  datatype Kind = RegularFile | Directory | Special | Missing

  /** The file-kind oracle standing in for `os.path` probing. */
  type FileSystem = Path -> Kind

  /** The operations issued to the board's file shell, as its log records them. */
  datatype Op =
    | Put(local: Path, remote: Path)
    | Mkdir(remote: Path)
    | Rm(remote: Path)
    | Open(address: string)
    | Close

  predicate IsFileOp(op: Op) {
    op.Put? || op.Mkdir? || op.Rm?
  }

  datatype Params = One(path: Path) | Two(src: Path, dst: Path)

  datatype Entry = Entry(tag: string, params: Params)

  const CREATE: string := "CREATE"
  const DELETE: string := "DELETE"
  const MOVE: string := "MOVE"
  const MODIFY: string := "MODIFY"

  /** The shapes the intake handlers build: a pair for a move, one path
      for the other three tags.  An entry of another tag is never built by
      them; the worker drops it whatever it holds. */
  predicate WellFormed(e: Entry) {
    && (e.tag == MOVE ==> e.params.Two?)
    && (e.tag == CREATE || e.tag == DELETE || e.tag == MODIFY ==> e.params.One?)
  }

  predicate AllWellFormed(es: seq<Entry>) {
    forall i :: 0 <= i < |es| ==> WellFormed(es[i])
  }

  /** The remote path of a local one: the watched folder removed from it. */
  function Remote(root: Path, path: Path): Path {
    RemoveAll(path, root)
  }

  /** `_copy_file`, `_create_folder`, `_delete`. */
  function CopyFileOps(root: Path, file: Path): seq<Op> {
    [Put(file, Remote(root, file))]
  }

  function CreateFolderOps(root: Path, folder: Path): seq<Op> {
    [Mkdir(Remote(root, folder))]
  }

  function DeleteOps(root: Path, path: Path): seq<Op> {
    [Rm(Remote(root, path))]
  }

  /** `perform_create`, with the directory branch doing what it evidently
      means to (see `CreateOpsAsWritten` for what the source does). */
  function CreateOps(root: Path, fs: FileSystem, src: Path): seq<Op> {
    match fs(src)
    case RegularFile => CopyFileOps(root, src)
    case Directory => CreateFolderOps(root, src)
    case _ => []
  }

  /** `perform_delete`: no probing, files and folders alike. */
  function PerformDeleteOps(root: Path, src: Path): seq<Op> {
    DeleteOps(root, src)
  }

  /** `perform_move`: only a move whose destination is a regular file is
      replayed; any other is reported as unsupported and dropped. */
  function MoveOps(root: Path, fs: FileSystem, src: Path, dst: Path): seq<Op> {
    if fs(dst) == RegularFile then DeleteOps(root, src) + CopyFileOps(root, dst) else []
  }

  /** `perform_modify`: re-upload a regular file, skip anything else. */
  function ModifyOps(root: Path, fs: FileSystem, src: Path): seq<Op> {
    if fs(src) == RegularFile then CopyFileOps(root, src) else []
  }

  /** The dispatch on the tag in the worker's drain loop. */
  function Translate(root: Path, fs: FileSystem, e: Entry): seq<Op>
    requires WellFormed(e)
  {
    if e.tag == CREATE then CreateOps(root, fs, e.params.path)
    else if e.tag == DELETE then PerformDeleteOps(root, e.params.path)
    else if e.tag == MOVE then MoveOps(root, fs, e.params.src, e.params.dst)
    else if e.tag == MODIFY then ModifyOps(root, fs, e.params.path)
    else []
  }

  /** All operations of a batch: each entry's translation, in queue order. */
  function BatchOps(root: Path, fs: FileSystem, es: seq<Entry>): seq<Op>
    requires AllWellFormed(es)
  {
    if es == [] then [] else Translate(root, fs, es[0]) + BatchOps(root, fs, es[1..])
  }

  /** Create of a regular file uploads it to its remote path; create of a
      directory makes the remote directory; nothing else issues anything. */
  lemma CreateOpsIntent(root: Path, fs: FileSystem, src: Path)
    ensures fs(src) == RegularFile ==> CreateOps(root, fs, src) == [Put(src, RemoveAll(src, root))]
    ensures fs(src) == Directory ==> CreateOps(root, fs, src) == [Mkdir(RemoveAll(src, root))]
    ensures fs(src) == Special || fs(src) == Missing ==> CreateOps(root, fs, src) == []
  {
  }

  /** Each entry becomes at most two operations, all of them file
      operations, each on the remote path of one of the entry's paths. */
  lemma TranslateShape(root: Path, fs: FileSystem, e: Entry)
    requires WellFormed(e)
    ensures |Translate(root, fs, e)| <= 2
    ensures forall op :: op in Translate(root, fs, e) ==> IsFileOp(op)
    ensures e.params.One? ==>
      forall op :: op in Translate(root, fs, e) ==> op.remote == Remote(root, e.params.path)
  {
  }

  /** Create and modify agree on a regular file; modify of anything else,
      and every action of an unknown tag, issue nothing. */
  lemma ModifyIsCreateOfFile(root: Path, fs: FileSystem, src: Path)
    ensures fs(src) == RegularFile ==>
      Translate(root, fs, Entry(MODIFY, One(src))) == Translate(root, fs, Entry(CREATE, One(src)))
        == [Put(src, Remote(root, src))]
    ensures fs(src) != RegularFile ==> Translate(root, fs, Entry(MODIFY, One(src))) == []
  {
  }

  /** Delete issues one removal whatever the path names. */
  lemma DeleteIsOneRm(root: Path, fs: FileSystem, src: Path)
    ensures Translate(root, fs, Entry(DELETE, One(src))) == [Rm(Remote(root, src))]
  {
  }

  /** A move onto a regular file is a delete of the source followed by a
      modify of the destination; any other move issues nothing. */
  lemma MoveIsDeleteThenModify(root: Path, fs: FileSystem, src: Path, dst: Path)
    ensures fs(dst) == RegularFile ==>
      Translate(root, fs, Entry(MOVE, Two(src, dst)))
        == Translate(root, fs, Entry(DELETE, One(src))) + Translate(root, fs, Entry(MODIFY, One(dst)))
        == [Rm(Remote(root, src)), Put(dst, Remote(root, dst))]
    ensures fs(dst) != RegularFile ==> Translate(root, fs, Entry(MOVE, Two(src, dst))) == []
  {
  }

  /** An entry whose tag is none of the four is dropped. */
  lemma UnknownTagDropped(root: Path, fs: FileSystem, e: Entry)
    requires WellFormed(e)
    requires e.tag !in {CREATE, DELETE, MOVE, MODIFY}
    ensures Translate(root, fs, e) == []
  {
  }

  /** Batches compose: the operations of two queue segments drained one
      after the other are those of the first followed by those of the second. */
  lemma {:induction false} BatchOpsAppend(root: Path, fs: FileSystem, a: seq<Entry>, b: seq<Entry>)
    requires AllWellFormed(a) && AllWellFormed(b)
    ensures AllWellFormed(a + b)
    ensures BatchOps(root, fs, a + b) == BatchOps(root, fs, a) + BatchOps(root, fs, b)
    decreases |a|
  {
    assert AllWellFormed(a + b) by {
      forall i | 0 <= i < |a + b| ensures WellFormed((a + b)[i]) {
        if i < |a| { assert (a + b)[i] == a[i]; } else { assert (a + b)[i] == b[i - |a|]; }
      }
    }
    if a == [] {
      assert a + b == b;
    } else {
      assert (a + b)[0] == a[0];
      assert (a + b)[1..] == a[1..] + b;
      BatchOpsAppend(root, fs, a[1..], b);
    }
  }

  /** The first entry of a batch is translated first, then the rest. */
  lemma BatchOpsCons(root: Path, fs: FileSystem, es: seq<Entry>)
    requires AllWellFormed(es) && es != []
    ensures AllWellFormed(es[1..])
    ensures BatchOps(root, fs, es) == Translate(root, fs, es[0]) + BatchOps(root, fs, es[1..])
  {
    assert forall i :: 0 <= i < |es[1..]| ==> es[1..][i] == es[i + 1];
  }

  /** Draining one more entry adds its translation at the end. */
  lemma BatchOpsSnoc(root: Path, fs: FileSystem, es: seq<Entry>, e: Entry)
    requires AllWellFormed(es) && WellFormed(e)
    ensures AllWellFormed(es + [e])
    ensures BatchOps(root, fs, es + [e]) == BatchOps(root, fs, es) + Translate(root, fs, e)
  {
    BatchOpsAppend(root, fs, es, [e]);
    assert [e][1..] == [];
  }

  /** FIFO order: in a batch, the operations of the k-th entry come after
      those of every earlier entry and before those of every later one. */
  lemma BatchOpsAt(root: Path, fs: FileSystem, es: seq<Entry>, k: nat)
    requires AllWellFormed(es) && k < |es|
    ensures BatchOps(root, fs, es)
      == BatchOps(root, fs, es[..k]) + Translate(root, fs, es[k]) + BatchOps(root, fs, es[k + 1..])
  {
    assert es == es[..k] + es[k..];
    assert AllWellFormed(es[..k]) && AllWellFormed(es[k..]);
    BatchOpsAppend(root, fs, es[..k], es[k..]);
    assert es[k..][1..] == es[k + 1..];
  }

  /** A batch issues only file operations (never an open or a close), at
      most two per entry, and nothing at all for entries of unknown tags. */
  lemma {:induction false} BatchOpsShape(root: Path, fs: FileSystem, es: seq<Entry>)
    requires AllWellFormed(es)
    ensures forall op :: op in BatchOps(root, fs, es) ==> IsFileOp(op)
    ensures |BatchOps(root, fs, es)| <= 2 * |es|
    ensures (forall i :: 0 <= i < |es| ==> es[i].tag !in {CREATE, DELETE, MOVE, MODIFY})
      ==> BatchOps(root, fs, es) == []
    decreases |es|
  {
    if es != [] {
      TranslateShape(root, fs, es[0]);
      assert AllWellFormed(es[1..]) by {
        forall i | 0 <= i < |es[1..]| ensures WellFormed(es[1..][i]) { assert es[1..][i] == es[i + 1]; }
      }
      BatchOpsShape(root, fs, es[1..]);
      if forall i :: 0 <= i < |es| ==> es[i].tag !in {CREATE, DELETE, MOVE, MODIFY} {
        assert forall i :: 0 <= i < |es[1..]| ==> es[1..][i] == es[i + 1];
        UnknownTagDropped(root, fs, es[0]);
      }
    }
  }

  /** A file created, written and removed again before the quiet period
      ends (an editor's temporary file).  The worker probes the file system
      only when it drains, and by then the file is gone: the batch issues
      just the removal, and as written the create raises there instead. */
  lemma TempFileBurst(root: Path, fs: FileSystem, x: Path)
    requires fs(x) == Missing
    ensures BatchOps(root, fs, [Entry(CREATE, One(x)), Entry(MODIFY, One(x)), Entry(DELETE, One(x))])
      == [Rm(Remote(root, x))]
    ensures CreateOpsAsWritten(root, fs, x) == Raised
  {
    var c, m, d := Entry(CREATE, One(x)), Entry(MODIFY, One(x)), Entry(DELETE, One(x));
    CreateOpsIntent(root, fs, x);
    ModifyIsCreateOfFile(root, fs, x);
    DeleteIsOneRm(root, fs, x);
    assert [c, m, d][1..] == [m, d];
    assert [m, d][1..] == [d];
    assert [d][1..] == [];
    assert BatchOps(root, fs, [d]) == [Rm(Remote(root, x))];
    assert BatchOps(root, fs, [m, d]) == [Rm(Remote(root, x))];
  }

  /** An editor's save by replacement: the old file is deleted and the new
      one created and written.  With the file present when the queue is
      drained, the batch removes it remotely and uploads it twice, in that
      order. */
  lemma SaveBurstReplay(root: Path, fs: FileSystem, x: Path)
    requires fs(x) == RegularFile
    ensures BatchOps(root, fs, [Entry(DELETE, One(x)), Entry(CREATE, One(x)), Entry(MODIFY, One(x))])
      == [Rm(Remote(root, x)), Put(x, Remote(root, x)), Put(x, Remote(root, x))]
  {
    var d, c, m := Entry(DELETE, One(x)), Entry(CREATE, One(x)), Entry(MODIFY, One(x));
    ModifyIsCreateOfFile(root, fs, x);
    DeleteIsOneRm(root, fs, x);
    assert [d, c, m][1..] == [c, m];
    assert [c, m][1..] == [m];
    assert [m][1..] == [];
    assert BatchOps(root, fs, [m]) == [Put(x, Remote(root, x))];
    assert BatchOps(root, fs, [c, m]) == [Put(x, Remote(root, x)), Put(x, Remote(root, x))];
  }

  /** A file of the watched folder "root" is uploaded to its path below the
      board's root directory. */
  lemma RemoteOfRootFile()
    ensures Remote("root", "root/x.txt") == "/x.txt"
  {
    assert "root" + "/x.txt" == "root/x.txt";
    MissingFirstChar("/x.txt", "root");
    RemoveAllPrefix("root", "/x.txt");
  }

  // ---------------------------------------------------------------------
  // `perform_create` as written: its directory test calls `os.path.isfolder`,
  // which does not exist, so every create of something other than a regular
  // file raises instead of creating a remote folder.

  datatype Outcome = Issued(ops: seq<Op>) | Raised

  function CreateOpsAsWritten(root: Path, fs: FileSystem, src: Path): Outcome {
    if fs(src) == RegularFile then Issued(CopyFileOps(root, src)) else Raised
  }

  /** As written, the create handler raises exactly when the path is not a
      regular file; on a directory the intended `mkdir` is never issued. */
  lemma CreateAsWrittenRaises(root: Path, fs: FileSystem, src: Path)
    ensures CreateOpsAsWritten(root, fs, src) == Raised <==> fs(src) != RegularFile
    ensures CreateOpsAsWritten(root, fs, src).Issued? ==>
      CreateOpsAsWritten(root, fs, src).ops == CreateOps(root, fs, src)
    ensures fs(src) == Directory ==>
      CreateOpsAsWritten(root, fs, src) == Raised && CreateOps(root, fs, src) == [Mkdir(Remote(root, src))]
  {
  }
}
