/** The synchroniser object and the board's file shell it drives.

    `Board` stands for the file-shell client: whether its link is open and
    the log of commands it has been given.  `MPSync` holds the watched
    folder, the port, the queue and the last-intake time; its methods are
    the intake handlers, the per-action operations, connect, disconnect and
    one iteration of the worker loop.  Each method is specified by the
    functions of `Actions`, `Connection` and `Batch`. */
module MpSync {
  import opened Paths
  import opened Actions
  import opened Connection
  import opened Batch

  /** Associativity of `+` on logs: a proof step of the drain loop only,
      kept as a lemma so that the loop body stays cheap to verify.  It
      models nothing of the synchroniser. */
  lemma ConcatAssoc(log: seq<Op>, step: seq<Op>, rest: seq<Op>)
    ensures (log + step) + rest == log + (step + rest)
  {
  }

  class Board {
    var isOpen: bool
    var log: seq<Op>

    constructor ()
      ensures !isOpen && log == []
    {
      isOpen := false;
      log := [];
    }

    /** `do_open`; `up` says whether the link is open afterwards. */
    method DoOpen(address: string, up: bool)
      modifies this
      ensures log == old(log) + [Open(address)] && isOpen == up
    {
      log := log + [Open(address)];
      isOpen := up;
    }

    /** `do_close`; `takesEffect` says whether the link closes. */
    method DoClose(takesEffect: bool)
      modifies this
      ensures log == old(log) + [Close] && isOpen == (old(isOpen) && !takesEffect)
    {
      log := log + [Close];
      isOpen := isOpen && !takesEffect;
    }

    method DoPut(local: Path, remote: Path)
      modifies this
      ensures log == old(log) + [Put(local, remote)] && isOpen == old(isOpen)
    {
      log := log + [Put(local, remote)];
    }

    method DoMkdir(remote: Path)
      modifies this
      ensures log == old(log) + [Mkdir(remote)] && isOpen == old(isOpen)
    {
      log := log + [Mkdir(remote)];
    }

    method DoRm(remote: Path)
      modifies this
      ensures log == old(log) + [Rm(remote)] && isOpen == old(isOpen)
    {
      log := log + [Rm(remote)];
    }
  }

  class MPSync {
    const folder: Path
    const port: Path
    const board: Board
    var q: seq<Entry>
    var ts: int

    /** The queue holds only entries the intake handlers build. */
    ghost predicate Valid()
      reads this
    {
      AllWellFormed(q)
    }

    /** The abstract state the `Batch` functions speak about. */
    ghost function State(): SyncState
      reads this, board
    {
      SyncState(q, ts, board.isOpen, board.log)
    }

    /** A synchroniser for an existing folder; starting on anything else
        stops the process before it is built. */
    constructor (folder: Path, port: Path, fs: FileSystem)
      requires fs(folder) == Directory
      ensures Valid() && fresh(board)
      ensures this.folder == folder && this.port == port
      ensures State() == SyncState([], 0, false, [])
    {
      this.folder := folder;
      this.port := port;
      board := new Board();
      q := [];
      ts := 0;
    }

    method OnCreated(src: Path, now: int)
      requires Valid()
      modifies this
      ensures Valid()
      ensures q == old(q) + [Entry(CREATE, One(src))] && ts == now
      ensures State() == Intake(old(State()), Created(src), now)
    {
      q := q + [Entry(CREATE, One(src))];
      ts := now;
    }

    method OnDeleted(src: Path, now: int)
      requires Valid()
      modifies this
      ensures Valid()
      ensures q == old(q) + [Entry(DELETE, One(src))] && ts == now
      ensures State() == Intake(old(State()), Deleted(src), now)
    {
      q := q + [Entry(DELETE, One(src))];
      ts := now;
    }

    method OnMoved(src: Path, dst: Path, now: int)
      requires Valid()
      modifies this
      ensures Valid()
      ensures q == old(q) + [Entry(MOVE, Two(src, dst))] && ts == now
      ensures State() == Intake(old(State()), Moved(src, dst), now)
    {
      q := q + [Entry(MOVE, Two(src, dst))];
      ts := now;
    }

    method OnModified(src: Path, now: int)
      requires Valid()
      modifies this
      ensures Valid()
      ensures q == old(q) + [Entry(MODIFY, One(src))] && ts == now
      ensures State() == Intake(old(State()), Modified(src), now)
    {
      q := q + [Entry(MODIFY, One(src))];
      ts := now;
    }

    method CopyFile(file: Path)
      modifies board
      ensures board.log == old(board.log) + CopyFileOps(folder, file)
      ensures board.isOpen == old(board.isOpen)
    {
      var dst := RemoveAll(file, folder);
      board.DoPut(file, dst);
    }

    method CreateFolder(path: Path)
      modifies board
      ensures board.log == old(board.log) + CreateFolderOps(folder, path)
      ensures board.isOpen == old(board.isOpen)
    {
      var dst := RemoveAll(path, folder);
      board.DoMkdir(dst);
    }

    method Delete(path: Path)
      modifies board
      ensures board.log == old(board.log) + DeleteOps(folder, path)
      ensures board.isOpen == old(board.isOpen)
    {
      var dst := RemoveAll(path, folder);
      board.DoRm(dst);
    }

    method PerformCreate(src: Path, fs: FileSystem)
      modifies board
      ensures board.log == old(board.log) + CreateOps(folder, fs, src)
      ensures board.isOpen == old(board.isOpen)
    {
      var kind := fs(src);
      if kind == RegularFile {
        CopyFile(src);
      } else if kind == Directory {
        CreateFolder(src);
      }
    }

    method PerformDelete(src: Path)
      modifies board
      ensures board.log == old(board.log) + PerformDeleteOps(folder, src)
      ensures board.isOpen == old(board.isOpen)
    {
      Delete(src);
    }

    method PerformMove(src: Path, dst: Path, fs: FileSystem)
      modifies board
      ensures board.log == old(board.log) + MoveOps(folder, fs, src, dst)
      ensures board.isOpen == old(board.isOpen)
    {
      if fs(dst) == RegularFile {
        Delete(src);
        CopyFile(dst);
      }
      // otherwise: reported as unsupported, nothing issued
    }

    method PerformModify(src: Path, fs: FileSystem)
      modifies board
      ensures board.log == old(board.log) + ModifyOps(folder, fs, src)
      ensures board.isOpen == old(board.isOpen)
    {
      if fs(src) == RegularFile {
        CopyFile(src);
      }
    }

    /** The tag dispatch of the drain loop. */
    method Dispatch(e: Entry, fs: FileSystem)
      requires WellFormed(e)
      modifies board
      ensures board.log == old(board.log) + Translate(folder, fs, e)
      ensures board.isOpen == old(board.isOpen)
    {
      if e.tag == CREATE {
        PerformCreate(e.params.path, fs);
      } else if e.tag == DELETE {
        PerformDelete(e.params.path);
      } else if e.tag == MOVE {
        PerformMove(e.params.src, e.params.dst, fs);
      } else if e.tag == MODIFY {
        PerformModify(e.params.path, fs);
      }
    }

    /** `_mpconnect`: the port's kind is read from `fs`; `link(i)` says
        whether the link is open after the i-th attempt. */
    method MpConnect(fs: FileSystem, link: nat -> bool) returns (ok: bool)
      modifies board
      ensures var c := Connect(old(board.isOpen), fs(port), link);
        && ok == c.ok
        && board.log == old(board.log) + Opens(port, c.attempts)
        && board.isOpen == ok
    {
      if board.isOpen {
        return true;
      }
      var kind := fs(port);
      if kind == Missing || kind == Directory {
        return false;
      }
      for i := 0 to CONNECT_TRIES
        invariant board.log == old(board.log) + Opens(port, i)
        invariant !board.isOpen
        invariant forall j: nat :: j < i ==> !link(j)
      {
        board.DoOpen(Address(port), link(i));
        if board.isOpen {
          FirstUpIs(link, i, CONNECT_TRIES);
          return true;
        }
      }
      FirstUpIs(link, CONNECT_TRIES, CONNECT_TRIES);
      return false;
    }

    /** `_mpdisconnect`, with a close that does not take effect only
        reported (see `DisconnectAsWritten` for what the source does). */
    method MpDisconnect(closes: bool)
      modifies board
      ensures var r := Disconnect(old(board.isOpen), closes);
        && board.log == old(board.log) + r.ops
        && board.isOpen == r.stillOpen
    {
      if !board.isOpen {
        return;
      }
      board.DoClose(closes);
      // a link still open here is reported and left for the next batch
    }

    /** The drain loop of `run`: every queued entry, oldest first. */
    method Drain(fs: FileSystem)
      requires Valid()
      modifies this, board
      ensures Valid() && q == [] && ts == old(ts)
      ensures board.log == old(board.log) + BatchOps(folder, fs, old(q))
      ensures board.isOpen == old(board.isOpen)
    {
      while q != []
        invariant AllWellFormed(q)
        invariant board.log + BatchOps(folder, fs, q) == old(board.log) + BatchOps(folder, fs, old(q))
        invariant board.isOpen == old(board.isOpen) && ts == old(ts)
        decreases |q|
      {
        var e := q[0];
        BatchOpsCons(folder, fs, q);
        ghost var log0 := board.log;
        q := q[1..];
        Dispatch(e, fs);
        ConcatAssoc(log0, Translate(folder, fs, e), BatchOps(folder, fs, q));
      }
    }

    /** One iteration of the loop in `run`, at time `now`. */
    method RunStep(now: int, fs: FileSystem, link: nat -> bool, closes: bool)
      requires Valid()
      modifies this, board
      ensures Valid()
      ensures State() == Iterate(folder, port, old(State()), now, fs, link, closes)
    {
      if now - ts > WAITING_TIME && q != [] {
        var ok := MpConnect(fs, link);
        if !ok {
          return;  // retried after the back-off
        }
        Drain(fs);
        MpDisconnect(closes);
      }
    }
  }
}
