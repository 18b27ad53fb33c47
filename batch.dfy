/** One iteration of the worker loop, and runs of intake and iterations.

    The worker's state is the queue of entries, the time of the last
    intake, and the board's link state and operation log.  Time is an
    integer clock in milliseconds; `WAITING_TIME` is the quiet period. */
module Batch {
  import opened Paths
  import opened Actions
  import opened Connection

  const WAITING_TIME: int := 500

  datatype SyncState = SyncState(queue: seq<Entry>, ts: int, isOpen: bool, log: seq<Op>)

  /** The file-system events the watcher reports to the intake handlers. */
  datatype Notification =
    | Created(src: Path)
    | Deleted(src: Path)
    | Moved(src: Path, dst: Path)
    | Modified(src: Path)

  /** The entry each handler puts on the queue. */
  function EntryOf(n: Notification): (e: Entry)
    ensures WellFormed(e)
    ensures n.Moved? <==> e.tag == MOVE
    ensures n.Moved? ==> e.params == Two(n.src, n.dst)
    ensures !n.Moved? ==> e.params == One(n.src)
    ensures e.tag == match n
      case Created(_) => CREATE
      case Deleted(_) => DELETE
      case Moved(_, _) => MOVE
      case Modified(_) => MODIFY
  {
    match n
    case Created(src) => Entry(CREATE, One(src))
    case Deleted(src) => Entry(DELETE, One(src))
    case Moved(src, dst) => Entry(MOVE, Two(src, dst))
    case Modified(src) => Entry(MODIFY, One(src))
  }

  /** `_on_created`, `_on_deleted`, `_on_moved`, `_on_modified`: append one
      entry and stamp the time; nothing else changes. */
  function Intake(s: SyncState, n: Notification, now: int): (r: SyncState)
    ensures r.queue == s.queue + [EntryOf(n)] && r.ts == now
    ensures r.isOpen == s.isOpen && r.log == s.log
  {
    s.(queue := s.queue + [EntryOf(n)], ts := now)
  }

  /** The debounce gate: the quiet period has passed and there is work. */
  predicate GateOpen(s: SyncState, now: int) {
    now - s.ts > WAITING_TIME && s.queue != []
  }

  /** One pass of the body of `run`: when the gate is open, connect; on
      failure leave the queue alone; on success drain the whole queue in
      order and disconnect. */
  function Iterate(root: Path, port: Path, s: SyncState, now: int, fs: FileSystem,
                   link: nat -> bool, closes: bool): (r: SyncState)
    requires AllWellFormed(s.queue)
    ensures r.queue == s.queue || r.queue == []
    ensures r.ts == s.ts
  {
    if !GateOpen(s, now) then s
    else
      var c := Connect(s.isOpen, fs(port), link);
      var connected := s.log + Opens(port, c.attempts);
      if !c.ok then s.(log := connected)
      else
        var released := Disconnect(true, closes);
        SyncState([], s.ts, released.stillOpen, connected + BatchOps(root, fs, s.queue) + released.ops)
  }

  /** The remote file operations in a log, in order (opens and closes left out). */
  function FileOps(log: seq<Op>): (r: seq<Op>)
    ensures forall op :: op in r ==> IsFileOp(op)
    ensures |r| <= |log|
  {
    if log == [] then []
    else (if IsFileOp(log[0]) then [log[0]] else []) + FileOps(log[1..])
  }

  lemma {:induction false} FileOpsAppend(a: seq<Op>, b: seq<Op>)
    ensures FileOps(a + b) == FileOps(a) + FileOps(b)
    decreases |a|
  {
    if a == [] {
      assert a + b == b;
    } else {
      assert (a + b)[0] == a[0];
      assert (a + b)[1..] == a[1..] + b;
      FileOpsAppend(a[1..], b);
    }
  }

  lemma {:induction false} FileOpsOfFileOps(ops: seq<Op>)
    requires forall op :: op in ops ==> IsFileOp(op)
    ensures FileOps(ops) == ops
    decreases |ops|
  {
    if ops != [] {
      assert ops[0] in ops;
      assert forall op :: op in ops[1..] ==> op in ops;
      FileOpsOfFileOps(ops[1..]);
    }
  }

  lemma {:induction false} FileOpsOfOpens(port: Path, n: nat)
    ensures FileOps(Opens(port, n)) == []
    decreases n
  {
    if n > 0 {
      FileOpsAppend(Opens(port, n - 1), [Open(Address(port))]);
      FileOpsOfOpens(port, n - 1);
    }
  }

  /** A closed gate (quiet period not over, or nothing queued) changes nothing. */
  lemma IterateIdle(root: Path, port: Path, s: SyncState, now: int, fs: FileSystem,
                    link: nat -> bool, closes: bool)
    requires AllWellFormed(s.queue)
    requires now - s.ts <= WAITING_TIME || s.queue == []
    ensures Iterate(root, port, s, now, fs, link, closes) == s
  {
  }

  /** A failed connect defers the batch: the queue is kept as it was, the
      log gains only the (at most `CONNECT_TRIES`) open attempts, and no
      file operation is issued. */
  lemma IterateConnectFails(root: Path, port: Path, s: SyncState, now: int, fs: FileSystem,
                            link: nat -> bool, closes: bool)
    requires AllWellFormed(s.queue)
    requires GateOpen(s, now)
    requires !Connect(s.isOpen, fs(port), link).ok
    ensures var r := Iterate(root, port, s, now, fs, link, closes);
      && r.queue == s.queue && r.ts == s.ts && !r.isOpen
      && s.log <= r.log
      && |r.log| - |s.log| <= CONNECT_TRIES
      && (forall i :: |s.log| <= i < |r.log| ==> r.log[i] == Open(Address(port)))
      && FileOps(r.log) == FileOps(s.log)
  {
    var c := Connect(s.isOpen, fs(port), link);
    ConnectOutcomes(s.isOpen, fs(port), link);
    FileOpsAppend(s.log, Opens(port, c.attempts));
    FileOpsOfOpens(port, c.attempts);
  }

  /** A successful connect drains the queue to empty in one cycle: the
      opens, every entry's operations in queue order, and one close; the
      file operations added to the log are exactly the queue's translation. */
  lemma IterateDrains(root: Path, port: Path, s: SyncState, now: int, fs: FileSystem,
                      link: nat -> bool, closes: bool)
    requires AllWellFormed(s.queue)
    requires GateOpen(s, now)
    requires Connect(s.isOpen, fs(port), link).ok
    ensures var r := Iterate(root, port, s, now, fs, link, closes);
      var k := Connect(s.isOpen, fs(port), link).attempts;
      && r.queue == [] && r.ts == s.ts
      && r.log == s.log + Opens(port, k) + BatchOps(root, fs, s.queue) + [Close]
      && k <= CONNECT_TRIES
      && (r.isOpen <==> !closes)
      && FileOps(r.log) == FileOps(s.log) + BatchOps(root, fs, s.queue)
  {
    var k := Connect(s.isOpen, fs(port), link).attempts;
    ConnectOutcomes(s.isOpen, fs(port), link);
    BatchOpsShape(root, fs, s.queue);
    FileOpsOfCycle(s.log, port, k, BatchOps(root, fs, s.queue));
  }

  /** The file operations of one connect/batch/disconnect cycle are the batch's. */
  lemma FileOpsOfCycle(log: seq<Op>, port: Path, k: nat, b: seq<Op>)
    requires forall op :: op in b ==> IsFileOp(op)
    ensures FileOps(log + Opens(port, k) + b + [Close]) == FileOps(log) + b
  {
    var opens := Opens(port, k);
    var connected := log + opens;
    FileOpsAppend(log, opens);
    FileOpsOfOpens(port, k);
    assert FileOps(connected) == FileOps(log);
    FileOpsAppend(connected, b);
    FileOpsOfFileOps(b);
    assert FileOps(connected + b) == FileOps(log) + b;
    FileOpsAppend(connected + b, [Close]);
    assert FileOps([Close]) == [] by { assert [Close][1..] == []; }
  }

  // ---------------------------------------------------------------------
  // Runs: intake events and loop iterations interleaved.

  datatype Event =
    | Notify(n: Notification, at: int)
    | Tick(now: int, fs: FileSystem, link: nat -> bool, closes: bool)

  function Apply(root: Path, port: Path, s: SyncState, ev: Event): (r: SyncState)
    requires AllWellFormed(s.queue)
    ensures AllWellFormed(r.queue)
  {
    match ev
    case Notify(n, at) => Intake(s, n, at)
    case Tick(now, fs, link, closes) => Iterate(root, port, s, now, fs, link, closes)
  }

  function Run(root: Path, port: Path, s: SyncState, trace: seq<Event>): (r: SyncState)
    requires AllWellFormed(s.queue)
    ensures AllWellFormed(r.queue)
    decreases |trace|
  {
    if trace == [] then s else Run(root, port, Apply(root, port, s, trace[0]), trace[1..])
  }

  /** Every loop iteration of the trace comes within the quiet period after
      the latest intake before it. */
  predicate Deferred(ts: int, trace: seq<Event>)
    decreases |trace|
  {
    trace == [] ||
    match trace[0]
    case Notify(_, at) => Deferred(at, trace[1..])
    case Tick(now, _, _, _) => now - ts <= WAITING_TIME && Deferred(ts, trace[1..])
  }

  /** The entries the trace's notifications put on the queue, in order. */
  function Notified(trace: seq<Event>): (es: seq<Entry>)
    ensures AllWellFormed(es)
    decreases |trace|
  {
    if trace == [] then []
    else (if trace[0].Notify? then [EntryOf(trace[0].n)] else []) + Notified(trace[1..])
  }

  /** The time stamp after the trace: that of its last notification. */
  function LastStamp(ts: int, trace: seq<Event>): int
    decreases |trace|
  {
    if trace == [] then ts
    else LastStamp(if trace[0].Notify? then trace[0].at else ts, trace[1..])
  }

  /** One event of a burst: a notification is queued and stamped, and an
      iteration within the quiet period leaves the state alone. */
  lemma ApplyDeferred(root: Path, port: Path, s: SyncState, ev: Event)
    requires AllWellFormed(s.queue)
    requires ev.Tick? ==> ev.now - s.ts <= WAITING_TIME
    ensures Apply(root, port, s, ev) == s.(
      queue := s.queue + (if ev.Notify? then [EntryOf(ev.n)] else []),
      ts := if ev.Notify? then ev.at else s.ts)
  {
    if ev.Tick? {
      IterateIdle(root, port, s, ev.now, ev.fs, ev.link, ev.closes);
      assert s.queue + [] == s.queue;
    }
  }

  /** During a burst the worker stays idle: the queue collects every
      notification in arrival order and nothing reaches the board. */
  lemma {:induction false} BurstIsDeferred(root: Path, port: Path, s: SyncState, trace: seq<Event>)
    requires AllWellFormed(s.queue)
    requires Deferred(s.ts, trace)
    ensures Run(root, port, s, trace)
      == s.(queue := s.queue + Notified(trace), ts := LastStamp(s.ts, trace))
    decreases |trace|
  {
    if trace != [] {
      var ev := trace[0];
      var head := if ev.Notify? then [EntryOf(ev.n)] else [];
      var s1 := Apply(root, port, s, ev);
      ApplyDeferred(root, port, s, ev);
      assert Deferred(s1.ts, trace[1..]);
      BurstIsDeferred(root, port, s1, trace[1..]);
      assert Notified(trace) == head + Notified(trace[1..]);
      assert s.queue + head + Notified(trace[1..]) == s.queue + Notified(trace);
    }
  }

  lemma {:induction false} RunAppend(root: Path, port: Path, s: SyncState, trace: seq<Event>, ev: Event)
    requires AllWellFormed(s.queue)
    ensures Run(root, port, s, trace + [ev]) == Apply(root, port, Run(root, port, s, trace), ev)
    decreases |trace|
  {
    if trace == [] {
      assert [ev][1..] == [];
    } else {
      assert (trace + [ev])[0] == trace[0];
      assert (trace + [ev])[1..] == trace[1..] + [ev];
      RunAppend(root, port, Apply(root, port, s, trace[0]), trace[1..], ev);
    }
  }

  /** A burst of notifications followed, after the quiet period, by an
      iteration that connects is replayed in exactly one connect/disconnect
      cycle.  Entries still queued from a failed connect go first, then
      every notification of the burst, in arrival order. */
  lemma BurstIsOneBatch(root: Path, port: Path, s: SyncState, trace: seq<Event>,
                        now: int, fs: FileSystem, link: nat -> bool, closes: bool)
    requires AllWellFormed(s.queue)
    requires Deferred(s.ts, trace)
    requires s.queue + Notified(trace) != []
    requires now - LastStamp(s.ts, trace) > WAITING_TIME
    requires Connect(s.isOpen, fs(port), link).ok
    ensures AllWellFormed(s.queue + Notified(trace))
    ensures var r := Run(root, port, s, trace + [Tick(now, fs, link, closes)]);
      var k := Connect(s.isOpen, fs(port), link).attempts;
      && r.queue == []
      && r.log == s.log + Opens(port, k) + BatchOps(root, fs, s.queue + Notified(trace)) + [Close]
      && r.log == s.log + Opens(port, k) + BatchOps(root, fs, s.queue) + BatchOps(root, fs, Notified(trace)) + [Close]
      && k <= CONNECT_TRIES
  {
    BatchOpsAppend(root, fs, s.queue, Notified(trace));
    BurstIsDeferred(root, port, s, trace);
    RunAppend(root, port, s, trace, Tick(now, fs, link, closes));
    var mid := Run(root, port, s, trace);
    assert mid.queue == s.queue + Notified(trace);
    assert mid.isOpen == s.isOpen && mid.log == s.log;
    IterateDrains(root, port, mid, now, fs, link, closes);
    var k := Connect(s.isOpen, fs(port), link).attempts;
    var pre := s.log + Opens(port, k);
    assert pre + (BatchOps(root, fs, s.queue) + BatchOps(root, fs, Notified(trace)))
      == pre + BatchOps(root, fs, s.queue) + BatchOps(root, fs, Notified(trace));
  }
}
