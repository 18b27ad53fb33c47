# MPSync dispatcher, modelled in Dafny

MPSync watches a local folder and mirrors its changes onto a MicroPython
board through the mpfshell file shell. This project models the
synchroniser's dispatcher and proves properties of the model. The
dispatcher has four parts:

- **Intake handlers.** `_on_created`, `_on_deleted`, `_on_moved` and
  `_on_modified` each put one tagged entry on a FIFO queue and stamp the
  time of the last intake.
- **Worker loop.** One pass of `run` waits until the quiet period
  `WAITING_TIME` has passed and the queue is non-empty. It then connects,
  drains the whole queue in arrival order and disconnects.
- **Per-action translation.** `perform_*`, `_copy_file`,
  `_create_folder` and `_delete` ask the local file system what a path
  names. They issue `put`, `mkdir` or `rm` on the remote path, which is
  the local path with the watched folder removed by
  `path.replace(folder, "")`.
- **Connection lifecycle.** `_mpconnect` returns at once when the link
  is already open. It refuses a port that is missing or is a directory.
  Otherwise it tries `open` up to `CONNECT_TRIES` times. `_mpdisconnect`
  closes the link only when it is open.

Modules:

- `Paths` (paths.dfy): `str.find` and `str.replace(folder, "")`.
  Replace is modelled the way the string library carries it out: find
  the next occurrence, keep what precedes it, skip it, continue after
  it. Every occurrence is removed, not only a leading one. With the
  constructor's default folder "." (mpsync.py:36) every dot of a path
  goes, so "./lib/main.py" is copied to "/lib/mainpy". The command-line
  tool passes the absolute working directory instead. The model keeps
  this behaviour of the source; `RemoveAllOneCharLeavesNone` states it.
- `Actions` (actions.dfy): queue entries, the remote operations, and the
  operations each entry turns into for a given file-kind oracle.
- `Connection` (connection.dfy): connect and disconnect as functions of
  the link state and two oracles. `link(i)` says whether the link is
  open after the i-th open attempt. `closes` says whether a close takes
  effect.
- `Batch` (batch.dfy): the abstract state, made of the queue, the time
  stamp, the link state and the operation log. `Iterate` is one pass of
  the worker loop. Runs interleave intake and passes, which gives the
  debounce properties.
- `MpSync` (mpsync.dfy): the imperative model.
  - Class `Board` stands for the file shell. It holds an open flag and
    the log of commands it was given.
  - Class `MPSync` holds the folder, the port, the queue and the time
    stamp. Its methods are the handlers, the operations above, connect
    with its retry loop, disconnect, the drain loop and one loop pass.
  - Every method is proved against the functions of the other modules.

Time is an integer clock in milliseconds, so `WAITING_TIME` is 500. The
source's 0.5 s is a float.

A missing or directory port does not end the process: `_mpconnect`
(mpsync.py:116-118) returns False, so the batch is deferred to a later
pass.

The worker asks the file system about a path only when it drains the
queue, not when the event arrives. A file created, written and removed
within one quiet period is therefore already gone at the drain. Such a
burst issues only the `rm`, and as written the create raises there. The
source cannot replay it as put, put, rm.

## Model

| member | source | states |
|---|---|---|
| Paths.FindFrom | mpsync.py:51 | the result is the first index at or after the start where the pattern occurs, or there is none |
| Paths.Find | mpsync.py:51 | NotFound exactly when the string does not contain the pattern; otherwise the least index of an occurrence |
| Paths.RemoveAllLength | mpsync.py:51 | the remote path is never longer than the local one, and is at least one folder length shorter when the folder occurs |
| Paths.RemoveAllUnchangedIff | mpsync.py:51 | for a non-empty folder, the translation leaves a path unchanged if and only if the folder does not occur in it |
| Paths.RemoveAllNoMatch | mpsync.py:51 | a path not containing the folder is returned as it is |
| Paths.RemoveAllPrefix | mpsync.py:51 | a path folder + rest maps to the translation of rest, which is exactly rest when rest holds no further occurrence |
| Paths.RemoveAllOneCharLeavesNone | mpsync.py:51 | with a one-character folder, no occurrence of that character survives, and the length drops by the number of occurrences |
| Actions.CreateOpsIntent | mpsync.py:69-75 | create uploads a regular file to its remote path, makes the remote directory for a directory, and issues nothing otherwise |
| Actions.ModifyIsCreateOfFile | mpsync.py:103-107 | modify of a regular file issues exactly the one put that create issues; modify of anything else issues nothing |
| Actions.DeleteIsOneRm | mpsync.py:81-84 | delete issues exactly one rm of the remote path, whatever the path names |
| Actions.MoveIsDeleteThenModify | mpsync.py:90-97 | a move onto a regular file issues rm of the source then put of the destination, in that order; any other move issues nothing |
| Actions.TranslateShape | mpsync.py:170-177 | each entry issues at most two operations, all put/mkdir/rm; those of a one-path entry are all on that path's remote path |
| Actions.UnknownTagDropped | mpsync.py:170-177 | an entry whose tag is none of the four issues nothing |
| Actions.BatchOpsCons | mpsync.py:167-169 | draining takes the oldest entry first and then the rest |
| Actions.BatchOpsAppend | mpsync.py:167-179 | draining two queue segments one after the other issues the first segment's operations and then the second's |
| Actions.BatchOpsSnoc | mpsync.py:167-179 | one more drained entry appends exactly its translation to the log |
| Actions.BatchOpsAt | mpsync.py:167-179 | FIFO: the k-th entry's operations come after all earlier entries' and before all later ones' |
| Actions.BatchOpsShape | mpsync.py:167-179 | a batch issues only put/mkdir/rm, at most two per entry, and nothing for a queue of unknown tags |
| Actions.TempFileBurst | mpsync.py:65-107 | create, modify, delete of one file, drained after the file is gone, issue only the rm of its remote path; as written the create raises |
| Actions.SaveBurstReplay | mpsync.py:65-107 | delete, create, modify of one file that exists at the drain replay as rm, put, put of its remote path, in that order |
| Actions.RemoteOfRootFile | mpsync.py:50-53 | for folder "root", root/x.txt is uploaded to /x.txt |
| Actions.CreateAsWrittenRaises | mpsync.py:72-75 | as written, create raises exactly for a path that is not a regular file, and on a directory the intended mkdir is never issued |
| Connection.Opens | mpsync.py:120-121 | n attempts issue n open commands, all on the address "ser:" + port |
| Connection.FirstUp | mpsync.py:120-123 | the retry loop stops at the first attempt after which the link is open; every earlier attempt left it closed |
| Connection.FirstUpIs | mpsync.py:120-123 | that stopping point is determined by the attempts before it failing and the attempt itself succeeding |
| Connection.ConnectOutcomes | mpsync.py:109-126 | three outcomes: an open link is reused with no attempt; a missing or directory port fails with no attempt; otherwise success at the first attempt that opens the link, failure only after exactly CONNECT_TRIES failed attempts, never more attempts |
| Connection.DisconnectOutcomes | mpsync.py:128-137 | one close exactly when the link is open; the link stays open only if the close does not take effect; never raises |
| Connection.DisconnectAsWrittenRaises | mpsync.py:136-137 | as written, disconnect raises exactly when a close was issued and did not take effect, and otherwise agrees with the corrected one |
| Paths.RemoveAll | mpsync.py:51 | definition of `path.replace(folder, "")`: keep what precedes the first occurrence, drop it, continue after it; an empty folder leaves the path as it is |
| Actions.Remote | mpsync.py:51 | definition: the remote path is the local path with the watched folder removed |
| Actions.CopyFileOps | mpsync.py:50-53 | definition: one put of the file to its remote path |
| Actions.CreateFolderOps | mpsync.py:55-58 | definition: one mkdir of the remote path |
| Actions.DeleteOps | mpsync.py:60-63 | definition: one rm of the remote path |
| Actions.CreateOps | mpsync.py:69-75 | definition of the corrected create: put for a regular file, mkdir for a directory, nothing otherwise |
| Actions.PerformDeleteOps | mpsync.py:81-84 | definition: delete without probing the path |
| Actions.MoveOps | mpsync.py:90-97 | definition: rm of the source then put of the destination when the destination is a regular file, nothing otherwise |
| Actions.ModifyOps | mpsync.py:103-107 | definition: put for a regular file, nothing otherwise |
| Actions.Translate | mpsync.py:170-177 | definition of the tag dispatch of the drain loop |
| Actions.BatchOps | mpsync.py:167-179 | definition: each entry's translation, in queue order |
| Actions.CreateOpsAsWritten | mpsync.py:72-75 | definition of create as written: a put for a regular file, the `isfolder` raise for anything else |
| Connection.Address | mpsync.py:121 | definition: the open address "ser:" + port |
| Connection.Connect | mpsync.py:109-126 | definition of connect's outcome and attempt count from the link state, the port's kind and the link oracle |
| Connection.Disconnect | mpsync.py:128-137 | definition of the corrected disconnect: close an open link; a close that does not take effect is only reported |
| Connection.DisconnectAsWritten | mpsync.py:128-137 | definition of disconnect as written: as above, but it raises when the close does not take effect |
| Batch.GateOpen | mpsync.py:160-162 | definition: the quiet period has passed and the queue is non-empty |
| Batch.Iterate | mpsync.py:159-181 | one pass of the loop; the queue ends either unchanged or empty, and the time stamp is never changed |
| Batch.EntryOf | mpsync.py:65-101 | each handler builds the entry of its own tag, carrying the source path, or the (source, destination) pair for a move |
| Batch.Intake | mpsync.py:65-101 | intake appends exactly one entry at the tail, stamps the time, and leaves earlier entries, link and log unchanged |
| Batch.IterateIdle | mpsync.py:160-162 | within the quiet period, or with an empty queue, a pass changes nothing |
| Batch.IterateConnectFails | mpsync.py:163-166 | a failed connect keeps the queue as it was; the log gains only at most CONNECT_TRIES opens and no file operation |
| Batch.IterateDrains | mpsync.py:167-181 | a successful connect empties the queue; the log gains the opens, each entry's operations in queue order, and one close |
| Batch.FileOpsOfCycle | mpsync.py:163-181 | the file operations of a connect/drain/disconnect cycle are exactly the batch's |
| Batch.ApplyDeferred | mpsync.py:157-162 | during a burst a notification is queued and stamped, and a pass inside the quiet period leaves the state alone |
| Batch.BurstIsDeferred | mpsync.py:157-162 | while every pass falls inside the quiet period after the latest intake, the queue collects every notification in order and nothing reaches the board |
| Batch.BurstIsOneBatch | mpsync.py:157-181 | a burst followed, after the quiet period, by a pass that connects is replayed in one connect/disconnect cycle: entries left by a failed connect first, then the whole burst in arrival order |
| MpSync.MPSync.constructor | mpsync.py:36-48 | a synchroniser on an existing folder starts with an empty queue, time stamp 0 and a closed link |
| MpSync.MPSync.OnCreated | mpsync.py:65-67 | appends ("CREATE", src) to the tail of the queue and sets the time stamp |
| MpSync.MPSync.OnDeleted | mpsync.py:77-79 | appends ("DELETE", src) to the tail of the queue and sets the time stamp |
| MpSync.MPSync.OnMoved | mpsync.py:86-88 | appends ("MOVE", (src, dst)) to the tail of the queue and sets the time stamp |
| MpSync.MPSync.OnModified | mpsync.py:99-101 | appends ("MODIFY", src) to the tail of the queue and sets the time stamp |
| MpSync.MPSync.CopyFile | mpsync.py:50-53 | the shell receives one put of the file to its remote path |
| MpSync.MPSync.CreateFolder | mpsync.py:55-58 | the shell receives one mkdir of the remote path |
| MpSync.MPSync.Delete | mpsync.py:60-63 | the shell receives one rm of the remote path |
| MpSync.MPSync.PerformCreate | mpsync.py:69-75 | the shell receives what create issues for the path's kind |
| MpSync.MPSync.PerformDelete | mpsync.py:81-84 | the shell receives the one rm of delete |
| MpSync.MPSync.PerformMove | mpsync.py:90-97 | the shell receives rm then put for a move onto a regular file, nothing otherwise |
| MpSync.MPSync.PerformModify | mpsync.py:103-107 | the shell receives one put for a regular file, nothing otherwise |
| MpSync.MPSync.Dispatch | mpsync.py:170-177 | the shell receives the entry's translation; the link state is untouched |
| MpSync.MPSync.MpConnect | mpsync.py:109-126 | returns the outcome of Connection.Connect, the log gains exactly its open attempts, and the link is open exactly when it returns true |
| MpSync.MPSync.MpDisconnect | mpsync.py:128-137 | the log gains the close of Connection.Disconnect and the link state becomes what it states |
| MpSync.MPSync.Drain | mpsync.py:167-179 | the queue ends empty, and the log gains every entry's operations in queue order |
| MpSync.MPSync.RunStep | mpsync.py:159-181 | one pass changes the synchroniser's state exactly as Batch.Iterate says |

## Left out

- Watchdog observer setup and scheduling (mpsync.py:139-155) is not modelled. The watcher is a foreign library; its events are the calls to the intake handlers.
- Threads, `start_sync`/`stop_sync` and the `_running` flag (mpsync.py:157-159, 184-193) are not modelled. The model is sequential, one loop pass at a time.
- MpSync.MPSync.Drain drains the queue as it stands when the drain begins. An event that arrives while the drain runs is not modelled, because the model has no concurrency.
- Clock reads and `time.sleep` become an integer `now` parameter. The 5-second back-off after a failed connect and the 0.1 s poll interval are not modelled.
- `print` output and the verbose flag are left out: they only log.
- The internals of mpfshell are left out. That covers the name-mangled `__is_open`, the error-hook replacement in `__init__` and how `do_put` parses its space-joined argument string. The shell is an open flag plus a log of the commands it received, recorded as the (local, remote) pair that the source intends to pass.
- Failures of individual put, mkdir or rm commands are not modelled. Every issued command is logged as issued.
- `os.path` probing becomes a file-kind oracle with four kinds: regular file, directory, other existing object (such as a device node), missing.
- The `queue.Empty` handler and `q.task_done()` (mpsync.py:178-180) are left out. With one consumer the first cannot fire, and the second does not change the queue's contents.
- The folder check in `_create_watchdog` (mpsync.py:143-146) ends the process. It is stated as the constructor's precondition.
- Argument parsing and `main` (mpsync.py:196-240), and setup.py, are not part of this model. They are process plumbing and packaging.

## Findings

| source | as written | input that shows it | evidently intended | confidence | as-written member | corrected member |
|---|---|---|---|---|---|---|
| mpsync.py:74 | `perform_create` tests a non-file with `os.path.isfolder`, which `os.path` does not define. The `AttributeError` escapes `run` and ends the worker. | a create event for a new directory | issue `mkdir` of the remote directory | not executed | Actions.CreateOpsAsWritten, shown by Actions.CreateAsWrittenRaises | Actions.CreateOps, proved by Actions.CreateOpsIntent |
| mpsync.py:137 | the warning for a close that did not take effect formats `p`, a name local to `_mpconnect`. The `NameError` escapes `run` and ends the worker. | a disconnect whose `do_close` leaves the shell reporting open | warn and let the next batch reuse the open link | not executed | Connection.DisconnectAsWritten, shown by Connection.DisconnectAsWrittenRaises | Connection.Disconnect, proved by Connection.DisconnectOutcomes |
