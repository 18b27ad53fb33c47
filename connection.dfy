/** What connecting to and disconnecting from the board do.

    Connecting returns at once when the link is already open, refuses a
    port that is missing or is a directory, and otherwise tries to open the
    link up to `CONNECT_TRIES` times, stopping as soon as it is open.
    Whether the link is open after the i-th attempt of one connect is an
    oracle `link(i)`; whether a close takes effect is an oracle `closes`. */
module Connection {
  import opened Paths
  import opened Actions

  const CONNECT_TRIES: nat := 5
  const MPF_PROTOCOL: string := "ser"

  /** The address handed to the file shell's open command. */
  function Address(port: Path): string {
    MPF_PROTOCOL + ":" + port
  }

  /** `n` open commands on the same address. */
  function Opens(port: Path, n: nat): (r: seq<Op>)
    ensures |r| == n
    ensures forall i :: 0 <= i < n ==> r[i] == Open(Address(port))
  {
    if n == 0 then [] else Opens(port, n - 1) + [Open(Address(port))]
  }

  /** The first attempt in `[i, n)` after which the link is open, or `n`. */
  function FirstUp(link: nat -> bool, i: nat, n: nat): (k: nat)
    requires i <= n
    decreases n - i
    ensures i <= k <= n
    ensures forall j: nat :: i <= j < k ==> !link(j)
    ensures k < n ==> link(k)
  {
    if i == n then n else if link(i) then i else FirstUp(link, i + 1, n)
  }

  datatype Attempt = Attempt(ok: bool, attempts: nat)

  /** `_mpconnect`: whether it returns true, and how many opens it issued. */
  function Connect(wasOpen: bool, port: Kind, link: nat -> bool): Attempt {
    if wasOpen then Attempt(true, 0)
    else if port == Missing || port == Directory then Attempt(false, 0)
    else
      var k := FirstUp(link, 0, CONNECT_TRIES);
      if k < CONNECT_TRIES then Attempt(true, k + 1) else Attempt(false, CONNECT_TRIES)
  }

  /** The three outcomes of connecting.  An open link is reused with no
      attempt; a missing or directory port fails with no attempt; otherwise
      the attempts stop at the first one after which the link is open, and
      connecting fails only after `CONNECT_TRIES` failed attempts. */
  lemma ConnectOutcomes(wasOpen: bool, port: Kind, link: nat -> bool)
    ensures Connect(wasOpen, port, link).attempts <= CONNECT_TRIES
    ensures wasOpen ==> Connect(wasOpen, port, link) == Attempt(true, 0)
    ensures !wasOpen && (port == Missing || port == Directory) ==>
      Connect(wasOpen, port, link) == Attempt(false, 0)
    ensures !wasOpen && (port == RegularFile || port == Special) ==>
      var c := Connect(wasOpen, port, link);
      && (c.ok <==> exists j: nat :: j < CONNECT_TRIES && link(j))
      && (c.ok ==> 1 <= c.attempts && link(c.attempts - 1))
      && (forall j: nat :: j + 1 < c.attempts ==> !link(j))
      && (!c.ok ==> c.attempts == CONNECT_TRIES && forall j: nat :: j < CONNECT_TRIES ==> !link(j))
  {
    if !wasOpen && (port == RegularFile || port == Special) {
      var k := FirstUp(link, 0, CONNECT_TRIES);
      if k == CONNECT_TRIES {
        assert forall j: nat :: j < CONNECT_TRIES ==> !link(j);
      } else {
        assert link(k);
      }
    }
  }

  /** The first attempt after which the link is open is determined by the
      attempts before it all failing. */
  lemma FirstUpIs(link: nat -> bool, k: nat, n: nat)
    requires k <= n
    requires forall j: nat :: j < k ==> !link(j)
    requires k < n ==> link(k)
    ensures FirstUp(link, 0, n) == k
  {
  }

  /** What releasing the board does: the operations issued, whether the link
      reports open afterwards, and whether the worker raised. */
  datatype Release = Release(ops: seq<Op>, stillOpen: bool, raised: bool)

  /** `_mpdisconnect` as it evidently means to behave: close an open link;
      a close that does not take effect is only reported. */
  function Disconnect(isOpen: bool, closes: bool): Release {
    if !isOpen then Release([], false, false) else Release([Close], !closes, false)
  }

  /** `_mpdisconnect` as written: its warning for a close that did not
      take effect formats a name that is not defined in that method, so it
      raises there. */
  function DisconnectAsWritten(isOpen: bool, closes: bool): Release {
    if !isOpen then Release([], false, false) else Release([Close], !closes, !closes)
  }

  /** Disconnect issues one close exactly when the link is open, leaves a
      closed link closed, and never raises. */
  lemma DisconnectOutcomes(isOpen: bool, closes: bool)
    ensures Disconnect(isOpen, closes).ops == (if isOpen then [Close] else [])
    ensures Disconnect(isOpen, closes).stillOpen <==> isOpen && !closes
    ensures !Disconnect(isOpen, closes).raised
  {
  }

  /** As written, disconnecting raises exactly when a close was issued and
      did not take effect; otherwise it agrees with `Disconnect`. */
  lemma DisconnectAsWrittenRaises(isOpen: bool, closes: bool)
    ensures DisconnectAsWritten(isOpen, closes).raised <==> isOpen && !closes
    ensures !DisconnectAsWritten(isOpen, closes).raised ==>
      DisconnectAsWritten(isOpen, closes) == Disconnect(isOpen, closes)
    ensures DisconnectAsWritten(true, false).raised && !Disconnect(true, false).raised
  {
  }
}
