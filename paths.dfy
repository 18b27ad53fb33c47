/** Local-to-remote path translation.

    The synchroniser computes a remote path as `path.replace(folder, "")`:
    every non-overlapping occurrence of the watched folder, scanning left
    to right, is removed.  `Find` models `str.find`, and `RemoveAll` the way
    the string library carries out replace: find the next occurrence, keep
    what comes before it, skip it, and go on after it. */
module Paths {

  type Path = string

  /** `p` occurs in `s` starting at index `i`. */
  predicate OccursAt(s: string, p: string, i: nat) {
    i + |p| <= |s| && s[i..i + |p|] == p
  }

  predicate Contains(s: string, p: string) {
    exists i: nat | i <= |s| :: OccursAt(s, p, i)
  }

  datatype Found = NotFound | FoundAt(index: nat)

  /** The first occurrence of `p` in `s` at or after `start`. */
  function FindFrom(s: string, p: string, start: nat): (r: Found)
    decreases |s| - start
    ensures r.FoundAt? ==> start <= r.index && OccursAt(s, p, r.index)
    ensures r.FoundAt? ==> forall j: nat :: start <= j < r.index ==> !OccursAt(s, p, j)
    ensures r.NotFound? ==> forall j: nat :: start <= j ==> !OccursAt(s, p, j)
  {
    if start + |p| > |s| then NotFound
    else if OccursAt(s, p, start) then FoundAt(start)
    else FindFrom(s, p, start + 1)
  }

  /** `s.find(p)`: the least index where `p` occurs, if any. */
  function Find(s: string, p: string): (r: Found)
    ensures r.NotFound? <==> !Contains(s, p)
    ensures r.FoundAt? ==> OccursAt(s, p, r.index) && forall j: nat :: j < r.index ==> !OccursAt(s, p, j)
  {
    FindFrom(s, p, 0)
  }

  /** `s.replace(p, "")`.  An empty pattern leaves the string as it is. */
  function RemoveAll(s: string, p: string): string
    decreases |s|
  {
    if p == [] then s
    else match Find(s, p)
      case NotFound => s
      case FoundAt(i) => s[..i] + RemoveAll(s[i + |p|..], p)
  }

  /** Removal never lengthens a path, and shortens it when it removes something. */
  lemma {:induction false} RemoveAllLength(s: string, p: string)
    ensures |RemoveAll(s, p)| <= |s|
    ensures p != [] && Contains(s, p) ==> |RemoveAll(s, p)| <= |s| - |p|
    decreases |s|
  {
    if p != [] {
      match Find(s, p)
      case NotFound =>
      case FoundAt(i) => RemoveAllLength(s[i + |p|..], p);
    }
  }

  /** A string without an occurrence of the pattern is returned unchanged. */
  lemma RemoveAllNoMatch(s: string, p: string)
    requires !Contains(s, p)
    ensures RemoveAll(s, p) == s
  {
  }

  /** The translation changes a path exactly when the (non-empty) folder
      occurs in it; otherwise it returns the path unchanged. */
  lemma RemoveAllUnchangedIff(s: string, p: string)
    requires p != []
    ensures RemoveAll(s, p) == s <==> !Contains(s, p)
  {
    RemoveAllLength(s, p);
  }

  /** A path that starts with the folder loses that prefix first; when the
      rest holds no further occurrence, the remote path is exactly the rest. */
  lemma RemoveAllPrefix(root: string, rest: string)
    requires root != []
    ensures RemoveAll(root + rest, root) == RemoveAll(rest, root)
    ensures !Contains(rest, root) ==> RemoveAll(root + rest, root) == rest
  {
    var s := root + rest;
    assert OccursAt(s, root, 0) by { assert s[0..|root|] == root; }
    assert Find(s, root) == FoundAt(0);
    assert s[|root|..] == rest;
  }

  /** A pattern whose first character does not appear in a string does not
      occur in it. */
  lemma MissingFirstChar(s: string, p: string)
    requires p != [] && p[0] !in s
    ensures !Contains(s, p)
  {
    forall i: nat | i <= |s| ensures !OccursAt(s, p, i) {
      if i + |p| <= |s| {
        assert s[i..i + |p|][0] == s[i];
      }
    }
  }

  /** A one-character pattern occurs exactly where that character stands. */
  lemma OccursOneChar(s: string, c: char, j: nat)
    ensures OccursAt(s, [c], j) <==> j < |s| && s[j] == c
  {
    if j < |s| {
      assert s[j..j + 1] == [s[j]];
    }
  }

  /** Every occurrence goes, not only the leading one: with a one-character
      folder such as "." no such character survives in the remote path, so
      "./lib/main.py" becomes "/lib/mainpy". */
  lemma {:induction false} RemoveAllOneCharLeavesNone(s: string, c: char)
    ensures c !in RemoveAll(s, [c])
    ensures |RemoveAll(s, [c])| == |s| - multiset(s)[c]
    decreases |s|
  {
    match Find(s, [c])
    case NotFound =>
      forall j | 0 <= j < |s| ensures s[j] != c {
        OccursOneChar(s, c, j);
      }
      assert multiset(s)[c] == 0;
    case FoundAt(i) =>
      OccursOneChar(s, c, i);
      var before, rest := s[..i], s[i + 1..];
      forall j | 0 <= j < i ensures before[j] != c {
        OccursOneChar(s, c, j);
      }
      RemoveAllOneCharLeavesNone(rest, c);
      assert s == before + [c] + rest;
      assert multiset(s) == multiset(before) + multiset([c]) + multiset(rest);
      assert multiset(before)[c] == 0;
  }
}
