/** Removing the old source tree: entry by entry, refusing links, other devices and files that
    have other names, and stopping at the first refusal. */
module SourceTree {
  import opened Artifacts

  /** A directory holds named entries, in the order in which they are read. */
  datatype Node =
    | Symlink
    | File(device: nat, links: nat, regular: bool)
    | Dir(device: nat, entries: seq<Entry>)

  datatype Entry = Entry(name: string, node: Node)

  /** What is refused by itself, whatever the rest of the tree. */
  predicate Refused(n: Node, device: nat) {
    match n
    case Symlink => true
    case File(d, links, regular) => d != device || (regular && links != 1)
    case Dir(d, entries) => d != device
  }

  /** Nothing in the tree is refused. */
  predicate Removable(entries: seq<Entry>, device: nat) {
    forall i :: 0 <= i < |entries| ==> RemovableNode(entries[i].node, device)
  }

  predicate RemovableNode(n: Node, device: nat) {
    !Refused(n, device) && (n.Dir? ==> Removable(n.entries, device))
  }

  /** What a removal leaves of a directory's entries: everything from the entry that stopped
      it, which is as it was or is a directory that was emptied in part. What is gone held
      nothing that is refused. */
  predicate Leaves(before: seq<Entry>, after: seq<Entry>, device: nat)
    decreases before, 0
  {
    && |after| <= |before| && Removable(before[..|before| - |after|], device)
    && (after != [] ==>
          && after[1..] == before[|before| - |after| + 1..]
          && LeavesEntry(before[|before| - |after|], after[0], device))
  }

  predicate LeavesEntry(before: Entry, after: Entry, device: nat)
    decreases before, 1
  {
    && after.name == before.name
    && (|| after.node == before.node
        || (before.node.Dir? && after.node.Dir? && after.node.device == before.node.device &&
            Leaves(before.node.entries, after.node.entries, device)))
  }

  /** Removes the entries one after the other. Every step may be refused by the environment:
      a cancelled context, a mount that has appeared, a replaced directory, an input or output
      error. */
  method RemoveContents(entries: seq<Entry>, device: nat, env: nat -> bool, turn: nat)
    returns (ok: bool, left: seq<Entry>, next: nat)
    ensures Leaves(entries, left, device)
    ensures ok <==> left == []
    ensures ok ==> Removable(entries, device)
    ensures Removable(entries, device) && (forall k :: env(k)) ==> ok
    decreases entries, 0
  {
    next := turn;
    var i := 0;
    while i < |entries|
      invariant 0 <= i <= |entries|
      invariant Removable(entries[..i], device)
    {
      var rest: Entry;
      ok, rest, next := RemoveEntry(entries[i], device, env, next);
      if !ok {
        left := [rest] + entries[i + 1..];
        assert entries[..|entries| - |left|] == entries[..i];
        return;
      }
      assert entries[..i + 1] == entries[..i] + [entries[i]];
      i := i + 1;
    }
    assert entries[..i] == entries;
    return true, [], next;
  }

  /** Removes one entry; rest is what is left of it when that fails. */
  method RemoveEntry(e: Entry, device: nat, env: nat -> bool, turn: nat) returns (ok: bool, rest: Entry, next: nat)
    ensures LeavesEntry(e, rest, device)
    ensures ok ==> RemovableNode(e.node, device)
    ensures RemovableNode(e.node, device) && (forall k :: env(k)) ==> ok
    decreases e, 1
  {
    rest, next := e, turn + 1;
    if !env(turn) || Refused(e.node, device) {
      return false, rest, next;
    }
    if e.node.Dir? {
      ok, rest, next := RemoveDirectory(e, device, env, next);
    } else {
      ok, next := env(next), next + 1;
    }
  }

  method RemoveDirectory(e: Entry, device: nat, env: nat -> bool, turn: nat) returns (ok: bool, rest: Entry, next: nat)
    requires e.node.Dir? && !Refused(e.node, device)
    ensures LeavesEntry(e, rest, device)
    ensures ok ==> RemovableNode(e.node, device)
    ensures RemovableNode(e.node, device) && (forall k :: env(k)) ==> ok
    decreases e, 0
  {
    rest, next := e, turn + 1;
    if !env(turn) {
      return false, rest, next;
    }
    var left: seq<Entry>;
    ok, left, next := RemoveContents(e.node.entries, device, env, next);
    rest := Entry(e.name, Dir(e.node.device, left));
    if ok {
      ok, next := env(next), next + 1;
    }
  }

  // ----- what a removal can have done -----

  /** The entry at a path of positions counted from the end, which removal does not shift. */
  function At(entries: seq<Entry>, path: seq<nat>): Option<Entry> {
    if path == [] || path[0] >= |entries| then None
    else
      var e := entries[|entries| - 1 - path[0]];
      if |path| == 1 then Some(e) else if e.node.Dir? then At(e.node.entries, path[1..]) else None
  }

  /** The names along such a path: the path as one writes it. */
  function Names(entries: seq<Entry>, path: seq<nat>): seq<string>
    requires At(entries, path).Some?
  {
    var e := entries[|entries| - 1 - path[0]];
    [e.name] + if |path| == 1 then [] else Names(e.node.entries, path[1..])
  }

  /** What stays is where it was, under its name: the remainder is a sub-tree. */
  lemma {:induction false} RemainderIsSubtree(before: seq<Entry>, after: seq<Entry>, device: nat, path: seq<nat>)
    requires Leaves(before, after, device) && At(after, path).Some?
    ensures At(before, path).Some? && Names(before, path) == Names(after, path)
    ensures var n, m := At(before, path).value.node, At(after, path).value.node;
            m == n || (m.Dir? && n.Dir? && m.device == n.device)
    decreases |path|
  {
    var k := |after| - 1 - path[0];
    if k > 0 {
      assert after[k] == after[1..][k - 1];
    } else {
      var e, f := before[|before| - |after|], after[0];
      if |path| > 1 && f.node != e.node {
        RemainderIsSubtree(e.node.entries, f.node.entries, device, path[1..]);
      }
    }
  }

  lemma {:induction false} RemovableWithin(entries: seq<Entry>, device: nat, path: seq<nat>)
    requires Removable(entries, device) && At(entries, path).Some?
    ensures RemovableNode(At(entries, path).value.node, device)
    decreases |path|
  {
    var n := entries[|entries| - 1 - path[0]].node;
    if |path| > 1 {
      RemovableWithin(n.entries, device, path[1..]);
    }
  }

  /** A link, a directory on another device or a file with other names, and every directory
      above it, is never removed, however the removal ends: it is found under the same path. */
  lemma {:induction false} RefusedSurvives(before: seq<Entry>, after: seq<Entry>, device: nat, path: seq<nat>)
    requires Leaves(before, after, device)
    requires At(before, path).Some? && !RemovableNode(At(before, path).value.node, device)
    ensures At(after, path).Some? && Names(after, path) == Names(before, path)
    ensures !At(before, path).value.node.Dir? ==> At(after, path) == At(before, path)
    decreases |path|
  {
    var i := |before| - 1 - path[0];
    var e := before[i];
    if i < |before| - |after| {
      var gone := before[..|before| - |after|];
      assert gone[i] == e && RemovableNode(gone[i].node, device);
      if |path| > 1 {
        RemovableWithin(e.node.entries, device, path[1..]);
      }
      assert false;
    } else if i > |before| - |after| {
      assert after[i - (|before| - |after|)] == after[1..][i - (|before| - |after|) - 1] == e;
    } else if |path| > 1 && after[0].node != e.node {
      RefusedSurvives(e.node.entries, after[0].node.entries, device, path[1..]);
    }
  }

  /** What is not refused, spelled out. */
  predicate Own(n: Node, device: nat) {
    match n
    case Symlink => false
    case File(d, links, regular) => d == device && (regular ==> links == 1)
    case Dir(d, entries) => d == device
  }

  lemma {:induction false} RemovableIsOwn(entries: seq<Entry>, device: nat, path: seq<nat>)
    requires Removable(entries, device) && At(entries, path).Some?
    ensures Own(At(entries, path).value.node, device)
  {
    RemovableWithin(entries, device, path);
  }

  lemma AtInside(entries: seq<Entry>, i: nat, path: seq<nat>)
    requires i < |entries| && entries[i].node.Dir?
    ensures At(entries, [|entries| - 1 - i]) == Some(entries[i])
    ensures path != [] ==> At(entries, [|entries| - 1 - i] + path) == At(entries[i].node.entries, path)
  {
    assert ([|entries| - 1 - i] + path)[1..] == path;
  }

  /** A tree can be removed exactly when everything in it is no link, on the device, and no file
      with other names. */
  lemma {:induction false} RemovableIffOwn(entries: seq<Entry>, device: nat)
    ensures Removable(entries, device) <==>
            forall path :: At(entries, path).Some? ==> Own(At(entries, path).value.node, device)
    decreases entries
  {
    if Removable(entries, device) {
      forall path | At(entries, path).Some? ensures Own(At(entries, path).value.node, device) {
        RemovableIsOwn(entries, device, path);
      }
    } else {
      var i :| 0 <= i < |entries| && !RemovableNode(entries[i].node, device);
      var here: seq<nat> := [|entries| - 1 - i];
      assert At(entries, here) == Some(entries[i]);
      if Own(entries[i].node, device) {
        var inner := entries[i].node.entries;
        RemovableIffOwn(inner, device);
        var path :| At(inner, path).Some? && !Own(At(inner, path).value.node, device);
        AtInside(entries, i, path);
        assert path != [] && At(entries, here + path) == At(inner, path);
      }
    }
  }
}
