/**
 The Drive's tree of nodes, each with its own id, a parent and a name, seen as a map from paths to
 bytes.
 */
module DriveTree {
  import opened Basics
  import opened DrivePaths

  type Id = nat

  const ROOT: Id := 0  // the alias "root"; the root folder itself is not a node

  datatype Node = Node(parent: Id, name: string, isFolder: bool, data: Bytes)

  type Tree = map<Id, Node>

  predicate IsChild(t: Tree, id: Id, parent: Id, name: string, foldersOnly: bool) {
    id in t && t[id].parent == parent && t[id].name == name && (foldersOnly ==> t[id].isFolder)
  }

  /** Siblings have different names; ids from `next` on have never been handed out. */
  ghost predicate Valid(t: Tree, next: Id) {
    && ROOT !in t && ROOT < next
    && (forall id <- t :: id < next && t[id].parent < next)
    && (forall a, b :: a in t && b in t && t[a].parent == t[b].parent && t[a].name == t[b].name ==> a == b)
  }

  ghost function Child(t: Tree, parent: Id, name: string, foldersOnly: bool): (r: Option<Id>)
    ensures r.Some? ==> IsChild(t, r.value, parent, name, foldersOnly)
    ensures r.None? ==> forall id <- t :: !IsChild(t, id, parent, name, foldersOnly)
  {
    if exists id <- t :: IsChild(t, id, parent, name, foldersOnly) then
      var id :| id in t && IsChild(t, id, parent, name, foldersOnly); Some(id)
    else None
  }

  /** The folder a list of components leads to, from the root. */
  ghost function Walk(t: Tree, parts: seq<string>): Option<Id>
    decreases |parts|
  {
    if parts == [] then Some(ROOT)
    else
      match Walk(t, parts[..|parts| - 1])
      case None => None
      case Some(folder) => Child(t, folder, parts[|parts| - 1], true)
  }

  /** The map the tree stands for: the bytes at a path, if there is a file. */
  ghost function Get(t: Tree, p: Path): Option<Bytes> {
    match Walk(t, p.parts)
    case None => None
    case Some(folder) => FileIn(t, folder, p.name)
  }

  ghost function FileIn(t: Tree, folder: Id, name: string): Option<Bytes> {
    match Child(t, folder, name, false)
    case None => None
    case Some(id) => if t[id].isFolder then None else Some(t[id].data)
  }

  /** A folder may go by this name below `parent`: nothing has it, or a folder does. */
  ghost predicate FolderFits(t: Tree, parent: Id, name: string) {
    forall id <- t :: IsChild(t, id, parent, name, false) ==> t[id].isFolder
  }

  ghost predicate FileFits(t: Tree, parent: Id, name: string) {
    forall id <- t :: IsChild(t, id, parent, name, false) ==> !t[id].isFolder
  }

  /** No component of the path is taken by a file, and its file name is not taken by a folder. */
  ghost predicate NoClash(t: Tree, p: Path) {
    FoldersFit(t, p.parts) && (Walk(t, p.parts).Some? ==> FileFits(t, Walk(t, p.parts).value, p.name))
  }

  ghost predicate FoldersFit(t: Tree, parts: seq<string>) {
    forall k | 0 <= k < |parts| :: PartFits(t, parts, k)
  }

  ghost predicate PartFits(t: Tree, parts: seq<string>, k: nat)
    requires k < |parts|
  {
    var folder := Walk(t, parts[..k]);
    folder.Some? ==> FolderFits(t, folder.value, parts[k])
  }

  /* ------------------------------------ walking ------------------------------------ */

  lemma ChildIs(t: Tree, next: Id, id: Id, parent: Id, name: string, foldersOnly: bool)
    requires Valid(t, next) && IsChild(t, id, parent, name, foldersOnly)
    ensures Child(t, parent, name, foldersOnly) == Some(id)
  {}

  lemma WalkSnoc(t: Tree, parts: seq<string>, part: string)
    ensures Walk(t, parts + [part]) ==
            match Walk(t, parts) { case None => None case Some(folder) => Child(t, folder, part, true) }
  {
    assert (parts + [part])[..|parts|] == parts;
  }

  lemma WalkBound(t: Tree, next: Id, parts: seq<string>)
    requires Valid(t, next)
    ensures Walk(t, parts).Some? ==> Walk(t, parts).value < next
    ensures Walk(t, parts) == Some(ROOT) ==> parts == []
  {}

  lemma {:induction false} WalkPrefix(t: Tree, parts: seq<string>, k: nat)
    requires k <= |parts| && Walk(t, parts).Some?
    ensures Walk(t, parts[..k]).Some?
    decreases |parts|
  {
    if k < |parts| {
      WalkPrefix(t, parts[..|parts| - 1], k);
      assert parts[..|parts| - 1][..k] == parts[..k];
    } else {
      assert parts[..k] == parts;
    }
  }

  /** A way that exists is not blocked by files. */
  lemma FoundFits(t: Tree, next: Id, parts: seq<string>)
    requires Valid(t, next) && Walk(t, parts).Some?
    ensures FoldersFit(t, parts)
  {
    forall k | 0 <= k < |parts| ensures PartFits(t, parts, k) {
      WalkPrefix(t, parts, k + 1);
      assert parts[..k + 1] == parts[..k] + [parts[k]];
      WalkSnoc(t, parts[..k], parts[k]);
    }
  }

  /** A path that can be read can be written. */
  lemma ReadableFits(t: Tree, next: Id, p: Path)
    requires Valid(t, next) && Get(t, p).Some?
    ensures NoClash(t, p)
  {
    FoundFits(t, next, p.parts);
    var folder := Walk(t, p.parts).value;
    var id := Child(t, folder, p.name, false).value;
    forall i <- t | IsChild(t, i, folder, p.name, false) ensures i == id { ChildIs(t, next, i, folder, p.name, false); }
  }

  /** Every folder is reached by one list of components only. */
  lemma {:induction false} WalkIsUnique(t: Tree, next: Id, p: seq<string>, q: seq<string>)
    requires Valid(t, next) && Walk(t, p).Some? && Walk(t, p) == Walk(t, q)
    ensures p == q
    decreases |p|
  {
    WalkBound(t, next, p);
    WalkBound(t, next, q);
    if p != [] {
      WalkIsUnique(t, next, p[..|p| - 1], q[..|q| - 1]);
      assert p == p[..|p| - 1] + [p[|p| - 1]] && q == q[..|q| - 1] + [q[|q| - 1]];
    }
  }

  /* --------------------------------- adding a node --------------------------------- */

  ghost predicate CanAdd(t: Tree, next: Id, node: Node) {
    Valid(t, next) && node.parent < next && forall id <- t :: !IsChild(t, id, node.parent, node.name, false)
  }

  lemma AddValid(t: Tree, next: Id, node: Node)
    requires CanAdd(t, next, node)
    ensures Valid(t[next := node], next + 1)
  {}

  lemma AddChild(t: Tree, next: Id, node: Node, parent: Id, name: string, foldersOnly: bool)
    requires CanAdd(t, next, node)
    ensures Child(t[next := node], parent, name, foldersOnly) ==
            if parent == node.parent && name == node.name && (foldersOnly ==> node.isFolder) then Some(next)
            else Child(t, parent, name, foldersOnly)
    ensures parent == next ==> Child(t[next := node], parent, name, foldersOnly) == None
  {
    var t' := t[next := node];
    AddValid(t, next, node);
    match Child(t, parent, name, foldersOnly)
    case Some(id) => ChildIs(t', next + 1, id, parent, name, foldersOnly);
    case None =>
      if IsChild(t', next, parent, name, foldersOnly) { ChildIs(t', next + 1, next, parent, name, foldersOnly); }
  }

  /** A new folder only adds ways to itself. */
  lemma {:induction false} AddFolderWalk(t: Tree, next: Id, node: Node, parts: seq<string>)
    requires CanAdd(t, next, node)
    ensures Walk(t, parts).Some? ==> Walk(t[next := node], parts) == Walk(t, parts)
    ensures Walk(t, parts).None? ==> Walk(t[next := node], parts) in {None, Some(next)}
    decreases |parts|
  {
    if parts != [] {
      var init, part := parts[..|parts| - 1], parts[|parts| - 1];
      AddFolderWalk(t, next, node, init);
      WalkBound(t, next, init);
      AddChild(t, next, node, next, part, true);
      if Walk(t, init).Some? { AddChild(t, next, node, Walk(t, init).value, part, true); }
    }
  }

  lemma AddFolderGet(t: Tree, next: Id, node: Node, p: Path)
    requires CanAdd(t, next, node) && node.isFolder
    ensures Get(t[next := node], p) == Get(t, p)
  {
    AddFolderWalk(t, next, node, p.parts);
    AddChild(t, next, node, next, p.name, false);
    if Walk(t, p.parts).Some? { AddChild(t, next, node, Walk(t, p.parts).value, p.name, false); }
  }

  lemma {:induction false} AddFileWalk(t: Tree, next: Id, node: Node, parts: seq<string>)
    requires CanAdd(t, next, node) && !node.isFolder
    ensures Walk(t[next := node], parts) == Walk(t, parts)
    decreases |parts|
  {
    if parts != [] {
      var init := parts[..|parts| - 1];
      AddFileWalk(t, next, node, init);
      if Walk(t, init).Some? { AddChild(t, next, node, Walk(t, init).value, parts[|parts| - 1], true); }
    }
  }

  lemma AddFileGet(t: Tree, next: Id, node: Node, p: Path, q: Path)
    requires CanAdd(t, next, node) && !node.isFolder && Walk(t, p.parts) == Some(node.parent) && p.name == node.name
    ensures Get(t[next := node], q) == if q == p then Some(node.data) else Get(t, q)
  {
    AddFileWalk(t, next, node, q.parts);
    if Walk(t, q.parts).Some? {
      AddChild(t, next, node, Walk(t, q.parts).value, q.name, false);
      if Walk(t, q.parts) == Walk(t, p.parts) { WalkIsUnique(t, next, p.parts, q.parts); }
    }
  }

  /* -------------------------------- replacing the bytes -------------------------------- */

  lemma UpdateChild(t: Tree, next: Id, id: Id, data: Bytes, parent: Id, name: string, foldersOnly: bool)
    requires Valid(t, next) && id in t
    ensures Valid(t[id := t[id].(data := data)], next)
    ensures Child(t[id := t[id].(data := data)], parent, name, foldersOnly) == Child(t, parent, name, foldersOnly)
  {
    var t' := t[id := t[id].(data := data)];
    match Child(t, parent, name, foldersOnly)
    case Some(i) => ChildIs(t', next, i, parent, name, foldersOnly);
    case None =>
      forall i <- t' ensures IsChild(t', i, parent, name, foldersOnly) == IsChild(t, i, parent, name, foldersOnly) {}
  }

  lemma {:induction false} UpdateWalk(t: Tree, next: Id, id: Id, data: Bytes, parts: seq<string>)
    requires Valid(t, next) && id in t
    ensures Walk(t[id := t[id].(data := data)], parts) == Walk(t, parts)
    decreases |parts|
  {
    if parts != [] {
      var init := parts[..|parts| - 1];
      UpdateWalk(t, next, id, data, init);
      if Walk(t, init).Some? { UpdateChild(t, next, id, data, Walk(t, init).value, parts[|parts| - 1], true); }
    }
  }

  lemma UpdateGet(t: Tree, next: Id, id: Id, data: Bytes, p: Path, q: Path)
    requires Valid(t, next) && Walk(t, p.parts).Some? && IsChild(t, id, Walk(t, p.parts).value, p.name, false)
             && !t[id].isFolder
    ensures Get(t[id := t[id].(data := data)], q) == if q == p then Some(data) else Get(t, q)
  {
    UpdateWalk(t, next, id, data, q.parts);
    if Walk(t, q.parts).Some? {
      UpdateChild(t, next, id, data, Walk(t, q.parts).value, q.name, false);
      if Walk(t, q.parts) == Walk(t, p.parts) {
        WalkIsUnique(t, next, p.parts, q.parts);
        ChildIs(t, next, id, Walk(t, p.parts).value, p.name, false);
      }
    }
  }

  /* ------------------------------- removing a node ------------------------------- */

  lemma RemoveChild(t: Tree, next: Id, id: Id, parent: Id, name: string, foldersOnly: bool)
    requires Valid(t, next)
    ensures Valid(t - {id}, next)
    ensures Child(t - {id}, parent, name, foldersOnly) ==
            if Child(t, parent, name, foldersOnly) == Some(id) then None else Child(t, parent, name, foldersOnly)
  {
    var t' := t - {id};
    match Child(t, parent, name, foldersOnly)
    case Some(i) =>
      if i != id {
        ChildIs(t', next, i, parent, name, foldersOnly);
      } else {
        OnlyChild(t, next, id, parent, name, foldersOnly);
      }
    case None =>
      forall i <- t' ensures IsChild(t', i, parent, name, foldersOnly) == IsChild(t, i, parent, name, foldersOnly) {}
  }

  lemma OnlyChild(t: Tree, next: Id, id: Id, parent: Id, name: string, foldersOnly: bool)
    requires Valid(t, next) && IsChild(t, id, parent, name, foldersOnly)
    ensures Child(t - {id}, parent, name, foldersOnly) == None
  {
    var t' := t - {id};
    forall i <- t'
      ensures IsChild(t', i, parent, name, foldersOnly) == (i != id && IsChild(t, i, parent, name, foldersOnly)) {}
  }

  /** Without node `id`, which is reached as w + [name], exactly the ways through it are gone. */
  lemma {:induction false} RemoveWalk(t: Tree, next: Id, id: Id, w: seq<string>, name: string, parts: seq<string>)
    requires Valid(t, next) && Walk(t, w).Some? && IsChild(t, id, Walk(t, w).value, name, false)
    ensures Walk(t - {id}, parts) == if w + [name] <= parts then None else Walk(t, parts)
    decreases |parts|
  {
    if parts != [] {
      var init, part := parts[..|parts| - 1], parts[|parts| - 1];
      assert parts == init + [part];
      RemoveWalk(t, next, id, w, name, init);
      if !(w + [name] <= init) && Walk(t, init).Some? {
        RemoveChild(t, next, id, Walk(t, init).value, part, true);
        if Walk(t, init) == Walk(t, w) { WalkIsUnique(t, next, init, w); }
        if w + [name] <= parts {
          assert w + [name] == parts;
          ChildOfName(t, next, id, Walk(t, w).value, name);
        }
      }
    }
  }

  lemma ChildOfName(t: Tree, next: Id, id: Id, parent: Id, name: string)
    requires Valid(t, next) && IsChild(t, id, parent, name, false)
    ensures Child(t, parent, name, true) == if t[id].isFolder then Some(id) else None
  {
    if t[id].isFolder { ChildIs(t, next, id, parent, name, true); }
  }

  lemma RemoveGet(t: Tree, next: Id, id: Id, p: Path, q: Path)
    requires Valid(t, next) && Walk(t, p.parts).Some? && IsChild(t, id, Walk(t, p.parts).value, p.name, false)
    ensures Get(t - {id}, q) == if q == p || p.parts + [p.name] <= q.parts then None else Get(t, q)
  {
    RemoveWalk(t, next, id, p.parts, p.name, q.parts);
    if !(p.parts + [p.name] <= q.parts) && Walk(t, q.parts).Some? {
      RemoveChild(t, next, id, Walk(t, q.parts).value, q.name, false);
      ChildIs(t, next, id, Walk(t, p.parts).value, p.name, false);
      if Walk(t, q.parts) == Walk(t, p.parts) { WalkIsUnique(t, next, p.parts, q.parts); }
    }
  }

  /* --------------------------- folders on the way, one at a time --------------------------- */

  ghost predicate Empty(t: Tree, folder: Id) { forall id <- t :: t[id].parent != folder }

  ghost predicate SameGets(t: Tree, t': Tree) { forall q :: Get(t', q) == Get(t, q) }

  /** The creation loop after the components `done`: it stands at `cur`; as long as the folders existed
      nothing has changed, and a folder it had to create is empty. */
  ghost predicate Making(t0: Tree, t: Tree, next: Id, parts: seq<string>, done: seq<string>, cur: Id) {
    && Valid(t, next) && FoldersFit(t, parts) && done <= parts && Walk(t, done) == Some(cur)
    && SameGets(t0, t)
    && (if Walk(t0, done).Some? then t == t0 else Empty(t, cur))
  }

  lemma MakingStarts(t: Tree, next: Id, parts: seq<string>)
    requires Valid(t, next) && FoldersFit(t, parts)
    ensures Making(t, t, next, parts, [], ROOT)
  {}

  lemma MakingFinds(t0: Tree, t: Tree, next: Id, parts: seq<string>, done: seq<string>, cur: Id, part: string, id: Id)
    requires Making(t0, t, next, parts, done, cur) && done + [part] <= parts && IsChild(t, id, cur, part, true)
    ensures Making(t0, t, next, parts, done + [part], id)
  {
    WalkSnoc(t, done, part);
    WalkSnoc(t0, done, part);
    ChildIs(t, next, id, cur, part, true);
  }

  lemma MakingAdds(t0: Tree, t: Tree, next: Id, parts: seq<string>, done: seq<string>, cur: Id, part: string)
    requires Making(t0, t, next, parts, done, cur) && done + [part] <= parts
    requires forall id <- t :: !IsChild(t, id, cur, part, true)
    ensures Making(t0, t[next := Node(cur, part, true, [])], next + 1, parts, done + [part], next)
  {
    var node := Node(cur, part, true, []);
    assert parts[..|done|] == done && parts[|done|] == part && PartFits(t, parts, |done|);
    WalkBound(t, next, done);
    assert CanAdd(t, next, node);
    AddValid(t, next, node);
    AddFolderFits(t, next, node, parts);
    AddFolderWalk(t, next, node, done);
    WalkSnoc(t[next := node], done, part);
    WalkSnoc(t0, done, part);
    AddChild(t, next, node, cur, part, true);
    forall q ensures Get(t[next := node], q) == Get(t0, q) { AddFolderGet(t, next, node, q); }
  }

  lemma AddFits(t: Tree, next: Id, node: Node, parent: Id, name: string)
    requires CanAdd(t, next, node) && node.isFolder
    ensures FolderFits(t, parent, name) || parent == next ==> FolderFits(t[next := node], parent, name)
  {}

  lemma AddFolderFits(t: Tree, next: Id, node: Node, parts: seq<string>)
    requires CanAdd(t, next, node) && node.isFolder && FoldersFit(t, parts)
    ensures FoldersFit(t[next := node], parts)
  {
    var t' := t[next := node];
    forall j | 0 <= j < |parts| ensures PartFits(t', parts, j) {
      assert PartFits(t, parts, j);
      AddFolderWalk(t, next, node, parts[..j]);
      var folder := Walk(t', parts[..j]);
      if folder.Some? { AddFits(t, next, node, folder.value, parts[j]); }
    }
  }

  /** When the loop stops early, the folder is there exactly if it was, and then nothing has changed. */
  lemma MakingStops(t0: Tree, t: Tree, next: Id, parts: seq<string>, done: seq<string>, cur: Id, part: string)
    requires Making(t0, t, next, parts, done, cur) && done + [part] <= parts
    ensures Walk(t0, parts).Some? ==> t == t0
    ensures Walk(t0, parts).None? ==> Walk(t, parts).None?
  {
    assert parts[..|done|] == done && parts[..|done| + 1] == done + [part];
    if Walk(t0, parts).Some? {
      WalkPrefix(t0, parts, |done|);
    } else if Walk(t, parts).Some? {
      WalkPrefix(t, parts, |done| + 1);
      WalkSnoc(t, done, part);
    }
  }

  /* ----------------------------- when a file is in the way ----------------------------- */

  /** Two siblings of one name. */
  ghost predicate Twins(t: Tree) {
    exists a, b :: a in t && b in t && a != b && t[a].parent == t[b].parent && t[a].name == t[b].name
  }

  ghost predicate IdsOk(t: Tree, next: Id) {
    ROOT !in t && ROOT < next && forall id <- t :: id < next && t[id].parent < next
  }

  /** The creation loop on a way that a file blocks: it walks existing folders until there are twins. */
  ghost predicate Clashing(t0: Tree, t: Tree, next: Id, done: seq<string>, cur: Id) {
    IdsOk(t, next) && cur < next && (Twins(t) || (t == t0 && Walk(t, done) == Some(cur)))
  }

  lemma ClashingFinds(t0: Tree, t: Tree, next: Id, done: seq<string>, cur: Id, part: string, id: Id)
    requires Clashing(t0, t, next, done, cur) && IsChild(t, id, cur, part, true)
    ensures Clashing(t0, t, next, done + [part], id)
  {
    if !Twins(t) {
      WalkSnoc(t, done, part);
      ChildIs(t, next, id, cur, part, true);
    }
  }

  lemma FitsBefore(t: Tree, next: Id, parts: seq<string>, done: seq<string>, k: nat)
    requires Valid(t, next) && done <= parts && Walk(t, done).Some? && k < |done|
    ensures PartFits(t, parts, k)
  {
    FoundFits(t, next, done);
    assert done[..k] == parts[..k] && PartFits(t, done, k);
  }

  lemma FitsBehind(t: Tree, parts: seq<string>, n: nat, k: nat)
    requires n < k < |parts| && Walk(t, parts[..n + 1]).None?
    ensures PartFits(t, parts, k)
  {
    assert parts[..k][..n + 1] == parts[..n + 1];
    if Walk(t, parts[..k]).Some? { WalkPrefix(t, parts[..k], n + 1); }
  }

  /** The file in the way is where the first missing folder would be. */
  lemma BlockedHere(t: Tree, next: Id, parts: seq<string>, done: seq<string>, cur: Id, part: string)
    requires Valid(t, next) && !FoldersFit(t, parts) && done + [part] <= parts && Walk(t, done) == Some(cur)
    requires forall id <- t :: !IsChild(t, id, cur, part, true)
    ensures !FolderFits(t, cur, part)
  {
    var n := |done|;
    assert parts[..n] == done && parts[..n + 1] == done + [part] && parts[n] == part;
    WalkSnoc(t, done, part);
    forall k | 0 <= k < |parts| && k != n ensures PartFits(t, parts, k) {
      if k < n { FitsBefore(t, next, parts, done, k); } else { FitsBehind(t, parts, n, k); }
    }
    assert PartFits(t, parts, n) <==> FolderFits(t, cur, part);
  }

  lemma TwinsStay(t: Tree, next: Id, node: Node)
    requires IdsOk(t, next) && Twins(t)
    ensures Twins(t[next := node])
  {
    var t' := t[next := node];
    var a, b :| a in t && b in t && a != b && t[a].parent == t[b].parent && t[a].name == t[b].name;
    assert t'[a] == t[a] && t'[b] == t[b];
  }

  lemma TwinsMade(t: Tree, next: Id, parent: Id, name: string)
    requires IdsOk(t, next) && !FolderFits(t, parent, name)
    ensures Twins(t[next := Node(parent, name, true, [])])
  {
    var t' := t[next := Node(parent, name, true, [])];
    var id :| id in t && IsChild(t, id, parent, name, false) && !t[id].isFolder;
    assert t'[id].parent == t'[next].parent && t'[id].name == t'[next].name;
  }

  lemma ClashingAdds(t0: Tree, t: Tree, next: Id, parts: seq<string>, done: seq<string>, cur: Id, part: string)
    requires !FoldersFit(t0, parts) && Clashing(t0, t, next, done, cur) && done + [part] <= parts
    requires forall id <- t :: !IsChild(t, id, cur, part, true)
    ensures Clashing(t0, t[next := Node(cur, part, true, [])], next + 1, done + [part], next)
  {
    if Twins(t) {
      TwinsStay(t, next, Node(cur, part, true, []));
    } else {
      BlockedHere(t, next, parts, done, cur, part);
      TwinsMade(t, next, cur, part);
    }
  }

  /** The creation loop, whether or not a file is in the way. */
  ghost predicate Going(t0: Tree, t: Tree, next: Id, parts: seq<string>, done: seq<string>, cur: Id) {
    && done <= parts
    && (if FoldersFit(t0, parts) then Making(t0, t, next, parts, done, cur) else Clashing(t0, t, next, done, cur))
  }

  lemma GoingStarts(t: Tree, next: Id, parts: seq<string>)
    requires Valid(t, next)
    ensures Going(t, t, next, parts, [], ROOT)
  {}

  lemma GoingFinds(t0: Tree, t: Tree, next: Id, parts: seq<string>, done: seq<string>, cur: Id, part: string, id: Id)
    requires Going(t0, t, next, parts, done, cur) && done + [part] <= parts && IsChild(t, id, cur, part, true)
    ensures Going(t0, t, next, parts, done + [part], id)
  {
    if FoldersFit(t0, parts) {
      MakingFinds(t0, t, next, parts, done, cur, part, id);
    } else {
      ClashingFinds(t0, t, next, done, cur, part, id);
    }
  }

  lemma GoingAdds(t0: Tree, t: Tree, next: Id, parts: seq<string>, done: seq<string>, cur: Id, part: string)
    requires Going(t0, t, next, parts, done, cur) && done + [part] <= parts && !Twins(t0)
    requires forall id <- t :: !IsChild(t, id, cur, part, true)
    ensures Going(t0, t[next := Node(cur, part, true, [])], next + 1, parts, done + [part], next)
  {
    if FoldersFit(t0, parts) {
      MakingAdds(t0, t, next, parts, done, cur, part);
    } else {
      ClashingAdds(t0, t, next, parts, done, cur, part);
    }
  }

  /** When all components are done, siblings are unique exactly if no file was in the way. */
  lemma GoingEnds(t0: Tree, t: Tree, next: Id, parts: seq<string>, cur: Id)
    requires Going(t0, t, next, parts, parts, cur)
    ensures Valid(t, next) <==> FoldersFit(t0, parts)
  {
    if !FoldersFit(t0, parts) && !Twins(t) { FoundFits(t, next, parts); }
  }
}
