/**
 The Drive backend: path operations as the sequence of API calls they make.
 */
module Drive {
  import opened Basics
  import opened DrivePaths
  import opened DriveTree

  datatype Found = Hit(id: Id) | Miss | HttpError

  /** What creating a folder does, from a tree in which no file is in its way. */
  ghost predicate Made(t0: Tree, t: Tree, next: Id, parts: seq<string>, r: Found) {
    && Valid(t, next) && SameGets(t0, t) && FoldersFit(t, parts)
    && (Walk(t0, parts).Some? ==> t == t0)
    && match r
       case Hit(id) => Walk(t, parts) == Some(id) && (Walk(t0, parts).None? ==> Empty(t, id))
       case HttpError => Walk(t0, parts).None? ==> Walk(t, parts).None?
       case Miss => false
  }

  lemma MadeNothing(t0: Tree, t: Tree, next: Id, parts: seq<string>, done: seq<string>, cur: Id, part: string)
    requires Going(t0, t, next, parts, done, cur) && done + [part] <= parts
    ensures FoldersFit(t0, parts) ==> Made(t0, t, next, parts, HttpError)
  {
    if FoldersFit(t0, parts) { MakingStops(t0, t, next, parts, done, cur, part); }
  }

  /** All nodes are as they were, and what is new are folders under new ids. */
  ghost predicate OnlyNew(t0: Tree, t: Tree, next0: Id, next: Id) {
    && next0 <= next && (forall id <- t0 :: id in t && t[id] == t0[id])
    && (forall id <- t :: id < next && (id !in t0 ==> next0 <= id && t[id].isFolder && t[id].data == []))
  }

  /** The folder is an existing child, or a new one where there was none. */
  ghost predicate FoundOrNew(t: Tree, next: Id, t': Tree, next': Id, parent: Id, name: string, id: Id) {
    if exists i <- t :: IsChild(t, i, parent, name, true)
    then t' == t && next' == next && IsChild(t, id, parent, name, true)
    else t' == t[next := Node(parent, name, true, [])] && next' == next + 1 && id == next
  }

  lemma GoingOn(t0: Tree, t: Tree, next: Id, t': Tree, next': Id, parts: seq<string>, done: seq<string>, cur: Id,
                part: string, id: Id)
    requires Going(t0, t, next, parts, done, cur) && done + [part] <= parts && !Twins(t0)
    requires FoundOrNew(t, next, t', next', cur, part, id)
    ensures Going(t0, t', next', parts, done + [part], id)
  {
    if exists i <- t :: IsChild(t, i, cur, part, true) {
      GoingFinds(t0, t, next, parts, done, cur, part, id);
    } else {
      GoingAdds(t0, t, next, parts, done, cur, part);
    }
  }

  lemma NewOn(t0: Tree, next0: Id, t: Tree, next: Id, t': Tree, next': Id, cur: Id, part: string, id: Id)
    requires OnlyNew(t0, t, next0, next) && FoundOrNew(t, next, t', next', cur, part, id)
    ensures OnlyNew(t0, t', next0, next')
  {}

  /** A file of the path's name with these bytes. */
  predicate Holds(node: Node, path: string, data: Bytes) {
    !node.isFolder && node.name == Parse(path).name && node.data == data
  }

  /** Whether or not anything clashes: no node goes, none changes but to a file of that name with these bytes, and
      there is one if the write succeeds. */
  ghost predicate OnlyPut(t0: Tree, t: Tree, path: string, data: Bytes, ok: bool) {
    && (forall id <- t0 :: id in t && (t[id] == t0[id] || (ok && Holds(t[id], path, data))))
    && (ok ==> exists id <- t :: Holds(t[id], path, data))
  }

  /** A call failed and nothing has changed; or a file of this name has the data; or there was nothing of the name,
      and there is a new file with the data. */
  ghost predicate Put(t: Tree, next: Id, t': Tree, next': Id, folder: Id, name: string, data: Bytes, ok: bool) {
    if !ok then t' == t && next' == next
    else if next' == next then
      exists id <- t :: IsChild(t, id, folder, name, false) && !t[id].isFolder && t' == t[id := t[id].(data := data)]
    else
      && next' == next + 1 && t' == t[next := Node(folder, name, false, data)]
      && forall id <- t :: !IsChild(t, id, folder, name, false)
  }

  lemma PutOn(t0: Tree, next0: Id, t: Tree, next: Id, t': Tree, next': Id, path: string, folder: Id, data: Bytes,
              ok: bool)
    requires OnlyNew(t0, t, next0, next) && Put(t, next, t', next', folder, Parse(path).name, data, ok)
    ensures OnlyPut(t0, t', path, data, ok)
  {
    if ok && next' == next {
      var id :| id in t && IsChild(t, id, folder, Parse(path).name, false) && !t[id].isFolder
                && t' == t[id := t[id].(data := data)];
      PutUpdates(t0, t, next0, next, path, id, data);
    } else if ok {
      PutAdds(t0, t, next0, next, path, folder, data);
    }
  }

  lemma WritePuts(t0: Tree, t: Tree, next: Id, t': Tree, next': Id, p: Path, folder: Id, data: Bytes, ok: bool)
    requires Put(t, next, t', next', folder, p.name, data, ok)
    requires NoClash(t0, p) ==> Written(t0, t, next, p, data, false) && Ready(t0, t, next, p, folder)
    ensures NoClash(t0, p) ==> Written(t0, t', next', p, data, ok)
  {
    if ok && next' == next {
      var id :| id in t && IsChild(t, id, folder, p.name, false) && !t[id].isFolder
                && t' == t[id := t[id].(data := data)];
      WriteUpdates(t0, t, next, p, folder, id, data);
    } else if ok {
      WriteAdds(t0, t, next, p, folder, data);
    }
  }

  lemma PutUpdates(t0: Tree, t: Tree, next0: Id, next: Id, path: string, id: Id, data: Bytes)
    requires OnlyNew(t0, t, next0, next) && id in t && t[id].name == Parse(path).name
    ensures OnlyPut(t0, t, path, data, false)
    ensures !t[id].isFolder ==> OnlyPut(t0, t[id := t[id].(data := data)], path, data, true)
  {
    var t' := t[id := t[id].(data := data)];
    if !t[id].isFolder { assert Holds(t'[id], path, data); }
  }

  lemma PutAdds(t0: Tree, t: Tree, next0: Id, next: Id, path: string, folder: Id, data: Bytes)
    requires OnlyNew(t0, t, next0, next) && next !in t
    ensures OnlyPut(t0, t, path, data, false)
    ensures OnlyPut(t0, t[next := Node(folder, Parse(path).name, false, data)], path, data, true)
  {
    var t' := t[next := Node(folder, Parse(path).name, false, data)];
    assert Holds(t'[next], path, data);
  }

  class DriveBackend {
    var nodes: Tree
    var next: Id      // the ids from here on are still unused
    var online: nat   // the API calls that still succeed; then every call raises HttpError

    constructor (online: nat)
      ensures nodes == map[] && Valid(nodes, next) && this.online == online
    {
      nodes, next, this.online := map[], 1, online;
    }

    /** _find_child: any one match of the search. */
    method FindChild(parentId: Id, name: string, foldersOnly: bool) returns (r: Found)
      modifies this`online
      ensures r.Hit? ==> IsChild(nodes, r.id, parentId, name, foldersOnly)
      ensures r.Miss? ==> forall id <- nodes :: !IsChild(nodes, id, parentId, name, foldersOnly)
      ensures r.HttpError? <==> old(online) == 0
      ensures online == if old(online) == 0 then 0 else old(online) - 1
    {
      if online == 0 { return HttpError; }
      online := online - 1;
      if id :| id in nodes && IsChild(nodes, id, parentId, name, foldersOnly) {
        r := Hit(id);
      } else {
        r := Miss;
      }
    }

    method Create(node: Node) returns (r: Found)
      modifies this
      ensures old(online) == 0 <==> r.HttpError?
      ensures r.HttpError? ==> nodes == old(nodes) && next == old(next) && online == 0
      ensures !r.HttpError?
              ==> r == Hit(old(next)) && nodes == old(nodes)[old(next) := node]
                  && next == old(next) + 1 && online + 1 == old(online)
    {
      if online == 0 { return HttpError; }
      nodes, next, online := nodes[next := node], next + 1, online - 1;
      r := Hit(next - 1);
    }

    /** The body of the loop of _get_or_create_folder. */
    method FindOrCreate(parentId: Id, name: string) returns (r: Found)
      modifies this
      ensures r.HttpError? ==> nodes == old(nodes) && next == old(next) && online == 0
      ensures r.Hit? ==> FoundOrNew(old(nodes), old(next), nodes, next, parentId, name, r.id)
      ensures !r.Miss? && online + 2 >= old(online)
    {
      r := FindChild(parentId, name, true);
      if r.Miss? {
        r := Create(Node(parentId, name, true, []));
      }
    }

    /** _resolve_folder */
    method ResolveFolder(folder: string) returns (r: Found)
      requires Valid(nodes, next)
      modifies this`online
      ensures r.Hit? ==> Walk(nodes, Parts(folder)) == Some(r.id)
      ensures r.Miss? ==> Walk(nodes, Parts(folder)) == None
      ensures online + |Parts(folder)| >= old(online) && (r.HttpError? ==> online == 0)
    {
      EmptyFolder();
      if folder == "" { return Hit(ROOT); }
      var current := ROOT;
      var pieces := Split(Strip(folder));
      ghost var done := [];
      while pieces != []
        invariant Resolving(nodes, Parts(folder), done, pieces, current)
        invariant online + |done| >= old(online)
        decreases |pieces|
      {
        var part := pieces[0];
        pieces := pieces[1..];
        if part == "" { continue; }
        var child := FindChild(current, part, true);
        match child
        case HttpError => return HttpError;
        case Miss =>
          ResolvingStops(nodes, Parts(folder), done, part, pieces, current);
          return Miss;
        case Hit(id) =>
          ResolvingGoesOn(nodes, next, Parts(folder), done, part, pieces, current, id);
          current, done := id, done + [part];
      }
      assert done == Parts(folder);
      r := Hit(current);
    }

    /** _get_or_create_folder: as long as no component is taken by a file, it returns the folder that
        resolving finds from then on, changes no path's bytes, and creates nothing that exists.  The way
        stays free of files, so that it can be called again.  When no call fails, siblings stay unique
        exactly if no component was taken by a file. */
    method GetOrCreateFolder(folder: string) returns (r: Found)
      requires Valid(nodes, next)
      modifies this
      ensures r.Hit? ==> (Valid(nodes, next) <==> FoldersFit(old(nodes), Parts(folder)))
      ensures FoldersFit(old(nodes), Parts(folder)) ==> Made(old(nodes), nodes, next, Parts(folder), r)
      ensures online + 2 * |Parts(folder)| >= old(online) && !r.Miss? && (r.HttpError? ==> online == 0)
      ensures OnlyNew(old(nodes), nodes, old(next), next)
    {
      EmptyFolder();
      if folder == "" { return Hit(ROOT); }
      var current := ROOT;
      var pieces := Split(Strip(folder));
      ghost var parts, done, t0 := Parts(folder), [], nodes;
      GoingStarts(nodes, next, parts);
      while pieces != []
        invariant done + NonEmpty(pieces) == parts
        invariant Going(t0, nodes, next, parts, done, current)
        invariant online + 2 * |done| >= old(online)
        invariant OnlyNew(t0, nodes, old(next), next)
        decreases |pieces|
      {
        var part := pieces[0];
        pieces := pieces[1..];
        if part == "" { continue; }
        assert done + [part] + NonEmpty(pieces) == parts;
        ghost var t, n := nodes, next;
        var child := FindOrCreate(current, part);
        if child.HttpError? {
          MadeNothing(t0, nodes, next, parts, done, current, part);
          return HttpError;
        }
        GoingOn(t0, t, n, nodes, next, parts, done, current, part, child.id);
        NewOn(t0, old(next), t, n, nodes, next, current, part, child.id);
        current, done := child.id, done + [part];
      }
      assert done == parts;
      GoingEnds(t0, nodes, next, parts, current);
      r := Hit(current);
    }

    /** files().update: new content for a file; a folder has none. */
    method Update(id: Id, data: Bytes) returns (ok: bool)
      requires id in nodes
      modifies this`nodes, this`online
      ensures ok <==> old(online) > 0 && !old(nodes)[id].isFolder
      ensures nodes == if ok then old(nodes)[id := old(nodes)[id].(data := data)] else old(nodes)
      ensures online == if old(online) == 0 then 0 else old(online) - 1
    {
      ok := online > 0 && !nodes[id].isFolder;
      online := if online > 0 then online - 1 else 0;
      if ok {
        nodes := nodes[id := nodes[id].(data := data)];
      }
    }

    /** read: None stands for BackendReadError. */
    method Read(path: string) returns (r: Option<Bytes>)
      requires Valid(nodes, next)
      modifies this`online
      ensures r.Some? ==> r == Get(nodes, Parse(path))
      ensures old(online) >= |Parse(path).parts| + 2 ==> r == Get(nodes, Parse(path))
    {
      var (folderPath, filename) := SplitPath(path);
      var folder := ResolveFolder(folderPath);
      if !folder.Hit? { return None; }
      var file := FindChild(folder.id, filename, false);
      if !file.Hit? { return None; }
      ChildIs(nodes, next, file.id, folder.id, filename, false);
      // get_media: one more call, and a folder has no content
      if online == 0 || nodes[file.id].isFolder { return None; }
      online := online - 1;
      r := Some(nodes[file.id].data);
    }

    /** The second half of write, in the folder. */
    method UpdateOrCreate(folderId: Id, filename: string, data: Bytes) returns (ok: bool)
      modifies this
      ensures Put(old(nodes), old(next), nodes, next, folderId, filename, data, ok)
      ensures old(online) >= 2 && FileFits(old(nodes), folderId, filename) ==> ok
      ensures online + 2 >= old(online)
    {
      var existing := FindChild(folderId, filename, false);
      if existing.HttpError? { return false; }
      if existing.Hit? {
        ok := Update(existing.id, data);
      } else {
        var created := Create(Node(folderId, filename, false, data));
        ok := created.Hit?;
      }
    }

    /** write: when nothing clashes with the path it puts the bytes at exactly this path or, when a call
        fails, changes what is read at no path; it succeeds when no call fails.  Either way the path
        stays without a clash. */
    method Write(path: string, data: Bytes) returns (ok: bool)
      requires Valid(nodes, next)
      modifies this
      ensures NoClash(old(nodes), Parse(path)) ==> Written(old(nodes), nodes, next, Parse(path), data, ok)
      ensures NoClash(old(nodes), Parse(path)) && old(online) >= 2 * |Parse(path).parts| + 2 ==> ok
      ensures online + 2 * |Parse(path).parts| + 2 >= old(online)
      ensures OnlyPut(old(nodes), nodes, path, data, ok)
    {
      var (folderPath, filename) := SplitPath(path);
      ghost var p, t0 := Parse(path), nodes;
      var folder := GetOrCreateFolder(folderPath);
      ghost var t, n := nodes, next;
      WriteStarts(t0, t, n, p, folder, data);
      if !folder.Hit? { return false; }
      ok := UpdateOrCreate(folder.id, filename, data);
      WritePuts(t0, t, n, nodes, next, p, folder.id, data, ok);
      PutOn(t0, old(next), t, n, nodes, next, path, folder.id, data, ok);
    }

    /** delete: the node at the path goes, and with a folder everything below it; it succeeds exactly
        when there is a node, unless a call fails. */
    method Delete(path: string) returns (ok: bool)
      requires Valid(nodes, next)
      modifies this`nodes, this`online
      ensures Valid(nodes, next)
      ensures forall q :: Get(nodes, q) ==
                if ok && (q == Parse(path) || Below(Parse(path), q)) then None else Get(old(nodes), q)
      ensures ok ==> Exists(old(nodes), Parse(path))
      ensures old(online) >= |Parse(path).parts| + 2 ==> (ok <==> Exists(old(nodes), Parse(path)))
      ensures !ok ==> nodes == old(nodes)
      ensures ok && Get(old(nodes), Parse(path)).Some?
              ==> forall q :: Below(Parse(path), q) ==> Get(old(nodes), q).None?
    {
      var (folderPath, filename) := SplitPath(path);
      ghost var p, t := Parse(path), nodes;
      var folder := ResolveFolder(folderPath);
      if !folder.Hit? { return false; }
      var file := FindChild(folder.id, filename, false);
      if !file.Hit? || online == 0 { return false; }
      online := online - 1;
      nodes := nodes - {file.id};
      ok := true;
      Removed(t, next, p, folder.id, file.id);
    }
  }

  /** There is a file or a folder of this name in the folder of the path. */
  ghost predicate Exists(t: Tree, p: Path) {
    Walk(t, p.parts).Some? && exists id <- t :: IsChild(t, id, Walk(t, p.parts).value, p.name, false)
  }

  /* --------------------------------- calls in sequence --------------------------------- */

  /** What was written is read back, under every spelling of the path. */
  method WriteThenRead(drive: DriveBackend, path: string, data: Bytes, again: string) returns (r: Option<Bytes>)
    requires Valid(drive.nodes, drive.next) && NoClash(drive.nodes, Parse(path)) && Parse(again) == Parse(path)
    requires drive.online >= 3 * |Parse(path).parts| + 4
    modifies drive
    ensures r == Some(data)
  {
    var ok := drive.Write(path, data);
    r := drive.Read(again);
  }

  /** The last of two writes to a path counts, and other paths keep what they had. */
  method WriteTwice(drive: DriveBackend, path: string, first: Bytes, second: Bytes) returns (ok: bool)
    requires Valid(drive.nodes, drive.next) && NoClash(drive.nodes, Parse(path))
    requires drive.online >= 4 * |Parse(path).parts| + 4
    modifies drive
    ensures ok && Valid(drive.nodes, drive.next)
    ensures forall q :: Get(drive.nodes, q) == if q == Parse(path) then Some(second) else Get(old(drive.nodes), q)
  {
    ok := drive.Write(path, first);
    ok := drive.Write(path, second);
  }

  /** What was deleted cannot be read. */
  method DeleteThenRead(drive: DriveBackend, path: string) returns (r: Option<Bytes>)
    requires Valid(drive.nodes, drive.next) && Exists(drive.nodes, Parse(path))
    requires drive.online >= |Parse(path).parts| + 2
    modifies drive
    ensures r == None
  {
    var ok := drive.Delete(path);
    r := drive.Read(path);
  }

  /** A second call finds the same folder and creates nothing: the tree is as the first call left it. */
  method CreateFolderTwice(drive: DriveBackend, folder: string)
    returns (first: Found, second: Found, ghost between: Tree)
    requires Valid(drive.nodes, drive.next) && FoldersFit(drive.nodes, Parts(folder))
    requires drive.online >= 4 * |Parts(folder)| + 1
    modifies drive
    ensures first.Hit? && Walk(between, Parts(folder)) == Some(first.id) && SameGets(old(drive.nodes), between)
    ensures second == first && drive.nodes == between
  {
    first := drive.GetOrCreateFolder(folder);
    between := drive.nodes;
    second := drive.GetOrCreateFolder(folder);
  }

  /** q lies in the folder p (or deeper). */
  predicate Below(p: Path, q: Path) { p.parts + [p.name] <= q.parts }

  ghost predicate Stores(t0: Tree, t: Tree, p: Path, data: Bytes) {
    forall q :: Get(t, q) == if q == p then Some(data) else Get(t0, q)
  }

  /** The folder of the path is there, and nothing but a file may have the name in it. */
  ghost predicate Ready(t0: Tree, t: Tree, next: Id, p: Path, folder: Id) {
    Valid(t, next) && SameGets(t0, t) && Walk(t, p.parts) == Some(folder) && FileFits(t, folder, p.name)
  }

  /** What a write does when nothing clashes with its path. */
  ghost predicate Written(t0: Tree, t: Tree, next: Id, p: Path, data: Bytes, ok: bool) {
    Valid(t, next) && NoClash(t, p) && (if ok then Stores(t0, t, p, data) else SameGets(t0, t))
  }

  /** After the folder is there, or a call has failed. */
  lemma WriteStarts(t0: Tree, t: Tree, next: Id, p: Path, folder: Found, data: Bytes)
    requires FoldersFit(t0, p.parts) ==> Made(t0, t, next, p.parts, folder)
    ensures NoClash(t0, p) ==> Written(t0, t, next, p, data, false)
    ensures NoClash(t0, p) && folder.Hit? ==> Ready(t0, t, next, p, folder.id)
  {}

  lemma WriteUpdates(t0: Tree, t: Tree, next: Id, p: Path, folder: Id, id: Id, data: Bytes)
    requires NoClash(t0, p) ==> Ready(t0, t, next, p, folder)
    requires IsChild(t, id, folder, p.name, false)
    ensures NoClash(t0, p) ==> !t[id].isFolder && Written(t0, t[id := t[id].(data := data)], next, p, data, true)
  {
    if NoClash(t0, p) {
      Updated(t0, t, next, p, id, data);
      ReadableFits(t[id := t[id].(data := data)], next, p);
    }
  }

  lemma WriteAdds(t0: Tree, t: Tree, next: Id, p: Path, folder: Id, data: Bytes)
    requires NoClash(t0, p) ==> Ready(t0, t, next, p, folder)
    requires forall id <- t :: !IsChild(t, id, folder, p.name, false)
    ensures NoClash(t0, p) ==> Written(t0, t[next := Node(folder, p.name, false, data)], next + 1, p, data, true)
  {
    if NoClash(t0, p) {
      Added(t0, t, next, p, folder, data);
      ReadableFits(t[next := Node(folder, p.name, false, data)], next + 1, p);
    }
  }

  lemma Updated(t0: Tree, t: Tree, next: Id, p: Path, id: Id, data: Bytes)
    requires Walk(t, p.parts).Some? && Ready(t0, t, next, p, Walk(t, p.parts).value)
             && IsChild(t, id, Walk(t, p.parts).value, p.name, false)
    ensures !t[id].isFolder && Valid(t[id := t[id].(data := data)], next)
            && Stores(t0, t[id := t[id].(data := data)], p, data)
  {
    UpdateChild(t, next, id, data, t[id].parent, p.name, false);
    var t' := t[id := t[id].(data := data)];
    forall q ensures Get(t', q) == if q == p then Some(data) else Get(t0, q) {
      UpdateGet(t, next, id, data, p, q);
    }
    assert Stores(t0, t', p, data);
  }

  lemma Added(t0: Tree, t: Tree, next: Id, p: Path, folder: Id, data: Bytes)
    requires Ready(t0, t, next, p, folder) && forall id <- t :: !IsChild(t, id, folder, p.name, false)
    ensures Valid(t[next := Node(folder, p.name, false, data)], next + 1)
            && Stores(t0, t[next := Node(folder, p.name, false, data)], p, data)
  {
    var node := Node(folder, p.name, false, data);
    WalkBound(t, next, p.parts);
    assert CanAdd(t, next, node);
    AddValid(t, next, node);
    var t' := t[next := node];
    forall q ensures Get(t', q) == if q == p then Some(data) else Get(t0, q) {
      AddFileGet(t, next, node, p, q);
    }
    assert Stores(t0, t', p, data);
  }

  lemma Removed(t: Tree, next: Id, p: Path, folder: Id, id: Id)
    requires Valid(t, next) && Walk(t, p.parts) == Some(folder) && IsChild(t, id, folder, p.name, false)
    ensures Valid(t - {id}, next)
    ensures forall q :: Get(t - {id}, q) == if q == p || Below(p, q) then None else Get(t, q)
    ensures Get(t, p).Some? ==> forall q :: Below(p, q) ==> Get(t, q).None?
  {
    RemoveChild(t, next, id, folder, p.name, false);
    forall q ensures Get(t - {id}, q) == if q == p || Below(p, q) then None else Get(t, q) {
      RemoveGet(t, next, id, p, q);
    }
    if Get(t, p).Some? {
      ChildIs(t, next, id, folder, p.name, false);
      ChildOfName(t, next, id, folder, p.name);
      forall q | Below(p, q) ensures Get(t, q).None? {
        var k := |p.parts| + 1;
        assert q.parts[..k] == p.parts + [p.name];
        WalkSnoc(t, p.parts, p.name);
        if Walk(t, q.parts).Some? { WalkPrefix(t, q.parts, k); }
      }
    }
  }

  /** Creating a missing folder keeps siblings unique exactly when no file has its name. */
  lemma UniquenessKeptExactly(t: Tree, next: Id, parent: Id, name: string)
    requires Valid(t, next) && parent < next && forall id <- t :: !IsChild(t, id, parent, name, true)
    ensures Valid(t[next := Node(parent, name, true, [])], next + 1) <==> FolderFits(t, parent, name)
  {
    var t' := t[next := Node(parent, name, true, [])];
    if id :| id in t && IsChild(t, id, parent, name, false) {
      assert t'[id].parent == t'[next].parent && t'[id].name == t'[next].name;
    } else {
      AddValid(t, next, Node(parent, name, true, []));
    }
  }

  lemma EmptyFolder()
    ensures Parts("") == []
  {
    assert Split("") == [""];
  }

  /** The resolving loop after the components `done`, with `pieces` to come. */
  ghost predicate Resolving(t: Tree, parts: seq<string>, done: seq<string>, pieces: seq<string>, current: Id) {
    done + NonEmpty(pieces) == parts && Walk(t, done) == Some(current)
  }

  lemma ResolvingGoesOn(t: Tree, next: Id, parts: seq<string>, done: seq<string>, part: string, pieces: seq<string>,
                        current: Id, id: Id)
    requires Valid(t, next) && Resolving(t, parts, done, [part] + pieces, current) && part != ""
             && IsChild(t, id, current, part, true)
    ensures Resolving(t, parts, done + [part], pieces, id)
  {
    WalkSnoc(t, done, part);
    ChildIs(t, next, id, current, part, true);
    assert ([part] + pieces)[1..] == pieces;
  }

  lemma ResolvingStops(t: Tree, parts: seq<string>, done: seq<string>, part: string, pieces: seq<string>, current: Id)
    requires Resolving(t, parts, done, [part] + pieces, current) && part != ""
    requires forall id <- t :: !IsChild(t, id, current, part, true)
    ensures Walk(t, parts) == None
  {
    assert ([part] + pieces)[1..] == pieces;
    WalkSnoc(t, done, part);
    assert parts[..|done| + 1] == done + [part];
    if Walk(t, parts).Some? { WalkPrefix(t, parts, |done| + 1); }
  }
}
