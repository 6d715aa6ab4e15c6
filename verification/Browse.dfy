/**
 Virtual folders: a flat list of keys shown level by level, in the web client (browse.ts) and in the
 Windows explorer (filetable.go, conntree.go).
 */
module Browse {
  import opened Basics
  import opened DrivePaths

  datatype Object = Object(path: string, size: Option<nat>)

  datatype Entry = FolderEntry(name: string, path: string) | FileEntry(name: string, item: Object)

  /** The web client's rest of a key below a prefix; "" if the key is skipped. */
  function Rest(prefix: string, path: string): string { if prefix <= path then path[|prefix|..] else "" }

  function TrimPrefix(s: string, prefix: string): string { if prefix <= s then s[|prefix|..] else s }

  /** The explorer's. */
  function Rel(prefix: string, path: string): string { TrimPrefix(TrimPrefix(path, prefix), [SLASH]) }

  /** indexOf("/"), or the length if there is none. */
  function FirstSlash(s: string): (i: nat)
    ensures i <= |s| && SLASH !in s[..i] && (i < |s| ==> s[i] == SLASH)
  {
    if s == "" || s[0] == SLASH then 0
    else
      var i := FirstSlash(s[1..]);
      assert s[..1 + i] == [s[0]] + s[1..][..i];
      1 + i
  }

  predicate InFolder(rest: string) { FirstSlash(rest) < |rest| }

  /** The first component. */
  function Top(rest: string): string { rest[..FirstSlash(rest)] }

  /** A level as seen through `rest`, which maps a key to what it looks like on this level. */
  function FolderNames(objects: seq<Object>, rest: string -> string): (names: seq<string>)
    ensures forall i, j :: 0 <= i < j < |names| ==> names[i] != names[j]
  {
    if objects == [] then []
    else
      var before := FolderNames(objects[..|objects| - 1], rest);
      var r := rest(objects[|objects| - 1].path);
      if InFolder(r) && Top(r) !in before then before + [Top(r)] else before
  }

  function FilesHere(objects: seq<Object>, rest: string -> string): seq<Entry> {
    if objects == [] then []
    else
      var before := FilesHere(objects[..|objects| - 1], rest);
      var o := objects[|objects| - 1];
      var r := rest(o.path);
      if r != "" && !InFolder(r) then before + [FileEntry(r, o)] else before
  }

  /** One level of the web client, and one of the explorer. */
  function Names(objects: seq<Object>, prefix: string): seq<string> { FolderNames(objects, WebRest(prefix)) }

  function Files(objects: seq<Object>, prefix: string): seq<Entry> { FilesHere(objects, WebRest(prefix)) }

  function RelNames(objects: seq<Object>, prefix: string): seq<string> {
    FolderNames(objects, ExplorerRest(prefix))
  }

  function RelFiles(objects: seq<Object>, prefix: string): seq<Entry> { FilesHere(objects, ExplorerRest(prefix)) }

  function FolderPath(prefix: string, name: string): string { prefix + name + [SLASH] }

  function FolderEntries(names: seq<string>, prefix: string): seq<Entry> {
    seq(|names|, i requires 0 <= i < |names| => FolderEntry(names[i], FolderPath(prefix, names[i])))
  }

  function Paths(entries: seq<Entry>): set<string> { set e | e in entries && e.FolderEntry? :: e.path }

  lemma FolderPathInjective(prefix: string, a: string, b: string)
    ensures FolderPath(prefix, a) == FolderPath(prefix, b) <==> a == b
  {
    assert FolderPath(prefix, a)[|prefix|..|prefix| + |a|] == a;
    assert FolderPath(prefix, b)[|prefix|..|prefix| + |b|] == b;
  }

  lemma SeenIffListed(names: seq<string>, prefix: string, name: string)
    ensures FolderPath(prefix, name) in Paths(FolderEntries(names, prefix)) <==> name in names
  {
    var entries := FolderEntries(names, prefix);
    if name in names {
      var i :| 0 <= i < |names| && names[i] == name;
      assert entries[i] in entries;
    }
    forall e | e in entries ensures e.FolderEntry? && (e.path == FolderPath(prefix, name) ==> name in names) {
      var i :| 0 <= i < |entries| && entries[i] == e;
      FolderPathInjective(prefix, names[i], name);
    }
  }

  lemma EntriesMore(names: seq<string>, name: string, prefix: string)
    ensures var entries, more := FolderEntries(names, prefix), FolderEntries(names + [name], prefix);
            && more == entries + [FolderEntry(name, FolderPath(prefix, name))]
            && Paths(more) == Paths(entries) + {FolderPath(prefix, name)}
  {
    var entries, more := FolderEntries(names, prefix), FolderEntries(names + [name], prefix);
    assert more == entries + [FolderEntry(name, FolderPath(prefix, name))];
    assert forall e :: e in more <==> e in entries || e == FolderEntry(name, FolderPath(prefix, name));
  }

  /** What one more object adds to a level. */
  lemma LevelStep(objects: seq<Object>, i: nat, rest: string -> string)
    requires i < |objects|
    ensures var names, r := FolderNames(objects[..i], rest), rest(objects[i].path);
            FolderNames(objects[..i + 1], rest) == if InFolder(r) && Top(r) !in names then names + [Top(r)] else names
    ensures var files, r := FilesHere(objects[..i], rest), rest(objects[i].path);
            FilesHere(objects[..i + 1], rest)
            == if r != "" && !InFolder(r) then files + [FileEntry(r, objects[i])] else files
  {
    assert objects[..i + 1][..i] == objects[..i];
  }

  /* ------------------------- a level in terms of the keys, place by place ------------------------- */

  ghost predicate Increasing(at: seq<nat>, n: nat) {
    (forall k | 0 <= k < |at| :: at[k] < n) && forall j, k | 0 <= j < k < |at| :: at[j] < at[k]
  }

  /** What is left of the key goes on below a folder of this name. */
  predicate Under(rest: string, name: string) { SLASH !in name && name + [SLASH] <= rest }

  /** Object i is the first that lies under the name. */
  ghost predicate FirstUnder(objects: seq<Object>, rest: string -> string, name: string, i: nat) {
    && i < |objects| && Under(rest(objects[i].path), name)
    && forall o <- objects[..i] :: !Under(rest(o.path), name)
  }

  /** The folder entries in the order in which their first objects come: entry i has its path below the prefix,
      object at[i] is the first under it, and no object with a slash in what is left of its key lacks one. */
  ghost predicate FolderLevel(objects: seq<Object>, rest: string -> string, prefix: string, folders: seq<Entry>,
                              at: seq<nat>) {
    && Increasing(at, |objects|) && |at| == |folders|
    && (forall e <- folders :: e.FolderEntry? && e.path == prefix + e.name + [SLASH])
    && (forall i | 0 <= i < |at| :: FirstUnder(objects, rest, folders[i].name, at[i]))
    && (forall o <- objects :: SLASH in rest(o.path) ==> exists e <- folders :: Under(rest(o.path), e.name))
  }

  /** The file entries in the order of the objects: exactly those of whose key something is left, without a
      slash, under that name. */
  ghost predicate FileLevel(objects: seq<Object>, rest: string -> string, files: seq<Entry>, at: seq<nat>) {
    && Increasing(at, |objects|) && |at| == |files|
    && (forall j | 0 <= j < |at| :: files[j] == FileEntry(rest(objects[at[j]].path), objects[at[j]]))
    && (forall k | 0 <= k < |objects| ::
          k in at <==> rest(objects[k].path) != "" && SLASH !in rest(objects[k].path))
  }

  lemma UnderMeansTop(rest: string, name: string)
    ensures Under(rest, name) <==> InFolder(rest) && Top(rest) == name
    ensures InFolder(rest) <==> SLASH in rest
  {
    if Under(rest, name) {
      assert rest[..|name|] == (name + [SLASH])[..|name|] == name && rest[|name|] == (name + [SLASH])[|name|];
      FirstSlashAt(rest, |name|);
    }
    if InFolder(rest) {
      assert rest[..FirstSlash(rest) + 1] == Top(rest) + [SLASH];
    } else {
      assert rest[..FirstSlash(rest)] == rest;
    }
  }

  /** The same for the names alone. */
  ghost predicate NamesSeen(objects: seq<Object>, rest: string -> string, names: seq<string>, at: seq<nat>) {
    && Increasing(at, |objects|) && |at| == |names|
    && (forall i | 0 <= i < |at| :: FirstUnder(objects, rest, names[i], at[i]))
    && (forall o <- objects :: SLASH in rest(o.path) ==> Top(rest(o.path)) in names)
  }

  lemma FirstStays(objects: seq<Object>, o: Object, rest: string -> string, name: string, i: nat)
    requires FirstUnder(objects, rest, name, i)
    ensures FirstUnder(objects + [o], rest, name, i)
  {
    assert (objects + [o])[..i] == objects[..i];
  }

  lemma SeenMore(objects: seq<Object>, o: Object, rest: string -> string, names: seq<string>, at: seq<nat>)
    requires NamesSeen(objects, rest, names, at)
    ensures var r := rest(o.path);
            if InFolder(r) && Top(r) !in names
            then NamesSeen(objects + [o], rest, names + [Top(r)], at + [|objects|])
            else NamesSeen(objects + [o], rest, names, at)
  {
    var r := rest(o.path);
    UnderMeansTop(r, Top(r));
    forall i | 0 <= i < |at| ensures FirstUnder(objects + [o], rest, names[i], at[i]) {
      FirstStays(objects, o, rest, names[i], at[i]);
    }
    if InFolder(r) && Top(r) !in names {
      forall p <- objects ensures !Under(rest(p.path), Top(r)) { UnderMeansTop(rest(p.path), Top(r)); }
      assert (objects + [o])[..|objects|] == objects;
      assert FirstUnder(objects + [o], rest, Top(r), |objects|);
    }
  }

  lemma {:induction false} FolderNamesExactly(objects: seq<Object>, rest: string -> string) returns (at: seq<nat>)
    ensures NamesSeen(objects, rest, FolderNames(objects, rest), at)
  {
    at := [];
    if objects != [] {
      var n := |objects| - 1;
      var names, r := FolderNames(objects[..n], rest), rest(objects[n].path);
      at := FolderNamesExactly(objects[..n], rest);
      SeenMore(objects[..n], objects[n], rest, names, at);
      assert objects == objects[..n] + [objects[n]];
      if InFolder(r) && Top(r) !in names { at := at + [n]; }
    }
  }

  lemma FoldersExactly(objects: seq<Object>, rest: string -> string, prefix: string) returns (at: seq<nat>)
    ensures FolderLevel(objects, rest, prefix, FolderEntries(FolderNames(objects, rest), prefix), at)
  {
    var names := FolderNames(objects, rest);
    var folders := FolderEntries(names, prefix);
    at := FolderNamesExactly(objects, rest);
    forall o <- objects | SLASH in rest(o.path) ensures exists e <- folders :: Under(rest(o.path), e.name) {
      UnderMeansTop(rest(o.path), Top(rest(o.path)));
      var i :| 0 <= i < |names| && names[i] == Top(rest(o.path));
      assert folders[i] in folders && folders[i].name == names[i];
    }
  }

  lemma FilesMore(objects: seq<Object>, o: Object, rest: string -> string, files: seq<Entry>, at: seq<nat>)
    requires FileLevel(objects, rest, files, at)
    ensures var r := rest(o.path);
            if r != "" && SLASH !in r
            then FileLevel(objects + [o], rest, files + [FileEntry(r, o)], at + [|objects|])
            else FileLevel(objects + [o], rest, files, at)
  {
    var n, r, more := |objects|, rest(o.path), objects + [o];
    assert n !in at;
    assert forall k | 0 <= k < n :: more[k] == objects[k];
    if r != "" && SLASH !in r {
      assert forall k: nat :: k in at + [n] <==> k in at || k == n;
    }
  }

  lemma {:induction false} FilesExactly(objects: seq<Object>, rest: string -> string) returns (at: seq<nat>)
    ensures FileLevel(objects, rest, FilesHere(objects, rest), at)
  {
    at := [];
    if objects != [] {
      var n := |objects| - 1;
      var r := rest(objects[n].path);
      at := FilesExactly(objects[..n], rest);
      FilesMore(objects[..n], objects[n], rest, FilesHere(objects[..n], rest), at);
      UnderMeansTop(r, "");
      assert objects == objects[..n] + [objects[n]];
      if r != "" && !InFolder(r) { at := at + [n]; }
    }
  }

  /** What is left of a key: in the web client the key without the prefix, or nothing if it does not begin with
      it; in the explorer the key without the prefix, if it begins with it, and then without one slash. */
  lemma RestsExactly(prefix: string, path: string)
    ensures if prefix <= path then path == prefix + Rest(prefix, path) else Rest(prefix, path) == ""
    ensures var k := if prefix <= path then |prefix| else 0;
            if k < |path| && path[k] == SLASH then path == path[..k] + [SLASH] + Rel(prefix, path)
            else path == path[..k] + Rel(prefix, path)
  {
    var k := if prefix <= path then |prefix| else 0;
    assert TrimPrefix(path, prefix) == path[k..];
    if k < |path| && path[k] == SLASH { assert [SLASH] <= path[k..]; }
  }

  function WebRest(prefix: string): string -> string { path => Rest(prefix, path) }

  function ExplorerRest(prefix: string): string -> string { path => Rel(prefix, path) }

  /** toEntries: the folders of the level in the order they appear, then its files. */
  method ToEntries(objects: seq<Object>, prefix: string)
    returns (entries: seq<Entry>, ghost foldersAt: seq<nat>, ghost filesAt: seq<nat>)
    ensures |entries| == |foldersAt| + |filesAt|
    ensures FolderLevel(objects, WebRest(prefix), prefix, entries[..|foldersAt|], foldersAt)
    ensures FileLevel(objects, WebRest(prefix), entries[|foldersAt|..], filesAt)
    ensures entries == FolderEntries(Names(objects, prefix), prefix) + Files(objects, prefix)
  {
    ghost var rest, names := WebRest(prefix), [];
    var folders, files: seq<Entry> := [], [];
    for i := 0 to |objects|
      invariant names == FolderNames(objects[..i], rest) && folders == FolderEntries(names, prefix)
      invariant files == FilesHere(objects[..i], rest)
    {
      LevelStep(objects, i, rest);
      var key := objects[i].path;
      if !(prefix <= key) { continue; }
      var r := key[|prefix|..];
      if r == "" { continue; }
      var slash := FirstSlash(r);
      if slash < |r| {
        var name := r[..slash];
        var path := FolderPath(prefix, name);
        SeenIffListed(names, prefix, name);
        EntriesMore(names, name, prefix);
        if path !in Paths(folders) {
          folders, names := folders + [FolderEntry(name, path)], names + [name];
        }
        continue;
      }
      files := files + [FileEntry(r, objects[i])];
    }
    assert objects[..|objects|] == objects;
    entries := folders + files;
    foldersAt := FoldersExactly(objects, rest, prefix);
    filesAt := FilesExactly(objects, rest);
    assert entries[..|foldersAt|] == folders && entries[|foldersAt|..] == files;
  }

  /** String comparison, character by character. */
  predicate AtMost(a: string, b: string) {
    a == "" || (b != "" && (a[0] < b[0] || (a[0] == b[0] && AtMost(a[1..], b[1..]))))
  }

  /** The order of texts: the shorter of two that agree as far as it goes, and otherwise the one with the smaller
      character where they first differ. */
  lemma {:induction false} AtMostIsLexicographic(a: string, b: string) returns (i: nat)
    ensures i <= |a| && i <= |b| && a[..i] == b[..i]
    ensures AtMost(a, b) <==> i == |a| || (i < |b| && a[i] < b[i])
    ensures i < |a| && i < |b| ==> a[i] != b[i]
  {
    i := 0;
    if a != "" && b != "" && a[0] == b[0] {
      i := AtMostIsLexicographic(a[1..], b[1..]);
      assert a[..i + 1] == [a[0]] + a[1..][..i] && b[..i + 1] == [b[0]] + b[1..][..i];
      i := i + 1;
    }
  }

  lemma {:induction false} AtMostIsTotal(a: string, b: string)
    ensures AtMost(a, b) || AtMost(b, a)
  {
    if a != "" && b != "" && a[0] == b[0] { AtMostIsTotal(a[1..], b[1..]); }
  }

  /** No entry's name, in lower case, is less than the one before it. */
  predicate InOrder(list: seq<Entry>, lower: string -> string) {
    forall i | 0 < i < |list| :: AtMost(lower(list[i - 1].name), lower(list[i].name))
  }

  function Insert(e: Entry, list: seq<Entry>, lower: string -> string): (r: seq<Entry>)
    requires InOrder(list, lower)
    ensures multiset(r) == multiset(list) + multiset{e} && InOrder(r, lower)
    ensures r[0] == e || (list != [] && r[0] == list[0])
  {
    if list == [] then [e]
    else
      AtMostIsTotal(lower(e.name), lower(list[0].name));
      if AtMost(lower(e.name), lower(list[0].name)) then [e] + list
      else
        InsertDeeper(list);
        assert InOrder(list[1..], lower);
        [list[0]] + Insert(e, list[1..], lower)
  }

  lemma InsertDeeper(list: seq<Entry>)
    requires list != []
    ensures multiset(list) == multiset{list[0]} + multiset(list[1..])
  {
    assert list == [list[0]] + list[1..];
  }

  /** sort.Slice by lower-case name; of it nothing is used but that the result is a permutation in order. */
  method SortByName(list: seq<Entry>, lower: string -> string) returns (sorted: seq<Entry>)
    ensures multiset(sorted) == multiset(list) && InOrder(sorted, lower)
  {
    sorted := [];
    for i := 0 to |list|
      invariant multiset(sorted) == multiset(list[..i]) && InOrder(sorted, lower)
    {
      assert list[..i + 1] == list[..i] + [list[i]];
      sorted := Insert(list[i], sorted, lower);
    }
    assert list[..|list|] == list;
  }

  /** The table's entries: the folders of the level in order of their lower-case names, then its files. */
  ghost predicate TableOf(entries: seq<Entry>, folders: seq<Entry>, files: seq<Entry>, lower: string -> string) {
    && |entries| == |folders| + |files|
    && multiset(entries[..|folders|]) == multiset(folders) && InOrder(entries[..|folders|], lower)
    && multiset(entries[|folders|..]) == multiset(files) && InOrder(entries[|folders|..], lower)
  }

  lemma SameLength(a: seq<Entry>, b: seq<Entry>)
    requires multiset(a) == multiset(b)
    ensures |a| == |b|
  {
    assert |multiset(a)| == |a| && |multiset(b)| == |b|;
  }

  /** The loop of Reload over the objects. */
  method CollectLevel(objects: seq<Object>, prefix: string) returns (folders: seq<Entry>, files: seq<Entry>)
    ensures folders == FolderEntries(RelNames(objects, prefix), prefix) && files == RelFiles(objects, prefix)
  {
    ghost var rest, names := ExplorerRest(prefix), [];
    var seen: set<string> := {};
    folders, files := [], [];
    for i := 0 to |objects|
      invariant names == FolderNames(objects[..i], rest) && folders == FolderEntries(names, prefix)
      invariant files == FilesHere(objects[..i], rest)
      invariant seen == Paths(FolderEntries(names, prefix))
    {
      LevelStep(objects, i, rest);
      var rel := TrimPrefix(TrimPrefix(objects[i].path, prefix), [SLASH]);
      if rel == "" { continue; }
      var idx := FirstSlash(rel);
      if idx == |rel| {
        files := files + [FileEntry(rel, objects[i])];
      } else {
        var folderName := rel[..idx];
        var folderPath := FolderPath(prefix, folderName);
        SeenIffListed(names, prefix, folderName);
        EntriesMore(names, folderName, prefix);
        if folderPath !in seen {
          seen := seen + {folderPath};
          folders, names := folders + [FolderEntry(folderName, folderPath)], names + [folderName];
        }
      }
    }
    assert objects[..|objects|] == objects;
  }

  /** Reload. */
  method Reload(objects: seq<Object>, prefix: string, lower: string -> string)
    returns (entries: seq<Entry>, ghost folders: seq<Entry>, ghost files: seq<Entry>, ghost foldersAt: seq<nat>,
             ghost filesAt: seq<nat>)
    ensures FolderLevel(objects, ExplorerRest(prefix), prefix, folders, foldersAt)
    ensures FileLevel(objects, ExplorerRest(prefix), files, filesAt)
    ensures TableOf(entries, folders, files, lower)
    ensures TableOf(entries, FolderEntries(RelNames(objects, prefix), prefix), RelFiles(objects, prefix), lower)
  {
    var folderEntries, fileEntries := CollectLevel(objects, prefix);
    var first := SortByName(folderEntries, lower);
    var second := SortByName(fileEntries, lower);
    SameLength(first, folderEntries);
    SameLength(second, fileEntries);
    entries, folders, files := first + second, folderEntries, fileEntries;
    assert entries[..|folders|] == first && entries[|folders|..] == second;
    foldersAt := FoldersExactly(objects, ExplorerRest(prefix), prefix);
    filesAt := FilesExactly(objects, ExplorerRest(prefix));
  }

  /** buildChildren: the folder rows of the same level. */
  method BuildChildren(objects: seq<Object>, prefix: string) returns (children: seq<Entry>, ghost at: seq<nat>)
    ensures FolderLevel(objects, ExplorerRest(prefix), prefix, children, at)
    ensures children == FolderEntries(RelNames(objects, prefix), prefix)
  {
    ghost var rest, names := ExplorerRest(prefix), [];
    var seen: set<string> := {};
    children := [];
    for i := 0 to |objects|
      invariant names == FolderNames(objects[..i], rest) && children == FolderEntries(names, prefix)
      invariant seen == Paths(FolderEntries(names, prefix))
    {
      LevelStep(objects, i, rest);
      var rel := TrimPrefix(TrimPrefix(objects[i].path, prefix), [SLASH]);
      var idx := FirstSlash(rel);
      if idx == |rel| { continue; }
      var folderName := rel[..idx];
      var childPrefix := FolderPath(prefix, folderName);
      SeenIffListed(names, prefix, folderName);
      EntriesMore(names, folderName, prefix);
      if childPrefix in seen { continue; }
      seen := seen + {childPrefix};
      children, names := children + [FolderEntry(folderName, childPrefix)], names + [folderName];
    }
    assert objects[..|objects|] == objects;
    at := FoldersExactly(objects, rest, prefix);
  }

  /* ------------------------------------ descending ------------------------------------ */

  /** The objects behind a list of file entries. */
  function EntryObjects(entries: seq<Entry>): multiset<Object> {
    if entries == [] then multiset{}
    else EntryObjects(entries[..|entries| - 1]) +
         (if entries[|entries| - 1].FileEntry? then multiset{entries[|entries| - 1].item} else multiset{})
  }

  function Longest(objects: seq<Object>): nat {
    if objects == [] then 0
    else
      var n := Longest(objects[..|objects| - 1]);
      if n < |objects[|objects| - 1].path| then |objects[|objects| - 1].path| else n
  }

  function Depth(objects: seq<Object>, prefix: string): nat {
    if |prefix| <= Longest(objects) then Longest(objects) + 1 - |prefix| else 0
  }

  lemma {:induction false} NameFits(objects: seq<Object>, prefix: string, name: string)
    requires name in Names(objects, prefix)
    ensures SLASH !in name && |FolderPath(prefix, name)| <= Longest(objects)
  {
    var last := objects[|objects| - 1];
    if name in Names(objects[..|objects| - 1], prefix) {
      NameFits(objects[..|objects| - 1], prefix, name);
    } else {
      var r := Rest(prefix, last.path);
      assert name == r[..FirstSlash(r)];
    }
  }

  /** All files met on the way down from a prefix. */
  ghost function Listed(objects: seq<Object>, prefix: string): multiset<Object>
    decreases Depth(objects, prefix), |Names(objects, prefix)| + 1
  {
    EntryObjects(Files(objects, prefix)) + ListedIn(objects, prefix, Names(objects, prefix))
  }

  /** ... and in the folders `names` of the prefix. */
  ghost function ListedIn(objects: seq<Object>, prefix: string, names: seq<string>): multiset<Object>
    requires forall name <- names :: name in Names(objects, prefix)
    decreases Depth(objects, prefix), |names|
  {
    if names == [] then multiset{}
    else
      var name := names[|names| - 1];
      NameFits(objects, prefix, name);
      ListedIn(objects, prefix, names[..|names| - 1]) + Listed(objects, FolderPath(prefix, name))
  }

  predicate IsFileKey(prefix: string, path: string) {
    prefix <= path && |prefix| < |path| && path[|path| - 1] != SLASH
  }

  lemma {:induction false} FilesTimes(objects: seq<Object>, prefix: string, o: Object)
    ensures var r := Rest(prefix, o.path);
            EntryObjects(Files(objects, prefix))[o] == if r != "" && !InFolder(r) then multiset(objects)[o] else 0
  {
    if objects != [] {
      var n := |objects| - 1;
      FilesTimes(objects[..n], prefix, o);
      assert objects == objects[..n] + [objects[n]];
      var before, r := Files(objects[..n], prefix), Rest(prefix, objects[n].path);
      if r != "" && !InFolder(r) {
        assert Files(objects, prefix) == before + [FileEntry(r, objects[n])];
        assert (before + [FileEntry(r, objects[n])])[..|before|] == before;
      }
    }
  }

  lemma {:induction false} NameListed(objects: seq<Object>, prefix: string, o: Object)
    requires o in objects && InFolder(Rest(prefix, o.path))
    ensures Top(Rest(prefix, o.path)) in Names(objects, prefix)
  {
    var n := |objects| - 1;
    assert objects == objects[..n] + [objects[n]];
    if o != objects[n] { NameListed(objects[..n], prefix, o); }
  }

  lemma {:induction false} FirstSlashAt(s: string, i: nat)
    requires i < |s| && s[i] == SLASH && SLASH !in s[..i]
    ensures FirstSlash(s) == i
  {
    if i > 0 {
      assert s[..i][0] == s[0] && s[1..][..i - 1] == s[..i][1..];
      FirstSlashAt(s[1..], i - 1);
    }
  }

  /** A file key below one of the folders is a file key of the level whose first component is the folder. */
  lemma BelowFolder(prefix: string, name: string, path: string)
    requires SLASH !in name
    ensures var r := Rest(prefix, path);
            IsFileKey(FolderPath(prefix, name), path) <==> IsFileKey(prefix, path) && InFolder(r) && Top(r) == name
  {
    var fp, r := FolderPath(prefix, name), Rest(prefix, path);
    if fp <= path {
      assert path[..|prefix|] == fp[..|prefix|] == prefix;
      assert r[..|name|] == fp[|prefix|..][..|name|] == name && r[|name|] == fp[|fp| - 1] == SLASH;
      FirstSlashAt(r, |name|);
    }
    if prefix <= path && InFolder(r) && Top(r) == name {
      assert path == prefix + r && r == name + [SLASH] + r[|name| + 1..];
      assert path == fp + r[|name| + 1..];
    }
  }

  lemma {:induction false} ListedTimes(objects: seq<Object>, prefix: string, o: Object)
    ensures Listed(objects, prefix)[o] == if IsFileKey(prefix, o.path) then multiset(objects)[o] else 0
    decreases Depth(objects, prefix), |Names(objects, prefix)| + 1
  {
    var r := Rest(prefix, o.path);
    FilesTimes(objects, prefix, o);
    ListedInTimes(objects, prefix, Names(objects, prefix), o);
    if InFolder(r) && o in objects { NameListed(objects, prefix, o); }
    if r != "" && !InFolder(r) { NoSlash(r); }
    if r != "" { assert o.path[|o.path| - 1] == r[|r| - 1]; }
  }

  lemma NoSlash(r: string)
    requires !InFolder(r)
    ensures forall c <- r :: c != SLASH
  {
    assert r[..FirstSlash(r)] == r;
  }

  lemma {:induction false} ListedInTimes(objects: seq<Object>, prefix: string, names: seq<string>, o: Object)
    requires forall name <- names :: name in Names(objects, prefix)
    requires forall i, j :: 0 <= i < j < |names| ==> names[i] != names[j]
    ensures var r := Rest(prefix, o.path);
            ListedIn(objects, prefix, names)[o]
            == if IsFileKey(prefix, o.path) && InFolder(r) && Top(r) in names then multiset(objects)[o] else 0
    decreases Depth(objects, prefix), |names|
  {
    if names != [] {
      var n := |names| - 1;
      NameFits(objects, prefix, names[n]);
      ListedInTimes(objects, prefix, names[..n], o);
      ListedTimes(objects, FolderPath(prefix, names[n]), o);
      BelowFolder(prefix, names[n], o.path);
      assert names == names[..n] + [names[n]];
    }
  }

  /** The virtual tree is lossless: descending from the top lists each object with a key that is not empty
      and does not end in a slash as often as it is in the list, and nothing else. */
  lemma TreeIsLossless(objects: seq<Object>, o: Object)
    ensures Listed(objects, "")[o] == if o.path != "" && o.path[|o.path| - 1] != SLASH then multiset(objects)[o] else 0
  {
    ListedTimes(objects, "", o);
  }

  /** The explorer's rest of a key equals the web client's, for a key below the prefix, exactly when no
      slash follows the prefix; then both clients show the same level. */
  lemma ClientsAgreeExactly(prefix: string, path: string)
    requires prefix <= path
    ensures Rel(prefix, path) == Rest(prefix, path) <==> (path == prefix || path[|prefix|] != SLASH)
  {
    var r := path[|prefix|..];
    if path != prefix && path[|prefix|] == SLASH { assert [SLASH] <= r; }
  }

  lemma {:induction false} LevelsAgree(objects: seq<Object>, prefix: string)
    requires forall o <- objects :: prefix <= o.path && (o.path == prefix || o.path[|prefix|] != SLASH)
    ensures RelNames(objects, prefix) == Names(objects, prefix) && RelFiles(objects, prefix) == Files(objects, prefix)
  {
    if objects != [] {
      var n := |objects| - 1;
      assert objects[n] in objects && forall o <- objects[..n] :: o in objects;
      ClientsAgreeExactly(prefix, objects[n].path);
      LevelsAgree(objects[..n], prefix);
    }
  }

  /* ------------------------------------ going up ------------------------------------ */

  /** parts.join("/") */
  function Join(parts: seq<string>): string {
    if parts == [] then "" else if |parts| == 1 then parts[0] else parts[0] + [SLASH] + Join(parts[1..])
  }

  lemma {:induction false} JoinFolder(parts: seq<string>)
    requires parts != []
    ensures Join(parts) + [SLASH] == Folder(parts)
  {
    if |parts| == 1 {
      assert Folder(parts) == parts[0] + [SLASH] + "";
    } else {
      JoinFolder(parts[1..]);
    }
  }

  function Pop(parts: seq<string>): seq<string> { if parts == [] then [] else parts[..|parts| - 1] }

  function Up(prefix: string): string { if prefix == "" then "" else Folder(Pop(NonEmpty(Split(prefix)))) }

  class BrowserState {
    var prefix: string

    constructor ()
      ensures prefix == ""
    {
      prefix := "";
    }

    /** Clicking a folder entry. */
    method Enter(name: string)
      modifies this
      ensures prefix == old(prefix) + name + "/"
    {
      prefix := prefix + name + [SLASH];
    }

    method GoUp()
      modifies this
      ensures prefix == Up(old(prefix))
    {
      if prefix == "" { return; }
      var parts := NonEmpty(Split(prefix));
      if parts != [] {
        parts := parts[..|parts| - 1];
      }
      if parts != [] {
        JoinFolder(parts);
        prefix := Join(parts) + [SLASH];
      } else {
        prefix := "";
      }
    }
  }

  /** No empty component, and a slash at the end unless it is empty. */
  predicate Normal(prefix: string) { prefix == Folder(NonEmpty(Split(prefix))) }

  lemma {:induction false} FolderSnoc(parts: seq<string>, part: string)
    ensures Folder(parts + [part]) == Folder(parts) + part + [SLASH]
  {
    if parts == [] {
      assert [part][1..] == [] && parts + [part] == [part];
    } else {
      assert (parts + [part])[1..] == parts[1..] + [part];
      FolderSnoc(parts[1..], part);
    }
  }

  /** The pieces between the slashes are no longer than the text. */
  lemma {:induction false} PiecesFit(s: string)
    ensures |Folder(NonEmpty(Split(s)))| <= |s| + 1
    ensures Split(s)[0] == "" ==> |Folder(NonEmpty(Split(s)))| <= |s|
  {
    if s == "" {
      assert NonEmpty([""]) == [];
    } else {
      PiecesFit(s[1..]);
      var rest := Split(s[1..]);
      if s[0] == SLASH {
        assert ([""] + rest)[1..] == rest;
      } else {
        var grown := [[s[0]] + rest[0]] + rest[1..];
        assert grown[1..] == rest[1..];
      }
    }
  }

  /** A slash at the end adds no component. */
  lemma TrailingSlash(s: string)
    ensures NonEmpty(Split(s + [SLASH])) == NonEmpty(Split(s))
  {
    SplitAtSlash(s, "");
    assert s + [SLASH] + "" == s + [SLASH];
    NonEmptyConcat(Split(s), [""]);
    assert NonEmpty([""]) == [];
  }

  lemma EnterTop(prefix: string, name: string)
    requires SLASH !in name && prefix == ""
    ensures NonEmpty(Split(FolderPath(prefix, name))) == NonEmpty(Split(prefix)) + NonEmpty([name])
  {
    SplitPlain(name);
    TrailingSlash(name);
    assert FolderPath(prefix, name) == name + [SLASH];
    assert NonEmpty(Split(prefix)) == [];
  }

  lemma EnterBelow(prefix: string, init: string, name: string)
    requires SLASH !in name && prefix == init + [SLASH]
    ensures NonEmpty(Split(FolderPath(prefix, name))) == NonEmpty(Split(prefix)) + NonEmpty([name])
  {
    SplitPlain(name);
    TrailingSlash(prefix + name);
    TrailingSlash(init);
    SplitAtSlash(init, name);
    NonEmptyConcat(Split(init), [name]);
  }

  lemma CutSlash(prefix: string) returns (init: string)
    requires prefix != "" && prefix[|prefix| - 1] == SLASH
    ensures prefix == init + [SLASH]
  {
    init := prefix[..|prefix| - 1];
  }

  /** Entering `name` adds its component to those of the prefix. */
  lemma EnterParts(prefix: string, name: string)
    requires SLASH !in name && (prefix == "" || prefix[|prefix| - 1] == SLASH)
    ensures NonEmpty(Split(FolderPath(prefix, name))) == NonEmpty(Split(prefix)) + NonEmpty([name])
  {
    if prefix == "" {
      EnterTop(prefix, name);
    } else {
      var init := CutSlash(prefix);
      EnterBelow(prefix, init, name);
    }
  }

  lemma FolderShape(parts: seq<string>)
    ensures Folder(parts) == "" || Folder(parts)[|Folder(parts)| - 1] == SLASH
  {
    if parts != [] { var init := FolderInit(parts); }
  }

  /** Entering a listed folder and going up again returns to the same prefix exactly when the prefix is
      normal and the folder's name is not empty (or the prefix is the top). */
  lemma UpUndoesEnterExactly(prefix: string, name: string)
    requires SLASH !in name
    ensures Up(FolderPath(prefix, name)) == prefix <==> Normal(prefix) && (name != "" || prefix == "")
  {
    var parts := NonEmpty(Split(prefix));
    FolderShape(parts);
    FolderShape(Pop(NonEmpty(Split(FolderPath(prefix, name)))));
    if prefix == "" || prefix[|prefix| - 1] == SLASH {
      EnterParts(prefix, name);
      assert [name][1..] == [];
      if name != "" {
        assert (parts + [name])[..|parts|] == parts;
      } else {
        assert parts + [] == parts;
        if prefix == "" { assert parts == []; } else { PopIsShorter(prefix); }
      }
    }
  }

  lemma PopIsShorter(prefix: string)
    requires prefix != "" && prefix[|prefix| - 1] == SLASH
    ensures |Folder(Pop(NonEmpty(Split(prefix))))| < |prefix|
  {
    var init := CutSlash(prefix);
    TrailingSlash(init);
    PiecesFit(init);
    var parts := NonEmpty(Split(init));
    if parts != [] {
      assert parts == Pop(parts) + [parts[|parts| - 1]];
      FolderSnoc(Pop(parts), parts[|parts| - 1]);
    }
  }
}
