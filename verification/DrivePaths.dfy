/**
 Slash-separated paths of the Drive backend: folder components and a file name.
 */
module DrivePaths {
  const SLASH: char := '/'

  /** str.split("/"): always at least one piece. */
  function Split(s: string): (pieces: seq<string>)
    ensures |pieces| >= 1
  {
    if s == "" then [""]
    else
      var rest := Split(s[1..]);
      if s[0] == SLASH then [""] + rest else [[s[0]] + rest[0]] + rest[1..]
  }

  function StripLeft(s: string): string {
    if s != "" && s[0] == SLASH then StripLeft(s[1..]) else s
  }

  function StripRight(s: string): string {
    if s != "" && s[|s| - 1] == SLASH then StripRight(s[..|s| - 1]) else s
  }

  /** str.strip("/") */
  function Strip(s: string): string { StripRight(StripLeft(s)) }

  /** The pieces the folder loops do not skip. */
  function NonEmpty(pieces: seq<string>): seq<string> {
    if pieces == [] then []
    else if pieces[0] == "" then NonEmpty(pieces[1..])
    else [pieces[0]] + NonEmpty(pieces[1..])
  }

  function Parts(folder: string): seq<string> { NonEmpty(Split(Strip(folder))) }

  datatype Path = Path(parts: seq<string>, name: string)

  /** _split_path: str.rsplit("/", 1), as (folder, file name). */
  function SplitPath(path: string): (string, string) {
    if SLASH !in path then ("", path)
    else if path[|path| - 1] == SLASH then (path[..|path| - 1], "")
    else
      var (folder, name) := SplitPath(path[..|path| - 1]);
      (folder, name + [path[|path| - 1]])
  }

  /** What a path string means to the backend. */
  function Parse(path: string): Path {
    Path(Parts(SplitPath(path).0), SplitPath(path).1)
  }

  function Render(p: Path): string {
    Folder(p.parts) + p.name
  }

  function Folder(parts: seq<string>): string {
    if parts == [] then "" else parts[0] + [SLASH] + Folder(parts[1..])
  }

  ghost predicate Plain(p: Path) {
    (forall part <- p.parts :: part != "" && SLASH !in part) && SLASH !in p.name
  }

  /* ------------------------------------ splitting ------------------------------------ */

  lemma {:induction false} NonEmptyConcat(a: seq<string>, b: seq<string>)
    ensures NonEmpty(a + b) == NonEmpty(a) + NonEmpty(b)
  {
    if a == [] {
      assert a + b == b;
    } else {
      assert (a + b)[1..] == a[1..] + b;
      NonEmptyConcat(a[1..], b);
    }
  }

  /** A slash always separates: the pieces on both sides do not see each other. */
  lemma {:induction false} SplitAtSlash(s: string, t: string)
    ensures Split(s + [SLASH] + t) == Split(s) + Split(t)
  {
    var u := s + [SLASH] + t;
    if s == "" {
      assert u[0] == SLASH && u[1..] == t;
    } else {
      assert u[1..] == s[1..] + [SLASH] + t;
      SplitAtSlash(s[1..], t);
    }
  }

  lemma {:induction false} StripLeftSame(s: string)
    ensures NonEmpty(Split(StripLeft(s))) == NonEmpty(Split(s))
  {
    if s != "" && s[0] == SLASH { StripLeftSame(s[1..]); }
  }

  lemma {:induction false} StripRightSame(s: string)
    ensures NonEmpty(Split(StripRight(s))) == NonEmpty(Split(s))
  {
    if s != "" && s[|s| - 1] == SLASH {
      var t := s[..|s| - 1];
      StripRightSame(t);
      assert s == t + [SLASH] + "";
      SplitAtSlash(t, "");
      NonEmptyConcat(Split(t), [""]);
    }
  }

  /** Leading, trailing and repeated slashes do not matter: a folder means the non-empty pieces between
      its slashes. */
  lemma StripChangesNothing(folder: string)
    ensures Parts(folder) == NonEmpty(Split(folder))
  {
    StripLeftSame(folder);
    StripRightSame(StripLeft(folder));
  }

  /** The laws that determine the components of every folder text: a slash separates, and a text without
      one is a component unless it is empty. */
  lemma PartsByLaws(a: string, b: string)
    ensures Parts(a + [SLASH] + b) == Parts(a) + Parts(b)
    ensures SLASH !in a ==> Parts(a) == if a == "" then [] else [a]
  {
    StripChangesNothing(a + [SLASH] + b);
    StripChangesNothing(a);
    StripChangesNothing(b);
    SplitAtSlash(a, b);
    NonEmptyConcat(Split(a), Split(b));
    if SLASH !in a {
      SplitPlain(a);
      assert [a][1..] == [];
    }
  }

  /** The file name is what stands behind the last slash, the folder what stands before it. */
  lemma {:induction false} SplitPathExactly(path: string)
    ensures var (folder, name) := SplitPath(path);
            && SLASH !in name
            && if SLASH in path then path == folder + [SLASH] + name else folder == "" && path == name
  {
    if SLASH in path {
      var n := |path| - 1;
      assert path == path[..n] + [path[n]];
      if path[n] == SLASH {
        assert path == path[..n] + [SLASH] + "";
      } else {
        SplitPathExactly(path[..n]);
        assert SLASH in path[..n];
      }
    }
  }

  lemma {:induction false} SplitPathAtLastSlash(folder: string, name: string)
    requires SLASH !in name
    ensures SplitPath(folder + [SLASH] + name) == (folder, name)
  {
    var path := folder + [SLASH] + name;
    assert path[|folder|] == SLASH;
    if name == "" {
      assert path[..|path| - 1] == folder;
    } else {
      var init := name[..|name| - 1];
      assert path[..|path| - 1] == folder + [SLASH] + init;
      SplitPathAtLastSlash(folder, init);
      assert name == init + [name[|name| - 1]];
    }
  }

  lemma {:induction false} SplitPlain(s: string)
    requires SLASH !in s
    ensures Split(s) == [s]
  {
    if s != "" {
      assert forall c <- s[1..] :: c in s;
      SplitPlain(s[1..]);
      assert s == [s[0]] + s[1..];
    }
  }

  lemma {:induction false} FolderParts(parts: seq<string>)
    requires forall part <- parts :: part != "" && SLASH !in part
    ensures NonEmpty(Split(Folder(parts))) == parts
  {
    if parts != [] {
      assert forall part <- parts[1..] :: part in parts;
      FolderParts(parts[1..]);
      SplitAtSlash(parts[0], Folder(parts[1..]));
      SplitPlain(parts[0]);
      NonEmptyConcat([parts[0]], Split(Folder(parts[1..])));
    }
  }

  /** The folder text of `parts` up to its final slash. */
  lemma {:induction false} FolderInit(parts: seq<string>) returns (init: string)
    requires parts != []
    ensures Folder(parts) == init + [SLASH]
  {
    if |parts| == 1 {
      init := parts[0];
    } else {
      var rest := FolderInit(parts[1..]);
      init := parts[0] + [SLASH] + rest;
    }
  }

  /** Every normalised path is the meaning of the string that spells it out. */
  lemma ParseRendered(p: Path)
    requires Plain(p)
    ensures Parse(Render(p)) == p
  {
    if p.parts != [] {
      var init := FolderInit(p.parts);
      assert Render(p) == init + [SLASH] + p.name;
      SplitPathAtLastSlash(init, p.name);
      StripChangesNothing(init);
      FolderParts(p.parts);
      SplitAtSlash(init, "");
      assert Folder(p.parts) == init + [SLASH] + "";
      NonEmptyConcat(Split(init), [""]);
    } else {
      assert Render(p) == p.name;
    }
  }

  lemma {:induction false} NonEmptyPieces(s: string)
    ensures forall part <- Split(s) :: SLASH !in part
  {
    if s != "" { NonEmptyPieces(s[1..]); }
  }

  lemma {:induction false} NonEmptySubset(pieces: seq<string>)
    ensures forall part <- NonEmpty(pieces) :: part != "" && part in pieces
  {
    if pieces != [] { NonEmptySubset(pieces[1..]); }
  }

  lemma {:induction false} SplitPathName(path: string)
    ensures SLASH !in SplitPath(path).1
  {
    if SLASH in path && path[|path| - 1] != SLASH { SplitPathName(path[..|path| - 1]); }
  }

  /** ... and every string means a normalised path, so `Parse` maps the strings onto exactly those. */
  lemma ParsedIsPlain(path: string)
    ensures Plain(Parse(path))
  {
    var folder := Strip(SplitPath(path).0);
    NonEmptyPieces(folder);
    NonEmptySubset(Split(folder));
    SplitPathName(path);
  }
}
