/**
  The file tools `file_writer`, `file_reader` and `list_directory`: the path check they share, and what they do
  to a file system that maps cleaned absolute paths to contents.
 */
module FileTools {
  import opened Paths

  const ROOT := "/app"

  /** An argument of the request: absent, of another kind, or a string. */
  datatype Arg = Missing | NotString | Str(value: string)

  datatype ToolResult =
    | BadArgument
    | AccessDenied
    | IoError
    | NotText  // the result cannot be put into a protobuf string
    | Text(content: string)
    | Wrote(bytes: nat, path: string)
    | Entries(names: seq<string>)

  /** The check after cleaning: the path is turned down when its text starts with two dots. */
  predicate Denied(p: string) {
    HasPrefix(Clean(p), "..")
  }

  /** The file a path that was not turned down stands for. */
  function Target(p: string): string {
    Join(ROOT, Clean(p))
  }

  /** The cleaned path begins with a plain name that itself begins with two dots. */
  predicate DottedName(p: string) {
    !Rooted(p) && Parts(p) != [] && HasPrefix(Parts(p)[0], "..") && Parts(p)[0] != ".."
  }

  lemma DotsOfSlashed(parts: seq<string>)
    requires parts != [] && Plain(parts[0])
    ensures HasPrefix(Slashed(parts), "..") <==> HasPrefix(parts[0], "..")
  {
    var first, all := parts[0], Slashed(parts);
    assert all[..|first|] == first;
    assert |parts| > 1 ==> all[|first|] == '/';
    if |first| == 1 {
      assert first == [first[0]];
    } else {
      assert all[0] == first[0] && all[1] == first[1];
    }
  }

  /** The check looks at the first part only. */
  lemma DeniedByFirstPart(p: string)
    ensures Denied(p) <==> !Rooted(p) && Parts(p) != [] && HasPrefix(Parts(p)[0], "..")
  {
    PartsAreNormal(p);
    if Parts(p) != [] {
      assert Parts(p)[0] in Parts(p);
      DotsOfSlashed(Parts(p));
    }
    assert Rooted(p) ==> Clean(p)[0] == '/';
  }

  /**
    The check against the rule it is for, that a path must not climb out of the directory it starts in: it
    turns down exactly the relative paths that climb out, except that it also turns down the paths, and no
    others, whose cleaned form begins with a name such as `..notes`.
   */
  lemma CheckIsExactIff(p: string)
    ensures (Denied(p) <==> !Rooted(p) && Climbs(Split(p), 0)) <==> !DottedName(p)
    ensures !Rooted(p) && Climbs(Split(p), 0) ==> Denied(p)
  {
    DeniedByFirstPart(p);
    if !Rooted(p) {
      DotsLeftIffClimbs(p);
    }
  }

  lemma DottedNameIsDenied()
    ensures Denied("..notes") && !Climbs(Split("..notes"), 0)
  {
    SplitOne("..notes");
    assert Resolve(false, [], ["..notes"]) == ["..notes"];
    assert Parts("..notes") == ["..notes"];
    CheckIsExactIff("..notes");
    DeniedByFirstPart("..notes");
  }

  /** A path that passes the check has only plain names left, and they are where it leads. */
  lemma AcceptedParts(p: string)
    requires !Denied(p)
    ensures forall c <- Parts(p) :: Plain(c) && c != ".."
    ensures Parts(p) == Place(p)
  {
    PartsAreNormal(p);
    DeniedByFirstPart(p);
    if !Rooted(p) {
      DotsLeftIffClimbs(p);
    }
    WalkDown([], Parts(p));
    CleanKeepsMeaning(p, []);
  }

  lemma RootIsNormal(parts: seq<string>)
    requires forall c <- parts :: Plain(c) && c != ".."
    ensures Normal(true, ["app"] + parts)
  {
    assert "app"[0] == 'a' && "app"[1] == 'p' && "app"[2] == 'p';
  }

  /** Joining below the root of the tools puts the parts of a path on top of `app`. */
  lemma PartsBelowRoot(q: string)
    ensures Parts(ROOT + "/" + q) == Resolve(true, ["app"], Split(q))
  {
    assert ROOT + "/" + q == "" + "/" + ("app" + "/" + q);
    SplitAfterSlash("", "app" + "/" + q);
    SplitAfterSlash("app", q);
    assert Split(ROOT + "/" + q) == ["", "app"] + Split(q);
    ResolveAppend(true, [], ["", "app"], Split(q));
    assert ["", "app"][1..] == ["app"] && ["app"][1..] == [];
    assert Push(true, [], "app") == ["app"];
    assert Resolve(true, [], ["", "app"]) == ["app"];
  }

  lemma TargetParts(p: string)
    requires !Denied(p)
    ensures Target(p) == Render(true, ["app"] + Parts(p))
  {
    var parts := Parts(p);
    AcceptedParts(p);
    PartsAreNormal(p);
    SplitRender(Rooted(p), parts);
    PartsBelowRoot(Clean(p));
    RootIsNormal(parts);
    if parts != [] {
      ResolveNormal(true, ["app"], parts);
    }
    if Rooted(p) {
      ResolveAppend(true, ["app"], [""], if parts == [] then [""] else parts);
    }
  }

  /** The directory of the tools, or something below it. */
  predicate Inside(name: string) {
    name == ROOT || HasPrefix(name, ROOT + "/")
  }

  /**
    Confinement: whatever the argument, a path that passes the check stands for the directory of the tools or a
    file below it. It is the file the argument names when that directory is taken for the root.
   */
  lemma Confined(p: string)
    requires !Denied(p)
    ensures Target(p) == "/" + Slashed(["app"] + Place(p))
    ensures Inside(Target(p))
    ensures Parts(Target(p)) == ["app"] + Place(p) && ".." !in Split(Target(p))
    ensures Walk([], Split(Target(p))) == ["app"] + Place(p)
  {
    var all := ["app"] + Parts(p);
    TargetParts(p);
    AcceptedParts(p);
    RootIsNormal(Parts(p));
    SplitRender(true, all);
    PartsOfRender(true, all);
    CleanKeepsMeaning(Target(p), []);
    WalkDown([], all);
    if Parts(p) != [] {
      assert all[1..] == Parts(p);
      assert Target(p) == ROOT + "/" + Slashed(Parts(p));
    }
  }

  /** Two accepted paths stand for the same file if and only if they lead to the same place. */
  lemma SameTargetIff(p: string, q: string)
    requires !Denied(p) && !Denied(q)
    ensures Target(p) == Target(q) <==> Place(p) == Place(q)
  {
    Confined(p);
    Confined(q);
    assert (["app"] + Place(p))[1..] == Place(p);
    assert (["app"] + Place(q))[1..] == Place(q);
  }

  // ---- The tools ----

  /** How the write of a file ends: completely, not at all, or with only the first `kept` bytes stored. */
  datatype WriteEnd = Complete | OpenFails | CutShort(kept: nat)

  function Stored(content: string, end: WriteEnd): string {
    if end.CutShort? && end.kept < |content| then content[..end.kept] else content
  }

  /** The files after a run of file_writer. */
  function FilesAfter(files: map<string, string>, path: Arg, content: Arg, end: WriteEnd): map<string, string> {
    if path.Str? && content.Str? && !Denied(path.value) && !end.OpenFails?
    then files[Target(path.value) := Stored(content.value, end)]
    else files
  }

  /**
    `file_reader.Run`. `fails` says that the read fails although the file is there; `isText` decides what a
    protobuf string can hold.
   */
  function RunReader(files: map<string, string>, path: Arg, fails: bool, isText: string -> bool): ToolResult {
    if !path.Str? then BadArgument
    else if Denied(path.value) then AccessDenied
    else if fails || Target(path.value) !in files then IoError
    else if !isText(files[Target(path.value)]) then NotText
    else Text(files[Target(path.value)])
  }

  /** The directory the tools work on. */
  class Disk {
    var files: map<string, string>

    /** `ioutil.WriteFile` */
    method WriteFile(name: string, content: string, end: WriteEnd) returns (ok: bool)
      modifies this
      ensures ok <==> end.Complete?
      ensures files == if end.OpenFails? then old(files) else old(files)[name := Stored(content, end)]
    {
      ok := end.Complete?;
      if !end.OpenFails? {
        files := files[name := Stored(content, end)];
      }
    }

    /** `file_writer.Run`. A success reports the number of bytes the file now holds. */
    method RunWriter(path: Arg, content: Arg, end: WriteEnd, isText: string -> bool) returns (r: ToolResult)
      modifies this
      ensures files == FilesAfter(old(files), path, content, end)
      ensures r == BadArgument <==> !path.Str? || !content.Str?
      ensures r == AccessDenied <==> path.Str? && content.Str? && Denied(path.value)
      ensures r == AccessDenied <==> path.Str? && content.Str? && OffLimits(path.value)
      ensures r == IoError <==> path.Str? && content.Str? && !Denied(path.value) && !end.Complete?
      ensures r == NotText <==>
        path.Str? && content.Str? && !Denied(path.value) && end.Complete? && !isText(Clean(path.value))
      ensures r.Wrote? ==>
        && path.Str? && r.path == Clean(path.value)
        && Target(path.value) in files && r.bytes == |files[Target(path.value)]|
        && content.Str? && files == old(files)[PointsTo(path.value) := content.value] && r.bytes == |content.value|
      ensures r.BadArgument? || r.AccessDenied? ==> files == old(files)
      ensures r.BadArgument? || r.AccessDenied? || r.IoError? || r.NotText? || r.Wrote?
    {
      if !path.Str? || !content.Str? {
        return BadArgument;
      }
      AcceptedPath(path.value);
      var securePath := Clean(path.value);
      if HasPrefix(securePath, "..") {
        return AccessDenied;
      }
      var ok := WriteFile(Join(ROOT, securePath), content.value, end);
      if !ok {
        return IoError;
      }
      if !isText(securePath) {
        return NotText;
      }
      r := Wrote(|content.value|, securePath);
    }
  }

  /** Access is denied exactly to relative paths that climb out or begin with a dotted name. */
  ghost predicate OffLimits(p: string) {
    DottedName(p) || (!Rooted(p) && Climbs(Split(p), 0))
  }

  /** Where an accepted path points to: the place it leads to, with the directory of the tools for the root. */
  function PointsTo(p: string): string {
    "/" + Slashed(["app"] + Place(p))
  }

  lemma AcceptedPath(p: string)
    ensures Denied(p) <==> OffLimits(p)
    ensures !Denied(p) ==> Target(p) == PointsTo(p)
  {
    CheckIsExactIff(p);
    if !Denied(p) {
      Confined(p);
    }
  }

  /** What a run of file_reader answers, for every argument and every outcome of the read. */
  lemma ReaderAnswers(files: map<string, string>, path: Arg, fails: bool, isText: string -> bool)
    ensures var r := RunReader(files, path, fails, isText);
      if !path.Str? then r == BadArgument
      else if OffLimits(path.value) then r == AccessDenied
      else if fails || PointsTo(path.value) !in files then r == IoError
      else if !isText(files[PointsTo(path.value)]) then r == NotText
      else r == Text(files[PointsTo(path.value)])
  {
    if path.Str? {
      AcceptedPath(path.value);
    }
  }

  /** What a run of file_writer leaves, for every argument and every ending of the write. */
  lemma WriterLeaves(files: map<string, string>, path: Arg, content: Arg, end: WriteEnd)
    ensures var after := FilesAfter(files, path, content, end);
      if !path.Str? || !content.Str? || OffLimits(path.value) then after == files
      else match end
        case OpenFails => after == files
        case Complete => after == files[PointsTo(path.value) := content.value]
        case CutShort(kept) =>
          var kept' := if kept < |content.value| then kept else |content.value|;
          after == files[PointsTo(path.value) := content.value[..kept']]
  {
    if path.Str? {
      AcceptedPath(path.value);
    }
    if content.Str? {
      assert content.value[..|content.value|] == content.value;
    }
  }

  /**
    Round trip: after a complete write through `p`, a read through any `q` that leads to the same place returns
    the content, and a read through any other path returns what it returned before.
   */
  lemma WriteThenRead(files: map<string, string>, p: string, q: string, content: string, isText: string -> bool)
    requires !Denied(p) && !Denied(q) && isText(content)
    ensures RunReader(FilesAfter(files, Str(p), Str(content), Complete), Str(q), false, isText) ==
      if Place(p) == Place(q) then Text(content) else RunReader(files, Str(q), false, isText)
  {
    SameTargetIff(p, q);
  }

  /** However a write ends, it can only change what is read back at the place it was for. */
  lemma WriteIsLocal(
      files: map<string, string>, p: Arg, q: string, content: Arg, end: WriteEnd, fails: bool, isText: string -> bool)
    requires p.Str? && !Denied(p.value) && !Denied(q) ==> Place(p.value) != Place(q)
    ensures RunReader(FilesAfter(files, p, content, end), Str(q), fails, isText)
         == RunReader(files, Str(q), fails, isText)
  {
    if p.Str? && !Denied(p.value) && !Denied(q) {
      SameTargetIff(p.value, q);
    }
  }

  /** A leading slash makes no difference to a path that stays inside. */
  lemma SlashMakesNoDifference(p: string)
    requires !Rooted(p) && !Denied(p)
    ensures !Denied("/" + p) && Target("/" + p) == Target(p)
  {
    assert "/" + p == "" + "/" + p;
    SplitAfterSlash("", p);
    WalkAppend([], [""], Split(p));
    DeniedByFirstPart("/" + p);
    SameTargetIff("/" + p, p);
  }

  // ---- list_directory ----

  datatype FileInfo = FileInfo(name: string, isDir: bool)

  /** The path argument of list_directory: absent means `.`, and another kind of value reads as the empty string. */
  function PathArg(path: Arg): string {
    match path
    case Missing => "."
    case NotString => ""
    case Str(p) => p
  }

  function Label(f: FileInfo): string {
    if f.isDir then f.name + "/" else f.name
  }

  function Labels(fs: seq<FileInfo>): seq<string> {
    seq(|fs|, i requires 0 <= i < |fs| => Label(fs[i]))
  }

  /** The entry loop. */
  method ListEntries(fs: seq<FileInfo>) returns (entries: seq<string>)
    ensures entries == Labels(fs)
  {
    entries := [];
    for i := 0 to |fs|
      invariant entries == Labels(fs[..i])
    {
      var entry := fs[i].name;
      if fs[i].isDir {
        entry := entry + "/";
      }
      entries := entries + [entry];
    }
    assert fs[..|fs|] == fs;
  }

  /** What a run of list_directory comes to; `listing` is what reading a directory gives. */
  function ListResult(path: Arg, listing: map<string, seq<FileInfo>>, isText: string -> bool): ToolResult {
    var p := PathArg(path);
    if Denied(p) then AccessDenied
    else if Target(p) !in listing then IoError
    else if exists l <- Labels(listing[Target(p)]) :: !isText(l) then NotText
    else Entries(Labels(listing[Target(p)]))
  }

  /**
    What a run of list_directory owes its caller. Access is denied exactly to relative paths that climb out or begin
    with a dotted name. Any other path is answered from the directory at the place it leads to: with one entry per
    file, in order, a directory's with a slash; or with an error, if there is no such directory or a name is not
    text.
   */
  ghost predicate ListsRight(
      p: string, listing: map<string, seq<FileInfo>>, isText: string -> bool, r: ToolResult)
  {
    && (r == AccessDenied || r == IoError || r == NotText || r.Entries?)
    && (r == AccessDenied <==> OffLimits(p))
    && (r == IoError ==> PointsTo(p) !in listing)
    && (r == NotText ==> PointsTo(p) in listing && exists f <- listing[PointsTo(p)] :: !isText(Label(f)))
    && (r.Entries? ==>
          && PointsTo(p) in listing && |r.names| == |listing[PointsTo(p)]|
          && forall i | 0 <= i < |r.names| ::
               var f := listing[PointsTo(p)][i];
               isText(r.names[i]) && r.names[i] == f.name + if f.isDir then "/" else "")
  }

  lemma LabelOf(fs: seq<FileInfo>, l: string)
    requires l in Labels(fs)
    ensures exists f <- fs :: Label(f) == l
  {
    var i :| 0 <= i < |fs| && Labels(fs)[i] == l;
    assert fs[i] in fs && Label(fs[i]) == l;
  }

  lemma ListResultIsRight(path: Arg, listing: map<string, seq<FileInfo>>, isText: string -> bool)
    ensures ListsRight(PathArg(path), listing, isText, ListResult(path, listing, isText))
  {
    var p, r := PathArg(path), ListResult(path, listing, isText);
    CheckIsExactIff(p);
    if !Denied(p) {
      Confined(p);
      if r == NotText {
        var l :| l in Labels(listing[Target(p)]) && !isText(l);
        LabelOf(listing[Target(p)], l);
      }
    }
  }

  /** `list_directory.Run`. A path argument is listed as it is, a missing one as `.`, any other value as ``. */
  method RunList(path: Arg, listing: map<string, seq<FileInfo>>, isText: string -> bool) returns (r: ToolResult)
    ensures r == ListResult(path, listing, isText)
    ensures path.Str? ==> ListsRight(path.value, listing, isText, r)
    ensures path.Missing? ==> ListsRight(".", listing, isText, r)
    ensures path.NotString? ==> ListsRight("", listing, isText, r)
  {
    ListResultIsRight(path, listing, isText);
    var pathArg := if path.Missing? then "." else if path.Str? then path.value else "";
    var securePath := Clean(pathArg);
    if HasPrefix(securePath, "..") {
      return AccessDenied;
    }
    var absPath := Join(ROOT, securePath);
    if absPath !in listing {
      return IoError;
    }
    var entries := ListEntries(listing[absPath]);
    if exists l <- entries :: !isText(l) {
      return NotText;
    }
    r := Entries(entries);
  }

  /** Accepted paths that lead to the same place list alike, however they are written. */
  lemma SamePlaceListsAlike(p: string, q: string, listing: map<string, seq<FileInfo>>, isText: string -> bool)
    requires !OffLimits(p) && !OffLimits(q) && Place(p) == Place(q)
    ensures ListResult(Str(p), listing, isText) == ListResult(Str(q), listing, isText)
  {
    AcceptedPath(p);
    AcceptedPath(q);
    SameTargetIff(p, q);
  }

  ghost predicate SameInside<T(!new)>(a: map<string, T>, b: map<string, T>) {
    forall name | Inside(name) :: (name in a <==> name in b) && (name in a ==> a[name] == b[name])
  }

  /**
    Isolation: whatever the arguments, what lies outside the directory of the tools decides no result of reading
    or listing.
   */
  lemma OutsideIsNotRead(
      path: Arg, fails: bool, isText: string -> bool, files: map<string, string>, files': map<string, string>,
      listing: map<string, seq<FileInfo>>, listing': map<string, seq<FileInfo>>)
    requires SameInside(files, files') && SameInside(listing, listing')
    ensures RunReader(files, path, fails, isText) == RunReader(files', path, fails, isText)
    ensures ListResult(path, listing, isText) == ListResult(path, listing', isText)
  {
    if path.Str? && !Denied(path.value) {
      Confined(path.value);
    }
    if !Denied(PathArg(path)) {
      Confined(PathArg(path));
    }
  }

  /** However a write ends, it changes nothing outside the directory of the tools. */
  lemma OutsideIsNotWritten(files: map<string, string>, path: Arg, content: Arg, end: WriteEnd, name: string)
    requires !Inside(name)
    ensures var after := FilesAfter(files, path, content, end);
      (name in after <==> name in files) && (name in files ==> after[name] == files[name])
  {
    if path.Str? && !Denied(path.value) {
      Confined(path.value);
    }
  }

  /**
    File names hold no slash, so a listing can be read back from its entries: nothing is dropped, reordered or
    confused.
   */
  lemma ListingIsFaithful(fs: seq<FileInfo>, gs: seq<FileInfo>)
    requires forall f <- fs :: '/' !in f.name
    requires forall g <- gs :: '/' !in g.name
    ensures Labels(fs) == Labels(gs) <==> fs == gs
  {
    if Labels(fs) == Labels(gs) {
      assert |Labels(fs)| == |Labels(gs)|;
      forall i | 0 <= i < |fs| ensures fs[i] == gs[i] {
        assert Labels(fs)[i] == Labels(gs)[i];
        LabelIsFaithful(fs[i], gs[i]);
      }
    }
  }

  lemma LabelIsFaithful(f: FileInfo, g: FileInfo)
    requires '/' !in f.name && '/' !in g.name && Label(f) == Label(g)
    ensures f == g
  {
    if f.isDir {
      assert '/' in Label(f);
      assert g.isDir;
      assert Label(f)[..|f.name|] == Label(g)[..|g.name|];
    }
  }

  /** Without a path argument, or with one that is not a string, the directory of the tools itself is listed. */
  lemma DefaultIsRoot()
    ensures Target(PathArg(Missing)) == ROOT && Target(PathArg(NotString)) == ROOT
    ensures !Denied(PathArg(Missing)) && !Denied(PathArg(NotString))
  {
    SplitOne(".");
    SplitOne("");
    assert Parts(".") == [] && Parts("") == [];
    DeniedByFirstPart(".");
    DeniedByFirstPart("");
    Confined(".");
    Confined("");
    AcceptedParts(".");
    AcceptedParts("");
    assert Slashed(["app"]) == "app";
  }
}
