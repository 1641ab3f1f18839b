/** `findProjectRoot`: the upward search for the directory that holds `go.work`. */
module ProjectRoot {
  import opened Wrappers
  import opened Paths

  const MARKER := "go.work"

  /** The text up to and including the last slash. */
  function UpToSlash(p: string): string {
    if p == "" || p[|p| - 1] == '/' then p else UpToSlash(p[..|p| - 1])
  }

  /** `filepath.Dir` */
  function Dir(p: string): string {
    Clean(UpToSlash(p))
  }

  function Front<T>(xs: seq<T>): seq<T>
    requires xs != []
  {
    xs[..|xs| - 1]
  }

  lemma {:induction false} SplitAppendSlash(p: string)
    ensures Split(p + "/") == Split(p) + [""]
  {
    if p != "" {
      SplitAppendSlash(p[1..]);
      assert (p + "/")[1..] == p[1..] + "/";
    } else {
      assert p + "/" == "/" && "/"[1..] == "";
    }
  }

  lemma {:induction false} SplitAppendName(p: string, name: string)
    requires '/' !in name
    ensures Split(p + "/" + name) == Split(p) + [name]
  {
    if p == "" {
      SplitAfterSlash("", name);
      SplitOne(name);
    } else {
      SplitAppendName(p[1..], name);
      assert (p + "/" + name)[1..] == p[1..] + "/" + name;
    }
  }

  /** Cutting at the last slash replaces the last component by an empty one. */
  lemma {:induction false} SplitUpToSlash(p: string)
    ensures Split(UpToSlash(p)) == Front(Split(p)) + [""]
    ensures Rooted(UpToSlash(p)) == Rooted(p)
  {
    if p != "" {
      var front, c := p[..|p| - 1], p[|p| - 1];
      assert p == front + [c];
      if c == '/' {
        SplitAppendSlash(front);
      } else {
        SplitUpToSlash(front);
        SplitAppendChar(front, c);
      }
    }
  }

  /** A character that is no slash goes to the end of the last component. */
  lemma {:induction false} SplitAppendChar(p: string, c: char)
    requires c != '/'
    ensures Split(p + [c]) == Front(Split(p)) + [Split(p)[|Split(p)| - 1] + [c]]
  {
    if p != "" {
      var rest := Split(p[1..]);
      SplitAppendChar(p[1..], c);
      assert (p + [c])[1..] == p[1..] + [c];
      if p[0] == '/' {
        assert Front([""] + rest) == [""] + Front(rest);
      } else if |rest| == 1 {
        assert [p[0]] + (rest[0] + [c]) == [p[0]] + rest[0] + [c];
      } else {
        assert Front([[p[0]] + rest[0]] + rest[1..]) == [[p[0]] + rest[0]] + Front(rest)[1..];
        assert Split(p + [c]) == [[p[0]] + rest[0]] + (Front(rest)[1..] + [rest[|rest| - 1] + [c]]);
      }
    } else {
      SplitOne([c]);
      assert p + [c] == [c];
    }
  }

  /** `Dir` forgets the last component and cleans what is left. */
  lemma DirParts(p: string)
    ensures Dir(p) == Render(Rooted(p), Resolve(Rooted(p), [], Front(Split(p))))
    ensures Normal(Rooted(p), Resolve(Rooted(p), [], Front(Split(p))))
  {
    SplitUpToSlash(p);
    ResolveAppend(Rooted(p), [], Front(Split(p)), [""]);
    SplitHasNoSlash(p);
    ResolveIsNormal(Rooted(p), [], Front(Split(p)));
  }

  lemma NormalFront(rooted: bool, stack: seq<string>)
    requires Normal(rooted, stack) && stack != []
    ensures Normal(rooted, Front(stack))
  {
  }

  /** Without its last component, a cleaned path resolves to its parts but the last. */
  lemma ResolveFront(rooted: bool, stack: seq<string>)
    requires Normal(rooted, stack)
    ensures Resolve(rooted, [], Front(Split(Render(rooted, stack)))) == if stack == [] then [] else Front(stack)
  {
    var cs := Split(Render(rooted, stack));
    SplitRender(rooted, stack);
    if stack == [] {
      assert Front(cs) == if rooted then [""] else [];
    } else {
      var front := Front(stack);
      NormalFront(rooted, stack);
      assert [] + front == front;
      ResolveNormal(rooted, [], front);
      if rooted {
        assert Front(cs) == [""] + front;
        ResolveAppend(true, [], [""], front);
      } else {
        assert Front(cs) == front;
      }
    }
  }

  /** On a cleaned path `Dir` drops the last part, and at the top it stays where it is. */
  lemma DirOfRender(rooted: bool, stack: seq<string>)
    requires Normal(rooted, stack)
    ensures Dir(Render(rooted, stack)) == Render(rooted, if stack == [] then [] else Front(stack))
  {
    DirParts(Render(rooted, stack));
    SplitRender(rooted, stack);
    ResolveFront(rooted, stack);
  }

  /** How many more directories there are to go up; the first step from a path that is not clean counts extra. */
  function Distance(p: string): nat {
    if p == Clean(p) then |Parts(p)| else |Resolve(Rooted(p), [], Front(Split(p)))| + 1
  }

  /** Going up brings the search nearer to its end, until `Dir` gives back what it was given. */
  lemma DirGetsCloser(p: string)
    requires Dir(p) != p
    ensures Distance(Dir(p)) < Distance(p)
  {
    DirParts(p);
    PartsOfRender(Rooted(p), Resolve(Rooted(p), [], Front(Split(p))));
    PartsAreNormal(p);
    if p == Clean(p) {
      DirOfRender(Rooted(p), Parts(p));
      if Parts(p) != [] {
        NormalFront(Rooted(p), Parts(p));
        PartsOfRender(Rooted(p), Front(Parts(p)));
      }
    }
  }

  function Iterate<T>(f: T -> T, x: T, k: nat): T
    decreases k
  {
    if k == 0 then x else Iterate(f, f(x), k - 1)
  }

  lemma {:induction false} IterateStep<T>(f: T -> T, x: T, k: nat)
    ensures Iterate(f, x, k + 1) == f(Iterate(f, x, k))
    decreases k
  {
    if k > 0 {
      IterateStep(f, f(x), k - 1);
    }
  }

  lemma {:induction false} IterateFixed<T>(f: T -> T, x: T, k: nat, j: nat)
    requires f(Iterate(f, x, k)) == Iterate(f, x, k) && k <= j
    ensures Iterate(f, x, j) == Iterate(f, x, k)
    decreases j
  {
    if k < j {
      IterateFixed(f, x, k, j - 1);
      IterateStep(f, x, j - 1);
    }
  }

  /** The directory `k` steps up. */
  function Up(p: string, k: nat): string {
    Iterate(Dir, p, k)
  }

  predicate Marked(has: string -> bool, dir: string) {
    has(Join(dir, MARKER))
  }

  /** What is looked for: the entry `go.work` of the directory, wherever its path is followed from. */
  lemma MarkerIsInside(dir: string, cwd: seq<string>)
    requires Rooted(dir) ==> cwd == []
    ensures Walk(cwd, Split(Join(dir, MARKER))) == Walk(cwd, Split(dir)) + ["go.work"]
    ensures forall has: string -> bool :: Marked(has, dir) <==> has(Join(dir, "go.work"))
  {
    var plain := "go.work";
    assert '/' !in plain;
    SplitOne(plain);
    WalkLast(cwd, Split(dir), plain);
    if dir == "" {
      CleanKeepsMeaning(plain, cwd);
    } else {
      SplitAppendName(dir, plain);
      CleanKeepsMeaning(dir + "/" + plain, cwd);
    }
  }

  ghost predicate NoneBelow(p: string, has: string -> bool, k: nat) {
    forall j: nat | j < k :: !Marked(has, Up(p, j))
  }

  /** The `k`-th directory up is the first marked one. */
  ghost predicate FoundAt(p: string, has: string -> bool, k: nat) {
    Marked(has, Up(p, k)) && NoneBelow(p, has, k)
  }

  ghost predicate NoneAtAll(p: string, has: string -> bool) {
    forall k: nat :: !Marked(has, Up(p, k))
  }

  /** Nothing new comes after a directory that is its own parent. */
  lemma NothingAboveFixed(p: string, has: string -> bool, k: nat)
    requires Dir(Up(p, k)) == Up(p, k) && NoneBelow(p, has, k + 1)
    ensures NoneAtAll(p, has)
  {
    forall j: nat ensures !Marked(has, Up(p, j)) {
      if j > k { IterateFixed(Dir, p, k, j); }
    }
  }

  /** An unmarked directory is passed by, for its parent if it has one. */
  lemma GoUp(p: string, has: string -> bool, dir: string, k: nat)
    requires dir == Up(p, k) && NoneBelow(p, has, k) && !Marked(has, dir)
    ensures NoneBelow(p, has, k + 1) && Up(p, k + 1) == Dir(dir)
    ensures if Dir(dir) == dir then NoneAtAll(p, has) else Distance(Dir(dir)) < Distance(dir)
  {
    IterateStep(Dir, p, k);
    if Dir(dir) == dir {
      NothingAboveFixed(p, has, k);
    } else {
      DirGetsCloser(dir);
    }
  }

  /**
    The loop. It ends for every start path, with the first marked directory on the way up, and fails exactly
    when no directory on the way up, however far, is marked.
   */
  method FindProjectRoot(startPath: string, has: string -> bool) returns (r: Option<string>)
    ensures r.Some? ==> exists k: nat :: FoundAt(startPath, has, k) && r.value == Up(startPath, k)
    ensures r.None? <==> NoneAtAll(startPath, has)
  {
    var dir := startPath;
    ghost var k: nat := 0;
    while true
      invariant dir == Up(startPath, k) && NoneBelow(startPath, has, k)
      decreases Distance(dir)
    {
      if has(Join(dir, MARKER)) {
        assert FoundAt(startPath, has, k);
        return Some(dir);
      }
      GoUp(startPath, has, dir, k);
      var parentDir := Dir(dir);
      if parentDir == dir {
        return None;
      }
      dir, k := parentDir, k + 1;
    }
  }

  /** The first parts of a stack, without the last `k`. */
  function Without(stack: seq<string>, k: nat): seq<string> {
    if k <= |stack| then stack[..|stack| - k] else []
  }

  lemma WithoutStep(rooted: bool, stack: seq<string>, k: nat)
    requires Normal(rooted, stack)
    ensures Normal(rooted, Without(stack, k))
    ensures Without(stack, k + 1) == if Without(stack, k) == [] then [] else Front(Without(stack, k))
  {
  }

  /** From a cleaned path, the directories on the way up are exactly the shorter and shorter prefixes of its parts. */
  lemma {:induction false} UpIsPrefix(rooted: bool, stack: seq<string>, k: nat)
    requires Normal(rooted, stack)
    ensures Up(Render(rooted, stack), k) == Render(rooted, Without(stack, k))
    decreases k
  {
    if k == 0 {
      assert Without(stack, 0) == stack;
    } else {
      var above := Without(stack, k - 1);
      UpIsPrefix(rooted, stack, k - 1);
      IterateStep(Dir, Render(rooted, stack), k - 1);
      WithoutStep(rooted, stack, k - 1);
      assert Up(Render(rooted, stack), k) == Dir(Render(rooted, above));
      DirOfRender(rooted, above);
    }
  }

  /**
    Nearest ancestor: from a clean absolute path, what the search finds is the longest prefix of the path that
    is marked.
   */
  lemma NearestAncestor(stack: seq<string>, has: string -> bool, k: nat)
    requires Normal(true, stack)
    requires FoundAt(Render(true, stack), has, k)
    ensures k <= |stack| && Marked(has, Render(true, stack[..|stack| - k]))
    ensures forall n: nat | |stack| - k < n <= |stack| :: !Marked(has, Render(true, stack[..n]))
  {
    UpIsPrefix(true, stack, k);
    UpIsPrefix(true, stack, |stack|);
    assert stack[..0] == [];
    forall n: nat | |stack| - k < n <= |stack| ensures !Marked(has, Render(true, stack[..n])) {
      UpIsPrefix(true, stack, |stack| - n);
    }
  }

  /** From a clean absolute path the search fails exactly if no prefix of the path is marked. */
  lemma NoneIffNoAncestor(stack: seq<string>, has: string -> bool)
    requires Normal(true, stack)
    ensures NoneAtAll(Render(true, stack), has) <==>
      forall n: nat | n <= |stack| :: !Marked(has, Render(true, stack[..n]))
  {
    if NoneAtAll(Render(true, stack), has) {
      forall n: nat | n <= |stack| ensures !Marked(has, Render(true, stack[..n])) {
        UpIsPrefix(true, stack, |stack| - n);
      }
    } else {
      var k: nat :| Marked(has, Up(Render(true, stack), k));
      UpIsPrefix(true, stack, k);
      assert stack[..0] == [];
    }
  }

  lemma PlaceOfRender(stack: seq<string>)
    requires Normal(true, stack)
    ensures Place(Render(true, stack)) == stack
  {
    SplitRender(true, stack);
    WalkAppend([], [""], if stack == [] then [""] else stack);
    WalkDown([], stack);
  }

  /** From the root, resolving components and following them is the same. */
  lemma ResolveIsWalk(cs: seq<string>)
    requires forall c <- cs :: '/' !in c
    ensures Normal(true, Resolve(true, [], cs)) && Resolve(true, [], cs) == Walk([], cs)
  {
    ResolveIsNormal(true, [], cs);
    ResolveWalks(true, [], cs, []);
    WalkDown([], Resolve(true, [], cs));
  }

  /** Where `Dir` of an absolute path leads: to where its components but the last lead. */
  lemma PlaceOfDir(p: string)
    requires Rooted(p)
    ensures Place(Dir(p)) == Walk([], Front(Split(p)))
    ensures Rooted(Dir(p)) && Clean(Dir(p)) == Dir(p)
  {
    var stack := Resolve(true, [], Front(Split(p)));
    SplitHasNoSlash(p);
    ResolveIsWalk(Front(Split(p)));
    DirParts(p);
    PlaceOfRender(stack);
    PartsOfRender(true, stack);
    SplitRender(true, stack);
  }

  lemma PlaceByLast(p: string)
    ensures Place(p) == Enter(Walk([], Front(Split(p))), Split(p)[|Split(p)| - 1])
  {
    var front, last := Front(Split(p)), Split(p)[|Split(p)| - 1];
    assert front + [last] == Split(p);
    WalkLast([], front, last);
  }

  /** The start path ends in a `..` that takes back a name. */
  predicate EndsGoingBack(p: string) {
    Split(p)[|Split(p)| - 1] == ".." && Walk([], Front(Split(p))) != []
  }

  lemma PrefixPlaces(p: string, k: nat)
    requires Rooted(p) && Clean(p) == p
    ensures Place(Up(p, k)) <= Place(p)
  {
    PartsAreNormal(p);
    UpIsPrefix(true, Parts(p), k);
    WithoutStep(true, Parts(p), k);
    PlaceOfRender(Without(Parts(p), k));
    PlaceOfRender(Parts(p));
  }

  lemma GoingBackLeaves(p: string)
    requires Rooted(p) && EndsGoingBack(p)
    ensures !(Place(Up(p, 1)) <= Place(p))
  {
    PlaceOfDir(p);
    PlaceByLast(p);
    assert Up(p, 1) == Iterate(Dir, Dir(p), 0) == Dir(p);
    assert |Place(Dir(p))| > |Place(p)|;
  }

  lemma PrefixTransitive<T>(a: seq<T>, b: seq<T>, c: seq<T>)
    requires a <= b <= c
    ensures a <= c
  {
  }

  /** The parent of a path that does not end going back is on its way. */
  lemma ParentStaysAbove(p: string)
    requires Rooted(p) && !EndsGoingBack(p)
    ensures Rooted(Dir(p)) && Clean(Dir(p)) == Dir(p) && Place(Dir(p)) <= Place(p)
  {
    PlaceOfDir(p);
    PlaceByLast(p);
  }

  lemma UpFromParent(p: string, k: nat)
    requires k > 0
    ensures Up(p, k) == Up(Dir(p), k - 1)
  {
  }

  lemma StaysAbove(place: seq<string>, q: string, k: nat)
    requires Rooted(q) && Clean(q) == q && Place(q) <= place
    ensures Place(Up(q, k)) <= place
  {
    PrefixPlaces(q, k);
    PrefixTransitive(Place(Up(q, k)), Place(q), place);
  }

  lemma OtherwiseStaysAbove(p: string, k: nat)
    requires Rooted(p) && !EndsGoingBack(p)
    ensures Place(Up(p, k)) <= Place(p)
  {
    if k > 0 {
      ParentStaysAbove(p);
      StaysAbove(Place(p), Dir(p), k - 1);
      UpFromParent(p, k);
    }
  }

  /**
    Every directory searched from an absolute path is the one it leads to or an ancestor of it, if and only if
    the path does not end in a `..` that takes back a name. The path the server starts from is clean and so
    never does.
   */
  lemma SearchStaysAboveIff(p: string)
    requires Rooted(p)
    ensures (forall k: nat :: Place(Up(p, k)) <= Place(p)) <==> !EndsGoingBack(p)
  {
    if EndsGoingBack(p) {
      GoingBackLeaves(p);
    } else {
      forall k: nat ensures Place(Up(p, k)) <= Place(p) {
        OtherwiseStaysAbove(p, k);
      }
    }
  }
}
