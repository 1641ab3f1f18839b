/**
  Lexical path processing as the file tools and the server use it: `filepath.Clean`, `Join` and `Dir` with Unix
  separators. A Go string is a string of bytes; each `char` here is one byte.

  The reference for what a path means is `Walk`: following its components from a directory, in a tree without
  symbolic links, where the parent of the root is the root.
 */
module Paths {

  predicate Rooted(p: string) {
    p != "" && p[0] == '/'
  }

  predicate HasPrefix(s: string, prefix: string) {
    prefix <= s
  }

  /** The stretches between slashes, empty ones included. */
  function Split(p: string): (cs: seq<string>)
    ensures cs != []
  {
    if p == "" then [""]
    else
      var rest := Split(p[1..]);
      if p[0] == '/' then [""] + rest else [[p[0]] + rest[0]] + rest[1..]
  }

  function Slashed(cs: seq<string>): string {
    if cs == [] then ""
    else if |cs| == 1 then cs[0]
    else cs[0] + "/" + Slashed(cs[1..])
  }

  /** One component on the stack of components kept so far. */
  function Push(rooted: bool, stack: seq<string>, c: string): seq<string> {
    if c == "" || c == "." then stack
    else if c != ".." then stack + [c]
    else if stack != [] && stack[|stack| - 1] != ".." then stack[..|stack| - 1]
    else if rooted then stack
    else stack + [".."]
  }

  function Resolve(rooted: bool, stack: seq<string>, cs: seq<string>): seq<string>
    decreases |cs|
  {
    if cs == [] then stack else Resolve(rooted, Push(rooted, stack, cs[0]), cs[1..])
  }

  function Render(rooted: bool, stack: seq<string>): string {
    if rooted then "/" + Slashed(stack)
    else if stack == [] then "."
    else Slashed(stack)
  }

  /** The components that cleaning a path leaves. */
  function Parts(p: string): seq<string> {
    Resolve(Rooted(p), [], Split(p))
  }

  /** `filepath.Clean` */
  function Clean(p: string): string {
    Render(Rooted(p), Parts(p))
  }

  /** `filepath.Join` of two elements; an empty element is ignored. */
  function Join(a: string, b: string): string {
    if a == "" then (if b == "" then "" else Clean(b))
    else if b == "" then Clean(a)
    else Clean(a + "/" + b)
  }

  function Enter(dir: seq<string>, c: string): seq<string> {
    if c == "" || c == "." then dir
    else if c != ".." then dir + [c]
    else if dir == [] then []
    else dir[..|dir| - 1]
  }

  /** The directory reached from `dir` by following the components one by one. */
  function Walk(dir: seq<string>, cs: seq<string>): seq<string>
    decreases |cs|
  {
    if cs == [] then dir else Walk(Enter(dir, cs[0]), cs[1..])
  }

  /** Where a path leads from the root of the file system, or from a directory taken for the root. */
  function Place(p: string): seq<string> {
    Walk([], Split(p))
  }

  predicate Plain(c: string) {
    c != "" && c != "." && '/' !in c
  }

  /** What cleaning leaves: plain components, with every `..` in front, and none at all below the root. */
  ghost predicate Normal(rooted: bool, stack: seq<string>) {
    && (forall c <- stack :: Plain(c))
    && (rooted ==> ".." !in stack)
    && (forall i, j | 0 <= i < j < |stack| :: stack[j] == ".." ==> stack[i] == "..")
  }

  lemma {:induction false} SplitHasNoSlash(p: string)
    ensures forall c <- Split(p) :: '/' !in c
  {
    if p != "" {
      var rest := Split(p[1..]);
      SplitHasNoSlash(p[1..]);
      forall c <- Split(p) ensures '/' !in c {
        assert rest[0] in rest;
        if c !in rest && p[0] != '/' {
          assert c == [p[0]] + rest[0];
        }
      }
    }
  }

  lemma {:induction false} SplitAfterSlash(c: string, rest: string)
    requires '/' !in c
    ensures Split(c + "/" + rest) == [c] + Split(rest)
  {
    if c == "" {
      assert c + "/" + rest == "/" + rest && ("/" + rest)[1..] == rest;
    } else {
      SplitAfterSlash(c[1..], rest);
      assert c[0] in c && c == [c[0]] + c[1..];
      assert ([c[1..]] + Split(rest))[1..] == Split(rest);
      assert (c + "/" + rest)[1..] == c[1..] + "/" + rest;
    }
  }

  lemma {:induction false} SplitOne(c: string)
    requires '/' !in c
    ensures Split(c) == [c]
  {
    if c != "" {
      SplitOne(c[1..]);
      assert [c[0]] + c[1..] == c;
    }
  }

  /** Splitting takes apart what joining with slashes put together. */
  lemma {:induction false} SplitSlashed(cs: seq<string>)
    requires cs != [] && forall c <- cs :: '/' !in c
    ensures Split(Slashed(cs)) == cs
  {
    if |cs| == 1 {
      SplitOne(cs[0]);
    } else {
      SplitSlashed(cs[1..]);
      SplitAfterSlash(cs[0], Slashed(cs[1..]));
    }
  }

  lemma PushKeepsNormal(rooted: bool, stack: seq<string>, c: string)
    requires Normal(rooted, stack) && '/' !in c
    ensures Normal(rooted, Push(rooted, stack, c))
  {
    if c == ".." && !rooted && (stack == [] || stack[|stack| - 1] == "..") {
      assert forall i | 0 <= i < |stack| :: stack[i] == "..";
    }
  }

  lemma {:induction false} ResolveIsNormal(rooted: bool, stack: seq<string>, cs: seq<string>)
    requires Normal(rooted, stack) && forall c <- cs :: '/' !in c
    ensures Normal(rooted, Resolve(rooted, stack, cs))
    decreases |cs|
  {
    if cs != [] {
      PushKeepsNormal(rooted, stack, cs[0]);
      ResolveIsNormal(rooted, Push(rooted, stack, cs[0]), cs[1..]);
    }
  }

  lemma PartsAreNormal(p: string)
    ensures Normal(Rooted(p), Parts(p))
  {
    SplitHasNoSlash(p);
    ResolveIsNormal(Rooted(p), [], Split(p));
  }

  lemma {:induction false} ResolveAppend(rooted: bool, stack: seq<string>, a: seq<string>, b: seq<string>)
    ensures Resolve(rooted, stack, a + b) == Resolve(rooted, Resolve(rooted, stack, a), b)
    decreases |a|
  {
    if a == [] {
      assert a + b == b;
    } else {
      ResolveAppend(rooted, Push(rooted, stack, a[0]), a[1..], b);
      assert (a + b)[1..] == a[1..] + b;
    }
  }

  lemma {:induction false} WalkAppend(dir: seq<string>, a: seq<string>, b: seq<string>)
    ensures Walk(dir, a + b) == Walk(Walk(dir, a), b)
    decreases |a|
  {
    if a == [] {
      assert a + b == b;
    } else {
      WalkAppend(Enter(dir, a[0]), a[1..], b);
      assert (a + b)[1..] == a[1..] + b;
    }
  }

  lemma WalkLast(dir: seq<string>, cs: seq<string>, c: string)
    ensures Walk(dir, cs + [c]) == Enter(Walk(dir, cs), c)
  {
    WalkAppend(dir, cs, [c]);
  }

  /** A normal stack resolves to itself on top of any stack it can be put on. */
  lemma {:induction false} ResolveNormal(rooted: bool, stack: seq<string>, cs: seq<string>)
    requires Normal(rooted, stack + cs)
    ensures Resolve(rooted, stack, cs) == stack + cs
    decreases |cs|
  {
    if cs != [] {
      assert (stack + cs)[|stack|] == cs[0];
      assert cs[0] in stack + cs;
      assert cs[0] == ".." && stack != [] ==> (stack + cs)[|stack| - 1] == "..";
      assert stack + [cs[0]] + cs[1..] == stack + cs;
      ResolveNormal(rooted, stack + [cs[0]], cs[1..]);
    }
  }

  /** The components of a cleaned path are the parts it was built from, apart from ones that mean nothing. */
  lemma SplitRender(rooted: bool, stack: seq<string>)
    requires Normal(rooted, stack)
    ensures Split(Render(rooted, stack)) ==
      if rooted then [""] + (if stack == [] then [""] else stack)
      else if stack == [] then ["."] else stack
    ensures Rooted(Render(rooted, stack)) == rooted
  {
    if stack != [] {
      SplitSlashed(stack);
      assert stack[0] in stack;
      assert |stack| > 1 ==> Slashed(stack)[0] == stack[0][0];
      assert stack[0][0] in stack[0];
    }
    if rooted {
      assert Render(rooted, stack) == "" + "/" + Slashed(stack);
      SplitAfterSlash("", Slashed(stack));
    } else if stack == [] {
      SplitOne(".");
    }
  }

  lemma PartsOfRender(rooted: bool, stack: seq<string>)
    requires Normal(rooted, stack)
    ensures Parts(Render(rooted, stack)) == stack
    ensures Clean(Render(rooted, stack)) == Render(rooted, stack)
  {
    SplitRender(rooted, stack);
    if stack != [] {
      ResolveNormal(rooted, [], stack);
      assert [] + stack == stack;
    }
    if rooted {
      ResolveAppend(rooted, [], [""], if stack == [] then [""] else stack);
    }
  }

  /** Cleaning is idempotent, and a cleaned path determines its parts. */
  lemma CleanIdempotent(p: string)
    ensures Clean(Clean(p)) == Clean(p)
    ensures Parts(Clean(p)) == Parts(p) && Rooted(Clean(p)) == Rooted(p)
  {
    PartsAreNormal(p);
    PartsOfRender(Rooted(p), Parts(p));
    SplitRender(Rooted(p), Parts(p));
  }

  lemma PushWalks(rooted: bool, stack: seq<string>, c: string, dir: seq<string>)
    requires Normal(rooted, stack) && (rooted ==> dir == [])
    ensures Walk(dir, Push(rooted, stack, c)) == Enter(Walk(dir, stack), c)
  {
    if stack != [] {
      var front, last := stack[..|stack| - 1], stack[|stack| - 1];
      assert front + [last] == stack;
      assert last in stack;
      WalkLast(dir, front, last);
    }
    WalkLast(dir, stack, c);
  }

  lemma {:induction false} ResolveWalks(rooted: bool, stack: seq<string>, cs: seq<string>, dir: seq<string>)
    requires Normal(rooted, stack) && (rooted ==> dir == []) && forall c <- cs :: '/' !in c
    ensures Walk(dir, Resolve(rooted, stack, cs)) == Walk(Walk(dir, stack), cs)
    decreases |cs|
  {
    if cs != [] {
      PushKeepsNormal(rooted, stack, cs[0]);
      PushWalks(rooted, stack, cs[0], dir);
      ResolveWalks(rooted, Push(rooted, stack, cs[0]), cs[1..], dir);
    }
  }

  /**
    Cleaning keeps the meaning of a path: followed from any directory (from the root, if it is rooted), the
    cleaned path leads where the path leads.
   */
  lemma CleanKeepsMeaning(p: string, dir: seq<string>)
    requires Rooted(p) ==> dir == []
    ensures Walk(dir, Split(Clean(p))) == Walk(dir, Split(p))
    ensures Walk(dir, Parts(p)) == Walk(dir, Split(p))
  {
    SplitHasNoSlash(p);
    ResolveWalks(Rooted(p), [], Split(p), dir);
    PartsAreNormal(p);
    SplitRender(Rooted(p), Parts(p));
    if Rooted(p) {
      WalkAppend(dir, [""], if Parts(p) == [] then [""] else Parts(p));
    }
  }

  /** Components that go nowhere up are simply entered. */
  lemma {:induction false} WalkDown(dir: seq<string>, cs: seq<string>)
    requires forall c <- cs :: Plain(c) && c != ".."
    ensures Walk(dir, cs) == dir + cs
    decreases |cs|
  {
    if cs != [] {
      assert cs[0] in cs;
      WalkDown(dir + [cs[0]], cs[1..]);
      assert dir + [cs[0]] + cs[1..] == dir + cs;
    }
  }

  // ---- Paths that climb out of the directory they start in ----

  function Height(c: string): int {
    if c == "" || c == "." then 0 else if c == ".." then -1 else 1
  }

  /** Names entered minus parents taken. */
  function Depth(cs: seq<string>): int {
    if cs == [] then 0 else Height(cs[0]) + Depth(cs[1..])
  }

  /** At some point the path has taken more parents than it has entered names. */
  ghost predicate Climbs(cs: seq<string>, start: nat) {
    exists k: nat | k <= |cs| :: start + Depth(cs[..k]) < 0
  }

  lemma ClimbsStep(cs: seq<string>, start: nat)
    requires cs != []
    ensures start + Height(cs[0]) >= 0 ==> (Climbs(cs, start) <==> Climbs(cs[1..], start + Height(cs[0])))
    ensures start + Height(cs[0]) < 0 ==> Climbs(cs, start)
  {
    assert cs[..1] == [cs[0]];
    if Climbs(cs, start) {
      var k: nat :| k <= |cs| && start + Depth(cs[..k]) < 0;
      assert k > 0 && cs[..k][1..] == cs[1..][..k - 1];
    }
    if start + Height(cs[0]) >= 0 && Climbs(cs[1..], start + Height(cs[0])) {
      var k: nat :| k <= |cs[1..]| && start + Height(cs[0]) + Depth(cs[1..][..k]) < 0;
      assert cs[..k + 1][1..] == cs[1..][..k];
    }
    if start + Height(cs[0]) < 0 {
      assert start + Depth(cs[..1]) < 0;
    }
  }

  lemma {:induction false} DotsStay(stack: seq<string>, cs: seq<string>)
    requires Normal(false, stack) && ".." in stack && forall c <- cs :: '/' !in c
    ensures ".." in Resolve(false, stack, cs)
    decreases |cs|
  {
    if cs != [] {
      PushKeepsNormal(false, stack, cs[0]);
      assert stack[0] == "..";
      assert ".." in Push(false, stack, cs[0]) by {
        assert Push(false, stack, cs[0])[0] == "..";
      }
      DotsStay(Push(false, stack, cs[0]), cs[1..]);
    }
  }

  lemma {:induction false} ResolveClimbs(stack: seq<string>, cs: seq<string>)
    requires Normal(false, stack) && ".." !in stack && forall c <- cs :: '/' !in c
    ensures ".." in Resolve(false, stack, cs) <==> Climbs(cs, |stack|)
    decreases |cs|
  {
    if cs == [] {
      assert cs[..0] == [];
    } else {
      var c, next := cs[0], Push(false, stack, cs[0]);
      PushKeepsNormal(false, stack, c);
      ClimbsStep(cs, |stack|);
      if ".." in next {
        assert c == ".." && stack == [];
        DotsStay(next, cs[1..]);
      } else {
        assert |next| == |stack| + Height(c);
        ResolveClimbs(next, cs[1..]);
      }
    }
  }

  /** A relative path keeps a `..` when cleaned if and only if it climbs out of its starting directory on the way. */
  lemma DotsLeftIffClimbs(p: string)
    requires !Rooted(p)
    ensures ".." in Parts(p) <==> Climbs(Split(p), 0)
    ensures ".." in Parts(p) <==> Parts(p) != [] && Parts(p)[0] == ".."
  {
    SplitHasNoSlash(p);
    ResolveClimbs([], Split(p));
    PartsAreNormal(p);
  }
}
