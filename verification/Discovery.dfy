/**
  Tool discovery: what the callback of `discoverAndRunTools` achieves for one tool directory and for all of
  them, as functions of what the file system, the processes and the tools answer.
 */
module Discovery {
  import opened Wrappers
  import opened ServerSpec

  const MAX_RETRIES: nat := 15

  /** One pass of the retry loop: the client cannot be made, the description call fails, or it gets a description. */
  datatype Attempt = DialFails | DescriptionFails | Describes(description: Description)

  /** What the registry holds under a name. */
  datatype Entry = Entry(description: Description, status: Status)

  /** A directory below one of the two tool roots, with everything its visit will find. */
  datatype ToolDir =
    | Ignored  // on the skip list, or without a readable, well-formed config.json
    | Configured(hasCommand: bool, starts: bool, attempts: nat -> Attempt, health: Reply)

  predicate Launches(d: ToolDir) {
    d.Configured? && d.hasCommand && d.starts
  }

  /** The first attempt, from the given one on, that gets a description, if there is one within the limit. */
  function FirstDescription(attempts: nat -> Attempt, from: nat): Option<nat>
    decreases MAX_RETRIES - from
  {
    if from >= MAX_RETRIES then None
    else if attempts(from).Describes? then Some(from)
    else FirstDescription(attempts, from + 1)
  }

  lemma {:induction false} FirstDescriptionIsFirst(attempts: nat -> Attempt, from: nat)
    ensures match FirstDescription(attempts, from)
      case None => forall i: nat | from <= i < 15 :: !attempts(i).Describes?
      case Some(i) => (
        && from <= i < 15 && attempts(i).Describes?
        && forall j: nat | from <= j < i :: !attempts(j).Describes?)
    decreases MAX_RETRIES - from
  {
    if from < MAX_RETRIES {
      FirstDescriptionIsFirst(attempts, from + 1);
    }
  }

  /** The description of a directory's tool, if the server gets to hear it. */
  function Described(d: ToolDir): Option<Description> {
    if d.Configured? && (d.hasCommand ==> d.starts) then
      match FirstDescription(d.attempts, 0)
      case Some(i) => if d.attempts(i).Describes? then Some(d.attempts(i).description) else None
      case None => None
    else None
  }

  /** The names of the tools whose description was received, in the order of the directories. */
  function Names(dirs: seq<ToolDir>): seq<string> {
    if dirs == [] then []
    else
      var d := dirs[|dirs| - 1];
      Names(dirs[..|dirs| - 1]) + if Described(d).Some? then [Described(d).value.name] else []
  }

  function Launched(dirs: seq<ToolDir>): nat {
    if dirs == [] then 0
    else Launched(dirs[..|dirs| - 1]) + if Launches(dirs[|dirs| - 1]) then 1 else 0
  }

  /** The registry after one more directory: a later tool of the same name replaces an earlier one. */
  function Registered(m: map<string, Entry>, d: ToolDir): map<string, Entry> {
    match Described(d)
    case Some(tool) => if tool.name == "" then m else m[tool.name := Entry(tool, StatusAfter(d.health))]
    case None => m
  }

  function Registry(m: map<string, Entry>, dirs: seq<ToolDir>): map<string, Entry> {
    if dirs == [] then m else Registered(Registry(m, dirs[..|dirs| - 1]), dirs[|dirs| - 1])
  }

  lemma DirsStep(m: map<string, Entry>, dirs: seq<ToolDir>, d: ToolDir)
    ensures Registry(m, dirs + [d]) == Registered(Registry(m, dirs), d)
    ensures Names(dirs + [d]) == Names(dirs) + if Described(d).Some? then [Described(d).value.name] else []
    ensures Launched(dirs + [d]) == Launched(dirs) + if Launches(d) then 1 else 0
  {
    assert (dirs + [d])[..|dirs|] == dirs;
  }

  /**
    A directory's tool is heard of if its process starts, or none is asked for, and one of the first fifteen attempts
    gets a description; the first one that does counts.
   */
  lemma DescribedIff(d: ToolDir, tool: Description)
    ensures Described(d) == Some(tool) <==>
      && d.Configured? && (d.hasCommand ==> d.starts)
      && exists i: nat ::
           i < 15 && d.attempts(i) == Describes(tool) && forall j: nat | j < i :: !d.attempts(j).Describes?
  {
    if d.Configured? {
      FirstDescriptionIsFirst(d.attempts, 0);
    }
  }

  /**
    Under each name the registry holds the last tool that gave it: its description, and as its status what its first
    health check said, not serving if that failed.
   */
  lemma {:induction false} LastOfNameStays(dirs: seq<ToolDir>, n: string) returns (i: nat)
    requires n in Registry(map[], dirs)
    ensures i < |dirs| && dirs[i].Configured? && Described(dirs[i]).Some? && Described(dirs[i]).value.name == n
    ensures forall j | i < j < |dirs| :: Described(dirs[j]).Some? ==> Described(dirs[j]).value.name != n
    ensures Registry(map[], dirs)[n].description == Described(dirs[i]).value
    ensures dirs[i].health.Failed? ==> Registry(map[], dirs)[n].status == NOT_SERVING
    ensures forall st :: dirs[i].health == Replied(st) ==> Registry(map[], dirs)[n].status == st
    decreases |dirs|
  {
    var front, d := dirs[..|dirs| - 1], dirs[|dirs| - 1];
    if Described(d).Some? && Described(d).value.name == n {
      RegistryKeys(dirs);
      i := |dirs| - 1;
    } else {
      i := LastOfNameStays(front, n);
      assert forall j | 0 <= j < |front| :: front[j] == dirs[j];
    }
  }

  /** The directories whose process was started. */
  function Started(dirs: seq<ToolDir>): set<nat> {
    set i: nat | i < |dirs| && dirs[i].Configured? && dirs[i].hasCommand && dirs[i].starts
  }

  lemma {:induction false} LaunchesAreCounted(dirs: seq<ToolDir>)
    ensures Launched(dirs) == |Started(dirs)|
    decreases |dirs|
  {
    if dirs == [] {
      assert Started(dirs) == {};
    } else {
      var front, k := dirs[..|dirs| - 1], |dirs| - 1;
      LaunchesAreCounted(front);
      assert Started(dirs) == Started(front) + if Launches(dirs[k]) then {k} else {};
    }
  }

  predicate Gives(d: ToolDir, name: string) {
    Described(d).Some? && Described(d).value.name == name
  }

  lemma {:induction false} NamesAreGiven(dirs: seq<ToolDir>, n: string)
    ensures n in Names(dirs) <==> exists i :: 0 <= i < |dirs| && Gives(dirs[i], n)
    decreases |dirs|
  {
    if dirs != [] {
      var front, k := dirs[..|dirs| - 1], |dirs| - 1;
      NamesAreGiven(front, n);
      assert forall i | 0 <= i < k :: front[i] == dirs[i];
      if Gives(dirs[k], n) {
        assert n in Names(dirs);
      } else if i :| 0 <= i < k && Gives(front[i], n) {
        assert Gives(dirs[i], n);
      }
    }
  }

  /** The registry holds exactly the non-empty names that were heard. */
  lemma {:induction false} RegistryKeys(dirs: seq<ToolDir>)
    ensures forall n :: n in Registry(map[], dirs) <==> n in Names(dirs) && n != ""
  {
    if dirs != [] {
      RegistryKeys(dirs[..|dirs| - 1]);
    }
  }

  function Elements<T>(xs: seq<T>): set<T> {
    set x | x in xs
  }

  lemma {:induction false} ElementsCount<T>(xs: seq<T>)
    ensures |Elements(xs)| <= |xs|
    ensures |Elements(xs)| == |xs| <==> NoRepeats(xs)
  {
    if xs == [] {
      assert Elements(xs) == {};
    } else {
      var front, last := xs[..|xs| - 1], xs[|xs| - 1];
      ElementsCount(front);
      assert Elements(xs) == Elements(front) + {last};
      if last in front {
        assert Elements(xs) == Elements(front);
        var i :| 0 <= i < |front| && front[i] == last;
        assert xs[i] == xs[|xs| - 1];
      } else {
        assert forall i | 0 <= i < |front| :: xs[i] == front[i];
      }
    }
  }

  /**
    There are never more registered tools than descriptions heard. The two numbers agree if and only if no tool
    gave an empty name and no two tools gave the same one.
   */
  lemma NoConnectionLostIff(dirs: seq<ToolDir>)
    ensures |Registry(map[], dirs)| <= |Names(dirs)|
    ensures |Registry(map[], dirs)| == |Names(dirs)| <==> NoRepeats(Names(dirs)) && "" !in Names(dirs)
  {
    var names, keys := Names(dirs), Registry(map[], dirs).Keys;
    RegistryKeys(dirs);
    ElementsCount(names);
    assert keys == Elements(names) - {""};
    assert |keys| == |Registry(map[], dirs)|;
    if "" in names {
      assert keys + {""} == Elements(names);
      assert |keys| < |Elements(names)|;
    } else {
      assert keys == Elements(names);
    }
  }

  /** Different keys having different connections, all of `open` is in use if and only if the numbers agree. */
  lemma {:induction false} AllUsedIff(conns: map<string, nat>, open: set<nat>)
    requires forall n <- conns :: conns[n] in open
    requires forall m, n | m in conns && n in conns && m != n :: conns[m] != conns[n]
    ensures |conns| <= |open|
    ensures |conns| == |open| <==> forall c <- open :: c in conns.Values
    decreases |conns|
  {
    if conns == map[] {
      assert |open| == 0 <==> open == {};
    } else {
      var n :| n in conns;
      var rest := conns - {n};
      AllUsedIff(rest, open - {conns[n]});
      assert |rest| == |conns| - 1 && |open - {conns[n]}| == |open| - 1;
      assert conns.Values == rest.Values + {conns[n]} by {
        forall c | c in conns.Values ensures c in rest.Values + {conns[n]} {
          var m :| m in conns && conns[m] == c;
          assert m != n ==> m in rest && rest[m] == c;
        }
      }
    }
  }

  /** A directory whose tool starts and gives the description at the first attempt. */
  function Plain(tool: Description, health: Reply): ToolDir {
    Configured(true, true, _ => Describes(tool), health)
  }

  /** Two directories with one name: one of two connections is in nobody's hands. */
  lemma TwinsShareAName(tool: Description, health: Reply)
    ensures var dirs := [Plain(tool, health), Plain(tool, health)];
      && Names(dirs) == [tool.name, tool.name] && !NoRepeats(Names(dirs))
      && |Registry(map[], dirs)| < |Names(dirs)|
  {
    var d := Plain(tool, health);
    assert Described(d) == Some(tool);
    assert [d, d][..1] == [d] && [d][..0] == [];
    assert Names([d]) == [tool.name];
    assert Names([d, d])[0] == Names([d, d])[1];
    NoConnectionLostIff([d, d]);
  }
}
