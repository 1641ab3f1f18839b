/**
  The MCP server object: discovery and launch of the tools, one health sweep, clean-up, and the bodies of the
  RPC handlers, each run by itself. `ServerSystem` is about handlers that run at the same time.
 */
module McpServer {
  import opened Wrappers
  import opened ServerSpec
  import opened Discovery

  /** A response message; the store and the callers of GetHumanInput share pointers to it. */
  class HumanResponse {
    var status: string
    var response: Option<Value>

    constructor (status: string, response: Option<Value>)
      ensures View() == Answer(status, response)
    {
      this.status := status;
      this.response := response;
    }

    function View(): Answer
      reads this
    {
      Answer(status, response)
    }
  }

  /** A registered tool: its description, its connection and its health. */
  class ToolClient {
    const description: Description
    const conn: nat
    var status: Status

    constructor (description: Description, conn: nat, status: Status)
      ensures this.description == description && this.conn == conn && this.status == status
    {
      this.description := description;
      this.conn := conn;
      this.status := status;
    }
  }

  class Server {
    var tools: map<string, ToolClient>
    var toolCmds: seq<nat>
    var humanInputs: map<string, HumanResponse>
    // the world outside: connections to tools, processes started and processes asked to die
    var open: set<nat>
    var dialled: nat
    var running: seq<nat>
    var killed: seq<nat>

    /** Each key of the registry is the name its tool gave, and each registered tool has its own open connection. */
    ghost predicate Valid()
      reads this, tools.Values
    {
      && (forall n <- tools :: n != "" && tools[n].description.name == n && tools[n].conn in open)
      && (forall m, n | m in tools && n in tools && m != n :: tools[m].conn != tools[n].conn)
      && (forall c <- open :: c < dialled)
      && toolCmds == running && NoRepeats(running)
      && (forall p <- running :: p < |running|)
    }

    ghost function Statuses(): (r: map<string, Status>)
      reads this, tools.Values
    {
      map n | n in tools :: tools[n].status
    }

    ghost function Descriptions(): (r: map<string, Description>)
      reads this, tools.Values
    {
      map n | n in tools :: tools[n].description
    }

    ghost function Entries(): (r: map<string, Entry>)
      reads this, tools.Values
    {
      map n | n in tools :: Entry(tools[n].description, tools[n].status)
    }

    ghost function Conns(): (r: map<string, nat>)
      reads this, tools.Values
    {
      map n | n in tools :: tools[n].conn
    }

    /** Every connection that is open belongs to a registered tool. */
    ghost predicate AllUsed()
      reads this, tools.Values
    {
      forall c <- open :: exists n <- tools :: tools[n].conn == c
    }

    ghost function Answers(): map<string, Answer>
      reads this, humanInputs.Values
    {
      map id | id in humanInputs :: humanInputs[id].View()
    }

    constructor ()
      ensures Valid() && tools == map[] && toolCmds == [] && humanInputs == map[] && open == {}
    {
      tools := map[];
      toolCmds := [];
      humanInputs := map[];
      open := {};
      dialled := 0;
      running := [];
      killed := [];
    }

    // ---- Discovery ----

    /** `grpc.NewClient`, when it succeeds. */
    method Dial() returns (conn: nat)
      requires forall c <- open :: c < dialled
      modifies `open, `dialled
      ensures conn !in old(open) && conn == old(dialled) && open == old(open) + {conn} && dialled == conn + 1
    {
      conn := dialled;
      dialled := dialled + 1;
      open := open + {conn};
    }

    /**
      The retry loop. It stops at the first description, with one more connection open, or gives up after the
      last attempt, with none.
     */
    method Connect(attempts: nat -> Attempt) returns (conn: Option<nat>, tool: Description, tries: nat)
      requires forall c <- open :: c < dialled
      modifies `open, `dialled
      ensures tries <= 15 && dialled >= old(dialled) && forall c <- open :: c < dialled
      ensures match FirstDescription(attempts, 0)
        case Some(i) => (
          && tries == i + 1 && attempts(i) == Describes(tool)
          && conn.Some? && old(dialled) <= conn.value && open == old(open) + {conn.value})
        case None => conn.None? && tries == 15 && open == old(open)
    {
      conn, tool, tries := None, Description("", ""), 0;
      for i := 0 to MAX_RETRIES
        invariant tries == i && conn.None? && dialled >= old(dialled) && open == old(open)
        invariant FirstDescription(attempts, 0) == FirstDescription(attempts, i)
      {
        tries := i + 1;
        if attempts(i).DialFails? {
          continue;
        }
        var c := Dial();
        if attempts(i).Describes? {
          conn, tool := Some(c), attempts(i).description;
          break;
        }
        open := open - {c};
      }
    }

    /** `cmd.Start`, when it succeeds. */
    method Start() returns (pid: nat)
      modifies `running
      ensures pid == |old(running)| && running == old(running) + [pid]
    {
      pid := |running|;
      running := running + [pid];
    }

    /** Whether there is a process to wait for, or none was asked for; a process that started is remembered at once. */
    method Launch(hasCommand: bool, starts: bool) returns (goOn: bool)
      requires Valid()
      modifies `toolCmds, `running
      ensures Valid()
      ensures goOn <==> (hasCommand ==> starts)
      ensures toolCmds == old(toolCmds) + if hasCommand && starts then [|old(toolCmds)|] else []
    {
      if hasCommand {
        if !starts {
          return false;
        }
        NoRepeatsStep(running, |running|);
        var pid := Start();
        toolCmds := toolCmds + [pid];
      }
      goOn := true;
    }

    /** A tool replaces whatever was registered under its name; the connection of the replaced one stays open. */
    method Register(tool: Description, conn: nat, status: Status)
      requires Valid() && tool.name != "" && conn in open
      requires forall n <- tools :: tools[n].conn != conn
      modifies `tools
      ensures Valid() && Entries() == old(Entries())[tool.name := Entry(tool, status)]
    {
      var client := new ToolClient(tool, conn, status);
      tools := tools[tool.name := client];
    }

    /** The callback for one directory. */
    method Visit(d: ToolDir)
      requires Valid()
      modifies `tools, `toolCmds, `open, `dialled, `running
      ensures Valid()
      ensures Entries() == Registered(old(Entries()), d)
      ensures old(open) <= open && |open| == |old(open)| + if Described(d).Some? then 1 else 0
      ensures toolCmds ==
        old(toolCmds) + if d.Configured? && d.hasCommand && d.starts then [|old(toolCmds)|] else []
    {
      if d.Ignored? {
        return;
      }
      var goOn := Launch(d.hasCommand, d.starts);
      if !goOn {
        return;
      }
      assert Entries() == old(Entries());
      var conn, tool, tries := Connect(d.attempts);
      assert Entries() == old(Entries());
      if conn.None? || tool.name == "" {
        return;
      }
      Register(tool, conn.value, StatusAfter(d.health));
    }

    /**
      Discovery over all directories, in the order of the walk: the registry, the open connections and the list
      of processes are what the answers of the directories call for.
     */
    method DiscoverAndRunTools(dirs: seq<ToolDir>)
      requires Valid()
      modifies `tools, `toolCmds, `open, `dialled, `running
      ensures Valid()
      ensures Entries() == Registry(old(Entries()), dirs)
      ensures |open| == |old(open)| + |Names(dirs)|
      ensures old(open == {} && tools == map[]) ==> (AllUsed() <==> NoRepeats(Names(dirs)) && "" !in Names(dirs))
      ensures old(toolCmds) <= toolCmds && |toolCmds| == |old(toolCmds)| + Launched(dirs)
    {
      for i := 0 to |dirs|
        invariant Valid()
        invariant Entries() == Registry(old(Entries()), dirs[..i])
        invariant |open| == |old(open)| + |Names(dirs[..i])|
        invariant old(toolCmds) <= toolCmds && |toolCmds| == |old(toolCmds)| + Launched(dirs[..i])
      {
        Visit(dirs[i]);
        DirsStep(old(Entries()), dirs[..i], dirs[i]);
        assert dirs[..i] + [dirs[i]] == dirs[..i + 1];
      }
      assert dirs[..|dirs|] == dirs;
      assert old(tools == map[]) ==> old(Entries()) == map[];
      NoConnectionLostIff(dirs);
      UsedIff();
    }

    /** As no two tools share a connection, all connections are used if and only if there are as many tools. */
    lemma UsedIff()
      requires Valid()
      ensures AllUsed() <==> |Entries()| == |open|
    {
      AllUsedIff(Conns(), open);
      assert Conns().Keys == Entries().Keys;
      assert |Conns()| == |Conns().Keys| && |Entries()| == |Entries().Keys|;
      forall c <- open ensures c in Conns().Values <==> exists n <- tools :: tools[n].conn == c {
        if n :| n in tools && tools[n].conn == c {
          assert Conns()[n] == c;
        }
      }
    }

    /** One kill is attempted on every process that was started, in the order of the starts. */
    method Cleanup()
      requires Valid()
      modifies `killed
      ensures killed == old(killed) + running
    {
      for i := 0 to |toolCmds|
        invariant killed == old(killed) + toolCmds[..i]
      {
        killed := killed + [toolCmds[i]];
      }
      assert toolCmds[..|toolCmds|] == toolCmds;
    }

    // ---- Health and routing ----

    /** One sweep: the status of every registered tool is set in place from the reply to its health check. */
    method HealthSweep(replies: map<string, Reply>)
      requires Valid() && tools.Keys <= replies.Keys
      modifies tools.Values
      ensures Valid()
      ensures Statuses() == Swept(old(Statuses()), replies)
      ensures forall n <- tools :: replies[n].Failed? ==> tools[n].status == NOT_SERVING
      ensures forall n <- tools, st :: replies[n] == Replied(st) ==> tools[n].status == st
    {
      var todo := tools.Keys;
      while todo != {}
        modifies tools.Values
        invariant todo <= tools.Keys
        invariant forall n <- tools ::
          tools[n].status == if n in todo then old(tools[n].status) else StatusAfter(replies[n])
        decreases todo
      {
        var name :| name in todo;
        tools[name].status := StatusAfter(replies[name]);
        todo := todo - {name};
      }
    }

    /** The descriptions of the serving tools, in whatever order the map is ranged over. */
    method ListTools() returns (list: seq<Description>)
      requires Valid()
      ensures ListsServing(list, Statuses(), Descriptions())
      ensures NoRepeats(list)
      ensures forall d :: d in list <==> exists n <- tools :: tools[n].status == SERVING && tools[n].description == d
    {
      list := [];
      var todo := tools.Keys;
      while todo != {}
        invariant todo <= tools.Keys && NoRepeats(list)
        invariant forall d :: d in list <==>
          && d.name in Serving(Statuses()) && d.name !in todo
          && d.name in Descriptions() && Descriptions()[d.name] == d
        decreases todo
      {
        var name :| name in todo;
        if tools[name].status == SERVING {
          list := list + [tools[name].description];
        }
        todo := todo - {name};
      }
      forall d ensures d in list <==> exists n <- tools :: tools[n].status == SERVING && tools[n].description == d {
        if n :| n in tools && tools[n].status == SERVING && tools[n].description == d {
          assert d.name == n && n in Statuses() && n in Descriptions();
        }
      }
    }

    /**
      `sent` is the call of Run that is made, if any: it goes to the connection of the tool that is registered
      under the name, and that gave itself this name. `reply` is what that call comes back with.
     */
    method ExecuteTool(taskId: string, name: string, args: Value, reply: RunReply)
      returns (r: ExecuteResult, sent: Option<RunCall>)
      requires Valid()
      ensures sent.Some? <==> name in tools && tools[name].status == SERVING
      ensures sent.Some? ==>
        && name in tools && tools[name].description.name == name
        && sent.value == RunCall(tools[name].conn, name, args)
      ensures sent.None? <==> r == NotFound
      ensures sent.Some? ==> r == ExecuteReturns(taskId, reply)
      ensures r == Internal <==> sent.Some? && reply == RpcFailed
      ensures forall e :: r == Aborted(e) <==> sent.Some? && reply.Response? && reply.error == e && e != ""
      ensures r.Executed? ==>
        && r.taskId == taskId && reply.Response? && reply.error == ""
        && r.result == if reply.result.Struct? then reply.result.fields else map["result" := reply.result]
    {
      if name !in tools || tools[name].status != SERVING {
        return NotFound, None;
      }
      sent := Some(RunCall(tools[name].conn, name, args));
      match reply {
        case RpcFailed => r := Internal;
        case Response(error, result) =>
          if error != "" {
            r := Aborted(error);
          } else {
            r := Executed(taskId, if result.Struct? then result.fields else map["result" := result]);
          }
      }
    }

    // ---- Human input ----

    /** A new response object is stored; no response object handed out before is touched. */
    method ProvideHumanInput(taskId: string, response: Value) returns (r: StoreResult)
      modifies `humanInputs
      ensures r == StoreReturns(old(Answers()), Provide(taskId, response))
      ensures Answers() == StoreAfter(old(Answers()), Provide(taskId, response))
      ensures forall o: HumanResponse | old(allocated(o)) :: o.View() == old(o.View())
      ensures r == InvalidArgument <==> taskId == ""
      ensures r == Received <==> taskId != ""
      ensures taskId == "" ==> humanInputs == old(humanInputs)
      ensures taskId != "" ==>
        && taskId in humanInputs && fresh(humanInputs[taskId])
        && humanInputs[taskId].View() == Answer("completed", Some(response))
        && humanInputs == old(humanInputs)[taskId := humanInputs[taskId]]
    {
      if taskId == "" {
        return InvalidArgument;
      }
      var stored := new HumanResponse("completed", Some(response));
      humanInputs := humanInputs[taskId := stored];
      r := Received;
    }

    /** The stored object itself is returned, or a new one that says `pending`. */
    method GetHumanInput(taskId: string) returns (r: Option<HumanResponse>)
      ensures r.None? <==> taskId == ""
      ensures r.None? <==> StoreReturns(Answers(), Get(taskId)) == InvalidArgument
      ensures r.Some? ==> Found(r.value.View()) == StoreReturns(Answers(), Get(taskId))
      ensures taskId in humanInputs && taskId != "" ==> r == Some(humanInputs[taskId])
      ensures taskId !in humanInputs && r.Some? ==> fresh(r.value) && r.value.View() == Answer("pending", None)
    {
      if taskId == "" {
        return None;
      }
      if taskId in humanInputs {
        return Some(humanInputs[taskId]);
      }
      var pending := new HumanResponse("pending", None);
      r := Some(pending);
    }
  }

  /** Discovery of two tools that give the same description leaves a connection open that no tool has. */
  method DiscoverTwins(tool: Description, health: Reply) returns (server: Server, lost: nat)
    ensures fresh(server) && server.Valid()
    ensures lost in server.open && forall n <- server.tools :: server.tools[n].conn != lost
  {
    server := new Server();
    TwinsShareAName(tool, health);
    server.DiscoverAndRunTools([Plain(tool, health), Plain(tool, health)]);
    lost :| lost in server.open && forall n <- server.tools :: server.tools[n].conn != lost;
  }
}
