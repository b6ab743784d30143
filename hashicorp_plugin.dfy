/**
 * The host's hashicorp plugin (hashicorp_plugin.go): how Init chooses the plugin
 * type, the command and the child's environment and reports a failed connection,
 * and the existence cache behind Has. Launching the process, connecting and
 * dispensing are the go-plugin library's; their outcomes are inputs here.
 */
module HashicorpHost {
  import opened Wrappers
  import opened Text
  import opened Env
  import opened ExistenceCache
  import GoConfig
  import FunGo

  /** The plugin type Init derives from HRP_PLUGIN_TYPE: exactly "rpc" is kept and
      anything else ("RPC" and the unset value included) becomes "grpc". */
  function PluginTypeOf(envValue: string): (t: string)
    ensures t == "rpc" <==> envValue == "rpc"
    ensures t == "rpc" || t == "grpc"
  {
    if envValue == "rpc" then "rpc" else "grpc"
  }

  /** The name Init dispenses: "debugtalk_" followed by the plugin type. */
  function DispensedName(pluginType: string): string {
    GoConfig.PluginName + "_" + pluginType
  }

  /** Only the two registered plugin names are ever dispensed, the RPC one exactly for "rpc". */
  lemma DispensedIsRegistered(envValue: string)
    ensures DispensedName(PluginTypeOf(envValue)) in {GoConfig.RpcPluginName, GoConfig.GrpcPluginName}
    ensures DispensedName(PluginTypeOf(envValue)) == GoConfig.RpcPluginName <==> envValue == "rpc"
  {
    assert DispensedName("rpc") == GoConfig.RpcPluginName;
    assert DispensedName("grpc") == GoConfig.GrpcPluginName;
    assert GoConfig.RpcPluginName != GoConfig.GrpcPluginName by {
      assert |GoConfig.RpcPluginName| != |GoConfig.GrpcPluginName|;
    }
  }

  /** The launch command: the python3 interpreter on a file named "debugtalk.py", the file itself otherwise. */
  function Command(path: string): (cmd: seq<string>)
    ensures |cmd| == 2 <==> Base(path) == GoConfig.HashicorpPyPluginFile
    ensures |cmd| == 1 || |cmd| == 2
    ensures cmd[|cmd| - 1] == path
    ensures |cmd| == 2 ==> cmd[0] == "python3"
  {
    if Base(path) == GoConfig.HashicorpPyPluginFile then ["python3", path] else [path]
  }

  /** The child's environment: the host's, with HRP_PLUGIN_TYPE=<type> appended last. */
  function ChildEnv(hostEnv: seq<string>, pluginType: string): (env: seq<string>)
    ensures |env| == |hostEnv| + 1 && env[..|hostEnv|] == hostEnv
  {
    hostEnv + [Entry(GoConfig.PluginTypeEnvName, pluginType)]
  }

  /** The child reads the plugin type the host chose, whatever the host's own environment says. */
  lemma ChildReadsPluginType(hostEnv: seq<string>, pluginType: string)
    ensures Getenv(ChildEnv(hostEnv, pluginType), GoConfig.PluginTypeEnvName) == pluginType
  {
    GetenvAppended(hostEnv, GoConfig.PluginTypeEnvName, pluginType);
  }

  /** Host and plugin agree: a Go plugin started with this environment serves net/rpc
      (fungo's Serve) exactly when the host dispenses the RPC plugin name. */
  lemma ChildServesDispensedProtocol(hostEnv: seq<string>, envValue: string)
    ensures var t := PluginTypeOf(envValue);
      FunGo.ServeMode(Getenv(ChildEnv(hostEnv, t), GoConfig.PluginTypeEnvName)) == FunGo.NetRPC
      <==> DispensedName(t) == GoConfig.RpcPluginName
  {
    ChildReadsPluginType(hostEnv, PluginTypeOf(envValue));
    DispensedIsRegistered(envValue);
  }

  /** The client configuration Init hands to plugin.NewClient. */
  datatype Launch = Launch(command: seq<string>, env: seq<string>, loggerName: string, debugLevel: bool)

  /** The errors Init returns, wrapped with the plugin type. */
  datatype InitError =
    | ConnectFailed(pluginType: string, cause: string)  // "connect <type> plugin failed: <cause>"
    | RequestFailed(pluginType: string, cause: string)  // "request <type> plugin failed: <cause>"

  function Message(e: InitError): string {
    match e
    case ConnectFailed(t, c) => Wrap("connect " + t + " plugin failed", c)
    case RequestFailed(t, c) => Wrap("request " + t + " plugin failed", c)
  }

  /** Init's verdict on the connection: `connectErr` is the error of client.Client(),
      `dispenseErr` that of Dispense, which is only reached after a connection. */
  function InitOutcome(pluginType: string, connectErr: Option<string>, dispenseErr: Option<string>): (r: Option<InitError>)
    ensures r == None <==> connectErr == None && dispenseErr == None
    ensures connectErr.Some? ==> r == Some(ConnectFailed(pluginType, connectErr.value))
    ensures connectErr.None? && dispenseErr.Some? ==> r == Some(RequestFailed(pluginType, dispenseErr.value))
  {
    if connectErr.Some? then Some(ConnectFailed(pluginType, connectErr.value))
    else if dispenseErr.Some? then Some(RequestFailed(pluginType, dispenseErr.value))
    else None
  }

  /** The two stages are told apart by the message, which also names the plugin type. */
  lemma MessagesNameStageAndType(t: string, c: string)
    ensures IsPrefix("connect " + t + " plugin failed", Message(ConnectFailed(t, c)))
    ensures IsPrefix("request " + t + " plugin failed", Message(RequestFailed(t, c)))
    ensures Message(ConnectFailed(t, c)) != Message(RequestFailed(t, c))
  {
    assert Message(ConnectFailed(t, c))[0] == 'c';
    assert Message(RequestFailed(t, c))[0] == 'r';
  }

  class HashicorpPlugin {
    var logOn: bool
    var pluginType: string
    /** The go-plugin client, by the configuration it was created with; None before Init. */
    var client: Option<Launch>
    /** Whether funcCaller holds a dispensed plugin. */
    var connected: bool
    var cachedFunctions: map<string, bool>
    /** Whether client.Kill() has been called. */
    var killed: bool

    /** The struct literal `&hashicorpPlugin{logOn: ...}`: every other field zero. */
    constructor (logOn: bool)
      ensures this.logOn == logOn && pluginType == "" && client == None
      ensures !connected && cachedFunctions == map[] && !killed
    {
      this.logOn := logOn;
      pluginType := "";
      client := None;
      connected := false;
      cachedFunctions := map[];
      killed := false;
    }

    /** Init. `envValue` is os.Getenv("HRP_PLUGIN_TYPE"), `hostEnv` is os.Environ(), and
        `connectErr`/`dispenseErr` are the errors of Client() and Dispense(name). The type,
        the client and its configuration are set before connecting; the cache is emptied
        only on success. */
    method Init(path: string, envValue: string, hostEnv: seq<string>,
                connectErr: Option<string>, dispenseErr: Option<string>)
      returns (err: Option<InitError>)
      modifies this
      ensures pluginType == PluginTypeOf(envValue)
      ensures client == Some(Launch(Command(path), ChildEnv(hostEnv, pluginType), DispensedName(pluginType), logOn))
      ensures err == InitOutcome(pluginType, connectErr, dispenseErr)
      ensures err == None ==> connected && cachedFunctions == map[]
      ensures err != None ==> connected == old(connected) && cachedFunctions == old(cachedFunctions)
      ensures logOn == old(logOn) && killed == old(killed)
    {
      if envValue == "rpc" {
        pluginType := envValue;
      } else {
        pluginType := "grpc";
      }
      var pluginName := GoConfig.PluginName + "_" + pluginType;
      var cmd: seq<string>;
      if Base(path) == GoConfig.HashicorpPyPluginFile {
        cmd := ["python3", path];
      } else {
        cmd := [path];
      }
      var env := hostEnv + [Entry(GoConfig.PluginTypeEnvName, pluginType)];
      client := Some(Launch(cmd, env, pluginName, logOn));
      if connectErr.Some? {
        return Some(ConnectFailed(pluginType, connectErr.value));
      }
      if dispenseErr.Some? {
        return Some(RequestFailed(pluginType, dispenseErr.value));
      }
      connected := true;
      cachedFunctions := map[];
      err := None;
    }

    /** Type: "hashicorp-" followed by the plugin type. */
    function Type(): (r: string)
      reads this
      ensures IsPrefix("hashicorp-", r) && r[|"hashicorp-"|..] == pluginType
    {
      "hashicorp-" + pluginType
    }

    /** Has. `remote` is what funcCaller.GetNames() would return (None for an error); it is
        only asked on a miss. */
    method Has(funcName: string, remote: Option<seq<string>>) returns (found: bool)
      requires connected
      modifies this`cachedFunctions
      ensures (found, cachedFunctions) == HasStep(old(cachedFunctions), funcName, remote)
    {
      if funcName in cachedFunctions {
        return cachedFunctions[funcName];
      }
      if remote.None? {
        return false;
      }
      found := Occurs(remote.value, funcName);
      cachedFunctions := cachedFunctions[funcName := found];
    }

    /** Call forwards to the dispensed plugin: `remoteCall` is funcCaller.Call. The cache
        is neither read nor written. */
    method Call<A, R>(funcName: string, args: seq<A>, remoteCall: (string, seq<A>) -> R) returns (r: R)
      requires connected
      ensures r == remoteCall(funcName, args)
    {
      r := remoteCall(funcName, args);
    }

    /** Quit kills the plugin process and reports no error. */
    method Quit() returns (err: Option<string>)
      requires client.Some?
      modifies this`killed
      ensures err == None && killed
    {
      killed := true;
      err := None;
    }
  }
}
