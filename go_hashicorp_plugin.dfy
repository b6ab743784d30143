/**
 * The hashicorp plugin of the host package under go/ (go/hashicorp_plugin.go).
 * It differs from the root copy in where the plugin type comes from: the
 * package-level `hrpPluginType` that go/config.go's `init` computed (lower-cased,
 * defaulted only when empty), rather than an exact "rpc" test at Init.
 */
module GoHashicorpHost {
  import opened Wrappers
  import opened Text
  import opened Env
  import opened ExistenceCache
  import opened GoConfig
  import HashicorpHost
  import FunGo

  /** The plugin name Init dispenses. */
  function PluginNameFor(hrpPluginType: string): (name: string)
    ensures name == RpcPluginName <==> IsRPCPluginType(hrpPluginType)
    ensures name == RpcPluginName || name == GrpcPluginName
  {
    assert |RpcPluginName| != |GrpcPluginName|;
    if IsRPCPluginType(hrpPluginType) then RpcPluginName else GrpcPluginName
  }

  /** A Go plugin started with the child environment serves net/rpc exactly when the host
      dispensed the RPC plugin name, for every value HRP_PLUGIN_TYPE can have had. */
  lemma ChildServesDispensedProtocol(hostEnv: seq<string>, envValue: string)
    ensures var t := PluginType(envValue);
      FunGo.ServeMode(Getenv(HashicorpHost.ChildEnv(hostEnv, t), PluginTypeEnvName)) == FunGo.NetRPC
      <==> PluginNameFor(t) == RpcPluginName
  {
    HashicorpHost.ChildReadsPluginType(hostEnv, PluginType(envValue));
  }

  /** The two copies read HRP_PLUGIN_TYPE differently: "RPC" selects RPC here and gRPC in the
      root host, and an unrecognised "Foo" is reported in Type as "hashicorp-foo" here. */
  lemma CopiesDisagreeOnSpelling()
    ensures IsRPCPluginType(PluginType("RPC")) && HashicorpHost.PluginTypeOf("RPC") == "grpc"
    ensures "hashicorp-" + PluginType("Foo") == "hashicorp-foo"
  {
    UpperCaseRPC();
    assert Lower("Foo") == "foo";
    UnknownTypeKept("Foo");
  }

  /** go/hashicorp_plugin.go's hashicorpPlugin. `hrpPluginType` is the package global that
      go/config.go's `init` computed from `envValue`, the value HRP_PLUGIN_TYPE had when the
      package was loaded; `client` stands for the package-level client variable. */
  class HashicorpPlugin {
    const hrpPluginType: string
    var logOn: bool
    var client: Option<HashicorpHost.Launch>
    var connected: bool
    var cachedFunctions: map<string, bool>
    var killed: bool

    constructor (envValue: string, logOn: bool)
      ensures hrpPluginType == PluginType(envValue) && this.logOn == logOn && client == None
      ensures !connected && cachedFunctions == map[] && !killed
    {
      hrpPluginType := PluginType(envValue);
      this.logOn := logOn;
      client := None;
      connected := false;
      cachedFunctions := map[];
      killed := false;
    }

    /** Init: the same command and environment rules as the root host, with the global
        plugin type in the child's environment and in both error messages. */
    method Init(path: string, hostEnv: seq<string>, connectErr: Option<string>, dispenseErr: Option<string>)
      returns (err: Option<HashicorpHost.InitError>)
      modifies this
      ensures client == Some(HashicorpHost.Launch(HashicorpHost.Command(path),
                HashicorpHost.ChildEnv(hostEnv, hrpPluginType), PluginNameFor(hrpPluginType), logOn))
      ensures err == HashicorpHost.InitOutcome(hrpPluginType, connectErr, dispenseErr)
      ensures err == None ==> connected && cachedFunctions == map[]
      ensures err != None ==> connected == old(connected) && cachedFunctions == old(cachedFunctions)
      ensures logOn == old(logOn) && killed == old(killed)
    {
      var pluginName: string;
      if IsRPCPluginType(hrpPluginType) {
        pluginName := RpcPluginName;
      } else {
        pluginName := GrpcPluginName;
      }
      var cmd: seq<string>;
      if Base(path) == HashicorpPyPluginFile {
        cmd := ["python3", path];
      } else {
        cmd := [path];
      }
      var env := hostEnv + [Entry(PluginTypeEnvName, hrpPluginType)];
      client := Some(HashicorpHost.Launch(cmd, env, pluginName, logOn));
      if connectErr.Some? {
        return Some(HashicorpHost.ConnectFailed(hrpPluginType, connectErr.value));
      }
      if dispenseErr.Some? {
        return Some(HashicorpHost.RequestFailed(hrpPluginType, dispenseErr.value));
      }
      connected := true;
      cachedFunctions := map[];
      err := None;
    }

    /** Type: "hashicorp-" followed by the global plugin type. */
    function Type(): (r: string)
      ensures IsPrefix("hashicorp-", r) && r[|"hashicorp-"|..] == hrpPluginType
    {
      "hashicorp-" + hrpPluginType
    }

    /** Has, with `remote` the reply funcCaller.GetNames() would give on a miss. */
    method Has(funcName: string, remote: Option<seq<string>>) returns (found: bool)
      requires connected
      modifies this`cachedFunctions
      ensures (found, cachedFunctions) == HasStep(old(cachedFunctions), funcName, remote)
    {
      if funcName in cachedFunctions {
        return cachedFunctions[funcName];
      }
      if remote.None? {
        return false;
      }
      found := Occurs(remote.value, funcName);
      cachedFunctions := cachedFunctions[funcName := found];
    }

    /** Call forwards to funcCaller.Call without using the cache. */
    method Call<A, R>(funcName: string, args: seq<A>, remoteCall: (string, seq<A>) -> R) returns (r: R)
      requires connected
      ensures r == remoteCall(funcName, args)
    {
      r := remoteCall(funcName, args);
    }

    /** Quit kills the client process and reports no error. */
    method Quit() returns (err: Option<string>)
      requires client.Some?
      modifies this`killed
      ensures err == None && killed
    {
      killed := true;
      err := None;
    }
  }
}
