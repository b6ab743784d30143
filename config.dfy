/**
 * The host package's constants and its start-up reading of the plugin type
 * (go/config.go): plugin and file names, the handshake configuration and the
 * `HRP_PLUGIN_TYPE` rule.
 */
module GoConfig {
  import opened Text

  const PluginName: string := "debugtalk"
  const RpcPluginName: string := PluginName + "_rpc"
  const GrpcPluginName: string := PluginName + "_grpc"
  const GoPluginFile: string := PluginName + ".so"
  const HashicorpGoPluginFile: string := PluginName + ".bin"
  const HashicorpPyPluginFile: string := PluginName + ".py"

  /** What host and plugin compare before any call is trusted. */
  datatype HandshakeConfig = HandshakeConfig(protocolVersion: nat, magicCookieKey: string, magicCookieValue: string)

  const Handshake: HandshakeConfig := HandshakeConfig(1, "HttpRunnerPlus", PluginName)

  const PluginTypeEnvName: string := "HRP_PLUGIN_TYPE"

  /** The value `init()` gives `hrpPluginType` when the environment holds `envValue`
      (os.Getenv gives "" for an unset variable). */
  function PluginType(envValue: string): (t: string)
    ensures t != []
    ensures envValue == [] ==> t == "grpc"
    ensures envValue != [] ==> t == Lower(envValue)
  {
    var lowered := Lower(envValue);
    if lowered == "" then "grpc" else lowered
  }

  /** isRPCPluginType */
  predicate IsRPCPluginType(hrpPluginType: string) {
    hrpPluginType == "rpc"
  }

  /** The derived names are the literal file and plugin names. */
  lemma DerivedNames()
    ensures RpcPluginName == "debugtalk_rpc" && GrpcPluginName == "debugtalk_grpc"
    ensures GoPluginFile == "debugtalk.so" && HashicorpGoPluginFile == "debugtalk.bin"
    ensures HashicorpPyPluginFile == "debugtalk.py"
    ensures Handshake.protocolVersion == 1 && Handshake.magicCookieKey == "HttpRunnerPlus"
    ensures Handshake.magicCookieValue == "debugtalk"
  {
  }

  /** RPC is selected exactly when the lower-cased variable reads "rpc"; anything
      else, "" included, means gRPC. */
  lemma RPCIffLowerIsRpc(envValue: string)
    ensures IsRPCPluginType(PluginType(envValue)) <==> Lower(envValue) == "rpc"
  {
  }

  /** Upper-case spellings count: "RPC" selects RPC. */
  lemma UpperCaseRPC()
    ensures IsRPCPluginType(PluginType("RPC"))
  {
    assert Lower("RPC") == "rpc";
  }

  /** A value that is neither empty nor an RPC spelling is kept, lower-cased, and not replaced by "grpc". */
  lemma UnknownTypeKept(envValue: string)
    requires envValue != [] && Lower(envValue) != "rpc"
    ensures PluginType(envValue) == Lower(envValue) && !IsRPCPluginType(PluginType(envValue))
  {
  }
}
