/**
 * The entry point of the host package under go/ (go/init.go): where the plugin
 * file is looked for, in priority order debugtalk.bin, debugtalk.py, then
 * debugtalk.so. `locate(dir, file)` stands for locateFile, giving the found
 * file's path or None for its error.
 */
module GoInit {
  import opened Wrappers
  import opened GoConfig
  import HashicorpHost
  import GoHashicorpHost

  /** What Init goes on to build. NoPlugin is Init's (nil, nil): no plugin and no error. */
  datatype Found = NoPlugin | HashicorpFile(path: string) | GoFile(path: string)

  /** The priority rule, as a reference: an empty path finds nothing; otherwise the first of
      debugtalk.bin, debugtalk.py, debugtalk.so that can be located. */
  function Priority(path: string, locate: (string, string) -> Option<string>): Found {
    if path == "" then NoPlugin
    else if locate(path, HashicorpGoPluginFile).Some? then HashicorpFile(locate(path, HashicorpGoPluginFile).value)
    else if locate(path, HashicorpPyPluginFile).Some? then HashicorpFile(locate(path, HashicorpPyPluginFile).value)
    else if locate(path, GoPluginFile).Some? then GoFile(locate(path, GoPluginFile).value)
    else NoPlugin
  }

  /** The order in which the files are tried, stated pairwise. */
  lemma PriorityOrder(path: string, locate: (string, string) -> Option<string>)
    ensures path == "" ==> Priority(path, locate) == NoPlugin
    ensures path != "" && locate(path, HashicorpGoPluginFile).Some? ==>
      Priority(path, locate) == HashicorpFile(locate(path, HashicorpGoPluginFile).value)
    ensures Priority(path, locate).GoFile? ==>
      locate(path, HashicorpGoPluginFile).None? && locate(path, HashicorpPyPluginFile).None?
    ensures Priority(path, locate) == NoPlugin <==>
      path == "" || forall f :: f in {HashicorpGoPluginFile, HashicorpPyPluginFile, GoPluginFile} ==> locate(path, f).None?
  {
  }

  /** The locating part of Init: the loop over the hashicorp files that stops at the
      first one found, then the go plugin file. */
  method Locate(path: string, locate: (string, string) -> Option<string>) returns (found: Found)
    ensures found == Priority(path, locate)
  {
    if path == "" {
      return NoPlugin;
    }
    var hashicorpPluginFiles := [HashicorpGoPluginFile, HashicorpPyPluginFile];
    var pluginPath: Option<string> := None;
    var i := 0;
    while i < |hashicorpPluginFiles|
      invariant 0 <= i <= |hashicorpPluginFiles|
      invariant pluginPath.None? ==> forall j :: 0 <= j < i ==> locate(path, hashicorpPluginFiles[j]).None?
      invariant pluginPath.Some? ==> i < |hashicorpPluginFiles| && pluginPath == locate(path, hashicorpPluginFiles[i])
      invariant pluginPath.Some? ==> forall j :: 0 <= j < i ==> locate(path, hashicorpPluginFiles[j]).None?
    {
      pluginPath := locate(path, hashicorpPluginFiles[i]);
      if pluginPath.Some? {
        break;
      }
      i := i + 1;
    }
    if pluginPath.Some? {
      assert i == 1 ==> locate(path, hashicorpPluginFiles[0]).None?;
      return HashicorpFile(pluginPath.value);
    }
    assert locate(path, hashicorpPluginFiles[0]).None? && locate(path, hashicorpPluginFiles[1]).None?;
    pluginPath := locate(path, GoPluginFile);
    if pluginPath.Some? {
      return GoFile(pluginPath.value);
    }
    return NoPlugin;
  }

  /** The error Init returns: the hashicorp plugin's Init error, or the go plugin's. */
  datatype InitFailure = HashicorpFailed(e: HashicorpHost.InitError) | GoPluginFailed(message: string)

  /** Init. A located hashicorp file gives a new hashicorp plugin carrying `logOn`, returned
      with its Init result; `envValue` (HRP_PLUGIN_TYPE at package load), `hostEnv` and the
      connection outcomes are as in GoHashicorpHost.HashicorpPlugin. A located go plugin file
      gives the goPlugin, which is `GoFile(path)` here, with the error of its Init,
      `goPluginErr`. Nothing located is (nil, nil). */
  method Init(path: string, logOn: bool, locate: (string, string) -> Option<string>,
              envValue: string, hostEnv: seq<string>, connectErr: Option<string>, dispenseErr: Option<string>,
              goPluginErr: Option<string>)
    returns (found: Found, plugin: GoHashicorpHost.HashicorpPlugin?, err: Option<InitFailure>)
    ensures found == Priority(path, locate)
    ensures found.HashicorpFile? <==> plugin != null
    ensures plugin != null ==>
      && fresh(plugin) && plugin.logOn == logOn && plugin.hrpPluginType == PluginType(envValue)
      && plugin.client.Some? && plugin.client.value.command == HashicorpHost.Command(found.path)
      && var outcome := HashicorpHost.InitOutcome(PluginType(envValue), connectErr, dispenseErr);
         && (outcome.None? ==> err == None)
         && (outcome.Some? ==> err == Some(HashicorpFailed(outcome.value)))
    ensures found.GoFile? && goPluginErr.None? ==> err == None
    ensures found.GoFile? && goPluginErr.Some? ==> err == Some(GoPluginFailed(goPluginErr.value))
    ensures found.NoPlugin? ==> err == None
  {
    found := Locate(path, locate);
    plugin := null;
    err := None;
    if found.HashicorpFile? {
      plugin := new GoHashicorpHost.HashicorpPlugin(envValue, logOn);
      var e := plugin.Init(found.path, hostEnv, connectErr, dispenseErr);
      if e.Some? {
        err := Some(HashicorpFailed(e.value));
      }
    } else if found.GoFile? && goPluginErr.Some? {
      err := Some(GoPluginFailed(goPluginErr.value));
    }
  }
}
