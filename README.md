# funplugin in Dafny

A model of the decision logic of httprunner's funplugin. funplugin is the bridge that lets a
test runner (the *host*) call functions written in Go or Python that live in a separate
*plugin*. Each side is covered separately:

- **Plugin side.** A Go plugin keeps a registry of functions (`fungo/plugin.go`). It answers
  `GetNames` and `Call`, and binds every call's arguments through `shared/utils.go`. A Python
  plugin keeps its own registry (`funppy/plugin.py`). It encodes results by type, picks a free
  port, and prints a handshake line.
- **Host side.** The host picks a plugin by file extension (`init.go`) or by file-location
  priority (`go/init.go`). It starts a hashicorp plugin with a command and environment it
  derives from the plugin path and `HRP_PLUGIN_TYPE` (`hashicorp_plugin.go`, `go/hashicorp_plugin.go`,
  `go/config.go`). It also opens in-process Go plugins (`go_plugin.go`). Both kinds remember
  which function names exist in an existence cache.
- **Python package helpers.** `myexec/cmd.go` parses `name==version` specs, compares
  versions, decides whether to install, and sets `PATH` for the commands it runs.

Modules, one per source file:

- `Marshal`: `shared/utils.go`.
- `FunGo`: `fungo/plugin.go`.
- `FunPy`: `funppy/plugin.py`.
- `GoConfig`: `go/config.go`.
- `HashicorpHost`: `hashicorp_plugin.go`.
- `GoHashicorpHost`: `go/hashicorp_plugin.go`.
- `ExistenceCache`: the `Has` cache that both hashicorp files share.
- `GoPluginHost`: `go_plugin.go`.
- `PluginInit`: `init.go`.
- `GoInit`: `go/init.go`.
- `MyExec`: `myexec/cmd.go`.

`Text` and `Env` model the parts of Go's standard library that these decisions rest on:
`strings.Index`/`Split`/`ToLower`/`TrimSpace`/`TrimLeft`, `filepath.Base`/`Ext`/`Dir`, and
`KEY=VALUE` environments. The root package takes its constants from `shared/config.go`,
whose values are the same as in `go/config.go`, and the model reuses `GoConfig`'s.

Everything the code cannot decide by itself is an input of the model:

- processes, the network and the Go reflection library;
- the environment (`os.Getenv`, `os.Environ`);
- `runtime.GOOS`;
- `plugin.Open` and `Lookup`;
- `locateFile` and `ConvertCommonName`;
- the functions' own behaviour;
- `random.randrange`;
- the outcome of every command and of every connect or dispense.

State that the source changes in place is modelled with classes: the registries, the caches,
the plugin structs and the process `PATH`. Methods on these classes are proved against
specification functions: `Convert`, `Invoke`, `HasStep`, `LookupStep`, `CallReply`, `ApplyAll`,
`Select` and `Priority`. Lemmas then prove the source's properties about those functions.

### Behaviour of the code worth knowing

- **Go registration keeps the first entry.** In the Go registry a repeated name is ignored.
  The alias entry, however, is written unconditionally and replaces whatever the alias held
  before (`FunGo.NewRegistration`).
- **Python registration keeps the last entry** (`FunPy.Registry.Register`).
- **A two-result call can return both a value and an error**
  (`Marshal.ValueWithErrorOnlyFromTwoResults`).
- **convertArgs lets through argument counts that reflect's Call rejects**
  (`Marshal.ArityCheckAdmitsCallPanics`). A function whose last parameter is a slice passes the
  arity check with any count, and the call then panics unless the count is one Call accepts.
- **The code has no retry, backoff, liveness loop or restart.** Init connects once.
- **Only one side of the version check is trimmed.** Whitespace is removed from the installed
  version but not from the required one (`MyExec.RequiredVersionNotTrimmed`).
- **The `PATH` guard in RunCommand is always true.** Its test `cmdDir != ""` never fails
  because `filepath.Dir` is never empty.
- **The two hashicorp copies read `HRP_PLUGIN_TYPE` differently**
  (`GoHashicorpHost.CopiesDisagreeOnSpelling`). The root copy keeps only the exact value
  "rpc". The go/ copy lower-cases the value and keeps any non-empty result, so `Type()` can
  report, say, "hashicorp-foo".

## Model

| member | source | states |
|---|---|---|
| `Marshal.ConvertArgs` | shared/utils.go:26-81 | the array filled position by position, with early error returns, is exactly `Convert` of the parameters and arguments |
| `Marshal.ConvertArity` | shared/utils.go:29-32 | the arity error is reported exactly when the count differs from the parameter count and the last parameter is not a slice (or there is none); with a slice last parameter any count passes |
| `Marshal.ConvertAllBound` | shared/utils.go:34-80 | on success the result holds one binding per argument, in argument order, each the binding of that position |
| `Marshal.ConvertSucceedsIff` | shared/utils.go:26-81 | conversion succeeds iff the arity check passes and every position binds |
| `Marshal.ConvertFailsAt` | shared/utils.go:35-79 | processing stops at the first failing position and returns that position's error |
| `Marshal.ConvertFirstFailure` | shared/utils.go:35-79 | every failure past the arity check is the error of the first position that does not bind |
| `Marshal.BindsNilToZero` | shared/utils.go:37-40 | a nil argument binds to the zero value of its declared parameter and is kept in place |
| `Marshal.TailSliceArgument` | shared/utils.go:46-59 | in the variadic tail a slice argument is kept unchanged iff its element type is the slice parameter's element type, and otherwise fails with the slice-element error |
| `Marshal.CoercedArgument` | shared/utils.go:60-78 | any other argument is kept on an exact type match, converted when convertible, and otherwise rejected with an error naming its index and both types |
| `Marshal.InterpretCases` | shared/utils.go:83-109 | 0 results give (nil, nil); one error gives (nil, err); one value gives (v, nil); two give (first, second or nil); more give the "at most 2 values" error |
| `Marshal.ValueWithErrorOnlyFromTwoResults` | shared/utils.go:88-94 | a reply with both a value and an error comes only from a two-result function |
| `Marshal.InvokeSkipsBodyOnFailure` | shared/utils.go:17-23 | when conversion fails the reply does not depend on the function's behaviour and carries the conversion error |
| `Marshal.CallCountPanics` | shared/utils.go:29-32 | after a successful conversion the call panics exactly when the count is not one Call accepts (or the results panic), and such a count needs a slice last parameter and a count other than the declared one |
| `Marshal.ArityCheckAdmitsCallPanics` | shared/utils.go:29-32 | `func(a, b int, xs ...int)` with no arguments and a non-variadic `func(xs []int)` with two ints both pass convertArgs and then panic in Call |
| `Marshal.CallFunc` | shared/utils.go:16-24 | the conversion error when binding fails; a panic when the bound count is not one reflect's Call accepts; otherwise the interpretation of the function's results on the bound arguments |
| `FunGo.FirstRegistrationWins` | fungo/plugin.go:49-52 | registering a name already present leaves the registry unchanged |
| `FunGo.NewRegistration` | fungo/plugin.go:53-55 | a new name and its alias both map to the new handle, the alias replaces any earlier entry, and every other entry is kept |
| `FunGo.RegisterAllOnlyGrows` | fungo/plugin.go:49-56 | over any sequence of registrations no key is ever removed and every registered name is present |
| `FunGo.FunctionPlugin.Register` | fungo/plugin.go:49-56 | the registry becomes `Registered` of the old one; keys only grow; the name is present afterwards |
| `FunGo.FunctionPlugin.GetNames` | fungo/plugin.go:26-32 | exactly the registry's keys, each once, and never an error |
| `FunGo.FunctionPlugin.Call` | fungo/plugin.go:34-43 | "function <name> not found" for an unknown name without running anything; otherwise CallFunc's reply on the stored handle with the same arguments |
| `FunGo.ServeMode` | fungo/plugin.go:104-111 | net/rpc iff the variable is exactly "rpc", gRPC otherwise |
| `FunPy.Registry.Register` | funppy/plugin.py:18-20 | the last registration under a name wins; a new name is appended to the key order and an overwritten one keeps its place |
| `FunPy.Registry.GetNames` | funppy/plugin.py:26-29 | exactly the registered names, each once |
| `FunPy.Registry.Call` | funppy/plugin.py:31-47 | an unknown name raises before anything runs; undecodable arguments raise; a decoded value that cannot be unpacked (null, a number, a boolean) raises before the function runs; otherwise the function runs on the unpacked arguments: its exception is raised again, a result of a supported type succeeds with the encoding its type chooses, and one of any other type raises the unsupported-type error naming that type; and no other outcome occurs |
| `FunPy.EncodingChoice` | funppy/plugin.py:39-44 | int, float and bool are encoded with str; str, dict and list as JSON; None and any other type are refused |
| `FunPy.ChoosePort` | funppy/plugin.py:60-66 | the chosen port lies in [20000, 60000), is free, and every earlier draw was in use |
| `FunPy.HandshakeFields` | funppy/plugin.py:76 | the line splits on '\|' into exactly "1", "1", "tcp", the address and "grpc", and the app protocol field is the host's handshake version |
| `FunPy.HandshakePort` | funppy/plugin.py:72-76 | the address field is "127.0.0.1:" followed by digits that read back as the chosen port |
| `GoConfig.DerivedNames` | go/config.go:10-27 | the derived plugin and file names and the handshake constants |
| `GoConfig.PluginType` | go/config.go:33-38 | the lower-cased value, and "grpc" only for the empty value |
| `GoConfig.RPCIffLowerIsRpc` | go/config.go:34-42 | `isRPCPluginType` holds iff the lower-cased variable is "rpc" |
| `GoConfig.UpperCaseRPC` | go/config.go:34-42 | "RPC" selects RPC |
| `GoConfig.UnknownTypeKept` | go/config.go:34-37 | every non-empty value whose lower-cased form is not "rpc" is kept, lower-cased, and is not RPC |
| `ExistenceCache.CacheHit` | hashicorp_plugin.go:99-102 | a cached name is answered from the cache, whatever GetNames would reply, and the cache is unchanged |
| `ExistenceCache.MissCachesMembership` | hashicorp_plugin.go:109-117 | on a miss the answer is membership in the GetNames list, and that answer, true or false, is cached under the name |
| `ExistenceCache.RemoteFailureNotCached` | hashicorp_plugin.go:104-107 | a GetNames error answers false and leaves the cache unchanged |
| `ExistenceCache.CacheOnlyGrows` | hashicorp_plugin.go:98-118 | no key is removed, no cached answer changes, and at most the asked name is added |
| `ExistenceCache.HasIdempotent` | hashicorp_plugin.go:98-118 | unless GetNames failed, asking again gives the same answer and changes nothing, whatever the remote replies |
| `ExistenceCache.HasSound` | hashicorp_plugin.go:98-118 | while the remote list is fixed, Has keeps the cache in agreement with it and answers exactly membership |
| `ExistenceCache.Occurs` | hashicorp_plugin.go:109-114 | the scan of the GetNames list finds the name iff it occurs in the list |
| `HashicorpHost.PluginTypeOf` | hashicorp_plugin.go:28-33 | the type is "rpc" iff the variable is exactly "rpc", else "grpc" |
| `HashicorpHost.DispensedIsRegistered` | hashicorp_plugin.go:34 | the dispensed name is one of the two registered plugin names, the RPC one iff the variable is "rpc" |
| `HashicorpHost.Command` | hashicorp_plugin.go:48-55 | "python3 <path>" iff the base name is "debugtalk.py", otherwise the path alone |
| `HashicorpHost.ChildEnv` | hashicorp_plugin.go:56 | the host environment, unchanged, followed by one more entry |
| `HashicorpHost.ChildReadsPluginType` | hashicorp_plugin.go:56 | the child reads the chosen type for HRP_PLUGIN_TYPE, whatever the host environment held |
| `HashicorpHost.ChildServesDispensedProtocol` | hashicorp_plugin.go:28-56 | a Go plugin started with that environment serves net/rpc exactly when the host dispenses the RPC name |
| `HashicorpHost.InitOutcome` | hashicorp_plugin.go:74-83 | success iff both connect and dispense succeed; a connect error is reported first, wrapped with the type; a dispense error otherwise |
| `HashicorpHost.MessagesNameStageAndType` | hashicorp_plugin.go:74-83 | the messages begin "connect <type> plugin failed" or "request <type> plugin failed" and are distinct |
| `HashicorpHost.HashicorpPlugin.Init` | hashicorp_plugin.go:27-92 | sets the type, then the client with its command, environment, plugin name and log level; returns `InitOutcome`; empties the cache and sets the caller only on success |
| `HashicorpHost.HashicorpPlugin.Type` | hashicorp_plugin.go:94-96 | "hashicorp-" followed by the plugin type |
| `HashicorpHost.HashicorpPlugin.Has` | hashicorp_plugin.go:98-118 | the answer and the new cache are `HasStep` of the old cache |
| `HashicorpHost.HashicorpPlugin.Call` | hashicorp_plugin.go:120-122 | the remote call's reply, unchanged, with the cache neither read nor written |
| `HashicorpHost.HashicorpPlugin.Quit` | hashicorp_plugin.go:124-129 | the client is killed and no error is returned |
| `GoHashicorpHost.PluginNameFor` | go/hashicorp_plugin.go:25-30 | "debugtalk_rpc" iff `isRPCPluginType`, "debugtalk_grpc" otherwise |
| `GoHashicorpHost.ChildServesDispensedProtocol` | go/hashicorp_plugin.go:25-52 | for every HRP_PLUGIN_TYPE value, the started Go plugin serves net/rpc exactly when the RPC name is dispensed |
| `GoHashicorpHost.CopiesDisagreeOnSpelling` | go/config.go:33-38 | "RPC" is RPC here but gRPC in the root copy; an unknown value shows up in Type |
| `GoHashicorpHost.HashicorpPlugin.Init` | go/hashicorp_plugin.go:24-88 | the client with the command, the environment carrying `hrpPluginType` (as computed from HRP_PLUGIN_TYPE at package load), and the plugin name; errors wrapped with `hrpPluginType`; an empty cache only on success |
| `GoHashicorpHost.HashicorpPlugin.Type` | go/hashicorp_plugin.go:90-92 | "hashicorp-" followed by `hrpPluginType` |
| `GoHashicorpHost.HashicorpPlugin.Has` | go/hashicorp_plugin.go:94-114 | the answer and the new cache are `HasStep` of the old cache |
| `GoHashicorpHost.HashicorpPlugin.Call` | go/hashicorp_plugin.go:116-118 | the remote call's reply, without the cache |
| `GoHashicorpHost.HashicorpPlugin.Quit` | go/hashicorp_plugin.go:120-124 | the client is killed and no error is returned |
| `GoPluginHost.Marker` | go_plugin.go:54-68 | a cache entry is valid iff the lookup found a function symbol, and then holds that function |
| `GoPluginHost.HitIgnoresLookup` | go_plugin.go:49-52 | a cached name is answered by the validity of its entry without a lookup |
| `GoPluginHost.MissCachesOutcome` | go_plugin.go:54-68 | a failed lookup and a non-function symbol cache the invalid marker and answer false; a function is cached and answers true |
| `GoPluginHost.RepeatedHasAgrees` | go_plugin.go:48-69 | after one Has, every later Has of the name agrees and changes nothing |
| `GoPluginHost.HasSound` | go_plugin.go:48-69 | with a cache that agrees with Lookup, Has answers whether Lookup finds a function and keeps the agreement |
| `GoPluginHost.CallRunsLookedUpFunction` | go_plugin.go:71-77 | Call runs exactly the function Lookup finds, through CallFunc, and reports any other name as not found |
| `GoPluginHost.GoPlugin.Has` | go_plugin.go:48-69 | the answer and the new cache are `LookupStep` of the old cache |
| `GoPluginHost.GoPlugin.Call` | go_plugin.go:71-77 | the reply is `CallReply` of the old cache, and the cache is as after Has |
| `GoPluginHost.GoPlugin.Type` | go_plugin.go:40-42 | "go-plugin" |
| `GoPluginHost.GoPlugin.Path` | go_plugin.go:44-46 | the path the plugin was opened from |
| `GoPluginHost.GoPlugin.Quit` | go_plugin.go:79-82 | no error, nothing changed |
| `GoPluginHost.NewGoPlugin` | go_plugin.go:19-38 | on windows an error without opening; an open error is returned; otherwise a new plugin with the path, the opened lookup and an empty cache |
| `PluginInit.Apply` | init.go:39-49 | WithDebugLogger sets only `debugLogger`, WithPython3 sets only `python3` |
| `PluginInit.LastOptionWins` | init.go:53-56 | applying options in order leaves, for each field, the value of the last option for that field |
| `PluginInit.ApplyOptions` | init.go:53-56 | the loop's option equals the in-order application of the options to the zero option |
| `PluginInit.SelectByExtension` | init.go:60-79 | ".bin" gives the hashicorp plugin with language go; ".py" gives "python3 not specified" without python3 and the hashicorp plugin with language py with it; ".so" gives the go plugin; anything else gives "unsupported plugin type: <ext>" |
| `PluginInit.SelectionMatchesExtension` | init.go:60-79 | a plugin is chosen only for the extension that names it; the options reach it unchanged apart from the language; refusal happens exactly for other extensions or ".py" without python3 |
| `PluginInit.Init` | init.go:52-80 | the selection for the path under the options as the last option of each kind set them |
| `GoInit.PriorityOrder` | go/init.go:3-41 | an empty path finds nothing; debugtalk.bin wins when located; debugtalk.so is used only when neither hashicorp file is found; nothing found is no plugin, not an error |
| `GoInit.Locate` | go/init.go:3-40 | the loop with its break finds what `Priority` prescribes |
| `GoInit.Init` | go/init.go:3-41 | the file found follows the priority rule; a located hashicorp file yields a new plugin carrying `logOn` and the load-time plugin type, returned with its Init error; a located go plugin file is returned with its Init error; nothing located is (nil, nil) |
| `MyExec.SpecWithoutVersion` | myexec/cmd.go:93-97 | without "==" the name is the whole spec and the version is empty |
| `MyExec.SpecWithVersion` | myexec/cmd.go:87-92 | with "==" the name is the text before the first "==" and the version the text after it up to the next "==" or the end; neither contains "==", and they begin the spec |
| `MyExec.AssertPackage` | myexec/cmd.go:60-83 | a failed import reports "python package <name> not found"; success iff the import works and the version is empty or equal after trimming the installed output and leading 'v's |
| `MyExec.LeadingVIgnored` | myexec/cmd.go:74-79 | required "v0.5.0" matches installed "0.5.0\n" |
| `MyExec.RequiredVersionNotTrimmed` | myexec/cmd.go:75-76 | an example: required " 0.5.0" does not match installed "0.5.0", because the required side is not whitespace-trimmed |
| `MyExec.IndexURL` | myexec/cmd.go:116-119 | the configured index when set, the public index otherwise, never empty |
| `MyExec.InstallPythonPackage` | myexec/cmd.go:85-128 | no install when the check passes; pip unavailable gives its wrapped error and nothing installed; an install error is wrapped; otherwise the result of the second check; the commands run, in order |
| `MyExec.RunError` | myexec/cmd.go:147-155 | no error iff the command succeeded; a failing command's error is wrapped with its stderr when that is non-empty |
| `MyExec.Process.RunCommand` | myexec/cmd.go:130-158 | PATH becomes the command's directory before the start-up PATH (never the current one); a Setenv error is returned and PATH kept; otherwise the run's error |
| `MyExec.PathForCommand` | myexec/cmd.go:134-136 | the PATH a command gets ends with the start-up PATH, and a bare name adds "." |

## Left out

- The wire bridges (`fungo/grpc.go`, `fungo/rpc.go`, `go/grpc.go`). They are thin layers over JSON, gob, net/rpc and gRPC libraries, which are not part of this model.
- go-plugin's process machinery: `plugin.NewClient`, `Client()`, `Dispense`, `Kill` and the handshake itself. The model keeps only the client by its configuration, a killed flag, and the connect and dispense outcomes as inputs.
- Go's `plugin.Open` and `Lookup`. They are inputs.
- Retries, backoff, liveness checks and restarts. The code has none; Init connects once.
- Concurrency. The caches are plain maps and are modelled sequentially.
- Logging and logger construction. Only the debug-level choice is kept, as `Launch.debugLevel`.
- `EnsurePython3Venv`, `ensurePython3Venv`, `execCommand`, `isPython3`, `ExecPython3Command`, `ExecCommandInDir` and `RunShell`. They are venv, file-system and process plumbing; `RunShell` is not part of this model.
- Float formatting, `str`, `json.dumps` and `json.loads` payloads. Only the choice of encoder is modelled. Of json.loads the model keeps whether decoding raised and, for a decoded value, the positional arguments `*args` unpacks it into (array elements, object keys, string characters) or that it cannot be unpacked.
- `ConvertCommonName` and `locateFile`. They are parameters: the alias passed to Register and the `locate` function.
- `newHashicorpPlugin`, which init.go calls, is not part of this model. `PluginInit.Init` returns which constructor is called and with what arguments.
- The go plugin of the go/ package (`goPlugin` and its `Init`) is not part of this model. `GoInit.Init` returns the located `.so` file as `GoFile` in place of the goPlugin object, and takes that Init's error as the input `goPluginErr`.
- Go reflection itself. Types are `Base(id)` or `Slice(elem)`; `ConvertibleTo` is the parameter `conv`; values are opaque. A nil argument beyond the declared parameters makes reflect's `In(index)` panic, which is modelled as the error `NilPastParams` and then the reply `Panicked`. A second return value that is not an error makes the `.(error)` assertion panic, which also gives `Panicked`.
- Marshal.CallFunc: reflect's Call re-packs the arguments of a variadic function, and that is not modelled. A slice argument that convertArgs keeps as it is in the `...T` tail makes Call panic for a non-interface `T`, and is wrapped as one element for `...interface{}`. The model instead runs the function on the bound arguments. Apart from the argument count, the model also does not check that the bound values are assignable to the parameters.
- `filepath.Base`, `Ext` and `Dir` are modelled for forward-slash paths. `filepath.Clean`'s handling of ".", ".." and doubled slashes inside a path is not modelled.
- Lower-casing and whitespace trimming are ASCII only.
- The Python server's startup and serving loop. Only the port choice and the printed line are modelled. `random.randrange` is the parameter `draw`.
- `FunPy.ChoosePort` assumes that some draw yields a free port (the ghost `free`). When every port is in use, the source loops forever.
- `HashicorpHost.HashicorpPlugin.Has`, `Call` (and their go/ copies) require a connected plugin, because calling them through a nil `funcCaller` panics in the source.
- `HashicorpHost.HashicorpPlugin.Quit` (and the go/ copy) requires that Init created the client, because `Kill` on a nil client panics.
- `GoHashicorpHost.HashicorpPlugin` keeps `client` as a field, but in the source it is a package-level variable shared by every instance. A second Init replaces the first instance's client too, and the model does not capture that sharing.
- `FunGo.FunctionPlugin.GetNames` picks the keys in an arbitrary order, standing for Go's unspecified map order. It does not model the order of any particular run.
- MyExec.InstallPythonPackage: the source runs pip through RunCommand, which also sets PATH. The model lists the commands issued but does not apply their `Process.pathEnv` update; `MyExec.Process.RunCommand` models that update on its own.
