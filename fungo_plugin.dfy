/**
 * The Go plugin side (fungo/plugin.go): the package-level registry of plugin
 * functions, the `functionPlugin` that serves it (list names, call by name),
 * and the choice between the RPC and gRPC server modes.
 */
module FunGo {
  import opened Wrappers
  import opened Marshal

  /** The state of `functions` after `Register(name, fn)`, where `alias` is ConvertCommonName(name). */
  function Registered<V>(m: map<string, Func<V>>, name: string, fn: Func<V>, alias: string): map<string, Func<V>> {
    if name in m then m else m[name := fn][alias := fn]
  }

  /** Registering a name that is present changes nothing: the first registration wins. */
  lemma FirstRegistrationWins<V>(m: map<string, Func<V>>, name: string, fn: Func<V>, alias: string)
    requires name in m
    ensures Registered(m, name, fn, alias) == m
  {
  }

  /** A new name and its alias both map to the new handle; the alias replaces whatever
      was stored under it; every other entry is kept. */
  lemma NewRegistration<V>(m: map<string, Func<V>>, name: string, fn: Func<V>, alias: string)
    requires name !in m
    ensures Registered(m, name, fn, alias).Keys == m.Keys + {name, alias}
    ensures Registered(m, name, fn, alias)[name] == fn && Registered(m, name, fn, alias)[alias] == fn
    ensures forall k :: k in m && k != name && k != alias ==> Registered(m, name, fn, alias)[k] == m[k]
  {
  }

  /** One call of Register: the name, the handle and ConvertCommonName(name). */
  datatype Registration<!V> = Registration(name: string, fn: Func<V>, alias: string)

  /** The registry after a plugin's registration calls, in program order. */
  function RegisterAll<V>(m: map<string, Func<V>>, regs: seq<Registration<V>>): map<string, Func<V>>
    decreases |regs|
  {
    if regs == [] then m
    else
      var r := regs[|regs| - 1];
      Registered(RegisterAll(m, regs[..|regs| - 1]), r.name, r.fn, r.alias)
  }

  /** Registration never removes a key, and every registered name ends up present. */
  lemma {:induction false} RegisterAllOnlyGrows<V>(m: map<string, Func<V>>, regs: seq<Registration<V>>)
    ensures m.Keys <= RegisterAll(m, regs).Keys
    ensures forall i :: 0 <= i < |regs| ==> regs[i].name in RegisterAll(m, regs)
    decreases |regs|
  {
    if regs != [] {
      var init := regs[..|regs| - 1];
      RegisterAllOnlyGrows(m, init);
      forall i | 0 <= i < |regs| - 1 ensures regs[i].name in RegisterAll(m, regs) {
        assert regs[i] == init[i];
      }
    }
  }

  /** The two server modes of Serve. */
  datatype Protocol = NetRPC | GRPC

  /** Serve: RPC exactly when HRP_PLUGIN_TYPE reads "rpc" (case-sensitive), gRPC otherwise. */
  function ServeMode(envValue: string): (p: Protocol)
    ensures p == NetRPC <==> envValue == "rpc"
  {
    if envValue == "rpc" then NetRPC else GRPC
  }

  /** functionPlugin, serving the package-level `functions` map. */
  class FunctionPlugin<V> {
    var functions: map<string, Func<V>>

    constructor ()
      ensures functions == map[]
    {
      functions := map[];
    }

    /** Register: a no-op for a known name; otherwise stores the handle under the name and under its alias. */
    method Register(funcName: string, fn: Func<V>, commonName: string)
      modifies this
      ensures functions == Registered(old(functions), funcName, fn, commonName)
      ensures old(functions).Keys <= functions.Keys
      ensures funcName in functions
    {
      if funcName in functions {
        return;
      }
      functions := functions[funcName := fn];
      functions := functions[commonName := functions[funcName]];
    }

    /** GetNames: every key of the map exactly once (in map iteration order), never an error. */
    method GetNames() returns (names: seq<string>, err: Option<Error>)
      ensures err == None
      ensures forall n :: n in names <==> n in functions
      ensures forall i, j :: 0 <= i < j < |names| ==> names[i] != names[j]
      ensures |names| == |functions|
    {
      names := [];
      var rest := functions.Keys;
      while rest != {}
        invariant rest <= functions.Keys
        invariant forall n :: n in names <==> n in functions && n !in rest
        invariant forall i, j :: 0 <= i < j < |names| ==> names[i] != names[j]
        invariant |names| + |rest| == |functions.Keys|
        decreases rest
      {
        var name :| name in rest;
        names := names + [name];
        rest := rest - {name};
      }
      err := None;
    }

    /** Call: "function <name> not found" for an unknown name; otherwise CallFunc on the stored handle. */
    method Call(funcName: string, args: seq<Option<Arg<V>>>, conv: (Ty, Ty) -> bool) returns (r: Reply<V>)
      ensures funcName !in functions ==> r == Reply(Nil, Some(FunctionNotFound(funcName)))
      ensures funcName in functions ==> r == Invoke(functions[funcName], args, conv)
    {
      if funcName !in functions {
        return Reply(Nil, Some(FunctionNotFound(funcName)));
      }
      var fn := functions[funcName];
      r := CallFunc(fn, args, conv);
    }
  }
}
