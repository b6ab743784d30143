/**
 * The host's in-process Go plugin (go_plugin.go): opening a plugin file, the
 * cache of looked-up symbols with its invalid markers, and calling a cached
 * function through CallFunc. plugin.Open and Plugin.Lookup are inputs.
 */
module GoPluginHost {
  import opened Wrappers
  import opened Marshal

  /** What Plugin.Lookup finds under a name: an exported function, or a symbol of another kind. */
  datatype Symbol<!V> = FuncSymbol(f: Func<V>) | DataSymbol

  /** A cache entry: a function handle, or the invalid reflect.Value{} marker. */
  datatype Cached<!V> = Invalid | Valid(f: Func<V>)

  /** What a lookup (None when Lookup returned an error) leaves in the cache: only a
      function symbol gives a valid entry, and it holds that function. */
  function Marker<V>(sym: Option<Symbol<V>>): (c: Cached<V>)
    ensures c.Valid? <==> sym.Some? && sym.value.FuncSymbol?
    ensures c.Valid? ==> c.f == sym.value.f
  {
    match sym
    case Some(FuncSymbol(f)) => Valid(f)
    case _ => Invalid
  }

  /** What Has answers, and the cache after it. */
  function LookupStep<V>(cache: map<string, Cached<V>>, name: string, lookup: string -> Option<Symbol<V>>)
    : (bool, map<string, Cached<V>>)
  {
    if name in cache then (cache[name].Valid?, cache)
    else
      var m := Marker(lookup(name));
      (m.Valid?, cache[name := m])
  }

  /** A cached name is answered by the validity of its entry, whatever Lookup would say now. */
  lemma HitIgnoresLookup<V>(cache: map<string, Cached<V>>, name: string, lookup: string -> Option<Symbol<V>>)
    requires name in cache
    ensures LookupStep(cache, name, lookup) == (cache[name].Valid?, cache)
  {
  }

  /** On a miss every outcome is cached: a failed lookup and a non-function symbol as the
      invalid marker (answer false), a function as its handle (answer true). */
  lemma MissCachesOutcome<V>(cache: map<string, Cached<V>>, name: string, lookup: string -> Option<Symbol<V>>)
    requires name !in cache
    ensures lookup(name).None? ==> LookupStep(cache, name, lookup) == (false, cache[name := Invalid])
    ensures lookup(name) == Some(DataSymbol) ==> LookupStep(cache, name, lookup) == (false, cache[name := Invalid])
    ensures lookup(name).Some? && lookup(name).value.FuncSymbol? ==>
      LookupStep(cache, name, lookup) == (true, cache[name := Valid(lookup(name).value.f)])
  {
  }

  /** After one Has every later Has of the same name agrees with it and changes nothing. */
  lemma RepeatedHasAgrees<V>(cache: map<string, Cached<V>>, name: string,
                             lookup: string -> Option<Symbol<V>>, later: string -> Option<Symbol<V>>)
    ensures var (b, c) := LookupStep(cache, name, lookup);
      name in c && LookupStep(c, name, later) == (b, c)
  {
  }

  /** The cache holds what Lookup gives. */
  ghost predicate Agrees<V>(cache: map<string, Cached<V>>, lookup: string -> Option<Symbol<V>>) {
    forall n :: n in cache ==> cache[n] == Marker(lookup(n))
  }

  /** Has keeps the cache in agreement with Lookup and answers whether Lookup finds a function. */
  lemma HasSound<V>(cache: map<string, Cached<V>>, name: string, lookup: string -> Option<Symbol<V>>)
    requires Agrees(cache, lookup)
    ensures LookupStep(cache, name, lookup).0 <==> lookup(name).Some? && lookup(name).value.FuncSymbol?
    ensures Agrees(LookupStep(cache, name, lookup).1, lookup)
  {
  }

  /** What Call returns: "function <name> not found" unless Has holds, otherwise CallFunc's
      reply on the cached handle. */
  function CallReply<V>(cache: map<string, Cached<V>>, name: string, lookup: string -> Option<Symbol<V>>,
                        args: seq<Option<Arg<V>>>, conv: (Ty, Ty) -> bool): Reply<V>
  {
    var (found, after) := LookupStep(cache, name, lookup);
    if !found then Reply(Nil, Some(FunctionNotFound(name))) else Invoke(after[name].f, args, conv)
  }

  /** With a cache that agrees with Lookup, Call runs exactly the function Lookup finds, and
      reports any other name as not found without running anything. */
  lemma CallRunsLookedUpFunction<V>(cache: map<string, Cached<V>>, name: string, lookup: string -> Option<Symbol<V>>,
                                    args: seq<Option<Arg<V>>>, conv: (Ty, Ty) -> bool)
    requires Agrees(cache, lookup)
    ensures lookup(name).Some? && lookup(name).value.FuncSymbol? ==>
      CallReply(cache, name, lookup, args, conv) == Invoke(lookup(name).value.f, args, conv)
    ensures !(lookup(name).Some? && lookup(name).value.FuncSymbol?) ==>
      CallReply(cache, name, lookup, args, conv) == Reply(Nil, Some(FunctionNotFound(name)))
  {
    HasSound(cache, name, lookup);
  }

  class GoPlugin<V> {
    const path: string
    /** Plugin.Lookup of the opened plugin. */
    const lookup: string -> Option<Symbol<V>>
    var cachedFunctions: map<string, Cached<V>>

    constructor (path: string, lookup: string -> Option<Symbol<V>>)
      ensures this.path == path && this.lookup == lookup && cachedFunctions == map[]
    {
      this.path := path;
      this.lookup := lookup;
      cachedFunctions := map[];
    }

    function Type(): (r: string)
      ensures r == "go-plugin"
    {
      "go-plugin"
    }

    /** Path: the file the plugin was opened from. */
    function Path(): (r: string)
      ensures r == path
    {
      path
    }

    method Has(funcName: string) returns (found: bool)
      modifies this`cachedFunctions
      ensures (found, cachedFunctions) == LookupStep(old(cachedFunctions), funcName, lookup)
    {
      if funcName in cachedFunctions {
        return cachedFunctions[funcName].Valid?;
      }
      var sym := lookup(funcName);
      if sym.None? {
        cachedFunctions := cachedFunctions[funcName := Invalid];
        return false;
      }
      if !sym.value.FuncSymbol? {
        cachedFunctions := cachedFunctions[funcName := Invalid];
        return false;
      }
      cachedFunctions := cachedFunctions[funcName := Valid(sym.value.f)];
      return true;
    }

    method Call(funcName: string, args: seq<Option<Arg<V>>>, conv: (Ty, Ty) -> bool) returns (r: Reply<V>)
      modifies this`cachedFunctions
      ensures cachedFunctions == LookupStep(old(cachedFunctions), funcName, lookup).1
      ensures r == CallReply(old(cachedFunctions), funcName, lookup, args, conv)
    {
      var found := Has(funcName);
      if !found {
        return Reply(Nil, Some(FunctionNotFound(funcName)));
      }
      var fn := cachedFunctions[funcName].f;
      r := CallFunc(fn, args, conv);
    }

    /** Quit: nothing to release for an in-process plugin. */
    method Quit() returns (err: Option<string>)
      ensures err == None
    {
      err := None;
    }
  }

  /** newGoPlugin. `goos` is runtime.GOOS and `open` is plugin.Open, giving the opened
      plugin's Lookup or an error. On windows the file is not opened. */
  method NewGoPlugin<V>(path: string, goos: string, open: string -> Result<string -> Option<Symbol<V>>, string>)
    returns (p: GoPlugin?<V>, err: Option<string>)
    ensures goos == "windows" ==> p == null && err == Some("go plugin does not support windows")
    ensures goos != "windows" && open(path).Failure? ==> p == null && err == Some(open(path).error)
    ensures goos != "windows" && open(path).Success? ==>
      && err == None && p != null && fresh(p)
      && p.path == path && p.lookup == open(path).value && p.cachedFunctions == map[]
  {
    if goos == "windows" {
      return null, Some("go plugin does not support windows");
    }
    var plg := open(path);
    if plg.Failure? {
      return null, Some(plg.error);
    }
    p := new GoPlugin(path, plg.value);
    err := None;
  }
}
