/**
 * The host's entry point (init.go): functional options applied in order, then
 * the choice of plugin by the file extension. The chosen constructor and the
 * arguments it is given are the result; building the plugin is modelled in
 * the plugin modules.
 */
module PluginInit {
  import opened Text

  /** langType: unset, "go" or "py" (the "java" constant is never chosen). */
  datatype LangType = Unset | LangGo | LangPython

  datatype PluginOption = PluginOption(debugLogger: bool, langType: LangType, python3: string)

  /** The zero pluginOption Init starts from. */
  const Default: PluginOption := PluginOption(false, Unset, "")

  /** The two Option constructors, by what they set. */
  datatype Opt = WithDebugLogger(debug: bool) | WithPython3(python3: string)

  /** Applying one option: each sets its own field and no other. */
  function Apply(o: PluginOption, opt: Opt): (r: PluginOption)
    ensures r.langType == o.langType
    ensures opt.WithDebugLogger? ==> r.debugLogger == opt.debug && r.python3 == o.python3
    ensures opt.WithPython3? ==> r.python3 == opt.python3 && r.debugLogger == o.debugLogger
  {
    match opt
    case WithDebugLogger(d) => o.(debugLogger := d)
    case WithPython3(p) => o.(python3 := p)
  }

  /** The options applied one after another, first to last. */
  function ApplyAll(o: PluginOption, opts: seq<Opt>): PluginOption
    decreases |opts|
  {
    if opts == [] then o else Apply(ApplyAll(o, opts[..|opts| - 1]), opts[|opts| - 1])
  }

  /** The value of the last WithDebugLogger among `opts`, or `d` when there is none. */
  function LastDebug(opts: seq<Opt>, d: bool): (r: bool)
    ensures (forall i :: 0 <= i < |opts| ==> !opts[i].WithDebugLogger?) ==> r == d
    decreases |opts|
  {
    if opts == [] then d
    else if opts[|opts| - 1].WithDebugLogger? then opts[|opts| - 1].debug
    else LastDebug(opts[..|opts| - 1], d)
  }

  /** The value of the last WithPython3 among `opts`, or `p` when there is none. */
  function LastPython3(opts: seq<Opt>, p: string): (r: string)
    ensures (forall i :: 0 <= i < |opts| ==> !opts[i].WithPython3?) ==> r == p
    decreases |opts|
  {
    if opts == [] then p
    else if opts[|opts| - 1].WithPython3? then opts[|opts| - 1].python3
    else LastPython3(opts[..|opts| - 1], p)
  }

  /** Applying options in order means the last option for each field wins, and the
      fields are independent of one another. */
  lemma {:induction false} LastOptionWins(o: PluginOption, opts: seq<Opt>)
    ensures ApplyAll(o, opts) == PluginOption(LastDebug(opts, o.debugLogger), o.langType, LastPython3(opts, o.python3))
    decreases |opts|
  {
    if opts != [] {
      LastOptionWins(o, opts[..|opts| - 1]);
    }
  }

  /** The option block of Init: the loop over `options`. */
  method ApplyOptions(opts: seq<Opt>) returns (o: PluginOption)
    ensures o == ApplyAll(Default, opts)
    ensures o == PluginOption(LastDebug(opts, false), Unset, LastPython3(opts, ""))
  {
    o := Default;
    for i := 0 to |opts|
      invariant o == ApplyAll(Default, opts[..i])
    {
      assert opts[..i + 1][..i] == opts[..i];
      o := Apply(o, opts[i]);
    }
    assert opts[..|opts|] == opts;
    LastOptionWins(Default, opts);
  }

  /** Which constructor Init calls, and with what. */
  datatype Selected =
    | Hashicorp(path: string, option: PluginOption)  // newHashicorpPlugin(path, option)
    | GoPlugin(path: string)                        // newGoPlugin(path)
    | Refused(message: string)                      // an error, no plugin

  /** The extension switch of Init ("hashicorp plugin > go plugin" by file type). */
  function Select(path: string, o: PluginOption): Selected {
    var ext := Ext(path);
    if ext == ".bin" then Hashicorp(path, o.(langType := LangGo))
    else if ext == ".py" then
      if o.python3 == "" then Refused("python3 not specified")
      else Hashicorp(path, o.(langType := LangPython))
    else if ext == ".so" then GoPlugin(path)
    else Refused("unsupported plugin type: " + ext)
  }

  /** The dispatch, case by case: ".bin" is a Go hashicorp plugin, ".py" a Python one
      that needs python3, ".so" an in-process Go plugin, and every other extension,
      the empty one included, an unsupported plugin type. */
  lemma SelectByExtension(path: string, o: PluginOption)
    ensures Ext(path) == ".bin" ==> Select(path, o) == Hashicorp(path, o.(langType := LangGo))
    ensures Ext(path) == ".py" && o.python3 == "" ==> Select(path, o) == Refused("python3 not specified")
    ensures Ext(path) == ".py" && o.python3 != "" ==> Select(path, o) == Hashicorp(path, o.(langType := LangPython))
    ensures Ext(path) == ".so" ==> Select(path, o) == GoPlugin(path)
    ensures Ext(path) !in {".bin", ".py", ".so"} ==> Select(path, o) == Refused("unsupported plugin type: " + Ext(path))
  {
  }

  /** A plugin is only ever chosen for a path whose extension names its kind, and
      the options reach the hashicorp plugin unchanged apart from the language. */
  lemma SelectionMatchesExtension(path: string, o: PluginOption)
    ensures Select(path, o).Hashicorp? ==>
      && Select(path, o).path == path
      && (Ext(path) == ".bin" || Ext(path) == ".py")
      && Select(path, o).option.debugLogger == o.debugLogger
      && Select(path, o).option.python3 == o.python3
      && (Select(path, o).option.langType == LangPython ==> o.python3 != "")
    ensures Select(path, o).GoPlugin? ==> Ext(path) == ".so" && Select(path, o).path == path
    ensures Select(path, o).Refused? <==>
      Ext(path) !in {".bin", ".so"} && (Ext(path) == ".py" ==> o.python3 == "")
  {
  }

  /** Init: apply the options in order, then dispatch on the extension. */
  method Init(path: string, opts: seq<Opt>) returns (s: Selected)
    ensures s == Select(path, PluginOption(LastDebug(opts, false), Unset, LastPython3(opts, "")))
  {
    var option := ApplyOptions(opts);
    var ext := Ext(path);
    if ext == ".bin" {
      option := option.(langType := LangGo);
      return Hashicorp(path, option);
    } else if ext == ".py" {
      if option.python3 == "" {
        return Refused("python3 not specified");
      }
      option := option.(langType := LangPython);
      return Hashicorp(path, option);
    } else if ext == ".so" {
      return GoPlugin(path);
    }
    return Refused("unsupported plugin type: " + ext);
  }
}
