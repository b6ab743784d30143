/**
 * The Python package helpers of myexec/cmd.go: reading a "name==version"
 * package spec, checking the installed version, the install decision flow,
 * and the PATH that RunCommand gives the commands it runs. Running a command
 * is an input: its output or its error.
 */
module MyExec {
  import opened Wrappers
  import opened Text

  // ---------------------------------------------------------------------------
  // Package spec and version check

  /** The name and version InstallPythonPackage reads from `pkg`: the first two
      "=="-separated pieces, or the whole spec and no version. */
  function ParseSpec(pkg: string): (string, string) {
    if Contains(pkg, "==") then
      var info := Split(pkg, "==");
      (info[0], info[1])
    else (pkg, "")
  }

  /** Without "==" the whole spec is the name and there is no version. */
  lemma SpecWithoutVersion(pkg: string)
    requires !Contains(pkg, "==")
    ensures ParseSpec(pkg) == (pkg, "")
  {
  }

  /** The two pieces ParseSpec takes, in terms of the text around the first "==". */
  lemma SpecPieces(pkg: string)
    requires Contains(pkg, "==")
    ensures var i := Index(pkg, "==").value;
      && i + 2 <= |pkg|
      && ParseSpec(pkg) == (pkg[..i], Split(pkg[i + 2..], "==")[0])
      && !Contains(ParseSpec(pkg).0, "==") && !Contains(ParseSpec(pkg).1, "==")
  {
    var i := Index(pkg, "==").value;
    SplitHead(pkg, "==");
    SplitPiecesFree(pkg, "==");
  }

  /** The spec begins with the name, "==" and the text after the first "==". */
  lemma SpecAroundSeparator(pkg: string)
    requires Contains(pkg, "==")
    ensures var i := Index(pkg, "==").value;
      i + 2 <= |pkg| && pkg == pkg[..i] + "==" + pkg[i + 2..]
  {
    var i := Index(pkg, "==").value;
    var rest := pkg[i + 2..];
    assert pkg[i..i + 2] == "==";
    assert pkg[i..] == pkg[i..i + 2] + rest;
    assert pkg == pkg[..i] + pkg[i..];
  }

  /** With "==", the name is the text before the first "==" and the version is the text
      after it up to the next "==", or to the end when there is none; neither contains "==". */
  lemma SpecWithVersion(pkg: string)
    requires Contains(pkg, "==")
    ensures var (name, version) := ParseSpec(pkg);
      && name == pkg[..Index(pkg, "==").value]
      && !Contains(name, "==") && !Contains(version, "==")
      && IsPrefix(name + "==" + version, pkg)
      && var rest := pkg[|name| + 2..];
         && (Contains(rest, "==") ==> version == rest[..Index(rest, "==").value])
         && (!Contains(rest, "==") ==> version == rest)
  {
    var i := Index(pkg, "==").value;
    var rest := pkg[i + 2..];
    SpecPieces(pkg);
    SpecAroundSeparator(pkg);
    SplitHead(rest, "==");
    var (name, version) := ParseSpec(pkg);
    assert IsPrefix(version, rest);
    assert (name + "==" + version) == (name + "==" + rest)[..|name| + 2 + |version|];
  }

  /** The command whose output AssertPythonPackage reads. */
  function ImportCommand(python3: string, name: string): seq<string> {
    [python3, "-c", "\"import " + name + "; print(" + name + ".__version__)\""]
  }

  /** AssertPythonPackage. `importOut` is the output of ImportCommand, None when it failed. */
  function AssertPackage(name: string, version: string, importOut: Option<string>): (err: Option<string>)
    ensures err == None <==>
      importOut.Some? && (version == "" || TrimLeftV(TrimSpace(importOut.value)) == TrimLeftV(version))
    ensures importOut.None? ==> err == Some("python package " + name + " not found")
  {
    if importOut.None? then Some("python package " + name + " not found")
    else if version == "" then None
    else
      var installed := TrimSpace(importOut.value);
      if TrimLeftV(installed) != TrimLeftV(version) then
        Some("python package " + name + " version " + installed + " not matched, please upgrade to " + version)
      else None
  }

  /** Leading 'v's are ignored on both sides and whitespace around the installed version. */
  lemma LeadingVIgnored()
    ensures AssertPackage("funppy", "v0.5.0", Some("0.5.0\n")) == None
  {
    assert !IsSpace('0') && IsSpace('\n') && !IsV('0') && IsV('v');
    assert DropWhile("0.5.0\n", IsSpace) == "0.5.0\n";
    assert "0.5.0\n"[..5] == "0.5.0";
    assert DropLastWhile("0.5.0", IsSpace) == "0.5.0";
    assert DropLastWhile("0.5.0\n", IsSpace) == "0.5.0";
    assert "v0.5.0"[1..] == "0.5.0";
    assert DropWhile("0.5.0", IsV) == "0.5.0";
    assert TrimLeftV("v0.5.0") == "0.5.0";
  }

  /** A version that starts with neither 'v' nor whitespace and ends in no whitespace is
      left as it is by the trimming. */
  lemma UntrimmedVersion(s: string)
    requires s != [] && !IsSpace(s[0]) && !IsV(s[0]) && !IsSpace(s[|s| - 1])
    ensures TrimLeftV(TrimSpace(s)) == s
  {
    assert DropWhile(s, IsSpace) == s;
    assert DropLastWhile(s, IsSpace) == s;
    assert DropWhile(s, IsV) == s;
  }

  /** Whitespace around the required version is not trimmed: " 0.5.0" does not match "0.5.0". */
  lemma RequiredVersionNotTrimmed()
    ensures AssertPackage("funppy", " 0.5.0", Some("0.5.0")).Some?
  {
    var installed, required := "0.5.0", " 0.5.0";
    assert installed[0] == '0' && installed[|installed| - 1] == '0';
    UntrimmedVersion(installed);
    assert required[0] == ' ';
    assert DropWhile(required, IsV) == required;
    assert |TrimLeftV(required)| != |TrimLeftV(TrimSpace(installed))|;
  }

  // ---------------------------------------------------------------------------
  // Install flow

  const DefaultIndexURL: string := "https://pypi.org/simple"

  /** The package index: PYPI_INDEX_URL as read at start-up, or the public index when empty. */
  function IndexURL(pypiIndexURL: string): (url: string)
    ensures url != ""
    ensures pypiIndexURL != "" ==> url == pypiIndexURL
  {
    if pypiIndexURL == "" then DefaultIndexURL else pypiIndexURL
  }

  function PipCheckCommand(python3: string): seq<string> {
    [python3, "-m", "pip", "--version"]
  }

  function InstallCommand(python3: string, pkg: string, indexURL: string): seq<string> {
    [python3, "-m", "pip", "install", pkg, "--upgrade", "--index-url", indexURL, "--quiet", "--disable-pip-version-check"]
  }

  /** InstallPythonPackage. The outcomes of the commands it runs are inputs: `before` and
      `after` are the outputs of the version check before and after installing, `pipErr`
      the error of the pip check and `installErr` that of the install. `issued` lists the
      commands in the order they are run. */
  method InstallPythonPackage(python3: string, pkg: string, pypiIndexURL: string,
                              before: Option<string>, pipErr: Option<string>,
                              installErr: Option<string>, after: Option<string>)
    returns (err: Option<string>, issued: seq<seq<string>>)
    ensures var (name, version) := ParseSpec(pkg);
      AssertPackage(name, version, before) == None ==>
        err == None && issued == [ImportCommand(python3, name)]
    ensures var (name, version) := ParseSpec(pkg);
      AssertPackage(name, version, before) != None && pipErr.Some? ==>
        err == Some(Wrap("pip is not available", pipErr.value))
        && issued == [ImportCommand(python3, name), PipCheckCommand(python3)]
    ensures var (name, version) := ParseSpec(pkg);
      AssertPackage(name, version, before) != None && pipErr.None? && installErr.Some? ==>
        err == Some(Wrap("pip install package failed", installErr.value))
        && issued == [ImportCommand(python3, name), PipCheckCommand(python3), InstallCommand(python3, pkg, IndexURL(pypiIndexURL))]
    ensures var (name, version) := ParseSpec(pkg);
      AssertPackage(name, version, before) != None && pipErr.None? && installErr.None? ==>
        err == AssertPackage(name, version, after)
        && issued == [ImportCommand(python3, name), PipCheckCommand(python3),
                      InstallCommand(python3, pkg, IndexURL(pypiIndexURL)), ImportCommand(python3, name)]
    ensures var (name, version) := ParseSpec(pkg);
      InstallCommand(python3, pkg, IndexURL(pypiIndexURL)) in issued ==>
        AssertPackage(name, version, before) != None && pipErr.None?
  {
    var spec := ParseSpec(pkg);
    var pkgName, pkgVersion := spec.0, spec.1;
    var check := ImportCommand(python3, pkgName);
    err := AssertPackage(pkgName, pkgVersion, before);
    if err == None {
      return err, [check];
    }
    var pipCheck := PipCheckCommand(python3);
    if pipErr.Some? {
      assert |pipCheck| != 10 && |check| != 10;
      return Some(Wrap("pip is not available", pipErr.value)), [check, pipCheck];
    }
    var indexURL := pypiIndexURL;
    if indexURL == "" {
      indexURL := DefaultIndexURL;
    }
    var install := InstallCommand(python3, pkg, indexURL);
    if installErr.Some? {
      return Some(Wrap("pip install package failed", installErr.value)), [check, pipCheck, install];
    }
    err := AssertPackage(pkgName, pkgVersion, after);
    issued := [check, pipCheck, install, check];
  }

  // ---------------------------------------------------------------------------
  // RunCommand and the process PATH

  /** The error RunCommand reports for a failed run: the command's error, wrapped with its
      standard error output when there is any. */
  function RunError(runErr: Option<string>, stderr: string): (err: Option<string>)
    ensures err.None? <==> runErr.None?
    ensures runErr.Some? && stderr == "" ==> err == runErr
    ensures runErr.Some? && stderr != "" ==> err == Some(Wrap(stderr, runErr.value))
  {
    if runErr.None? then None
    else if stderr == "" then runErr
    else Some(Wrap(stderr, runErr.value))
  }

  /** The process environment RunCommand changes: `startupPath` is the PATH read once when
      the package was loaded, `pathEnv` the current value of $PATH. */
  class Process {
    const startupPath: string
    var pathEnv: string

    constructor (startupPath: string)
      ensures this.startupPath == startupPath && pathEnv == startupPath
    {
      this.startupPath := startupPath;
      pathEnv := startupPath;
    }

    /** RunCommand. `setenvErr` is os.Setenv's error, `runErr` and `stderr` the outcome of
        running the command. filepath.Dir is never empty, so PATH is always set: to the
        command's directory before the start-up PATH, never before the current one, so
        repeated calls do not pile up directories. */
    method RunCommand(cmdName: string, setenvErr: Option<string>, runErr: Option<string>, stderr: string)
      returns (err: Option<string>)
      modifies this
      ensures setenvErr.Some? ==> err == setenvErr && pathEnv == old(pathEnv)
      ensures setenvErr.None? ==> pathEnv == Dir(cmdName) + ":" + startupPath
      ensures setenvErr.None? ==> err == RunError(runErr, stderr)
    {
      var cmdDir := Dir(cmdName);
      if cmdDir != "" {
        var path := cmdDir + ":" + startupPath;
        if setenvErr.Some? {
          return setenvErr;
        }
        pathEnv := path;
      }
      if runErr.Some? {
        if stderr != "" {
          return Some(Wrap(stderr, runErr.value));
        }
        return runErr;
      }
      return None;
    }
  }

  /** The PATH a command sees depends only on its own name and the start-up PATH: it ends
      with ":" and the start-up PATH, and a bare command name adds the current directory. */
  lemma PathForCommand(cmdName: string, startupPath: string)
    ensures IsSuffix(":" + startupPath, Dir(cmdName) + ":" + startupPath)
    ensures (forall i :: 0 <= i < |cmdName| ==> cmdName[i] != '/') ==>
      Dir(cmdName) + ":" + startupPath == ".:" + startupPath
  {
    var p := Dir(cmdName) + ":" + startupPath;
    assert p[|p| - |":" + startupPath|..] == ":" + startupPath;
  }
}
