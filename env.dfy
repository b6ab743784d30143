/**
 * Process environments as lists of "KEY=VALUE" entries, the form `os.Environ()`
 * returns and `exec.Cmd.Env` takes.
 */
module Env {
  import opened Text

  function Entry(key: string, value: string): string {
    key + "=" + value
  }

  /** The value a child started with `env` reads for `key` (os.Getenv): exec keeps
      only the last entry of a duplicated key, and an unset key reads as "". */
  function Getenv(env: seq<string>, key: string): (v: string)
    ensures env == [] ==> v == ""
  {
    if env == [] then ""
    else
      var e := env[|env| - 1];
      if IsPrefix(key + "=", e) then e[|key| + 1..] else Getenv(env[..|env| - 1], key)
  }

  /** An entry appended last decides what the child reads for its key, whatever the host environment held. */
  lemma GetenvAppended(env: seq<string>, key: string, value: string)
    ensures Getenv(env + [Entry(key, value)], key) == value
  {
    var e := Entry(key, value);
    assert (env + [e])[|env + [e]| - 1] == e;
    assert e[..|key + "="|] == key + "=";
    assert e[|key| + 1..] == value;
  }
}
