/**
 * The existence cache of the hashicorp host plugins (`hashicorpPlugin.Has`, in
 * hashicorp_plugin.go and again in go/hashicorp_plugin.go): a map from function
 * name to a remembered yes/no, filled on a miss from the remote GetNames list.
 * A failed GetNames is answered with "no" and is not remembered.
 */
module ExistenceCache {
  import opened Wrappers

  /** What Has answers, and the cache after it. `remote` is the reply of
      funcCaller.GetNames (None when it returned an error); a hit never consults it. */
  function HasStep(cache: map<string, bool>, name: string, remote: Option<seq<string>>): (bool, map<string, bool>) {
    if name in cache then (cache[name], cache)
    else if remote.None? then (false, cache)
    else
      var found := name in remote.value;
      (found, cache[name := found])
  }

  /** A cached name is answered from the cache, whatever GetNames would say, and the cache is kept. */
  lemma CacheHit(cache: map<string, bool>, name: string, remote: Option<seq<string>>)
    requires name in cache
    ensures HasStep(cache, name, remote) == (cache[name], cache)
  {
  }

  /** On a miss with a GetNames list, the answer is membership in the list and that answer,
      true or false, is remembered under the name. */
  lemma MissCachesMembership(cache: map<string, bool>, name: string, names: seq<string>)
    requires name !in cache
    ensures HasStep(cache, name, Some(names)).0 <==> name in names
    ensures HasStep(cache, name, Some(names)).1 == cache[name := name in names]
  {
  }

  /** A failed GetNames answers false and leaves the cache as it was. */
  lemma RemoteFailureNotCached(cache: map<string, bool>, name: string)
    requires name !in cache
    ensures HasStep(cache, name, None) == (false, cache)
  {
  }

  /** The cache only grows: no key is dropped and no remembered answer changes. */
  lemma CacheOnlyGrows(cache: map<string, bool>, name: string, remote: Option<seq<string>>)
    ensures cache.Keys <= HasStep(cache, name, remote).1.Keys
    ensures forall k :: k in cache ==> HasStep(cache, name, remote).1[k] == cache[k]
    ensures HasStep(cache, name, remote).1.Keys <= cache.Keys + {name}
  {
  }

  /** Unless GetNames failed, asking again gives the same answer without touching the cache,
      whatever the remote side replies the second time. */
  lemma HasIdempotent(cache: map<string, bool>, name: string, remote: Option<seq<string>>, again: Option<seq<string>>)
    requires name in cache || remote.Some?
    ensures var (b, c) := HasStep(cache, name, remote);
      HasStep(c, name, again) == (b, c)
  {
  }

  /** The cache agrees with a remote function list. */
  predicate Agrees(cache: map<string, bool>, names: seq<string>) {
    forall k :: k in cache ==> (cache[k] <==> k in names)
  }

  /** While the remote list does not change, Has keeps the cache in agreement with it
      and answers exactly membership in it — so the cache never gives a wrong answer. */
  lemma HasSound(cache: map<string, bool>, name: string, names: seq<string>)
    requires Agrees(cache, names)
    ensures HasStep(cache, name, Some(names)).0 <==> name in names
    ensures Agrees(HasStep(cache, name, Some(names)).1, names)
  {
  }

  /** The loop of Has over the GetNames list: whether `name` occurs in it. */
  method Occurs(names: seq<string>, name: string) returns (found: bool)
    ensures found <==> name in names
  {
    found := false;
    var i := 0;
    while i < |names|
      invariant 0 <= i <= |names|
      invariant name !in names[..i]
    {
      if names[i] == name {
        return true;
      }
      i := i + 1;
    }
    assert names[..i] == names;
  }
}
