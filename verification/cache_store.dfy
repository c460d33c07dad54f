/**
 * The browser's cache storage (`caches`) as the service worker uses it: named
 * caches kept in creation order, each mapping a request URL to a stored response.
 */
module CacheStore {
  import opened Wrappers
  import opened SeqUtil

  /** A request URL: its origin, its path name and the rest (query string). */
  datatype Url = Url(origin: string, path: string, query: string)

  /** A response; bodies are immutable values here (no streams, no `clone()`). */
  datatype Response = Response(status: int, body: string)

  /** `names` lists the caches in creation order, as `caches.keys()` reports them. */
  datatype Store = Store(names: seq<string>, caches: map<string, map<Url, Response>>)

  /** Every cache is listed exactly once. */
  ghost predicate Valid(s: Store) {
    && NoDuplicates(s.names)
    && (forall n :: n in s.names <==> n in s.caches)
  }

  const Empty: Store := Store([], map[])

  /** `caches.open(name)`: the named cache afterwards exists; a new one is empty and listed last. */
  function Open(s: Store, name: string): (t: Store)
    requires Valid(s)
    ensures Valid(t)
    ensures t.caches.Keys == s.caches.Keys + {name}
    ensures t.caches == s.caches[name := if name in s.caches then s.caches[name] else map[]]
    ensures t.names == if name in s.caches then s.names else s.names + [name]
  {
    if name in s.caches then s else Store(s.names + [name], s.caches[name := map[]])
  }

  /** The status of a partial response, which the Cache API refuses to store. */
  const PartialContent: int := 206

  /**
   * `cache.put(key, response)` on the cache `name`, opening it first. The
   * opening always happens; the put itself rejects a partial (206) response
   * and then stores nothing.
   */
  function Put(s: Store, name: string, key: Url, response: Response): (t: Store)
    requires Valid(s)
    ensures Valid(t)
    ensures t.names == Open(s, name).names
    ensures t.caches.Keys == s.caches.Keys + {name}
    ensures response.status != PartialContent ==> key in t.caches[name] && t.caches[name][key] == response
    ensures t.caches[name] == if response.status == PartialContent then Open(s, name).caches[name]
                              else (if name in s.caches then s.caches[name] else map[])[key := response]
    ensures t.caches == s.caches[name := t.caches[name]]
  {
    var o := Open(s, name);
    if response.status == PartialContent then o
    else Store(o.names, o.caches[name := o.caches[name][key := response]])
  }

  /** `caches.delete(name)`: the cache and all its entries are gone. */
  function Delete(s: Store, name: string): (t: Store)
    requires Valid(s)
    ensures Valid(t)
    ensures t.caches.Keys == s.caches.Keys - {name}
    ensures forall n :: n in t.caches ==> t.caches[n] == s.caches[n]
    // the remaining caches keep their creation order
    ensures t.names == Filter(s.names, Other(name))
  {
    FilterNoDuplicates(s.names, Other(name));
    assert forall n :: n in Filter(s.names, Other(name)) <==> n in s.names && n != name by {
      forall n ensures n in Filter(s.names, Other(name)) <==> n in s.names && n != name {
        FilterContains(s.names, Other(name), n);
      }
    }
    Store(Filter(s.names, Other(name)), s.caches - {name})
  }

  /** `cache.match(key)` on one named cache. */
  function MatchIn(s: Store, name: string, key: Url): Option<Response> {
    if name in s.caches && key in s.caches[name] then Some(s.caches[name][key]) else None
  }

  /** The cache `name` exists and holds an entry for `key`. */
  predicate Holds(caches: map<string, map<Url, Response>>, name: string, key: Url) {
    name in caches && key in caches[name]
  }

  /**
   * `caches.match(key)`: searches every cache, in creation order, and answers
   * with the entry of the first cache that holds the key.
   */
  function MatchAll(names: seq<string>, caches: map<string, map<Url, Response>>, key: Url): (r: Option<Response>)
    ensures r.Some? <==> exists n :: n in names && Holds(caches, n, key)
    ensures r.Some? ==> (exists i :: 0 <= i < |names| && Holds(caches, names[i], key)
                                     && r.value == caches[names[i]][key]
                                     && forall j :: 0 <= j < i ==> !Holds(caches, names[j], key))
  {
    if names == [] then None
    else if Holds(caches, names[0], key) then Some(caches[names[0]][key])
    else
      var r := MatchAll(names[1..], caches, key);
      if r.Some? then
        ghost var i :| 0 <= i < |names[1..]| && Holds(caches, names[1..][i], key)
          && r.value == caches[names[1..][i]][key]
          && forall j :: 0 <= j < i ==> !Holds(caches, names[1..][j], key);
        assert names[i + 1] == names[1..][i];
        r
      else r
  }

  /** When exactly one cache holds the key, a search of all caches finds that cache's entry. */
  lemma {:induction false} MatchAllUnique(s: Store, name: string, key: Url)
    requires Valid(s)
    requires Holds(s.caches, name, key)
    requires forall n :: n in s.caches && n != name ==> key !in s.caches[n]
    ensures MatchAll(s.names, s.caches, key) == Some(s.caches[name][key])
  {
    var r := MatchAll(s.names, s.caches, key);
    assert name in s.names;
    var i :| 0 <= i < |s.names| && Holds(s.caches, s.names[i], key)
      && r.value == s.caches[s.names[i]][key];
    assert s.names[i] == name;
  }

  /** A search of all caches depends only on the entries stored under `key`. */
  lemma {:induction false} MatchAllAgrees(names: seq<string>, c1: map<string, map<Url, Response>>,
                                          c2: map<string, map<Url, Response>>, key: Url)
    requires forall n :: n in names ==>
      (Holds(c1, n, key) <==> Holds(c2, n, key)) && (Holds(c1, n, key) ==> c1[n][key] == c2[n][key])
    ensures MatchAll(names, c1, key) == MatchAll(names, c2, key)
  {
    if names != [] {
      MatchAllAgrees(names[1..], c1, c2, key);
    }
  }
}
