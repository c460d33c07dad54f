/**
 * The offline cache controller of the launcher: the `install`, `activate` and
 * `fetch` handlers of its service worker. The network is an input: a fetch
 * either resolves with a response or fails.
 */
module ServiceWorker {
  import opened Wrappers
  import opened SeqUtil
  import opened JsStrings
  import opened CacheStore

  const CacheName := "hopeignites-app-launcher-v1.1"
  const StaticCache := "hopeignites-static-v1.1"
  const ImageCache := "hopeignites-images-v1.1"
  const DataCache := "hopeignites-data-v1.1"

  const StaticAssets: seq<string> := ["/", "/index.html", "/styles.css", "/scripts.js", "/manifest.json"]
  const ImageAssets: seq<string> :=
    ["/assets/light-logo.png", "/assets/dark-logo.png", "/assets/universal.png",
     "/assets/sso-badge.png", "/assets/hq-badge.png"]
  const DataAssets: seq<string> := ["/portal-data.json"]
  const ImagePrefix := "/assets/"

  /** The cache generations activation keeps. */
  const CurrentCaches: seq<string> := [StaticCache, ImageCache, DataCache, CacheName]

  datatype Request = Request(verb: string, url: Url)

  /** What one `fetch(request)` does: resolve with a response (of any status) or reject. */
  datatype NetOutcome = Ok(response: Response) | Fail

  /**
   * What the page gets: the request is not intercepted at all, or the worker
   * answers with a response, or the promise given to `respondWith` rejects or
   * resolves to `undefined`, which the page sees as a network error.
   */
  datatype Reply = NotIntercepted | Served(response: Response) | NetworkError

  datatype Route = PassThrough | StaticRoute | ImageRoute | DataRoute | CrossOriginRoute | CatchAllRoute

  /** The order in which the fetch handler tests the routes. */
  function Rank(r: Route): nat {
    match r
    case PassThrough => 0
    case StaticRoute => 1
    case ImageRoute => 2
    case DataRoute => 3
    case CrossOriginRoute => 4
    case CatchAllRoute => 5
  }

  /** The test each route makes on its own, ignoring the routes checked before it. */
  predicate Applies(r: Route, req: Request, selfOrigin: string) {
    match r
    case PassThrough => req.verb != "GET"
    case StaticRoute => req.url.path in StaticAssets
    case ImageRoute => StartsWith(req.url.path, ImagePrefix)
    case DataRoute => req.url.path in DataAssets
    case CrossOriginRoute => req.url.origin != selfOrigin
    case CatchAllRoute => true
  }

  /** The branch of the fetch handler that a request takes: the first route, in rank order, whose test holds. */
  function Classify(req: Request, selfOrigin: string): (r: Route)
    ensures Applies(r, req, selfOrigin)
    ensures forall q: Route :: Rank(q) < Rank(r) ==> !Applies(q, req, selfOrigin)
  {
    if req.verb != "GET" then PassThrough
    else if req.url.path in StaticAssets then StaticRoute
    else if StartsWith(req.url.path, ImagePrefix) then ImageRoute
    else if req.url.path in DataAssets then DataRoute
    else if req.url.origin != selfOrigin then CrossOriginRoute
    else CatchAllRoute
  }

  /** A cache lookup handed to `respondWith`: a miss (`undefined`) is a network error. */
  function Answer(m: Option<Response>): Reply {
    match m
    case Some(r) => Served(r)
    case None => NetworkError
  }

  /** The outcome of handling one request: the new cache storage and the reply. */
  datatype Step = Step(store: Store, reply: Reply)

  /** The shell document the static branch falls back to, resolved against the worker's origin. */
  function IndexUrl(selfOrigin: string): Url {
    Url(selfOrigin, "/index.html", "")
  }

  /** Static assets: cache first over all caches; a miss stores whatever the network gave. */
  function StaticStep(s: Store, req: Request, net: NetOutcome, selfOrigin: string): Step
    requires Valid(s)
  {
    match MatchAll(s.names, s.caches, req.url)
    case Some(hit) => Step(s, Served(hit))
    case None =>
      match net
      case Ok(response) => Step(Put(s, StaticCache, req.url, response), Served(response))
      case Fail => Step(s, Answer(MatchAll(s.names, s.caches, IndexUrl(selfOrigin))))
  }

  /** Images: cache first over all caches; a miss stores only a status-200 response. */
  function ImageStep(s: Store, req: Request, net: NetOutcome): Step
    requires Valid(s)
  {
    match MatchAll(s.names, s.caches, req.url)
    case Some(hit) => Step(s, Served(hit))
    case None =>
      match net
      case Ok(response) =>
        if response.status == 200 then Step(Put(s, ImageCache, req.url, response), Served(response))
        else Step(s, Served(response))
      case Fail => Step(s, NetworkError)
  }

  /** The data file: the data cache is opened, then the network is tried first. */
  function DataStep(s: Store, req: Request, net: NetOutcome): Step
    requires Valid(s)
  {
    var openedStore := Open(s, DataCache);
    match net
    case Ok(response) =>
      if response.status == 200 then Step(Put(openedStore, DataCache, req.url, response), Served(response))
      else Step(openedStore, Served(response))
    case Fail => Step(openedStore, Answer(MatchIn(openedStore, DataCache, req.url)))
  }

  /** Cross-origin requests: the network alone. */
  function CrossOriginStep(s: Store, net: NetOutcome): Step {
    match net
    case Ok(response) => Step(s, Served(response))
    case Fail => Step(s, NetworkError)
  }

  /** Everything else: network first, a status-200 response is stored, a failure falls back to all caches. */
  function CatchAllStep(s: Store, req: Request, net: NetOutcome): Step
    requires Valid(s)
  {
    match net
    case Ok(response) =>
      if response.status == 200 then Step(Put(s, CacheName, req.url, response), Served(response))
      else Step(s, Served(response))
    case Fail => Step(s, Answer(MatchAll(s.names, s.caches, req.url)))
  }

  /** The whole fetch handler. */
  function FetchStep(s: Store, req: Request, net: NetOutcome, selfOrigin: string): Step
    requires Valid(s)
  {
    RouteStep(s, req, net, selfOrigin, Classify(req, selfOrigin))
  }

  /** The branch `r` of the fetch handler. */
  function RouteStep(s: Store, req: Request, net: NetOutcome, selfOrigin: string, r: Route): Step
    requires Valid(s)
  {
    match r
    case PassThrough => Step(s, NotIntercepted)
    case StaticRoute => StaticStep(s, req, net, selfOrigin)
    case ImageRoute => ImageStep(s, req, net)
    case DataRoute => DataStep(s, req, net)
    case CrossOriginRoute => CrossOriginStep(s, net)
    case CatchAllRoute => CatchAllStep(s, req, net)
  }

  /** The one cache a route may write to, if any. */
  function TargetCache(r: Route): Option<string> {
    match r
    case PassThrough => None
    case StaticRoute => Some(StaticCache)
    case ImageRoute => Some(ImageCache)
    case DataRoute => Some(DataCache)
    case CrossOriginRoute => None
    case CatchAllRoute => Some(CacheName)
  }

  // ----- properties of the fetch handler -----

  /** Non-GET requests are never answered by the worker and change nothing. */
  lemma NonGetPassesThrough(s: Store, req: Request, net: NetOutcome, selfOrigin: string)
    requires Valid(s)
    requires req.verb != "GET"
    ensures FetchStep(s, req, net, selfOrigin) == Step(s, NotIntercepted)
  {
  }

  /**
   * The path tests come before the origin test: a GET to another origin whose
   * path is a static asset is served by the static branch.
   */
  lemma CrossOriginStaticPathIsCached(req: Request, selfOrigin: string)
    requires req.verb == "GET" && req.url.path in StaticAssets && req.url.origin != selfOrigin
    ensures Classify(req, selfOrigin) == StaticRoute
  {
  }

  /** `t` differs from `s` at most in the cache `target`. */
  predicate ChangesOnly(s: Store, t: Store, target: Option<string>) {
    && (target.None? ==> t == s)
    && (target.Some? ==> t.caches.Keys <= s.caches.Keys + {target.value})
    && (forall n :: n in s.caches && (target.None? || n != target.value) ==> n in t.caches && t.caches[n] == s.caches[n])
  }

  /** `cache.put` changes only the cache it writes to; so does a branch that either puts or leaves the storage alone. */
  lemma PutChangesOnly(s: Store, t: Store, name: string, key: Url, net: NetOutcome)
    requires Valid(s)
    requires t == s || (net.Ok? && t == Put(s, name, key, net.response))
    ensures Valid(t) && ChangesOnly(s, t, Some(name))
  {
    if t != s {
      forall n | n in s.caches && n != name
        ensures n in t.caches && t.caches[n] == s.caches[n]
      {
        assert t.caches == s.caches[name := t.caches[name]];
      }
    }
  }

  /** Generation isolation: handling a request writes to at most the cache of its route. */
  lemma OnlyTargetCacheChanges(s: Store, req: Request, net: NetOutcome, selfOrigin: string)
    requires Valid(s)
    ensures Valid(FetchStep(s, req, net, selfOrigin).store)
    ensures ChangesOnly(s, FetchStep(s, req, net, selfOrigin).store, TargetCache(Classify(req, selfOrigin)))
  {
    RouteChangesOnly(s, req, net, selfOrigin, Classify(req, selfOrigin));
  }

  /** Each branch writes to at most its own cache. */
  lemma {:induction false} RouteChangesOnly(s: Store, req: Request, net: NetOutcome, selfOrigin: string, r: Route)
    requires Valid(s)
    ensures Valid(RouteStep(s, req, net, selfOrigin, r).store)
    ensures ChangesOnly(s, RouteStep(s, req, net, selfOrigin, r).store, TargetCache(r))
  {
    var t := RouteStep(s, req, net, selfOrigin, r).store;
    match r
    case PassThrough =>
    case StaticRoute => PutChangesOnly(s, t, StaticCache, req.url, net);
    case ImageRoute => PutChangesOnly(s, t, ImageCache, req.url, net);
    case DataRoute =>
      var o := Open(s, DataCache);
      PutChangesOnly(o, t, DataCache, req.url, net);
      assert o.caches == s.caches[DataCache := o.caches[DataCache]];
    case CrossOriginRoute =>
    case CatchAllRoute => PutChangesOnly(s, t, CacheName, req.url, net);
  }

  /** Cache-first routes answer a cached request from the cache, with no change and whatever the network would do. */
  lemma CacheFirstHit(s: Store, req: Request, net: NetOutcome, selfOrigin: string)
    requires Valid(s)
    requires Classify(req, selfOrigin) in {StaticRoute, ImageRoute}
    requires MatchAll(s.names, s.caches, req.url).Some?
    ensures FetchStep(s, req, net, selfOrigin) == Step(s, Served(MatchAll(s.names, s.caches, req.url).value))
  {
  }

  /**
   * A static asset fetched on a miss is stored (unless it is partial), so a
   * repeat request gets the same response from the cache, whatever the
   * network does the second time.
   */
  lemma {:induction false} StaticRepeatIsIdempotent(s: Store, req: Request, net1: NetOutcome, net2: NetOutcome, selfOrigin: string)
    requires Valid(s)
    requires Classify(req, selfOrigin) == StaticRoute
    requires MatchAll(s.names, s.caches, req.url).Some? || (net1.Ok? && net1.response.status != PartialContent)
    ensures var first := FetchStep(s, req, net1, selfOrigin);
            first.reply.Served? && FetchStep(first.store, req, net2, selfOrigin) == Step(first.store, first.reply)
  {
    if MatchAll(s.names, s.caches, req.url).None? {
      var t := Put(s, StaticCache, req.url, net1.response);
      MatchAllUnique(t, StaticCache, req.url);
    }
  }

  /** An image fetched with status 200 on a miss is stored, and a repeat request is answered from the cache. */
  lemma {:induction false} ImageRepeatIsIdempotent(s: Store, req: Request, net1: NetOutcome, net2: NetOutcome, selfOrigin: string)
    requires Valid(s)
    requires Classify(req, selfOrigin) == ImageRoute
    requires MatchAll(s.names, s.caches, req.url).Some? || (net1.Ok? && net1.response.status == 200)
    ensures var first := FetchStep(s, req, net1, selfOrigin);
            first.reply.Served? && FetchStep(first.store, req, net2, selfOrigin) == Step(first.store, first.reply)
  {
    if MatchAll(s.names, s.caches, req.url).None? {
      var t := Put(s, ImageCache, req.url, net1.response);
      MatchAllUnique(t, ImageCache, req.url);
    }
  }

  /** An image response other than 200 is returned but not stored; a network failure propagates. */
  lemma ImageMissNotStored(s: Store, req: Request, net: NetOutcome, selfOrigin: string)
    requires Valid(s)
    requires Classify(req, selfOrigin) == ImageRoute
    requires MatchAll(s.names, s.caches, req.url).None?
    requires net.Fail? || net.response.status != 200
    ensures FetchStep(s, req, net, selfOrigin)
         == Step(s, if net.Ok? then Served(net.response) else NetworkError)
  {
  }

  /**
   * On a miss, a cache-first route returns the network's response and hands it
   * to `cache.put` on its own cache: the static route whatever the status,
   * the image route only with status 200.
   */
  lemma CacheFirstMissStores(s: Store, req: Request, r: Response, selfOrigin: string)
    requires Valid(s)
    requires Classify(req, selfOrigin) in {StaticRoute, ImageRoute}
    requires MatchAll(s.names, s.caches, req.url).None?
    requires Classify(req, selfOrigin) == ImageRoute ==> r.status == 200
    ensures FetchStep(s, req, Ok(r), selfOrigin)
         == Step(Put(s, TargetCache(Classify(req, selfOrigin)).value, req.url, r), Served(r))
  {
  }

  /** A static miss with the network down falls back to the cached shell document, or fails. */
  lemma StaticOfflineFallback(s: Store, req: Request, selfOrigin: string)
    requires Valid(s)
    requires Classify(req, selfOrigin) == StaticRoute
    requires MatchAll(s.names, s.caches, req.url).None?
    ensures FetchStep(s, req, Fail, selfOrigin) == Step(s, Answer(MatchAll(s.names, s.caches, IndexUrl(selfOrigin))))
  {
  }

  /** Freshness over cache: a 200 data response is returned and replaces the cached copy. */
  lemma DataFreshOverCache(s: Store, req: Request, response: Response, selfOrigin: string)
    requires Valid(s)
    requires Classify(req, selfOrigin) == DataRoute
    requires response.status == 200
    ensures var t := FetchStep(s, req, Ok(response), selfOrigin);
            t.reply == Served(response) && MatchIn(t.store, DataCache, req.url) == Some(response)
  {
  }

  /** A non-200 data response is returned as it is, and the data cache keeps its entries. */
  lemma DataErrorKeepsCache(s: Store, req: Request, response: Response, selfOrigin: string)
    requires Valid(s)
    requires Classify(req, selfOrigin) == DataRoute
    requires response.status != 200
    ensures var t := FetchStep(s, req, Ok(response), selfOrigin);
            && t.reply == Served(response)
            && t.store.caches[DataCache] == (if DataCache in s.caches then s.caches[DataCache] else map[])
  {
  }

  /** With the network down, the data file comes from the data cache alone, or the failure propagates. */
  lemma DataOfflineFallback(s: Store, req: Request, selfOrigin: string)
    requires Valid(s)
    requires Classify(req, selfOrigin) == DataRoute
    ensures FetchStep(s, req, Fail, selfOrigin).reply
         == if MatchIn(s, DataCache, req.url).Some? then Served(MatchIn(s, DataCache, req.url).value) else NetworkError
  {
  }

  /** Cross-origin requests (once reached) get exactly the network's result; the caches are not touched. */
  lemma CrossOriginBypassesCache(s: Store, req: Request, net: NetOutcome, selfOrigin: string)
    requires Valid(s)
    requires Classify(req, selfOrigin) == CrossOriginRoute
    ensures FetchStep(s, req, net, selfOrigin)
         == Step(s, if net.Ok? then Served(net.response) else NetworkError)
  {
  }

  /** The catch-all branch stores a 200 response in its own cache; offline, it searches every cache. */
  lemma CatchAllPolicy(s: Store, req: Request, net: NetOutcome, selfOrigin: string)
    requires Valid(s)
    requires Classify(req, selfOrigin) == CatchAllRoute
    ensures var t := FetchStep(s, req, net, selfOrigin);
            && (net.Ok? && net.response.status == 200 ==> t.reply == Served(net.response) && MatchIn(t.store, CacheName, req.url) == Some(net.response))
            && (net.Ok? && net.response.status != 200 ==> t == Step(s, Served(net.response)))
            && (net.Fail? ==> t == Step(s, Answer(MatchAll(s.names, s.caches, req.url))))
  {
  }

  // ----- install -----

  /** An asset path resolved against the worker's origin. */
  function AssetUrl(selfOrigin: string, path: string): Url {
    Url(selfOrigin, path, "")
  }

  /** The keys an `addAll` of `paths` writes. */
  function AssetUrls(selfOrigin: string, paths: seq<string>): set<Url> {
    set p | p in paths :: AssetUrl(selfOrigin, p)
  }

  /** A fetch that resolved with an ok (2xx) status other than 206, which `addAll` also refuses. */
  predicate OkStatus(n: NetOutcome) {
    n.Ok? && 200 <= n.response.status <= 299 && n.response.status != PartialContent
  }

  /** `cache.addAll` accepts only ok responses; one bad fetch fails the whole batch. */
  predicate AllOk(paths: seq<string>, fetch: Url -> NetOutcome, selfOrigin: string) {
    forall p :: p in paths ==> OkStatus(fetch(AssetUrl(selfOrigin, p)))
  }

  /** A cache after storing the fetched response of every path, in list order. */
  function Stored(c: map<Url, Response>, paths: seq<string>, fetch: Url -> NetOutcome, selfOrigin: string): map<Url, Response>
    requires AllOk(paths, fetch, selfOrigin)
  {
    if paths == [] then c
    else
      var last := paths[|paths| - 1];
      assert forall p :: p in paths[..|paths| - 1] ==> p in paths;
      Stored(c, paths[..|paths| - 1], fetch, selfOrigin)[AssetUrl(selfOrigin, last) := fetch(AssetUrl(selfOrigin, last)).response]
  }

  /** After `addAll`, the cache holds the fetched response of every path and keeps its other entries. */
  lemma {:induction false} StoredContents(c: map<Url, Response>, paths: seq<string>, fetch: Url -> NetOutcome, selfOrigin: string)
    requires AllOk(paths, fetch, selfOrigin)
    ensures var r := Stored(c, paths, fetch, selfOrigin);
            && r.Keys == c.Keys + AssetUrls(selfOrigin, paths)
            && (forall p :: p in paths ==> r[AssetUrl(selfOrigin, p)] == fetch(AssetUrl(selfOrigin, p)).response)
            && (forall k :: k in c && k !in AssetUrls(selfOrigin, paths) ==> r[k] == c[k])
  {
    if paths != [] {
      var init := paths[..|paths| - 1];
      var last := paths[|paths| - 1];
      assert paths == init + [last];
      assert forall p :: p in init ==> p in paths;
      StoredContents(c, init, fetch, selfOrigin);
      assert AssetUrls(selfOrigin, paths) == AssetUrls(selfOrigin, init) + {AssetUrl(selfOrigin, last)};
    }
  }

  /** `caches.open(name).then(cache => cache.addAll(paths))`: all the entries or none. */
  function AfterAddAll(s: Store, name: string, paths: seq<string>, fetch: Url -> NetOutcome, selfOrigin: string): (t: Store)
    requires Valid(s)
    ensures Valid(t)
    ensures t.caches.Keys == s.caches.Keys + {name}
    ensures t.caches == s.caches[name := t.caches[name]]
    ensures t.caches[name] == if AllOk(paths, fetch, selfOrigin)
                              then Stored(Open(s, name).caches[name], paths, fetch, selfOrigin)
                              else Open(s, name).caches[name]
  {
    var openedStore := Open(s, name);
    if AllOk(paths, fetch, selfOrigin) then
      Store(openedStore.names, openedStore.caches[name := Stored(openedStore.caches[name], paths, fetch, selfOrigin)])
    else openedStore
  }

  datatype Installed = Installed(store: Store, ok: bool)

  /** The install handler: each of the three caches is opened in turn and filled from its list. */
  function AfterInstall(s: Store, fetch: Url -> NetOutcome, selfOrigin: string): (r: Installed)
    requires Valid(s)
    ensures Valid(r.store)
  {
    var a := AfterAddAll(s, StaticCache, StaticAssets, fetch, selfOrigin);
    var b := AfterAddAll(a, ImageCache, ImageAssets, fetch, selfOrigin);
    var c := AfterAddAll(b, DataCache, DataAssets, fetch, selfOrigin);
    Installed(c, AllOk(StaticAssets, fetch, selfOrigin) && AllOk(ImageAssets, fetch, selfOrigin) && AllOk(DataAssets, fetch, selfOrigin))
  }

  /** Each cache install fills, with its asset list. */
  const InstallLists: seq<(string, seq<string>)> :=
    [(StaticCache, StaticAssets), (ImageCache, ImageAssets), (DataCache, DataAssets)]

  /** A cache that ends up as a successful `addAll` left it holds every path of the list. */
  lemma AddAllFillsStore(before: Store, t: Store, name: string, paths: seq<string>, fetch: Url -> NetOutcome, selfOrigin: string)
    requires Valid(before) && AllOk(paths, fetch, selfOrigin)
    requires name in t.caches && t.caches[name] == AfterAddAll(before, name, paths, fetch, selfOrigin).caches[name]
    ensures forall p :: p in paths ==>
              var n := fetch(AssetUrl(selfOrigin, p));
              OkStatus(n) && MatchIn(t, name, AssetUrl(selfOrigin, p)) == Some(n.response)
  {
    StoredContents(Open(before, name).caches[name], paths, fetch, selfOrigin);
  }

  /** After a successful install, each of the three caches holds every path of its list. */
  lemma InstallFillsCaches(s: Store, fetch: Url -> NetOutcome, selfOrigin: string, k: nat)
    requires Valid(s) && k < |InstallLists|
    requires AfterInstall(s, fetch, selfOrigin).ok
    ensures forall p :: p in InstallLists[k].1 ==>
              var n := fetch(AssetUrl(selfOrigin, p));
              OkStatus(n) && MatchIn(AfterInstall(s, fetch, selfOrigin).store, InstallLists[k].0, AssetUrl(selfOrigin, p)) == Some(n.response)
  {
    var a := AfterAddAll(s, StaticCache, StaticAssets, fetch, selfOrigin);
    var b := AfterAddAll(a, ImageCache, ImageAssets, fetch, selfOrigin);
    var c := AfterAddAll(b, DataCache, DataAssets, fetch, selfOrigin);
    var name := InstallLists[k].0;
    var paths := InstallLists[k].1;
    var before := if k == 0 then s else if k == 1 then a else b;
    assert AfterInstall(s, fetch, selfOrigin).store == c;
    assert Valid(before) && AllOk(paths, fetch, selfOrigin) by {
      assert AfterInstall(s, fetch, selfOrigin).ok == (AllOk(StaticAssets, fetch, selfOrigin) && AllOk(ImageAssets, fetch, selfOrigin) && AllOk(DataAssets, fetch, selfOrigin));
    }
    assert name in c.caches && c.caches[name] == AfterAddAll(before, name, paths, fetch, selfOrigin).caches[name];
    AddAllFillsStore(before, c, name, paths, fetch, selfOrigin);
  }

  /** `addAll` into one cache leaves every other cache, and what opening it gives, as they were. */
  lemma AddAllElsewhere(s: Store, name: string, paths: seq<string>, fetch: Url -> NetOutcome, selfOrigin: string, m: string)
    requires Valid(s) && m != name
    ensures var t := AfterAddAll(s, name, paths, fetch, selfOrigin);
            && (m in t.caches <==> m in s.caches)
            && (m in s.caches ==> t.caches[m] == s.caches[m])
            && Open(t, m).caches[m] == Open(s, m).caches[m]
  {
    var t := AfterAddAll(s, name, paths, fetch, selfOrigin);
    assert t.caches == s.caches[name := t.caches[name]];
  }

  /** A list that fails to fetch leaves its cache as it was before install (or empty, if it was new). */
  lemma InstallIsAtomicPerList(s: Store, fetch: Url -> NetOutcome, selfOrigin: string)
    requires Valid(s)
    ensures var r := AfterInstall(s, fetch, selfOrigin);
            && (!AllOk(StaticAssets, fetch, selfOrigin) ==> r.store.caches[StaticCache] == Open(s, StaticCache).caches[StaticCache])
            && (!AllOk(ImageAssets, fetch, selfOrigin) ==> r.store.caches[ImageCache] == Open(s, ImageCache).caches[ImageCache])
            && (!AllOk(DataAssets, fetch, selfOrigin) ==> r.store.caches[DataCache] == Open(s, DataCache).caches[DataCache])
  {
    var a := AfterAddAll(s, StaticCache, StaticAssets, fetch, selfOrigin);
    var b := AfterAddAll(a, ImageCache, ImageAssets, fetch, selfOrigin);
    var c := AfterAddAll(b, DataCache, DataAssets, fetch, selfOrigin);
    assert AfterInstall(s, fetch, selfOrigin).store == c;
    AddAllElsewhere(a, ImageCache, ImageAssets, fetch, selfOrigin, StaticCache);
    AddAllElsewhere(b, DataCache, DataAssets, fetch, selfOrigin, StaticCache);
    AddAllElsewhere(s, StaticCache, StaticAssets, fetch, selfOrigin, ImageCache);
    AddAllElsewhere(b, DataCache, DataAssets, fetch, selfOrigin, ImageCache);
    AddAllElsewhere(s, StaticCache, StaticAssets, fetch, selfOrigin, DataCache);
    AddAllElsewhere(a, ImageCache, ImageAssets, fetch, selfOrigin, DataCache);
  }

  /** Install creates the three caches when they are missing, and no other. */
  lemma InstallCreatesItsCaches(s: Store, fetch: Url -> NetOutcome, selfOrigin: string)
    requires Valid(s)
    ensures AfterInstall(s, fetch, selfOrigin).store.caches.Keys == s.caches.Keys + {StaticCache, ImageCache, DataCache}
  {
  }

  /** Install leaves every other cache as it was. */
  lemma InstallKeepsOtherCaches(s: Store, fetch: Url -> NetOutcome, selfOrigin: string)
    requires Valid(s)
    ensures forall n :: n in s.caches && n != StaticCache && n != ImageCache && n != DataCache
                     ==> AfterInstall(s, fetch, selfOrigin).store.caches[n] == s.caches[n]
  {
    var a := AfterAddAll(s, StaticCache, StaticAssets, fetch, selfOrigin);
    var b := AfterAddAll(a, ImageCache, ImageAssets, fetch, selfOrigin);
    var c := AfterAddAll(b, DataCache, DataAssets, fetch, selfOrigin);
    assert AfterInstall(s, fetch, selfOrigin).store == c;
    forall n | n in s.caches && n != StaticCache && n != ImageCache && n != DataCache
      ensures c.caches[n] == s.caches[n]
    {
      AddAllElsewhere(s, StaticCache, StaticAssets, fetch, selfOrigin, n);
      AddAllElsewhere(a, ImageCache, ImageAssets, fetch, selfOrigin, n);
      AddAllElsewhere(b, DataCache, DataAssets, fetch, selfOrigin, n);
    }
  }

  // ----- activate -----

  predicate IsCurrent(name: string) {
    name in CurrentCaches
  }

  /** The storage after the activate handler's clean-up. */
  function Activated(s: Store): Store {
    Store(Filter(s.names, IsCurrent), map n | n in s.caches && IsCurrent(n) :: s.caches[n])
  }

  /**
   * Activation keeps exactly the current generations that existed, with their
   * entries; every other name, a foreign one too, is deleted.
   */
  lemma ActivateCleansUp(s: Store)
    requires Valid(s)
    ensures var t := Activated(s);
            && Valid(t)
            && (forall n :: n in t.caches <==> n in s.caches && n in CurrentCaches)
            && (forall n :: n in t.caches ==> t.caches[n] == s.caches[n])
  {
    FilterNoDuplicates(s.names, IsCurrent);
    forall n ensures n in Filter(s.names, IsCurrent) <==> n in s.names && IsCurrent(n) {
      FilterContains(s.names, IsCurrent, n);
    }
  }

  // ----- the worker and its cache storage -----

  /**
   * A service worker of the launcher, with the browser's cache storage it
   * manages and the two lifecycle calls it makes.
   */
  class Worker {
    /** `location.origin` of the worker. */
    const origin: string
    /** Cache names in creation order. */
    var names: seq<string>
    var caches: map<string, map<Url, Response>>
    /** `self.skipWaiting()` has been called. */
    var waitingSkipped: bool
    /** `self.clients.claim()` has been called. */
    var clientsClaimed: bool

    function Storage(): Store
      reads this
    {
      Store(names, caches)
    }

    ghost predicate Valid()
      reads this
    {
      CacheStore.Valid(Storage())
    }

    /** A new worker over the caches a previous version left behind. */
    constructor (origin: string, existing: Store)
      requires CacheStore.Valid(existing)
      ensures Valid() && this.origin == origin && Storage() == existing
      ensures !waitingSkipped && !clientsClaimed
    {
      this.origin := origin;
      names, caches := existing.names, existing.caches;
      waitingSkipped, clientsClaimed := false, false;
    }

    method OpenCache(name: string)
      requires Valid()
      modifies this`names, this`caches
      ensures Valid() && Storage() == Open(old(Storage()), name)
    {
      if name !in caches {
        names := names + [name];
        caches := caches[name := map[]];
      }
    }

    method PutEntry(name: string, key: Url, response: Response)
      requires Valid()
      modifies this`names, this`caches
      ensures Valid() && Storage() == Put(old(Storage()), name, key, response)
    {
      OpenCache(name);
      if response.status != PartialContent {
        caches := caches[name := caches[name][key := response]];
      }
    }

    method DeleteCache(name: string)
      requires Valid()
      modifies this`names, this`caches
      ensures Valid() && Storage() == Delete(old(Storage()), name)
    {
      var t := Delete(Storage(), name);
      names, caches := t.names, t.caches;
    }

    /** The install handler; `fetch` gives the network's answer for each asset URL. */
    method Install(fetch: Url -> NetOutcome) returns (ok: bool)
      requires Valid()
      modifies this`names, this`caches, this`waitingSkipped
      ensures Valid()
      ensures Installed(Storage(), ok) == AfterInstall(old(Storage()), fetch, origin)
      ensures waitingSkipped == (old(waitingSkipped) || ok)
    {
      ok := FillCaches(fetch);
      if ok {
        waitingSkipped := true;
      }
    }

    /** The three `addAll` calls of the install handler, in order. */
    method FillCaches(fetch: Url -> NetOutcome) returns (ok: bool)
      requires Valid()
      modifies this`names, this`caches
      ensures Valid()
      ensures Installed(Storage(), ok) == AfterInstall(old(Storage()), fetch, origin)
    {
      ghost var start := Storage();
      var staticOk := AddAll(StaticCache, StaticAssets, fetch);
      ghost var a := Storage();
      var imagesOk := AddAll(ImageCache, ImageAssets, fetch);
      ghost var b := Storage();
      var dataOk := AddAll(DataCache, DataAssets, fetch);
      ok := staticOk && imagesOk && dataOk;
      assert a == AfterAddAll(start, StaticCache, StaticAssets, fetch, origin);
      assert b == AfterAddAll(a, ImageCache, ImageAssets, fetch, origin);
      assert Storage() == AfterAddAll(b, DataCache, DataAssets, fetch, origin);
    }

    /** `cache.addAll(paths)` on an opened cache: every entry is stored, or none. */
    method AddAll(name: string, paths: seq<string>, fetch: Url -> NetOutcome) returns (ok: bool)
      requires Valid()
      modifies this`names, this`caches
      ensures Valid()
      ensures Storage() == AfterAddAll(old(Storage()), name, paths, fetch, origin)
      ensures ok == AllOk(paths, fetch, origin)
    {
      OpenCache(name);
      ghost var base := Storage();
      ok := AllOk(paths, fetch, origin);
      if ok {
        var i := 0;
        while i < |paths|
          invariant 0 <= i <= |paths|
          invariant AllOk(paths[..i], fetch, origin)
          invariant names == base.names
          invariant caches == base.caches[name := Stored(base.caches[name], paths[..i], fetch, origin)]
        {
          assert paths[..i + 1][..i] == paths[..i];
          caches := caches[name := caches[name][AssetUrl(origin, paths[i]) := fetch(AssetUrl(origin, paths[i])).response]];
          i := i + 1;
        }
        assert paths[..i] == paths;
      }
    }

    /** The activate handler: every cache whose name is not current is deleted, then clients are claimed. */
    method Activate()
      requires Valid()
      modifies this`names, this`caches, this`clientsClaimed
      ensures Valid()
      ensures Storage() == Activated(old(Storage()))
      ensures clientsClaimed
    {
      ghost var start := Storage();
      var cacheNames := names;
      var i := 0;
      assert Sweeping(start, 0) == start;
      while i < |cacheNames|
        invariant 0 <= i <= |cacheNames| && cacheNames == start.names
        invariant Valid() && Storage() == Sweeping(start, i)
      {
        var name := cacheNames[i];
        SweepStep(start, i);
        if !IsCurrent(name) {
          DeleteCache(name);
        }
        i := i + 1;
      }
      SweepDone(start);
      clientsClaimed := true;
    }

    /** The fetch handler: the reply and the new storage are those of `FetchStep`. */
    method HandleFetch(req: Request, net: NetOutcome) returns (reply: Reply)
      requires Valid()
      modifies this`names, this`caches
      ensures Valid()
      ensures Step(Storage(), reply) == FetchStep(old(Storage()), req, net, origin)
    {
      if req.verb != "GET" {
        return NotIntercepted;
      }
      if req.url.path in StaticAssets {
        reply := HandleStatic(req, net);
        return;
      }
      if StartsWith(req.url.path, ImagePrefix) {
        reply := HandleImage(req, net);
        return;
      }
      if req.url.path in DataAssets {
        reply := HandleData(req, net);
        return;
      }
      if req.url.origin != origin {
        reply := if net.Ok? then Served(net.response) else NetworkError;
        return;
      }
      reply := HandleCatchAll(req, net);
    }

    method HandleStatic(req: Request, net: NetOutcome) returns (reply: Reply)
      requires Valid()
      modifies this`names, this`caches
      ensures Valid()
      ensures Step(Storage(), reply) == StaticStep(old(Storage()), req, net, origin)
    {
      var hit := MatchAll(names, caches, req.url);
      if hit.Some? {
        reply := Served(hit.value);
      } else if net.Ok? {
        PutEntry(StaticCache, req.url, net.response);
        reply := Served(net.response);
      } else {
        reply := Answer(MatchAll(names, caches, IndexUrl(origin)));
      }
    }

    method HandleImage(req: Request, net: NetOutcome) returns (reply: Reply)
      requires Valid()
      modifies this`names, this`caches
      ensures Valid()
      ensures Step(Storage(), reply) == ImageStep(old(Storage()), req, net)
    {
      var hit := MatchAll(names, caches, req.url);
      if hit.Some? {
        reply := Served(hit.value);
      } else if net.Fail? {
        reply := NetworkError;
      } else {
        if net.response.status == 200 {
          PutEntry(ImageCache, req.url, net.response);
        }
        reply := Served(net.response);
      }
    }

    method HandleData(req: Request, net: NetOutcome) returns (reply: Reply)
      requires Valid()
      modifies this`names, this`caches
      ensures Valid()
      ensures Step(Storage(), reply) == DataStep(old(Storage()), req, net)
    {
      OpenCache(DataCache);
      if net.Ok? {
        if net.response.status == 200 {
          PutEntry(DataCache, req.url, net.response);
        }
        reply := Served(net.response);
      } else {
        reply := Answer(MatchIn(Storage(), DataCache, req.url));
      }
    }

    method HandleCatchAll(req: Request, net: NetOutcome) returns (reply: Reply)
      requires Valid()
      modifies this`names, this`caches
      ensures Valid()
      ensures Step(Storage(), reply) == CatchAllStep(old(Storage()), req, net)
    {
      if net.Ok? {
        if net.response.status == 200 {
          PutEntry(CacheName, req.url, net.response);
        }
        reply := Served(net.response);
      } else {
        reply := Answer(MatchAll(names, caches, req.url));
      }
    }
  }

  /** The storage part-way through activation, once the first `i` names have been examined. */
  function Sweeping(s: Store, i: nat): Store
    requires i <= |s.names|
  {
    Store(Filter(s.names[..i], IsCurrent) + s.names[i..],
          map n | n in s.caches && (IsCurrent(n) || n in s.names[i..]) :: s.caches[n])
  }

  /** Examining one more name deletes it if it is not current, and otherwise changes nothing. */
  lemma SweepStep(s: Store, i: nat)
    requires Valid(s) && i < |s.names| && Valid(Sweeping(s, i))
    ensures Sweeping(s, i + 1) == if IsCurrent(s.names[i]) then Sweeping(s, i) else Delete(Sweeping(s, i), s.names[i])
  {
    var x := s.names[i];
    var a, b := Sweeping(s, i), Sweeping(s, i + 1);
    SweepNamesStep(s.names, i);
    SweepCachesStep(s, i);
    if IsCurrent(x) {
      assert b.names == a.names && b.caches == a.caches;
    } else {
      var d := Delete(a, x);
      assert d.names == b.names && d.caches == b.caches;
    }
  }

  /** The name list of one sweep step. */
  lemma SweepNamesStep(names: seq<string>, i: nat)
    requires i < |names| && NoDuplicates(names)
    ensures Filter(names[..i + 1], IsCurrent) + names[i + 1..]
         == if IsCurrent(names[i]) then Filter(names[..i], IsCurrent) + names[i..]
            else Filter(Filter(names[..i], IsCurrent) + names[i..], Other(names[i]))
  {
    var x := names[i];
    if IsCurrent(x) {
      assert names[i..] == [x] + names[i + 1..];
      assert names[..i + 1] == names[..i] + [x];
      FilterSnoc(names[..i], x, IsCurrent);
    } else {
      ActivateDeleteStep(names, i);
    }
  }

  /** The cache map of one sweep step. */
  lemma SweepCachesStep(s: Store, i: nat)
    requires Valid(s) && i < |s.names|
    ensures Sweeping(s, i + 1).caches
         == if IsCurrent(s.names[i]) then Sweeping(s, i).caches else Sweeping(s, i).caches - {s.names[i]}
  {
    var x := s.names[i];
    assert s.names[i..] == [x] + s.names[i + 1..];
    assert x !in s.names[i + 1..];
    forall n ensures n in s.names[i + 1..] <==> n in s.names[i..] && n != x {
    }
  }

  /** Once every name is examined, the storage is the activated one. */
  lemma SweepDone(s: Store)
    ensures Sweeping(s, |s.names|) == Activated(s)
  {
    assert s.names[..|s.names|] == s.names;
    assert s.names[|s.names|..] == [];
  }

  /** One deletion in the activate loop keeps the loop's description of the remaining names. */
  lemma {:induction false} ActivateDeleteStep(cacheNames: seq<string>, i: nat)
    requires i < |cacheNames| && NoDuplicates(cacheNames) && !IsCurrent(cacheNames[i])
    ensures Filter(Filter(cacheNames[..i], IsCurrent) + cacheNames[i..], Other(cacheNames[i]))
         == Filter(cacheNames[..i + 1], IsCurrent) + cacheNames[i + 1..]
  {
    var x := cacheNames[i];
    var done := Filter(cacheNames[..i], IsCurrent);
    var rest := cacheNames[i + 1..];
    assert Filter(done, Other(x)) == done by {
      FilterMembers(cacheNames[..i], IsCurrent);
      assert forall k :: 0 <= k < |done| ==> done[k] in cacheNames[..i];
      FilterAll(done, Other(x));
    }
    assert Filter([x] + rest, Other(x)) == rest by {
      assert Filter([x], Other(x)) == [] by { FilterNone([x], Other(x)); }
      FilterAll(rest, Other(x));
      FilterConcat([x], rest, Other(x));
    }
    assert Filter(cacheNames[..i + 1], IsCurrent) == done by {
      assert Filter([x], IsCurrent) == [] by { FilterNone([x], IsCurrent); }
      assert cacheNames[..i + 1] == cacheNames[..i] + [x];
      FilterConcat(cacheNames[..i], [x], IsCurrent);
    }
    assert cacheNames[i..] == [x] + rest;
    FilterConcat(done, [x] + rest, Other(x));
  }
}
