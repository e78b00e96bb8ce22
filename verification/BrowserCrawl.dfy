/**
 The browser-like crawler: a worklist of pages with a depth limit and a page cap, where every page may
 name scripts, and each script is fetched only the first time it is met.
 */
module BrowserCrawl {
  import opened Options
  import opened Collections
  import opened BreadthFirst
  import opened BrowserUrls

  // ----- the site -----

  /** What fetching a page yields: requests seen by the browser, links in the body, URLs of its attributes. */
  datatype Page = Page(network: seq<Url>, candidates: seq<Url>, attributes: seq<Url>)

  /** Deterministic fetches, keyed by canonical URL; an absent key is a failed fetch. */
  datatype Site = Site(base: Url, pages: map<string, Page>, scripts: map<string, seq<Url>>)

  function ScriptUrls(base: Url, attributes: seq<Url>): seq<Url> {
    if attributes == [] then []
    else
      var rest := ScriptUrls(base, attributes[1..]);
      if SameOrigin(base, attributes[0]) && IsScript(attributes[0]) then [attributes[0]] + rest else rest
  }

  function LinksOfScript(site: Site, key: string): seq<Url> {
    if key in site.scripts then site.scripts[key] else []
  }

  predicate InScripts(site: Site, scriptUrls: seq<Url>, u: Url) {
    exists s :: s in scriptUrls && u in LinksOfScript(site, Key(s))
  }

  predicate OnScript(site: Site, page: Page, u: Url) {
    InScripts(site, ScriptUrls(site.base, page.attributes), u)
  }

  /** `u` appears on the page, or in one of its scripts. */
  predicate Shows(site: Site, page: Page, u: Url) {
    u in page.network || u in page.candidates || OnScript(site, page, u)
  }

  predicate Crawlable(site: Site, u: Url) {
    SameOrigin(site.base, u) && IsPage(u)
  }

  predicate Recordable(site: Site, u: Url) {
    SameOrigin(site.base, u) && !IsDestructive(u)
  }

  /** Page `b` can be reached from page `a` in one hop. */
  ghost predicate Hop(site: Site, a: string, b: string) {
    a in site.pages && exists u :: Shows(site, site.pages[a], u) && Crawlable(site, u) && Key(u) == b
  }

  ghost function Hops(site: Site): (string, string) -> bool {
    (a: string, b: string) => Hop(site, a, b)
  }

  /** Page `k` is at most `limit` hops from the base. */
  ghost predicate Reached(site: Site, limit: nat, k: string) {
    exists n: nat :: n <= limit && Within(Hops(site), Key(site.base), n, k)
  }

  /** `asset` is a recordable link of page `a`. */
  ghost predicate Offers(site: Site, a: string, asset: string) {
    a in site.pages && exists u :: Shows(site, site.pages[a], u) && Recordable(site, u) && Key(u) == asset
  }

  // ----- following the links of one page -----

  datatype Asset = Asset(url: string, source: string)

  function Entries(site: Site, links: seq<Url>, depth: nat, maxDepth: nat): seq<(Url, nat)> {
    if links == [] then []
    else
      var front, u := Entries(site, links[..|links| - 1], depth, maxDepth), links[|links| - 1];
      if depth < maxDepth && Crawlable(site, u) then front + [(u, depth + 1)] else front
  }

  function RecordedKeys(site: Site, links: seq<Url>): set<string> {
    set u | u in links && Recordable(site, u) :: Key(u)
  }

  lemma {:induction false} EntriesFacts(site: Site, links: seq<Url>, depth: nat, maxDepth: nat)
    ensures forall q ::
      q in Entries(site, links, depth, maxDepth)
      ==> q.1 == depth + 1 <= maxDepth && q.0 in links && Crawlable(site, q.0)
    ensures depth < maxDepth ==> forall u ::
      u in links && Crawlable(site, u) ==> (u, depth + 1) in Entries(site, links, depth, maxDepth)
  {
    if links != [] {
      EntriesFacts(site, links[..|links| - 1], depth, maxDepth);
      assert links == links[..|links| - 1] + [links[|links| - 1]];
    }
  }

  lemma {:induction false} EntriesAppend(site: Site, a: seq<Url>, b: seq<Url>, depth: nat, maxDepth: nat)
    ensures Entries(site, a + b, depth, maxDepth)
      == Entries(site, a, depth, maxDepth) + Entries(site, b, depth, maxDepth)
  {
    if b == [] {
      assert a + b == a;
    } else {
      assert (a + b)[..|a + b| - 1] == a + b[..|b| - 1];
      EntriesAppend(site, a, b[..|b| - 1], depth, maxDepth);
    }
  }

  predicate AssetsOk(assets: seq<Asset>, discovered: set<string>) {
    && (forall i :: 0 <= i < |assets| ==> assets[i].url in discovered)
    && (forall k :: k in discovered ==> exists i :: 0 <= i < |assets| && assets[i].url == k)
    && (forall i, j :: 0 <= i < j < |assets| ==> assets[i].url != assets[j].url)
  }

  lemma AssetAdded(assets: seq<Asset>, discovered: set<string>, asset: Asset)
    requires AssetsOk(assets, discovered) && asset.url !in discovered
    ensures AssetsOk(assets + [asset], discovered + {asset.url})
  {
    var more := assets + [asset];
    forall k | k in discovered + {asset.url}
      ensures exists i :: 0 <= i < |more| && more[i].url == k
    {
      if k == asset.url {
        assert more[|assets|].url == k;
      } else {
        var i :| 0 <= i < |assets| && assets[i].url == k;
        assert more[i].url == k;
      }
    }
  }

  const FROM_NETWORK := "discovery::browser_network"
  const FROM_PAGE := "discovery::browser"
  const FROM_SCRIPT := "discovery::browser_js"

  /** The assets that a list of links adds to those `discovered`: the first link of each new key. */
  function NewAssets(site: Site, links: seq<Url>, source: string, discovered: set<string>): seq<Asset> {
    if links == [] then []
    else
      var (front, u) := (links[..|links| - 1], links[|links| - 1]);
      NewAssets(site, front, source, discovered)
      + if Recordable(site, u) && Key(u) !in discovered + RecordedKeys(site, front) then [Asset(Key(u), source)] else []
  }

  predicate NamesAsset(site: Site, links: seq<Url>, key: string) {
    exists i :: 0 <= i < |links| && Recordable(site, links[i]) && Key(links[i]) == key
  }

  lemma {:induction false} NewAssetsFacts(site: Site, links: seq<Url>, source: string, discovered: set<string>)
    ensures forall a :: a in NewAssets(site, links, source, discovered) ==>
      a.source == source && a.url !in discovered && NamesAsset(site, links, a.url)
  {
    hide Key, Recordable;
    if links != [] {
      var front := links[..|links| - 1];
      NewAssetsFacts(site, front, source, discovered);
      forall key | NamesAsset(site, front, key)
        ensures NamesAsset(site, links, key)
      {
        var i :| 0 <= i < |front| && Recordable(site, front[i]) && Key(front[i]) == key;
        assert links[i] == front[i];
      }
    }
  }

  lemma {:induction false} NewAssetsAppend(site: Site, a: seq<Url>, b: seq<Url>, source: string,
      discovered: set<string>)
    ensures NewAssets(site, a + b, source, discovered)
      == NewAssets(site, a, source, discovered) + NewAssets(site, b, source, discovered + RecordedKeys(site, a))
  {
    if b == [] {
      assert a + b == a;
    } else {
      assert (a + b)[..|a + b| - 1] == a + b[..|b| - 1];
      NewAssetsAppend(site, a, b[..|b| - 1], source, discovered);
      RecordedAppend(site, a, b[..|b| - 1]);
      hide Key, Recordable, RecordedKeys;
    }
  }

  /** What following links leaves behind. */
  datatype Trail = Trail(queue: seq<(Url, nat)>, discovered: set<string>, assets: seq<Asset>)

  function Followed(site: Site, links: seq<Url>, source: string, depth: nat, maxDepth: nat, t: Trail): Trail {
    Trail(t.queue + Entries(site, links, depth, maxDepth), t.discovered + RecordedKeys(site, links),
          t.assets + NewAssets(site, links, source, t.discovered))
  }

  /** What link `i` adds to the queue, the keys and the assets. */
  lemma FollowStep(site: Site, links: seq<Url>, i: nat, source: string, depth: nat, maxDepth: nat, t: Trail)
    requires i < |links|
    ensures
      var (u, before) := (links[i], Followed(site, links[..i], source, depth, maxDepth, t));
      var records := SameOrigin(site.base, u) && !IsDestructive(u) && Key(u) !in before.discovered;
      Followed(site, links[..i + 1], source, depth, maxDepth, t) == Trail(
        if SameOrigin(site.base, u) && depth < maxDepth && IsPage(u) then before.queue + [(u, depth + 1)]
        else before.queue,
        if records then before.discovered + {Key(u)} else before.discovered,
        if records then before.assets + [Asset(Key(u), source)] else before.assets)
  {
    hide SameOrigin, IsDestructive, IsPage, Key;
    assert links[..i + 1][..i] == links[..i] && links[..i + 1] == links[..i] + [links[i]];
  }

  lemma FollowStart(site: Site, source: string, depth: nat, maxDepth: nat, t: Trail)
    ensures Followed(site, [], source, depth, maxDepth, t) == t
  {
  }

  lemma FollowedMeans(site: Site, links: seq<Url>, source: string, depth: nat, maxDepth: nat, t: Trail)
    ensures
      var t' := Followed(site, links, source, depth, maxDepth, t);
      && t'.queue == t.queue + Entries(site, links, depth, maxDepth)
      && t'.discovered == t.discovered + RecordedKeys(site, links)
      && t'.assets == t.assets + NewAssets(site, links, source, t.discovered)
  {
  }

  /** Records and queues a list of links, in order. */
  method Follow(site: Site, links: seq<Url>, source: string, depth: nat, maxDepth: nat,
                queue: seq<(Url, nat)>, discovered: set<string>, assets: seq<Asset>)
    returns (queue': seq<(Url, nat)>, discovered': set<string>, assets': seq<Asset>)
    requires AssetsOk(assets, discovered)
    ensures queue' == queue + Entries(site, links, depth, maxDepth)
    ensures discovered' == discovered + RecordedKeys(site, links)
    ensures assets' == assets + NewAssets(site, links, source, discovered)
    ensures AssetsOk(assets', discovered')
  {
    hide *;
    queue', discovered', assets' := queue, discovered, assets;
    ghost var t := Trail(queue, discovered, assets);
    FollowStart(site, source, depth, maxDepth, t);
    assert links[..0] == [];
    for i := 0 to |links|
      invariant Trail(queue', discovered', assets') == Followed(site, links[..i], source, depth, maxDepth, t)
      invariant AssetsOk(assets', discovered')
    {
      var u := links[i];
      FollowStep(site, links, i, source, depth, maxDepth, t);
      if SameOrigin(site.base, u) {
        if !IsDestructive(u) && Key(u) !in discovered' {
          AssetAdded(assets', discovered', Asset(Key(u), source));
          discovered' := discovered' + {Key(u)};
          assets' := assets' + [Asset(Key(u), source)];
        }
        if depth < maxDepth && IsPage(u) {
          queue' := queue' + [(u, depth + 1)];
        }
      }
    }
    assert links[..|links|] == links;
    FollowedMeans(site, links, source, depth, maxDepth, t);
  }

  lemma RecordedAppend(site: Site, a: seq<Url>, b: seq<Url>)
    ensures RecordedKeys(site, a + b) == RecordedKeys(site, a) + RecordedKeys(site, b)
  {
  }

  lemma FollowedAppend(site: Site, a: seq<Url>, b: seq<Url>, source: string, depth: nat, maxDepth: nat, t: Trail)
    ensures Followed(site, a + b, source, depth, maxDepth, t)
      == Followed(site, b, source, depth, maxDepth, Followed(site, a, source, depth, maxDepth, t))
  {
    EntriesAppend(site, a, b, depth, maxDepth);
    RecordedAppend(site, a, b);
    NewAssetsAppend(site, a, b, source, t.discovered);
    hide Entries, RecordedKeys, NewAssets;
    var (both, first) :=
      (Followed(site, a + b, source, depth, maxDepth, t), Followed(site, a, source, depth, maxDepth, t));
    var second := Followed(site, b, source, depth, maxDepth, first);
    assert both.queue == second.queue;
    assert both.discovered == second.discovered;
    assert both.assets == second.assets;
  }

  /** `followed` are links of these scripts, and all links of scripts that were not met before. */
  ghost predicate NewLinks(site: Site, scriptUrls: seq<Url>, scripts: set<string>, scripts': set<string>,
      followed: seq<Url>)
  {
    && (forall u :: u in followed ==> InScripts(site, scriptUrls, u))
    && (forall k, u :: k in scripts' && u in LinksOfScript(site, k) ==> u in followed || k in scripts)
  }

  lemma OneMoreScript(site: Site, scriptUrls: seq<Url>, s: Url, scripts: set<string>, scripts': set<string>,
      followed: seq<Url>)
    requires s in scriptUrls && NewLinks(site, scriptUrls, scripts, scripts', followed)
    ensures Key(s) !in site.scripts ==> NewLinks(site, scriptUrls, scripts, scripts' + {Key(s)}, followed)
    ensures Key(s) in site.scripts
      ==> NewLinks(site, scriptUrls, scripts, scripts' + {Key(s)}, followed + site.scripts[Key(s)])
  {
    hide Key;
    assert forall u :: u in LinksOfScript(site, Key(s)) ==> InScripts(site, scriptUrls, u);
    hide InScripts;
  }

  /** Fetches the scripts of a page that have not been met before, and follows their links. */
  method FollowScripts(site: Site, scriptUrls: seq<Url>, depth: nat, maxDepth: nat, scripts: set<string>,
                       queue: seq<(Url, nat)>, discovered: set<string>, assets: seq<Asset>)
    returns (scripts': set<string>, queue': seq<(Url, nat)>, discovered': set<string>, assets': seq<Asset>,
      ghost followed: seq<Url>)
    requires AssetsOk(assets, discovered)
    ensures scripts' == scripts + (set s | s in scriptUrls :: Key(s))
    ensures Trail(queue', discovered', assets')
      == Followed(site, followed, FROM_SCRIPT, depth, maxDepth, Trail(queue, discovered, assets))
    ensures NewLinks(site, scriptUrls, scripts, scripts', followed)
    ensures AssetsOk(assets', discovered')
  {
    scripts', queue', discovered', assets', followed := scripts, queue, discovered, assets, [];
    ghost var t := Trail(queue, discovered, assets);
    FollowStart(site, FROM_SCRIPT, depth, maxDepth, t);
    for i := 0 to |scriptUrls|
      invariant scripts' == scripts + (set s | s in scriptUrls[..i] :: Key(s))
      invariant Trail(queue', discovered', assets') == Followed(site, followed, FROM_SCRIPT, depth, maxDepth, t)
      invariant NewLinks(site, scriptUrls, scripts, scripts', followed)
      invariant AssetsOk(assets', discovered')
    {
      hide *;
      var key := Key(scriptUrls[i]);
      assert scriptUrls[..i + 1] == scriptUrls[..i] + [scriptUrls[i]];
      if key in scripts' {
        continue;
      }
      OneMoreScript(site, scriptUrls, scriptUrls[i], scripts, scripts', followed);
      scripts' := scripts' + {key};
      if key !in site.scripts {
        continue;
      }
      var links := site.scripts[key];
      FollowedAppend(site, followed, links, FROM_SCRIPT, depth, maxDepth, t);
      FollowedMeans(site, links, FROM_SCRIPT, depth, maxDepth, Trail(queue', discovered', assets'));
      queue', discovered', assets' := Follow(site, links, FROM_SCRIPT, depth, maxDepth, queue', discovered', assets');
      followed := followed + links;
    }
    assert scriptUrls[..|scriptUrls|] == scriptUrls;
  }

  /** What following page `a` does, given the scripts fetched before and after. */
  ghost predicate FollowedOk(site: Site, a: string, scripts: set<string>, scripts': set<string>, followed: seq<Url>) {
    && (forall u :: u in followed ==> a in site.pages && Shows(site, site.pages[a], u))
    && (a in site.pages ==> forall u :: Shows(site, site.pages[a], u) ==>
          u in followed || exists k :: k in scripts && u in LinksOfScript(site, k))
    && (forall k, u :: k in scripts' && u in LinksOfScript(site, k) ==> u in followed || k in scripts)
  }

  lemma PageFollowed(site: Site, a: string, scripts: set<string>, scripts': set<string>, fromScripts: seq<Url>,
      followed: seq<Url>)
    requires a in site.pages
    requires scripts' == scripts + (set s | s in ScriptUrls(site.base, site.pages[a].attributes) :: Key(s))
    requires NewLinks(site, ScriptUrls(site.base, site.pages[a].attributes), scripts, scripts', fromScripts)
    requires followed == site.pages[a].network + site.pages[a].candidates + fromScripts
    ensures FollowedOk(site, a, scripts, scripts', followed)
  {
    var page := site.pages[a];
    hide Key, ScriptUrls, LinksOfScript;
    forall u | Shows(site, page, u)
      ensures u in followed || exists k :: k in scripts && u in LinksOfScript(site, k)
    {
      if u !in page.network && u !in page.candidates {
        var s :| s in ScriptUrls(site.base, page.attributes) && u in LinksOfScript(site, Key(s));
        assert Key(s) in scripts';
      }
    }
  }

  /** The asset is a link of the page, at the place its source names. */
  predicate FoundOn(site: Site, key: string, a: Asset) {
    key in site.pages &&
    var page := site.pages[key];
    || (a.source == FROM_NETWORK && NamesAsset(site, page.network, a.url))
    || (a.source == FROM_PAGE && NamesAsset(site, page.candidates, a.url))
    || (a.source == FROM_SCRIPT && exists s ::
      s in ScriptUrls(site.base, page.attributes) && NamesAsset(site, LinksOfScript(site, Key(s)), a.url))
  }

  lemma ScriptAssets(site: Site, page: Page, followed: seq<Url>, url: string)
    requires forall u :: u in followed ==> OnScript(site, page, u)
    requires NamesAsset(site, followed, url)
    ensures exists s ::
      s in ScriptUrls(site.base, page.attributes) && NamesAsset(site, LinksOfScript(site, Key(s)), url)
  {
    hide Key, Recordable, LinksOfScript, ScriptUrls;
    var i :| 0 <= i < |followed| && Recordable(site, followed[i]) && Key(followed[i]) == url;
    assert OnScript(site, page, followed[i]);
    var s :| s in ScriptUrls(site.base, page.attributes) && followed[i] in LinksOfScript(site, Key(s));
    var links := LinksOfScript(site, Key(s));
    var j :| 0 <= j < |links| && links[j] == followed[i];
    assert NamesAsset(site, links, url);
  }

  /** Where the assets that one list of links adds come from. */
  lemma NetworkAssets(site: Site, key: string, discovered: set<string>)
    requires key in site.pages
    ensures forall a ::
      a in NewAssets(site, site.pages[key].network, FROM_NETWORK, discovered) ==> FoundOn(site, key, a)
  {
    NewAssetsFacts(site, site.pages[key].network, FROM_NETWORK, discovered);
    hide NewAssets, NamesAsset, Key, LinksOfScript, ScriptUrls;
  }

  lemma CandidateAssets(site: Site, key: string, discovered: set<string>)
    requires key in site.pages
    ensures forall a ::
      a in NewAssets(site, site.pages[key].candidates, FROM_PAGE, discovered) ==> FoundOn(site, key, a)
  {
    NewAssetsFacts(site, site.pages[key].candidates, FROM_PAGE, discovered);
    hide NewAssets, NamesAsset, Key, LinksOfScript, ScriptUrls;
  }

  lemma PageScriptAssets(site: Site, key: string, discovered: set<string>, followed: seq<Url>)
    requires key in site.pages && forall u :: u in followed ==> OnScript(site, site.pages[key], u)
    ensures forall a :: a in NewAssets(site, followed, FROM_SCRIPT, discovered) ==> FoundOn(site, key, a)
  {
    NewAssetsFacts(site, followed, FROM_SCRIPT, discovered);
    hide NewAssets, NamesAsset, Key, LinksOfScript, ScriptUrls, OnScript;
    forall a | a in NewAssets(site, followed, FROM_SCRIPT, discovered)
      ensures FoundOn(site, key, a)
    {
      ScriptAssets(site, site.pages[key], followed, a.url);
    }
  }

  /** Three lists of links followed one after the other. */
  lemma ThreeParts(site: Site, a: seq<Url>, b: seq<Url>, c: seq<Url>, depth: nat, maxDepth: nat)
    ensures Entries(site, a + b + c, depth, maxDepth)
      == Entries(site, a, depth, maxDepth) + Entries(site, b, depth, maxDepth) + Entries(site, c, depth, maxDepth)
    ensures RecordedKeys(site, a + b + c) == RecordedKeys(site, a) + RecordedKeys(site, b) + RecordedKeys(site, c)
  {
    EntriesAppend(site, a + b, c, depth, maxDepth);
    EntriesAppend(site, a, b, depth, maxDepth);
    RecordedAppend(site, a + b, c);
    RecordedAppend(site, a, b);
    hide Entries, RecordedKeys;
  }

  /** One fetched page: its requests, its links, then its scripts. */
  method FollowPage(site: Site, key: string, depth: nat, maxDepth: nat, scripts: set<string>,
                    queue: seq<(Url, nat)>, discovered: set<string>, assets: seq<Asset>)
    returns (scripts': set<string>, queue': seq<(Url, nat)>, discovered': set<string>, assets': seq<Asset>,
      ghost followed: seq<Url>)
    requires AssetsOk(assets, discovered) && key in site.pages
    ensures queue' == queue + Entries(site, followed, depth, maxDepth)
    ensures discovered' == discovered + RecordedKeys(site, followed)
    ensures AssetsOk(assets', discovered')
    ensures assets <= assets' && forall a :: a in assets' ==> a in assets || FoundOn(site, key, a)
    ensures FollowedOk(site, key, scripts, scripts', followed)
  {
    hide *;
    var page := site.pages[key];
    queue', discovered', assets' :=
      Follow(site, page.network, FROM_NETWORK, depth, maxDepth, queue, discovered, assets);
    NetworkAssets(site, key, discovered);
    CandidateAssets(site, key, discovered');
    queue', discovered', assets' :=
      Follow(site, page.candidates, FROM_PAGE, depth, maxDepth, queue', discovered', assets');
    ghost var (queue2, discovered2, assets2) := (queue', discovered', assets');
    var scriptUrls := ScriptUrls(site.base, page.attributes);
    ghost var fromScripts: seq<Url>;
    scripts', queue', discovered', assets', fromScripts :=
      FollowScripts(site, scriptUrls, depth, maxDepth, scripts, queue', discovered', assets');
    FollowedMeans(site, fromScripts, FROM_SCRIPT, depth, maxDepth, Trail(queue2, discovered2, assets2));
    followed := page.network + page.candidates + fromScripts;
    ThreeParts(site, page.network, page.candidates, fromScripts, depth, maxDepth);
    PageFollowed(site, key, scripts, scripts', fromScripts, followed);
    LinksAreOnScripts(site, page, scripts, scripts', fromScripts);
    PageScriptAssets(site, key, discovered2, fromScripts);
  }

  lemma LinksAreOnScripts(site: Site, page: Page, scripts: set<string>, scripts': set<string>, followed: seq<Url>)
    requires NewLinks(site, ScriptUrls(site.base, page.attributes), scripts, scripts', followed)
    ensures forall u :: u in followed ==> OnScript(site, page, u)
  {
    hide InScripts, ScriptUrls;
  }

  // ----- the crawl: what holds at every pop -----

  /** The worklist, what has been visited, fetched and recorded, and the depth each page was first queued at. */
  datatype Crawl = Crawl(queue: seq<(Url, nat)>, visited: set<string>, scripts: set<string>, discovered: set<string>,
      depth: map<string, nat>)

  predicate Awaits(queue: seq<(Url, nat)>, key: string, depth: nat) {
    exists i :: 0 <= i < |queue| && Key(queue[i].0) == key && queue[i].1 == depth
  }

  ghost predicate QueueOk(maxDepth: nat, c: Crawl) {
    && Layered(c.queue)
    && (forall i :: 0 <= i < |c.queue| ==>
          c.queue[i].1 <= maxDepth && Key(c.queue[i].0) in c.depth && c.depth[Key(c.queue[i].0)] <= c.queue[i].1)
  }

  ghost predicate VisitedOk(c: Crawl) {
    && (forall k :: k in c.visited ==> k in c.depth)
    && (forall k :: k in c.depth ==> k in c.visited || Awaits(c.queue, k, c.depth[k]))
    && (forall k, i :: k in c.visited && 0 <= i < |c.queue| ==> c.depth[k] <= c.queue[i].1)
  }

  ghost predicate HopsOk(site: Site, maxDepth: nat, c: Crawl) {
    && Key(site.base) in c.depth && c.depth[Key(site.base)] == 0
    && (forall a, b :: a in c.visited && a in c.depth && c.depth[a] < maxDepth && Hop(site, a, b) ==>
          b in c.depth && c.depth[b] <= c.depth[a] + 1)
  }

  /** Links of a fetched script need not be followed again: their pages are queued already. */
  ghost predicate ScriptsOk(site: Site, maxDepth: nat, c: Crawl) {
    c.queue != [] && c.queue[0].1 < maxDepth ==>
      forall k, u :: k in c.scripts && u in LinksOfScript(site, k) && Crawlable(site, u) ==> Key(u) in c.depth
  }

  ghost predicate SoundOk(site: Site, maxDepth: nat, c: Crawl) {
    forall k :: k in c.depth ==> c.depth[k] <= maxDepth && Within(Hops(site), Key(site.base), c.depth[k], k)
  }

  ghost predicate RecordOk(site: Site, c: Crawl) {
    && (forall k :: k in c.discovered <==> exists p :: p in c.visited && Offers(site, p, k))
    && (forall k, u :: k in c.scripts && u in LinksOfScript(site, k) && Recordable(site, u) ==> Key(u) in c.discovered)
  }

  ghost predicate CrawlOk(site: Site, maxDepth: nat, c: Crawl) {
    && QueueOk(maxDepth, c) && VisitedOk(c) && HopsOk(site, maxDepth, c)
    && ScriptsOk(site, maxDepth, c) && SoundOk(site, maxDepth, c) && RecordOk(site, c)
  }

  lemma CrawlStart(site: Site, maxDepth: nat)
    ensures CrawlOk(site, maxDepth, Crawl([(site.base, 0)], {}, {}, {}, map[Key(site.base) := 0]))
  {
    var c := Crawl([(site.base, 0)], {}, {}, {}, map[Key(site.base) := 0]);
    assert Key(c.queue[0].0) == Key(site.base) && c.queue[0].1 == 0;
    assert Awaits(c.queue, Key(site.base), 0);
  }

  // ----- popping a page that has been visited before -----

  lemma SkipKeeps(site: Site, maxDepth: nat, c: Crawl)
    requires CrawlOk(site, maxDepth, c) && c.queue != [] && Key(c.queue[0].0) in c.visited
    ensures CrawlOk(site, maxDepth, c.(queue := c.queue[1..]))
  {
    SkipQueue(maxDepth, c);
    SkipVisited(c);
    hide Awaits, Within, Hop, Offers, LinksOfScript, Crawlable, Recordable, Key;
  }

  lemma SkipQueue(maxDepth: nat, c: Crawl)
    requires QueueOk(maxDepth, c) && c.queue != []
    ensures QueueOk(maxDepth, c.(queue := c.queue[1..]))
  {
    hide Key;
  }

  lemma SkipVisited(c: Crawl)
    requires VisitedOk(c) && c.queue != [] && Key(c.queue[0].0) in c.visited
    ensures VisitedOk(c.(queue := c.queue[1..]))
  {
    forall k | k in c.depth && k !in c.visited
      ensures Awaits(c.queue[1..], k, c.depth[k])
    {
      AwaitsMoves(c.queue, [], k, c.depth[k]);
      assert c.queue[1..] + [] == c.queue[1..];
    }
    hide Awaits, Key;
  }

  lemma AwaitsMoves(queue: seq<(Url, nat)>, more: seq<(Url, nat)>, key: string, depth: nat)
    requires queue != []
    ensures Awaits(queue, key, depth) ==> key == Key(queue[0].0) || Awaits(queue[1..] + more, key, depth)
    ensures Awaits(more, key, depth) ==> Awaits(queue[1..] + more, key, depth)
  {
    hide Key;
    var next := queue[1..] + more;
    if i :| 0 <= i < |queue| && Key(queue[i].0) == key && queue[i].1 == depth {
      if i > 0 {
        assert next[i - 1] == queue[i];
      }
    }
    if i :| 0 <= i < |more| && Key(more[i].0) == key && more[i].1 == depth {
      assert next[|queue| - 1 + i] == more[i];
    }
  }

  // ----- popping a new page -----

  function Deepen(depth: map<string, nat>, more: seq<(Url, nat)>, d: nat): map<string, nat> {
    (map q | q in more :: Key(q.0) := d) + depth
  }

  lemma DeepenFacts(depth: map<string, nat>, more: seq<(Url, nat)>, d: nat)
    ensures forall k :: k in depth ==> k in Deepen(depth, more, d) && Deepen(depth, more, d)[k] == depth[k]
    ensures forall q :: q in more ==> Key(q.0) in Deepen(depth, more, d)
    ensures forall k :: k in Deepen(depth, more, d) && k !in depth ==>
      Deepen(depth, more, d)[k] == d && exists q :: q in more && Key(q.0) == k
  {
    hide Key;
  }

  function Visit(site: Site, maxDepth: nat, c: Crawl, scripts: set<string>, followed: seq<Url>): Crawl
    requires c.queue != []
  {
    var d := c.queue[0].1;
    var more := Entries(site, followed, d, maxDepth);
    Crawl(c.queue[1..] + more, c.visited + {Key(c.queue[0].0)}, scripts,
          c.discovered + RecordedKeys(site, followed), Deepen(c.depth, more, d + 1))
  }

  /** The first time a page is popped, it is popped at the depth it was first queued at. */
  lemma HeadDepth(maxDepth: nat, c: Crawl)
    requires QueueOk(maxDepth, c) && VisitedOk(c) && c.queue != [] && Key(c.queue[0].0) !in c.visited
    ensures Key(c.queue[0].0) in c.depth && c.depth[Key(c.queue[0].0)] == c.queue[0].1 <= maxDepth
  {
    hide Key;
    var key := Key(c.queue[0].0);
    assert key in c.depth && Awaits(c.queue, key, c.depth[key]);
  }

  /** First in, first out: no page is queued more than one layer below the head. */
  lemma Shallow(maxDepth: nat, c: Crawl, k: string)
    requires QueueOk(maxDepth, c) && VisitedOk(c) && c.queue != [] && k in c.depth
    ensures c.depth[k] <= c.queue[0].1 + 1
  {
    hide Key;
    if k in c.visited {
      assert c.depth[k] <= c.queue[0].1;
    } else {
      assert Awaits(c.queue, k, c.depth[k]);
    }
  }

  /** Page `k` was named by one of the links followed. */
  ghost predicate Linked(site: Site, followed: seq<Url>, k: string) {
    exists u :: u in followed && Crawlable(site, u) && Key(u) == k
  }

  lemma EntryLinks(site: Site, followed: seq<Url>, d: nat, maxDepth: nat, q: (Url, nat))
    requires q in Entries(site, followed, d, maxDepth)
    ensures q.1 == d + 1 <= maxDepth && Linked(site, followed, Key(q.0))
    ensures Awaits(Entries(site, followed, d, maxDepth), Key(q.0), d + 1)
  {
    EntriesFacts(site, followed, d, maxDepth);
    var more := Entries(site, followed, d, maxDepth);
    hide Entries, Key, Crawlable;
    var i :| 0 <= i < |more| && more[i] == q;
  }

  lemma NewPage(site: Site, c: Crawl, followed: seq<Url>, d: nat, maxDepth: nat, k: string)
    requires k !in c.depth && k in Deepen(c.depth, Entries(site, followed, d, maxDepth), d + 1)
    ensures Deepen(c.depth, Entries(site, followed, d, maxDepth), d + 1)[k] == d + 1 <= maxDepth
    ensures Awaits(Entries(site, followed, d, maxDepth), k, d + 1)
    ensures Linked(site, followed, k)
  {
    var more := Entries(site, followed, d, maxDepth);
    DeepenFacts(c.depth, more, d + 1);
    hide *;
    var q :| q in more && Key(q.0) == k;
    EntryLinks(site, followed, d, maxDepth, q);
  }

  lemma FollowedPage(site: Site, c: Crawl, followed: seq<Url>, d: nat, maxDepth: nat, u: Url)
    requires d < maxDepth && u in followed && Crawlable(site, u)
    ensures Key(u) in Deepen(c.depth, Entries(site, followed, d, maxDepth), d + 1)
  {
    EntriesFacts(site, followed, d, maxDepth);
    DeepenFacts(c.depth, Entries(site, followed, d, maxDepth), d + 1);
    hide Entries, Deepen, Key, Crawlable;
    assert (u, d + 1) in Entries(site, followed, d, maxDepth);
  }

  /** The new worklist and depths, without the definition of `Visit`. */
  lemma VisitFacts(site: Site, maxDepth: nat, c: Crawl, scripts: set<string>, followed: seq<Url>)
    requires c.queue != []
    ensures
      var c' := Visit(site, maxDepth, c, scripts, followed);
      var d := c.queue[0].1;
      var more := Entries(site, followed, d, maxDepth);
      && c'.queue == c.queue[1..] + more && c'.visited == c.visited + {Key(c.queue[0].0)} && c'.scripts == scripts
      && c'.discovered == c.discovered + RecordedKeys(site, followed)
      && (forall k :: k in c.depth ==> k in c'.depth && c'.depth[k] == c.depth[k])
      && (forall q :: q in more ==> q.1 == d + 1 <= maxDepth && Key(q.0) in c'.depth)
      && (forall k :: k in c'.depth && k !in c.depth ==>
            c'.depth[k] == d + 1 <= maxDepth && Awaits(more, k, d + 1)
            && Linked(site, followed, k))
      && (d < maxDepth ==> forall u :: u in followed && Crawlable(site, u) ==> Key(u) in c'.depth)
  {
    var c' := Visit(site, maxDepth, c, scripts, followed);
    var d := c.queue[0].1;
    var more := Entries(site, followed, d, maxDepth);
    EntriesFacts(site, followed, d, maxDepth);
    DeepenFacts(c.depth, more, d + 1);
    hide Entries, RecordedKeys, Deepen, Key, Crawlable, Awaits, Linked;
    forall k | k in c'.depth && k !in c.depth
      ensures c'.depth[k] == d + 1 <= maxDepth && Awaits(more, k, d + 1)
      ensures Linked(site, followed, k)
    {
      NewPage(site, c, followed, d, maxDepth, k);
    }
    forall u | d < maxDepth && u in followed && Crawlable(site, u)
      ensures Key(u) in c'.depth
    {
      FollowedPage(site, c, followed, d, maxDepth, u);
    }
  }

  lemma VisitEntry(site: Site, maxDepth: nat, c: Crawl, scripts: set<string>, followed: seq<Url>, i: nat)
    requires QueueOk(maxDepth, c) && VisitedOk(c) && c.queue != []
    requires i < |Visit(site, maxDepth, c, scripts, followed).queue|
    ensures
      var c' := Visit(site, maxDepth, c, scripts, followed);
      var (q, d) := (c'.queue[i], c.queue[0].1);
      && d <= q.1 <= maxDepth && q.1 <= d + 1 && Key(q.0) in c'.depth && c'.depth[Key(q.0)] <= q.1
      && if i < |c.queue| - 1 then q == c.queue[i + 1] else q.1 == d + 1
  {
    var c' := Visit(site, maxDepth, c, scripts, followed);
    var (q, d) := (c'.queue[i], c.queue[0].1);
    VisitFacts(site, maxDepth, c, scripts, followed);
    assert i >= |c.queue| - 1 ==> q in Entries(site, followed, d, maxDepth);
    hide Visit, Entries, Key, Awaits, Crawlable, RecordedKeys, Linked, VisitedOk;
    if Key(q.0) in c.depth {
      Shallow(maxDepth, c, Key(q.0));
    }
  }

  lemma VisitQueue(site: Site, maxDepth: nat, c: Crawl, scripts: set<string>, followed: seq<Url>)
    requires QueueOk(maxDepth, c) && VisitedOk(c) && c.queue != []
    ensures QueueOk(maxDepth, Visit(site, maxDepth, c, scripts, followed))
    ensures forall i :: 0 <= i < |Visit(site, maxDepth, c, scripts, followed).queue| ==>
      Visit(site, maxDepth, c, scripts, followed).queue[i].1 >= c.queue[0].1
  {
    hide Visit, Key, VisitedOk;
    forall i | 0 <= i < |Visit(site, maxDepth, c, scripts, followed).queue|
      ensures
        var c' := Visit(site, maxDepth, c, scripts, followed);
        var (q, d) := (c'.queue[i], c.queue[0].1);
        && d <= q.1 <= maxDepth && q.1 <= d + 1 && Key(q.0) in c'.depth && c'.depth[Key(q.0)] <= q.1
        && if i < |c.queue| - 1 then q == c.queue[i + 1] else q.1 == d + 1
    {
      VisitEntry(site, maxDepth, c, scripts, followed, i);
    }
  }

  lemma VisitVisited(site: Site, maxDepth: nat, c: Crawl, scripts: set<string>, followed: seq<Url>)
    requires QueueOk(maxDepth, c) && VisitedOk(c) && c.queue != [] && Key(c.queue[0].0) !in c.visited
    ensures VisitedOk(Visit(site, maxDepth, c, scripts, followed))
  {
    var c' := Visit(site, maxDepth, c, scripts, followed);
    var more := Entries(site, followed, c.queue[0].1, maxDepth);
    VisitFacts(site, maxDepth, c, scripts, followed);
    VisitQueue(site, maxDepth, c, scripts, followed);
    HeadDepth(maxDepth, c);
    hide Visit, Entries, Key, Awaits, Crawlable, RecordedKeys, QueueOk;
    forall k | k in c'.depth && k !in c'.visited
      ensures Awaits(c'.queue, k, c'.depth[k])
    {
      AwaitsMoves(c.queue, more, k, c'.depth[k]);
    }
    forall k, i | k in c'.visited && 0 <= i < |c'.queue|
      ensures c'.depth[k] <= c'.queue[i].1
    {
      if k in c.visited {
        assert c.depth[k] <= c.queue[0].1;
      }
    }
  }

  lemma VisitHop(site: Site, maxDepth: nat, c: Crawl, scripts: set<string>, followed: seq<Url>, b: string)
    requires QueueOk(maxDepth, c) && VisitedOk(c) && ScriptsOk(site, maxDepth, c) && c.queue != []
    requires FollowedOk(site, Key(c.queue[0].0), c.scripts, scripts, followed)
    requires c.queue[0].1 < maxDepth && Hop(site, Key(c.queue[0].0), b)
    ensures
      var c' := Visit(site, maxDepth, c, scripts, followed);
      b in c'.depth && c'.depth[b] <= c.queue[0].1 + 1
  {
    VisitFacts(site, maxDepth, c, scripts, followed);
    var a := Key(c.queue[0].0);
    var u :| Shows(site, site.pages[a], u) && Crawlable(site, u) && Key(u) == b;
    hide Visit, Entries, Key, Awaits, Crawlable, RecordedKeys, Shows, LinksOfScript;
    if u !in followed {
      var k :| k in c.scripts && u in LinksOfScript(site, k);
      assert b in c.depth;
    }
    if b in c.depth {
      Shallow(maxDepth, c, b);
    }
  }

  lemma VisitHops(site: Site, maxDepth: nat, c: Crawl, scripts: set<string>, followed: seq<Url>)
    requires QueueOk(maxDepth, c) && VisitedOk(c) && HopsOk(site, maxDepth, c) && ScriptsOk(site, maxDepth, c)
    requires c.queue != [] && Key(c.queue[0].0) !in c.visited
    requires FollowedOk(site, Key(c.queue[0].0), c.scripts, scripts, followed)
    ensures HopsOk(site, maxDepth, Visit(site, maxDepth, c, scripts, followed))
  {
    var c' := Visit(site, maxDepth, c, scripts, followed);
    VisitFacts(site, maxDepth, c, scripts, followed);
    HeadDepth(maxDepth, c);
    assert forall k :: k in c.visited ==> k in c.depth;
    hide Visit, Entries, Key, Awaits, Crawlable, RecordedKeys, Hop, QueueOk, VisitedOk, ScriptsOk, FollowedOk;
    forall a, b | a in c'.visited && a in c'.depth && c'.depth[a] < maxDepth && Hop(site, a, b)
      ensures b in c'.depth && c'.depth[b] <= c'.depth[a] + 1
    {
      if a !in c.visited {
        VisitHop(site, maxDepth, c, scripts, followed, b);
      }
    }
  }

  lemma VisitScripts(site: Site, maxDepth: nat, c: Crawl, scripts: set<string>, followed: seq<Url>)
    requires QueueOk(maxDepth, c) && VisitedOk(c) && ScriptsOk(site, maxDepth, c) && c.queue != []
    requires FollowedOk(site, Key(c.queue[0].0), c.scripts, scripts, followed)
    ensures ScriptsOk(site, maxDepth, Visit(site, maxDepth, c, scripts, followed))
  {
    VisitFacts(site, maxDepth, c, scripts, followed);
    VisitQueue(site, maxDepth, c, scripts, followed);
    hide Visit, Entries, Key, Awaits, Crawlable, RecordedKeys, Shows, LinksOfScript, QueueOk, VisitedOk;
  }

  lemma LinkedIsHop(site: Site, a: string, scripts: set<string>, scripts': set<string>, followed: seq<Url>, k: string)
    requires FollowedOk(site, a, scripts, scripts', followed) && Linked(site, followed, k)
    ensures Hops(site)(a, k)
  {
    hide Key, Crawlable, Shows, LinksOfScript;
  }

  lemma HeadIsReached(site: Site, maxDepth: nat, c: Crawl)
    requires QueueOk(maxDepth, c) && VisitedOk(c) && SoundOk(site, maxDepth, c)
    requires c.queue != [] && Key(c.queue[0].0) !in c.visited
    ensures Within(Hops(site), Key(site.base), c.queue[0].1, Key(c.queue[0].0))
  {
    HeadDepth(maxDepth, c);
  }

  lemma VisitDepths(site: Site, maxDepth: nat, c: Crawl, scripts: set<string>, followed: seq<Url>, k: string)
    requires c.queue != [] && k in Visit(site, maxDepth, c, scripts, followed).depth
    ensures
      var c' := Visit(site, maxDepth, c, scripts, followed);
      if k in c.depth then c'.depth[k] == c.depth[k]
      else c'.depth[k] == c.queue[0].1 + 1 <= maxDepth && Linked(site, followed, k)
  {
    VisitFacts(site, maxDepth, c, scripts, followed);
    hide *;
  }

  ghost predicate SoundAt(site: Site, maxDepth: nat, d: nat, k: string) {
    d <= maxDepth && Within(Hops(site), Key(site.base), d, k)
  }

  lemma VisitSoundAt(site: Site, maxDepth: nat, c: Crawl, scripts: set<string>, followed: seq<Url>, k: string)
    requires QueueOk(maxDepth, c) && VisitedOk(c) && SoundOk(site, maxDepth, c)
    requires c.queue != [] && Key(c.queue[0].0) !in c.visited
    requires FollowedOk(site, Key(c.queue[0].0), c.scripts, scripts, followed)
    requires k in Visit(site, maxDepth, c, scripts, followed).depth
    ensures SoundAt(site, maxDepth, Visit(site, maxDepth, c, scripts, followed).depth[k], k)
  {
    VisitDepths(site, maxDepth, c, scripts, followed, k);
    HeadIsReached(site, maxDepth, c);
    hide Visit, Key, QueueOk, VisitedOk, FollowedOk, Linked, Within, Hops;
    if k !in c.depth {
      var (a, d) := (Key(c.queue[0].0), c.queue[0].1);
      LinkedIsHop(site, a, c.scripts, scripts, followed, k);
      OneMoreEdge(Hops(site), Key(site.base), d, a, k);
    }
  }

  lemma VisitSound(site: Site, maxDepth: nat, c: Crawl, scripts: set<string>, followed: seq<Url>)
    requires QueueOk(maxDepth, c) && VisitedOk(c) && SoundOk(site, maxDepth, c)
    requires c.queue != [] && Key(c.queue[0].0) !in c.visited
    requires FollowedOk(site, Key(c.queue[0].0), c.scripts, scripts, followed)
    ensures SoundOk(site, maxDepth, Visit(site, maxDepth, c, scripts, followed))
  {
    forall k | k in Visit(site, maxDepth, c, scripts, followed).depth
      ensures SoundAt(site, maxDepth, Visit(site, maxDepth, c, scripts, followed).depth[k], k)
    {
      VisitSoundAt(site, maxDepth, c, scripts, followed, k);
    }
    hide Visit, Key, QueueOk, VisitedOk, FollowedOk, Within, Hops;
  }

  lemma VisitRecord(site: Site, maxDepth: nat, c: Crawl, scripts: set<string>, followed: seq<Url>)
    requires RecordOk(site, c) && c.queue != []
    requires FollowedOk(site, Key(c.queue[0].0), c.scripts, scripts, followed)
    ensures RecordOk(site, Visit(site, maxDepth, c, scripts, followed))
  {
    var c' := Visit(site, maxDepth, c, scripts, followed);
    var a := Key(c.queue[0].0);
    assert c'.discovered == c.discovered + RecordedKeys(site, followed) && c'.visited == c.visited + {a}
      && c'.scripts == scripts;
    hide Visit, Entries, Key, Recordable, Shows, LinksOfScript;
    forall k
      ensures k in c'.discovered <==> exists p :: p in c'.visited && Offers(site, p, k)
    {
      if k in RecordedKeys(site, followed) {
        assert Offers(site, a, k);
      }
      if Offers(site, a, k) {
        var u :| Shows(site, site.pages[a], u) && Recordable(site, u) && Key(u) == k;
      }
    }
  }

  lemma VisitKeeps(site: Site, maxDepth: nat, c: Crawl, scripts: set<string>, followed: seq<Url>)
    requires CrawlOk(site, maxDepth, c) && c.queue != [] && Key(c.queue[0].0) !in c.visited
    requires FollowedOk(site, Key(c.queue[0].0), c.scripts, scripts, followed)
    ensures CrawlOk(site, maxDepth, Visit(site, maxDepth, c, scripts, followed))
  {
    hide QueueOk, VisitedOk, HopsOk, ScriptsOk, SoundOk, RecordOk, Visit, FollowedOk, Key;
    VisitQueue(site, maxDepth, c, scripts, followed);
    VisitVisited(site, maxDepth, c, scripts, followed);
    VisitHops(site, maxDepth, c, scripts, followed);
    VisitScripts(site, maxDepth, c, scripts, followed);
    VisitSound(site, maxDepth, c, scripts, followed);
    VisitRecord(site, maxDepth, c, scripts, followed);
  }

  // ----- what the crawl returns -----

  lemma Unvisited(maxDepth: nat, c: Crawl, k: string)
    requires QueueOk(maxDepth, c) && VisitedOk(c) && k in c.depth && k !in c.visited
    ensures c.queue != [] && c.queue[0].1 <= c.depth[k]
  {
    assert Awaits(c.queue, k, c.depth[k]);
    hide Key;
  }

  /** Every page nearer than `front` hops has been visited. */
  lemma NearPagesVisited(site: Site, maxDepth: nat, c: Crawl, front: nat, n: nat, k: string)
    requires CrawlOk(site, maxDepth, c)
    requires c.queue != [] ==> front <= c.queue[0].1
    requires n < front && n <= maxDepth && Within(Hops(site), Key(site.base), n, k)
    ensures k in c.visited
  {
    assert VisitedOk(c) && HopsOk(site, maxDepth, c) && QueueOk(maxDepth, c);
    hide CrawlOk, SoundOk, ScriptsOk, RecordOk, Within, Hop, Key, VisitedOk, QueueOk;
    forall a | a in c.depth && c.depth[a] < front
      ensures a in c.visited
    {
      if a !in c.visited {
        Unvisited(maxDepth, c, a);
      }
    }
    WalksAreQueued(Hops(site), Key(site.base), c.depth, n, n, k);
  }

  /** When the worklist is empty, the pages visited are exactly those within `maxDepth` hops. */
  lemma DrainedIsExact(site: Site, maxDepth: nat, c: Crawl)
    requires CrawlOk(site, maxDepth, c) && c.queue == []
    ensures forall k :: k in c.visited <==> Reached(site, maxDepth, k)
  {
    CrawlResult(site, maxDepth, c, maxDepth + 1);
    hide CrawlOk, Reached;
  }

  /** `k` has been visited, so it is near enough. */
  lemma VisitedIsReached(site: Site, maxDepth: nat, c: Crawl, frontier: nat, k: string)
    requires CrawlOk(site, maxDepth, c) && k in c.visited
    requires c.queue != [] ==> frontier == c.queue[0].1
    requires c.queue == [] ==> frontier >= maxDepth
    ensures Reached(site, if frontier < maxDepth then frontier else maxDepth, k)
  {
    assert VisitedOk(c) && SoundOk(site, maxDepth, c);
    hide CrawlOk, Within, Key, Awaits, Hops;
    assert k in c.depth && c.depth[k] <= maxDepth;
    assert c.queue != [] ==> c.depth[k] <= c.queue[0].1;
  }

  lemma ReachedIsVisited(site: Site, maxDepth: nat, c: Crawl, front: nat, limit: nat, k: string)
    requires CrawlOk(site, maxDepth, c) && Reached(site, limit, k)
    requires c.queue != [] ==> front <= c.queue[0].1
    requires limit < front && limit <= maxDepth
    ensures k in c.visited
  {
    hide CrawlOk, Within, Key;
    var n: nat :| n <= limit && Within(Hops(site), Key(site.base), n, k);
    NearPagesVisited(site, maxDepth, c, front, n, k);
  }

  /** What a crawl that stopped at `frontier` has visited and recorded. */
  ghost predicate Explored(site: Site, maxDepth: nat, visited: set<string>, frontier: nat) {
    && (forall k :: k in visited ==> Reached(site, if frontier < maxDepth then frontier else maxDepth, k))
    && (forall k, limit: nat :: limit < frontier && limit <= maxDepth && Reached(site, limit, k) ==> k in visited)
  }

  lemma CrawlResult(site: Site, maxDepth: nat, c: Crawl, frontier: nat)
    requires CrawlOk(site, maxDepth, c)
    requires frontier == if c.queue == [] then maxDepth + 1 else c.queue[0].1
    ensures Explored(site, maxDepth, c.visited, frontier) && RecordOk(site, c)
  {
    assert RecordOk(site, c);
    hide CrawlOk, RecordOk, Reached;
    forall k | k in c.visited
      ensures Reached(site, if frontier < maxDepth then frontier else maxDepth, k)
    {
      VisitedIsReached(site, maxDepth, c, frontier, k);
    }
    forall k, limit: nat | limit < frontier && limit <= maxDepth && Reached(site, limit, k)
      ensures k in c.visited
    {
      ReachedIsVisited(site, maxDepth, c, frontier, limit, k);
    }
  }

  lemma Recorded(site: Site, c: Crawl)
    requires RecordOk(site, c)
    ensures forall k :: k in c.discovered <==> exists p :: p in c.visited && Offers(site, p, k)
  {
    hide Offers, LinksOfScript, Recordable, Key;
  }

  lemma NoAssetsYet(site: Site)
    ensures AssetsOk([], {}) && WellSourced(site, {}, [])
  {
  }

  lemma NothingFollowed(site: Site, a: string, scripts: set<string>, d: nat, maxDepth: nat)
    ensures a !in site.pages ==> FollowedOk(site, a, scripts, scripts, [])
    ensures Entries(site, [], d, maxDepth) == [] && RecordedKeys(site, []) == {}
  {
  }

  lemma VisitShape(site: Site, maxDepth: nat, c: Crawl, scripts: set<string>, followed: seq<Url>)
    requires c.queue != []
    ensures
      var c' := Visit(site, maxDepth, c, scripts, followed);
      && c'.queue == c.queue[1..] + Entries(site, followed, c.queue[0].1, maxDepth)
      && c'.visited == c.visited + {Key(c.queue[0].0)} && c'.scripts == scripts
      && c'.discovered == c.discovered + RecordedKeys(site, followed)
  {
  }

  lemma PageKeeps(site: Site, maxDepth: nat, c: Crawl, c': Crawl, followed: seq<Url>)
    requires CrawlOk(site, maxDepth, c) && c.queue != [] && Key(c.queue[0].0) !in c.visited
    requires FollowedOk(site, Key(c.queue[0].0), c.scripts, c'.scripts, followed)
    requires c'.queue == c.queue[1..] + Entries(site, followed, c.queue[0].1, maxDepth)
    requires c'.visited == c.visited + {Key(c.queue[0].0)}
    requires c'.discovered == c.discovered + RecordedKeys(site, followed)
    requires c'.depth == Visit(site, maxDepth, c, c'.scripts, followed).depth
    ensures CrawlOk(site, maxDepth, c')
  {
    VisitShape(site, maxDepth, c, c'.scripts, followed);
    VisitKeeps(site, maxDepth, c, c'.scripts, followed);
    hide *;
    assert c' == Visit(site, maxDepth, c, c'.scripts, followed);
  }

  /** With the set of pages within reach in hand: the crawl visits all of them exactly when the cap allows it. */
  lemma CapIsExact(site: Site, maxPages: nat, maxDepth: nat, visited: set<string>, frontier: nat,
      reachable: set<string>)
    requires maxPages > 0 && |visited| <= maxPages
    requires Explored(site, maxDepth, visited, frontier)
    requires |visited| < maxPages ==> frontier == maxDepth + 1
    requires forall k :: k in reachable <==> Reached(site, maxDepth, k)
    ensures visited == reachable <==> |reachable| <= maxPages
  {
    forall k | k in visited
      ensures k in reachable
    {
      assert Reached(site, if frontier < maxDepth then frontier else maxDepth, k);
      assert Reached(site, maxDepth, k);
    }
    hide Reached;
    SubsetCardinality(visited, reachable);
    if |visited| < maxPages {
      assert reachable <= visited;
    }
  }

  /** Every asset was found on a visited page, at the place its source names. */
  predicate WellSourced(site: Site, visited: set<string>, assets: seq<Asset>) {
    forall i :: 0 <= i < |assets| ==> exists p :: p in visited && FoundOn(site, p, assets[i])
  }

  lemma SourcedStep(site: Site, visited: set<string>, key: string, assets: seq<Asset>, assets': seq<Asset>)
    requires WellSourced(site, visited, assets)
    requires forall a :: a in assets' ==> a in assets || FoundOn(site, key, a)
    ensures WellSourced(site, visited + {key}, assets')
  {
    hide FoundOn;
    forall i | 0 <= i < |assets'|
      ensures exists p :: p in visited + {key} && FoundOn(site, p, assets'[i])
    {
      var a := assets'[i];
      assert a in assets';
      if a in assets {
        var j :| 0 <= j < |assets| && assets[j] == a;
        var p :| p in visited && FoundOn(site, p, assets[j]);
        assert p in visited + {key};
      }
    }
  }

  predicate Listed(assets: seq<Asset>, url: string) {
    exists i :: 0 <= i < |assets| && assets[i].url == url
  }

  /** The assets are the recordable links of the pages visited, each once. */
  ghost predicate Inventory(site: Site, visited: set<string>, assets: seq<Asset>) {
    && (forall i, j :: 0 <= i < j < |assets| ==> assets[i].url != assets[j].url)
    && (forall u :: Listed(assets, u) <==> exists p :: p in visited && Offers(site, p, u))
  }

  lemma AssetsResult(site: Site, c: Crawl, assets: seq<Asset>)
    requires RecordOk(site, c) && AssetsOk(assets, c.discovered)
    ensures Inventory(site, c.visited, assets)
  {
    Recorded(site, c);
    hide RecordOk, Offers;
    forall u
      ensures Listed(assets, u) <==> u in c.discovered
    {
    }
  }

  /** Fetches the page at the head of `c`, visited for the first time, and follows what it shows. */
  method VisitPage(site: Site, maxDepth: nat, ghost c: Crawl, key: string, d: nat,
                   queue: seq<(Url, nat)>, scripts: set<string>, discovered: set<string>, assets: seq<Asset>)
    returns (queue': seq<(Url, nat)>, scripts': set<string>, discovered': set<string>, assets': seq<Asset>,
      ghost depth': map<string, nat>)
    requires CrawlOk(site, maxDepth, c) && AssetsOk(assets, discovered) && WellSourced(site, c.visited, assets)
    requires c.queue != [] && Key(c.queue[0].0) == key && key !in c.visited && d == c.queue[0].1
    requires queue == c.queue[1..] && scripts == c.scripts && discovered == c.discovered
    ensures CrawlOk(site, maxDepth, Crawl(queue', c.visited + {key}, scripts', discovered', depth'))
    ensures AssetsOk(assets', discovered') && WellSourced(site, c.visited + {key}, assets')
  {
    hide *;
    queue', scripts', discovered', assets' := queue, scripts, discovered, assets;
    ghost var followed: seq<Url> := [];
    NothingFollowed(site, key, scripts, d, maxDepth);
    if key in site.pages {
      scripts', queue', discovered', assets', followed :=
        FollowPage(site, key, d, maxDepth, scripts, queue, discovered, assets);
    }
    SourcedStep(site, c.visited, key, assets, assets');
    depth' := Visit(site, maxDepth, c, scripts', followed).depth;
    PageKeeps(site, maxDepth, c, Crawl(queue', c.visited + {key}, scripts', discovered', depth'), followed);
  }

  // ----- the result, in terms of the URLs themselves -----

  ghost predicate ListsScript(site: Site, page: Page, s: Url) {
    s in page.attributes && InScope(site.base, s) && ScriptPath(s)
  }

  /** A URL on a script that the page lists and that can be fetched. */
  ghost predicate ScriptHolds(site: Site, page: Page, s: Url, links: seq<Url>) {
    ListsScript(site, page, s) && Address(s) in site.scripts && links == site.scripts[Address(s)]
  }

  ghost predicate OnSomeScript(site: Site, page: Page, u: Url) {
    exists s, links :: ScriptHolds(site, page, s, links) && u in links
  }

  /** Page `b` is a link of page `a`: a page in scope, requested by `a`, linked in it, or named by a script it lists. */
  ghost predicate LeadsTo(site: Site, a: string, b: string) {
    a in site.pages && exists u :: LeadsBy(site, site.pages[a], u) && Address(u) == b
  }

  ghost predicate LeadsBy(site: Site, page: Page, u: Url) {
    && (u in page.network || u in page.candidates || OnSomeScript(site, page, u))
    && InScope(site.base, u) && PagePath(u)
  }

  ghost function Leads(site: Site): (string, string) -> bool {
    (a: string, b: string) => LeadsTo(site, a, b)
  }

  ghost predicate IsNear(site: Site, limit: nat, k: string) {
    exists n: nat :: n <= limit && Within(Leads(site), Address(site.base), n, k)
  }

  /** What a list of links has to record: the ones in scope that do not name an action. */
  ghost predicate Records(site: Site, links: seq<Url>, url: string) {
    exists u :: u in links && InScope(site.base, u) && !Mutates(FullText(u)) && Address(u) == url
  }

  ghost predicate ScriptRecords(site: Site, page: Page, url: string) {
    exists s, links :: ScriptHolds(site, page, s, links) && Records(site, links, url)
  }

  ghost predicate PageRecords(site: Site, key: string, url: string) {
    key in site.pages &&
    var page := site.pages[key];
    Records(site, page.network, url) || Records(site, page.candidates, url) || ScriptRecords(site, page, url)
  }

  /** The asset was found on this page, at the place its source names. */
  ghost predicate IsSource(site: Site, key: string, a: Asset) {
    key in site.pages &&
    var page := site.pages[key];
    || (a.source == "discovery::browser_network" && Records(site, page.network, a.url))
    || (a.source == "discovery::browser" && Records(site, page.candidates, a.url))
    || (a.source == "discovery::browser_js" && ScriptRecords(site, page, a.url))
  }

  /**
   No page further than `frontier` or `maxDepth` links, and all pages nearer than `frontier` and no further than
   `maxDepth`.
   */
  ghost predicate CoversNearest(site: Site, maxDepth: nat, visited: set<string>, frontier: nat) {
    && (forall k :: k in visited ==> IsNear(site, if frontier < maxDepth then frontier else maxDepth, k))
    && (forall k, limit: nat :: limit < frontier && limit <= maxDepth && IsNear(site, limit, k) ==> k in visited)
  }

  ghost predicate HasSource(site: Site, visited: set<string>, a: Asset) {
    exists p :: p in visited && IsSource(site, p, a)
  }

  /** Each asset once: exactly what the pages visited have to record, and where one of them has it. */
  ghost predicate IsInventory(site: Site, visited: set<string>, assets: seq<Asset>) {
    && (forall i, j :: 0 <= i < j < |assets| ==> assets[i].url != assets[j].url)
    && (forall i :: 0 <= i < |assets| ==> HasSource(site, visited, assets[i]))
    && (forall p, url :: p in visited && PageRecords(site, p, url) ==> Listed(assets, url))
  }

  ghost predicate IsTextInScope(site: Site, text: string) {
    exists u :: InScope(site.base, u) && Address(u) == text
  }

  lemma {:induction false} ScriptUrlsAre(base: Url, attributes: seq<Url>, s: Url)
    ensures s in ScriptUrls(base, attributes) <==> s in attributes && InScope(base, s) && ScriptPath(s)
  {
    ScopeIs(base, s);
    ScriptPathIs(s);
    hide InScope, ScriptPath, SameOrigin, IsScript;
    if attributes != [] {
      ScriptUrlsAre(base, attributes[1..], s);
      assert attributes == [attributes[0]] + attributes[1..];
    }
  }

  lemma ScriptHoldsIs(site: Site, page: Page, s: Url, links: seq<Url>)
    ensures ScriptHolds(site, page, s, links) ==>
      s in ScriptUrls(site.base, page.attributes) && LinksOfScript(site, Key(s)) == links
    ensures s in ScriptUrls(site.base, page.attributes) && links == LinksOfScript(site, Key(s)) && links != [] ==>
      ScriptHolds(site, page, s, links)
  {
    ScriptUrlsAre(site.base, page.attributes, s);
    KeyIsAddress(s);
    hide InScope, ScriptPath, ScriptUrls, Key, Address;
  }

  lemma OnSomeScriptIs(site: Site, page: Page, u: Url)
    ensures OnSomeScript(site, page, u) <==> OnScript(site, page, u)
  {
    hide ScriptHolds, LinksOfScript, ScriptUrls, Key;
    if OnSomeScript(site, page, u) {
      var s, links :| ScriptHolds(site, page, s, links) && u in links;
      ScriptHoldsIs(site, page, s, links);
    }
    if OnScript(site, page, u) {
      var s :| s in ScriptUrls(site.base, page.attributes) && u in LinksOfScript(site, Key(s));
      ScriptHoldsIs(site, page, s, LinksOfScript(site, Key(s)));
    }
  }

  lemma LeadsByIs(site: Site, page: Page, u: Url)
    ensures LeadsBy(site, page, u) <==> Shows(site, page, u) && Crawlable(site, u)
  {
    OnSomeScriptIs(site, page, u);
    ScopeIs(site.base, u);
    PagePathIs(u);
    hide OnSomeScript, OnScript, InScope, SameOrigin, PagePath, IsPage;
  }

  lemma LeadsToIs(site: Site, a: string, b: string)
    ensures LeadsTo(site, a, b) <==> Hop(site, a, b)
  {
    if a in site.pages {
      forall u
        ensures LeadsBy(site, site.pages[a], u) && Address(u) == b
          <==> Shows(site, site.pages[a], u) && Crawlable(site, u) && Key(u) == b
      {
        LeadsByIs(site, site.pages[a], u);
        KeyIsAddress(u);
        hide *;
      }
    }
    hide LeadsBy, Shows, Crawlable, Address, Key;
  }

  lemma WalkIs(site: Site, n: nat, k: string)
    ensures Within(Leads(site), Address(site.base), n, k) <==> Within(Hops(site), Key(site.base), n, k)
  {
    KeyIsAddress(site.base);
    hide Within, LeadsTo, Hop, Address, Key;
    forall a, b
      ensures Leads(site)(a, b) <==> Hops(site)(a, b)
    {
      LeadsToIs(site, a, b);
    }
    hide Leads, Hops;
    SameWalks(Leads(site), Hops(site), Address(site.base), n, k);
  }

  lemma IsNearIs(site: Site, limit: nat, k: string)
    ensures IsNear(site, limit, k) <==> Reached(site, limit, k)
  {
    hide Within, Leads, Hops, Address, Key;
    forall n: nat
      ensures Within(Leads(site), Address(site.base), n, k) <==> Within(Hops(site), Key(site.base), n, k)
    {
      WalkIs(site, n, k);
    }
  }

  lemma ExploredIs(site: Site, maxDepth: nat, visited: set<string>, frontier: nat)
    requires Explored(site, maxDepth, visited, frontier)
    ensures CoversNearest(site, maxDepth, visited, frontier)
  {
    hide IsNear, Reached;
    forall k, limit: nat
      ensures IsNear(site, limit, k) <==> Reached(site, limit, k)
    {
      IsNearIs(site, limit, k);
    }
  }

  lemma RecordsIs(site: Site, links: seq<Url>, url: string)
    ensures Records(site, links, url) <==> exists u :: u in links && Recordable(site, u) && Key(u) == url
    ensures Records(site, links, url) <==> NamesAsset(site, links, url)
  {
    hide InScope, Address, FullText, Mutates, Key, SameOrigin, IsDestructive;
    forall u
      ensures InScope(site.base, u) && !Mutates(FullText(u)) <==> Recordable(site, u)
      ensures Address(u) == Key(u)
    {
      ScopeIs(site.base, u);
      MutatesIs(u);
      KeyIsAddress(u);
    }
    hide Recordable;
    if u :| u in links && Recordable(site, u) && Key(u) == url {
      var i :| 0 <= i < |links| && links[i] == u;
      assert NamesAsset(site, links, url);
    }
    if NamesAsset(site, links, url) {
      var i :| 0 <= i < |links| && Recordable(site, links[i]) && Key(links[i]) == url;
      assert links[i] in links;
    }
  }

  lemma ScriptRecordsIs(site: Site, page: Page, url: string)
    ensures ScriptRecords(site, page, url) <==>
      exists s :: s in ScriptUrls(site.base, page.attributes) && NamesAsset(site, LinksOfScript(site, Key(s)), url)
  {
    hide ScriptHolds, Records, LinksOfScript, ScriptUrls, Key, NamesAsset;
    if ScriptRecords(site, page, url) {
      var s, links :| ScriptHolds(site, page, s, links) && Records(site, links, url);
      ScriptHoldsIs(site, page, s, links);
      RecordsIs(site, links, url);
    }
    if s :| s in ScriptUrls(site.base, page.attributes) && NamesAsset(site, LinksOfScript(site, Key(s)), url) {
      var links := LinksOfScript(site, Key(s));
      RecordsIs(site, links, url);
      assert links != [] by {
        NamesSome(site, links, url);
      }
      ScriptHoldsIs(site, page, s, links);
    }
  }

  lemma NamesSome(site: Site, links: seq<Url>, url: string)
    requires NamesAsset(site, links, url)
    ensures links != []
  {
  }

  lemma IsSourceIs(site: Site, key: string, a: Asset)
    requires FoundOn(site, key, a)
    ensures IsSource(site, key, a)
  {
    var page := site.pages[key];
    RecordsIs(site, page.network, a.url);
    RecordsIs(site, page.candidates, a.url);
    ScriptRecordsIs(site, page, a.url);
    hide Records, ScriptRecords, NamesAsset, LinksOfScript, ScriptUrls, Key;
  }

  lemma PageRecordsIs(site: Site, key: string, url: string)
    requires PageRecords(site, key, url)
    ensures Offers(site, key, url)
  {
    var page := site.pages[key];
    RecordsIs(site, page.network, url);
    RecordsIs(site, page.candidates, url);
    ScriptRecordsIs(site, page, url);
    hide Records, ScriptRecords, LinksOfScript, ScriptUrls, Key, Recordable;
    if ScriptRecords(site, page, url) {
      var s :| s in ScriptUrls(site.base, page.attributes) && NamesAsset(site, LinksOfScript(site, Key(s)), url);
      var links := LinksOfScript(site, Key(s));
      var i :| 0 <= i < |links| && Recordable(site, links[i]) && Key(links[i]) == url;
      assert links[i] in links && InScripts(site, ScriptUrls(site.base, page.attributes), links[i]);
      assert Shows(site, page, links[i]);
    }
  }

  lemma SourceOf(site: Site, visited: set<string>, assets: seq<Asset>, i: nat)
    requires i < |assets| && WellSourced(site, visited, assets)
    ensures HasSource(site, visited, assets[i])
  {
    hide FoundOn, IsSource;
    var a := assets[i];
    var p :| p in visited && FoundOn(site, p, a);
    IsSourceIs(site, p, a);
  }

  lemma InventoryIs(site: Site, visited: set<string>, assets: seq<Asset>)
    requires Inventory(site, visited, assets) && WellSourced(site, visited, assets)
    ensures IsInventory(site, visited, assets)
  {
    hide FoundOn, HasSource, Offers, PageRecords, Listed;
    forall i | 0 <= i < |assets|
      ensures HasSource(site, visited, assets[i])
    {
      SourceOf(site, visited, assets, i);
    }
    forall p, url | p in visited && PageRecords(site, p, url)
      ensures Listed(assets, url)
    {
      PageRecordsIs(site, p, url);
      assert exists q :: q in visited && Offers(site, q, url);
    }
  }

  lemma NearIsInScope(site: Site, limit: nat, k: string)
    requires IsNear(site, limit, k)
    ensures IsTextInScope(site, k)
  {
    hide Address, Leads, OnSomeScript;
    var n: nat :| n <= limit && Within(Leads(site), Address(site.base), n, k);
    if n == 0 {
      assert InScope(site.base, site.base);
    } else {
      var y :| Within(Leads(site), Address(site.base), n - 1, y) && Leads(site)(y, k);
      EdgeIsInScope(site, y, k);
    }
  }

  lemma EdgeIsInScope(site: Site, a: string, b: string)
    requires Leads(site)(a, b)
    ensures IsTextInScope(site, b)
  {
    hide Address, OnSomeScript, InScope, PagePath;
    var u :| LeadsBy(site, site.pages[a], u) && Address(u) == b;
  }

  lemma RecordsInScope(site: Site, links: seq<Url>, url: string)
    requires Records(site, links, url)
    ensures IsTextInScope(site, url)
  {
    hide Address, InScope, Mutates, FullText;
    var u :| u in links && InScope(site.base, u) && !Mutates(FullText(u)) && Address(u) == url;
  }

  lemma SourceInScope(site: Site, key: string, a: Asset)
    requires IsSource(site, key, a)
    ensures IsTextInScope(site, a.url)
  {
    hide Records, ScriptHolds, IsTextInScope;
    var page := site.pages[key];
    if Records(site, page.network, a.url) {
      RecordsInScope(site, page.network, a.url);
    } else if Records(site, page.candidates, a.url) {
      RecordsInScope(site, page.candidates, a.url);
    } else {
      var s, links :| ScriptHolds(site, page, s, links) && Records(site, links, a.url);
      RecordsInScope(site, links, a.url);
    }
  }

  /** No page visited and no asset recorded is outside the scope: the base's scheme, host and port. */
  lemma StaysInScope(site: Site, maxDepth: nat, visited: set<string>, assets: seq<Asset>, frontier: nat)
    requires CoversNearest(site, maxDepth, visited, frontier) && IsInventory(site, visited, assets)
    ensures forall k :: k in visited ==> IsTextInScope(site, k)
    ensures forall a :: a in assets ==> IsTextInScope(site, a.url)
  {
    hide IsTextInScope, IsNear, IsSource, PageRecords;
    forall k | k in visited
      ensures IsTextInScope(site, k)
    {
      NearIsInScope(site, if frontier < maxDepth then frontier else maxDepth, k);
    }
    forall a | a in assets
      ensures IsTextInScope(site, a.url)
    {
      var i :| 0 <= i < |assets| && assets[i] == a;
      assert HasSource(site, visited, assets[i]);
      var p :| p in visited && IsSource(site, p, a);
      SourceInScope(site, p, a);
    }
  }

  /**
   The crawl. At most `maxPages` pages (or one) are visited. Everything within fewer than `frontier` hops
   has been, and nothing further than `frontier` or `maxDepth` hops: the nearest pages come first. If the
   cap is not reached, `frontier` is past `maxDepth`.
   */
  method RunBrowserCrawl(site: Site, maxPages: nat, maxDepth: nat)
    returns (assets: seq<Asset>, visited: set<string>, ghost frontier: nat)
    ensures |visited| <= if maxPages == 0 then 1 else maxPages
    ensures Explored(site, maxDepth, visited, frontier)
    ensures CoversNearest(site, maxDepth, visited, frontier) && IsInventory(site, visited, assets)
    ensures forall k :: k in visited ==> IsTextInScope(site, k)
    ensures forall a :: a in assets ==> IsTextInScope(site, a.url)
    ensures (|visited| < if maxPages == 0 then 1 else maxPages) ==> frontier == maxDepth + 1
    ensures Inventory(site, visited, assets) && WellSourced(site, visited, assets)
  {
    var cap := if maxPages == 0 then 1 else maxPages;
    var queue: seq<(Url, nat)> := [(site.base, 0)];
    visited := {};
    var scripts: set<string> := {};
    var discovered: set<string> := {};
    assets := [];
    ghost var depth: map<string, nat> := map[Key(site.base) := 0];
    CrawlStart(site, maxDepth);
    NoAssetsYet(site);
    hide *;
    while queue != []
      invariant |visited| <= cap
      invariant CrawlOk(site, maxDepth, Crawl(queue, visited, scripts, discovered, depth))
      invariant AssetsOk(assets, discovered) && WellSourced(site, visited, assets)
      decreases cap - |visited|, |queue|
    {
      if |visited| >= cap {
        break;
      }
      ghost var c := Crawl(queue, visited, scripts, discovered, depth);
      var (url, d) := queue[0];
      queue := queue[1..];
      var key := Key(url);
      if key in visited {
        SkipKeeps(site, maxDepth, c);
        continue;
      }
      visited := visited + {key};
      queue, scripts, discovered, assets, depth :=
        VisitPage(site, maxDepth, c, key, d, queue, scripts, discovered, assets);
    }
    frontier := if queue == [] then maxDepth + 1 else queue[0].1;
    ghost var last := Crawl(queue, visited, scripts, discovered, depth);
    CrawlResult(site, maxDepth, last, frontier);
    AssetsResult(site, last, assets);
    ExploredIs(site, maxDepth, visited, frontier);
    InventoryIs(site, visited, assets);
    StaysInScope(site, maxDepth, visited, assets, frontier);
  }
}
