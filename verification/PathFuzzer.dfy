/** Path fuzzing: one pass over a word list, and the breadth-first recursion into what it finds. */
module PathFuzzer {
  import opened Options
  import opened BreadthFirst

  datatype Response = Response(status: nat, length: nat)

  /** What a GET of a URL returns after all retries; nothing when the request failed. */
  type Net = string -> Option<Response>

  datatype FuzzResult = FuzzResult(url: string, path: string, status: nat, length: nat)

  const BASELINE_PATH := "/temu_baseline_zxqwvnm987"

  predicate Interesting(status: nat) {
    status in {200, 201, 204, 301, 302, 307, 308, 401, 403, 405, 500}
  }

  predicate AllowsRecursion(status: nat) {
    status in {200, 201, 204, 301, 302, 307, 308, 401, 403}
  }

  function NormalizePath(path: string): string {
    if path != [] && path[0] == '/' then path else "/" + path
  }

  function TrimSlashes(s: string): string {
    if s != [] && s[|s| - 1] == '/' then TrimSlashes(s[..|s| - 1]) else s
  }

  function UrlOf(base: string, path: string): string {
    TrimSlashes(base) + path
  }

  /** A response that looks like the page the server gives for a path that does not exist. */
  predicate LooksMissing(baseline: Option<Response>, response: Response) {
    baseline.Some? && response.status == baseline.value.status &&
    var length := baseline.value.length;
    var diff := if response.length >= length then response.length - length else length - response.length;
    diff < 64 || (length > 0 && 10 * diff < length)
  }

  predicate Kept(baseline: Option<Response>, response: Option<Response>) {
    response.Some? && Interesting(response.value.status) && !LooksMissing(baseline, response.value)
  }

  function Found(net: Net, base: string, words: seq<string>): seq<FuzzResult> {
    if words == [] then []
    else
      var front, path := Found(net, base, words[..|words| - 1]), NormalizePath(words[|words| - 1]);
      var url := UrlOf(base, path);
      if Kept(net(UrlOf(base, BASELINE_PATH)), net(url)) then
        front + [FuzzResult(url, path, net(url).value.status, net(url).value.length)]
      else front
  }

  // ----- what a pass should return -----

  /** `path` is the word with a leading slash, and `url` the base without trailing slashes followed by `path`. */
  ghost predicate IsUrlFor(base: string, word: string, path: string, url: string) {
    && path == (if word != [] && word[0] == '/' then word else ['/'] + word)
    && exists k :: EndsBase(base, k) && url == base[..k] + path
  }

  /** From `k` on there are slashes only, and none just before. */
  ghost predicate EndsBase(base: string, k: int) {
    && 0 <= k <= |base| && (forall i :: k <= i < |base| ==> base[i] == '/')
    && (k > 0 ==> base[k - 1] != '/')
  }

  /**
   A response worth reporting: its status is one of eleven, and it has another status than the page for a path that
   does not exist, or a length at least 64 and at least a tenth of that page's length away.
   */
  ghost predicate IsWanted(missing: Option<Response>, r: Response) {
    && (200 <= r.status <= 201 || r.status == 204 || 301 <= r.status <= 302 || 307 <= r.status <= 308
        || r.status == 401 || r.status == 403 || r.status == 405 || r.status == 500)
    && (missing.Some? && missing.value.status == r.status ==>
          var (near, far) := if r.length <= missing.value.length then (r.length, missing.value.length)
                             else (missing.value.length, r.length);
          far - near >= 64 && 10 * (far - near) >= missing.value.length)
  }

  /** `r` is what asking for `word` under `base` gives, and it is worth reporting. */
  ghost predicate IsResult(net: Net, base: string, word: string, r: FuzzResult) {
    && IsUrlFor(base, word, r.path, r.url) && net(r.url) == Some(Response(r.status, r.length))
    && exists path, url :: IsUrlFor(base, "/temu_baseline_zxqwvnm987", path, url)
                           && IsWanted(net(url), Response(r.status, r.length))
  }

  /** The results are those of some words in order, and every other word has none. */
  ghost predicate IsPass(net: Net, base: string, words: seq<string>, results: seq<FuzzResult>, picked: seq<nat>) {
    && |picked| == |results|
    && (forall i :: 0 <= i < |picked| ==> picked[i] < |words| && IsResult(net, base, words[picked[i]], results[i]))
    && (forall i, j :: 0 <= i < j < |picked| ==> picked[i] < picked[j])
    && (forall k, r :: 0 <= k < |words| && k !in picked ==> !IsResult(net, base, words[k], r))
  }

  lemma {:induction false} TrimIs(base: string, k: nat)
    requires EndsBase(base, k)
    ensures TrimSlashes(base) == base[..k]
    decreases |base|
  {
    if k < |base| {
      var front := base[..|base| - 1];
      assert base[|base| - 1] == '/';
      TrimIs(front, k);
      assert front[..k] == base[..k];
    }
  }

  lemma {:induction false} BaseEnds(base: string) returns (k: nat)
    ensures EndsBase(base, k)
    decreases |base|
  {
    if base != [] && base[|base| - 1] == '/' {
      k := BaseEnds(base[..|base| - 1]);
    } else {
      k := |base|;
    }
  }

  lemma UrlForIs(base: string, word: string, path: string, url: string)
    ensures IsUrlFor(base, word, path, url) <==> path == NormalizePath(word) && url == UrlOf(base, path)
  {
    var end := BaseEnds(base);
    TrimIs(base, end);
    hide TrimSlashes;
    if IsUrlFor(base, word, path, url) {
      var k :| EndsBase(base, k) && url == base[..k] + path;
      TrimIs(base, k);
    }
  }

  lemma KeptIsWanted(missing: Option<Response>, response: Option<Response>)
    ensures Kept(missing, response) <==> response.Some? && IsWanted(missing, response.value)
  {
  }

  lemma ResultIs(net: Net, base: string, word: string, r: FuzzResult)
    ensures IsResult(net, base, word, r) <==>
      && r.path == NormalizePath(word) && r.url == UrlOf(base, r.path)
      && net(r.url) == Some(Response(r.status, r.length)) && Kept(net(UrlOf(base, BASELINE_PATH)), net(r.url))
  {
    UrlForIs(base, word, r.path, r.url);
    var missing := UrlOf(base, BASELINE_PATH);
    UrlForIs(base, BASELINE_PATH, BASELINE_PATH, missing);
    assert NormalizePath(BASELINE_PATH) == BASELINE_PATH;
    KeptIsWanted(net(missing), net(r.url));
    hide UrlOf, IsUrlFor, IsWanted, Kept, NormalizePath;
    forall path, url | IsUrlFor(base, BASELINE_PATH, path, url)
      ensures url == missing
    {
      UrlForIs(base, BASELINE_PATH, path, url);
    }
  }

  /** One word more: it has a result, and is picked, or it has none. */
  lemma PassStep(net: Net, base: string, words: seq<string>, results: seq<FuzzResult>, picked: seq<nat>)
    requires words != [] && IsPass(net, base, words[..|words| - 1], results, picked)
    ensures
      var path := NormalizePath(words[|words| - 1]);
      var url := UrlOf(base, path);
      if Kept(net(UrlOf(base, BASELINE_PATH)), net(url)) then
        IsPass(net, base, words, results + [FuzzResult(url, path, net(url).value.status, net(url).value.length)],
               picked + [|words| - 1])
      else IsPass(net, base, words, results, picked)
  {
    hide *;
    var last := |words| - 1;
    var path := NormalizePath(words[last]);
    var url := UrlOf(base, path);
    KeptHasResponse(net(UrlOf(base, BASELINE_PATH)), net(url));
    if Kept(net(UrlOf(base, BASELINE_PATH)), net(url)) {
      var r := FuzzResult(url, path, net(url).value.status, net(url).value.length);
      ResultIs(net, base, words[last], r);
      PassPicked(net, base, words, results, picked, r);
    } else {
      forall r
        ensures !IsResult(net, base, words[last], r)
      {
        ResultIs(net, base, words[last], r);
      }
      PassSkipped(net, base, words, results, picked, words[last]);
    }
  }

  lemma KeptHasResponse(missing: Option<Response>, response: Option<Response>)
    ensures Kept(missing, response)
      ==> response.Some? && response.value == Response(response.value.status, response.value.length)
  {
  }

  lemma PassPicked(net: Net, base: string, words: seq<string>, results: seq<FuzzResult>, picked: seq<nat>,
      r: FuzzResult)
    requires words != [] && IsPass(net, base, words[..|words| - 1], results, picked)
    requires IsResult(net, base, words[|words| - 1], r)
    ensures IsPass(net, base, words, results + [r], picked + [|words| - 1])
  {
    hide IsResult;
    var (more, last) := (picked + [|words| - 1], |words| - 1);
    forall k, other | 0 <= k < |words| && k !in more
      ensures !IsResult(net, base, words[k], other)
    {
      assert more[|picked|] == last && k != last && k !in picked;
      assert words[..last][k] == words[k];
    }
  }

  lemma PassSkipped(net: Net, base: string, words: seq<string>, results: seq<FuzzResult>, picked: seq<nat>,
      last: string)
    requires words != [] && IsPass(net, base, words[..|words| - 1], results, picked)
    requires words[|words| - 1] == last && forall r :: !IsResult(net, base, last, r)
    ensures IsPass(net, base, words, results, picked)
  {
    hide IsResult;
    var front := words[..|words| - 1];
    assert forall k :: 0 <= k < |front| ==> front[k] == words[k];
  }

  /** What holds after the first `i` words. */
  ghost predicate Upto(net: Net, base: string, words: seq<string>, i: nat, results: seq<FuzzResult>, picked: seq<nat>)
    requires i <= |words|
  {
    results == Found(net, base, words[..i]) && IsPass(net, base, words[..i], results, picked)
  }

  lemma WordStep(net: Net, base: string, words: seq<string>, i: nat, results: seq<FuzzResult>, picked: seq<nat>)
    requires i < |words| && Upto(net, base, words, i, results, picked)
    ensures
      var path := NormalizePath(words[i]);
      var (url, missing) := (UrlOf(base, path), net(UrlOf(base, BASELINE_PATH)));
      if net(url).Some? && Interesting(net(url).value.status) && !LooksMissing(missing, net(url).value) then
        Upto(net, base, words, i + 1, results + [FuzzResult(url, path, net(url).value.status, net(url).value.length)],
             picked + [i])
      else Upto(net, base, words, i + 1, results, picked)
  {
    var now := words[..i + 1];
    assert now[..|now| - 1] == words[..i] && now[i] == words[i];
    PassStep(net, base, now, results, picked);
    hide IsPass, UrlOf, NormalizePath, Interesting, LooksMissing;
  }

  lemma NoWordsYet(net: Net, base: string, words: seq<string>)
    ensures Upto(net, base, words, 0, [], [])
  {
  }

  lemma AllWords(net: Net, base: string, words: seq<string>, results: seq<FuzzResult>, picked: seq<nat>)
    requires Upto(net, base, words, |words|, results, picked)
    ensures results == Found(net, base, words) && IsPass(net, base, words, results, picked)
  {
    assert words[..|words|] == words;
    hide IsPass, Found;
  }

  method FuzzPaths(net: Net, base: string, words: seq<string>)
    returns (results: seq<FuzzResult>, ghost picked: seq<nat>)
    ensures IsPass(net, base, words, results, picked)
    ensures results == Found(net, base, words)
  {
    hide *;
    var baseline := net(UrlOf(base, BASELINE_PATH));
    results, picked := [], [];
    NoWordsYet(net, base, words);
    for i := 0 to |words|
      invariant Upto(net, base, words, i, results, picked)
    {
      WordStep(net, base, words, i, results, picked);
      var path := NormalizePath(words[i]);
      var url := UrlOf(base, path);
      var response := net(url);
      if response.None? || !Interesting(response.value.status) {
        continue;
      }
      if LooksMissing(baseline, response.value) {
        continue;
      }
      results := results + [FuzzResult(url, path, response.value.status, response.value.length)];
      picked := picked + [i];
    }
    AllWords(net, base, words, results, picked);
  }

  // ----- the specification: chains of discoveries -----

  datatype Site = Site(net: Net, words: seq<string>)

  predicate Finds(site: Site, base: string, url: string) {
    exists r :: r in Found(site.net, base, site.words) && r.url == url
  }

  lemma {:induction false} FoundIff(net: Net, base: string, words: seq<string>, r: FuzzResult)
    ensures r in Found(net, base, words) <==>
      && Kept(net(UrlOf(base, BASELINE_PATH)), net(r.url))
      && r.url == UrlOf(base, r.path) && r.status == net(r.url).value.status && r.length == net(r.url).value.length
      && exists w :: w in words && r.path == NormalizePath(w)
  {
    hide Kept, UrlOf, NormalizePath;
    if words != [] {
      var (front, last) := (words[..|words| - 1], words[|words| - 1]);
      FoundIff(net, base, front, r);
      assert words == front + [last];
    }
  }

  /** A URL is found under a base exactly if some word gives it and its response is kept. */
  lemma FindsIff(site: Site, base: string, url: string)
    ensures Finds(site, base, url) <==>
      && Kept(site.net(UrlOf(base, BASELINE_PATH)), site.net(url))
      && exists w :: w in site.words && url == UrlOf(base, NormalizePath(w))
  {
    forall r
      ensures r in Found(site.net, base, site.words) <==>
        && Kept(site.net(UrlOf(base, BASELINE_PATH)), site.net(r.url))
        && r.url == UrlOf(base, r.path) && r.status == site.net(r.url).value.status
          && r.length == site.net(r.url).value.length
        && exists w :: w in site.words && r.path == NormalizePath(w)
    {
      FoundIff(site.net, base, site.words, r);
    }
    if Kept(site.net(UrlOf(base, BASELINE_PATH)), site.net(url)) {
      if w :| w in site.words && url == UrlOf(base, NormalizePath(w)) {
        var response := site.net(url).value;
        assert FuzzResult(url, NormalizePath(w), response.status, response.length) in Found(site.net, base, site.words);
      }
    }
    hide Found, Kept, UrlOf, NormalizePath;
  }

  predicate MayRecurse(site: Site, url: string) {
    site.net(url).Some? && AllowsRecursion(site.net(url).value.status)
  }

  /** One link of a chain: `url` is found under `base` and its status allows going on from it. */
  function Link(site: Site): (string, string) -> bool {
    (base: string, url: string) => Finds(site, base, url) && MayRecurse(site, url)
  }

  /** `url` is the last of a chain of exactly `n` discoveries; all before the last allow recursion. */
  ghost predicate Discovered(site: Site, root: string, n: nat, url: string) {
    n > 0 && exists base :: Within(Link(site), root, n - 1, base) && Finds(site, base, url)
  }

  function Urls(results: seq<FuzzResult>): seq<string> {
    seq(|results|, i requires 0 <= i < |results| => results[i].url)
  }

  lemma {:induction false} FoundStatus(net: Net, base: string, words: seq<string>, r: FuzzResult)
    requires r in Found(net, base, words)
    ensures net(r.url).Some? && r.status == net(r.url).value.status && r.length == net(r.url).value.length
  {
    if words != [] && r in Found(net, base, words[..|words| - 1]) {
      FoundStatus(net, base, words[..|words| - 1], r);
    }
  }

  // ----- one base: what is new, and what is queued -----

  /** The results whose URL is neither in `seen` nor earlier in the list. */
  function Fresh(results: seq<FuzzResult>, seen: set<string>): seq<FuzzResult> {
    if results == [] then []
    else
      var front, last := Fresh(results[..|results| - 1], seen), results[|results| - 1];
      if last.url in seen || last.url in Urls(front) then front else front + [last]
  }

  function Queued(novel: seq<FuzzResult>, depth: nat, maxDepth: nat): seq<(string, nat)> {
    if novel == [] then []
    else
      var front, last := Queued(novel[..|novel| - 1], depth, maxDepth), novel[|novel| - 1];
      if depth < maxDepth && AllowsRecursion(last.status) then front + [(last.url, depth + 1)] else front
  }

  lemma {:induction false} FreshProperties(results: seq<FuzzResult>, seen: set<string>)
    ensures forall r :: r in Fresh(results, seen) ==> r in results && r.url !in seen
    ensures forall r :: r in results ==> r.url in seen || r.url in Urls(Fresh(results, seen))
    ensures forall i, j ::
      0 <= i < j < |Fresh(results, seen)| ==> Fresh(results, seen)[i].url != Fresh(results, seen)[j].url
  {
    if results != [] {
      FreshProperties(results[..|results| - 1], seen);
      var front, last := Fresh(results[..|results| - 1], seen), results[|results| - 1];
      assert results == results[..|results| - 1] + [last];
      if !(last.url in seen || last.url in Urls(front)) {
        assert Urls(front + [last]) == Urls(front) + [last.url];
        forall i | 0 <= i < |front|
          ensures front[i].url != last.url
        {
          assert Urls(front)[i] == front[i].url;
        }
      }
    }
  }

  lemma {:induction false} QueuedProperties(novel: seq<FuzzResult>, depth: nat, maxDepth: nat)
    requires forall i, j :: 0 <= i < j < |novel| ==> novel[i].url != novel[j].url
    ensures forall q :: q in Queued(novel, depth, maxDepth) ==>
      q.1 == depth + 1 <= maxDepth && exists r :: r in novel && r.url == q.0 && AllowsRecursion(r.status)
    ensures depth < maxDepth ==> forall r ::
      r in novel && AllowsRecursion(r.status) ==> (r.url, depth + 1) in Queued(novel, depth, maxDepth)
    ensures forall i, j :: 0 <= i < j < |Queued(novel, depth, maxDepth)| ==>
      Queued(novel, depth, maxDepth)[i].0 != Queued(novel, depth, maxDepth)[j].0
  {
    if novel != [] {
      var front, last := novel[..|novel| - 1], novel[|novel| - 1];
      QueuedProperties(front, depth, maxDepth);
      assert novel == front + [last];
      var q := Queued(front, depth, maxDepth);
      forall i | 0 <= i < |q|
        ensures q[i].0 != last.url
      {
        assert q[i] in q;
      }
    }
  }

  function UrlSet(results: seq<FuzzResult>): set<string> {
    set u | u in Urls(results)
  }

  lemma OneMoreResult(results: seq<FuzzResult>, i: nat, seen: set<string>, depth: nat, maxDepth: nat)
    requires i < |results|
    ensures
      var before, now, r := Fresh(results[..i], seen), Fresh(results[..i + 1], seen), results[i];
      if r.url in seen + UrlSet(before) then now == before
      else
        && now == before + [r]
        && UrlSet(now) == UrlSet(before) + {r.url}
        && Queued(now, depth, maxDepth) == Queued(before, depth, maxDepth)
           + (if depth < maxDepth && AllowsRecursion(r.status) then [(r.url, depth + 1)] else [])
  {
    var before, r := Fresh(results[..i], seen), results[i];
    assert results[..i + 1][..i] == results[..i];
    assert (before + [r])[..|before|] == before;
    assert Urls(before + [r]) == Urls(before) + [r.url];
  }

  /** The inner loop over the results of one base. */
  method Record(results: seq<FuzzResult>, depth: nat, maxDepth: nat, seen: set<string>, queue: seq<(string, nat)>,
      all: seq<FuzzResult>)
    returns (seen': set<string>, queue': seq<(string, nat)>, all': seq<FuzzResult>)
    ensures seen' == seen + UrlSet(Fresh(results, seen))
    ensures all' == all + Fresh(results, seen)
    ensures queue' == queue + Queued(Fresh(results, seen), depth, maxDepth)
  {
    seen', queue', all' := seen, queue, all;
    assert Fresh([], seen) == [] && Queued([], depth, maxDepth) == [] && UrlSet([]) == {};
    hide Fresh, Queued, UrlSet;
    for i := 0 to |results|
      invariant seen' == seen + UrlSet(Fresh(results[..i], seen))
      invariant all' == all + Fresh(results[..i], seen)
      invariant queue' == queue + Queued(Fresh(results[..i], seen), depth, maxDepth)
    {
      var result := results[i];
      OneMoreResult(results, i, seen, depth, maxDepth);
      if result.url in seen' {
        continue;
      }
      seen' := seen' + {result.url};
      if depth < maxDepth && AllowsRecursion(result.status) {
        queue' := queue' + [(result.url, depth + 1)];
      }
      all' := all' + [result];
    }
    assert results[..|results|] == results;
  }

  // ----- the recursion: what holds at every pop -----

  /** The worklist, the visited bases, the seen URLs, and the depth each base was first queued at. */
  datatype Work = Work(queue: seq<(string, nat)>, visited: set<string>, seen: set<string>, depth: map<string, nat>)

  ghost predicate QueueOk(root: string, maxDepth: nat, w: Work) {
    && Layered(w.queue)
    && (forall i :: 0 <= i < |w.queue| ==> w.queue[i].1 <= maxDepth && w.queue[i].0 in w.depth)
    && (forall i, j :: 0 <= i < j < |w.queue| ==> w.queue[i].0 != w.queue[j].0)
    && (forall i :: 0 <= i < |w.queue| ==>
          if w.queue[i].0 in w.visited then w.queue[i].0 == root && w.queue[i].1 > 0
          else w.depth[w.queue[i].0] == w.queue[i].1)
  }

  predicate Waiting(queue: seq<(string, nat)>, url: string, depth: nat) {
    (url, depth) in queue
  }

  ghost predicate VisitedOk(root: string, w: Work) {
    && (w.visited == {} ==> w.queue == [(root, 0)] && w.seen == {} && w.depth == map[root := 0])
    && (w.visited != {} ==> root in w.visited)
    && (forall i :: 0 <= i < |w.queue| && w.visited != {} ==> w.queue[i].0 in w.seen)
    && (forall u :: u in w.visited ==> u in w.depth && (u in w.seen || u == root))
    && (forall u :: u in w.depth ==> u in w.visited || Waiting(w.queue, u, w.depth[u]))
    && (forall u, i :: u in w.visited && 0 <= i < |w.queue| ==> w.depth[u] <= w.queue[i].1)
  }

  ghost predicate ClosedOk(site: Site, root: string, maxDepth: nat, w: Work) {
    && root in w.depth && w.depth[root] == 0
    && (forall a, u :: a in w.visited && Finds(site, a, u) ==> u in w.seen)
    && (forall a, u ::
          a in w.visited && a in w.depth && w.depth[a] < maxDepth && Finds(site, a, u) && MayRecurse(site, u)
          ==> u in w.depth && w.depth[u] <= w.depth[a] + 1)
    && (w.queue != [] && w.queue[0].1 < maxDepth ==>
          forall u :: u in w.seen && MayRecurse(site, u) ==> u in w.depth && w.depth[u] <= w.queue[0].1 + 1)
  }

  /** Base `a` is at the end of a chain of `d` links. */
  ghost predicate ReachedIn(site: Site, root: string, maxDepth: nat, d: nat, a: string) {
    d <= maxDepth && Within(Link(site), root, d, a)
  }

  /** `url` is at the end of a chain of at most `maxDepth + 1` discoveries. */
  ghost predicate Discoverable(site: Site, root: string, maxDepth: nat, url: string) {
    exists n :: 1 <= n <= maxDepth + 1 && Discovered(site, root, n, url)
  }

  ghost predicate SoundOk(site: Site, root: string, maxDepth: nat, w: Work) {
    && (forall a :: a in w.depth ==> ReachedIn(site, root, maxDepth, w.depth[a], a))
    && (forall u :: u in w.seen ==> Discoverable(site, root, maxDepth, u))
  }

  ghost predicate WorkOk(site: Site, root: string, maxDepth: nat, w: Work) {
    QueueOk(root, maxDepth, w) && VisitedOk(root, w) && ClosedOk(site, root, maxDepth, w)
      && SoundOk(site, root, maxDepth, w)
  }

  function Skip(w: Work): Work
    requires w.queue != []
  {
    w.(queue := w.queue[1..])
  }

  /** After the head base has been fuzzed with `novel` new results. */
  function Expand(w: Work, novel: seq<FuzzResult>, maxDepth: nat): Work
    requires w.queue != []
  {
    var (base, d) := w.queue[0];
    var more := Queued(novel, d, maxDepth);
    Work(w.queue[1..] + more, w.visited + {base}, w.seen + UrlSet(novel), Deepen(w.depth, more, d + 1))
  }

  /** Bases queued for the first time get depth `d`; the others keep theirs. */
  function Deepen(depth: map<string, nat>, more: seq<(string, nat)>, d: nat): map<string, nat> {
    (map q | q in more :: q.0 := d) + depth
  }

  lemma DeepenFacts(depth: map<string, nat>, more: seq<(string, nat)>, d: nat)
    ensures forall u :: u in depth ==> u in Deepen(depth, more, d) && Deepen(depth, more, d)[u] == depth[u]
    ensures forall q :: q in more ==> q.0 in Deepen(depth, more, d)
    ensures forall u :: u in Deepen(depth, more, d) && u !in depth ==>
      Deepen(depth, more, d)[u] == d && exists q :: q in more && q.0 == u
  {
  }

  lemma Start(site: Site, root: string, maxDepth: nat)
    ensures WorkOk(site, root, maxDepth, Work([(root, 0)], {}, {}, map[root := 0]))
  {
  }

  /** The worklist shrinks: fewer layers left, or as many and a smaller front layer. */
  predicate Shrinks(before: seq<(string, nat)>, after: seq<(string, nat)>, maxDepth: nat) {
    LayersLeft(before, maxDepth) > 0 &&
    (|| LayersLeft(after, maxDepth) < LayersLeft(before, maxDepth)
     || (LayersLeft(after, maxDepth) == LayersLeft(before, maxDepth) && FrontSize(after) < FrontSize(before)))
  }

  lemma ShrinksMeans(before: seq<(string, nat)>, after: seq<(string, nat)>, maxDepth: nat)
    requires Shrinks(before, after, maxDepth)
    ensures LayersLeft(before, maxDepth) > 0
    ensures LayersLeft(after, maxDepth) < LayersLeft(before, maxDepth)
            || (LayersLeft(after, maxDepth) == LayersLeft(before, maxDepth) && FrontSize(after) < FrontSize(before))
  {
  }

  lemma PopShrinks(queue: seq<(string, nat)>, maxDepth: nat)
    requires queue != [] && Layered(queue) && queue[0].1 <= maxDepth
    ensures Layered(queue[1..]) && Shrinks(queue, queue[1..], maxDepth)
  {
    PopAndPush(queue, [], maxDepth);
    assert queue[1..] + [] == queue[1..];
  }

  lemma SkipQueue(root: string, maxDepth: nat, w: Work)
    requires QueueOk(root, maxDepth, w) && w.queue != []
    ensures QueueOk(root, maxDepth, Skip(w)) && Shrinks(w.queue, w.queue[1..], maxDepth)
  {
    PopShrinks(w.queue, maxDepth);
    hide Layered, Shrinks;
    assert forall i :: 0 <= i < |w.queue| - 1 ==> Skip(w).queue[i] == w.queue[i + 1];
  }

  lemma SkipVisited(root: string, w: Work)
    requires VisitedOk(root, w) && w.queue != [] && w.queue[0].0 in w.visited
    ensures VisitedOk(root, Skip(w))
  {
    assert w.queue == [w.queue[0]] + Skip(w).queue;
  }

  lemma SkipClosed(site: Site, root: string, maxDepth: nat, w: Work)
    requires QueueOk(root, maxDepth, w) && ClosedOk(site, root, maxDepth, w) && w.queue != []
    ensures ClosedOk(site, root, maxDepth, Skip(w))
  {
    hide Finds, MayRecurse;
  }

  lemma SkipKeeps(site: Site, root: string, maxDepth: nat, w: Work)
    requires WorkOk(site, root, maxDepth, w) && w.queue != [] && w.queue[0].0 in w.visited
    ensures WorkOk(site, root, maxDepth, w.(queue := w.queue[1..]))
    ensures Shrinks(w.queue, w.queue[1..], maxDepth)
    ensures w.queue[0].0 == root && w.queue[0].1 > 0
  {
    hide Within, Discovered, VisitedOk, ClosedOk;
    SkipQueue(root, maxDepth, w);
    SkipVisited(root, w);
    SkipClosed(site, root, maxDepth, w);
  }

  /** What is new under a base, in terms of the site. */
  lemma NovelUrls(site: Site, base: string, seen: set<string>)
    ensures forall u ::
      u in UrlSet(Fresh(Found(site.net, base, site.words), seen)) <==> Finds(site, base, u) && u !in seen
  {
    var results := Found(site.net, base, site.words);
    var novel := Fresh(results, seen);
    FreshProperties(results, seen);
    hide Fresh, Found;
    forall u
      ensures u in UrlSet(novel) <==> Finds(site, base, u) && u !in seen
    {
      if u in UrlSet(novel) {
        var i :| 0 <= i < |novel| && novel[i].url == u;
        assert novel[i] in novel;
      }
    }
  }

  lemma NovelStatus(site: Site, base: string, seen: set<string>)
    ensures forall r ::
      r in Fresh(Found(site.net, base, site.words), seen) ==> MayRecurse(site, r.url) == AllowsRecursion(r.status)
  {
    var results := Found(site.net, base, site.words);
    FreshProperties(results, seen);
    forall r | r in Fresh(results, seen)
      ensures MayRecurse(site, r.url) == AllowsRecursion(r.status)
    {
      FoundStatus(site.net, base, site.words, r);
    }
  }

  lemma MemberUrl(results: seq<FuzzResult>, u: string)
    ensures u in UrlSet(results) <==> exists r :: r in results && r.url == u
  {
    if r :| r in results && r.url == u {
      var i :| 0 <= i < |results| && results[i] == r;
      assert Urls(results)[i] == u;
    }
  }

  /** What is queued for a base: exactly its new URLs that allow recursion, unless the depth is exhausted. */
  lemma NovelQueued(site: Site, base: string, d: nat, maxDepth: nat, seen: set<string>)
    ensures
      var novel := Fresh(Found(site.net, base, site.words), seen);
      var more := Queued(novel, d, maxDepth);
      && (forall q :: q in more ==> q.1 == d + 1 <= maxDepth && q.0 in UrlSet(novel) && MayRecurse(site, q.0))
      && (d < maxDepth ==> forall u :: u in UrlSet(novel) && MayRecurse(site, u) ==> (u, d + 1) in more)
      && (forall i, j :: 0 <= i < j < |more| ==> more[i].0 != more[j].0)
  {
    var novel := Fresh(Found(site.net, base, site.words), seen);
    NovelStatus(site, base, seen);
    FreshProperties(Found(site.net, base, site.words), seen);
    QueuedProperties(novel, d, maxDepth);
    hide Fresh, Found, Queued, UrlSet, MayRecurse, AllowsRecursion;
    forall q | q in Queued(novel, d, maxDepth)
      ensures q.0 in UrlSet(novel) && MayRecurse(site, q.0)
    {
      MemberUrl(novel, q.0);
    }
    forall u | u in UrlSet(novel) && MayRecurse(site, u) && d < maxDepth
      ensures (u, d + 1) in Queued(novel, d, maxDepth)
    {
      MemberUrl(novel, u);
    }
  }

  ghost predicate Novelty(site: Site, maxDepth: nat, w: Work, novel: seq<FuzzResult>)
    requires w.queue != []
  {
    var (base, d) := w.queue[0];
    var more := Queued(novel, d, maxDepth);
    && (forall u :: u in UrlSet(novel) <==> Finds(site, base, u) && u !in w.seen)
    && (forall q :: q in more ==> q.1 == d + 1 <= maxDepth && q.0 in UrlSet(novel) && MayRecurse(site, q.0))
    && (d < maxDepth ==> forall u :: u in UrlSet(novel) && MayRecurse(site, u) ==> Waiting(more, u, d + 1))
    && (forall i, j :: 0 <= i < j < |more| ==> more[i].0 != more[j].0)
  }

  lemma NoveltyHolds(site: Site, maxDepth: nat, w: Work)
    requires w.queue != []
    ensures Novelty(site, maxDepth, w, Fresh(Found(site.net, w.queue[0].0, site.words), w.seen))
  {
    hide Finds, Fresh, Found, Queued, UrlSet, MayRecurse;
    NovelUrls(site, w.queue[0].0, w.seen);
    NovelQueued(site, w.queue[0].0, w.queue[0].1, maxDepth, w.seen);
  }

  /** Only the starting URL can be found anew after it has been queued. */
  lemma OnlyRootAgain(root: string, w: Work, u: string)
    requires VisitedOk(root, w) && u in w.depth && u !in w.seen
    ensures u == root
  {
    if u !in w.visited {
      var i :| 0 <= i < |w.queue| && w.queue[i] == (u, w.depth[u]);
    }
  }

  lemma TailSeen(root: string, w: Work)
    requires VisitedOk(root, w) && w.queue != []
    ensures forall i :: 1 <= i < |w.queue| ==> w.queue[i].0 in w.seen
    ensures forall u :: u in w.visited ==> u in w.depth && (u in w.seen || u == root)
  {
  }

  lemma NewEntries(site: Site, root: string, maxDepth: nat, w: Work, novel: seq<FuzzResult>)
    requires w.queue != [] && Novelty(site, maxDepth, w, novel) && VisitedOk(root, w)
    requires w.queue[0].0 == root || w.queue[0].0 in w.seen
    ensures
      var w' := Expand(w, novel, maxDepth);
      forall q :: q in Queued(novel, w.queue[0].1, maxDepth) ==>
        && q.0 !in w.seen && q.0 in w'.depth && q.1 == w.queue[0].1 + 1 <= maxDepth
        && (q.0 in w.depth ==> q.0 == root)
        && (q.0 in w'.visited ==> q.0 == root)
        && (q.0 !in w.depth ==> w'.depth[q.0] == q.1)
  {
    hide Finds, MayRecurse, UrlSet, Queued, Deepen;
    var more := Queued(novel, w.queue[0].1, maxDepth);
    DeepenFacts(w.depth, more, w.queue[0].1 + 1);
    forall q | q in more
      ensures q.0 in w.depth ==> q.0 == root
    {
      if q.0 in w.depth {
        OnlyRootAgain(root, w, q.0);
      }
    }
  }

  lemma ExpandLayers(site: Site, maxDepth: nat, w: Work, novel: seq<FuzzResult>)
    requires w.queue != [] && Novelty(site, maxDepth, w, novel)
    requires Layered(w.queue) && w.queue[0].1 <= maxDepth
    ensures
      var queue := Expand(w, novel, maxDepth).queue;
      Layered(queue) && Shrinks(w.queue, queue, maxDepth)
  {
    hide Queued, UrlSet, Finds, MayRecurse, Layered, CountAt;
    var more := Queued(novel, w.queue[0].1, maxDepth);
    forall i | 0 <= i < |more|
      ensures more[i].1 == w.queue[0].1 + 1 <= maxDepth
    {
      assert more[i] in more;
    }
    PopAndPush(w.queue, more, maxDepth);
  }

  lemma HeadIsRootOrSeen(root: string, w: Work)
    requires VisitedOk(root, w) && w.queue != []
    ensures w.queue[0].0 == root || w.queue[0].0 in w.seen
    ensures w.visited != {} ==> w.queue[0].0 in w.seen
  {
    assert w.visited == {} ==> w.queue[0].0 == root;
    assert w.visited != {} ==> w.queue[0].0 in w.seen && root in w.visited;
  }

  /** Entries queued before: they keep their depth, and only the start can have been visited. */
  lemma OldEntry(site: Site, root: string, maxDepth: nat, w: Work, novel: seq<FuzzResult>, i: nat)
    requires w.queue != [] && Novelty(site, maxDepth, w, novel)
    requires QueueOk(root, maxDepth, w) && VisitedOk(root, w) && w.queue[0].0 !in w.visited
    requires i < |w.queue| - 1
    ensures
      var (w', q) := (Expand(w, novel, maxDepth), w.queue[i + 1]);
      && i < |w'.queue| && w'.queue[i] == q && q.1 <= maxDepth && q.0 in w'.depth && q.0 in w.seen
      && (if q.0 in w'.visited then q.0 == root && q.1 > 0 else w'.depth[q.0] == q.1)
  {
    OldDepths(w, novel, maxDepth);
    ExpandShape(w, novel, maxDepth);
    TailSeen(root, w);
    hide VisitedOk, Queued, UrlSet, Layered, Novelty, Expand;
    assert w.queue[i + 1].0 != w.queue[0].0;
  }

  lemma ExpandEntry(site: Site, root: string, maxDepth: nat, w: Work, novel: seq<FuzzResult>, i: nat)
    requires w.queue != [] && Novelty(site, maxDepth, w, novel)
    requires QueueOk(root, maxDepth, w) && VisitedOk(root, w) && w.queue[0].0 !in w.visited
    requires i < |Expand(w, novel, maxDepth).queue|
    ensures
      var w' := Expand(w, novel, maxDepth);
      var q := w'.queue[i];
      && q.1 <= maxDepth && q.0 in w'.depth
      && (if q.0 in w'.visited then q.0 == root && q.1 > 0 else w'.depth[q.0] == q.1)
      && (i < |w.queue| - 1 ==> q == w.queue[i + 1] && q.0 in w.seen)
      && (i >= |w.queue| - 1 ==> q == Queued(novel, w.queue[0].1, maxDepth)[i + 1 - |w.queue|] && q.0 !in w.seen)
  {
    HeadIsRootOrSeen(root, w);
    if i < |w.queue| - 1 {
      OldEntry(site, root, maxDepth, w, novel, i);
    } else {
      NewEntries(site, root, maxDepth, w, novel);
      ExpandShape(w, novel, maxDepth);
      hide VisitedOk, QueueOk, Queued, UrlSet, Layered, Novelty, Expand;
      var (w', more) := (Expand(w, novel, maxDepth), Queued(novel, w.queue[0].1, maxDepth));
      assert w'.queue[i] == more[i + 1 - |w.queue|] && w'.queue[i] in more;
    }
  }

  lemma ExpandQueue(site: Site, root: string, maxDepth: nat, w: Work, novel: seq<FuzzResult>)
    requires w.queue != [] && Novelty(site, maxDepth, w, novel)
    requires QueueOk(root, maxDepth, w) && VisitedOk(root, w) && w.queue[0].0 !in w.visited
    ensures QueueOk(root, maxDepth, Expand(w, novel, maxDepth))
  {
    hide VisitedOk, Queued, UrlSet, Finds, MayRecurse, Layered;
    var w' := Expand(w, novel, maxDepth);
    ExpandLayers(site, maxDepth, w, novel);
    forall i | 0 <= i < |w'.queue|
      ensures w'.queue[i].1 <= maxDepth && w'.queue[i].0 in w'.depth
      ensures if w'.queue[i].0 in w'.visited then w'.queue[i].0 == root && w'.queue[i].1 > 0
              else w'.depth[w'.queue[i].0] == w'.queue[i].1
    {
      ExpandEntry(site, root, maxDepth, w, novel, i);
    }
    forall i, j | 0 <= i < j < |w'.queue|
      ensures w'.queue[i].0 != w'.queue[j].0
    {
      ExpandEntry(site, root, maxDepth, w, novel, i);
      ExpandEntry(site, root, maxDepth, w, novel, j);
    }
  }

  lemma ExpandQueueSeen(site: Site, root: string, maxDepth: nat, w: Work, novel: seq<FuzzResult>)
    requires w.queue != [] && Novelty(site, maxDepth, w, novel)
    requires QueueOk(root, maxDepth, w) && VisitedOk(root, w) && w.queue[0].0 !in w.visited
    ensures
      var w' := Expand(w, novel, maxDepth);
      forall i :: 0 <= i < |w'.queue| ==> w'.queue[i].0 in w'.seen && w'.queue[i].1 >= w.queue[0].1
  {
    var more := Queued(novel, w.queue[0].1, maxDepth);
    var w' := Expand(w, novel, maxDepth);
    TailSeen(root, w);
    hide Queued, UrlSet, Finds, MayRecurse, VisitedOk;
    forall i | 0 <= i < |w'.queue|
      ensures w'.queue[i].0 in w'.seen && w'.queue[i].1 >= w.queue[0].1
    {
      if i < |w.queue| - 1 {
        assert w'.queue[i] == w.queue[i + 1];
      } else {
        assert w'.queue[i] in more;
      }
    }
  }

  lemma WaitingMoves(queue: seq<(string, nat)>, more: seq<(string, nat)>, u: string, k: nat)
    requires queue != []
    ensures Waiting(queue, u, k) ==> u == queue[0].0 || Waiting(queue[1..] + more, u, k)
    ensures Waiting(more, u, k) ==> Waiting(queue[1..] + more, u, k)
  {
    assert queue == [queue[0]] + queue[1..];
  }

  lemma ExpandStillQueued(maxDepth: nat, w: Work, novel: seq<FuzzResult>, u: string)
    requires w.queue != []
    requires forall q :: q in Queued(novel, w.queue[0].1, maxDepth) ==> q.1 == w.queue[0].1 + 1
    requires u in w.depth ==> u in w.visited || Waiting(w.queue, u, w.depth[u])
    requires u in Expand(w, novel, maxDepth).depth
    ensures
      var w' := Expand(w, novel, maxDepth);
      u in w'.visited || Waiting(w'.queue, u, w'.depth[u])
  {
    var d := w.queue[0].1;
    var more := Queued(novel, d, maxDepth);
    DeepenFacts(w.depth, more, d + 1);
    WaitingMoves(w.queue, more, u, Expand(w, novel, maxDepth).depth[u]);
    hide Queued, UrlSet, Deepen;
    if u !in w.depth {
      var q :| q in more && q.0 == u;
      assert q == (u, d + 1) && Waiting(more, u, d + 1);
    }
  }

  lemma ExpandVisited(site: Site, root: string, maxDepth: nat, w: Work, novel: seq<FuzzResult>)
    requires w.queue != [] && Novelty(site, maxDepth, w, novel)
    requires QueueOk(root, maxDepth, w) && VisitedOk(root, w) && w.queue[0].0 !in w.visited
    ensures VisitedOk(root, Expand(w, novel, maxDepth))
  {
    var w' := Expand(w, novel, maxDepth);
    ExpandQueueSeen(site, root, maxDepth, w, novel);
    TailSeen(root, w);
    hide Waiting;
    forall u | u in w'.depth
      ensures u in w'.visited || Waiting(w'.queue, u, w'.depth[u])
    {
      ExpandStillQueued(maxDepth, w, novel, u);
    }
    hide Novelty, Queued, UrlSet;
    assert w.queue[0] in w.queue;
    assert w.depth[w.queue[0].0] == w.queue[0].1;
  }

  lemma ExpandFound(site: Site, root: string, maxDepth: nat, w: Work, novel: seq<FuzzResult>)
    requires w.queue != [] && Novelty(site, maxDepth, w, novel) && ClosedOk(site, root, maxDepth, w)
    ensures
      var w' := Expand(w, novel, maxDepth);
      forall a, u :: a in w'.visited && Finds(site, a, u) ==> u in w'.seen
  {
    hide Queued, UrlSet, Finds, MayRecurse;
  }

  lemma SeenIsQueued(site: Site, root: string, maxDepth: nat, w: Work, u: string)
    requires ClosedOk(site, root, maxDepth, w) && w.queue != [] && w.queue[0].1 < maxDepth
    requires u in w.seen && MayRecurse(site, u)
    ensures u in w.depth && w.depth[u] <= w.queue[0].1 + 1
  {
  }

  lemma NovelIsQueued(site: Site, maxDepth: nat, w: Work, novel: seq<FuzzResult>, u: string)
    requires w.queue != [] && Novelty(site, maxDepth, w, novel) && w.queue[0].1 < maxDepth
    requires u in UrlSet(novel) && MayRecurse(site, u)
    ensures Waiting(Queued(novel, w.queue[0].1, maxDepth), u, w.queue[0].1 + 1)
  {
  }

  lemma OldDepths(w: Work, novel: seq<FuzzResult>, maxDepth: nat)
    requires w.queue != []
    ensures
      var w' := Expand(w, novel, maxDepth);
      && w'.seen == w.seen + UrlSet(novel) && w'.visited == w.visited + {w.queue[0].0}
      && (forall u :: u in w.depth ==> u in w'.depth && w'.depth[u] == w.depth[u])
  {
    DeepenFacts(w.depth, Queued(novel, w.queue[0].1, maxDepth), w.queue[0].1 + 1);
    hide Deepen, Queued, UrlSet;
  }

  lemma WaitingDepth(site: Site, root: string, maxDepth: nat, w: Work, novel: seq<FuzzResult>, u: string)
    requires w.queue != [] && Novelty(site, maxDepth, w, novel)
    requires VisitedOk(root, w) && ClosedOk(site, root, maxDepth, w)
    requires Waiting(Queued(novel, w.queue[0].1, maxDepth), u, w.queue[0].1 + 1)
    ensures
      var w' := Expand(w, novel, maxDepth);
      u in w'.depth && w'.depth[u] <= w.queue[0].1 + 1
  {
    DeepenFacts(w.depth, Queued(novel, w.queue[0].1, maxDepth), w.queue[0].1 + 1);
    assert u !in w.seen && root in w.depth && w.depth[root] == 0;
    hide VisitedOk, ClosedOk, Deepen, Queued, UrlSet, Novelty, Finds, MayRecurse;
    if u in w.depth {
      OnlyRootAgain(root, w, u);
    }
  }

  /** Every URL seen that allows recursion is queued at most one layer below the current head. */
  lemma ExpandQueuedSoon(site: Site, root: string, maxDepth: nat, w: Work, novel: seq<FuzzResult>, u: string)
    requires w.queue != [] && Novelty(site, maxDepth, w, novel)
    requires VisitedOk(root, w) && ClosedOk(site, root, maxDepth, w)
    requires w.queue[0].1 < maxDepth && u in Expand(w, novel, maxDepth).seen && MayRecurse(site, u)
    ensures
      var w' := Expand(w, novel, maxDepth);
      u in w'.depth && w'.depth[u] <= w.queue[0].1 + 1
  {
    hide *;
    OldDepths(w, novel, maxDepth);
    if u in w.seen {
      SeenIsQueued(site, root, maxDepth, w, u);
    } else {
      NovelIsQueued(site, maxDepth, w, novel, u);
      WaitingDepth(site, root, maxDepth, w, novel, u);
    }
  }

  lemma HeadDepth(root: string, maxDepth: nat, w: Work)
    requires QueueOk(root, maxDepth, w) && w.queue != [] && w.queue[0].0 !in w.visited
    ensures w.queue[0].0 in w.depth && w.depth[w.queue[0].0] == w.queue[0].1 <= maxDepth
  {
  }

  lemma ExpandChildren(site: Site, root: string, maxDepth: nat, w: Work, novel: seq<FuzzResult>, a: string, u: string)
    requires w.queue != [] && Novelty(site, maxDepth, w, novel)
    requires QueueOk(root, maxDepth, w) && VisitedOk(root, w) && ClosedOk(site, root, maxDepth, w)
    requires w.queue[0].0 !in w.visited
    requires a in w.visited + {w.queue[0].0} && a in w.depth && w.depth[a] < maxDepth
    requires Finds(site, a, u) && MayRecurse(site, u)
    ensures
      var w' := Expand(w, novel, maxDepth);
      u in w'.depth && w'.depth[u] <= w.depth[a] + 1
  {
    HeadDepth(root, maxDepth, w);
    OldDepths(w, novel, maxDepth);
    hide QueueOk, VisitedOk, Novelty, Finds, MayRecurse, Expand;
    if a !in w.visited {
      ExpandFound(site, root, maxDepth, w, novel);
      ExpandQueuedSoon(site, root, maxDepth, w, novel, u);
    }
  }

  lemma ExpandAllChildren(site: Site, root: string, maxDepth: nat, w: Work, novel: seq<FuzzResult>)
    requires w.queue != [] && Novelty(site, maxDepth, w, novel)
    requires QueueOk(root, maxDepth, w) && VisitedOk(root, w) && ClosedOk(site, root, maxDepth, w)
    requires w.queue[0].0 !in w.visited
    ensures
      var w' := Expand(w, novel, maxDepth);
      forall a, u ::
        a in w'.visited && a in w'.depth && w'.depth[a] < maxDepth && Finds(site, a, u) && MayRecurse(site, u)
        ==> u in w'.depth && w'.depth[u] <= w'.depth[a] + 1
  {
    assert forall u :: u in w.visited ==> u in w.depth;
    hide *;
    var w' := Expand(w, novel, maxDepth);
    HeadDepth(root, maxDepth, w);
    OldDepths(w, novel, maxDepth);
    forall a, u | a in w'.visited && a in w'.depth && w'.depth[a] < maxDepth && Finds(site, a, u) && MayRecurse(site, u)
      ensures u in w'.depth && w'.depth[u] <= w'.depth[a] + 1
    {
      ExpandChildren(site, root, maxDepth, w, novel, a, u);
    }
  }

  lemma ExpandClosed(site: Site, root: string, maxDepth: nat, w: Work, novel: seq<FuzzResult>)
    requires w.queue != [] && Novelty(site, maxDepth, w, novel)
    requires QueueOk(root, maxDepth, w) && VisitedOk(root, w) && ClosedOk(site, root, maxDepth, w)
    requires w.queue[0].0 !in w.visited
    ensures ClosedOk(site, root, maxDepth, Expand(w, novel, maxDepth))
  {
    var w' := Expand(w, novel, maxDepth);
    ExpandQueueSeen(site, root, maxDepth, w, novel);
    ExpandFound(site, root, maxDepth, w, novel);
    ExpandAllChildren(site, root, maxDepth, w, novel);
    OldDepths(w, novel, maxDepth);
    hide VisitedOk, QueueOk, Novelty, Expand, Finds, MayRecurse;
    forall u | w.queue[0].1 < maxDepth && u in w'.seen && MayRecurse(site, u)
      ensures u in w'.depth && w'.depth[u] <= w.queue[0].1 + 1
    {
      ExpandQueuedSoon(site, root, maxDepth, w, novel, u);
    }
  }

  lemma HeadIsReached(site: Site, root: string, maxDepth: nat, w: Work)
    requires QueueOk(root, maxDepth, w) && SoundOk(site, root, maxDepth, w)
    requires w.queue != [] && w.queue[0].0 !in w.visited
    ensures w.queue[0].1 <= maxDepth && Within(Link(site), root, w.queue[0].1, w.queue[0].0)
  {
    hide Within, Discoverable, Link;
    assert w.depth[w.queue[0].0] == w.queue[0].1;
    assert ReachedIn(site, root, maxDepth, w.queue[0].1, w.queue[0].0);
  }

  lemma OneLinkMore(site: Site, root: string, maxDepth: nat, d: nat, base: string, a: string)
    requires d + 1 <= maxDepth && Within(Link(site), root, d, base) && Link(site)(base, a)
    ensures ReachedIn(site, root, maxDepth, d + 1, a)
  {
    hide Link;
    OneMoreEdge(Link(site), root, d, base, a);
  }

  lemma OneDiscoveryMore(site: Site, root: string, maxDepth: nat, n: nat, u: string)
    requires 1 <= n <= maxDepth + 1 && Discovered(site, root, n, u)
    ensures Discoverable(site, root, maxDepth, u)
  {
  }

  /** A base queued for the first time is one link further than the one it was found under. */
  lemma NewBaseIsLinked(site: Site, maxDepth: nat, w: Work, novel: seq<FuzzResult>, a: string)
    requires w.queue != [] && Novelty(site, maxDepth, w, novel)
    requires a in Expand(w, novel, maxDepth).depth && a !in w.depth
    ensures Expand(w, novel, maxDepth).depth[a] == w.queue[0].1 + 1 <= maxDepth
    ensures Link(site)(w.queue[0].0, a)
  {
    var (base, d) := w.queue[0];
    DeepenFacts(w.depth, Queued(novel, d, maxDepth), d + 1);
    hide Queued, UrlSet, Finds, MayRecurse, Deepen;
  }

  lemma NewUrlIsDiscovered(site: Site, root: string, maxDepth: nat, w: Work, novel: seq<FuzzResult>, u: string)
    requires w.queue != [] && Novelty(site, maxDepth, w, novel)
    requires Within(Link(site), root, w.queue[0].1, w.queue[0].0)
    requires u in Expand(w, novel, maxDepth).seen && u !in w.seen
    ensures Discovered(site, root, w.queue[0].1 + 1, u)
  {
    OldDepths(w, novel, maxDepth);
    hide Expand, Queued, UrlSet, Finds, MayRecurse, Within;
    assert Finds(site, w.queue[0].0, u);
  }

  lemma SoundBase(site: Site, root: string, maxDepth: nat, w: Work, novel: seq<FuzzResult>, a: string)
    requires w.queue != [] && Novelty(site, maxDepth, w, novel)
    requires Within(Link(site), root, w.queue[0].1, w.queue[0].0) && SoundOk(site, root, maxDepth, w)
    requires a in Expand(w, novel, maxDepth).depth
    ensures ReachedIn(site, root, maxDepth, Expand(w, novel, maxDepth).depth[a], a)
  {
    if a in w.depth {
      OldDepths(w, novel, maxDepth);
      hide Expand, Novelty, Within, ReachedIn;
    } else {
      hide *;
      NewBaseIsLinked(site, maxDepth, w, novel, a);
      OneLinkMore(site, root, maxDepth, w.queue[0].1, w.queue[0].0, a);
    }
  }

  lemma SoundUrl(site: Site, root: string, maxDepth: nat, w: Work, novel: seq<FuzzResult>, u: string)
    requires w.queue != [] && Novelty(site, maxDepth, w, novel)
    requires Within(Link(site), root, w.queue[0].1, w.queue[0].0) && SoundOk(site, root, maxDepth, w)
    requires w.queue[0].1 <= maxDepth && u in Expand(w, novel, maxDepth).seen
    ensures Discoverable(site, root, maxDepth, u)
  {
    if u !in w.seen {
      hide *;
      NewUrlIsDiscovered(site, root, maxDepth, w, novel, u);
      OneDiscoveryMore(site, root, maxDepth, w.queue[0].1 + 1, u);
    }
  }

  lemma ExpandSound(site: Site, root: string, maxDepth: nat, w: Work, novel: seq<FuzzResult>)
    requires w.queue != [] && Novelty(site, maxDepth, w, novel)
    requires QueueOk(root, maxDepth, w) && SoundOk(site, root, maxDepth, w) && w.queue[0].0 !in w.visited
    ensures SoundOk(site, root, maxDepth, Expand(w, novel, maxDepth))
  {
    var w' := Expand(w, novel, maxDepth);
    HeadIsReached(site, root, maxDepth, w);
    hide Expand, Link, Within, Discoverable, ReachedIn, Novelty, QueueOk;
    forall a | a in w'.depth
      ensures ReachedIn(site, root, maxDepth, w'.depth[a], a)
    {
      SoundBase(site, root, maxDepth, w, novel, a);
    }
    forall u | u in w'.seen
      ensures Discoverable(site, root, maxDepth, u)
    {
      SoundUrl(site, root, maxDepth, w, novel, u);
    }
  }

  lemma ExpandKeeps(site: Site, root: string, maxDepth: nat, w: Work)
    requires WorkOk(site, root, maxDepth, w) && w.queue != [] && w.queue[0].0 !in w.visited
    ensures
      var w' := Expand(w, Fresh(Found(site.net, w.queue[0].0, site.words), w.seen), maxDepth);
      WorkOk(site, root, maxDepth, w') && Shrinks(w.queue, w'.queue, maxDepth)
  {
    var novel := Fresh(Found(site.net, w.queue[0].0, site.words), w.seen);
    assert Layered(w.queue) && w.queue[0].1 <= maxDepth;
    hide VisitedOk, ClosedOk, SoundOk, QueueOk, Layered, Fresh, Found, Novelty, Expand, FrontSize;
    NoveltyHolds(site, maxDepth, w);
    ExpandLayers(site, maxDepth, w, novel);
    ExpandQueue(site, root, maxDepth, w, novel);
    ExpandVisited(site, root, maxDepth, w, novel);
    ExpandClosed(site, root, maxDepth, w, novel);
    ExpandSound(site, root, maxDepth, w, novel);
  }

  lemma ExpandShape(w: Work, novel: seq<FuzzResult>, maxDepth: nat)
    requires w.queue != []
    ensures Expand(w, novel, maxDepth).queue == w.queue[1..] + Queued(novel, w.queue[0].1, maxDepth)
    ensures Expand(w, novel, maxDepth).visited == w.visited + {w.queue[0].0}
    ensures Expand(w, novel, maxDepth).seen == w.seen + UrlSet(novel)
  {
  }

  /** When the worklist is empty, every chain of allowed length has been followed. */
  lemma DrainedIsComplete(site: Site, root: string, maxDepth: nat, w: Work, n: nat, url: string)
    requires ClosedOk(site, root, maxDepth, w) && forall a :: a in w.depth ==> a in w.visited
    requires n <= maxDepth + 1 && Discovered(site, root, n, url)
    ensures url in w.seen
  {
    var base :| Within(Link(site), root, n - 1, base) && Finds(site, base, url);
    hide Finds, MayRecurse, Within;
    forall a, b | a in w.depth && w.depth[a] < maxDepth && Link(site)(a, b)
      ensures b in w.depth && w.depth[b] <= w.depth[a] + 1
    {
    }
    WalksAreQueued(Link(site), root, w.depth, maxDepth, n - 1, base);
  }

  lemma DrainedIsExact(site: Site, root: string, maxDepth: nat, w: Work)
    requires WorkOk(site, root, maxDepth, w) && w.queue == []
    ensures forall url :: url in w.seen <==> Discoverable(site, root, maxDepth, url)
  {
    assert forall a :: a in w.depth ==> a in w.visited;
    hide Discovered, ClosedOk, VisitedOk, QueueOk;
    forall url, n | 1 <= n <= maxDepth + 1 && Discovered(site, root, n, url)
      ensures url in w.seen
    {
      DrainedIsComplete(site, root, maxDepth, w, n, url);
    }
  }

  // ----- the same chains, in terms of words and responses -----

  /** `url` is worth reporting, and some word gives it under `base`. */
  ghost predicate IsFoundUnder(site: Site, base: string, url: string) {
    exists w, r: FuzzResult :: w in site.words && r.url == url && IsResult(site.net, base, w, r)
  }

  /** Success, redirection or a refusal for want of rights: the URL may have something below it. */
  ghost predicate GoesOn(site: Site, url: string) {
    site.net(url).Some? &&
    var status := site.net(url).value.status;
    || 200 <= status <= 201 || status == 204 || 301 <= status <= 302 || 307 <= status <= 308
    || status == 401 || status == 403
  }

  ghost function Steps(site: Site): (string, string) -> bool {
    (base: string, url: string) => IsFoundUnder(site, base, url) && GoesOn(site, url)
  }

  /** A chain of `n` discoveries leads from `root` to `url`, and goes on from all before the last. */
  ghost predicate EndsChain(site: Site, root: string, n: nat, url: string) {
    n > 0 && exists base :: Within(Steps(site), root, n - 1, base) && IsFoundUnder(site, base, url)
  }

  lemma FoundUnderIff(site: Site, base: string, url: string)
    ensures IsFoundUnder(site, base, url) <==> Finds(site, base, url)
  {
    FindsIff(site, base, url);
    forall w, r: FuzzResult | w in site.words && r.url == url
      ensures IsResult(site.net, base, w, r) <==>
        && r.path == NormalizePath(w) && r.url == UrlOf(base, r.path)
        && site.net(url) == Some(Response(r.status, r.length))
        && Kept(site.net(UrlOf(base, BASELINE_PATH)), site.net(url))
    {
      ResultIs(site.net, base, w, r);
    }
    assert Kept(site.net(UrlOf(base, BASELINE_PATH)), site.net(url)) ==> site.net(url).Some?;
    hide IsResult, Finds, Kept, UrlOf, NormalizePath;
    if Finds(site, base, url) {
      var w :| w in site.words && url == UrlOf(base, NormalizePath(w));
      var response := site.net(url).value;
      assert IsResult(site.net, base, w, FuzzResult(url, NormalizePath(w), response.status, response.length));
    }
  }

  lemma SameLinks(site: Site, a: string, b: string)
    ensures Link(site)(a, b) <==> Steps(site)(a, b)
  {
    FoundUnderIff(site, a, b);
    hide IsFoundUnder, Finds;
  }

  lemma ChainsIff(site: Site, root: string, n: nat, base: string)
    ensures Within(Link(site), root, n, base) <==> Within(Steps(site), root, n, base)
  {
    hide Link, Steps, Within;
    forall a, b
      ensures Link(site)(a, b) <==> Steps(site)(a, b)
    {
      SameLinks(site, a, b);
    }
    SameWalks(Link(site), Steps(site), root, n, base);
  }

  lemma EndsChainIff(site: Site, root: string, n: nat, url: string)
    ensures EndsChain(site, root, n, url) <==> Discovered(site, root, n, url)
  {
    hide Link, Steps, IsFoundUnder, Finds, Within;
    if n > 0 {
      forall base
        ensures Within(Steps(site), root, n - 1, base) && IsFoundUnder(site, base, url)
          <==> Within(Link(site), root, n - 1, base) && Finds(site, base, url)
      {
        ChainsIff(site, root, n - 1, base);
        FoundUnderIff(site, base, url);
      }
    }
  }

  lemma DiscoverableIff(site: Site, root: string, maxDepth: nat, url: string)
    ensures Discoverable(site, root, maxDepth, url) <==>
      exists n :: 1 <= n <= maxDepth + 1 && EndsChain(site, root, n, url)
  {
    forall n | 1 <= n <= maxDepth + 1
      ensures EndsChain(site, root, n, url) <==> Discovered(site, root, n, url)
    {
      EndsChainIff(site, root, n, url);
    }
    hide EndsChain, Discovered;
  }

  /** The result is what some word gives under some base. */
  ghost predicate IsFinding(site: Site, r: FuzzResult) {
    exists base, w :: w in site.words && IsResult(site.net, base, w, r)
  }

  lemma FoundIsFinding(site: Site, base: string, r: FuzzResult)
    requires r in Found(site.net, base, site.words)
    ensures IsFinding(site, r)
  {
    FoundIff(site.net, base, site.words, r);
    assert Kept(site.net(UrlOf(base, BASELINE_PATH)), site.net(r.url)) ==> site.net(r.url).Some?;
    hide IsResult, Kept, UrlOf, NormalizePath, Found;
    var w :| w in site.words && r.path == NormalizePath(w);
    ResultIs(site.net, base, w, r);
  }

  ghost predicate ResultsOk(site: Site, all: seq<FuzzResult>, seen: set<string>) {
    && UrlSet(all) == seen
    && (forall i, j :: 0 <= i < j < |all| ==> all[i].url != all[j].url)
    && (forall r :: r in all ==> IsFinding(site, r))
  }

  lemma ResultsFacts(site: Site, all: seq<FuzzResult>, seen: set<string>)
    requires ResultsOk(site, all, seen)
    ensures UrlSet(all) == seen
    ensures forall i, j :: 0 <= i < j < |all| ==> all[i].url != all[j].url
    ensures forall r :: r in all ==> IsFinding(site, r)
  {
  }

  lemma NoResultsYet(site: Site)
    ensures ResultsOk(site, [], {})
  {
  }

  lemma ResultsGrow(site: Site, base: string, all: seq<FuzzResult>, seen: set<string>)
    requires ResultsOk(site, all, seen)
    ensures
      var novel := Fresh(Found(site.net, base, site.words), seen);
      ResultsOk(site, all + novel, seen + UrlSet(novel))
  {
    var results := Found(site.net, base, site.words);
    var novel := Fresh(results, seen);
    FreshProperties(results, seen);
    assert Urls(all + novel) == Urls(all) + Urls(novel);
    forall r | r in novel
      ensures IsFinding(site, r)
    {
      FoundIsFinding(site, base, r);
    }
    hide Fresh, Found, IsFinding;
    forall i, j | 0 <= i < j < |all + novel|
      ensures (all + novel)[i].url != (all + novel)[j].url
    {
      if i < |all| <= j {
        assert Urls(all)[i] in UrlSet(all);
        assert novel[j - |all|] in novel;
      }
    }
  }

  predicate Returned(all: seq<FuzzResult>, url: string) {
    exists r: FuzzResult :: r in all && r.url == url
  }

  lemma AllChains(site: Site, root: string, maxDepth: nat, all: seq<FuzzResult>)
    requires forall url :: url in UrlSet(all) <==> Discoverable(site, root, maxDepth, url)
    ensures forall url ::
      Returned(all, url) <==> exists n :: 1 <= n <= maxDepth + 1 && EndsChain(site, root, n, url)
  {
    hide Discoverable, EndsChain;
    forall url
      ensures Returned(all, url) <==>
        exists n :: 1 <= n <= maxDepth + 1 && EndsChain(site, root, n, url)
    {
      DiscoverableIff(site, root, maxDepth, url);
      if url in UrlSet(all) {
        var i :| 0 <= i < |all| && Urls(all)[i] == url;
        assert all[i] in all;
      }
      if r: FuzzResult :| r in all && r.url == url {
        var i :| 0 <= i < |all| && all[i] == r;
        assert Urls(all)[i] == url;
      }
    }
  }

  /**
   Recursive fuzzing returns each URL once, and exactly the URLs at the end of a chain of at most
   `maxDepth + 1` discoveries. `revisits` lists what the visited check rejected: only the start.
   */
  method FuzzPathsRecursive(site: Site, root: string, maxDepth: nat)
      returns (all: seq<FuzzResult>, ghost revisits: seq<string>)
    ensures forall i, j :: 0 <= i < j < |all| ==> all[i].url != all[j].url
    ensures forall url ::
      Returned(all, url) <==> exists n :: 1 <= n <= maxDepth + 1 && EndsChain(site, root, n, url)
    ensures forall r :: r in all ==> IsFinding(site, r)
    ensures forall u :: u in revisits ==> u == root
  {
    var visited: set<string> := {};
    var seen: set<string> := {};
    var queue: seq<(string, nat)> := [(root, 0)];
    ghost var depth: map<string, nat> := map[root := 0];
    all, revisits := [], [];
    Start(site, root, maxDepth);
    NoResultsYet(site);
    hide *;
    while queue != []
      invariant WorkOk(site, root, maxDepth, Work(queue, visited, seen, depth))
      invariant ResultsOk(site, all, seen)
      invariant forall u :: u in revisits ==> u == root
      decreases LayersLeft(queue, maxDepth), FrontSize(queue)
    {
      ghost var w := Work(queue, visited, seen, depth);
      var (current, d) := queue[0];
      queue := queue[1..];
      if current in visited {
        SkipKeeps(site, root, maxDepth, w);
        ShrinksMeans(w.queue, queue, maxDepth);
        revisits := revisits + [current];
        continue;
      }
      visited := visited + {current};
      var results, _ := FuzzPaths(site.net, current, site.words);
      ghost var novel := Fresh(results, seen);
      ExpandShape(w, novel, maxDepth);
      ExpandKeeps(site, root, maxDepth, w);
      ResultsGrow(site, current, all, seen);
      seen, queue, all := Record(results, d, maxDepth, seen, queue, all);
      depth := Expand(w, novel, maxDepth).depth;
      assert Work(queue, visited, seen, depth) == Expand(w, novel, maxDepth);
      ShrinksMeans(w.queue, queue, maxDepth);
    }
    DrainedIsExact(site, root, maxDepth, Work(queue, visited, seen, depth));
    ResultsFacts(site, all, seen);
    AllChains(site, root, maxDepth, all);
  }
}
