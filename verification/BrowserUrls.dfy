/**
 The URLs a crawl meets: which of them are in scope, which are pages or scripts, which are not to be recorded, and
 the text they are identified by.
 */
module BrowserUrls {
  import opened Options
  import opened Decimal
  import opened Text

  // ----- as the crawler decides it -----

  /** A parsed absolute URL; `query` is empty or starts with a question mark. */
  datatype Url = Url(scheme: string, host: string, port: Option<nat>, path: string, query: string,
      fragment: Option<string>)

  function AsString(u: Url): string {
    u.scheme + "://" + u.host
    + (if u.port.Some? then ":" + Format(u.port.value) else "")
    + u.path + u.query
    + (if u.fragment.Some? then "#" + u.fragment.value else "")
  }

  /** The canonical form pages, scripts and assets are identified by. */
  function Key(u: Url): string {
    AsString(u.(fragment := None))
  }

  function KnownPort(u: Url): Option<nat> {
    if u.port.Some? then u.port
    else if u.scheme in {"http", "ws"} then Some(80)
    else if u.scheme in {"https", "wss"} then Some(443)
    else if u.scheme == "ftp" then Some(21)
    else None
  }

  predicate SameOrigin(base: Url, u: Url) {
    base.scheme == u.scheme && base.host == u.host && KnownPort(base) == KnownPort(u)
  }

  predicate EndsWith(s: string, suffix: string) {
    |suffix| <= |s| && s[|s| - |suffix|..] == suffix
  }

  predicate IsScript(u: Url) {
    EndsWith(Lower(u.path), ".js") || EndsWith(Lower(u.path), ".mjs")
  }

  const ASSET_SUFFIXES := [".css", ".png", ".jpg", ".jpeg", ".gif", ".svg", ".ico", ".woff", ".woff2", ".map"]

  predicate IsPage(u: Url) {
    !IsScript(u) && forall i :: 0 <= i < |ASSET_SUFFIXES| ==> !EndsWith(Lower(u.path), ASSET_SUFFIXES[i])
  }

  const DESTRUCTIVE := ["logout", "log-out", "signout", "sign-out", "delete", "destroy", "remove", "deactivate"]

  predicate IsDestructive(u: Url) {
    exists i :: 0 <= i < |DESTRUCTIVE| && Contains(Lower(AsString(u)), DESTRUCTIVE[i])
  }

  // ----- as the crawl promises it -----

  /** A connection for `u` goes to this port: the one it names, or the usual one of its scheme. */
  ghost predicate ConnectsTo(u: Url, p: nat) {
    || u.port == Some(p)
    || (u.port == None && (
          || (p == 80 && (u.scheme == "http" || u.scheme == "ws"))
          || (p == 443 && (u.scheme == "https" || u.scheme == "wss"))
          || (p == 21 && u.scheme == "ftp")))
  }

  ghost predicate InScope(base: Url, u: Url) {
    u.scheme == base.scheme && u.host == base.host && forall p: nat :: ConnectsTo(u, p) <==> ConnectsTo(base, p)
  }

  /** `s` is the lower-case word `w`, in letters of either case. */
  ghost predicate Spells(s: string, w: string) {
    |s| == |w| && forall i :: 0 <= i < |s| ==> s[i] == w[i] || ('a' <= w[i] <= 'z' && s[i] as int + 32 == w[i] as int)
  }

  ghost predicate EndsIn(s: string, w: string) {
    exists k :: 0 <= k <= |s| && Spells(s[k..], w)
  }

  ghost predicate Mentions(s: string, w: string) {
    exists j, k :: 0 <= j <= k <= |s| && Spells(s[j..k], w)
  }

  ghost predicate ScriptPath(u: Url) {
    EndsIn(u.path, ".js") || EndsIn(u.path, ".mjs")
  }

  ghost predicate PagePath(u: Url) {
    && !ScriptPath(u) && !EndsIn(u.path, ".css") && !EndsIn(u.path, ".png") && !EndsIn(u.path, ".jpg")
    && !EndsIn(u.path, ".jpeg") && !EndsIn(u.path, ".gif") && !EndsIn(u.path, ".svg") && !EndsIn(u.path, ".ico")
    && !EndsIn(u.path, ".woff") && !EndsIn(u.path, ".woff2") && !EndsIn(u.path, ".map")
  }

  ghost predicate Mutates(s: string) {
    || Mentions(s, "logout") || Mentions(s, "log-out") || Mentions(s, "signout") || Mentions(s, "sign-out")
    || Mentions(s, "delete") || Mentions(s, "destroy") || Mentions(s, "remove") || Mentions(s, "deactivate")
  }

  /** Scheme, host, port if there is one, path and query: the URL without its fragment. */
  ghost function Address(u: Url): string {
    var port := if u.port == None then "" else ":" + Format(u.port.value);
    u.scheme + "://" + u.host + port + u.path + u.query
  }

  /** The same with the fragment: what is searched for words. */
  ghost function FullText(u: Url): string {
    if u.fragment == None then Address(u) else Address(u) + "#" + u.fragment.value
  }

  // ----- that they are the same -----

  lemma KeyIsAddress(u: Url)
    ensures Key(u) == Address(u)
  {
  }

  lemma TextIs(u: Url)
    ensures AsString(u) == FullText(u)
  {
  }

  lemma KnownPortIs(u: Url)
    ensures forall p: nat :: ConnectsTo(u, p) <==> KnownPort(u) == Some(p)
  {
  }

  lemma ScopeIs(base: Url, u: Url)
    ensures InScope(base, u) <==> SameOrigin(base, u)
  {
    KnownPortIs(base);
    KnownPortIs(u);
    hide ConnectsTo, KnownPort;
    if KnownPort(base).Some? {
      assert ConnectsTo(base, KnownPort(base).value);
    }
    if KnownPort(u).Some? {
      assert ConnectsTo(u, KnownPort(u).value);
    }
  }

  /** The word holds no capital letter. */
  predicate IsLower(w: string) {
    forall i :: 0 <= i < |w| ==> !('A' <= w[i] <= 'Z')
  }

  lemma SpellsIs(s: string, w: string)
    requires IsLower(w)
    ensures Spells(s, w) <==> Lower(s) == w
  {
    if Spells(s, w) {
      forall i | 0 <= i < |s|
        ensures Lower(s)[i] == w[i]
      {
      }
    }
    if Lower(s) == w {
      assert |s| == |w| && forall i :: 0 <= i < |s| ==> LowerAscii(s[i]) == w[i];
    }
  }

  lemma LowerOfPart(s: string, j: nat, k: nat)
    requires j <= k <= |s|
    ensures Lower(s[j..k]) == Lower(s)[j..k]
  {
  }

  lemma EndsInIs(s: string, w: string)
    requires IsLower(w)
    ensures EndsIn(s, w) <==> EndsWith(Lower(s), w)
  {
    hide Lower, Spells;
    forall k | 0 <= k <= |s|
      ensures Spells(s[k..], w) <==> Lower(s)[k..] == w
    {
      SpellsIs(s[k..], w);
      LowerOfPart(s, k, |s|);
      assert s[k..|s|] == s[k..] && Lower(s)[k..|s|] == Lower(s)[k..];
    }
    if EndsIn(s, w) {
      var k :| 0 <= k <= |s| && Spells(s[k..], w);
      assert k == |s| - |w|;
    }
    if EndsWith(Lower(s), w) {
      var k := |s| - |w|;
      assert Spells(s[k..], w);
    }
  }

  lemma MentionsIs(s: string, w: string)
    requires IsLower(w)
    ensures Mentions(s, w) <==> Contains(Lower(s), w)
  {
    ContainsIs(Lower(s), w);
    hide Contains, Lower, Spells;
    forall j, k | 0 <= j <= k <= |s|
      ensures Spells(s[j..k], w) <==> Lower(s)[j..k] == w
    {
      SpellsIs(s[j..k], w);
      LowerOfPart(s, j, k);
    }
    if Mentions(s, w) {
      var j, k :| 0 <= j <= k <= |s| && Spells(s[j..k], w);
      assert Lower(s)[j..k] == w;
    }
    if Contains(Lower(s), w) {
      var j, k :| 0 <= j <= k <= |Lower(s)| && Lower(s)[j..k] == w;
      assert Spells(s[j..k], w);
    }
  }

  lemma ScriptPathIs(u: Url)
    ensures ScriptPath(u) <==> IsScript(u)
  {
    EndsInIs(u.path, ".js");
    EndsInIs(u.path, ".mjs");
    hide EndsIn, EndsWith;
  }

  lemma PagePathIs(u: Url)
    ensures PagePath(u) <==> IsPage(u)
  {
    ScriptPathIs(u);
    SuffixesAre();
    hide EndsIn, EndsWith, ScriptPath, IsScript, Lower;
    EndsInIs(u.path, ".css");
    EndsInIs(u.path, ".png");
    EndsInIs(u.path, ".jpg");
    EndsInIs(u.path, ".jpeg");
    EndsInIs(u.path, ".gif");
    EndsInIs(u.path, ".svg");
    EndsInIs(u.path, ".ico");
    EndsInIs(u.path, ".woff");
    EndsInIs(u.path, ".woff2");
    EndsInIs(u.path, ".map");
    hide ASSET_SUFFIXES;
  }

  lemma SuffixesAre()
    ensures |ASSET_SUFFIXES| == 10
    ensures ASSET_SUFFIXES[0] == ".css"
    ensures ASSET_SUFFIXES[1] == ".png"
    ensures ASSET_SUFFIXES[2] == ".jpg"
    ensures ASSET_SUFFIXES[3] == ".jpeg"
    ensures ASSET_SUFFIXES[4] == ".gif"
    ensures ASSET_SUFFIXES[5] == ".svg"
    ensures ASSET_SUFFIXES[6] == ".ico"
    ensures ASSET_SUFFIXES[7] == ".woff"
    ensures ASSET_SUFFIXES[8] == ".woff2"
    ensures ASSET_SUFFIXES[9] == ".map"
  {
  }

  lemma MutatesIs(u: Url)
    ensures Mutates(FullText(u)) <==> IsDestructive(u)
  {
    TextIs(u);
    WordsAre();
    var s := AsString(u);
    hide Mentions, Contains, AsString, FullText, Lower;
    MentionsIs(s, "logout");
    MentionsIs(s, "log-out");
    MentionsIs(s, "signout");
    MentionsIs(s, "sign-out");
    MentionsIs(s, "delete");
    MentionsIs(s, "destroy");
    MentionsIs(s, "remove");
    MentionsIs(s, "deactivate");
    hide DESTRUCTIVE;
  }

  lemma WordsAre()
    ensures |DESTRUCTIVE| == 8
    ensures DESTRUCTIVE[0] == "logout"
    ensures DESTRUCTIVE[1] == "log-out"
    ensures DESTRUCTIVE[2] == "signout"
    ensures DESTRUCTIVE[3] == "sign-out"
    ensures DESTRUCTIVE[4] == "delete"
    ensures DESTRUCTIVE[5] == "destroy"
    ensures DESTRUCTIVE[6] == "remove"
    ensures DESTRUCTIVE[7] == "deactivate"
  {
  }

  // ----- what the text identifies -----

  /** What a URL parser leaves in the parts; an address in brackets may hold colons. */
  predicate IsParsed(u: Url) {
    && ':' !in u.scheme
    && '/' !in u.host
    && (if u.host != [] && u.host[0] == '[' then u.host[|u.host| - 1] == ']' && ']' !in u.host[..|u.host| - 1]
        else ':' !in u.host)
    && u.path != [] && u.path[0] == '/' && '?' !in u.path
    && (u.query != [] ==> u.query[0] == '?')
  }

  function PortText(port: Option<nat>): string {
    if port == None then "" else ":" + Format(port.value)
  }

  lemma PortTextTells(a: Option<nat>, b: Option<nat>)
    ensures PortText(a) == PortText(b) ==> a == b
    ensures '/' !in PortText(a)
  {
    if a.Some? {
      ValueOfFormat(a.value);
      assert PortText(a)[1..] == Format(a.value);
      assert forall c :: c in Format(a.value) ==> IsDigit(c);
    }
    if b.Some? {
      ValueOfFormat(b.value);
      assert PortText(b)[1..] == Format(b.value);
    }
  }

  /** A part without `c`, then either nothing or something that starts with `c`. */
  lemma CutAt(a: string, rest: string, c: char, a': string, rest': string)
    requires c !in a && c !in a' && (rest != [] ==> rest[0] == c) && (rest' != [] ==> rest'[0] == c)
    requires a + rest == a' + rest'
    ensures a == a' && rest == rest'
  {
    CutPlace(a, rest, c);
    CutPlace(a', rest', c);
    hide IndexOf;
    assert a == (a + rest)[..|a|] == (a' + rest')[..|a'|] == a';
    assert rest == (a + rest)[|a|..] == (a' + rest')[|a'|..] == rest';
  }

  lemma CutPlace(a: string, rest: string, c: char)
    requires c !in a && (rest != [] ==> rest[0] == c)
    ensures IndexOf(a + rest, c) == |a|
  {
    hide IndexOf;
    if rest == [] {
      IndexOfAfter(a, c, []);
      assert a + rest == a;
    } else {
      IndexOfAfter(a, c, rest[1..]);
      assert rest == [c] + rest[1..];
      assert a + [c] + rest[1..] == a + rest;
    }
  }

  lemma InBrackets(u: Url)
    requires IsParsed(u)
    ensures u.host + PortText(u.port) != [] && (u.host + PortText(u.port))[0] == '['
      <==> u.host != [] && u.host[0] == '['
  {
    hide Format;
  }

  lemma BracketsTell(x: string, a: string, y: string, b: string)
    requires ']' !in x && ']' !in y && (x + "]") + a == (y + "]") + b
    ensures x == y && a == b
  {
    assert (x + "]") + a == x + ("]" + a) && (y + "]") + b == y + ("]" + b);
    CutAt(x, "]" + a, ']', y, "]" + b);
    assert a == ("]" + a)[1..] && b == ("]" + b)[1..];
  }

  lemma AuthorityTells(u: Url, v: Url)
    requires IsParsed(u) && IsParsed(v) && u.host + PortText(u.port) == v.host + PortText(v.port)
    ensures u.host == v.host && u.port == v.port
  {
    PortTextTells(u.port, v.port);
    InBrackets(u);
    InBrackets(v);
    var (a, b) := (PortText(u.port), PortText(v.port));
    assert a != [] ==> a[0] == ':';
    assert b != [] ==> b[0] == ':';
    hide PortText;
    if u.host != [] && u.host[0] == '[' {
      var (x, y) := (u.host[..|u.host| - 1], v.host[..|v.host| - 1]);
      assert u.host == x + "]" && v.host == y + "]";
      BracketsTell(x, a, y, b);
    } else {
      CutAt(u.host, a, ':', v.host, b);
    }
  }

  lemma KeyParts(u: Url)
    ensures Key(u) == u.scheme + ("://" + ((u.host + PortText(u.port)) + (u.path + u.query)))
  {
    hide Format;
  }

  lemma AfterScheme(a: string, b: string)
    requires "://" + a == "://" + b
    ensures a == b
  {
    assert a == ("://" + a)[3..] && b == ("://" + b)[3..];
  }

  lemma PartsTell(u: Url, v: Url)
    requires IsParsed(u) && IsParsed(v) && Key(u) == Key(v)
    ensures u.scheme == v.scheme && u.host + PortText(u.port) == v.host + PortText(v.port)
    ensures u.path == v.path && u.query == v.query
  {
    KeyParts(u);
    KeyParts(v);
    PortTextTells(u.port, u.port);
    PortTextTells(v.port, v.port);
    hide Key, PortText;
    var (a, b) := (u.host + PortText(u.port), v.host + PortText(v.port));
    var (r, s) := (u.path + u.query, v.path + v.query);
    assert r[0] == '/' && s[0] == '/' && '/' !in a && '/' !in b;
    CutAt(u.scheme, "://" + (a + r), ':', v.scheme, "://" + (b + s));
    AfterScheme(a + r, b + s);
    CutAt(a, r, '/', b, s);
    CutAt(u.path, u.query, '?', v.path, v.query);
  }

  /** Parsed URLs have the same key exactly if they agree in everything but the fragment. */
  lemma KeyIdentifies(u: Url, v: Url)
    requires IsParsed(u) && IsParsed(v)
    ensures Key(u) == Key(v) <==> u.(fragment := None) == v.(fragment := None)
  {
    if Key(u) == Key(v) {
      PartsTell(u, v);
      hide *;
      AuthorityTells(u, v);
    }
  }
}
