/**
 * The registry's serverless request handler (packages/registry/api/index.ts).
 *
 * The handler sets three CORS headers, answers a preflight `OPTIONS` request
 * at once, strips a leading `/api` from the URL, classifies the path into one
 * of a fixed set of routes and maps the route, together with the state of the
 * file backing it, to a status code and a JSON body.
 *
 * Routing is pure: `NormalizePath`, `Classify` and `Route`. The file system
 * and `JSON.parse` are an oracle `FileSystem` from the path segments that the
 * handler joins under the public directory to what reading that file gives.
 * The response object that the source mutates (`setHeader`, `status`, `json`,
 * `end`) is built here as one `Response` value.
 */
module RegistryApi {
  import opened Wrappers

  /** JSON documents as the handler sends them. The handler only copies parsed
      documents through, so numbers are kept abstract as integers. */
  datatype Json =
    | JNull
    | JBool(b: bool)
    | JNumber(n: int)
    | JString(s: string)
    | JArray(items: seq<Json>)
    | JObject(members: seq<(string, Json)>)

  datatype Request = Request(httpMethod: Option<string>, url: Option<string>)

  datatype Header = Header(name: string, value: string)

  /** `res.end()` sends no body; `res.json(doc)` sends `doc`. */
  datatype Body = NoBody | JsonBody(doc: Json)

  datatype Response = Response(status: nat, headers: seq<Header>, body: Body)

  /** What `existsSync`, `readFileSync` and `JSON.parse` report for one file.
      `Malformed` is every failure inside the `try`: a read error (a directory,
      say) as well as a parse error. */
  datatype FileState = Missing | Malformed | Ok(doc: Json)

  /** A file under the public directory, as the segments given to `path.join`. */
  type FilePath = seq<string>

  type FileSystem = FilePath -> FileState

  /** The routes the handler distinguishes, with the segments it captures. */
  datatype RouteKind =
    | Preflight
    | Health
    | Index
    | Manifest(style: string, component: string)
    | Colors(base: string, name: string)
    | NotFound

  const CorsHeaders: seq<Header> := [
    Header("Access-Control-Allow-Origin", "*"),
    Header("Access-Control-Allow-Methods", "GET, OPTIONS"),
    Header("Access-Control-Allow-Headers", "Content-Type")
  ]

  const ApiPrefix := "/api"
  const IndexPath := "/r/index.json"
  const StylesPrefix := "/r/styles/"
  const ColorsPrefix := "/r/colors/"
  const JsonSuffix := ".json"

  predicate StartsWith(s: string, prefix: string) {
    |prefix| <= |s| && s[..|prefix|] == prefix
  }

  predicate EndsWith(s: string, suffix: string) {
    |suffix| <= |s| && s[|s| - |suffix|..] == suffix
  }

  /** What the character class `[^/]+` matches: a non-empty run without '/'. */
  predicate Segment(s: string) {
    s != "" && '/' !in s
  }

  predicate IsHealthPath(path: string) {
    path == "/health" || path == "/"
  }

  /** `url?.replace(/^\/api/, '') || '/'`: a missing URL, and one that is
      empty once the prefix is gone, both become "/". */
  function NormalizePath(url: Option<string>): (path: string)
    ensures path != ""
  {
    match url
    case None => "/"
    case Some(u) =>
      var stripped := if StartsWith(u, ApiPrefix) then u[|ApiPrefix|..] else u;
      if stripped == "" then "/" else stripped
  }

  /** The position of the first `c` in `s`, or `|s|` when there is none. */
  function IndexOf(s: string, c: char): (i: nat)
    ensures i <= |s|
    ensures i < |s| ==> s[i] == c
    ensures forall k :: 0 <= k < i ==> s[k] != c
  {
    if s == [] then 0
    else if s[0] == c then 0
    else 1 + IndexOf(s[1..], c)
  }

  /** The two captures of `path.match(/^<prefix>([^/]+)\/([^/]+)\.json$/)`,
      or None when the path does not match. */
  function MatchPair(prefix: string, path: string): (m: Option<(string, string)>)
    ensures m.Some? ==> Segment(m.value.0) && Segment(m.value.1)
    ensures m.Some? ==> path == PairPath(prefix, m.value.0, m.value.1)
  {
    if |path| < |prefix| + |JsonSuffix| || !StartsWith(path, prefix) || !EndsWith(path, JsonSuffix) then
      None
    else
      var middle := path[|prefix|..|path| - |JsonSuffix|];
      var i := IndexOf(middle, '/');
      var first := middle[..i];
      var second := if i < |middle| then middle[i + 1..] else "";
      if Segment(first) && Segment(second) then
        assert middle == first + [middle[i]] + second;
        assert path == path[..|prefix|] + middle + path[|path| - |JsonSuffix|..];
        Some((first, second))
      else
        None
  }

  /** The path the two-segment routes are written for. */
  function PairPath(prefix: string, first: string, second: string): (path: string) {
    prefix + first + "/" + second + JsonSuffix
  }

  /** The route branches of the handler, tried in the source's order. */
  function Classify(path: string): (r: RouteKind)
    ensures r != Preflight
    ensures r == Health <==> IsHealthPath(path)
    ensures r == Index <==> path == IndexPath
  {
    if IsHealthPath(path) then Health
    else if path == IndexPath then Index
    else match MatchPair(StylesPrefix, path)
      case Some((style, component)) => Manifest(style, component)
      case None =>
        match MatchPair(ColorsPrefix, path)
        case Some((base, name)) => Colors(base, name)
        case None => NotFound
  }

  /** The whole decision up to the file lookup: only `OPTIONS` is told apart
      from other methods; everything else is routed on the path. */
  function Route(httpMethod: Option<string>, url: Option<string>): (r: RouteKind)
    ensures r == Preflight <==> httpMethod == Some("OPTIONS")
  {
    if httpMethod == Some("OPTIONS") then Preflight else Classify(NormalizePath(url))
  }

  /** The file a route reads, if it reads one: the segments the handler joins
      under the public directory, the last one the requested name + ".json". */
  function FileOf(route: RouteKind): (file: Option<FilePath>)
    ensures file.Some? <==> route.Index? || route.Manifest? || route.Colors?
    ensures file.Some? ==> 2 <= |file.value| && file.value[0] == "r" && EndsWith(file.value[|file.value| - 1], JsonSuffix)
    ensures route.Manifest? ==> file.value[1] == "styles" && file.value[2] == route.style
    ensures route.Colors? ==> file.value[1] == "colors" && file.value[2] == route.base
  {
    match route
    case Index => Some(["r", "index.json"])
    case Manifest(style, component) => Some(["r", "styles", style, component + JsonSuffix])
    case Colors(base, name) => Some(["r", "colors", base, name + JsonSuffix])
    case _ => None
  }

  /** `{ error: message }`. */
  function ErrorBody(message: string): (doc: Json)
    ensures doc.JObject? && |doc.members| == 1 && doc.members[0].0 == "error"
    ensures doc.members[0].1 == JString(message)
  {
    JObject([("error", JString(message))])
  }

  /** The 404 message for a missing manifest, naming the component and then the style. */
  function ComponentNotFound(style: string, component: string): (message: string)
    ensures |message| == 34 + |component| + |style|
    ensures message[11..11 + |component|] == component
    ensures message[|message| - 1 - |style|..|message| - 1] == style
  {
    "Component \"" + component + "\" not found in style \"" + style + "\""
  }

  /** The health report: an object saying the status is "ok", carrying the
      clock's timestamp and naming the server. */
  function HealthBody(timestamp: string): (doc: Json)
    ensures doc.JObject? && |doc.members| == 3
    ensures ("status", JString("ok")) in doc.members
    ensures ("timestamp", JString(timestamp)) in doc.members
  {
    JObject([
      ("status", JString("ok")),
      ("timestamp", JString(timestamp)),
      ("message", JString("shadcn Custom Registry Server"))
    ])
  }

  /** The not-found body: an "error" member and three advertised endpoints,
      none of them the colors route. */
  function NotFoundBody(): (doc: Json)
    ensures doc.JObject? && |doc.members| == 2
    ensures doc.members[0] == ("error", JString("Not found"))
    ensures doc.members[1].0 == "availableEndpoints" && doc.members[1].1.JArray?
    ensures |doc.members[1].1.items| == 3
    ensures JString("GET /r/colors/:base/:name.json") !in doc.members[1].1.items
  {
    JObject([
      ("error", JString("Not found")),
      ("availableEndpoints", JArray([
        JString("GET /health"),
        JString("GET /r/index.json"),
        JString("GET /r/styles/:style/:component.json")
      ]))
    ])
  }

  /** The status and body for a route, given what its file reads as. The
      contract is the handler's decision table: 500 exactly when a file exists
      but cannot be read, 404 exactly for an unknown route or a missing index
      or manifest, and 200 otherwise (a missing colors file included). */
  function Respond(route: RouteKind, fs: FileSystem, timestamp: string): (res: Response)
    ensures res.headers == []
    ensures res.status == 500 <==> FileOf(route).Some? && fs(FileOf(route).value) == Malformed
    ensures res.status == 404 <==>
              route == NotFound || ((route.Index? || route.Manifest?) && fs(FileOf(route).value) == Missing)
    ensures res.status in {200, 404, 500}
    ensures res.body == NoBody <==> route == Preflight
    ensures route == Health ==> res.status == 200 && res.body == JsonBody(HealthBody(timestamp))
    ensures FileOf(route).Some? && fs(FileOf(route).value).Ok? ==>
              res.body == JsonBody(fs(FileOf(route).value).doc)
  {
    match route
    case Preflight => Response(200, [], NoBody)
    case Health => Response(200, [], JsonBody(HealthBody(timestamp)))
    case Index =>
      (match fs(["r", "index.json"])
       case Missing => Response(404, [], JsonBody(ErrorBody("Registry index not found")))
       case Malformed => Response(500, [], JsonBody(ErrorBody("Failed to read registry index")))
       case Ok(doc) => Response(200, [], JsonBody(doc)))
    case Manifest(style, component) =>
      (match fs(["r", "styles", style, component + JsonSuffix])
       case Missing => Response(404, [], JsonBody(ErrorBody(ComponentNotFound(style, component))))
       case Malformed => Response(500, [], JsonBody(ErrorBody("Failed to read component manifest")))
       case Ok(doc) => Response(200, [], JsonBody(doc)))
    case Colors(base, name) =>
      (match fs(["r", "colors", base, name + JsonSuffix])
       case Missing => Response(200, [], JsonBody(JObject([])))
       case Malformed => Response(500, [], JsonBody(ErrorBody("Failed to read colors")))
       case Ok(doc) => Response(200, [], JsonBody(doc)))
    case NotFound => Response(404, [], JsonBody(NotFoundBody()))
  }

  /** `handler(req, res)`: the CORS headers are set before any branch, so
      every response carries them, the preflight one included. */
  function Handle(req: Request, fs: FileSystem, timestamp: string): (res: Response)
    ensures res.headers == CorsHeaders
    ensures req.httpMethod == Some("OPTIONS") ==> res.status == 200 && res.body == NoBody
    ensures req.httpMethod != Some("OPTIONS") ==> res.body != NoBody
  {
    var reply := Respond(Route(req.httpMethod, req.url), fs, timestamp);
    Response(reply.status, CorsHeaders, reply.body)
  }

  // ---------------------------------------------------------------------------
  // Path normalisation

  /** The prefix is removed only at the very start, and only once: a URL that
      does not start with "/api" reaches the router unchanged. */
  lemma ApiStrippedOnlyAtStart(u: string)
    requires u != "" && !StartsWith(u, ApiPrefix)
    ensures NormalizePath(Some(u)) == u
  {
  }

  /** Mounting under "/api" is invisible: "/api" + p routes like p whenever p
      does not itself start with "/api" (the empty p and "/" both give "/"). */
  lemma ApiMountTransparent(httpMethod: Option<string>, p: string)
    requires !StartsWith(p, ApiPrefix)
    ensures NormalizePath(Some(ApiPrefix + p)) == NormalizePath(Some(p))
    ensures Route(httpMethod, Some(ApiPrefix + p)) == Route(httpMethod, Some(p))
  {
  }

  /** A doubled prefix loses one copy only, so "/api/api/health" is not the
      health check. */
  lemma ApiStrippedOnce(p: string)
    ensures NormalizePath(Some(ApiPrefix + ApiPrefix + p)) == ApiPrefix + p
    ensures Classify(NormalizePath(Some(ApiPrefix + "/api/health"))) == NotFound
  {
  }

  /** A missing URL, the bare prefix and the empty URL all become "/" and
      reach the health check, for every method but OPTIONS, which answers with
      the health report. */
  lemma DefaultPathIsHealth(httpMethod: Option<string>, fs: FileSystem, timestamp: string)
    requires httpMethod != Some("OPTIONS")
    ensures NormalizePath(None) == "/" && NormalizePath(Some("")) == "/" && NormalizePath(Some(ApiPrefix)) == "/"
    ensures Handle(Request(httpMethod, None), fs, timestamp).body == JsonBody(HealthBody(timestamp))
    ensures Route(httpMethod, None) == Health
    ensures Route(httpMethod, Some("")) == Health
    ensures Route(httpMethod, Some(ApiPrefix)) == Health
  {
  }

  // ---------------------------------------------------------------------------
  // The two-segment patterns

  /** A path that differs from the prefix at some position before the prefix
      ends does not match the pattern. */
  lemma NoPairMatch(prefix: string, path: string, k: nat)
    requires k < |prefix| && k < |path| && path[k] != prefix[k]
    ensures MatchPair(prefix, path) == None
  {
  }

  /** Completeness: every path of the pattern's shape matches, with exactly
      the segments it was built from. With the contract of MatchPair, the
      pattern matches iff the path is prefix + S + "/" + C + ".json", and C is
      everything between the last '/' and the final ".json". */
  lemma MatchPairComplete(prefix: string, first: string, second: string)
    requires Segment(first) && Segment(second)
    ensures MatchPair(prefix, PairPath(prefix, first, second)) == Some((first, second))
  {
    var path := PairPath(prefix, first, second);
    var middle := first + "/" + second;
    assert path == prefix + middle + JsonSuffix;
    assert path[..|prefix|] == prefix;
    assert path[|path| - |JsonSuffix|..] == JsonSuffix;
    assert path[|prefix|..|path| - |JsonSuffix|] == middle;
    var i := IndexOf(middle, '/');
    assert middle[|first|] == '/';
    assert middle[..i] == first;
    assert middle[i + 1..] == second;
  }

  // ---------------------------------------------------------------------------
  // Classification

  /** At most one route pattern matches a path, so the order in which the
      handler tries them never decides the outcome. */
  lemma RoutePatternsDisjoint(path: string)
    ensures !(IsHealthPath(path) && path == IndexPath)
    ensures IsHealthPath(path) ==> MatchPair(StylesPrefix, path).None? && MatchPair(ColorsPrefix, path).None?
    ensures path == IndexPath ==> MatchPair(StylesPrefix, path).None? && MatchPair(ColorsPrefix, path).None?
    ensures !(MatchPair(StylesPrefix, path).Some? && MatchPair(ColorsPrefix, path).Some?)
  {
  }

  /** The manifest route is chosen exactly for the manifest paths, with the
      style and component they were built from. */
  lemma ClassifyManifestIff(path: string, style: string, component: string)
    ensures Classify(path) == Manifest(style, component) <==>
              Segment(style) && Segment(component) && path == PairPath(StylesPrefix, style, component)
  {
    if Classify(path) == Manifest(style, component) {
      RoutePatternsDisjoint(path);
    }
    if Segment(style) && Segment(component) && path == PairPath(StylesPrefix, style, component) {
      MatchPairComplete(StylesPrefix, style, component);
      assert MatchPair(StylesPrefix, path).Some?;
      RoutePatternsDisjoint(path);
    }
  }

  /** The colors route is chosen exactly for the colors paths. */
  lemma ClassifyColorsIff(path: string, base: string, name: string)
    ensures Classify(path) == Colors(base, name) <==>
              Segment(base) && Segment(name) && path == PairPath(ColorsPrefix, base, name)
  {
    if Classify(path) == Colors(base, name) {
    }
    if Segment(base) && Segment(name) && path == PairPath(ColorsPrefix, base, name) {
      MatchPairComplete(ColorsPrefix, base, name);
      RoutePatternsDisjoint(path);
    }
  }

  /** A query string defeats the exact routes: the health check and the index
      with "?" and anything after them are not found. */
  lemma QueryOnExactRoute(path: string, query: string)
    requires IsHealthPath(path) || path == IndexPath
    ensures Classify(path + "?" + query) == NotFound
  {
    var u := path + "?" + query;
    assert u[|path|] == '?';
    if path == "/" {
      NoPairMatch(StylesPrefix, u, 1);
      NoPairMatch(ColorsPrefix, u, 1);
    } else if path == "/health" {
      assert u[1] == 'h';
      NoPairMatch(StylesPrefix, u, 1);
      NoPairMatch(ColorsPrefix, u, 1);
    } else {
      assert u[3] == 'i';
      NoPairMatch(StylesPrefix, u, 3);
      NoPairMatch(ColorsPrefix, u, 3);
    }
  }

  /** A query string on a manifest path gives not-found, except when it has no
      '/' and itself ends in ".json": then the pattern still matches and the
      component capture swallows ".json?" and the query up to its final ".json". */
  lemma QueryOnManifestPath(style: string, component: string, query: string)
    requires Segment(style) && Segment(component)
    ensures Classify(PairPath(StylesPrefix, style, component) + "?" + query) ==
              if '/' !in query && EndsWith(query, JsonSuffix)
              then Manifest(style, component + JsonSuffix + "?" + query[..|query| - |JsonSuffix|])
              else NotFound
  {
    if '/' !in query && EndsWith(query, JsonSuffix) {
      JsonQueryStillMatches(style, component, query);
    } else {
      OtherQueryNotFound(style, component, query);
    }
  }

  /** The first half of QueryOnManifestPath: a '/'-free query ending in ".json". */
  lemma JsonQueryStillMatches(style: string, component: string, query: string)
    requires Segment(style) && Segment(component)
    requires '/' !in query && EndsWith(query, JsonSuffix)
    ensures Classify(PairPath(StylesPrefix, style, component) + "?" + query) ==
              Manifest(style, component + JsonSuffix + "?" + query[..|query| - |JsonSuffix|])
  {
    var path := PairPath(StylesPrefix, style, component) + "?" + query;
    var q := query[..|query| - |JsonSuffix|];
    var c := component + JsonSuffix + "?" + q;
    assert query == q + JsonSuffix;
    assert forall k :: 0 <= k < |q| ==> q[k] == query[k];
    assert '/' !in q;
    assert '/' !in c;
    assert path == PairPath(StylesPrefix, style, c);
    ClassifyManifestIff(path, style, c);
  }

  /** The second half of QueryOnManifestPath: any other query is not found. */
  lemma OtherQueryNotFound(style: string, component: string, query: string)
    requires Segment(style) && Segment(component)
    requires !('/' !in query && EndsWith(query, JsonSuffix))
    ensures Classify(PairPath(StylesPrefix, style, component) + "?" + query) == NotFound
  {
    var path := PairPath(StylesPrefix, style, component) + "?" + query;
    RoutePatternsDisjoint(path);
    NoPairMatch(ColorsPrefix, path, 3);
    if MatchPair(StylesPrefix, path).Some? {
      var (s, c) := MatchPair(StylesPrefix, path).value;
      QueryCaptureShape(style, component, query, s, c);
    }
    assert path != "/" && path != "/health" && path != IndexPath by {
      assert path[3] == 's';
    }
  }

  /** Helper for QueryOnManifestPath: if a manifest path with a query rebuilds
      as another manifest path, the query has no '/' and ends in ".json". */
  lemma QueryCaptureShape(style: string, component: string, query: string, s: string, c: string)
    requires Segment(style) && Segment(component) && Segment(s) && Segment(c)
    requires PairPath(StylesPrefix, style, component) + "?" + query == PairPath(StylesPrefix, s, c)
    ensures '/' !in query && EndsWith(query, JsonSuffix)
  {
    var n := |StylesPrefix|;
    var tailL := component + JsonSuffix + "?" + query;
    var tailR := c + JsonSuffix;
    var left := style + "/" + tailL;
    var right := s + "/" + tailR;
    assert PairPath(StylesPrefix, s, c) == StylesPrefix + right;
    assert PairPath(StylesPrefix, style, component) + "?" + query == StylesPrefix + left;
    assert (StylesPrefix + left)[n..] == left;
    assert (StylesPrefix + right)[n..] == right;
    SplitAtFirstSlash(style, tailL, s, tailR);
    QueryTail(component, query, c);
  }

  /** Two strings of the shape a + "/" + x with '/' not in a split the same way. */
  lemma SplitAtFirstSlash(a: string, x: string, b: string, y: string)
    requires '/' !in a && '/' !in b
    requires a + "/" + x == b + "/" + y
    ensures a == b && x == y
  {
    IndexOfAt(a, x);
    IndexOfAt(b, y);
    var u := a + "/" + x;
    assert a == u[..|a|];
    assert x == u[|a| + 1..];
  }

  /** If component + ".json?" + query equals c + ".json" for a '/'-free c,
      the query has no '/' and ends in ".json" itself. */
  lemma QueryTail(component: string, query: string, c: string)
    requires '/' !in c
    requires component + JsonSuffix + "?" + query == c + JsonSuffix
    ensures '/' !in query && EndsWith(query, JsonSuffix)
  {
    var t := c + JsonSuffix;
    var m := |component| + |JsonSuffix| + 1;
    assert forall k :: 0 <= k < |query| ==> query[k] == t[m + k];
    assert forall k :: 0 <= k < |t| ==> t[k] != '/';
    assert t[m - 1] == '?';
    assert query[|query| - |JsonSuffix|..] == t[|t| - |JsonSuffix|..];
  }

  /** The first '/' in first + "/" + rest sits right after first, when first has none. */
  lemma IndexOfAt(first: string, rest: string)
    requires '/' !in first
    ensures IndexOf(first + "/" + rest, '/') == |first|
  {
    var s := first + "/" + rest;
    assert s[|first|] == '/';
  }

  // ---------------------------------------------------------------------------
  // The handler

  /** A preflight request is answered 200 with no body whatever its URL, the
      files and the clock: it reaches no routing and no file lookup. */
  lemma PreflightShortCircuits(url1: Option<string>, url2: Option<string>, fs1: FileSystem, fs2: FileSystem, t1: string, t2: string)
    ensures Handle(Request(Some("OPTIONS"), url1), fs1, t1) == Handle(Request(Some("OPTIONS"), url2), fs2, t2)
    ensures Handle(Request(Some("OPTIONS"), url1), fs1, t1) == Response(200, CorsHeaders, NoBody)
  {
  }

  /** No method but OPTIONS is told apart: POST, DELETE or a missing method
      route exactly like GET. */
  lemma OnlyOptionsIsSpecial(httpMethod: Option<string>, url: Option<string>)
    requires httpMethod != Some("OPTIONS")
    ensures Route(httpMethod, url) == Route(Some("GET"), url)
    ensures Route(httpMethod, url) != Preflight
  {
  }

  /** A response depends on the file system only through the one file its
      route reads, and on the clock only for the health check. */
  lemma RespondReadsOnlyItsFile(route: RouteKind, fs1: FileSystem, fs2: FileSystem, t1: string, t2: string)
    requires FileOf(route).Some? ==> fs1(FileOf(route).value) == fs2(FileOf(route).value)
    requires route.Health? ==> t1 == t2
    ensures Respond(route, fs1, t1) == Respond(route, fs2, t2)
  {
  }

  /** The manifest decision: a missing manifest is a 404 naming component and
      style, an unreadable one a 500, and a readable one is sent as parsed. */
  lemma ManifestResponses(style: string, component: string, fs: FileSystem, timestamp: string)
    ensures var res := Respond(Manifest(style, component), fs, timestamp);
      match fs(["r", "styles", style, component + JsonSuffix])
      case Missing => res.status == 404 && res.body == JsonBody(ErrorBody(ComponentNotFound(style, component)))
      case Malformed => res.status == 500 && res.body == JsonBody(ErrorBody("Failed to read component manifest"))
      case Ok(doc) => res.status == 200 && res.body == JsonBody(doc)
  {
  }

  /** The index decision: a missing index is a 404, an unreadable one a 500,
      each with its own message, and a readable one is sent as parsed. */
  lemma IndexResponses(fs: FileSystem, timestamp: string)
    ensures var res := Respond(Index, fs, timestamp);
      match fs(["r", "index.json"])
      case Missing => res.status == 404 && res.body == JsonBody(ErrorBody("Registry index not found"))
      case Malformed => res.status == 500 && res.body == JsonBody(ErrorBody("Failed to read registry index"))
      case Ok(doc) => res.status == 200 && res.body == JsonBody(doc)
  {
  }

  /** The colors decision differs from the manifest one only for a missing
      file: 200 with an empty object instead of a 404. */
  lemma ColorsResponses(base: string, name: string, fs: FileSystem, timestamp: string)
    ensures var res := Respond(Colors(base, name), fs, timestamp);
      match fs(["r", "colors", base, name + JsonSuffix])
      case Missing => res.status == 200 && res.body == JsonBody(JObject([]))
      case Malformed => res.status == 500 && res.body == JsonBody(ErrorBody("Failed to read colors"))
      case Ok(doc) => res.status == 200 && res.body == JsonBody(doc)
  {
  }

  /** Any path no pattern matches is a 404 listing the available endpoints. */
  lemma UnknownPathIsNotFound(httpMethod: Option<string>, url: Option<string>, fs: FileSystem, timestamp: string)
    requires httpMethod != Some("OPTIONS")
    requires var path := NormalizePath(url);
      !IsHealthPath(path) && path != IndexPath && MatchPair(StylesPrefix, path).None? && MatchPair(ColorsPrefix, path).None?
    ensures Handle(Request(httpMethod, url), fs, timestamp) == Response(404, CorsHeaders, JsonBody(NotFoundBody()))
  {
  }
}
