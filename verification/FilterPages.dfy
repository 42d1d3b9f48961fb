/** The built-in filters (pkg/filters), the filter list of a page (pkg/core/meta.go) and the
    choice of filters for a request (pkg/server.go). */
module FilterPages {
  import opened FilterChain
  import opened HeaderText
  import opened Wrappers

  // ---------------------------------------------------------------- the site

  datatype Fetch = Found(status: int, file: File) | Missing | Broken(reason: string)

  /** The files of a page at one commit. */
  type Site = string -> Fetch

  /** `path` is the path within the page, `host` the lower-case host without its port. */
  datatype Request = Request(
    httpMethod: string, urlPath: string, path: string, host: string,
    aliases: seq<string>, scheme: string, query: string)

  function FetchOutcome(f: Fetch): Outcome
    requires !f.Found?
  {
    if f.Missing? then NotExist else Failed(f.reason)
  }

  function TrimSuffix(s: string, suffix: string): string {
    if |suffix| <= |s| && s[|s| - |suffix|..] == suffix then s[..|s| - |suffix|] else s
  }

  predicate IsSlash(c: char) { c == '/' }

  function TrimSlashes(s: string): string {
    TrimSet(s, IsSlash)
  }

  lemma SlashesOff(a: string, s: string, b: string)
    requires (forall i :: 0 <= i < |a| ==> a[i] == '/') && (forall i :: 0 <= i < |b| ==> b[i] == '/')
    requires s != "" ==> s[0] != '/' && s[|s| - 1] != '/'
    ensures TrimSlashes(a + s + b) == s
  {
    TrimSetIs(a, s, b, IsSlash);
  }

  lemma TrimSuffixIs(s: string, suffix: string)
    ensures TrimSuffix(s + suffix, suffix) == s
    ensures (forall r :: s != r + suffix) ==> TrimSuffix(s, suffix) == s
  {
    assert (s + suffix)[|s|..] == suffix && (s + suffix)[..|s|] == s;
    if |suffix| <= |s| && s[|s| - |suffix|..] == suffix {
      assert s == s[..|s| - |suffix|] + suffix;
    }
  }

  /** writeStaticFileResponse: the copy may break off. */
  function WriteStatic(path: string, file: File, w: World): (Outcome, World) {
    (if file.breaks then Failed("copy") else Ok, w + [Static(path, file)])
  }

  // ---------------------------------------------------------------- the filters

  /** What direct does when the inner filters find nothing. */
  function DirectRun(site: Site, req: Request, prefix: string): Next {
    w =>
      if req.httpMethod != "HEAD" && req.httpMethod != "GET" then (Ok, w + [Plain(405, "Method not allowed")])
      else
        var path := TrimSlashes(prefix) + "/" + TrimSuffix(req.path, "/");
        match site(path)
        case Found(_, file) => WriteStatic(path, file, w)
        case Broken(reason) => (Failed(reason), w)
        case Missing =>
          var index := site(path + "/index.html");
          if index.Found? && index.status == 200
          then (Ok, w + [RedirectTo(TrimSuffix(req.urlPath, "/") + "/", 302)])
          else (NotExist, w)
  }

  function Direct(site: Site, req: Request, prefix: string): FilterCall {
    (w, next: Next) =>
      var (err, v) := next(w);
      if err != NotExist then (err, v) else DirectRun(site, req, prefix)(v)
  }

  function FailbackRun(site: Site, path: string): Next {
    w => match site(path)
      case Found(_, file) => WriteStatic(path, file, w)
      case other => (FetchOutcome(other), w)
  }

  function Failback(site: Site, path: string): FilterCall {
    (w, next: Next) =>
      var (err, v) := next(w);
      if err != NotExist then (err, v) else FailbackRun(site, path)(v)
  }

  function NotFoundRun(site: Site): Next {
    w => match site("/404.html")
      case Found(_, file) => (Ok, w + [Page404(file)])
      case other => (FetchOutcome(other), w)
  }

  function NotFoundPage(site: Site): FilterCall {
    (w, next: Next) =>
      var (err, v) := next(w);
      if err == NotExist then NotFoundRun(site)(v) else (err, v)
  }

  function RedirectRun(req: Request, target: string, code: int): Next {
    w =>
      var path := if req.path == "index.html" || TrimSuffix(req.path, "/index.html") != req.path
                  then TrimSuffix(req.path, "index.html") else req.path;
      var scheme := if req.scheme == "" then "http" else req.scheme;
      (Ok, w + [RedirectTo(scheme + "://" + target + "/" + path + req.query, code)])
  }

  function Redirect(req: Request, targets: seq<string>, code: int): FilterCall
    requires targets != []
  {
    (w, next: Next) => if req.host !in req.aliases then RedirectRun(req, targets[0], code)(w) else next(w)
  }

  function BlockRun(code: int, message: string): Next {
    w => (Ok, w + [Plain(code, message)])
  }

  function Block(code: int, message: string): FilterCall {
    (w, next: Next) => BlockRun(code, message)(w)
  }

  /** What the filters read of their parameters. */
  datatype Params = Params(prefix: string, path: string, code: int, message: string, targets: seq<string>)

  const NO_PARAMS := Params("", "", 0, "", [])

  datatype Made = Call(call: FilterCall) | Rejected(err: Outcome)

  predicate IsBuiltIn(kind: string) {
    kind in ["direct", "failback", "404", "redirect", "block"]
  }

  predicate BadCode(code: int) {
    code != 0 && (code < 300 || code > 399)
  }

  /** The instances of the built-in filters. */
  function Make(site: Site, req: Request, statusText: int -> string, kind: string, p: Params): Made
    requires IsBuiltIn(kind)
  {
    if kind == "direct" then Call(Direct(site, req, p.prefix))
    else if kind == "failback" then
      (if p.path == "" then Rejected(Failed("path is empty")) else Call(Failback(site, p.path)))
    else if kind == "404" then Call(NotFoundPage(site))
    else if kind == "redirect" then
      if p.targets == [] then Rejected(Failed("no targets"))
      else if BadCode(p.code) then Rejected(Failed("invalid code"))
      else Call(Redirect(req, p.targets, if p.code == 0 then 302 else p.code))
    else if p.code == 0 then Rejected(NotExist)
    else Call(Block(p.code, if p.message == "" then statusText(p.code) else p.message))
  }

  /** When there is no call to make: by type and parameters. */
  predicate BuiltInRejects(kind: string, p: Params) {
    || (kind == "failback" && p.path == "")
    || (kind == "redirect" && (p.targets == [] || BadCode(p.code)))
    || (kind == "block" && p.code == 0)
  }

  /** What the call that Make builds does. */
  function KindOf(site: Site, req: Request, statusText: int -> string, kind: string, p: Params): Kind
    requires IsBuiltIn(kind)
  {
    if kind == "direct" then Recovers(DirectRun(site, req, p.prefix))
    else if kind == "failback" then Recovers(FailbackRun(site, p.path))
    else if kind == "404" then Recovers(NotFoundRun(site))
    else if kind == "redirect" && (p.targets == [] || req.host in req.aliases) then Passes
    else if kind == "redirect" then Answers(RedirectRun(req, p.targets[0], if p.code == 0 then 302 else p.code))
    else Answers(BlockRun(p.code, if p.message == "" then statusText(p.code) else p.message))
  }

  /** Every built-in filter is of its kind, and writes nothing when it reports a missing page;
      a call can be made exactly if the parameters are good. */
  lemma MadeBehaves(site: Site, req: Request, statusText: int -> string, kind: string, p: Params)
    requires IsBuiltIn(kind)
    ensures var m := Make(site, req, statusText, kind, p);
            && (m.Rejected? <==> BuiltInRejects(kind, p))
            && (m.Call? ==> Behaves(m.call, KindOf(site, req, statusText, kind, p)))
    ensures Quiet(KindOf(site, req, statusText, kind, p))
  {}

  /** What the filters of a route answer, by their parameters: a block its code and message, a
      redirect its code, failback and direct the file they look up if nothing else is found. */
  lemma MadeAnswers(site: Site, req: Request, statusText: int -> string, p: Params, w: World, next: Next)
    ensures p.code != 0 ==>
              var m := Make(site, req, statusText, "block", p);
              m.Call? && m.call(w, next) ==
                (Ok, w + [Plain(p.code, if p.message == "" then statusText(p.code) else p.message)])
    ensures Make(site, req, statusText, "redirect", p).Call? <==>
              p.targets != [] && (p.code == 0 || 300 <= p.code <= 399)
    ensures p.targets != [] && 300 <= p.code <= 399 && req.host !in req.aliases ==>
              var r := Make(site, req, statusText, "redirect", p).call(w, next);
              r.0 == Ok && |r.1| == |w| + 1 && r.1[|w|].RedirectTo? && r.1[|w|].code == p.code
    ensures next(w).0 == NotExist && p.path != "" && site(p.path).Found? ==>
              var m, file := Make(site, req, statusText, "failback", p), site(p.path).file;
              m.Call? && m.call(w, next) ==
                (if file.breaks then Failed("copy") else Ok, next(w).1 + [Static(p.path, file)])
    ensures var path := TrimSlashes(p.prefix) + "/" + TrimSuffix(req.path, "/");
            next(w).0 == NotExist && req.httpMethod in ["GET", "HEAD"] && site(path).Found? ==>
              var m, file := Make(site, req, statusText, "direct", p), site(path).file;
              m.Call? && m.call(w, next) ==
                (if file.breaks then Failed("copy") else Ok, next(w).1 + [Static(path, file)])
  {
    MadeBehaves(site, req, statusText, "block", p);
    MadeBehaves(site, req, statusText, "redirect", p);
    MadeBehaves(site, req, statusText, "failback", p);
    MadeBehaves(site, req, statusText, "direct", p);
  }

  // ---------------------------------------------------------------- the filter list of a page

  datatype Filter = Filter(path: string, kind: string, params: Params)

  /** NewEmptyPageMetaContent. */
  const DEFAULTS: seq<Filter> :=
    [Filter("**", "404", NO_PARAMS), Filter(".git/**", "block", NO_PARAMS), Filter(".pages.yaml", "block", NO_PARAMS)]

  const DIRECT := Filter("**", "direct", NO_PARAMS)

  function RedirectFilter(alias: seq<string>): Filter {
    Filter("**", "redirect", NO_PARAMS.(targets := alias))
  }

  datatype Route = Route(path: string, kind: string, params: Params)

  datatype Config = Config(alias: seq<string>, routes: seq<Route>)

  /** The page's files: CNAME and .pages.yaml, which may be absent or malformed. */
  datatype ConfigFile = NoFile | Malformed | Parsed(config: Config)

  datatype Rules = Rules(aliasCheck: string -> Option<string>, globCompiles: string -> bool, enabled: string -> bool)

  /** One item of a route: a filter, nothing if blank, or an error. */
  predicate ItemBad(rules: Rules, r: Route, item: string) {
    Trim(item) != "" && (!rules.globCompiles(Trim(item)) || !rules.enabled(r.kind))
  }

  function ItemFilters(r: Route, item: string): seq<Filter> {
    if Trim(item) == "" then [] else [Filter(Trim(item), r.kind, r.params)]
  }

  /** The filters so far and those of one route, then of all. */
  function AddItems(acc: seq<Filter>, r: Route, items: seq<string>): seq<Filter>
    decreases |items|
  {
    if items == [] then acc else AddItems(acc + ItemFilters(r, items[0]), r, items[1..])
  }

  function AddRoutes(acc: seq<Filter>, routes: seq<Route>): seq<Filter>
    decreases |routes|
  {
    if routes == [] then acc else AddRoutes(AddItems(acc, routes[0], SplitOn(routes[0].path, ',')), routes[1..])
  }

  predicate RouteGood(rules: Rules, r: Route) {
    forall item :: item in SplitOn(r.path, ',') ==> !ItemBad(rules, r, item)
  }

  predicate RoutesGood(rules: Rules, routes: seq<Route>) {
    forall i :: 0 <= i < |routes| ==> RouteGood(rules, routes[i])
  }

  function WithRedirect(alias: seq<string>): seq<Filter> {
    DEFAULTS + if alias == [] then [] else [RedirectFilter(alias)]
  }

  /** The accepted page: defaults, redirect, routes, direct, in this order. */
  function PageFilters(alias: seq<string>, routes: seq<Route>): seq<Filter> {
    AddRoutes(WithRedirect(alias), routes) + [DIRECT]
  }

  lemma {:induction false} AddItemsExtends(acc: seq<Filter>, r: Route, items: seq<string>)
    ensures acc <= AddItems(acc, r, items)
    decreases |items|
  {
    if items != [] {
      AddItemsExtends(acc + ItemFilters(r, items[0]), r, items[1..]);
    }
  }

  lemma {:induction false} AddRoutesExtends(acc: seq<Filter>, routes: seq<Route>)
    ensures acc <= AddRoutes(acc, routes)
    decreases |routes|
  {
    if routes != [] {
      AddItemsExtends(acc, routes[0], SplitOn(routes[0].path, ','));
      AddRoutesExtends(AddItems(acc, routes[0], SplitOn(routes[0].path, ',')), routes[1..]);
    }
  }

  /** How many filters some items give: the blank ones none, the others one. */
  function NonBlank(items: seq<string>): nat {
    if items == [] then 0 else (if Trim(items[0]) == "" then 0 else 1) + NonBlank(items[1..])
  }

  function ItemCount(routes: seq<Route>): nat {
    if routes == [] then 0 else NonBlank(SplitOn(routes[0].path, ',')) + ItemCount(routes[1..])
  }

  lemma {:induction false} AddItemsCount(acc: seq<Filter>, r: Route, items: seq<string>)
    ensures |AddItems(acc, r, items)| == |acc| + NonBlank(items)
    decreases |items|
  {
    if items != [] {
      AddItemsCount(acc + ItemFilters(r, items[0]), r, items[1..]);
    }
  }

  lemma {:induction false} ItemsTwice(acc: seq<Filter>, r: Route, a: seq<string>, b: seq<string>)
    ensures AddItems(acc, r, a + b) == AddItems(AddItems(acc, r, a), r, b)
    decreases |a|
  {
    if a == [] {
      assert a + b == b;
    } else {
      assert (a + b)[0] == a[0] && (a + b)[1..] == a[1..] + b;
      ItemsTwice(acc + ItemFilters(r, a[0]), r, a[1..], b);
    }
  }

  lemma {:induction false} RoutesTwice(acc: seq<Filter>, a: seq<Route>, b: seq<Route>)
    ensures AddRoutes(acc, a + b) == AddRoutes(AddRoutes(acc, a), b)
    decreases |a|
  {
    if a == [] {
      assert a + b == b;
    } else {
      assert (a + b)[0] == a[0] && (a + b)[1..] == a[1..] + b;
      RoutesTwice(AddItems(acc, a[0], SplitOn(a[0].path, ',')), a[1..], b);
    }
  }

  lemma {:induction false} RouteCount(acc: seq<Filter>, routes: seq<Route>)
    ensures |AddRoutes(acc, routes)| == |acc| + ItemCount(routes)
    decreases |routes|
  {
    if routes != [] {
      AddItemsCount(acc, routes[0], SplitOn(routes[0].path, ','));
      RouteCount(AddItems(acc, routes[0], SplitOn(routes[0].path, ',')), routes[1..]);
    }
  }

  lemma Cut<T>(s: seq<T>, i: nat)
    requires i <= |s|
    ensures s[..i] + s[i..] == s
  {}

  lemma ItemsCut(acc: seq<Filter>, r: Route, items: seq<string>, j: nat)
    requires j <= |items|
    ensures AddItems(acc, r, items) == AddItems(AddItems(acc, r, items[..j]), r, items[j..])
  {
    ItemsTwice(acc, r, items[..j], items[j..]);
    Cut(items, j);
  }

  /** The filter of an item of r stands at place k. */
  predicate StandsAt(filters: seq<Filter>, k: nat, r: Route, item: string) {
    k < |filters| && filters[k] == Filter(Trim(item), r.kind, r.params)
  }

  lemma StaysThere(a: seq<Filter>, b: seq<Filter>, k: nat, r: Route, item: string)
    requires a <= b && StandsAt(a, k, r, item)
    ensures StandsAt(b, k, r, item)
  {}

  lemma FirstItemAt(acc: seq<Filter>, r: Route, items: seq<string>, k: nat, item: string)
    requires items != [] && items[0] == item && Trim(item) != "" && k == |acc|
    ensures StandsAt(AddItems(acc, r, items), k, r, item)
  {
    var more := acc + ItemFilters(r, item);
    AddItemsExtends(more, r, items[1..]);
    StaysThere(more, AddItems(acc, r, items), k, r, item);
  }

  lemma ItemAt(acc: seq<Filter>, r: Route, items: seq<string>, j: nat, k: nat, item: string)
    requires j < |items| && items[j] == item && Trim(item) != "" && k == |acc| + NonBlank(items[..j])
    ensures StandsAt(AddItems(acc, r, items), k, r, item)
  {
    ItemsCut(acc, r, items, j);
    AddItemsCount(acc, r, items[..j]);
    FirstItemAt(AddItems(acc, r, items[..j]), r, items[j..], k, item);
  }

  lemma AddRoutesCons(acc: seq<Filter>, r: Route, rest: seq<Route>)
    ensures AddRoutes(acc, [r] + rest) == AddRoutes(AddItems(acc, r, SplitOn(r.path, ',')), rest)
  {
    assert ([r] + rest)[1..] == rest;
  }

  lemma ItemStays(acc: seq<Filter>, r: Route, rest: seq<Route>, k: nat, item: string)
    requires StandsAt(AddItems(acc, r, SplitOn(r.path, ',')), k, r, item)
    ensures StandsAt(AddRoutes(acc, [r] + rest), k, r, item)
  {
    var more := AddItems(acc, r, SplitOn(r.path, ','));
    AddRoutesCons(acc, r, rest);
    AddRoutesExtends(more, rest);
    StaysThere(more, AddRoutes(more, rest), k, r, item);
  }

  lemma ItemOfRoute(acc: seq<Filter>, front: seq<Route>, r: Route, rest: seq<Route>, k: nat, item: string)
    requires StandsAt(AddItems(AddRoutes(acc, front), r, SplitOn(r.path, ',')), k, r, item)
    ensures StandsAt(AddRoutes(acc, front + ([r] + rest)), k, r, item)
  {
    RoutesTwice(acc, front, [r] + rest);
    ItemStays(AddRoutes(acc, front), r, rest, k, item);
  }

  /** The filters of the routes, by position: one for each item that is not blank, with the item as its
      pattern and the route's type and parameters, in the order of the items and of the routes. */
  lemma RouteItemAt(
      acc: seq<Filter>, front: seq<Route>, r: Route, rest: seq<Route>, items: seq<string>, j: nat, k: nat, item: string)
    requires items == SplitOn(r.path, ',') && j < |items| && items[j] == item && Trim(item) != ""
    requires k == |acc| + ItemCount(front) + NonBlank(items[..j])
    ensures StandsAt(AddRoutes(acc, front + ([r] + rest)), k, r, item)
  {
    RouteCount(acc, front);
    ItemAt(AddRoutes(acc, front), r, items, j, k, item);
    ItemOfRoute(acc, front, r, rest, k, item);
  }

  predicate FromItem(r: Route, item: string, f: Filter) {
    Trim(item) != "" && f == Filter(Trim(item), r.kind, r.params)
  }

  predicate FromItems(r: Route, items: seq<string>, f: Filter) {
    exists item :: item in items && FromItem(r, item, f)
  }

  predicate FromRoutes(routes: seq<Route>, f: Filter) {
    exists r :: r in routes && FromItems(r, SplitOn(r.path, ','), f)
  }

  lemma FromItemsStep(r: Route, items: seq<string>, f: Filter)
    requires items != []
    ensures FromItems(r, items, f) <==> FromItem(r, items[0], f) || FromItems(r, items[1..], f)
  {
    if item :| item in items[1..] && FromItem(r, item, f) {
      assert item in items;
    }
  }

  lemma FromRoutesStep(routes: seq<Route>, f: Filter)
    requires routes != []
    ensures FromRoutes(routes, f) <==>
              FromItems(routes[0], SplitOn(routes[0].path, ','), f) || FromRoutes(routes[1..], f)
  {
    if r :| r in routes[1..] && FromItems(r, SplitOn(r.path, ','), f) {
      assert r in routes;
    }
  }

  lemma {:induction false} ItemsAre(acc: seq<Filter>, r: Route, items: seq<string>, f: Filter)
    ensures f in AddItems(acc, r, items) <==> f in acc || FromItems(r, items, f)
    decreases |items|
  {
    if items != [] {
      ItemsAre(acc + ItemFilters(r, items[0]), r, items[1..], f);
      FromItemsStep(r, items, f);
      assert f in acc + ItemFilters(r, items[0]) <==> f in acc || FromItem(r, items[0], f);
    }
  }

  /** Nothing else comes from the routes. */
  lemma {:induction false} RoutesAre(acc: seq<Filter>, routes: seq<Route>, f: Filter)
    ensures f in AddRoutes(acc, routes) <==> f in acc || FromRoutes(routes, f)
    decreases |routes|
  {
    if routes != [] {
      var items := SplitOn(routes[0].path, ',');
      ItemsAre(acc, routes[0], items, f);
      RoutesAre(AddItems(acc, routes[0], items), routes[1..], f);
      FromRoutesStep(routes, f);
    }
  }

  /** Defaults first, so the 404 filter outermost, and direct last, for every list of routes. */
  predicate Ordered(filters: seq<Filter>) {
    DEFAULTS <= filters && filters[|filters| - 1] == DIRECT
  }

  lemma PageOrdered(alias: seq<string>, routes: seq<Route>)
    ensures Ordered(PageFilters(alias, routes))
  {
    AddRoutesExtends(WithRedirect(alias), routes);
  }

  predicate AliasesGood(rules: Rules, items: seq<string>) {
    forall i :: 0 <= i < |items| && items[i] != "" ==> rules.aliasCheck(items[i]).Some?
  }

  /** The CNAME's domain, if it is accepted. */
  function FirstAlias(rules: Rules, cname: Option<string>): seq<string> {
    if cname.Some? && cname.value != "" then Accepted(rules.aliasCheck(Trim(cname.value))) else []
  }

  function Accepted(a: Option<string>): seq<string> {
    match a case Some(domain) => [domain] case None => []
  }

  /** The aliases so far and those of the configured items, empty ones skipped. */
  function AddAliases(rules: Rules, acc: seq<string>, items: seq<string>): seq<string>
    decreases |items|
  {
    if items == [] then acc
    else AddAliases(rules, acc + if items[0] == "" then [] else Accepted(rules.aliasCheck(items[0])), items[1..])
  }

  /** The aliases of an accepted page, in order. */
  function PageAliases(rules: Rules, cname: Option<string>, file: ConfigFile): seq<string> {
    AddAliases(rules, FirstAlias(rules, cname), if file.Parsed? then file.config.alias else [])
  }

  /** Nothing but the accepted CNAME and the checked items ends up in the list, each of them does. */
  lemma {:induction false} AliasesAre(rules: Rules, acc: seq<string>, items: seq<string>, a: string)
    ensures a in AddAliases(rules, acc, items) <==>
              a in acc || exists i :: 0 <= i < |items| && items[i] != "" && rules.aliasCheck(items[i]) == Some(a)
    ensures acc <= AddAliases(rules, acc, items)
    decreases |items|
  {
    if items != [] {
      var found := if items[0] == "" then [] else Accepted(rules.aliasCheck(items[0]));
      AliasesAre(rules, acc + found, items[1..], a);
      assert a in found <==> items[0] != "" && rules.aliasCheck(items[0]) == Some(a);
      if i :| 0 <= i < |items| && items[i] != "" && rules.aliasCheck(items[i]) == Some(a) && i > 0 {
        assert items[1..][i - 1] == items[i];
      }
    }
  }

  /** The aliases of a page: the CNAME without its outer spaces, if the check accepts it, then the
      configured items as the check returns them. */
  lemma PageAliasesAre(rules: Rules, cname: Option<string>, file: ConfigFile, a: string)
    ensures a in PageAliases(rules, cname, file) <==>
              || (cname.Some? && cname.value != "" && rules.aliasCheck(Trim(cname.value)) == Some(a))
              || (file.Parsed? && exists item :: item in file.config.alias && item != ""
                                                 && rules.aliasCheck(item) == Some(a))
    ensures cname.Some? && cname.value != "" && rules.aliasCheck(Trim(cname.value)) == Some(a) ==>
              [a] <= PageAliases(rules, cname, file)
  {
    var items := if file.Parsed? then file.config.alias else [];
    AliasesAre(rules, FirstAlias(rules, cname), items, a);
    if i :| 0 <= i < |items| && items[i] != "" && rules.aliasCheck(items[i]) == Some(a) {
      assert items[i] in items;
    }
  }

  /** parsePageConfig.  Whatever happens, the direct filter is appended last. */
  method ParsePageConfig(rules: Rules, cname: Option<string>, file: ConfigFile)
    returns (ok: bool, alias: seq<string>, filters: seq<Filter>)
    ensures Ordered(filters)
    ensures ok ==
      (file.NoFile? || (file.Parsed? && AliasesGood(rules, file.config.alias) && RoutesGood(rules, file.config.routes)))
    ensures ok ==> filters == PageFilters(alias, if file.Parsed? then file.config.routes else [])
    ensures ok ==> alias == PageAliases(rules, cname, file)
  {
    filters, alias := DEFAULTS, [];
    if cname.Some? && cname.value != "" {
      var al := rules.aliasCheck(Trim(cname.value));
      if al.Some? {
        alias := [al.value];
      }
    }
    match file {
      case NoFile =>
        filters := WithRedirect(alias) + [DIRECT];
        return true, alias, filters;
      case Malformed =>
        return false, [], filters + [DIRECT];
      case Parsed(config) =>
        ok, alias := AppendAliases(rules, alias, config.alias);
        if !ok {
          filters := filters + [DIRECT];
          return;
        }
        ok, filters := AppendRoutes(rules, WithRedirect(alias), config.routes);
        filters := filters + [DIRECT];
    }
  }

  /** The configured aliases of parsePageConfig, up to the first bad one. */
  method AppendAliases(rules: Rules, start: seq<string>, items: seq<string>) returns (ok: bool, alias: seq<string>)
    ensures ok == AliasesGood(rules, items)
    ensures ok ==> alias == AddAliases(rules, start, items)
  {
    alias := start;
    for i := 0 to |items|
      invariant forall k :: 0 <= k < i && items[k] != "" ==> rules.aliasCheck(items[k]).Some?
      invariant AddAliases(rules, alias, items[i..]) == AddAliases(rules, start, items)
    {
      ghost var before := alias;
      if items[i] != "" {
        var al := rules.aliasCheck(items[i]);
        if al.None? {
          return false, alias;
        }
        alias := alias + [al.value];
      }
      assert alias == before + if items[i] == "" then [] else Accepted(rules.aliasCheck(items[i]));
      assert items[i..][1..] == items[i + 1..];
    }
    ok := true;
  }

  /** The custom routes of parsePageConfig, up to the first bad item. */
  method AppendRoutes(rules: Rules, start: seq<Filter>, routes: seq<Route>) returns (ok: bool, filters: seq<Filter>)
    ensures start <= filters
    ensures ok == RoutesGood(rules, routes)
    ensures ok <==> forall r, item :: r in routes && item in SplitOn(r.path, ',') && Trim(item) != "" ==>
                      rules.globCompiles(Trim(item)) && rules.enabled(r.kind)
    ensures ok ==> filters == AddRoutes(start, routes)
  {
    filters := start;
    for i := 0 to |routes|
      invariant start <= filters
      invariant AddRoutes(filters, routes[i..]) == AddRoutes(start, routes)
      invariant forall k :: 0 <= k < i ==> RouteGood(rules, routes[k])
    {
      ok, filters := AppendItems(rules, filters, routes[i], SplitOn(routes[i].path, ','));
      if !ok {
        return;
      }
    }
    ok := true;
  }

  method AppendItems(rules: Rules, start: seq<Filter>, r: Route, items: seq<string>)
    returns (ok: bool, filters: seq<Filter>)
    ensures start <= filters
    ensures ok == forall item :: item in items ==> !ItemBad(rules, r, item)
    ensures ok ==> filters == AddItems(start, r, items)
  {
    filters := start;
    for j := 0 to |items|
      invariant start <= filters
      invariant AddItems(filters, r, items[j..]) == AddItems(start, r, items)
      invariant forall k :: 0 <= k < j ==> !ItemBad(rules, r, items[k])
    {
      ghost var before := filters;
      var item := Trim(items[j]);
      if item != "" {
        if !rules.globCompiles(item) || !rules.enabled(r.kind) {
          assert ItemBad(rules, r, items[j]);
          return false, filters;
        }
        filters := filters + [Filter(item, r.kind, r.params)];
      }
      assert filters == before + ItemFilters(r, items[j]);
      assert items[j..][1..] == items[j + 1..];
    }
    ok := true;
  }

  // ---------------------------------------------------------------- the request

  type Manager = (string, Params) -> Option<Made>

  /** Whether a pattern matches a path; None if it does not compile. */
  type Matcher = (string, string) -> Option<bool>

  datatype Selected = Stop(err: Outcome) | Calls(calls: seq<FilterCall>)

  const UNAVAILABLE := Failed("unavailable")

  /** The calls of the filters that match, or the first reason why a call cannot be made. */
  function Select(mgr: Manager, matches: Matcher, filters: seq<Filter>, path: string, acc: seq<FilterCall>): Selected
    decreases |filters|
  {
    if filters == [] then Calls(acc)
    else
      var f, rest := filters[0], filters[1..];
      if matches(f.path, path) != Some(true) then Select(mgr, matches, rest, path, acc)
      else match mgr(f.kind, f.params)
        case None => Stop(UNAVAILABLE)
        case Some(Rejected(err)) => Stop(err)
        case Some(Call(call)) => Select(mgr, matches, rest, path, acc + [call])
  }

  function IndexPath(path: string): string {
    if path == "" || path[|path| - 1] == '/' then path + "index.html" else path
  }

  function Served(mgr: Manager, matches: Matcher, filters: seq<Filter>, path: string, w: World): (Outcome, World) {
    match Select(mgr, matches, filters, IndexPath(path), [])
    case Stop(err) => (err, w)
    case Calls(calls) => Nested(calls)(w)
  }

  /** The filter part of servePage: choose, reverse, fold, call. */
  method ServePage(mgr: Manager, matches: Matcher, filters: seq<Filter>, metaPath: string, w: World)
    returns (err: Outcome, w': World)
    ensures (err, w') == Served(mgr, matches, filters, metaPath, w)
  {
    var path := metaPath;
    if path == "" || path[|path| - 1] == '/' {
      path := path + "index.html";
    }
    var calls: seq<FilterCall> := [];
    for i := 0 to |filters|
      invariant Select(mgr, matches, filters[i..], path, calls) == Select(mgr, matches, filters, path, [])
    {
      var filter := filters[i];
      assert filters[i..][0] == filter && filters[i..][1..] == filters[i + 1..];
      var matched := matches(filter.path, path);
      if matched == Some(true) {
        var made := mgr(filter.kind, filter.params);
        if made.None? {
          return UNAVAILABLE, w;
        }
        if made.value.Rejected? {
          return made.value.err, w;
        }
        calls := calls + [made.value.call];
      }
    }
    var reversed := Reverse(calls);
    var stack: Next := NotFoundNext;
    for i := 0 to |reversed|
      invariant stack == Nested(calls[|calls| - i..])
    {
      assert calls[|calls| - i - 1..][1..] == calls[|calls| - i..];
      stack := Wrap(reversed[i], stack);
    }
    assert calls[0..] == calls;
    var result := stack(w);
    return result.0, result.1;
  }

  method Reverse(calls: seq<FilterCall>) returns (reversed: seq<FilterCall>)
    ensures |reversed| == |calls| && forall i :: 0 <= i < |calls| ==> reversed[i] == calls[|calls| - 1 - i]
  {
    reversed := [];
    for i := 0 to |calls|
      invariant |reversed| == i && forall k :: 0 <= k < i ==> reversed[k] == calls[|calls| - 1 - k]
    {
      reversed := reversed + [calls[|calls| - 1 - i]];
    }
  }

  // ---------------------------------------------------------------- what a request means

  /** A manager, and what its calls do. */
  datatype Chain = Chain(mgr: Manager, kindOf: (string, Params) -> Kind, matches: Matcher)

  predicate Matching(c: Chain, filters: seq<Filter>, path: string, i: nat) {
    i < |filters| && c.matches(filters[i].path, path) == Some(true)
  }

  /** The manager has no such type, or refuses the parameters. */
  predicate Unmade(mgr: Manager, f: Filter) {
    var m := mgr(f.kind, f.params); m.None? || m.value.Rejected?
  }

  function Reason(mgr: Manager, f: Filter): Outcome
    requires Unmade(mgr, f)
  {
    match mgr(f.kind, f.params) case Some(Rejected(err)) => err case _ => UNAVAILABLE
  }

  /** The first matching filter that cannot be made. */
  predicate FirstUnmade(c: Chain, filters: seq<Filter>, path: string, i: nat) {
    && Matching(c, filters, path, i) && Unmade(c.mgr, filters[i])
    && forall j: nat :: j < i && Matching(c, filters, path, j) ==> !Unmade(c.mgr, filters[j])
  }

  predicate AllMade(c: Chain, filters: seq<Filter>, path: string) {
    forall i: nat :: i < |filters| && Matching(c, filters, path, i) ==> !Unmade(c.mgr, filters[i])
  }

  /** Every call that the manager makes for one of the filters is of its kind. */
  ghost predicate Classified(c: Chain, filters: seq<Filter>) {
    forall i :: 0 <= i < |filters| ==>
      var f := filters[i];
      var m := c.mgr(f.kind, f.params);
      m.Some? && m.value.Call? ==> Behaves(m.value.call, c.kindOf(f.kind, f.params))
  }

  /** The kinds of the filters that match. */
  function Kinds(c: Chain, filters: seq<Filter>, path: string): seq<Kind> {
    if filters == [] then []
    else
      (if c.matches(filters[0].path, path) == Some(true) then [c.kindOf(filters[0].kind, filters[0].params)] else [])
      + Kinds(c, filters[1..], path)
  }

  lemma BehaveMore(calls: seq<FilterCall>, kinds: seq<Kind>, call: FilterCall, kind: Kind)
    requires AllBehave(calls, kinds) && Behaves(call, kind)
    ensures AllBehave(calls + [call], kinds + [kind])
  {}

  lemma MadeTail(c: Chain, filters: seq<Filter>, path: string)
    requires filters != [] && AllMade(c, filters, path)
    ensures AllMade(c, filters[1..], path)
  {
    forall i: nat | Matching(c, filters[1..], path, i) ensures !Unmade(c.mgr, filters[1..][i]) {
      assert Matching(c, filters, path, i + 1);
    }
  }

  /** If all can be made, the calls behave as the kinds of the matching filters, in order. */
  lemma {:induction false} SelectCalls(
      c: Chain, filters: seq<Filter>, path: string, acc: seq<FilterCall>, kinds: seq<Kind>)
    requires Classified(c, filters) && AllMade(c, filters, path) && AllBehave(acc, kinds)
    ensures var s := Select(c.mgr, c.matches, filters, path, acc);
            s.Calls? && AllBehave(s.calls, kinds + Kinds(c, filters, path))
    decreases |filters|
  {
    if filters == [] {
      assert kinds + [] == kinds;
    } else {
      var f := filters[0];
      MadeTail(c, filters, path);
      if c.matches(f.path, path) != Some(true) {
        SelectCalls(c, filters[1..], path, acc, kinds);
        assert [] + Kinds(c, filters[1..], path) == Kinds(c, filters, path);
      } else {
        assert Matching(c, filters, path, 0);
        var call, kind := c.mgr(f.kind, f.params).value.call, c.kindOf(f.kind, f.params);
        BehaveMore(acc, kinds, call, kind);
        SelectCalls(c, filters[1..], path, acc + [call], kinds + [kind]);
        assert (kinds + [kind]) + Kinds(c, filters[1..], path) == kinds + Kinds(c, filters, path);
      }
    }
  }

  /** Otherwise the first one that cannot be made ends the selection. */
  lemma {:induction false} SelectStops(c: Chain, filters: seq<Filter>, path: string, acc: seq<FilterCall>, i: nat)
    requires FirstUnmade(c, filters, path, i)
    ensures Select(c.mgr, c.matches, filters, path, acc) == Stop(Reason(c.mgr, filters[i]))
    decreases |filters|
  {
    if i > 0 {
      var f, rest := filters[0], filters[1..];
      assert Matching(c, filters, path, 0) <==> c.matches(f.path, path) == Some(true);
      assert FirstUnmade(c, rest, path, i - 1) by {
        forall j: nat | j < i - 1 && Matching(c, rest, path, j) ensures !Unmade(c.mgr, rest[j]) {
          assert Matching(c, filters, path, j + 1);
        }
      }
      if c.matches(f.path, path) != Some(true) {
        SelectStops(c, rest, path, acc, i - 1);
      } else {
        SelectStops(c, rest, path, acc + [c.mgr(f.kind, f.params).value.call], i - 1);
      }
    }
  }

  lemma {:induction false} FindUnmade(c: Chain, filters: seq<Filter>, path: string, n: nat) returns (i: nat)
    requires exists j: nat :: j < n && Matching(c, filters, path, j) && Unmade(c.mgr, filters[j])
    ensures i < n && FirstUnmade(c, filters, path, i)
  {
    if j: nat :| j < n - 1 && Matching(c, filters, path, j) && Unmade(c.mgr, filters[j]) {
      i := FindUnmade(c, filters, path, n - 1);
    } else {
      i := n - 1;
    }
  }

  /** What is served, for every manager: if some matching filter cannot be made, the first such
      one ends the request before any filter is called; otherwise it is the flat scan. */
  ghost predicate ServedAs(c: Chain, filters: seq<Filter>, path: string, w: World, served: (Outcome, World)) {
    if AllMade(c, filters, path) then served == Flat(Kinds(c, filters, path), w)
    else exists i: nat :: FirstUnmade(c, filters, path, i) && served == (Reason(c.mgr, filters[i]), w)
  }

  lemma RequestIsFlatScan(c: Chain, filters: seq<Filter>, metaPath: string, w: World)
    requires Classified(c, filters)
    ensures ServedAs(c, filters, IndexPath(metaPath), w, Served(c.mgr, c.matches, filters, metaPath, w))
    ensures Select(c.mgr, c.matches, filters, IndexPath(metaPath), []).Calls?
       <==> AllMade(c, filters, IndexPath(metaPath))
  {
    var path := IndexPath(metaPath);
    if AllMade(c, filters, path) {
      SelectCalls(c, filters, path, [], []);
      assert [] + Kinds(c, filters, path) == Kinds(c, filters, path);
      NestedIsFlat(Select(c.mgr, c.matches, filters, path, []).calls, Kinds(c, filters, path), w);
    } else {
      var i := FindUnmade(c, filters, path, |filters|);
      SelectStops(c, filters, path, [], i);
    }
  }

  /** The response is untouched, or what the innermost reached filter that finds the page makes
      of the untouched response. */
  ghost predicate OneWrote(kinds: seq<Kind>, w: World, served: (Outcome, World)) {
    served.1 == w || exists k: nat :: WinsBelow(kinds, |kinds|, k, w) && served == kinds[k].run(w)
  }

  lemma FlatOneWrote(kinds: seq<Kind>, w: World)
    requires AllQuiet(kinds)
    ensures OneWrote(kinds, w, Flat(kinds, w))
  {
    OneWriter(kinds, w);
  }

  /** If moreover no matching filter writes when it reports a missing page, the response is the
      work of at most one filter. */
  lemma RequestHasOneWriter(c: Chain, filters: seq<Filter>, metaPath: string, w: World)
    requires Classified(c, filters)
    requires AllQuiet(Kinds(c, filters, IndexPath(metaPath)))
    ensures OneWrote(Kinds(c, filters, IndexPath(metaPath)), w, Served(c.mgr, c.matches, filters, metaPath, w))
  {
    RequestIsFlatScan(c, filters, metaPath, w);
    FlatOneWrote(Kinds(c, filters, IndexPath(metaPath)), w);
  }

  // ---------------------------------------------------------------- what a page request means

  /** The server's manager: the built-in filters and some others. */
  datatype Env = Env(
    site: Site, req: Request, statusText: int -> string, matches: Matcher,
    others: Manager, otherKind: (string, Params) -> Kind)
  {
    function Manage(): Chain {
      Chain(
        (kind, p) => if IsBuiltIn(kind) then Some(Make(site, req, statusText, kind, p)) else others(kind, p),
        (kind, p) => if IsBuiltIn(kind) then KindOf(site, req, statusText, kind, p) else otherKind(kind, p),
        matches)
    }

    /** The filters see the path that is matched. */
    function At(metaPath: string): Env {
      this.(req := req.(path := IndexPath(metaPath)))
    }
  }

  /** What a page with these filters serves for a path. */
  function PageServes(env: Env, filters: seq<Filter>, metaPath: string, w: World): (Outcome, World) {
    var c := env.At(metaPath).Manage();
    Served(c.mgr, c.matches, filters, metaPath, w)
  }

  /** The other filters are what they are said to be. */
  ghost predicate OthersBehave(e: Env, filters: seq<Filter>) {
    forall i :: 0 <= i < |filters| && !IsBuiltIn(filters[i].kind) ==>
      var m := e.others(filters[i].kind, filters[i].params);
      m.Some? && m.value.Call? ==> Behaves(m.value.call, e.otherKind(filters[i].kind, filters[i].params))
  }

  lemma PageClassified(e: Env, filters: seq<Filter>)
    requires OthersBehave(e, filters)
    ensures Classified(e.Manage(), filters)
  {
    forall i | 0 <= i < |filters| && IsBuiltIn(filters[i].kind)
      ensures var m := Make(e.site, e.req, e.statusText, filters[i].kind, filters[i].params);
              m.Call? ==> Behaves(m.call, KindOf(e.site, e.req, e.statusText, filters[i].kind, filters[i].params))
    {
      MadeBehaves(e.site, e.req, e.statusText, filters[i].kind, filters[i].params);
    }
  }

  /** When a filter of a page cannot be made, in terms of its type and parameters. */
  predicate CannotMake(e: Env, f: Filter) {
    if IsBuiltIn(f.kind) then BuiltInRejects(f.kind, f.params)
    else var m := e.others(f.kind, f.params); m.None? || m.value.Rejected?
  }

  lemma UnmadeIff(e: Env, f: Filter)
    ensures Unmade(e.Manage().mgr, f) <==> CannotMake(e, f)
  {
    if IsBuiltIn(f.kind) {
      MadeBehaves(e.site, e.req, e.statusText, f.kind, f.params);
    }
  }

  predicate Stopped(e: Env, filters: seq<Filter>, path: string) {
    exists i :: 0 <= i < |filters| && e.matches(filters[i].path, path) == Some(true) && CannotMake(e, filters[i])
  }

  lemma StoppedIff(e: Env, filters: seq<Filter>, path: string)
    ensures Stopped(e, filters, path) <==> !AllMade(e.Manage(), filters, path)
  {
    var c := e.Manage();
    forall i: nat | i < |filters| ensures Unmade(c.mgr, filters[i]) <==> CannotMake(e, filters[i]) {
      UnmadeIff(e, filters[i]);
    }
    if i :| 0 <= i < |filters| && e.matches(filters[i].path, path) == Some(true) && CannotMake(e, filters[i]) {
      assert Matching(c, filters, path, i);
    }
  }

  lemma {:induction false} LastKind(c: Chain, filters: seq<Filter>, path: string)
    requires filters != [] && filters[|filters| - 1] == DIRECT && c.matches("**", path) == Some(true)
    ensures var kinds := Kinds(c, filters, path);
            kinds != [] && kinds[|kinds| - 1] == c.kindOf("direct", NO_PARAMS)
  {
    if |filters| == 1 {
      assert filters[1..] == [];
    } else {
      LastKind(c, filters[1..], path);
    }
  }

  /** The outermost kind recovers around the rest. */
  lemma FlatOuter(run: Next, rest: seq<Kind>, w: World)
    ensures Flat([Recovers(run)] + rest, w) == Recovered(run, Flat(rest, w))
  {
    var kinds := [Recovers(run)] + rest;
    assert kinds[1..] == rest;
    FlatStep(kinds, w);
  }

  /** With nothing that answers, the innermost kind acts first. */
  lemma FlatInner(kinds: seq<Kind>, run: Next, w: World)
    requires kinds != [] && kinds[|kinds| - 1] == Recovers(run)
    requires forall k :: 0 <= k < |kinds| ==> !kinds[k].Answers?
    ensures Flat(kinds, w) == RecoverBefore(kinds, |kinds| - 1, run(w))
  {}

  lemma DefaultKinds(e: Env)
    ensures e.Manage().kindOf("404", NO_PARAMS) == Recovers(NotFoundRun(e.site))
    ensures e.Manage().kindOf("direct", NO_PARAMS) == Recovers(DirectRun(e.site, e.req, ""))
  {
    assert KindOf(e.site, e.req, e.statusText, "404", NO_PARAMS) == Recovers(NotFoundRun(e.site));
    assert KindOf(e.site, e.req, e.statusText, "direct", NO_PARAMS) == Recovers(DirectRun(e.site, e.req, ""));
  }

  lemma KindsCons(c: Chain, f: Filter, rest: seq<Filter>, p: string)
    ensures Kinds(c, [f] + rest, p)
         == (if c.matches(f.path, p) == Some(true) then [c.kindOf(f.kind, f.params)] else []) + Kinds(c, rest, p)
  {
    assert ([f] + rest)[1..] == rest;
  }

  /** The kinds of a page: the 404 page around the rest, which ends with direct. */
  lemma PageKinds(e: Env, filters: seq<Filter>, p: string)
    requires Ordered(filters) && e.matches("**", p) == Some(true)
    ensures var rest := Kinds(e.Manage(), filters[1..], p);
            && Kinds(e.Manage(), filters, p) == [Recovers(NotFoundRun(e.site))] + rest
            && rest != [] && rest[|rest| - 1] == Recovers(DirectRun(e.site, e.req, ""))
  {
    assert filters[0] == DEFAULTS[0] && filters[1..][|filters| - 2] == DIRECT;
    assert [filters[0]] + filters[1..] == filters;
    KindsCons(e.Manage(), filters[0], filters[1..], p);
    DefaultKinds(e);
    LastKind(e.Manage(), filters[1..], p);
  }

  /** What a page serves when all its matching filters can be made. */
  ghost predicate PageRuns(e: Env, rest: seq<Kind>, w: World, served: (Outcome, World)) {
    && served == Recovered(NotFoundRun(e.site), Flat(rest, w))
    && ((forall k :: 0 <= k < |rest| ==> !rest[k].Answers?) ==>
          rest != [] && Flat(rest, w) == RecoverBefore(rest, |rest| - 1, DirectRun(e.site, e.req, "")(w)))
  }

  lemma PageFlat(e: Env, filters: seq<Filter>, p: string, w: World)
    requires Ordered(filters) && e.matches("**", p) == Some(true)
    ensures PageRuns(e, Kinds(e.Manage(), filters[1..], p), w, Flat(Kinds(e.Manage(), filters, p), w))
  {
    var rest := Kinds(e.Manage(), filters[1..], p);
    PageKinds(e, filters, p);
    FlatOuter(NotFoundRun(e.site), rest, w);
    if forall k :: 0 <= k < |rest| ==> !rest[k].Answers? {
      FlatInner(rest, DirectRun(e.site, e.req, ""), w);
    }
  }

  /** Every page.  A request stops before any filter is called, with an untouched response, if
      and only if some matching filter cannot be made.  Otherwise the 404 page is the last resort
      around the rest of the filters, and if none of these answers by itself, plain files are
      tried before anything else. */
  lemma PageServed(env: Env, filters: seq<Filter>, metaPath: string, w: World)
    requires Ordered(filters) && OthersBehave(env, filters) && env.matches("**", IndexPath(metaPath)) == Some(true)
    ensures var e, p := env.At(metaPath), IndexPath(metaPath);
            var c, served := e.Manage(), PageServes(env, filters, metaPath, w);
            && (Select(c.mgr, c.matches, filters, p, []).Stop? <==> Stopped(e, filters, p))
            && if Stopped(e, filters, p)
               then exists i: nat :: FirstUnmade(c, filters, p, i) && served == (Reason(c.mgr, filters[i]), w)
               else PageRuns(e, Kinds(c, filters[1..], p), w, served)
  {
    var e := env.At(metaPath);
    PageClassified(e, filters);
    StoppedIff(e, filters, IndexPath(metaPath));
    RequestIsFlatScan(e.Manage(), filters, metaPath, w);
    PageFlat(e, filters, IndexPath(metaPath), w);
  }

  /** The other filters write nothing when they report a missing page. */
  ghost predicate OthersQuiet(e: Env, filters: seq<Filter>) {
    forall i :: 0 <= i < |filters| && !IsBuiltIn(filters[i].kind) ==>
      Quiet(e.otherKind(filters[i].kind, filters[i].params))
  }

  lemma OneQuiet(e: Env, f: Filter)
    requires !IsBuiltIn(f.kind) ==> Quiet(e.otherKind(f.kind, f.params))
    ensures Quiet(e.Manage().kindOf(f.kind, f.params))
  {
    if IsBuiltIn(f.kind) {
      MadeBehaves(e.site, e.req, e.statusText, f.kind, f.params);
    }
  }

  lemma {:induction false} PageQuiet(e: Env, filters: seq<Filter>, p: string)
    requires OthersQuiet(e, filters)
    ensures AllQuiet(Kinds(e.Manage(), filters, p))
  {
    if filters != [] {
      OneQuiet(e, filters[0]);
      PageQuiet(e, filters[1..], p);
    }
  }

  /** Then one filter at most writes the response of any request to any page. */
  lemma PageHasOneWriter(env: Env, filters: seq<Filter>, metaPath: string, w: World)
    requires OthersBehave(env, filters) && OthersQuiet(env, filters)
    ensures OneWrote(Kinds(env.At(metaPath).Manage(), filters, IndexPath(metaPath)), w,
                     PageServes(env, filters, metaPath, w))
  {
    var e := env.At(metaPath);
    PageClassified(e, filters);
    PageQuiet(e, filters, IndexPath(metaPath));
    RequestHasOneWriter(e.Manage(), filters, metaPath, w);
  }

  /** The paths of the default block filters. */
  predicate Blocked(e: Env, p: string) {
    e.matches(".git/**", p) == Some(true) || e.matches(".pages.yaml", p) == Some(true)
  }

  lemma BlockUnmade(e: Env, f: Filter)
    requires f.kind == "block" && f.params.code == 0
    ensures Unmade(e.Manage().mgr, f) && Reason(e.Manage().mgr, f) == NotExist
  {
    assert Make(e.site, e.req, e.statusText, f.kind, f.params) == Rejected(NotExist);
  }

  lemma MadeOne(e: Env, f: Filter)
    requires f.kind == "404" || f.kind == "direct"
    ensures !Unmade(e.Manage().mgr, f) && !CannotMake(e, f)
  {
    UnmadeIff(e, f);
  }

  /** These filters have no code, so they cannot be made: on every page such a path ends the
      request with a missing page and an untouched response, and the 404 page is not called. */
  lemma BlockedPathStops(env: Env, filters: seq<Filter>, metaPath: string, w: World)
    requires Ordered(filters) && Blocked(env, IndexPath(metaPath))
    ensures PageServes(env, filters, metaPath, w) == (NotExist, w)
  {
    var e := env.At(metaPath);
    var c, p := e.Manage(), IndexPath(metaPath);
    var i: nat := if e.matches(".git/**", p) == Some(true) then 1 else 2;
    assert filters[0] == DEFAULTS[0] && filters[1] == DEFAULTS[1] && filters[2] == DEFAULTS[2];
    MadeOne(e, filters[0]);
    BlockUnmade(e, filters[i]);
    assert FirstUnmade(c, filters, p, i);
    SelectStops(c, filters, p, [], i);
  }

  lemma PlainFilters()
    ensures PageFilters([], []) == DEFAULTS + [DIRECT]
    ensures forall f :: f in PageFilters([], []) ==> IsBuiltIn(f.kind)
  {
    assert AddRoutes(WithRedirect([]), []) == DEFAULTS + [];
  }

  lemma PlainKinds(e: Env, p: string)
    requires e.matches("**", p) == Some(true) && !Blocked(e, p)
    ensures Kinds(e.Manage(), (DEFAULTS + [DIRECT])[1..], p) == [Recovers(DirectRun(e.site, e.req, ""))]
    ensures !Stopped(e, DEFAULTS + [DIRECT], p)
  {
    var c, all := e.Manage(), DEFAULTS + [DIRECT];
    assert all[1..] == [DEFAULTS[1]] + ([DEFAULTS[2]] + ([DIRECT] + []));
    KindsCons(c, DEFAULTS[1], [DEFAULTS[2]] + ([DIRECT] + []), p);
    KindsCons(c, DEFAULTS[2], [DIRECT] + [], p);
    KindsCons(c, DIRECT, [], p);
    DefaultKinds(e);
    MadeOne(e, all[0]);
    MadeOne(e, all[3]);
    assert all[1] == DEFAULTS[1] && all[2] == DEFAULTS[2];
  }

  /** A page without alias and routes serves the file, and the 404 page if there is none, except
      exactly for the blocked paths. */
  lemma PlainPage(env: Env, metaPath: string, w: World)
    requires env.matches("**", IndexPath(metaPath)) == Some(true)
    ensures PageServes(env, PageFilters([], []), metaPath, w)
         == if Blocked(env, IndexPath(metaPath)) then (NotExist, w)
            else Recovered(NotFoundRun(env.site), DirectRun(env.site, env.At(metaPath).req, "")(w))
  {
    PlainFilters();
    PageOrdered([], []);
    if Blocked(env, IndexPath(metaPath)) {
      BlockedPathStops(env, PageFilters([], []), metaPath, w);
    } else {
      PlainKinds(env.At(metaPath), IndexPath(metaPath));
      PageServed(env, PageFilters([], []), metaPath, w);
    }
  }

  // ---------------------------------------------------------------- what a visitor gets

  /** The path that is looked up: a directory stands for its index.html. */
  predicate IsIndexed(metaPath: string, p: string) {
    if metaPath == "" || metaPath[|metaPath| - 1] == '/' then p == metaPath + "index.html" else p == metaPath
  }

  /** The 404 page, if the site has one. */
  predicate IsMissing(site: Site, w: World, served: (Outcome, World)) {
    match site("/404.html")
    case Found(_, page) => served == (Ok, w + [Page404(page)])
    case Broken(reason) => served == (Failed(reason), w)
    case Missing => served == (NotExist, w)
  }

  lemma NoSlashAtEnd(p: string)
    requires p != "" && p[|p| - 1] != '/'
    ensures TrimSuffix(p, "/") == p
  {
    assert p[|p| - 1..][0] == p[|p| - 1];
  }

  /** A page without alias and routes, by the files of the site: the file of the path; else the way
      to a directory that has an index.html; else the 404 page. */
  lemma PlainPageAnswers(env: Env, metaPath: string, p: string, w: World)
    requires IsIndexed(metaPath, p) && env.matches("**", p) == Some(true) && !Blocked(env, p)
    ensures var served := PageServes(env, PageFilters([], []), metaPath, w);
            if env.req.httpMethod != "GET" && env.req.httpMethod != "HEAD"
            then served == (Ok, w + [Plain(405, "Method not allowed")])
            else match env.site("/" + p)
              case Found(_, file) => served == (if file.breaks then Failed("copy") else Ok, w + [Static("/" + p, file)])
              case Broken(reason) => served == (Failed(reason), w)
              case Missing =>
                var index := env.site("/" + p + "/index.html");
                if index.Found? && index.status == 200
                then served == (Ok, w + [RedirectTo(TrimSuffix(env.req.urlPath, "/") + "/", 302)])
                else IsMissing(env.site, w, served)
  {
    NoSlashAtEnd(p);
    assert p == IndexPath(metaPath) && TrimSlashes("") == "" && "" + "/" == "/";
    PlainPage(env, metaPath, w);
  }

  /** The filters after the 404 page, with one more before direct. */
  lemma MiddleKinds(e: Env, r: Filter, p: string)
    requires e.matches("**", p) == Some(true) && !Blocked(e, p) && r.path == "**"
    ensures Kinds(e.Manage(), ([DEFAULTS[1]] + ([DEFAULTS[2]] + ([r] + [DIRECT]))), p)
         == [e.Manage().kindOf(r.kind, r.params), Recovers(DirectRun(e.site, e.req, ""))]
  {
    var c := e.Manage();
    assert [DIRECT] == [DIRECT] + [];
    KindsCons(c, DEFAULTS[1], [DEFAULTS[2]] + ([r] + [DIRECT]), p);
    KindsCons(c, DEFAULTS[2], [r] + [DIRECT], p);
    KindsCons(c, r, [DIRECT], p);
    KindsCons(c, DIRECT, [], p);
    DefaultKinds(e);
  }

  lemma AliasFilters(alias: seq<string>)
    requires alias != []
    ensures var all, r := PageFilters(alias, []), RedirectFilter(alias);
            && all == [DEFAULTS[0], DEFAULTS[1], DEFAULTS[2], r, DIRECT]
            && all[1..] == [DEFAULTS[1]] + ([DEFAULTS[2]] + ([r] + [DIRECT]))
  {}

  lemma AliasNotStopped(e: Env, alias: seq<string>, p: string)
    requires alias != [] && !Blocked(e, p)
    ensures !Stopped(e, PageFilters(alias, []), p)
  {
    AliasFilters(alias);
    MadeOne(e, DEFAULTS[0]);
    MadeOne(e, DIRECT);
  }

  lemma RedirectPathIs(p: string, dir: string)
    requires if p == "index.html" then dir == ""
             else if exists d :: p == d + "/index.html" then p == dir + "index.html" else dir == p
    ensures dir == if p == "index.html" || TrimSuffix(p, "/index.html") != p then TrimSuffix(p, "index.html") else p
  {
    TrimSuffixIs(p, "/index.html");
    TrimSuffixIs(dir, "index.html");
    if d :| p == d + "/index.html" {
      TrimSuffixIs(d, "/index.html");
    }
    assert "" + "index.html" == "index.html";
  }

  lemma AliasFlat(e: Env, alias: seq<string>, w: World)
    requires alias != []
    ensures var k := KindOf(e.site, e.req, e.statusText, "redirect", NO_PARAMS.(targets := alias));
            var direct := Recovers(DirectRun(e.site, e.req, ""));
            Flat([k, direct], w) == if e.req.host in e.req.aliases then DirectRun(e.site, e.req, "")(w)
                                    else RedirectRun(e.req, alias[0], 302)(w)
  {
    var k := KindOf(e.site, e.req, e.statusText, "redirect", NO_PARAMS.(targets := alias));
    var kinds := [k, Recovers(DirectRun(e.site, e.req, ""))];
    FlatStep(kinds, w);
    FlatStep(kinds[1..], w);
    assert kinds[1..][1..] == [];
  }

  lemma RedirectRunIs(req: Request, target: string, code: int, dir: string, w: World)
    requires if req.path == "index.html" then dir == ""
             else if exists d :: req.path == d + "/index.html" then req.path == dir + "index.html" else dir == req.path
    ensures RedirectRun(req, target, code)(w)
         == (Ok, w + [RedirectTo((if req.scheme == "" then "http" else req.scheme)
                                 + "://" + target + "/" + dir + req.query, code)])
  {
    RedirectPathIs(req.path, dir);
  }

  lemma AliasPageServed(env: Env, alias: seq<string>, metaPath: string, w: World)
    requires alias != [] && env.matches("**", IndexPath(metaPath)) == Some(true) && !Blocked(env, IndexPath(metaPath))
    ensures var e := env.At(metaPath);
            PageServes(env, PageFilters(alias, []), metaPath, w) ==
              if e.req.host in e.req.aliases then Recovered(NotFoundRun(e.site), DirectRun(e.site, e.req, "")(w))
              else RedirectRun(e.req, alias[0], 302)(w)
  {
    var e, p := env.At(metaPath), IndexPath(metaPath);
    PageOrdered(alias, []);
    AliasFilters(alias);
    MiddleKinds(e, RedirectFilter(alias), p);
    AliasNotStopped(e, alias, p);
    PageServed(env, PageFilters(alias, []), metaPath, w);
    assert e.Manage().kindOf("redirect", NO_PARAMS.(targets := alias))
        == KindOf(e.site, e.req, e.statusText, "redirect", NO_PARAMS.(targets := alias));
    AliasFlat(e, alias, w);
  }

  /** A page with aliases sends a visitor of any other host to the first of them, to the same path
      without index.html, with status 302; under one of its aliases it is the plain page. */
  lemma AliasPageAnswers(env: Env, alias: seq<string>, metaPath: string, p: string, dir: string, w: World)
    requires alias != [] && IsIndexed(metaPath, p) && env.matches("**", p) == Some(true) && !Blocked(env, p)
    requires if p == "index.html" then dir == ""
             else if exists d :: p == d + "/index.html" then p == dir + "index.html" else dir == p
    ensures PageServes(env, PageFilters(alias, []), metaPath, w)
         == if env.req.host in env.req.aliases then PageServes(env, PageFilters([], []), metaPath, w)
            else (Ok, w + [RedirectTo((if env.req.scheme == "" then "http" else env.req.scheme)
                                      + "://" + alias[0] + "/" + dir + env.req.query, 302)])
  {
    AliasPageServed(env, alias, metaPath, w);
    PlainPage(env, metaPath, w);
    RedirectRunIs(env.At(metaPath).req, alias[0], 302, dir, w);
  }
}
