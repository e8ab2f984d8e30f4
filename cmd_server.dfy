/** `cmd/server`: the development server of the `cmd` tree. It copies its
    settings from the configuration, serves the assets directory and one
    route per view of the build command, and on every reload rebuilds the
    mux, wraps it in one logging layer and swaps it into the running
    server. */
module CmdServer {
  import opened Base
  import opened Text
  import opened Nav
  import opened Http
  import Fs
  import Md
  import Walk
  import BuildView

  /** The options the server reads from the configuration; the static
      path is what `GetStaticPath` returns. */
  datatype Options = Options(port: int, contentDir: string, templateDir: string, staticDir: string,
                             staticPath: string, buildDir: string, level: string)

  datatype Config = Config(options: Options)

  /** `build.FilePath`: a static file's name and its copied path. */
  datatype StaticPath = StaticPath(name: string, file: string)

  /** The route every mux starts with: the file server over the static
      root, under "/assets/". */
  function AssetsRoute(root: string): Route {
    Route("/assets/", Assets(root))
  }

  class Server {
    var port: int
    var contentDir: string
    var templateDir: string
    var staticDir: string
    var staticRoot: string
    var config: Config
    var views: seq<BuildView.View>
    var staticPaths: seq<StaticPath>
    var documentLoader: bool   // the lock exists (is non-nil)
    var serverStarter: bool
    var handler: Handler
    var server: HttpServer?

    /** `createServer(config)`: the port and the three directories are
        copied from the options, the static root is the static path; no
        locks, views, handler or server yet. */
    constructor (c: Config)
      ensures config == c && port == c.options.port
      ensures contentDir == c.options.contentDir && templateDir == c.options.templateDir
      ensures staticDir == c.options.staticDir && staticRoot == c.options.staticPath
      ensures !documentLoader && !serverStarter
      ensures views == [] && staticPaths == [] && handler == Nil && server == null
    {
      config := c;
      port := c.options.port;
      contentDir := c.options.contentDir;
      staticDir := c.options.staticDir;
      templateDir := c.options.templateDir;
      staticRoot := c.options.staticPath;
      views, staticPaths := [], [];
      documentLoader, serverStarter := false, false;
      handler := Nil;
      server := null;
    }

    /** The port, the three directories, the static root and the
        configuration, which only `createServer` sets. */
    function Settings(): (int, string, string, string, string, Config)
      reads this
    {
      (port, contentDir, templateDir, staticDir, staticRoot, config)
    }

    /** Whether the two locks exist. */
    function Locks(): (bool, bool)
      reads this
    {
      (documentLoader, serverStarter)
    }

    /** `createLocks`: both locks exist afterwards. */
    method CreateLocks()
      modifies this
      ensures documentLoader && serverStarter
      ensures views == old(views) && staticPaths == old(staticPaths) && handler == old(handler)
      ensures Settings() == old(Settings()) && server == old(server)
    {
      documentLoader := true;
      serverStarter := true;
    }

    /** `addLoggingMiddleware`: panics on a nil handler, and otherwise
        wraps it in one logging layer. */
    method AddLoggingMiddleware() returns (panicked: bool)
      modifies this
      ensures panicked <==> old(handler).Nil?
      ensures panicked ==> handler == old(handler)
      ensures !panicked ==> handler == Logged(old(handler)) && Layers(handler) == Layers(old(handler)) + 1
      ensures views == old(views) && staticPaths == old(staticPaths) && server == old(server)
      ensures Settings() == old(Settings()) && Locks() == old(Locks())
    {
      if handler.Nil? {
        return true;
      }
      handler := Logged(handler);
      panicked := false;
    }

    /** `loadViewLayer`: the views `build.NewViews` reads from the content
        directory, whose walk exits when a directory cannot be listed, and
        the copied static files (given by their result; a copy error is
        dropped). */
    method LoadViewLayer(l: Fs.Listing, copied: seq<StaticPath>, env: Env) returns (exit: bool)
      modifies this
      ensures exit <==> Walk.Discover(config.options.contentDir, l, env.split).None?
      ensures exit ==> views == old(views) && staticPaths == old(staticPaths)
      ensures !exit ==> staticPaths == copied && forall j :: 0 <= j < |views| ==> fresh(views[j])
      ensures !exit ==> BuildView.Presents(views, Walk.Discover(config.options.contentDir, l, env.split).value,
                                           config.options.templateDir, env.toHtml, env.caser)
      ensures handler == old(handler) && server == old(server)
      ensures Settings() == old(Settings()) && Locks() == old(Locks())
    {
      var loaded;
      loaded, exit := BuildView.ReadContentDirectory(config.options.contentDir, l, config.options.templateDir,
                                                     env.split, env.toHtml, env.caser);
      if exit {
        return;
      }
      views := loaded;
      staticPaths := copied;
    }

    /** `addRoutes`: a fresh mux that serves the assets first, then builds
        every view's page in order and routes it to the view's handler; a
        build that fails is fatal. The handler is a method value with a
        value receiver, so each route serves the page its view held when
        the route was registered. The views' paths, and the pages a build
        renders for them, are left as they were. */
    method AddRoutes(env: Env) returns (exit: bool)
      modifies this, set v | v in views
      ensures views == old(views) && staticPaths == old(staticPaths) && server == old(server)
      ensures Settings() == old(Settings()) && Locks() == old(Locks())
      ensures BuildView.ViewPaths(views) == old(BuildView.ViewPaths(views))
      ensures Pages(views, env) == old(Pages(views, env))
      ensures exit <==> !AllBuild(old(BuildView.ViewPaths(views)), old(Pages(views, env)), config.options.buildDir, env)
      ensures !exit ==> forall j :: 0 <= j < |views| ==> old(Pages(views, env))[j] == Some(views[j].htmlPage)
      ensures !exit ==> handler == Mux([AssetsRoute(staticRoot)] + ViewRoutes(BuildView.ViewPaths(views), BuildView.HtmlPages(views)))
      ensures !exit ==> BuildView.HtmlPages(views) == Rendered(old(Pages(views, env)))
      ensures exit ==> handler == old(handler)
    {
      ghost var paths := BuildView.ViewPaths(views);
      ghost var pages := Pages(views, env);
      var routes, failed := BuildRoutes(views, paths, pages, config.options.buildDir, env);
      ProgressKeeps(views, paths, pages, env, if failed then 0 else |views|);
      if failed {
        return true;
      }
      handler := Mux([AssetsRoute(staticRoot)] + routes);
      exit := false;
    }

    /** `reloadHandler`: loads the view layer, builds the routes, adds the
        logging layer and swaps the handler into the running server. It
        exits when the content walk or a page build does; otherwise the
        server ends with exactly one logging layer around the mux that
        serves the pages of the content directory. The middleware never
        panics here. */
    method ReloadHandler(l: Fs.Listing, copied: seq<StaticPath>, env: Env) returns (exit: bool)
      requires server != null
      modifies this, server
      ensures server == old(server)
      ensures Settings() == old(Settings()) && Locks() == old(Locks())
      ensures var found := Walk.Discover(config.options.contentDir, l, env.split);
        exit <==> found.None? ||
                  !AllBuild(SitePaths(found.value), SitePages(found.value, config.options.templateDir, env),
                            config.options.buildDir, env)
      ensures !exit ==> var site := Walk.Discover(config.options.contentDir, l, env.split).value;
        && staticPaths == copied && |views| == |site|
        && (forall j :: 0 <= j < |views| ==> SitePages(site, config.options.templateDir, env)[j] == Some(views[j].htmlPage))
        && handler == Logged(Mux([AssetsRoute(staticRoot)] +
                                 ViewRoutes(SitePaths(site), Rendered(SitePages(site, config.options.templateDir, env)))))
        && server.handler == handler && Layers(handler) == 1
      ensures exit ==> handler == old(handler) && server.handler == old(server.handler)
    {
      exit := LoadViewLayer(l, copied, env);
      if exit {
        return;
      }
      ghost var site := Walk.Discover(config.options.contentDir, l, env.split).value;
      LoadedSite(views, site, config.options.templateDir, env);
      exit := AddRoutes(env);
      if exit {
        return;
      }
      var panicked := AddLoggingMiddleware();
      assert !panicked;
      server.handler := handler;
    }

    /** `address`. */
    function Address(): (r: string)
      reads this
      ensures r == Http.Address(port)
      ensures r[0] == ':' && ParseInt(r[1..]) == port
    {
      AddressRoundTrip(port);
      Http.Address(port)
    }

    /** The file watcher attaches the content, template and static
        directories: only the content directory is required; the other two
        only log a warning. */
    method AttachDirs(contentOk: bool, templateOk: bool, staticOk: bool) returns (fatal: bool, warned: seq<string>)
      ensures fatal <==> !contentOk
      ensures !fatal ==> warned == (if templateOk then [] else [templateDir]) + (if staticOk then [] else [staticDir])
    {
      if !contentOk {
        return true, [];
      }
      warned := [];
      if !templateOk {
        warned := warned + [templateDir];
      }
      if !staticOk {
        warned := warned + [staticDir];
      }
      fatal := false;
    }

    /** `listen`: the HTTP server on the server's address, with its
        current handler. */
    method Listen()
      modifies this
      ensures server != null && fresh(server)
      ensures server.addr == Http.Address(port) && server.handler == handler
      ensures views == old(views) && staticPaths == old(staticPaths) && handler == old(handler)
      ensures Settings() == old(Settings()) && Locks() == old(Locks())
    {
      server := new HttpServer(Address(), handler);
    }
  }

  /** What a reload reads from outside the server: the frontmatter
      splitter, the markdown renderer, the title caser, whether the template
      directory can be read, which template files parse, the site name, the
      template engine, and which files can be created and which written. */
  datatype Env = Env(split: string -> Option<Md.Split>, toHtml: string -> string, caser: string -> string,
                     dirReadable: bool, parses: set<string>, site: string,
                     execute: (Template, Context) -> Option<string>, canCreate: string -> bool,
                     canWrite: string -> bool)

  /** The paths the views of a freshly read site carry: each page's
      navigation path. */
  function SitePaths(site: seq<Md.MD>): (r: seq<string>)
    ensures |r| == |site|
    ensures forall i :: 0 <= i < |site| ==> r[i] == NavPath(site[i].filePath)
  {
    seq(|site|, i requires 0 <= i < |site| => NavPath(site[i].filePath))
  }

  /** The page a build renders for page `m` of a freshly read site: no
      template is set yet, so with an unreadable template directory the
      page's own name decides, and otherwise the embedded default; the
      context carries the links of the whole site. */
  function SitePage(m: Md.MD, site: seq<Md.MD>, tdir: string, env: Env): Option<string> {
    var t := BuildView.ChosenTemplate(env.dirReadable, None, env.parses, tdir, BaseName(NavPath(m.filePath)));
    env.execute(t, PageContext(if m.front.Some? then Some(m.front.value.title) else None, env.site,
                               Links(Md.RecordPaths(site), env.caser), env.toHtml(m.content)))
  }

  /** The pages a build renders for a freshly read site. */
  function SitePages(site: seq<Md.MD>, tdir: string, env: Env): (r: seq<Option<string>>)
    ensures |r| == |site|
    ensures forall i :: 0 <= i < |site| ==> r[i] == SitePage(site[i], site, tdir, env)
  {
    seq(|site|, i requires 0 <= i < |site| => SitePage(site[i], site, tdir, env))
  }

  /** Views that present a site carry the site's paths, and a build renders
      the site's pages for them. */
  lemma LoadedSite(views: seq<BuildView.View>, site: seq<Md.MD>, tdir: string, env: Env)
    requires BuildView.Presents(views, site, tdir, env.toHtml, env.caser)
    ensures BuildView.ViewPaths(views) == SitePaths(site)
    ensures Pages(views, env) == SitePages(site, tdir, env)
  {
    forall j | 0 <= j < |views|
      ensures PageOf(views[j], env) == SitePage(site[j], site, tdir, env)
    {
      assert BuildView.Shows(views[j], site[j], tdir, env.toHtml);
    }
  }

  /** The page a build renders for a view in its current state. */
  function PageOf(v: BuildView.View, env: Env): Option<string>
    reads v
  {
    BuildView.BuiltPage(v, env.dirReadable, env.parses, env.site, env.toHtml, env.execute)
  }

  /** The pages a build renders for a batch of views. */
  function Pages(views: seq<BuildView.View>, env: Env): (r: seq<Option<string>>)
    reads set v | v in views
    ensures |r| == |views|
    ensures forall i :: 0 <= i < |views| ==> r[i] == PageOf(views[i], env)
  {
    seq(|views|, i requires 0 <= i < |views| reads views => PageOf(views[i], env))
  }

  /** A view with this path and this page builds: "buildDir/path.html" can
      be created, the page renders, and the file can be written. */
  predicate Builds(path: string, page: Option<string>, buildDir: string, env: Env) {
    var file := OutputFile(buildDir, path);
    env.canCreate(file) && page.Some? && env.canWrite(file)
  }

  /** The state of the route loop before view `i`: every view keeps its
      path and the page a build renders for it, and the views before `i`
      hold that page. */
  predicate Progress(views: seq<BuildView.View>, paths: seq<string>, pages: seq<Option<string>>, env: Env, i: nat)
    reads set v | v in views
  {
    && i <= |views| == |paths| == |pages|
    && (forall j :: 0 <= j < |views| ==> views[j].path == paths[j] && PageOf(views[j], env) == pages[j])
    && (forall j :: 0 <= j < i ==> pages[j] == Some(views[j].htmlPage))
  }

  /** The route loop of `addRoutes`: builds the views' pages in order
      and collects their routes; the first build that fails stops it. */
  method BuildRoutes(views: seq<BuildView.View>, ghost paths: seq<string>, ghost pages: seq<Option<string>>,
                     buildDir: string, env: Env)
    returns (routes: seq<Route>, exit: bool)
    requires Progress(views, paths, pages, env, 0)
    modifies set v | v in views
    ensures Progress(views, paths, pages, env, if exit then 0 else |views|)
    ensures exit <==> !AllBuild(paths, pages, buildDir, env)
    ensures !exit ==> routes == ViewRoutes(paths, BuildView.HtmlPages(views))
  {
    ghost var built: seq<string> := [];
    routes := [];
    var i := 0;
    while i < |views|
      invariant 0 <= i <= |views|
      invariant Progress(views, paths, pages, env, i)
      invariant Routed(routes, paths, pages, built, i, buildDir, env)
    {
      var route, page, ok := BuildOne(views, i, paths, pages, buildDir, env);
      if !ok {
        ProgressPrefix(views, paths, pages, env, i);
        return routes, true;
      }
      RoutedStep(routes, paths, pages, built, i, buildDir, env, page);
      routes := routes + [Route(route, Page(page))];
      built := built + [page];
      i := i + 1;
    }
    RoutedAll(routes, paths, pages, built, buildDir, env);
    BuiltPages(views, paths, pages, env, built);
    exit := false;
  }

  /** The routes of the views before `i`, which all built, serving the
      pages `built` they held. */
  predicate Routed(routes: seq<Route>, paths: seq<string>, pages: seq<Option<string>>, built: seq<string>, i: nat,
                   buildDir: string, env: Env)
  {
    && i <= |paths| == |pages| && |built| == i
    && (forall j :: 0 <= j < i ==> Builds(paths[j], pages[j], buildDir, env) && pages[j] == Some(built[j]))
    && routes == ViewRoutes(paths[..i], built)
  }

  /** The route loop's step: one more view built, one more route. */
  lemma RoutedStep(routes: seq<Route>, paths: seq<string>, pages: seq<Option<string>>, built: seq<string>, i: nat,
                   buildDir: string, env: Env, page: string)
    requires Routed(routes, paths, pages, built, i, buildDir, env) && i < |paths|
    requires Builds(paths[i], pages[i], buildDir, env) && pages[i] == Some(page)
    ensures Routed(routes + [Route(PageRoute(paths[i]), Page(page))], paths, pages, built + [page], i + 1, buildDir, env)
  {
    ViewRoutesStep(paths[..i], built, paths[i], page);
    assert paths[..i + 1] == paths[..i] + [paths[i]];
  }

  /** When every view has its route, every view built and the routes are
      those of all the views. */
  lemma RoutedAll(routes: seq<Route>, paths: seq<string>, pages: seq<Option<string>>, built: seq<string>,
                  buildDir: string, env: Env)
    requires Routed(routes, paths, pages, built, |paths|, buildDir, env)
    ensures AllBuild(paths, pages, buildDir, env)
    ensures routes == ViewRoutes(paths, built)
  {
    assert paths[..|paths|] == paths;
  }

  /** One iteration of the route loop of `addRoutes`: builds view `i`'s
      page into `buildDir` and returns its route and the page the route's
      copy of the view serves, or reports the failure.
      A view listed twice is built twice and holds the same page after
      each build. */
  method BuildOne(views: seq<BuildView.View>, i: nat, ghost paths: seq<string>, ghost pages: seq<Option<string>>,
                  buildDir: string, env: Env)
    returns (route: string, page: string, built: bool)
    requires i < |views| && Progress(views, paths, pages, env, i)
    modifies views[i]
    ensures built <==> Builds(paths[i], pages[i], buildDir, env)
    ensures Progress(views, paths, pages, env, if built then i + 1 else i)
    ensures built ==> route == PageRoute(paths[i]) && pages[i] == Some(page)
  {
    var v := views[i];
    var file := OutputFile(buildDir, v.path);
    var status;
    route, status := v.BuildHTMLFileContents(buildDir, env.canCreate(file), env.dirReadable, env.parses, env.site,
                                             env.toHtml, env.execute, env.canWrite(file));
    built := status == BuildView.Written;
    page := v.htmlPage;
    forall j | 0 <= j < |views|
      ensures views[j].path == paths[j] && PageOf(views[j], env) == pages[j]
      ensures j < i || (built && j == i) ==> pages[j] == Some(views[j].htmlPage)
    {
      if views[j] != v {
        assert views[j].path == old(views[j].path) && views[j].htmlPage == old(views[j].htmlPage);
        assert PageOf(views[j], env) == old(PageOf(views[j], env));
      }
    }
  }

  /** The pages of a batch that rendered, "" standing for one that did
      not. */
  function Rendered(pages: seq<Option<string>>): (r: seq<string>)
    ensures |r| == |pages|
    ensures forall j :: 0 <= j < |pages| && pages[j].Some? ==> pages[j] == Some(r[j])
  {
    seq(|pages|, j requires 0 <= j < |pages| => pages[j].GetOr(""))
  }

  /** Every view of a batch builds. */
  predicate AllBuild(paths: seq<string>, pages: seq<Option<string>>, buildDir: string, env: Env)
    requires |paths| == |pages|
  {
    forall j :: 0 <= j < |paths| ==> Builds(paths[j], pages[j], buildDir, env)
  }

  /** At the end of the route loop the pages it recorded are the ones the
      views hold. */
  lemma BuiltPages(views: seq<BuildView.View>, paths: seq<string>, pages: seq<Option<string>>, env: Env, built: seq<string>)
    requires Progress(views, paths, pages, env, |views|)
    requires |built| == |views| && forall j :: 0 <= j < |views| ==> pages[j] == Some(built[j])
    ensures built == BuildView.HtmlPages(views)
  {
  }

  /** The route loop's state before view `i` includes its state at the
      start. */
  lemma ProgressPrefix(views: seq<BuildView.View>, paths: seq<string>, pages: seq<Option<string>>, env: Env, i: nat)
    requires Progress(views, paths, pages, env, i)
    ensures Progress(views, paths, pages, env, 0)
  {
  }

  /** The route loop's state gives the facts `addRoutes` promises: the
      paths and the pages are those of the snapshot. */
  lemma ProgressKeeps(views: seq<BuildView.View>, paths: seq<string>, pages: seq<Option<string>>, env: Env, i: nat)
    requires Progress(views, paths, pages, env, i)
    ensures BuildView.ViewPaths(views) == paths
    ensures Pages(views, env) == pages
  {
  }

  /** The route of each built view: `BuildHTMLFileContents` returns "/" for
      the view whose path is "index" and "/" + path otherwise, and the route
      serves the page the view held when it was registered. */
  function ViewRoutes(paths: seq<string>, pages: seq<string>): (r: seq<Route>)
    requires |paths| == |pages|
    ensures |r| == |paths|
    ensures forall i :: 0 <= i < |paths| ==> r[i] == Route(PageRoute(paths[i]), Page(pages[i]))
  {
    seq(|paths|, i requires 0 <= i < |paths| => Route(PageRoute(paths[i]), Page(pages[i])))
  }

  /** The routes of one more view follow those of the views before it. */
  lemma ViewRoutesStep(paths: seq<string>, pages: seq<string>, path: string, page: string)
    requires |paths| == |pages|
    ensures ViewRoutes(paths + [path], pages + [page]) == ViewRoutes(paths, pages) + [Route(PageRoute(path), Page(page))]
  {
  }
}
