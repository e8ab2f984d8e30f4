/** `pkg/server`: the development server of the `pkg` tree. It holds the
    three directories, the views and the static files, and a handler that
    every reload rebuilds from scratch: one route per view (its page also
    written to the build directory), one per static file, and one logging
    layer around the mux. */
module PkgServer {
  import opened Base
  import opened Text
  import opened Nav
  import opened Http

  /** A view as the server reads it: its path and its page. */
  datatype Doc = Doc(path: string, html: string)

  /** `build.FilePath`: a static file's name and its copied path. */
  datatype StaticPath = StaticPath(name: string, file: string)

  /** A page written to the build directory: the file and its bytes. */
  datatype Written = Written(file: string, bytes: string)

  class Server {
    var port: int
    var contentDir: string
    var templateDir: string
    var staticDir: string
    var views: seq<Doc>
    var staticPaths: seq<StaticPath>
    var documentLoader: bool   // the lock exists (is non-nil)
    var serverStarter: bool
    var handler: Handler

    /** `server{port: p}`: everything else is the zero value. */
    constructor (p: int)
      ensures port == p && contentDir == [] && templateDir == [] && staticDir == []
      ensures views == [] && staticPaths == [] && !documentLoader && !serverStarter && handler == Nil
    {
      port := p;
      contentDir, templateDir, staticDir := [], [], [];
      views, staticPaths := [], [];
      documentLoader, serverStarter := false, false;
      handler := Nil;
    }

    /** The port and the three directories, which only `createServer`
        sets. */
    function Settings(): (int, string, string, string)
      reads this
    {
      (port, contentDir, templateDir, staticDir)
    }

    /** Whether the two locks exist. */
    function Locks(): (bool, bool)
      reads this
    {
      (documentLoader, serverStarter)
    }

    /** `createLocks`: both locks exist afterwards. */
    method CreateLocks()
      modifies this
      ensures documentLoader && serverStarter
      ensures port == old(port) && contentDir == old(contentDir) && templateDir == old(templateDir)
      ensures staticDir == old(staticDir) && views == old(views) && staticPaths == old(staticPaths) && handler == old(handler)
      ensures Settings() == old(Settings())
    {
      documentLoader := true;
      serverStarter := true;
    }

    /** `addLogger`: wraps the handler in one more logging layer. */
    method AddLogger()
      modifies this
      ensures handler == Logged(old(handler)) && Layers(handler) == Layers(old(handler)) + 1
      ensures views == old(views) && staticPaths == old(staticPaths)
      ensures Settings() == old(Settings()) && Locks() == old(Locks())
    {
      handler := Logged(handler);
    }

    /** `loadDocuments`: the views of the content directory (the walk is
        given by its result). */
    method LoadDocuments(loaded: seq<Doc>)
      modifies this
      ensures views == loaded && staticPaths == old(staticPaths) && handler == old(handler)
      ensures Settings() == old(Settings()) && Locks() == old(Locks())
    {
      views := loaded;
    }

    /** `collectStatic`: the copied files replace the list, even when the
        copy reports an error (which is only logged). */
    method CollectStatic(copied: seq<StaticPath>)
      modifies this
      ensures staticPaths == copied && views == old(views) && handler == old(handler)
      ensures Settings() == old(Settings()) && Locks() == old(Locks())
    {
      staticPaths := copied;
    }

    /** `addRoutes`: a fresh mux with one route per view, whose page is
        also written to `buildDir/path.html` (failing to create or write it
        is fatal), then one route per static file. */
    method AddRoutes(buildDir: string, canCreate: string -> bool, canWrite: string -> bool)
      returns (exit: bool, files: seq<Written>)
      modifies this
      ensures exit <==> exists i :: 0 <= i < |views| && !Buildable(buildDir, views[i], canCreate, canWrite)
      ensures !exit ==> handler == Mux(DocRoutes(views) + StaticRoutes(staticPaths))
      ensures !exit ==> files == PageFiles(buildDir, views)
      ensures exit ==> handler == old(handler)
      ensures views == old(views) && staticPaths == old(staticPaths)
      ensures Settings() == old(Settings()) && Locks() == old(Locks())
    {
      var routes: seq<Route> := [];
      files := [];
      var i := 0;
      while i < |views|
        invariant 0 <= i <= |views|
        invariant views == old(views) && staticPaths == old(staticPaths) && handler == old(handler)
        invariant Settings() == old(Settings()) && Locks() == old(Locks())
        invariant forall j :: 0 <= j < i ==> Buildable(buildDir, views[j], canCreate, canWrite)
        invariant routes == DocRoutes(views[..i]) && files == PageFiles(buildDir, views[..i])
      {
        var doc := views[i];
        var path := ToLower(doc.path);
        var route := "/" + path;
        if path == "index" || path == "readme" {
          route := "/";
        }
        var file := OutputFile(buildDir, path);
        if !canCreate(file) || !canWrite(file) {
          return true, [];
        }
        files := files + [Written(file, doc.html)];
        routes := routes + [Route(route, Page(doc.html))];
        assert views[..i + 1] == views[..i] + [doc];
        i := i + 1;
      }
      assert views[..i] == views;
      var k := 0;
      while k < |staticPaths|
        invariant 0 <= k <= |staticPaths|
        invariant views == old(views) && staticPaths == old(staticPaths) && handler == old(handler)
        invariant Settings() == old(Settings()) && Locks() == old(Locks())
        invariant routes == DocRoutes(views) + StaticRoutes(staticPaths[..k])
      {
        var sp := staticPaths[k];
        routes := routes + [Route("/" + ToLower(sp.name), Static(sp.file, HasSuffix(sp.name, "css")))];
        assert staticPaths[..k + 1] == staticPaths[..k] + [sp];
        k := k + 1;
      }
      assert staticPaths[..k] == staticPaths;
      handler := Mux(routes);
      exit := false;
    }

    /** `reloadHandler`: loads the views, collects the static files,
        builds a fresh mux, wraps it in one logging layer and swaps it into
        the running server. However many reloads ran before, the server's
        handler has exactly one logging layer. */
    method ReloadHandler(srv: HttpServer, loaded: seq<Doc>, copied: seq<StaticPath>, buildDir: string,
                         canCreate: string -> bool, canWrite: string -> bool)
      returns (exit: bool)
      modifies this, srv
      ensures exit <==> exists i :: 0 <= i < |loaded| && !Buildable(buildDir, loaded[i], canCreate, canWrite)
      ensures !exit ==> srv.handler == handler == Logged(Mux(DocRoutes(loaded) + StaticRoutes(copied)))
      ensures !exit ==> Layers(srv.handler) == 1
      ensures exit ==> handler == old(handler) && srv.handler == old(srv.handler)
      ensures views == loaded && staticPaths == copied
      ensures Settings() == old(Settings()) && Locks() == old(Locks())
    {
      LoadDocuments(loaded);
      CollectStatic(copied);
      var files;
      exit, files := AddRoutes(buildDir, canCreate, canWrite);
      if exit {
        return;
      }
      AddLogger();
      srv.handler := handler;
    }

    /** `address`. */
    function Address(): (r: string)
      reads this
      ensures r == Http.Address(port)
      ensures r[0] == ':' && ParseInt(r[1..]) == port
    {
      AddressRoundTrip(port);
      Http.Address(port)
    }

    /** The file watcher attaches the content, template and static
        directories in that order; any failure is fatal and names the
        directory. */
    method AttachDirs(contentOk: bool, templateOk: bool, staticOk: bool) returns (fatal: Option<string>)
      ensures fatal.None? <==> contentOk && templateOk && staticOk
      ensures !contentOk ==> fatal == Some(contentDir)
      ensures contentOk && !templateOk ==> fatal == Some(templateDir)
      ensures contentOk && templateOk && !staticOk ==> fatal == Some(staticDir)
    {
      if !contentOk {
        return Some(contentDir);
      }
      if !templateOk {
        return Some(templateDir);
      }
      if !staticOk {
        return Some(staticDir);
      }
      fatal := None;
    }
  }

  /** `createServer(p, dirs...)`: exactly three directories, assigned to
      content, template and static in that order; any other count is
      fatal. */
  method CreateServer(p: int, dirs: seq<string>) returns (s: Server?)
    ensures s == null <==> |dirs| != 3
    ensures s != null ==> fresh(s) && s.port == p
    ensures s != null ==> s.contentDir == dirs[0] && s.templateDir == dirs[1] && s.staticDir == dirs[2]
    ensures s != null ==> s.views == [] && s.handler == Nil && !s.documentLoader && !s.serverStarter
  {
    if |dirs| != 3 {
      return null;
    }
    s := new Server(p);
    s.contentDir, s.templateDir, s.staticDir := dirs[0], dirs[1], dirs[2];
  }

  /** The route of a view: its whole path lower-cased, "/" for exactly
      "index" or "readme". */
  function DocRoute(path: string): string {
    var p := ToLower(path);
    if IsHome(p) then "/" else "/" + p
  }

  /** The file a view's page is written to. */
  function PageFile(buildDir: string, path: string): string {
    OutputFile(buildDir, ToLower(path))
  }

  /** The page file of a view can be created and written. */
  predicate Buildable(buildDir: string, d: Doc, canCreate: string -> bool, canWrite: string -> bool) {
    canCreate(PageFile(buildDir, d.path)) && canWrite(PageFile(buildDir, d.path))
  }

  function DocRoutes(views: seq<Doc>): (r: seq<Route>)
    ensures |r| == |views|
    ensures forall i :: 0 <= i < |views| ==> r[i] == Route(DocRoute(views[i].path), Page(views[i].html))
  {
    seq(|views|, i requires 0 <= i < |views| => Route(DocRoute(views[i].path), Page(views[i].html)))
  }

  function PageFiles(buildDir: string, views: seq<Doc>): (r: seq<Written>)
    ensures |r| == |views|
    ensures forall i :: 0 <= i < |views| ==> r[i] == Written(PageFile(buildDir, views[i].path), views[i].html)
  {
    seq(|views|, i requires 0 <= i < |views| => Written(PageFile(buildDir, views[i].path), views[i].html))
  }

  /** The route of a static file: "/" + its lower-cased name; names ending
      in "css" are sent as `text/css`. */
  function StaticRoutes(paths: seq<StaticPath>): (r: seq<Route>)
    ensures |r| == |paths|
    ensures forall i :: 0 <= i < |paths| ==>
      r[i] == Route("/" + ToLower(paths[i].name), Static(paths[i].file, HasSuffix(paths[i].name, "css")))
  {
    seq(|paths|, i requires 0 <= i < |paths| => Route("/" + ToLower(paths[i].name), Static(paths[i].file, HasSuffix(paths[i].name, "css"))))
  }

  /** Routes are lower-case, and "/" is only the home page's: a view whose
      path has a directory part (as the content walk gives) is never served
      at "/". */
  lemma DocRouteRule(path: string)
    ensures ToLower(DocRoute(path)) == DocRoute(path)
    ensures DocRoute(path) == "/" <==> IsHome(ToLower(path)) || path == ""
    ensures '/' in path ==> DocRoute(path) != "/"
  {
    var p := ToLower(path);
    ToLowerIdempotent(path);
    if !IsHome(p) {
      assert ("/" + p)[1..] == p;
      assert ToLower("/" + p) == "/" + ToLower(p) by {
        var a := ToLower("/" + p);
        assert |a| == |"/" + p|;
        forall k | 0 <= k < |a|
          ensures a[k] == ("/" + ToLower(p))[k]
        {
        }
      }
    }
    if '/' in path {
      var k :| 0 <= k < |path| && path[k] == '/';
      assert p[k] == '/';
      assert p != "index" && p != "readme" by {
        assert p[k] in p;
      }
    }
  }
}
