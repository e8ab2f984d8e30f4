/** The rules the view revisions share: a page's name, slug and route, the
    navigation link it gets, the "title | site" rule of the page context,
    the template file names, and the response a view handler writes. */
module Nav {
  import opened Base
  import opened Text
  import opened Utils

  /** A navigation entry: the text shown and the route it points to. */
  datatype NavLink = NavLink(name: string, path: string)

  /** `name()`: the last "/"-part of a path, up to its first ".". */
  function BaseName(path: string): (r: string)
    ensures '/' !in r && '.' !in r
  {
    var last := LastSegment(path, '/');
    var r := FirstSegment(last, '.');
    FirstSegmentIsPrefix(last, '.');
    assert forall c :: c in r ==> c in last;
    r
  }

  /** The lower-cased name a page is routed under. */
  function Slug(path: string): string {
    ToLower(BaseName(path))
  }

  /** "index" and "readme" (in any case) are the home page. */
  predicate IsHome(slug: string) {
    slug == "index" || slug == "readme"
  }

  /** The path a view is given by the navigation pass: "index" for the home
      page, otherwise its slug. */
  function NavPath(path: string): string {
    if IsHome(Slug(path)) then "index" else Slug(path)
  }

  /** The navigation link of a page: "Home" at "/" for the home page,
      otherwise the title-cased slug at "/" + slug. */
  function Link(path: string, caser: string -> string): NavLink {
    var slug := Slug(path);
    if IsHome(slug) then NavLink("Home", "/") else NavLink(caser(slug), "/" + slug)
  }

  /** The links of a batch of pages, in batch order. */
  function Links(paths: seq<string>, caser: string -> string): (r: seq<NavLink>)
    ensures |r| == |paths|
    ensures forall i :: 0 <= i < |paths| ==> r[i] == Link(paths[i], caser)
  {
    seq(|paths|, i requires 0 <= i < |paths| => Link(paths[i], caser))
  }

  /** What `BuildHTMLFileContents` returns as the page's route. */
  function PageRoute(viewPath: string): string {
    if viewPath == "index" then "/" else "/" + viewPath
  }

  /** Lower-casing keeps "/" and "." out of a string that has none. */
  lemma LowerKeepsPlain(s: string)
    requires '/' !in s && '.' !in s
    ensures '/' !in ToLower(s) && '.' !in ToLower(s)
  {
    var t := ToLower(s);
    forall k | 0 <= k < |t|
      ensures t[k] != '/' && t[k] != '.'
    {
      assert s[k] in s;
    }
  }

  /** A slug has no "/" and no ".", and is already lower-case. */
  lemma SlugIsPlain(path: string)
    ensures '/' !in Slug(path) && '.' !in Slug(path)
    ensures ToLower(Slug(path)) == Slug(path)
  {
    LowerKeepsPlain(BaseName(path));
    ToLowerIdempotent(BaseName(path));
  }

  /** The navigation pass is idempotent: a path it produced is mapped to
      itself and gets the same link, so running it again over its own
      output changes nothing. */
  lemma NavPathIdempotent(path: string, caser: string -> string)
    ensures NavPath(NavPath(path)) == NavPath(path)
    ensures Link(NavPath(path), caser) == Link(path, caser)
  {
    var slug := Slug(path);
    SlugIsPlain(path);
    if IsHome(slug) {
      SlugOfPlain("index");
    } else {
      SlugOfPlain(slug);
    }
  }

  /** A lower-case string without "/" and "." is its own slug. */
  lemma SlugOfPlain(s: string)
    requires '/' !in s && '.' !in s && ToLower(s) == s
    ensures Slug(s) == s
  {
    SegmentsOfPlain(s, '/');
    SegmentsOfPlain(s, '.');
  }

  /** The route a page is served under is the route its link points to. */
  lemma RouteMatchesLink(path: string, caser: string -> string)
    ensures PageRoute(NavPath(path)) == Link(path, caser).path
  {
  }

  /** Only the home page and a page with an empty name are linked at "/". */
  lemma RootLink(path: string, caser: string -> string)
    ensures Link(path, caser).path == "/" <==> IsHome(Slug(path)) || Slug(path) == ""
  {
    var slug := Slug(path);
    if !IsHome(slug) && "/" + slug == "/" {
      assert |slug| == 0;
    }
  }

  /** The titles of the page context: both are the site name; with
      frontmatter, the page title becomes the title, and the document title
      "title | site" unless the title is the site name. */
  function Titles(title: Option<string>, site: string): (r: (string, string)) {
    match title
    case None => (site, site)
    case Some(t) => (if t == site then site else t + " | " + site, t)
  }

  /** The document title always ends with the site name and starts with the
      page title; it is the site name alone exactly when there is no
      frontmatter or the title is the site name. */
  lemma TitleRule(title: Option<string>, site: string)
    ensures var (doc, page) := Titles(title, site);
      && HasSuffix(doc, site) && HasPrefix(doc, page)
      && (doc == site <==> title.None? || title.value == site)
      && (title.Some? ==> page == title.value)
  {
    if title.Some? && title.value != site {
      var t := title.value;
      var doc := t + " | " + site;
      assert doc[|doc| - |site|..] == site;
      assert doc[..|t|] == t;
      assert |doc| > |site|;
    }
  }

  /** The template context `Render` builds: the rendered contents, the
      links, the "dark" theme, and the two titles. */
  datatype Context = Context(contents: string, links: seq<NavLink>, theme: string, docTitle: string, pageTitle: string)

  /** `Render`'s context: both titles start as the site name; with
      frontmatter, the document title becomes "title | site" when the title
      differs from the site name, and the page title becomes the title. */
  function PageContext(title: Option<string>, site: string, links: seq<NavLink>, contents: string): (c: Context)
    ensures (c.docTitle, c.pageTitle) == Titles(title, site)
    ensures c.contents == contents && c.links == links && c.theme == "dark"
  {
    var c := Context(contents, links, "dark", site, site);
    if title.None? then c
    else
      var doc := if c.docTitle != title.value then title.value + " | " + c.docTitle else c.docTitle;
      c.(docTitle := doc, pageTitle := title.value)
  }

  /** A parsed template, named after the file that was parsed, or the
      embedded default layout. */
  datatype Template = Parsed(file: string) | Embedded

  /** `fmt.Sprintf("%v/%v.html", dir, name)`. */
  function TemplateFile(dir: string, name: string): string {
    dir + "/" + name + ".html"
  }

  /** The file a page is written to: "buildDir/path.html". */
  function OutputFile(buildDir: string, path: string): string {
    buildDir + "/" + path + ".html"
  }

  /** `template.ParseGlob(file)`: a template when the file exists and
      parses (the set `parses`), nil and an error otherwise. */
  function ParseGlob(parses: set<string>, file: string): (r: Option<Template>)
    ensures r.Some? <==> file in parses
  {
    if file in parses then Some(Parsed(file)) else None
  }

  /** The first of the patterns `name`, "base" whose file parses. */
  function FirstOf(parses: set<string>, dir: string, name: string): (r: Option<Template>)
    ensures r.Some? <==> TemplateFile(dir, name) in parses || TemplateFile(dir, "base") in parses
    ensures TemplateFile(dir, name) in parses ==> r == Some(Parsed(TemplateFile(dir, name)))
    ensures TemplateFile(dir, name) !in parses ==> r == ParseGlob(parses, TemplateFile(dir, "base"))
  {
    match ParseGlob(parses, TemplateFile(dir, name))
    case Some(t) => Some(t)
    case None => ParseGlob(parses, TemplateFile(dir, "base"))
  }

  /** A handler's response: the status `net/http` sends, the status the
      handler asked for with `WriteHeader` (200 when it asked for none), and
      what it wrote after the page. */
  datatype Response = Response(status: int, requested: int, body: string)

  const OK := 200
  const InternalServerError := 500

  /** A view handler writes the page first. That first `Write` commits
      status 200, so when it fails, the handler's later request for 500
      has no effect, and the serialized error body follows whatever page
      bytes went out. */
  function Serve(page: string, writeError: Option<string>, marshal: Json -> string): (r: Response)
    ensures r.status == OK
    ensures writeError.None? <==> r.requested == OK
    ensures writeError.Some? <==> r.requested == InternalServerError
    ensures writeError.None? ==> r.body == page
    ensures writeError.Some? ==> r.body == CreateErrorJSON(InternalServerError, writeError.value, marshal)
  {
    match writeError
    case None => Response(OK, OK, page)
    case Some(e) => Response(OK, InternalServerError, CreateErrorJSON(InternalServerError, e, marshal))
  }
}
