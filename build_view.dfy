/** `cmd/build`: the views of the build command. Each view keeps its own
    path, frontmatter, markdown and rendered HTML; the content walk is fatal
    when a directory cannot be listed, drops unreadable files and drafts,
    and runs the navigation pass at every directory level. */
module BuildView {
  import opened Base
  import opened Text
  import opened Fs
  import opened Utils
  import opened Md
  import opened Nav
  import opened Walk

  /** The fields of a view that the navigation pass does not touch. */
  datatype Body = Body(front: Option<Frontmatter>, content: string, htmlContent: string, htmlPage: string,
                       templateDir: string, templ: Option<Template>)

  /** The outcome of `BuildHTMLFileContents`: the page was written, the file
      could not be created (an error returned to the caller), or rendering or
      writing failed (the process exits through `Fatalf`). */
  datatype Status = Written | CreateFailed(file: string) | Exit(name: string)

  class View {
    var path: string
    var front: Option<Frontmatter>
    var content: string
    var htmlContent: string
    var htmlPage: string
    var templateDir: string
    var templ: Option<Template>
    var links: seq<NavLink>

    /** `NewView(p, c, t)`: no frontmatter, no links yet. */
    constructor (p: string, c: string, t: string)
      ensures path == p && content == c && templateDir == t
      ensures front.None? && links == [] && htmlContent == [] && htmlPage == [] && templ.None?
    {
      path := p;
      front := None;
      content := c;
      htmlContent := [];
      htmlPage := [];
      templateDir := t;
      templ := None;
      links := [];
    }

    /** The fields other than the path and the links. */
    function Rest(): Body
      reads this
    {
      Body(front, content, htmlContent, htmlPage, templateDir, templ)
    }

    /** `name()`: the last "/"-part of the path, up to its first ".". */
    function Name(): (r: string)
      reads this
      ensures '/' !in r && '.' !in r
    {
      BaseName(path)
    }

    /** `renderContentToHTML`: the markdown renderer is library code. */
    method RenderContentToHTML(toHtml: string -> string)
      modifies this
      ensures htmlContent == toHtml(content)
      ensures Rest() == old(Rest()).(htmlContent := toHtml(content))
      ensures path == old(path) && links == old(links)
    {
      htmlContent := toHtml(content);
    }

    /** One step of `WithNavigation`: the view's path becomes its navigation
        path and its link is returned. */
    method Navigate(caser: string -> string) returns (l: NavLink)
      modifies this
      ensures path == NavPath(old(path)) && l == Link(old(path), caser)
      ensures Rest() == old(Rest()) && links == old(links)
    {
      var slug := ToLower(Name());
      var route := "/" + slug;
      l := NavLink(caser(slug), []);
      var p := slug;
      if slug == "index" || slug == "readme" {
        route := "/";
        p := "index";
        l := l.(name := "Home");
      }
      path := p;
      l := l.(path := route);
    }

    /** `getTemplate`: the lookup chain runs only when reading the template
        directory FAILS. The frontmatter layout is looked up first, but the
        loop that follows overwrites it: the page name, then "base", stopping
        at the first that parses. A nil template becomes the embedded
        default. */
    method GetTemplate(dirReadable: bool, parses: set<string>)
      modifies this
      ensures templ == Some(ChosenTemplate(dirReadable, old(templ), parses, templateDir, BaseName(path)))
      ensures Rest() == old(Rest()).(templ := templ) && path == old(path) && links == old(links)
    {
      var n := Name();
      if !dirReadable {
        if front.Some? && front.value.layout != [] {
          templ := ParseGlob(parses, TemplateFile(templateDir, front.value.layout));
        }
        var patterns := [Name(), "base"];
        var i := 0;
        while i < |patterns|
          invariant 0 <= i <= |patterns|
          invariant i > 0 ==> templ.None? && ParseGlob(parses, TemplateFile(templateDir, patterns[0])).None?
          invariant i == 2 ==> ParseGlob(parses, TemplateFile(templateDir, patterns[1])).None?
          invariant Rest() == old(Rest()).(templ := templ) && path == old(path) && links == old(links)
        {
          templ := ParseGlob(parses, TemplateFile(templateDir, patterns[i]));
          if templ.Some? {
            return;
          }
          i := i + 1;
        }
      }
      if templ.None? {
        templ := Some(Embedded);
      }
    }

    /** `Render`: executes the template over the page context. */
    method Render(site: string, execute: (Template, Context) -> Option<string>) returns (out: Option<string>)
      requires templ.Some?
      ensures out == Output(this, site, execute)
    {
      var title := if front.Some? then Some(front.value.title) else None;
      var ctx := PageContext(title, site, links, htmlContent);
      out := execute(templ.value, ctx);
    }

    /** `BuildHTMLFileContents`: creates `buildDir/path.html`, renders the
        markdown, looks up the template, renders the page, keeps it and
        writes it. A create failure returns the view's path and the error; a
        render or write failure exits; otherwise the page's route. */
    method BuildHTMLFileContents(buildDir: string, canCreate: bool, dirReadable: bool, parses: set<string>,
                                 site: string, toHtml: string -> string, execute: (Template, Context) -> Option<string>,
                                 writeOk: bool)
      returns (route: string, status: Status)
      modifies this
      ensures path == old(path) && links == old(links) && templateDir == old(templateDir)
      ensures BuiltPage(this, dirReadable, parses, site, toHtml, execute)
           == old(BuiltPage(this, dirReadable, parses, site, toHtml, execute))
      ensures status == Written <==> canCreate && old(BuiltPage(this, dirReadable, parses, site, toHtml, execute)).Some? && writeOk
      ensures status == Written ==> Some(htmlPage) == old(BuiltPage(this, dirReadable, parses, site, toHtml, execute))
      ensures !canCreate ==> route == path && status == CreateFailed(OutputFile(buildDir, path)) && Rest() == old(Rest())
      ensures canCreate ==> htmlContent == toHtml(content) && content == old(content) && front == old(front)
      ensures canCreate ==> templ == Some(ChosenTemplate(dirReadable, old(templ), parses, templateDir, BaseName(path)))
      ensures canCreate ==> var out := Output(this, site, execute);
        && (out.None? ==> status == Exit(BaseName(path)))
        && (out.Some? ==> htmlPage == out.value)
        && (out.Some? && !writeOk ==> status == Exit(BaseName(path)))
        && (out.Some? && writeOk ==> route == PageRoute(path) && status == Written)
      ensures canCreate ==> Output(this, site, execute) == old(BuiltPage(this, dirReadable, parses, site, toHtml, execute))
    {
      var file := OutputFile(buildDir, path);
      if !canCreate {
        return path, CreateFailed(file);
      }
      RenderContentToHTML(toHtml);
      GetTemplate(dirReadable, parses);
      var out := Render(site, execute);
      if out.None? {
        return [], Exit(Name());
      }
      htmlPage := out.value;
      if !writeOk {
        return [], Exit(Name());
      }
      route := if path == "index" then "/" else "/" + path;
      status := Written;
    }
  }

  /** What rendering a view with its template yields. */
  function Output(v: View, site: string, execute: (Template, Context) -> Option<string>): Option<string>
    reads v
    requires v.templ.Some?
  {
    execute(v.templ.value, PageContext(if v.front.Some? then Some(v.front.value.title) else None, site, v.links, v.htmlContent))
  }

  /** The page `BuildHTMLFileContents` renders for a view in its current
      state: the rendered markdown under the template `getTemplate` picks.
      Building a view does not change it, so a second build renders the
      same page. */
  function BuiltPage(v: View, dirReadable: bool, parses: set<string>, site: string, toHtml: string -> string,
                     execute: (Template, Context) -> Option<string>): Option<string>
    reads v
  {
    var t := ChosenTemplate(dirReadable, v.templ, parses, v.templateDir, BaseName(v.path));
    execute(t, PageContext(if v.front.Some? then Some(v.front.value.title) else None, site, v.links, toHtml(v.content)))
  }

  /** The template `getTemplate` leaves. With a readable template directory,
      the one already set; otherwise "dir/name.html" if it parses, else
      "dir/base.html" if it parses. The embedded default when that is nil.
      The frontmatter layout never decides it. */
  function ChosenTemplate(dirReadable: bool, current: Option<Template>, parses: set<string>, dir: string, name: string): (r: Template)
    ensures dirReadable && current.Some? ==> r == current.value
    ensures !dirReadable && TemplateFile(dir, name) in parses ==> r == Parsed(TemplateFile(dir, name))
    ensures !dirReadable && TemplateFile(dir, name) !in parses && TemplateFile(dir, "base") in parses
      ==> r == Parsed(TemplateFile(dir, "base"))
    ensures r == Embedded <==>
      if dirReadable then current.None? || current.value == Embedded
      else TemplateFile(dir, name) !in parses && TemplateFile(dir, "base") !in parses
  {
    var found := if dirReadable then current else FirstOf(parses, dir, name);
    found.GetOr(Embedded)
  }

  /** The paths of a batch of views. */
  function ViewPaths(views: seq<View>): (r: seq<string>)
    reads set v | v in views
    ensures |r| == |views|
    ensures forall i :: 0 <= i < |views| ==> r[i] == views[i].path
  {
    seq(|views|, i requires 0 <= i < |views| reads views => views[i].path)
  }

  /** The pages a batch of views hold. */
  function HtmlPages(views: seq<View>): (r: seq<string>)
    reads set v | v in views
    ensures |r| == |views|
    ensures forall i :: 0 <= i < |views| ==> r[i] == views[i].htmlPage
  {
    seq(|views|, i requires 0 <= i < |views| reads views => views[i].htmlPage)
  }

  /** `WithNavigation`: gives each view its navigation path, and every view
      the same list of links, one per view in batch order. Only the view's
      own path is read, so a view the pass has already seen keeps its path
      and link. */
  method WithNavigation(views: seq<View>, caser: string -> string)
    modifies set v | v in views
    ensures forall i :: 0 <= i < |views| ==> views[i].path == NavPath(old(views[i].path))
    ensures forall i :: 0 <= i < |views| ==> views[i].links == Links(old(ViewPaths(views)), caser)
    ensures forall i :: 0 <= i < |views| ==> views[i].Rest() == old(views[i].Rest())
  {
    var links := NavigateAll(views, caser);
    ShareLinks(views, links);
  }

  /** The first loop of `WithNavigation`. A view listed twice is visited
      twice; the second visit finds a path the pass produced and, the pass
      being idempotent, changes nothing. */
  method NavigateAll(views: seq<View>, caser: string -> string) returns (links: seq<NavLink>)
    modifies set v | v in views
    ensures forall i :: 0 <= i < |views| ==> views[i].path == NavPath(old(views[i].path))
    ensures links == Links(old(ViewPaths(views)), caser)
    ensures forall i :: 0 <= i < |views| ==> views[i].Rest() == old(views[i].Rest())
  {
    ghost var paths := ViewPaths(views);
    ghost var rests := seq(|views|, j requires 0 <= j < |views| reads views => views[j].Rest());
    ghost var all := Links(paths, caser);
    links := [];
    var i := 0;
    while i < |views|
      invariant 0 <= i <= |views|
      invariant links == all[..i]
      invariant Progress(views, paths, rests, i)
    {
      var l := NavigateOne(views, i, paths, rests, caser);
      PrefixStep(all, i);
      links := links + [l];
      i := i + 1;
    }
    assert all[..i] == all;
  }

  /** Views that are the same object had the same path. */
  predicate Aliased(views: seq<View>, paths: seq<string>)
    requires |views| == |paths|
  {
    forall a, b :: 0 <= a < |views| && 0 <= b < |views| && views[a] == views[b] ==> paths[a] == paths[b]
  }

  /** The state of the navigation loop before view `i`: every view keeps
      the fields the pass leaves alone and holds its original path or its
      navigation path, the latter for the views before `i`. */
  predicate Progress(views: seq<View>, paths: seq<string>, rests: seq<Body>, i: nat)
    reads set v | v in views
  {
    && i <= |views| == |paths| == |rests|
    && Aliased(views, paths)
    && (forall j :: 0 <= j < |views| ==> views[j].Rest() == rests[j])
    && (forall j :: 0 <= j < |views| ==> Navigated(views[j].path, paths[j]))
    && (forall j :: 0 <= j < i ==> views[j].path == NavPath(paths[j]))
  }

  /** One iteration of the first loop of `WithNavigation`, on view `i`. */
  method NavigateOne(views: seq<View>, i: nat, ghost paths: seq<string>, ghost rests: seq<Body>, caser: string -> string)
    returns (l: NavLink)
    requires i < |views| && Progress(views, paths, rests, i)
    modifies views[i]
    ensures Progress(views, paths, rests, i + 1)
    ensures l == Link(paths[i], caser)
  {
    var v := views[i];
    assert Navigated(v.path, paths[i]);
    NavPathIdempotent(paths[i], caser);
    l := v.Navigate(caser);
    assert v.path == NavPath(paths[i]) && v.Rest() == rests[i];
    forall j | 0 <= j < |views|
      ensures views[j].Rest() == rests[j]
      ensures Navigated(views[j].path, paths[j])
      ensures j <= i ==> views[j].path == NavPath(paths[j])
    {
      if views[j] == v {
        assert paths[j] == paths[i];
      } else {
        assert views[j].path == old(views[j].path) && views[j].Rest() == old(views[j].Rest());
      }
    }
  }

  /** A path the navigation pass may have seen: the original, or its
      navigation path. */
  predicate Navigated(p: string, original: string) {
    p == original || p == NavPath(original)
  }

  /** The second loop of `WithNavigation`: gives every view the links. */
  method ShareLinks(views: seq<View>, links: seq<NavLink>)
    modifies set v | v in views
    ensures forall i :: 0 <= i < |views| ==> views[i].links == links
    ensures forall i :: 0 <= i < |views| ==> views[i].path == old(views[i].path)
    ensures forall i :: 0 <= i < |views| ==> views[i].Rest() == old(views[i].Rest())
  {
    var i := 0;
    while i < |views|
      invariant 0 <= i <= |views|
      invariant forall j :: 0 <= j < i ==> views[j].links == links
      invariant forall j :: 0 <= j < |views| ==> views[j].path == old(views[j].path)
      invariant forall j :: 0 <= j < |views| ==> views[j].Rest() == old(views[j].Rest())
    {
      views[i].links := links;
      i := i + 1;
    }
  }

  /** Paths the pass may have seen have the links of the original paths:
      running the pass again over its own output gives the same links. */
  lemma NavigatedLinks(ps: seq<string>, originals: seq<string>, caser: string -> string)
    requires |ps| == |originals|
    requires forall j :: 0 <= j < |ps| ==> Navigated(ps[j], originals[j])
    ensures Links(ps, caser) == Links(originals, caser)
    ensures forall j :: 0 <= j < |ps| ==> NavPath(ps[j]) == NavPath(originals[j])
  {
    forall j | 0 <= j < |ps|
      ensures Link(ps[j], caser) == Link(originals[j], caser) && NavPath(ps[j]) == NavPath(originals[j])
    {
      NavPathIdempotent(originals[j], caser);
    }
  }

  /** A view showing a page record: its frontmatter and markdown, the
      rendered markdown, the template directory, and no page or template
      yet. */
  predicate Shows(v: View, m: MD, tdir: string, toHtml: string -> string)
    reads v
  {
    v.Rest() == Body(m.front, m.content, toHtml(m.content), [], tdir, None)
  }

  /** `openContentFile`: reads the file and splits it; a read failure gives
      nil, a split failure a view over the raw data. The markdown is
      rendered either way. */
  method OpenContentFile(p: string, data: Option<string>, t: string, split: string -> Option<Split>, toHtml: string -> string)
    returns (v: View?)
    ensures v == null <==> data.None?
    ensures v != null ==> fresh(v) && v.path == p && v.links == [] && Shows(v, Opened(p, data, split).value, t, toHtml)
  {
    if data.None? {
      return null;
    }
    var s := split(data.value);
    if s.None? {
      v := new View(p, data.value, t);
      v.RenderContentToHTML(toHtml);
      return v;
    }
    v := new View(p, s.value.body, t);
    v.front := s.value.front;
    v.RenderContentToHTML(toHtml);
  }

  /** The views show the pages one to one and in order, each under its
      navigation path and with the links of the whole batch. */
  predicate Presents(views: seq<View>, pages: seq<MD>, tdir: string, toHtml: string -> string, caser: string -> string)
    reads set v | v in views
  {
    && |views| == |pages|
    && (forall i :: 0 <= i < |views| ==> Shows(views[i], pages[i], tdir, toHtml))
    && (forall i :: 0 <= i < |views| ==> views[i].path == NavPath(pages[i].filePath))
    && (forall i :: 0 <= i < |views| ==> views[i].links == Links(RecordPaths(pages), caser))
  }

  /** `readContentDirectory(dir, tdir)` (and `NewViews`, which only calls
      it): a directory that cannot be listed exits; entries are read in
      order, subdirectories recursively; files that are not markdown, cannot
      be read or are drafts are skipped; the navigation pass runs over the
      views collected at this level, nested ones included. */
  method ReadContentDirectory(dir: string, l: Listing, tdir: string, split: string -> Option<Split>,
                              toHtml: string -> string, caser: string -> string)
    returns (views: seq<View>, exit: bool)
    ensures exit <==> Discover(dir, l, split).None?
    ensures !exit ==> Presents(views, Discover(dir, l, split).value, tdir, toHtml, caser)
    ensures forall i :: 0 <= i < |views| ==> fresh(views[i])
    decreases l, 1
  {
    if !l.Entries? {
      return [], true;
    }
    var es := l.entries;
    views := [];
    ghost var pages: seq<MD> := [];
    var i := 0;
    while i < |es|
      invariant 0 <= i <= |es|
      invariant DiscoverEntries(dir, l, i, split) == Some(pages)
      invariant forall j :: 0 <= j < |views| ==> fresh(views[j])
      invariant Collected(views, pages, tdir, toHtml)
    {
      var more, found, stop := EntryViews(dir, l, i, pages, tdir, split, toHtml, caser);
      if stop {
        ExitSticks(dir, l, i + 1, |es|, split);
        return [], true;
      }
      CollectedAppend(views, pages, more, found, tdir, toHtml);
      views := views + more;
      pages := pages + found;
      i := i + 1;
    }
    assert pages == Discover(dir, l, split).value;
    NavigateLevel(views, pages, tdir, toHtml, caser);
    exit := false;
  }

  /** One iteration of the walk, on entry `i`: the views it adds (a
      subdirectory's, recursively, or at most one for a file), or an exit. */
  method EntryViews(dir: string, l: Listing, i: nat, ghost pages: seq<MD>, tdir: string, split: string -> Option<Split>,
                    toHtml: string -> string, caser: string -> string)
    returns (more: seq<View>, ghost found: seq<MD>, exit: bool)
    requires l.Entries? && i < |l.entries|
    requires DiscoverEntries(dir, l, i, split) == Some(pages)
    ensures exit <==> DiscoverEntries(dir, l, i + 1, split).None?
    ensures !exit ==> DiscoverEntries(dir, l, i + 1, split) == Some(pages + found)
    ensures !exit ==> Collected(more, found, tdir, toHtml)
    ensures forall j :: 0 <= j < |more| ==> fresh(more[j])
    decreases l, 0
  {
    var entry := l.entries[i];
    assert entry in l.entries;
    var fpath := Join(dir, entry.name);
    if entry.Dir? {
      var nested, nestedExit := ReadContentDirectory(fpath, entry.listing, tdir, split, toHtml, caser);
      if nestedExit {
        return [], [], true;
      }
      found := Discover(fpath, entry.listing, split).value;
      PresentsCollected(nested, found, tdir, toHtml, caser);
      return nested, found, false;
    }
    if IsNotMarkdown(entry.name) {
      assert pages + [] == pages;
      return [], [], false;
    }
    var v := OpenContentFile(fpath, entry.data, tdir, split, toHtml);
    if v == null || (v.front.Some? && v.front.value.draft) {
      assert pages + [] == pages;
      return [], [], false;
    }
    found := [Opened(fpath, entry.data, split).value];
    return [v], found, false;
  }

  /** Views collected for pages, one to one and in order, before the
      navigation pass of their level. */
  predicate Collected(views: seq<View>, pages: seq<MD>, tdir: string, toHtml: string -> string)
    reads set v | v in views
  {
    && |views| == |pages|
    && forall j :: 0 <= j < |views| ==>
         Shows(views[j], pages[j], tdir, toHtml) && Navigated(views[j].path, pages[j].filePath)
  }

  lemma CollectedAppend(a: seq<View>, pa: seq<MD>, b: seq<View>, pb: seq<MD>, tdir: string, toHtml: string -> string)
    requires Collected(a, pa, tdir, toHtml) && Collected(b, pb, tdir, toHtml)
    ensures Collected(a + b, pa + pb, tdir, toHtml)
  {
    forall j | 0 <= j < |a| + |b|
      ensures Shows((a + b)[j], (pa + pb)[j], tdir, toHtml) && Navigated((a + b)[j].path, (pa + pb)[j].filePath)
    {
      if j >= |a| {
        assert (a + b)[j] == b[j - |a|] && (pa + pb)[j] == pb[j - |a|];
      }
    }
  }

  /** Views a nested walk presents are collected for its pages. */
  lemma PresentsCollected(views: seq<View>, pages: seq<MD>, tdir: string, toHtml: string -> string, caser: string -> string)
    requires Presents(views, pages, tdir, toHtml, caser)
    ensures Collected(views, pages, tdir, toHtml)
  {
  }

  /** The navigation pass at the end of a level: the views show the level's
      pages, nested ones already under their navigation paths. */
  method NavigateLevel(views: seq<View>, ghost pages: seq<MD>, ghost tdir: string, ghost toHtml: string -> string,
                       caser: string -> string)
    requires Collected(views, pages, tdir, toHtml)
    modifies set v | v in views
    ensures Presents(views, pages, tdir, toHtml, caser)
  {
    ghost var before := ViewPaths(views);
    WithNavigation(views, caser);
    NavigatedLinks(before, RecordPaths(pages), caser);
  }

}
