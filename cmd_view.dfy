/** `cmd/view`: the views of the earlier server command. The content walk
    matches `cmd/build`'s, except that a file whose split fails or has no
    frontmatter keeps its raw data. The navigation pass only renames the
    home page and names only its link; there is no embedded template, so a
    page with neither its own template nor "base" is fatal. */
module CmdView {
  import opened Base
  import opened Text
  import opened Fs
  import opened Utils
  import opened Md
  import opened Nav
  import opened Walk

  /** The site name `Render` starts both titles with. */
  const Site := "Owais J."

  /** The fields of a view that the navigation pass does not touch. */
  datatype Body = Body(front: Option<Frontmatter>, content: string, htmlContent: string, htmlPage: string,
                       templateDir: string, templ: Option<Template>)

  class View {
    var path: string
    var front: Option<Frontmatter>
    var content: string
    var htmlContent: string
    var htmlPage: string
    var templateDir: string
    var templ: Option<Template>
    var links: seq<NavLink>

    /** `NewView(p, c, t)`: no frontmatter, no links yet. */
    constructor (p: string, c: string, t: string)
      ensures path == p && content == c && templateDir == t
      ensures front.None? && links == [] && htmlContent == [] && htmlPage == [] && templ.None?
    {
      path := p;
      front := None;
      content := c;
      htmlContent := [];
      htmlPage := [];
      templateDir := t;
      templ := None;
      links := [];
    }

    /** The fields other than the path and the links. */
    function Rest(): Body
      reads this
    {
      Body(front, content, htmlContent, htmlPage, templateDir, templ)
    }

    /** `name()`: the last "/"-part of the path, up to its first ".". */
    function Name(): (r: string)
      reads this
      ensures '/' !in r && '.' !in r
    {
      BaseName(path)
    }

    /** `toHTML`: the markdown renderer is library code. */
    method ToHTML(toHtml: string -> string)
      modifies this
      ensures htmlContent == toHtml(content)
      ensures Rest() == old(Rest()).(htmlContent := toHtml(content))
      ensures path == old(path) && links == old(links)
    {
      htmlContent := toHtml(content);
    }

    /** One step of the first loop of `BuildNavigation`: the home page is
        renamed "index"; the link is returned. */
    method Navigate() returns (l: NavLink)
      modifies this
      ensures path == HomedPath(old(path)) && l == HomeLink(old(path))
      ensures Rest() == old(Rest()) && links == old(links)
    {
      var p := ToLower(Name());
      var route := "/" + p;
      l := NavLink([], []);
      if p == "index" || p == "readme" {
        route := "/";
        p := "index";
        l := l.(name := "Home");
        path := p;
      }
      l := l.(path := route);
    }

    /** `getTemplate`: the page name, then "base", the first that parses;
        each failed attempt leaves the template nil, and a nil template at
        the end is fatal. */
    method GetTemplate(parses: set<string>) returns (exit: bool)
      modifies this
      ensures templ == FirstOf(parses, templateDir, BaseName(path))
      ensures exit <==> templ.None?
      ensures Rest() == old(Rest()).(templ := templ) && path == old(path) && links == old(links)
    {
      var patterns := [Name(), "base"];
      var i := 0;
      while i < |patterns|
        invariant 0 <= i <= |patterns|
        invariant i > 0 ==> templ.None? && ParseGlob(parses, TemplateFile(templateDir, patterns[0])).None?
        invariant i == 2 ==> ParseGlob(parses, TemplateFile(templateDir, patterns[1])).None?
        invariant Rest() == old(Rest()).(templ := templ) && path == old(path) && links == old(links)
      {
        templ := ParseGlob(parses, TemplateFile(templateDir, patterns[i]));
        if templ.Some? {
          return false;
        }
        i := i + 1;
      }
      exit := true;
    }

    /** `Render`: executes the template over the page context (written to
        the stream and kept as the page); a failure is fatal. */
    method Render(execute: (Template, Context) -> Option<string>) returns (out: Option<string>, exit: bool)
      requires templ.Some?
      modifies this
      ensures templ == old(templ)
      ensures out == Output(this, execute) && (exit <==> out.None?)
      ensures !exit ==> Rest() == old(Rest()).(htmlPage := out.value)
      ensures exit ==> Rest() == old(Rest())
      ensures path == old(path) && links == old(links)
    {
      var title := if front.Some? then Some(front.value.title) else None;
      var ctx := PageContext(title, Site, links, htmlContent);
      out := execute(templ.value, ctx);
      if out.None? {
        return out, true;
      }
      htmlPage := out.value;
      exit := false;
    }

    /** `Build`: renders the markdown, looks up the template (fatal when
        there is none) and renders the page (fatal when that fails). */
    method Build(toHtml: string -> string, parses: set<string>, execute: (Template, Context) -> Option<string>)
      returns (exit: bool)
      modifies this
      ensures htmlContent == toHtml(old(content)) && content == old(content) && front == old(front)
      ensures templ == FirstOf(parses, templateDir, BaseName(path))
      ensures exit <==> templ.None? || Output(this, execute).None?
      ensures !exit ==> htmlPage == Output(this, execute).value
      ensures path == old(path) && links == old(links) && templateDir == old(templateDir)
    {
      ToHTML(toHtml);
      exit := GetTemplate(parses);
      if exit {
        return;
      }
      var out;
      out, exit := Render(execute);
    }
  }

  /** What rendering a view with its template yields: the context holds
      the rendered markdown, the links and the titles under the site name. */
  function Output(v: View, execute: (Template, Context) -> Option<string>): Option<string>
    reads v
    requires v.templ.Some?
  {
    execute(v.templ.value, PageContext(if v.front.Some? then Some(v.front.value.title) else None, Site, v.links, v.htmlContent))
  }

  /** The path `BuildNavigation` leaves: "index" for the home page (named
      "index" or "readme" in any case), the path itself otherwise. */
  function HomedPath(path: string): string {
    if IsHome(Slug(path)) then "index" else path
  }

  /** The link of a page: "Home" at "/" for the home page, otherwise an
      empty name at "/" + slug. */
  function HomeLink(path: string): NavLink {
    if IsHome(Slug(path)) then NavLink("Home", "/") else NavLink("", "/" + Slug(path))
  }

  /** The links of a batch of pages, in batch order. */
  function HomeLinks(paths: seq<string>): (r: seq<NavLink>)
    ensures |r| == |paths|
    ensures forall i :: 0 <= i < |paths| ==> r[i] == HomeLink(paths[i])
  {
    seq(|paths|, i requires 0 <= i < |paths| => HomeLink(paths[i]))
  }

  /** Only the home page is renamed and only its link has a name; any
      other page keeps its path, and its link points at its slug. */
  lemma HomeRule(path: string)
    ensures HomeLink(path).name == "Home" <==> IsHome(Slug(path))
    ensures !IsHome(Slug(path)) ==> HomeLink(path).name == "" && HomedPath(path) == path
    ensures HomeLink(path).path == "/" <==> IsHome(Slug(path)) || Slug(path) == ""
  {
    var slug := Slug(path);
    if !IsHome(slug) && "/" + slug == "/" {
      assert |slug| == 0;
    }
  }

  /** The pass is idempotent: the path it gives is mapped to itself and
      has the same link, so a view visited twice ends the same. */
  lemma HomedPathIdempotent(path: string)
    ensures HomedPath(HomedPath(path)) == HomedPath(path)
    ensures HomeLink(HomedPath(path)) == HomeLink(path)
  {
    if IsHome(Slug(path)) {
      SlugOfPlain("index");
    }
  }

  /** The paths of a batch of views. */
  function ViewPaths(views: seq<View>): (r: seq<string>)
    reads set v | v in views
    ensures |r| == |views|
    ensures forall i :: 0 <= i < |views| ==> r[i] == views[i].path
  {
    seq(|views|, i requires 0 <= i < |views| reads views => views[i].path)
  }

  /** `BuildNavigation`: renames the home page, and gives every view the
      same list of links, one per view in batch order. */
  method BuildNavigation(views: seq<View>)
    modifies set v | v in views
    ensures forall i :: 0 <= i < |views| ==> views[i].path == HomedPath(old(views[i].path))
    ensures forall i :: 0 <= i < |views| ==> views[i].links == HomeLinks(old(ViewPaths(views)))
    ensures forall i :: 0 <= i < |views| ==> views[i].Rest() == old(views[i].Rest())
  {
    var links := NavigateAll(views);
    ShareLinks(views, links);
  }

  /** The first loop of `BuildNavigation`. */
  method NavigateAll(views: seq<View>) returns (links: seq<NavLink>)
    modifies set v | v in views
    ensures forall i :: 0 <= i < |views| ==> views[i].path == HomedPath(old(views[i].path))
    ensures links == HomeLinks(old(ViewPaths(views)))
    ensures forall i :: 0 <= i < |views| ==> views[i].Rest() == old(views[i].Rest())
  {
    ghost var paths := ViewPaths(views);
    ghost var rests := seq(|views|, j requires 0 <= j < |views| reads views => views[j].Rest());
    assert forall j :: 0 <= j < |views| ==> paths[j] == old(views[j].path) && rests[j] == old(views[j].Rest());
    assert Progress(views, paths, rests, 0);
    ghost var all := HomeLinks(paths);
    links := [];
    var i := 0;
    while i < |views|
      invariant 0 <= i <= |views|
      invariant links == all[..i]
      invariant Progress(views, paths, rests, i)
    {
      var l := NavigateOne(views, i, paths, rests);
      PrefixStep(all, i);
      links := links + [l];
      i := i + 1;
    }
    assert all[..i] == all;
  }

  /** Views that are the same object had the same path. */
  predicate Aliased(views: seq<View>, paths: seq<string>)
    requires |views| == |paths|
  {
    forall a, b :: 0 <= a < |views| && 0 <= b < |views| && views[a] == views[b] ==> paths[a] == paths[b]
  }

  /** The state of the navigation loop before view `i`: every view keeps
      the fields the pass leaves alone and holds its original path or the
      renamed one, the latter for the views before `i`. */
  predicate Progress(views: seq<View>, paths: seq<string>, rests: seq<Body>, i: nat)
    reads set v | v in views
  {
    && i <= |views| == |paths| == |rests|
    && Aliased(views, paths)
    && (forall j :: 0 <= j < |views| ==> views[j].Rest() == rests[j])
    && (forall j :: 0 <= j < |views| ==> views[j].path == paths[j] || views[j].path == HomedPath(paths[j]))
    && (forall j :: 0 <= j < i ==> views[j].path == HomedPath(paths[j]))
  }

  /** One iteration of the first loop of `BuildNavigation`, on view `i`. */
  method NavigateOne(views: seq<View>, i: nat, ghost paths: seq<string>, ghost rests: seq<Body>)
    returns (l: NavLink)
    requires i < |views| && Progress(views, paths, rests, i)
    modifies views[i]
    ensures Progress(views, paths, rests, i + 1)
    ensures l == HomeLink(paths[i])
  {
    var v := views[i];
    assert v.path == paths[i] || v.path == HomedPath(paths[i]);
    HomedPathIdempotent(paths[i]);
    l := v.Navigate();
    assert v.path == HomedPath(paths[i]) && v.Rest() == rests[i];
    forall j | 0 <= j < |views|
      ensures views[j].Rest() == rests[j]
      ensures views[j].path == paths[j] || views[j].path == HomedPath(paths[j])
      ensures j <= i ==> views[j].path == HomedPath(paths[j])
    {
      if views[j] == v {
        assert paths[j] == paths[i];
      } else {
        assert views[j].path == old(views[j].path) && views[j].Rest() == old(views[j].Rest());
      }
    }
  }

  /** The second loop of `BuildNavigation`: gives every view the links. */
  method ShareLinks(views: seq<View>, links: seq<NavLink>)
    modifies set v | v in views
    ensures forall i :: 0 <= i < |views| ==> views[i].links == links
    ensures forall i :: 0 <= i < |views| ==> views[i].path == old(views[i].path)
    ensures forall i :: 0 <= i < |views| ==> views[i].Rest() == old(views[i].Rest())
  {
    var i := 0;
    while i < |views|
      invariant 0 <= i <= |views|
      invariant forall j :: 0 <= j < i ==> views[j].links == links
      invariant forall j :: 0 <= j < |views| ==> views[j].path == old(views[j].path)
      invariant forall j :: 0 <= j < |views| ==> views[j].Rest() == old(views[j].Rest())
    {
      views[i].links := links;
      i := i + 1;
    }
  }

  /** Paths the pass may have seen have the links of the original paths. */
  lemma HomedLinks(ps: seq<string>, originals: seq<string>)
    requires |ps| == |originals|
    requires forall j :: 0 <= j < |ps| ==> ps[j] == originals[j] || ps[j] == HomedPath(originals[j])
    ensures HomeLinks(ps) == HomeLinks(originals)
    ensures forall j :: 0 <= j < |ps| ==> HomedPath(ps[j]) == HomedPath(originals[j])
  {
    forall j | 0 <= j < |ps|
      ensures HomeLink(ps[j]) == HomeLink(originals[j]) && HomedPath(ps[j]) == HomedPath(originals[j])
    {
      HomedPathIdempotent(originals[j]);
    }
  }

  /** The splitter as this revision uses it: a split that fails or finds no
      frontmatter counts as no split, so the raw data is kept. */
  function FrontOnly(split: string -> Option<Split>): string -> Option<Split> {
    data => if split(data).Some? && split(data).value.front.Some? then split(data) else None
  }

  /** A view showing a page record: its frontmatter and markdown, the
      rendered markdown, the template directory, and no page or template
      yet. */
  predicate Shows(v: View, m: MD, tdir: string, toHtml: string -> string)
    reads v
  {
    v.Rest() == Body(m.front, m.content, toHtml(m.content), [], tdir, None)
  }

  /** `openContentFile`: a read failure gives nil; a split that fails or
      finds no frontmatter gives a view over the raw data; otherwise a view
      over the body with the frontmatter. The markdown is rendered. */
  method OpenContentFile(p: string, data: Option<string>, t: string, split: string -> Option<Split>, toHtml: string -> string)
    returns (v: View?)
    ensures v == null <==> data.None?
    ensures v != null ==> fresh(v) && v.path == p && v.links == []
    ensures v != null ==> var s := split(data.value);
      if s.Some? && s.value.front.Some? then v.front == s.value.front && v.content == s.value.body
      else v.front.None? && v.content == data.value
    ensures v != null ==> Shows(v, Opened(p, data, FrontOnly(split)).value, t, toHtml)
  {
    if data.None? {
      return null;
    }
    var s := split(data.value);
    if s.None? {
      v := new View(p, data.value, t);
      v.ToHTML(toHtml);
      return v;
    }
    if s.value.front.None? {
      v := new View(p, data.value, t);
      v.ToHTML(toHtml);
      return v;
    }
    v := new View(p, s.value.body, t);
    v.front := s.value.front;
    v.ToHTML(toHtml);
  }

  /** The views show the pages one to one and in order, the home page
      renamed, each with the links of the whole batch. */
  predicate Presents(views: seq<View>, pages: seq<MD>, tdir: string, toHtml: string -> string)
    reads set v | v in views
  {
    && |views| == |pages|
    && (forall i :: 0 <= i < |views| ==> Shows(views[i], pages[i], tdir, toHtml))
    && (forall i :: 0 <= i < |views| ==> views[i].path == HomedPath(pages[i].filePath))
    && (forall i :: 0 <= i < |views| ==> views[i].links == HomeLinks(RecordPaths(pages)))
  }

  /** `readContentDirectory(dir, tdir)` (and `NewViews`, which only calls
      it): a directory that cannot be listed is fatal; entries are read in
      order, subdirectories recursively; files that are not markdown, cannot
      be read or are drafts are skipped; the navigation pass runs over the
      views collected at this level, nested ones included. */
  method ReadContentDirectory(dir: string, l: Listing, tdir: string, split: string -> Option<Split>, toHtml: string -> string)
    returns (views: seq<View>, exit: bool)
    ensures exit <==> Discover(dir, l, FrontOnly(split)).None?
    ensures !exit ==> Presents(views, Discover(dir, l, FrontOnly(split)).value, tdir, toHtml)
    ensures forall i :: 0 <= i < |views| ==> fresh(views[i])
    decreases l, 1
  {
    if !l.Entries? {
      return [], true;
    }
    var es := l.entries;
    views := [];
    ghost var pages: seq<MD> := [];
    var i := 0;
    while i < |es|
      invariant 0 <= i <= |es|
      invariant DiscoverEntries(dir, l, i, FrontOnly(split)) == Some(pages)
      invariant forall j :: 0 <= j < |views| ==> fresh(views[j])
      invariant Collected(views, pages, tdir, toHtml)
    {
      var more, found, stop := EntryViews(dir, l, i, pages, tdir, split, toHtml);
      if stop {
        ExitSticks(dir, l, i + 1, |es|, FrontOnly(split));
        return [], true;
      }
      CollectedAppend(views, pages, more, found, tdir, toHtml);
      views := views + more;
      pages := pages + found;
      i := i + 1;
    }
    assert pages == Discover(dir, l, FrontOnly(split)).value;
    NavigateLevel(views, pages, tdir, toHtml);
    exit := false;
  }

  /** One iteration of the walk, on entry `i`: the views it adds (a
      subdirectory's, recursively, or at most one for a file), or an exit. */
  method EntryViews(dir: string, l: Listing, i: nat, ghost pages: seq<MD>, tdir: string, split: string -> Option<Split>,
                    toHtml: string -> string)
    returns (more: seq<View>, ghost found: seq<MD>, exit: bool)
    requires l.Entries? && i < |l.entries|
    requires DiscoverEntries(dir, l, i, FrontOnly(split)) == Some(pages)
    ensures exit <==> DiscoverEntries(dir, l, i + 1, FrontOnly(split)).None?
    ensures !exit ==> DiscoverEntries(dir, l, i + 1, FrontOnly(split)) == Some(pages + found)
    ensures !exit ==> Collected(more, found, tdir, toHtml)
    ensures forall j :: 0 <= j < |more| ==> fresh(more[j])
    decreases l, 0
  {
    var entry := l.entries[i];
    assert entry in l.entries;
    var fpath := Join(dir, entry.name);
    if entry.Dir? {
      var nested, nestedExit := ReadContentDirectory(fpath, entry.listing, tdir, split, toHtml);
      if nestedExit {
        return [], [], true;
      }
      found := Discover(fpath, entry.listing, FrontOnly(split)).value;
      return nested, found, false;
    }
    if IsNotMarkdown(entry.name) {
      assert pages + [] == pages;
      return [], [], false;
    }
    var v := OpenContentFile(fpath, entry.data, tdir, split, toHtml);
    if v == null || (v.front.Some? && v.front.value.draft) {
      assert pages + [] == pages;
      return [], [], false;
    }
    found := [Opened(fpath, entry.data, FrontOnly(split)).value];
    return [v], found, false;
  }

  /** Views collected for pages, one to one and in order, before the
      navigation pass of their level. */
  predicate Collected(views: seq<View>, pages: seq<MD>, tdir: string, toHtml: string -> string)
    reads set v | v in views
  {
    && |views| == |pages|
    && forall j :: 0 <= j < |views| ==>
         && Shows(views[j], pages[j], tdir, toHtml)
         && (views[j].path == pages[j].filePath || views[j].path == HomedPath(pages[j].filePath))
  }

  lemma CollectedAppend(a: seq<View>, pa: seq<MD>, b: seq<View>, pb: seq<MD>, tdir: string, toHtml: string -> string)
    requires Collected(a, pa, tdir, toHtml) && Collected(b, pb, tdir, toHtml)
    ensures Collected(a + b, pa + pb, tdir, toHtml)
  {
    forall j | |a| <= j < |a| + |b|
      ensures (a + b)[j] == b[j - |a|] && (pa + pb)[j] == pb[j - |a|]
    {
    }
  }

  /** The navigation pass at the end of a level. */
  method NavigateLevel(views: seq<View>, ghost pages: seq<MD>, ghost tdir: string, ghost toHtml: string -> string)
    requires Collected(views, pages, tdir, toHtml)
    modifies set v | v in views
    ensures Presents(views, pages, tdir, toHtml)
  {
    ghost var before := ViewPaths(views);
    BuildNavigation(views);
    HomedLinks(before, RecordPaths(pages));
  }
}
