/** `internal/view`: the views built over the page records of `internal/md`,
    their navigation, template choice, rendering and output. */
module InternalView {
  import opened Base
  import opened Fs
  import opened Md
  import opened Nav

  /** A page being built. The navigation pass sets `path` and `links`,
      the template lookup `templ`, the output step `html`. */
  class View {
    var path: string
    var markdown: MD
    var html: string
    var templateDir: string
    var templ: Option<Template>
    var links: seq<NavLink>

    /** `&View{Path: m.FilePath, Markdown: m}`: every other field keeps
        its zero value (the template directory included). */
    constructor (m: MD)
      ensures path == m.filePath && markdown == m
      ensures html == [] && templateDir == [] && templ.None? && links == []
    {
      path := m.filePath;
      markdown := m;
      html := [];
      templateDir := [];
      templ := None;
      links := [];
    }

    /** `GetTemplate`. The lookup chain runs only when reading the template
        directory FAILS; the layout lookup and the name lookup are then
        overwritten by the "base" lookup that follows them. A nil template
        is replaced by the embedded default, whose parse resets the error,
        so the error returned is always nil. */
    method GetTemplate(dirReadable: bool, parses: set<string>) returns (err: Option<string>)
      modifies this
      ensures templ == Some(ChosenTemplate(dirReadable, old(templ), parses, templateDir))
      ensures err.None?
      ensures path == old(path) && markdown == old(markdown) && html == old(html)
      ensures templateDir == old(templateDir) && links == old(links)
    {
      err := if dirReadable then None else Some("open " + templateDir);
      if !dirReadable {
        if markdown.front.Some? && markdown.front.value.layout != [] {
          templ := ParseGlob(parses, TemplateFile(templateDir, markdown.front.value.layout));
          err := if templ.None? then Some("layout " + markdown.front.value.layout) else None;
        }
        var patterns := [BaseName(markdown.filePath), "base"];
        var i := 0;
        while i < |patterns|
          invariant 0 <= i <= |patterns|
          invariant i > 0 ==> templ == ParseGlob(parses, TemplateFile(templateDir, patterns[i - 1]))
          invariant i > 0 ==> (err.None? <==> templ.Some?)
          invariant path == old(path) && markdown == old(markdown) && html == old(html)
          invariant templateDir == old(templateDir) && links == old(links)
        {
          templ := ParseGlob(parses, TemplateFile(templateDir, patterns[i]));
          err := if templ.None? then Some("glob " + patterns[i]) else None;
          i := i + 1;
        }
      }
      if templ.None? {
        templ, err := Some(Embedded), None;
      }
    }

    /** `Render`: executes the template over the page context, whose titles
        follow the "title | site" rule. */
    method Render(site: string, toHtml: string -> string, execute: (Template, Context) -> Option<string>)
      returns (out: Option<string>)
      requires templ.Some?
      ensures out == execute(templ.value, PageContext(TitleOf(markdown.front), site, links, toHtml(markdown.content)))
    {
      var title := if markdown.front.Some? then Some(markdown.front.value.title) else None;
      var ctx := PageContext(title, site, links, toHtml(markdown.content));
      out := execute(templ.value, ctx);
    }

    /** `BuildHTMLFileContents`: creates `buildDir/path.html`, looks up the
        template, renders, keeps the page and writes it. A create failure
        returns the view's path and the error; a render or write failure
        returns "" and the error; otherwise the page's route. */
    method BuildHTMLFileContents(buildDir: string, canCreate: bool, dirReadable: bool, parses: set<string>,
                                 site: string, toHtml: string -> string, execute: (Template, Context) -> Option<string>,
                                 writeOk: bool)
      returns (route: string, err: Option<BuildError>)
      modifies this
      ensures !canCreate ==> route == old(path) && err == Some(CreateFailed(OutputFile(buildDir, old(path))))
      ensures !canCreate ==> templ == old(templ) && html == old(html)
      ensures canCreate ==> templ == Some(ChosenTemplate(dirReadable, old(templ), parses, templateDir))
      ensures canCreate && Output(this, site, toHtml, execute).None? ==> route == [] && err == Some(RenderFailed(BaseName(markdown.filePath)))
      ensures canCreate && Output(this, site, toHtml, execute).None? ==> html == old(html)
      ensures canCreate && Output(this, site, toHtml, execute).Some? ==> html == Output(this, site, toHtml, execute).value
      ensures canCreate && Output(this, site, toHtml, execute).Some? && !writeOk ==> route == [] && err == Some(WriteFailed(BaseName(markdown.filePath)))
      ensures canCreate && Output(this, site, toHtml, execute).Some? && writeOk ==> route == PageRoute(path) && err.None?
      ensures path == old(path) && markdown == old(markdown) && links == old(links) && templateDir == old(templateDir)
    {
      var file := OutputFile(buildDir, path);
      if !canCreate {
        return path, Some(CreateFailed(file));
      }
      var _ := GetTemplate(dirReadable, parses);
      var out := Render(site, toHtml, execute);
      if out.None? {
        return [], Some(RenderFailed(BaseName(markdown.filePath)));
      }
      html := out.value;
      if !writeOk {
        return [], Some(WriteFailed(BaseName(markdown.filePath)));
      }
      route := if path == "index" then "/" else "/" + path;
      err := None;
    }
    /** One step of the navigation loop: the view's path becomes its
        navigation path, and its link is returned. */
    method Navigate(caser: string -> string) returns (l: NavLink)
      modifies this
      ensures path == NavPath(markdown.filePath) && l == Link(markdown.filePath, caser)
      ensures markdown == old(markdown) && html == old(html) && templ == old(templ)
      ensures templateDir == old(templateDir) && links == old(links)
    {
      var slug := Slug(markdown.filePath);
      var route := "/" + slug;
      l := NavLink(caser(slug), []);
      var p := slug;
      if slug == "index" || slug == "readme" {
        route := "/";
        p := "index";
        l := l.(name := "Home");
      }
      path := p;
      l := l.(path := route);
    }
  }

  /** The errors of the output step. */
  datatype BuildError = CreateFailed(file: string) | RenderFailed(name: string) | WriteFailed(name: string)

  function TitleOf(front: Option<Frontmatter>): Option<string> {
    if front.Some? then Some(front.value.title) else None
  }

  /** What rendering a view with a template yields. */
  function Output(v: View, site: string, toHtml: string -> string, execute: (Template, Context) -> Option<string>): Option<string>
    reads v
    requires v.templ.Some?
  {
    execute(v.templ.value, PageContext(TitleOf(v.markdown.front), site, v.links, toHtml(v.markdown.content)))
  }

  /** The template `GetTemplate` leaves: when the directory cannot be read,
      "dir/base.html" if it parses; when it can, the template already set;
      the embedded default when that is nil. The frontmatter layout and the
      page name never decide it. */
  function ChosenTemplate(dirReadable: bool, current: Option<Template>, parses: set<string>, dir: string): Template {
    var found := if dirReadable then current else ParseGlob(parses, TemplateFile(dir, "base"));
    if found.Some? then found.value else Embedded
  }

  /** The file paths of a batch of views. */
  function FilePaths(views: seq<View>): (r: seq<string>)
    reads set v | v in views
    ensures |r| == |views|
    ensures forall i :: 0 <= i < |views| ==> r[i] == views[i].markdown.filePath
  {
    seq(|views|, i requires 0 <= i < |views| reads views => views[i].markdown.filePath)
  }

  /** `WithNavigation`: gives each view its navigation path and every view
      the same list of links, one per view in batch order. */
  method WithNavigation(views: seq<View>, caser: string -> string)
    modifies set v | v in views
    ensures forall i :: 0 <= i < |views| ==> Kept(views[i], old(views[i].markdown), old(views[i].html), old(views[i].templ), old(views[i].templateDir))
    ensures forall i :: 0 <= i < |views| ==> views[i].path == NavPath(views[i].markdown.filePath)
    ensures forall i :: 0 <= i < |views| ==> views[i].links == Links(FilePaths(views), caser)
  {
    var links := NavigateAll(views, caser);
    ShareLinks(views, links);
  }

  /** The first loop of `WithNavigation`: sets each view's path and collects
      the links. */
  method NavigateAll(views: seq<View>, caser: string -> string) returns (links: seq<NavLink>)
    modifies set v | v in views
    ensures forall i :: 0 <= i < |views| ==> Kept(views[i], old(views[i].markdown), old(views[i].html), old(views[i].templ), old(views[i].templateDir))
    ensures forall i :: 0 <= i < |views| ==> views[i].path == NavPath(views[i].markdown.filePath)
    ensures links == Links(FilePaths(views), caser)
  {
    ghost var md := seq(|views|, j requires 0 <= j < |views| reads views => views[j].markdown);
    ghost var html := seq(|views|, j requires 0 <= j < |views| reads views => views[j].html);
    ghost var templ := seq(|views|, j requires 0 <= j < |views| reads views => views[j].templ);
    ghost var dirs := seq(|views|, j requires 0 <= j < |views| reads views => views[j].templateDir);
    ghost var all := Links(FilePaths(views), caser);
    links := [];
    var i := 0;
    while i < |views|
      invariant 0 <= i <= |views|
      invariant links == all[..i]
      invariant Progress(views, md, html, templ, dirs, i)
    {
      var l := NavigateOne(views, i, md, html, templ, dirs, caser);
      PrefixStep(all, i);
      links := links + [l];
      i := i + 1;
    }
    assert all[..i] == all;
  }

  /** The state of the navigation loop before view `i`: every view keeps
      the fields the pass leaves alone, and the views before `i` have their
      navigation path. */
  predicate Progress(views: seq<View>, md: seq<MD>, html: seq<string>, templ: seq<Option<Template>>,
                     dirs: seq<string>, i: nat)
    reads set v | v in views
  {
    && i <= |views| == |md| == |html| == |templ| == |dirs|
    && (forall j :: 0 <= j < |views| ==> Kept(views[j], md[j], html[j], templ[j], dirs[j]))
    && (forall j :: 0 <= j < i ==> views[j].path == NavPath(md[j].filePath))
  }

  /** One iteration of the first loop of `WithNavigation`, on view `i`. */
  method NavigateOne(views: seq<View>, i: nat, ghost md: seq<MD>, ghost html: seq<string>,
                     ghost templ: seq<Option<Template>>, ghost dirs: seq<string>, caser: string -> string)
    returns (l: NavLink)
    requires i < |views| && Progress(views, md, html, templ, dirs, i)
    modifies views[i]
    ensures Progress(views, md, html, templ, dirs, i + 1)
    ensures l == Link(md[i].filePath, caser)
  {
    l := views[i].Navigate(caser);
    forall j | 0 <= j < |views|
      ensures Kept(views[j], md[j], html[j], templ[j], dirs[j])
      ensures j <= i ==> views[j].path == NavPath(md[j].filePath)
    {
      if views[j] == views[i] {
        assert md[j] == md[i];
      }
    }
  }

  /** The second loop of `WithNavigation`: gives every view the links. */
  method ShareLinks(views: seq<View>, links: seq<NavLink>)
    modifies set v | v in views
    ensures forall i :: 0 <= i < |views| ==> views[i].links == links
    ensures forall i :: 0 <= i < |views| ==> views[i].path == old(views[i].path)
    ensures forall i :: 0 <= i < |views| ==> Kept(views[i], old(views[i].markdown), old(views[i].html), old(views[i].templ), old(views[i].templateDir))
  {
    var i := 0;
    while i < |views|
      invariant 0 <= i <= |views|
      invariant forall j :: 0 <= j < i ==> views[j].links == links
      invariant forall j :: 0 <= j < |views| ==> views[j].path == old(views[j].path)
      invariant forall j :: 0 <= j < |views| ==> Kept(views[j], old(views[j].markdown), old(views[j].html), old(views[j].templ), old(views[j].templateDir))
    {
      views[i].links := links;
      i := i + 1;
    }
  }

  /** The fields the navigation pass leaves alone still hold these values. */
  predicate Kept(v: View, markdown: MD, html: string, templ: Option<Template>, templateDir: string)
    reads v
  {
    v.markdown == markdown && v.html == html && v.templ == templ && v.templateDir == templateDir
  }

  /** One fresh view per record, in order. */
  method MakeViews(files: seq<MD>) returns (views: seq<View>)
    ensures |views| == |files|
    ensures forall i :: 0 <= i < |views| ==> fresh(views[i]) && views[i].markdown == files[i]
  {
    views := [];
    var i := 0;
    while i < |files|
      invariant 0 <= i <= |files|
      invariant |views| == i
      invariant forall j :: 0 <= j < i ==> fresh(views[j]) && views[j].markdown == files[j]
    {
      var v := new View(files[i]);
      views := views + [v];
      i := i + 1;
    }
  }

  /** `NewViews`: one view per page record, in walk order, with navigation;
      when the walk reports an error, no views at all (even the sample
      page the walk returns with a missing content directory is dropped). */
  method NewViews(contentDir: string, listing: Listing, sample: string, dec: Decoders, caser: string -> string)
    returns (views: seq<View>, err: Option<MdError>)
    ensures var walked := Collect(contentDir, listing, sample, SplitterOf(dec));
      && err == walked.err
      && (err.Some? ==> views == [])
      && (err.None? ==> |views| == |walked.files|)
      && (err.None? ==> forall i :: 0 <= i < |views| ==> views[i].markdown == walked.files[i])
      && (err.None? ==> forall i :: 0 <= i < |views| ==> views[i].path == NavPath(walked.files[i].filePath))
      && (err.None? ==> forall i :: 0 <= i < |views| ==> views[i].links == Links(RecordPaths(walked.files), caser))
    ensures forall i :: 0 <= i < |views| ==> fresh(views[i])
  {
    var files;
    files, err := ReadContentDirectory(contentDir, listing, sample, dec);
    if err.Some? {
      return [], err;
    }
    views := MakeViews(files);
    WithNavigation(views, caser);
    assert FilePaths(views) == RecordPaths(files);
  }
}
