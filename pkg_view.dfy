/** `pkg/view`: the simplest revision of the views. A view holds the raw
    file data (no frontmatter is split off), there is no draft filter and
    no navigation pass, and the page context has the single key
    "contents". */
module PkgView {
  import opened Base
  import opened Fs
  import opened Utils
  import opened Md
  import opened Nav
  import opened Walk

  /** The template context: named values, here only "contents". */
  type Context = map<string, string>

  class View {
    var path: string
    var content: string
    var html: string
    var templateDir: string
    var templ: Option<Template>

    /** The struct literal `View{p, data, []byte{}, t, nil}`. */
    constructor (p: string, data: string, t: string)
      ensures path == p && content == data && html == [] && templateDir == t && templ.None?
    {
      path := p;
      content := data;
      html := [];
      templateDir := t;
      templ := None;
    }

    /** `name()`: the last "/"-part of the path, up to its first ".". */
    function Name(): (r: string)
      reads this
      ensures '/' !in r && '.' !in r
    {
      BaseName(path)
    }

    /** `toHTML`: the markdown renderer is library code. */
    method ToHTML(toHtml: string -> string)
      modifies this
      ensures html == toHtml(content)
      ensures path == old(path) && content == old(content) && templateDir == old(templateDir) && templ == old(templ)
    {
      html := toHtml(content);
    }

    /** `getTemplate`: the page name, then "base", the first that parses;
        each failed attempt leaves the template nil, and a nil template at
        the end is fatal. */
    method GetTemplate(parses: set<string>) returns (exit: bool)
      modifies this
      ensures templ == FirstOf(parses, templateDir, BaseName(path))
      ensures exit <==> templ.None?
      ensures path == old(path) && content == old(content) && html == old(html) && templateDir == old(templateDir)
    {
      var patterns := [Name(), "base"];
      var i := 0;
      while i < |patterns|
        invariant 0 <= i <= |patterns|
        invariant i > 0 ==> templ.None? && ParseGlob(parses, TemplateFile(templateDir, patterns[0])).None?
        invariant i == 2 ==> ParseGlob(parses, TemplateFile(templateDir, patterns[1])).None?
        invariant path == old(path) && content == old(content) && html == old(html) && templateDir == old(templateDir)
      {
        templ := ParseGlob(parses, TemplateFile(templateDir, patterns[i]));
        if templ.Some? {
          return false;
        }
        i := i + 1;
      }
      exit := true;
    }

    /** `Build`: renders the markdown and looks up the template. */
    method Build(toHtml: string -> string, parses: set<string>) returns (exit: bool)
      modifies this
      ensures html == toHtml(content)
      ensures templ == FirstOf(parses, templateDir, BaseName(path))
      ensures exit <==> templ.None?
      ensures path == old(path) && content == old(content) && templateDir == old(templateDir)
    {
      ToHTML(toHtml);
      exit := GetTemplate(parses);
    }

    /** `Render`: builds the view, then executes the template over a context
        whose only key is "contents", the rendered markdown; the error of
        the execution is dropped, and the context is returned. A failed
        execution is `written == None`: whatever partial output Go's
        `Execute` already wrote to the response is not represented. */
    method Render(toHtml: string -> string, parses: set<string>, execute: (Template, Context) -> Option<string>)
      returns (ctx: Context, written: Option<string>, exit: bool)
      modifies this
      ensures templ == FirstOf(parses, templateDir, BaseName(path)) && (exit <==> templ.None?)
      ensures !exit ==> ctx.Keys == {"contents"} && ctx["contents"] == toHtml(content)
      ensures !exit ==> written == execute(templ.value, ctx)
      ensures html == toHtml(content)
      ensures path == old(path) && content == old(content) && templateDir == old(templateDir)
    {
      exit := Build(toHtml, parses);
      if exit {
        return map[], None, true;
      }
      ctx := map["contents" := html];
      written := execute(templ.value, ctx);
    }
  }

  /** This revision never splits: every file is its raw data with no
      frontmatter, so no page is a draft. */
  function Raw(): string -> Option<Split> {
    data => None
  }

  /** A view showing a page record: its path, the raw data, the rendered
      markdown, the template directory, and no template yet. */
  predicate Shows(v: View, m: MD, tdir: string, toHtml: string -> string)
    reads v
  {
    && v.path == m.filePath && v.content == m.content && v.html == toHtml(m.content)
    && v.templateDir == tdir && v.templ.None?
  }

  /** `openFile`: a read failure gives nil, otherwise a view over the raw
      data with the markdown rendered. */
  method OpenFile(p: string, data: Option<string>, t: string, toHtml: string -> string) returns (v: View?)
    ensures v == null <==> data.None?
    ensures v != null ==> fresh(v) && Shows(v, Opened(p, data, Raw()).value, t, toHtml)
    ensures v != null ==> v.content == data.value
  {
    if data.None? {
      return null;
    }
    v := new View(p, data.value, t);
    v.ToHTML(toHtml);
  }

  /** The views show the pages one to one and in order. */
  predicate Presents(views: seq<View>, pages: seq<MD>, tdir: string, toHtml: string -> string)
    reads set v | v in views
  {
    && |views| == |pages|
    && forall i :: 0 <= i < |views| ==> Shows(views[i], pages[i], tdir, toHtml)
  }

  lemma PresentsAppend(a: seq<View>, pa: seq<MD>, b: seq<View>, pb: seq<MD>, tdir: string, toHtml: string -> string)
    requires Presents(a, pa, tdir, toHtml) && Presents(b, pb, tdir, toHtml)
    ensures Presents(a + b, pa + pb, tdir, toHtml)
  {
    forall j | |a| <= j < |a| + |b|
      ensures (a + b)[j] == b[j - |a|] && (pa + pb)[j] == pb[j - |a|]
    {
    }
  }

  /** `ReadContentDirectory(dir, tdir)`: a directory that cannot be listed
      is fatal; entries are read in order, subdirectories recursively;
      files that are not markdown or cannot be read are skipped. */
  method ReadContentDirectory(dir: string, l: Listing, tdir: string, toHtml: string -> string)
    returns (views: seq<View>, exit: bool)
    ensures exit <==> Discover(dir, l, Raw()).None?
    ensures !exit ==> Presents(views, Discover(dir, l, Raw()).value, tdir, toHtml)
    ensures forall i :: 0 <= i < |views| ==> fresh(views[i])
    decreases l, 1
  {
    if !l.Entries? {
      return [], true;
    }
    var es := l.entries;
    views := [];
    ghost var pages: seq<MD> := [];
    var i := 0;
    while i < |es|
      invariant 0 <= i <= |es|
      invariant DiscoverEntries(dir, l, i, Raw()) == Some(pages)
      invariant forall j :: 0 <= j < |views| ==> fresh(views[j])
      invariant Presents(views, pages, tdir, toHtml)
    {
      var more, found, stop := EntryViews(dir, l, i, pages, tdir, toHtml);
      if stop {
        ExitSticks(dir, l, i + 1, |es|, Raw());
        return [], true;
      }
      PresentsAppend(views, pages, more, found, tdir, toHtml);
      views := views + more;
      pages := pages + found;
      i := i + 1;
    }
    exit := false;
  }

  /** One iteration of the walk, on entry `i`. */
  method EntryViews(dir: string, l: Listing, i: nat, ghost pages: seq<MD>, tdir: string, toHtml: string -> string)
    returns (more: seq<View>, ghost found: seq<MD>, exit: bool)
    requires l.Entries? && i < |l.entries|
    requires DiscoverEntries(dir, l, i, Raw()) == Some(pages)
    ensures exit <==> DiscoverEntries(dir, l, i + 1, Raw()).None?
    ensures !exit ==> DiscoverEntries(dir, l, i + 1, Raw()) == Some(pages + found)
    ensures !exit ==> Presents(more, found, tdir, toHtml)
    ensures forall j :: 0 <= j < |more| ==> fresh(more[j])
    decreases l, 0
  {
    var entry := l.entries[i];
    assert entry in l.entries;
    var fpath := Join(dir, entry.name);
    if entry.Dir? {
      var nested, nestedExit := ReadContentDirectory(fpath, entry.listing, tdir, toHtml);
      if nestedExit {
        return [], [], true;
      }
      found := Discover(fpath, entry.listing, Raw()).value;
      return nested, found, false;
    }
    if IsNotMarkdown(entry.name) {
      assert pages + [] == pages;
      return [], [], false;
    }
    var v := OpenFile(fpath, entry.data, tdir, toHtml);
    if v == null {
      assert pages + [] == pages;
      return [], [], false;
    }
    found := [Opened(fpath, entry.data, Raw()).value];
    return [v], found, false;
  }
}
