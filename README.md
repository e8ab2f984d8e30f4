# documango core, modelled in Dafny

documango is a static-site generator. It walks a content directory of
markdown files and splits each file into TOML or YAML frontmatter and a body.
It renders every page into an HTML template with a navigation bar of all
pages, and writes the pages to a build directory. Its development servers
serve those pages, watch the source directories and rebuild on change. The
repository holds several revisions of this pipeline side by side, and the
model keeps them apart:

- `internal/md` + `internal/view`: the frontmatter splitter for both syntaxes,
  the content walk that skips drafts, and views that share one navigation
  list (modules `Md`, `InternalView`).
- `cmd/build/view.go` and `cmd/view/view.go`: the views of the `cmd` tree.
  Their splitter and markdown renderer are parameters (modules `BuildView`,
  `CmdView`, over the walk in `Walk`).
- `pkg/view`: the raw-page views, the TOML-only splitter in `pkg/view/front.go`
  and the theme stack (modules `PkgView`, `PkgFront`, `Theme`).
- `pkg/server/server.go` and `cmd/server/server.go`: the two development
  servers (modules `PkgServer`, `CmdServer`). Both have a watcher that maps a
  file-system event to at most one pending reload request (module `Watch`).
- `libs/logs.go`, `internal/utils/utils.go` and `cmd/libs/libs.go`: log
  levels, the markdown-name test and the error JSON body (modules `Logs`,
  `Utils`).

Shared modules:

- `Text`: ASCII trimming, lower-casing, path segments and decimal
  formatting.
- `Lines`: `bufio.Reader.ReadString('\n')` over a byte buffer, and the fence
  routing that both splitters share.
- `Nav`: page slugs, navigation links, titles, template lookup and page
  serving.
- `Fs`: the directory tree.
- `Http`: handlers, muxes and the server value.

Views are classes whose fields the methods update in place, as the Go
methods update their struct fields. The loops over views are `while` loops
proved against specification functions (`Links`, `HomeLinks`, `Discover`,
`Collect`, `DocRoutes`). The splitters are methods with a `while` loop over
`ReadString`, proved equal to a recursive function, `Pending`. That function
is characterised by lemmas: the first fence closes the metadata, every other
fence line is dropped, and a document built as opener + metadata + closer +
rest splits back into its parts.

The collaborators that the code calls are parameters of the model:

- TOML and YAML decoding;
- markdown-to-HTML rendering;
- the title caser;
- template parsing and execution;
- `json.Marshal`.

The file system is an immutable `Listing` value. File contents, and whether a
create, a write or a directory read succeeds, are given as inputs.

Behaviour of the code that a reader might not expect, which the model keeps
as written:

- In `pkg/server`, the route of a document is "/" + its whole lower-cased
  path. So only a bare "index" or "readme" path is served at "/"
  (`PkgServer.DocRouteRule`).
- Both `GetTemplate` of `internal/view` and `getTemplate` of `cmd/build`
  look up templates only when the template directory can NOT be read, and
  keep the current template otherwise. The model keeps this guard as written
  (`InternalView.ChosenTemplate`, `BuildView.ChosenTemplate`).
- In both, the frontmatter `layout` lookup is overwritten by the lookups
  that follow it, so the layout never decides the template. In
  `internal/view` the loop over the page's name and "base" does not stop at
  the first hit, so only "base" decides. In `cmd/build` the loop stops at
  the first template that parses.
- In `cmd/view`, a file without frontmatter is kept with its raw data as the
  body (`CmdView.FrontOnly`).
- The splitters do not stop at the closing fence. Every later line that
  starts with a fence is dropped from the body too
  (`Lines.NonFencesKeepsNoFence`).
- The reload loop of `listen` is not tied to the watcher. When the
  watcher stops on a closed channel or an error, a pending reload is still
  carried out (`Watch.DrainServes`).
- In `cmd/server`, a route's handler is a method value with a value
  receiver, so it serves a copy of the view taken when the route was
  registered (`CmdServer.ViewRoutes`).
- In `internal/md`, a missing content directory is not fatal: the walk
  returns the embedded sample page together with an error, and a missing
  subdirectory contributes that sample page to its parent
  (`Md.CollectFails`).

## Model

| member | source | states |
|---|---|---|
| Text.TrimLeft | internal/md/md.go:45-46 | the result is a suffix of the input that does not start with white space |
| Text.TrimLeftDropsSpace | internal/md/md.go:45-46 | everything trimmed off the front is white space |
| Text.TrimRight | internal/md/md.go:86-90 | the result is a prefix of the input that does not end with white space |
| Text.TrimRightDropsSpace | internal/md/md.go:86-90 | everything trimmed off the back is white space |
| Text.TrimSpace | internal/md/md.go:45-46 | the trimmed string neither starts nor ends with white space |
| Text.TrimSpaceIsInfix | internal/md/md.go:45-46 | the trimmed string is an infix of the input with only white space around it |
| Text.TrimSpaceIdempotent | internal/md/md.go:86-90 | trimming twice is trimming once |
| Text.TrimSpaceOfTrimmed | internal/md/md.go:86-90 | a string with non-space ends is unchanged by trimming |
| Text.TrimSpaceOfBlank | internal/md/md.go:86-90 | an all-blank string trims to empty |
| Text.HasPrefixTrans | internal/md/md.go:45-46 | prefix-of is transitive |
| Text.ToLower | pkg/server/server.go:191 | lower-casing keeps the length and maps each character through the ASCII lower-case map |
| Text.ToLowerIdempotent | pkg/server/server.go:191 | a lower-cased string has no upper-case letter and lower-casing it again changes nothing |
| Text.LastSegment | internal/utils/utils.go:39-42 | the last segment after a separator contains no separator |
| Text.LastSegmentIsSuffix | internal/utils/utils.go:39-42 | the last segment is a suffix of the input, preceded by the separator when shorter |
| Text.FirstSegment | cmd/build/view.go:282-286 | the first segment before a separator contains no separator |
| Text.FirstSegmentIsPrefix | cmd/build/view.go:282-286 | the first segment is a prefix of the input, followed by the separator when shorter |
| Text.SegmentsOfPlain | cmd/build/view.go:282-286 | a string without the separator is its own first and last segment |
| Text.LastSegmentOfPlain | cmd/build/view.go:282-286 | a string without the separator is its own last segment |
| Text.FirstSegmentOfPlain | cmd/build/view.go:282-286 | a string without the separator is its own first segment |
| Text.LastSegmentOfJoin | internal/utils/utils.go:39-42 | the last segment of dir + separator + name is the name |
| Text.ConcatAppend | internal/md/md.go:71-75 | concatenation distributes over sequence append |
| Text.NatToString | pkg/server/server.go:338-340 | the decimal form is non-empty, all digits, without a leading zero |
| Text.NatToStringRoundTrip | pkg/server/server.go:338-340 | parsing the decimal form gives the number back |
| Text.IntToStringRoundTrip | pkg/server/server.go:338-340 | an integer's decimal form (with its sign) parses back to the integer |
| Lines.LineEnd | internal/md/md.go:56 | the next read ends just after the first newline from the position, or at the end of the buffer |
| Lines.LineEndIsFirst | internal/md/md.go:56 | no newline lies inside a line before its terminating one |
| Lines.ReadString | internal/md/md.go:40-43 | a read returns the bytes up to and including the next newline; it reports end of input exactly when no newline ends the line |
| Lines.ReadAll | internal/md/md.go:55-79 | reading repeatedly until end of input yields at least one line |
| Lines.ReadAllCoversRest | internal/md/md.go:55-79 | the lines read from a position concatenate to the rest of the buffer |
| Lines.ReadAllShape | internal/md/md.go:55-79 | every line read except the last ends in a newline, and the last does not |
| Lines.ReadAllShift | internal/md/md.go:55-79 | reading from an offset into a buffer is reading its suffix |
| Lines.ReadAllAppend | internal/md/md.go:55-79 | reading a + b splits into a's full lines, then the lines of b with a's unterminated tail prefixed |
| Lines.ReadAllOfLine | internal/md/md.go:55-79 | a single newline-terminated line reads as that line followed by an empty final read |
| Lines.ReadAllAfterLines | internal/md/md.go:55-79 | reading complete lines followed by a rest yields those lines and then the rest's lines |
| Lines.NotFenceByFirst | internal/md/md.go:45-46 | a line whose first non-blank character is not a fence character is not a fence |
| Lines.FenceLine | internal/md/md.go:45-46 | a fence marker followed by a newline is a complete line and a fence |
| Lines.FirstFence | internal/md/md.go:61-69 | the index of the first fence line is within bounds |
| Lines.FirstFenceIsFirst | internal/md/md.go:61-69 | no line before that index is a fence, and the line at it is one when it is in range |
| Lines.FirstFenceAt | internal/md/md.go:61-69 | a fence line with no fence before it is the first fence |
| Lines.NonFences | internal/md/md.go:61-69 | dropping fence lines never lengthens the list |
| Lines.NonFencesOfFenceFree | internal/md/md.go:61-69 | a list without fences is kept whole |
| Lines.NonFencesKeepsNoFence | internal/md/md.go:61-69 | a line survives exactly when it was in the list and is not a fence |
| Lines.Route | internal/md/md.go:71-75 | lines after the metadata never go to the metadata buffer |
| Lines.RouteOutside | internal/md/md.go:71-75 | outside the metadata, every non-fence line goes to the body in order |
| Lines.RouteInside | internal/md/md.go:61-75 | inside the metadata, the lines before the first fence are the metadata and the non-fence lines after it are the body |
| Lines.RouteComposed | internal/md/md.go:61-75 | metadata lines, a closing fence and fence-free body lines route back to exactly those parts |
| Lines.RouteReadFence | internal/md/md.go:61-69 | reading a fence line leaves the metadata and drops the line |
| Lines.RouteReadLast | internal/md/md.go:71-79 | the final read goes to the buffer of the current state and ends the loop |
| Lines.RouteReadMore | internal/md/md.go:71-79 | a non-final, non-fence read goes to the buffer of the current state and reading continues |
| Lines.RouteDocument | internal/md/md.go:38-91 | opener + metadata + closer + rest routes to the metadata text and the rest |
| Md.Splitting | internal/md/md.go:40-49 | no frontmatter exactly when the first line is not a "+++" or "---" fence, and then the body is the whole input |
| Md.SplitFrontmatter | internal/md/md.go:38-91 | the splitter's loop computes exactly the specified split and never fails |
| Md.SplittingOpened | internal/md/md.go:51-90 | after an opening fence, the frontmatter is the decoded trimmed metadata text and the body is the trimmed body text |
| Md.ReadBlock | internal/md/md.go:55-79 | the read loop computes the metadata and body buffers of the specification |
| Md.PendingStep | internal/md/md.go:55-79 | one read either closes the metadata on a fence, ends on end of input, or appends the line to the current buffer |
| Md.SplittingByFirstFence | internal/md/md.go:38-91 | the frontmatter text is the lines before the first later fence, and the body is every non-fence line after it |
| Md.SplitComposed | internal/md/md.go:38-91 | splitting opener + metadata + closer + rest gives back the metadata decoded with the opener's syntax and the trimmed rest |
| Md.ComposedPending | internal/md/md.go:55-79 | the read loop over such a document fills the metadata buffer with the metadata and the body buffer with the rest |
| Md.Opening | internal/md/md.go:93-114 | an unreadable file is an error naming the path; otherwise the record holds the path, the frontmatter and the body of the split |
| Md.OpenContentFile | internal/md/md.go:93-114 | the method returns the specified record or error |
| Md.ReadContentDirectory | internal/md/md.go:118-168 | the walk computes exactly the specified collection of pages or error |
| Md.CollectOne | internal/md/md.go:137-165 | one entry extends the collection as the specification's step does |
| Md.AbortSticks | internal/md/md.go:139-156 | once an entry has stopped the walk with an error, later entries change nothing |
| Md.CollectFails | internal/md/md.go:118-168 | the walk reports an error exactly when the directory is missing or something in the tree stops it; then it returns no records, except the sample page for a missing directory |
| Md.CollectEntriesFails | internal/md/md.go:137-165 | the entry loop reports an error exactly when one of the entries so far is an unreadable markdown file or a failing subdirectory, and then it returns no records |
| Md.CollectKeepsPages | internal/md/md.go:137-167 | every collected page is the sample file or a non-draft markdown file under the directory |
| Md.CollectEntriesKeepsPages | internal/md/md.go:137-167 | the same, for the first n entries |
| Md.StepDirKeeps | internal/md/md.go:139-147 | a subdirectory's pages keep the property under the parent |
| Md.KeptUnderParent | internal/md/md.go:139-147 | pages kept under a subdirectory are kept under its parent |
| Md.StepFileKeeps | internal/md/md.go:149-163 | a file entry adds only the sample or a non-draft markdown page |
| Md.CollectIsPages | internal/md/md.go:118-168 | on a tree whose directories all list and whose markdown files all read, the walk reports no error and returns every non-draft markdown page in listing order, nothing lost or reordered |
| Md.CollectEntriesIsPages | internal/md/md.go:137-165 | the first n entries' pages followed by the remaining entries' pages are all the pages |
| Md.StepOfClean | internal/md/md.go:137-165 | on readable entries, one step appends that entry's pages |
| Md.StepIsEntryPages | internal/md/md.go:137-165 | one step appends the entry's pages |
| Md.StepDirIsEntryPages | internal/md/md.go:139-147 | a directory entry appends its subtree's pages |
| Md.StepFileIsEntryPages | internal/md/md.go:149-163 | a file entry appends its page, if any |
| Md.StepSkip | internal/md/md.go:149-151 | a non-markdown file adds nothing |
| Md.StepDraft | internal/md/md.go:158-161 | a draft adds nothing |
| Md.StepPage | internal/md/md.go:163 | a non-draft markdown file adds its record |
| PkgFront.Splitting | pkg/view/front.go:17-27 | no frontmatter exactly when the first line is not a "+++" fence, and then the body is the whole input |
| PkgFront.SplitFrontmatter | pkg/view/front.go:17-59 | the splitter's loop computes exactly the specified split |
| PkgFront.ReadBlock | pkg/view/front.go:29-53 | the read loop computes the metadata and body buffers of the specification |
| PkgFront.PendingStep | pkg/view/front.go:29-53 | one read either closes the metadata on "+++", ends on end of input, or appends the line to the current buffer |
| PkgFront.YamlIsBody | pkg/view/front.go:20-27 | a file opening with "---" has no frontmatter here and is all body |
| PkgFront.SplittingByFirstFence | pkg/view/front.go:17-59 | the frontmatter text is the lines before the first later "+++" line, and the body is every line after it that is not one |
| PkgFront.SplitComposed | pkg/view/front.go:17-59 | splitting opener + metadata + closer + rest gives back the decoded metadata and the trimmed rest |
| Utils.MarkdownIffSuffix | internal/utils/utils.go:39-42 | a name counts as markdown exactly when it is "md" or ends in ".md": only the last "."-part counts, and the comparison is case-sensitive (the same test is at cmd/libs/libs.go:44-47) |
| Utils.LastSegmentOfJoinDot | internal/utils/utils.go:39-42 | any name ending in ".md" counts as markdown |
| Utils.ToJson | internal/utils/utils.go:17-21 | the error object holds the status under "statusCode" and the message under "ErrorMessage" |
| Utils.ErrorJsonRoundTrip | internal/utils/utils.go:17-21 | the error object reads back as the same error data |
| Utils.CreateErrorJSON | internal/utils/utils.go:33-37 | the body is the marshalled object of the given status and message, which reads back as them (the same function is at cmd/libs/libs.go:38-42) |
| Logs.LevelOf | libs/logs.go:69-83 | "debug", "warn" and "error" in any case select their level; anything else selects Info; Fatal is never selected |
| Logs.SetLogLevel | libs/logs.go:69-83 | the logger's level becomes the level the string selects |
| Logs.LevelOfIgnoresCase | libs/logs.go:69-83 | the choice of level ignores case |
| Logs.LevelOfName | libs/logs.go:69-83 | a level's own name selects it back, except Fatal, whose name selects Info |
| Logs.Pause | libs/logs.go:85-91 | the pause is 500 ms except at Debug, where there is none |
| Nav.BaseName | cmd/build/view.go:282-286 | a page's name holds no "/" and no "." |
| Nav.Links | internal/view/view.go:71-96 | one link per page, in order, each the page's link |
| Nav.LowerKeepsPlain | cmd/build/view.go:84-109 | lower-casing adds no "/" or "." |
| Nav.SlugIsPlain | cmd/build/view.go:84-109 | a slug holds no "/" or "." and is lower case |
| Nav.NavPathIdempotent | cmd/build/view.go:84-109 | renaming a page by its navigation path twice is renaming it once, and the renamed page has the same link |
| Nav.SlugOfPlain | cmd/build/view.go:84-109 | a lower-case name without "/" and "." is its own slug |
| Nav.RouteMatchesLink | cmd/build/view.go:248-280 | the route a built page is served at is the path of its navigation link |
| Nav.RootLink | internal/view/view.go:71-96 | a link points at "/" exactly for the home page ("index" or "readme" in any case) or an empty slug |
| Nav.TitleRule | internal/view/view.go:133-152 | the document title ends with the site name and starts with the page title; it is the site name alone exactly when there is no title or the title is the site name |
| Nav.PageContext | internal/view/view.go:133-152 | the template data carries the titles, the links, the rendered contents and the "dark" theme |
| Nav.ParseGlob | cmd/build/view.go:196-224 | parsing yields a template exactly when the file parses |
| Nav.FirstOf | cmd/view/view.go:171-195 | the page's own template when it parses, otherwise the base template, and nothing when neither parses |
| Nav.Serve | cmd/build/view.go:302-313 | the status sent is always 200, because the page is written first; on a failed write the handler requests 500, which has no effect, and writes the error JSON |
| Walk.ExitSticks | cmd/build/view.go:113-146 | once the walk has failed, later entries do not revive it |
| Walk.DiscoverIsPages | cmd/build/view.go:113-146 | the walk stops exactly when some directory of the tree cannot be listed; otherwise it yields every markdown page that is not a draft, in listing order |
| Walk.DiscoverEntriesIsPages | cmd/build/view.go:113-146 | the first n entries fail exactly when one of them cannot be listed, and otherwise yield their pages |
| Walk.StepIsEntryPages | cmd/build/view.go:113-146 | one entry fails the walk exactly when it cannot be listed, and otherwise appends its pages |
| InternalView.View.constructor | internal/view/view.go:51-66 | a view holds its page record and its path is the record's file path; no HTML, links, template or template directory yet |
| InternalView.View.GetTemplate | internal/view/view.go:106-130 | the template becomes the one the guard chooses, and no error is returned |
| InternalView.View.Render | internal/view/view.go:133-152 | the output is the template executed on the page's titles, links and rendered body |
| InternalView.View.BuildHTMLFileContents | internal/view/view.go:154-183 | a create failure names the file and changes nothing; a render failure names the page, returns no route and keeps the old HTML; a write failure names the page; success stores the HTML and returns the page's route |
| InternalView.View.Navigate | internal/view/view.go:71-96 | the view's path becomes the page's navigation path and its link is returned |
| InternalView.FilePaths | internal/view/view.go:71-96 | the file paths of the views' pages, in order |
| InternalView.WithNavigation | internal/view/view.go:71-96 | every view gets its navigation path and the same list of all pages' links, and keeps the rest of its state |
| InternalView.NavigateAll | internal/view/view.go:71-96 | the loop renames every view and collects the links of all pages in order |
| InternalView.NavigateOne | internal/view/view.go:71-96 | one iteration renames view i and returns its link, touching no other view |
| InternalView.ShareLinks | internal/view/view.go:71-96 | every view gets the shared list, and nothing else changes |
| Md.RecordPaths | internal/view/view.go:51-66 | the paths of the records, in order |
| InternalView.MakeViews | internal/view/view.go:51-66 | one fresh view per record, in order |
| InternalView.NewViews | internal/view/view.go:51-66 | the walk's error is returned, or one view per collected page with navigation applied |
| BuildView.View.constructor | cmd/build/view.go:73-75 | a view holds its path, its content and its template directory, and nothing rendered yet |
| BuildView.View.Name | cmd/build/view.go:282-286 | a view's name holds no "/" and no "." |
| BuildView.View.RenderContentToHTML | cmd/build/view.go:176-186 | the HTML content is the rendered markdown, and nothing else changes |
| BuildView.View.Navigate | cmd/build/view.go:84-109 | the path becomes the navigation path and the link of the old path is returned |
| BuildView.View.GetTemplate | cmd/build/view.go:196-224 | the template becomes the one the lookup chooses |
| BuildView.View.Render | cmd/build/view.go:227-246 | the output is the template executed on the view's context |
| BuildView.View.BuildHTMLFileContents | cmd/build/view.go:248-280 | a create failure returns the file and changes nothing; otherwise the content is rendered, the template chosen, and the page kept; the page is written exactly when the file can be created, the page renders and the write succeeds; the page a build renders is the same before and after, so a rebuild gives the same page; path, links and template directory never change |
| BuildView.ChosenTemplate | cmd/build/view.go:196-224 | a readable directory keeps an existing template; otherwise the page's own file, then "base", then the embedded template |
| BuildView.ViewPaths | cmd/build/view.go:84-109 | the views' paths, in order |
| BuildView.HtmlPages | cmd/build/view.go:298-300 | the pages the views hold, in order |
| BuildView.WithNavigation | cmd/build/view.go:84-109 | every view is renamed to its navigation path and gets the links of the old paths; nothing else changes |
| BuildView.NavigateAll | cmd/build/view.go:84-109 | the loop renames every view and collects the links of the old paths in order |
| BuildView.NavigateOne | cmd/build/view.go:84-109 | one iteration renames view i and returns its link, touching no other view |
| BuildView.ShareLinks | cmd/build/view.go:84-109 | every view gets the shared list, and nothing else changes |
| BuildView.NavigatedLinks | cmd/build/view.go:84-109 | renamed paths give the same links and navigation paths as the originals, so applying navigation again is harmless |
| BuildView.OpenContentFile | cmd/build/view.go:148-170 | an unreadable file gives no view; otherwise a fresh view shows the split page |
| BuildView.ReadContentDirectory | cmd/build/view.go:113-146 | the walk stops exactly when the specified walk fails, and otherwise its views present the walk's pages with navigation applied |
| BuildView.EntryViews | cmd/build/view.go:113-146 | one entry's views extend the walk's pages as the specification's step does |
| BuildView.CollectedAppend | cmd/build/view.go:113-146 | views presenting two page lists present their concatenation |
| BuildView.PresentsCollected | cmd/build/view.go:113-146 | presented views are collected views |
| BuildView.NavigateLevel | cmd/build/view.go:143 | navigation on collected views yields presented views |
| CmdView.View.constructor | cmd/view/view.go:50-52 | a view holds its path, its content and its template directory, and nothing rendered yet |
| CmdView.View.Name | cmd/view/view.go:248-252 | a view's name holds no "/" and no "." |
| CmdView.View.ToHTML | cmd/view/view.go:159-169 | the HTML content is the rendered markdown, and nothing else changes |
| CmdView.View.Navigate | cmd/view/view.go:57-84 | the path becomes "index" for a home page and the home link of the old path is returned |
| CmdView.View.GetTemplate | cmd/view/view.go:171-195 | the template is the page's own or "base", and the build stops exactly when neither parses |
| CmdView.View.Render | cmd/view/view.go:220-246 | the page is the executed template, and the build stops exactly when execution fails |
| CmdView.View.Build | cmd/view/view.go:197-207 | the content is rendered, the template chosen and the page stored, stopping exactly when the lookup or the execution fails |
| CmdView.HomeLinks | cmd/view/view.go:57-84 | one home link per page, in order |
| CmdView.HomeRule | cmd/view/view.go:57-84 | only home pages get the name "Home"; other pages keep their path and an empty name; the link points at "/" exactly for a home page or an empty slug |
| CmdView.HomedPathIdempotent | cmd/view/view.go:57-84 | renaming a home page twice is renaming it once, with the same link |
| CmdView.ViewPaths | cmd/view/view.go:57-84 | the views' paths, in order |
| CmdView.BuildNavigation | cmd/view/view.go:57-84 | every view is renamed as a home page or kept, and gets the home links of the old paths; nothing else changes |
| CmdView.NavigateAll | cmd/view/view.go:57-84 | the loop renames every view and collects the home links of the old paths in order |
| CmdView.NavigateOne | cmd/view/view.go:57-84 | one iteration renames view i and returns its home link, touching no other view |
| CmdView.ShareLinks | cmd/view/view.go:57-84 | every view gets the shared list, and nothing else changes |
| CmdView.HomedLinks | cmd/view/view.go:57-84 | renamed paths give the same home links and paths as the originals |
| CmdView.OpenContentFile | cmd/view/view.go:127-157 | an unreadable file gives no view; otherwise a fresh view shows the split page, or the raw data when there is no frontmatter |
| CmdView.ReadContentDirectory | cmd/view/view.go:88-120 | the walk stops exactly when the specified walk fails, and otherwise its views present the walk's pages with navigation applied |
| CmdView.EntryViews | cmd/view/view.go:88-120 | one entry's views extend the walk's pages as the specification's step does |
| CmdView.CollectedAppend | cmd/view/view.go:88-120 | views presenting two page lists present their concatenation |
| CmdView.NavigateLevel | cmd/view/view.go:118 | navigation on collected views yields presented views |
| PkgView.View.constructor | pkg/view/view.go:87 | a view holds its path, the raw data and its template directory |
| PkgView.View.Name | pkg/view/view.go:154-158 | a view's name holds no "/" and no "." |
| PkgView.View.ToHTML | pkg/view/view.go:93-104 | the HTML is the rendered content, and nothing else changes |
| PkgView.View.GetTemplate | pkg/view/view.go:106-130 | the template is the page's own or "base", and the build stops exactly when neither parses |
| PkgView.View.Build | pkg/view/view.go:132-136 | the content is rendered and the template chosen, stopping exactly when neither template parses |
| PkgView.View.Render | pkg/view/view.go:142-152 | the template runs on a context whose only key, "contents", holds the rendered HTML, which the view keeps |
| PkgView.OpenFile | pkg/view/view.go:79-91 | an unreadable file gives no view; otherwise a fresh view holds the raw data, with no frontmatter split |
| PkgView.PresentsAppend | pkg/view/view.go:44-72 | views presenting two page lists present their concatenation |
| PkgView.ReadContentDirectory | pkg/view/view.go:44-72 | the walk stops exactly when the specified walk fails, and otherwise its views present the walk's pages |
| PkgView.EntryViews | pkg/view/view.go:44-72 | one entry's views extend the walk's pages as the specification's step does |
| Theme.ParseTheme | internal/theme/theme.go:63-70 | a theme is returned exactly when no error is, and it is the decoded theme (the same function is at pkg/view/theme.go:53-60) |
| Theme.PushError | internal/theme/theme.go:72-79 | a nil error leaves the stack alone; an error is appended at the end |
| Theme.ThemeCtx.constructor | internal/theme/theme.go:115 | both theme slots start empty |
| Theme.ThemeCtx.BuildStack | internal/theme/theme.go:81-93 | the error is stacked and the theme, if any, goes to the slot its variant selects |
| Theme.Place | internal/theme/theme.go:81-93 | a dark theme fills the dark slot, any other the light slot, and the other slot is kept |
| Theme.PlaceReplaces | internal/theme/theme.go:81-93 | a later theme of the same variant replaces the earlier one |
| Theme.PlaceCommutes | internal/theme/theme.go:81-93 | themes of different variants can be placed in either order |
| Theme.ParseDefaults | internal/theme/theme.go:114-130 | the two default themes fill their slots; the build fails exactly when both fail to parse, and then both errors are on the stack |
| Theme.FailsOnlyWhenBothFail | internal/theme/theme.go:114-130 | the stack has two errors exactly when both themes fail to parse, and never more than two |
| Theme.SlotsAfterDefaults | internal/theme/theme.go:114-130 | the dark default ends in the slot of its variant; the light default ends in its own slot when the variants differ, and otherwise the other slot stays empty |
| Http.HttpServer.constructor | cmd/server/server.go:239-273 | the server holds the address and the handler it was given |
| Http.Address | pkg/server/server.go:338-340 | the address is ":" followed by at least one character, the port's signed decimal form ("-5" for a negative port), which `AddressRoundTrip` reads back |
| Http.AddressRoundTrip | pkg/server/server.go:338-340 | the port parses back from the address |
| PkgServer.Server.constructor | pkg/server/server.go:139-147 | the server holds the port and nothing loaded yet |
| PkgServer.Server.CreateLocks | pkg/server/server.go:121-126 | both locks exist afterwards, and nothing else changes |
| PkgServer.Server.AddLogger | pkg/server/server.go:130-134 | the handler gets one more logging layer; port, directories, locks, views and static files are unchanged |
| PkgServer.Server.LoadDocuments | pkg/server/server.go:154-160 | the views become the loaded documents; port, directories, locks, handler and static files are unchanged |
| PkgServer.Server.CollectStatic | pkg/server/server.go:372-383 | the static paths become the copied files; port, directories, locks, handler and views are unchanged |
| PkgServer.Server.AddRoutes | pkg/server/server.go:187-262 | the server exits exactly when some page cannot be created or written, leaving the handler; otherwise every page is written and the mux serves the pages, then the static files; port, directories, locks, views and static files are unchanged |
| PkgServer.Server.ReloadHandler | pkg/server/server.go:162-169 | a reload installs the new mux under exactly one logging layer, in both the server value and the running server; a failed build leaves both handlers; port, directories and locks are unchanged |
| PkgServer.Server.Address | pkg/server/server.go:338-340 | the address is ":" and the port, which reads back from it |
| PkgServer.Server.AttachDirs | pkg/server/server.go:274-284 | the process stops with a fatal error exactly when a directory cannot be watched, naming the first such directory |
| PkgServer.CreateServer | pkg/server/server.go:139-147 | a server needs exactly three directories, taken in order, and starts with nothing loaded |
| PkgServer.DocRoutes | pkg/server/server.go:191-197 | one route per document, in order, serving its HTML |
| PkgServer.PageFiles | pkg/server/server.go:203-215 | one written file per document, in order, holding its HTML |
| PkgServer.StaticRoutes | pkg/server/server.go:232-259 | one route per static file, in order |
| PkgServer.DocRouteRule | pkg/server/server.go:191-197 | routes are lower case; only a bare "index" or "readme" (or an empty path) is served at "/", never a nested path |
| CmdServer.Server.constructor | cmd/server/server.go:103-114 | the port, directories and static root come from the configuration; nothing is loaded yet |
| CmdServer.Server.CreateLocks | cmd/server/server.go:67-72 | both locks exist afterwards; settings, views, static files, handler and running server are unchanged |
| CmdServer.Server.AddLoggingMiddleware | cmd/server/server.go:91-98 | a nil handler panics and is left alone; any other gets exactly one more logging layer; settings, locks, views, static files and running server are unchanged |
| CmdServer.Server.LoadViewLayer | cmd/server/server.go:121-131 | the server exits exactly when the content walk does; otherwise the views are fresh and present the pages of the content directory under the template directory, and the static paths become the copied ones; settings, locks, handler and running server are unchanged |
| CmdServer.Server.AddRoutes | cmd/server/server.go:144-161 | the server exits exactly when some view's page file cannot be created, its page does not render, or the write fails, and then keeps its handler; otherwise every view holds the page a build renders for it, and the mux serves the assets and then each view's page at its route; paths, rendered pages and settings are unchanged |
| CmdServer.Server.ReloadHandler | cmd/server/server.go:133-139 | a reload exits exactly when the content walk exits or some page of the content directory fails to build, leaving both handlers; otherwise every view holds the page the build renders for it, and the running server gets exactly one logging layer around the mux that serves the assets and then each page at its navigation route |
| CmdServer.Server.Address | cmd/server/server.go:235-237 | the address is ":" and the port, which reads back from it |
| CmdServer.Server.AttachDirs | cmd/server/server.go:173-183 | only an unwatchable content directory is fatal; the template and static directories only warn |
| CmdServer.Server.Listen | cmd/server/server.go:239-240 | a new HTTP server on the address, with the current handler; settings, locks, views, static files and handler are unchanged |
| CmdServer.BuildOne | cmd/server/server.go:151-157 | a view builds exactly when its page file can be created, its page renders and the write succeeds; it then holds that page and its route is its page route; no view's path or rendered page changes, even when a view is listed twice |
| CmdServer.BuildRoutes | cmd/server/server.go:151-157 | the loop stops exactly when some view fails to build; otherwise every view holds its built page and the routes serve those pages in order |
| CmdServer.ViewRoutes | cmd/server/server.go:151-157 | one route per view, in order, at its page route, serving the page the view held when it was registered (the handler is a method value with a value receiver) |
| CmdServer.ViewRoutesStep | cmd/server/server.go:151-157 | the routes of one more view follow those of the views before it |
| CmdServer.SitePaths | cmd/build/view.go:84-109 | the views of a freshly read site carry each page's navigation path, in order |
| CmdServer.LoadedSite | cmd/server/server.go:127 | views read from the content directory carry the site's paths, and a build renders the site's pages for them |
| Watch.RequestsReload | pkg/server/server.go:297-314 | only a Create, Remove or Write event requests a reload (the Chmod case is empty) |
| Watch.OtherOpsIgnored | pkg/server/server.go:297-314 | Chmod, Rename and combined operations do not request a reload |
| Watch.Stopping | pkg/server/server.go:286-331 | the watcher stops on cancellation, on a closed channel or on a non-nil error, and only then |
| Watch.Channel.constructor | pkg/server/server.go:411 | the reload channel starts empty |
| Watch.Channel.Offer | pkg/server/server.go:316-321 | an offer is sent exactly when nothing is pending, and leaves a request pending |
| Watch.Channel.Receive | pkg/server/server.go:359-364 | a receive gets a request exactly when one was pending, and empties the channel |
| Watch.WatchFiles | pkg/server/server.go:286-331 | the watcher's loop, and the reload loop after it, compute exactly the specified run: requests, drops, reloads and why the watcher stopped |
| Watch.ServeRest | pkg/server/server.go:359-364 | after the watcher stops, the reload loop goes on receiving until cancellation, exactly as the specified drain |
| Watch.StopsAtFirst | pkg/server/server.go:286-331 | the run stops at the first stopping input, or consumes every input |
| Watch.Coalesces | pkg/server/server.go:316-321 | every request is either pending, dropped or served: there is never more than one pending, also after the watcher stops |
| Watch.DrainCoalesces | pkg/server/server.go:359-364 | after the watcher stops no request is made or dropped, and the only reload left is the pending one |
| Watch.DrainServes | pkg/server/server.go:359-364 | a request pending when the watcher stops is carried out by the next receive before cancellation |
| Watch.RequestStaysPending | pkg/server/server.go:316-321 | a reload request stays pending until the listener takes it |
| Watch.PendingKept | pkg/server/server.go:316-321 | a pending request is not lost while the listener does not take it |
| Watch.DrainKeepsPending | pkg/server/server.go:359-364 | without a receive, a pending request stays pending after the watcher stops |

## Left out

- Goroutines, the cancellation context, the signal handler and the two
  mutexes: the locks are booleans that say the lock exists, and the
  watcher and listener are modelled as one sequence of inputs.
- The `net/http` server, its listening and its shutdown: the server is a
  value holding its address and handler, and a request is `Nav.Serve`.
- `fsnotify`: events are given as input values. When `NewWatcher` fails,
  the code logs the error and then calls `Close` and `Add` on the nil
  watcher (cmd/server/server.go:166-173, pkg/server/server.go:267-274);
  that failure and what follows it are not modelled.
- Markdown rendering, TOML and YAML decoding, template parsing and
  execution, the title caser and `json.Marshal` are function parameters.
- Unicode: trimming and lower-casing cover ASCII only.
- `BuildTheme` after the two default themes are parsed: the clock, the
  stylesheet templates and the string builder.
- The file copying of `CopyStaticFiles` and `collectStatic`, and writing to
  the build directory: their results are inputs.
- `GenerateLogID` and the request logging of the middlewares: they use
  randomness and a clock and change no state that the model tracks.
- Registering two routes at the same pattern (a panic in `ServeMux`) is not
  modelled.
- The `SplitFrontmatter` of `cmd/build` and `cmd/view` is not part of this
  model; those views take the splitter as a parameter.
- `Run` and `setup` only call the steps modelled here (create the server,
  load, add routes, add the logger, watch, listen).
- Nav.Serve: the page bytes a failed write may already have sent are not
  modelled; the body is what the handler writes after the failure.
- PkgServer.Server.LoadDocuments: the loaded documents are an input. The
  loader it calls (`view.NewViews`) and the `HTML` field it reads are not
  defined in `pkg/view/view.go`, which has `ReadContentDirectory` and an
  `HTML()` method instead, so the server is not tied to `PkgView`'s walk.
- Watch.WatchFiles: models the watcher of both servers with one event
  switch; `cmd/server` differs only in what it logs. The reload loop of
  `listen` is stopped at the cancellation that shuts the server down; the
  end of the process after the shutdown is not modelled.
- CmdServer.AddRoutes: a failed build is modelled as a stop of the server,
  without the log output.
