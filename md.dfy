/** `internal/md`: splitting a markdown file into its TOML or YAML
    frontmatter and its body, opening content files, and collecting the
    content tree into page records. */
module Md {
  import opened Base
  import opened Text
  import opened Lines
  import opened Fs
  import opened Utils

  /** The metadata a page may declare. */
  datatype Frontmatter = Frontmatter(title: string, layout: string, draft: bool)

  /** The keys a decoder found in a metadata block (a key it did not find, or
      could not decode, is `None`). */
  datatype Fields = Fields(title: Option<string>, layout: Option<string>, draft: Option<bool>)

  /** The TOML and YAML decoders are library code; each is given as the
      keys it reads from a block. Their errors are ignored by the caller. */
  datatype Decoders = Decoders(toml: string -> Fields, yaml: string -> Fields)

  /** Unmarshalling a block into `Frontmatter{Draft: false}`: a key the block
      does not set keeps its zero value. */
  function Decode(decoder: string -> Fields, block: string): Frontmatter {
    var f := decoder(block);
    Frontmatter(f.title.GetOr(""), f.layout.GetOr(""), f.draft.GetOr(false))
  }

  /** A split file: the decoded frontmatter (absent when the file has no
      block) and the body. */
  datatype Split = Split(front: Option<Frontmatter>, body: string)

  /** The first line opens a block when its trimmed form starts with "+++"
      (TOML) or "---" (YAML). */
  predicate OpensToml(content: string) {
    HasPrefix(TrimSpace(ReadString(content, 0).line), TomlFence)
  }

  predicate OpensYaml(content: string) {
    HasPrefix(TrimSpace(ReadString(content, 0).line), YamlFence)
  }

  /** What `SplitFrontmatter` returns for `content`. Without an opening fence
      the content comes back untouched and there is no frontmatter.
      Otherwise every later line is routed (fences of either kind are
      dropped, and the first one ends the block); the trimmed block is
      decoded with the decoder the opening fence selects, and the body is
      trimmed. */
  function Splitting(content: string, dec: Decoders): (r: Split)
    ensures r.front.None? <==> !IsFence(ReadString(content, 0).line, TomlOrYaml)
    ensures r.front.None? ==> r.body == content
  {
    if !OpensToml(content) && !OpensYaml(content) then Split(None, content)
    else
      var parts := Route(ReadAll(content, ReadString(content, 0).next), true, FenceTest(TomlOrYaml));
      var decoder := if OpensToml(content) then dec.toml else dec.yaml;
      Split(Some(Decode(decoder, TrimSpace(parts.0))), TrimSpace(parts.1))
  }

  /** `SplitFrontmatter`: reads the first line; when it opens a block, reads
      the rest into a metadata part and a body part, decodes the trimmed
      metadata with the decoder the opening fence selects and trims the
      body. The in-memory reader reports no error but end of input, so no
      error is returned. */
  method SplitFrontmatter(content: string, dec: Decoders) returns (front: Option<Frontmatter>, body: string)
    ensures Split(front, body) == Splitting(content, dec)
  {
    var start := ReadString(content, 0);
    var isToml := HasPrefix(TrimSpace(start.line), TomlFence);
    var isYaml := HasPrefix(TrimSpace(start.line), YamlFence);
    if !isToml && !isYaml {
      return None, content;
    }
    var meta, rest := ReadBlock(content, start.next);
    var decoder := if isToml then dec.toml else dec.yaml;
    SplittingOpened(content, dec);
    return Some(Decode(decoder, TrimSpace(meta))), TrimSpace(rest);
  }

  lemma SplittingOpened(content: string, dec: Decoders)
    requires OpensToml(content) || OpensYaml(content)
    ensures var parts := Pending(content, ReadString(content, 0).next, true);
      var decoder := if OpensToml(content) then dec.toml else dec.yaml;
      Splitting(content, dec) == Split(Some(Decode(decoder, TrimSpace(parts.0))), TrimSpace(parts.1))
  {
  }

  /** The read loop of `SplitFrontmatter`: each non-fence line is written to
      the metadata buffer while inside the block and to the body buffer
      after it; a fence line of either kind closes the block and skips the
      end-of-input test, so one more (empty) read follows a fence that ends
      the input. */
  method ReadBlock(content: string, from: nat) returns (meta: string, rest: string)
    requires from <= |content|
    ensures (meta, rest) == Pending(content, from, true)
  {
    ghost var total := Pending(content, from, true);
    meta, rest := "", "";
    var inFront := true;
    var pos := from;
    var done := false;
    while !done
      invariant from <= pos <= |content|
      invariant !done ==> meta + Pending(content, pos, inFront).0 == total.0
      invariant !done ==> rest + Pending(content, pos, inFront).1 == total.1
      invariant done ==> meta == total.0 && rest == total.1
      decreases |content| - pos, !done
    {
      var line := ReadString(content, pos);
      var closesToml := HasPrefix(TrimSpace(line.line), TomlFence);
      var closesYaml := HasPrefix(TrimSpace(line.line), YamlFence);
      ghost var later := Pending(content, line.next, inFront);
      PendingStep(content, pos, inFront);
      pos := line.next;
      if closesToml || closesYaml {
        inFront := false;
        continue;
      }
      if inFront {
        Assoc(meta, line.line, later.0);
        meta := meta + line.line;
      } else {
        Assoc(rest, line.line, later.1);
        rest := rest + line.line;
      }
      if line.eof {
        done := true;
      }
    }
  }

  /** What the lines from `pos` on still contribute to the two buffers. */
  function Pending(content: string, pos: nat, inFront: bool): (string, string)
    requires pos <= |content|
  {
    Route(ReadAll(content, pos), inFront, FenceTest(TomlOrYaml))
  }

  /** One read of the loop: what the lines from `pos` on contribute, in
      terms of the line read there and the lines after it. */
  lemma PendingStep(content: string, pos: nat, inFront: bool)
    requires pos <= |content|
    ensures var r := ReadString(content, pos);
      var fence := HasPrefix(TrimSpace(r.line), TomlFence) || HasPrefix(TrimSpace(r.line), YamlFence);
      var p := Pending(content, pos, inFront);
      var later := Pending(content, r.next, inFront);
      && (fence ==> p == Pending(content, r.next, false))
      && (!fence && r.eof ==> p == if inFront then (r.line, []) else ([], r.line))
      && (!fence && !r.eof ==> p == if inFront then (r.line + later.0, later.1) else (later.0, r.line + later.1))
  {
    var test := FenceTest(TomlOrYaml);
    var r := ReadString(content, pos);
    if test(r.line) {
      RouteReadFence(content, pos, inFront, test);
    } else if r.eof {
      RouteReadLast(content, pos, inFront, test);
    } else {
      RouteReadMore(content, pos, inFront, test);
    }
  }

  /** Inside an opened block, the metadata is every line before the first
      fence line of either kind, and the body every later line except
      further fence lines (so a "---" rule in the body is dropped). */
  lemma SplittingByFirstFence(content: string, dec: Decoders)
    requires OpensToml(content) || OpensYaml(content)
    ensures var fence := FenceTest(TomlOrYaml);
      var lines := ReadAll(content, ReadString(content, 0).next);
      var k := FirstFence(lines, fence);
      var bodyLines := NonFences(lines[k..], fence);
      var decoder := if OpensToml(content) then dec.toml else dec.yaml;
      && Splitting(content, dec) == Split(Some(Decode(decoder, TrimSpace(Concat(lines[..k])))), TrimSpace(Concat(bodyLines)))
      && (forall i :: 0 <= i < k ==> !fence(lines[i]))
      && (forall l :: l in bodyLines ==> !fence(l))
  {
    var fence := FenceTest(TomlOrYaml);
    var lines := ReadAll(content, ReadString(content, 0).next);
    var k := FirstFence(lines, fence);
    RouteInside(lines, fence);
    FirstFenceIsFirst(lines, fence);
    NonFencesKeepsNoFence(lines[k..], fence);
  }

  /** A file written as an opening fence line, whole metadata lines, a
      closing fence line and a body splits back into that metadata (trimmed
      and decoded by the opener's decoder) and that body (trimmed), as long
      as no metadata line and no body line looks like a fence. */
  lemma SplitComposed(opener: string, metaLines: seq<string>, closer: string, rest: string, dec: Decoders)
    requires IsLine(opener) && IsFence(opener, TomlOrYaml)
    requires IsLine(closer) && IsFence(closer, TomlOrYaml)
    requires forall i :: 0 <= i < |metaLines| ==> IsLine(metaLines[i]) && !IsFence(metaLines[i], TomlOrYaml)
    requires FenceFree(ReadAll(rest, 0), FenceTest(TomlOrYaml))
    ensures var decoder := if HasPrefix(TrimSpace(opener), TomlFence) then dec.toml else dec.yaml;
      Splitting(Concat([opener] + metaLines + [closer]) + rest, dec)
        == Split(Some(Decode(decoder, TrimSpace(Concat(metaLines)))), TrimSpace(rest))
  {
    var content := Concat([opener] + metaLines + [closer]) + rest;
    ComposedPending(opener, metaLines, closer, rest);
    SplittingOpened(content, dec);
  }

  lemma ComposedPending(opener: string, metaLines: seq<string>, closer: string, rest: string)
    requires IsLine(opener) && IsLine(closer) && IsFence(closer, TomlOrYaml)
    requires forall i :: 0 <= i < |metaLines| ==> IsLine(metaLines[i]) && !IsFence(metaLines[i], TomlOrYaml)
    requires FenceFree(ReadAll(rest, 0), FenceTest(TomlOrYaml))
    ensures var content := Concat([opener] + metaLines + [closer]) + rest;
      var first := ReadString(content, 0);
      first.line == opener && Pending(content, first.next, true) == (Concat(metaLines), rest)
  {
    var fence := FenceTest(TomlOrYaml);
    assert fence(closer);
    assert forall i :: 0 <= i < |metaLines| ==> !fence(metaLines[i]);
    RouteDocument(opener, metaLines, closer, rest, fence);
  }

  /** A page record: its path, its frontmatter (absent when the file has no
      block) and its body. */
  datatype MD = MD(filePath: string, front: Option<Frontmatter>, content: string)

  predicate IsDraft(m: MD) {
    m.front.Some? && m.front.value.draft
  }

  /** The errors the content walk reports. */
  datatype MdError =
    | FileUnreadable(path: string)       // "unable to read data from ..."
    | SampleUsed                         // "using sample file for content"
    | DirectoryUnreadable(dir: string)   // "unable to create views for directory ..."

  /** The splitter as a value: the walk below is stated for any splitter,
      so that its proofs never look inside the splitting. */
  function SplitterOf(dec: Decoders): string -> Split {
    data => Splitting(data, dec)
  }

  /** What `OpenContentFile(fp)` returns, given what reading `fp` yields: a
      read failure gives no record and an error; otherwise the record holds
      the path and the split of the data. */
  function Opening(fp: string, data: Option<string>, split: string -> Split): (r: (Option<MD>, Option<MdError>))
    ensures r.1.Some? <==> data.None?
    ensures r.1.Some? ==> r.0.None? && r.1 == Some(FileUnreadable(fp))
    ensures r.1.None? ==>
      r.0.Some? && r.0.value.filePath == fp && Split(r.0.value.front, r.0.value.content) == split(data.value)
  {
    match data
    case None => (None, Some(FileUnreadable(fp)))
    case Some(d) => (Some(MD(fp, split(d).front, split(d).body)), None)
  }

  /** `OpenContentFile`: reads the file and splits it. */
  method OpenContentFile(fp: string, data: Option<string>, dec: Decoders) returns (md: Option<MD>, err: Option<MdError>)
    ensures (md, err) == Opening(fp, data, SplitterOf(dec))
  {
    if data.None? {
      return None, Some(FileUnreadable(fp));
    }
    var front, body := SplitFrontmatter(data.value, dec);
    return Some(MD(fp, front, body)), None;
  }

  /** The page used when the content directory does not exist: the embedded
      sample, split (its split error, which cannot occur, is dropped). */
  const SamplePath := "README.md"

  /** The file paths of a batch of page records. */
  function RecordPaths(files: seq<MD>): (r: seq<string>)
    ensures |r| == |files|
    ensures forall i :: 0 <= i < |files| ==> r[i] == files[i].filePath
  {
    seq(|files|, i requires 0 <= i < |files| => files[i].filePath)
  }

  /** The outcome of a walk: the records and the error, as returned. */
  datatype Walked = Walked(files: seq<MD>, err: Option<MdError>)

  /** What `ReadContentDirectory(dir, ...)` returns when `dir` lists as
      `listing`. A missing directory yields the sample page and an error; an
      unreadable one yields nothing and an error. */
  function Collect(dir: string, listing: Listing, sample: string, split: string -> Split): Walked
    decreases listing, Width(listing) + 1, 1
  {
    match listing
    case Missing => Walked([MD(SamplePath, split(sample).front, split(sample).body)], Some(SampleUsed))
    case Unreadable => Walked([], Some(DirectoryUnreadable(dir)))
    case Entries(es) => CollectEntries(dir, listing, |es|, sample, split)
  }

  /** The walk over the first `n` entries of a listing, in listing order. */
  function CollectEntries(dir: string, listing: Listing, n: nat, sample: string, split: string -> Split): Walked
    requires listing.Entries? && n <= |listing.entries|
    decreases listing, n, 1
  {
    if n == 0 then Walked([], None)
    else CollectStep(dir, listing, n, CollectEntries(dir, listing, n - 1, sample, split), sample, split)
  }

  /** The walk's handling of entry `n - 1`, after the entries before it gave
      `prev`. Once the walk has failed it stays failed. A subdirectory's
      records are appended unless it failed with no records at all (a
      missing subdirectory brings the sample page with it); a markdown file
      that cannot be read stops the walk with no records; files that are not
      markdown, and drafts, are skipped. */
  function CollectStep(dir: string, listing: Listing, n: nat, prev: Walked, sample: string, split: string -> Split): Walked
    requires listing.Entries? && 0 < n <= |listing.entries|
    decreases listing, n, 0
  {
    if prev.err.Some? then prev
    else
      var e := listing.entries[n - 1];
      assert e in listing.entries;
      var path := Join(dir, e.name);
      match e
      case Dir(_, child) =>
        var nested := Collect(path, child, sample, split);
        if nested.err.Some? && nested.files == [] then Walked([], nested.err)
        else Walked(prev.files + nested.files, None)
      case File(name, data) =>
        if IsNotMarkdown(name) then prev
        else
          var got := Opening(path, data, split);
          if got.1.Some? then Walked([], got.1)
          else if got.0.None? || IsDraft(got.0.value) then prev
          else Walked(prev.files + [got.0.value], None)
  }

  /** `ReadContentDirectory`: walks the listing entry by entry, recursing
      into subdirectories. */
  method ReadContentDirectory(dir: string, listing: Listing, sample: string, dec: Decoders)
    returns (files: seq<MD>, err: Option<MdError>)
    ensures Walked(files, err) == Collect(dir, listing, sample, SplitterOf(dec))
    decreases listing, 1
  {
    ghost var split := SplitterOf(dec);
    match listing
    case Missing =>
      var front, body := SplitFrontmatter(sample, dec);
      return [MD(SamplePath, front, body)], Some(SampleUsed);
    case Unreadable =>
      return [], Some(DirectoryUnreadable(dir));
    case Entries(es) =>
      files := [];
      var i := 0;
      while i < |es|
        invariant 0 <= i <= |es|
        invariant CollectEntries(dir, listing, i, sample, split) == Walked(files, None)
      {
        var next, stop := CollectOne(dir, listing, i, files, sample, dec);
        if stop.Some? {
          AbortSticks(dir, listing, i + 1, |es|, sample, split);
          return next, stop;
        }
        files := next;
        i := i + 1;
      }
      return files, None;
  }

  /** One iteration of the walk, on entry `i`, after the entries before it
      gave `files` and no error. */
  method CollectOne(dir: string, listing: Listing, i: nat, files: seq<MD>, sample: string, dec: Decoders)
    returns (next: seq<MD>, err: Option<MdError>)
    requires listing.Entries? && i < |listing.entries|
    requires CollectEntries(dir, listing, i, sample, SplitterOf(dec)) == Walked(files, None)
    ensures CollectEntries(dir, listing, i + 1, sample, SplitterOf(dec)) == Walked(next, err)
    decreases listing, 0
  {
    var entry := listing.entries[i];
    assert entry in listing.entries;
    var path := Join(dir, entry.name);
    if entry.Dir? {
      var nested, nestedErr := ReadContentDirectory(path, entry.listing, sample, dec);
      if nestedErr.Some? && |nested| == 0 {
        return [], nestedErr;
      }
      return files + nested, None;
    }
    if IsNotMarkdown(entry.name) {
      return files, None;
    }
    var md, openErr := OpenContentFile(path, entry.data, dec);
    if openErr.Some? {
      return [], openErr;
    }
    if md.None? || IsDraft(md.value) {
      return files, None;
    }
    return files + [md.value], None;
  }

  /** Once the walk has failed, later entries change nothing. */
  lemma {:induction false} AbortSticks(dir: string, listing: Listing, n: nat, m: nat, sample: string, split: string -> Split)
    requires listing.Entries? && n <= m <= |listing.entries|
    requires CollectEntries(dir, listing, n, sample, split).err.Some?
    ensures CollectEntries(dir, listing, m, sample, split) == CollectEntries(dir, listing, n, sample, split)
    decreases m - n
  {
    if m > n {
      AbortSticks(dir, listing, n, m - 1, sample, split);
    }
  }

  /** A tree holds something that stops the walk: an unreadable directory,
      or a markdown file that cannot be read. A missing subdirectory does
      not stop it. */
  predicate Blocked(l: Listing)
    decreases l, 1
  {
    l.Unreadable? || (l.Entries? && exists i :: 0 <= i < |l.entries| && EntryBlocked(l, i))
  }

  predicate EntryBlocked(l: Listing, i: nat)
    requires l.Entries? && i < |l.entries|
    decreases l, 0
  {
    assert l.entries[i] in l.entries;
    match l.entries[i]
    case File(name, data) => !IsNotMarkdown(name) && data.None?
    case Dir(_, child) => Blocked(child)
  }

  /** The walk reports an error exactly when the directory is missing or
      the tree holds something that stops it; then it returns no records,
      except the sample page for a missing directory. */
  lemma {:induction false} CollectFails(dir: string, l: Listing, sample: string, split: string -> Split)
    ensures var w := Collect(dir, l, sample, split);
      && (w.err.Some? <==> l.Missing? || Blocked(l))
      && (w.err.Some? && !l.Missing? ==> w.files == [])
    decreases l, Width(l) + 1, 1
  {
    if l.Entries? {
      CollectEntriesFails(dir, l, |l.entries|, sample, split);
      assert Collect(dir, l, sample, split) == CollectEntries(dir, l, |l.entries|, sample, split);
      assert Blocked(l) <==> exists i :: 0 <= i < |l.entries| && EntryBlocked(l, i);
    }
  }

  lemma {:induction false} CollectEntriesFails(dir: string, l: Listing, n: nat, sample: string, split: string -> Split)
    requires l.Entries? && n <= |l.entries|
    ensures CollectEntries(dir, l, n, sample, split).err.Some? ==> exists i :: 0 <= i < n && EntryBlocked(l, i)
    ensures (exists i :: 0 <= i < n && EntryBlocked(l, i)) ==> CollectEntries(dir, l, n, sample, split).err.Some?
    ensures CollectEntries(dir, l, n, sample, split).err.Some? ==> CollectEntries(dir, l, n, sample, split).files == []
    decreases l, n, 1
  {
    if n > 0 {
      CollectEntriesFails(dir, l, n - 1, sample, split);
      var e := l.entries[n - 1];
      assert e in l.entries;
      if e.Dir? {
        CollectFails(Join(dir, e.name), e.listing, sample, split);
      }
      var w := CollectEntries(dir, l, n, sample, split);
      if w.err.Some? {
        if CollectEntries(dir, l, n - 1, sample, split).err.Some? {
          var i :| 0 <= i < n - 1 && EntryBlocked(l, i);
          assert 0 <= i < n && EntryBlocked(l, i);
        } else {
          var prev := CollectEntries(dir, l, n - 1, sample, split);
          assert w == CollectStep(dir, l, n, prev, sample, split);
          if e.Dir? {
            assert Blocked(e.listing);
          } else {
            assert !IsNotMarkdown(e.name) && e.data.None?;
          }
          assert EntryBlocked(l, n - 1);
        }
      } else {
        var prev := CollectEntries(dir, l, n - 1, sample, split);
        assert w == CollectStep(dir, l, n, prev, sample, split);
        assert prev.err.None?;
        assert !EntryBlocked(l, n - 1) by {
          if e.Dir? {
            assert !Blocked(e.listing);
          }
        }
        forall i | 0 <= i < n
          ensures !EntryBlocked(l, i)
        {
          if i < n - 1 {
            assert !(0 <= i < n - 1 && EntryBlocked(l, i));
          }
        }
      }
    }
  }

  /** A record the walk keeps for a page under `dir`. */
  predicate KeptPage(dir: string, m: MD) {
    && HasPrefix(m.filePath, dir + "/")
    && !IsNotMarkdown(LastSegment(m.filePath, '/'))
    && !IsDraft(m)
  }

  /** Every record the walk returns is the sample page or a non-draft page
      whose file name ends in ".md", found under `dir`. */
  lemma {:induction false} CollectKeepsPages(dir: string, l: Listing, sample: string, split: string -> Split)
    ensures forall m :: m in Collect(dir, l, sample, split).files ==> m.filePath == SamplePath || KeptPage(dir, m)
    decreases l, Width(l) + 1, 1
  {
    if l.Entries? {
      CollectEntriesKeepsPages(dir, l, |l.entries|, sample, split);
    }
  }

  lemma {:induction false} CollectEntriesKeepsPages(dir: string, l: Listing, n: nat, sample: string, split: string -> Split)
    requires l.Entries? && n <= |l.entries|
    ensures forall m :: m in CollectEntries(dir, l, n, sample, split).files ==> m.filePath == SamplePath || KeptPage(dir, m)
    decreases l, n, 1
  {
    if n > 0 {
      CollectEntriesKeepsPages(dir, l, n - 1, sample, split);
      var prev := CollectEntries(dir, l, n - 1, sample, split);
      assert CollectEntries(dir, l, n, sample, split) == CollectStep(dir, l, n, prev, sample, split);
      if l.entries[n - 1].Dir? {
        StepDirKeeps(dir, l, n, prev, sample, split);
      } else {
        StepFileKeeps(dir, l, n, prev, sample, split);
      }
    }
  }

  /** A subdirectory's records are kept pages under the subdirectory, hence
      under `dir`. */
  lemma {:induction false} StepDirKeeps(dir: string, l: Listing, n: nat, prev: Walked, sample: string, split: string -> Split)
    requires l.Entries? && 0 < n <= |l.entries| && l.entries[n - 1].Dir?
    requires forall m :: m in prev.files ==> m.filePath == SamplePath || KeptPage(dir, m)
    ensures forall m :: m in CollectStep(dir, l, n, prev, sample, split).files ==> m.filePath == SamplePath || KeptPage(dir, m)
    decreases l, n, 0
  {
    var e := l.entries[n - 1];
    assert e in l.entries;
    var path := Join(dir, e.name);
    var nested := Collect(path, e.listing, sample, split);
    CollectKeepsPages(path, e.listing, sample, split);
    KeptUnderParent(dir, e.name, nested.files);
  }

  /** A page kept under `dir/name` is kept under `dir`. */
  lemma KeptUnderParent(dir: string, name: string, files: seq<MD>)
    requires forall m :: m in files ==> m.filePath == SamplePath || KeptPage(Join(dir, name), m)
    ensures forall m :: m in files ==> m.filePath == SamplePath || KeptPage(dir, m)
  {
    var path := Join(dir, name);
    assert HasPrefix(path + "/", dir + "/") by {
      assert (path + "/")[..|dir + "/"|] == dir + "/";
    }
    forall m | m in files && m.filePath != SamplePath
      ensures KeptPage(dir, m)
    {
      HasPrefixTrans(m.filePath, path + "/", dir + "/");
    }
  }

  /** A file's record, when kept, is a non-draft markdown page under `dir`. */
  lemma StepFileKeeps(dir: string, l: Listing, n: nat, prev: Walked, sample: string, split: string -> Split)
    requires l.Entries? && 0 < n <= |l.entries| && l.entries[n - 1].File?
    requires forall m :: m in prev.files ==> m.filePath == SamplePath || KeptPage(dir, m)
    ensures forall m :: m in CollectStep(dir, l, n, prev, sample, split).files ==> m.filePath == SamplePath || KeptPage(dir, m)
  {
    var e := l.entries[n - 1];
    var path := Join(dir, e.name);
    assert HasPrefix(path, dir + "/") by {
      assert path[..|dir + "/"|] == dir + "/";
    }
    LastSegmentOfJoin(dir, '/', e.name);
    assert path == dir + ['/'] + e.name;
  }

  /** A tree in which every directory can be listed and every markdown file
      can be read. */
  predicate Clean(l: Listing)
    decreases l, 1
  {
    l.Entries? && forall i :: 0 <= i < |l.entries| ==> EntryClean(l, i)
  }

  predicate EntryClean(l: Listing, i: nat)
    requires l.Entries? && i < |l.entries|
    decreases l, 0
  {
    assert l.entries[i] in l.entries;
    match l.entries[i]
    case File(name, data) => IsNotMarkdown(name) || data.Some?
    case Dir(_, child) => Clean(child)
  }

  /** The pages of a tree, read front to back: for each entry in listing
      order, the pages of a subdirectory, or the record of a markdown file
      that is not a draft. */
  function Pages(dir: string, l: Listing, split: string -> Split): seq<MD>
    decreases l, Width(l) + 1, 0
  {
    if l.Entries? then PagesFrom(dir, l, 0, split) else []
  }

  function PagesFrom(dir: string, l: Listing, i: nat, split: string -> Split): seq<MD>
    requires l.Entries? && i <= |l.entries|
    decreases l, |l.entries| - i, 2
  {
    if i == |l.entries| then [] else EntryPages(dir, l, i, split) + PagesFrom(dir, l, i + 1, split)
  }

  function EntryPages(dir: string, l: Listing, i: nat, split: string -> Split): seq<MD>
    requires l.Entries? && i < |l.entries|
    decreases l, |l.entries| - i, 1
  {
    var e := l.entries[i];
    assert e in l.entries;
    var path := Join(dir, e.name);
    match e
    case Dir(_, child) => Pages(path, child, split)
    case File(name, data) =>
      if IsNotMarkdown(name) || data.None? then []
      else
        var m := MD(path, split(data.value).front, split(data.value).body);
        if IsDraft(m) then [] else [m]
  }

  /** On a clean tree the walk reports no error and returns exactly its
      pages, in order: nothing is lost, nothing is reordered. */
  lemma {:induction false} CollectIsPages(dir: string, l: Listing, sample: string, split: string -> Split)
    requires Clean(l)
    ensures Collect(dir, l, sample, split) == Walked(Pages(dir, l, split), None)
    decreases l, Width(l) + 1, 1
  {
    CollectEntriesIsPages(dir, l, |l.entries|, sample, split);
    assert PagesFrom(dir, l, |l.entries|, split) == [];
  }

  lemma {:induction false} CollectEntriesIsPages(dir: string, l: Listing, n: nat, sample: string, split: string -> Split)
    requires Clean(l) && n <= |l.entries|
    ensures CollectEntries(dir, l, n, sample, split).err.None?
    ensures CollectEntries(dir, l, n, sample, split).files + PagesFrom(dir, l, n, split) == PagesFrom(dir, l, 0, split)
    decreases l, n, 1
  {
    if n > 0 {
      CollectEntriesIsPages(dir, l, n - 1, sample, split);
      var prev := CollectEntries(dir, l, n - 1, sample, split);
      var here := EntryPages(dir, l, n - 1, split);
      var later := PagesFrom(dir, l, n, split);
      assert PagesFrom(dir, l, n - 1, split) == here + later;
      assert CollectEntries(dir, l, n, sample, split) == CollectStep(dir, l, n, prev, sample, split);
      StepOfClean(dir, l, n, prev, sample, split);
      Assoc(prev.files, here, later);
    }
  }

  lemma {:induction false} StepOfClean(dir: string, l: Listing, n: nat, prev: Walked, sample: string, split: string -> Split)
    requires Clean(l) && 0 < n <= |l.entries| && prev.err.None?
    ensures CollectStep(dir, l, n, prev, sample, split) == Walked(prev.files + EntryPages(dir, l, n - 1, split), None)
    decreases l, n, 0
  {
    var e := l.entries[n - 1];
    assert e in l.entries;
    assert EntryClean(l, n - 1);
    if e.Dir? {
      CollectIsPages(Join(dir, e.name), e.listing, sample, split);
    }
    StepIsEntryPages(dir, l, n, prev, sample, split);
  }

  /** One step of the walk over a clean entry adds that entry's pages. */
  lemma StepIsEntryPages(dir: string, l: Listing, n: nat, prev: Walked, sample: string, split: string -> Split)
    requires l.Entries? && 0 < n <= |l.entries| && prev.err.None? && EntryClean(l, n - 1)
    requires var e := l.entries[n - 1];
      e.Dir? ==> Collect(Join(dir, e.name), e.listing, sample, split) == Walked(Pages(Join(dir, e.name), e.listing, split), None)
    ensures CollectStep(dir, l, n, prev, sample, split) == Walked(prev.files + EntryPages(dir, l, n - 1, split), None)
  {
    if l.entries[n - 1].Dir? {
      StepDirIsEntryPages(dir, l, n, prev, sample, split);
    } else {
      StepFileIsEntryPages(dir, l, n, prev, sample, split);
    }
  }

  lemma StepDirIsEntryPages(dir: string, l: Listing, n: nat, prev: Walked, sample: string, split: string -> Split)
    requires l.Entries? && 0 < n <= |l.entries| && prev.err.None? && l.entries[n - 1].Dir?
    requires var e := l.entries[n - 1];
      Collect(Join(dir, e.name), e.listing, sample, split) == Walked(Pages(Join(dir, e.name), e.listing, split), None)
    ensures CollectStep(dir, l, n, prev, sample, split) == Walked(prev.files + EntryPages(dir, l, n - 1, split), None)
  {
  }

  lemma StepFileIsEntryPages(dir: string, l: Listing, n: nat, prev: Walked, sample: string, split: string -> Split)
    requires l.Entries? && 0 < n <= |l.entries| && prev.err.None? && l.entries[n - 1].File?
    requires EntryClean(l, n - 1)
    ensures CollectStep(dir, l, n, prev, sample, split) == Walked(prev.files + EntryPages(dir, l, n - 1, split), None)
  {
    var e := l.entries[n - 1];
    if IsNotMarkdown(e.name) {
      StepSkip(dir, l, n, prev, sample, split);
    } else if IsDraft(MD(Join(dir, e.name), split(e.data.value).front, split(e.data.value).body)) {
      StepDraft(dir, l, n, prev, sample, split);
    } else {
      StepPage(dir, l, n, prev, sample, split);
    }
  }

  lemma StepSkip(dir: string, l: Listing, n: nat, prev: Walked, sample: string, split: string -> Split)
    requires l.Entries? && 0 < n <= |l.entries| && prev.err.None?
    requires var e := l.entries[n - 1]; e.File? && IsNotMarkdown(e.name)
    ensures CollectStep(dir, l, n, prev, sample, split) == Walked(prev.files + EntryPages(dir, l, n - 1, split), None)
  {
    assert prev.files + [] == prev.files;
  }

  lemma StepDraft(dir: string, l: Listing, n: nat, prev: Walked, sample: string, split: string -> Split)
    requires l.Entries? && 0 < n <= |l.entries| && prev.err.None?
    requires var e := l.entries[n - 1]; e.File? && !IsNotMarkdown(e.name) && e.data.Some?
    requires var e := l.entries[n - 1]; IsDraft(MD(Join(dir, e.name), split(e.data.value).front, split(e.data.value).body))
    ensures CollectStep(dir, l, n, prev, sample, split) == Walked(prev.files + EntryPages(dir, l, n - 1, split), None)
  {
    assert prev.files + [] == prev.files;
  }

  lemma StepPage(dir: string, l: Listing, n: nat, prev: Walked, sample: string, split: string -> Split)
    requires l.Entries? && 0 < n <= |l.entries| && prev.err.None?
    requires var e := l.entries[n - 1]; e.File? && !IsNotMarkdown(e.name) && e.data.Some?
    requires var e := l.entries[n - 1]; !IsDraft(MD(Join(dir, e.name), split(e.data.value).front, split(e.data.value).body))
    ensures CollectStep(dir, l, n, prev, sample, split) == Walked(prev.files + EntryPages(dir, l, n - 1, split), None)
  {
  }
}
