/** The content walk that `cmd/build` and `cmd/view` share, as a value: a
    directory that cannot be listed is fatal, subdirectories are walked in
    entry order, and files that are not markdown, cannot be read or are
    drafts are skipped. The two revisions differ only in how a file's data
    is split, which is a parameter here. */
module Walk {
  import opened Base
  import opened Fs
  import opened Utils
  import opened Md
  import Lines

  /** The splitter of this revision is library code that may fail; a split
      failure leaves the raw data as the body with no frontmatter. */
  function Fallback(split: string -> Option<Split>): string -> Split {
    data => if split(data).Some? then split(data).value else Split(None, data)
  }

  /** What `openContentFile(p, t)` yields, as a page record: nothing when
      the file cannot be read, the raw data when the split fails, the split
      otherwise. */
  function Opened(p: string, data: Option<string>, split: string -> Option<Split>): Option<MD> {
    if data.None? then None else Some(MD(p, Fallback(split)(data.value).front, Fallback(split)(data.value).body))
  }

  /** Once the walk has exited, later entries change nothing. */
  lemma {:induction false} ExitSticks(dir: string, l: Listing, n: nat, m: nat, split: string -> Option<Split>)
    requires l.Entries? && n <= m <= |l.entries|
    requires DiscoverEntries(dir, l, n, split).None?
    ensures DiscoverEntries(dir, l, m, split).None?
    decreases m - n
  {
    if m > n {
      ExitSticks(dir, l, n, m - 1, split);
    }
  }

  /** What the walk of `dir` keeps, in order, or `None` when it exits
      because a directory cannot be listed. */
  function Discover(dir: string, l: Listing, split: string -> Option<Split>): Option<seq<MD>>
    decreases l, Width(l) + 1
  {
    if l.Entries? then DiscoverEntries(dir, l, |l.entries|, split) else None
  }

  /** The walk over the first `n` entries: subdirectories are walked and
      appended, files that are not markdown, cannot be read or are drafts
      are skipped. */
  function DiscoverEntries(dir: string, l: Listing, n: nat, split: string -> Option<Split>): Option<seq<MD>>
    requires l.Entries? && n <= |l.entries|
    decreases l, n
  {
    if n == 0 then Some([])
    else
      var prev := DiscoverEntries(dir, l, n - 1, split);
      var e := l.entries[n - 1];
      assert e in l.entries;
      var path := Join(dir, e.name);
      if prev.None? then None
      else match e
        case Dir(_, child) =>
          var nested := Discover(path, child, split);
          if nested.None? then None else Some(prev.value + nested.value)
        case File(name, data) =>
          var m := Opened(path, data, split);
          if IsNotMarkdown(name) || m.None? || IsDraft(m.value) then prev else Some(prev.value + [m.value])
  }

  /** Every directory of the tree can be listed. */
  predicate Listable(l: Listing)
    decreases l
  {
    l.Entries? && forall e :: e in l.entries && e.Dir? ==> Listable(e.listing)
  }

  /** The walk exits exactly when some directory of the tree cannot be
      listed; otherwise it keeps exactly the tree's pages, in order: every
      readable non-draft markdown file, split with the raw data as
      fallback. */
  lemma {:induction false} DiscoverIsPages(dir: string, l: Listing, split: string -> Option<Split>)
    ensures Discover(dir, l, split).None? <==> !Listable(l)
    ensures Listable(l) ==> Discover(dir, l, split) == Some(Pages(dir, l, Fallback(split)))
    decreases l, Width(l) + 1
  {
    if l.Entries? {
      DiscoverEntriesIsPages(dir, l, |l.entries|, split);
      assert !Listable(l) <==> exists i :: 0 <= i < |l.entries| && Unlisted(l, i) by {
        if !Listable(l) {
          var e :| e in l.entries && e.Dir? && !Listable(e.listing);
          var i :| 0 <= i < |l.entries| && l.entries[i] == e;
          assert Unlisted(l, i);
        }
      }
      assert PagesFrom(dir, l, |l.entries|, Fallback(split)) == [];
      var found := DiscoverEntries(dir, l, |l.entries|, split);
      if found.Some? {
        assert found.value + [] == found.value;
      }
    }
  }

  lemma {:induction false} DiscoverEntriesIsPages(dir: string, l: Listing, n: nat, split: string -> Option<Split>)
    requires l.Entries? && n <= |l.entries|
    ensures DiscoverEntries(dir, l, n, split).None? <==> exists i :: 0 <= i < n && Unlisted(l, i)
    ensures DiscoverEntries(dir, l, n, split).Some? ==>
      DiscoverEntries(dir, l, n, split).value + PagesFrom(dir, l, n, Fallback(split)) == PagesFrom(dir, l, 0, Fallback(split))
    decreases l, n
  {
    if n > 0 {
      DiscoverEntriesIsPages(dir, l, n - 1, split);
      var e := l.entries[n - 1];
      assert e in l.entries;
      var prev := DiscoverEntries(dir, l, n - 1, split);
      if e.Dir? {
        DiscoverIsPages(Join(dir, e.name), e.listing, split);
      }
      if prev.Some? {
        var here := EntryPages(dir, l, n - 1, Fallback(split));
        var later := PagesFrom(dir, l, n, Fallback(split));
        assert PagesFrom(dir, l, n - 1, Fallback(split)) == here + later;
        StepIsEntryPages(dir, l, n, prev.value, split);
        if DiscoverEntries(dir, l, n, split).Some? {
          Lines.Assoc(prev.value, here, later);
        }
      }
      forall i | 0 <= i < n - 1
        ensures Unlisted(l, i) ==> exists k :: 0 <= k < n && Unlisted(l, k)
      {
      }
    }
  }

  /** Entry `i` is a directory that cannot be listed (at any depth). */
  predicate Unlisted(l: Listing, i: nat)
    requires l.Entries? && i < |l.entries|
  {
    l.entries[i].Dir? && !Listable(l.entries[i].listing)
  }

  /** One step of the walk adds the entry's pages, or exits when the entry
      is a directory that cannot be listed. */
  lemma StepIsEntryPages(dir: string, l: Listing, n: nat, prev: seq<MD>, split: string -> Option<Split>)
    requires l.Entries? && 0 < n <= |l.entries|
    requires DiscoverEntries(dir, l, n - 1, split) == Some(prev)
    requires var e := l.entries[n - 1];
      e.Dir? ==> (Discover(Join(dir, e.name), e.listing, split).None? <==> !Listable(e.listing))
    requires var e := l.entries[n - 1];
      e.Dir? && Listable(e.listing) ==>
        Discover(Join(dir, e.name), e.listing, split) == Some(Pages(Join(dir, e.name), e.listing, Fallback(split)))
    ensures DiscoverEntries(dir, l, n, split).None? <==> Unlisted(l, n - 1)
    ensures DiscoverEntries(dir, l, n, split).Some? ==>
      DiscoverEntries(dir, l, n, split) == Some(prev + EntryPages(dir, l, n - 1, Fallback(split)))
  {
    var e := l.entries[n - 1];
    if e.File? {
      var m := Opened(Join(dir, e.name), e.data, split);
      if IsNotMarkdown(e.name) || m.None? || IsDraft(m.value) {
        assert prev + [] == prev;
      }
    }
  }
}
