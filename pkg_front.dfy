/** `pkg/view` frontmatter: the TOML-only splitter of the `pkg` revision.
    Only "+++" opens and closes a block, and only the title is read. */
module PkgFront {
  import opened Base
  import opened Text
  import opened Lines

  /** The metadata this revision reads. */
  datatype Frontmatter = Frontmatter(title: string)

  /** A split file: the frontmatter (absent when the file has no block) and
      the body. */
  datatype Split = Split(front: Option<Frontmatter>, body: string)

  /** The TOML decoder is library code: given a block, the title it finds
      there (none when the key is missing or the block does not decode; the
      caller ignores the error and keeps the zero value). */
  function Decode(toml: string -> Option<string>, block: string): Frontmatter {
    match toml(block)
    case None => Frontmatter("")
    case Some(t) => Frontmatter(t)
  }

  /** The first line opens a block when its trimmed form starts with "+++". */
  predicate Opens(content: string) {
    HasPrefix(TrimSpace(ReadString(content, 0).line), TomlFence)
  }

  /** What `SplitFrontmatter` returns for `content`: without an opening
      "+++" the content comes back untouched with no frontmatter; otherwise
      the later lines are routed ("+++" lines are dropped and the first one
      ends the block), the trimmed block is decoded and the body trimmed. */
  function Splitting(content: string, toml: string -> Option<string>): (r: Split)
    ensures r.front.None? <==> !IsFence(ReadString(content, 0).line, TomlOnly)
    ensures r.front.None? ==> r.body == content
  {
    if !Opens(content) then Split(None, content)
    else
      var parts := Pending(content, ReadString(content, 0).next, true);
      Split(Some(Decode(toml, TrimSpace(parts.0))), TrimSpace(parts.1))
  }

  /** `SplitFrontmatter`: reads the first line and, when it opens a block,
      reads the rest into the metadata and body buffers. The in-memory
      reader reports nothing but end of input, so no error is returned. */
  method SplitFrontmatter(content: string, toml: string -> Option<string>) returns (front: Option<Frontmatter>, body: string)
    ensures Split(front, body) == Splitting(content, toml)
  {
    var start := ReadString(content, 0);
    if !HasPrefix(TrimSpace(start.line), TomlFence) {
      return None, content;
    }
    var meta, rest := ReadBlock(content, start.next);
    return Some(Decode(toml, TrimSpace(meta))), TrimSpace(rest);
  }

  /** The read loop: a "+++" line closes the block and skips the
      end-of-input test; any other line is written to the metadata buffer
      inside the block and to the body buffer after it. */
  method ReadBlock(content: string, from: nat) returns (meta: string, rest: string)
    requires from <= |content|
    ensures (meta, rest) == Pending(content, from, true)
  {
    ghost var total := Pending(content, from, true);
    meta, rest := "", "";
    var inFront := true;
    var pos := from;
    var done := false;
    while !done
      invariant from <= pos <= |content|
      invariant !done ==> meta + Pending(content, pos, inFront).0 == total.0
      invariant !done ==> rest + Pending(content, pos, inFront).1 == total.1
      invariant done ==> meta == total.0 && rest == total.1
      decreases |content| - pos, !done
    {
      var line := ReadString(content, pos);
      ghost var later := Pending(content, line.next, inFront);
      PendingStep(content, pos, inFront);
      pos := line.next;
      if HasPrefix(TrimSpace(line.line), TomlFence) {
        inFront := false;
        continue;
      }
      if inFront {
        Assoc(meta, line.line, later.0);
        meta := meta + line.line;
      } else {
        Assoc(rest, line.line, later.1);
        rest := rest + line.line;
      }
      if line.eof {
        done := true;
      }
    }
  }

  /** What the lines from `pos` on still contribute to the two buffers. */
  function Pending(content: string, pos: nat, inFront: bool): (string, string)
    requires pos <= |content|
  {
    Route(ReadAll(content, pos), inFront, FenceTest(TomlOnly))
  }

  /** One read of the loop, in terms of the line read and the lines after. */
  lemma PendingStep(content: string, pos: nat, inFront: bool)
    requires pos <= |content|
    ensures var r := ReadString(content, pos);
      var fence := HasPrefix(TrimSpace(r.line), TomlFence);
      var p := Pending(content, pos, inFront);
      var later := Pending(content, r.next, inFront);
      && (fence ==> p == Pending(content, r.next, false))
      && (!fence && r.eof ==> p == if inFront then (r.line, []) else ([], r.line))
      && (!fence && !r.eof ==> p == if inFront then (r.line + later.0, later.1) else (later.0, r.line + later.1))
  {
    var test := FenceTest(TomlOnly);
    var r := ReadString(content, pos);
    if test(r.line) {
      RouteReadFence(content, pos, inFront, test);
    } else if r.eof {
      RouteReadLast(content, pos, inFront, test);
    } else {
      RouteReadMore(content, pos, inFront, test);
    }
  }

  /** A first line that opens a YAML block ("---") opens nothing here: the
      content comes back untouched. */
  lemma YamlIsBody(content: string, toml: string -> Option<string>)
    requires HasPrefix(TrimSpace(ReadString(content, 0).line), YamlFence)
    ensures Splitting(content, toml) == Split(None, content)
  {
    var t := TrimSpace(ReadString(content, 0).line);
    assert t[0] == YamlFence[0] != TomlFence[0];
  }

  /** Inside an opened block, the metadata is every line before the first
      "+++" line, and the body every line after it except further "+++"
      lines, which appear in neither part. */
  lemma SplittingByFirstFence(content: string, toml: string -> Option<string>)
    requires Opens(content)
    ensures var fence := FenceTest(TomlOnly);
      var lines := ReadAll(content, ReadString(content, 0).next);
      var k := FirstFence(lines, fence);
      var bodyLines := NonFences(lines[k..], fence);
      && Splitting(content, toml) == Split(Some(Decode(toml, TrimSpace(Concat(lines[..k])))), TrimSpace(Concat(bodyLines)))
      && (forall i :: 0 <= i < k ==> !fence(lines[i]))
      && (forall l :: l in bodyLines ==> !fence(l))
  {
    var fence := FenceTest(TomlOnly);
    var lines := ReadAll(content, ReadString(content, 0).next);
    var k := FirstFence(lines, fence);
    RouteInside(lines, fence);
    FirstFenceIsFirst(lines, fence);
    NonFencesKeepsNoFence(lines[k..], fence);
  }

  /** A file written as a "+++" line, whole metadata lines, a closing "+++"
      line and a body splits back into that metadata (trimmed and decoded)
      and that body (trimmed), as long as no metadata or body line starts
      with "+++". */
  lemma SplitComposed(opener: string, metaLines: seq<string>, closer: string, rest: string, toml: string -> Option<string>)
    requires IsLine(opener) && IsFence(opener, TomlOnly)
    requires IsLine(closer) && IsFence(closer, TomlOnly)
    requires forall i :: 0 <= i < |metaLines| ==> IsLine(metaLines[i]) && !IsFence(metaLines[i], TomlOnly)
    requires FenceFree(ReadAll(rest, 0), FenceTest(TomlOnly))
    ensures Splitting(Concat([opener] + metaLines + [closer]) + rest, toml)
      == Split(Some(Decode(toml, TrimSpace(Concat(metaLines)))), TrimSpace(rest))
  {
    var fence := FenceTest(TomlOnly);
    assert fence(closer);
    assert forall i :: 0 <= i < |metaLines| ==> !fence(metaLines[i]);
    RouteDocument(opener, metaLines, closer, rest, fence);
  }
}
