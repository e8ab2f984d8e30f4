/** A `bufio.Reader` over an in-memory buffer, read with `ReadString('\n')`,
    and the routing of the lines after an opening fence into a metadata part
    and a body part. Both frontmatter splitters are built on it. */
module Lines {
  import opened Text

  /** One `ReadString('\n')` call: the text read, the position after it, and
      whether the call reported `io.EOF` (no newline was found). A reader over
      a byte slice reports no other error. */
  datatype Read = Read(line: string, next: nat, eof: bool)

  /** Index just past the first newline at or after `pos`, or `|s|` when
      there is none. */
  function LineEnd(s: string, pos: nat): (e: nat)
    requires pos <= |s|
    ensures pos <= e <= |s|
    ensures e == |s| || (e > pos && s[e - 1] == '\n')
    decreases |s| - pos
  {
    if pos == |s| then pos
    else if s[pos] == '\n' then pos + 1
    else LineEnd(s, pos + 1)
  }

  /** The line ends at the FIRST newline: there is none before its end. */
  lemma {:induction false} LineEndIsFirst(s: string, pos: nat)
    requires pos <= |s|
    ensures forall k :: pos <= k < LineEnd(s, pos) - 1 ==> s[k] != '\n'
    ensures LineEnd(s, pos) == |s| && (|s| == pos || s[|s| - 1] != '\n') ==> forall k :: pos <= k < |s| ==> s[k] != '\n'
    decreases |s| - pos
  {
    if pos < |s| && s[pos] != '\n' {
      LineEndIsFirst(s, pos + 1);
    }
  }

  function ReadString(s: string, pos: nat): (r: Read)
    requires pos <= |s|
    ensures pos <= r.next <= |s| && r.line == s[pos..r.next]
    ensures r.eof <==> !(r.next > pos && s[r.next - 1] == '\n')
    ensures !r.eof ==> r.next > pos
    ensures r.eof ==> r.next == |s|
  {
    var e := LineEnd(s, pos);
    Read(s[pos..e], e, !(e > pos && s[e - 1] == '\n'))
  }

  /** Every line successive `ReadString` calls return from `pos` on, up to and
      including the first one that reports `io.EOF` (which may be empty). */
  function ReadAll(s: string, pos: nat): (lines: seq<string>)
    requires pos <= |s|
    ensures lines != []
    decreases |s| - pos
  {
    var r := ReadString(s, pos);
    if r.eof then [r.line] else [r.line] + ReadAll(s, r.next)
  }

  /** The lines read from `pos` on are exactly the rest of the buffer:
      reading loses and adds nothing. */
  lemma {:induction false} ReadAllCoversRest(s: string, pos: nat)
    requires pos <= |s|
    ensures Concat(ReadAll(s, pos)) == s[pos..]
    decreases |s| - pos
  {
    var r := ReadString(s, pos);
    if r.eof {
      assert ReadAll(s, pos) == [r.line];
      assert Concat([r.line]) == r.line + Concat([]);
    } else {
      ReadAllCoversRest(s, r.next);
      assert s[pos..] == r.line + s[r.next..];
    }
  }

  /** Every line read but the last ends with its only newline; the last one
      has none. */
  lemma {:induction false} ReadAllShape(s: string, pos: nat)
    requires pos <= |s|
    ensures var lines := ReadAll(s, pos);
      && (forall i :: 0 <= i < |lines| - 1 ==> lines[i] != [] && lines[i][|lines[i]| - 1] == '\n')
      && '\n' !in lines[|lines| - 1]
    decreases |s| - pos
  {
    var r := ReadString(s, pos);
    var lines := ReadAll(s, pos);
    if r.eof {
      LineEndIsFirst(s, pos);
      assert lines == [r.line];
    } else {
      var rest := ReadAll(s, r.next);
      ReadAllShape(s, r.next);
      assert lines == [r.line] + rest;
      assert lines[|lines| - 1] == rest[|rest| - 1];
      forall i | 0 <= i < |lines| - 1
        ensures lines[i] != [] && lines[i][|lines[i]| - 1] == '\n'
      {
        if i > 0 {
          assert lines[i] == rest[i - 1];
        }
      }
    }
  }

  /** A newline at the end of `a` stops a line started inside `a` before
      anything appended to it is looked at. */
  lemma {:induction false} LineEndAppend(a: string, b: string, pos: nat)
    requires pos < |a| && a[|a| - 1] == '\n'
    ensures LineEnd(a + b, pos) == LineEnd(a, pos)
    decreases |a| - pos
  {
    if a[pos] != '\n' {
      LineEndAppend(a, b, pos + 1);
    }
  }

  /** Reading a buffer `s` past its first `d` characters reads the rest of
      it as if the rest stood alone. */
  lemma {:induction false} LineEndShift(s: string, d: nat, p: nat)
    requires d <= |s| && p <= |s| - d
    ensures LineEnd(s, d + p) == d + LineEnd(s[d..], p)
    decreases |s| - d - p
  {
    if p < |s| - d {
      assert s[d + p] == s[d..][p];
      if s[d + p] != '\n' {
        LineEndShift(s, d, p + 1);
      }
    }
  }

  lemma ReadStringShift(s: string, d: nat, p: nat)
    requires d <= |s| && p <= |s| - d
    ensures var r := ReadString(s[d..], p);
      ReadString(s, d + p) == Read(r.line, d + r.next, r.eof)
  {
    LineEndShift(s, d, p);
    var r := ReadString(s[d..], p);
    assert s[d + p..d + r.next] == s[d..][p..r.next];
    if r.next > p {
      assert s[d + r.next - 1] == s[d..][r.next - 1];
    }
  }

  lemma {:induction false} ReadAllShift(s: string, d: nat, p: nat)
    requires d <= |s| && p <= |s| - d
    ensures ReadAll(s, d + p) == ReadAll(s[d..], p)
    decreases |s| - d - p
  {
    ReadStringShift(s, d, p);
    var r := ReadString(s[d..], p);
    if !r.eof {
      ReadAllShift(s, d, r.next);
    }
    SameReads(s, d + p, s[d..], p);
  }

  /** Two readers that read the same line, and then the same lines, read
      the same lines. */
  lemma SameReads(s: string, x: nat, b: string, y: nat)
    requires x <= |s| && y <= |b|
    requires ReadString(s, x).line == ReadString(b, y).line && ReadString(s, x).eof == ReadString(b, y).eof
    requires !ReadString(b, y).eof ==> ReadAll(s, ReadString(s, x).next) == ReadAll(b, ReadString(b, y).next)
    ensures ReadAll(s, x) == ReadAll(b, y)
  {
  }

  /** The lines of `a + b`, when `a` ends with a newline, are the lines of
      `a` (without the empty read that ends them) followed by those of `b`. */
  lemma {:induction false} ReadAllAppend(a: string, b: string, pos: nat)
    requires pos <= |a| && a != [] && a[|a| - 1] == '\n'
    ensures var la := ReadAll(a, pos);
      ReadAll(a + b, pos) == la[..|la| - 1] + ReadAll(b, 0)
    decreases |a| - pos
  {
    if pos == |a| {
      AppendAtEnd(a, b);
    } else {
      var r := ReadString(a, pos);
      ReadAllAppend(a, b, r.next);
      AppendStep(a, b, pos);
    }
  }

  /** At the end of `a`, `a` reads one empty line and `a + b` reads `b`. */
  lemma AppendAtEnd(a: string, b: string)
    ensures ReadAll(a, |a|) == [[]]
    ensures ReadAll(a + b, |a|) == ReadAll(b, 0)
  {
    ReadAllShift(a + b, |a|, 0);
    assert (a + b)[|a|..] == b;
  }

  /** One line of `a` read ahead of the rest of `a + b`. */
  lemma AppendStep(a: string, b: string, pos: nat)
    requires pos < |a| && a[|a| - 1] == '\n'
    requires var next := ReadString(a, pos).next; var la := ReadAll(a, next);
      ReadAll(a + b, next) == la[..|la| - 1] + ReadAll(b, 0)
    ensures var la := ReadAll(a, pos);
      ReadAll(a + b, pos) == la[..|la| - 1] + ReadAll(b, 0)
  {
    ReadStringAppend(a, b, pos);
    var r := ReadString(a, pos);
    ReadAllCons(a, pos);
    ReadAllCons(a + b, pos);
    DropLastCons(r.line, ReadAll(a, r.next));
  }

  /** A read that started inside `a`, which ends with a newline, stops
      within `a`. */
  lemma ReadStringAppend(a: string, b: string, pos: nat)
    requires pos < |a| && a[|a| - 1] == '\n'
    ensures ReadString(a + b, pos) == ReadString(a, pos) && !ReadString(a, pos).eof
  {
    LineEndAppend(a, b, pos);
    var e := LineEnd(a, pos);
    assert (a + b)[pos..e] == a[pos..e];
    assert (a + b)[e - 1] == a[e - 1];
  }

  /** A read that found a newline is followed by the reads after it. */
  lemma ReadAllCons(s: string, pos: nat)
    requires pos <= |s| && !ReadString(s, pos).eof
    ensures ReadAll(s, pos) == [ReadString(s, pos).line] + ReadAll(s, ReadString(s, pos).next)
  {
  }

  lemma EmptyAppend<T>(a: seq<T>, b: seq<T>)
    requires a == []
    ensures a + b == b
  {
  }

  lemma ConsTail<T>(a: seq<T>, b: seq<T>)
    requires a != []
    ensures (a + b)[0] == a[0] && (a + b)[1..] == a[1..] + b
  {
  }

  lemma DropLastCons<T>(x: T, s: seq<T>)
    requires s != []
    ensures ([x] + s)[..|s|] == [x] + s[..|s| - 1]
  {
  }

  /** A single line as a writer emits it: ends with its only newline. */
  predicate IsLine(l: string) {
    l != [] && l[|l| - 1] == '\n' && '\n' !in l[..|l| - 1]
  }

  lemma ReadAllOfLine(l: string)
    requires IsLine(l)
    ensures ReadAll(l, 0) == [l, ""]
  {
    assert l[0..|l|] == l;
  }

  /** Reading back text written as whole lines gives those lines, followed
      by the lines of whatever comes after them. */
  lemma {:induction false} ReadAllAfterLines(ls: seq<string>, rest: string)
    requires forall i :: 0 <= i < |ls| ==> IsLine(ls[i])
    ensures ReadAll(Concat(ls) + rest, 0) == ls + ReadAll(rest, 0)
  {
    if ls == [] {
      assert Concat(ls) + rest == rest;
      EmptyAppend(ls, ReadAll(rest, 0));
    } else {
      var tail := Concat(ls[1..]) + rest;
      assert Concat(ls) + rest == ls[0] + tail;
      ReadAllAfterLines(ls[1..], rest);
      ReadAllOfLine(ls[0]);
      ReadAllAppend(ls[0], tail, 0);
      assert [ls[0], ""][..1] == [ls[0]];
      ConsSplit(ls, ReadAll(rest, 0));
    }
  }

  lemma ConsSplit<T>(a: seq<T>, b: seq<T>)
    requires a != []
    ensures [a[0]] + (a[1..] + b) == a + b
  {
  }

  /** Which fences open and close a metadata block. */
  datatype Syntax =
    | TomlOnly    // only "+++"
    | TomlOrYaml  // "+++" (TOML) or "---" (YAML)

  const TomlFence := "+++"
  const YamlFence := "---"

  /** A line is a fence when its trimmed form STARTS with a fence marker
      (a prefix test, so "----" and "+++x" count too). */
  predicate IsFence(line: string, syntax: Syntax) {
    HasPrefix(TrimSpace(line), TomlFence) || (syntax == TomlOrYaml && HasPrefix(TrimSpace(line), YamlFence))
  }

  /** A line whose first character is neither white space nor a fence
      character is no fence. */
  lemma NotFenceByFirst(line: string, syntax: Syntax)
    requires line != [] && !IsSpace(line[0]) && line[0] != '+' && line[0] != '-'
    ensures !IsFence(line, syntax)
  {
    assert TrimLeft(line) == line;
    var r := TrimSpace(line);
    assert r == line[..|r|];
    if |r| >= 3 {
      assert r[0] == line[0];
    }
  }

  /** A line that is a fence marker and a newline is a fence. */
  lemma FenceLine(marker: string, syntax: Syntax)
    requires marker == TomlFence || (marker == YamlFence && syntax == TomlOrYaml)
    ensures IsLine(marker + "\n") && IsFence(marker + "\n", syntax)
  {
    var line := marker + "\n";
    assert TrimLeft(line) == line;
    assert TrimRight(line) == marker;
    assert line[..|line| - 1] == marker;
  }

  /** The fence test as a value. The routing below is stated for any line
      classifier, so that its proofs never look inside the test. */
  function FenceTest(syntax: Syntax): string -> bool {
    line => IsFence(line, syntax)
  }

  /** What the splitter loop writes to its two buffers, given the lines it
      reads and whether it is still inside the metadata block: a fence line
      is dropped and ends the block, any other line goes to the metadata
      buffer while inside the block and to the body buffer afterwards. */
  function Route(lines: seq<string>, inFront: bool, fence: string -> bool): (r: (string, string))
    ensures !inFront ==> r.0 == []
  {
    if lines == [] then ([], [])
    else if fence(lines[0]) then Route(lines[1..], false, fence)
    else
      var rest := Route(lines[1..], inFront, fence);
      if inFront then (lines[0] + rest.0, rest.1) else (rest.0, lines[0] + rest.1)
  }

  predicate FenceFree(lines: seq<string>, fence: string -> bool) {
    forall i :: 0 <= i < |lines| ==> !fence(lines[i])
  }

  lemma {:induction false} NonFencesOfFenceFree(lines: seq<string>, fence: string -> bool)
    requires FenceFree(lines, fence)
    ensures NonFences(lines, fence) == lines
  {
    if lines != [] {
      NonFencesOfFenceFree(lines[1..], fence);
    }
  }

  /** Index of the first fence line, or `|lines|` when there is none. */
  function FirstFence(lines: seq<string>, fence: string -> bool): (k: nat)
    ensures k <= |lines|
  {
    if lines == [] then 0
    else if fence(lines[0]) then 0
    else 1 + FirstFence(lines[1..], fence)
  }

  /** `FirstFence` finds the first fence: none before it, one at it. */
  lemma {:induction false} FirstFenceIsFirst(lines: seq<string>, fence: string -> bool)
    ensures var k := FirstFence(lines, fence);
      && (forall i :: 0 <= i < k ==> !fence(lines[i]))
      && (k < |lines| ==> fence(lines[k]))
  {
    if lines != [] && !fence(lines[0]) {
      FirstFenceIsFirst(lines[1..], fence);
    }
  }

  /** The lines that are not fences, in order. */
  function NonFences(lines: seq<string>, fence: string -> bool): (r: seq<string>)
    ensures |r| <= |lines|
  {
    if lines == [] then []
    else if fence(lines[0]) then NonFences(lines[1..], fence)
    else [lines[0]] + NonFences(lines[1..], fence)
  }

  /** A fence preceded only by non-fence lines is the first fence. */
  lemma {:induction false} FirstFenceAt(lines: seq<string>, k: nat, fence: string -> bool)
    requires k < |lines| && fence(lines[k])
    requires forall i :: 0 <= i < k ==> !fence(lines[i])
    ensures FirstFence(lines, fence) == k
  {
    if k > 0 {
      assert !fence(lines[0]);
      FirstFenceAt(lines[1..], k - 1, fence);
    }
  }

  /** `NonFences` keeps exactly the non-fence lines. */
  lemma {:induction false} NonFencesKeepsNoFence(lines: seq<string>, fence: string -> bool)
    ensures forall l :: l in NonFences(lines, fence) <==> l in lines && !fence(l)
  {
    if lines != [] {
      NonFencesKeepsNoFence(lines[1..], fence);
      assert lines == [lines[0]] + lines[1..];
    }
  }

  /** After the block has ended, the body receives every non-fence line. */
  lemma {:induction false} RouteOutside(lines: seq<string>, fence: string -> bool)
    ensures Route(lines, false, fence) == ([], Concat(NonFences(lines, fence)))
  {
    if lines != [] {
      RouteOutside(lines[1..], fence);
    }
  }

  /** Inside the block, the metadata is every line before the first fence,
      and the body is every non-fence line after it. */
  lemma {:induction false} RouteInside(lines: seq<string>, fence: string -> bool)
    ensures var k := FirstFence(lines, fence);
      Route(lines, true, fence) == (Concat(lines[..k]), Concat(NonFences(lines[k..], fence)))
  {
    if lines == [] {
    } else if fence(lines[0]) {
      RouteOutside(lines[1..], fence);
      assert lines[0..] == lines;
    } else {
      RouteInside(lines[1..], fence);
      RouteInsideStep(lines, fence);
    }
  }

  lemma RouteInsideStep(lines: seq<string>, fence: string -> bool)
    requires lines != [] && !fence(lines[0])
    requires var k := FirstFence(lines[1..], fence);
      Route(lines[1..], true, fence) == (Concat(lines[1..][..k]), Concat(NonFences(lines[1..][k..], fence)))
    ensures var k := FirstFence(lines, fence);
      Route(lines, true, fence) == (Concat(lines[..k]), Concat(NonFences(lines[k..], fence)))
  {
    var k' := FirstFence(lines[1..], fence);
    SliceShift(lines, k' + 1);
  }

  /** Inside the block, non-fence lines followed by a fence and fence-free
      lines route to those first lines (metadata) and the last ones (body). */
  lemma RouteComposed(meta: seq<string>, closer: string, body: seq<string>, fence: string -> bool)
    requires forall i :: 0 <= i < |meta| ==> !fence(meta[i])
    requires fence(closer) && FenceFree(body, fence)
    ensures Route(meta + ([closer] + body), true, fence) == (Concat(meta), Concat(body))
  {
    var lines := meta + ([closer] + body);
    var k := |meta|;
    ComposedParts(meta, closer, body);
    FirstFenceAt(lines, k, fence);
    RouteInside(lines, fence);
    ConsTail([closer], body);
    NonFencesOfFenceFree(body, fence);
  }

  lemma ComposedParts<T>(m: seq<T>, y: T, r: seq<T>)
    ensures (m + ([y] + r))[|m|] == y
    ensures forall i :: 0 <= i < |m| ==> (m + ([y] + r))[i] == m[i]
    ensures (m + ([y] + r))[..|m|] == m && (m + ([y] + r))[|m|..] == [y] + r
  {
  }

  /** The first read of a buffer gives the first line; when more lines
      follow, they are the ones read from where it stopped. */
  lemma ReadAllHead(s: string)
    ensures var r := ReadString(s, 0);
      var lines := ReadAll(s, 0);
      lines[0] == r.line && (|lines| > 1 ==> !r.eof && ReadAll(s, r.next) == lines[1..])
  {
    var r := ReadString(s, 0);
    if !r.eof {
      ConsTail([r.line], ReadAll(s, r.next));
    }
  }

  /** Routing the lines read from `pos`, by the first of them: a fence
      hands the rest over with the block closed (after a fence read at the
      end of input, the one more read that follows yields nothing). */
  lemma RouteReadFence(s: string, pos: nat, inFront: bool, fence: string -> bool)
    requires pos <= |s| && fence(ReadString(s, pos).line)
    ensures Route(ReadAll(s, pos), inFront, fence) == Route(ReadAll(s, ReadString(s, pos).next), false, fence)
  {
    var r := ReadString(s, pos);
    if r.eof {
      assert ReadAll(s, pos) == [r.line];
      var last := ReadString(s, r.next);
      assert last.line == [];
      assert ReadAll(s, r.next) == [last.line];
      OneTail(r.line);
      OneTail(last.line);
    } else {
      ConsTail([r.line], ReadAll(s, r.next));
    }
  }

  /** A last line that is not a fence goes to the buffer in use. */
  lemma RouteReadLast(s: string, pos: nat, inFront: bool, fence: string -> bool)
    requires pos <= |s|
    requires var r := ReadString(s, pos); !fence(r.line) && r.eof
    ensures var r := ReadString(s, pos);
      Route(ReadAll(s, pos), inFront, fence) == if inFront then (r.line, []) else ([], r.line)
  {
    var r := ReadString(s, pos);
    assert ReadAll(s, pos) == [r.line];
    OneTail(r.line);
    assert r.line + [] == r.line;
  }

  /** A line that is neither a fence nor the last goes to the buffer in use,
      ahead of what the later lines contribute. */
  lemma RouteReadMore(s: string, pos: nat, inFront: bool, fence: string -> bool)
    requires pos <= |s|
    requires var r := ReadString(s, pos); !fence(r.line) && !r.eof
    ensures var r := ReadString(s, pos);
      var later := Route(ReadAll(s, r.next), inFront, fence);
      Route(ReadAll(s, pos), inFront, fence) == if inFront then (r.line + later.0, later.1) else (later.0, r.line + later.1)
  {
    var r := ReadString(s, pos);
    ConsTail([r.line], ReadAll(s, r.next));
  }

  lemma Assoc<T>(a: seq<T>, b: seq<T>, c: seq<T>)
    ensures a + (b + c) == (a + b) + c
  {
  }

  lemma OneTail<T>(x: T)
    ensures [x][0] == x && [x][1..] == []
  {
  }

  /** Slicing identities, stated for any element type so that the solver
      does not look inside the elements. */
  lemma SliceShift<T>(s: seq<T>, k: nat)
    requires 1 <= k <= |s|
    ensures s[..k] == [s[0]] + s[1..][..k - 1]
    ensures s[1..][k - 1..] == s[k..]
  {
  }

  /** A buffer written as an opening line, whole lines without a fence, a
      fence line and a fence-free rest: the first read gives the opening
      line, and the lines after it route to those middle lines and that
      rest. */
  lemma {:induction false} RouteDocument(opener: string, metaLines: seq<string>, closer: string, rest: string, fence: string -> bool)
    requires IsLine(opener) && IsLine(closer) && fence(closer)
    requires forall i :: 0 <= i < |metaLines| ==> IsLine(metaLines[i]) && !fence(metaLines[i])
    requires FenceFree(ReadAll(rest, 0), fence)
    ensures var content := Concat([opener] + metaLines + [closer]) + rest;
      var first := ReadString(content, 0);
      first.line == opener && Route(ReadAll(content, first.next), true, fence) == (Concat(metaLines), rest)
  {
    var written := [opener] + metaLines + [closer];
    var content := Concat(written) + rest;
    var rs := ReadAll(rest, 0);
    ReadAllAfterLines(written, rest);
    ReadAllHead(content);
    DocumentTail(opener, metaLines, closer, rs);
    RouteComposed(metaLines, closer, rs, fence);
    ReadAllCoversRest(rest, 0);
    assert rest[0..] == rest;
  }

  lemma DocumentTail<T>(x: T, m: seq<T>, y: T, r: seq<T>)
    ensures (([x] + m + [y]) + r)[0] == x
    ensures |([x] + m + [y]) + r| > 1
    ensures (([x] + m + [y]) + r)[1..] == m + ([y] + r)
  {
  }
}
