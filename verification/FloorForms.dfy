/** What the floor makes of lines as they are written: whole byte streams in, blocks out, with
    the forms spelled out. */
module FloorForms {
  import opened Bytes
  import opened Blocks
  import opened Splitting
  import opened Unicode
  import opened FloorSpec
  import opened Floor
  import opened FloorRefinement
  import opened FloorLaws
  import opened FloorEscapes

  // ---------- the forms ----------

  /** Valid UTF-8 without control bytes. */
  ghost predicate Plain(s: Text) { WellFormed(s) && forall i :: 0 <= i < |s| ==> s[i] >= 0x20 }

  /** Three backticks after nothing but white space. */
  ghost predicate FenceForm(line: Text) { AfterWhite(line, Ascii("```")) }

  /** "@@ " after nothing but white space, or "diff --git " at the very front. */
  ghost predicate DiffStartForm(line: Text) { AfterWhite(line, Ascii("@@ ")) || Ascii("diff --git ") <= line }

  /** A plus, a minus, a space, an at sign or a backslash in front, or "diff --git". */
  predicate DiffLineForm(line: Text) {
    || (line != [] && line[0] as char in {'+', '-', ' ', '@', '\\'})
    || Ascii("diff --git") <= line
  }

  lemma FenceIsForm(line: Text)
    ensures IsFence(line) <==> FenceForm(line)
  {
    assert Ascii("```") == BACKTICKS;
    FoundAfterWhite(line, BACKTICKS);
  }

  lemma DiffStartIsForm(line: Text)
    ensures StartsDiff(line) <==> DiffStartForm(line)
  {
    assert Ascii("@@ ") == HUNK && Ascii("diff --git ") == DIFF_GIT + [SPACE];
    FoundAfterWhite(line, HUNK);
  }

  lemma DiffLineIsForm(line: Text)
    ensures IsDiffLine(line) <==> DiffLineForm(line)
  {
    assert Ascii("diff --git") == DIFF_GIT;
  }

  // ---------- one line ----------

  lemma PlainIsClean(line: Text)
    requires Plain(line)
    ensures Clean(line)
  {
    LossyKeepsWellFormed(line);
  }

  lemma DeriveLines(lines: seq<Text>)
    requires AllClean(lines)
    ensures Derive(JoinLines(lines)) == Segment(Toks(lines))
  {
    FloorRefines(JoinLines(lines));
    LinesRoundTrip(lines);
  }

  lemma SegmentOne(tok: Tok)
    requires tok.Line? ==> TextualKind(tok.kind)
    ensures Segment([tok]) == if tok.Fence? then [Code(None, [], true)] else [Done(tok.kind, tok.text + [LF])]
  {
    assert [tok][1..] == [] && [tok][..1] == [tok];
    assert Segment([]) == [] && Joined([]) == [] && RunLength([], CodeKind) == 0;
    if tok.Fence? {
      assert [tok][1..1 + 0] == [] && [tok][1 + 0..] == [];
      Unit([Done(CodeKind, [])]);
    } else {
      assert RunLength([tok], tok.kind) == 1;
      Unit(tok.text + [LF]);
      assert Joined([tok]) == tok.text + [LF];
      Unit([Done(tok.kind, tok.text + [LF])]);
    }
  }

  lemma TokOfFirst(lines: seq<Text>)
    requires lines != []
    ensures TokAt(lines, 0) ==
            if IsFence(lines[0]) then Fence
            else if StartsDiff(lines[0]) && IsDiffLine(lines[0]) then Line(DiffKind, lines[0])
            else Line(MarkdownKind, lines[0])
    ensures DiffOpen(lines, 1) <==> !IsFence(lines[0]) && StartsDiff(lines[0]) && IsDiffLine(lines[0])
  {
    hide IsFence, StartsDiff, IsDiffLine;
    DiffOpenStep(lines, 0);
    assert FencesBefore(lines, 0) == 0;
  }

  /** One line by itself: a fence opens a code block, a line that opens a diff and is a diff
      line is a diff, and any other line is prose. */
  lemma OneLine(line: Text)
    requires Plain(line)
    ensures Derive(line + [0x0a]) ==
            if FenceForm(line) then [Code(None, [], true)]
            else if DiffStartForm(line) && DiffLineForm(line) then [Diff(line + [0x0a], true)]
            else [Markdown(line + [0x0a], true)]
  {
    PlainIsClean(line);
    OneLineJoined(line);
    FenceIsForm(line);
    DiffStartIsForm(line);
    DiffLineIsForm(line);
    hide *;
    DeriveLines([line]);
    TokOfFirst([line]);
    OneTok(line);
    SegmentOne(TokAt([line], 0));
    OneKind(line);
  }

  lemma OneLineJoined(line: Text)
    requires Clean(line)
    ensures JoinLines([line]) == line + [LF] && AllClean([line])
  {
    assert [line][1..] == [];
    assert JoinLines([]) == [];
    Unit(line + [LF]);
  }

  lemma OneTok(line: Text)
    ensures Toks([line]) == [TokAt([line], 0)]
  {
  }

  lemma OneKind(line: Text)
    ensures TextualKind(DiffKind) && TextualKind(MarkdownKind)
    ensures Done(DiffKind, line + [LF]) == Diff(line + [0x0a], true)
    ensures Done(MarkdownKind, line + [LF]) == Markdown(line + [0x0a], true)
    ensures line + [LF] == line + [0x0a]
  {
  }

  // ---------- two lines ----------

  lemma SegmentTwo(a: Tok, b: Tok)
    requires a.Line? && b.Line? && TextualKind(a.kind) && TextualKind(b.kind)
    ensures Segment([a] + [b]) ==
            if a.kind == b.kind then [Done(a.kind, (a.text + [LF]) + (b.text + [LF]))]
            else [Done(a.kind, a.text + [LF])] + [Done(b.kind, b.text + [LF])]
  {
    var toks := [a] + [b];
    SegmentOne(b);
    assert toks[1..] == [b] && [b][1..] == [] && toks[..2] == toks && toks[..1] == [a] && toks[2..] == [];
    assert Segment([]) == [] && Joined([]) == [];
    assert Joined([b]) == b.text + [LF] by { Unit(b.text + [LF]); }
    assert Joined(toks) == (a.text + [LF]) + (b.text + [LF]);
    assert Joined([a]) == a.text + [LF] by { assert [a][1..] == []; Unit(a.text + [LF]); }
    if a.kind == b.kind {
      assert RunLength([b], a.kind) == 1 && RunLength(toks, a.kind) == 2;
      Unit([Done(a.kind, Joined(toks))]);
    } else {
      assert RunLength([b], a.kind) == 0 && RunLength(toks, a.kind) == 1;
    }
  }

  lemma TokOfSecond(x: Text, y: Text)
    requires !IsFence(x) && !IsFence(y)
    ensures TokAt([x] + [y], 1) ==
            Line(if ((StartsDiff(x) && IsDiffLine(x)) || StartsDiff(y)) && IsDiffLine(y) then DiffKind else MarkdownKind, y)
    ensures TokAt([x] + [y], 0) == Line(if StartsDiff(x) && IsDiffLine(x) then DiffKind else MarkdownKind, x)
  {
    hide IsFence, StartsDiff, IsDiffLine;
    var lines := [x] + [y];
    TokOfFirst(lines);
    DiffOpenStep(lines, 1);
    assert FencesBefore(lines, 0) == 0 && FencesBefore(lines, 1) == 0;
  }

  lemma TwoLinesJoined(x: Text, y: Text)
    requires Clean(x) && Clean(y)
    ensures JoinLines([x] + [y]) == (x + [0x0a]) + (y + [0x0a]) && AllClean([x] + [y])
  {
    OneLineJoined(y);
    assert ([x] + [y])[1..] == [y];
  }

  /** Whether a line is shown in a diff, if a diff was open before it or not. */
  predicate ShownAsDiff(before: bool, starts: bool, looks: bool) { (before || starts) && looks }

  /** Two lines that are no fences: a diff goes on as long as lines look like diff lines, and
      anything else is prose. */
  lemma TwoLines(x: Text, y: Text)
    requires Plain(x) && Plain(y) && !FenceForm(x) && !FenceForm(y)
    ensures var dx := ShownAsDiff(false, DiffStartForm(x), DiffLineForm(x));
            var dy := ShownAsDiff(dx, DiffStartForm(y), DiffLineForm(y));
            var (tx, ty) := (x + [0x0a], y + [0x0a]);
            Derive(tx + ty) ==
            if dx && dy then [Diff(tx + ty, true)]
            else if !dx && !dy then [Markdown(tx + ty, true)]
            else if dx then [Diff(tx, true)] + [Markdown(ty, true)]
            else [Markdown(tx, true)] + [Diff(ty, true)]
  {
    PlainIsClean(x);
    PlainIsClean(y);
    FenceIsForm(x);
    FenceIsForm(y);
    DiffStartIsForm(x);
    DiffStartIsForm(y);
    DiffLineIsForm(x);
    DiffLineIsForm(y);
    hide Plain, FenceForm, DiffStartForm, DiffLineForm, IsFence, StartsDiff, IsDiffLine, Clean, AllClean, JoinLines, Derive,
      Segment, TokAt;
    TwoLinesJoined(x, y);
    DeriveLines([x] + [y]);
    TokOfSecond(x, y);
    assert Toks([x] + [y]) == [TokAt([x] + [y], 0)] + [TokAt([x] + [y], 1)];
    SegmentTwo(TokAt([x] + [y], 0), TokAt([x] + [y], 1));
  }

  // ---------- diffs as they are written ----------

  lemma {:induction false} PlainAfterAscii(front: Text, s: Text)
    requires Plain(s) && forall i :: 0 <= i < |front| ==> 0x20 <= front[i] < 0x80
    ensures Plain(front + s)
    decreases |front|
  {
    if front == [] {
      Unit(s);
    } else {
      PlainAfterAscii(front[1..], s);
      WellFormedCons([front[0]], front[1..] + s);
      assert [front[0]] + (front[1..] + s) == front + s;
    }
  }

  /** A line that begins with a printable character other than a backtick is no fence. */
  lemma NoFence(line: Text)
    requires line != [] && 0x21 <= line[0] <= 0x7e && line[0] != 0x60
    ensures !FenceForm(line)
  {
    FenceIsForm(line);
    assert SpaceFront(line) == 0;
  }

  /** A hunk header opens a diff, and the next line stays in it exactly when it has one of the
      five characters in front or begins with "diff --git". */
  lemma HunkGoesOn(a: Text, y: Text)
    requires Plain(a) && Plain(y) && !FenceForm(y)
    ensures var (tx, ty) := (Ascii("@@ ") + a + [0x0a], y + [0x0a]);
            Derive(tx + ty) ==
            if (y != [] && y[0] as char in {'+', '-', ' ', '@', '\\'}) || Ascii("diff --git") <= y
            then [Diff(tx + ty, true)] else [Diff(tx, true)] + [Markdown(ty, true)]
  {
    var x := Ascii("@@ ") + a;
    PlainAfterAscii(Ascii("@@ "), a);
    NoFence(x);
    assert x[..0] == [] && x[0..] == x && Ascii("@@ ") <= x[0..];
    assert DiffStartForm(x) && DiffLineForm(x);
    hide Plain, FenceForm, DiffStartForm, Derive;
    TwoLines(x, y);
  }

  /** So does a "diff --git" line. */
  lemma DiffGitGoesOn(a: Text, y: Text)
    requires Plain(a) && Plain(y) && !FenceForm(y)
    ensures var (tx, ty) := (Ascii("diff --git ") + a + [0x0a], y + [0x0a]);
            Derive(tx + ty) ==
            if (y != [] && y[0] as char in {'+', '-', ' ', '@', '\\'}) || Ascii("diff --git") <= y
            then [Diff(tx + ty, true)] else [Diff(tx, true)] + [Markdown(ty, true)]
  {
    var x := Ascii("diff --git ") + a;
    PlainAfterAscii(Ascii("diff --git "), a);
    NoFence(x);
    assert Ascii("diff --git ") <= x;
    assert Ascii("diff --git") <= Ascii("diff --git ");
    assert DiffStartForm(x) && DiffLineForm(x);
    hide Plain, FenceForm, DiffStartForm, Derive;
    TwoLines(x, y);
  }

  /** Added, removed and context lines, one by one. */
  lemma HunkLine(a: Text, mark: Byte, b: Text)
    requires Plain(a) && Plain(b) && mark as char in {'+', '-', '@', '\\'}
    ensures var (tx, ty) := (Ascii("@@ ") + a + [0x0a], [mark] + b + [0x0a]);
            Derive(tx + ty) == [Diff(tx + ty, true)]
  {
    PlainAfterAscii([mark], b);
    NoFence([mark] + b);
    HunkGoesOn(a, [mark] + b);
  }

  // ---------- editing bytes ----------

  lemma FeedTwo(st: State, a: Byte, b: Byte)
    ensures var (st1, c1) := FeedByte(st, a); var (st2, c2) := FeedByte(st1, b);
            Feed(st, [a, b]) == (st2, c1 + c2)
  {
    assert [a, b][1..] == [b];
    FeedOne(FeedByte(st, a).0, b);
  }

  /** A tab is a space. */
  lemma TabIsSpace(p: Text, q: Text)
    requires Feed(START, p).0.ansi == Normal
    ensures Derive(p + [0x09] + q) == Derive(p + [0x20] + q)
  {
    var st := Feed(START, p).0;
    FeedOne(st, 0x09);
    FeedOne(st, 0x20);
    SwapMiddle(p, [0x09], [0x20], q);
  }

  /** A carriage return before a line feed does nothing. */
  lemma ReturnBeforeLineFeed(p: Text, q: Text)
    requires Feed(START, p).0.ansi == Normal
    ensures Derive(p + [0x0d, 0x0a] + q) == Derive(p + [0x0a] + q)
  {
    var st := Feed(START, p).0;
    FeedTwo(st, 0x0d, 0x0a);
    FeedOne(st, 0x0a);
    Unit(FeedByte(st, 0x0a).1);
    hide Lossy, Emit;
    SwapMiddle(p, [0x0d, 0x0a], [0x0a], q);
  }

  /** A backspace takes away the byte before it. */
  lemma BackspaceTakesBack(p: Text, b: Byte, q: Text)
    requires Feed(START, p).0.ansi == Normal && !Feed(START, p).0.pendingCr && b >= 0x20
    ensures Derive(p + [b, 0x08] + q) == Derive(p + q)
  {
    var st := Feed(START, p).0;
    FeedTwo(st, b, 0x08);
    assert (st.line + [b])[..|st.line|] == st.line;
    assert Feed(st, [b, 0x08]) == (st, []);
    InsertDropped(p, [b, 0x08], q);
  }

  /** On an empty line it takes away nothing. */
  lemma BackspaceOnEmptyLine(p: Text, q: Text)
    requires Feed(START, p).0.ansi == Normal && !Feed(START, p).0.pendingCr && Feed(START, p).0.line == []
    ensures Derive(p + [0x08] + q) == Derive(p + q)
  {
    FeedOne(Feed(START, p).0, 0x08);
    InsertDropped(p, [0x08], q);
  }

  lemma {:induction false} FeedContent(st: State, s: Text)
    requires st.ansi == Normal && s != [] && forall i :: 0 <= i < |s| ==> s[i] >= 0x20
    ensures Feed(st, s) == (st.(line := Rewritten(st) + s, pendingCr := false), [])
    decreases |s|
  {
    var st1 := st.(line := Rewritten(st) + [s[0]], pendingCr := false);
    assert FeedByte(st, s[0]) == (st1, []);
    if |s| == 1 {
      FeedOne(st, s[0]);
      assert s == [s[0]];
    } else {
      FeedContent(st1, s[1..]);
      Assoc(Rewritten(st), [s[0]], s[1..]);
      assert [s[0]] + s[1..] == s;
    }
  }

  /** Content after a bare carriage return rewrites the line from its start. */
  lemma ReturnRewrites(p: Text, a: Text, b: Text, q: Text)
    requires Feed(START, p).0.ansi == Normal && Feed(START, p).0.line == [] && !Feed(START, p).0.pendingCr
    requires b != [] && (forall i :: 0 <= i < |a| ==> a[i] >= 0x20) && (forall i :: 0 <= i < |b| ==> b[i] >= 0x20)
    ensures Derive(p + (a + [0x0d] + b) + q) == Derive(p + b + q)
  {
    var st := Feed(START, p).0;
    var st1 := st.(line := a);
    if a == [] {
      assert Feed(st, a) == (st, []);
    } else {
      FeedContent(st, a);
      Unit(a);
    }
    FeedOne(st1, 0x0d);
    FeedPrefix(st, a, [0x0d], st1);
    FeedPrefix(st, a + [0x0d], b, st1.(pendingCr := true));
    FeedContent(st1.(pendingCr := true), b);
    FeedContent(st, b);
    Unit(b);
    hide Feed, FeedByte;
    SwapMiddle(p, a + [0x0d] + b, b, q);
  }

  /** The other control bytes below 0x20, except ESC, are dropped. */
  lemma OtherControlsAreDropped(p: Text, b: Byte, q: Text)
    requires Feed(START, p).0.ansi == Normal
    requires b <= 0x07 || 0x0b <= b <= 0x0c || 0x0e <= b <= 0x1a || 0x1c <= b <= 0x1f
    ensures Derive(p + [b] + q) == Derive(p + q)
  {
    FeedOne(Feed(START, p).0, b);
    InsertDropped(p, [b], q);
  }
}
