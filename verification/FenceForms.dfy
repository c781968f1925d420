/** Code blocks between fences, and the lines around them, as they are written
    (`derive/floor.rs:85-138`, `145-199`). */
module FenceForms {
  import opened Bytes
  import opened Blocks
  import opened FloorSpec
  import opened Floor
  import opened FloorRefinement
  import opened FloorLaws
  import opened FloorEscapes
  import opened FloorForms
  import Document

  /** A line, a fence, lines that are no fences, a fence, and a line. */
  function Around(x: Text, f: Text, body: seq<Text>, g: Text, y: Text): seq<Text> { [x] + ([f] + (body + ([g] + [y]))) }

  ghost predicate Fenced(x: Text, f: Text, body: seq<Text>, g: Text, y: Text) {
    && !IsFence(x) && IsFence(f) && IsFence(g) && !IsFence(y)
    && forall i :: 0 <= i < |body| ==> !IsFence(body[i])
  }

  lemma AroundAt(x: Text, f: Text, body: seq<Text>, g: Text, y: Text)
    ensures var lines := Around(x, f, body, g, y);
            && |lines| == |body| + 4 && lines[0] == x && lines[1] == f
            && lines[|body| + 2] == g && lines[|body| + 3] == y
            && forall i :: 2 <= i < |body| + 2 ==> lines[i] == body[i - 2]
  {
  }

  /** A line's kind when it stands outside code. */
  function KindOf(diff: bool): BlockKind { if diff then DiffKind else MarkdownKind }

  /** Up to the closing fence nothing changes. */
  lemma {:induction false} InsideFence(x: Text, f: Text, body: seq<Text>, g: Text, y: Text, i: nat)
    requires Fenced(x, f, body, g, y) && 2 <= i <= |body| + 2
    ensures var lines := Around(x, f, body, g, y);
            && i < |lines|
            && FencesBefore(lines, 1) == 0 && FencesBefore(lines, i) == 1
            && (DiffOpen(lines, i) <==> DiffOpen(lines, 1))
    decreases i
  {
    hide IsFence, StartsDiff, IsDiffLine, DiffOpen;
    var lines := Around(x, f, body, g, y);
    AroundAt(x, f, body, g, y);
    hide Around;
    assert FencesBefore(lines, 0) == 0;
    if i == 2 {
      DiffOpenStep(lines, 1);
    } else {
      InsideFence(x, f, body, g, y, i - 1);
      assert !IsFence(body[i - 3]);
      DiffOpenStep(lines, i - 1);
    }
  }

  function CodeToks(body: seq<Text>): (r: seq<Tok>)
    ensures |r| == |body|
    ensures forall i :: 0 <= i < |r| ==> r[i] == Line(CodeKind, body[i])
  {
    seq(|body|, i requires 0 <= i < |body| => Line(CodeKind, body[i]))
  }

  /** The diff, if there is one, goes on behind the code. */
  lemma AroundToks(x: Text, f: Text, body: seq<Text>, g: Text, y: Text)
    requires Fenced(x, f, body, g, y)
    ensures var dx := ShownAsDiff(false, StartsDiff(x), IsDiffLine(x));
            var dy := ShownAsDiff(dx, StartsDiff(y), IsDiffLine(y));
            Toks(Around(x, f, body, g, y)) ==
            [Line(KindOf(dx), x)] + ([Fence] + (CodeToks(body) + ([Fence] + [Line(KindOf(dy), y)])))
  {
    hide IsFence, StartsDiff, IsDiffLine, DiffOpen;
    var lines, n := Around(x, f, body, g, y), |body|;
    AroundAt(x, f, body, g, y);
    TokOfFirst(lines);
    forall i | 2 <= i < n + 2 ensures TokAt(lines, i) == Line(CodeKind, body[i - 2]) {
      InsideFence(x, f, body, g, y, i);
      assert !IsFence(body[i - 2]);
    }
    InsideFence(x, f, body, g, y, n + 2);
    DiffOpenStep(lines, n + 2);
    assert FencesBefore(lines, n + 3) == 2;
    DiffOpenStep(lines, n + 3);
  }

  lemma {:induction false} CodeIsJoined(body: seq<Text>, rest: seq<Tok>)
    requires rest != [] && rest[0].Fence?
    ensures RunLength(CodeToks(body) + rest, CodeKind) == |body| && Joined(CodeToks(body)) == JoinLines(body)
    decreases |body|
  {
    var toks := CodeToks(body);
    if body == [] {
      assert toks + rest == rest;
    } else {
      assert toks[1..] == CodeToks(body[1..]) && (toks + rest)[1..] == CodeToks(body[1..]) + rest;
      CodeIsJoined(body[1..], rest);
    }
  }

  /** A single line ahead of a fence, and the fence. */
  lemma SegmentAround(kind: BlockKind, x: Text, body: seq<Text>, last: Tok)
    requires kind in {MarkdownKind, DiffKind} && last.Line? && TextualKind(last.kind)
    ensures Segment([Line(kind, x)] + ([Fence] + (CodeToks(body) + ([Fence] + [last])))) ==
            [Done(kind, x + [LF])] + ([Code(None, JoinLines(body), true)] + [Done(last.kind, last.text + [LF])])
  {
    var inner := [Fence] + [last];
    var code := [Fence] + (CodeToks(body) + inner);
    var toks := [Line(kind, x)] + code;
    assert toks[1..] == code && code[1..] == CodeToks(body) + inner && inner[1..] == [last];
    assert (CodeToks(body) + inner)[|body|..] == inner && (CodeToks(body) + inner)[..|body|] == CodeToks(body);
    CodeIsJoined(body, inner);
    SegmentOne(last);
    SegmentNewRun(toks);
    ResumeEnds(kind, x + [LF], code);
    SegmentFence(code);
    Unit(JoinLines(body));
    hide RunLength, Joined, Segment, JoinLines, CodeToks;
  }

  /** The theorem of fences: what stands between two fences is one code block, as it is
      written; a diff that was open before it goes on behind it. */
  lemma FencedCode(x: Text, f: Text, body: seq<Text>, g: Text, y: Text)
    requires Plain(x) && Plain(f) && Plain(g) && Plain(y) && forall i :: 0 <= i < |body| ==> Plain(body[i]) && !FenceForm(body[i])
    requires !FenceForm(x) && FenceForm(f) && FenceForm(g) && !FenceForm(y)
    ensures var dx := ShownAsDiff(false, DiffStartForm(x), DiffLineForm(x));
            var dy := ShownAsDiff(dx, DiffStartForm(y), DiffLineForm(y));
            Derive(JoinLines(Around(x, f, body, g, y))) ==
            [if dx then Diff(x + [0x0a], true) else Markdown(x + [0x0a], true)]
            + ([Code(None, JoinLines(body), true)]
            + [if dy then Diff(y + [0x0a], true) else Markdown(y + [0x0a], true)])
  {
    AroundIsClean(x, f, body, g, y);
    AroundIsFenced(x, f, body, g, y);
    DiffStartIsForm(x);
    DiffStartIsForm(y);
    DiffLineIsForm(x);
    DiffLineIsForm(y);
    OneKind(x);
    OneKind(y);
    hide Plain, FenceForm, DiffStartForm, DiffLineForm, IsFence, StartsDiff, IsDiffLine, Clean, AllClean, JoinLines, Derive,
      Segment, Toks, Around, CodeToks, Fenced;
    var dx := ShownAsDiff(false, StartsDiff(x), IsDiffLine(x));
    var dy := ShownAsDiff(dx, StartsDiff(y), IsDiffLine(y));
    DeriveLines(Around(x, f, body, g, y));
    AroundToks(x, f, body, g, y);
    SegmentAround(KindOf(dx), x, body, Line(KindOf(dy), y));
  }

  lemma AroundIsClean(x: Text, f: Text, body: seq<Text>, g: Text, y: Text)
    requires Plain(x) && Plain(f) && Plain(g) && Plain(y) && forall i :: 0 <= i < |body| ==> Plain(body[i])
    ensures AllClean(Around(x, f, body, g, y))
  {
    AroundAt(x, f, body, g, y);
    hide Plain, Clean, Around;
    var lines := Around(x, f, body, g, y);
    forall i | 0 <= i < |lines| ensures Clean(lines[i]) {
      PlainIsClean(lines[i]);
    }
  }

  lemma AroundIsFenced(x: Text, f: Text, body: seq<Text>, g: Text, y: Text)
    requires forall i :: 0 <= i < |body| ==> !FenceForm(body[i])
    requires !FenceForm(x) && FenceForm(f) && FenceForm(g) && !FenceForm(y)
    ensures Fenced(x, f, body, g, y)
  {
    FenceIsForm(x);
    FenceIsForm(f);
    FenceIsForm(g);
    FenceIsForm(y);
    hide FenceForm, IsFence;
    forall i | 0 <= i < |body| ensures !IsFence(body[i]) {
      FenceIsForm(body[i]);
    }
  }

  // ---------- the last line ----------

  /** A last line without a line feed counts as if it had one. */
  lemma UnterminatedLine(p: Text, y: Text)
    requires Feed(START, p).0.ansi == Normal && !Feed(START, p).0.pendingCr && Feed(START, p).0.line == []
    requires y != [] && forall i :: 0 <= i < |y| ==> y[i] >= 0x20
    ensures Derive(p + y) == Derive(p + y + [0x0a])
  {
    var (st, c0) := Feed(START, p);
    var st1 := st.(line := y);
    assert Rewritten(st) + y == y;
    FeedContent(st, y);
    hide *;
    FeedConcat(START, p, y);
    Unit(c0);
    assert Feed(START, p + y) == (st1, c0);
    FeedConcat(START, p + y, [0x0a]);
    LineEnds(st1, c0);
    DeriveIs(p + y);
    DeriveIs(p + y + [0x0a]);
  }

  /** Flushing with nothing buffered forgets the open block and nothing else: code and diff go
      on in a new block. */
  lemma FlushOfNothing(st: State)
    requires st.line == []
    ensures Flush(st) == (st.(group := st.group.(open := None)), if st.group.open.Some? then [Document.Close] else [])
  {
    Unit(CloseIf(st.group.open));
  }

  /** Flushing a line is flushing after its line feed, in commands and state. */
  lemma FlushEndsLine(st: State)
    requires st.ansi == Normal && st.line != [] && !st.pendingCr
    ensures var (ended, cmds) := Feed(st, [0x0a]); Flush(st) == (Flush(ended).0, cmds + Flush(ended).1)
  {
    hide Feed, Flush;
    LineEnds(st, []);
    Unit(Flush(st).1);
    Unit(Feed(st, [0x0a]).1);
  }

  lemma DeriveIs(s: Text)
    ensures Derive(s) == Document.Draw([], Feed(START, s).1 + Flush(Feed(START, s).0).1)
  {
    hide Feed, Flush;
  }

  /** Flushing a line and ending it come to the same. */
  lemma LineEnds(st: State, before: seq<Document.Cmd>)
    requires st.ansi == Normal && st.line != [] && !st.pendingCr
    ensures var (ended, cmds) := Feed(st, [0x0a]);
            before + Flush(st).1 == (before + cmds) + Flush(ended).1 && Flush(st).0 == Flush(ended).0
  {
    FeedOne(st, 0x0a);
    hide Feed, Lossy, Emit;
    var (g, cmds) := Emit(st.group, Lossy(st.line));
    assert Feed(st, [0x0a]) == (State(Normal, [], false, g), cmds);
    Unit(CloseIf(g.open));
    Assoc(before, cmds, CloseIf(g.open));
  }
}
