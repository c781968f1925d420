/** The one-pass floor refines the three-stage specification, for every byte stream. */
module FloorRefinement {
  import opened Bytes
  import opened Blocks
  import opened Splitting
  import opened Document
  import opened FloorSpec
  import opened Floor

  // ---------- stage 1: the escape automaton strips escape sequences ----------

  function NextAnsi(a: Ansi, b: Byte): Ansi {
    FeedByte(State(a, [], false, START_GROUP), b).0.ansi
  }

  /** The automaton alone: the bytes it lets through to the line editor. */
  function Screen(a: Ansi, s: Text): (Ansi, Text)
    decreases |s|
  {
    if s == [] then (a, [])
    else if a.Normal? && s[0] != ESC then
      var (end, visible) := Screen(Normal, s[1..]); (end, [s[0]] + visible)
    else Screen(NextAnsi(a, s[0]), s[1..])
  }

  lemma {:induction false} ScreenControl(s: Text)
    ensures Screen(Csi, s).1 == Screen(Normal, s[ControlTail(s)..]).1
    decreases |s|
  {
    if s != [] && !(0x40 <= s[0] <= 0x7e) {
      ScreenControl(s[1..]);
      assert s[1..][ControlTail(s[1..])..] == s[ControlTail(s)..];
    }
  }

  lemma {:induction false} ScreenString(s: Text)
    ensures Screen(Osc, s).1 == Screen(Normal, s[StringTail(s)..]).1
    decreases |s|
  {
    if s != [] && s[0] == ESC {
      assert |s| > 1 ==> Screen(OscEsc, s[1..]) == Screen(Normal, s[1..][1..]);
      assert |s| > 1 ==> s[1..][1..] == s[2..];
    } else if s != [] && s[0] != BEL {
      ScreenString(s[1..]);
      assert s[1..][StringTail(s[1..])..] == s[StringTail(s)..];
    }
  }

  lemma ScreenEscape(s: Text)
    requires s != [] && s[0] == ESC
    ensures Screen(Normal, s).1 == Screen(Normal, s[EscapeLength(s)..]).1
  {
    assert Screen(Normal, s) == Screen(Esc, s[1..]);
    if |s| > 1 {
      assert s[1..][1..] == s[2..];
      assert Screen(Esc, s[1..]) == Screen(NextAnsi(Esc, s[1]), s[2..]);
      ScreenControl(s[2..]);
      ScreenString(s[2..]);
      if s[1] == 0x5b {
        assert s[2..][ControlTail(s[2..])..] == s[EscapeLength(s)..];
      } else if s[1] == 0x5d {
        assert s[2..][StringTail(s[2..])..] == s[EscapeLength(s)..];
      }
    }
  }

  lemma {:induction false} ScreenStrips(s: Text)
    ensures Screen(Normal, s).1 == Strip(s)
    decreases |s|
  {
    if s != [] {
      if s[0] == ESC {
        ScreenEscape(s);
        ScreenStrips(s[EscapeLength(s)..]);
      } else {
        ScreenStrips(s[1..]);
      }
    }
  }

  ghost predicate NoEscape(v: Text) { forall i :: 0 <= i < |v| ==> v[i] != ESC }

  lemma {:induction false} StripHasNoEscape(s: Text)
    ensures NoEscape(Strip(s))
    decreases |s|
  {
    if s != [] {
      StripHasNoEscape(if s[0] == ESC then s[EscapeLength(s)..] else s[1..]);
    }
  }

  // ---------- stage 2: the line editor evaluates lines ----------

  datatype Editor = Editor(line: Text, pendingCr: bool)

  function EditByte(e: Editor, b: Byte): Editor {
    var st := FeedByte(State(Normal, e.line, e.pendingCr, START_GROUP), b).0;
    Editor(st.line, st.pendingCr)
  }

  /** The editor alone: the raw lines it hands on. */
  function EditAll(e: Editor, v: Text): (Editor, seq<Text>)
    decreases |v|
  {
    if v == [] then (e, []) else
    var (end, lines) := EditAll(EditByte(e, v[0]), v[1..]);
    (end, (if v[0] == LF then [e.line] else []) + lines)
  }

  lemma {:induction false} EditSnoc(e: Editor, v: Text, b: Byte)
    ensures var (mid, lines) := EditAll(e, v);
            EditAll(e, v + [b]) == (EditByte(mid, b), lines + if b == LF then [mid.line] else [])
    decreases |v|
  {
    if v == [] {
      assert (v + [b])[1..] == [];
      var last := if b == LF then [e.line] else [];
      assert last + [] == last == [] + last;
    } else {
      assert (v + [b])[1..] == v[1..] + [b];
      EditSnoc(EditByte(e, v[0]), v[1..], b);
      var head := if v[0] == LF then [e.line] else [];
      var (mid, rest) := EditAll(EditByte(e, v[0]), v[1..]);
      var last := if b == LF then [mid.line] else [];
      assert head + (rest + last) == (head + rest) + last;
    }
  }

  lemma {:induction false} UnmarkedRubsToNothing(piece: Text)
    requires !Marked(piece)
    ensures Rub(piece) == []
  {
    if piece != [] {
      assert forall i :: 0 <= i < |piece| - 1 ==> piece[..|piece| - 1][i] == piece[i];
      UnmarkedRubsToNothing(piece[..|piece| - 1]);
    }
  }

  lemma MarkedSnoc(piece: Text, b: Byte)
    ensures Marked(piece + [b]) == (Marked(piece) || Marks(b))
    ensures (piece + [b])[..|piece|] == piece
  {
    var longer := piece + [b];
    assert longer[|piece|] == b;
    if i :| 0 <= i < |piece| && Marks(piece[i]) {
      assert Marks(longer[i]);
    }
  }

  lemma LastMarkedSnoc(pieces: seq<Text>, last: Text)
    ensures LastMarked(pieces + [last]) == if Marked(last) then Rub(last) else LastMarked(pieces)
  {
    assert (pieces + [last])[..|pieces|] == pieces;
  }

  /** The editor's state on an unfinished raw line. */
  function EditorOn(raw: Text): Editor {
    var p := Split(CR, raw);
    Editor(LineValue(raw), p.ended != [] && !Marked(p.tail))
  }

  lemma EditorStep(raw: Text, b: Byte)
    requires b != LF && b != ESC
    ensures EditByte(EditorOn(raw), b) == EditorOn(raw + [b])
  {
    assert LastMarked([]) == [];
    hide Split, LastMarked, Emit, Lossy;
    var p := Split(CR, raw);
    SplitSnoc(CR, raw, b);
    MarkedSnoc(p.tail, b);
    LastMarkedSnoc(p.ended, p.tail);
    LastMarkedSnoc(p.ended, p.tail + [b]);
    LastMarkedSnoc(p.ended + [p.tail], []);
    if !Marked(p.tail) {
      UnmarkedRubsToNothing(p.tail);
    }
  }

  function RawValues(raws: seq<Text>): (r: seq<Text>)
    ensures |r| == |raws|
    ensures forall i :: 0 <= i < |r| ==> r[i] == LineValue(raws[i])
  {
    seq(|raws|, i requires 0 <= i < |raws| => LineValue(raws[i]))
  }

  lemma EditorAtStart()
    ensures EditorOn([]) == Editor([], false)
  {
    LastMarkedSnoc([], []);
  }

  lemma {:induction false} EditorEvaluatesLines(v: Text)
    requires NoEscape(v)
    ensures var p := Split(LF, v);
            EditAll(Editor([], false), v) == (EditorOn(p.tail), RawValues(p.ended))
    decreases |v|
  {
    EditorAtStart();
    if v != [] {
      hide Split, EditAll, LineValue, Emit, Lossy;
      var init, b := v[..|v| - 1], v[|v| - 1];
      assert v == init + [b];
      var p := Split(LF, init);
      EditorEvaluatesLines(init);
      EditSnoc(Editor([], false), init, b);
      SplitSnoc(LF, init, b);
      if b == LF {
        assert RawValues(p.ended + [p.tail]) == RawValues(p.ended) + [LineValue(p.tail)];
      } else {
        EditorStep(p.tail, b);
        assert RawValues(p.ended) + [] == RawValues(p.ended);
      }
    }
  }

  // ---------- stage 3: the grouper segments lines ----------

  function GroupAll(g: Group, lines: seq<Text>): (Group, seq<Cmd>)
    decreases |lines|
  {
    if lines == [] then (g, []) else
    var (g1, c1) := Emit(g, lines[0]);
    var (g2, c2) := GroupAll(g1, lines[1..]);
    (g2, c1 + c2)
  }

  lemma {:induction false} GroupSnoc(g: Group, lines: seq<Text>, line: Text)
    ensures var (mid, c1) := GroupAll(g, lines); var (end, c2) := Emit(mid, line);
            GroupAll(g, lines + [line]) == (end, c1 + c2)
    decreases |lines|
  {
    if lines == [] {
      assert (lines + [line])[1..] == [];
      assert Emit(g, line).1 + [] == Emit(g, line).1 == [] + Emit(g, line).1;
    } else {
      assert (lines + [line])[1..] == lines[1..] + [line];
      var (g1, c1) := Emit(g, lines[0]);
      GroupSnoc(g1, lines[1..], line);
      var (mid, c2) := GroupAll(g1, lines[1..]);
      assert c1 + (c2 + Emit(mid, line).1) == (c1 + c2) + Emit(mid, line).1;
    }
  }

  lemma DiffOpenStep(lines: seq<Text>, i: nat)
    requires i < |lines|
    ensures DiffOpen(lines, i + 1) ==
            if Outside(lines, i) then (DiffOpen(lines, i) || StartsDiff(lines[i])) && IsDiffLine(lines[i])
            else DiffOpen(lines, i)
  {
    if DiffOpen(lines, i + 1) {
      var j: nat :| j < i + 1 && DiffRuns(lines, j, i + 1);
      assert Outside(lines, i) ==> IsDiffLine(lines[i]);
      assert j < i ==> DiffRuns(lines, j, i);
    }
    if DiffOpen(lines, i) && (Outside(lines, i) ==> IsDiffLine(lines[i])) {
      var j: nat :| j < i && DiffRuns(lines, j, i);
      assert DiffRuns(lines, j, i + 1);
    }
    if Outside(lines, i) && StartsDiff(lines[i]) && IsDiffLine(lines[i]) {
      assert DiffRuns(lines, i, i + 1);
    }
  }

  /** The grouper's flags just before line `i`. */
  ghost predicate Placed(lines: seq<Text>, i: nat, g: Group)
    requires i <= |lines|
  {
    && g.inCode == InCode(lines, i)
    && g.inDiff == DiffOpen(lines, i)
    && (g.open.Some? ==> TextualKind(g.open.value))
    && (g.inCode <==> g.open == Some(CodeKind))
  }

  /** A block being written. */
  function Begun(kind: BlockKind, text: Text): Block
    requires TextualKind(kind)
  {
    match kind
    case MarkdownKind => Markdown(text, false)
    case CodeKind => Code(None, text, false)
    case DiffKind => Diff(text, false)
  }

  function Begins(open: Option<BlockKind>, text: Text): seq<Block>
    requires open.Some? ==> TextualKind(open.value)
  {
    if open.Some? then [Begun(open.value, text)] else []
  }

  function Ends(open: Option<BlockKind>, text: Text): seq<Block>
    requires open.Some? ==> TextualKind(open.value)
  {
    if open.Some? then [Done(open.value, text)] else []
  }

  lemma DrawWrite(done: seq<Block>, kind: BlockKind, text: Text, more: Text)
    requires TextualKind(kind)
    ensures Draw(done + [Begun(kind, text)], [Write(more)]) == done + [Begun(kind, text + more)]
  {
    var blocks := done + [Begun(kind, text)];
    assert blocks[..|blocks| - 1] == done;
    assert [Write(more)][1..] == [];
  }

  lemma DrawCloseIf(done: seq<Block>, open: Option<BlockKind>, text: Text)
    requires open.Some? ==> TextualKind(open.value)
    ensures Draw(done + Begins(open, text), CloseIf(open)) == done + Ends(open, text)
  {
    var blocks := done + Begins(open, text);
    assert open.Some? ==> blocks[..|blocks| - 1] == done;
    assert [Close][1..] == [];
  }

  lemma DrawOpen(done: seq<Block>, kind: BlockKind)
    requires TextualKind(kind)
    ensures Draw(done, [Open(kind)]) == done + [Begun(kind, [])]
  {
    assert [Open(kind)][1..] == [];
  }

  lemma DrawReopen(done: seq<Block>, open: Option<BlockKind>, text: Text, kind: BlockKind)
    requires open.Some? ==> TextualKind(open.value)
    requires TextualKind(kind)
    ensures Draw(done + Begins(open, text), CloseIf(open) + [Open(kind)]) == done + Ends(open, text) + [Begun(kind, [])]
  {
    DrawConcat(done + Begins(open, text), CloseIf(open), [Open(kind)]);
    DrawCloseIf(done, open, text);
    DrawOpen(done + Ends(open, text), kind);
  }

  lemma DrawAppendLine(done: seq<Block>, open: Option<BlockKind>, text: Text, kind: BlockKind, line: Text)
    requires open.Some? ==> TextualKind(open.value)
    requires TextualKind(kind)
    ensures Draw(done + Begins(open, text), AppendLine(open, kind, line)) ==
            if open == Some(kind) then done + [Begun(kind, text + (line + [LF]))]
            else done + Ends(open, text) + [Begun(kind, line + [LF])]
  {
    var added := [Write(line + [LF])];
    DrawConcat(done + Begins(open, text), Ensure(open, kind), added);
    if open == Some(kind) {
      DrawWrite(done, kind, text, line + [LF]);
    } else {
      DrawReopen(done, open, text, kind);
      DrawWrite(done + Ends(open, text), kind, [], line + [LF]);
      assert [] + (line + [LF]) == line + [LF];
    }
  }

  /** What segmentation yields when a block of kind `open` is under way. */
  function Resume(open: Option<BlockKind>, text: Text, toks: seq<Tok>): seq<Block>
    requires open.Some? ==> TextualKind(open.value)
  {
    match open
    case None => Segment(toks)
    case Some(kind) =>
      var n := RunLength(toks, kind);
      var rest := if kind == CodeKind then DropFence(toks[n..]) else toks[n..];
      [Done(kind, text + Joined(toks[..n]))] + Segment(rest)
  }

  lemma RunCons(kind: BlockKind, toks: seq<Tok>)
    requires toks != [] && toks[0].Line? && toks[0].kind == kind
    ensures var n := RunLength(toks[1..], kind);
            && RunLength(toks, kind) == n + 1
            && Joined(toks[..n + 1]) == (toks[0].text + [LF]) + Joined(toks[1..][..n])
            && toks[n + 1..] == toks[1..][n..]
  {
    var n := RunLength(toks[1..], kind);
    assert toks[..n + 1][1..] == toks[1..][..n];
  }

  lemma ResumeSameKind(kind: BlockKind, text: Text, toks: seq<Tok>)
    requires TextualKind(kind) && toks != [] && toks[0].Line? && toks[0].kind == kind
    ensures Resume(Some(kind), text, toks) == Resume(Some(kind), text + (toks[0].text + [LF]), toks[1..])
  {
    RunCons(kind, toks);
    hide RunLength, Joined, Segment;
    var n := RunLength(toks[1..], kind);
    Assoc(text, toks[0].text + [LF], Joined(toks[1..][..n]));
  }

  lemma SegmentNewRun(toks: seq<Tok>)
    requires toks != [] && toks[0].Line? && toks[0].kind in {MarkdownKind, DiffKind}
    ensures Segment(toks) == Resume(Some(toks[0].kind), toks[0].text + [LF], toks[1..])
  {
    RunCons(toks[0].kind, toks);
    hide RunLength, Joined;
  }

  lemma SegmentFence(toks: seq<Tok>)
    requires toks != [] && toks[0].Fence?
    ensures Segment(toks) == Resume(Some(CodeKind), [], toks[1..])
  {
    var n := RunLength(toks[1..], CodeKind);
    assert toks[1..1 + n] == toks[1..][..n];
    assert toks[1 + n..] == toks[1..][n..];
    assert [] + Joined(toks[1..][..n]) == Joined(toks[1..][..n]);
  }

  lemma ResumeEnds(kind: BlockKind, text: Text, toks: seq<Tok>)
    requires TextualKind(kind)
    requires toks == [] || !(toks[0].Line? && toks[0].kind == kind)
    ensures Resume(Some(kind), text, toks) ==
            [Done(kind, text)] + Segment(if kind == CodeKind then DropFence(toks) else toks)
  {
    assert toks[..0] == [] && toks[0..] == toks;
    assert text + Joined([]) == text;
  }

  /** A token of another kind ends the block under way. */
  lemma GroupSwitch(toks: seq<Tok>, open: Option<BlockKind>, kind: BlockKind, done: seq<Block>, text: Text)
    returns (done': seq<Block>, text': Text)
    requires open.Some? ==> TextualKind(open.value) && open.value != CodeKind && open.value != kind
    requires toks != [] && (toks[0].Line? ==> toks[0].kind == kind)
    ensures done' == done + Ends(open, text) && text' == []
    ensures done + Resume(open, text, toks) == done' + Segment(toks)
  {
    done', text' := done + Ends(open, text), [];
    if open.Some? {
      ResumeEnds(open.value, text, toks);
      assert done + ([Done(open.value, text)] + Segment(toks)) == done' + Segment(toks);
    }
  }

  lemma PlacedStep(lines: seq<Text>, i: nat, g: Group)
    requires i < |lines| && Placed(lines, i, g)
    ensures Placed(lines, i + 1, Emit(g, lines[i]).0)
    ensures TokAt(lines, i).Line? ==> Emit(g, lines[i]).0.open == Some(TokAt(lines, i).kind)
  {
    DiffOpenStep(lines, i);
  }

  /** A line outside fences is written to a block of its token's kind. */
  lemma EmitWrites(lines: seq<Text>, i: nat, g: Group)
    requires i < |lines| && Placed(lines, i, g) && !IsFence(lines[i])
    ensures Emit(g, lines[i]).1 == AppendLine(g.open, TokAt(lines, i).kind, lines[i])
  {
    DiffOpenStep(lines, i);
    var written := [Write(lines[i] + [LF])];
    assert [Close] + ([] + [Open(MarkdownKind)] + written) == [Close] + [Open(MarkdownKind)] + written;
  }

  /** One line outside fences: drawing it and resuming is resuming before it. */
  lemma LineStep(toks: seq<Tok>, open: Option<BlockKind>, done: seq<Block>, text: Text)
    returns (done': seq<Block>, text': Text)
    requires toks != [] && toks[0].Line? && TextualKind(toks[0].kind)
    requires open.Some? ==> TextualKind(open.value)
    requires toks[0].kind == CodeKind <==> open == Some(CodeKind)
    ensures Draw(done + Begins(open, text), AppendLine(open, toks[0].kind, toks[0].text)) ==
            done' + Begins(Some(toks[0].kind), text')
    ensures done + Resume(open, text, toks) == done' + Resume(Some(toks[0].kind), text', toks[1..])
  {
    var kind, line := toks[0].kind, toks[0].text;
    DrawAppendLine(done, open, text, kind, line);
    if open == Some(kind) {
      done', text' := done, text + (line + [LF]);
      ResumeSameKind(kind, text, toks);
    } else {
      done', text' := GroupSwitch(toks, open, kind, done, text);
      text' := line + [LF];
      SegmentNewRun(toks);
    }
  }

  lemma ClosingFenceStep(toks: seq<Tok>, done: seq<Block>, text: Text)
    requires toks != [] && toks[0].Fence?
    ensures Draw(done + Begins(Some(CodeKind), text), CloseIf(Some(CodeKind))) ==
            done + [Done(CodeKind, text)] + Begins(None, [])
    ensures done + Resume(Some(CodeKind), text, toks) == done + [Done(CodeKind, text)] + Resume(None, [], toks[1..])
  {
    ResumeEnds(CodeKind, text, toks);
    DrawCloseIf(done, Some(CodeKind), text);
    Assoc(done, [Done(CodeKind, text)], Segment(toks[1..]));
    Unit(done + [Done(CodeKind, text)]);
  }

  lemma OpeningFenceStep(toks: seq<Tok>, open: Option<BlockKind>, done: seq<Block>, text: Text)
    requires toks != [] && toks[0].Fence?
    requires open.Some? ==> TextualKind(open.value) && open.value != CodeKind
    ensures Draw(done + Begins(open, text), CloseIf(open) + [Open(CodeKind)]) ==
            done + Ends(open, text) + Begins(Some(CodeKind), [])
    ensures done + Resume(open, text, toks) == done + Ends(open, text) + Resume(Some(CodeKind), [], toks[1..])
  {
    var done', unused := GroupSwitch(toks, open, CodeKind, done, text);
    SegmentFence(toks);
    DrawReopen(done, open, text, CodeKind);
  }

  lemma GroupStep(lines: seq<Text>, i: nat, g: Group, toks: seq<Tok>, done: seq<Block>, text: Text)
    returns (done': seq<Block>, text': Text)
    requires i < |lines| && Placed(lines, i, g)
    requires toks != [] && toks[0] == TokAt(lines, i)
    ensures var (g', cmds) := Emit(g, lines[i]);
            && Placed(lines, i + 1, g')
            && Draw(done + Begins(g.open, text), cmds) == done' + Begins(g'.open, text')
            && done + Resume(g.open, text, toks) == done' + Resume(g'.open, text', toks[1..])
  {
    PlacedStep(lines, i, g);
    if IsFence(lines[i]) {
      if g.inCode {
        ClosingFenceStep(toks, done, text);
        done', text' := done + [Done(CodeKind, text)], [];
      } else {
        OpeningFenceStep(toks, g.open, done, text);
        done', text' := done + Ends(g.open, text), [];
      }
    } else {
      EmitWrites(lines, i, g);
      done', text' := LineStep(toks, g.open, done, text);
    }
  }

  /** The commands for some last lines and the end of output. */
  function Finish(g: Group, lines: seq<Text>): seq<Cmd> {
    GroupAll(g, lines).1 + CloseIf(GroupAll(g, lines).0.open)
  }

  lemma FinishStep(g: Group, lines: seq<Text>)
    requires lines != []
    ensures var (g1, c1) := Emit(g, lines[0]); Finish(g, lines) == c1 + Finish(g1, lines[1..])
  {
    var (g1, c1) := Emit(g, lines[0]);
    var (end, c2) := GroupAll(g1, lines[1..]);
    assert (c1 + c2) + CloseIf(end.open) == c1 + (c2 + CloseIf(end.open));
  }

  lemma {:induction false} GrouperSegments(lines: seq<Text>, i: nat, g: Group, toks: seq<Tok>,
                                           done: seq<Block>, text: Text)
    requires i <= |lines| && Placed(lines, i, g)
    requires toks == Toks(lines)[i..]
    ensures Draw(done + Begins(g.open, text), Finish(g, lines[i..])) == done + Resume(g.open, text, toks)
    decreases |lines| - i
  {
    if i == |lines| {
      DrawCloseIf(done, g.open, text);
      assert Finish(g, []) == CloseIf(g.open);
      if g.open.Some? {
        ResumeEnds(g.open.value, text, toks);
      }
    } else {
      var (g1, c1) := Emit(g, lines[i]);
      assert toks[0] == TokAt(lines, i) && toks[1..] == Toks(lines)[i + 1..];
      var done', text' := GroupStep(lines, i, g, toks, done, text);
      GrouperSegments(lines, i + 1, g1, toks[1..], done', text');
      assert lines[i..][1..] == lines[i + 1..];
      FinishStep(g, lines[i..]);
      DrawConcat(done + Begins(g.open, text), c1, Finish(g1, lines[i + 1..]));
    }
  }

  // ---------- the stages together ----------

  function Decoded(raws: seq<Text>): (r: seq<Text>)
    ensures |r| == |raws|
    ensures forall i :: 0 <= i < |r| ==> r[i] == Lossy(raws[i])
  {
    seq(|raws|, i requires 0 <= i < |raws| => Lossy(raws[i]))
  }

  /** One byte that the automaton lets through. */
  lemma VisibleByte(st: State, b: Byte)
    requires st.ansi == Normal && b != ESC
    ensures var (st1, cmds) := FeedByte(st, b);
            var e := Editor(st.line, st.pendingCr);
            && st1.ansi == Normal
            && Editor(st1.line, st1.pendingCr) == EditByte(e, b)
            && (st1.group, cmds) == GroupAll(st.group, Decoded(if b == LF then [e.line] else []))
  {
    if b == LF {
      var lines := Decoded([st.line]);
      assert lines[1..] == [];
      assert Emit(st.group, lines[0]).1 + [] == Emit(st.group, lines[0]).1;
    }
  }

  lemma {:induction false} GroupConcat(g: Group, a: seq<Text>, b: seq<Text>)
    ensures var (mid, c1) := GroupAll(g, a); var (end, c2) := GroupAll(mid, b);
            GroupAll(g, a + b) == (end, c1 + c2)
    decreases |a|
  {
    if a == [] {
      assert a + b == b;
      assert [] + GroupAll(g, b).1 == GroupAll(g, b).1;
    } else {
      assert (a + b)[1..] == a[1..] + b;
      var (g1, c1) := Emit(g, a[0]);
      GroupConcat(g1, a[1..], b);
      var (mid, c2) := GroupAll(g1, a[1..]);
      assert c1 + (c2 + GroupAll(mid, b).1) == (c1 + c2) + GroupAll(mid, b).1;
    }
  }

  /** What the three stages make of a byte stream. */
  function Staged(st: State, s: Text): (State, seq<Cmd>) {
    var (ansi, visible) := Screen(st.ansi, s);
    var (editor, raws) := EditAll(Editor(st.line, st.pendingCr), visible);
    var (group, cmds) := GroupAll(st.group, Decoded(raws));
    (State(ansi, editor.line, editor.pendingCr, group), cmds)
  }

  lemma StagedVisible(st: State, b: Byte, s: Text)
    requires st.ansi == Normal && b != ESC
    ensures var (st1, c1) := FeedByte(st, b);
            Staged(st, [b] + s) == (Staged(st1, s).0, c1 + Staged(st1, s).1)
  {
    var e := Editor(st.line, st.pendingCr);
    var visible := Screen(Normal, s).1;
    assert ([b] + s)[1..] == s && ([b] + visible)[1..] == visible;
    VisibleByte(st, b);
    var here := if b == LF then [e.line] else [];
    var raws := EditAll(EditByte(e, b), visible).1;
    assert Decoded(here + raws) == Decoded(here) + Decoded(raws);
    GroupConcat(st.group, Decoded(here), Decoded(raws));
  }

  lemma StagedHidden(st: State, b: Byte, s: Text)
    requires st.ansi != Normal || b == ESC
    ensures var (st1, c1) := FeedByte(st, b);
            Staged(st, [b] + s) == (Staged(st1, s).0, c1 + Staged(st1, s).1)
  {
    hide EditAll, GroupAll, Decoded, Emit, Lossy;
    assert ([b] + s)[1..] == s;
    var st1 := FeedByte(st, b).0;
    assert [] + Staged(st1, s).1 == Staged(st1, s).1;
  }

  /** The one pass is the composition of its three stages. */
  lemma {:induction false} FeedIsStaged(st: State, s: Text)
    ensures Feed(st, s) == Staged(st, s)
    decreases |s|
  {
    if s == [] {
      assert Decoded([]) == [];
    } else {
      assert s == [s[0]] + s[1..];
      FeedIsStaged(FeedByte(st, s[0]).0, s[1..]);
      if st.ansi.Normal? && s[0] != ESC {
        StagedVisible(st, s[0], s[1..]);
      } else {
        StagedHidden(st, s[0], s[1..]);
      }
    }
  }

  /** After a whole stream the editor holds the unfinished line and the grouper has seen
      exactly the terminated ones. */
  lemma FeedFromStart(s: Text)
    ensures var p := Split(LF, Strip(s)); var (st, cmds) := Feed(START, s);
            && st.line == LineValue(p.tail)
            && (st.group, cmds) == GroupAll(START_GROUP, Values(p.ended))
  {
    var p := Split(LF, Strip(s));
    FeedIsStaged(START, s);
    ScreenStrips(s);
    StripHasNoEscape(s);
    EditorEvaluatesLines(Strip(s));
    assert Decoded(RawValues(p.ended)) == Values(p.ended);
  }

  /** A flushed run groups all lines, the unterminated tail included. */
  lemma DeriveGroups(s: Text)
    ensures Derive(s) == Draw([], Finish(START_GROUP, Lines(Strip(s))))
  {
    FeedFromStart(s);
    var p := Split(LF, Strip(s));
    var (st, cmds) := Feed(START, s);
    if st.line == [] {
      assert Lines(Strip(s)) == Values(p.ended);
      assert [] + CloseIf(st.group.open) == CloseIf(st.group.open);
    } else {
      var last := Emit(st.group, Lossy(st.line));
      GroupSnoc(START_GROUP, Values(p.ended), Lossy(st.line));
      assert cmds + (last.1 + CloseIf(last.0.open)) == (cmds + last.1) + CloseIf(last.0.open);
    }
  }

  /** For every byte stream the one-pass floor, flushed once at the end, gives the
      document of the three-stage specification. */
  lemma FloorRefines(s: Text)
    ensures Derive(s) == FloorDocument(s)
  {
    var lines := Lines(Strip(s));
    DeriveGroups(s);
    GrouperSegments(lines, 0, START_GROUP, Toks(lines), [], []);
    assert lines[0..] == lines && Toks(lines)[0..] == Toks(lines);
    assert [] + Begins(None, []) == [];
  }
}
