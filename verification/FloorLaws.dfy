/** Laws of the floor, over all byte streams: nothing is lost, the document is in canonical
    form, re-deriving a printed document is the identity, escape sequences are invisible. */
module FloorLaws {
  import opened Bytes
  import opened Blocks
  import opened Splitting
  import opened FloorSpec
  import opened Floor
  import opened FloorRefinement

  // ---------- clean lines ----------

  lemma {:induction false} RubHasNoControls(piece: Text)
    ensures NoControls(Rub(piece))
  {
    if piece != [] {
      RubHasNoControls(piece[..|piece| - 1]);
    }
  }

  lemma {:induction false} LastMarkedHasNoControls(pieces: seq<Text>)
    ensures NoControls(LastMarked(pieces))
  {
    if pieces != [] {
      RubHasNoControls(pieces[|pieces| - 1]);
      LastMarkedHasNoControls(pieces[..|pieces| - 1]);
    }
  }

  /** A line as `emit_line` decodes it: no control byte, and well-formed. */
  ghost predicate Clean(line: Text) { NoControls(line) && Lossy(line) == line }

  ghost predicate AllClean(lines: seq<Text>) { forall i :: 0 <= i < |lines| ==> Clean(lines[i]) }

  lemma LineValueClean(raw: Text)
    ensures Clean(Lossy(LineValue(raw)))
  {
    var p := Split(CR, raw);
    LastMarkedHasNoControls(p.ended + [p.tail]);
    LossyNoControls(LineValue(raw));
    LossyIdempotent(LineValue(raw));
  }

  lemma LinesClean(visible: Text)
    ensures AllClean(Lines(visible))
  {
    forall i | 0 <= i < |Lines(visible)| ensures Clean(Lines(visible)[i]) {
      var p := Split(LF, visible);
      LineValueClean(if i < |p.ended| then p.ended[i] else p.tail);
    }
  }

  // ---------- conservation ----------

  function AllText(blocks: seq<Block>): Text {
    if blocks == [] then [] else TextOf(blocks[0]) + AllText(blocks[1..])
  }

  /** Every line that is not a fence, each ended by LF. */
  function Content(lines: seq<Text>): Text {
    if lines == [] then []
    else (if IsFence(lines[0]) then [] else lines[0] + [LF]) + Content(lines[1..])
  }

  /** Code lines lie exactly between an odd fence and the next. */
  predicate Nested(inCode: bool, toks: seq<Tok>)
    decreases |toks|
  {
    toks == [] ||
    match toks[0]
    case Fence => Nested(!inCode, toks[1..])
    case Line(kind, _) => TextualKind(kind) && (kind == CodeKind <==> inCode) && Nested(inCode, toks[1..])
  }

  predicate EndsInCode(inCode: bool, toks: seq<Tok>)
    decreases |toks|
  {
    if toks == [] then inCode
    else EndsInCode(if toks[0].Fence? then !inCode else inCode, toks[1..])
  }

  lemma {:induction false} ToksNested(lines: seq<Text>, i: nat)
    requires i <= |lines|
    ensures Nested(InCode(lines, i), Toks(lines)[i..])
    ensures EndsInCode(InCode(lines, i), Toks(lines)[i..]) == InCode(lines, |lines|)
    decreases |lines| - i
  {
    if i < |lines| {
      ToksNested(lines, i + 1);
      assert Toks(lines)[i..][1..] == Toks(lines)[i + 1..];
      assert Toks(lines)[i..][0] == TokAt(lines, i);
    }
  }

  /** The kind of block under way after one more token, and its text so far. */
  function Under(open: Option<BlockKind>, text: Text, tok: Tok): (Option<BlockKind>, Text) {
    match tok
    case Fence => if open == Some(CodeKind) then (None, []) else (Some(CodeKind), [])
    case Line(kind, line) => (Some(kind), (if open == Some(kind) then text else []) + (line + [LF]))
  }

  /** The block a token ends, if it ends one. */
  function Ended(open: Option<BlockKind>, text: Text, tok: Tok): seq<Block>
    requires open.Some? ==> TextualKind(open.value)
  {
    if tok.Line? && open == Some(tok.kind) then [] else Ends(open, text)
  }

  /** Segmentation one token at a time. */
  lemma ResumeOne(open: Option<BlockKind>, text: Text, toks: seq<Tok>)
    requires open.Some? ==> TextualKind(open.value)
    requires toks != [] && Nested(open == Some(CodeKind), toks)
    ensures var (open', text') := Under(open, text, toks[0]);
            && (open'.Some? ==> TextualKind(open'.value))
            && Nested(open' == Some(CodeKind), toks[1..])
            && Resume(open, text, toks) == Ended(open, text, toks[0]) + Resume(open', text', toks[1..])
  {
    if open.Some? && !(toks[0].Line? && toks[0].kind == open.value) {
      ResumeEnds(open.value, text, toks);
    }
    match toks[0]
    case Fence => SegmentFence(toks);
    case Line(kind, line) =>
      assert [] + (line + [LF]) == line + [LF];
      if open == Some(kind) {
        ResumeSameKind(kind, text, toks);
        assert [] + Resume(open, text, toks) == Resume(open, text, toks);
      } else {
        SegmentNewRun(toks);
      }
  }

  lemma AllTextOfEnds(blocks: seq<Block>, open: Option<BlockKind>, text: Text)
    requires open.Some? ==> TextualKind(open.value)
    ensures AllText(Ends(open, text) + blocks) == (if open.Some? then text else []) + AllText(blocks)
  {
    if open.Some? {
      assert (Ends(open, text) + blocks)[1..] == blocks;
    } else {
      assert Ends(open, text) + blocks == blocks;
    }
  }

  /** What `AllText` gains from one token. */
  lemma ConserveStep(open: Option<BlockKind>, text: Text, tok: Tok, blocks: seq<Block>, rest: Text)
    requires open.Some? ==> TextualKind(open.value)
    requires var (open', text') := Under(open, text, tok);
             AllText(blocks) == (if open'.Some? then text' else []) + rest
    ensures AllText(Ended(open, text, tok) + blocks) ==
            (if open.Some? then text else []) + ((if tok.Line? then tok.text + [LF] else []) + rest)
  {
    var before := if open.Some? then text else [];
    var line := if tok.Line? then tok.text + [LF] else [];
    if tok.Line? && open == Some(tok.kind) {
      Unit(blocks);
      Assoc(text, line, rest);
    } else {
      AllTextOfEnds(blocks, open, text);
      Unit(line);
      Unit(rest);
    }
  }

  lemma {:induction false} ResumeConserves(open: Option<BlockKind>, text: Text, toks: seq<Tok>)
    requires open.Some? ==> TextualKind(open.value)
    requires Nested(open == Some(CodeKind), toks)
    ensures AllText(Resume(open, text, toks)) == (if open.Some? then text else []) + Joined(toks)
    decreases |toks|
  {
    if toks == [] {
      if open.Some? {
        ResumeEnds(open.value, text, toks);
        assert Segment([]) == [];
        AllTextOfEnds([], open, text);
        assert Ends(open, text) + [] == Ends(open, text);
      }
    } else {
      ResumeOne(open, text, toks);
      var (open', text') := Under(open, text, toks[0]);
      ResumeConserves(open', text', toks[1..]);
      ConserveStep(open, text, toks[0], Resume(open', text', toks[1..]), Joined(toks[1..]));
    }
  }

  lemma {:induction false} JoinedIsContent(lines: seq<Text>, i: nat)
    requires i <= |lines|
    ensures Joined(Toks(lines)[i..]) == Content(lines[i..])
    decreases |lines| - i
  {
    if i < |lines| {
      JoinedIsContent(lines, i + 1);
      assert Toks(lines)[i..][1..] == Toks(lines)[i + 1..];
      assert Toks(lines)[i..][0] == TokAt(lines, i);
      assert lines[i..][1..] == lines[i + 1..];
    }
  }

  lemma SegmentConserves(lines: seq<Text>)
    ensures AllText(Segment(Toks(lines))) == Content(lines)
  {
    var toks := Toks(lines);
    WholeNested(lines);
    ResumeConserves(None, [], toks);
    JoinedIsContent(lines, 0);
    assert toks[0..] == toks && lines[0..] == lines;
  }

  lemma WholeNested(lines: seq<Text>)
    ensures Nested(false, Toks(lines))
    ensures EndsInCode(false, Toks(lines)) == InCode(lines, |lines|)
  {
    ToksNested(lines, 0);
    assert Toks(lines)[0..] == Toks(lines);
  }

  /** The block texts, concatenated, are every line that is not a fence, in order, once. */
  lemma Conservation(s: Text)
    ensures AllText(Derive(s)) == Content(Lines(Strip(s)))
  {
    FloorRefines(s);
    SegmentConserves(Lines(Strip(s)));
  }

  // ---------- canonical form ----------

  /** One line in front of a text. */
  lemma SplitLine(line: Text, rest: Text)
    requires NoControls(line)
    ensures var q := Split(LF, rest);
            Split(LF, (line + [LF]) + rest) == Pieces([line] + q.ended, q.tail)
  {
    SplitAround(LF, line, rest);
    SplitUnbroken(LF, line);
    assert line + [LF] + rest == (line + [LF]) + rest;
    assert [] + [line] == [line];
  }

  /** A finished block in canonical form: its text is whole lines, none of them a fence,
      diff blocks hold diff lines only, and only code may be empty. */
  ghost predicate Canonical(b: Block) {
    && b.Textual() && b.complete
    && var p := Split(LF, TextOf(b));
       && p.tail == []
       && (b.Code? || p.ended != [])
       && forall i :: 0 <= i < |p.ended| ==> !IsFence(p.ended[i]) && (b.Diff? ==> IsDiffLine(p.ended[i]))
  }

  ghost predicate GoodToks(toks: seq<Tok>) {
    forall i :: 0 <= i < |toks| && toks[i].Line? ==>
      && TextualKind(toks[i].kind) && NoControls(toks[i].text) && !IsFence(toks[i].text)
      && (toks[i].kind == DiffKind ==> IsDiffLine(toks[i].text))
  }

  lemma ToksGood(lines: seq<Text>)
    requires AllClean(lines)
    ensures GoodToks(Toks(lines))
  {
    forall i | 0 <= i < |lines| && Toks(lines)[i].Line?
      ensures Toks(lines)[i].kind == DiffKind ==> IsDiffLine(lines[i])
      ensures NoControls(lines[i])
    {
      DiffOpenStep(lines, i);
      assert Clean(lines[i]);
    }
  }

  lemma {:induction false} RunIsCanonical(kind: BlockKind, toks: seq<Tok>)
    requires TextualKind(kind) && GoodToks(toks)
    requires forall i :: 0 <= i < |toks| ==> toks[i].Line? && toks[i].kind == kind
    requires kind == CodeKind || toks != []
    ensures Canonical(Done(kind, Joined(toks)))
    ensures |Split(LF, Joined(toks)).ended| == |toks|
    decreases |toks|
  {
    if |toks| > 0 {
      if |toks| > 1 || kind == CodeKind {
        RunIsCanonical(kind, toks[1..]);
      }
      SplitLine(toks[0].text, Joined(toks[1..]));
    }
  }

  ghost predicate NoTwins(blocks: seq<Block>) {
    forall i :: 0 <= i < |blocks| - 1 ==>
      !(blocks[i].Markdown? && blocks[i + 1].Markdown?) && !(blocks[i].Diff? && blocks[i + 1].Diff?)
  }

  ghost predicate AllCanonical(blocks: seq<Block>) {
    NoTwins(blocks) && forall i :: 0 <= i < |blocks| ==> Canonical(blocks[i])
  }

  lemma CanonicalCons(b: Block, blocks: seq<Block>)
    requires Canonical(b) && AllCanonical(blocks)
    requires blocks != [] && blocks[0].Kind() == b.Kind() ==> b.Code?
    ensures AllCanonical([b] + blocks)
  {
    var all := [b] + blocks;
    forall i | 0 <= i < |all| - 1
      ensures !(all[i].Markdown? && all[i + 1].Markdown?) && !(all[i].Diff? && all[i + 1].Diff?)
    {
      assert i > 0 ==> all[i] == blocks[i - 1] && all[i + 1] == blocks[i];
    }
  }

  /** The kind of the block a token begins. */
  function KindOf(tok: Tok): BlockKind { if tok.Fence? then CodeKind else tok.kind }

  /** A run in front of a canonical rest that begins with another kind. */
  lemma RunBeforeCanonical(kind: BlockKind, run: seq<Tok>, rest: seq<Tok>)
    requires TextualKind(kind) && GoodToks(run)
    requires forall i :: 0 <= i < |run| ==> run[i].Line? && run[i].kind == kind
    requires kind == CodeKind || run != []
    requires AllCanonical(Segment(rest))
    requires Segment(rest) != [] && Segment(rest)[0].Kind() == kind ==> kind == CodeKind
    ensures AllCanonical([Done(kind, Joined(run))] + Segment(rest))
  {
    RunIsCanonical(kind, run);
    CanonicalCons(Done(kind, Joined(run)), Segment(rest));
  }

  lemma FencedCanonical(toks: seq<Tok>, n: nat)
    requires GoodToks(toks) && toks != [] && toks[0].Fence? && n == RunLength(toks[1..], CodeKind)
    requires AllCanonical(Segment(DropFence(toks[1 + n..])))
    ensures AllCanonical([Done(CodeKind, Joined(toks[1..1 + n]))] + Segment(DropFence(toks[1 + n..])))
  {
    var run := toks[1..1 + n];
    assert forall i :: 0 <= i < n ==> run[i] == toks[1..][i];
    RunBeforeCanonical(CodeKind, run, DropFence(toks[1 + n..]));
  }

  lemma {:induction false} SegmentIsCanonical(toks: seq<Tok>)
    requires GoodToks(toks)
    ensures AllCanonical(Segment(toks))
    ensures Segment(toks) == [] <==> toks == []
    ensures toks != [] ==> Segment(toks)[0].Kind() == KindOf(toks[0])
    decreases |toks|
  {
    if toks != [] {
      if toks[0].Fence? {
        var n := RunLength(toks[1..], CodeKind);
        SegmentIsCanonical(DropFence(toks[1 + n..]));
        FencedCanonical(toks, n);
      } else {
        var n := RunLength(toks, toks[0].kind);
        SegmentIsCanonical(toks[n..]);
        RunBeforeCanonical(toks[0].kind, toks[..n], toks[n..]);
      }
    }
  }

  /** Every derived document is canonical: no two Markdown and no two Diff blocks are
      adjacent, and every block is in canonical form. */
  lemma CanonicalForm(s: Text)
    ensures AllCanonical(Derive(s))
  {
    FloorRefines(s);
    LinesClean(Strip(s));
    ToksGood(Lines(Strip(s)));
    SegmentIsCanonical(Toks(Lines(Strip(s))));
  }

  // ---------- re-deriving a printed document ----------

  const FENCE_LINE: Text := BACKTICKS + [LF]

  function PrintBlock(b: Block): Text {
    if b.Code? then FENCE_LINE + b.text + FENCE_LINE else TextOf(b)
  }

  /** The document as bytes: code fenced, markdown and diff verbatim. */
  function Print(blocks: seq<Block>): Text {
    if blocks == [] then [] else PrintBlock(blocks[0]) + Print(blocks[1..])
  }

  function JoinLines(lines: seq<Text>): Text {
    if lines == [] then [] else (lines[0] + [LF]) + JoinLines(lines[1..])
  }

  /** The lines that stand for tokens again, with an open fence closed at the end. */
  function Source(inCode: bool, toks: seq<Tok>): seq<Text>
    decreases |toks|
  {
    if toks == [] then (if inCode then [BACKTICKS] else [])
    else if toks[0].Fence? then [BACKTICKS] + Source(!inCode, toks[1..])
    else [toks[0].text] + Source(inCode, toks[1..])
  }

  /** What has been printed of the block under way. */
  function PrintedSoFar(open: Option<BlockKind>, text: Text): Text {
    match open
    case None => []
    case Some(kind) => (if kind == CodeKind then FENCE_LINE else []) + text
  }

  lemma PrintEnds(open: Option<BlockKind>, text: Text, blocks: seq<Block>)
    requires open.Some? ==> TextualKind(open.value)
    ensures Print(Ends(open, text) + blocks) ==
            PrintedSoFar(open, text) + Closing(open) + Print(blocks)
  {
    if open.Some? {
      assert (Ends(open, text) + blocks)[1..] == blocks;
      assert [] + text + [] == text;
    } else {
      assert Ends(open, text) + blocks == blocks;
      assert [] + [] + Print(blocks) == Print(blocks);
    }
  }

  lemma {:induction false} ResumePrints(open: Option<BlockKind>, text: Text, toks: seq<Tok>)
    requires open.Some? ==> TextualKind(open.value)
    requires Nested(open == Some(CodeKind), toks)
    ensures Print(Resume(open, text, toks)) ==
            PrintedSoFar(open, text) + JoinLines(Source(open == Some(CodeKind), toks))
    decreases |toks|
  {
    var inCode := open == Some(CodeKind);
    var lines := Source(inCode, toks);
    if toks == [] {
      if open.Some? {
        ResumeEnds(open.value, text, toks);
        PrintEnds(open, text, []);
        assert Ends(open, text) + [] == Ends(open, text);
        assert inCode ==> lines[1..] == [];
      }
    } else {
      ResumeOne(open, text, toks);
      var (open', text') := Under(open, text, toks[0]);
      ResumePrints(open', text', toks[1..]);
      var rest := Source(open' == Some(CodeKind), toks[1..]);
      assert lines[1..] == rest;
      PrintStep(open, text, toks[0], Resume(open', text', toks[1..]), JoinLines(rest));
    }
  }

  function LineOf(tok: Tok): Text { (if tok.Fence? then BACKTICKS else tok.text) + [LF] }

  /** The fence line that closes a code block. */
  function Closing(open: Option<BlockKind>): Text { if open == Some(CodeKind) then FENCE_LINE else [] }

  lemma PrintGrows(kind: BlockKind, text: Text, line: Text, tail: Text)
    ensures PrintedSoFar(Some(kind), text + line) + tail == PrintedSoFar(Some(kind), text) + (line + tail)
  {
    var head := if kind == CodeKind then FENCE_LINE else [];
    Assoc(head, text, line);
    Assoc(head + text, line, tail);
  }

  lemma PrintSwitches(open: Option<BlockKind>, text: Text, open': Option<BlockKind>, text': Text,
                      blocks: seq<Block>, line: Text, tail: Text)
    requires open.Some? ==> TextualKind(open.value)
    requires Closing(open) + PrintedSoFar(open', text') == line
    requires Print(blocks) == PrintedSoFar(open', text') + tail
    ensures Print(Ends(open, text) + blocks) == PrintedSoFar(open, text) + (line + tail)
  {
    PrintEnds(open, text, blocks);
    Assoc(PrintedSoFar(open, text), Closing(open), Print(blocks));
    Assoc(Closing(open), PrintedSoFar(open', text'), tail);
  }

  /** Printing moves past one token. */
  lemma PrintStep(open: Option<BlockKind>, text: Text, tok: Tok, blocks: seq<Block>, tail: Text)
    requires open.Some? ==> TextualKind(open.value)
    requires tok.Line? ==> TextualKind(tok.kind) && (tok.kind == CodeKind <==> open == Some(CodeKind))
    requires var (open', text') := Under(open, text, tok); Print(blocks) == PrintedSoFar(open', text') + tail
    ensures Print(Ended(open, text, tok) + blocks) == PrintedSoFar(open, text) + (LineOf(tok) + tail)
  {
    if tok.Line? && open == Some(tok.kind) {
      Unit(blocks);
      PrintGrows(tok.kind, text, LineOf(tok), tail);
    } else {
      var (open', text') := Under(open, text, tok);
      PrintSwitch(open, open', text', tok);
      PrintSwitches(open, text, open', text', blocks, LineOf(tok), tail);
    }
  }

  /** Closing one block and starting the next prints just the token's line. */
  lemma PrintSwitch(open: Option<BlockKind>, open': Option<BlockKind>, text': Text, tok: Tok)
    requires tok.Line? ==> open != Some(tok.kind) && (tok.kind == CodeKind <==> open == Some(CodeKind))
    requires (open', text') == Under(open, [], tok)
    ensures Closing(open) + PrintedSoFar(open', text') == LineOf(tok)
  {
    assert FENCE_LINE + [] == FENCE_LINE == [] + FENCE_LINE;
  }

  // The printed bytes split into the same lines again.

  lemma {:induction false} StripPlain(v: Text)
    requires NoEscape(v)
    ensures Strip(v) == v
    decreases |v|
  {
    if v != [] {
      StripPlain(v[1..]);
    }
  }

  lemma {:induction false} RubPlain(piece: Text)
    requires NoControls(piece)
    ensures Rub(piece) == piece
  {
    if piece != [] {
      RubPlain(piece[..|piece| - 1]);
      assert piece[..|piece| - 1] + [piece[|piece| - 1]] == piece;
    }
  }

  lemma LineValuePlain(line: Text)
    requires NoControls(line)
    ensures LineValue(line) == line
  {
    SplitUnbroken(CR, line);
    RubPlain(line);
    LastMarkedSnoc([], line);
    if line != [] {
      assert Marks(line[0]);
    }
    assert [] + [line] == [line];
  }

  lemma {:induction false} JoinedLinesSplit(lines: seq<Text>)
    requires AllClean(lines)
    ensures NoEscape(JoinLines(lines))
    ensures Split(LF, JoinLines(lines)) == Pieces(lines, [])
    decreases |lines|
  {
    if lines != [] {
      JoinedLinesSplit(lines[1..]);
      assert Clean(lines[0]);
      SplitLine(lines[0], JoinLines(lines[1..]));
    }
  }

  /** Printing clean lines and reading them gives the same lines. */
  lemma LinesRoundTrip(lines: seq<Text>)
    requires AllClean(lines)
    ensures Lines(Strip(JoinLines(lines))) == lines
  {
    JoinedLinesSplit(lines);
    StripPlain(JoinLines(lines));
    LineValuePlain([]);
    forall i | 0 <= i < |lines| ensures Values(lines)[i] == lines[i] {
      assert Clean(lines[i]);
      LineValuePlain(lines[i]);
    }
    assert Values(lines) == lines;
  }

  // The same lines classify alike, whatever their fences say.

  ghost predicate Alike(a: seq<Text>, b: seq<Text>) {
    && |a| <= |b|
    && forall i :: 0 <= i < |a| ==> IsFence(a[i]) == IsFence(b[i]) && (!IsFence(a[i]) ==> a[i] == b[i])
  }

  lemma {:induction false} AlikeFences(a: seq<Text>, b: seq<Text>, i: nat)
    requires Alike(a, b) && i <= |a|
    ensures FencesBefore(a, i) == FencesBefore(b, i)
  {
    if i > 0 {
      AlikeFences(a, b, i - 1);
    }
  }

  lemma AlikeRuns(a: seq<Text>, b: seq<Text>, j: nat, n: nat)
    requires Alike(a, b) && j < n <= |a|
    ensures DiffRuns(a, j, n) == DiffRuns(b, j, n)
  {
    forall k | 0 <= k < |a| ensures Outside(a, k) == Outside(b, k) {
      AlikeFences(a, b, k);
    }
    assert DiffRuns(a, j, n) ==> forall k :: j <= k < n && Outside(b, k) ==> Outside(a, k) && IsDiffLine(b[k]);
    assert DiffRuns(b, j, n) ==> forall k :: j <= k < n && Outside(a, k) ==> Outside(b, k) && IsDiffLine(a[k]);
  }

  lemma AlikeDiffs(a: seq<Text>, b: seq<Text>, n: nat)
    requires Alike(a, b) && n <= |a|
    ensures DiffOpen(a, n) == DiffOpen(b, n)
  {
    if j: nat :| j < n && DiffRuns(a, j, n) {
      AlikeRuns(a, b, j, n);
    }
    if j: nat :| j < n && DiffRuns(b, j, n) {
      AlikeRuns(a, b, j, n);
    }
  }

  lemma AlikeToks(a: seq<Text>, b: seq<Text>)
    requires Alike(a, b)
    ensures Toks(b)[..|a|] == Toks(a)
  {
    hide IsFence, DiffOpen, FencesBefore;
    forall i | 0 <= i < |a| ensures TokAt(a, i) == TokAt(b, i) {
      AlikeFences(a, b, i);
      AlikeDiffs(a, b, i + 1);
    }
  }

  lemma AlikeCons(x: Text, a: seq<Text>, y: Text, b: seq<Text>)
    requires Alike(a, b) && IsFence(x) == IsFence(y) && (!IsFence(x) ==> x == y)
    requires AllClean(b) && Clean(y)
    ensures Alike([x] + a, [y] + b) && AllClean([y] + b)
  {
    hide IsFence, Clean;
  }

  lemma {:induction false} SourceAlike(inCode: bool, toks: seq<Tok>, lines: seq<Text>)
    requires |toks| == |lines| && AllClean(lines)
    requires forall i :: 0 <= i < |lines| ==> toks[i].Fence? == IsFence(lines[i])
    requires forall i :: 0 <= i < |lines| ==> toks[i].Line? ==> toks[i].text == lines[i]
    ensures var src := Source(inCode, toks);
            && Alike(lines, src) && AllClean(src)
            && |src| == |lines| + (if EndsInCode(inCode, toks) then 1 else 0)
            && (EndsInCode(inCode, toks) ==> src[|lines|] == BACKTICKS)
    decreases |toks|
  {
    hide IsFence, NoControls;
    BackticksFence();
    if toks != [] {
      var inCode' := if toks[0].Fence? then !inCode else inCode;
      SourceAlike(inCode', toks[1..], lines[1..]);
      assert lines == [lines[0]] + lines[1..];
      AlikeCons(lines[0], lines[1..], Source(inCode, toks)[0], Source(inCode', toks[1..]));
    }
  }

  lemma BackticksFence()
    ensures IsFence(BACKTICKS) && Clean(BACKTICKS)
  {
    assert TrimStart(BACKTICKS) == BACKTICKS;
    assert WellFormed(BACKTICKS[3..]);
    assert BACKTICKS[1..][1..] == BACKTICKS[2..] && BACKTICKS[2..][1..] == BACKTICKS[3..];
    assert WellFormed(BACKTICKS[2..]) && WellFormed(BACKTICKS[1..]) && WellFormed(BACKTICKS);
    LossyKeepsWellFormed(BACKTICKS);
  }

  /** Closing an open fence at the end changes no block. */
  lemma {:induction false} ClosingFenceAddsNothing(open: Option<BlockKind>, text: Text, toks: seq<Tok>)
    requires open.Some? ==> TextualKind(open.value)
    requires Nested(open == Some(CodeKind), toks) && EndsInCode(open == Some(CodeKind), toks)
    ensures Nested(open == Some(CodeKind), toks + [Fence])
    ensures Resume(open, text, toks + [Fence]) == Resume(open, text, toks)
    decreases |toks|
  {
    var longer := toks + [Fence];
    if toks == [] {
      assert longer == [Fence] && longer[1..] == [];
      ResumeEnds(CodeKind, text, longer);
      ResumeEnds(CodeKind, text, toks);
    } else {
      assert longer[1..] == toks[1..] + [Fence];
      ResumeOne(open, text, toks);
      var (open', text') := Under(open, text, toks[0]);
      ClosingFenceAddsNothing(open', text', toks[1..]);
      ResumeOne(open, text, longer);
    }
  }

  /** The printed document is the derived document's own lines, with fences normalised. */
  lemma PrintedLines(lines: seq<Text>)
    ensures Print(Segment(Toks(lines))) == JoinLines(Source(false, Toks(lines)))
  {
    WholeNested(lines);
    ResumePrints(None, [], Toks(lines));
  }

  /** Rewriting fences and appending a closing one keeps the kinds and appends a fence. */
  lemma AlikeToksClosed(lines: seq<Text>, src: seq<Text>)
    requires Alike(lines, src) && |src| == |lines| + 1 && src[|lines|] == BACKTICKS
    ensures Toks(src) == Toks(lines) + [Fence]
  {
    AlikeToks(lines, src);
    BackticksFence();
    TakeLast(Toks(src), Toks(lines), Fence);
  }

  lemma AlikeToksSame(lines: seq<Text>, src: seq<Text>)
    requires Alike(lines, src) && |src| == |lines|
    ensures Toks(src) == Toks(lines)
  {
    AlikeToks(lines, src);
    assert Toks(src)[..|lines|] == Toks(src);
  }

  lemma TakeLast(whole: seq<Tok>, init: seq<Tok>, last: Tok)
    requires |whole| == |init| + 1 && whole[..|init|] == init && whole[|init|] == last
    ensures whole == init + [last]
  {
  }

  /** Closing an unclosed fence changes no block. */
  lemma ClosedSegments(toks: seq<Tok>)
    requires Nested(false, toks) && EndsInCode(false, toks)
    ensures Segment(toks + [Fence]) == Segment(toks)
  {
    ClosingFenceAddsNothing(None, [], toks);
  }

  /** Those lines group into the same blocks. */
  lemma PrintedLinesRegroup(lines: seq<Text>)
    requires AllClean(lines)
    ensures AllClean(Source(false, Toks(lines)))
    ensures Segment(Toks(Source(false, Toks(lines)))) == Segment(Toks(lines))
  {
    hide Segment, Source, IsFence, FencesBefore, DiffOpen, Nested, EndsInCode;
    WholeNested(lines);
    SourceAlike(false, Toks(lines), lines);
    if EndsInCode(false, Toks(lines)) {
      AlikeToksClosed(lines, Source(false, Toks(lines)));
      ClosedSegments(Toks(lines));
    } else {
      AlikeToksSame(lines, Source(false, Toks(lines)));
    }
  }

  /** Re-deriving a printed document is the identity: unclosed fences, empty code blocks and
      diffs interrupted by code included. */
  lemma RederivingIsIdentity(s: Text)
    ensures Derive(Print(Derive(s))) == Derive(s)
  {
    var lines := Lines(Strip(s));
    FloorRefines(s);
    FloorRefines(Print(Derive(s)));
    LinesClean(Strip(s));
    PrintedLines(lines);
    PrintedLinesRegroup(lines);
    LinesRoundTrip(Source(false, Toks(lines)));
  }
}
