/** What the floor means, in three stages and without its state machine:
    strip escape sequences; split into lines and evaluate each; classify and group. */
module FloorSpec {
  import opened Bytes
  import opened Blocks
  import opened Splitting

  // ---------- stage 1: escape sequences (ECMA-48 sections 5.4 and 5.6) ----------

  /** Bytes up to and including the first final byte of a control sequence. */
  function ControlTail(s: Text): (n: nat)
    ensures n <= |s|
  {
    if s == [] then 0 else if 0x40 <= s[0] <= 0x7e then 1 else 1 + ControlTail(s[1..])
  }

  /** Bytes up to and including BEL, or ESC and the byte after it. */
  function StringTail(s: Text): (n: nat)
    ensures n <= |s|
  {
    if s == [] then 0
    else if s[0] == BEL then 1
    else if s[0] == ESC then (if |s| == 1 then 1 else 2)
    else 1 + StringTail(s[1..])
  }

  function EscapeLength(s: Text): (n: nat)
    requires s != [] && s[0] == ESC
    ensures 1 <= n <= |s|
  {
    if |s| == 1 then 1
    else if s[1] == 0x5b then 2 + ControlTail(s[2..])
    else if s[1] == 0x5d then 2 + StringTail(s[2..])
    else 2
  }

  function Strip(s: Text): Text
    decreases |s|
  {
    if s == [] then []
    else if s[0] == ESC then Strip(s[EscapeLength(s)..])
    else [s[0]] + Strip(s[1..])
  }

  // ---------- stage 2: lines ----------

  /** Content, tab and backspace move the cursor; other C0 controls leave no mark. */
  predicate Marks(b: Byte) { b == BS || b == TAB || b >= 0x20 }

  predicate Marked(piece: Text) { exists i :: 0 <= i < |piece| && Marks(piece[i]) }

  /** Backspace takes away the byte before it, a tab is a space. */
  function Rub(piece: Text): Text {
    if piece == [] then [] else
    var r := Rub(piece[..|piece| - 1]);
    var b := piece[|piece| - 1];
    if b == BS then (if r == [] then [] else r[..|r| - 1])
    else if b == TAB then r + [SPACE]
    else if b >= 0x20 then r + [b]
    else r
  }

  /** The last marked piece rewrites the line; unmarked pieces after it leave it alone. */
  function LastMarked(pieces: seq<Text>): Text {
    if pieces == [] then []
    else if Marked(pieces[|pieces| - 1]) then Rub(pieces[|pieces| - 1])
    else LastMarked(pieces[..|pieces| - 1])
  }

  function LineValue(raw: Text): Text {
    var p := Split(CR, raw); LastMarked(p.ended + [p.tail])
  }

  function Values(raws: seq<Text>): (r: seq<Text>)
    ensures |r| == |raws|
    ensures forall i :: 0 <= i < |r| ==> r[i] == Lossy(LineValue(raws[i]))
  {
    seq(|raws|, i requires 0 <= i < |raws| => Lossy(LineValue(raws[i])))
  }

  /** All lines of visible bytes; a non-empty unterminated tail counts as one. */
  function Lines(visible: Text): seq<Text> {
    var p := Split(LF, visible);
    Values(p.ended) + (if LineValue(p.tail) == [] then [] else [Lossy(LineValue(p.tail))])
  }

  // ---------- stage 3: classification and grouping ----------

  const BACKTICKS: Text := [0x60, 0x60, 0x60]
  const HUNK: Text := [0x40, 0x40, 0x20]
  /** "diff --git" */
  const DIFF_GIT: Text := [0x64, 0x69, 0x66, 0x66, 0x20, 0x2d, 0x2d, 0x67, 0x69, 0x74]

  predicate IsFence(line: Text) { BACKTICKS <= TrimStart(line) }

  predicate StartsDiff(line: Text) { HUNK <= TrimStart(line) || DIFF_GIT + [SPACE] <= line }

  /** `is_diff_line`: "diff --git", or a first byte among `+ - space @ \`. */
  predicate IsDiffLine(line: Text) {
    DIFF_GIT <= line || (line != [] && line[0] in {0x2b, 0x2d, 0x20, 0x40, 0x5c})
  }

  function FencesBefore(lines: seq<Text>, i: nat): nat
    requires i <= |lines|
  {
    if i == 0 then 0 else FencesBefore(lines, i - 1) + if IsFence(lines[i - 1]) then 1 else 0
  }

  predicate InCode(lines: seq<Text>, i: nat)
    requires i <= |lines|
  {
    FencesBefore(lines, i) % 2 == 1
  }

  predicate Outside(lines: seq<Text>, i: nat)
    requires i < |lines|
  {
    !IsFence(lines[i]) && !InCode(lines, i)
  }

  /** A diff opened at line `j` still runs just before line `n`: the lines outside code
      from `j` on all look like diff lines. Code in between does not end it. */
  predicate DiffRuns(lines: seq<Text>, j: nat, n: nat)
    requires j < n <= |lines|
  {
    && Outside(lines, j) && StartsDiff(lines[j])
    && forall k :: j <= k < n && Outside(lines, k) ==> IsDiffLine(lines[k])
  }

  ghost predicate DiffOpen(lines: seq<Text>, n: nat)
    requires n <= |lines|
  {
    exists j: nat :: j < n && DiffRuns(lines, j, n)
  }

  datatype Tok = Fence | Line(kind: BlockKind, text: Text)

  ghost function TokAt(lines: seq<Text>, i: nat): Tok
    requires i < |lines|
  {
    if IsFence(lines[i]) then Fence
    else if InCode(lines, i) then Line(CodeKind, lines[i])
    else if DiffOpen(lines, i + 1) then Line(DiffKind, lines[i])
    else Line(MarkdownKind, lines[i])
  }

  ghost function Toks(lines: seq<Text>): (r: seq<Tok>)
    ensures |r| == |lines|
    ensures forall i :: 0 <= i < |r| ==> r[i] == TokAt(lines, i)
  {
    seq(|lines|, i requires 0 <= i < |lines| => TokAt(lines, i))
  }

  function RunLength(toks: seq<Tok>, kind: BlockKind): (n: nat)
    ensures n <= |toks|
    ensures forall i :: 0 <= i < n ==> toks[i].Line? && toks[i].kind == kind
    ensures n < |toks| ==> !(toks[n].Line? && toks[n].kind == kind)
  {
    if toks != [] && toks[0].Line? && toks[0].kind == kind then 1 + RunLength(toks[1..], kind) else 0
  }

  /** The lines of a run, each ended by LF. */
  function Joined(toks: seq<Tok>): Text {
    if toks == [] then [] else
    (if toks[0].Line? then toks[0].text + [LF] else []) + Joined(toks[1..])
  }

  function Done(kind: BlockKind, text: Text): Block
    requires TextualKind(kind)
  {
    match kind
    case MarkdownKind => Markdown(text, true)
    case CodeKind => Code(None, text, true)
    case DiffKind => Diff(text, true)
  }

  function DropFence(toks: seq<Tok>): (r: seq<Tok>)
    ensures |r| <= |toks|
  {
    if toks != [] && toks[0].Fence? then toks[1..] else toks
  }

  /** A fence opens a code block that runs to the next fence; other lines form maximal
      runs of one kind. */
  function Segment(toks: seq<Tok>): seq<Block>
    decreases |toks|
  {
    if toks == [] then []
    else if toks[0].Fence? then
      var n := RunLength(toks[1..], CodeKind);
      [Done(CodeKind, Joined(toks[1..1 + n]))] + Segment(DropFence(toks[1 + n..]))
    else if TextualKind(toks[0].kind) then
      var n := RunLength(toks, toks[0].kind);
      [Done(toks[0].kind, Joined(toks[..n]))] + Segment(toks[n..])
    else []
  }

  /** The document a byte stream stands for. */
  ghost function FloorDocument(s: Text): seq<Block> {
    Segment(Toks(Lines(Strip(s))))
  }
}
