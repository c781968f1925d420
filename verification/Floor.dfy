/** The one-pass floor deriver (`derive/floor.rs`): its state and steps as values, and the
    adapter class proved against them. */
module Floor {
  import opened Bytes
  import opened Blocks
  import opened Stream
  import opened Document
  import opened FloorSpec

  datatype Ansi = Normal | Esc | Csi | Osc | OscEsc

  /** The block grouper's state; `open` is the kind of the open block. */
  datatype Group = Group(inCode: bool, inDiff: bool, open: Option<BlockKind>)

  datatype State = State(ansi: Ansi, line: Text, pendingCr: bool, group: Group)

  const START_GROUP := Group(false, false, None)
  const START := State(Normal, [], false, START_GROUP)

  function CloseIf(open: Option<BlockKind>): seq<Cmd> { if open.Some? then [Close] else [] }

  /** `ensure`. */
  function Ensure(open: Option<BlockKind>, kind: BlockKind): seq<Cmd> {
    if open == Some(kind) then [] else CloseIf(open) + [Open(kind)]
  }

  /** `append_line`. */
  function AppendLine(open: Option<BlockKind>, kind: BlockKind, line: Text): seq<Cmd> {
    Ensure(open, kind) + [Write(line + [LF])]
  }

  /** `emit_line`, on the decoded line. */
  function Emit(g: Group, line: Text): (Group, seq<Cmd>) {
    if IsFence(line) then
      if g.inCode then (Group(false, g.inDiff, None), CloseIf(g.open))
      else (Group(true, g.inDiff, Some(CodeKind)), CloseIf(g.open) + [Open(CodeKind)])
    else if g.inCode then
      (g.(open := Some(CodeKind)), AppendLine(g.open, CodeKind, line))
    else if g.inDiff || StartsDiff(line) then
      if IsDiffLine(line) then
        (Group(false, true, Some(DiffKind)), AppendLine(g.open, DiffKind, line))
      else if g.open == Some(DiffKind) then
        (Group(false, false, Some(MarkdownKind)), [Close] + AppendLine(None, MarkdownKind, line))
      else
        (Group(false, false, Some(MarkdownKind)), AppendLine(g.open, MarkdownKind, line))
    else
      (Group(false, false, Some(MarkdownKind)), AppendLine(g.open, MarkdownKind, line))
  }

  /** `rewrite_if_pending_cr`: the line a coming mark is put on. */
  function Rewritten(st: State): Text { if st.pendingCr then [] else st.line }

  function FeedByte(st: State, b: Byte): (State, seq<Cmd>) {
    match st.ansi
    case Normal =>
      if b == ESC then (st.(ansi := Esc), [])
      else if b == LF then
        var (g, cmds) := Emit(st.group, Lossy(st.line));
        (State(Normal, [], false, g), cmds)
      else if b == CR then (st.(pendingCr := true), [])
      else if b == BS then
        var line := Rewritten(st);
        (st.(line := if line == [] then [] else line[..|line| - 1], pendingCr := false), [])
      else if b == TAB then (st.(line := Rewritten(st) + [SPACE], pendingCr := false), [])
      else if b < 0x20 then (st, [])
      else (st.(line := Rewritten(st) + [b], pendingCr := false), [])
    case Esc => (st.(ansi := if b == 0x5b then Csi else if b == 0x5d then Osc else Normal), [])
    case Csi => (st.(ansi := if 0x40 <= b <= 0x7e then Normal else Csi), [])
    case Osc => (st.(ansi := if b == BEL then Normal else if b == ESC then OscEsc else Osc), [])
    case OscEsc => (st.(ansi := Normal), [])
  }

  function Feed(st: State, bytes: Text): (State, seq<Cmd>)
    decreases |bytes|
  {
    if bytes == [] then (st, []) else
    var (st1, c1) := FeedByte(st, bytes[0]);
    var (st2, c2) := Feed(st1, bytes[1..]);
    (st2, c1 + c2)
  }

  function Flush(st: State): (State, seq<Cmd>) {
    var (g, cmds) := if st.line == [] then (st.group, []) else Emit(st.group, Lossy(st.line));
    (st.(line := [], group := g.(open := None)), cmds + CloseIf(g.open))
  }

  /** The document of a whole session: one run of feeds and one final flush. */
  function Derive(s: Text): seq<Block> {
    var (st, cmds) := Feed(START, s);
    Draw([], cmds + Flush(st).1)
  }

  lemma {:induction false} FeedConcat(st: State, a: Text, b: Text)
    ensures var mid := Feed(st, a); var end := Feed(mid.0, b);
            Feed(st, a + b) == (end.0, mid.1 + end.1)
    decreases |a|
  {
    if a == [] {
      assert a + b == b;
      assert [] + Feed(st, b).1 == Feed(st, b).1;
    } else {
      assert (a + b)[1..] == a[1..] + b;
      var (st1, c1) := FeedByte(st, a[0]);
      FeedConcat(st1, a[1..], b);
      var mid := Feed(st1, a[1..]);
      assert c1 + (mid.1 + Feed(mid.0, b).1) == (c1 + mid.1) + Feed(mid.0, b).1;
    }
  }

  // ---------- commands are bracketed ----------

  lemma CloseIfBracketed(open: Option<BlockKind>)
    ensures Bracketed(open.Some?, CloseIf(open)) && !OpenAfter(open.Some?, CloseIf(open))
  {
  }

  lemma EnsureBracketed(open: Option<BlockKind>, kind: BlockKind)
    requires TextualKind(kind)
    ensures Bracketed(open.Some?, Ensure(open, kind)) && OpenAfter(open.Some?, Ensure(open, kind))
  {
    if open != Some(kind) {
      CloseIfBracketed(open);
      BracketedConcat(open.Some?, CloseIf(open), [Open(kind)]);
    }
  }

  lemma AppendLineBracketed(open: Option<BlockKind>, kind: BlockKind, line: Text)
    requires TextualKind(kind)
    ensures Bracketed(open.Some?, AppendLine(open, kind, line))
    ensures OpenAfter(open.Some?, AppendLine(open, kind, line))
  {
    EnsureBracketed(open, kind);
    BracketedConcat(open.Some?, Ensure(open, kind), [Write(line + [LF])]);
  }

  lemma EmitBracketed(g: Group, line: Text)
    ensures Bracketed(g.open.Some?, Emit(g, line).1)
    ensures OpenAfter(g.open.Some?, Emit(g, line).1) == Emit(g, line).0.open.Some?
  {
    hide IsFence, StartsDiff, IsDiffLine;
    CloseIfBracketed(g.open);
    AppendLineBracketed(g.open, CodeKind, line);
    AppendLineBracketed(g.open, DiffKind, line);
    AppendLineBracketed(g.open, MarkdownKind, line);
    AppendLineBracketed(None, MarkdownKind, line);
    BracketedConcat(g.open.Some?, CloseIf(g.open), [Open(CodeKind)]);
    BracketedConcat(g.open.Some?, CloseIf(g.open), AppendLine(None, MarkdownKind, line));
  }

  lemma FeedByteBracketed(st: State, b: Byte)
    ensures Bracketed(st.group.open.Some?, FeedByte(st, b).1)
    ensures OpenAfter(st.group.open.Some?, FeedByte(st, b).1) == FeedByte(st, b).0.group.open.Some?
  {
    hide Emit, Lossy;
    EmitBracketed(st.group, Lossy(st.line));
  }

  lemma {:induction false} FeedBracketed(st: State, bytes: Text)
    ensures Bracketed(st.group.open.Some?, Feed(st, bytes).1)
    ensures OpenAfter(st.group.open.Some?, Feed(st, bytes).1) == Feed(st, bytes).0.group.open.Some?
    decreases |bytes|
  {
    if bytes != [] {
      var (st1, c1) := FeedByte(st, bytes[0]);
      FeedByteBracketed(st, bytes[0]);
      FeedBracketed(st1, bytes[1..]);
      BracketedConcat(st.group.open.Some?, c1, Feed(st1, bytes[1..]).1);
    }
  }

  lemma FlushBracketed(st: State)
    ensures Bracketed(st.group.open.Some?, Flush(st).1)
    ensures !OpenAfter(st.group.open.Some?, Flush(st).1)
  {
    var (g, cmds) := if st.line == [] then (st.group, []) else Emit(st.group, Lossy(st.line));
    EmitBracketed(st.group, Lossy(st.line));
    BracketedConcat(st.group.open.Some?, cmds, CloseIf(g.open));
  }

  // ---------- the adapter ----------

  class FloorAdapter {
    var ansi: Ansi
    var line: Text
    var pendingCr: bool
    var inCode: bool
    var inDiff: bool
    var current: Option<(nat, BlockKind)>

    ghost function OpenKind(): Option<BlockKind>
      reads this
    {
      if current.Some? then Some(current.value.1) else None
    }

    ghost function Grouping(): Group
      reads this
    {
      Group(inCode, inDiff, OpenKind())
    }

    ghost function Value(): State
      reads this
    {
      State(ansi, line, pendingCr, Grouping())
    }

    /** The open block is the last one of the sink's log. */
    ghost predicate Linked(sink: BlockSink)
      reads this, sink, sink.log
    {
      && sink.Valid()
      && (current.Some? ==> sink.log.blocks != [] && current.value.0 == LastId(sink.log.Value()))
    }

    constructor ()
      ensures Value() == START && current.None?
    {
      ansi, line, pendingCr, inCode, inDiff, current := Normal, [], false, false, false, None;
    }

    method EnsureOpen(kind: BlockKind, sink: BlockSink) returns (id: nat)
      requires Linked(sink)
      modifies this`current, sink, sink.log
      ensures Linked(sink) && current == Some((id, kind))
      ensures sink.Value() == Perform(old(sink.Value()), Ensure(old(OpenKind()), kind))
    {
      hide Exec, BlockLog.Valid;
      ghost var before := sink.Value();
      PerformNone(before);
      if current.Some? {
        if current.value.1 == kind {
          return current.value.0;
        }
        PerformOne(before, Close);
        sink.Finalize(current.value.0);
      }
      PerformOne(sink.Value(), Open(kind));
      PerformConcat(before, CloseIf(old(OpenKind())), [Open(kind)]);
      id := sink.Append(kind);
      current := Some((id, kind));
    }

    method CloseOpen(sink: BlockSink)
      requires Linked(sink)
      modifies this`current, sink, sink.log
      ensures Linked(sink) && current == None
      ensures sink.Value() == Perform(old(sink.Value()), CloseIf(old(OpenKind())))
    {
      hide Exec, BlockLog.Valid;
      PerformOne(sink.Value(), Close);
      PerformNone(sink.Value());
      if current.Some? {
        sink.Finalize(current.value.0);
        current := None;
      }
    }

    /** An opening fence: what is open ends, and a code block begins. */
    method OpenCode(sink: BlockSink)
      requires Linked(sink)
      modifies this`current, sink, sink.log
      ensures Linked(sink) && OpenKind() == Some(CodeKind)
      ensures sink.Value() == Perform(old(sink.Value()), CloseIf(old(OpenKind())) + [Open(CodeKind)])
    {
      hide Exec, BlockLog.Valid;
      ghost var before, open := sink.Value(), OpenKind();
      CloseOpen(sink);
      PerformOne(sink.Value(), Open(CodeKind));
      PerformConcat(before, CloseIf(open), [Open(CodeKind)]);
      var id := sink.Append(CodeKind);
      current := Some((id, CodeKind));
    }

    method WriteLine(kind: BlockKind, text: Text, sink: BlockSink)
      requires Linked(sink)
      modifies this`current, sink, sink.log
      ensures Linked(sink) && OpenKind() == Some(kind)
      ensures sink.Value() == Perform(old(sink.Value()), AppendLine(old(OpenKind()), kind, text))
    {
      hide Exec, BlockLog.Valid;
      ghost var before := sink.Value();
      var id := EnsureOpen(kind, sink);
      PerformOne(sink.Value(), Write(text + [LF]));
      PerformConcat(before, Ensure(old(OpenKind()), kind), [Write(text + [LF])]);
      sink.Patch(id, AppendText(text + [LF]));
    }

    method EmitLine(bytes: Text, sink: BlockSink)
      requires Linked(sink)
      modifies this, sink, sink.log
      ensures Linked(sink)
      ensures unchanged(`ansi) && unchanged(`line) && unchanged(`pendingCr)
      ensures var (g, cmds) := Emit(old(Grouping()), Lossy(bytes));
              Grouping() == g && sink.Value() == Perform(old(sink.Value()), cmds)
    {
      hide IsFence, StartsDiff, IsDiffLine, Lossy, Exec, Step, BlockLog.Valid;
      ghost var before := sink.Value();
      var text := Lossy(bytes);
      if IsFence(text) {
        if inCode {
          inCode := false;
          CloseOpen(sink);
        } else {
          inCode := true;
          OpenCode(sink);
        }
        return;
      }
      if inCode {
        WriteLine(CodeKind, text, sink);
        return;
      }
      if !inDiff && StartsDiff(text) {
        inDiff := true;
      }
      if inDiff {
        if IsDiffLine(text) {
          WriteLine(DiffKind, text, sink);
          return;
        }
        inDiff := false;
        if current.Some? && current.value.1 == DiffKind {
          PerformConcat(before, [Close], AppendLine(None, MarkdownKind, text));
          CloseOpen(sink);
        }
      }
      WriteLine(MarkdownKind, text, sink);
    }

    method RewriteIfPendingCr()
      modifies this`line, this`pendingCr
      ensures line == Rewritten(old(Value())) && !pendingCr
    {
      if pendingCr {
        line := [];
        pendingCr := false;
      }
    }

    method TakeByte(b: Byte, sink: BlockSink)
      requires Linked(sink)
      modifies this, sink, sink.log
      ensures Linked(sink)
      ensures var (st, cmds) := FeedByte(old(Value()), b);
              Value() == st && sink.Value() == Perform(old(sink.Value()), cmds)
    {
      hide Exec, Step, Emit, Lossy, BlockLog.Valid;
      PerformNone(sink.Value());
      match ansi
      case Normal =>
        if b == ESC {
          ansi := Esc;
        } else if b == LF {
          pendingCr := false;
          var raw := line;
          line := [];
          EmitLine(raw, sink);
        } else if b == CR {
          pendingCr := true;
        } else if b == BS {
          RewriteIfPendingCr();
          line := if line == [] then [] else line[..|line| - 1];
        } else if b == TAB {
          RewriteIfPendingCr();
          line := line + [SPACE];
        } else if b >= 0x20 {
          RewriteIfPendingCr();
          line := line + [b];
        }
      case Esc => ansi := if b == 0x5b then Csi else if b == 0x5d then Osc else Normal;
      case Csi => ansi := if 0x40 <= b <= 0x7e then Normal else Csi;
      case Osc => ansi := if b == BEL then Normal else if b == ESC then OscEsc else Osc;
      case OscEsc => ansi := Normal;
    }

    method FeedBytes(bytes: Text, sink: BlockSink)
      requires Linked(sink)
      modifies this, sink, sink.log
      ensures Linked(sink)
      ensures var (st, cmds) := Feed(old(Value()), bytes);
              Value() == st && sink.Value() == Perform(old(sink.Value()), cmds)
    {
      hide Exec, BlockLog.Valid;
      ghost var st0, ch0 := Value(), sink.Value();
      PerformNone(ch0);
      for i := 0 to |bytes|
        invariant Linked(sink)
        invariant (Value(), sink.Value()) == (Feed(st0, bytes[..i]).0, Perform(ch0, Feed(st0, bytes[..i]).1))
      {
        FeedOneMore(st0, ch0, bytes, i);
        TakeByte(bytes[i], sink);
      }
      assert bytes[..|bytes|] == bytes;
    }

    method FlushBuffered(sink: BlockSink)
      requires Linked(sink)
      modifies this, sink, sink.log
      ensures Linked(sink)
      ensures var (st, cmds) := Flush(old(Value()));
              Value() == st && sink.Value() == Perform(old(sink.Value()), cmds)
    {
      hide Exec, Step, IsFence, StartsDiff, IsDiffLine, Lossy, BlockLog.Valid;
      ghost var st0, ch0 := Value(), sink.Value();
      ghost var (g, cmds) := if line == [] then (Grouping(), []) else Emit(Grouping(), Lossy(line));
      PerformNone(ch0);
      if line != [] {
        var raw := line;
        line := [];
        EmitLine(raw, sink);
      }
      PerformConcat(ch0, cmds, CloseIf(g.open));
      CloseOpen(sink);
    }
  }

  lemma FeedOneMore(st: State, ch: Channel, bytes: Text, i: nat)
    requires i < |bytes|
    ensures var mid := Feed(st, bytes[..i]); var next := FeedByte(mid.0, bytes[i]);
            && Feed(st, bytes[..i + 1]).0 == next.0
            && Perform(ch, Feed(st, bytes[..i + 1]).1) == Perform(Perform(ch, mid.1), next.1)
  {
    var mid := Feed(st, bytes[..i]);
    var next := FeedByte(mid.0, bytes[i]);
    assert bytes[..i + 1] == bytes[..i] + [bytes[i]];
    FeedConcat(st, bytes[..i], [bytes[i]]);
    assert [bytes[i]][1..] == [];
    assert Feed(next.0, []) == (next.0, []);
    assert next.1 + [] == next.1;
    PerformConcat(ch, mid.1, next.1);
  }
}
