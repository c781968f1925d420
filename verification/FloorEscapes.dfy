/** Which escape sequences the floor makes invisible, wherever they stand in the stream. */
module FloorEscapes {
  import opened Bytes
  import opened Splitting
  import opened FloorSpec
  import opened Floor
  import opened FloorRefinement
  import opened FloorLaws

  const BRACKET: Byte := 0x5b
  const CLOSE_BRACKET: Byte := 0x5d
  const BACKSLASH: Byte := 0x5c

  ghost predicate Within(s: Text, lo: Byte, hi: Byte) { forall i :: 0 <= i < |s| ==> lo <= s[i] <= hi }

  /** A control sequence: CSI, parameter bytes, intermediate bytes, final byte (ECMA-48,
      section 5.4). */
  ghost predicate ControlSequence(e: Text) {
    exists params, inter, final ::
      && e == [0x1b, 0x5b] + params + inter + [final]
      && Within(params, 0x30, 0x3f) && Within(inter, 0x20, 0x2f) && 0x40 <= final <= 0x7e
  }

  /** An operating system command ended by BEL or by ST (ECMA-48, section 5.6). */
  ghost predicate CommandString(e: Text) {
    exists body, end ::
      && e == [0x1b, 0x5d] + body + end
      && (forall i :: 0 <= i < |body| ==> body[i] != 0x07 && body[i] != 0x1b)
      && (end == [0x07] || end == [0x1b, 0x5c])
  }

  lemma FeedOne(st: State, b: Byte)
    ensures Feed(st, [b]) == FeedByte(st, b)
  {
    assert [b][1..] == [];
    assert FeedByte(st, b).1 + [] == FeedByte(st, b).1;
  }

  /** Bytes on which the automaton stays put leave no trace. */
  lemma {:induction false} FeedStays(st: State, body: Text)
    requires forall i :: 0 <= i < |body| ==> FeedByte(st, body[i]) == (st, [])
    ensures Feed(st, body) == (st, [])
    decreases |body|
  {
    if body != [] {
      assert FeedByte(st, body[0]) == (st, []);
      FeedStays(st, body[1..]);
      var (st1, c1) := FeedByte(st, body[0]);
      assert c1 + Feed(st1, body[1..]).1 == [];
    }
  }

  lemma FeedPrefix(st: State, a: Text, b: Text, mid: State)
    requires Feed(st, a) == (mid, [])
    ensures Feed(st, a + b) == Feed(mid, b)
  {
    FeedConcat(st, a, b);
    assert [] + Feed(mid, b).1 == Feed(mid, b).1;
  }

  lemma FeedIntroducer(st: State, b: Byte)
    requires st.ansi == Normal
    ensures var next := if b == BRACKET then Csi else if b == CLOSE_BRACKET then Osc else Normal;
            Feed(st, [ESC, b]) == (st.(ansi := next), [])
  {
    FeedOne(st, ESC);
    FeedOne(st.(ansi := Esc), b);
    FeedPrefix(st, [ESC], [b], st.(ansi := Esc));
    assert [ESC] + [b] == [ESC, b];
  }

  lemma ControlSequenceHidden(st: State, e: Text)
    requires st.ansi == Normal && ControlSequence(e)
    ensures Feed(st, e) == (st, [])
  {
    var params, inter, final :|
      && e == [0x1b, 0x5b] + params + inter + [final]
      && Within(params, 0x30, 0x3f) && Within(inter, 0x20, 0x2f) && 0x40 <= final <= 0x7e;
    var csi := st.(ansi := Csi);
    FeedIntroducer(st, BRACKET);
    FeedStays(csi, params);
    FeedPrefix(st, [ESC, BRACKET], params, csi);
    FeedStays(csi, inter);
    FeedPrefix(st, [ESC, BRACKET] + params, inter, csi);
    FeedOne(csi, final);
    FeedPrefix(st, [ESC, BRACKET] + params + inter, [final], csi);
  }

  lemma CommandStringHidden(st: State, e: Text)
    requires st.ansi == Normal && CommandString(e)
    ensures Feed(st, e) == (st, [])
  {
    var body, end :|
      && e == [0x1b, 0x5d] + body + end
      && (forall i :: 0 <= i < |body| ==> body[i] != 0x07 && body[i] != 0x1b)
      && (end == [0x07] || end == [0x1b, 0x5c]);
    var osc := st.(ansi := Osc);
    FeedIntroducer(st, CLOSE_BRACKET);
    FeedStays(osc, body);
    FeedPrefix(st, [ESC, CLOSE_BRACKET], body, osc);
    FeedOne(osc, BEL);
    FeedOne(osc, ESC);
    FeedOne(st.(ansi := OscEsc), BACKSLASH);
    FeedPrefix(osc, [ESC], [BACKSLASH], st.(ansi := OscEsc));
    assert [ESC] + [BACKSLASH] == [ESC, BACKSLASH];
    FeedPrefix(st, [ESC, CLOSE_BRACKET] + body, end, osc);
  }

  /** Inserting a control sequence or a command string after any prefix that leaves the
      automaton in `Normal` changes nothing the floor ever does, so no derived block. */
  lemma EscapesAreInvisible(p: Text, e: Text, q: Text)
    requires Feed(START, p).0.ansi == Normal
    requires ControlSequence(e) || CommandString(e)
    ensures Feed(START, p + e + q) == Feed(START, p + q)
    ensures Derive(p + e + q) == Derive(p + q)
  {
    var st := Feed(START, p).0;
    if ControlSequence(e) {
      ControlSequenceHidden(st, e);
    } else {
      CommandStringHidden(st, e);
    }
    InsertHidden(p, e, q);
  }

  lemma InsertHidden(p: Text, e: Text, q: Text)
    requires var st := Feed(START, p).0; Feed(st, e) == (st, [])
    ensures Feed(START, p + e + q) == Feed(START, p + q)
  {
    var (st, cmds) := Feed(START, p);
    FeedConcat(START, p, e);
    FeedConcat(START, p + e, q);
    FeedConcat(START, p, q);
    assert cmds + [] == cmds;
  }

  // ---------- what the automaton does not strip ----------

  /** After ESC and any byte but `[` and `]` the automaton is back in `Normal`: whatever else
      belongs to the sequence (the payload of a device control string, the rest of an escape
      sequence with intermediate bytes) is fed as text. */
  lemma OtherEscapesEndAfterOneByte(st: State, x: Byte, rest: Text)
    requires st.ansi == Normal && x != BRACKET && x != CLOSE_BRACKET
    ensures Feed(st, [ESC, x] + rest) == Feed(st, rest)
  {
    FeedIntroducer(st, x);
    FeedPrefix(st, [ESC, x], rest, st);
  }

  lemma PlainLineShows(line: Text)
    requires line != [] && NoControls(line)
    ensures Derive(line) != []
  {
    FloorRefines(line);
    StripPlain(line);
    SplitUnbroken(LF, line);
    LineValuePlain(line);
    assert Lines(line) == [Lossy(line)];
    LinesClean(line);
    ToksGood(Lines(line));
    SegmentIsCanonical(Toks(Lines(line)));
  }

  lemma EmptyDocument()
    ensures Derive([]) == []
  {
    assert Feed(START, []) == (START, []);
  }

  lemma StrayTextShows(inter: Text, final: Byte)
    requires inter != [] && Within(inter, 0x20, 0x2f) && 0x30 <= final <= 0x7e
    ensures Derive([ESC] + inter + [final]) != []
  {
    var rest := inter[1..] + [final];
    assert [ESC] + inter + [final] == [ESC, inter[0]] + rest;
    OtherEscapesEndAfterOneByte(START, inter[0], rest);
    PlainLineShows(rest);
  }

  /** An escape sequence `ESC I...I F` (ECMA-48, section 5.3.3 and ECMA-35) is invisible in
      every context exactly when it has no intermediate byte. `ESC ( B` shows a stray `B`. */
  lemma IntermediatesShow(inter: Text, final: Byte)
    requires Within(inter, 0x20, 0x2f) && 0x30 <= final <= 0x7e
    requires inter == [] ==> final != BRACKET && final != CLOSE_BRACKET
    ensures inter == [] <==>
            forall p, q :: Feed(START, p).0.ansi == Normal ==> Derive(p + ([ESC] + inter + [final]) + q) == Derive(p + q)
  {
    var e := [ESC] + inter + [final];
    if inter == [] {
      assert e == [ESC, final];
      forall p, q | Feed(START, p).0.ansi == Normal ensures Derive(p + e + q) == Derive(p + q) {
        FeedIntroducer(Feed(START, p).0, final);
        InsertHidden(p, e, q);
      }
    } else {
      StrayTextShows(inter, final);
      EmptyDocument();
      var none: Text := [];
      assert none + e + none == e && none + none == none;
      assert Feed(START, none).0.ansi == Normal;
      assert Derive(none + e + none) != Derive(none + none);
    }
  }

  // ---------- control strings ----------

  /** The introducers of the control strings other than an operating system command: DCS, SOS,
      PM and APC (ECMA-48, section 5.6). */
  const STRING_OPENERS: set<Byte> := {0x50, 0x58, 0x5e, 0x5f}

  /** A control byte that the line editor drops. */
  predicate Dropped(b: Byte) { b < 0x20 && b !in {BS, TAB, LF, CR, ESC} }

  ghost predicate AllDropped(body: Text) { forall i :: 0 <= i < |body| ==> Dropped(body[i]) }

  const TERMINATOR: Text := [ESC, BACKSLASH]

  /** After ST the automaton is in `Normal`, whatever it was in before. */
  lemma NormalAfterTerminator(a: Ansi, s: Text)
    ensures Screen(a, s + TERMINATOR).0 == Normal
  {
    var mid := Screen(a, s).0;
    ScreenConcat(a, s, TERMINATOR);
    assert TERMINATOR[1..] == [BACKSLASH] && TERMINATOR[1..][1..] == [];
    if mid == Normal {
      assert Screen(Esc, [BACKSLASH]).0 == Normal;
    } else {
      var next := NextAnsi(mid, ESC);
      assert Screen(mid, TERMINATOR) == Screen(next, [BACKSLASH]);
      assert next in {Normal, Csi, OscEsc};
      assert Screen(next, [BACKSLASH]).0 == Normal;
    }
  }

  lemma {:induction false} ScreenConcat(a: Ansi, s: Text, t: Text)
    ensures var mid := Screen(a, s); var end := Screen(mid.0, t);
            Screen(a, s + t) == (end.0, mid.1 + end.1)
    decreases |s|
  {
    hide FeedByte;
    if s == [] {
      Unit(t);
      Unit(Screen(a, t).1);
    } else {
      assert (s + t)[1..] == s[1..] + t;
      if a.Normal? && s[0] != ESC {
        ScreenConcat(Normal, s[1..], t);
        var mid := Screen(Normal, s[1..]);
        Assoc([s[0]], mid.1, Screen(mid.0, t).1);
      } else {
        ScreenConcat(NextAnsi(a, s[0]), s[1..], t);
      }
    }
  }

  lemma {:induction false} ScreenPlain(v: Text)
    requires NoEscape(v)
    ensures Screen(Normal, v) == (Normal, v)
    decreases |v|
  {
    if v != [] {
      ScreenPlain(v[1..]);
      assert v == [v[0]] + v[1..];
    }
  }

  /** A stretch that ends in `Normal` is fed as if it were only what `Strip` leaves of it. */
  lemma FeedStripped(st: State, s: Text)
    requires st.ansi == Normal && Screen(Normal, s).0 == Normal
    ensures Feed(st, s) == Feed(st, Strip(s))
  {
    hide Feed, FeedByte, EditAll, GroupAll, Decoded, Strip;
    FeedIsStaged(st, s);
    FeedIsStaged(st, Strip(s));
    ScreenStrips(s);
    StripHasNoEscape(s);
    ScreenPlain(Strip(s));
  }

  /** What is left of such a string's body: the body and its terminator, stripped. Without an
      ESC in the body it is the body. */
  function Shown(body: Text): Text { Strip(body + TERMINATOR) }

  lemma {:induction false} ShownPlain(body: Text)
    requires NoEscape(body)
    ensures Shown(body) == body
    decreases |body|
  {
    if body == [] {
      Unit(TERMINATOR);
      assert EscapeLength(TERMINATOR) == 2 && TERMINATOR[2..] == [];
      assert Strip(TERMINATOR) == Strip(TERMINATOR[2..]) == [];
    } else {
      assert (body + TERMINATOR)[1..] == body[1..] + TERMINATOR;
      ShownPlain(body[1..]);
    }
  }

  /** Such a string with its terminator ST is fed as if it were just what is left of its body. */
  lemma ControlStringIsItsBody(p: Text, x: Byte, body: Text, q: Text)
    requires Feed(START, p).0.ansi == Normal && x in STRING_OPENERS
    ensures Derive(p + ([ESC, x] + body + TERMINATOR) + q) == Derive(p + Shown(body) + q)
  {
    hide Feed, FeedByte, Flush, Strip, Screen;
    var st, rest := Feed(START, p).0, body + TERMINATOR;
    OtherEscapesEndAfterOneByte(st, x, rest);
    NormalAfterTerminator(Normal, body);
    FeedStripped(st, rest);
    Assoc([ESC, x], body, TERMINATOR);
    SwapMiddle(p, [ESC, x] + rest, Shown(body), q);
  }

  /** What is fed alike may be exchanged. */
  lemma SwapMiddle(p: Text, a: Text, b: Text, q: Text)
    requires Feed(Feed(START, p).0, a) == Feed(Feed(START, p).0, b)
    ensures Feed(START, p + a + q) == Feed(START, p + b + q)
    ensures Derive(p + a + q) == Derive(p + b + q)
  {
    hide *;
    FeedConcat(START, p, a);
    FeedConcat(START, p + a, q);
    FeedConcat(START, p, b);
    FeedConcat(START, p + b, q);
    FedAlike(p + a + q, p + b + q);
  }

  lemma FedAlike(s: Text, t: Text)
    requires Feed(START, s) == Feed(START, t)
    ensures Derive(s) == Derive(t)
  {
    hide Feed, Flush;
  }

  lemma {:induction false} NormalWithoutEscape(st: State, body: Text)
    requires st.ansi == Normal && NoEscape(body)
    ensures Feed(st, body).0.ansi == Normal
    decreases |body|
  {
    if body != [] {
      NormalWithoutEscape(FeedByte(st, body[0]).0, body[1..]);
    }
  }

  lemma LinesShow(s: Text)
    ensures Derive(s) == [] <==> Lines(Strip(s)) == []
  {
    FloorRefines(s);
    LinesClean(Strip(s));
    ToksGood(Lines(Strip(s)));
    SegmentIsCanonical(Toks(Lines(Strip(s))));
    assert |Toks(Lines(Strip(s)))| == |Lines(Strip(s))|;
  }

  lemma NoLines(s: Text)
    ensures Lines(s) == [] <==> Unbroken(LF, s) && LineValue(s) == []
  {
    hide Split, Lossy, LineValue;
    var p := Split(LF, s);
    if Unbroken(LF, s) {
      SplitUnbroken(LF, s);
    } else {
      var i :| 0 <= i < |s| && s[i] == LF;
      assert s == s[..i] + [LF] + s[i + 1..];
      SplitAround(LF, s[..i], s[i + 1..]);
      assert p.ended != [] && Values(p.ended) != [];
    }
  }

  /** When nothing at all is derived. */
  lemma NothingShows(s: Text)
    requires NoEscape(s)
    ensures Derive(s) == [] <==> Unbroken(LF, s) && LineValue(s) == []
  {
    hide *;
    LinesShow(s);
    StripPlain(s);
    NoLines(s);
  }

  /** What the line editor makes of bytes with no mark among them: it keeps its line. */
  lemma {:induction false} UnmarkedKeepsLine(start: Text, body: Text)
    requires NoEscape(body) && Unbroken(LF, body) && !Marked(body)
    ensures EditorOn(start + body) == Editor(EditorOn(start).line, EditorOn(start).pendingCr || CR in body)
  {
    if body == [] {
      Unit(start);
    } else {
      var init, b := body[..|body| - 1], body[|body| - 1];
      assert body == init + [b];
      MarkedSnoc(init, b);
      UnmarkedKeepsLine(start, init);
      Assoc(start, init, [b]);
      hide EditorOn;
      EditorStep(start + init, b);
    }
  }

  /** After a line and a carriage return, marked bytes start the line afresh. */
  lemma {:induction false} MarkedStartsAfresh(start: Text, body: Text)
    requires NoEscape(body) && Unbroken(LF, body)
    requires EditorOn(start).pendingCr
    ensures if Marked(body) then EditorOn(start + body) == EditorOn(body)
            else EditorOn(start + body) == EditorOn(start) && EditorOn(body).line == []
  {
    if body == [] {
      Unit(start);
      EditorAtStart();
    } else {
      var init, b := body[..|body| - 1], body[|body| - 1];
      assert body == init + [b];
      MarkedSnoc(init, b);
      MarkedStartsAfresh(start, init);
      Assoc(start, init, [b]);
      hide EditorOn;
      EditorStep(start + init, b);
      EditorStep(init, b);
    }
  }

  const LETTER: Byte := 0x61

  lemma LettersOn(n: nat)
    requires n == 1 || n == 2
    ensures var s := seq(n, _ => LETTER); EditorOn(s) == Editor(s, false) && NoEscape(s) && Unbroken(LF, s)
  {
    var s: Text := seq(n, _ => LETTER);
    LineValuePlain(s);
    SplitUnbroken(CR, s);
  }

  /** A context in which bytes that are not all dropped leave a trace. */
  lemma SomeContextShows(body: Text) returns (p: Text, q: Text)
    requires NoEscape(body) && !AllDropped(body)
    ensures Feed(START, p).0.ansi == Normal && Derive(p + body + q) != Derive(p + q)
  {
    if !Unbroken(LF, body) || LineValue(body) != [] {
      p, q := ShownAlone(body);
    } else if Marked(body) {
      p, q := ShownAfterReturn(body);
    } else {
      p, q := ShownByReturn(body);
    }
  }

  lemma ShownAlone(body: Text) returns (p: Text, q: Text)
    requires NoEscape(body) && (!Unbroken(LF, body) || LineValue(body) != [])
    ensures Feed(START, p).0.ansi == Normal && Derive(p + body + q) != Derive(p + q)
  {
    p, q := [], [];
    NothingShows(body);
    EmptyDocument();
    assert p + body + q == body && p + q == [];
  }

  /** The body rewrites a line that a carriage return left standing. */
  lemma ShownAfterReturn(body: Text) returns (p: Text, q: Text)
    requires NoEscape(body) && Unbroken(LF, body) && LineValue(body) == [] && Marked(body)
    ensures Feed(START, p).0.ansi == Normal && Derive(p + body + q) != Derive(p + q)
  {
    var letter: Text := seq(1, _ => LETTER);
    p, q := letter + [CR], [];
    LettersOn(1);
    EditorStep(letter, CR);
    assert EditorOn(p) == Editor(letter, true);
    MarkedStartsAfresh(p, body);
    NormalWithoutEscape(START, p);
    assert LineValue(p) == letter && LineValue(p + body) == [];
    assert NoEscape(p) && Unbroken(LF, p);
    hide *;
    PlainConcat(p, body);
    NothingShows(p + body);
    NothingShows(p);
    Unit(p);
    Unit(p + body);
  }

  lemma BackspaceOn(raw: Text)
    requires |EditorOn(raw).line| == 2
    ensures LineValue(raw + [BS]) == [] <==> EditorOn(raw).pendingCr
  {
    EditorStep(raw, BS);
  }

  lemma UnmarkedReturn(body: Text)
    requires NoEscape(body) && Unbroken(LF, body) && !Marked(body) && !AllDropped(body)
    ensures CR in body
  {
    var i :| 0 <= i < |body| && !Dropped(body[i]);
    assert !Marks(body[i]);
    assert body[i] == CR;
  }

  lemma PlainConcat(a: Text, b: Text)
    requires NoEscape(a) && Unbroken(LF, a) && NoEscape(b) && Unbroken(LF, b)
    ensures NoEscape(a + b) && Unbroken(LF, a + b)
  {
  }

  /** The body is a carriage return, which makes a backspace clear the whole line. */
  lemma ShownByReturn(body: Text) returns (p: Text, q: Text)
    requires NoEscape(body) && Unbroken(LF, body) && !Marked(body) && !AllDropped(body)
    ensures Feed(START, p).0.ansi == Normal && Derive(p + body + q) != Derive(p + q)
  {
    p, q := seq(2, _ => LETTER), [BS];
    UnmarkedReturn(body);
    LettersOn(2);
    UnmarkedKeepsLine(p, body);
    NormalWithoutEscape(START, p);
    assert NoEscape(q) && Unbroken(LF, q);
    hide *;
    PlainConcat(p, body);
    PlainConcat(p + body, q);
    PlainConcat(p, q);
    BackspaceOn(p + body);
    BackspaceOn(p);
    NothingShows(p + body + q);
    NothingShows(p + q);
  }

  lemma DroppedLeaveNoTrace(st: State, body: Text)
    requires st.ansi == Normal && AllDropped(body)
    ensures Feed(st, body) == (st, [])
  {
    FeedStays(st, body);
  }

  ghost predicate Invisible(e: Text) {
    forall p, q :: Feed(START, p).0.ansi == Normal ==> Derive(p + e + q) == Derive(p + q)
  }

  /** A device control string, or any other control string that is not an operating system
      command, is invisible in every context exactly when what is left of its body holds
      nothing but control bytes the editor drops. Anything else is fed as text or edits the
      line under way. */
  lemma ControlStringsShow(x: Byte, body: Text)
    requires x in STRING_OPENERS
    ensures Invisible([ESC, x] + body + TERMINATOR) <==> AllDropped(Shown(body))
  {
    var e, left := [ESC, x] + body + TERMINATOR, Shown(body);
    StripHasNoEscape(body + TERMINATOR);
    assert NoEscape(left);
    hide Feed, FeedByte, Derive, Strip, Shown;
    if AllDropped(left) {
      forall p, q | Feed(START, p).0.ansi == Normal ensures Derive(p + e + q) == Derive(p + q) {
        ControlStringIsItsBody(p, x, body, q);
        DroppedLeaveNoTrace(Feed(START, p).0, left);
        InsertDropped(p, left, q);
      }
    } else {
      var p, q := SomeContextShows(left);
      ControlStringIsItsBody(p, x, body, q);
      assert Derive(p + e + q) != Derive(p + q);
    }
  }

  lemma InsertDropped(p: Text, e: Text, q: Text)
    requires var st := Feed(START, p).0; Feed(st, e) == (st, [])
    ensures Derive(p + e + q) == Derive(p + q)
  {
    InsertHidden(p, e, q);
  }

  /** Without an ESC in the body, the body itself decides: of the bytes ECMA-48 allows in a
      command string, only VT and FF are dropped. */
  lemma PlainControlStringsShow(x: Byte, body: Text)
    requires x in STRING_OPENERS && NoEscape(body)
    ensures Invisible([ESC, x] + body + TERMINATOR) <==> AllDropped(body)
  {
    ControlStringsShow(x, body);
    ShownPlain(body);
  }

  /** A body of printable characters shows unless it is empty. */
  lemma PrintableControlStringsShow(x: Byte, body: Text)
    requires x in STRING_OPENERS && Within(body, 0x20, 0x7e)
    ensures Invisible([ESC, x] + body + TERMINATOR) <==> body == []
  {
    PlainControlStringsShow(x, body);
    assert body != [] ==> !Dropped(body[0]);
  }
}
