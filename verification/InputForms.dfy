/** The chords of the Raw regime in literal bytes (`input.rs:43-111`): Ctrl-] is 0x1d, Tab
    0x09, `d` 0x64 and Ctrl-D 0x04. */
module InputForms {
  import opened Bytes
  import opened Input

  /** Neither Ctrl-] nor Ctrl-D. */
  predicate Typing(bytes: Text) { forall i :: 0 <= i < |bytes| ==> bytes[i] != 0x1d && bytes[i] != 0x04 }

  lemma {:induction false} TypingLexes(a: Text, rest: Text)
    requires Typing(a)
    ensures Lex(a + rest) == (Plains(a) + Lex(rest).0, Lex(rest).1)
    decreases |a|
  {
    if a == [] {
      Unit(rest);
      assert Plains(a) == [];
      Unit(Lex(rest).0);
    } else {
      var s := a + rest;
      assert s[1..] == a[1..] + rest && s[0] == a[0] && Single(s[0]) == Plain(a[0]);
      assert !IsChord(s) && s != [CTRL_RIGHT_BRACKET];
      TypingLexes(a[1..], rest);
      assert Plains(a) == [Plain(a[0])] + Plains(a[1..]);
      Assoc([Plain(a[0])], Plains(a[1..]), Lex(rest).0);
    }
  }

  /** What the special bytes mean after any plain typing: Ctrl-] Tab leaves Raw, Ctrl-] twice
      or Ctrl-] d detaches, Ctrl-D ends the input, and Ctrl-] before any other byte is typed
      as it stands. */
  lemma ChordTokens(a: Text, b: Byte, rest: Text)
    requires Typing(a)
    ensures Lex(a) == (Plains(a), false) && Lex(a + [0x1d]) == (Plains(a), true)
    ensures Lex(a + ([0x04] + rest)).0 == Plains(a) + ([Eof] + Lex(rest).0)
    ensures Lex(a + ([0x1d, b] + rest)).0 == Plains(a) +
            if b == 0x09 then [Exit] + Lex(rest).0
            else if b == 0x1d || b == 0x64 then [Leave] + Lex(rest).0
            else [Plain(0x1d)] + Lex([b] + rest).0
  {
    TypingLexes(a, []);
    TypingLexes(a, [0x1d]);
    TypingLexes(a, [0x04] + rest);
    TypingLexes(a, [0x1d, b] + rest);
    Unit(a);
    Unit(Plains(a));
    assert ([0x04] + rest)[1..] == rest;
    assert ([0x1d, b] + rest)[1..] == [b] + rest && ([0x1d, b] + rest)[2..] == rest;
  }

  lemma Merged(a: Text, t: Token)
    requires !t.Plain?
    ensures Merge(Plains(a)) == Flushed(a)
    ensures Merge(Plains(a) + [t]) == Flushed(a) + [ActionOf(t)]
  {
    GroupedPlains([], a);
    Unit(Plains(a));
    Unit(a);
    Unit(Flushed(a));
    GroupedSnoc(Plains(a), t);
    Unit(Flushed(a) + [ActionOf(t)]);
  }

  /** The tokens of plain typing and one special sequence. */
  lemma OneChord(a: Text, b: Byte)
    requires Typing(a)
    ensures Lex(a) == (Plains(a), false) && Lex(a + [0x1d]) == (Plains(a), true)
    ensures Lex(a + [0x04]) == (Plains(a) + [Eof], false)
    ensures b == 0x09 ==> Lex(a + [0x1d, b]) == (Plains(a) + [Exit], false)
    ensures b == 0x1d || b == 0x64 ==> Lex(a + [0x1d, b]) == (Plains(a) + [Leave], false)
  {
    ChordTokens(a, b, []);
    TypingLexes(a, [0x04]);
    TypingLexes(a, [0x1d, b]);
    Unit([0x04 as Byte]);
    Unit([0x1d, b]);
    Unit([Eof]);
    Unit([Exit]);
    Unit([Leave]);
    assert [0x04][1..] == [] && [0x1d, b][2..] == [];
  }

  /** What one read of plain bytes and a special sequence does; nothing typed, nothing
      forwarded. */
  lemma ChordActions(a: Text, b: Byte)
    requires Typing(a)
    ensures var typed := if a == [] then [] else [Forward(a)];
            && Parse(false, a) == (typed, false)
            && Parse(false, a + [0x1d]) == (typed, true)
            && Parse(false, a + [0x04]) == (typed + [ForwardThenStop([0x04])], false)
            && (b == 0x09 ==> Parse(false, a + [0x1d, b]) == (typed + [ExitToStructured], false))
            && (b == 0x1d || b == 0x64 ==> Parse(false, a + [0x1d, b]) == (typed + [Detach], false))
  {
    OneChord(a, b);
    Merged(a, Eof);
    Merged(a, Exit);
    Merged(a, Leave);
    Unit(a);
    Unit(a + [0x1d]);
    Unit(a + [0x04]);
    Unit(a + [0x1d, b]);
    hide Lex, Merge, Plains;
  }

  /** The byte after a Ctrl-] that ended the read before. */
  lemma HeldActions(b: Byte)
    ensures Parse(true, [b]) ==
            if b == 0x09 then ([ExitToStructured], false)
            else if b == 0x1d || b == 0x64 then ([Detach], false)
            else if b == 0x04 then ([Forward([0x1d]), ForwardThenStop([0x04])], false)
            else ([Forward([0x1d, b])], false)
  {
    LexShort([0x1d], b);
    assert Held(true) + [b] == [0x1d] + [b];
    var literal := [0x1d, b];
    Merged([], Exit);
    Merged([], Leave);
    Merged([0x1d], Eof);
    Merged(literal, Eof);
    assert Plains([]) == [] && Plains([0x1d]) == [Plain(0x1d)] && Plains(literal) == [Plain(0x1d), Plain(b)];
    Unit([Exit]);
    Unit([Leave]);
    Unit([ExitToStructured]);
    Unit([Detach]);
    var tokens := Added(true, b).0;
    assert Parse(true, [b]) == (Merge(tokens), false);
    if b == 0x09 {
      assert tokens == [Exit];
    } else if b == 0x1d || b == 0x64 {
      assert tokens == [Leave];
    } else if b == 0x04 {
      assert tokens == Plains([0x1d]) + [Eof];
      assert Flushed([0x1d]) + [ActionOf(Eof)] == [Forward([0x1d]), ForwardThenStop([0x04])];
    } else {
      assert tokens == Plains(literal);
    }
    hide Lex, Merge, Plains;
  }
}
