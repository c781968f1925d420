/** The Raw-mode chord parser and menu keystroke synthesis (`input.rs`). */
module Input {
  import opened Bytes
  import opened Blocks

  const CTRL_RIGHT_BRACKET: Byte := 0x1d
  const CTRL_D: Byte := 0x04
  const LETTER_D: Byte := 0x64

  datatype RawAction =
    | Forward(bytes: Text)
    | ForwardThenStop(bytes: Text)
    | ExitToStructured
    | Detach

  // ---------- the reference grammar ----------

  /** What the input says, read with one byte of look-ahead. */
  datatype Token = Plain(b: Byte) | Eof | Exit | Leave

  /** The tokens of an input, and whether it ends in a Ctrl-] whose meaning is still open. */
  function Lex(s: Text): (seq<Token>, bool)
    decreases |s|
  {
    if s == [] then ([], false)
    else if s == [CTRL_RIGHT_BRACKET] then ([], true)
    else
      var n := if IsChord(s) then 2 else 1;
      var t := if !IsChord(s) then Single(s[0]) else if s[1] == TAB then Exit else Leave;
      var (rest, held) := Lex(s[n..]);
      ([t] + rest, held)
  }

  predicate IsChord(s: Text) {
    |s| >= 2 && s[0] == CTRL_RIGHT_BRACKET && s[1] in {TAB, CTRL_RIGHT_BRACKET, LETTER_D}
  }

  function Single(b: Byte): Token { if b == CTRL_D then Eof else Plain(b) }

  /** The Ctrl-] carried over from the previous read. */
  function Held(armed: bool): Text { if armed then [CTRL_RIGHT_BRACKET] else [] }

  /** What one more byte adds. */
  function Added(armed: bool, b: Byte): (seq<Token>, bool) {
    if !armed then
      if b == CTRL_RIGHT_BRACKET then ([], true) else ([Single(b)], false)
    else if b == TAB then ([Exit], false)
    else if b == CTRL_RIGHT_BRACKET || b == LETTER_D then ([Leave], false)
    else ([Plain(CTRL_RIGHT_BRACKET), Single(b)], false)
  }

  lemma LexShort(s: Text, b: Byte)
    requires s == [] || s == [CTRL_RIGHT_BRACKET]
    ensures Lex(s + [b]) == Added(s != [], b)
  {
    var long := s + [b];
    assert Lex([]) == ([], false);
    if s == [] {
      LexOne(b);
      assert long == [b];
    } else if IsChord(long) {
      assert long[2..] == [];
      var t := if b == TAB then Exit else Leave;
      assert [t] + [] == [t];
      assert Lex(long) == ([t], false);
    } else {
      assert long[1..] == [b];
      LexOne(b);
      assert [Plain(CTRL_RIGHT_BRACKET)] + [Single(b)] == [Plain(CTRL_RIGHT_BRACKET), Single(b)];
      assert Lex(long) == ([Plain(CTRL_RIGHT_BRACKET)] + Lex([b]).0, Lex([b]).1);
    }
  }

  lemma LexHeld(armed: bool)
    ensures Lex(Held(armed)) == ([], armed) && Grouped([]) == ([], [])
  {
  }

  lemma LexOne(b: Byte)
    ensures Lex([b]) == Added(false, b)
  {
    assert [b][1..] == [];
    assert Lex([]) == ([], false);
    assert [Single(b)] + [] == [Single(b)];
  }

  lemma {:induction false} LexSnoc(s: Text, b: Byte)
    ensures var (tokens, armed) := Lex(s); var (more, armed') := Added(armed, b);
            Lex(s + [b]) == (tokens + more, armed')
    decreases |s|
  {
    var long := s + [b];
    if s == [] || s == [CTRL_RIGHT_BRACKET] {
      LexShort(s, b);
      assert [] + Lex(long).0 == Lex(long).0;
    } else {
      var n := if IsChord(s) then 2 else 1;
      assert IsChord(long) == IsChord(s) && long[n..] == s[n..] + [b];
      LexSnoc(s[n..], b);
      var (rest, armed) := Lex(s[n..]);
      var more := Added(armed, b).0;
      var t := if !IsChord(s) then Single(s[0]) else if s[1] == TAB then Exit else Leave;
      assert Lex(long).0 == [t] + (rest + more) == ([t] + rest) + more;
    }
  }

  /** What two reads give, one after the other. */
  function LexTwice(s: Text, t: Text): (seq<Token>, bool) {
    var (tokens, armed) := Lex(s); var (more, armed') := Lex(Held(armed) + t);
    (tokens + more, armed')
  }

  lemma Shifted(tokens: seq<Token>, whole: (seq<Token>, bool), part: (seq<Token>, bool), b: Byte)
    requires whole == (tokens + part.0, part.1)
    ensures (whole.0 + Added(whole.1, b).0, Added(whole.1, b).1) ==
            (tokens + (part.0 + Added(part.1, b).0), Added(part.1, b).1)
  {
    assert (tokens + part.0) + Added(part.1, b).0 == tokens + (part.0 + Added(part.1, b).0);
  }

  lemma LexTwiceSnoc(s: Text, t: Text, b: Byte)
    requires LexTwice(s, t) == Lex(s + t)
    ensures LexTwice(s, t + [b]) == Lex(s + (t + [b]))
  {
    var h := Held(Lex(s).1);
    assert s + (t + [b]) == (s + t) + [b];
    assert h + (t + [b]) == (h + t) + [b];
    LexSnoc(s + t, b);
    LexSnoc(h + t, b);
    Shifted(Lex(s).0, Lex(s + t), Lex(h + t), b);
  }

  /** Reading can stop anywhere; only the held Ctrl-] is carried over. */
  lemma {:induction false} LexConcat(s: Text, t: Text)
    ensures Lex(s + t) == LexTwice(s, t)
    decreases |t|
  {
    var (tokens, armed) := Lex(s);
    if t == [] {
      assert s + t == s && Held(armed) + t == Held(armed);
      assert Lex(Held(armed)) == ([], armed);
      assert tokens + [] == tokens;
    } else {
      var init, b := t[..|t| - 1], t[|t| - 1];
      assert t == init + [b];
      LexConcat(s, init);
      LexTwiceSnoc(s, init, b);
    }
  }

  // ---------- tokens and actions ----------

  function Plains(bytes: Text): seq<Token> { seq(|bytes|, i requires 0 <= i < |bytes| => Plain(bytes[i])) }

  function Flatten1(a: RawAction): seq<Token> {
    match a
    case Forward(bytes) => Plains(bytes)
    case ForwardThenStop(_) => [Eof]
    case ExitToStructured => [Exit]
    case Detach => [Leave]
  }

  /** The tokens a list of actions stands for. */
  function Flatten(actions: seq<RawAction>): seq<Token> {
    if actions == [] then [] else Flatten(actions[..|actions| - 1]) + Flatten1(actions[|actions| - 1])
  }

  function Flushed(pending: Text): seq<RawAction> { if pending == [] then [] else [Forward(pending)] }

  function ActionOf(t: Token): RawAction
    requires !t.Plain?
  {
    match t case Eof => ForwardThenStop([CTRL_D]) case Exit => ExitToStructured case Leave => Detach
  }

  /** Grouping token by token: finished actions and the plain bytes not yet forwarded. */
  function Grouped(tokens: seq<Token>): (seq<RawAction>, Text) {
    if tokens == [] then ([], []) else
    var (actions, pending) := Grouped(tokens[..|tokens| - 1]);
    var t := tokens[|tokens| - 1];
    if t.Plain? then (actions, pending + [t.b])
    else (actions + Flushed(pending) + [ActionOf(t)], [])
  }

  function Merge(tokens: seq<Token>): seq<RawAction> {
    Grouped(tokens).0 + Flushed(Grouped(tokens).1)
  }

  lemma GroupedSnoc(tokens: seq<Token>, t: Token)
    ensures var (actions, pending) := Grouped(tokens);
            Grouped(tokens + [t]) ==
            if t.Plain? then (actions, pending + [t.b]) else (actions + Flushed(pending) + [ActionOf(t)], [])
  {
    assert (tokens + [t])[..|tokens|] == tokens;
  }

  /** Forwards are non-empty, hold no Ctrl-D and are never adjacent; a stop forwards just
      Ctrl-D. */
  ghost predicate Canonical(actions: seq<RawAction>) {
    && (forall i :: 0 <= i < |actions| && actions[i].Forward? ==> actions[i].bytes != [] && CTRL_D !in actions[i].bytes)
    && (forall i :: 0 <= i < |actions| && actions[i].ForwardThenStop? ==> actions[i].bytes == [CTRL_D])
    && (forall i :: 0 <= i < |actions| - 1 ==> !(actions[i].Forward? && actions[i + 1].Forward?))
  }

  ghost predicate NoPlainCtrlD(tokens: seq<Token>) {
    forall i :: 0 <= i < |tokens| ==> tokens[i] != Plain(CTRL_D)
  }

  lemma FlattenSnoc(actions: seq<RawAction>, a: RawAction)
    ensures Flatten(actions + [a]) == Flatten(actions) + Flatten1(a)
  {
    assert (actions + [a])[..|actions|] == actions;
  }

  lemma FlattenFlushed(actions: seq<RawAction>, pending: Text)
    ensures Flatten(actions + Flushed(pending)) == Flatten(actions) + Plains(pending)
  {
    if pending == [] {
      assert actions + [] == actions;
      assert Flatten(actions) + Plains([]) == Flatten(actions);
    } else {
      FlattenSnoc(actions, Forward(pending));
    }
  }

  lemma FlattenPending(actions: seq<RawAction>, pending: Text, b: Byte)
    ensures Flatten(actions) + Plains(pending + [b]) == (Flatten(actions) + Plains(pending)) + [Plain(b)]
  {
    assert Plains(pending + [b]) == Plains(pending) + [Plain(b)];
    Assoc(Flatten(actions), Plains(pending), [Plain(b)]);
  }

  lemma FlattenStop(actions: seq<RawAction>, pending: Text, t: Token)
    requires !t.Plain?
    ensures Flatten(actions + Flushed(pending) + [ActionOf(t)]) == (Flatten(actions) + Plains(pending)) + [t]
  {
    FlattenFlushed(actions, pending);
    FlattenSnoc(actions + Flushed(pending), ActionOf(t));
  }

  lemma {:induction false} GroupedFlattens(tokens: seq<Token>)
    ensures Flatten(Grouped(tokens).0) + Plains(Grouped(tokens).1) == tokens
  {
    if tokens != [] {
      var init, t := tokens[..|tokens| - 1], tokens[|tokens| - 1];
      assert tokens == init + [t];
      GroupedFlattens(init);
      GroupedSnoc(init, t);
      var (actions, pending) := Grouped(init);
      if t.Plain? {
        FlattenPending(actions, pending, t.b);
      } else {
        FlattenStop(actions, pending, t);
        Unit(tokens);
      }
    }
  }

  /** Merging loses and reorders nothing. */
  lemma MergeFlattens(tokens: seq<Token>)
    ensures Flatten(Merge(tokens)) == tokens
  {
    GroupedFlattens(tokens);
    FlattenFlushed(Grouped(tokens).0, Grouped(tokens).1);
  }

  lemma {:induction false} GroupedCanonical(tokens: seq<Token>)
    requires NoPlainCtrlD(tokens)
    ensures var (actions, pending) := Grouped(tokens);
            && Canonical(actions)
            && (actions != [] ==> !actions[|actions| - 1].Forward?)
            && CTRL_D !in pending
  {
    if tokens != [] {
      var init, t := tokens[..|tokens| - 1], tokens[|tokens| - 1];
      GroupedCanonical(init);
      assert t != Plain(CTRL_D);
    }
  }

  lemma {:induction false} LexHasNoPlainCtrlD(s: Text)
    ensures NoPlainCtrlD(Lex(s).0)
    decreases |s|
  {
    if s != [] && s != [CTRL_RIGHT_BRACKET] {
      LexHasNoPlainCtrlD(s[if IsChord(s) then 2 else 1..]);
    }
  }

  lemma CanonicalInit(actions: seq<RawAction>)
    requires Canonical(actions) && actions != []
    ensures Canonical(actions[..|actions| - 1])
    ensures |actions| >= 2 && actions[|actions| - 1].Forward? ==> !actions[|actions| - 2].Forward?
  {
    assert |actions| >= 2 ==> !(actions[|actions| - 2].Forward? && actions[|actions| - 2 + 1].Forward?);
  }

  lemma GroupedAction(tokens: seq<Token>, a: RawAction)
    requires !a.Forward? && (a.ForwardThenStop? ==> a.bytes == [CTRL_D])
    ensures Grouped(tokens + Flatten1(a)) == (Merge(tokens) + [a], [])
  {
    GroupedSnoc(tokens, Flatten1(a)[0]);
    assert Flatten1(a) == [Flatten1(a)[0]];
  }

  /** The finished actions and pending bytes a canonical list regroups to. */
  function Pended(actions: seq<RawAction>): (seq<RawAction>, Text) {
    if actions != [] && actions[|actions| - 1].Forward?
    then (actions[..|actions| - 1], actions[|actions| - 1].bytes) else (actions, [])
  }

  lemma {:induction false} CanonicalRegroups(actions: seq<RawAction>)
    requires Canonical(actions)
    ensures Grouped(Flatten(actions)) == Pended(actions)
    ensures Merge(Flatten(actions)) == actions
    decreases |actions|
  {
    if actions != [] {
      var init, a := actions[..|actions| - 1], actions[|actions| - 1];
      assert actions == init + [a];
      CanonicalInit(actions);
      CanonicalRegroups(init);
      if a.Forward? {
        GroupedPlains(Flatten(init), a.bytes);
        assert Pended(init) == (init, []);
        assert [] + a.bytes == a.bytes;
      } else {
        GroupedAction(Flatten(init), a);
      }
      assert actions + [] == actions;
    }
  }

  /** The actions of an input are the one canonical list with its tokens. */
  lemma CanonicalIsMerged(actions: seq<RawAction>, tokens: seq<Token>)
    requires Canonical(actions) && NoPlainCtrlD(tokens)
    ensures Flatten(actions) == tokens <==> actions == Merge(tokens)
  {
    CanonicalRegroups(actions);
    MergeFlattens(tokens);
  }

  lemma {:induction false} GroupedPlains(tokens: seq<Token>, bytes: Text)
    ensures Grouped(tokens + Plains(bytes)) == (Grouped(tokens).0, Grouped(tokens).1 + bytes)
    decreases |bytes|
  {
    if bytes == [] {
      assert tokens + Plains(bytes) == tokens;
      assert Grouped(tokens).1 + [] == Grouped(tokens).1;
    } else {
      var init, b := bytes[..|bytes| - 1], bytes[|bytes| - 1];
      assert tokens + Plains(bytes) == (tokens + Plains(init)) + [Plain(b)];
      GroupedPlains(tokens, init);
      GroupedSnoc(tokens + Plains(init), Plain(b));
      assert Grouped(tokens).1 + init + [b] == Grouped(tokens).1 + bytes;
    }
  }

  // ---------- what a feed returns ----------

  /** The actions and the armed flag after one read. */
  function Parse(armed: bool, bytes: Text): (seq<RawAction>, bool) {
    (Merge(Lex(Held(armed) + bytes).0), Lex(Held(armed) + bytes).1)
  }

  lemma ParseCanonical(armed: bool, bytes: Text)
    ensures Canonical(Parse(armed, bytes).0)
  {
    LexHasNoPlainCtrlD(Held(armed) + bytes);
    GroupedCanonical(Lex(Held(armed) + bytes).0);
  }

  lemma {:induction false} FlattenConcat(a: seq<RawAction>, b: seq<RawAction>)
    ensures Flatten(a + b) == Flatten(a) + Flatten(b)
    decreases |b|
  {
    if b == [] {
      assert a + b == a;
      assert Flatten(a) + [] == Flatten(a);
    } else {
      var init, last := b[..|b| - 1], b[|b| - 1];
      assert a + b == (a + init) + [last] && b == init + [last];
      FlattenConcat(a, init);
      FlattenSnoc(a + init, last);
      FlattenSnoc(init, last);
      Assoc(Flatten(a), Flatten(init), Flatten1(last));
    }
  }

  /** Two reads, with adjacent forwards merged, are one read of both, and end alike. */
  lemma ParseConcat(armed: bool, a: Text, b: Text)
    ensures var (acts1, armed1) := Parse(armed, a);
            var (acts2, armed2) := Parse(armed1, b);
            Parse(armed, a + b) == (Merge(Flatten(acts1 + acts2)), armed2)
  {
    hide Lex, Merge, Flatten;
    var (acts1, armed1) := Parse(armed, a);
    assert Held(armed) + (a + b) == (Held(armed) + a) + b;
    LexConcat(Held(armed) + a, b);
    MergeFlattens(Lex(Held(armed) + a).0);
    MergeFlattens(Lex(Held(armed1) + b).0);
    FlattenConcat(acts1, Parse(armed1, b).0);
  }

  /** `bytes` is consumed by `actions`, one after the other. A detach is Ctrl-] Ctrl-] or
      Ctrl-] d. */
  ghost predicate Spells(tokens: seq<Token>, bytes: Text)
    decreases |tokens|
  {
    if tokens == [] then bytes == [] else
    match tokens[0]
    case Plain(b) => bytes != [] && bytes[0] == b && Spells(tokens[1..], bytes[1..])
    case Eof => bytes != [] && bytes[0] == CTRL_D && Spells(tokens[1..], bytes[1..])
    case Exit => |bytes| >= 2 && bytes[..2] == [CTRL_RIGHT_BRACKET, TAB] && Spells(tokens[1..], bytes[2..])
    case Leave =>
      && |bytes| >= 2 && bytes[0] == CTRL_RIGHT_BRACKET && bytes[1] in {CTRL_RIGHT_BRACKET, LETTER_D}
      && Spells(tokens[1..], bytes[2..])
  }

  /** The part of an input its tokens account for. */
  function Consumed(s: Text): Text {
    if Lex(s).1 && s != [] then s[..|s| - 1] else s
  }

  /** Lexing one token. */
  lemma LexFirst(s: Text)
    requires s != [] && s != [CTRL_RIGHT_BRACKET]
    ensures var n := if IsChord(s) then 2 else 1;
            var t := if !IsChord(s) then Single(s[0]) else if s[1] == TAB then Exit else Leave;
            && Lex(s) == ([t] + Lex(s[n..]).0, Lex(s[n..]).1)
            && (Lex(s).1 ==> s[n..] != [])
  {
    assert Lex([]) == ([], false);
  }

  lemma {:induction false} LexSpells(s: Text)
    ensures s == Consumed(s) + Held(Lex(s).1)
    ensures Spells(Lex(s).0, Consumed(s))
    decreases |s|
  {
    if s == [CTRL_RIGHT_BRACKET] {
      assert Consumed(s) == [];
    } else if s != [] {
      var n := if IsChord(s) then 2 else 1;
      LexFirst(s);
      LexSpells(s[n..]);
      SpellsFirst(s, Lex(s[n..]).0, Consumed(s[n..]));
    }
  }

  /** A token spells its own bytes in front of what the rest spells. */
  lemma SpellsFirst(s: Text, rest: seq<Token>, used: Text)
    requires s != [] && s != [CTRL_RIGHT_BRACKET]
    requires var n := if IsChord(s) then 2 else 1;
             Lex(s) == ([Lex(s).0[0]] + rest, Lex(s).1) && s[n..] == used + Held(Lex(s).1) && Spells(rest, used)
    ensures s == Consumed(s) + Held(Lex(s).1)
    ensures Spells(Lex(s).0, Consumed(s))
  {
    var n := if IsChord(s) then 2 else 1;
    var all := s[..n] + used;
    LexFirst(s);
    assert all + Held(Lex(s).1) == s;
    assert Consumed(s) == all && all[n..] == used;
    assert Lex(s).0[1..] == rest;
  }

  /** The input, with the Ctrl-] carried in, is exactly the bytes consumed by the returned
      actions in order, plus one held Ctrl-] exactly when the parser ends armed. */
  lemma InputIsConsumed(armed: bool, bytes: Text)
    ensures var (actions, armed') := Parse(armed, bytes); var input := Held(armed) + bytes;
            input == Consumed(input) + Held(armed') && Spells(Flatten(actions), Consumed(input))
  {
    LexSpells(Held(armed) + bytes);
    MergeFlattens(Lex(Held(armed) + bytes).0);
  }

  // ---------- the parser ----------

  class ChordParser {
    var armed: bool

    constructor ()
      ensures !armed
    {
      armed := false;
    }

    method ConsumePlain(b: Byte, pending: Text, actions: seq<RawAction>)
      returns (pending': Text, actions': seq<RawAction>)
      requires !armed
      modifies this
      ensures armed == (b == CTRL_RIGHT_BRACKET)
      ensures (actions', pending') ==
              if b == CTRL_RIGHT_BRACKET then (actions, pending)
              else if b == CTRL_D then (actions + Flushed(pending) + [ForwardThenStop([CTRL_D])], [])
              else (actions, pending + [b])
    {
      pending', actions' := pending, actions;
      if b == CTRL_RIGHT_BRACKET {
        armed := true;
      } else if b == CTRL_D {
        actions' := actions + Flushed(pending) + [ForwardThenStop([CTRL_D])];
        pending' := [];
      } else {
        pending' := pending + [b];
      }
    }

    method Feed(bytes: Text) returns (actions: seq<RawAction>)
      modifies this
      ensures (actions, armed) == Parse(old(armed), bytes)
    {
      actions := [];
      var pending: Text := [];
      ghost var start := Held(armed);
      assert start + bytes[..0] == start;
      LexHeld(armed);
      hide Lex, Grouped, Added;
      for i := 0 to |bytes|
        invariant Grouped(Lex(start + bytes[..i]).0) == (actions, pending)
        invariant armed == Lex(start + bytes[..i]).1
      {
        var b := bytes[i];
        assert start + bytes[..i + 1] == (start + bytes[..i]) + [b];
        LexSnoc(start + bytes[..i], b);
        GroupedAdded(Lex(start + bytes[..i]).0, armed, b);
        if armed {
          armed := false;
          if b == TAB {
            actions := actions + Flushed(pending) + [ExitToStructured];
            pending := [];
          } else if b == CTRL_RIGHT_BRACKET || b == LETTER_D {
            actions := actions + Flushed(pending) + [Detach];
            pending := [];
          } else {
            pending := pending + [CTRL_RIGHT_BRACKET];
            pending, actions := ConsumePlain(b, pending, actions);
          }
        } else {
          pending, actions := ConsumePlain(b, pending, actions);
        }
      }
      assert bytes[..|bytes|] == bytes;
      actions := actions + Flushed(pending);
    }
  }

  /** Grouping the tokens one byte adds. */
  lemma GroupedAdded(tokens: seq<Token>, armed: bool, b: Byte)
    ensures var (actions, pending) := Grouped(tokens);
            var literal := if armed then pending + [CTRL_RIGHT_BRACKET] else pending;
            Grouped(tokens + Added(armed, b).0) ==
            if !armed && b == CTRL_RIGHT_BRACKET then (actions, pending)
            else if armed && b == TAB then (actions + Flushed(pending) + [ExitToStructured], [])
            else if armed && (b == CTRL_RIGHT_BRACKET || b == LETTER_D) then (actions + Flushed(pending) + [Detach], [])
            else if b == CTRL_D then (actions + Flushed(literal) + [ForwardThenStop([CTRL_D])], [])
            else (actions, literal + [b])
    ensures Added(armed, b).1 == (!armed && b == CTRL_RIGHT_BRACKET)
  {
    var more := Added(armed, b).0;
    if more == [] {
      Unit(tokens);
    } else if |more| == 1 {
      GroupedSnoc(tokens, more[0]);
    } else {
      assert more == [more[0]] + [more[1]];
      Assoc(tokens, [more[0]], [more[1]]);
      GroupedSnoc(tokens, more[0]);
      GroupedSnoc(tokens + [more[0]], more[1]);
    }
  }

  // ---------- menu selection ----------

  const DOWN: Text := [0x1b, 0x5b, 0x42]
  const UP: Text := [0x1b, 0x5b, 0x41]

  function Repeat(keys: Text, n: nat): Text { if n == 0 then [] else Repeat(keys, n - 1) + keys }

  /** `c as u8` keeps the low eight bits of the code point. */
  function LowByte(c: char): Byte { (c as int % 256) as Byte }

  function ArrowKeys(cur: nat, target: nat): Text {
    (if target >= cur then Repeat(DOWN, target - cur) else Repeat(UP, cur - target)) + [CR]
  }

  function SelectKeys(current: Option<nat>, target: nat, option: MenuOption): Text {
    match option.hotkey
    case Some(c) => [LowByte(c)]
    case None => ArrowKeys(if current.Some? then current.value else 0, target)
  }

  method MenuSelectKeys(current: Option<nat>, target: nat, option: MenuOption) returns (keys: Text)
    ensures keys == SelectKeys(current, target, option)
  {
    if option.hotkey.Some? {
      return [LowByte(option.hotkey.value)];
    }
    var cur := if current.Some? then current.value else 0;
    var arrow, count := UP, 0;
    if target >= cur {
      arrow, count := DOWN, target - cur;
    } else {
      count := cur - target;
    }
    keys := [];
    for i := 0 to count
      invariant keys == Repeat(arrow, i)
    {
      keys := keys + arrow;
    }
    keys := keys + [CR];
  }

  /** A menu of `rows` rows reading keys: arrows move the highlight, which clamps or wraps at
      the ends, and Enter confirms. */
  datatype Reader = Reader(row: int, escape: nat, chosen: Option<int>)

  function Moved(rows: nat, wrap: bool, row: int): int {
    if 0 <= row < rows then row
    else if row < 0 then (if wrap then rows - 1 else 0)
    else (if wrap then 0 else rows - 1)
  }

  function ReadKey(rows: nat, wrap: bool, r: Reader, b: Byte): Reader {
    if r.chosen.Some? then r
    else if r.escape == 0 then
      if b == ESC then r.(escape := 1) else if b == CR then r.(chosen := Some(r.row)) else r
    else if r.escape == 1 then r.(escape := if b == 0x5b then 2 else 0)
    else r.(escape := 0, row := if b == 0x42 then Moved(rows, wrap, r.row + 1)
                                else if b == 0x41 then Moved(rows, wrap, r.row - 1) else r.row)
  }

  function ReadKeys(rows: nat, wrap: bool, r: Reader, keys: Text): Reader {
    if keys == [] then r else ReadKey(rows, wrap, ReadKeys(rows, wrap, r, keys[..|keys| - 1]), keys[|keys| - 1])
  }

  lemma {:induction false} ReadConcat(rows: nat, wrap: bool, r: Reader, a: Text, b: Text)
    ensures ReadKeys(rows, wrap, r, a + b) == ReadKeys(rows, wrap, ReadKeys(rows, wrap, r, a), b)
    decreases |b|
  {
    if b == [] {
      assert a + b == a;
    } else {
      assert (a + b)[..|a + b| - 1] == a + b[..|b| - 1];
      ReadConcat(rows, wrap, r, a, b[..|b| - 1]);
    }
  }

  lemma ReadArrow(rows: nat, wrap: bool, row: int, down: bool)
    ensures ReadKeys(rows, wrap, Reader(row, 0, None), if down then DOWN else UP) ==
            Reader(Moved(rows, wrap, if down then row + 1 else row - 1), 0, None)
  {
    var keys := if down then DOWN else UP;
    var r := Reader(row, 0, None);
    assert keys[..2][..1] == keys[..1] && keys[..1][..0] == [];
    assert ReadKeys(rows, wrap, r, keys[..1]) == r.(escape := 1);
    assert ReadKeys(rows, wrap, r, keys[..2]) == r.(escape := 2);
  }

  lemma {:induction false} ReadArrows(rows: nat, wrap: bool, row: int, down: bool, n: nat)
    requires 0 <= row < rows
    requires if down then row + n < rows else row - n >= 0
    ensures ReadKeys(rows, wrap, Reader(row, 0, None), Repeat(if down then DOWN else UP, n)) ==
            Reader(if down then row + n else row - n, 0, None)
    decreases n
  {
    var arrow := if down then DOWN else UP;
    if n > 0 {
      ReadArrows(rows, wrap, row, down, n - 1);
      ReadConcat(rows, wrap, Reader(row, 0, None), Repeat(arrow, n - 1), arrow);
      ReadArrow(rows, wrap, if down then row + n - 1 else row - (n - 1), down);
    }
  }

  /** Without a hotkey the synthesized keys confirm exactly the target row, from any row of
      any menu, whether its highlight clamps or wraps. */
  lemma SelectionConfirmsTarget(rows: nat, wrap: bool, cur: nat, target: nat)
    requires cur < rows && target < rows
    ensures ReadKeys(rows, wrap, Reader(cur, 0, None), ArrowKeys(cur, target)).chosen == Some(target)
  {
    var down := target >= cur;
    var n := if down then target - cur else cur - target;
    var arrow := if down then DOWN else UP;
    ReadArrows(rows, wrap, cur, down, n);
    assert ArrowKeys(cur, target)[..|Repeat(arrow, n)|] == Repeat(arrow, n);
  }
}
