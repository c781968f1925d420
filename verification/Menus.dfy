/** Menu detection over a screen snapshot (`derive/menu.rs`). */
module Menus {
  import opened Bytes
  import opened Blocks
  import Input

  datatype RowSnapshot = RowSnapshot(text: Text, inverse: bool)
  datatype ScreenSnapshot = ScreenSnapshot(rows: seq<RowSnapshot>, cursor: (nat, nat), alternate: bool)

  // ---------- one row ----------

  /** Length of the arrow or bullet marker at the front: `>`, `*`, ❯, ➤ or ●. */
  function MarkerFront(s: Text): (n: nat)
    ensures n <= |s|
  {
    if |s| >= 1 && (s[0] == 0x3e || s[0] == 0x2a) then 1
    else if |s| >= 3 && s[0] == 0xe2 && IsArrow(s[1], s[2]) then 3
    else 0
  }

  predicate IsArrow(b: Byte, c: Byte) {
    (b == 0x9d && c == 0xaf) || (b == 0x9e && c == 0xa4) || (b == 0x97 && c == 0x8f)
  }

  predicate StartsWithMarker(line: Text) { MarkerFront(TrimStart(line)) > 0 }

  predicate IsDigit(b: Byte) { 0x30 <= b <= 0x39 }

  predicate IsAlphanumeric(b: Byte) { IsDigit(b) || 0x41 <= b <= 0x5a || 0x61 <= b <= 0x7a }

  /** An ASCII letter or digit. */
  predicate Typed(c: char) { c < 128 as char && IsAlphanumeric(c as Byte) }

  function LowerByte(b: Byte): Byte { if 0x41 <= b <= 0x5a then b + 0x20 else b }

  function Digits(s: Text): (n: nat)
    ensures n <= |s|
    ensures forall i :: 0 <= i < n ==> IsDigit(s[i])
    ensures n < |s| ==> !IsDigit(s[n])
  {
    if s != [] && IsDigit(s[0]) then 1 + Digits(s[1..]) else 0
  }

  predicate ClosesNumber(s: Text) { s != [] && (s[0] == 0x2e || s[0] == 0x29) }

  predicate Bracketed(s: Text) {
    |s| >= 3 && ((s[0] == 0x5b && s[2] == 0x5d) || (s[0] == 0x28 && s[2] == 0x29)) && IsAlphanumeric(s[1])
  }

  /** The line without leading white space and selection marker. */
  function Unmarked(line: Text): Text {
    var front := TrimStart(line);
    if MarkerFront(front) > 0 then TrimStart(front[MarkerFront(front)..]) else front
  }

  /** `option_label`: the label and hotkey of an option line. */
  function OptionLabel(line: Text): (r: Option<(Text, Option<char>)>)
    ensures r.Some? ==> r.value.0 != [] && (r.value.1.Some? ==> Typed(r.value.1.value))
  {
    var s := Unmarked(line);
    var d := Digits(s);
    if d > 0 && ClosesNumber(s[d..]) && Trim(s[d + 1..]) != [] then
      Some((Trim(s[d + 1..]), if d == 1 then Some(s[0] as char) else None))
    else if Bracketed(s) && Trim(s[3..]) != [] then
      Some((Trim(s[3..]), Some(LowerByte(s[1]) as char)))
    else None
  }

  /** Writing a numbered option line and parsing it gives its label back, and its number as
      the hotkey exactly when it is a single digit. */
  lemma NumberedLineParses(digits: Text, close: Byte, caption: Text)
    requires digits != [] && AllDigits(digits)
    requires close == 0x2e || close == 0x29
    requires caption != [] && Trim(caption) == caption
    ensures OptionLabel(digits + [close] + [SPACE] + caption) ==
            Some((caption, if |digits| == 1 then Some(digits[0] as char) else None))
  {
    var line := digits + [close] + [SPACE] + caption;
    assert SpaceFront(line) == 0 && MarkerFront(line) == 0;
    assert TrimStart(line) == line;
    DigitsExact(line, |digits|);
    var rest := line[|digits| + 1..];
    assert rest == [SPACE] + caption && rest[1..] == caption;
    assert SpaceFront(rest) == 1 && TrimStart(rest) == TrimStart(caption);
  }

  predicate AllDigits(s: Text) { forall i :: 0 <= i < |s| ==> 0x30 <= s[i] <= 0x39 }

  /** "1. label" or "12) label". */
  ghost predicate Numbered(s: Text, caption: Text, hotkey: Option<char>) {
    exists digits, close, rest :: NumberedAs(s, digits, close, rest, caption, hotkey)
  }

  predicate NumberedAs(s: Text, digits: Text, close: Byte, rest: Text, caption: Text, hotkey: Option<char>) {
    && s == digits + [close] + rest
    && digits != [] && AllDigits(digits) && (close == 0x2e || close == 0x29)
    && hotkey == (if |digits| == 1 then Some(digits[0] as char) else None)
    && caption == Trim(rest)
  }

  /** "[a] label" or "(a) label". */
  ghost predicate Lettered(s: Text, caption: Text, hotkey: Option<char>) {
    exists letter, rest :: LetteredAs(s, letter, rest, caption, hotkey)
  }

  predicate LetteredAs(s: Text, letter: Byte, rest: Text, caption: Text, hotkey: Option<char>) {
    && (s == [0x5b, letter, 0x5d] + rest || s == [0x28, letter, 0x29] + rest)
    && (0x30 <= letter <= 0x39 || 0x41 <= letter <= 0x5a || 0x61 <= letter <= 0x7a)
    && hotkey == Some((if 0x41 <= letter <= 0x5a then letter + 0x20 else letter) as char)
    && caption == Trim(rest)
  }

  /** A row is an option row exactly if, its marker aside, it is written in one of the two
      shapes with a label that is not blank; label and hotkey are those written. */
  lemma OptionLines(line: Text, caption: Text, hotkey: Option<char>)
    ensures OptionLabel(line) == Some((caption, hotkey)) <==>
            caption != [] && (Numbered(Unmarked(line), caption, hotkey) || Lettered(Unmarked(line), caption, hotkey))
  {
    var s := Unmarked(line);
    if OptionLabel(line) == Some((caption, hotkey)) {
      OptionWritten(line, caption, hotkey);
    }
    if caption != [] && Numbered(s, caption, hotkey) {
      NumberedRead(line, caption, hotkey);
    }
    if caption != [] && Lettered(s, caption, hotkey) {
      LetteredRead(line, caption, hotkey);
    }
  }

  const BULLET: Text := [0x2a, SPACE]

  /** A bullet alone does not make an option row: what follows it must begin with a number or
      an opening bracket. */
  lemma BulletedLine(caption: Text)
    requires caption != [] && TrimStart(caption) == caption
    ensures OptionLabel(BULLET + caption).Some? ==> IsDigit(caption[0]) || caption[0] == 0x5b || caption[0] == 0x28
  {
    var line := BULLET + caption;
    assert SpaceFront(line) == 0 && TrimStart(line) == line && MarkerFront(line) == 1;
    assert line[1..] == [SPACE] + caption && line[1..][1..] == caption;
    assert SpaceFront(line[1..]) == 1;
    assert Unmarked(line) == caption;
  }

  /** The concrete row "* ab". */
  lemma BulletedWordIsNoOption()
    ensures OptionLabel(BULLET + [0x61, 0x62]) == None
  {
    assert SpaceFront([0x61, 0x62]) == 0;
    BulletedLine([0x61, 0x62]);
  }

  lemma OptionWritten(line: Text, caption: Text, hotkey: Option<char>)
    requires OptionLabel(line) == Some((caption, hotkey))
    ensures caption != [] && (Numbered(Unmarked(line), caption, hotkey) || Lettered(Unmarked(line), caption, hotkey))
  {
    hide TrimStart, TrimEnd, Trim, MarkerFront, Unmarked, Numbered, Lettered;
    var s := Unmarked(line);
    var d := Digits(s);
    if d > 0 && ClosesNumber(s[d..]) && Trim(s[d + 1..]) != [] {
      NumberedHolds(s, s[..d], s[d], s[d + 1..]);
    } else {
      LetteredHolds(s);
    }
  }

  lemma NumberedHolds(s: Text, digits: Text, close: Byte, rest: Text)
    requires |s| == |digits| + 1 + |rest| && s[..|digits|] == digits && s[|digits|] == close && s[|digits| + 1..] == rest
    requires digits != [] && AllDigits(digits) && (close == 0x2e || close == 0x29)
    ensures Numbered(s, Trim(rest), if |digits| == 1 then Some(digits[0] as char) else None)
  {
    hide Trim, AllDigits;
    assert s == digits + [close] + rest;
    assert NumberedAs(s, digits, close, rest, Trim(rest), if |digits| == 1 then Some(digits[0] as char) else None);
  }

  lemma LetteredHolds(s: Text)
    requires Bracketed(s)
    ensures Lettered(s, Trim(s[3..]), Some(LowerByte(s[1]) as char))
  {
    hide Trim;
    assert s == [s[0], s[1], s[2]] + s[3..];
    assert LetteredAs(s, s[1], s[3..], Trim(s[3..]), Some(LowerByte(s[1]) as char));
  }

  lemma NumberedFront(s: Text, digits: Text, close: Byte, rest: Text)
    requires s == digits + [close] + rest && digits != [] && AllDigits(digits) && (close == 0x2e || close == 0x29)
    ensures Digits(s) == |digits| && s[0] == digits[0] && ClosesNumber(s[|digits|..]) && s[|digits| + 1..] == rest
  {
    assert forall i :: 0 <= i < |digits| ==> s[i] == digits[i];
    DigitsExact(s, |digits|);
  }

  lemma NumberedRead(line: Text, caption: Text, hotkey: Option<char>)
    requires caption != [] && Numbered(Unmarked(line), caption, hotkey)
    ensures OptionLabel(line) == Some((caption, hotkey))
  {
    hide TrimStart, TrimEnd, Trim, MarkerFront, Unmarked;
    var s := Unmarked(line);
    var digits, close, rest :| NumberedAs(s, digits, close, rest, caption, hotkey);
    NumberedFront(s, digits, close, rest);
    hide Digits, AllDigits, Numbered;
  }

  lemma LetteredRead(line: Text, caption: Text, hotkey: Option<char>)
    requires caption != [] && Lettered(Unmarked(line), caption, hotkey)
    ensures OptionLabel(line) == Some((caption, hotkey))
  {
    hide TrimStart, TrimEnd, Trim, MarkerFront;
    var s := Unmarked(line);
    var letter, rest :| LetteredAs(s, letter, rest, caption, hotkey);
    assert s[3..] == rest && Digits(s) == 0;
  }

  lemma {:induction false} DigitsExact(s: Text, n: nat)
    requires n < |s| && !IsDigit(s[n]) && forall i :: 0 <= i < n ==> IsDigit(s[i])
    ensures Digits(s) == n
  {
    if n > 0 {
      DigitsExact(s[1..], n - 1);
    }
  }

  // ---------- option lists ----------

  /** What each row offers, if it is an option row. */
  function Labels(rows: seq<RowSnapshot>): (r: seq<Option<(Text, Option<char>)>>)
    ensures |r| == |rows|
    ensures forall i :: 0 <= i < |r| ==> r[i] == OptionLabel(rows[i].text)
  {
    seq(|rows|, i requires 0 <= i < |rows| => OptionLabel(rows[i].text))
  }

  /** Which rows are shown as selected: reverse video or a marker. */
  function Marks(rows: seq<RowSnapshot>): (r: seq<bool>)
    ensures |r| == |rows|
    ensures forall i :: 0 <= i < |r| ==> r[i] == (rows[i].inverse || StartsWithMarker(rows[i].text))
  {
    seq(|rows|, i requires 0 <= i < |rows| => rows[i].inverse || StartsWithMarker(rows[i].text))
  }

  /** Which rows are option rows. */
  function Flags(labels: seq<Option<(Text, Option<char>)>>): (r: seq<bool>)
    ensures |r| == |labels|
    ensures forall i :: 0 <= i < |r| ==> r[i] == labels[i].Some?
  {
    seq(|labels|, i requires 0 <= i < |labels| => labels[i].Some?)
  }

  /** `start..end` is a maximal run of at least two flags. */
  ghost predicate Run(flags: seq<bool>, start: nat, end: nat) {
    && start + 2 <= end <= |flags|
    && (forall i :: start <= i < end ==> flags[i])
    && (start > 0 ==> !flags[start - 1])
    && (end < |flags| ==> !flags[end])
  }

  ghost predicate LastRun(flags: seq<bool>, start: nat, end: nat) {
    Run(flags, start, end) && forall s: nat, e: nat :: Run(flags, s, e) ==> e <= end
  }

  ghost predicate HasPair(flags: seq<bool>) {
    exists i :: 0 <= i < |flags| - 1 && flags[i] && flags[i + 1]
  }

  /** The last run is one definite run. */
  lemma LastRunUnique(flags: seq<bool>, s: nat, e: nat, s': nat, e': nat)
    requires LastRun(flags, s, e) && LastRun(flags, s', e')
    ensures s == s' && e == e'
  {
    assert s > 0 ==> !flags[s - 1];
    assert s' > 0 ==> !flags[s' - 1];
  }

  /** A run that starts inside a maximal stretch of flags is that stretch. */
  lemma RunsFrom(flags: seq<bool>, start: nat, end: nat)
    requires start < end <= |flags|
    requires forall k :: start <= k < end ==> flags[k]
    requires end < |flags| ==> !flags[end]
    ensures forall s: nat, e: nat :: Run(flags, s, e) && start <= s < end ==> s == start && e == end
  {
    forall s: nat, e: nat | Run(flags, s, e) && start <= s < end ensures s == start && e == end {
      assert s > 0 ==> !flags[s - 1];
      assert e < |flags| ==> !flags[e];
    }
  }

  /** Two consecutive flags lie in some maximal run. */
  lemma PairsAreRuns(flags: seq<bool>)
    ensures HasPair(flags) <==> exists s: nat, e: nat :: Run(flags, s, e)
  {
    if i :| 0 <= i < |flags| - 1 && flags[i] && flags[i + 1] {
      var s := RunStart(flags, i);
      var e := RunEnd(flags, i + 1);
      assert Run(flags, s, e);
    }
    if s: nat, e: nat :| Run(flags, s, e) {
      assert flags[s] && flags[s + 1];
    }
  }

  lemma RunStart(flags: seq<bool>, i: nat) returns (s: nat)
    requires i < |flags| && flags[i]
    ensures s <= i && (s > 0 ==> !flags[s - 1])
    ensures forall k :: s <= k <= i ==> flags[k]
    decreases i
  {
    s := i;
    if i > 0 && flags[i - 1] {
      s := RunStart(flags, i - 1);
    }
  }

  lemma RunEnd(flags: seq<bool>, i: nat) returns (e: nat)
    requires i < |flags| && flags[i]
    ensures i < e <= |flags| && (e < |flags| ==> !flags[e])
    ensures forall k :: i <= k < e ==> flags[k]
    decreases |flags| - i
  {
    e := i + 1;
    if i + 1 < |flags| && flags[i + 1] {
      e := RunEnd(flags, i + 1);
    }
  }

  ghost predicate LastMarked(marks: seq<bool>, selected: Option<nat>) {
    match selected
    case None => forall k :: 0 <= k < |marks| ==> !marks[k]
    case Some(k) => k < |marks| && marks[k] && forall j :: k < j < |marks| ==> !marks[j]
  }

  /** The option a row offers. A row number is kept to 16 bits. */
  function OptionAt(offer: (Text, Option<char>), row: nat): MenuOption {
    MenuOption(offer.0, offer.1, row % 0x10000)
  }

  /** The menu lists the run's rows one for one, in order, and selects the last marked one. */
  ghost predicate Lists(menu: Menu, labels: seq<Option<(Text, Option<char>)>>, marks: seq<bool>, start: nat, end: nat)
    requires |labels| == |marks| && Run(Flags(labels), start, end)
  {
    && menu.title == None && menu.state == Live
    && |menu.options| == end - start
    && (forall k :: 0 <= k < |menu.options| ==>
          labels[start + k].Some? && menu.options[k] == OptionAt(labels[start + k].value, start + k))
    && LastMarked(marks[start..end], menu.selected)
  }

  /** The menu lists the last run of option rows. */
  ghost predicate ListsLastRun(menu: Menu, rows: seq<RowSnapshot>) {
    exists s: nat, e: nat :: LastRun(Flags(Labels(rows)), s, e) && Lists(menu, Labels(rows), Marks(rows), s, e)
  }

  /** The run scan, given which rows have a label: the last maximal run, or none. */
  method ScanRuns(flags: seq<bool>) returns (best: Option<(nat, nat)>)
    ensures best.Some? ==> LastRun(flags, best.value.0, best.value.1)
    ensures best.None? ==> forall s: nat, e: nat :: !Run(flags, s, e)
  {
    best := None;
    var i := 0;
    while i < |flags|
      invariant 0 <= i <= |flags|
      invariant 0 < i < |flags| && flags[i] ==> !flags[i - 1]
      invariant best.Some? ==> Run(flags, best.value.0, best.value.1) && best.value.1 <= i
      invariant forall s: nat, e: nat :: Run(flags, s, e) && s < i ==> best.Some? && e <= best.value.1
      decreases |flags| - i
    {
      if flags[i] {
        var start := i;
        while i < |flags| && flags[i]
          invariant start <= i <= |flags|
          invariant forall k :: start <= k < i ==> flags[k]
          decreases |flags| - i
        {
          i := i + 1;
        }
        RunsFrom(flags, start, i);
        if i - start >= 2 {
          best := Some((start, i));
        }
      } else {
        i := i + 1;
      }
    }
  }

  /** The rows of a run become options. The early return of `?` never fires: `labels[..]` is
      never `None` inside a run. */
  method CollectOptions(labels: seq<Option<(Text, Option<char>)>>, marks: seq<bool>, start: nat, end: nat)
    returns (menu: Menu)
    requires |labels| == |marks| && Run(Flags(labels), start, end)
    ensures Lists(menu, labels, marks, start, end)
  {
    var options: seq<MenuOption> := [];
    var selected: Option<nat> := None;
    for idx := 0 to end - start
      invariant |options| == idx
      invariant forall k :: 0 <= k < idx ==>
        labels[start + k].Some? && options[k] == OptionAt(labels[start + k].value, start + k)
      invariant LastMarked(marks[start..start + idx], selected)
    {
      assert Flags(labels)[start + idx];
      assert marks[start..start + idx + 1] == marks[start..start + idx] + [marks[start + idx]];
      if marks[start + idx] {
        selected := Some(idx);
      }
      options := options + [OptionAt(labels[start + idx].value, start + idx)];
    }
    menu := Menu(None, options, selected, Live);
  }

  method DetectOptionList(rows: seq<RowSnapshot>) returns (menu: Option<Menu>)
    ensures menu.Some? <==> HasPair(Flags(Labels(rows)))
    ensures menu.Some? ==> ListsLastRun(menu.value, rows)
  {
    var labels, marks := Labels(rows), Marks(rows);
    var best := ScanRuns(Flags(labels));
    PairsAreRuns(Flags(labels));
    menu := None;
    if best.Some? {
      var found := CollectOptions(labels, marks, best.value.0, best.value.1);
      menu := Some(found);
    }
  }

  // ---------- yes/no prompts ----------

  function Lower(s: Text): Text { seq(|s|, i requires 0 <= i < |s| => LowerByte(s[i])) }

  predicate Has(s: Text, part: Text) { exists k :: 0 <= k <= |s| && part <= s[k..] }

  /** "(y/n)", "[y/n]", "(yes/no)". */
  const PROMPTS: seq<Text> :=
    [[0x28, 0x79, 0x2f, 0x6e, 0x29], [0x5b, 0x79, 0x2f, 0x6e, 0x5d], [0x28, 0x79, 0x65, 0x73, 0x2f, 0x6e, 0x6f, 0x29]]

  /** No non-ASCII character lowers to a letter of these prompts, so lowering ASCII suffices. */
  predicate AsksYesNo(line: Text) {
    Has(Lower(line), PROMPTS[0]) || Has(Lower(line), PROMPTS[1]) || Has(Lower(line), PROMPTS[2])
  }

  const YES: Text := [0x59, 0x65, 0x73]
  const NO: Text := [0x4e, 0x6f]

  function DetectYesNo(rows: seq<RowSnapshot>): Option<Menu> {
    if rows == [] then None else
    var row := rows[|rows| - 1];
    if Trim(row.text) == [] then DetectYesNo(rows[..|rows| - 1])
    else if !AsksYesNo(row.text) then None
    else Some(Menu(Some(Trim(row.text)), [MenuOption(YES, Some('y'), 0), MenuOption(NO, Some('n'), 0)], None, Live))
  }

  /** Row `i` is the last one with text on it. */
  ghost predicate LastText(rows: seq<RowSnapshot>, i: int) {
    0 <= i < |rows| && Trim(rows[i].text) != [] && forall j :: i < j < |rows| ==> Trim(rows[j].text) == []
  }

  /** A prompt titled `title`, with its two answers on their letters and nothing selected. */
  predicate YesNoMenu(menu: Menu, title: Text) {
    && menu.title == Some(title) && menu.selected == None && menu.state == Live
    && |menu.options| == 2
    && menu.options[0] == MenuOption(Ascii("Yes"), Some('y'), 0)
    && menu.options[1] == MenuOption(Ascii("No"), Some('n'), 0)
  }

  /** A prompt is found exactly when there is text on the screen and the last row with any
      asks yes or no; it is titled by that row and offers the two answers. */
  lemma {:induction false} YesNoOnLastRow(rows: seq<RowSnapshot>)
    ensures DetectYesNo(rows).Some? <==> exists i :: LastText(rows, i) && AsksYesNo(rows[i].text)
    ensures forall i :: LastText(rows, i) && AsksYesNo(rows[i].text) ==>
              DetectYesNo(rows).Some? && YesNoMenu(DetectYesNo(rows).value, Trim(rows[i].text))
    decreases |rows|
  {
    hide AsksYesNo, Trim;
    if rows != [] {
      var init, last := rows[..|rows| - 1], |rows| - 1;
      if Trim(rows[last].text) == [] {
        YesNoOnLastRow(init);
        forall i ensures LastText(rows, i) <==> LastText(init, i) {
        }
      } else {
        assert LastText(rows, last);
      }
    }
  }

  // ---------- both ----------

  /** What a caller may rely on in a detected menu. */
  ghost predicate Usable(menu: Menu) {
    && |menu.options| >= 2
    && (menu.selected.Some? ==> menu.selected.value < |menu.options|)
    && menu.state == Live
    && forall k :: 0 <= k < |menu.options| ==>
         && menu.options[k].caption != []
         && (menu.options[k].hotkey.Some? ==> Typed(menu.options[k].hotkey.value))
  }

  method DetectMenu(screen: ScreenSnapshot) returns (menu: Option<Menu>)
    ensures menu.Some? ==> Usable(menu.value)
    ensures HasPair(Flags(Labels(screen.rows))) ==> menu.Some? && ListsLastRun(menu.value, screen.rows)
    ensures !HasPair(Flags(Labels(screen.rows))) ==> menu == DetectYesNo(screen.rows)
  {
    menu := DetectOptionList(screen.rows);
    if menu.Some? {
      ListsUsable(menu.value, screen.rows);
    } else {
      menu := DetectYesNo(screen.rows);
      YesNoUsable(screen.rows);
    }
  }

  lemma ListsUsable(menu: Menu, rows: seq<RowSnapshot>)
    requires ListsLastRun(menu, rows)
    ensures Usable(menu)
  {
    var s: nat, e: nat :| LastRun(Flags(Labels(rows)), s, e) && Lists(menu, Labels(rows), Marks(rows), s, e);
    forall k | 0 <= k < |menu.options|
      ensures menu.options[k].caption != []
      ensures menu.options[k].hotkey.Some? ==> Typed(menu.options[k].hotkey.value)
    {
      assert Labels(rows)[s + k] == OptionLabel(rows[s + k].text);
      assert menu.options[k] == OptionAt(Labels(rows)[s + k].value, s + k);
    }
  }

  lemma {:induction false} YesNoUsable(rows: seq<RowSnapshot>)
    ensures DetectYesNo(rows).Some? ==> Usable(DetectYesNo(rows).value)
  {
    if rows != [] {
      YesNoUsable(rows[..|rows| - 1]);
    }
  }

  /** Picking any option of a detected menu: its hotkey goes out as that very character, and
      without one the arrow keys confirm its row from the highlighted one. */
  lemma PicksAreExact(menu: Menu, k: nat, wrap: bool)
    requires Usable(menu) && k < |menu.options|
    ensures var cur := if menu.selected.Some? then menu.selected.value else 0;
            match menu.options[k].hotkey
            case Some(c) => Input.LowByte(c) as char == c
            case None => Input.ReadKeys(|menu.options|, wrap, Input.Reader(cur, 0, None), Input.ArrowKeys(cur, k)).chosen == Some(k)
  {
    if menu.options[k].hotkey.None? {
      var cur := if menu.selected.Some? then menu.selected.value else 0;
      Input.SelectionConfirmsTarget(|menu.options|, wrap, cur, k);
    }
  }

  /** The application may take these keys for option `j`: a single key that is its hotkey, or
      arrows and Enter that confirm its row. */
  ghost predicate MayPick(menu: Menu, wrap: bool, keys: Text, j: nat)
    requires j < |menu.options|
  {
    || (|keys| == 1 && menu.options[j].hotkey == Some(keys[0] as char))
    || Input.ReadKeys(|menu.options|, wrap, Input.Reader(if menu.selected.Some? then menu.selected.value else 0, 0, None),
                      keys).chosen == Some(j)
  }

  /** No other option is offered on the same hotkey. */
  predicate OwnHotkey(menu: Menu, k: nat)
    requires k < |menu.options|
  {
    menu.options[k].hotkey.None? ||
    forall j :: 0 <= j < |menu.options| && j != k ==> menu.options[j].hotkey != menu.options[k].hotkey
  }

  /** The keys sent for an option of a detected menu may always be taken for it, and for no
      other exactly when no other option has its hotkey. */
  lemma PickIsUnambiguous(menu: Menu, k: nat, wrap: bool)
    requires Usable(menu) && k < |menu.options|
    ensures var keys := Input.SelectKeys(menu.selected, k, menu.options[k]);
            && MayPick(menu, wrap, keys, k)
            && ((forall j: nat :: j < |menu.options| && MayPick(menu, wrap, keys, j) ==> j == k) <==> OwnHotkey(menu, k))
  {
    var keys := Input.SelectKeys(menu.selected, k, menu.options[k]);
    PicksAreExact(menu, k, wrap);
    if menu.options[k].hotkey.Some? {
      var cur := if menu.selected.Some? then menu.selected.value else 0;
      HotkeyConfirmsNothing(|menu.options|, wrap, cur, keys[0]);
      assert keys == [keys[0]] && keys[0] as char == menu.options[k].hotkey.value;
      if j :| 0 <= j < |menu.options| && j != k && menu.options[j].hotkey == menu.options[k].hotkey {
        assert MayPick(menu, wrap, keys, j);
      }
    } else {
      assert keys[|keys| - 1] == CR;
    }
  }

  lemma HotkeyConfirmsNothing(rows: nat, wrap: bool, row: int, key: Byte)
    requires key != CR
    ensures Input.ReadKeys(rows, wrap, Input.Reader(row, 0, None), [key]).chosen == None
  {
    assert [key][..0] == [];
    assert Input.ReadKeys(rows, wrap, Input.Reader(row, 0, None), [key][..0]) == Input.Reader(row, 0, None);
  }

  const DOT: Byte := 0x2e

  function NumberedRow(digit: Byte, caption: Text): RowSnapshot {
    RowSnapshot([digit] + [DOT] + [SPACE] + caption, false)
  }

  /** Two rows with the same number. */
  function SameNumber(digit: Byte, a: Text, b: Text): seq<RowSnapshot> {
    [NumberedRow(digit, a), NumberedRow(digit, b)]
  }

  lemma OneDigitLabel(digit: Byte, caption: Text)
    requires IsDigit(digit) && caption != [] && Trim(caption) == caption
    ensures OptionLabel(NumberedRow(digit, caption).text) == Some((caption, Some(digit as char)))
  {
    hide OptionLabel, Trim;
    NumberedLineParses([digit], DOT, caption);
  }

  lemma TwoLabels(x: RowSnapshot, y: RowSnapshot)
    ensures Labels([x, y]) == [OptionLabel(x.text), OptionLabel(y.text)]
  {
    hide OptionLabel;
  }

  lemma SameNumberLabels(digit: Byte, a: Text, b: Text)
    requires IsDigit(digit) && a != [] && b != [] && Trim(a) == a && Trim(b) == b
    ensures Labels(SameNumber(digit, a, b)) == [Some((a, Some(digit as char))), Some((b, Some(digit as char)))]
  {
    hide OptionLabel, Trim, IsDigit, Labels, NumberedRow;
    OneDigitLabel(digit, a);
    OneDigitLabel(digit, b);
    TwoLabels(NumberedRow(digit, a), NumberedRow(digit, b));
  }

  /** They are found as an option list. */
  lemma SameNumberIsFound(digit: Byte, a: Text, b: Text)
    requires IsDigit(digit) && a != [] && b != [] && Trim(a) == a && Trim(b) == b
    ensures HasPair(Flags(Labels(SameNumber(digit, a, b))))
  {
    SameNumberLabels(digit, a, b);
    hide OptionLabel, Trim, SameNumber;
    var flags := Flags(Labels(SameNumber(digit, a, b)));
    assert flags[0] && flags[0 + 1];
  }

  /** The concrete case: the menu found offers both rows on one hotkey, so the keys sent for
      either may be taken for the other. */
  lemma SameNumberSharesHotkey(digit: Byte, a: Text, b: Text, menu: Menu)
    requires IsDigit(digit) && a != [] && b != [] && Trim(a) == a && Trim(b) == b
    requires ListsLastRun(menu, SameNumber(digit, a, b))
    ensures |menu.options| == 2 && !OwnHotkey(menu, 0) && !OwnHotkey(menu, 1)
  {
    var rows := SameNumber(digit, a, b);
    SameNumberLabels(digit, a, b);
    hide OptionLabel, Trim, SameNumber;
    var s: nat, e: nat :| LastRun(Flags(Labels(rows)), s, e) && Lists(menu, Labels(rows), Marks(rows), s, e);
    assert s == 0 && e == 2;
    assert menu.options[0] == OptionAt(Labels(rows)[0 + 0].value, 0 + 0);
    assert menu.options[1] == OptionAt(Labels(rows)[0 + 1].value, 0 + 1);
  }
}
