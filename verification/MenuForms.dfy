/** Detected menus read off the rows themselves (`derive/menu.rs:18`, `54-145`): what marks a
    row, what makes it an option, which option is selected and what asks yes or no, in
    literal bytes after white space. */
module MenuForms {
  import opened Blocks
  import opened Bytes
  import opened Menus
  import opened Unicode

  /** `>`, `*`, ❯, ➤ and ●. */
  predicate IsMarker(p: Text) {
    p == [0x3e] || p == [0x2a] || p == [0xe2, 0x9d, 0xaf] || p == [0xe2, 0x9e, 0xa4] || p == [0xe2, 0x97, 0x8f]
  }

  lemma MarkersAreDark(p: Text)
    requires IsMarker(p)
    ensures Dark(p)
  {
    forall t: Text | p <= t ensures StartsDark(t) {
      assert t[0] == p[0] && (|p| == 3 ==> t[1] == p[1] && t[2] == p[2]);
      DarkFront(t);
    }
  }

  /** A text begins with at most one marker, and `MarkerFront` is its length. */
  lemma MarkerFrontIs(s: Text, p: Text)
    requires IsMarker(p) && p <= s
    ensures MarkerFront(s) == |p|
  {
    assert s[0] == p[0] && (|p| == 3 ==> s[1] == p[1] && s[2] == p[2]);
  }

  lemma MarkerFound(s: Text)
    ensures MarkerFront(s) > 0 ==> IsMarker(s[..MarkerFront(s)])
  {
    if MarkerFront(s) == 1 {
      assert s[..1] == [s[0]];
    } else if MarkerFront(s) == 3 {
      assert s[..3] == [s[0], s[1], s[2]];
    }
  }

  /** One of the five markers stands in the row after nothing but white space. */
  ghost predicate Marked(line: Text) { exists p :: IsMarker(p) && AfterWhite(line, p) }

  lemma MarkedRows(line: Text)
    ensures StartsWithMarker(line) <==> Marked(line)
  {
    hide TrimStart, AfterWhite, Dark;
    var front := TrimStart(line);
    if StartsWithMarker(line) {
      MarkerFound(front);
      MarkersAreDark(front[..MarkerFront(front)]);
      DarkFoundAfterWhite(line, front[..MarkerFront(front)]);
    }
    if p :| IsMarker(p) && AfterWhite(line, p) {
      MarkersAreDark(p);
      DarkFoundAfterWhite(line, p);
      MarkerFrontIs(front, p);
    }
  }

  /** The row is white space, perhaps a marker and more white space, and then `s`. */
  ghost predicate AfterMarker(line: Text, s: Text) {
    exists w, p, v :: White(w) && White(v) && line == w + p + v + s && StartsDark(s) && OneMarker(p, v, s)
  }

  /** One marker, or none where none stands. */
  ghost predicate OneMarker(p: Text, v: Text, s: Text) {
    if p == [] then v == [] && forall q :: IsMarker(q) ==> !(q <= s) else IsMarker(p)
  }

  lemma PlainUnmarked(w: Text, s: Text)
    requires White(w) && StartsDark(s) && forall q :: IsMarker(q) ==> !(q <= s)
    ensures Unmarked(w + s) == s
  {
    hide White, TrimStart, StartsDark, IsMarker, MarkerFront;
    TrimStartSkips(w, s);
    MarkerFound(s);
  }

  lemma MarkerUnmarked(w: Text, p: Text, v: Text, s: Text)
    requires White(w) && White(v) && StartsDark(s) && IsMarker(p)
    ensures Unmarked(w + (p + (v + s))) == s
  {
    var front := p + (v + s);
    assert front[|p|..] == v + s && p != [];
    MarkersAreDark(p);
    hide White, TrimStart, StartsDark, IsMarker, MarkerFront;
    StartsWithDark(p, v + s);
    hide Dark;
    TrimStartSkips(w, front);
    MarkerFrontIs(front, p);
    TrimStartSkips(v, s);
  }

  lemma AfterMarkerIs(line: Text, s: Text)
    requires AfterMarker(line, s)
    ensures Unmarked(line) == s
  {
    hide White, StartsDark, Unmarked, IsMarker;
    var w, p, v :| White(w) && White(v) && line == w + p + v + s && StartsDark(s) && OneMarker(p, v, s);
    hide AfterMarker;
    if p == [] {
      assert line == w + s;
      PlainUnmarked(w, s);
    } else {
      assert line == w + (p + (v + s));
      MarkerUnmarked(w, p, v, s);
    }
  }

  lemma StartsWithDark(p: Text, rest: Text)
    requires Dark(p)
    ensures StartsDark(p + rest) && p <= p + rest
  {
    hide StartsDark;
    assert p <= p + rest;
  }

  /** The parts of a row make it one that `s` ends. */
  lemma Parted(w: Text, p: Text, v: Text, s: Text)
    requires White(w) && White(v) && StartsDark(s) && OneMarker(p, v, s)
    ensures AfterMarker(w + p + v + s, s)
  {
    hide White, StartsDark, OneMarker;
  }

  lemma NoMarkerHere(s: Text)
    requires MarkerFront(s) == 0
    ensures OneMarker([], [], s) && White([])
  {
    forall q | IsMarker(q) ensures !(q <= s) {
      if q <= s {
        MarkerFrontIs(s, q);
        MarkersAreDark(q);
      }
    }
  }

  lemma UnmarkedIsAfter(line: Text)
    ensures AfterMarker(line, Unmarked(line))
  {
    hide White, TrimStart, StartsDark, MarkerFront, IsMarker, AfterMarker;
    var s := Unmarked(line);
    var k := TrimStartSplits(line);
    var front := line[k..];
    var n := MarkerFront(front);
    MarkerFound(front);
    if n == 0 {
      NoMarkerHere(s);
      Parted(line[..k], [], [], s);
      assert line == line[..k] + [] + [] + s;
    } else {
      var j := TrimStartSplits(front[n..]);
      assert OneMarker(front[..n], front[n..][..j], s);
      Parted(line[..k], front[..n], front[n..][..j], s);
      Rejoined(line, k, n, j);
    }
  }

  lemma Rejoined(line: Text, k: nat, n: nat, j: nat)
    requires k + n + j <= |line|
    ensures line == line[..k] + line[k..][..n] + line[k..][n..][..j] + line[k..][n..][j..]
  {
  }

  /** What is left of a row without its marker, in written form. */
  lemma UnmarkedRows(line: Text, s: Text)
    ensures Unmarked(line) == s <==> AfterMarker(line, s)
  {
    UnmarkedIsAfter(line);
    if AfterMarker(line, s) {
      AfterMarkerIs(line, s);
    }
  }

  // ---------- the rows listed ----------

  /** The row offers `caption` on `hotkey`: its marker aside, it is a number, or a bracketed
      letter or digit, and a caption. */
  ghost predicate Offers(line: Text, caption: Text, hotkey: Option<char>) {
    caption != [] && exists s :: AfterMarker(line, s) && (Numbered(s, caption, hotkey) || Lettered(s, caption, hotkey))
  }

  lemma OfferedRows(line: Text, caption: Text, hotkey: Option<char>)
    ensures OptionLabel(line) == Some((caption, hotkey)) <==> Offers(line, caption, hotkey)
  {
    hide AfterMarker, Unmarked, Numbered, Lettered, OptionLabel;
    OptionLines(line, caption, hotkey);
    UnmarkedRows(line, Unmarked(line));
    if Offers(line, caption, hotkey) {
      var s :| AfterMarker(line, s) && (Numbered(s, caption, hotkey) || Lettered(s, caption, hotkey));
      UnmarkedRows(line, s);
    }
  }

  ghost predicate IsOption(row: RowSnapshot) { exists caption, hotkey :: Offers(row.text, caption, hotkey) }

  /** Shown as selected: in reverse video, or marked. */
  ghost predicate IsSelected(row: RowSnapshot) { row.inverse || Marked(row.text) }

  lemma OptionRows(rows: seq<RowSnapshot>, i: nat)
    requires i < |rows|
    ensures Flags(Labels(rows))[i] <==> IsOption(rows[i])
    ensures Marks(rows)[i] <==> IsSelected(rows[i])
  {
    hide OptionLabel, Offers, Marked, StartsWithMarker;
    MarkedRows(rows[i].text);
    var offer := OptionLabel(rows[i].text);
    if offer.Some? {
      OfferedRows(rows[i].text, offer.value.0, offer.value.1);
    }
    if caption, hotkey :| Offers(rows[i].text, caption, hotkey) {
      OfferedRows(rows[i].text, caption, hotkey);
    }
  }

  /** `start..end` is the last maximal stretch of two or more option rows. */
  ghost predicate LastStretch(rows: seq<RowSnapshot>, start: nat, end: nat) {
    && start + 2 <= end <= |rows|
    && (forall i :: start <= i < end ==> IsOption(rows[i]))
    && (start > 0 ==> !IsOption(rows[start - 1]))
    && (forall i :: end <= i < |rows| - 1 ==> !IsOption(rows[i]) || !IsOption(rows[i + 1]))
    && (end < |rows| ==> !IsOption(rows[end]))
  }

  /** The menu of the rows `start..end`: each offers what its row offers, in order, and the
      selected one is the last that is shown as selected, if any is. */
  ghost predicate MenuOf(menu: Menu, rows: seq<RowSnapshot>, start: nat, end: nat)
    requires start <= end <= |rows|
  {
    && menu.title == None && menu.state == Live && |menu.options| == end - start
    && AllOffered(menu.options, rows, start)
    && (forall k: nat :: menu.selected == Some(k) <==> LastSelected(rows, start, end, k))
  }

  /** The option offers what its row offers, and keeps the low 16 bits of the row's number. */
  ghost predicate OptionIs(option: MenuOption, rows: seq<RowSnapshot>, row: nat)
    requires row < |rows|
  {
    Offers(rows[row].text, option.caption, option.hotkey) && option.rawRow == row % 65536
  }

  lemma StretchIsRun(rows: seq<RowSnapshot>, start: nat, end: nat)
    ensures LastRun(Flags(Labels(rows)), start, end) <==> LastStretch(rows, start, end)
  {
    var flags := Flags(Labels(rows));
    forall i | 0 <= i < |rows| ensures flags[i] <==> IsOption(rows[i]) {
      OptionRows(rows, i);
    }
    hide IsOption, Flags, Labels;
    if Run(flags, start, end) {
      if LastRun(flags, start, end) {
        NoPairAfter(flags, start, end);
      }
      if LastStretch(rows, start, end) {
        assert forall i :: end <= i < |flags| - 1 ==> !flags[i] || !flags[i + 1];
        NoRunAfter(flags, start, end);
      }
    }
  }

  lemma NoPairAfter(flags: seq<bool>, start: nat, end: nat)
    requires LastRun(flags, start, end)
    ensures forall i :: end <= i < |flags| - 1 ==> !flags[i] || !flags[i + 1]
  {
    if i :| end <= i < |flags| - 1 && flags[i] && flags[i + 1] {
      var s := RunStart(flags, i);
      var e := RunEnd(flags, i + 1);
      assert Run(flags, s, e);
    }
  }

  lemma NoRunAfter(flags: seq<bool>, start: nat, end: nat)
    requires Run(flags, start, end)
    requires forall i :: end <= i < |flags| - 1 ==> !flags[i] || !flags[i + 1]
    ensures LastRun(flags, start, end)
  {
    forall s: nat, e: nat | Run(flags, s, e) ensures e <= end {
      var next := s + 1;
      assert flags[next] && flags[next - 1];
      assert end < |flags| ==> !flags[end];
    }
  }

  lemma LastMark(marks: seq<bool>, k: nat) returns (l: nat)
    requires k < |marks| && marks[k]
    ensures OnlyLast(marks, l)
    decreases |marks| - k
  {
    l := k;
    if j :| k < j < |marks| && marks[j] {
      l := LastMark(marks, j);
    }
  }

  ghost predicate OnlyLast(marks: seq<bool>, k: nat) {
    k < |marks| && marks[k] && forall j :: k < j < |marks| ==> !marks[j]
  }

  lemma SelectedIsLast(marks: seq<bool>, selected: Option<nat>)
    ensures LastMarked(marks, selected) <==> forall k: nat :: selected == Some(k) <==> OnlyLast(marks, k)
  {
    if k: nat :| k < |marks| && marks[k] {
      var l := LastMark(marks, k);
    }
  }

  /** Row `start + k` is shown as selected and no later row of the stretch is. */
  ghost predicate LastSelected(rows: seq<RowSnapshot>, start: nat, end: nat, k: nat)
    requires start <= end <= |rows|
  {
    k < end - start && IsSelected(rows[start + k]) && forall j :: start + k < j < end ==> !IsSelected(rows[j])
  }

  lemma OnlyLastSelected(rows: seq<RowSnapshot>, start: nat, end: nat, k: nat)
    requires start <= end <= |rows|
    ensures OnlyLast(Marks(rows)[start..end], k) <==> LastSelected(rows, start, end, k)
  {
    var marks := Marks(rows)[start..end];
    forall i | start <= i < end ensures marks[i - start] <==> IsSelected(rows[i]) {
      OptionRows(rows, i);
    }
    hide IsSelected, Marks;
    if OnlyLast(marks, k) {
      forall j | start + k < j < end ensures !IsSelected(rows[j]) {
        assert !marks[j - start];
      }
    }
    if LastSelected(rows, start, end, k) {
      forall j | k < j < |marks| ensures !marks[j] {
        assert !IsSelected(rows[start + j]);
      }
    }
  }

  lemma OptionOffers(rows: seq<RowSnapshot>, row: nat, option: MenuOption)
    requires row < |rows| && Labels(rows)[row].Some?
    ensures option == OptionAt(Labels(rows)[row].value, row) <==>
            Offers(rows[row].text, option.caption, option.hotkey) && option.rawRow == row % 65536
  {
    hide OptionLabel, Offers;
    OfferedRows(rows[row].text, option.caption, option.hotkey);
  }

  /** A menu that lists a run is the menu of that stretch of rows, read off the rows. */
  lemma ListsAreMenus(menu: Menu, rows: seq<RowSnapshot>, start: nat, end: nat)
    requires Run(Flags(Labels(rows)), start, end)
    ensures Lists(menu, Labels(rows), Marks(rows), start, end) <==> MenuOf(menu, rows, start, end)
  {
    SelectionIs(menu.selected, rows, start, end);
    if |menu.options| == end - start {
      OptionsAre(menu.options, rows, start, end);
    }
    AllLabelled(menu, Labels(rows), Marks(rows), start, end);
    hide Lists, Labelled, OptionIs, LastSelected, LastMarked, Labels, Marks, Flags, OptionAt, Run;
  }

  lemma SelectionIs(selected: Option<nat>, rows: seq<RowSnapshot>, start: nat, end: nat)
    requires start <= end <= |rows|
    ensures LastMarked(Marks(rows)[start..end], selected) <==>
            forall k: nat :: selected == Some(k) <==> LastSelected(rows, start, end, k)
  {
    var marks := Marks(rows)[start..end];
    SelectedIsLast(marks, selected);
    forall k: nat ensures OnlyLast(marks, k) <==> LastSelected(rows, start, end, k) {
      OnlyLastSelected(rows, start, end, k);
    }
    hide *;
  }

  /** The option is the one its row's label makes. */
  ghost predicate Labelled(option: MenuOption, labels: seq<Option<(Text, Option<char>)>>, row: nat) {
    row < |labels| && labels[row].Some? && option == OptionAt(labels[row].value, row)
  }

  lemma LabelledIs(option: MenuOption, rows: seq<RowSnapshot>, start: nat, end: nat, row: nat)
    requires Run(Flags(Labels(rows)), start, end) && start <= row < end
    ensures Labelled(option, Labels(rows), row) <==> OptionIs(option, rows, row)
  {
    assert Flags(Labels(rows))[row];
    hide OptionIs, OptionAt, Run;
    OptionOffers(rows, row, option);
    hide *;
  }

  ghost predicate AllListed(options: seq<MenuOption>, labels: seq<Option<(Text, Option<char>)>>, start: nat) {
    forall k :: 0 <= k < |options| ==> Labelled(options[k], labels, start + k)
  }

  ghost predicate AllOffered(options: seq<MenuOption>, rows: seq<RowSnapshot>, start: nat)
    requires start + |options| <= |rows|
  {
    forall k :: 0 <= k < |options| ==> OptionIs(options[k], rows, start + k)
  }

  lemma ListedOffered(options: seq<MenuOption>, rows: seq<RowSnapshot>, start: nat, end: nat)
    requires Run(Flags(Labels(rows)), start, end) && start + |options| <= end && AllListed(options, Labels(rows), start)
    ensures AllOffered(options, rows, start)
  {
    assert end <= |rows|;
    hide Run, Flags, Labels, Labelled, OptionIs;
    forall k | 0 <= k < |options| ensures OptionIs(options[k], rows, start + k) {
      LabelledIs(options[k], rows, start, end, start + k);
    }
  }

  lemma OfferedListed(options: seq<MenuOption>, rows: seq<RowSnapshot>, start: nat, end: nat)
    requires Run(Flags(Labels(rows)), start, end) && start + |options| <= end && AllOffered(options, rows, start)
    ensures AllListed(options, Labels(rows), start)
  {
    assert end <= |rows|;
    hide Run, Flags, Labels, Labelled, OptionIs;
    forall k | 0 <= k < |options| ensures Labelled(options[k], Labels(rows), start + k) {
      LabelledIs(options[k], rows, start, end, start + k);
    }
  }

  /** The options of a stretch. */
  lemma OptionsAre(options: seq<MenuOption>, rows: seq<RowSnapshot>, start: nat, end: nat)
    requires Run(Flags(Labels(rows)), start, end) && start + |options| <= end
    ensures AllListed(options, Labels(rows), start) <==> AllOffered(options, rows, start)
  {
    assert end <= |rows|;
    hide Run, Flags, Labels, AllListed, AllOffered;
    if AllListed(options, Labels(rows), start) {
      ListedOffered(options, rows, start, end);
    }
    if AllOffered(options, rows, start) {
      OfferedListed(options, rows, start, end);
    }
  }

  lemma AllLabelled(menu: Menu, labels: seq<Option<(Text, Option<char>)>>, marks: seq<bool>, start: nat, end: nat)
    requires |labels| == |marks| && Run(Flags(labels), start, end)
    ensures Lists(menu, labels, marks, start, end) <==>
            && menu.title == None && menu.state == Live && |menu.options| == end - start
            && AllListed(menu.options, labels, start)
            && LastMarked(marks[start..end], menu.selected)
  {
    hide OptionAt, LastMarked;
    if |menu.options| == end - start {
      forall k | 0 <= k < |menu.options|
        ensures Labelled(menu.options[k], labels, start + k) <==>
                labels[start + k].Some? && menu.options[k] == OptionAt(labels[start + k].value, start + k)
      {
      }
    }
    hide Labelled;
  }

  /** The theorem of the detected list: the menu found is that of the last stretch of two or
      more option rows, and there is one exactly when two option rows stand together. */
  lemma ListedMenu(menu: Menu, rows: seq<RowSnapshot>)
    ensures HasPair(Flags(Labels(rows))) <==> exists i :: 0 <= i < |rows| - 1 && IsOption(rows[i]) && IsOption(rows[i + 1])
    ensures ListsLastRun(menu, rows) <==>
            exists start: nat, end: nat :: LastStretch(rows, start, end) && MenuOf(menu, rows, start, end)
  {
    var flags := Flags(Labels(rows));
    forall i | 0 <= i < |rows| ensures flags[i] <==> IsOption(rows[i]) {
      OptionRows(rows, i);
    }
    forall s: nat, e: nat ensures LastRun(flags, s, e) <==> LastStretch(rows, s, e) {
      StretchIsRun(rows, s, e);
    }
    forall s: nat, e: nat | LastRun(flags, s, e)
      ensures Lists(menu, Labels(rows), Marks(rows), s, e) <==> MenuOf(menu, rows, s, e)
    {
      ListsAreMenus(menu, rows, s, e);
    }
    hide IsOption, LastStretch, MenuOf, Lists;
  }

  // ---------- the prompts ----------

  predicate IsPrompt(p: Text) { p == Ascii("(y/n)") || p == Ascii("[y/n]") || p == Ascii("(yes/no)") }

  /** The same character, letters in either case; `small` is a small letter or a sign. */
  predicate SameLetter(b: Byte, small: Byte) { b == small || (0x61 <= small <= 0x7a && b == small - 0x20) }

  ghost predicate PromptAt(line: Text, p: Text, k: nat) {
    k + |p| <= |line| && forall i :: 0 <= i < |p| ==> SameLetter(line[k + i], p[i])
  }

  /** One of the prompts stands somewhere in the row, in capitals or small letters. */
  ghost predicate Asks(line: Text) { exists p, k :: IsPrompt(p) && PromptAt(line, p, k) }

  lemma LowerSame(b: Byte, small: Byte)
    requires !(0x41 <= small <= 0x5a)
    ensures LowerByte(b) == small <==> SameLetter(b, small)
  {
  }

  predicate Small(p: Text) { forall i :: 0 <= i < |p| ==> !(0x41 <= p[i] <= 0x5a) }

  lemma PromptAtIs(line: Text, p: Text, k: nat)
    requires Small(p) && k <= |line|
    ensures p <= Lower(line)[k..] <==> PromptAt(line, p, k)
  {
    var low := Lower(line);
    forall i | 0 <= i < |p| && k + i < |line| ensures low[k..][i] == p[i] <==> SameLetter(line[k + i], p[i]) {
      LowerSame(line[k + i], p[i]);
    }
    hide LowerByte, SameLetter, Lower;
    if PromptAt(line, p, k) {
      assert p == low[k..][..|p|];
    }
    if p <= low[k..] {
      forall i | 0 <= i < |p| ensures SameLetter(line[k + i], p[i]) {
        assert low[k..][i] == p[i];
      }
    }
  }

  lemma HasIs(line: Text, p: Text)
    requires Small(p)
    ensures Has(Lower(line), p) <==> exists k :: PromptAt(line, p, k)
  {
    forall k | 0 <= k <= |line| ensures p <= Lower(line)[k..] <==> PromptAt(line, p, k) {
      PromptAtIs(line, p, k);
    }
    hide SameLetter;
  }

  lemma AskingRows(line: Text)
    ensures AsksYesNo(line) <==> Asks(line)
  {
    var a, b, c := Ascii("(y/n)"), Ascii("[y/n]"), Ascii("(yes/no)");
    assert PROMPTS[0] == a && PROMPTS[1] == b && PROMPTS[2] == c;
    assert forall p :: IsPrompt(p) <==> p == a || p == b || p == c;
    assert Small(a) && Small(b) && Small(c);
    hide Ascii, PromptAt, Small, Has, Lower, IsPrompt;
    HasIs(line, a);
    HasIs(line, b);
    HasIs(line, c);
  }

  ghost predicate LastWritten(rows: seq<RowSnapshot>, i: int) {
    0 <= i < |rows| && !White(rows[i].text) && forall j :: i < j < |rows| ==> White(rows[j].text)
  }

  function PromptMenu(title: Text): Menu {
    Menu(Some(title), [MenuOption(Ascii("Yes"), Some('y'), 0), MenuOption(Ascii("No"), Some('n'), 0)], None, Live)
  }

  /** Row `i` is the last with anything on it, it asks, and this is the menu of its prompt. */
  ghost predicate PromptOn(rows: seq<RowSnapshot>, i: int, menu: Menu) {
    LastWritten(rows, i) && Asks(rows[i].text) && menu == PromptMenu(Trim(rows[i].text))
  }

  lemma BlankRow(rows: seq<RowSnapshot>, i: int, menu: Menu)
    requires rows != [] && White(rows[|rows| - 1].text)
    ensures PromptOn(rows, i, menu) <==> PromptOn(rows[..|rows| - 1], i, menu)
  {
    hide White, Asks, PromptMenu, Trim;
    assert LastWritten(rows, i) <==> LastWritten(rows[..|rows| - 1], i);
  }

  lemma WrittenRow(rows: seq<RowSnapshot>, i: int, menu: Menu)
    requires rows != [] && !White(rows[|rows| - 1].text)
    ensures PromptOn(rows, i, menu) <==>
            i == |rows| - 1 && Asks(rows[i].text) && menu == PromptMenu(Trim(rows[i].text))
  {
    hide White, Asks, PromptMenu, Trim;
  }

  lemma Answers(title: Text)
    ensures PromptMenu(title) == Menu(Some(title), [MenuOption(YES, Some('y'), 0), MenuOption(NO, Some('n'), 0)], None, Live)
  {
    assert YES == Ascii("Yes") && NO == Ascii("No");
  }

  /** The last row alone. */
  lemma LastRowDetected(rows: seq<RowSnapshot>, menu: Menu)
    requires rows != []
    ensures var text := rows[|rows| - 1].text;
            DetectYesNo(rows) == Some(menu) <==>
            if White(text) then DetectYesNo(rows[..|rows| - 1]) == Some(menu)
            else Asks(text) && menu == PromptMenu(Trim(text))
  {
    var text := rows[|rows| - 1].text;
    BlankIsWhite(text);
    AskingRows(text);
    Answers(Trim(text));
    hide White, Trim, Asks, AsksYesNo, Ascii, PromptMenu;
  }

  /** The theorem of the prompt: a menu is found exactly when the last row that is not blank
      asks, and it is titled with that row and offers yes and no. */
  lemma {:induction false} PromptFound(rows: seq<RowSnapshot>, menu: Menu)
    ensures DetectYesNo(rows) == Some(menu) <==> exists i :: PromptOn(rows, i, menu)
    decreases |rows|
  {
    if rows != [] {
      var last, init := |rows| - 1, rows[..|rows| - 1];
      LastRowDetected(rows, menu);
      hide White, Trim, Asks, DetectYesNo, PromptMenu, PromptOn;
      if White(rows[last].text) {
        PromptFound(init, menu);
        forall i ensures PromptOn(rows, i, menu) <==> PromptOn(init, i, menu) {
          BlankRow(rows, i, menu);
        }
      } else {
        forall i ensures PromptOn(rows, i, menu) <==>
                         i == last && Asks(rows[last].text) && menu == PromptMenu(Trim(rows[last].text)) {
          WrittenRow(rows, i, menu);
        }
        assert PromptOn(rows, last, menu) <==> DetectYesNo(rows) == Some(menu);
      }
    }
  }
}
