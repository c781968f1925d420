/** The Claude Code stream-json adapter (`derive/claude_code.rs`). The JSON parser and
    pretty-printer are parameters. */
module ClaudeCode {
  import opened Bytes
  import opened Blocks
  import opened Splitting
  import opened Stream
  import opened Document

  // ---------- JSON values ----------

  datatype Json =
    | Null | Bool(flag: bool) | Number(digits: Text) | Str(text: Text)
    | Array(items: seq<Json>) | Object(fields: map<Text, Json>)

  /** `serde_json::from_slice` and `serde_json::to_string_pretty`. */
  datatype Codec = Codec(parse: Text -> Option<Json>, pretty: Json -> Text)

  function Get(v: Json, key: string): Option<Json>
    requires forall i :: 0 <= i < |key| ==> key[i] < 128 as char
  {
    if v.Object? && Ascii(key) in v.fields then Some(v.fields[Ascii(key)]) else None
  }

  function GetStr(v: Json, key: string): Option<Text>
    requires forall i :: 0 <= i < |key| ==> key[i] < 128 as char
  {
    match Get(v, key) case Some(Str(t)) => Some(t) case _ => None
  }

  predicate Is(t: Option<Text>, name: string)
    requires forall i :: 0 <= i < |name| ==> name[i] < 128 as char
  {
    t == Some(Ascii(name))
  }

  /** The array at `/message/content`; anything else counts as no content. */
  function MessageContent(v: Json): seq<Json> {
    match Get(v, "message")
    case None => []
    case Some(m) => match Get(m, "content") case Some(Array(items)) => items case _ => []
  }

  // ---------- what an event says ----------

  /** A piece of the conversation: running prose, a listing, or the final result, which ends
      the prose even when it carries no text. */
  datatype Item = Prose(text: Text) | Listing(text: Text) | Final(result: Option<Text>)

  /** "⚙ " in UTF-8. */
  const GEAR: Text := [0xe2, 0x9a, 0x99, 0x20]

  function AssistantBlockItems(codec: Codec, b: Json): seq<Item> {
    if Is(GetStr(b, "type"), "text") then
      match GetStr(b, "text") case Some(t) => [Prose(t + [LF])] case None => []
    else if Is(GetStr(b, "type"), "tool_use") then
      var name := match GetStr(b, "name") case Some(n) => n case None => Ascii("tool");
      var input := match Get(b, "input") case Some(i) => codec.pretty(i) case None => [];
      [Prose(GEAR + name + [LF])] + if input == [] then [] else [Listing(input + [LF])]
    else []
  }

  function ToolResultItems(codec: Codec, b: Json): seq<Item> {
    if Is(GetStr(b, "type"), "tool_result") then
      match Get(b, "content")
      case Some(Str(t)) => [Listing(t + [LF])]
      case Some(other) => [Listing(codec.pretty(other) + [LF])]
      case None => []
    else []
  }

  function AssistantItems(codec: Codec, content: seq<Json>): seq<Item> {
    if content == [] then [] else
    AssistantItems(codec, content[..|content| - 1]) + AssistantBlockItems(codec, content[|content| - 1])
  }

  function UserItems(codec: Codec, content: seq<Json>): seq<Item> {
    if content == [] then [] else
    UserItems(codec, content[..|content| - 1]) + ToolResultItems(codec, content[|content| - 1])
  }

  function EventItems(codec: Codec, v: Json): seq<Item> {
    var kind := GetStr(v, "type");
    if Is(kind, "assistant") then AssistantItems(codec, MessageContent(v))
    else if Is(kind, "user") then UserItems(codec, MessageContent(v))
    else if Is(kind, "result") then [Final(GetStr(v, "result"))]
    else []
  }

  /** ASCII white space, as `u8::is_ascii_whitespace` has it. */
  predicate Blank(line: Text) {
    forall i :: 0 <= i < |line| ==> line[i] in {0x20, 0x09, 0x0a, 0x0c, 0x0d}
  }

  function LineItems(codec: Codec, line: Text): seq<Item> {
    if Blank(line) then [] else
    match codec.parse(line)
    case Some(v) => EventItems(codec, v)
    case None => [Prose(Lossy(line) + [LF])]
  }

  function LinesItems(codec: Codec, lines: seq<Text>): seq<Item> {
    if lines == [] then [] else
    LinesItems(codec, lines[..|lines| - 1]) + LineItems(codec, lines[|lines| - 1])
  }

  /** The unterminated tail, read only at the end and dropped when it does not parse. */
  function TailItems(codec: Codec, tail: Text): seq<Item> {
    if tail == [] then [] else
    match codec.parse(tail) case Some(v) => EventItems(codec, v) case None => []
  }

  // ---------- commands ----------

  function CloseIf(open: bool): seq<Cmd> { if open then [Close] else [] }

  /** One item, given whether a prose block is open. */
  function Put(open: bool, item: Item): (bool, seq<Cmd>) {
    match item
    case Prose(t) => (true, (if open then [] else [Open(MarkdownKind)]) + [Write(t)])
    case Listing(t) => (false, CloseIf(open) + [Open(CodeKind), Write(t), Close])
    case Final(None) => (false, CloseIf(open))
    case Final(Some(t)) => (false, CloseIf(open) + [Open(MarkdownKind), Write(t + [LF]), Close])
  }

  function PutAll(open: bool, items: seq<Item>): (bool, seq<Cmd>)
    decreases |items|
  {
    if items == [] then (open, []) else
    var (mid, c1) := Put(open, items[0]);
    var (end, c2) := PutAll(mid, items[1..]);
    (end, c1 + c2)
  }

  lemma {:induction false} PutConcat(open: bool, a: seq<Item>, b: seq<Item>)
    ensures var (mid, c1) := PutAll(open, a); var (end, c2) := PutAll(mid, b);
            PutAll(open, a + b) == (end, c1 + c2)
    decreases |a|
  {
    if a == [] {
      assert a + b == b;
      assert [] + PutAll(open, b).1 == PutAll(open, b).1;
    } else {
      assert (a + b)[1..] == a[1..] + b;
      var (mid, c1) := Put(open, a[0]);
      PutConcat(mid, a[1..], b);
      var (end, c2) := PutAll(mid, a[1..]);
      Assoc(c1, c2, PutAll(end, b).1);
    }
  }

  lemma PutOne(open: bool, item: Item)
    ensures PutAll(open, [item]) == Put(open, item)
  {
    assert [item][1..] == [];
    assert Put(open, item).1 + [] == Put(open, item).1;
  }

  lemma PutBracketed(open: bool, item: Item)
    ensures Bracketed(open, Put(open, item).1) && OpenAfter(open, Put(open, item).1) == Put(open, item).0
  {
    match item
    case Prose(t) =>
      assert [Write(t)][1..] == [];
      assert Bracketed(true, [Write(t)]) && OpenAfter(true, [Write(t)]);
      BracketedConcat(open, if open then [] else [Open(MarkdownKind)], [Write(t)]);
    case Listing(t) =>
      WholeBlockBracketed(CodeKind, t);
      BracketedConcat(open, CloseIf(open), [Open(CodeKind), Write(t), Close]);
    case Final(None) =>
    case Final(Some(t)) =>
      WholeBlockBracketed(MarkdownKind, t + [LF]);
      BracketedConcat(open, CloseIf(open), [Open(MarkdownKind), Write(t + [LF]), Close]);
  }

  lemma WholeBlockBracketed(kind: BlockKind, text: Text)
    requires TextualKind(kind)
    ensures Bracketed(false, [Open(kind), Write(text), Close])
    ensures !OpenAfter(false, [Open(kind), Write(text), Close])
  {
    var cmds := [Open(kind), Write(text), Close];
    assert cmds[1..] == [Write(text), Close] && cmds[1..][1..] == [Close] && cmds[1..][1..][1..] == [];
    assert Bracketed(true, [Close]) && !OpenAfter(true, [Close]);
    assert Bracketed(true, cmds[1..]) && !OpenAfter(true, cmds[1..]);
  }

  lemma {:induction false} PutAllBracketed(open: bool, items: seq<Item>)
    ensures Bracketed(open, PutAll(open, items).1)
    ensures OpenAfter(open, PutAll(open, items).1) == PutAll(open, items).0
    decreases |items|
  {
    if items != [] {
      var (mid, c1) := Put(open, items[0]);
      PutBracketed(open, items[0]);
      PutAllBracketed(mid, items[1..]);
      BracketedConcat(open, c1, PutAll(mid, items[1..]).1);
    }
  }

  // ---------- feed and flush ----------

  function OneParsed(codec: Codec, line: Text): nat { if !Blank(line) && codec.parse(line).Some? then 1 else 0 }
  function OneFailed(codec: Codec, line: Text): nat { if !Blank(line) && codec.parse(line).None? then 1 else 0 }

  function CountParsed(codec: Codec, lines: seq<Text>): nat {
    if lines == [] then 0 else
    CountParsed(codec, lines[..|lines| - 1]) + OneParsed(codec, lines[|lines| - 1])
  }

  function CountFailed(codec: Codec, lines: seq<Text>): nat {
    if lines == [] then 0 else
    CountFailed(codec, lines[..|lines| - 1]) + OneFailed(codec, lines[|lines| - 1])
  }

  datatype State = State(buf: Text, open: bool, eventsOk: nat, parseErrors: nat)

  const START := State([], false, 0, 0)

  function Handle(codec: Codec, st: State, lines: seq<Text>, rest: Text): (State, seq<Cmd>) {
    Serve(st, LinesItems(codec, lines), CountParsed(codec, lines), CountFailed(codec, lines), rest)
  }

  /** Exactly the newline-terminated lines of the buffer and the new bytes are handled. */
  function Feed(codec: Codec, st: State, bytes: Text): (State, seq<Cmd>) {
    var p := Split(LF, st.buf + bytes);
    Handle(codec, st, p.ended, p.tail)
  }

  function Flush(codec: Codec, st: State): (State, seq<Cmd>) {
    var (open, cmds) := PutAll(st.open, TailItems(codec, st.buf));
    var ok := st.buf != [] && codec.parse(st.buf).Some?;
    (State([], false, st.eventsOk + (if ok then 1 else 0), st.parseErrors), cmds + CloseIf(open))
  }

  /** The document of a whole session: one run of feeds and one final flush. */
  function Derive(codec: Codec, s: Text): seq<Block> {
    var (st, cmds) := Feed(codec, START, s);
    Draw([], cmds + Flush(codec, st).1)
  }

  lemma LinesSnoc(codec: Codec, lines: seq<Text>, line: Text)
    ensures LinesItems(codec, lines + [line]) == LinesItems(codec, lines) + LineItems(codec, line)
    ensures CountParsed(codec, lines + [line]) == CountParsed(codec, lines) + OneParsed(codec, line)
    ensures CountFailed(codec, lines + [line]) == CountFailed(codec, lines) + OneFailed(codec, line)
  {
    assert (lines + [line])[..|lines|] == lines;
  }

  lemma {:induction false} LinesConcat(codec: Codec, a: seq<Text>, b: seq<Text>)
    ensures LinesItems(codec, a + b) == LinesItems(codec, a) + LinesItems(codec, b)
    ensures CountParsed(codec, a + b) == CountParsed(codec, a) + CountParsed(codec, b)
    ensures CountFailed(codec, a + b) == CountFailed(codec, a) + CountFailed(codec, b)
    decreases |b|
  {
    if b == [] {
      assert a + b == a;
      assert LinesItems(codec, a) + [] == LinesItems(codec, a);
    } else {
      var init, last := b[..|b| - 1], b[|b| - 1];
      assert a + b == (a + init) + [last];
      LinesConcat(codec, a, init);
      LinesSnoc(codec, a + init, last);
      Assoc(LinesItems(codec, a), LinesItems(codec, init), LineItems(codec, last));
    }
  }

  /** What a list of items, `ok` parsed lines and `failed` others do to a state. */
  function Serve(st: State, items: seq<Item>, ok: nat, failed: nat, rest: Text): (State, seq<Cmd>) {
    var (open, cmds) := PutAll(st.open, items);
    (State(rest, open, st.eventsOk + ok, st.parseErrors + failed), cmds)
  }

  lemma ServeConcat(st: State, a: seq<Item>, ok: nat, failed: nat, mid: Text,
                    b: seq<Item>, ok': nat, failed': nat, rest: Text)
    ensures var (st1, c1) := Serve(st, a, ok, failed, mid); var (st2, c2) := Serve(st1, b, ok', failed', rest);
            Serve(st, a + b, ok + ok', failed + failed', rest) == (st2, c1 + c2)
  {
    PutConcat(st.open, a, b);
  }

  lemma HandleServes(codec: Codec, st: State, lines: seq<Text>, items: seq<Item>, ok: nat, failed: nat, rest: Text)
    requires LinesItems(codec, lines) == items
    requires CountParsed(codec, lines) == ok && CountFailed(codec, lines) == failed
    ensures Handle(codec, st, lines, rest) == Serve(st, items, ok, failed, rest)
  {
  }

  lemma HandleConcat(codec: Codec, st: State, a: seq<Text>, mid: Text, b: seq<Text>, rest: Text)
    ensures var (st1, c1) := Handle(codec, st, a, mid); var (st2, c2) := Handle(codec, st1, b, rest);
            Handle(codec, st, a + b, rest) == (st2, c1 + c2)
  {
    hide PutAll, LinesItems, CountParsed, CountFailed;
    LinesConcat(codec, a, b);
    HandleServes(codec, st, a + b, LinesItems(codec, a) + LinesItems(codec, b), CountParsed(codec, a) + CountParsed(codec, b),
                 CountFailed(codec, a) + CountFailed(codec, b), rest);
    ServeConcat(st, LinesItems(codec, a), CountParsed(codec, a), CountFailed(codec, a), mid,
                LinesItems(codec, b), CountParsed(codec, b), CountFailed(codec, b), rest);
  }

  /** Framing does not depend on how the bytes are cut into feeds. */
  lemma FeedConcat(codec: Codec, st: State, a: Text, b: Text)
    ensures var mid := Feed(codec, st, a); var end := Feed(codec, mid.0, b);
            Feed(codec, st, a + b) == (end.0, mid.1 + end.1)
  {
    var p := Split(LF, st.buf + a);
    var q := Split(LF, p.tail + b);
    assert st.buf + (a + b) == (st.buf + a) + b;
    SplitResumes(LF, st.buf + a, b);
    HandleConcat(codec, st, p.ended, p.tail, q.ended, q.tail);
  }

  /** A feed leaves no newline in the buffer. */
  lemma BufferHasNoNewline(codec: Codec, st: State, bytes: Text)
    ensures Unbroken(LF, Feed(codec, st, bytes).0.buf)
  {
    PiecesUnbroken(LF, st.buf + bytes);
  }

  lemma FeedBracketed(codec: Codec, st: State, bytes: Text)
    ensures Bracketed(st.open, Feed(codec, st, bytes).1)
    ensures OpenAfter(st.open, Feed(codec, st, bytes).1) == Feed(codec, st, bytes).0.open
  {
    PutAllBracketed(st.open, LinesItems(codec, Split(LF, st.buf + bytes).ended));
  }

  lemma FlushBracketed(codec: Codec, st: State)
    ensures Bracketed(st.open, Flush(codec, st).1) && !OpenAfter(st.open, Flush(codec, st).1)
  {
    var (open, cmds) := PutAll(st.open, TailItems(codec, st.buf));
    PutAllBracketed(st.open, TailItems(codec, st.buf));
    BracketedConcat(st.open, cmds, CloseIf(open));
  }

  // ---------- the document, declaratively ----------

  function ProseRun(items: seq<Item>): (n: nat)
    ensures n <= |items|
    ensures forall i :: 0 <= i < n ==> items[i].Prose?
    ensures n < |items| ==> !items[n].Prose?
  {
    if items != [] && items[0].Prose? then 1 + ProseRun(items[1..]) else 0
  }

  function ProseText(items: seq<Item>): Text
    requires forall i :: 0 <= i < |items| ==> items[i].Prose?
  {
    if items == [] then [] else items[0].text + ProseText(items[1..])
  }

  /** Maximal runs of prose are one Markdown block each; listings and results are blocks of
      their own. */
  function Turns(items: seq<Item>): seq<Block>
    decreases |items|
  {
    if items == [] then []
    else match items[0]
      case Prose(_) =>
        var n := ProseRun(items);
        [Markdown(ProseText(items[..n]), true)] + Turns(items[n..])
      case Listing(t) => [Code(None, t, true)] + Turns(items[1..])
      case Final(Some(t)) => [Markdown(t + [LF], true)] + Turns(items[1..])
      case Final(None) => Turns(items[1..])
  }

  function AllItems(codec: Codec, s: Text): seq<Item> {
    LinesItems(codec, Split(LF, s).ended) + TailItems(codec, Split(LF, s).tail)
  }

  /** What `Turns` yields when a prose block with text `text` is open. */
  function ResumeTurns(open: bool, text: Text, items: seq<Item>): seq<Block> {
    if open then
      var n := ProseRun(items);
      [Markdown(text + ProseText(items[..n]), true)] + Turns(items[n..])
    else Turns(items)
  }

  function Begun(open: bool, text: Text): seq<Block> { if open then [Markdown(text, false)] else [] }
  function Ended(open: bool, text: Text): seq<Block> { if open then [Markdown(text, true)] else [] }

  lemma DrawCloseIf(done: seq<Block>, open: bool, text: Text)
    ensures Draw(done + Begun(open, text), CloseIf(open)) == done + Ended(open, text)
  {
    var blocks := done + Begun(open, text);
    assert open ==> blocks[..|blocks| - 1] == done;
    assert [Close][1..] == [];
  }

  lemma DrawWholeBlock(done: seq<Block>, kind: BlockKind, text: Text)
    requires kind == CodeKind || kind == MarkdownKind
    ensures Draw(done, [Open(kind), Write(text), Close]) ==
            done + [if kind == CodeKind then Code(None, text, true) else Markdown(text, true)]
  {
    var cmds := [Open(kind), Write(text), Close];
    assert cmds[1..] == [Write(text), Close] && cmds[1..][1..] == [Close] && cmds[1..][1..][1..] == [];
    var b1 := Draw1(done, cmds[0]);
    assert b1[..|done|] == done && [] + text == text;
    var b2 := Draw1(b1, cmds[1]);
    assert b2[..|done|] == done;
    assert Draw(b2, [Close]) == Draw1(b2, Close);
  }

  lemma DrawProse(done: seq<Block>, open: bool, text: Text, more: Text)
    ensures Draw(done + Begun(open, text), Put(open, Prose(more)).1) ==
            done + Begun(true, (if open then text else []) + more)
  {
    var blocks := done + Begun(open, text);
    if open {
      assert blocks[..|done|] == done;
      assert [Write(more)][1..] == [];
      assert [] + [Write(more)] == [Write(more)];
    } else {
      assert ([Open(MarkdownKind)] + [Write(more)])[1..] == [Write(more)] && [Write(more)][1..] == [];
      var begun := Draw1(blocks, Open(MarkdownKind));
      assert begun[..|done|] == done;
      assert begun == done + [Markdown([], false)];
      assert [] + more == more;
      assert Draw1(begun, Write(more)) == done + [Markdown(more, false)];
      DrawConcat(blocks, [Open(MarkdownKind)], [Write(more)]);
      assert Draw(blocks, [Open(MarkdownKind)]) == begun;
    }
  }

  lemma DrawBlock(done: seq<Block>, open: bool, text: Text, kind: BlockKind, whole: Text)
    requires kind == CodeKind || kind == MarkdownKind
    ensures Draw(done + Begun(open, text), CloseIf(open) + [Open(kind), Write(whole), Close]) ==
            done + Ended(open, text) + [if kind == CodeKind then Code(None, whole, true) else Markdown(whole, true)]
  {
    DrawConcat(done + Begun(open, text), CloseIf(open), [Open(kind), Write(whole), Close]);
    DrawCloseIf(done, open, text);
    DrawWholeBlock(done + Ended(open, text), kind, whole);
  }

  lemma ResumeProse(open: bool, text: Text, items: seq<Item>)
    requires items != [] && items[0].Prose?
    ensures ResumeTurns(open, text, items) ==
            ResumeTurns(true, (if open then text else []) + items[0].text, items[1..])
  {
    var n := ProseRun(items[1..]);
    var (t, u) := (items[0].text, ProseText(items[1..][..n]));
    assert items[..n + 1][1..] == items[1..][..n] && items[n + 1..] == items[1..][n..];
    assert text + (t + u) == (text + t) + u && [] + t == t;
  }

  lemma ResumeEnds(open: bool, text: Text, items: seq<Item>)
    requires items != [] ==> !items[0].Prose?
    ensures ResumeTurns(open, text, items) == Ended(open, text) + Turns(items)
  {
    if open {
      assert items[..0] == [] && items[0..] == items && text + [] == text;
    } else {
      assert [] + Turns(items) == Turns(items);
    }
  }

  lemma {:induction false} PutDrawsTurns(open: bool, text: Text, items: seq<Item>, done: seq<Block>)
    ensures var (end, cmds) := PutAll(open, items);
            Draw(done + Begun(open, text), cmds + CloseIf(end)) == done + ResumeTurns(open, text, items)
    decreases |items|
  {
    if items == [] {
      DrawCloseIf(done, open, text);
      ResumeEnds(open, text, items);
      assert [] + CloseIf(open) == CloseIf(open);
      assert Ended(open, text) + [] == Ended(open, text);
    } else {
      var (mid, c1) := Put(open, items[0]);
      var (end, c2) := PutAll(mid, items[1..]);
      assert (c1 + c2) + CloseIf(end) == c1 + (c2 + CloseIf(end));
      DrawConcat(done + Begun(open, text), c1, c2 + CloseIf(end));
      var done', text' := PutStep(open, text, items, done);
      PutDrawsTurns(mid, text', items[1..], done');
    }
  }

  /** The block an item is by itself. */
  function Whole(item: Item): seq<Block> {
    match item
    case Prose(_) => []
    case Listing(t) => [Code(None, t, true)]
    case Final(None) => []
    case Final(Some(t)) => [Markdown(t + [LF], true)]
  }

  lemma DrawOwnBlock(open: bool, text: Text, item: Item, done: seq<Block>)
    requires !item.Prose?
    ensures Draw(done + Begun(open, text), Put(open, item).1) == done + Ended(open, text) + Whole(item)
  {
    match item
    case Listing(t) => DrawBlock(done, open, text, CodeKind, t);
    case Final(Some(t)) => DrawBlock(done, open, text, MarkdownKind, t + [LF]);
    case Final(None) =>
      DrawCloseIf(done, open, text);
      assert done + Ended(open, text) + [] == done + Ended(open, text);
  }

  lemma TurnsOwnBlock(items: seq<Item>)
    requires items != [] && !items[0].Prose?
    ensures Turns(items) == Whole(items[0]) + Turns(items[1..])
  {
    assert [] + Turns(items[1..]) == Turns(items[1..]);
  }

  lemma ResumeOwnBlock(open: bool, text: Text, items: seq<Item>, done: seq<Block>)
    requires items != [] && !items[0].Prose?
    ensures done + ResumeTurns(open, text, items) ==
            (done + Ended(open, text) + Whole(items[0])) + Turns(items[1..])
  {
    ResumeEnds(open, text, items);
    TurnsOwnBlock(items);
    Regroup(done, Ended(open, text), Whole(items[0]), Turns(items[1..]));
  }

  lemma Regroup(a: seq<Block>, b: seq<Block>, c: seq<Block>, d: seq<Block>)
    ensures a + (b + (c + d)) == (a + b + c) + d
  {
  }

  lemma PutStep(open: bool, text: Text, items: seq<Item>, done: seq<Block>)
    returns (done': seq<Block>, text': Text)
    requires items != []
    ensures var (mid, cmds) := Put(open, items[0]);
            && Draw(done + Begun(open, text), cmds) == done' + Begun(mid, text')
            && done + ResumeTurns(open, text, items) == done' + ResumeTurns(mid, text', items[1..])
  {
    if items[0].Prose? {
      DrawProse(done, open, text, items[0].text);
      ResumeProse(open, text, items);
      done', text' := done, (if open then text else []) + items[0].text;
    } else {
      DrawOwnBlock(open, text, items[0], done);
      ResumeOwnBlock(open, text, items, done);
      done', text' := done + Ended(open, text) + Whole(items[0]), [];
      assert done' + [] == done';
    }
  }

  /** For every byte stream the adapter, flushed once at the end, gives exactly the turns of
      its newline-terminated lines and, if it parses, of the unterminated tail. */
  lemma AdapterRefines(codec: Codec, s: Text)
    ensures Derive(codec, s) == Turns(AllItems(codec, s))
  {
    hide PutAll, Draw, LinesItems, CountParsed, CountFailed, Turns, Split;
    var p := Split(LF, s);
    Unit(s);
    var (st, cmds) := Feed(codec, START, s);
    var a, b := LinesItems(codec, p.ended), TailItems(codec, p.tail);
    PutConcat(false, a, b);
    var (end, last) := PutAll(st.open, b);
    Assoc(cmds, last, CloseIf(end));
    PutDrawsTurns(false, [], a + b, []);
    Unit(Begun(false, []));
    Unit(Turns(a + b));
  }

  // ---------- when turns merge ----------

  /** Prose ends the one list and begins the other. */
  predicate Joint(a: seq<Item>, b: seq<Item>) {
    a != [] && b != [] && a[|a| - 1].Prose? && b[0].Prose?
  }

  lemma {:induction false} ProseRunConcat(a: seq<Item>, b: seq<Item>)
    ensures ProseRun(a + b) == if ProseRun(a) < |a| then ProseRun(a) else |a| + ProseRun(b)
    decreases |a|
  {
    if a == [] {
      assert a + b == b;
    } else {
      assert (a + b)[1..] == a[1..] + b;
      ProseRunConcat(a[1..], b);
    }
  }

  /** One block where prose meets prose, and otherwise the blocks of the two side by side. */
  lemma {:induction false} TurnsConcat(a: seq<Item>, b: seq<Item>)
    ensures if Joint(a, b) then |Turns(a + b)| + 1 == |Turns(a)| + |Turns(b)| else Turns(a + b) == Turns(a) + Turns(b)
    decreases |a|
  {
    if a == [] {
      Unit(b);
      Unit(Turns(b));
    } else if !a[0].Prose? {
      assert (a + b)[1..] == a[1..] + b;
      TurnsConcat(a[1..], b);
      TurnsOwnBlock(a);
      TurnsOwnBlock(a + b);
      Assoc(Whole(a[0]), Turns(a[1..]), Turns(b));
    } else {
      var n := ProseRun(a);
      FirstTurn(a);
      if n < |a| {
        FirstTurnInside(a, b);
        TurnsConcat(a[n..], b);
        Assoc([Markdown(ProseText(a[..n]), true)], Turns(a[n..]), Turns(b));
      } else if Joint(a, b) {
        FirstTurnWhole(a);
        FirstTurnGoesOn(a, b);
      } else {
        FirstTurnStops(a, b);
      }
    }
  }

  lemma FirstTurn(items: seq<Item>)
    requires items != [] && items[0].Prose?
    ensures var n := ProseRun(items);
            0 < n && Turns(items) == [Markdown(ProseText(items[..n]), true)] + Turns(items[n..])
  {
  }

  /** The first turn ends within the first list. */
  lemma FirstTurnInside(a: seq<Item>, b: seq<Item>)
    requires a != [] && a[0].Prose? && ProseRun(a) < |a|
    ensures var n := ProseRun(a);
            0 < n && Turns(a + b) == [Markdown(ProseText(a[..n]), true)] + Turns(a[n..] + b)
  {
    hide *;
    ProseRunConcat(a, b);
    FirstTurn(a);
    FirstTurn(a + b);
    CutInside(a, b, ProseRun(a));
  }

  lemma CutInside(a: seq<Item>, b: seq<Item>, n: nat)
    requires n <= |a|
    ensures (a + b)[..n] == a[..n] && (a + b)[n..] == a[n..] + b
  {
  }

  /** The first list is one turn. */
  lemma FirstTurnWhole(a: seq<Item>)
    requires a != [] && ProseRun(a) == |a|
    ensures |Turns(a)| == 1
  {
    FirstTurn(a);
    assert a[|a|..] == [];
    assert Turns([]) == [];
  }

  lemma TurnsAfterFirst(items: seq<Item>)
    requires items != [] && items[0].Prose?
    ensures |Turns(items)| == 1 + |Turns(items[ProseRun(items)..])|
  {
    FirstTurn(items);
  }

  lemma DropPast(a: seq<Item>, b: seq<Item>, m: nat)
    requires m <= |b|
    ensures (a + b)[|a| + m..] == b[m..]
  {
  }

  lemma FirstTurnGoesOn(a: seq<Item>, b: seq<Item>)
    requires a != [] && ProseRun(a) == |a| && b != [] && b[0].Prose?
    ensures |Turns(a + b)| == |Turns(b)|
  {
    hide *;
    ProseRunConcat(a, b);
    TurnsAfterFirst(a + b);
    TurnsAfterFirst(b);
    DropPast(a, b, ProseRun(b));
  }

  lemma FirstTurnStops(a: seq<Item>, b: seq<Item>)
    requires a != [] && ProseRun(a) == |a| && (b == [] || !b[0].Prose?)
    ensures Turns(a + b) == Turns(a) + Turns(b)
  {
    var n := |a|;
    assert ProseRun(b) == 0 && Turns([]) == [];
    ProseRunConcat(a, b);
    FirstTurn(a);
    FirstTurn(a + b);
    hide Turns, ProseRun, ProseText;
    assert (a + b)[..n] == a[..n] && (a + b)[n..] == b && a[n..] == [];
    Unit([Markdown(ProseText(a[..n]), true)]);
  }

  /** The turns of two lists stay apart exactly when prose does not meet prose. */
  lemma TurnsStayApart(a: seq<Item>, b: seq<Item>)
    ensures Turns(a + b) == Turns(a) + Turns(b) <==> !Joint(a, b)
  {
    TurnsConcat(a, b);
  }

  lemma LinesThen(codec: Codec, s: Text, more: Text)
    requires Split(LF, s).tail == []
    ensures AllItems(codec, s + more) == AllItems(codec, s) + AllItems(codec, more)
  {
    var p, q := Split(LF, s), Split(LF, more);
    assert TailItems(codec, p.tail) == [];
    hide LinesItems, TailItems, Split;
    SplitResumes(LF, s, more);
    Unit(more);
    LinesConcat(codec, p.ended, q.ended);
    Unit(LinesItems(codec, p.ended));
    Assoc(LinesItems(codec, p.ended), LinesItems(codec, q.ended), TailItems(codec, q.tail));
  }

  /** After any terminated lines, further output gives the blocks it would give by itself
      exactly when prose does not meet prose. */
  lemma OutputStaysApart(codec: Codec, s: Text, more: Text)
    requires Split(LF, s).tail == []
    ensures Derive(codec, s + more) == Derive(codec, s) + Derive(codec, more) <==>
            !Joint(AllItems(codec, s), AllItems(codec, more))
  {
    AdapterRefines(codec, s);
    AdapterRefines(codec, more);
    AdapterRefines(codec, s + more);
    LinesThen(codec, s, more);
    TurnsStayApart(AllItems(codec, s), AllItems(codec, more));
  }

  lemma OneLineItems(codec: Codec, line: Text, v: Json)
    requires Unbroken(LF, line) && !Blank(line) && codec.parse(line) == Some(v)
    ensures AllItems(codec, line + [LF]) == EventItems(codec, v)
    ensures Split(LF, line + [LF]).tail == []
  {
    AnyLineItems(codec, line);
  }

  /** Two events, one line each, are separate exactly when the first does not end in prose or
      the second does not begin with it. */
  lemma EventsStayApart(codec: Codec, line1: Text, line2: Text, v1: Json, v2: Json)
    requires Unbroken(LF, line1) && !Blank(line1) && codec.parse(line1) == Some(v1)
    requires Unbroken(LF, line2) && !Blank(line2) && codec.parse(line2) == Some(v2)
    ensures Derive(codec, (line1 + [LF]) + (line2 + [LF])) == Derive(codec, line1 + [LF]) + Derive(codec, line2 + [LF]) <==>
            !Joint(EventItems(codec, v1), EventItems(codec, v2))
  {
    OneLineItems(codec, line1, v1);
    OneLineItems(codec, line2, v2);
    OutputStaysApart(codec, line1 + [LF], line2 + [LF]);
  }

  // ---------- a whole list of lines ----------

  /** All the items of some lists, and the turns of each list by itself. */
  function AllOf(lists: seq<seq<Item>>): seq<Item> {
    if lists == [] then [] else AllOf(lists[..|lists| - 1]) + lists[|lists| - 1]
  }

  function EachAlone(lists: seq<seq<Item>>): seq<Block> {
    if lists == [] then [] else EachAlone(lists[..|lists| - 1]) + Turns(lists[|lists| - 1])
  }

  /** List `i` ends in prose, and the next list that is not empty, `j`, begins with it. */
  ghost predicate Meets(lists: seq<seq<Item>>, i: nat, j: nat)
    requires i < j < |lists|
  {
    Joint(lists[i], lists[j]) && forall m :: i < m < j ==> lists[m] == []
  }

  ghost predicate Apart(lists: seq<seq<Item>>) {
    forall i: nat, j: nat :: i < j < |lists| ==> !Meets(lists, i, j)
  }

  /** Where the last item of some lists comes from. */
  lemma {:induction false} LastList(lists: seq<seq<Item>>) returns (i: nat)
    requires AllOf(lists) != []
    ensures i < |lists| && lists[i] != [] && (forall m :: i < m < |lists| ==> lists[m] == [])
    ensures AllOf(lists)[|AllOf(lists)| - 1] == lists[i][|lists[i]| - 1]
    decreases |lists|
  {
    var init, last := lists[..|lists| - 1], lists[|lists| - 1];
    if last != [] {
      i := |lists| - 1;
    } else {
      Unit(AllOf(init));
      i := LastList(init);
    }
  }

  lemma {:induction false} LastIs(lists: seq<seq<Item>>, i: nat)
    requires i < |lists| && lists[i] != [] && (forall m :: i < m < |lists| ==> lists[m] == [])
    ensures AllOf(lists) != [] && AllOf(lists)[|AllOf(lists)| - 1] == lists[i][|lists[i]| - 1]
    decreases |lists|
  {
    if i < |lists| - 1 {
      LastIs(lists[..|lists| - 1], i);
    }
  }

  lemma MeetsBefore(init: seq<seq<Item>>, last: seq<Item>, i: nat, j: nat)
    requires i < j < |init|
    ensures Meets(init + [last], i, j) <==> Meets(init, i, j)
  {
    hide Joint;
    assert forall m :: i <= m <= j ==> (init + [last])[m] == init[m];
  }

  lemma MeetsLast(init: seq<seq<Item>>, last: seq<Item>, i: nat)
    requires i < |init| && Meets(init + [last], i, |init|)
    ensures Joint(AllOf(init), last)
  {
    assert forall m :: 0 <= m < |init| ==> (init + [last])[m] == init[m];
    LastIs(init, i);
  }

  lemma JointMeets(init: seq<seq<Item>>, last: seq<Item>) returns (i: nat)
    requires Joint(AllOf(init), last)
    ensures i < |init| && Meets(init + [last], i, |init|)
  {
    i := LastList(init);
    hide AllOf;
    assert forall m :: 0 <= m < |init| ==> (init + [last])[m] == init[m];
  }

  lemma ApartSnoc(init: seq<seq<Item>>, last: seq<Item>)
    ensures Apart(init + [last]) <==> Apart(init) && !Joint(AllOf(init), last)
  {
    hide Joint, AllOf, Meets;
    var lists := init + [last];
    forall i: nat, j: nat | i < j < |init| ensures Meets(lists, i, j) <==> Meets(init, i, j) {
      MeetsBefore(init, last, i, j);
    }
    if Joint(AllOf(init), last) {
      var i := JointMeets(init, last);
    } else {
      forall i: nat | i < |init| ensures !Meets(lists, i, |init|) {
        if Meets(lists, i, |init|) {
          MeetsLast(init, last, i);
        }
      }
    }
  }

  /** The turns of some lists together are those of each alone exactly when prose nowhere
      meets prose; otherwise they are fewer. */
  lemma {:induction false} ListsStayApart(lists: seq<seq<Item>>)
    ensures |Turns(AllOf(lists))| <= |EachAlone(lists)|
    ensures Turns(AllOf(lists)) == EachAlone(lists) <==> Apart(lists)
    decreases |lists|
  {
    if lists != [] {
      var init, last := lists[..|lists| - 1], lists[|lists| - 1];
      assert lists == init + [last];
      ListsStayApart(init);
      ApartSnoc(init, last);
      TurnsConcat(AllOf(init), last);
      hide Turns, Apart, Joint;
      SameEnds(Turns(AllOf(init)), EachAlone(init), Turns(last));
    }
  }

  lemma SameEnds(a: seq<Block>, b: seq<Block>, c: seq<Block>)
    ensures a + c == b + c <==> a == b
  {
    if a + c == b + c {
      assert a == (a + c)[..|a|] && b == (b + c)[..|b|];
    }
  }

  /** What each line says. */
  function Said(codec: Codec, lines: seq<Text>): (r: seq<seq<Item>>)
    ensures |r| == |lines|
    ensures forall i :: 0 <= i < |r| ==> r[i] == LineItems(codec, lines[i])
  {
    seq(|lines|, i requires 0 <= i < |lines| => LineItems(codec, lines[i]))
  }

  /** The documents of the lines, each by itself. */
  function AloneDocuments(codec: Codec, lines: seq<Text>): seq<Block> {
    if lines == [] then [] else
    AloneDocuments(codec, lines[..|lines| - 1]) + Derive(codec, lines[|lines| - 1] + [LF])
  }

  lemma {:induction false} SaidTogether(codec: Codec, lines: seq<Text>)
    requires forall i :: 0 <= i < |lines| ==> Unbroken(LF, lines[i])
    ensures AllOf(Said(codec, lines)) == LinesItems(codec, lines)
    ensures EachAlone(Said(codec, lines)) == AloneDocuments(codec, lines)
    decreases |lines|
  {
    if lines != [] {
      var init, last := lines[..|lines| - 1], lines[|lines| - 1];
      SaidTogether(codec, init);
      assert Said(codec, lines)[..|init|] == Said(codec, init);
      AnyLineItems(codec, last);
      AdapterRefines(codec, last + [LF]);
      hide Turns, Derive, LineItems;
    }
  }

  /** One terminated line, of whatever kind. */
  lemma AnyLineItems(codec: Codec, line: Text)
    requires Unbroken(LF, line)
    ensures AllItems(codec, line + [LF]) == LineItems(codec, line)
    ensures Split(LF, line + [LF]).tail == []
  {
    SplitUnbroken(LF, line);
    SplitSnoc(LF, line, LF);
    Unit([line]);
    assert Split(LF, line + [LF]) == Pieces([line], []);
    assert [line][..0] == [] && LinesItems(codec, []) == [];
    Unit(LineItems(codec, line));
  }

  /** For every list of lines, parsed or not: the document is the lines' own documents one
      after the other exactly when no line ends in prose while the next line that says
      anything begins with it. */
  lemma LinesStayApart(codec: Codec, lines: seq<Text>)
    requires forall i :: 0 <= i < |lines| ==> Unbroken(LF, lines[i])
    ensures Derive(codec, Rejoin(LF, lines)) == AloneDocuments(codec, lines) <==> Apart(Said(codec, lines))
  {
    AdapterRefines(codec, Rejoin(LF, lines));
    RejoinSplits(LF, lines);
    assert TailItems(codec, []) == [];
    Unit(LinesItems(codec, lines));
    hide *;
    SaidTogether(codec, lines);
    ListsStayApart(Said(codec, lines));
    AllItemsOf(codec, lines);
  }

  lemma AllItemsOf(codec: Codec, lines: seq<Text>)
    requires forall i :: 0 <= i < |lines| ==> Unbroken(LF, lines[i])
    ensures AllItems(codec, Rejoin(LF, lines)) == LinesItems(codec, lines)
  {
    hide LinesItems;
    RejoinSplits(LF, lines);
    Unit(LinesItems(codec, lines));
  }

  /** An assistant event with this content. */
  function AssistantEvent(content: seq<Json>): Json {
    Object(map[Ascii("type") := Str(Ascii("assistant")),
               Ascii("message") := Object(map[Ascii("content") := Array(content)])])
  }

  lemma AssistantEventItems(codec: Codec, content: seq<Json>)
    ensures EventItems(codec, AssistantEvent(content)) == AssistantItems(codec, content)
  {
    hide AssistantItems, UserItems;
    assert Ascii("type")[0] != Ascii("message")[0];
    assert MessageContent(AssistantEvent(content)) == content;
  }

  function AssistantSays(text: Text): Json { AssistantEvent([TextBlock(text)]) }

  lemma AssistantSaysProse(codec: Codec, text: Text)
    ensures EventItems(codec, AssistantSays(text)) == [Prose(text + [LF])]
  {
    AssistantEventItems(codec, [TextBlock(text)]);
    TextBlockSays(codec, text);
    assert [TextBlock(text)][..0] == [] && AssistantItems(codec, []) == [];
    Unit([Prose(text + [LF])]);
  }

  /** The concrete case: two assistant turns, one Markdown block. */
  lemma AssistantTurnsMerge(codec: Codec, line1: Text, line2: Text, text1: Text, text2: Text)
    requires Unbroken(LF, line1) && !Blank(line1) && codec.parse(line1) == Some(AssistantSays(text1))
    requires Unbroken(LF, line2) && !Blank(line2) && codec.parse(line2) == Some(AssistantSays(text2))
    ensures Derive(codec, (line1 + [LF]) + (line2 + [LF])) ==
            [Markdown((text1 + [LF]) + (text2 + [LF]), true)]
  {
    OneLineItems(codec, line1, AssistantSays(text1));
    OneLineItems(codec, line2, AssistantSays(text2));
    AssistantSaysProse(codec, text1);
    AssistantSaysProse(codec, text2);
    LinesThen(codec, line1 + [LF], line2 + [LF]);
    AdapterRefines(codec, (line1 + [LF]) + (line2 + [LF]));
    TwoProse(text1 + [LF], text2 + [LF]);
  }

  lemma TwoProse(a: Text, b: Text)
    ensures Turns([Prose(a)] + [Prose(b)]) == [Markdown(a + b, true)]
  {
    var items := [Prose(a)] + [Prose(b)];
    assert items[1..] == [Prose(b)] && items[1..][1..] == [];
    assert ProseRun(items) == 2 && items[..2] == items && items[2..] == [];
    Unit(b);
    assert ProseText([Prose(b)]) == b;
    assert ProseText(items) == a + b;
  }

  // ---------- one event alone ----------

  function Markdowns(blocks: seq<Block>): nat {
    if blocks == [] then 0 else (if blocks[0].Markdown? then 1 else 0) + Markdowns(blocks[1..])
  }

  lemma MarkdownsFirst(b: Block, blocks: seq<Block>)
    ensures Markdowns([b] + blocks) == (if b.Markdown? then 1 else 0) + Markdowns(blocks)
  {
    assert ([b] + blocks)[1..] == blocks;
  }

  ghost predicate NoFinal(items: seq<Item>) { forall i :: 0 <= i < |items| ==> !items[i].Final? }

  ghost predicate NoProse(items: seq<Item>) { forall i :: 0 <= i < |items| ==> !items[i].Prose? }

  /** No prose comes after a listing. */
  ghost predicate ProseFirst(items: seq<Item>) {
    forall i, k :: 0 <= i < k < |items| && items[i].Listing? ==> !items[k].Prose?
  }

  lemma {:induction false} ListingsOnly(items: seq<Item>)
    requires NoFinal(items)
    ensures Markdowns(Turns(items)) == 0 <==> NoProse(items)
    decreases |items|
  {
    if items != [] {
      if items[0].Prose? {
        FirstTurn(items);
        MarkdownsFirst(Markdown(ProseText(items[..ProseRun(items)]), true), Turns(items[ProseRun(items)..]));
      } else {
        ListingsOnly(items[1..]);
        TurnsOwnBlock(items);
        MarkdownsFirst(Code(None, items[0].text, true), Turns(items[1..]));
        assert NoProse(items) <==> NoProse(items[1..]);
      }
    }
  }

  lemma NoFinalRest(items: seq<Item>, n: nat)
    requires NoFinal(items) && n <= |items|
    ensures NoFinal(items[n..])
  {
  }

  /** Items that begin with prose make one Markdown block exactly when no prose follows a
      listing. */
  lemma OneMarkdown(items: seq<Item>)
    requires NoFinal(items) && items != [] && items[0].Prose?
    ensures Markdowns(Turns(items)) == 1 <==> ProseFirst(items)
  {
    var n := ProseRun(items);
    FirstTurn(items);
    NoFinalRest(items, n);
    ListingsOnly(items[n..]);
    MarkdownsFirst(Markdown(ProseText(items[..n]), true), Turns(items[n..]));
    hide *;
    ProseFirstRest(items, n);
  }

  /** After the first run, which only a listing ends, prose is prose after a listing. */
  lemma ProseFirstRest(items: seq<Item>, n: nat)
    requires NoFinal(items) && n <= |items|
    requires forall i :: 0 <= i < n ==> items[i].Prose?
    requires n < |items| ==> !items[n].Prose?
    ensures NoProse(items[n..]) <==> ProseFirst(items)
  {
    if NoProse(items[n..]) {
      forall k | n <= k < |items| ensures !items[k].Prose? {
        assert items[n..][k - n] == items[k];
      }
    } else {
      var k :| 0 <= k < |items[n..]| && items[n..][k].Prose?;
      assert items[n + k].Prose? && items[n].Listing?;
    }
  }

  /** An assistant message says only prose and listings, prose first. */
  lemma {:induction false} AssistantTalks(codec: Codec, content: seq<Json>)
    ensures NoFinal(AssistantItems(codec, content))
    ensures AssistantItems(codec, content) != [] ==> AssistantItems(codec, content)[0].Prose?
    decreases |content|
  {
    if content != [] {
      AssistantTalks(codec, content[..|content| - 1]);
    }
  }

  /** One assistant event gives exactly one Markdown block exactly when it says something and
      says no prose after a listing. */
  lemma AssistantOneMarkdown(codec: Codec, line: Text, v: Json)
    requires Unbroken(LF, line) && !Blank(line) && codec.parse(line) == Some(v)
    requires Is(GetStr(v, "type"), "assistant")
    ensures Markdowns(Derive(codec, line + [LF])) == 1 <==> EventItems(codec, v) != [] && ProseFirst(EventItems(codec, v))
  {
    OneLineItems(codec, line, v);
    AdapterRefines(codec, line + [LF]);
    AssistantTalks(codec, MessageContent(v));
    var items := EventItems(codec, v);
    assert items == AssistantItems(codec, MessageContent(v));
    if items != [] {
      OneMarkdown(items);
    }
  }

  function TextBlock(text: Text): Json {
    Object(map[Ascii("type") := Str(Ascii("text")), Ascii("text") := Str(text)])
  }

  function ToolUse(name: Text, input: Json): Json {
    Object(map[Ascii("type") := Str(Ascii("tool_use")), Ascii("name") := Str(name), Ascii("input") := input])
  }

  lemma TextBlockSays(codec: Codec, text: Text)
    ensures AssistantBlockItems(codec, TextBlock(text)) == [Prose(text + [LF])]
  {
    assert Ascii("type")[1] != Ascii("text")[1];
  }

  lemma ToolUseSays(codec: Codec, name: Text, input: Json)
    requires codec.pretty(input) != []
    ensures AssistantBlockItems(codec, ToolUse(name, input)) ==
            [Prose(GEAR + name + [LF])] + [Listing(codec.pretty(input) + [LF])]
  {
    var b := ToolUse(name, input);
    assert Ascii("type")[0] != Ascii("name")[0] && |Ascii("input")| == 5;
    assert |Ascii("tool_use")| == 8 && |Ascii("text")| == 4;
    assert GetStr(b, "type") == Some(Ascii("tool_use")) && GetStr(b, "name") == Some(name);
  }

  lemma AssistantSnoc(codec: Codec, content: seq<Json>, b: Json)
    ensures AssistantItems(codec, content + [b]) == AssistantItems(codec, content) + AssistantBlockItems(codec, b)
  {
    assert (content + [b])[..|content|] == content;
  }

  lemma TextToolTextTurns(codec: Codec, before: Text, name: Text, input: Json, later: Text)
    requires codec.pretty(input) != []
    ensures var content := [] + [TextBlock(before)] + [ToolUse(name, input)] + [TextBlock(later)];
            var blocks := Turns(AssistantItems(codec, content));
            && blocks == [Markdown((before + [LF]) + (GEAR + name + [LF]), true)]
                         + ([Code(None, codec.pretty(input) + [LF], true)] + [Markdown(later + [LF], true)])
            && Markdowns(blocks) == 2
  {
    var (a, b, c, d) := (Prose(before + [LF]), Prose(GEAR + name + [LF]), Listing(codec.pretty(input) + [LF]), Prose(later + [LF]));
    TextBlockSays(codec, before);
    ToolUseSays(codec, name, input);
    TextBlockSays(codec, later);
    AssistantSnoc(codec, [], TextBlock(before));
    AssistantSnoc(codec, [] + [TextBlock(before)], ToolUse(name, input));
    AssistantSnoc(codec, [] + [TextBlock(before)] + [ToolUse(name, input)], TextBlock(later));
    assert AssistantItems(codec, []) == [];
    hide *;
    SplitTurn(a.text, b.text, c.text, d.text);
    Unit([a]);
    RegroupFour([a], [b], [c], [d]);
  }

  /** The concrete case: text, a tool use with input, text. One message, two Markdown blocks. */
  lemma ToolUseSplitsTurn(codec: Codec, line: Text, before: Text, name: Text, input: Json, later: Text)
    requires codec.pretty(input) != [] && Unbroken(LF, line) && !Blank(line)
    requires codec.parse(line) ==
             Some(AssistantEvent([] + [TextBlock(before)] + [ToolUse(name, input)] + [TextBlock(later)]))
    ensures Derive(codec, line + [LF]) ==
            [Markdown((before + [LF]) + (GEAR + name + [LF]), true)]
            + ([Code(None, codec.pretty(input) + [LF], true)] + [Markdown(later + [LF], true)])
    ensures Markdowns(Derive(codec, line + [LF])) == 2
  {
    var content := [] + [TextBlock(before)] + [ToolUse(name, input)] + [TextBlock(later)];
    hide *;
    OneLineItems(codec, line, AssistantEvent(content));
    AdapterRefines(codec, line + [LF]);
    AssistantEventItems(codec, content);
    TextToolTextTurns(codec, before, name, input, later);
  }

  lemma RegroupFour(a: seq<Item>, b: seq<Item>, c: seq<Item>, d: seq<Item>)
    ensures (a + (b + c)) + d == (a + b) + (c + d)
  {
  }

  lemma SplitTurn(a: Text, b: Text, c: Text, d: Text)
    ensures var blocks := Turns(([Prose(a)] + [Prose(b)]) + ([Listing(c)] + [Prose(d)]));
            && blocks == [Markdown(a + b, true)] + ([Code(None, c, true)] + [Markdown(d, true)])
            && Markdowns(blocks) == 2
  {
    TwoProse(a, b);
    TurnsConcat([Prose(a)] + [Prose(b)], [Listing(c)] + [Prose(d)]);
    var rest := [Listing(c)] + [Prose(d)];
    TurnsOwnBlock(rest);
    assert rest[1..] == [Prose(d)];
    OneProse(d);
    MarkdownsFirst(Markdown(a + b, true), [Code(None, c, true)] + [Markdown(d, true)]);
    MarkdownsFirst(Code(None, c, true), [Markdown(d, true)]);
    assert [Markdown(d, true)][1..] == [];
  }

  lemma OneProse(d: Text)
    ensures Turns([Prose(d)]) == [Markdown(d, true)]
  {
    var items := [Prose(d)];
    assert items[1..] == [] && items[..1] == items && ProseRun(items) == 1;
    assert ProseText([]) == [] && Turns([]) == [];
    FirstTurn(items);
    Unit(d);
    Unit([Markdown(d, true)]);
  }

  // ---------- nothing terminated is lost ----------

  ghost predicate Contains(text: Text, part: Text) {
    exists k :: 0 <= k <= |text| && part <= text[k..]
  }

  ghost predicate Shown(blocks: seq<Block>, part: Text) {
    exists j :: 0 <= j < |blocks| && blocks[j].Markdown? && Contains(blocks[j].text, part)
  }

  lemma {:induction false} ProseContains(items: seq<Item>, i: nat)
    requires forall k :: 0 <= k < |items| ==> items[k].Prose?
    requires i < |items|
    ensures Contains(ProseText(items), items[i].text)
    decreases |items|
  {
    var all, head, rest := ProseText(items), items[0].text, ProseText(items[1..]);
    if i == 0 {
      assert head <= all[0..];
    } else {
      ProseContains(items[1..], i - 1);
      var part := items[i].text;
      var k :| 0 <= k <= |rest| && part <= rest[k..];
      assert all[|head| + k..] == rest[k..];
    }
  }

  lemma ShownLater(b: seq<Block>, blocks: seq<Block>, part: Text)
    requires Shown(blocks, part)
    ensures Shown(b + blocks, part)
  {
    var j :| 0 <= j < |blocks| && blocks[j].Markdown? && Contains(blocks[j].text, part);
    assert (b + blocks)[|b| + j] == blocks[j];
  }

  lemma {:induction false} ProseShown(items: seq<Item>, i: nat)
    requires i < |items| && items[i].Prose?
    ensures Shown(Turns(items), items[i].text)
    decreases |items|
  {
    if items[0].Prose? {
      var n := ProseRun(items);
      if i < n {
        ProseContains(items[..n], i);
        assert Turns(items)[0] == Markdown(ProseText(items[..n]), true);
      } else {
        ProseShown(items[n..], i - n);
        ShownLater([Markdown(ProseText(items[..n]), true)], Turns(items[n..]), items[i].text);
      }
    } else {
      ProseShown(items[1..], i - 1);
      if items[0] != Final(None) {
        ShownLater(Turns(items)[..1], Turns(items[1..]), items[i].text);
        assert Turns(items)[..1] + Turns(items[1..]) == Turns(items);
      }
    }
  }

  lemma {:induction false} LineItemKept(codec: Codec, lines: seq<Text>, i: nat) returns (k: nat)
    requires i < |lines| && !Blank(lines[i]) && codec.parse(lines[i]).None?
    ensures k < |LinesItems(codec, lines)|
    ensures LinesItems(codec, lines)[k] == Prose(Lossy(lines[i]) + [LF])
    decreases |lines|
  {
    var init := lines[..|lines| - 1];
    if i == |init| {
      k := |LinesItems(codec, init)|;
    } else {
      k := LineItemKept(codec, init, i);
    }
  }

  /** Every non-blank newline-terminated line that fails to parse appears in full, with its
      newline, in some Markdown block. */
  lemma UnparsedLinesShown(codec: Codec, s: Text, i: nat)
    requires i < |Split(LF, s).ended|
    requires !Blank(Split(LF, s).ended[i]) && codec.parse(Split(LF, s).ended[i]).None?
    ensures Shown(Derive(codec, s), Lossy(Split(LF, s).ended[i]) + [LF])
  {
    AdapterRefines(codec, s);
    var lines := Split(LF, s).ended;
    var k := LineItemKept(codec, lines, i);
    assert AllItems(codec, s)[k] == LinesItems(codec, lines)[k];
    ProseShown(AllItems(codec, s), k);
  }

  lemma UnterminatedSplit(s: Text, line: Text)
    requires Split(LF, s).tail == [] && Unbroken(LF, line)
    ensures Split(LF, s + line) == Pieces(Split(LF, s).ended, line)
    ensures Split(LF, s + line + [LF]) == Pieces(Split(LF, s).ended + [line], [])
  {
    SplitResumes(LF, s, line);
    SplitUnbroken(LF, line);
    Unit(line);
    Unit(Split(LF, s).ended);
    SplitSnoc(LF, s + line, LF);
  }

  /** A last line that fails to parse counts only once it is terminated: without its newline
      it leaves no trace in the document. */
  lemma UnterminatedTailIsDropped(codec: Codec, s: Text, line: Text)
    requires Split(LF, s).tail == [] && Unbroken(LF, line)
    requires !Blank(line) && codec.parse(line).None?
    ensures Derive(codec, s + line) == Derive(codec, s)
    ensures Shown(Derive(codec, s + line + [LF]), Lossy(line) + [LF])
  {
    UnterminatedSplit(s, line);
    var p := Split(LF, s);
    AdapterRefines(codec, s);
    AdapterRefines(codec, s + line);
    Unit(LinesItems(codec, p.ended));
    UnparsedLinesShown(codec, s + line + [LF], |p.ended|);
  }

  // ---------- the adapter ----------

  class ClaudeCodeAdapter {
    const codec: Codec
    var buf: Text
    var textBlock: Option<nat>
    var eventsOk: nat
    var parseErrors: nat

    ghost function Value(): State
      reads this
    {
      State(buf, textBlock.Some?, eventsOk, parseErrors)
    }

    /** The open prose block is the last one of the sink's log. */
    ghost predicate Linked(sink: BlockSink)
      reads this, sink, sink.log
    {
      && sink.Valid()
      && (textBlock.Some? ==> sink.log.blocks != [] && textBlock.value == LastId(sink.log.Value()))
    }

    constructor (codec: Codec)
      ensures Value() == START && textBlock.None? && this.codec == codec
    {
      this.codec := codec;
      buf, textBlock, eventsOk, parseErrors := [], None, 0, 0;
    }

    method CloseText(sink: BlockSink)
      requires Linked(sink)
      modifies this`textBlock, sink, sink.log
      ensures Linked(sink) && textBlock.None?
      ensures sink.Value() == Perform(old(sink.Value()), CloseIf(old(textBlock.Some?)))
    {
      hide Exec, BlockLog.Valid;
      PerformOne(sink.Value(), Close);
      PerformNone(sink.Value());
      if textBlock.Some? {
        sink.Finalize(textBlock.value);
        textBlock := None;
      }
    }

    method PushMarkdown(text: Text, sink: BlockSink)
      requires Linked(sink)
      modifies this`textBlock, sink, sink.log
      ensures Linked(sink) && textBlock.Some?
      ensures sink.Value() == Perform(old(sink.Value()), Put(old(textBlock.Some?), Prose(text)).1)
    {
      hide Exec, BlockLog.Valid;
      ghost var before, opening := sink.Value(), if textBlock.Some? then [] else [Open(MarkdownKind)];
      PerformNone(before);
      PerformOne(before, Open(MarkdownKind));
      PerformConcat(before, opening, [Write(text)]);
      if textBlock.None? {
        var id := sink.Append(MarkdownKind);
        textBlock := Some(id);
      }
      PerformOne(sink.Value(), Write(text));
      sink.Patch(textBlock.value, AppendText(text));
    }

    /** A block of its own: append, patch, finalize. */
    method PushWhole(kind: BlockKind, text: Text, sink: BlockSink)
      requires Linked(sink) && textBlock.None?
      modifies sink, sink.log
      ensures Linked(sink)
      ensures sink.Value() == Perform(old(sink.Value()), [Open(kind), Write(text), Close])
    {
      hide Exec, BlockLog.Valid;
      ghost var before := sink.Value();
      PerformOne(before, Open(kind));
      var id := sink.Append(kind);
      PerformOne(sink.Value(), Write(text));
      sink.Patch(id, AppendText(text));
      PerformOne(sink.Value(), Close);
      sink.Finalize(id);
      PerformThree(before, Open(kind), Write(text), Close);
    }

    method PushCode(text: Text, sink: BlockSink)
      requires Linked(sink)
      modifies this`textBlock, sink, sink.log
      ensures Linked(sink) && textBlock.None?
      ensures sink.Value() == Perform(old(sink.Value()), Put(old(textBlock.Some?), Listing(text)).1)
    {
      hide Exec, BlockLog.Valid;
      PerformConcat(sink.Value(), CloseIf(textBlock.Some?), [Open(CodeKind), Write(text), Close]);
      CloseText(sink);
      PushWhole(CodeKind, text, sink);
    }

    method HandleResult(v: Json, sink: BlockSink)
      requires Linked(sink)
      modifies this`textBlock, sink, sink.log
      ensures Linked(sink) && textBlock.None?
      ensures sink.Value() == Perform(old(sink.Value()), Put(old(textBlock.Some?), Final(GetStr(v, "result"))).1)
    {
      hide Exec, Step, BlockLog.Valid;
      ghost var before, closing := sink.Value(), CloseIf(textBlock.Some?);
      CloseText(sink);
      var result := GetStr(v, "result");
      if result.Some? {
        PushWhole(MarkdownKind, result.value + [LF], sink);
        PerformConcat(before, closing, [Open(MarkdownKind), Write(result.value + [LF]), Close]);
      }
    }

    method HandleAssistantBlock(b: Json, sink: BlockSink)
      requires Linked(sink)
      modifies this`textBlock, sink, sink.log
      ensures Linked(sink)
      ensures (textBlock.Some?, sink.Value()) ==
              Progress(old(textBlock.Some?), old(sink.Value()), AssistantBlockItems(codec, b))
    {
      hide Exec, Step, PutAll, BlockLog.Valid;
      ghost var open0, ch0 := textBlock.Some?, sink.Value();
      ProgressNone(open0, ch0);
      if Is(GetStr(b, "type"), "text") {
        var text := GetStr(b, "text");
        if text.Some? {
          PutOne(open0, Prose(text.value + [LF]));
          PushMarkdown(text.value + [LF], sink);
        }
      } else if Is(GetStr(b, "type"), "tool_use") {
        var name := match GetStr(b, "name") case Some(n) => n case None => Ascii("tool");
        PutOne(open0, Prose(GEAR + name + [LF]));
        Unit([Prose(GEAR + name + [LF])]);
        PushMarkdown(GEAR + name + [LF], sink);
        var input := match Get(b, "input") case Some(x) => codec.pretty(x) case None => [];
        if input != [] {
          ProgressOne(open0, ch0, [Prose(GEAR + name + [LF])], Listing(input + [LF]));
          PushCode(input + [LF], sink);
        }
      }
    }

    method HandleAssistant(v: Json, sink: BlockSink)
      requires Linked(sink)
      modifies this`textBlock, sink, sink.log
      ensures Linked(sink)
      ensures (textBlock.Some?, sink.Value()) ==
              Progress(old(textBlock.Some?), old(sink.Value()), AssistantItems(codec, MessageContent(v)))
    {
      hide Exec, Step, PutAll, BlockLog.Valid;
      var content := MessageContent(v);
      ghost var open0, ch0 := textBlock.Some?, sink.Value();
      ProgressNone(open0, ch0);
      for i := 0 to |content|
        invariant Linked(sink)
        invariant (textBlock.Some?, sink.Value()) == Progress(open0, ch0, AssistantItems(codec, content[..i]))
      {
        assert content[..i + 1][..i] == content[..i];
        ProgressMore(open0, ch0, AssistantItems(codec, content[..i]), AssistantBlockItems(codec, content[i]));
        HandleAssistantBlock(content[i], sink);
      }
      assert content[..|content|] == content;
    }

    method HandleToolBlock(b: Json, sink: BlockSink)
      requires Linked(sink)
      modifies this`textBlock, sink, sink.log
      ensures Linked(sink)
      ensures (textBlock.Some?, sink.Value()) ==
              Progress(old(textBlock.Some?), old(sink.Value()), ToolResultItems(codec, b))
    {
      hide Exec, Step, PutAll, BlockLog.Valid;
      ghost var open0, ch0 := textBlock.Some?, sink.Value();
      ProgressNone(open0, ch0);
      var body := Get(b, "content");
      if Is(GetStr(b, "type"), "tool_result") && body.Some? {
        var text := match body.value case Str(t) => t case other => codec.pretty(other);
        PutOne(open0, Listing(text + [LF]));
        PushCode(text + [LF], sink);
      }
    }

    method HandleToolResult(v: Json, sink: BlockSink)
      requires Linked(sink)
      modifies this`textBlock, sink, sink.log
      ensures Linked(sink)
      ensures (textBlock.Some?, sink.Value()) ==
              Progress(old(textBlock.Some?), old(sink.Value()), UserItems(codec, MessageContent(v)))
    {
      hide Exec, Step, PutAll, BlockLog.Valid;
      var content := MessageContent(v);
      ghost var open0, ch0 := textBlock.Some?, sink.Value();
      ProgressNone(open0, ch0);
      for i := 0 to |content|
        invariant Linked(sink)
        invariant (textBlock.Some?, sink.Value()) == Progress(open0, ch0, UserItems(codec, content[..i]))
      {
        assert content[..i + 1][..i] == content[..i];
        ProgressMore(open0, ch0, UserItems(codec, content[..i]), ToolResultItems(codec, content[i]));
        HandleToolBlock(content[i], sink);
      }
      assert content[..|content|] == content;
    }

    method HandleEvent(v: Json, sink: BlockSink)
      requires Linked(sink)
      modifies this`textBlock, sink, sink.log
      ensures Linked(sink)
      ensures var (open, cmds) := PutAll(old(textBlock.Some?), EventItems(codec, v));
              textBlock.Some? == open && sink.Value() == Perform(old(sink.Value()), cmds)
    {
      hide Exec, BlockLog.Valid;
      PerformNone(sink.Value());
      var kind := GetStr(v, "type");
      if Is(kind, "assistant") {
        HandleAssistant(v, sink);
      } else if Is(kind, "user") {
        HandleToolResult(v, sink);
      } else if Is(kind, "result") {
        PutOne(textBlock.Some?, Final(GetStr(v, "result")));
        HandleResult(v, sink);
      }
    }

    /** One newline-terminated line, without its newline. */
    method HandleLine(line: Text, sink: BlockSink)
      requires Linked(sink)
      modifies this, sink, sink.log
      ensures Linked(sink) && unchanged(`buf)
      ensures var (open, cmds) := PutAll(old(textBlock.Some?), LineItems(codec, line));
              textBlock.Some? == open && sink.Value() == Perform(old(sink.Value()), cmds)
      ensures eventsOk == old(eventsOk) + if !Blank(line) && codec.parse(line).Some? then 1 else 0
      ensures parseErrors == old(parseErrors) + if !Blank(line) && codec.parse(line).None? then 1 else 0
    {
      hide Exec, BlockLog.Valid;
      PerformNone(sink.Value());
      if Blank(line) {
        return;
      }
      var parsed := codec.parse(line);
      if parsed.Some? {
        eventsOk := eventsOk + 1;
        HandleEvent(parsed.value, sink);
      } else {
        parseErrors := parseErrors + 1;
        PutOne(textBlock.Some?, Prose(Lossy(line) + [LF]));
        PushMarkdown(Lossy(line) + [LF], sink);
      }
    }

    /** Drains the line that ends at `pos` and handles it. */
    method DrainLine(pos: nat, sink: BlockSink)
      requires Linked(sink) && pos < |buf|
      modifies this, sink, sink.log
      ensures Linked(sink) && buf == old(buf)[pos + 1..]
      ensures (Value(), sink.Value()) ==
              OneLine(codec, old(Value()), old(sink.Value()), old(buf)[..pos], buf)
    {
      hide PutAll, LineItems, Exec, BlockLog.Valid;
      var line := buf[..pos];
      buf := buf[pos + 1..];
      HandleLine(line, sink);
    }

    method FeedBytes(bytes: Text, sink: BlockSink)
      requires Linked(sink)
      modifies this, sink, sink.log
      ensures Linked(sink) && Unbroken(LF, buf)
      ensures var (st, cmds) := Feed(codec, old(Value()), bytes);
              Value() == st && sink.Value() == Perform(old(sink.Value()), cmds)
    {
      hide Exec, BlockLog.Valid, PutAll, LinesItems, CountParsed, CountFailed, OneLine;
      ghost var st0, ch0, whole := Value(), sink.Value(), buf + bytes;
      ghost var handled: seq<Text> := [];
      buf := buf + bytes;
      AfterNone(codec, st0, ch0, buf);
      Unit(Split(LF, whole).ended);
      var pos := FindNewline(buf);
      while pos < |buf|
        invariant Linked(sink) && AtNewline(buf, pos)
        invariant CutAt(whole, handled, buf)
        invariant (Value(), sink.Value()) == After(codec, st0, ch0, handled, buf)
        decreases |buf|
      {
        CutStep(whole, handled, buf, pos);
        AfterOne(codec, st0, ch0, handled, buf[..pos], buf, buf[pos + 1..]);
        handled := handled + [buf[..pos]];
        DrainLine(pos, sink);
        pos := FindNewline(buf);
      }
      CutEnd(whole, handled, buf, pos);
    }

    method FlushBuffered(sink: BlockSink)
      requires Linked(sink)
      modifies this, sink, sink.log
      ensures Linked(sink)
      ensures var (st, cmds) := Flush(codec, old(Value()));
              Value() == st && sink.Value() == Perform(old(sink.Value()), cmds)
    {
      hide Exec, BlockLog.Valid;
      ghost var st0, ch0 := Value(), sink.Value();
      ghost var (open, cmds) := PutAll(st0.open, TailItems(codec, buf));
      PerformNone(ch0);
      if buf != [] {
        var rest := buf;
        buf := [];
        var parsed := codec.parse(rest);
        if parsed.Some? {
          eventsOk := eventsOk + 1;
          HandleEvent(parsed.value, sink);
        }
      }
      PerformConcat(ch0, cmds, CloseIf(open));
      CloseText(sink);
    }
  }

  /** Whether prose is open and what has been published after some items. */
  ghost function Progress(open: bool, ch: Channel, items: seq<Item>): (bool, Channel) {
    (PutAll(open, items).0, Perform(ch, PutAll(open, items).1))
  }

  lemma ProgressNone(open: bool, ch: Channel)
    ensures Progress(open, ch, []) == (open, ch)
  {
    PerformNone(ch);
  }

  lemma ProgressMore(open: bool, ch: Channel, items: seq<Item>, more: seq<Item>)
    ensures var (mid, ch1) := Progress(open, ch, items);
            Progress(open, ch, items + more) == Progress(mid, ch1, more)
  {
    var (mid, c1) := PutAll(open, items);
    PutConcat(open, items, more);
    PerformConcat(ch, c1, PutAll(mid, more).1);
  }

  lemma ProgressOne(open: bool, ch: Channel, items: seq<Item>, item: Item)
    ensures var (mid, ch1) := Progress(open, ch, items);
            Progress(open, ch, items + [item]) == (Put(mid, item).0, Perform(ch1, Put(mid, item).1))
  {
    ProgressMore(open, ch, items, [item]);
    PutOne(Progress(open, ch, items).0, item);
  }

  /** `buf.iter().position(|&b| b == b'\n')`, with the length for "none". */
  method FindNewline(buf: Text) returns (pos: nat)
    ensures pos <= |buf| && Unbroken(LF, buf[..pos]) && (pos < |buf| ==> buf[pos] == LF)
  {
    pos := 0;
    while pos < |buf| && buf[pos] != LF
      invariant pos <= |buf| && Unbroken(LF, buf[..pos])
    {
      pos := pos + 1;
    }
  }

  /** `pos` is the first newline of `buf`, or its length. */
  ghost predicate AtNewline(buf: Text, pos: int) {
    0 <= pos <= |buf| && Unbroken(LF, buf[..pos]) && (pos < |buf| ==> buf[pos] == LF)
  }

  /** The lines handled and the pieces of what remains are the pieces of the whole. */
  ghost predicate CutAt(whole: Text, handled: seq<Text>, buf: Text) {
    Split(LF, whole) == Pieces(handled + Split(LF, buf).ended, Split(LF, buf).tail)
  }

  /** Draining the first line takes the first piece. */
  lemma CutStep(whole: Text, handled: seq<Text>, buf: Text, pos: nat)
    requires CutAt(whole, handled, buf) && pos < |buf| && AtNewline(buf, pos)
    ensures CutAt(whole, handled + [buf[..pos]], buf[pos + 1..])
  {
    var line, rest := buf[..pos], buf[pos + 1..];
    assert buf == line + [LF] + rest;
    SplitAround(LF, line, rest);
    SplitUnbroken(LF, line);
    var q := Split(LF, rest);
    assert handled + ([] + [line] + q.ended) == (handled + [line]) + q.ended;
  }

  lemma CutEnd(whole: Text, handled: seq<Text>, buf: Text, pos: nat)
    requires CutAt(whole, handled, buf) && pos == |buf| && AtNewline(buf, pos)
    ensures Split(LF, whole) == Pieces(handled, buf) && Unbroken(LF, buf)
  {
    assert buf[..pos] == buf;
    SplitUnbroken(LF, buf);
    assert handled + [] == handled;
  }

  /** The adapter's state and what is published after some lines. */
  ghost function After(codec: Codec, st: State, ch: Channel, lines: seq<Text>, rest: Text): (State, Channel) {
    var (st', cmds) := Handle(codec, st, lines, rest);
    (st', Perform(ch, cmds))
  }

  lemma AfterNone(codec: Codec, st: State, ch: Channel, rest: Text)
    ensures After(codec, st, ch, [], rest) == (st.(buf := rest), ch)
  {
    PerformNone(ch);
  }

  ghost function OneLine(codec: Codec, st: State, ch: Channel, line: Text, rest: Text): (State, Channel) {
    var (st', cmds) := Serve(st, LineItems(codec, line), OneParsed(codec, line), OneFailed(codec, line), rest);
    (st', Perform(ch, cmds))
  }

  lemma HandleOne(codec: Codec, st: State, lines: seq<Text>, line: Text, mid: Text, rest: Text)
    ensures var (st1, c1) := Handle(codec, st, lines, mid);
            var (st2, c2) := Serve(st1, LineItems(codec, line), OneParsed(codec, line), OneFailed(codec, line), rest);
            Handle(codec, st, lines + [line], rest) == (st2, c1 + c2)
  {
    LinesSnoc(codec, lines, line);
    hide PutAll, LinesItems, CountParsed, CountFailed, LineItems;
    ServeConcat(st, LinesItems(codec, lines), CountParsed(codec, lines), CountFailed(codec, lines), mid,
                LineItems(codec, line), OneParsed(codec, line), OneFailed(codec, line), rest);
  }

  lemma AfterOne(codec: Codec, st: State, ch: Channel, lines: seq<Text>, line: Text, mid: Text, rest: Text)
    ensures var (st1, ch1) := After(codec, st, ch, lines, mid);
            After(codec, st, ch, lines + [line], rest) == OneLine(codec, st1, ch1, line, rest)
  {
    HandleOne(codec, st, lines, line, mid, rest);
    var (st1, c1) := Handle(codec, st, lines, mid);
    PerformConcat(ch, c1, PutAll(st1.open, LineItems(codec, line)).1);
  }
}
