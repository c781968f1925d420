/** What the stream-json adapter makes of events as they are written: one line in, blocks out,
    with the fields spelled out. */
module ClaudeForms {
  import opened Bytes
  import opened Blocks
  import opened Splitting
  import opened Unicode
  import opened ClaudeCode

  // ---------- events ----------

  lemma KeysDiffer()
    ensures Ascii("type") != Ascii("message") && Ascii("type") != Ascii("content") && Ascii("type") != Ascii("result")
    ensures Ascii("type") != Ascii("name") && Ascii("type") != Ascii("input") && Ascii("type") != Ascii("text")
    ensures Ascii("name") != Ascii("input")
    ensures Ascii("assistant") != Ascii("user") && Ascii("assistant") != Ascii("result") && Ascii("user") != Ascii("result")
    ensures Ascii("text") != Ascii("tool_use") && Ascii("text") != Ascii("tool_result") && Ascii("tool_use") != Ascii("tool_result")
  {
    assert |Ascii("type")| == |Ascii("name")| == |Ascii("text")| == |Ascii("user")| == 4;
    assert Ascii("type")[0] != Ascii("name")[0] && Ascii("type")[1] != Ascii("text")[1];
    assert |Ascii("message")| == |Ascii("content")| == 7 && |Ascii("result")| == 6 && |Ascii("input")| == 5;
    assert |Ascii("assistant")| == 9 && |Ascii("tool_use")| == 8 && |Ascii("tool_result")| == 11;
  }

  function Typed(kind: Text): Json { Object(map[Ascii("type") := Str(kind)]) }

  function UserEvent(content: seq<Json>): Json {
    Object(map[Ascii("type") := Str(Ascii("user")), Ascii("message") := Object(map[Ascii("content") := Array(content)])])
  }

  function ToolResult(output: Json): Json {
    Object(map[Ascii("type") := Str(Ascii("tool_result")), Ascii("content") := output])
  }

  function ResultEvent(result: Json): Json {
    Object(map[Ascii("type") := Str(Ascii("result")), Ascii("result") := result])
  }

  /** A terminated line that parses. */
  ghost predicate Carries(codec: Codec, line: Text, v: Json) {
    Unbroken(0x0a, line) && !Blank(line) && codec.parse(line) == Some(v)
  }

  lemma LineDocument(codec: Codec, line: Text, v: Json)
    requires Carries(codec, line, v)
    ensures Derive(codec, line + [0x0a]) == Turns(EventItems(codec, v))
  {
    OneLineItems(codec, line, v);
    AdapterRefines(codec, line + [LF]);
  }

  lemma OneBlock(item: Item)
    requires !item.Prose?
    ensures Turns([item]) == Whole(item)
  {
    TurnsOwnBlock([item]);
    assert [item][1..] == [] && Turns([]) == [];
    Unit(Whole(item));
  }

  // ---------- tool results ----------

  lemma UserEventItems(codec: Codec, content: seq<Json>)
    ensures EventItems(codec, UserEvent(content)) == UserItems(codec, content)
  {
    KeysDiffer();
    hide UserItems, AssistantItems;
    assert GetStr(UserEvent(content), "type") == Some(Ascii("user"));
    assert MessageContent(UserEvent(content)) == content;
  }

  lemma ToolResultSays(codec: Codec, output: Json)
    ensures ToolResultItems(codec, ToolResult(output)) ==
            [Listing((if output.Str? then output.text else codec.pretty(output)) + [0x0a])]
  {
    KeysDiffer();
    assert Get(ToolResult(output), "content") == Some(output);
  }

  lemma UserOne(codec: Codec, b: Json)
    ensures UserItems(codec, [b]) == ToolResultItems(codec, b)
  {
    assert [b][..0] == [] && UserItems(codec, []) == [];
    Unit(ToolResultItems(codec, b));
  }

  /** A tool's output is a code block of its own: a string as it is, anything else printed. */
  lemma ToolOutputIsCode(codec: Codec, line: Text, output: Json)
    requires Carries(codec, line, UserEvent([ToolResult(output)]))
    ensures Derive(codec, line + [0x0a]) ==
            [Code(None, (if output.Str? then output.text else codec.pretty(output)) + [0x0a], true)]
  {
    LineDocument(codec, line, UserEvent([ToolResult(output)]));
    UserEventItems(codec, [ToolResult(output)]);
    UserOne(codec, ToolResult(output));
    ToolResultSays(codec, output);
    OneBlock(Listing((if output.Str? then output.text else codec.pretty(output)) + [0x0a]));
  }

  /** Without content, or in any other kind of block, there is nothing to show. */
  lemma OtherUserBlocksAreSilent(codec: Codec, line: Text, b: Json)
    requires Carries(codec, line, UserEvent([b]))
    requires Get(b, "type") != Some(Str(Ascii("tool_result"))) || Get(b, "content") == None
    ensures Derive(codec, line + [0x0a]) == []
  {
    LineDocument(codec, line, UserEvent([b]));
    UserEventItems(codec, [b]);
    UserOne(codec, b);
    assert ToolResultItems(codec, b) == [];
    assert Turns([]) == [];
  }

  function ToolResults(outputs: seq<Json>): (r: seq<Json>)
    ensures |r| == |outputs|
  {
    seq(|outputs|, i requires 0 <= i < |outputs| => ToolResult(outputs[i]))
  }

  /** One code block for each output. */
  function CodeBlocks(codec: Codec, outputs: seq<Json>): (r: seq<Block>)
    ensures |r| == |outputs|
    ensures forall i :: 0 <= i < |r| ==>
              r[i] == Code(None, (if outputs[i].Str? then outputs[i].text else codec.pretty(outputs[i])) + [0x0a], true)
  {
    seq(|outputs|, i requires 0 <= i < |outputs| =>
      Code(None, (if outputs[i].Str? then outputs[i].text else codec.pretty(outputs[i])) + [0x0a], true))
  }

  lemma NotJoint(items: seq<Item>, item: Item)
    requires !item.Prose?
    ensures !Joint(items, [item])
  {
  }

  function Listed(codec: Codec, output: Json): Item {
    Listing((if output.Str? then output.text else codec.pretty(output)) + [0x0a])
  }

  lemma OutputsSnoc(codec: Codec, outputs: seq<Json>)
    requires outputs != []
    ensures var init, last := outputs[..|outputs| - 1], outputs[|outputs| - 1];
            && UserItems(codec, ToolResults(outputs)) == UserItems(codec, ToolResults(init)) + [Listed(codec, last)]
            && CodeBlocks(codec, outputs) == CodeBlocks(codec, init) + Whole(Listed(codec, last))
  {
    var init, last := outputs[..|outputs| - 1], outputs[|outputs| - 1];
    ResultsSnoc(outputs);
    BlocksSnoc(codec, outputs);
    hide ToolResultItems, ToolResult, ToolResults, CodeBlocks, Whole;
    ToolResultSays(codec, last);
    assert UserItems(codec, ToolResults(outputs)) == UserItems(codec, ToolResults(init)) + ToolResultItems(codec, ToolResult(last));
  }

  lemma ResultsSnoc(outputs: seq<Json>)
    requires outputs != []
    ensures var n := |outputs| - 1;
            ToolResults(outputs)[..n] == ToolResults(outputs[..n]) && ToolResults(outputs)[n] == ToolResult(outputs[n])
  {
    hide ToolResult;
  }

  lemma BlocksSnoc(codec: Codec, outputs: seq<Json>)
    requires outputs != []
    ensures var n := |outputs| - 1;
            CodeBlocks(codec, outputs) == CodeBlocks(codec, outputs[..n]) + Whole(Listed(codec, outputs[n]))
  {
  }

  lemma {:induction false} UserItemsTurns(codec: Codec, outputs: seq<Json>)
    ensures Turns(UserItems(codec, ToolResults(outputs))) == CodeBlocks(codec, outputs)
    decreases |outputs|
  {
    if outputs == [] {
      assert ToolResults([]) == [] && UserItems(codec, []) == [] && Turns([]) == [];
    } else {
      var init, item := outputs[..|outputs| - 1], Listed(codec, outputs[|outputs| - 1]);
      UserItemsTurns(codec, init);
      hide Turns, ToolResults, UserItems, Joint, CodeBlocks, Whole;
      OutputsSnoc(codec, outputs);
      OneBlock(item);
      NotJoint(UserItems(codec, ToolResults(init)), item);
      TurnsConcat(UserItems(codec, ToolResults(init)), [item]);
    }
  }

  /** The outputs of one event are code blocks in order. */
  lemma ToolOutputsInOrder(codec: Codec, line: Text, outputs: seq<Json>)
    requires Carries(codec, line, UserEvent(ToolResults(outputs)))
    ensures Derive(codec, line + [0x0a]) == CodeBlocks(codec, outputs)
  {
    LineDocument(codec, line, UserEvent(ToolResults(outputs)));
    UserEventItems(codec, ToolResults(outputs));
    UserItemsTurns(codec, outputs);
  }

  // ---------- results ----------

  lemma ResultItems(codec: Codec, result: Json)
    ensures EventItems(codec, ResultEvent(result)) == [Final(if result.Str? then Some(result.text) else None)]
  {
    KeysDiffer();
    assert Get(ResultEvent(result), "result") == Some(result);
    assert GetStr(ResultEvent(result), "type") == Some(Ascii("result"));
  }

  /** A result is a Markdown block of its own; one that is not a string shows nothing. */
  lemma ResultIsMarkdown(codec: Codec, line: Text, result: Json)
    requires Carries(codec, line, ResultEvent(result))
    ensures Derive(codec, line + [0x0a]) == if result.Str? then [Markdown(result.text + [0x0a], true)] else []
  {
    LineDocument(codec, line, ResultEvent(result));
    ResultItems(codec, result);
    OneBlock(Final(if result.Str? then Some(result.text) else None));
  }

  /** Neither does a result event without a result. */
  lemma BareResultIsSilent(codec: Codec, line: Text)
    requires Carries(codec, line, Typed(Ascii("result")))
    ensures Derive(codec, line + [0x0a]) == []
  {
    BareResultItems(codec);
    hide EventItems, Turns, Derive, Carries, Typed;
    LineDocument(codec, line, Typed(Ascii("result")));
    OneBlock(Final(None));
  }

  lemma BareResultItems(codec: Codec)
    ensures EventItems(codec, Typed(Ascii("result"))) == [Final(None)]
  {
    KeysDiffer();
    var v := Typed(Ascii("result"));
    assert GetStr(v, "type") == Some(Ascii("result")) && GetStr(v, "result") == None;
    hide AssistantItems, UserItems, MessageContent;
  }

  /** A result keeps apart the prose before and after it, even when it shows nothing. */
  lemma ResultEndsProse(codec: Codec, line1: Text, between: Text, line2: Text, text1: Text, result: Json, text2: Text)
    requires Carries(codec, line1, AssistantSays(text1)) && Carries(codec, between, ResultEvent(result))
    requires Carries(codec, line2, AssistantSays(text2))
    ensures Derive(codec, (line1 + [0x0a]) + ((between + [0x0a]) + (line2 + [0x0a]))) ==
            [Markdown(text1 + [0x0a], true)]
            + ((if result.Str? then [Markdown(result.text + [0x0a], true)] else []) + [Markdown(text2 + [0x0a], true)])
  {
    var (a, b, c) := (line1 + [LF], between + [LF], line2 + [LF]);
    OneLineItems(codec, line1, AssistantSays(text1));
    OneLineItems(codec, between, ResultEvent(result));
    OneLineItems(codec, line2, AssistantSays(text2));
    AssistantSaysProse(codec, text1);
    AssistantSaysProse(codec, text2);
    ResultItems(codec, result);
    hide Derive, Turns, AllItems, AssistantSays, ResultEvent;
    LinesThen(codec, b, c);
    LinesThen(codec, a, b + c);
    AdapterRefines(codec, a + (b + c));
    FinalBetween(text1 + [LF], if result.Str? then Some(result.text) else None, text2 + [LF]);
  }

  lemma FinalBetween(x: Text, text: Option<Text>, y: Text)
    ensures Turns([Prose(x)] + ([Final(text)] + [Prose(y)])) ==
            [Markdown(x, true)] + ((if text.Some? then [Markdown(text.value + [LF], true)] else []) + [Markdown(y, true)])
  {
    OneBlock(Final(text));
    OneProse(x);
    OneProse(y);
    var (i, j, k) := ([Prose(x)], [Final(text)], [Prose(y)]);
    assert !Joint(j, k) && !Joint(i, j + k) by { assert (j + k)[0] == Final(text); }
    hide Turns, Joint;
    TurnsConcat(j, k);
    TurnsConcat(i, j + k);
  }

  // ---------- other events ----------

  /** Events of any other type, or of none, carry nothing to show. */
  lemma OtherEventsAreSilent(codec: Codec, line: Text, v: Json)
    requires Carries(codec, line, v)
    requires Get(v, "type") !in {Some(Str(Ascii("assistant"))), Some(Str(Ascii("user"))), Some(Str(Ascii("result")))}
    ensures Derive(codec, line + [0x0a]) == []
  {
    LineDocument(codec, line, v);
    assert EventItems(codec, v) == [];
    assert Turns([]) == [];
  }

  /** Messages whose content is missing or no array carry nothing either. */
  lemma NoContentIsSilent(codec: Codec, line: Text, v: Json, message: Json)
    requires Carries(codec, line, v) && Get(v, "type") in {Some(Str(Ascii("assistant"))), Some(Str(Ascii("user")))}
    requires Get(v, "message") == None ||
             (Get(v, "message") == Some(message) && !(Get(message, "content").Some? && Get(message, "content").value.Array?))
    ensures Derive(codec, line + [0x0a]) == []
  {
    KeysDiffer();
    LineDocument(codec, line, v);
    assert MessageContent(v) == [];
    assert AssistantItems(codec, []) == [] && UserItems(codec, []) == [] && Turns([]) == [];
  }

  // ---------- assistant messages ----------

  lemma AssistantOne(codec: Codec, b: Json)
    ensures EventItems(codec, AssistantEvent([b])) == AssistantBlockItems(codec, b)
  {
    AssistantEventItems(codec, [b]);
    assert [b][..0] == [] && AssistantItems(codec, []) == [];
    Unit(AssistantBlockItems(codec, b));
  }

  /** Text is prose. */
  lemma TextIsMarkdown(codec: Codec, line: Text, text: Text)
    requires Carries(codec, line, AssistantSays(text))
    ensures Derive(codec, line + [0x0a]) == [Markdown(text + [0x0a], true)]
  {
    LineDocument(codec, line, AssistantSays(text));
    AssistantSaysProse(codec, text);
    OneProse(text + [0x0a]);
  }

  function Nameless(input: Json): Json {
    Object(map[Ascii("type") := Str(Ascii("tool_use")), Ascii("input") := input])
  }

  function Inputless(name: Text): Json {
    Object(map[Ascii("type") := Str(Ascii("tool_use")), Ascii("name") := Str(name)])
  }

  /** The header of a tool use: a gear, a space and the name. */
  function Header(name: Text): Text { Encode('\U{2699}') + [0x20] + name + [0x0a] }

  lemma HeaderIsGear(name: Text)
    ensures Header(name) == GEAR + name + [LF]
  {
    assert Encode('\U{2699}') + [0x20] == GEAR;
  }

  lemma ToolUseTurns(codec: Codec, header: Text, input: Text)
    ensures Turns([Prose(header)] + if input == [] then [] else [Listing(input + [LF])]) ==
            [Markdown(header, true)] + if input == [] then [] else [Code(None, input + [0x0a], true)]
  {
    OneProse(header);
    if input == [] {
      Unit([Prose(header)]);
      Unit([Markdown(header, true)]);
    } else {
      OneBlock(Listing(input + [LF]));
      TurnsConcat([Prose(header)], [Listing(input + [LF])]);
    }
  }

  /** A header, and the input unless there is none to show. */
  function ToolItems(name: Text, input: Text): seq<Item> {
    [Prose(GEAR + name + [LF])] + if input == [] then [] else [Listing(input + [LF])]
  }

  lemma ToolUseItems(codec: Codec, name: Text, input: Json)
    ensures AssistantBlockItems(codec, ToolUse(name, input)) == ToolItems(name, codec.pretty(input))
  {
    KeysDiffer();
    var b := ToolUse(name, input);
    assert GetStr(b, "type") == Some(Ascii("tool_use")) && GetStr(b, "name") == Some(name);
    assert Get(b, "input") == Some(input);
  }

  lemma InputlessItems(codec: Codec, name: Text)
    ensures AssistantBlockItems(codec, Inputless(name)) == ToolItems(name, [])
  {
    KeysDiffer();
    var b := Inputless(name);
    assert GetStr(b, "type") == Some(Ascii("tool_use")) && GetStr(b, "name") == Some(name) && Get(b, "input") == None;
  }

  lemma NamelessItems(codec: Codec, input: Json)
    ensures AssistantBlockItems(codec, Nameless(input)) == ToolItems(Ascii("tool"), codec.pretty(input))
  {
    KeysDiffer();
    var b := Nameless(input);
    assert GetStr(b, "type") == Some(Ascii("tool_use")) && GetStr(b, "name") == None && Get(b, "input") == Some(input);
  }

  lemma ToolLine(codec: Codec, line: Text, b: Json, name: Text, input: Text)
    requires Carries(codec, line, AssistantEvent([b])) && AssistantBlockItems(codec, b) == ToolItems(name, input)
    ensures Derive(codec, line + [0x0a]) ==
            [Markdown(Header(name), true)] + if input == [] then [] else [Code(None, input + [0x0a], true)]
  {
    hide Turns, Header, Derive, Carries, AssistantBlockItems, AssistantEvent, EventItems;
    LineDocument(codec, line, AssistantEvent([b]));
    AssistantOne(codec, b);
    HeaderIsGear(name);
    ToolUseTurns(codec, GEAR + name + [LF], input);
  }

  /** A tool use is a header and, unless it prints as nothing, its input as code. */
  lemma ToolUseIsHeaderAndCode(codec: Codec, line: Text, name: Text, input: Json)
    requires Carries(codec, line, AssistantEvent([ToolUse(name, input)]))
    ensures Derive(codec, line + [0x0a]) ==
            [Markdown(Header(name), true)]
            + if codec.pretty(input) == [] then [] else [Code(None, codec.pretty(input) + [0x0a], true)]
  {
    hide *;
    ToolUseItems(codec, name, input);
    ToolLine(codec, line, ToolUse(name, input), name, codec.pretty(input));
  }

  /** Without input it is just the header. */
  lemma InputlessIsHeader(codec: Codec, line: Text, name: Text)
    requires Carries(codec, line, AssistantEvent([Inputless(name)]))
    ensures Derive(codec, line + [0x0a]) == [Markdown(Header(name), true)]
  {
    hide *;
    InputlessItems(codec, name);
    ToolLine(codec, line, Inputless(name), name, []);
    Unit([Markdown(Header(name), true)]);
  }

  /** Without a name it is called "tool". */
  lemma NamelessIsTool(codec: Codec, line: Text, input: Json)
    requires Carries(codec, line, AssistantEvent([Nameless(input)]))
    ensures Derive(codec, line + [0x0a]) ==
            [Markdown(Header(Ascii("tool")), true)]
            + if codec.pretty(input) == [] then [] else [Code(None, codec.pretty(input) + [0x0a], true)]
  {
    hide *;
    NamelessItems(codec, input);
    ToolLine(codec, line, Nameless(input), Ascii("tool"), codec.pretty(input));
  }

  /** Blocks of any other kind, and text blocks without text, say nothing. */
  lemma OtherAssistantBlocksAreSilent(codec: Codec, line: Text, b: Json)
    requires Carries(codec, line, AssistantEvent([b]))
    requires Get(b, "type") !in {Some(Str(Ascii("text"))), Some(Str(Ascii("tool_use")))} ||
             (Get(b, "type") == Some(Str(Ascii("text"))) && !(Get(b, "text").Some? && Get(b, "text").value.Str?))
    ensures Derive(codec, line + [0x0a]) == []
  {
    KeysDiffer();
    LineDocument(codec, line, AssistantEvent([b]));
    AssistantOne(codec, b);
    assert AssistantBlockItems(codec, b) == [];
    assert Turns([]) == [];
  }

  // ---------- lines that do not parse, and the tail ----------

  /** A line that does not parse is shown as it is, unless it is nothing but spaces, tabs, line
      feeds, form feeds and carriage returns. */
  lemma UnparsedLine(codec: Codec, line: Text)
    requires Unbroken(0x0a, line) && codec.parse(line) == None
    ensures Derive(codec, line + [0x0a]) ==
            if forall i :: 0 <= i < |line| ==> line[i] in {0x20, 0x09, 0x0a, 0x0c, 0x0d} then []
            else [Markdown(Lossy(line) + [0x0a], true)]
  {
    AnyLineItems(codec, line);
    AdapterRefines(codec, line + [LF]);
    if Blank(line) {
      assert LineItems(codec, line) == [] && Turns([]) == [];
    } else {
      OneProse(Lossy(line) + [LF]);
    }
  }

  /** An unterminated last line that parses counts as if it were terminated. */
  lemma ParsedTailCounts(codec: Codec, s: Text, line: Text)
    requires Split(LF, s).tail == [] && Unbroken(0x0a, line)
    requires !Blank(line) && codec.parse(line).Some?
    ensures Derive(codec, s + line) == Derive(codec, s + line + [0x0a])
  {
    UnterminatedSplit(s, line);
    AdapterRefines(codec, s + line);
    AdapterRefines(codec, s + line + [LF]);
    LinesSnoc(codec, Split(LF, s).ended, line);
    assert TailItems(codec, line) == LineItems(codec, line) && TailItems(codec, []) == [];
    hide Turns, LinesItems, TailItems, LineItems, Split, Derive;
    Unit(LinesItems(codec, Split(LF, s).ended + [line]));
  }

  // ---------- the counters ----------

  /** Every terminated line that is not blank is counted once, as parsed or as failed, whatever
      part of it was buffered before. */
  lemma LineCounts(codec: Codec, st: State, line: Text)
    requires Unbroken(0x0a, st.buf + line)
    ensures var whole := st.buf + line; var st' := Feed(codec, st, line + [0x0a]).0;
            var counted := exists i :: 0 <= i < |whole| && whole[i] !in {0x20, 0x09, 0x0a, 0x0c, 0x0d};
            && st'.buf == []
            && st'.eventsOk == st.eventsOk + (if counted && codec.parse(whole).Some? then 1 else 0)
            && st'.parseErrors == st.parseErrors + (if counted && codec.parse(whole).None? then 1 else 0)
  {
    var whole := st.buf + line;
    assert st.buf + (line + [0x0a]) == whole + [LF];
    SplitUnbroken(LF, whole);
    SplitSnoc(LF, whole, LF);
    Unit([whole]);
    LinesSnoc(codec, [], whole);
    hide LinesItems, PutAll, Split;
    assert Split(LF, st.buf + (line + [0x0a])) == Pieces([whole], []);
  }

  /** At the end of the session a tail that parses is counted, and one that does not is not. */
  lemma TailCounts(codec: Codec, st: State)
    ensures Flush(codec, st).0 ==
            State([], false, st.eventsOk + (if st.buf != [] && codec.parse(st.buf).Some? then 1 else 0), st.parseErrors)
  {
    hide PutAll, TailItems;
  }
}
