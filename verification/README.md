# The session layer of dd-client, modelled and proved

`dd-client` attaches to a remote terminal session. Its session layer turns the decrypted
terminal output into a document of Markdown, code and diff blocks, publishes that document to
viewers as a stream of deltas, and lets the user flip between a read-only view, an interactive
view and the raw terminal. This project models that layer in Dafny and proves what its
comments promise.

`dafny verify dfyconfig.toml` checks everything.

## How it is organised

| file | what it holds |
|---|---|
| `Bytes.dfy`, `Splitting.dfy` | bytes, UTF-8 decoding with replacement, white space, splitting at a separator |
| `Unicode.dfy` | decoding and trimming against UTF-8 encoding and the White_Space property, character by character |
| `Blocks.dfy` | the document datatypes and the edits of one block |
| `Stream.dfy` | the authoritative log, its events, and the view that replays them |
| `Document.dfy` | what an adapter does to the log: open a block, write to it, close it; the event discipline |
| `FloorSpec.dfy` | what the floor means, declaratively and without its state machine |
| `Floor.dfy` | the one-pass floor |
| `FloorRefinement.dfy` | the one pass refines the specification |
| `FloorLaws.dfy`, `FloorEscapes.dfy` | conservation, canonical form, re-derivation, escape sequences |
| `FloorForms.dfy`, `FenceForms.dfy` | what becomes of written lines, byte for byte: diffs, fences, editing bytes, the last line |
| `ClaudeCode.dfy` | the stream-json adapter |
| `ClaudeForms.dfy` | what each shape of event becomes in the document |
| `Engine.dfy` | the engine over either adapter |
| `Sharing.dfy`, `SharingProgress.dfy` | the log lock, the bounded event queue, subscribers and renderers as atomic steps; what each of them gets done |
| `Input.dfy`, `InputForms.dfy` | the raw-mode chord parser and key synthesis; the chords byte for byte |
| `Menus.dfy`, `MenuForms.dfy` | menu detection; the menu found, read off the rows as they are written |
| `SessionUi.dfy` | modes, the two input regimes, the outbound queue and the pump as one step system |
| `Flipping.dfy` | over whole sessions: output, document, structured view and screen |
| `SessionForms.dfy` | what keys, raw reads and the pump do, key by key |
| `History.dfy` | the sealed-history opener over symbolic cryptography |

Objects that the program updates in place are classes here (`BlockLog`, `BlockView`,
`BlockSink`, `FloorAdapter`, `ClaudeCodeAdapter`, `SessionEngine`, `ChordParser`). Each method
is proved against a function on the values of the fields, and the promises are then proved
about those functions: a `Log`, an adapter `State`, a sequence of commands. Text is UTF-8
bytes, and replacement decoding and trimming are defined over bytes.

## Main results

* **The floor means what its specification says.** For every byte stream the one-pass machine
  gives the document of a three-stage specification: strip escape sequences, evaluate lines,
  classify and group lines (`FloorRefines`). Nothing that is not a fence is lost or duplicated
  (`Conservation`), the document is canonical (`CanonicalForm`), and printing it and deriving it
  again is the identity (`RederivingIsIdentity`). What opens and continues a diff and what is a
  fence is proved on whole byte streams with the bytes written out: a line stays in a diff if
  and only if it begins with one of five bytes or `diff --git` (`HunkGoesOn`, `TwoLines`), and
  what stands between two fences is one code block behind which the diff goes on
  (`FencedCode`).
* **Views replicate the log.** For every sequence of log calls, a view started empty that
  replays the events is the snapshot, index included (`ViewSimulatesLog`). A view seeded in
  mid-session, between any two sink calls, is exact but for the one block open at that moment
  (`LateSubscriber`), and ends up exact if and only if no block was open
  (`LateSubscriberCompletes`).
* **Every published stream is disciplined**, for both adapters and every run
  (`EventDiscipline`, `FinishedDiscipline`), so a consumer that misses events can tell from the
  very next one (`MissedEventsShow`), and the log after `finish` is complete
  (`FinishCompletes`).
* **Sharing is race-free.** In a step system with the lock, the send and the bounded queue as
  separate atomic steps, and under every interleaving with either adapter's sink calls, a
  subscriber that has not lagged follows the log from the blocks it was returned, but for one
  that was unfinished then (`SubscriberFollows`). A renderer that re-reads after every receive
  shows the log whenever it waits (`RendererShowsLog`). A lag is exactly a loss of events, and
  none is lost within the channel's capacity (`LagLosesEvents`); without the lock an append
  could be counted twice (`UnlockedSubscribeCountsTwice`). And it makes progress: a receive
  hands over exactly the oldest queued event (`ReceiveDelivers`), enough of them all
  (`ReceivesDrain`), and an overflow leaves exactly the newest ones (`LagSkipsToNewest`).
* **Flipping is lossless.** Every byte that arrives while the pump runs reaches the engine and
  the screen, in every mode: what was received is what arrived before the pump ended, read off
  the happenings (`OutputIsRecorded`, `ScreenSeesOutput`). Frame boundaries, mode flips, keys,
  resizes, subscriptions and receives do not influence the document (`FramesDoNotMatter`,
  `FlippingIsLossless`), which is exactly the specified document of that output
  (`SessionShowsDocument`; `ArrivedIsShown` for a session that is not left), and which the
  structured view shows whenever it waits (`ViewShowsLog`) and comes to show
  (`ViewCatchesUp`).
* **Keys arrive.** Text typed in Interact goes out character by character in UTF-8
  (`TypedTextIsSent`); a read in Raw queues exactly what the reference parse says was typed
  and leaves the session where that parse ends (`ReadIsVisited`); and a session ends if and
  only if the user leaves it or cannot send any more (`WhatQuits`).
* **Watch queues nothing.** What is sent is an in-order prefix of what was queued in Interact
  and Raw, with nothing after a stop (`WatchQueuesNothing`). In Watch only that backlog goes out
  (`WatchSendsBacklogOnly`): it is silent if and only if nothing is left for the pump to
  take (`WatchIsSilent`).
* **Read boundaries do not matter in Raw**: a visit sends and ends as the reference grammar
  reads the whole input (`RunRaw`, `ParseConcat`, `InputIsConsumed`).
* **Menus.** The menu found is that of the last stretch of two or more rows that are written
  as options, and it selects the last of them that is in reverse video or marked by one of the
  five markers after white space (`ListedMenu`, `MarkedRows`, `OfferedRows`); a prompt is found
  if and only if the last row that is not blank asks (`PromptFound`). The keys synthesized for an
  option are right for it (`PicksAreExact`), and for it alone if and only if no other option of
  the menu is offered on the same hotkey (`PickIsUnambiguous`).
* **Sealed history** opens for exactly its recipients, and replays to exactly this device's
  terminal output (`SealedOpens`, `ReplayIsTerminalOutput`). In any line, the first stanza that is
  not skipped decides (`FirstStanzaDecides`).

## Where the code and its documentation differ

The model follows the code; each difference is a lemma.

* `stream.rs:5` says consumers seed a view from a snapshot and replay events onto it. A seeded
  view knows no ids: the block open at that moment never changes in it
  (`LateSubscriberCompletes`, `SubscriberCompletes`), and a truncation is replayed correctly if
  and only if the view was not seeded (`TruncateNeedsAnUnseededView`; `SeededTruncatePanics` is
  a concrete run that panics).
* `derive/floor.rs:3` says control sequences are stripped. Control sequences and command
  strings are (`EscapesAreInvisible`). An escape sequence `ESC I...I F` is invisible if and only
  if it has no intermediate byte: `ESC ( B` shows a stray `B` (`IntermediatesShow`). A device
  control string, or any other control string that is not an operating system command, is fed
  as its bare body, from which only the escape sequences in it are stripped: it is invisible if
  and only if nothing but control bytes the line editor drops are left of it
  (`ControlStringsShow`). Without an ESC in the body these are the only bytes it may hold, such
  as VT and FF (`PlainControlStringsShow`), and a printable body shows
  (`PrintableControlStringsShow`).
* `derive/claude_code.rs:6` says one Markdown block per assistant turn. Consecutive turns with
  no listing or result in between are one block: `AssistantTurnsMerge` is a concrete pair, and
  two events stay apart if and only if the first does not end in prose or the second does not
  begin with it (`EventsStayApart`; `LinesStayApart` for any list of lines, and
  `OutputStaysApart` for any output). And one turn can be
  several Markdown blocks: `ToolUseSplitsTurn` is a concrete message, and an event gives exactly
  one if and only if it says something and no prose after a listing (`AssistantOneMarkdown`).
* `derive/claude_code.rs:12-13` says a line that does not parse is surfaced, so nothing is
  lost. That holds of newline-terminated lines (`UnparsedLinesShown`); an unterminated last line
  that does not parse leaves no trace (`UnterminatedTailIsDropped`).
* `derive/menu.rs:6` says runs of numbered or bulleted option lines are recognised. A bullet alone
  does not make an option line: what follows it must be numbered or a letter or digit in
  brackets (`OptionLines`, `BulletedLine`), so `* ab` is none (`BulletedWordIsNoOption`).
* `mode.rs:4` and `mode.rs:10` say Watch transmits nothing. The pump does not look at the mode,
  so a key typed in Interact can go out after the flip (`WatchSendsTypedKey`); Watch is silent
  if and only if the pump has ended or drained the queue (`WatchIsSilent`). The comment at `mode.rs:41` on
  `is_readonly` is the wrong way round: the modes that queue input are those for which it is
  false (`WatchQueuesNothing`).

## Model

| member | source | states |
|---|---|---|
| Bytes.LossyIdempotent | crates/dd-client-session/src/derive/floor.rs:86 | replacement decoding yields well-formed text, so decoding a derived line again changes nothing |
| Unicode.EncodeIsWellFormed | crates/dd-client-cli/src/session_ui.rs:312 | a forwarded character goes out as one well-formed UTF-8 character |
| Unicode.GoodExactlyCharacters | crates/dd-client-session/src/derive/floor.rs:86 | a decoding step finds a well-formed character at the front if and only if the encoding of some character stands there, and takes exactly it |
| Unicode.LossyReadsCharacters | crates/dd-client-session/src/derive/floor.rs:86 | replacement decoding keeps each encoded character, and puts U+FFFD for each maximal ill-formed part |
| Unicode.TrimStartSplits | crates/dd-client-session/src/derive/menu.rs:99 | trimming the start takes away white-space characters only, and stops at the first character that is none |
| Unicode.TrimSplits | crates/dd-client-session/src/derive/menu.rs:121 | trimming takes away white-space characters at both ends and leaves none there |
| Unicode.BlankIsWhite | crates/dd-client-session/src/derive/menu.rs:74 | a row trims to nothing if and only if it is white space only |
| Blocks.Empty | crates/dd-client-session/src/block.rs:67-88 | a new block is of its kind, shows no text, is unfinished if it is textual, and offers and submits nothing |
| Blocks.ApplyPatch | crates/dd-client-session/src/stream.rs:134-154 | appended text goes to the end of a block's text, replacing text takes its place, a menu's selection or state and an input's submission change as asked; a patch of another kind changes nothing, and kind, language and completeness never change |
| Blocks.MarkComplete | crates/dd-client-session/src/stream.rs:156-163 | a textual block becomes complete and keeps its text, kind and language; other blocks do not change |
| Stream.BlockLog.constructor | crates/dd-client-session/src/stream.rs:21-23 | a new log is empty and its index is the inverse of its ids |
| Stream.BlockLog.Append | crates/dd-client-session/src/stream.rs:26-32 | a fresh id, an empty block of the kind at the end, the event; the index stays the exact inverse of the id order |
| Stream.BlockLog.Patch | crates/dd-client-session/src/stream.rs:36-42 | a known block is patched and its revision bumped and published; an unknown id changes nothing and publishes nothing |
| Stream.BlockLog.Finalize | crates/dd-client-session/src/stream.rs:46-52 | a known block is completed and its revision bumped and published; an unknown id changes nothing |
| Stream.BlockLog.Truncate | crates/dd-client-session/src/stream.rs:55-61 | the named block and everything after it go, from the index too; ids already handed out stay used |
| Stream.BlockLog.TakeSnapshot | crates/dd-client-session/src/stream.rs:64-66 | the blocks, in order |
| Stream.RemoveIds | crates/dd-client-session/src/stream.rs:57-59 | the drain loop removes exactly the drained ids from the index |
| Stream.BlockView.FromSnapshot | crates/dd-client-session/src/stream.rs:91-97 | a seeded view shows the snapshot and knows no ids |
| Stream.BlockView.Apply | crates/dd-client-session/src/stream.rs:105-131 | the effect of each event on the view, and exactly when the code would panic |
| Stream.PositionUnique | crates/dd-client-session/src/stream.rs:14-18 | an id stands at one position only |
| Stream.StepKeepsValid | crates/dd-client-session/src/stream.rs:26-61 | every call keeps ids strictly increasing and below the next id, and a call that publishes nothing changes nothing |
| Stream.RunFollowed | crates/dd-client-session/src/stream.rs:3-6 | the returned events alone reproduce the log of any run, ids and revisions included |
| Stream.IdsAreFresh | crates/dd-client-session/src/stream.rs:26-32 | over any run, truncations included, appended ids are consecutive and never reused |
| Stream.ViewSimulatesLog | crates/dd-client-session/src/stream.rs:103-131 | for every sequence of calls, a view started empty that replays the events equals the snapshot, never panics, and its index is the inverse of its order |
| Stream.TrackRun | crates/dd-client-session/src/stream.rs:103-131 | the same from any moment, for views seeded from a snapshot when nothing is truncated |
| Stream.TruncateNeedsAnUnseededView | crates/dd-client-session/src/stream.rs:86-97 | a replayed truncation leaves exactly the log's blocks and no dangling index entry if and only if the view was started empty, which then goes on following the log |
| Stream.SeededTruncatePanics | crates/dd-client-session/src/stream.rs:122-127 | a concrete run of the log whose two events panic a view seeded from its snapshot |
| Document.BlockSink.Append | crates/dd-client-session/src/engine.rs:125-130 | the log is appended to and the event published |
| Document.BlockSink.Patch | crates/dd-client-session/src/engine.rs:132-137 | the log is patched and the event, if there is one, published |
| Document.BlockSink.Finalize | crates/dd-client-session/src/engine.rs:139-144 | the block is completed and the event, if there is one, published |
| Document.BlockSink.Truncate | crates/dd-client-session/src/engine.rs:146-151 | the log is truncated and the event, if there is one, published |
| Document.ExecDraws | crates/dd-client-session/src/derive/mod.rs:21-26 | the snapshot after any adapter commands is the document drawn without ids or revisions |
| Document.ExecDisciplined | crates/dd-client-session/src/block.rs:141-156 | bracketed commands publish a stream with one open block at a time and fresh ids, revisions without a gap, and leave at most the last block open |
| Document.Lifecycle | crates/dd-client-session/src/block.rs:141-156 | in such a stream each block has one append, revisions 1, 2, 3 and so on, and at most one finalize, last |
| Document.LossIsDetected | crates/dd-client-session/src/block.rs:13-15 | if some events of a disciplined stream are missed, the very next one received does not fit the ids and revisions seen |
| Document.SeededViewFollows | crates/dd-client-session/src/stream.rs:86-131 | a view seeded at any moment agrees with the log everywhere but, at most, at the block that was open then |
| FloorRefinement.FloorRefines | crates/dd-client-session/src/derive/floor.rs:85-210 | for every byte stream the one-pass floor, flushed once, gives the document of the three-stage specification |
| FloorRefinement.FeedIsStaged | crates/dd-client-session/src/derive/floor.rs:145-200 | the byte loop is the composition of escape automaton, line editor and grouper, from every state |
| FloorRefinement.ScreenStrips | crates/dd-client-session/src/derive/floor.rs:178-197 | the escape automaton lets through exactly what is left when escape sequences are cut out by length |
| FloorRefinement.EditorEvaluatesLines | crates/dd-client-session/src/derive/floor.rs:148-177 | the line editor hands on, for each LF, the value of the last carriage-return piece with a mark on it |
| FloorRefinement.GrouperSegments | crates/dd-client-session/src/derive/floor.rs:85-129 | the grouper draws the maximal runs of the classified lines, fences opening and closing code, a diff surviving a fence |
| Floor.FeedConcat | crates/dd-client-session/src/derive/floor.rs:3-4 | state persists across feed boundaries: two feeds are one feed of both |
| Floor.FeedBracketed | crates/dd-client-session/src/derive/floor.rs:58-129 | the floor writes only to the block it opened last and closes it before it opens another |
| Floor.FloorAdapter.constructor | crates/dd-client-session/src/derive/floor.rs:38-49 | the initial state |
| Floor.FloorAdapter.EnsureOpen | crates/dd-client-session/src/derive/floor.rs:58-68 | afterwards the open block has the kind asked for, another kind having been finalized first, and is the last of the log |
| Floor.FloorAdapter.CloseOpen | crates/dd-client-session/src/derive/floor.rs:92-99 | the open block, if any, is finalized |
| Floor.FloorAdapter.OpenCode | crates/dd-client-session/src/derive/floor.rs:97-103 | any open block is finalized and a code block opened |
| Floor.FloorAdapter.WriteLine | crates/dd-client-session/src/derive/floor.rs:79-83 | the line and a newline go to a block of the kind |
| Floor.FloorAdapter.EmitLine | crates/dd-client-session/src/derive/floor.rs:85-129 | one line's effect on fence state, diff state and the log |
| Floor.FloorAdapter.RewriteIfPendingCr | crates/dd-client-session/src/derive/floor.rs:72-77 | a pending carriage return clears the line |
| Floor.FloorAdapter.TakeByte | crates/dd-client-session/src/derive/floor.rs:146-198 | one byte's effect on automaton, line and log |
| Floor.FloorAdapter.FeedBytes | crates/dd-client-session/src/derive/floor.rs:145-200 | a feed is its bytes, one after the other |
| Floor.FloorAdapter.FlushBuffered | crates/dd-client-session/src/derive/floor.rs:202-210 | a partial line is emitted and the open block finalized; automaton, carriage return, fence and diff state stay |
| FloorLaws.Conservation | crates/dd-client-session/src/derive/floor.rs:79-129 | the block texts together are every line that is not a fence, in order, each once |
| FloorLaws.CanonicalForm | crates/dd-client-session/src/derive/floor.rs:58-138 | no two Markdown and no two Diff blocks are adjacent, neither is empty, all blocks are complete, diff blocks hold diff lines only, no block holds a fence |
| FloorLaws.RederivingIsIdentity | crates/dd-client-session/src/derive/floor.rs:79-138 | printing a derived document and deriving it again gives the same blocks |
| FloorLaws.LinesRoundTrip | crates/dd-client-session/src/derive/floor.rs:148-177 | lines the floor can produce, written out with LF, are read back as themselves |
| FloorEscapes.EscapesAreInvisible | crates/dd-client-session/src/derive/floor.rs:146-199 | inserting a control sequence or a terminated command string where the automaton is in its normal state changes nothing the floor does |
| FloorEscapes.OtherEscapesEndAfterOneByte | crates/dd-client-session/src/derive/floor.rs:178-182 | any other escape sequence ends after one byte, and what follows is fed as text |
| FloorEscapes.ControlStringIsItsBody | crates/dd-client-session/src/derive/floor.rs:178-197 | a terminated DCS, SOS, PM or APC string, whatever its body, gives the same document as what is left of body and terminator when they are stripped by themselves |
| FloorEscapes.ControlStringsShow | crates/dd-client-session/src/derive/floor.rs:178-197 | such a string is invisible in every context if and only if only control bytes the editor drops are left of its body |
| FloorEscapes.PlainControlStringsShow | crates/dd-client-session/src/derive/floor.rs:178-182 | without an ESC in the body, if and only if the body itself holds only such control bytes |
| FloorEscapes.PrintableControlStringsShow | crates/dd-client-session/src/derive/floor.rs:178-182 | with a printable body it is invisible in every context if and only if the body is empty |
| FloorEscapes.IntermediatesShow | crates/dd-client-session/src/derive/floor.rs:178-182 | a plain escape sequence is invisible in every context if and only if it has no intermediate byte |
| FloorForms.OneLine | crates/dd-client-session/src/derive/floor.rs:85-138 | a line by itself is a code block if it is three backticks after white space, a diff if it opens one and looks like one, and prose otherwise |
| FloorForms.TwoLines | crates/dd-client-session/src/derive/floor.rs:85-138 | of two lines that are no fences, each is in a diff if and only if it begins with one of the five bytes or `diff --git`, and a diff was open or it opens one; equal kinds are one block |
| FloorForms.HunkGoesOn | crates/dd-client-session/src/derive/floor.rs:107-138 | after a line `@@ ...` the next line stays in the diff if and only if it begins with `+`, `-`, space, `@` or `\` or with `diff --git`; otherwise it is prose |
| FloorForms.DiffGitGoesOn | crates/dd-client-session/src/derive/floor.rs:107-138 | the same after a line `diff --git ...` |
| FloorForms.HunkLine | crates/dd-client-session/src/derive/floor.rs:132-138 | a hunk header and a line that begins with `+`, `-`, `@` or `\` are one diff of both, whatever follows on either line |
| FloorForms.TabIsSpace | crates/dd-client-session/src/derive/floor.rs:165-169 | outside escape sequences a tab counts as one space |
| FloorForms.ReturnBeforeLineFeed | crates/dd-client-session/src/derive/floor.rs:150-159 | a carriage return before a line feed changes nothing |
| FloorForms.ReturnRewrites | crates/dd-client-session/src/derive/floor.rs:72-77 | content after a carriage return takes the place of the content before it |
| FloorForms.BackspaceTakesBack | crates/dd-client-session/src/derive/floor.rs:160-164 | a byte and a backspace after it leave no trace |
| FloorForms.BackspaceOnEmptyLine | crates/dd-client-session/src/derive/floor.rs:160-164 | a backspace on an empty line leaves no trace |
| FloorForms.OtherControlsAreDropped | crates/dd-client-session/src/derive/floor.rs:170-171 | every other control byte but ESC leaves no trace |
| FenceForms.FencedCode | crates/dd-client-session/src/derive/floor.rs:85-129 | the lines between two fences are one code block as they are written, whatever they look like; a diff that was open before goes on behind it |
| FenceForms.UnterminatedLine | crates/dd-client-session/src/derive/floor.rs:201-210 | a last line without a line feed counts as if it had one |
| FenceForms.FlushOfNothing | crates/dd-client-session/src/derive/floor.rs:201-210 | flushing with nothing buffered finalizes the open block and forgets it, and nothing else |
| FenceForms.FlushEndsLine | crates/dd-client-session/src/derive/floor.rs:201-210 | flushing a buffered line is flushing after its line feed, in commands and state |
| ClaudeCode.AdapterRefines | crates/dd-client-session/src/derive/claude_code.rs:37-161 | for every byte stream the document is the turns of its terminated lines and, if it parses, of the unterminated tail |
| ClaudeCode.TurnsStayApart | crates/dd-client-session/src/derive/claude_code.rs:37-61 | the turns of two lists of items stay apart if and only if prose does not end the one and begin the other |
| ClaudeCode.OutputStaysApart | crates/dd-client-session/src/derive/claude_code.rs:37-61 | after any terminated lines, further output gives the blocks it would give by itself if and only if prose does not meet prose |
| ClaudeCode.EventsStayApart | crates/dd-client-session/src/derive/claude_code.rs:63-105 | two events give separate blocks if and only if the first does not end in prose or the second does not begin with it |
| ClaudeCode.LinesStayApart | crates/dd-client-session/src/derive/claude_code.rs:129-150 | for every list of lines, parsed or not, the document is the lines' own documents one after the other if and only if no line ends in prose while the next line that says anything begins with it |
| ClaudeCode.AssistantTurnsMerge | crates/dd-client-session/src/derive/claude_code.rs:6 | two assistant turns of one text each are one Markdown block |
| ClaudeCode.AssistantOneMarkdown | crates/dd-client-session/src/derive/claude_code.rs:80-105 | one assistant event gives exactly one Markdown block if and only if it says something and no prose after a listing |
| ClaudeCode.ToolUseSplitsTurn | crates/dd-client-session/src/derive/claude_code.rs:6-7 | a concrete message of text, a tool use with input, and text: its line gives two Markdown blocks around a listing |
| ClaudeForms.TextIsMarkdown | crates/dd-client-session/src/derive/claude_code.rs:80-90 | an assistant text alone is one Markdown block of it and a newline |
| ClaudeForms.ToolUseIsHeaderAndCode | crates/dd-client-session/src/derive/claude_code.rs:91-101 | a tool use is a Markdown header with its name and a code block with its input |
| ClaudeForms.InputlessIsHeader | crates/dd-client-session/src/derive/claude_code.rs:91-101 | a tool use without input is its header alone |
| ClaudeForms.NamelessIsTool | crates/dd-client-session/src/derive/claude_code.rs:92 | a tool use without a name is headed `tool` |
| ClaudeForms.OtherAssistantBlocksAreSilent | crates/dd-client-session/src/derive/claude_code.rs:80-105 | assistant content of any other type shows nothing |
| ClaudeForms.ToolOutputIsCode | crates/dd-client-session/src/derive/claude_code.rs:107-121 | a tool output is one code block: the text of a string as it is, anything else pretty-printed, and a newline |
| ClaudeForms.ToolOutputsInOrder | crates/dd-client-session/src/derive/claude_code.rs:107-121 | the outputs of one event are a code block each, in order |
| ClaudeForms.OtherUserBlocksAreSilent | crates/dd-client-session/src/derive/claude_code.rs:107-121 | user content of another type, or a tool result without content, shows nothing |
| ClaudeForms.ResultIsMarkdown | crates/dd-client-session/src/derive/claude_code.rs:63-78 | a result is a Markdown block of its own, and one that is no string shows nothing |
| ClaudeForms.BareResultIsSilent | crates/dd-client-session/src/derive/claude_code.rs:63-78 | a result event without a result shows nothing |
| ClaudeForms.ResultEndsProse | crates/dd-client-session/src/derive/claude_code.rs:63-78 | a result keeps the prose before and after it apart, even one that shows nothing |
| ClaudeForms.OtherEventsAreSilent | crates/dd-client-session/src/derive/claude_code.rs:63-78 | events of any other type show nothing |
| ClaudeForms.NoContentIsSilent | crates/dd-client-session/src/derive/claude_code.rs:80-121 | neither do assistant and user events whose message has no content array |
| ClaudeForms.UnparsedLine | crates/dd-client-session/src/derive/claude_code.rs:131-149 | a terminated line that does not parse is a Markdown block of itself, unless it holds only the five ASCII white-space bytes |
| ClaudeForms.ParsedTailCounts | crates/dd-client-session/src/derive/claude_code.rs:152-161 | an unterminated last line that parses counts as if it were terminated |
| ClaudeForms.LineCounts | crates/dd-client-session/src/derive/claude_code.rs:131-149 | a terminated line that is not blank is counted once, as parsed or as failed, whatever part of it was buffered before |
| ClaudeForms.TailCounts | crates/dd-client-session/src/derive/claude_code.rs:152-161 | the tail is counted only if it parses, and the buffer is left empty |
| ClaudeCode.FeedConcat | crates/dd-client-session/src/derive/claude_code.rs:129-150 | framing does not depend on how the bytes are cut into feeds |
| ClaudeCode.BufferHasNoNewline | crates/dd-client-session/src/derive/claude_code.rs:130-132 | a feed leaves no newline in the buffer |
| Splitting.SplitIsExact | crates/dd-client-session/src/derive/claude_code.rs:131-133 | the lines drained and the buffer left, joined by newlines, are exactly the bytes fed |
| ClaudeCode.FeedBracketed | crates/dd-client-session/src/derive/claude_code.rs:37-61 | a feed writes only to the block opened last and closes it before it opens another |
| ClaudeCode.FlushBracketed | crates/dd-client-session/src/derive/claude_code.rs:152-161 | a flush leaves no block open |
| ClaudeCode.UnparsedLinesShown | crates/dd-client-session/src/derive/claude_code.rs:142-147 | every non-blank terminated line that fails to parse appears in full in some Markdown block |
| ClaudeCode.UnterminatedTailIsDropped | crates/dd-client-session/src/derive/claude_code.rs:152-159 | an unparseable last line leaves no trace without its newline, and is shown with it |
| ClaudeCode.ClaudeCodeAdapter.constructor | crates/dd-client-session/src/derive/claude_code.rs:33-35 | the initial state |
| ClaudeCode.ClaudeCodeAdapter.CloseText | crates/dd-client-session/src/derive/claude_code.rs:37-41 | open prose is finalized |
| ClaudeCode.ClaudeCodeAdapter.PushMarkdown | crates/dd-client-session/src/derive/claude_code.rs:43-53 | text joins the open prose block, or opens one |
| ClaudeCode.ClaudeCodeAdapter.PushWhole | crates/dd-client-session/src/derive/claude_code.rs:58-60 | a block of its own: appended, written once, finalized |
| ClaudeCode.ClaudeCodeAdapter.PushCode | crates/dd-client-session/src/derive/claude_code.rs:55-61 | open prose ends and a listing follows |
| ClaudeCode.ClaudeCodeAdapter.HandleEvent | crates/dd-client-session/src/derive/claude_code.rs:63-78 | what each event type contributes, unknown types nothing |
| ClaudeCode.ClaudeCodeAdapter.HandleResult | crates/dd-client-session/src/derive/claude_code.rs:67-74 | a result ends the prose, and with text is a block of its own |
| ClaudeCode.ClaudeCodeAdapter.HandleAssistant | crates/dd-client-session/src/derive/claude_code.rs:80-105 | the content blocks of an assistant message, in order |
| ClaudeCode.ClaudeCodeAdapter.HandleAssistantBlock | crates/dd-client-session/src/derive/claude_code.rs:85-103 | text is prose; a tool use is a prose header and, if it has input, a listing |
| ClaudeCode.ClaudeCodeAdapter.HandleToolResult | crates/dd-client-session/src/derive/claude_code.rs:107-121 | the tool results of a user message, in order |
| ClaudeCode.ClaudeCodeAdapter.HandleToolBlock | crates/dd-client-session/src/derive/claude_code.rs:112-119 | a tool result with content is a listing |
| ClaudeCode.ClaudeCodeAdapter.HandleLine | crates/dd-client-session/src/derive/claude_code.rs:134-148 | a blank line is skipped, a parsed one handled and counted, any other shown and counted as an error |
| ClaudeCode.ClaudeCodeAdapter.DrainLine | crates/dd-client-session/src/derive/claude_code.rs:131-149 | the first line leaves the buffer and is handled |
| ClaudeCode.ClaudeCodeAdapter.FeedBytes | crates/dd-client-session/src/derive/claude_code.rs:129-150 | the drain loop ends, handles exactly the newline-split lines fed so far in order, and leaves no newline in the buffer |
| ClaudeCode.ClaudeCodeAdapter.FlushBuffered | crates/dd-client-session/src/derive/claude_code.rs:152-161 | the tail is handled if it parses, and the prose finalized |
| ClaudeCode.FindNewline | crates/dd-client-session/src/derive/claude_code.rs:131 | the position of the first newline |
| Engine.FramesDoNotMatter | crates/dd-client-session/src/engine.rs:53-62 | log, published events and adapter state depend only on the concatenation of the frames, for both adapters |
| Engine.EventDiscipline | crates/dd-client-session/src/block.rs:141-156 | over every unfinished run of either adapter: one append, revisions without a gap and at most one finalize per block, and a block is open exactly while its finalize is to come |
| Engine.FinishedDiscipline | crates/dd-client-session/src/block.rs:141-156 | after the final flush every block ever appended has had one append, revisions without a gap and one finalize, last |
| Engine.MissedEventsShow | crates/dd-client-session/src/block.rs:13-15 | the same for everything either adapter publishes, the final flush included |
| Engine.FeedKeepsSound | crates/dd-client-session/src/engine.rs:55-62 | every frame keeps the log valid, at most the last block open, and the published stream disciplined and sufficient to rebuild the log |
| Engine.FinishCompletes | crates/dd-client-session/src/engine.rs:64-70 | after the final flush all blocks are complete |
| Engine.FinishedDocument | crates/dd-client-session/src/engine.rs:53-70 | the finished log shows the adapter's document of all output |
| Engine.LateSubscriber | crates/dd-client-session/src/engine.rs:94-101 | a view seeded between any two sink calls, those of one frame included, and fed all later events agrees with the log but, at most, at the block then open |
| Engine.LateSubscriberCompletes | crates/dd-client-session/src/stream.rs:86-97 | by the end of the session such a view equals the log if and only if no block was open at that sink call |
| Engine.SessionEngine.WithFloor | crates/dd-client-session/src/engine.rs:37-39 | a fresh engine over the floor |
| Engine.SessionEngine.WithClaude | crates/dd-client-session/src/engine.rs:43-51 | a fresh engine over the stream-json adapter |
| Engine.SessionEngine.Feed | crates/dd-client-session/src/engine.rs:55-62 | one frame drives the adapter, and its mutations are logged and published |
| Engine.SessionEngine.FinishOutput | crates/dd-client-session/src/engine.rs:66-70 | the adapter is flushed into the log |
| Engine.SessionEngine.TakeSnapshot | crates/dd-client-session/src/engine.rs:104-106 | the current blocks |
| Sharing.AfterKeepsInv | crates/dd-client-session/src/engine.rs:116-151 | under every interleaving log, sent events, lock holder and subscribers stay consistent |
| Sharing.SubscriberCatchesUp | crates/dd-client-session/src/engine.rs:94-101 | for a subscriber that has not lagged, the log at the moment of its snapshot plus the events delivered since and those queued is the current log |
| Sharing.SubscriberFollows | crates/dd-client-session/src/engine.rs:94-151 | under every interleaving of either adapter's sink calls with subscribes and receives, replaying delivered and queued events on the blocks returned gives the log, except where those blocks show their last one unfinished |
| Sharing.SubscriberCompletes | crates/dd-client-session/src/engine.rs:94-151 | once the adapter has made all its calls, such a subscriber shows the log if and only if no block it was returned was unfinished |
| Sharing.RendererShowsLog | crates/dd-client-cli/src/session_ui.rs:159-168 | a renderer that re-reads after every receive or lag shows exactly the log whenever it waits with an empty queue |
| SharingProgress.ReceiveDelivers | crates/dd-client-session/src/engine.rs:94-101 | after any run, a receive of a subscriber whose queue has not overflown hands over exactly the oldest queued event and moves on by one |
| SharingProgress.ReceivesDrain | crates/dd-client-session/src/engine.rs:94-101 | so many receives in a row hand over so many events, the oldest first |
| SharingProgress.DrainedHasAll | crates/dd-client-session/src/engine.rs:94-101 | a subscriber that has not lagged and receives what is queued has been given everything published since it subscribed |
| SharingProgress.LagSkipsToNewest | crates/dd-client-session/src/engine.rs:19 | a receive that finds the queue overflown leaves exactly the newest events the channel retains |
| SharingProgress.EmptyReceive | crates/dd-client-session/src/engine.rs:94-101 | with nothing queued a receive changes nothing |
| SharingProgress.CallTakesEffect | crates/dd-client-session/src/engine.rs:125-151 | from a free lock a sink call changes the log as asked, publishes its event and frees the lock |
| SharingProgress.SubscribeTakesEffect | crates/dd-client-session/src/engine.rs:94-101 | from a free lock a subscriber gets the snapshot of the log as it is and a receiver for everything later |
| SharingProgress.ReadTakesEffect | crates/dd-client-cli/src/session_ui.rs:159-168 | from a free lock a renderer that reads shows the log as it is and waits |
| SharingProgress.HolderExcludes | crates/dd-client-session/src/engine.rs:116-151 | while one holds the lock, no other action that needs it takes effect |
| Sharing.LagIsOverflow | crates/dd-client-session/src/engine.rs:19 | over every run, a subscriber has lagged if and only if one of its receives found more events queued than the channel retains |
| Sharing.LagLosesEvents | crates/dd-client-session/src/engine.rs:19 | over every run, a lag is exactly a loss of events, and none is lost while no more than the capacity was published since subscribing |
| Sharing.UnlockedSubscribeCountsTwice | crates/dd-client-session/src/engine.rs:94-99 | when receiver and snapshot are taken without the lock, an append that falls between is shown twice |
| Input.LexConcat | crates/dd-client-session/src/input.rs:31-36 | the grammar can be read in pieces, carrying only a held Ctrl-] |
| Input.ParseConcat | crates/dd-client-session/src/input.rs:43-71 | two feeds, with adjacent forwards merged, are one feed of both and end equally armed |
| Input.ParseCanonical | crates/dd-client-session/src/input.rs:43-89 | forwards are non-empty, hold no Ctrl-D and are never adjacent within a feed |
| Input.CanonicalIsMerged | crates/dd-client-session/src/input.rs:85-89 | the actions of a feed are the only canonical list with its tokens |
| Input.MergeFlattens | crates/dd-client-session/src/input.rs:85-89 | collecting bytes into forwards loses and reorders nothing |
| Input.InputIsConsumed | crates/dd-client-session/src/input.rs:43-82 | the input is the bytes consumed by the actions in order, plus one held Ctrl-] exactly when armed |
| Input.ChordParser.constructor | crates/dd-client-session/src/input.rs:39-41 | a new parser is not armed |
| Input.ChordParser.ConsumePlain | crates/dd-client-session/src/input.rs:73-82 | Ctrl-] arms, Ctrl-D flushes and stops, any other byte is pending |
| Input.ChordParser.Feed | crates/dd-client-session/src/input.rs:43-71 | the byte loop gives exactly the grouped tokens of the reference grammar, and its armed flag |
| InputForms.ChordTokens | crates/dd-client-session/src/input.rs:43-82 | after any plain typing, 0x1d 0x09 leaves Raw, 0x1d 0x1d and 0x1d 0x64 detach, 0x04 ends the input, and 0x1d before any other byte is typed as it stands |
| InputForms.ChordActions | crates/dd-client-session/src/input.rs:43-89 | the actions of one read that ends in each of these, the bytes typed before it forwarded first |
| InputForms.HeldActions | crates/dd-client-session/src/input.rs:43-71 | the actions of the byte after a read that ended in 0x1d |
| Input.MenuSelectKeys | crates/dd-client-session/src/input.rs:94-111 | a hotkey's byte, or as many arrows as rows lie between and Enter |
| Input.SelectionConfirmsTarget | crates/dd-client-session/src/input.rs:91-93 | without a hotkey the keys confirm exactly the target, in any menu, clamping or wrapping |
| Menus.OptionLines | crates/dd-client-session/src/derive/menu.rs:103-145 | a line is an option line if and only if, its marker aside, it is written as a number and `.` or `)`, or as a letter or digit in brackets, before a label that is not blank; label and hotkey are those written |
| Menus.BulletedLine | crates/dd-client-session/src/derive/menu.rs:6-7 | what follows a bullet must begin with a digit or an opening bracket for the line to be an option line |
| Menus.BulletedWordIsNoOption | crates/dd-client-session/src/derive/menu.rs:6-7 | a concrete bulleted line that is no option line |
| Menus.NumberedLineParses | crates/dd-client-session/src/derive/menu.rs:116-127 | a written numbered option is parsed back to its label, with its number as hotkey exactly when it is one digit |
| Menus.ScanRuns | crates/dd-client-session/src/derive/menu.rs:31-46 | the nested scan ends with the last maximal run of two or more option rows, or none exists |
| Menus.PairsAreRuns | crates/dd-client-session/src/derive/menu.rs:30-46 | there is such a run if and only if two consecutive rows are option rows |
| Menus.LastRunUnique | crates/dd-client-session/src/derive/menu.rs:30-46 | the last run is one definite run |
| Menus.CollectOptions | crates/dd-client-session/src/derive/menu.rs:48-66 | options stand for the run's rows one for one and in order, the last marked row is selected, and the early return never fires |
| Menus.DetectOptionList | crates/dd-client-session/src/derive/menu.rs:28-67 | a list is found if and only if two consecutive rows are option rows, and it lists the last run |
| Menus.YesNoOnLastRow | crates/dd-client-session/src/derive/menu.rs:69-96 | a prompt is found if and only if there is text on the screen and its last row asks yes or no; that row is the title and the two answers are offered on y and n |
| Menus.DetectMenu | crates/dd-client-session/src/derive/menu.rs:21-26 | a list wins over a prompt, and any menu found is live, has two options or more, hotkeys that are ASCII letters or digits, and a selection in range |
| MenuForms.MarkedRows | crates/dd-client-session/src/derive/menu.rs:98-101 | a row is marked if and only if, after nothing but white space, one of the bytes of `>`, `*`, U+276F, U+27A4 or U+25CF stands in it |
| MenuForms.UnmarkedRows | crates/dd-client-session/src/derive/menu.rs:106-111 | what is read as the option is what follows white space, at most one marker and white space |
| MenuForms.OfferedRows | crates/dd-client-session/src/derive/menu.rs:106-145 | a row offers a label on a hotkey if and only if it is so written, marker and white space aside |
| MenuForms.OptionRows | crates/dd-client-session/src/derive/menu.rs:34-57 | the flags and marks the scan reads are whether the row offers something, and whether it is in reverse video or marked |
| MenuForms.ListsAreMenus | crates/dd-client-session/src/derive/menu.rs:48-66 | the options are those the rows offer, in order, with their row numbers in 16 bits; option k is selected if and only if its row is shown as selected and no later row of the stretch is |
| MenuForms.ListedMenu | crates/dd-client-session/src/derive/menu.rs:28-67 | a menu lists the last run if and only if it is the menu of the last stretch of two or more rows that offer something, read off the rows; there is one if and only if two such rows stand together |
| MenuForms.AskingRows | crates/dd-client-session/src/derive/menu.rs:76-79 | a row asks if and only if `(y/n)`, `[y/n]` or `(yes/no)` stands in it, in letters of either case |
| MenuForms.PromptFound | crates/dd-client-session/src/derive/menu.rs:69-96 | the prompt found is Yes on y and No on n, titled with the last row that is not white space, and there is one if and only if that row asks |
| Menus.PicksAreExact | crates/dd-client-session/src/input.rs:91-111 | any option of a detected menu is sent as its hotkey, unchanged, or as arrow keys that confirm its row |
| Menus.PickIsUnambiguous | crates/dd-client-session/src/input.rs:91-111 | the keys sent for an option may always be taken for it, and for no other if and only if no other option has its hotkey |
| Menus.SameNumberIsFound | crates/dd-client-session/src/derive/menu.rs:28-46 | two rows with one number are found as an option list |
| Menus.SameNumberSharesHotkey | crates/dd-client-session/src/derive/menu.rs:116-124 | a concrete menu: two rows with one number share its hotkey |
| SessionUi.HandleActions | crates/dd-client-cli/src/session_ui.rs:286-299 | the actions of one read send and end as the reference visit says, and a refused send ends the visit with a prefix sent |
| SessionUi.HandleRead | crates/dd-client-cli/src/session_ui.rs:282-300 | one read of a Raw visit: while nothing ends the visit all that was typed is plain and sent, and an ending is that of the whole input |
| SessionUi.RunRaw | crates/dd-client-cli/src/session_ui.rs:277-301 | whatever the read boundaries, the bytes queued in a Raw visit and its ending are those of all input up to the first empty read, cut at its first terminal action |
| SessionUi.PlayKeepsSafe | crates/dd-client-session/src/transport.rs:39-60 | every happening keeps the mode, the queue and the wire consistent |
| SessionUi.WatchQueuesNothing | crates/dd-client-cli/src/session_ui.rs:227-257 | for every run nothing is queued in Watch, what is sent is an in-order prefix of what was queued, and nothing follows a stopping message |
| SessionUi.WatchSendsBacklogOnly | crates/dd-client-session/src/transport.rs:39-60 | while the session stays in Watch nothing joins the queue, and once the pump has drained it nothing is sent |
| SessionUi.WatchIsSilent | crates/dd-client-session/src/mode.rs:3-10 | in any reachable session in Watch, nothing is ever sent while it stays there if and only if the pump has ended or drained the queue |
| SessionUi.WatchSendsTypedKey | crates/dd-client-session/src/mode.rs:10 | a concrete run: a key typed in Interact goes out after the flip to Watch |
| Flipping.FlippingIsLossless | crates/dd-client-cli/src/session_ui.rs:66-95 | two sessions in which the same bytes arrived before the pump ended have the same log and events, whatever the frames, keys, flips, resizes, subscriptions and receives |
| Flipping.OutputIsRecorded | crates/dd-client-cli/src/session_ui.rs:66-81 | while the pump runs the output received is all that has arrived, in every mode; once it has ended, what arrived before the happening that ended it |
| Flipping.PumpEnds | crates/dd-client-session/src/transport.rs:39-60 | a running pump ends if and only if the socket ends, a message cannot be sent or stops it, or the client has gone and nothing is queued |
| Flipping.ConnectedRuns | crates/dd-client-session/src/transport.rs:39-60 | as long as the socket holds and the user has not left, the pump runs and all that has arrived is received |
| Flipping.ScreenSeesOutput | crates/dd-client-session/src/engine.rs:55-62 | the screen is given every byte received, in every mode and between any resizes |
| Flipping.ViewShowsLog | crates/dd-client-cli/src/session_ui.rs:109-168 | whenever the structured view waits with nothing queued for it, it shows exactly the log, after any flips, resizes and lags |
| Flipping.ViewCatchesUp | crates/dd-client-cli/src/session_ui.rs:159-168 | a structured view that stays open receives everything queued for it and then shows the log |
| Flipping.OverflowSkips | crates/dd-client-session/src/engine.rs:19 | a receiver more than 4096 events behind goes on with the oldest of the last 4096 |
| Flipping.SessionShowsDocument | crates/dd-client-cli/src/session_ui.rs:66-81 | once the pump has ended the log shows exactly the specified document of the output that arrived before it ended |
| Flipping.ArrivedIsShown | crates/dd-client-cli/src/session_ui.rs:66-81 | in a session that is not left, once the socket ends the log shows exactly the specified document of all bytes that arrived |
| SessionForms.NamedKeys | crates/dd-client-cli/src/session_ui.rs:306-325 | the bytes of every key that is no character |
| SessionForms.CharacterKeys | crates/dd-client-cli/src/session_ui.rs:308-312 | a character is sent in UTF-8, and a letter with Ctrl as the bytes 1 to 26 in either case |
| SessionForms.InteractForwards | crates/dd-client-cli/src/session_ui.rs:195-201 | in Interact every key that is not reserved is queued with its bytes, and nothing else changes |
| SessionForms.TabsCycle | crates/dd-client-cli/src/session_ui.rs:178-189 | Tab and Shift-Tab go to the next and the previous of Watch, Interact and Raw, and Raw begins with nothing held |
| SessionForms.WatchKeys | crates/dd-client-cli/src/session_ui.rs:238-246 | in Watch `q`, Esc and Ctrl-C quit and every other key leaves the session as it is |
| SessionForms.InteractKeeps | crates/dd-client-cli/src/session_ui.rs:229-255 | in Interact Ctrl-C quits and the paging keys leave the session as it is |
| SessionForms.QueueGrows | crates/dd-client-cli/src/session_ui.rs:227-257 | in any reachable session a happening queues at most one message, in the current mode, and none in Watch |
| SessionForms.PumpDelivers | crates/dd-client-session/src/transport.rs:39-52 | a running pump sends the waiting messages one by one and in order |
| SessionForms.StopIsSent | crates/dd-client-session/src/transport.rs:46-49 | a stopping message is sent before the pump ends and the output is finished |
| SessionForms.TypedTextIsSent | crates/dd-client-cli/src/session_ui.rs:195-201 | text typed in Interact while nothing waits goes out character by character in UTF-8 |
| SessionForms.ReadIsVisited | crates/dd-client-cli/src/session_ui.rs:282-300 | one read in Raw queues exactly what the reference parse of the held byte and the read says was typed, and leaves the session reading, gone, or in Watch with a fresh subscription, as that parse ends |
| SessionForms.OpensAsAsked | crates/dd-client-cli/src/session_ui.rs:60-64 | a session opens in the mode asked for with nothing queued |
| SessionForms.WhatQuits | crates/dd-client-cli/src/session_ui.rs:83-95 | a session ends if and only if the user leaves it, or there is something to send and the pump is gone |
| SessionForms.ResizeReaches | crates/dd-client-cli/src/session_ui.rs:173 | a resize in the structured modes reaches the screen and changes nothing else |
| History.DiffieHellmanAgrees | crates/dd-client-session/src/history.rs:101 | both sides of an exchange derive the same shared term |
| History.DiffieHellmanIsTheirs | crates/dd-client-session/src/history.rs:101 | two exchanges share a secret if and only if they are between the same two key pairs |
| History.OpenRecord | crates/dd-client-session/src/history.rs:85-119 | the first stanza that decrypts decides, a malformed one before it is an error, none at all is nothing |
| History.FirstStanzaDecides | crates/dd-client-session/src/history.rs:97-118 | the first stanza that is readable and not for another device decides: malformed it is an error, otherwise its content key opens the body; if there is none the line is nothing |
| History.BodyOpens | crates/dd-client-session/src/history.rs:109-116 | a content key gives a record if and only if it is a key and the body is that record sealed under it, and an error otherwise |
| History.LinesOpen | crates/dd-client-session/src/history.rs:89-96 | what is no line of version 2 with a body and its nonce is an error, and a line is nothing only if every stanza is readable and for another device |
| History.StanzaOpensForRecipient | crates/dd-client-session/src/history.rs:100-111 | a stanza gives its content key to exactly its recipient |
| History.SealedOpens | crates/dd-client-session/src/history.rs:83-119 | a record sealed to a list of recipients opens to the original for each of them, at any position, and to nothing for any other device |
| History.DecryptReplay | crates/dd-client-session/src/history.rs:123-138 | the loop is the in-order join of the opened lines, and fails exactly when one of them does |
| History.StringsConcat | crates/dd-client-session/src/history.rs:129 | the entries that are strings are read, in order, and the others are skipped wherever they stand |
| History.TerminalKinds | crates/dd-client-session/src/history.rs:133 | terminal output is of kind `pty`, `stdout` or `stderr` |
| History.ReplayConcat | crates/dd-client-session/src/history.rs:123-138 | replay distributes over concatenation of record lists, errors included |
| History.ReplayIsTerminalOutput | crates/dd-client-session/src/history.rs:121-138 | a sealed history replays to this device's pty, stdout and stderr data, in order, and fails if and only if one of those records does not decode |

## Left out

- The Noise handshake, the websocket, HTTP and key files (`dd-client-core`): network and calls into other crates. A frame is a byte string that arrives.
- `dd-client-core/src/ita.rs`: token checking is in another library.
- `derive/screen.rs`: the vt100 grid is another library; `ScreenSnapshot` is an input of menu detection. A session records the bytes and sizes its screen is given; the grid made of them and the repaint bytes are not modelled.
- Rendering, scrolling, terminal modes and the mirroring of output to the tty in Raw: user interface with no effect on queue, log or events. The scroll actions of a key count as one.
- The Swift client, the foreign-function layer, command-line arguments and the attach call.
- `confidence`, `integrity`, `label` and `last_id`: each is one match or one field. The other mode predicates are used in the session steps.
- Integer widths of ids, revisions and counters: 64 and 32 bits there, unbounded here. A menu row number is cut to 16 bits as in the code.
- The JSON grammar and pretty-printer: parameters of the adapter (`Codec`), so results hold for any parser. In `History` a sealed line is `None` when it is not that JSON.
- Hex and base64 decoding: a field is `None` where it does not decode to the right length.
- Cryptography: symbolic. A ciphertext opens under its own key and nonce only; randomness is a parameter of `Seal`, and keys of the wrong length are plaintexts that are not keys.
- Mutex poisoning and panics of other threads.
- The 256 places of the outbound queue: a send takes effect at once or is refused; waiting for a place is not a step of its own.
- The select order of the pump and the key reader thread: every interleaving of steps is allowed, which includes theirs.
- The adapter trait object: the engine holds one of the two adapters (`Engine.Adapter`).
- Full Unicode lower-casing in the yes/no prompt: lower-casing ASCII letters decides the same three prompts.
- Text: Rust strings are their UTF-8 bytes; hotkeys and keys are characters.
