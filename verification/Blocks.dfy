/** The chat-document datatypes (`block.rs`) and the in-place edits of a block
    (`apply_patch` and `set_complete` in `stream.rs`), as functions. */
module Blocks {
  import opened Bytes

  datatype MenuState = Live | Resolved(chosen: nat) | Stale
  datatype MenuOption = MenuOption(caption: Text, hotkey: Option<char>, rawRow: nat)
  datatype Menu = Menu(title: Option<Text>, options: seq<MenuOption>, selected: Option<nat>, state: MenuState)

  datatype InputKind = FreeForm | LineText | Password | YesNo
  datatype InputState = Awaiting | Submitted
  datatype InputPrompt = InputPrompt(prompt: Text, inputKind: InputKind, inputState: InputState)

  datatype BlockKind = MarkdownKind | CodeKind | DiffKind | MenuKind | InputKindOf | RawTerminalKind

  datatype Block =
    | Markdown(text: Text, complete: bool)
    | Code(lang: Option<Text>, text: Text, complete: bool)
    | Diff(text: Text, complete: bool)
    | MenuBlock(menu: Menu)
    | InputBlock(input: InputPrompt)
    | RawTerminal(screen: Text)
  {
    function Kind(): BlockKind {
      match this
      case Markdown(_, _) => MarkdownKind
      case Code(_, _, _) => CodeKind
      case Diff(_, _) => DiffKind
      case MenuBlock(_) => MenuKind
      case InputBlock(_) => InputKindOf
      case RawTerminal(_) => RawTerminalKind
    }

    /** Markdown, code or diff: the kinds the adapters write. */
    predicate Textual() { Markdown? || Code? || Diff? }
  }

  /** What a block shows as text. */
  function TextOf(b: Block): Text {
    match b
    case Markdown(t, _) => t
    case Code(_, t, _) => t
    case Diff(t, _) => t
    case RawTerminal(t) => t
    case _ => []
  }

  /** A block still being written. */
  predicate Unfinished(b: Block) { b.Textual() && !b.complete }

  predicate HoldsText(b: Block) { b.Textual() || b.RawTerminal? }

  predicate TextualKind(k: BlockKind) { k.MarkdownKind? || k.CodeKind? || k.DiffKind? }

  datatype BlockPatch =
    | AppendText(added: Text)
    | ReplaceText(replacement: Text)
    | MenuSelect(row: nat)
    | MenuResolve(row: nat)
    | InputSubmit

  datatype BlockEvent =
    | Append(id: nat, kind: BlockKind)
    | Update(id: nat, rev: nat, patch: BlockPatch)
    | Finalize(id: nat, rev: nat)
    | Truncate(from: nat)

  /** A new block is of its kind, says nothing yet and is unfinished if it is textual. */
  function Empty(kind: BlockKind): (r: Block)
    ensures r.Kind() == kind && TextOf(r) == [] && (Unfinished(r) <==> TextualKind(kind))
    ensures r.Code? ==> r.lang == None
    ensures r.MenuBlock? ==> r.menu.options == [] && r.menu.title == None && r.menu.selected == None && r.menu.state == Live
    ensures r.InputBlock? ==> r.input.inputState == Awaiting
  {
    match kind
    case MarkdownKind => Markdown([], false)
    case CodeKind => Code(None, [], false)
    case DiffKind => Diff([], false)
    case MenuKind => MenuBlock(Menu(None, [], None, Live))
    case InputKindOf => InputBlock(InputPrompt([], FreeForm, Awaiting))
    case RawTerminalKind => RawTerminal([])
  }

  function ApplyPatch(b: Block, p: BlockPatch): (r: Block)
    ensures r.Kind() == b.Kind()
    ensures b.Textual() ==> r.complete == b.complete
    ensures b.Code? ==> r.lang == b.lang
    ensures HoldsText(b) ==> TextOf(r) == if p.AppendText? then TextOf(b) + p.added
                                          else if p.ReplaceText? then p.replacement else TextOf(b)
    ensures b.MenuBlock? ==> r.menu.title == b.menu.title && r.menu.options == b.menu.options
    ensures b.MenuBlock? ==> r.menu.selected == if p.MenuSelect? then Some(p.row) else b.menu.selected
    ensures b.MenuBlock? ==> r.menu.state == if p.MenuResolve? then Resolved(p.row) else b.menu.state
    ensures b.InputBlock? ==> r.input == if p.InputSubmit? then b.input.(inputState := Submitted) else b.input
  {
    match (b, p)
    case (Markdown(t, c), AppendText(s)) => Markdown(t + s, c)
    case (Code(l, t, c), AppendText(s)) => Code(l, t + s, c)
    case (Diff(t, c), AppendText(s)) => Diff(t + s, c)
    case (RawTerminal(t), AppendText(s)) => RawTerminal(t + s)
    case (Markdown(_, c), ReplaceText(s)) => Markdown(s, c)
    case (Code(l, _, c), ReplaceText(s)) => Code(l, s, c)
    case (Diff(_, c), ReplaceText(s)) => Diff(s, c)
    case (RawTerminal(_), ReplaceText(s)) => RawTerminal(s)
    case (MenuBlock(m), MenuSelect(i)) => MenuBlock(m.(selected := Some(i)))
    case (MenuBlock(m), MenuResolve(i)) => MenuBlock(m.(state := Resolved(i)))
    case (InputBlock(p), InputSubmit) => InputBlock(p.(inputState := Submitted))
    case _ => b
  }

  function MarkComplete(b: Block): (r: Block)
    ensures r.Kind() == b.Kind() && TextOf(r) == TextOf(b)
    ensures b.Textual() ==> r.complete
    ensures b.Code? ==> r.lang == b.lang
    ensures !b.Textual() ==> r == b
  {
    match b
    case Markdown(t, _) => Markdown(t, true)
    case Code(l, t, _) => Code(l, t, true)
    case Diff(t, _) => Diff(t, true)
    case _ => b
  }
}
