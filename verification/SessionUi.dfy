/** The flippable session (`session_ui.rs`, `mode.rs`, `transport.rs`): the mode, the two
    input regimes, the outbound queue and the pump, as one step system; and the Raw regime's
    input loop. */
module SessionUi {
  import opened Blocks
  import opened Bytes
  import opened Input
  import opened Unicode
  import Engine
  import Stream

  // ---------- modes and keys ----------

  datatype ViewMode = Watch | Interact | Raw {
    function Next(): ViewMode {
      match this case Watch => Interact case Interact => Raw case Raw => Watch
    }
    function Prev(): ViewMode {
      match this case Watch => Raw case Interact => Watch case Raw => Interact
    }
    predicate IsReadonly() { Watch? }

    predicate IsStructured() { !Raw? }
  }

  datatype KeyCode =
    | CharKey(c: char) | TabKey | BackTabKey | EnterKey | BackspaceKey | EscKey | DeleteKey
    | UpKey | DownKey | LeftKey | RightKey | HomeKey | EndKey | PageUpKey | PageDownKey | OtherKey

  datatype KeyEvent = KeyEvent(code: KeyCode, ctrl: bool)

  datatype StructAction = QuitNow | CycleNext | CyclePrev | Scroll | ForwardKey | Ignore

  /** `classify_structured_key`; the scroll actions only move the viewport and count as one. */
  function Classify(mode: ViewMode, k: KeyEvent): StructAction {
    if k.code.TabKey? then CycleNext
    else if k.code.BackTabKey? then CyclePrev
    else if k.code == CharKey('c') && k.ctrl then QuitNow
    else match mode
      case Watch =>
        if k.code == CharKey('q') || k.code.EscKey? then QuitNow
        else if k.code.UpKey? || k.code.DownKey? || k.code.PageUpKey? || k.code.PageDownKey? || k.code.EndKey? then Scroll
        else Ignore
      case Interact => if k.code.PageUpKey? || k.code.PageDownKey? then Scroll else ForwardKey
      case Raw => Ignore
  }

  function KeyToBytes(k: KeyEvent): Option<Text> {
    match k.code
    case CharKey(c) =>
      if k.ctrl && ('a' <= c <= 'z' || 'A' <= c <= 'Z')
      then Some([(c as int % 0x20) as Byte]) else Some(Encode(c))
    case EnterKey => Some([CR])
    case BackspaceKey => Some([0x7f])
    case EscKey => Some([ESC])
    case UpKey => Some([ESC, 0x5b, 0x41])
    case DownKey => Some([ESC, 0x5b, 0x42])
    case RightKey => Some([ESC, 0x5b, 0x43])
    case LeftKey => Some([ESC, 0x5b, 0x44])
    case HomeKey => Some([ESC, 0x5b, 0x48])
    case EndKey => Some([ESC, 0x5b, 0x46])
    case DeleteKey => Some([ESC, 0x5b, 0x33, 0x7e])
    case _ => None
  }

  // ---------- the Raw regime's input loop ----------

  datatype Outbound = Bytes(bytes: Text) | BytesThenStop(bytes: Text) | Stop

  datatype Flow = Quit | SwitchTo(mode: ViewMode)

  /** What one parsed action makes the Raw regime do. */
  datatype Effect = Queue(msg: Outbound) | QueueAndQuit(msg: Outbound) | End(flow: Flow)

  function EffectOf(a: RawAction): Effect {
    match a
    case Forward(bytes) => Queue(Bytes(bytes))
    case ForwardThenStop(bytes) => QueueAndQuit(BytesThenStop(bytes))
    case ExitToStructured => End(SwitchTo(Watch))
    case Detach => End(Quit)
  }

  /** How a Raw visit ends: on a token, or when stdin closes. */
  datatype Ending = OnToken(t: Token) | StdinClosed

  /** The reference parse cut at its first terminal token: the bytes typed before it (Ctrl-D
      included), and the ending. */
  function Visit(tokens: seq<Token>): (Text, Ending) {
    if tokens == [] then ([], StdinClosed)
    else match tokens[0]
      case Plain(b) => var (bytes, ending) := Visit(tokens[1..]); ([b] + bytes, ending)
      case Eof => ([CTRL_D], OnToken(Eof))
      case t => ([], OnToken(t))
  }

  function FlowOf(ending: Ending): Flow {
    if ending == OnToken(Exit) then SwitchTo(Watch) else Quit
  }

  function Payload(msgs: seq<Outbound>): Text {
    if msgs == [] then [] else
    Payload(msgs[..|msgs| - 1]) + match msgs[|msgs| - 1] case Bytes(b) => b case BytesThenStop(b) => b case Stop => []
  }

  ghost predicate AllPlain(tokens: seq<Token>) { forall i :: 0 <= i < |tokens| ==> tokens[i].Plain? }

  function PlainBytes(tokens: seq<Token>): Text
    requires AllPlain(tokens)
  {
    seq(|tokens|, i requires 0 <= i < |tokens| && AllPlain(tokens) => tokens[i].b)
  }

  lemma {:induction false} VisitPast(done: seq<Token>, rest: seq<Token>)
    requires AllPlain(done)
    ensures Visit(done + rest) == (PlainBytes(done) + Visit(rest).0, Visit(rest).1)
    decreases |done|
  {
    if done == [] {
      assert done + rest == rest;
      assert PlainBytes(done) + Visit(rest).0 == Visit(rest).0;
    } else {
      assert (done + rest)[1..] == done[1..] + rest;
      VisitPast(done[1..], rest);
      assert PlainBytes(done) == [done[0].b] + PlainBytes(done[1..]);
      assert ([done[0].b] + PlainBytes(done[1..])) + Visit(rest).0 == [done[0].b] + (PlainBytes(done[1..]) + Visit(rest).0);
    }
  }

  lemma PayloadSnoc(msgs: seq<Outbound>, m: Outbound)
    ensures Payload(msgs + [m]) == Payload(msgs) + match m case Bytes(b) => b case BytesThenStop(b) => b case Stop => []
  {
    assert (msgs + [m])[..|msgs|] == msgs;
  }

  ghost predicate OnlyBytes(msgs: seq<Outbound>) { forall i :: 0 <= i < |msgs| ==> msgs[i].Bytes? }

  /** What a visit leaves behind: nothing refused means all bytes of the reference visit, in
      messages whose last one stops the pump exactly after Ctrl-D; a refused message means a
      prefix of them and a quit. */
  ghost predicate Visited(sent: seq<Outbound>, flow: Flow, refused: bool, visit: (Text, Ending)) {
    if refused then flow == Quit && Payload(sent) <= visit.0 && OnlyBytes(sent)
    else
      && Payload(sent) == visit.0 && flow == FlowOf(visit.1)
      && if visit.1 == OnToken(Eof)
         then sent != [] && sent[|sent| - 1] == BytesThenStop([CTRL_D]) && OnlyBytes(sent[..|sent| - 1])
         else OnlyBytes(sent)
  }

  /** Stdin closes after plain bytes only. */
  lemma VisitEnds(sent: seq<Outbound>, tokens: seq<Token>)
    requires AllPlain(tokens) && OnlyBytes(sent) && Payload(sent) == PlainBytes(tokens)
    ensures Visited(sent, Quit, false, Visit(tokens))
  {
    VisitPast(tokens, []);
    Unit(tokens);
    Unit(PlainBytes(tokens));
  }

  /** An effect does what the reference visit says, whether its message is taken or refused. */
  ghost predicate EffectAgrees(sent: seq<Outbound>, effect: Effect, done: seq<Token>, visit: (Text, Ending)) {
    match effect
    case Queue(msg) =>
      && Visited(sent, Quit, true, visit)
      && AllPlain(done) && OnlyBytes(sent + [msg]) && Payload(sent + [msg]) == PlainBytes(done)
    case QueueAndQuit(msg) => Visited(sent, Quit, true, visit) && Visited(sent + [msg], Quit, false, visit)
    case End(flow) => Visited(sent, flow, false, visit)
  }

  lemma ForwardVisits(sent: seq<Outbound>, done: seq<Token>, bytes: Text)
    requires AllPlain(done) && OnlyBytes(sent) && Payload(sent) == PlainBytes(done)
    ensures AllPlain(done + Plains(bytes)) && OnlyBytes(sent + [Bytes(bytes)])
    ensures Payload(sent + [Bytes(bytes)]) == PlainBytes(done + Plains(bytes))
  {
    PayloadSnoc(sent, Bytes(bytes));
    assert PlainBytes(done + Plains(bytes)) == PlainBytes(done) + bytes;
  }

  lemma StopVisits(sent: seq<Outbound>, visit: (Text, Ending))
    requires OnlyBytes(sent) && visit == (Payload(sent) + [CTRL_D], OnToken(Eof))
    ensures Visited(sent + [BytesThenStop([CTRL_D])], Quit, false, visit)
  {
    PayloadSnoc(sent, BytesThenStop([CTRL_D]));
    assert (sent + [BytesThenStop([CTRL_D])])[..|sent|] == sent;
  }

  /** One action, when the tokens before it were all plain. */
  lemma ActionVisits(sent: seq<Outbound>, done: seq<Token>, a: RawAction, rest: seq<Token>)
    requires AllPlain(done) && OnlyBytes(sent) && Payload(sent) == PlainBytes(done)
    requires a.ForwardThenStop? ==> a.bytes == [CTRL_D]
    ensures EffectAgrees(sent, EffectOf(a), done + Flatten1(a), Visit(done + (Flatten1(a) + rest)))
  {
    var visit := Visit(done + (Flatten1(a) + rest));
    VisitPast(done, Flatten1(a) + rest);
    assert Payload(sent) <= visit.0;
    if a.Forward? {
      ForwardVisits(sent, done, a.bytes);
    } else {
      var t := Flatten1(a)[0];
      assert Flatten1(a) + rest == [t] + rest;
      assert Visit([t] + rest) == (if t == Eof then [CTRL_D] else [], OnToken(t));
      Unit(Payload(sent));
      if a.ForwardThenStop? {
        StopVisits(sent, visit);
      }
    }
  }

  /** The actions of one read. `accepts` is how many messages the pump takes before it hangs
      up; `done` are the tokens of earlier reads and `rest` those of later ones. */
  method HandleActions(actions: seq<RawAction>, sent0: seq<Outbound>, accepts: nat,
                       ghost done: seq<Token>, ghost rest: seq<Token>)
    returns (sent: seq<Outbound>, flow: Option<Flow>, refused: bool)
    requires Canonical(actions)
    requires AllPlain(done) && OnlyBytes(sent0) && Payload(sent0) == PlainBytes(done)
    ensures flow.None? ==> !refused && AllPlain(done + Flatten(actions)) && OnlyBytes(sent)
    ensures flow.None? ==> Payload(sent) == PlainBytes(done + Flatten(actions))
    ensures flow.Some? ==> Visited(sent, flow.value, refused, Visit(done + Flatten(actions) + rest))
    ensures refused ==> |sent| >= accepts
  {
    sent, flow, refused := sent0, None, false;
    assert done + Flatten([]) == done;
    for j := 0 to |actions|
      invariant AllPlain(done + Flatten(actions[..j])) && OnlyBytes(sent)
      invariant Payload(sent) == PlainBytes(done + Flatten(actions[..j]))
    {
      var a := actions[j];
      ghost var before, after := done + Flatten(actions[..j]), Flatten(actions[j + 1..]) + rest;
      FlattenAround(actions, j, done, rest);
      ActionVisits(sent, before, a, after);
      match EffectOf(a) {
        case Queue(msg) =>
          if |sent| >= accepts {
            return sent, Some(Quit), true;
          }
          sent := sent + [msg];
        case QueueAndQuit(msg) =>
          if |sent| >= accepts {
            return sent, Some(Quit), true;
          }
          return sent + [msg], Some(Quit), false;
        case End(f) =>
          return sent, Some(f), false;
      }
    }
    assert actions[..|actions|] == actions;
  }

  lemma FlattenUpTo(actions: seq<RawAction>, j: nat)
    requires j < |actions|
    ensures Flatten(actions[..j + 1]) == Flatten(actions[..j]) + Flatten1(actions[j])
  {
    assert actions[..j + 1] == actions[..j] + [actions[j]];
    FlattenSnoc(actions[..j], actions[j]);
  }

  lemma FlattenFrom(actions: seq<RawAction>, j: nat)
    requires j <= |actions|
    ensures Flatten(actions) == Flatten(actions[..j]) + Flatten(actions[j..])
  {
    assert actions == actions[..j] + actions[j..];
    FlattenConcat(actions[..j], actions[j..]);
  }

  lemma FlattenAround(actions: seq<RawAction>, j: nat, done: seq<Token>, rest: seq<Token>)
    requires j < |actions|
    ensures done + Flatten(actions) + rest ==
            (done + Flatten(actions[..j])) + (Flatten1(actions[j]) + (Flatten(actions[j + 1..]) + rest))
    ensures done + Flatten(actions[..j + 1]) == (done + Flatten(actions[..j])) + Flatten1(actions[j])
  {
    FlattenUpTo(actions, j);
    FlattenFrom(actions, j + 1);
    Regroup(done, Flatten(actions[..j]), Flatten1(actions[j]), Flatten(actions[j + 1..]), rest);
  }

  lemma Regroup(a: seq<Token>, b: seq<Token>, c: seq<Token>, d: seq<Token>, e: seq<Token>)
    ensures a + ((b + c) + d) + e == (a + b) + (c + (d + e))
    ensures a + (b + c) == (a + b) + c
  {
  }

  /** The reads up to the first empty one, which means the end of stdin. */
  function BeforeEnd(inputs: seq<Text>): seq<Text> {
    if inputs == [] || inputs[0] == [] then [] else [inputs[0]] + BeforeEnd(inputs[1..])
  }

  lemma {:induction false} BeforeEndIsPrefix(inputs: seq<Text>)
    ensures var r := BeforeEnd(inputs);
            && |r| <= |inputs| && r == inputs[..|r|]
            && (forall i :: 0 <= i < |r| ==> r[i] != [])
            && (|r| < |inputs| ==> inputs[|r|] == [])
  {
    if inputs != [] && inputs[0] != [] {
      BeforeEndIsPrefix(inputs[1..]);
    }
  }

  lemma ReadTyped(inputs: seq<Text>, i: nat)
    requires i <= |BeforeEnd(inputs)| && i < |inputs| && inputs[i] != []
    ensures i < |BeforeEnd(inputs)| && BeforeEnd(inputs)[i] == inputs[i]
  {
    BeforeEndIsPrefix(inputs);
  }

  lemma AllTyped(inputs: seq<Text>, i: nat)
    requires i <= |BeforeEnd(inputs)| && (i < |inputs| ==> inputs[i] == [])
    ensures i == |BeforeEnd(inputs)|
  {
    BeforeEndIsPrefix(inputs);
  }

  /** `run_raw` on what stdin returns, read by read. A read of no bytes, an error or the end of
      the list ends the visit. Whatever the read boundaries, what is sent and how the visit
      ends are those of the reference parse of all that was typed. */
  method RunRaw(inputs: seq<Text>, accepts: nat) returns (sent: seq<Outbound>, flow: Flow, refused: bool)
    ensures Visited(sent, flow, refused, Visit(Lex(Concat(BeforeEnd(inputs))).0))
    ensures refused ==> |sent| >= accepts
  {
    var chord := new ChordParser();
    sent := [];
    ghost var typed := BeforeEnd(inputs);
    TokensAtEnds(typed);
    assert SoFar(typed, 0, false, []);
    hide *;
    var i := 0;
    while i < |inputs| && inputs[i] != []
      invariant fresh(chord) && i <= |typed| && SoFar(typed, i, chord.armed, sent)
    {
      ReadTyped(inputs, i);
      var flow';
      sent, flow', refused := HandleRead(chord, inputs[i], sent, accepts, typed, i);
      if flow'.Some? {
        return sent, flow'.value, refused;
      }
      i := i + 1;
    }
    AllTyped(inputs, i);
    AllHandled(typed, chord.armed, sent);
    return sent, Quit, false;
  }

  /** After `i` reads everything typed was plain, and all of it has been sent. */
  ghost predicate SoFar(typed: seq<Text>, i: nat, armed: bool, sent: seq<Outbound>)
    requires i <= |typed|
  {
    var (done, held) := TokensOf(typed, i);
    held == armed && AllPlain(done) && OnlyBytes(sent) && Payload(sent) == PlainBytes(done)
  }

  lemma AllHandled(typed: seq<Text>, armed: bool, sent: seq<Outbound>)
    requires SoFar(typed, |typed|, armed, sent)
    ensures Visited(sent, Quit, false, Visit(Lex(Concat(typed)).0))
  {
    hide Visited, Visit, Lex, Concat;
    TokensAtEnds(typed);
    VisitEnds(sent, Lex(Concat(typed)).0);
  }

  /** One read. */
  method HandleRead(chord: ChordParser, bytes: Text, sent0: seq<Outbound>, accepts: nat,
                    ghost typed: seq<Text>, ghost i: nat)
    returns (sent: seq<Outbound>, flow: Option<Flow>, refused: bool)
    requires i < |typed| && bytes == typed[i] && SoFar(typed, i, chord.armed, sent0)
    modifies chord
    ensures flow.None? ==> !refused && SoFar(typed, i + 1, chord.armed, sent)
    ensures flow.Some? ==> Visited(sent, flow.value, refused, Visit(Lex(Concat(typed)).0))
    ensures refused ==> |sent| >= accepts
  {
    hide TokensOf, Visited, Visit, Lex, Concat, Parse, Flatten, Payload, PlainBytes, AllPlain, OnlyBytes;
    ghost var done := TokensOf(typed, i).0;
    ghost var rest := NextRead(typed, i, chord.armed);
    var actions := chord.Feed(bytes);
    sent, flow, refused := HandleActions(actions, sent0, accepts, done, rest);
  }

  /** The tokens of the first `i` reads, and whether they end armed. */
  function TokensOf(typed: seq<Text>, i: nat): (seq<Token>, bool)
    requires i <= |typed|
  {
    Lex(Concat(typed[..i]))
  }

  lemma TokensAtEnds(typed: seq<Text>)
    ensures TokensOf(typed, 0) == ([], false) && TokensOf(typed, |typed|) == Lex(Concat(typed))
  {
    assert typed[..0] == [] && typed[..|typed|] == typed;
  }

  /** The tokens after one more read, and those that remain. */
  lemma ReadTokens(inputs: seq<Text>, i: nat) returns (rest: seq<Token>)
    requires i < |inputs|
    ensures var (done, armed) := Lex(Concat(inputs[..i])); var (more, armed') := Lex(Held(armed) + inputs[i]);
            && Lex(Concat(inputs[..i + 1])) == (done + more, armed')
            && Lex(Concat(inputs)).0 == done + more + rest
  {
    ConcatSnoc(inputs, i);
    LexConcat(Concat(inputs[..i]), inputs[i]);
    ConcatSplit(inputs, i + 1);
    LexConcat(Concat(inputs[..i + 1]), Concat(inputs[i + 1..]));
    rest := Lex(Held(Lex(Concat(inputs[..i + 1])).1) + Concat(inputs[i + 1..])).0;
  }

  /** The same for what the parser makes of that read. */
  lemma NextRead(inputs: seq<Text>, i: nat, armed: bool) returns (rest: seq<Token>)
    requires i < |inputs| && armed == TokensOf(inputs, i).1
    ensures var done := TokensOf(inputs, i).0; var (actions, armed') := Parse(armed, inputs[i]);
            && Canonical(actions)
            && TokensOf(inputs, i + 1) == (done + Flatten(actions), armed')
            && Lex(Concat(inputs)).0 == done + Flatten(actions) + rest
  {
    hide Lex, Merge, Flatten, Concat;
    rest := ReadTokens(inputs, i);
    ParseCanonical(armed, inputs[i]);
    MergeFlattens(Lex(Held(armed) + inputs[i]).0);
  }

  // ---------- the whole session as a step system ----------

  /** Structured regime; Raw regime with its parser's flag and the actions of the last read
      still to be done; or the client has quit and dropped its end of the queue. */
  datatype Phase = Structured | InRaw(armed: bool, todo: seq<RawAction>) | Gone

  /** What the screen beside the log is given; the grid it makes of that is not modelled. */
  datatype Painting = Process(bytes: Text) | SetSize(rows: nat, cols: nat)

  const EVENT_CAPACITY: nat := 4096

  /** `queued` is every message ever queued, with the mode it was queued in; the pump has
      taken the first `taken` of them and sent `wire`. `frames` is the output received.
      `shown` is what the structured view shows and `heard` where its receiver stands. */
  datatype Session = Session(
    mode: ViewMode, phase: Phase,
    queued: seq<(Outbound, ViewMode)>, taken: nat, wire: seq<Text>, pumping: bool,
    frames: seq<Text>, engine: Engine.State, screen: seq<Painting>, shown: seq<Block>, heard: nat)

  datatype Happening =
    | Press(k: KeyEvent) | Resize(rows: nat, cols: nat) | KeysClose | Type(bytes: Text) | TypingEnds | DoAction
    | BlockEventArrives
    | PumpTakes | SendFails | FrameArrives(bytes: Text) | SocketEnds

  function Open(start: ViewMode, d: Engine.Deriver): Session {
    Session(start, if start.IsStructured() then Structured else InRaw(false, []), [], 0, [], true, [],
            Engine.Fresh(d), [], [], 0)
  }

  /** `in_tx.send`: refused once the pump is gone. */
  function Send(s: Session, msg: Outbound): Option<Session> {
    if s.pumping then Some(s.(queued := s.queued + [(msg, s.mode)])) else None
  }

  /** The pump ends: the output is finished. */
  function StopPump(s: Session): Session { s.(pumping := false, engine := Engine.Finish(s.engine)) }

  /** `subscribe`: a snapshot, and a receiver for what is published from now on. */
  function Subscribe(s: Session): Session {
    s.(shown := Stream.Snapshot(s.engine.channel.log), heard := |s.engine.channel.published|)
  }

  /** Entering a mode. Raw starts with a new parser; the structured regime subscribes, and
      flips between its own two modes without leaving it. */
  function Enter(s: Session, mode: ViewMode): Session {
    if !mode.IsStructured() then s.(mode := mode, phase := InRaw(false, []))
    else if s.phase.Structured? then s.(mode := mode)
    else Subscribe(s.(mode := mode, phase := Structured))
  }

  /** One receive of the structured view, a lag included, and the snapshot after it. */
  function Hear(s: Session): Session {
    var sent := |s.engine.channel.published|;
    if s.heard >= sent then s
    else s.(heard := if sent - s.heard > EVENT_CAPACITY then sent - EVENT_CAPACITY else s.heard + 1,
            shown := Stream.Snapshot(s.engine.channel.log))
  }

  function PressKey(s: Session, k: KeyEvent): Session {
    match Classify(s.mode, k)
    case QuitNow => s.(phase := Gone)
    case CycleNext => Enter(s, s.mode.Next())
    case CyclePrev => Enter(s, s.mode.Prev())
    case ForwardKey =>
      (match KeyToBytes(k)
       case None => s
       case Some(bytes) => match Send(s, Bytes(bytes)) case Some(s') => s' case None => s.(phase := Gone))
    case _ => s
  }

  function DoNext(s: Session): Session
    requires s.phase.InRaw? && s.phase.todo != []
  {
    match EffectOf(s.phase.todo[0])
    case Queue(msg) =>
      (match Send(s, msg)
       case Some(s') => s'.(phase := InRaw(s.phase.armed, s.phase.todo[1..]))
       case None => s.(phase := Gone))
    case QueueAndQuit(msg) =>
      (match Send(s, msg) case Some(s') => s'.(phase := Gone) case None => s.(phase := Gone))
    case End(Quit) => s.(phase := Gone)
    case End(SwitchTo(mode)) => Enter(s, mode)
  }

  function PumpStep(s: Session): Session {
    if s.taken < |s.queued| then
      match s.queued[s.taken].0
      case Bytes(b) => s.(taken := s.taken + 1, wire := s.wire + [b])
      case BytesThenStop(b) => StopPump(s.(taken := s.taken + 1, wire := s.wire + [b]))
      case Stop => StopPump(s.(taken := s.taken + 1))
    else if s.phase.Gone? then StopPump(s)
    else s
  }

  /** One happening; what is not enabled changes nothing. */
  function Step(s: Session, h: Happening): Session {
    match h
    case Press(k) => if s.phase.Structured? then PressKey(s, k) else s
    case Resize(rows, cols) => if s.phase.Structured? then s.(screen := s.screen + [SetSize(rows, cols)]) else s
    case KeysClose => if s.phase.Structured? then s.(phase := Gone) else s
    case Type(bytes) =>
      if s.phase.InRaw? && s.phase.todo == [] && bytes != [] then
        var (actions, armed) := Parse(s.phase.armed, bytes);
        s.(phase := InRaw(armed, actions))
      else s
    case TypingEnds => if s.phase.InRaw? && s.phase.todo == [] then s.(phase := Gone) else s
    case DoAction => if s.phase.InRaw? && s.phase.todo != [] then DoNext(s) else s
    case BlockEventArrives => if s.phase.Structured? then Hear(s) else s
    case PumpTakes => if s.pumping then PumpStep(s) else s
    case SendFails => if s.pumping && s.taken < |s.queued| then StopPump(s.(taken := s.taken + 1)) else s
    case FrameArrives(bytes) =>
      if s.pumping then
        s.(frames := s.frames + [bytes], engine := Engine.FeedOutput(s.engine, bytes), screen := s.screen + [Process(bytes)])
      else s
    case SocketEnds => if s.pumping then StopPump(s) else s
  }

  function Play(s: Session, hs: seq<Happening>): Session
    decreases |hs|
  {
    if hs == [] then s else Play(Step(s, hs[0]), hs[1..])
  }

  function BytesOf(msg: Outbound): Text {
    match msg case Bytes(b) => b case BytesThenStop(b) => b case Stop => []
  }

  /** Nothing is queued in Watch, a stopping message comes from Raw and is the last one ever
      queued, and a bare `Stop` is never queued. */
  ghost predicate QueuedSafely(s: Session) {
    forall i :: 0 <= i < |s.queued| ==>
      && s.queued[i].1 != Watch
      && !s.queued[i].0.Stop?
      && (s.queued[i].0.BytesThenStop? ==> s.queued[i].1 == Raw && i == |s.queued| - 1 && s.phase.Gone?)
  }

  /** What is sent is an in-order prefix of what was queued, with nothing after a stop. */
  ghost predicate SentSafely(s: Session) {
    && |s.wire| <= s.taken <= |s.queued|
    && (s.pumping ==> |s.wire| == s.taken)
    && (forall i :: 0 <= i < |s.wire| ==> s.wire[i] == BytesOf(s.queued[i].0))
    && (forall i :: 0 <= i < |s.wire| && s.queued[i].0.BytesThenStop? ==> i == |s.wire| - 1 && !s.pumping)
  }

  ghost predicate Safe(s: Session) {
    && (s.phase.InRaw? ==> s.mode == Raw)
    && (s.phase.Structured? ==> s.mode != Raw)
    && QueuedSafely(s) && SentSafely(s)
  }

  lemma PressKeepsSafe(s: Session, k: KeyEvent)
    requires Safe(s) && s.phase.Structured?
    ensures Safe(PressKey(s, k))
  {
  }

  lemma DoNextKeepsSafe(s: Session)
    requires Safe(s) && s.phase.InRaw? && s.phase.todo != []
    ensures Safe(DoNext(s))
  {
  }

  lemma InputKeepsSafe(s: Session, h: Happening)
    requires Safe(s)
    requires !(h.PumpTakes? || h.SendFails? || h.FrameArrives? || h.SocketEnds?)
    ensures Safe(Step(s, h))
  {
    if h.Press? && s.phase.Structured? {
      PressKeepsSafe(s, h.k);
    } else if h.DoAction? && s.phase.InRaw? && s.phase.todo != [] {
      DoNextKeepsSafe(s);
    }
    hide Parse, PressKey, DoNext;
  }

  lemma StopKeepsSafe(s: Session)
    requires Safe(s.(pumping := false))
    ensures Safe(StopPump(s))
  {
  }

  /** Sending the next message, if the pump has one. */
  lemma TakeKeepsSafe(s: Session, sent: bool, stops: bool)
    requires Safe(s) && s.pumping && s.taken < |s.queued|
    requires sent && !stops ==> !s.queued[s.taken].0.BytesThenStop?
    requires !sent ==> stops
    ensures Safe(s.(taken := s.taken + 1, pumping := !stops,
                    wire := s.wire + if sent then [BytesOf(s.queued[s.taken].0)] else []))
  {
  }

  lemma PumpKeepsSafe(s: Session, h: Happening)
    requires Safe(s)
    requires h.PumpTakes? || h.SendFails? || h.FrameArrives? || h.SocketEnds?
    ensures Safe(Step(s, h))
  {
    if s.pumping {
      if (h.PumpTakes? || h.SendFails?) && s.taken < |s.queued| {
        var msg := s.queued[s.taken].0;
        var sent := h.PumpTakes? && !msg.Stop?;
        TakeKeepsSafe(s, sent, h.SendFails? || !msg.Bytes?);
        var taken := s.(taken := s.taken + 1, wire := s.wire + if sent then [BytesOf(msg)] else []);
        assert s.wire + [] == s.wire;
        if h.SendFails? || !msg.Bytes? {
          StopKeepsSafe(taken);
          assert Step(s, h) == StopPump(taken);
        }
      } else if !h.FrameArrives? {
        StopKeepsSafe(s);
      }
    }
  }

  lemma {:induction false} PlayKeepsSafe(s: Session, hs: seq<Happening>)
    requires Safe(s)
    ensures Safe(Play(s, hs))
    decreases |hs|
  {
    if hs != [] {
      if hs[0].PumpTakes? || hs[0].SendFails? || hs[0].FrameArrives? || hs[0].SocketEnds? {
        PumpKeepsSafe(s, hs[0]);
      } else {
        InputKeepsSafe(s, hs[0]);
      }
      PlayKeepsSafe(Step(s, hs[0]), hs[1..]);
    }
  }

  /** For every sequence of keys, raw reads, output frames and pump steps: every queued byte
      was queued in Interact or Raw, never in Watch; what is sent is an in-order prefix of
      what was queued, and nothing is sent after the first stopping message. */
  lemma WatchQueuesNothing(start: ViewMode, d: Engine.Deriver, hs: seq<Happening>)
    ensures var s := Play(Open(start, d), hs);
            && (forall i :: 0 <= i < |s.queued| ==> s.queued[i].1 == Interact || s.queued[i].1 == Raw)
            && (forall i :: 0 <= i < |s.queued| ==> !s.queued[i].1.IsReadonly())
            && |s.wire| <= |s.queued|
            && (forall i :: 0 <= i < |s.wire| ==> s.wire[i] == BytesOf(s.queued[i].0))
            && (forall i :: 0 <= i < |s.wire| && s.queued[i].0.BytesThenStop? ==>
                  i == |s.wire| - 1 && i == |s.queued| - 1 && !s.pumping)
  {
    PlayKeepsSafe(Open(start, d), hs);
  }

  // ---------- what is sent in Watch ----------

  predicate InWatch(s: Session) { s.mode == Watch && s.phase.Structured? }

  /** The session is in Watch now and after every happening. */
  predicate StaysInWatch(s: Session, hs: seq<Happening>)
    decreases |hs|
  {
    InWatch(s) && (hs == [] || StaysInWatch(Step(s, hs[0]), hs[1..]))
  }

  /** The pump has nothing left to take, or has ended. */
  predicate Drained(s: Session) { s.pumping ==> s.taken == |s.queued| }

  lemma WatchStep(s: Session, h: Happening)
    requires InWatch(s) && InWatch(Step(s, h)) && s.taken <= |s.queued|
    ensures Step(s, h).queued == s.queued && Step(s, h).taken <= |s.queued|
    ensures Drained(s) ==> Step(s, h).wire == s.wire && Drained(Step(s, h))
  {
    hide Engine.FeedOutput, Engine.Finish, Parse, KeyToBytes;
  }

  /** While the session stays in Watch nothing joins the queue, so what is sent was queued
      before; and once the queue is drained nothing is sent. */
  lemma {:induction false} WatchSendsBacklogOnly(s: Session, hs: seq<Happening>)
    requires StaysInWatch(s, hs) && s.taken <= |s.queued|
    ensures Play(s, hs).queued == s.queued
    ensures Drained(s) ==> Play(s, hs).wire == s.wire
    decreases |hs|
  {
    if hs != [] {
      hide Step;
      WatchStep(s, hs[0]);
      WatchSendsBacklogOnly(Step(s, hs[0]), hs[1..]);
    }
  }

  /** A message still queued when the session is in Watch goes out in Watch. */
  lemma BacklogGoesOut(s: Session)
    requires Safe(s) && InWatch(s) && !Drained(s)
    ensures StaysInWatch(s, [PumpTakes])
    ensures Play(s, [PumpTakes]).wire == s.wire + [BytesOf(s.queued[s.taken].0)]
  {
    assert s.queued[s.taken].0.Bytes?;
    var next := Step(s, PumpTakes);
    assert InWatch(next) && next.wire == s.wire + [BytesOf(s.queued[s.taken].0)];
    assert [PumpTakes][1..] == [];
    assert Play(next, []) == next && StaysInWatch(next, []);
  }

  /** In every reachable session that is in Watch: nothing is ever sent while it stays there
      exactly if the pump has ended or has drained the queue. */
  lemma WatchIsSilent(start: ViewMode, d: Engine.Deriver, before: seq<Happening>)
    requires InWatch(Play(Open(start, d), before))
    ensures var s := Play(Open(start, d), before);
            Drained(s) <==> forall hs :: StaysInWatch(s, hs) ==> Play(s, hs).wire == s.wire
  {
    var s := Play(Open(start, d), before);
    PlayKeepsSafe(Open(start, d), before);
    if Drained(s) {
      forall hs | StaysInWatch(s, hs) ensures Play(s, hs).wire == s.wire {
        WatchSendsBacklogOnly(s, hs);
      }
    } else {
      BacklogGoesOut(s);
      assert |Play(s, [PumpTakes]).wire| == |s.wire| + 1;
    }
  }

  /** The concrete run: a key typed in Interact, a flip to Watch, and the key goes out. */
  lemma WatchSendsTypedKey(d: Engine.Deriver)
    ensures var typed := [Press(KeyEvent(CharKey('x'), false)), Press(KeyEvent(BackTabKey, false))];
            var s := Play(Open(Interact, d), typed);
            && InWatch(s) && s.wire == []
            && StaysInWatch(s, [PumpTakes]) && Play(s, [PumpTakes]).wire == [['x' as int as Byte]]
  {
    var typed := [Press(KeyEvent(CharKey('x'), false)), Press(KeyEvent(BackTabKey, false))];
    var s0 := Open(Interact, d);
    var s1 := Step(s0, typed[0]);
    var s2 := Step(s1, typed[1]);
    assert typed[1..] == [typed[1]] && [typed[1]][1..] == [];
    assert Play(s1, [typed[1]]) == Play(s2, []) == s2;
    PlayKeepsSafe(s0, typed);
    BacklogGoesOut(s2);
  }
}
