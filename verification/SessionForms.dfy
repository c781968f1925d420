/** What keys, raw reads and the pump do in the session, key by key and in literal bytes
    (`session_ui.rs:165-205`, `227-325`, `transport.rs:39-60`). */
module SessionForms {
  import opened Bytes
  import opened Flipping
  import opened Input
  import opened SessionUi
  import opened Unicode
  import Engine
  import Stream

  // ---------- the keys ----------

  /** The keys that are not characters. */
  lemma NamedKeys(ctrl: bool)
    ensures KeyToBytes(KeyEvent(EnterKey, ctrl)) == Some([0x0d])
    ensures KeyToBytes(KeyEvent(BackspaceKey, ctrl)) == Some([0x7f])
    ensures KeyToBytes(KeyEvent(EscKey, ctrl)) == Some([0x1b])
    ensures KeyToBytes(KeyEvent(UpKey, ctrl)) == Some([0x1b, 0x5b, 0x41])
    ensures KeyToBytes(KeyEvent(DownKey, ctrl)) == Some([0x1b, 0x5b, 0x42])
    ensures KeyToBytes(KeyEvent(RightKey, ctrl)) == Some([0x1b, 0x5b, 0x43])
    ensures KeyToBytes(KeyEvent(LeftKey, ctrl)) == Some([0x1b, 0x5b, 0x44])
    ensures KeyToBytes(KeyEvent(HomeKey, ctrl)) == Some([0x1b, 0x5b, 0x48])
    ensures KeyToBytes(KeyEvent(EndKey, ctrl)) == Some([0x1b, 0x5b, 0x46])
    ensures KeyToBytes(KeyEvent(DeleteKey, ctrl)) == Some([0x1b, 0x5b, 0x33, 0x7e])
    ensures KeyToBytes(KeyEvent(OtherKey, ctrl)) == None
  {
  }

  /** A character is sent in UTF-8, whose decoding is that character (`Unicode`); with Ctrl
      the letters are the bytes 1 to 26, in either case. */
  lemma CharacterKeys(c: char, ctrl: bool)
    ensures KeyToBytes(KeyEvent(CharKey(c), ctrl)) == Some(
              if ctrl && 0x61 <= c as int <= 0x7a then [(c as int - 0x60) as Byte]
              else if ctrl && 0x41 <= c as int <= 0x5a then [(c as int - 0x40) as Byte]
              else Encode(c))
  {
  }

  /** The keys Interact keeps from the application. */
  predicate Reserved(k: KeyEvent) {
    || k.code in {TabKey, BackTabKey, PageUpKey, PageDownKey}
    || k == KeyEvent(CharKey('c'), true)
  }

  /** In Interact every other key is queued with its bytes, and nothing else changes; a key
      without bytes is dropped. */
  lemma InteractForwards(s: Session, k: KeyEvent)
    requires s.phase.Structured? && s.mode == Interact && s.pumping && !Reserved(k)
    ensures Step(s, Press(k)) ==
            match KeyToBytes(k)
            case Some(bytes) => s.(queued := s.queued + [(Bytes(bytes), Interact)])
            case None => s
  {
    hide KeyToBytes;
  }

  /** The keys that change mode, and what each does from each structured mode. */
  lemma TabsCycle(s: Session, ctrl: bool)
    requires s.phase.Structured?
    ensures var tab, back := Step(s, Press(KeyEvent(TabKey, ctrl))), Step(s, Press(KeyEvent(BackTabKey, ctrl)));
            && (s.mode == Watch ==> tab == s.(mode := Interact) && back == s.(mode := Raw, phase := InRaw(false, [])))
            && (s.mode == Interact ==> tab == s.(mode := Raw, phase := InRaw(false, [])) && back == s.(mode := Watch))
  {
    hide KeyToBytes;
  }

  /** In Watch the other keys only scroll, are ignored, or quit. */
  lemma WatchKeys(s: Session, k: KeyEvent)
    requires s.phase.Structured? && s.mode == Watch && !k.code.TabKey? && !k.code.BackTabKey?
    ensures Step(s, Press(k)) ==
            if k == KeyEvent(CharKey('c'), true) || k.code == CharKey('q') || k.code.EscKey? then s.(phase := Gone) else s
  {
    hide KeyToBytes;
  }

  /** In Interact the reserved keys that do not change mode quit or scroll. */
  lemma InteractKeeps(s: Session, k: KeyEvent)
    requires s.phase.Structured? && s.mode == Interact && Reserved(k) && !k.code.TabKey? && !k.code.BackTabKey?
    ensures Step(s, Press(k)) == if k.code.CharKey? then s.(phase := Gone) else s
  {
    hide KeyToBytes;
  }

  /** One happening queues at most one message, marked with the mode it was queued in; and
      the read-only mode queues none. */
  lemma QueueGrows(start: ViewMode, d: Engine.Deriver, hs: seq<Happening>, h: Happening)
    ensures var s := Play(Open(start, d), hs);
            || Step(s, h).queued == s.queued
            || (s.mode != Watch && exists msg :: Step(s, h).queued == s.queued + [(msg, s.mode)])
  {
    var s := Play(Open(start, d), hs);
    PlayKeepsSafe(Open(start, d), hs);
    hide Parse, KeyToBytes, Engine.FeedOutput, Engine.Finish, Stream.Snapshot, QueuedSafely, SentSafely, Play;
    if h.Press? && s.phase.Structured? {
      PressQueues(s, h.k);
    } else if h.DoAction? && s.phase.InRaw? && s.phase.todo != [] {
      ActionQueues(s);
    }
  }

  lemma PressQueues(s: Session, k: KeyEvent)
    requires s.phase.Structured?
    ensures || PressKey(s, k).queued == s.queued
            || (s.mode != Watch && exists msg :: PressKey(s, k).queued == s.queued + [(msg, s.mode)])
  {
  }

  lemma ActionQueues(s: Session)
    requires s.phase.InRaw? && s.phase.todo != []
    ensures DoNext(s).queued == s.queued || exists msg :: DoNext(s).queued == s.queued + [(msg, s.mode)]
  {
  }

  // ---------- the pump ----------

  function Takes(n: nat): seq<Happening> { seq(n, _ => PumpTakes) }

  /** The next `n` messages waiting. */
  function Waiting(s: Session, n: nat): seq<Text>
    requires s.taken + n <= |s.queued|
  {
    seq(n, i requires 0 <= i < n => BytesOf(s.queued[s.taken + i].0))
  }

  /** A running pump sends what waits, message by message, up to a message that stops it. */
  lemma {:induction false} PumpDelivers(s: Session, n: nat)
    requires s.pumping && s.taken + n <= |s.queued|
    requires forall i :: s.taken <= i < s.taken + n ==> s.queued[i].0.Bytes?
    ensures Play(s, Takes(n)) == s.(taken := s.taken + n, wire := s.wire + Waiting(s, n))
    decreases n
  {
    if n == 0 {
      assert Waiting(s, 0) == [];
      Unit(s.wire);
    } else {
      var s' := Step(s, PumpTakes);
      assert Takes(n)[1..] == Takes(n - 1);
      assert s' == s.(taken := s.taken + 1, wire := s.wire + [BytesOf(s.queued[s.taken].0)]);
      PumpDelivers(s', n - 1);
      assert Waiting(s, n) == [BytesOf(s.queued[s.taken].0)] + Waiting(s', n - 1);
      Assoc(s.wire, [BytesOf(s.queued[s.taken].0)], Waiting(s', n - 1));
    }
  }

  /** The stopping message is sent, and then the output is finished. */
  lemma StopIsSent(s: Session, bytes: Text)
    requires s.pumping && s.taken < |s.queued| && s.queued[s.taken].0 == BytesThenStop(bytes)
    ensures Step(s, PumpTakes) ==
            s.(taken := s.taken + 1, wire := s.wire + [bytes], pumping := false, engine := Engine.Finish(s.engine))
  {
    hide Engine.Finish;
  }

  function Presses(text: string): seq<Happening> {
    seq(|text|, i requires 0 <= i < |text| => Press(KeyEvent(CharKey(text[i]), false)))
  }

  function Keyed(text: string): seq<(Outbound, ViewMode)> {
    seq(|text|, i requires 0 <= i < |text| => (Bytes(Encode(text[i])), Interact))
  }

  lemma {:induction false} PressesQueue(s: Session, text: string)
    requires s.phase.Structured? && s.mode == Interact && s.pumping
    ensures Play(s, Presses(text)) == s.(queued := s.queued + Keyed(text))
    decreases |text|
  {
    hide Encode;
    if text == [] {
      assert Keyed(text) == [];
      Unit(s.queued);
    } else {
      var k := KeyEvent(CharKey(text[0]), false);
      var s' := Step(s, Press(k));
      InteractForwards(s, k);
      assert Presses(text)[1..] == Presses(text[1..]);
      PressesQueue(s', text[1..]);
      assert Keyed(text) == [(Bytes(Encode(text[0])), Interact)] + Keyed(text[1..]);
      Assoc(s.queued, [(Bytes(Encode(text[0])), Interact)], Keyed(text[1..]));
    }
  }

  function Encoded(text: string): seq<Text> { seq(|text|, i requires 0 <= i < |text| => Encode(text[i])) }

  lemma KeyedWaits(s: Session, s': Session, text: string)
    requires s.taken == |s.queued| && s' == s.(queued := s.queued + Keyed(text))
    ensures Waiting(s', |text|) == Encoded(text)
  {
    forall i | 0 <= i < |text| ensures BytesOf(s'.queued[s'.taken + i].0) == Encode(text[i]) {
      assert s'.queued[s'.taken + i] == Keyed(text)[i];
    }
  }

  /** Text typed in Interact while nothing waits goes out character by character, in UTF-8. */
  lemma TypedTextIsSent(s: Session, text: string)
    requires s.phase.Structured? && s.mode == Interact && s.pumping && s.taken == |s.queued|
    ensures Play(s, Presses(text) + Takes(|text|)).wire == s.wire + Encoded(text)
  {
    hide Encode, Play;
    PlayConcat(s, Presses(text), Takes(|text|));
    PressesQueue(s, text);
    var s' := s.(queued := s.queued + Keyed(text));
    PumpDelivers(s', |text|);
    KeyedWaits(s, s', text);
  }

  // ---------- a Raw read ----------

  function Acts(n: nat): seq<Happening> { seq(n, _ => DoAction) }

  function Tagged(msgs: seq<Outbound>): seq<(Outbound, ViewMode)> {
    seq(|msgs|, i requires 0 <= i < |msgs| => (msgs[i], Raw))
  }

  /** Where a read leaves the session: reading on, with a Ctrl-] possibly held; back in Watch,
      subscribed afresh to the log as it is; or gone. */
  ghost predicate Landed(s: Session, s': Session, ending: Ending, held: bool) {
    match ending
    case StdinClosed => s'.phase == InRaw(held, []) && s'.mode == Raw
    case OnToken(t) =>
      if t == Exit
      then s'.phase == Structured && s'.mode == Watch
           && s'.shown == Stream.Snapshot(s.engine.channel.log) && s'.heard == |s.engine.channel.published|
      else s'.phase == Gone
  }

  lemma {:induction false} ActsIdle(s: Session, n: nat)
    requires s.phase.InRaw? ==> s.phase.todo == []
    ensures Play(s, Acts(n)) == s
    decreases n
  {
    if n > 0 {
      assert Acts(n)[1..] == Acts(n - 1);
      ActsIdle(s, n - 1);
    }
  }

  lemma NothingTyped(done: seq<Token>, sent: seq<Outbound>)
    requires AllPlain(done) && OnlyBytes(sent) && Payload(sent) == PlainBytes(done)
    ensures Visited(sent, Quit, false, Visit(done + Flatten([]))) && Visit(done + Flatten([])).1 == StdinClosed
  {
    VisitEnds(sent, done);
    VisitPast(done, []);
    Unit(done);
  }

  /** The first action, its tokens before those of the rest. */
  lemma FirstAction(todo: seq<RawAction>, done: seq<Token>)
    requires todo != []
    ensures done + Flatten(todo) == done + (Flatten1(todo[0]) + Flatten(todo[1..]))
    ensures done + Flatten(todo) == (done + Flatten1(todo[0])) + Flatten(todo[1..])
  {
    FlattenFrom(todo, 1);
    assert todo[..1] == [todo[0]] && todo[..1][..0] == [];
    assert Flatten([]) == [];
    Unit(Flatten1(todo[0]));
    Assoc(done, Flatten1(todo[0]), Flatten(todo[1..]));
  }

  lemma ActionEnds(done: seq<Token>, a: RawAction, rest: seq<Token>)
    requires AllPlain(done)
    ensures var ending := Visit(done + (Flatten1(a) + rest)).1;
            match a
            case Forward(_) => true
            case ForwardThenStop(_) => ending == OnToken(Eof)
            case ExitToStructured => ending == OnToken(Exit)
            case Detach => ending == OnToken(Leave)
  {
    VisitPast(done, Flatten1(a) + rest);
    if !a.Forward? {
      var t := Flatten1(a)[0];
      assert Flatten1(a) + rest == [t] + rest;
    }
  }

  /** What doing the first action does while the pump runs. */
  lemma ActionDone(s: Session)
    requires s.phase.InRaw? && s.phase.todo != [] && s.mode == Raw && s.pumping
    ensures var s' := Step(s, DoAction);
            match EffectOf(s.phase.todo[0])
            case Queue(msg) => s' == s.(queued := s.queued + [(msg, Raw)], phase := InRaw(s.phase.armed, s.phase.todo[1..]))
            case QueueAndQuit(msg) => s' == s.(queued := s.queued + [(msg, Raw)], phase := Gone)
            case End(Quit) => s' == s.(phase := Gone)
            case End(SwitchTo(mode)) => mode == Watch && s' == Subscribe(s.(mode := Watch, phase := Structured))
  {
    hide Subscribe;
  }

  /** What `todo` still makes of the visit, after `sent` for the tokens `done`. */
  ghost predicate ActsAgree(s: Session, done: seq<Token>, sent: seq<Outbound>, msgs: seq<Outbound>)
    requires s.phase.InRaw?
  {
    var visit := Visit(done + Flatten(s.phase.todo)); var s' := Play(s, Acts(|s.phase.todo|));
    && Visited(sent + msgs, FlowOf(visit.1), false, visit)
    && s'.queued == s.queued + Tagged(msgs) && s'.engine == s.engine && s'.pumping
    && Landed(s, s', visit.1, s.phase.armed)
  }

  ghost predicate Stops(todo: seq<RawAction>) { forall a <- todo :: a.ForwardThenStop? ==> a.bytes == [CTRL_D] }

  /** A message that was queued, and then the rest. */
  lemma QueuedFirst(s: Session, done: seq<Token>, sent: seq<Outbound>, msg: Outbound, more: seq<Outbound>)
    requires s.phase.InRaw? && s.phase.todo != [] && s.mode == Raw && s.pumping
    requires EffectOf(s.phase.todo[0]) == Queue(msg)
    requires ActsAgree(Step(s, DoAction), done + Flatten1(s.phase.todo[0]), sent + [msg], more)
    ensures ActsAgree(s, done, sent, [msg] + more)
  {
    hide Visited, Visit, Payload, Flatten, Flatten1, EffectOf, Step;
    ActionDone(s);
    FirstAction(s.phase.todo, done);
    assert Acts(|s.phase.todo|)[1..] == Acts(|s.phase.todo| - 1);
    Assoc(sent, [msg], more);
    assert Tagged([msg] + more) == [(msg, Raw)] + Tagged(more);
    Assoc(s.queued, [(msg, Raw)], Tagged(more));
  }

  /** An action that ends the visit, and those after it, which are dropped. */
  lemma EndedFirst(s: Session, done: seq<Token>, sent: seq<Outbound>) returns (msgs: seq<Outbound>)
    requires s.phase.InRaw? && s.phase.todo != [] && s.mode == Raw && s.pumping && Stops(s.phase.todo)
    requires !s.phase.todo[0].Forward?
    requires AllPlain(done) && OnlyBytes(sent) && Payload(sent) == PlainBytes(done)
    ensures ActsAgree(s, done, sent, msgs)
  {
    var a := s.phase.todo[0];
    msgs := match EffectOf(a) case QueueAndQuit(msg) => [msg] case _ => [];
    ActionDone(s);
    hide Visited, Visit, Payload, PlainBytes, AllPlain, OnlyBytes, Flatten, Flatten1, Step, ActsAgree, Play;
    FirstAction(s.phase.todo, done);
    ActionVisits(sent, done, a, Flatten(s.phase.todo[1..]));
    ActionEnds(done, a, Flatten(s.phase.todo[1..]));
    Unit(sent);
    Unit(s.queued);
    assert Tagged(msgs) == if a.ForwardThenStop? then [(msgs[0], Raw)] else [];
    RestDropped(s, done, sent, msgs);
  }

  /** Once a visit has ended, what is left to do is not done. */
  lemma RestDropped(s: Session, done: seq<Token>, sent: seq<Outbound>, msgs: seq<Outbound>)
    requires s.phase.InRaw? && s.phase.todo != []
    requires var s' := Step(s, DoAction); var visit := Visit(done + Flatten(s.phase.todo));
             && !s'.phase.InRaw?
             && s'.queued == s.queued + Tagged(msgs) && s'.engine == s.engine && s'.pumping
             && Visited(sent + msgs, FlowOf(visit.1), false, visit) && Landed(s, s', visit.1, s.phase.armed)
    ensures ActsAgree(s, done, sent, msgs)
  {
    hide Step, Visited, Visit, Flatten, Landed;
    var n := |s.phase.todo| - 1;
    ActsIdle(Step(s, DoAction), n);
    assert Acts(n + 1)[1..] == Acts(n);
    assert Play(s, Acts(n + 1)) == Step(s, DoAction);
  }

  /** The actions still to be done. */
  lemma {:induction false} ActsVisit(s: Session, done: seq<Token>, sent: seq<Outbound>) returns (msgs: seq<Outbound>)
    requires s.phase.InRaw? && s.mode == Raw && s.pumping && Stops(s.phase.todo)
    requires AllPlain(done) && OnlyBytes(sent) && Payload(sent) == PlainBytes(done)
    ensures ActsAgree(s, done, sent, msgs)
    decreases |s.phase.todo|
  {
    var todo := s.phase.todo;
    hide Visited, Visit, Payload, PlainBytes, AllPlain, OnlyBytes, Flatten, Flatten1, Step;
    if todo == [] {
      msgs := [];
      NothingTyped(done, sent);
      Unit(sent);
      Unit(s.queued);
      assert Tagged([]) == [];
    } else if todo[0].Forward? {
      var msg := EffectOf(todo[0]).msg;
      ActionDone(s);
      FirstAction(todo, done);
      ActionVisits(sent, done, todo[0], Flatten(todo[1..]));
      hide ActsAgree;
      var more := ActsVisit(Step(s, DoAction), done + Flatten1(todo[0]), sent + [msg]);
      QueuedFirst(s, done, sent, msg, more);
      msgs := [msg] + more;
    } else {
      msgs := EndedFirst(s, done, sent);
    }
  }

  /** One read in Raw, whatever was held before it: when its actions are done, the queue holds
      all that the reference parse of the held byte and the read says was typed, and the
      session is where that parse ends. */
  lemma ReadIsVisited(s: Session, bytes: Text) returns (msgs: seq<Outbound>)
    requires s.phase.InRaw? && s.phase.todo == [] && s.mode == Raw && s.pumping && bytes != []
    ensures var (tokens, held) := Lex(Held(s.phase.armed) + bytes);
            var s' := Play(s, [Type(bytes)] + Acts(|Parse(s.phase.armed, bytes).0|));
            VisitedBy(s, s', Visit(tokens), held, msgs)
  {
    var (actions, held) := Parse(s.phase.armed, bytes);
    ReadParses(s.phase.armed, bytes);
    ReadBegins(s, bytes);
    assert PlainBytes([]) == [];
    hide Visited, Visit, Lex, Parse, Step, Merge, Flatten, Play, Stops, VisitedBy, ActsAgree;
    msgs := ActsVisit(s.(phase := InRaw(held, actions)), [], []);
    ReadAgrees(s, held, actions, msgs);
  }

  /** From `s` to `s'` the messages `msgs` were queued, and they and `s'` are as the reference
      visit has it; the output is not touched. */
  ghost predicate VisitedBy(s: Session, s': Session, visit: (Text, Ending), held: bool, msgs: seq<Outbound>) {
    && Visited(msgs, FlowOf(visit.1), false, visit)
    && s'.queued == s.queued + Tagged(msgs) && s'.engine == s.engine && s'.pumping
    && Landed(s, s', visit.1, held)
  }

  lemma ReadAgrees(s: Session, held: bool, actions: seq<RawAction>, msgs: seq<Outbound>)
    requires ActsAgree(s.(phase := InRaw(held, actions)), [], [], msgs)
    ensures VisitedBy(s, Play(s.(phase := InRaw(held, actions)), Acts(|actions|)), Visit(Flatten(actions)), held, msgs)
  {
    hide Visited, Visit, Flatten, Play;
    Unit(msgs);
    Unit(Flatten(actions));
  }

  /** The actions of a read are its tokens, grouped. */
  lemma ReadParses(armed: bool, bytes: Text)
    ensures var (actions, held) := Parse(armed, bytes);
            Stops(actions) && (Flatten(actions), held) == Lex(Held(armed) + bytes)
  {
    ParseCanonical(armed, bytes);
    hide Lex, Merge, Flatten;
    MergeFlattens(Lex(Held(armed) + bytes).0);
  }

  lemma ReadBegins(s: Session, bytes: Text)
    requires s.phase.InRaw? && s.phase.todo == [] && bytes != []
    ensures var (actions, held) := Parse(s.phase.armed, bytes);
            Play(s, [Type(bytes)] + Acts(|actions|)) == Play(s.(phase := InRaw(held, actions)), Acts(|actions|))
  {
    hide Parse;
    var (actions, held) := Parse(s.phase.armed, bytes);
    var read := Step(s, Type(bytes));
    assert read == s.(phase := InRaw(held, actions));
    hide Step;
    PlayConcat(s, [Type(bytes)], Acts(|Parse(s.phase.armed, bytes).0|));
    assert [Type(bytes)][1..] == [] && Play(read, []) == read;
  }

  // ---------- opening and leaving ----------

  /** A session opens in the mode asked for, with nothing queued and the pump running; Raw
      alone opens in the raw regime. */
  lemma OpensAsAsked(start: ViewMode, d: Engine.Deriver)
    ensures var s := Open(start, d);
            && s.mode == start && s.pumping && s.queued == [] && s.wire == [] && s.engine == Engine.Fresh(d)
            && (start == Raw ==> s.phase == InRaw(false, []))
            && (start != Raw ==> s.phase == Structured)
  {
  }

  /** A message the client must queue now, and cannot once the pump is gone. */
  predicate Sends(s: Session, h: Happening) {
    match h
    case Press(k) => s.phase.Structured? && s.mode == Interact && !Reserved(k) && KeyToBytes(k).Some?
    case DoAction => s.phase.InRaw? && s.phase.todo != [] && s.phase.todo[0].Forward?
    case _ => false
  }

  /** What the user does to leave: a closed keyboard or standard input, a quit key, a
      detach or an end of input in Raw. */
  predicate Quits(s: Session, h: Happening) {
    match h
    case Press(k) =>
      && s.phase.Structured?
      && (k == KeyEvent(CharKey('c'), true) || (s.mode == Watch && (k.code == CharKey('q') || k.code == EscKey)))
    case KeysClose => s.phase.Structured?
    case TypingEnds => s.phase.InRaw? && s.phase.todo == []
    case DoAction => s.phase.InRaw? && s.phase.todo != [] && (s.phase.todo[0].Detach? || s.phase.todo[0].ForwardThenStop?)
    case _ => false
  }

  /** A session ends exactly when the user leaves it, or there is something to send and the
      pump is gone. */
  lemma WhatQuits(start: ViewMode, d: Engine.Deriver, hs: seq<Happening>, h: Happening)
    requires !Play(Open(start, d), hs).phase.Gone?
    ensures var s := Play(Open(start, d), hs);
            Step(s, h).phase.Gone? <==> Quits(s, h) || (!s.pumping && Sends(s, h))
  {
    var s := Play(Open(start, d), hs);
    PlayKeepsSafe(Open(start, d), hs);
    hide Play, QueuedSafely, SentSafely, Parse, KeyToBytes, PressKey, Engine.FeedOutput, Engine.Finish, Stream.Snapshot;
    if h.Press? && s.phase.Structured? {
      PressQuits(s, h.k);
      hide Quits, Sends;
    }
  }

  lemma PressQuits(s: Session, k: KeyEvent)
    requires s.phase.Structured? && s.mode != Raw
    ensures PressKey(s, k).phase.Gone? <==> Quits(s, Press(k)) || (!s.pumping && Sends(s, Press(k)))
  {
    hide KeyToBytes, Stream.Snapshot;
  }

  /** In the structured modes a new size reaches the screen; nothing else changes. */
  lemma ResizeReaches(s: Session, rows: nat, cols: nat)
    requires s.phase.Structured?
    ensures Step(s, Resize(rows, cols)) == s.(screen := s.screen + [SetSize(rows, cols)])
  {
  }
}
