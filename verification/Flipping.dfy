/** Over whole runs of the session (`session_ui.rs:66-81`, `109-168`): every byte that arrives
    reaches the engine and the screen in every mode, and the structured view shows the log. */
module Flipping {
  import opened Blocks
  import opened Bytes
  import opened SessionUi
  import ClaudeCode
  import Document
  import Engine
  import FloorRefinement
  import FloorSpec
  import Input
  import Stream

  // ---------- flipping is lossless ----------

  /** The engine is the one fed with the received frames, finished once the pump is gone. */
  ghost predicate Derives(s: Session, d: Engine.Deriver) {
    s.engine == var fed := Engine.FeedFrames(Engine.Fresh(d), s.frames);
                if s.pumping then fed else Engine.Finish(fed)
  }

  lemma {:induction false} FeedFramesSnoc(e: Engine.State, frames: seq<Text>, frame: Text)
    ensures Engine.FeedFrames(e, frames + [frame]) == Engine.FeedOutput(Engine.FeedFrames(e, frames), frame)
    decreases |frames|
  {
    if frames == [] {
      assert [frame][1..] == [];
    } else {
      assert (frames + [frame])[1..] == frames[1..] + [frame];
      FeedFramesSnoc(Engine.FeedOutput(e, frames[0]), frames[1..], frame);
    }
  }

  /** Keys, reads and queueing leave the engine, the frames and the pump alone. */
  lemma InputSparesEngine(s: Session, h: Happening)
    requires !(h.PumpTakes? || h.SendFails? || h.FrameArrives? || h.SocketEnds?)
    ensures var s' := Step(s, h); s'.engine == s.engine && s'.frames == s.frames && s'.pumping == s.pumping
  {
  }

  /** A pump step that is not a frame leaves the engine alone or finishes it. */
  lemma PumpFinishesAtMost(s: Session, h: Happening)
    requires h.PumpTakes? || h.SendFails? || h.SocketEnds?
    ensures var s' := Step(s, h);
            && s'.frames == s.frames
            && ((s'.engine == s.engine && s'.pumping == s.pumping) ||
                (s.pumping && !s'.pumping && s'.engine == Engine.Finish(s.engine)))
  {
  }

  lemma StepDerives(s: Session, h: Happening, d: Engine.Deriver)
    requires Derives(s, d)
    ensures Derives(Step(s, h), d)
  {
    hide Engine.FeedFrames, Engine.FeedOutput, Engine.Finish;
    if h.FrameArrives? {
      FeedFramesSnoc(Engine.Fresh(d), s.frames, h.bytes);
    } else if h.PumpTakes? || h.SendFails? || h.SocketEnds? {
      PumpFinishesAtMost(s, h);
    } else {
      InputSparesEngine(s, h);
    }
  }

  lemma {:induction false} PlayDerives(s: Session, hs: seq<Happening>, d: Engine.Deriver)
    requires Derives(s, d)
    ensures Derives(Play(s, hs), d)
    decreases |hs|
  {
    if hs != [] {
      StepDerives(s, hs[0], d);
      PlayDerives(Step(s, hs[0]), hs[1..], d);
    }
  }

  // ---------- the output a run received ----------

  function FrameOf(h: Happening): Text { if h.FrameArrives? then h.bytes else [] }

  /** The bytes of the frames among the happenings, in order. */
  function Arrived(hs: seq<Happening>): Text {
    if hs == [] then [] else FrameOf(hs[0]) + Arrived(hs[1..])
  }

  /** The pump runs before each of the first `n` happenings, and no longer before the next
      one, if there is one. */
  ghost predicate PumpRuns(s: Session, hs: seq<Happening>, n: nat) {
    && n <= |hs|
    && (forall k :: 0 <= k < n ==> Play(s, hs[..k]).pumping)
    && (n < |hs| ==> !Play(s, hs[..n]).pumping)
  }

  /** How many happenings the pump sees, the one that ends it included. */
  ghost function Pumped(s: Session, hs: seq<Happening>): (n: nat)
    ensures PumpRuns(s, hs, n)
    decreases |hs|
  {
    assert hs[..0] == [];
    if hs == [] || !s.pumping then 0
    else
      var m := Pumped(Step(s, hs[0]), hs[1..]);
      PumpRunsFrom(s, hs, m);
      1 + m
  }

  lemma PumpRunsFrom(s: Session, hs: seq<Happening>, m: nat)
    requires hs != [] && s.pumping && PumpRuns(Step(s, hs[0]), hs[1..], m)
    ensures PumpRuns(s, hs, 1 + m)
  {
    hide Step;
    forall k | 0 < k <= 1 + m ensures Play(s, hs[..k]) == Play(Step(s, hs[0]), hs[1..][..k - 1]) {
      assert hs[..k][1..] == hs[1..][..k - 1] && hs[..k][0] == hs[0];
    }
  }

  /** What has arrived up to the happening that ended the pump; all that has arrived, if the
      pump still runs. */
  ghost function Received(s: Session, hs: seq<Happening>): Text { Arrived(hs[..Pumped(s, hs)]) }

  /** What one happening adds to the frames. */
  lemma FramesGrow(s: Session, h: Happening)
    ensures Concat(Step(s, h).frames) == Concat(s.frames) + if s.pumping then FrameOf(h) else []
    ensures !s.pumping ==> !Step(s, h).pumping
  {
    Unit(Concat(s.frames));
    if h.FrameArrives? {
      var frames := s.frames + [h.bytes];
      ConcatSnoc(frames, |s.frames|);
      assert frames[..|s.frames|] == s.frames && frames[..|s.frames| + 1] == frames;
    } else if h.PumpTakes? || h.SendFails? || h.SocketEnds? {
      PumpFinishesAtMost(s, h);
    } else {
      InputSparesEngine(s, h);
    }
  }

  /** Every byte that arrives while the pump runs is recorded, in every mode. */
  lemma {:induction false} PlayReceives(s: Session, hs: seq<Happening>)
    ensures Concat(Play(s, hs).frames) == Concat(s.frames) + Received(s, hs)
    ensures Play(s, hs).pumping ==> Pumped(s, hs) == |hs|
    decreases |hs|
  {
    hide Step, Concat;
    Unit(Concat(s.frames));
    if hs == [] {
      assert hs[..Pumped(s, hs)] == [];
    } else {
      var rest, s' := hs[1..], Step(s, hs[0]);
      FramesGrow(s, hs[0]);
      PlayReceives(s', rest);
      if s.pumping {
        var n := Pumped(s', rest);
        assert hs[..1 + n][1..] == rest[..n];
        Assoc(Concat(s.frames), FrameOf(hs[0]), Arrived(rest[..n]));
      } else {
        assert hs[..0] == [] && rest[..0] == [];
        Unit(Concat(s'.frames));
      }
    }
  }

  lemma {:induction false} PlayConcat(s: Session, a: seq<Happening>, b: seq<Happening>)
    ensures Play(s, a + b) == Play(Play(s, a), b)
    decreases |a|
  {
    hide Step;
    if a == [] {
      assert a + b == b;
    } else {
      assert (a + b)[1..] == a[1..] + b;
      PlayConcat(Step(s, a[0]), a[1..], b);
    }
  }

  lemma PlaySnoc(s: Session, hs: seq<Happening>, k: nat)
    requires k < |hs|
    ensures Play(s, hs[..k + 1]) == Step(Play(s, hs[..k]), hs[k])
    ensures Arrived(hs[..k + 1]) == Arrived(hs[..k]) + FrameOf(hs[k])
  {
    hide Step;
    assert hs[..k + 1] == hs[..k] + [hs[k]] && [hs[k]][1..] == [];
    PlayConcat(s, hs[..k], [hs[k]]);
    ArrivedConcat(hs[..k], [hs[k]]);
    assert Play(Step(Play(s, hs[..k]), hs[k]), []) == Step(Play(s, hs[..k]), hs[k]);
    Unit(FrameOf(hs[k]));
  }

  lemma {:induction false} ArrivedConcat(a: seq<Happening>, b: seq<Happening>)
    ensures Arrived(a + b) == Arrived(a) + Arrived(b)
    decreases |a|
  {
    if a == [] {
      assert a + b == b;
      Unit(Arrived(b));
    } else {
      assert (a + b)[1..] == a[1..] + b;
      ArrivedConcat(a[1..], b);
      Assoc(FrameOf(a[0]), Arrived(a[1..]), Arrived(b));
    }
  }

  /** What makes a running pump end: the socket, a message it could not send, a message that
      stops it, or an empty queue that the client has dropped. */
  predicate EndsPump(s: Session, h: Happening) {
    match h
    case SocketEnds => true
    case SendFails => s.taken < |s.queued|
    case PumpTakes => if s.taken < |s.queued| then !s.queued[s.taken].0.Bytes? else s.phase.Gone?
    case _ => false
  }

  lemma PumpEnds(s: Session, h: Happening)
    requires s.pumping
    ensures Step(s, h).pumping <==> !EndsPump(s, h)
  {
    if !(h.PumpTakes? || h.SendFails? || h.SocketEnds? || h.FrameArrives?) {
      InputSparesEngine(s, h);
    }
  }

  /** The pump ran up to the happening at `k`, which ended it, and nothing later was received. */
  ghost predicate EndedBy(s: Session, hs: seq<Happening>, k: nat) {
    && k < |hs|
    && Play(s, hs[..k]).pumping && EndsPump(Play(s, hs[..k]), hs[k])
    && Received(s, hs) == Arrived(hs[..k])
  }

  lemma PumpStops(s: Session, hs: seq<Happening>, k: nat)
    requires k < |hs| && Play(s, hs[..k]).pumping && !Play(s, hs[..k + 1]).pumping
    requires Pumped(s, hs) == k + 1
    ensures EndedBy(s, hs, k)
  {
    hide Step, EndsPump, Play, Pumped;
    PlaySnoc(s, hs, k);
    var e, h := Play(s, hs[..k]), hs[k];
    PumpEnds(e, h);
    EndIsNoFrame(e, h);
    Unit(Arrived(hs[..k]));
  }

  lemma EndIsNoFrame(s: Session, h: Happening)
    requires EndsPump(s, h)
    ensures FrameOf(h) == []
  {
  }

  lemma PumpEnded(s: Session, hs: seq<Happening>)
    requires s.pumping && !Play(s, hs).pumping
    ensures exists k :: EndedBy(s, hs, k)
  {
    var n := Pumped(s, hs);
    assert hs[..0] == [] && hs[..|hs|] == hs;
    hide Step, EndsPump;
    assert n > 0;
    PlayReceives(s, hs);
    PumpStops(s, hs, n - 1);
  }

  /** While the pump runs, all output that has arrived is the output recorded; once it has
      ended, the output before the happening that ended it. */
  lemma OutputIsRecorded(start: ViewMode, d: Engine.Deriver, hs: seq<Happening>)
    ensures var s0 := Open(start, d);
            && Concat(Play(s0, hs).frames) == Received(s0, hs)
            && if Play(s0, hs).pumping then Received(s0, hs) == Arrived(hs) else exists k :: EndedBy(s0, hs, k)
  {
    var s0 := Open(start, d);
    hide Step, EndsPump;
    PlayReceives(s0, hs);
    Unit(Received(s0, hs));
    assert hs[..|hs|] == hs;
    if !Play(s0, hs).pumping {
      PumpEnded(s0, hs);
    }
  }

  /** As long as the socket holds and the client has not quit, the pump runs; whatever the
      modes and keys, all that has arrived is then in the engine. */
  lemma {:induction false} ConnectedRuns(start: ViewMode, d: Engine.Deriver, hs: seq<Happening>)
    requires forall h <- hs :: !h.SocketEnds? && !h.SendFails?
    requires !Play(Open(start, d), hs).phase.Gone?
    ensures Play(Open(start, d), hs).pumping && Received(Open(start, d), hs) == Arrived(hs)
    decreases |hs|
  {
    var s0 := Open(start, d);
    if hs != [] {
      var before, k := hs[..|hs| - 1], |hs| - 1;
      PlayKeepsSafe(s0, before);
      assert !hs[k].SocketEnds? && !hs[k].SendFails?;
      hide Step, Safe;
      PlaySnoc(s0, hs, k);
      assert hs[..k + 1] == hs;
      GoneStays(Play(s0, before), hs[k]);
      ConnectedRuns(start, d, before);
      ConnectedStep(Play(s0, before), hs[k]);
    }
    hide *;
    OutputIsRecorded(start, d, hs);
  }

  /** Only a client that has quit lets the pump end while the socket holds. */
  lemma ConnectedStep(s: Session, h: Happening)
    requires Safe(s) && s.pumping && !s.phase.Gone? && !h.SocketEnds? && !h.SendFails?
    ensures Step(s, h).pumping
  {
    hide Step, SentSafely;
    PumpEnds(s, h);
  }

  lemma GoneStays(s: Session, h: Happening)
    ensures s.phase.Gone? ==> Step(s, h).phase.Gone?
  {
    hide Engine.FeedOutput, Engine.Finish;
  }

  /** Two sessions that received the same output bytes, in whatever frames, and whose pumps
      both run or have both ended, have the same engine: the same log and the same published
      events, whatever keys, reads, mode flips, resizes, subscriptions and receives came in
      between. */
  lemma FlippingIsLossless(start1: ViewMode, start2: ViewMode, d: Engine.Deriver,
                           hs1: seq<Happening>, hs2: seq<Happening>)
    requires Engine.Unused(d)
    requires Received(Open(start1, d), hs1) == Received(Open(start2, d), hs2)
    requires Play(Open(start1, d), hs1).pumping == Play(Open(start2, d), hs2).pumping
    ensures Play(Open(start1, d), hs1).engine == Play(Open(start2, d), hs2).engine
  {
    PlayDerives(Open(start1, d), hs1, d);
    PlayDerives(Open(start2, d), hs2, d);
    OutputIsRecorded(start1, d, hs1);
    OutputIsRecorded(start2, d, hs2);
    Engine.FramesDoNotMatter(Engine.Fresh(d), Play(Open(start1, d), hs1).frames);
    Engine.FramesDoNotMatter(Engine.Fresh(d), Play(Open(start2, d), hs2).frames);
  }

  // ---------- the structured view ----------

  /** The structured view is behind by what is queued for it, and by nothing else. */
  ghost predicate ViewAgrees(s: Session) {
    s.phase.Structured? ==>
      && s.heard <= |s.engine.channel.published|
      && (s.heard == |s.engine.channel.published| ==> s.shown == Stream.Snapshot(s.engine.channel.log))
  }

  /** Publishing nothing is changing nothing. */
  lemma SilentPerform(ch: Document.Channel, cmds: seq<Document.Cmd>)
    ensures |ch.published| <= |Document.Perform(ch, cmds).published|
    ensures |ch.published| == |Document.Perform(ch, cmds).published| ==> Document.Perform(ch, cmds) == ch
  {
    Document.ExecIsRun(ch.log, cmds);
    Stream.RunFollowed(ch.log, Document.OpsOf(ch.log, cmds));
  }

  lemma InputKeepsView(s: Session, h: Happening)
    requires ViewAgrees(s)
    requires !(h.PumpTakes? || h.SendFails? || h.FrameArrives? || h.SocketEnds?)
    ensures ViewAgrees(Step(s, h))
  {
    hide Input.Parse, Classify, KeyToBytes;
  }

  lemma PumpKeepsView(s: Session, h: Happening)
    requires ViewAgrees(s)
    requires h.PumpTakes? || h.SendFails? || h.FrameArrives? || h.SocketEnds?
    ensures ViewAgrees(Step(s, h))
  {
    hide Engine.FeedOutput, Engine.Finish;
    EngineOnlyAdds(s.engine, if h.FrameArrives? then h.bytes else []);
    if h.FrameArrives? {
      if s.pumping {
        AddedKeepsView(s, s.(frames := s.frames + [h.bytes], engine := Engine.FeedOutput(s.engine, h.bytes),
                             screen := s.screen + [Process(h.bytes)]));
      }
    } else {
      PumpFinishesAtMost(s, h);
      PumpSparesView(s, h);
      AddedKeepsView(s, Step(s, h));
    }
  }

  /** A pump step that is not a frame does not touch the structured view. */
  lemma PumpSparesView(s: Session, h: Happening)
    requires h.PumpTakes? || h.SendFails? || h.SocketEnds?
    ensures var s' := Step(s, h); s'.phase == s.phase && s'.shown == s.shown && s'.heard == s.heard
  {
    hide Engine.Finish;
  }

  /** `more` is `less` with, at most, more events published. */
  ghost predicate OnlyAdds(less: Engine.State, more: Engine.State) {
    && |less.channel.published| <= |more.channel.published|
    && (|less.channel.published| == |more.channel.published| ==> more.channel == less.channel)
  }

  lemma EngineOnlyAdds(e: Engine.State, bytes: Text)
    ensures OnlyAdds(e, Engine.FeedOutput(e, bytes)) && OnlyAdds(e, Engine.Finish(e))
  {
    SilentPerform(e.channel, Engine.Flushed(e.deriver).1);
    SilentPerform(e.channel, Engine.Derived(e.deriver, bytes).1);
    hide Document.Perform, Engine.Flushed, Engine.Derived;
  }

  lemma AddedKeepsView(s: Session, s': Session)
    requires ViewAgrees(s) && OnlyAdds(s.engine, s'.engine)
    requires s'.phase == s.phase && s'.shown == s.shown && s'.heard == s.heard
    ensures ViewAgrees(s')
  {
  }

  lemma StepKeepsView(s: Session, h: Happening)
    requires ViewAgrees(s)
    ensures ViewAgrees(Step(s, h))
  {
    hide Step, ViewAgrees;
    if h.PumpTakes? || h.SendFails? || h.FrameArrives? || h.SocketEnds? {
      PumpKeepsView(s, h);
    } else {
      InputKeepsView(s, h);
    }
  }

  lemma {:induction false} PlayKeepsView(s: Session, hs: seq<Happening>)
    requires ViewAgrees(s)
    ensures ViewAgrees(Play(s, hs))
    decreases |hs|
  {
    if hs != [] {
      StepKeepsView(s, hs[0]);
      PlayKeepsView(Step(s, hs[0]), hs[1..]);
    }
  }

  /** Whenever the structured view waits with nothing queued for it, it shows exactly the log:
      after any flips to Raw and back, resizes, frames and lags. */
  lemma ViewShowsLog(start: ViewMode, d: Engine.Deriver, hs: seq<Happening>)
    requires var s := Play(Open(start, d), hs);
             s.phase.Structured? && s.heard >= |s.engine.channel.published|
    ensures var s := Play(Open(start, d), hs); s.shown == Stream.Snapshot(s.engine.channel.log)
  {
    PlayKeepsView(Open(start, d), hs);
  }

  function Receives(n: nat): seq<Happening> { seq(n, _ => BlockEventArrives) }

  /** A structured view that stays open receives everything queued for it: it ends showing the
      log, with nothing left to receive. */
  lemma {:induction false} ViewCatchesUp(s: Session, n: nat)
    requires s.phase.Structured? && s.heard < |s.engine.channel.published| <= s.heard + n
    ensures var s' := Play(s, Receives(n));
            s'.shown == Stream.Snapshot(s.engine.channel.log) && s'.heard == |s.engine.channel.published| && s'.engine == s.engine
    decreases n
  {
    var s' := Step(s, BlockEventArrives);
    assert Receives(n)[1..] == Receives(n - 1);
    if s'.heard < |s.engine.channel.published| {
      ViewCatchesUp(s', n - 1);
    } else {
      NothingToHear(s', n - 1);
    }
  }

  lemma {:induction false} NothingToHear(s: Session, n: nat)
    requires s.phase.Structured? && s.heard >= |s.engine.channel.published|
    ensures Play(s, Receives(n)) == s
    decreases n
  {
    if n > 0 {
      assert Receives(n)[1..] == Receives(n - 1);
      NothingToHear(s, n - 1);
    }
  }

  /** A receiver more than 4096 events behind is moved to the oldest of the last 4096. */
  lemma OverflowSkips(s: Session)
    requires s.phase.Structured? && |s.engine.channel.published| > s.heard + 4096
    ensures Step(s, BlockEventArrives).heard + 4096 == |s.engine.channel.published|
  {
  }

  // ---------- the screen ----------

  function Shown(p: Painting): Text { if p.Process? then p.bytes else [] }

  /** The bytes given to the screen, in order. */
  function Painted(screen: seq<Painting>): Text {
    if screen == [] then [] else Painted(screen[..|screen| - 1]) + Shown(screen[|screen| - 1])
  }

  lemma PaintedSnoc(screen: seq<Painting>, p: Painting)
    ensures Painted(screen + [p]) == Painted(screen) + Shown(p)
  {
    assert (screen + [p])[..|screen|] == screen;
  }

  lemma ScreenGrows(s: Session, h: Happening)
    ensures Painted(Step(s, h).screen) == Painted(s.screen) + if s.pumping then FrameOf(h) else []
  {
    hide Painted, Engine.FeedOutput, Engine.Finish, Input.Parse, Classify, KeyToBytes, Stream.Snapshot;
    Unit(Painted(s.screen));
    match h
    case Resize(rows, cols) => PaintedSnoc(s.screen, SetSize(rows, cols));
    case FrameArrives(bytes) => PaintedSnoc(s.screen, Process(bytes));
    case _ => assert Step(s, h).screen == s.screen;
  }

  /** The screen is given every byte received, in every mode and between any resizes. */
  lemma {:induction false} ScreenSeesOutput(s: Session, hs: seq<Happening>)
    ensures Painted(Play(s, hs).screen) == Painted(s.screen) + Received(s, hs)
    decreases |hs|
  {
    hide Step, Painted;
    Unit(Painted(s.screen));
    if hs == [] {
      assert hs[..Pumped(s, hs)] == [];
    } else {
      var rest, s' := hs[1..], Step(s, hs[0]);
      ScreenGrows(s, hs[0]);
      FramesGrow(s, hs[0]);
      ScreenSeesOutput(s', rest);
      if s.pumping {
        var n := Pumped(s', rest);
        assert hs[..1 + n][1..] == rest[..n];
        Assoc(Painted(s.screen), FrameOf(hs[0]), Arrived(rest[..n]));
      } else {
        assert hs[..0] == [] && rest[..0] == [];
        Unit(Painted(s'.screen));
      }
    }
  }

  /** Once the pump has ended, whatever was pressed, typed, flipped or resized on the way, the
      log shows exactly the specified document of all output received. */
  lemma SessionShowsDocument(start: ViewMode, d: Engine.Deriver, hs: seq<Happening>)
    requires Engine.Unused(d)
    requires !Play(Open(start, d), hs).pumping
    ensures var blocks := Stream.Snapshot(Play(Open(start, d), hs).engine.channel.log);
            match d
            case FloorDeriver(_) => blocks == FloorSpec.FloorDocument(Received(Open(start, d), hs))
            case ClaudeDeriver(codec, _) => blocks == ClaudeCode.Turns(ClaudeCode.AllItems(codec, Received(Open(start, d), hs)))
  {
    var s := Play(Open(start, d), hs);
    PlayDerives(Open(start, d), hs, d);
    OutputIsRecorded(start, d, hs);
    Engine.FinishedDocument(d, s.frames);
    match d
    case FloorDeriver(_) => FloorRefinement.FloorRefines(Received(Open(start, d), hs));
    case ClaudeDeriver(codec, _) => ClaudeCode.AdapterRefines(codec, Received(Open(start, d), hs));
  }

  /** A session that was never left: once the socket ends, the log shows exactly the specified
      document of all the bytes that arrived, read off the happenings alone. */
  lemma ArrivedIsShown(start: ViewMode, d: Engine.Deriver, hs: seq<Happening>)
    requires Engine.Unused(d)
    requires forall h <- hs :: !h.SocketEnds? && !h.SendFails?
    requires !Play(Open(start, d), hs).phase.Gone?
    ensures var blocks := Stream.Snapshot(Play(Open(start, d), hs + [SocketEnds]).engine.channel.log);
            match d
            case FloorDeriver(_) => blocks == FloorSpec.FloorDocument(Arrived(hs))
            case ClaudeDeriver(codec, _) => blocks == ClaudeCode.Turns(ClaudeCode.AllItems(codec, Arrived(hs)))
  {
    hide *;
    ConnectedRuns(start, d, hs);
    SocketEnded(Open(start, d), hs);
    SessionShowsDocument(start, d, hs + [SocketEnds]);
  }

  /** The end of the socket ends the pump, and is no output. */
  lemma SocketEnded(s: Session, hs: seq<Happening>)
    requires Play(s, hs).pumping
    ensures !Play(s, hs + [SocketEnds]).pumping && Received(s, hs + [SocketEnds]) == Received(s, hs)
  {
    var ended := hs + [SocketEnds];
    assert ended[..|hs|] == hs && ended[..|hs| + 1] == ended && ended[|hs|] == SocketEnds;
    SocketStops(Play(s, hs));
    hide *;
    PlaySnoc(s, ended, |hs|);
    PlayReceives(s, ended);
    PlayReceives(s, hs);
    Cancel(Concat(s.frames), Received(s, ended), Received(s, hs));
  }

  lemma Cancel(a: Text, b: Text, c: Text)
    requires a + b == a + c
    ensures b == c
  {
    assert (a + b)[|a|..] == b && (a + c)[|a|..] == c;
  }

  lemma SocketStops(s: Session)
    requires s.pumping
    ensures !Step(s, SocketEnds).pumping && Step(s, SocketEnds).frames == s.frames
  {
    hide Engine.Finish;
  }
}
