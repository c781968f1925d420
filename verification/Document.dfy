/** What an adapter does to the log: it opens a block, writes text to it and closes it
    (`derive/mod.rs`, `BlockSink`). Both adapters are proved to produce such commands, and
    here the commands are proved to give a disciplined event stream. */
module Document {
  import opened Bytes
  import opened Blocks
  import opened Stream

  datatype Cmd = Open(kind: BlockKind) | Write(text: Text) | Close

  function LastId(log: Log): nat {
    if log.entries == [] then log.nextId else log.entries[|log.entries| - 1].id
  }

  /** `Write` and `Close` act on the block opened last. */
  function OpOf(log: Log, c: Cmd): Op {
    match c
    case Open(kind) => AppendOp(kind)
    case Write(text) => PatchOp(LastId(log), AppendText(text))
    case Close => FinalizeOp(LastId(log))
  }

  function Exec(log: Log, cmds: seq<Cmd>): (Log, seq<BlockEvent>)
    decreases |cmds|
  {
    if cmds == [] then (log, []) else
    var (l1, e1) := Step(log, OpOf(log, cmds[0]));
    var (l2, e2) := Exec(l1, cmds[1..]);
    (l2, Listed(e1) + e2)
  }

  function OpsOf(log: Log, cmds: seq<Cmd>): seq<Op>
    decreases |cmds|
  {
    if cmds == [] then [] else
    [OpOf(log, cmds[0])] + OpsOf(Step(log, OpOf(log, cmds[0])).0, cmds[1..])
  }

  lemma {:induction false} ExecIsRun(log: Log, cmds: seq<Cmd>)
    ensures Exec(log, cmds) == Run(log, OpsOf(log, cmds))
    ensures forall k :: 0 <= k < |OpsOf(log, cmds)| ==> !OpsOf(log, cmds)[k].TruncateOp?
    decreases |cmds|
  {
    if cmds != [] {
      var l1 := Step(log, OpOf(log, cmds[0])).0;
      ExecIsRun(l1, cmds[1..]);
      assert OpsOf(log, cmds)[1..] == OpsOf(l1, cmds[1..]);
    }
  }

  lemma {:induction false} ExecConcat(log: Log, a: seq<Cmd>, b: seq<Cmd>)
    ensures var mid := Exec(log, a); var end := Exec(mid.0, b);
            Exec(log, a + b) == (end.0, mid.1 + end.1)
    decreases |a|
  {
    if a == [] {
      assert a + b == b;
      assert [] + Exec(log, b).1 == Exec(log, b).1;
    } else {
      assert (a + b)[1..] == a[1..] + b;
      var (l1, e1) := Step(log, OpOf(log, a[0]));
      ExecConcat(l1, a[1..], b);
      var mid := Exec(l1, a[1..]);
      assert Listed(e1) + (mid.1 + Exec(mid.0, b).1) == (Listed(e1) + mid.1) + Exec(mid.0, b).1;
    }
  }

  // ---------- bracketing ----------

  predicate Legal(open: bool, c: Cmd) {
    match c
    case Open(kind) => !open && TextualKind(kind)
    case Write(_) => open
    case Close => open
  }

  function Opens(open: bool, c: Cmd): bool {
    match c case Open(_) => true case Write(_) => open case Close => false
  }

  predicate Bracketed(open: bool, cmds: seq<Cmd>)
    decreases |cmds|
  {
    cmds == [] || (Legal(open, cmds[0]) && Bracketed(Opens(open, cmds[0]), cmds[1..]))
  }

  function OpenAfter(open: bool, cmds: seq<Cmd>): bool
    decreases |cmds|
  {
    if cmds == [] then open else OpenAfter(Opens(open, cmds[0]), cmds[1..])
  }

  lemma {:induction false} BracketedConcat(open: bool, a: seq<Cmd>, b: seq<Cmd>)
    requires Bracketed(open, a) && Bracketed(OpenAfter(open, a), b)
    ensures Bracketed(open, a + b) && OpenAfter(open, a + b) == OpenAfter(OpenAfter(open, a), b)
    decreases |a|
  {
    if a == [] {
      assert a + b == b;
    } else {
      assert (a + b)[1..] == a[1..] + b;
      BracketedConcat(Opens(open, a[0]), a[1..], b);
    }
  }

  lemma {:induction false} BracketedSplit(open: bool, a: seq<Cmd>, b: seq<Cmd>)
    requires Bracketed(open, a + b)
    ensures Bracketed(open, a) && Bracketed(OpenAfter(open, a), b)
    ensures OpenAfter(open, a + b) == OpenAfter(OpenAfter(open, a), b)
    decreases |a|
  {
    if a == [] {
      assert a + b == b;
    } else {
      assert (a + b)[1..] == a[1..] + b;
      BracketedSplit(Opens(open, a[0]), a[1..], b);
    }
  }

  // ---------- the rendered document ----------

  function Draw1(blocks: seq<Block>, c: Cmd): seq<Block> {
    match c
    case Open(kind) => blocks + [Empty(kind)]
    case Write(text) =>
      if blocks == [] then [] else
      blocks[..|blocks| - 1] + [ApplyPatch(blocks[|blocks| - 1], AppendText(text))]
    case Close =>
      if blocks == [] then [] else
      blocks[..|blocks| - 1] + [MarkComplete(blocks[|blocks| - 1])]
  }

  function Draw(blocks: seq<Block>, cmds: seq<Cmd>): seq<Block>
    decreases |cmds|
  {
    if cmds == [] then blocks else Draw(Draw1(blocks, cmds[0]), cmds[1..])
  }

  lemma {:induction false} DrawConcat(blocks: seq<Block>, a: seq<Cmd>, b: seq<Cmd>)
    ensures Draw(blocks, a + b) == Draw(Draw(blocks, a), b)
    decreases |a|
  {
    if a == [] {
      assert a + b == b;
    } else {
      assert (a + b)[1..] == a[1..] + b;
      DrawConcat(Draw1(blocks, a[0]), a[1..], b);
    }
  }

  lemma StepDraws(log: Log, c: Cmd)
    requires ValidLog(log)
    ensures var log' := Step(log, OpOf(log, c)).0;
            ValidLog(log') && Snapshot(log') == Draw1(Snapshot(log), c)
  {
    StepKeepsValid(log, OpOf(log, c));
    if log.entries != [] {
      PositionUnique(log, |log.entries| - 1);
    }
  }

  /** The log's snapshot after any commands is the drawn document. */
  lemma {:induction false} ExecDraws(log: Log, cmds: seq<Cmd>)
    requires ValidLog(log)
    ensures ValidLog(Exec(log, cmds).0)
    ensures Snapshot(Exec(log, cmds).0) == Draw(Snapshot(log), cmds)
    decreases |cmds|
  {
    if cmds != [] {
      StepDraws(log, cmds[0]);
      ExecDraws(Step(log, OpOf(log, cmds[0])).0, cmds[1..]);
    }
  }

  // ---------- event discipline ----------

  /** At most the last block is open, and only when `open` says so. */
  ghost predicate Tidy(log: Log, open: bool) {
    && (open ==> log.entries != [])
    && forall i :: 0 <= i < |log.entries| ==>
         && log.entries[i].block.Textual()
         && log.entries[i].block.complete == !(open && i == |log.entries| - 1)
  }

  /** The acceptor of disciplined streams: the next fresh id, and the open block with the
      revision last published for it. */
  datatype Lane = Lane(nextId: nat, current: Option<(nat, nat)>)

  function Accept(lane: Lane, e: BlockEvent): Option<Lane> {
    match e
    case Append(id, kind) =>
      if lane.current.None? && id == lane.nextId && TextualKind(kind)
      then Some(Lane(id + 1, Some((id, 0)))) else None
    case Update(id, rev, patch) =>
      if rev > 0 && lane.current == Some((id, rev - 1)) && patch.AppendText?
      then Some(lane.(current := Some((id, rev)))) else None
    case Finalize(id, rev) =>
      if rev > 0 && lane.current == Some((id, rev - 1))
      then Some(lane.(current := None)) else None
    case Truncate(_) => None
  }

  function AcceptAll(lane: Lane, events: seq<BlockEvent>): Option<Lane>
    decreases |events|
  {
    if events == [] then Some(lane) else
    match Accept(lane, events[0])
    case None => None
    case Some(lane') => AcceptAll(lane', events[1..])
  }

  lemma {:induction false} AcceptConcat(lane: Lane, a: seq<BlockEvent>, b: seq<BlockEvent>)
    ensures AcceptAll(lane, a + b) ==
            match AcceptAll(lane, a) case None => None case Some(mid) => AcceptAll(mid, b)
    decreases |a|
  {
    if a == [] {
      assert a + b == b;
    } else {
      assert (a + b)[1..] == a[1..] + b;
      if Accept(lane, a[0]).Some? {
        AcceptConcat(Accept(lane, a[0]).value, a[1..], b);
      }
    }
  }

  function LaneOf(log: Log, open: bool): Lane
    requires open ==> log.entries != []
  {
    Lane(log.nextId,
         if open then var e := log.entries[|log.entries| - 1]; Some((e.id, e.rev)) else None)
  }

  lemma StepDisciplined(log: Log, open: bool, c: Cmd)
    requires ValidLog(log) && Tidy(log, open) && Legal(open, c)
    ensures var (log', e) := Step(log, OpOf(log, c));
            && ValidLog(log') && Tidy(log', Opens(open, c))
            && e.Some? && Accept(LaneOf(log, open), e.value) == Some(LaneOf(log', Opens(open, c)))
            && |log'.entries| == |log.entries| + (if c.Open? then 1 else 0)
            && forall p :: 0 <= p < |log.entries| - (if open then 1 else 0) ==> log'.entries[p] == log.entries[p]
  {
    StepKeepsValid(log, OpOf(log, c));
    if log.entries != [] {
      PositionUnique(log, |log.entries| - 1);
    }
  }

  /** Bracketed commands publish an accepted stream and leave a tidy log. */
  lemma {:induction false} ExecDisciplined(log: Log, open: bool, cmds: seq<Cmd>)
    requires ValidLog(log) && Tidy(log, open) && Bracketed(open, cmds)
    ensures var (log', events) := Exec(log, cmds);
            && ValidLog(log') && Tidy(log', OpenAfter(open, cmds))
            && AcceptAll(LaneOf(log, open), events) == Some(LaneOf(log', OpenAfter(open, cmds)))
    decreases |cmds|
  {
    if cmds != [] {
      var (l1, e1) := Step(log, OpOf(log, cmds[0]));
      StepDisciplined(log, open, cmds[0]);
      ExecDisciplined(l1, Opens(open, cmds[0]), cmds[1..]);
      var rest := Exec(l1, cmds[1..]).1;
      assert ([e1.value] + rest)[1..] == rest;
    }
  }

  /** The events of one block, in order. */
  ghost function EventsOf(events: seq<BlockEvent>, id: nat): seq<BlockEvent> {
    if events == [] then [] else
    var e := events[|events| - 1];
    EventsOf(events[..|events| - 1], id) + if !e.Truncate? && e.id == id then [e] else []
  }

  /** A block's life: one `Append`, then revisions 1, 2, 3, ... without a gap, and a
      `Finalize`, if any, only at the end. */
  ghost predicate Life(es: seq<BlockEvent>) {
    && (es != [] ==> es[0].Append? && TextualKind(es[0].kind))
    && forall k :: 1 <= k < |es| ==>
         || (es[k].Update? && es[k].rev == k && es[k].patch.AppendText?)
         || (es[k].Finalize? && es[k].rev == k && k == |es| - 1)
  }

  /** Every block of an accepted stream has such a life; it has begun exactly for the ids
      handed out, and has ended exactly for those that are not open. */
  lemma {:induction false} Lifecycle(events: seq<BlockEvent>, id: nat)
    requires AcceptAll(Lane(0, None), events).Some?
    ensures var lane := AcceptAll(Lane(0, None), events).value; var es := EventsOf(events, id);
            && Life(es)
            && (es != [] <==> id < lane.nextId)
            && (lane.current.Some? ==> lane.current.value.0 < lane.nextId)
            && (es != [] && es[|es| - 1].Finalize? <==>
                id < lane.nextId && !(lane.current.Some? && lane.current.value.0 == id))
            && (lane.current.Some? && lane.current.value.0 == id ==> |es| == lane.current.value.1 + 1)
    decreases |events|
  {
    if events != [] {
      var init, e := events[..|events| - 1], events[|events| - 1];
      assert events == init + [e];
      AcceptConcat(Lane(0, None), init, [e]);
      Lifecycle(init, id);
      if AcceptAll(Lane(0, None), init).value.current.Some? {
        Lifecycle(init, AcceptAll(Lane(0, None), init).value.current.value.0);
      }
    }
  }

  // ---------- missed events ----------

  /** The open block is the one whose id was handed out last. */
  predicate Newest(lane: Lane) { lane.current.Some? ==> lane.current.value.0 + 1 == lane.nextId }

  /** Later in a stream: a later id, or the same one and a later revision or its end. */
  predicate Earlier(l: Lane, m: Lane) {
    || l.nextId < m.nextId
    || (l.nextId == m.nextId && l.current.Some? && (m.current.None? || l.current.value.1 < m.current.value.1))
  }

  lemma AcceptAdvances(lane: Lane, e: BlockEvent)
    requires Newest(lane) && Accept(lane, e).Some?
    ensures Newest(Accept(lane, e).value) && Earlier(lane, Accept(lane, e).value)
  {
  }

  lemma {:induction false} AcceptAllAdvances(lane: Lane, events: seq<BlockEvent>)
    requires Newest(lane) && AcceptAll(lane, events).Some?
    ensures var end := AcceptAll(lane, events).value;
            Newest(end) && (events != [] ==> Earlier(lane, end))
    decreases |events|
  {
    if events != [] {
      AcceptAdvances(lane, events[0]);
      AcceptAllAdvances(Accept(lane, events[0]).value, events[1..]);
    }
  }

  /** An event is accepted at one point of a stream only. */
  lemma AcceptedOnce(l: Lane, m: Lane, e: BlockEvent)
    requires Newest(l) && Newest(m) && Earlier(l, m) && Accept(m, e).Some?
    ensures Accept(l, e).None?
  {
  }

  /** Ids and revisions let a consumer detect missed events: if some events of an accepted
      stream never reach it, the very next one that does is not accepted. */
  lemma LossIsDetected(a: seq<BlockEvent>, missed: seq<BlockEvent>, rest: seq<BlockEvent>)
    requires AcceptAll(Lane(0, None), a + missed + rest).Some? && missed != [] && rest != []
    ensures AcceptAll(Lane(0, None), a).Some? && AcceptAll(Lane(0, None), a + [rest[0]]).None?
    ensures AcceptAll(Lane(0, None), a + rest).None?
  {
    var start := Lane(0, None);
    AcceptConcat(start, a + missed, rest);
    AcceptConcat(start, a, missed);
    AcceptConcat(start, a, rest);
    AcceptConcat(start, a, [rest[0]]);
    var lane := AcceptAll(start, a).value;
    AcceptAllAdvances(start, a);
    AcceptAllAdvances(lane, missed);
    AcceptedOnce(lane, AcceptAll(lane, missed).value, rest[0]);
  }

  // ---------- views seeded in mid-stream ----------

  lemma {:induction false} EarlierBlocksKept(log: Log, open: bool, cmds: seq<Cmd>, p: nat)
    requires ValidLog(log) && Tidy(log, open) && Bracketed(open, cmds)
    requires p < |log.entries| - (if open then 1 else 0)
    ensures var end := Exec(log, cmds).0;
            |end.entries| >= |log.entries| && end.entries[p] == log.entries[p]
    decreases |cmds|
  {
    if cmds != [] {
      StepDisciplined(log, open, cmds[0]);
      EarlierBlocksKept(Step(log, OpOf(log, cmds[0])).0, Opens(open, cmds[0]), cmds[1..], p);
    }
  }

  /** The open block is the one that is unfinished. */
  lemma UnfinishedIsOpen(log: Log, open: bool)
    requires Tidy(log, open)
    ensures forall p :: 0 <= p < |log.entries| ==> (Unfinished(Snapshot(log)[p]) <==> open && p == |log.entries| - 1)
  {
  }

  lemma SeededViewTracks(log: Log, open: bool, cmds: seq<Cmd>)
    requires ValidLog(log)
    ensures var (end, events) := Exec(log, cmds);
            var v := ViewReplay(Seeded(Snapshot(log)), events);
            && v.Some?
            && Tracks(end, v.value, |log.entries|)
            && v.value.blocks[..|log.entries|] == Snapshot(log)
  {
    ExecIsRun(log, cmds);
    TrackRun(log, OpsOf(log, cmds), Seeded(Snapshot(log)), |log.entries|);
    assert Snapshot(log)[..|log.entries|] == Snapshot(log);
  }

  /** A view seeded from a snapshot at any moment and fed all later events has the log's
      length and agrees with it everywhere, except possibly at the block that was open then,
      which stays as the snapshot showed it. */
  lemma SeededViewFollows(log: Log, open: bool, cmds: seq<Cmd>)
    requires ValidLog(log) && Tidy(log, open) && Bracketed(open, cmds)
    ensures var (end, events) := Exec(log, cmds);
            var v := ViewReplay(Seeded(Snapshot(log)), events);
            && v.Some?
            && |log.entries| <= |end.entries| == |v.value.blocks|
            && v.value.blocks[..|log.entries|] == Snapshot(log)
            && (forall p :: 0 <= p < |end.entries| && !(open && p == |log.entries| - 1) ==>
                  v.value.blocks[p] == end.entries[p].block)
            && (!open ==> v.value.blocks == Snapshot(end))
  {
    SeededViewTracks(log, open, cmds);
    var end := Exec(log, cmds).0;
    var v := ViewReplay(Seeded(Snapshot(log)), Exec(log, cmds).1).value;
    forall p | 0 <= p < |log.entries| - (if open then 1 else 0)
      ensures v.blocks[p] == end.entries[p].block
    {
      EarlierBlocksKept(log, open, cmds, p);
      assert v.blocks[p] == v.blocks[..|log.entries|][p];
    }
  }

  // ---------- the sink ----------

  /** The log and every event published so far. */
  datatype Channel = Channel(log: Log, published: seq<BlockEvent>)

  function Perform(ch: Channel, cmds: seq<Cmd>): Channel {
    var (log, events) := Exec(ch.log, cmds); Channel(log, ch.published + events)
  }

  function Publish(ch: Channel, op: Op): Channel {
    var (log, e) := Step(ch.log, op); Channel(log, ch.published + Listed(e))
  }

  lemma PerformNone(ch: Channel)
    ensures Perform(ch, []) == ch
  {
    Unit(ch.published);
  }

  lemma PerformOne(ch: Channel, c: Cmd)
    ensures Perform(ch, [c]) == Publish(ch, OpOf(ch.log, c))
  {
    var (l1, e1) := Step(ch.log, OpOf(ch.log, c));
    assert [c][1..] == [];
    assert Exec(l1, []) == (l1, []);
    assert Listed(e1) + [] == Listed(e1);
  }

  lemma PerformConcat(ch: Channel, a: seq<Cmd>, b: seq<Cmd>)
    ensures Perform(ch, a + b) == Perform(Perform(ch, a), b)
  {
    hide Exec;
    ExecConcat(ch.log, a, b);
    var (mid, e1) := Exec(ch.log, a);
    Assoc(ch.published, e1, Exec(mid, b).1);
  }

  lemma PerformThree(ch: Channel, a: Cmd, b: Cmd, c: Cmd)
    ensures Perform(ch, [a, b, c]) == Perform(Perform(Perform(ch, [a]), [b]), [c])
  {
    PerformConcat(ch, [a], [b]);
    PerformConcat(ch, [a] + [b], [c]);
    assert [a] + [b] + [c] == [a, b, c];
  }

  /** `EngineSink`: a log whose every mutation is broadcast. */
  class BlockSink {
    const log: BlockLog
    var published: seq<BlockEvent>

    ghost function Value(): Channel
      reads this, log
    {
      Channel(log.Value(), published)
    }

    ghost predicate Valid()
      reads this, log
    {
      log.Valid()
    }

    constructor ()
      ensures Valid() && Value() == Channel(EMPTY_LOG, []) && fresh(log)
    {
      log := new BlockLog();
      published := [];
    }

    method Append(kind: BlockKind) returns (id: nat)
      requires Valid()
      modifies this, log
      ensures Valid() && Value() == Publish(old(Value()), AppendOp(kind))
      ensures id == old(log.nextId)
    {
      var event;
      id, event := log.Append(kind);
      published := published + [event];
    }

    method Patch(id: nat, patch: BlockPatch)
      requires Valid()
      modifies this, log
      ensures Valid() && Value() == Publish(old(Value()), PatchOp(id, patch))
    {
      var event := log.Patch(id, patch);
      if event.Some? {
        published := published + [event.value];
      }
    }

    method Finalize(id: nat)
      requires Valid()
      modifies this, log
      ensures Valid() && Value() == Publish(old(Value()), FinalizeOp(id))
    {
      var event := log.Finalize(id);
      if event.Some? {
        published := published + [event.value];
      }
    }

    method Truncate(from: nat)
      requires Valid()
      modifies this, log
      ensures Valid() && Value() == Publish(old(Value()), TruncateOp(from))
    {
      var event := log.Truncate(from);
      if event.Some? {
        published := published + [event.value];
      }
    }
  }
}
