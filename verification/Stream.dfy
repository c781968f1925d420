/** The authoritative block log and the replayed view (`stream.rs`).

    `Log` and `View` are the values of the two classes' fields; `Step` and `ViewApply`
    say what one call does to them, and the classes are proved against them. */
module Stream {
  import opened Bytes
  import opened Blocks

  // ---------- the log as a value ----------

  datatype Entry = Entry(id: nat, rev: nat, block: Block)
  datatype Log = Log(entries: seq<Entry>, nextId: nat)

  const EMPTY_LOG := Log([], 0)

  /** Ids strictly increase along the log and all were handed out before `nextId`. */
  ghost predicate ValidLog(log: Log) {
    && (forall i :: 0 <= i < |log.entries| ==> log.entries[i].id < log.nextId)
    && (forall i, j :: 0 <= i < j < |log.entries| ==> log.entries[i].id < log.entries[j].id)
  }

  function Ids(entries: seq<Entry>): (r: seq<nat>)
    ensures |r| == |entries|
    ensures forall i :: 0 <= i < |r| ==> r[i] == entries[i].id
  {
    seq<nat>(|entries|, i requires 0 <= i < |entries| => entries[i].id)
  }

  /** `BlockLog::snapshot`. */
  function Snapshot(log: Log): (r: seq<Block>)
    ensures |r| == |log.entries|
    ensures forall i :: 0 <= i < |r| ==> r[i] == log.entries[i].block
  {
    seq(|log.entries|, i requires 0 <= i < |log.entries| => log.entries[i].block)
  }

  function Position(entries: seq<Entry>, id: nat): (r: Option<nat>)
    ensures r.Some? ==> r.value < |entries| && entries[r.value].id == id
    ensures r.None? ==> forall i :: 0 <= i < |entries| ==> entries[i].id != id
  {
    if entries == [] then None
    else if entries[|entries| - 1].id == id then Some(|entries| - 1)
    else Position(entries[..|entries| - 1], id)
  }

  datatype Op =
    | AppendOp(kind: BlockKind)
    | PatchOp(id: nat, patch: BlockPatch)
    | FinalizeOp(id: nat)
    | TruncateOp(from: nat)

  /** What one `BlockLog` call leaves behind and the event it returns. */
  function Step(log: Log, op: Op): (Log, Option<BlockEvent>) {
    match op
    case AppendOp(kind) =>
      (Log(log.entries + [Entry(log.nextId, 0, Empty(kind))], log.nextId + 1), Some(Append(log.nextId, kind)))
    case PatchOp(id, patch) =>
      (match Position(log.entries, id)
       case None => (log, None)
       case Some(i) =>
         var e := log.entries[i];
         (log.(entries := log.entries[i := Entry(id, e.rev + 1, ApplyPatch(e.block, patch))]),
          Some(Update(id, e.rev + 1, patch))))
    case FinalizeOp(id) =>
      (match Position(log.entries, id)
       case None => (log, None)
       case Some(i) =>
         var e := log.entries[i];
         (log.(entries := log.entries[i := Entry(id, e.rev + 1, MarkComplete(e.block))]),
          Some(Finalize(id, e.rev + 1))))
    case TruncateOp(from) =>
      (match Position(log.entries, from)
       case None => (log, None)
       case Some(i) => (log.(entries := log.entries[..i]), Some(Truncate(from))))
  }

  function Listed(e: Option<BlockEvent>): seq<BlockEvent> { if e.Some? then [e.value] else [] }

  /** A run of calls and all the events it returned, in order. */
  function Run(log: Log, ops: seq<Op>): (Log, seq<BlockEvent>)
    decreases |ops|
  {
    if ops == [] then (log, []) else
    var (l1, e1) := Step(log, ops[0]);
    var (l2, e2) := Run(l1, ops[1..]);
    (l2, Listed(e1) + e2)
  }

  lemma RunOne(log: Log, op: Op)
    ensures Run(log, [op]) == (Step(log, op).0, Listed(Step(log, op).1))
  {
    assert [op][1..] == [];
    Unit(Listed(Step(log, op).1));
  }

  lemma {:induction false} RunConcat(log: Log, a: seq<Op>, b: seq<Op>)
    ensures var mid := Run(log, a); var end := Run(mid.0, b);
            Run(log, a + b) == (end.0, mid.1 + end.1)
    decreases |a|
  {
    if a == [] {
      Unit(b);
      Unit(Run(log, b).1);
    } else {
      assert (a + b)[1..] == a[1..] + b;
      var (l1, e1) := Step(log, a[0]);
      RunConcat(l1, a[1..], b);
      var mid := Run(l1, a[1..]);
      Assoc(Listed(e1), mid.1, Run(mid.0, b).1);
    }
  }

  lemma PositionUnique(log: Log, i: nat)
    requires ValidLog(log) && i < |log.entries|
    ensures Position(log.entries, log.entries[i].id) == Some(i)
  {
  }

  lemma StepKeepsValid(log: Log, op: Op)
    requires ValidLog(log)
    ensures ValidLog(Step(log, op).0)
    ensures log.nextId <= Step(log, op).0.nextId
    ensures Step(log, op).1.None? ==> Step(log, op).0 == log
  {
    hide Empty, ApplyPatch, MarkComplete;
  }

  // ---------- events determine the log ----------

  /** The log one published event leads to: nothing about a call is lost in its event. */
  function Follow(log: Log, event: BlockEvent): Log {
    match event
    case Append(id, kind) => Log(log.entries + [Entry(id, 0, Empty(kind))], id + 1)
    case Update(id, rev, patch) =>
      (match Position(log.entries, id)
       case None => log
       case Some(i) => log.(entries := log.entries[i := Entry(id, rev, ApplyPatch(log.entries[i].block, patch))]))
    case Finalize(id, rev) =>
      (match Position(log.entries, id)
       case None => log
       case Some(i) => log.(entries := log.entries[i := Entry(id, rev, MarkComplete(log.entries[i].block))]))
    case Truncate(from) =>
      (match Position(log.entries, from)
       case None => log
       case Some(i) => log.(entries := log.entries[..i]))
  }

  function FollowAll(log: Log, events: seq<BlockEvent>): Log
    decreases |events|
  {
    if events == [] then log else FollowAll(Follow(log, events[0]), events[1..])
  }

  lemma StepFollowed(log: Log, op: Op)
    ensures var (log', e) := Step(log, op); log' == (if e.Some? then Follow(log, e.value) else log)
  {
  }

  lemma {:induction false} FollowConcat(log: Log, a: seq<BlockEvent>, b: seq<BlockEvent>)
    ensures FollowAll(log, a + b) == FollowAll(FollowAll(log, a), b)
    decreases |a|
  {
    if a == [] {
      assert a + b == b;
    } else {
      assert (a + b)[1..] == a[1..] + b;
      FollowConcat(Follow(log, a[0]), a[1..], b);
    }
  }

  /** Replaying the events of any run reproduces the log, ids and revisions included. */
  lemma {:induction false} RunFollowed(log: Log, ops: seq<Op>)
    ensures FollowAll(log, Run(log, ops).1) == Run(log, ops).0
    decreases |ops|
  {
    if ops != [] {
      var (l1, e1) := Step(log, ops[0]);
      StepFollowed(log, ops[0]);
      RunFollowed(l1, ops[1..]);
      FollowConcat(log, Listed(e1), Run(l1, ops[1..]).1);
    }
  }

  // ---------- ids are never reused ----------

  function AppendedIds(events: seq<BlockEvent>): seq<nat> {
    if events == [] then []
    else (if events[0].Append? then [events[0].id] else []) + AppendedIds(events[1..])
  }

  /** One call appends at most the next id. */
  lemma StepAppends(log: Log, op: Op)
    ensures var (l1, e1) := Step(log, op);
            var appended := AppendedIds(Listed(e1));
            (appended == [] && l1.nextId == log.nextId) || (appended == [log.nextId] && l1.nextId == log.nextId + 1)
  {
    hide Empty, ApplyPatch, MarkComplete, Position;
    var e1 := Step(log, op).1;
    assert Listed(e1) != [] ==> Listed(e1)[1..] == [];
  }

  lemma AppendedConcat(e: Option<BlockEvent>, rest: seq<BlockEvent>)
    ensures AppendedIds(Listed(e) + rest) == AppendedIds(Listed(e)) + AppendedIds(rest)
  {
    if e.Some? {
      assert (Listed(e) + rest)[1..] == rest && Listed(e)[1..] == [];
    } else {
      assert Listed(e) + rest == rest;
    }
  }

  /** Whatever is truncated in between, appended ids are consecutive from `nextId`. */
  lemma {:induction false} IdsAreFresh(log: Log, ops: seq<Op>)
    ensures var (end, events) := Run(log, ops);
            && log.nextId + |AppendedIds(events)| == end.nextId
            && forall k :: 0 <= k < |AppendedIds(events)| ==> AppendedIds(events)[k] == log.nextId + k
    decreases |ops|
  {
    if ops != [] {
      var (l1, e1) := Step(log, ops[0]);
      var rest := Run(l1, ops[1..]).1;
      IdsAreFresh(l1, ops[1..]);
      StepAppends(log, ops[0]);
      AppendedConcat(e1, rest);
      hide Step, AppendedIds;
    }
  }

  // ---------- the view as a value ----------

  datatype View = View(blocks: seq<Block>, index: map<nat, nat>, order: seq<nat>)

  /** `BlockView::default` is `Seeded([])`. */
  function Seeded(blocks: seq<Block>): View { View(blocks, map[], []) }

  /** One `BlockView::apply`; `None` where the code panics (an index past `blocks`, or a
      drain that starts past the end of `order`). */
  function ViewApply(v: View, event: BlockEvent): Option<View> {
    match event
    case Append(id, kind) =>
      Some(View(v.blocks + [Empty(kind)], v.index[id := |v.blocks|], v.order + [id]))
    case Update(id, _, patch) =>
      if id !in v.index then Some(v)
      else if v.index[id] >= |v.blocks| then None
      else Some(v.(blocks := v.blocks[v.index[id] := ApplyPatch(v.blocks[v.index[id]], patch)]))
    case Finalize(id, _) =>
      if id !in v.index then Some(v)
      else if v.index[id] >= |v.blocks| then None
      else Some(v.(blocks := v.blocks[v.index[id] := MarkComplete(v.blocks[v.index[id]])]))
    case Truncate(from) =>
      if from !in v.index then Some(v)
      else
        var i := v.index[from];
        if i > |v.order| then None
        else Some(View(if i <= |v.blocks| then v.blocks[..i] else v.blocks,
                       v.index - (set id | id in v.order[i..]), v.order[..i]))
  }

  function ViewReplay(v: View, events: seq<BlockEvent>): Option<View>
    decreases |events|
  {
    if events == [] then Some(v) else
    match ViewApply(v, events[0])
    case None => None
    case Some(v') => ViewReplay(v', events[1..])
  }

  /** `index` is exactly the inverse of the id order `ids`, whose first id sits at `base`. */
  ghost predicate Inverse(index: map<nat, nat>, ids: seq<nat>, base: nat) {
    && (forall j :: 0 <= j < |ids| ==> ids[j] in index && index[ids[j]] == base + j)
    && (forall id :: id in index ==> base <= index[id] < base + |ids| && ids[index[id] - base] == id)
  }

  /** The view follows the log: same length, and from position `base` on the same ids and
      blocks. A view started empty has `base == 0`; a view seeded from a snapshot of `base`
      blocks knows no id below it. */
  ghost predicate Tracks(log: Log, v: View, base: nat) {
    && base <= |log.entries| == |v.blocks|
    && |v.order| == |log.entries| - base
    && (forall j :: 0 <= j < |v.order| ==> v.order[j] == log.entries[base + j].id)
    && Inverse(v.index, v.order, base)
    && forall p :: base <= p < |v.blocks| ==> v.blocks[p] == log.entries[p].block
  }

  /** Cutting the id order at `i` separates the indexed ids by position. */
  lemma OrderCut(index: map<nat, nat>, ids: seq<nat>, base: nat, i: nat)
    requires Inverse(index, ids, base) && i <= |ids|
    ensures forall id :: id in index ==> (id in ids[i..] <==> index[id] >= base + i)
    ensures Inverse(index - (set id | id in ids[i..]), ids[..i], base)
  {
    forall id | id in index ensures id in ids[i..] <==> index[id] >= base + i {
      if index[id] >= base + i {
        assert ids[i..][index[id] - base - i] == id;
      }
    }
  }

  /** The log and a tracking view look an id up alike. */
  lemma SameLookup(log: Log, id: nat, v: View, base: nat)
    requires ValidLog(log) && Tracks(log, v, base)
    ensures id in v.index <==> Position(log.entries, id).Some? && Position(log.entries, id).value >= base
    ensures id in v.index ==> Position(log.entries, id) == Some(v.index[id])
  {
    if id in v.index {
      assert v.order[v.index[id] - base] == id;
      PositionUnique(log, v.index[id]);
    }
    if Position(log.entries, id).Some? && Position(log.entries, id).value >= base {
      assert v.order[Position(log.entries, id).value - base] == id;
    }
  }

  lemma TrackAppend(log: Log, kind: BlockKind, v: View, base: nat)
    requires ValidLog(log) && Tracks(log, v, base)
    ensures var v' := ViewApply(v, Append(log.nextId, kind)).value;
            && Tracks(Step(log, AppendOp(kind)).0, v', base)
            && v'.blocks[..base] == v.blocks[..base]
  {
    var v' := ViewApply(v, Append(log.nextId, kind)).value;
    forall id | id in v.index ensures id != log.nextId {
      assert v.order[v.index[id] - base] == id;
    }
  }

  /** Replacing an entry's block in the log, and in the view where the view knows the id. */
  lemma TrackReplace(log: Log, i: nat, e: Entry, v: View, base: nat)
    requires Tracks(log, v, base) && i < |log.entries| && e.id == log.entries[i].id
    ensures Tracks(log.(entries := log.entries[i := e]),
                   if base <= i then v.(blocks := v.blocks[i := e.block]) else v, base)
  {
  }

  lemma TrackTruncate(log: Log, from: nat, v: View)
    requires ValidLog(log) && Tracks(log, v, 0) && Position(log.entries, from).Some?
    ensures var v' := ViewApply(v, Truncate(from));
            v'.Some? && Tracks(Step(log, TruncateOp(from)).0, v'.value, 0)
  {
    SameLookup(log, from, v, 0);
    OrderCut(v.index, v.order, 0, v.index[from]);
  }

  /** One call and the replay of its event keep the view on the log. A truncation keeps it
      when the view was started empty. */
  lemma TrackStep(log: Log, op: Op, v: View, base: nat)
    requires ValidLog(log) && Tracks(log, v, base)
    requires op.TruncateOp? ==> base == 0
    ensures var (log', e) := Step(log, op);
            match e
            case None => log' == log
            case Some(event) =>
              var v' := ViewApply(v, event);
              && v'.Some?
              && Tracks(log', v'.value, base)
              && v'.value.blocks[..base] == v.blocks[..base]
  {
    hide Position;
    match op
    case AppendOp(kind) => TrackAppend(log, kind, v, base);
    case PatchOp(id, patch) =>
      SameLookup(log, id, v, base);
      if Position(log.entries, id).Some? {
        var i := Position(log.entries, id).value;
        TrackReplace(log, i, Step(log, op).0.entries[i], v, base);
      }
    case FinalizeOp(id) =>
      SameLookup(log, id, v, base);
      if Position(log.entries, id).Some? {
        var i := Position(log.entries, id).value;
        TrackReplace(log, i, Step(log, op).0.entries[i], v, base);
      }
    case TruncateOp(from) =>
      if Position(log.entries, from).Some? {
        TrackTruncate(log, from, v);
      }
  }

  /** For every sequence of calls, unknown ids and truncations included, a view started
      empty that replays the returned events shows exactly the snapshot, and its index stays
      the exact inverse of its id order. */
  lemma ViewSimulatesLog(ops: seq<Op>)
    ensures var (log, events) := Run(EMPTY_LOG, ops);
            var v := ViewReplay(Seeded([]), events);
            && ValidLog(log)
            && v.Some?
            && v.value.blocks == Snapshot(log)
            && v.value.order == Ids(log.entries)
            && Inverse(v.value.index, v.value.order, 0)
  {
    TrackRun(EMPTY_LOG, ops, Seeded([]), 0);
  }

  lemma {:induction false} TrackRun(log: Log, ops: seq<Op>, v: View, base: nat)
    requires ValidLog(log) && Tracks(log, v, base)
    requires base == 0 || forall k :: 0 <= k < |ops| ==> !ops[k].TruncateOp?
    ensures var (log', events) := Run(log, ops);
            var v' := ViewReplay(v, events);
            && ValidLog(log')
            && v'.Some?
            && Tracks(log', v'.value, base)
            && v'.value.blocks[..base] == v.blocks[..base]
    decreases |ops|
  {
    if ops != [] {
      var (l1, e1) := Step(log, ops[0]);
      StepKeepsValid(log, ops[0]);
      TrackStep(log, ops[0], v, base);
      var rest := Run(l1, ops[1..]).1;
      if e1.Some? {
        assert ([e1.value] + rest)[1..] == rest;
        TrackRun(l1, ops[1..], ViewApply(v, e1.value).value, base);
      } else {
        assert Listed(e1) + rest == rest;
        TrackRun(l1, ops[1..], v, base);
      }
    }
  }

  /** Every index entry points at a block the view has. */
  ghost predicate Sound(v: View) { forall id :: id in v.index ==> v.index[id] < |v.blocks| }

  /** A truncation of a block the log knows is replayed correctly, the same blocks shown and
      no index entry dangling, exactly when the view was not seeded from a snapshot: with
      `base > 0` the replay panics, keeps a dangling index entry, or leaves the invalidated
      blocks on show. An unseeded view goes on following the log, index and order included. */
  lemma TruncateNeedsAnUnseededView(log: Log, v: View, base: nat, from: nat)
    requires ValidLog(log) && Tracks(log, v, base) && Sound(v)
    requires Position(log.entries, from).Some?
    ensures var v' := ViewApply(v, Truncate(from)); var log' := Step(log, TruncateOp(from)).0;
            && (v'.Some? && Sound(v'.value) && v'.value.blocks == Snapshot(log') <==> base == 0)
            && (base == 0 ==> v'.Some? && Tracks(log', v'.value, 0))
  {
    SameLookup(log, from, v, base);
    if base == 0 {
      TrackTruncate(log, from, v);
    } else if from in v.index && v.index[from] <= |v.order| {
      OrderCut(v.index, v.order, base, v.index[from]);
      assert from in ViewApply(v, Truncate(from)).value.index;
    }
  }

  /** The concrete run: a log of two blocks, a view seeded from its snapshot, a third block
      appended and truncated again. Replaying the two events panics. */
  lemma SeededTruncatePanics(a: BlockKind, b: BlockKind, c: BlockKind)
    ensures var log := Run(EMPTY_LOG, [AppendOp(a), AppendOp(b)]).0;
            var events := Run(log, [AppendOp(c), TruncateOp(2)]).1;
            events == [Append(2, c), Truncate(2)] && ViewReplay(Seeded(Snapshot(log)), events).None?
  {
    var log := Log([Entry(0, 0, Empty(a)), Entry(1, 0, Empty(b))], 2);
    RunTwo(EMPTY_LOG, AppendOp(a), AppendOp(b));
    assert Run(EMPTY_LOG, [AppendOp(a), AppendOp(b)]).0 == log;
    var longer := Step(log, AppendOp(c)).0;
    assert Step(longer, TruncateOp(2)).1 == Some(Truncate(2));
    RunTwo(log, AppendOp(c), TruncateOp(2));
    var v := ViewApply(Seeded(Snapshot(log)), Append(2, c)).value;
    assert ViewApply(v, Truncate(2)).None?;
    assert [Append(2, c), Truncate(2)][1..] == [Truncate(2)];
  }

  lemma RunTwo(log: Log, first: Op, second: Op)
    ensures var (l1, e1) := Step(log, first); var (l2, e2) := Step(l1, second);
            Run(log, [first, second]) == (l2, Listed(e1) + Listed(e2))
  {
    assert [first, second] == [first] + [second];
    RunConcat(log, [first], [second]);
    RunOne(log, first);
    RunOne(Step(log, first).0, second);
  }

  // ---------- the two classes ----------

  /** Removing the ids of a cut-off tail leaves the exact index of the rest. */
  lemma IndexCut(index: map<nat, nat>, blocks: seq<Entry>, i: nat)
    requires Inverse(index, Ids(blocks), 0) && i <= |blocks|
    ensures Inverse(index - (set id | id in Ids(blocks[i..])), Ids(blocks[..i]), 0)
  {
    assert Ids(blocks[i..]) == Ids(blocks)[i..];
    assert Ids(blocks[..i]) == Ids(blocks)[..i];
    OrderCut(index, Ids(blocks), 0, i);
  }

  /** The drain loops: every drained id leaves the index. */
  method RemoveIds(index: map<nat, nat>, drained: seq<nat>) returns (r: map<nat, nat>)
    ensures r == index - set id | id in drained
  {
    r := index;
    var k := 0;
    while k < |drained|
      invariant k <= |drained|
      invariant r == index - set id | id in drained[..k]
    {
      assert drained[..k + 1] == drained[..k] + [drained[k]];
      r := r - {drained[k]};
      k := k + 1;
    }
    assert drained[..k] == drained;
  }

  class BlockLog {
    var blocks: seq<Entry>
    var index: map<nat, nat>
    var nextId: nat

    ghost function Value(): Log
      reads this
    {
      Log(blocks, nextId)
    }

    ghost predicate Valid()
      reads this
    {
      ValidLog(Value()) && Inverse(index, Ids(blocks), 0)
    }

    constructor ()
      ensures Valid() && Value() == EMPTY_LOG
    {
      blocks, index, nextId := [], map[], 0;
    }

    lemma Lookup(id: nat)
      requires Valid()
      ensures Position(blocks, id) == if id in index then Some(index[id]) else None
    {
      if id in index {
        PositionUnique(Value(), index[id]);
      }
      if Position(blocks, id).Some? {
        assert Ids(blocks)[Position(blocks, id).value] == id;
      }
    }

    method Append(kind: BlockKind) returns (id: nat, event: BlockEvent)
      requires Valid()
      modifies this
      ensures Valid() && id == old(nextId)
      ensures (Value(), Some(event)) == Step(old(Value()), AppendOp(kind))
    {
      id := nextId;
      nextId := nextId + 1;
      index := index[id := |blocks|];
      blocks := blocks + [Entry(id, 0, Empty(kind))];
      event := BlockEvent.Append(id, kind);
    }

    method Patch(id: nat, patch: BlockPatch) returns (event: Option<BlockEvent>)
      requires Valid()
      modifies this
      ensures Valid() && (Value(), event) == Step(old(Value()), PatchOp(id, patch))
    {
      hide Position, ApplyPatch;
      Lookup(id);
      if id !in index {
        return None;
      }
      var i := index[id];
      var e := blocks[i];
      blocks := blocks[i := Entry(e.id, e.rev + 1, ApplyPatch(e.block, patch))];
      assert Ids(blocks) == old(Ids(blocks));
      event := Some(Update(id, blocks[i].rev, patch));
    }

    method Finalize(id: nat) returns (event: Option<BlockEvent>)
      requires Valid()
      modifies this
      ensures Valid() && (Value(), event) == Step(old(Value()), FinalizeOp(id))
    {
      hide Position, MarkComplete;
      Lookup(id);
      if id !in index {
        return None;
      }
      var i := index[id];
      var e := blocks[i];
      blocks := blocks[i := Entry(e.id, e.rev + 1, MarkComplete(e.block))];
      assert Ids(blocks) == old(Ids(blocks));
      event := Some(BlockEvent.Finalize(id, blocks[i].rev));
    }

    method Truncate(from: nat) returns (event: Option<BlockEvent>)
      requires Valid()
      modifies this
      ensures Valid() && (Value(), event) == Step(old(Value()), TruncateOp(from))
    {
      hide Position;
      Lookup(from);
      if from !in index {
        return None;
      }
      var i := index[from];
      StepKeepsValid(Value(), TruncateOp(from));
      IndexCut(index, blocks, i);
      index := RemoveIds(index, Ids(blocks[i..]));
      blocks := blocks[..i];
      event := Some(BlockEvent.Truncate(from));
    }

    method TakeSnapshot() returns (r: seq<Block>)
      ensures r == Snapshot(Value())
    {
      r := Snapshot(Log(blocks, nextId));
    }
  }

  class BlockView {
    var blocks: seq<Block>
    var index: map<nat, nat>
    var order: seq<nat>

    ghost function Value(): View
      reads this
    {
      View(blocks, index, order)
    }

    constructor FromSnapshot(blocks: seq<Block>)
      ensures Value() == Seeded(blocks)
    {
      this.blocks, index, order := blocks, map[], [];
    }

    /** `panicked` reports the code's index and drain panics. */
    method Apply(event: BlockEvent) returns (panicked: bool)
      modifies this
      ensures panicked == ViewApply(old(Value()), event).None?
      ensures !panicked ==> Some(Value()) == ViewApply(old(Value()), event)
    {
      panicked := false;
      match event
      case Append(id, kind) =>
        index := index[id := |blocks|];
        order := order + [id];
        blocks := blocks + [Empty(kind)];
      case Update(id, _, patch) =>
        if id in index {
          var i := index[id];
          if i >= |blocks| { return true; }
          blocks := blocks[i := ApplyPatch(blocks[i], patch)];
        }
      case Finalize(id, _) =>
        if id in index {
          var i := index[id];
          if i >= |blocks| { return true; }
          blocks := blocks[i := MarkComplete(blocks[i])];
        }
      case Truncate(from) =>
        if from in index {
          var i := index[from];
          if i > |order| { return true; }
          index := RemoveIds(index, order[i..]);
          order := order[..i];
          if i <= |blocks| {
            blocks := blocks[..i];
          }
        }
    }
  }
}
