/** The session engine over either adapter (`engine.rs`): every output frame drives the
    adapter, whose block mutations go to the log and are published. */
module Engine {
  import opened Bytes
  import opened Blocks
  import opened Stream
  import opened Document
  import opened Splitting
  import Floor
  import ClaudeCode

  // ---------- the engine as a value ----------

  datatype Deriver =
    | FloorDeriver(floor: Floor.State)
    | ClaudeDeriver(codec: ClaudeCode.Codec, claude: ClaudeCode.State)
  {
    /** Whether the adapter holds an open block. */
    predicate Open() {
      match this
      case FloorDeriver(st) => st.group.open.Some?
      case ClaudeDeriver(_, st) => st.open
    }
  }

  datatype State = State(deriver: Deriver, channel: Channel)

  function Fresh(d: Deriver): State { State(d, Channel(EMPTY_LOG, [])) }

  /** A deriver as the two constructors make it. */
  predicate Unused(d: Deriver) {
    match d
    case FloorDeriver(st) => st == Floor.START
    case ClaudeDeriver(_, st) => st == ClaudeCode.START
  }

  function Derived(d: Deriver, bytes: Text): (Deriver, seq<Cmd>) {
    match d
    case FloorDeriver(st) => var (st', cmds) := Floor.Feed(st, bytes); (FloorDeriver(st'), cmds)
    case ClaudeDeriver(codec, st) => var (st', cmds) := ClaudeCode.Feed(codec, st, bytes); (ClaudeDeriver(codec, st'), cmds)
  }

  function Flushed(d: Deriver): (Deriver, seq<Cmd>) {
    match d
    case FloorDeriver(st) => var (st', cmds) := Floor.Flush(st); (FloorDeriver(st'), cmds)
    case ClaudeDeriver(codec, st) => var (st', cmds) := ClaudeCode.Flush(codec, st); (ClaudeDeriver(codec, st'), cmds)
  }

  /** `feed_output`. */
  function FeedOutput(e: State, bytes: Text): State {
    State(Derived(e.deriver, bytes).0, Perform(e.channel, Derived(e.deriver, bytes).1))
  }

  /** `finish`. */
  function Finish(e: State): State {
    State(Flushed(e.deriver).0, Perform(e.channel, Flushed(e.deriver).1))
  }

  function FeedFrames(e: State, frames: seq<Text>): State
    decreases |frames|
  {
    if frames == [] then e else FeedFrames(FeedOutput(e, frames[0]), frames[1..])
  }

  // ---------- frames do not matter ----------

  /** The Claude adapter's buffer never holds a newline. */
  ghost predicate Settled(d: Deriver) {
    d.ClaudeDeriver? ==> Unbroken(LF, d.claude.buf)
  }

  lemma DerivedSettled(d: Deriver, bytes: Text)
    ensures Settled(Derived(d, bytes).0)
  {
    if d.ClaudeDeriver? {
      ClaudeCode.BufferHasNoNewline(d.codec, d.claude, bytes);
    }
  }

  lemma DerivedConcat(d: Deriver, a: Text, b: Text)
    ensures var (d1, c1) := Derived(d, a); var (d2, c2) := Derived(d1, b);
            Derived(d, a + b) == (d2, c1 + c2)
  {
    match d
    case FloorDeriver(st) => Floor.FeedConcat(st, a, b);
    case ClaudeDeriver(codec, st) => ClaudeCode.FeedConcat(codec, st, a, b);
  }

  lemma FeedOutputConcat(e: State, a: Text, b: Text)
    ensures FeedOutput(e, a + b) == FeedOutput(FeedOutput(e, a), b)
  {
    var (d1, c1) := Derived(e.deriver, a);
    DerivedConcat(e.deriver, a, b);
    PerformConcat(e.channel, c1, Derived(d1, b).1);
  }

  lemma FeedNothing(e: State)
    requires Settled(e.deriver)
    ensures FeedOutput(e, []) == e
  {
    assert e.channel.published + [] == e.channel.published;
    if e.deriver.ClaudeDeriver? {
      var st := e.deriver.claude;
      assert st.buf + [] == st.buf;
      SplitUnbroken(LF, st.buf);
    }
  }

  /** The engine depends only on the concatenation of the output frames: log, events and
      adapter state are the same for every way of cutting the output into frames. */
  lemma {:induction false} FramesDoNotMatter(e: State, frames: seq<Text>)
    requires Settled(e.deriver)
    ensures FeedFrames(e, frames) == FeedOutput(e, Concat(frames))
    decreases |frames|
  {
    if frames == [] {
      FeedNothing(e);
    } else {
      DerivedSettled(e.deriver, frames[0]);
      FramesDoNotMatter(FeedOutput(e, frames[0]), frames[1..]);
      FeedOutputConcat(e, frames[0], Concat(frames[1..]));
    }
  }

  // ---------- event discipline over whole runs ----------

  lemma DerivedBracketed(d: Deriver, bytes: Text)
    ensures Bracketed(d.Open(), Derived(d, bytes).1)
    ensures OpenAfter(d.Open(), Derived(d, bytes).1) == Derived(d, bytes).0.Open()
  {
    match d
    case FloorDeriver(st) => Floor.FeedBracketed(st, bytes);
    case ClaudeDeriver(codec, st) => ClaudeCode.FeedBracketed(codec, st, bytes);
  }

  lemma FlushedBracketed(d: Deriver)
    ensures Bracketed(d.Open(), Flushed(d).1)
    ensures !OpenAfter(d.Open(), Flushed(d).1) && !Flushed(d).0.Open()
  {
    match d
    case FloorDeriver(st) => Floor.FlushBracketed(st);
    case ClaudeDeriver(codec, st) => ClaudeCode.FlushBracketed(codec, st);
  }

  /** What every reachable engine keeps: the log is valid and tidy, the published events are
      an accepted stream that ends at the log's lane, and they alone reproduce the log. */
  ghost predicate Sound(e: State) {
    && ValidLog(e.channel.log)
    && Tidy(e.channel.log, e.deriver.Open())
    && AcceptAll(Lane(0, None), e.channel.published) == Some(LaneOf(e.channel.log, e.deriver.Open()))
    && FollowAll(EMPTY_LOG, e.channel.published) == e.channel.log
  }

  lemma FreshSound(d: Deriver)
    requires Unused(d)
    ensures Sound(Fresh(d))
  {
  }

  lemma PerformSound(ch: Channel, open: bool, cmds: seq<Cmd>)
    requires ValidLog(ch.log) && Tidy(ch.log, open) && Bracketed(open, cmds)
    requires AcceptAll(Lane(0, None), ch.published) == Some(LaneOf(ch.log, open))
    requires FollowAll(EMPTY_LOG, ch.published) == ch.log
    ensures var ch' := Perform(ch, cmds); var open' := OpenAfter(open, cmds);
            && ValidLog(ch'.log) && Tidy(ch'.log, open')
            && AcceptAll(Lane(0, None), ch'.published) == Some(LaneOf(ch'.log, open'))
            && FollowAll(EMPTY_LOG, ch'.published) == ch'.log
  {
    var (log, events) := Exec(ch.log, cmds);
    ExecDisciplined(ch.log, open, cmds);
    AcceptConcat(Lane(0, None), ch.published, events);
    ExecIsRun(ch.log, cmds);
    RunFollowed(ch.log, OpsOf(ch.log, cmds));
    FollowConcat(EMPTY_LOG, ch.published, events);
  }

  lemma FeedKeepsSound(e: State, bytes: Text)
    requires Sound(e)
    ensures Sound(FeedOutput(e, bytes))
  {
    DerivedBracketed(e.deriver, bytes);
    PerformSound(e.channel, e.deriver.Open(), Derived(e.deriver, bytes).1);
  }

  /** After `finish` every block is complete. */
  lemma FinishCompletes(e: State)
    requires Sound(e)
    ensures Sound(Finish(e))
    ensures forall i :: 0 <= i < |Finish(e).channel.log.entries| ==>
              Finish(e).channel.log.entries[i].block.Textual() && Finish(e).channel.log.entries[i].block.complete
  {
    FlushedBracketed(e.deriver);
    PerformSound(e.channel, e.deriver.Open(), Flushed(e.deriver).1);
  }

  /** Over every run of either adapter: at most the last block is open; each block id has one
      `Append`, then revisions 1, 2, 3, ... without a gap, and at most one `Finalize`, last;
      and a block is open exactly when its `Finalize` is still to come. */
  lemma {:induction false} EventDiscipline(d: Deriver, frames: seq<Text>, id: nat)
    requires Unused(d)
    ensures var e := FeedFrames(Fresh(d), frames); var es := EventsOf(e.channel.published, id);
            && Sound(e)
            && Life(es)
            && (es != [] <==> id < e.channel.log.nextId)
            && (es != [] && !es[|es| - 1].Finalize? <==>
                e.deriver.Open() && e.channel.log.entries != [] && id == LastId(e.channel.log))
  {
    FreshSound(d);
    FramesKeepSound(Fresh(d), frames);
    var e := FeedFrames(Fresh(d), frames);
    Lifecycle(e.channel.published, id);
  }

  /** When the session has finished, every block ever appended has had its whole life: one
      `Append`, revisions 1, 2, 3, ... without a gap, and one `Finalize`, last. */
  lemma FinishedDiscipline(d: Deriver, frames: seq<Text>, id: nat)
    requires Unused(d)
    ensures var e := Finish(FeedFrames(Fresh(d), frames)); var es := EventsOf(e.channel.published, id);
            && Sound(e)
            && Life(es)
            && (es != [] <==> id < e.channel.log.nextId)
            && (es != [] ==> es[|es| - 1].Finalize?)
  {
    FreshSound(d);
    FramesKeepSound(Fresh(d), frames);
    var fed := FeedFrames(Fresh(d), frames);
    FinishCompletes(fed);
    FlushedBracketed(fed.deriver);
    Lifecycle(Finish(fed).channel.published, id);
  }

  /** A consumer that misses some of what either adapter published can tell from the very next
      event it receives. */
  lemma MissedEventsShow(d: Deriver, frames: seq<Text>, ends: bool,
                         a: seq<BlockEvent>, missed: seq<BlockEvent>, rest: seq<BlockEvent>)
    requires Unused(d) && missed != [] && rest != []
    requires var fed := FeedFrames(Fresh(d), frames);
             (if ends then Finish(fed) else fed).channel.published == a + missed + rest
    ensures AcceptAll(Lane(0, None), a).Some? && AcceptAll(Lane(0, None), a + [rest[0]]).None?
  {
    FreshSound(d);
    FramesKeepSound(Fresh(d), frames);
    FinishCompletes(FeedFrames(Fresh(d), frames));
    LossIsDetected(a, missed, rest);
  }

  lemma {:induction false} FramesKeepSound(e: State, frames: seq<Text>)
    requires Sound(e)
    ensures Sound(FeedFrames(e, frames))
    decreases |frames|
  {
    if frames != [] {
      FeedKeepsSound(e, frames[0]);
      FramesKeepSound(FeedOutput(e, frames[0]), frames[1..]);
    }
  }

  /** What the finished log shows is the adapter's document of all output. */
  lemma FinishedDocument(d: Deriver, frames: seq<Text>)
    requires Unused(d)
    ensures var blocks := Snapshot(Finish(FeedFrames(Fresh(d), frames)).channel.log);
            match d
            case FloorDeriver(_) => blocks == Floor.Derive(Concat(frames))
            case ClaudeDeriver(codec, _) => blocks == ClaudeCode.Derive(codec, Concat(frames))
  {
    var e := Fresh(d);
    FramesDoNotMatter(e, frames);
    var (d1, c1) := Derived(d, Concat(frames));
    var c2 := Flushed(d1).1;
    PerformConcat(e.channel, c1, c2);
    ExecDraws(EMPTY_LOG, c1 + c2);
    assert Snapshot(EMPTY_LOG) == [];
  }

  // ---------- late subscribers ----------

  /** The engine after some more output and, if the session ends, the final flush. */
  function Later(e: State, bytes: Text, ends: bool): State {
    if ends then Finish(FeedOutput(e, bytes)) else FeedOutput(e, bytes)
  }

  /** The commands of that stretch. */
  function LaterCmds(d: Deriver, bytes: Text, ends: bool): seq<Cmd> {
    Derived(d, bytes).1 + if ends then Flushed(Derived(d, bytes).0).1 else []
  }

  lemma LaterPerforms(e: State, bytes: Text, ends: bool)
    ensures Later(e, bytes, ends).channel == Perform(e.channel, LaterCmds(e.deriver, bytes, ends))
    ensures Bracketed(e.deriver.Open(), LaterCmds(e.deriver, bytes, ends))
  {
    var (d1, c1) := Derived(e.deriver, bytes);
    DerivedBracketed(e.deriver, bytes);
    if ends {
      FlushedBracketed(d1);
      BracketedConcat(e.deriver.Open(), c1, Flushed(d1).1);
      PerformConcat(e.channel, c1, Flushed(d1).1);
    } else {
      assert c1 + [] == c1;
    }
  }

  /** The log and what is published after the first `k` sink calls of that stretch. The log
      lock is taken per sink call, so these are all the moments a viewer can subscribe at,
      those inside a frame included. */
  function Moment(e: State, bytes: Text, ends: bool, k: nat): Channel
    requires k <= |LaterCmds(e.deriver, bytes, ends)|
  {
    Perform(e.channel, LaterCmds(e.deriver, bytes, ends)[..k])
  }

  /** Whether a block is open at that moment. */
  function OpenAt(e: State, bytes: Text, ends: bool, k: nat): bool
    requires k <= |LaterCmds(e.deriver, bytes, ends)|
  {
    OpenAfter(e.deriver.Open(), LaterCmds(e.deriver, bytes, ends)[..k])
  }

  lemma MomentSound(e: State, bytes: Text, ends: bool, k: nat)
    requires Sound(e) && k <= |LaterCmds(e.deriver, bytes, ends)|
    ensures var seeded, rest := Moment(e, bytes, ends, k), LaterCmds(e.deriver, bytes, ends)[k..];
            && ValidLog(seeded.log) && Tidy(seeded.log, OpenAt(e, bytes, ends, k))
            && Bracketed(OpenAt(e, bytes, ends, k), rest)
            && Later(e, bytes, ends).channel == Perform(seeded, rest)
  {
    var cmds := LaterCmds(e.deriver, bytes, ends);
    LaterPerforms(e, bytes, ends);
    assert cmds == cmds[..k] + cmds[k..];
    BracketedSplit(e.deriver.Open(), cmds[..k], cmds[k..]);
    PerformConcat(e.channel, cmds[..k], cmds[k..]);
    ExecDisciplined(e.channel.log, e.deriver.Open(), cmds[..k]);
  }

  /** The view of a viewer that subscribed at that moment and was given every later event. */
  function LateView(e: State, bytes: Text, ends: bool, k: nat): Option<View>
    requires k <= |LaterCmds(e.deriver, bytes, ends)|
    requires |Moment(e, bytes, ends, k).published| <= |Later(e, bytes, ends).channel.published|
  {
    var seeded := Moment(e, bytes, ends, k);
    ViewReplay(Seeded(Snapshot(seeded.log)), Later(e, bytes, ends).channel.published[|seeded.published|..])
  }

  /** A view seeded from a snapshot at any moment, between any two sink calls, and fed every
      later event of either adapter, the final flush included, has the log's length and agrees
      with it at every position, except possibly the block open at that moment, which stays
      as the snapshot showed it. */
  lemma LateSubscriber(e: State, bytes: Text, ends: bool, k: nat)
    requires Sound(e) && k <= |LaterCmds(e.deriver, bytes, ends)|
    ensures |Moment(e, bytes, ends, k).published| <= |Later(e, bytes, ends).channel.published|
    ensures var seeded, end := Moment(e, bytes, ends, k).log, Later(e, bytes, ends).channel.log;
            var v := LateView(e, bytes, ends, k);
            && v.Some?
            && |seeded.entries| <= |end.entries| == |v.value.blocks|
            && v.value.blocks[..|seeded.entries|] == Snapshot(seeded)
            && (forall p :: 0 <= p < |end.entries| && !(OpenAt(e, bytes, ends, k) && p == |seeded.entries| - 1) ==>
                  v.value.blocks[p] == end.entries[p].block)
            && (!OpenAt(e, bytes, ends, k) ==> v.value.blocks == Snapshot(end))
  {
    var seeded, rest := Moment(e, bytes, ends, k), LaterCmds(e.deriver, bytes, ends)[k..];
    MomentSound(e, bytes, ends, k);
    SeededViewFollows(seeded.log, OpenAt(e, bytes, ends, k), rest);
    hide Exec, Moment, Later;
    var events := Exec(seeded.log, rest).1;
    assert Later(e, bytes, ends).channel.published == seeded.published + events;
    assert (seeded.published + events)[|seeded.published|..] == events;
  }

  /** By the end of the session such a view shows the log exactly when no block was open at
      the moment it subscribed. */
  lemma LateSubscriberCompletes(e: State, bytes: Text, k: nat)
    requires Sound(e) && k <= |LaterCmds(e.deriver, bytes, true)|
    ensures |Moment(e, bytes, true, k).published| <= |Later(e, bytes, true).channel.published|
    ensures var v := LateView(e, bytes, true, k);
            v.Some? && (v.value.blocks == Snapshot(Later(e, bytes, true).channel.log) <==> !OpenAt(e, bytes, true, k))
  {
    LateSubscriber(e, bytes, true, k);
    MomentSound(e, bytes, true, k);
    FeedKeepsSound(e, bytes);
    FinishCompletes(FeedOutput(e, bytes));
    if OpenAt(e, bytes, true, k) {
      hide Exec, Moment, LateView, Perform;
      var seeded, later := Moment(e, bytes, true, k).log, Later(e, bytes, true).channel.log;
      var v := LateView(e, bytes, true, k).value;
      var p := |seeded.entries| - 1;
      assert v.blocks[p] == v.blocks[..p + 1][p] == seeded.entries[p].block;
      assert !v.blocks[p].complete && later.entries[p].block.complete;
    }
  }

  // ---------- the class ----------

  datatype Adapter = UseFloor(floor: Floor.FloorAdapter) | UseClaude(claude: ClaudeCode.ClaudeCodeAdapter)

  class SessionEngine {
    const sink: BlockSink
    const adapter: Adapter

    ghost function Objects(): set<object> {
      {sink, sink.log, match adapter case UseFloor(f) => f as object case UseClaude(c) => c as object}
    }

    ghost function Value(): State
      reads this, Objects()
    {
      State(match adapter
            case UseFloor(f) => FloorDeriver(f.Value())
            case UseClaude(c) => ClaudeDeriver(c.codec, c.Value()),
            sink.Value())
    }

    ghost predicate Valid()
      reads this, Objects()
    {
      match adapter case UseFloor(f) => f.Linked(sink) case UseClaude(c) => c.Linked(sink)
    }

    /** Derives by the floor. */
    constructor WithFloor()
      ensures Valid() && fresh(Objects()) && Value() == Fresh(FloorDeriver(Floor.START))
    {
      var s := new BlockSink();
      var f := new Floor.FloorAdapter();
      sink := s;
      adapter := UseFloor(f);
    }

    constructor WithClaude(codec: ClaudeCode.Codec)
      ensures Valid() && fresh(Objects()) && Value() == Fresh(ClaudeDeriver(codec, ClaudeCode.START))
    {
      var s := new BlockSink();
      var c := new ClaudeCode.ClaudeCodeAdapter(codec);
      sink := s;
      adapter := UseClaude(c);
    }

    method Feed(bytes: Text)
      requires Valid()
      modifies Objects()
      ensures Valid() && Value() == FeedOutput(old(Value()), bytes)
    {
      match adapter {
        case UseFloor(f) => f.FeedBytes(bytes, sink);
        case UseClaude(c) => c.FeedBytes(bytes, sink);
      }
    }

    method FinishOutput()
      requires Valid()
      modifies Objects()
      ensures Valid() && Value() == Finish(old(Value()))
    {
      match adapter {
        case UseFloor(f) => f.FlushBuffered(sink);
        case UseClaude(c) => c.FlushBuffered(sink);
      }
    }

    method TakeSnapshot() returns (blocks: seq<Block>)
      requires Valid()
      ensures blocks == Snapshot(Value().channel.log)
    {
      blocks := sink.log.TakeSnapshot();
    }
  }
}
