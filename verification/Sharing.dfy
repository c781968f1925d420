/** The engine shared between the pump and its viewers (`engine.rs`), as atomic steps: the
    mutex around the log, the bounded broadcast queue, subscribers and renderers. */
module Sharing {
  import opened Bytes
  import opened Blocks
  import opened Stream
  import opened Document
  import Engine

  /** Who holds the log lock, and how far it has got. */
  datatype Holder =
    | Free
    | Writing(op: Op)                        // sink call, log not yet changed
    | Sending(event: Option<BlockEvent>)     // log changed, event not yet sent
    | Subscribing(who: nat)                  // subscribe(), receiver not yet taken
    | Snapping(who: nat)                     // receiver taken, snapshot not yet copied
    | Reading(who: nat)                      // snapshot() of a renderer
    | Leaving                                // about to unlock

  /** A subscriber: where its receiver began and stands, the blocks `subscribe` returned to
      it, what was delivered to it, and, for a renderer, what it shows. */
  datatype Sub = Sub(
    start: nat, next: nat, seed: Option<seq<Block>>, got: seq<BlockEvent>, lagged: bool,
    shown: seq<Block>, shownAt: nat, waiting: bool)

  /** `sent` is every event broadcast so far; the queue retains the last `capacity`. */
  datatype State = State(capacity: nat, log: Log, sent: seq<BlockEvent>, lock: Holder, subs: map<nat, Sub>)

  function Start(capacity: nat): State { State(capacity, EMPTY_LOG, [], Free, map[]) }

  datatype Action =
    | LockToWrite(op: Op) | Mutate | Send
    | LockToSubscribe(who: nat) | TakeReceiver | CopySeed
    | Receive(who: nat)
    | LockToRead(who: nat) | CopySnapshot
    | Unlock

  function Oldest(st: State): nat { if |st.sent| > st.capacity then |st.sent| - st.capacity else 0 }

  /** A subscriber that has its receiver, and one that has its snapshot too. */
  function Joining(st: State): Sub { Sub(|st.sent|, |st.sent|, None, [], false, [], 0, false) }

  function Joined(st: State, sub: Sub): Sub {
    sub.(seed := Some(Snapshot(st.log)), shown := Snapshot(st.log), shownAt := |st.sent|, waiting := true)
  }

  /** One step; an action that is not enabled changes nothing. */
  function Next(st: State, a: Action): State {
    match a
    case LockToWrite(op) => if st.lock.Free? then st.(lock := Writing(op)) else st
    case Mutate =>
      if !st.lock.Writing? then st else
      var (log, event) := Step(st.log, st.lock.op);
      st.(log := log, lock := Sending(event))
    case Send =>
      if !st.lock.Sending? then st else
      st.(sent := st.sent + Listed(st.lock.event), lock := Leaving)
    case LockToSubscribe(who) =>
      if st.lock.Free? && who !in st.subs then st.(lock := Subscribing(who)) else st
    case TakeReceiver =>
      if !st.lock.Subscribing? then st else
      st.(subs := st.subs[st.lock.who := Joining(st)], lock := Snapping(st.lock.who))
    case CopySeed =>
      if !(st.lock.Snapping? && st.lock.who in st.subs) then st else
      st.(subs := st.subs[st.lock.who := Joined(st, st.subs[st.lock.who])], lock := Leaving)
    case Receive(who) =>
      if !(who in st.subs && st.subs[who].seed.Some? && st.subs[who].next < |st.sent|) then st else
      var sub := st.subs[who];
      var sub' :=
        if sub.next < Oldest(st) then sub.(next := Oldest(st), lagged := true)
        else sub.(next := sub.next + 1, got := sub.got + [st.sent[sub.next]]);
      st.(subs := st.subs[who := sub'.(waiting := false)])
    case LockToRead(who) =>
      if st.lock.Free? && who in st.subs && st.subs[who].seed.Some? then st.(lock := Reading(who)) else st
    case CopySnapshot =>
      if !(st.lock.Reading? && st.lock.who in st.subs) then st else
      var sub := st.subs[st.lock.who];
      st.(subs := st.subs[st.lock.who :=
            sub.(shown := Snapshot(st.log), shownAt := |st.sent|, waiting := true)],
          lock := Leaving)
    case Unlock => if st.lock.Leaving? then st.(lock := Free) else st
  }

  function After(st: State, actions: seq<Action>): State
    decreases |actions|
  {
    if actions == [] then st else After(Next(st, actions[0]), actions[1..])
  }

  // ---------- the invariant ----------

  /** The log the sent events lead to. */
  function Published(st: State): Log { FollowAll(EMPTY_LOG, st.sent) }

  /** The lock separates a change of the log from the sending of its event. */
  ghost predicate LogAgrees(st: State) {
    && ValidLog(st.log)
    && st.log == (if st.lock.Sending? && st.lock.event.Some?
                  then Follow(Published(st), st.lock.event.value) else Published(st))
  }

  ghost predicate SubAgrees(st: State, sub: Sub) {
    && sub.start <= sub.next <= |st.sent|
    && (sub.seed.Some? ==> sub.seed.value == Snapshot(FollowAll(EMPTY_LOG, st.sent[..sub.start])))
    && (!sub.lagged ==> sub.got == st.sent[sub.start..sub.next])
    && (sub.lagged ==> |sub.got| < sub.next - sub.start && |st.sent| - sub.start > st.capacity)
    && (sub.waiting ==>
          && sub.next <= sub.shownAt <= |st.sent|
          && sub.shown == Snapshot(FollowAll(EMPTY_LOG, st.sent[..sub.shownAt])))
  }

  ghost predicate Inv(st: State) {
    && LogAgrees(st)
    && (forall who :: who in st.subs ==> SubAgrees(st, st.subs[who]))
    && (st.lock.Subscribing? ==> st.lock.who !in st.subs)
    && (st.lock.Snapping? ==>
          st.lock.who in st.subs && st.subs[st.lock.who].start == st.subs[st.lock.who].next == |st.sent|)
  }

  lemma SendKeepsSub(st: State, st': State, sub: Sub)
    requires SubAgrees(st, sub) && st.sent <= st'.sent && st.capacity == st'.capacity
    ensures SubAgrees(st', sub)
  {
    assert st'.sent[..sub.start] == st.sent[..sub.start];
    assert st'.sent[sub.start..sub.next] == st.sent[sub.start..sub.next];
    assert sub.waiting ==> st'.sent[..sub.shownAt] == st.sent[..sub.shownAt];
  }

  lemma WriterKeepsInv(st: State, a: Action)
    requires Inv(st) && (a.LockToWrite? || a.Mutate? || a.Send? || a.Unlock?)
    ensures Inv(Next(st, a))
  {
    var st' := Next(st, a);
    if a.Mutate? && st.lock.Writing? {
      StepFollowed(st.log, st.lock.op);
      StepKeepsValid(st.log, st.lock.op);
    }
    if a.Send? && st.lock.Sending? {
      var events := Listed(st.lock.event);
      FollowConcat(EMPTY_LOG, st.sent, events);
      assert events != [] ==> events[1..] == [];
    }
    forall who | who in st.subs ensures SubAgrees(st', st.subs[who]) {
      SendKeepsSub(st, st', st.subs[who]);
    }
  }

  lemma SubscriberKeepsInv(st: State, a: Action)
    requires Inv(st) && (a.LockToSubscribe? || a.TakeReceiver? || a.CopySeed?)
    ensures Inv(Next(st, a))
  {
    var st' := Next(st, a);
    assert st.sent[..|st.sent|] == st.sent && st.sent[|st.sent|..] == [];
    forall who | who in st'.subs ensures SubAgrees(st', st'.subs[who]) {
      if who in st.subs && st'.subs[who] == st.subs[who] {
        SendKeepsSub(st, st', st.subs[who]);
      }
    }
  }

  lemma ReceiveKeepsInv(st: State, who: nat)
    requires Inv(st)
    ensures Inv(Next(st, Receive(who)))
  {
    hide FollowAll, Follow, Snapshot, Step, ValidLog;
    var st' := Next(st, Receive(who));
    if who in st.subs && st.subs[who].next < |st.sent| {
      ReceiveKeepsSub(st, st.subs[who]);
    }
    forall w | w in st'.subs ensures SubAgrees(st', st'.subs[w]) {
      assert SubAgrees(st, st.subs[w]);
      SameQueue(st, st', st'.subs[w]);
    }
    hide SubAgrees;
  }

  lemma SameQueue(st: State, st': State, sub: Sub)
    requires st'.sent == st.sent && st'.capacity == st.capacity
    ensures SubAgrees(st', sub) <==> SubAgrees(st, sub)
  {
  }

  /** A receive, past lost events or of the next one. */
  lemma ReceiveKeepsSub(st: State, sub: Sub)
    requires SubAgrees(st, sub) && sub.next < |st.sent|
    ensures sub.next < Oldest(st) ==> SubAgrees(st, sub.(next := Oldest(st), lagged := true, waiting := false))
    ensures SubAgrees(st, sub.(next := sub.next + 1, got := sub.got + [st.sent[sub.next]], waiting := false))
  {
    hide FollowAll, Snapshot;
    assert st.sent[sub.start..sub.next] + [st.sent[sub.next]] == st.sent[sub.start..sub.next + 1];
  }

  lemma ReaderKeepsInv(st: State, a: Action)
    requires Inv(st) && (a.LockToRead? || a.CopySnapshot?)
    ensures Inv(Next(st, a))
  {
    hide FollowAll, Follow, Step, ValidLog;
    var st' := Next(st, a);
    assert st.sent[..|st.sent|] == st.sent;
    forall who | who in st'.subs ensures SubAgrees(st', st'.subs[who]) {
      assert SubAgrees(st, st.subs[who]);
    }
  }

  lemma NextKeepsInv(st: State, a: Action)
    requires Inv(st)
    ensures Inv(Next(st, a))
  {
    match a
    case LockToWrite(_) => WriterKeepsInv(st, a);
    case Mutate => WriterKeepsInv(st, a);
    case Send => WriterKeepsInv(st, a);
    case Unlock => WriterKeepsInv(st, a);
    case LockToSubscribe(_) => SubscriberKeepsInv(st, a);
    case TakeReceiver => SubscriberKeepsInv(st, a);
    case CopySeed => SubscriberKeepsInv(st, a);
    case Receive(who) => ReceiveKeepsInv(st, who);
    case LockToRead(_) => ReaderKeepsInv(st, a);
    case CopySnapshot => ReaderKeepsInv(st, a);
  }

  lemma {:induction false} AfterKeepsInv(st: State, actions: seq<Action>)
    requires Inv(st)
    ensures Inv(After(st, actions))
    decreases |actions|
  {
    if actions != [] {
      NextKeepsInv(st, actions[0]);
      AfterKeepsInv(Next(st, actions[0]), actions[1..]);
    }
  }

  // ---------- what viewers may rely on ----------

  /** The log as every completed sink call left it: no call is between its change and its send. */
  predicate Settled(st: State) { !st.lock.Sending? }

  /** Under every interleaving, for a subscriber that has not lagged: what `subscribe` returned
      is the snapshot of the log of that moment, and that log plus the events delivered since
      and those queued is the current log. */
  lemma SubscriberCatchesUp(capacity: nat, actions: seq<Action>, who: nat)
    requires var st := After(Start(capacity), actions);
             Settled(st) && who in st.subs && st.subs[who].seed.Some? && !st.subs[who].lagged
    ensures var st := After(Start(capacity), actions); var sub := st.subs[who];
            && sub.start <= sub.next <= |st.sent|
            && sub.got + st.sent[sub.next..] == st.sent[sub.start..]
            && var seeded := FollowAll(EMPTY_LOG, st.sent[..sub.start]);
               && sub.seed.value == Snapshot(seeded)
               && FollowAll(seeded, sub.got + st.sent[sub.next..]) == st.log
  {
    AfterKeepsInv(Start(capacity), actions);
    var st := After(Start(capacity), actions);
    var sub := st.subs[who];
    assert SubAgrees(st, sub);
    hide After, Snapshot, Follow, FollowAll, ValidLog;
    assert sub.got + st.sent[sub.next..] == st.sent[sub.start..];
    assert st.sent == st.sent[..sub.start] + st.sent[sub.start..];
    FollowConcat(EMPTY_LOG, st.sent[..sub.start], st.sent[sub.start..]);
  }

  /** A renderer that re-reads the snapshot after every receive, lag included, shows exactly
      the log whenever it waits with an empty queue. */
  lemma RendererShowsLog(capacity: nat, actions: seq<Action>, who: nat)
    requires var st := After(Start(capacity), actions);
             Settled(st) && who in st.subs && st.subs[who].waiting && st.subs[who].next >= |st.sent|
    ensures var st := After(Start(capacity), actions); st.subs[who].shown == Snapshot(st.log)
  {
    AfterKeepsInv(Start(capacity), actions);
    var st := After(Start(capacity), actions);
    assert SubAgrees(st, st.subs[who]);
    assert st.sent[..|st.sent|] == st.sent;
  }

  // ---------- lag ----------

  /** A receive by this subscriber would find more events queued than the channel retains. */
  predicate Overflowed(st: State, who: nat) {
    who in st.subs && st.subs[who].seed.Some? && |st.sent| - st.subs[who].next > st.capacity && st.subs[who].next < |st.sent|
  }

  lemma {:induction false} AfterSnoc(st: State, actions: seq<Action>, a: Action)
    ensures After(st, actions + [a]) == Next(After(st, actions), a)
    decreases |actions|
  {
    if actions == [] {
      assert ([] + [a])[1..] == [];
    } else {
      assert (actions + [a])[1..] == actions[1..] + [a];
      AfterSnoc(Next(st, actions[0]), actions[1..], a);
    }
  }

  /** Only an overflowing receive makes a subscriber lag, and nothing undoes it. */
  lemma LagStep(st: State, a: Action, who: nat)
    requires Inv(st) && who in Next(st, a).subs
    ensures Next(st, a).subs[who].lagged <==>
            (who in st.subs && st.subs[who].lagged) || (a == Receive(who) && Overflowed(st, who))
  {
    hide FollowAll, Follow, Snapshot, Step;
    if who in st.subs {
      assert SubAgrees(st, st.subs[who]);
    }
  }

  /** Over every run, a subscriber has lagged exactly if one of its receives found more events
      queued than the channel retains. */
  lemma {:induction false} LagIsOverflow(capacity: nat, actions: seq<Action>, who: nat)
    requires who in After(Start(capacity), actions).subs
    ensures After(Start(capacity), actions).subs[who].lagged <==>
            exists k :: 0 <= k < |actions| && actions[k] == Receive(who) && Overflowed(After(Start(capacity), actions[..k]), who)
    decreases |actions|
  {
    if actions != [] {
      var init, a := actions[..|actions| - 1], actions[|actions| - 1];
      var mid := After(Start(capacity), init);
      assert actions == init + [a];
      AfterSnoc(Start(capacity), init, a);
      AfterKeepsInv(Start(capacity), init);
      LagStep(mid, a, who);
      assert forall k :: 0 <= k < |init| ==> actions[..k] == init[..k];
      if who in mid.subs {
        LagIsOverflow(capacity, init, who);
      } else {
        NotYetThere(Start(capacity), init, who);
      }
    }
  }

  /** Who is not subscribed now never was. */
  lemma {:induction false} NotYetThere(st: State, actions: seq<Action>, who: nat)
    requires who !in After(st, actions).subs
    ensures forall k :: 0 <= k <= |actions| ==> who !in After(st, actions[..k]).subs
    decreases |actions|
  {
    if actions == [] {
      assert actions[..0] == actions;
    } else {
      var init, a := actions[..|actions| - 1], actions[|actions| - 1];
      assert actions == init + [a];
      AfterSnoc(st, init, a);
      NotYetThere(st, init, who);
      forall k | 0 <= k <= |actions| ensures who !in After(st, actions[..k]).subs {
        assert k < |actions| ==> actions[..k] == init[..k];
        assert k == |actions| ==> actions[..k] == actions;
      }
    }
  }

  /** Over every run, a lag is exactly a loss of events, and a subscriber for whom no more
      than the channel retains was ever published since it subscribed loses none. */
  lemma LagLosesEvents(capacity: nat, actions: seq<Action>, who: nat)
    requires who in After(Start(capacity), actions).subs
    ensures var st := After(Start(capacity), actions); var sub := st.subs[who];
            && sub.start <= sub.next <= |st.sent|
            && (sub.got == st.sent[sub.start..sub.next] <==> !sub.lagged)
            && (|st.sent| - sub.start <= capacity ==> !sub.lagged)
  {
    AfterKeepsInv(Start(capacity), actions);
    AfterKeepsCapacity(Start(capacity), actions);
    var st := After(Start(capacity), actions);
    assert SubAgrees(st, st.subs[who]);
  }

  lemma {:induction false} AfterKeepsCapacity(st: State, actions: seq<Action>)
    ensures After(st, actions).capacity == st.capacity
    decreases |actions|
  {
    if actions != [] {
      AfterKeepsCapacity(Next(st, actions[0]), actions[1..]);
    }
  }

  // ---------- what a subscriber sees of an adapter's run ----------

  /** The call that takes effect in one step, if one does. */
  function Call(st: State, a: Action): seq<Op> { if a.Mutate? && st.lock.Writing? then [st.lock.op] else [] }

  /** The sink calls that took effect in a run, in order. */
  function Calls(st: State, actions: seq<Action>): seq<Op>
    decreases |actions|
  {
    if actions == [] then [] else
    Call(st, actions[0]) + Calls(Next(st, actions[0]), actions[1..])
  }

  /** The event of a call that has changed the log and not yet sent it. */
  function Pending(st: State): seq<BlockEvent> { if st.lock.Sending? then Listed(st.lock.event) else [] }

  /** One step changes log and events by its call, or not at all. */
  lemma CallStep(st: State, a: Action)
    ensures var (log, events) := Run(st.log, Call(st, a)); var st' := Next(st, a);
            st'.log == log && st'.sent + Pending(st') == st.sent + Pending(st) + events
  {
    var st' := Next(st, a);
    Unit(st.sent);
    Unit(st.sent + Pending(st));
    if Call(st, a) != [] {
      RunOne(st.log, st.lock.op);
    } else if a.Send? && st.lock.Sending? {
      Unit(st'.sent);
    }
  }

  /** Log and events are those of the calls that took effect. */
  lemma {:induction false} CallsRun(st: State, actions: seq<Action>)
    ensures var end := After(st, actions); var (log, events) := Run(st.log, Calls(st, actions));
            end.log == log && end.sent + Pending(end) == st.sent + Pending(st) + events
    decreases |actions|
  {
    if actions == [] {
      Unit(st.sent + Pending(st));
    } else {
      var st' := Next(st, actions[0]);
      CallsRun(st', actions[1..]);
      CallStep(st, actions[0]);
      RunConcat(st.log, Call(st, actions[0]), Calls(st', actions[1..]));
      hide Run, Call, Next, Pending;
      Assoc(st.sent + Pending(st), Run(st.log, Call(st, actions[0])).1, Run(st'.log, Calls(st', actions[1..])).1);
    }
  }

  lemma {:induction false} OpsOfTake(log: Log, cmds: seq<Cmd>, m: nat)
    requires m <= |OpsOf(log, cmds)|
    ensures |OpsOf(log, cmds)| == |cmds| && OpsOf(log, cmds)[..m] == OpsOf(log, cmds[..m])
    decreases |cmds|
  {
    if cmds != [] {
      var l1 := Step(log, OpOf(log, cmds[0])).0;
      assert OpsOf(log, cmds)[1..] == OpsOf(l1, cmds[1..]);
      OpsOfTake(l1, cmds[1..], if m == 0 then 0 else m - 1);
      if m > 0 {
        assert cmds[..m][1..] == cmds[1..][..m - 1];
      }
    }
  }

  /** Bracketed commands publish one event each. */
  lemma {:induction false} OneEventEach(log: Log, open: bool, cmds: seq<Cmd>)
    requires ValidLog(log) && Tidy(log, open) && Bracketed(open, cmds)
    ensures |Exec(log, cmds).1| == |cmds|
    decreases |cmds|
  {
    if cmds != [] {
      StepDisciplined(log, open, cmds[0]);
      OneEventEach(Step(log, OpOf(log, cmds[0])).0, Opens(open, cmds[0]), cmds[1..]);
    }
  }

  /** The log and the events after the first `j` of them. */
  lemma EventsUpTo(cmds: seq<Cmd>, j: nat)
    requires Bracketed(false, cmds) && j <= |cmds|
    ensures j <= |Exec(EMPTY_LOG, cmds).1|
    ensures Exec(EMPTY_LOG, cmds).1[..j] == Exec(EMPTY_LOG, cmds[..j]).1
    ensures Exec(EMPTY_LOG, cmds).1[j..] == Exec(Exec(EMPTY_LOG, cmds[..j]).0, cmds[j..]).1
    ensures Exec(EMPTY_LOG, cmds).0 == Exec(Exec(EMPTY_LOG, cmds[..j]).0, cmds[j..]).0
    ensures FollowAll(EMPTY_LOG, Exec(EMPTY_LOG, cmds).1[..j]) == Exec(EMPTY_LOG, cmds[..j]).0
  {
    assert cmds == cmds[..j] + cmds[j..];
    BracketedSplit(false, cmds[..j], cmds[j..]);
    OneEventEach(EMPTY_LOG, false, cmds[..j]);
    ExecConcat(EMPTY_LOG, cmds[..j], cmds[j..]);
    ExecIsRun(EMPTY_LOG, cmds[..j]);
    RunFollowed(EMPTY_LOG, OpsOf(EMPTY_LOG, cmds[..j]));
  }

  /** The view of a subscriber that was returned `blocks`: as long as the log, and equal to it
      but where `blocks` shows a block unfinished, which only its last can be. That block the
      view keeps as it was. */
  ghost predicate Faithful(blocks: seq<Block>, v: Option<View>, log: Log) {
    && v.Some?
    && |blocks| <= |v.value.blocks| == |log.entries|
    && v.value.blocks[..|blocks|] == blocks
    && (forall p :: 0 <= p < |blocks| - 1 ==> !Unfinished(blocks[p]))
    && (forall p :: 0 <= p < |log.entries| && !(p < |blocks| && Unfinished(blocks[p])) ==>
          v.value.blocks[p] == log.entries[p].block)
  }

  /** A view seeded from a log's snapshot and given the events of some more commands. */
  lemma FaithfulFrom(log: Log, open: bool, cmds: seq<Cmd>)
    requires ValidLog(log) && Tidy(log, open) && Bracketed(open, cmds)
    ensures Faithful(Snapshot(log), ViewReplay(Seeded(Snapshot(log)), Exec(log, cmds).1), Exec(log, cmds).0)
  {
    SeededViewFollows(log, open, cmds);
    UnfinishedIsOpen(log, open);
    hide Exec, ViewReplay, Bracketed, Tidy, ValidLog, Unfinished;
  }

  lemma EmptyIsTidy()
    ensures ValidLog(EMPTY_LOG) && Tidy(EMPTY_LOG, false)
  {
  }

  /** A view seeded from a snapshot taken after `j` of some bracketed commands and given the
      events of the others. */
  lemma SeededAmid(cmds: seq<Cmd>, j: nat)
    requires Bracketed(false, cmds) && j <= |Exec(EMPTY_LOG, cmds).1|
    ensures var (log, events) := Exec(EMPTY_LOG, cmds);
            var blocks := Snapshot(FollowAll(EMPTY_LOG, events[..j]));
            Faithful(blocks, ViewReplay(Seeded(blocks), events[j..]), log)
  {
    EmptyIsTidy();
    hide *;
    OneEventEach(EMPTY_LOG, false, cmds);
    EventsUpTo(cmds, j);
    assert cmds == cmds[..j] + cmds[j..];
    BracketedSplit(false, cmds[..j], cmds[j..]);
    ExecDisciplined(EMPTY_LOG, false, cmds[..j]);
    FaithfulFrom(Exec(EMPTY_LOG, cmds[..j]).0, OpenAfter(false, cmds[..j]), cmds[j..]);
  }

  /** The sink calls that took effect are the first an adapter makes on some output. */
  ghost predicate Adapted(capacity: nat, actions: seq<Action>, d: Engine.Deriver, bytes: Text, ends: bool) {
    Engine.Unused(d) && Calls(Start(capacity), actions) <= OpsOf(EMPTY_LOG, Engine.LaterCmds(d, bytes, ends))
  }

  /** Between sink calls, log and events are those of the calls' commands. */
  lemma CallsExec(capacity: nat, actions: seq<Action>, cmds: seq<Cmd>)
    requires Calls(Start(capacity), actions) == OpsOf(EMPTY_LOG, cmds)
    ensures var st := After(Start(capacity), actions); Settled(st) ==> (st.log, st.sent) == Exec(EMPTY_LOG, cmds)
  {
    CallsRun(Start(capacity), actions);
    ExecIsRun(EMPTY_LOG, cmds);
    var st := After(Start(capacity), actions);
    hide Calls, After, Exec, Run, OpsOf;
    Unit(st.sent);
    Unit(Run(EMPTY_LOG, Calls(Start(capacity), actions)).1);
  }

  lemma FirstCmds(d: Engine.Deriver, bytes: Text, ends: bool, m: nat)
    requires Engine.Unused(d) && m <= |Engine.LaterCmds(d, bytes, ends)|
    ensures Bracketed(false, Engine.LaterCmds(d, bytes, ends)[..m])
  {
    var all := Engine.LaterCmds(d, bytes, ends);
    Engine.LaterPerforms(Engine.Fresh(d), bytes, ends);
    assert !d.Open();
    hide *;
    assert all == all[..m] + all[m..];
    BracketedSplit(false, all[..m], all[m..]);
  }

  /** An adapter's calls up to now, as its commands. */
  lemma AdaptedCmds(capacity: nat, actions: seq<Action>, d: Engine.Deriver, bytes: Text, ends: bool)
    returns (cmds: seq<Cmd>)
    requires Adapted(capacity, actions, d, bytes, ends)
    ensures cmds <= Engine.LaterCmds(d, bytes, ends) && |cmds| == |Calls(Start(capacity), actions)|
    ensures Bracketed(false, cmds)
    ensures var st := After(Start(capacity), actions); Settled(st) ==> (st.log, st.sent) == Exec(EMPTY_LOG, cmds)
  {
    hide Calls, OpsOf, Engine.LaterCmds, Engine.Unused, Bracketed, Start;
    var all, m := Engine.LaterCmds(d, bytes, ends), |Calls(Start(capacity), actions)|;
    OpsOfTake(EMPTY_LOG, all, m);
    cmds := all[..m];
    FirstCmds(d, bytes, ends, m);
    CallsExec(capacity, actions, cmds);
  }

  /** Under every interleaving of either adapter's sink calls with subscribes and receives: a
      subscriber that has not lagged, replaying on the blocks it was returned the events
      delivered to it and those queued, has the log's length and agrees with it everywhere but
      at the block, if any, that was unfinished when it subscribed. */
  lemma SubscriberFollows(capacity: nat, actions: seq<Action>, who: nat, d: Engine.Deriver, bytes: Text, ends: bool)
    requires Adapted(capacity, actions, d, bytes, ends)
    requires var st := After(Start(capacity), actions);
             Settled(st) && who in st.subs && st.subs[who].seed.Some? && !st.subs[who].lagged
    ensures var st := After(Start(capacity), actions); var sub := st.subs[who];
            && sub.next <= |st.sent|
            && Faithful(sub.seed.value, ViewReplay(Seeded(sub.seed.value), sub.got + st.sent[sub.next..]), st.log)
  {
    SubscriberCatchesUp(capacity, actions, who);
    var cmds := AdaptedCmds(capacity, actions, d, bytes, ends);
    SeededAmid(cmds, After(Start(capacity), actions).subs[who].start);
  }

  /** When the adapter has made all its calls, the final flush included, such a subscriber
      shows the log exactly if no block it was returned was unfinished. */
  lemma SubscriberCompletes(capacity: nat, actions: seq<Action>, who: nat, d: Engine.Deriver, bytes: Text)
    requires Adapted(capacity, actions, d, bytes, true)
    requires |Calls(Start(capacity), actions)| == |OpsOf(EMPTY_LOG, Engine.LaterCmds(d, bytes, true))|
    requires var st := After(Start(capacity), actions);
             Settled(st) && who in st.subs && st.subs[who].seed.Some? && !st.subs[who].lagged
    ensures var st := After(Start(capacity), actions); var sub := st.subs[who];
            && sub.next <= |st.sent|
            && var v := ViewReplay(Seeded(sub.seed.value), sub.got + st.sent[sub.next..]);
               v.Some? && (v.value.blocks == Snapshot(st.log) <==> forall b :: b in sub.seed.value ==> !Unfinished(b))
  {
    SubscriberFollows(capacity, actions, who, d, bytes, true);
    var cmds := AdaptedCmds(capacity, actions, d, bytes, true);
    var all := Engine.LaterCmds(d, bytes, true);
    OpsOfTake(EMPTY_LOG, all, 0);
    assert cmds == all;
    Engine.FreshSound(d);
    Engine.LaterPerforms(Engine.Fresh(d), bytes, true);
    Engine.FeedKeepsSound(Engine.Fresh(d), bytes);
    Engine.FinishCompletes(Engine.FeedOutput(Engine.Fresh(d), bytes));
    var st := After(Start(capacity), actions);
    AllFinished(st.subs[who].seed.value,
                ViewReplay(Seeded(st.subs[who].seed.value), st.subs[who].got + st.sent[st.subs[who].next..]), st.log);
  }

  lemma AllFinished(blocks: seq<Block>, v: Option<View>, log: Log)
    requires Faithful(blocks, v, log)
    requires forall p :: 0 <= p < |log.entries| ==> !Unfinished(log.entries[p].block)
    ensures v.value.blocks == Snapshot(log) <==> forall b :: b in blocks ==> !Unfinished(b)
  {
    if p :| 0 <= p < |blocks| && Unfinished(blocks[p]) {
      assert v.value.blocks[p] == v.value.blocks[..|blocks|][p] == blocks[p];
      assert Snapshot(log)[p] == log.entries[p].block;
    }
  }

  // ---------- what the lock is for ----------

  /** Steps in which a subscriber takes its receiver and copies its snapshot without the lock. */
  datatype LooseAction = Guarded(a: Action) | LooseReceiver(who: nat) | LooseSeed(who: nat)

  function LooseNext(st: State, l: LooseAction): State {
    match l
    case Guarded(a) => Next(st, a)
    case LooseReceiver(who) => if who in st.subs then st else st.(subs := st.subs[who := Joining(st)])
    case LooseSeed(who) =>
      if who in st.subs && st.subs[who].seed.None? then st.(subs := st.subs[who := Joined(st, st.subs[who])]) else st
  }

  function LooseAfter(st: State, ls: seq<LooseAction>): State
    decreases |ls|
  {
    if ls == [] then st else LooseAfter(LooseNext(st, ls[0]), ls[1..])
  }

  /** One sink call, from locking to unlocking. */
  function OneCall(op: Op): seq<LooseAction> {
    [Guarded(LockToWrite(op)), Guarded(Mutate), Guarded(Send), Guarded(Unlock)]
  }

  /** Without the lock held across both, an append that falls between taking the receiver and
      copying the snapshot is shown twice: `Faithful` fails for a subscriber that never lagged. */
  lemma UnlockedSubscribeCountsTwice(capacity: nat, who: nat, kind: BlockKind)
    ensures var st := LooseAfter(Start(capacity), [LooseReceiver(who)] + OneCall(AppendOp(kind)) + [LooseSeed(who)]);
            && Settled(st) && who in st.subs && !st.subs[who].lagged && st.subs[who].seed.Some?
            && st.subs[who].next <= |st.sent|
            && var sub := st.subs[who];
               var v := ViewReplay(Seeded(sub.seed.value), sub.got + st.sent[sub.next..]);
               v.Some? && |v.value.blocks| == |st.log.entries| + 1
  {
    LooseRun(capacity, who, kind);
    hide LooseAfter, LooseNext, Snapshot;
    var sub := Joined(Called(capacity, kind), Joining(Start(capacity)));
    assert sub.got + [Append(0, kind)][sub.next..] == [Append(0, kind)];
    OneAppendReplayed(sub.seed.value, kind);
  }

  /** After one append, with nobody subscribed. */
  function Called(capacity: nat, kind: BlockKind): State {
    State(capacity, Log([Entry(0, 0, Empty(kind))], 1), [Append(0, kind)], Free, map[])
  }

  lemma OneAppendReplayed(blocks: seq<Block>, kind: BlockKind)
    ensures var v := ViewReplay(Seeded(blocks), [Append(0, kind)]); v.Some? && |v.value.blocks| == |blocks| + 1
  {
    var v := ViewApply(Seeded(blocks), Append(0, kind)).value;
    assert [Append(0, kind)][1..] == [];
    assert ViewReplay(v, []) == Some(v);
  }

  /** The run's steps, one by one. */
  lemma LooseRun(capacity: nat, who: nat, kind: BlockKind)
    ensures LooseAfter(Start(capacity), [LooseReceiver(who)] + OneCall(AppendOp(kind)) + [LooseSeed(who)]) ==
            Called(capacity, kind).(subs := map[who := Joined(Called(capacity, kind), Joining(Start(capacity)))])
  {
    var s0 := Start(capacity);
    var ls := [LooseReceiver(who)] + OneCall(AppendOp(kind)) + [LooseSeed(who)];
    LooseSteps(s0, ls);
    hide LooseAfter, Snapshot;
    var s1 := LooseNext(s0, ls[0]);
    var s2 := LooseNext(s1, ls[1]);
    var s3 := LooseNext(s2, ls[2]);
    var s4 := LooseNext(s3, ls[3]);
    assert s4 == Called(capacity, kind).(lock := Leaving, subs := map[who := Joining(s0)]);
  }

  lemma LooseSteps(st: State, ls: seq<LooseAction>)
    requires |ls| == 6
    ensures LooseAfter(st, ls) ==
            LooseNext(LooseNext(LooseNext(LooseNext(LooseNext(LooseNext(st, ls[0]), ls[1]), ls[2]), ls[3]), ls[4]), ls[5])
  {
    var s1 := LooseNext(st, ls[0]);
    var s2 := LooseNext(s1, ls[1]);
    var s3 := LooseNext(s2, ls[2]);
    var s4 := LooseNext(s3, ls[3]);
    assert LooseAfter(st, ls) == LooseAfter(s1, ls[1..]);
    assert LooseAfter(s1, ls[1..]) == LooseAfter(s2, ls[1..][1..]) && ls[1..][1..] == ls[2..];
    assert LooseAfter(s2, ls[2..]) == LooseAfter(s3, ls[2..][1..]) && ls[2..][1..] == ls[3..];
    assert LooseAfter(s3, ls[3..]) == LooseAfter(s4, ls[3..][1..]) && ls[3..][1..] == ls[4..];
    assert LooseAfter(s4, ls[4..]) == LooseAfter(LooseNext(s4, ls[4]), ls[4..][1..]) && ls[4..][1..] == ls[5..];
    var s5 := LooseNext(s4, ls[4]);
    assert LooseAfter(s5, ls[5..]) == LooseAfter(LooseNext(s5, ls[5]), ls[5..][1..]) && ls[5..][1..] == [];
  }
}
