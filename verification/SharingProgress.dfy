/** What the steps of the shared engine bring about, over runs: calls take effect, subscribing
    and reading give the log, and receives deliver. */
module SharingProgress {
  import opened Bytes
  import opened Blocks
  import opened Stream
  import opened Sharing

  lemma {:induction false} AfterConcat(st: State, a: seq<Action>, b: seq<Action>)
    ensures After(st, a + b) == After(After(st, a), b)
    decreases |a|
  {
    if a == [] {
      Unit(b);
    } else {
      assert (a + b)[1..] == a[1..] + b;
      AfterConcat(Next(st, a[0]), a[1..], b);
    }
  }

  lemma AfterThree(st: State, a: Action, b: Action, c: Action)
    ensures After(st, [a, b, c]) == Next(Next(Next(st, a), b), c)
  {
    assert [a, b, c][1..] == [b, c] && [b, c][1..] == [c] && [c][1..] == [];
    assert After(Next(Next(st, a), b), [c]) == Next(Next(Next(st, a), b), c);
    hide Next;
    assert After(Next(st, a), [b, c]) == After(Next(Next(st, a), b), [c]);
  }

  lemma AfterFour(st: State, a: Action, b: Action, c: Action, d: Action)
    ensures After(st, [a, b, c, d]) == Next(Next(Next(Next(st, a), b), c), d)
  {
    hide Next;
    assert [a, b, c, d] == [a] + [b, c, d];
    AfterThree(Next(st, a), b, c, d);
    assert ([a] + [b, c, d])[1..] == [b, c, d];
  }

  // ---------- receiving ----------

  /** Whether this subscriber has its snapshot, and how many events are queued for it. */
  predicate Seeded(st: State, who: nat) { who in st.subs && st.subs[who].seed.Some? }

  function Queued(st: State, who: nat): seq<BlockEvent>
    requires who in st.subs && st.subs[who].next <= |st.sent|
  {
    st.sent[st.subs[who].next..]
  }

  lemma NextInRange(capacity: nat, actions: seq<Action>, who: nat)
    requires who in After(Start(capacity), actions).subs
    ensures var st := After(Start(capacity), actions); var sub := st.subs[who];
            && sub.start <= sub.next <= |st.sent| && st.capacity == capacity
            && (!sub.lagged ==> sub.got == st.sent[sub.start..sub.next])
  {
    AfterKeepsInv(Start(capacity), actions);
    AfterKeepsCapacity(Start(capacity), actions);
    assert SubAgrees(After(Start(capacity), actions), After(Start(capacity), actions).subs[who]);
  }

  /** A receive delivers the oldest queued event to whom it is for, and touches nothing else. */
  lemma ReceiveDelivers(capacity: nat, actions: seq<Action>, who: nat)
    requires var st := After(Start(capacity), actions);
             Seeded(st, who) && 0 < |st.sent| - st.subs[who].next <= capacity
    ensures var st := After(Start(capacity), actions); var sub := st.subs[who];
            && 0 <= sub.next < |st.sent|
            && After(Start(capacity), actions + [Receive(who)]) ==
               st.(subs := st.subs[who := sub.(got := sub.got + [st.sent[sub.next]], next := sub.next + 1, waiting := false)])
  {
    NextInRange(capacity, actions, who);
    AfterSnoc(Start(capacity), actions, Receive(who));
  }

  function Receives(who: nat, k: nat): (r: seq<Action>)
    ensures |r| == k
    ensures forall i :: 0 <= i < k ==> r[i] == Receive(who)
  {
    seq(k, _ => Receive(who))
  }

  /** As many receives as there are queued events deliver all of them, in order. */
  lemma {:induction false} ReceivesDrain(capacity: nat, actions: seq<Action>, who: nat, k: nat)
    requires var st := After(Start(capacity), actions);
             Seeded(st, who) && |st.sent| - st.subs[who].next <= capacity && k == |st.sent| - st.subs[who].next
    ensures var st := After(Start(capacity), actions);
            var st' := After(Start(capacity), actions + Receives(who, k));
            && st.subs[who].next <= |st.sent|
            && Seeded(st', who) && st'.sent == st.sent && st'.log == st.log
            && st'.subs[who].got == st.subs[who].got + Queued(st, who)
            && st'.subs[who].next == |st.sent|
            && st'.subs[who].lagged == st.subs[who].lagged && st'.subs[who].start == st.subs[who].start
    decreases k
  {
    NextInRange(capacity, actions, who);
    var st := After(Start(capacity), actions);
    if k == 0 {
      Unit(actions);
      assert Receives(who, 0) == [] && Queued(st, who) == [];
      Unit(st.subs[who].got);
    } else {
      ReceiveDelivers(capacity, actions, who);
      ReceivesDrain(capacity, actions + [Receive(who)], who, k - 1);
      assert [Receive(who)] + Receives(who, k - 1) == Receives(who, k);
      Assoc(actions, [Receive(who)], Receives(who, k - 1));
      var next := st.subs[who].next;
      assert [st.sent[next]] + st.sent[next + 1..] == st.sent[next..];
      Assoc(st.subs[who].got, [st.sent[next]], st.sent[next + 1..]);
    }
  }

  /** So a subscriber that has not lagged then has everything published since it subscribed. */
  lemma DrainedHasAll(capacity: nat, actions: seq<Action>, who: nat)
    requires var st := After(Start(capacity), actions);
             Seeded(st, who) && |st.sent| - st.subs[who].next <= capacity && !st.subs[who].lagged
    ensures var st := After(Start(capacity), actions);
            && st.subs[who].start <= st.subs[who].next <= |st.sent|
            && var st' := After(Start(capacity), actions + Receives(who, |st.sent| - st.subs[who].next));
               who in st'.subs && st'.subs[who].got == st.sent[st.subs[who].start..]
  {
    NextInRange(capacity, actions, who);
    var st := After(Start(capacity), actions);
    ReceivesDrain(capacity, actions, who, |st.sent| - st.subs[who].next);
    assert st.sent[st.subs[who].start..st.subs[who].next] + st.sent[st.subs[who].next..] == st.sent[st.subs[who].start..];
  }

  /** An overflowing receive delivers nothing, and leaves exactly the newest events queued, as
      many as the channel retains. */
  lemma LagSkipsToNewest(capacity: nat, actions: seq<Action>, who: nat)
    requires var st := After(Start(capacity), actions); Seeded(st, who) && |st.sent| - st.subs[who].next > capacity
    ensures var st := After(Start(capacity), actions); var sub := st.subs[who];
            && 0 <= sub.next <= |st.sent| && capacity <= |st.sent|
            && After(Start(capacity), actions + [Receive(who)]) ==
               st.(subs := st.subs[who := sub.(next := |st.sent| - capacity, lagged := true, waiting := false)])
  {
    NextInRange(capacity, actions, who);
    AfterSnoc(Start(capacity), actions, Receive(who));
  }

  /** A receive with nothing queued changes nothing. */
  lemma EmptyReceive(capacity: nat, actions: seq<Action>, who: nat)
    requires var st := After(Start(capacity), actions); who in st.subs && st.subs[who].next >= |st.sent|
    ensures After(Start(capacity), actions + [Receive(who)]) == After(Start(capacity), actions)
  {
    AfterSnoc(Start(capacity), actions, Receive(who));
  }

  // ---------- what the lock lets happen ----------

  /** A sink call that gets the lock changes the log as the call says and publishes its event. */
  lemma CallTakesEffect(capacity: nat, actions: seq<Action>, op: Op)
    requires After(Start(capacity), actions).lock.Free?
    ensures var st := After(Start(capacity), actions); var (log, event) := Step(st.log, op);
            After(Start(capacity), actions + [LockToWrite(op), Mutate, Send, Unlock]) ==
            st.(log := log, sent := st.sent + if event.Some? then [event.value] else [])
  {
    AfterConcat(Start(capacity), actions, [LockToWrite(op), Mutate, Send, Unlock]);
    AfterFour(After(Start(capacity), actions), LockToWrite(op), Mutate, Send, Unlock);
  }

  /** Subscribing gives a snapshot of the log and a receiver for what is published from now on. */
  lemma SubscribeTakesEffect(capacity: nat, actions: seq<Action>, who: nat)
    requires var st := After(Start(capacity), actions); st.lock.Free? && who !in st.subs
    ensures var st := After(Start(capacity), actions);
            After(Start(capacity), actions + [LockToSubscribe(who), TakeReceiver, CopySeed, Unlock]) ==
            st.(subs := st.subs[who := Sub(|st.sent|, |st.sent|, Some(Snapshot(st.log)), [], false,
                                           Snapshot(st.log), |st.sent|, true)])
  {
    var st := After(Start(capacity), actions);
    AfterConcat(Start(capacity), actions, [LockToSubscribe(who), TakeReceiver, CopySeed, Unlock]);
    AfterFour(st, LockToSubscribe(who), TakeReceiver, CopySeed, Unlock);
    var sub := Joining(st);
    assert st.subs[who := sub][who := Joined(st, sub)] == st.subs[who := Joined(st, sub)];
  }

  /** Re-reading makes a subscriber wait and show the log. */
  lemma ReadTakesEffect(capacity: nat, actions: seq<Action>, who: nat)
    requires var st := After(Start(capacity), actions); st.lock.Free? && Seeded(st, who)
    ensures var st := After(Start(capacity), actions);
            After(Start(capacity), actions + [LockToRead(who), CopySnapshot, Unlock]) ==
            st.(subs := st.subs[who :=
                  st.subs[who].(shown := Snapshot(st.log), shownAt := |st.sent|, waiting := true)])
  {
    AfterConcat(Start(capacity), actions, [LockToRead(who), CopySnapshot, Unlock]);
    AfterThree(After(Start(capacity), actions), LockToRead(who), CopySnapshot, Unlock);
  }

  /** Asking for the lock, or receiving. */
  predicate Asks(a: Action) { a.LockToWrite? || a.LockToSubscribe? || a.LockToRead? || a.Receive? }

  /** While somebody holds the lock, whatever the others ask for: nobody else gets it, and log
      and events stay as they are. */
  lemma {:induction false} HolderExcludes(st: State, others: seq<Action>)
    requires !st.lock.Free? && forall i :: 0 <= i < |others| ==> Asks(others[i])
    ensures var st' := After(st, others);
            st'.lock == st.lock && st'.log == st.log && st'.sent == st.sent && st'.subs.Keys == st.subs.Keys
    decreases |others|
  {
    if others != [] {
      HolderExcludes(Next(st, others[0]), others[1..]);
    }
  }
}
