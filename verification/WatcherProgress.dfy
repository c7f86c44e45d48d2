/** What one log or one queued event comes to when nothing fails on the way (src/registry/events.ts:428-503, 552-592),
    and what a failure leaves behind. */
module WatcherProgress {
  import opened Outcomes
  import opened RegistryEvents
  import opened EventWatcher

  /** The event has been applied under these options: the store has its effect, a registration that must wait is
      queued and kept durably, and of any other one the verdict is final and no durable copy is left. */
  ghost predicate Handled(st: State, t: State, cfg: Config, ev: Event, o: Options) {
    var v, key := VerdictOf(st.store, cfg.chain, ev, o), KeyOf(ev);
    && t.store == Apply(st.store, cfg.chain, ev, o) && t.lastPolled == st.lastPolled
    && if ev.RegisteredEvent? && v == TransactionPending then
         && t.pending == st.pending[key := ev] && t.seen == st.seen + {ev} && t.decided == st.decided
         && t.durable == st.durable[key := if key in st.durable then st.durable[key] else ev]
       else
         && t.pending == st.pending && t.seen == st.seen && t.decided == st.decided[key := v]
         && t.durable == if ev.RegisteredEvent? then st.durable - {key} else st.durable
  }

  /** The poll stands before this log, or behind it. */
  predicate AtLog(st: State, b: Batch) {
    st.poll == Some(b) && b.work == Idle && b.next < |b.logs|
  }

  function Behind(b: Batch): Batch {
    b.(next := b.next + 1)
  }

  function PollOf(st: State, cfg: Config, chain: seq<Log>, head: nat, owner: Option<Address>, registered: bool): State {
    var s := Next(Next(st, cfg, chain, PollLog(Some(head))), cfg, chain, PollApply(owner, false));
    Next(if registered then Next(s, cfg, chain, PollDurable(false)) else s, cfg, chain, PollFlushed(false))
  }

  /** The middle of the way: applied, and for a registration its durable copy still to be written or dropped. */
  ghost predicate Applied(st: State, s: State, cfg: Config, b: Batch, ev: Event, o: Options, head: nat) {
    var v, key := VerdictOf(st.store, cfg.chain, ev, o), KeyOf(ev);
    var waits := ev.RegisteredEvent? && v == TransactionPending;
    s == st.(store := Apply(st.store, cfg.chain, ev, o),
             decided := if waits then st.decided else st.decided[key := v],
             poll := Some(b.(work := if ev.TransferEvent? then Flushing
                                     else Busy(Task(ev, head, if waits then Persisting else Removing)))))
  }

  lemma LogIsApplied(st: State, cfg: Config, chain: seq<Log>, b: Batch, head: nat, owner: Option<Address>)
    requires AtLog(st, b) && b.logs[b.next].WellFormed?
    requires EnoughConfirmations(b.logs[b.next].ev.block, head, cfg.confirmations)
    ensures var s := Next(Next(st, cfg, chain, PollLog(Some(head))), cfg, chain, PollApply(owner, false));
            Applied(st, s, cfg, b, b.logs[b.next].ev, OptionsAt(cfg, head, owner), head)
  {
  }

  lemma FlushedEnds(s: State, cfg: Config, chain: seq<Log>, b: Batch)
    requires s.poll == Some(b.(work := Flushing)) && b.work == Idle
    ensures Next(s, cfg, chain, PollFlushed(false)) == s.(poll := Some(Behind(b)))
  {
  }

  lemma DurableEnds(s: State, cfg: Config, chain: seq<Log>, b: Batch, t: Task)
    requires s.poll == Some(b.(work := Busy(t))) && b.work == Idle && t.stage != Applying
    ensures Next(Next(s, cfg, chain, PollDurable(false)), cfg, chain, PollFlushed(false))
            == Durable(s, t).(poll := Some(Behind(b)))
  {
    var d := Next(s, cfg, chain, PollDurable(false));
    assert d == Durable(s, t).(poll := Some(b.(work := Flushing)));
    FlushedEnds(d, cfg, chain, b);
  }

  /** A log with enough confirmations is handled, and the poll goes on to the next one. */
  lemma ConfirmedLogEnds(st: State, cfg: Config, chain: seq<Log>, b: Batch, head: nat, owner: Option<Address>)
    requires AtLog(st, b) && b.logs[b.next].WellFormed?
    requires EnoughConfirmations(b.logs[b.next].ev.block, head, cfg.confirmations)
    ensures var ev := b.logs[b.next].ev;
            var t := PollOf(st, cfg, chain, head, owner, ev.RegisteredEvent?);
            && Handled(st, t, cfg, ev, OptionsAt(cfg, head, owner))
            && t.poll == Some(Behind(b)) && t.flushes == st.flushes
  {
    var ev := b.logs[b.next].ev;
    var s := Next(Next(st, cfg, chain, PollLog(Some(head))), cfg, chain, PollApply(owner, false));
    LogIsApplied(st, cfg, chain, b, head, owner);
    if ev.RegisteredEvent? {
      DurableEnds(s, cfg, chain, b, s.poll.value.work.task);
    } else {
      FlushedEnds(s, cfg, chain, b);
    }
  }

  /** One without is queued, and one that cannot be read is passed over. */
  lemma OtherLogEnds(st: State, cfg: Config, chain: seq<Log>, b: Batch, head: nat)
    requires AtLog(st, b)
    requires b.logs[b.next].WellFormed? ==> !EnoughConfirmations(b.logs[b.next].ev.block, head, cfg.confirmations)
    ensures Next(st, cfg, chain, PollLog(Some(head)))
            == if b.logs[b.next].Malformed? then st.(poll := Some(Behind(b)))
               else st.(poll := Some(Behind(b)), pending := st.pending[KeyOf(b.logs[b.next].ev) := b.logs[b.next].ev],
                        seen := st.seen + {b.logs[b.next].ev})
  {
  }

  /** A poll covers the blocks after the last polled one up to the head, and moves this block when all its logs are
      behind it. */
  lemma PollBegins(st: State, cfg: Config, chain: seq<Log>, head: nat)
    requires st.poll.None?
    ensures Next(st, cfg, chain, PollStart(head))
            == if head <= st.lastPolled then st
               else st.(poll := Some(Batch(LogsIn(chain, st.lastPolled + 1, head), 0, head, Idle)))
  {
  }

  lemma PollFinishes(st: State, cfg: Config, chain: seq<Log>, b: Batch)
    requires st.poll == Some(b) && b.work == Idle
    ensures Next(st, cfg, chain, PollEnd)
            == if b.next == |b.logs| then st.(poll := None, lastPolled := b.target) else st
  {
  }

  /** A failure anywhere ends the poll: its logs will be read again, for the last polled block has not moved. */
  lemma FailureEndsPoll(st: State, cfg: Config, chain: seq<Log>, b: Batch, owner: Option<Address>)
    requires st.poll == Some(b)
    ensures b.work == Idle && b.next < |b.logs| && b.logs[b.next].WellFormed? ==>
              Next(st, cfg, chain, PollLog(None)) == st.(poll := None)
    ensures b.work.Busy? ==>
              Next(st, cfg, chain, if b.work.task.stage == Applying then PollApply(owner, true) else PollDurable(true))
              == st.(poll := None)
    ensures b.work == Flushing ==> Next(st, cfg, chain, PollFlushed(true)) == st.(poll := None)
  {
  }

  // ---------------------------------------------------------------- the queue

  function FlushOf(st: State, cfg: Config, chain: seq<Log>, f: nat, ev: Event, head: nat, owner: Option<Address>): State {
    var s := Next(Next(st, cfg, chain, FlushTake(f, ev, head)), cfg, chain, FlushApply(f, owner, false));
    if ev.RegisteredEvent? then Next(s, cfg, chain, FlushDurable(f, false)) else s
  }

  lemma FlushTakes(st: State, cfg: Config, chain: seq<Log>, f: nat, ev: Event, head: nat)
    requires f !in st.flushes && ev in st.seen && EnoughConfirmations(ev.block, head, cfg.confirmations)
    ensures Next(st, cfg, chain, FlushTake(f, ev, head))
            == st.(pending := st.pending - {KeyOf(ev)}, flushes := st.flushes[f := Task(ev, head, Applying)])
  {
  }

  lemma FlushApplies(s: State, cfg: Config, chain: seq<Log>, f: nat, t: Task, owner: Option<Address>)
    requires f in s.flushes && s.flushes[f] == t && t.stage == Applying
    ensures var v := VerdictOf(s.store, cfg.chain, t.ev, OptionsAt(cfg, t.head, owner));
            var waits := t.ev.RegisteredEvent? && v == TransactionPending;
            Next(s, cfg, chain, FlushApply(f, owner, false))
            == s.(store := Apply(s.store, cfg.chain, t.ev, OptionsAt(cfg, t.head, owner)),
                  decided := if waits then s.decided else s.decided[KeyOf(t.ev) := v],
                  flushes := if t.ev.TransferEvent? then s.flushes - {f}
                             else s.flushes[f := t.(stage := if waits then Persisting else Removing)])
  {
  }

  lemma FlushDurableEnds(s: State, cfg: Config, chain: seq<Log>, f: nat)
    requires f in s.flushes && s.flushes[f].stage != Applying
    ensures Next(s, cfg, chain, FlushDurable(f, false)) == Durable(s, s.flushes[f]).(flushes := s.flushes - {f})
  {
  }

  /** A queued event with enough confirmations leaves the queue and is handled; it comes back into it only when it
      must still wait. */
  lemma QueuedEventEnds(st: State, cfg: Config, chain: seq<Log>, f: nat, ev: Event, head: nat, owner: Option<Address>)
    requires f !in st.flushes && ev in st.seen && EnoughConfirmations(ev.block, head, cfg.confirmations)
    ensures var t := FlushOf(st, cfg, chain, f, ev, head, owner);
            && Handled(st.(pending := st.pending - {KeyOf(ev)}), t, cfg, ev, OptionsAt(cfg, head, owner))
            && t.poll == st.poll && t.flushes == st.flushes
  {
    FlushTakes(st, cfg, chain, f, ev, head);
    var task, taken := Task(ev, head, Applying), Next(st, cfg, chain, FlushTake(f, ev, head));
    FlushApplies(taken, cfg, chain, f, task, owner);
    var s := Next(taken, cfg, chain, FlushApply(f, owner, false));
    assert st.flushes[f := task] - {f} == st.flushes;
    if ev.RegisteredEvent? {
      FlushDurableEnds(s, cfg, chain, f);
      assert st.flushes[f := task][f := s.flushes[f]] - {f} == st.flushes;
    }
  }

  /** One with too few blocks stays in the queue. */
  lemma UnconfirmedStaysQueued(st: State, cfg: Config, chain: seq<Log>, f: nat, ev: Event, head: nat)
    requires !EnoughConfirmations(ev.block, head, cfg.confirmations)
    ensures Next(st, cfg, chain, FlushTake(f, ev, head)) == st
  {
  }

  /** When applying it or writing its durable copy fails, a queued event is back in the queue. */
  lemma FailureRequeues(st: State, cfg: Config, chain: seq<Log>, f: nat, owner: Option<Address>)
    requires f in st.flushes
    ensures var ev := st.flushes[f].ev;
            Next(st, cfg, chain, if st.flushes[f].stage == Applying then FlushApply(f, owner, true) else FlushDurable(f, true))
            == st.(pending := st.pending[KeyOf(ev) := ev], seen := st.seen + {ev}, flushes := st.flushes - {f})
  {
  }

  /** A durable copy is queued again at every flush, as long as it is there. */
  lemma DurableIsQueued(st: State, cfg: Config, chain: seq<Log>, key: Key)
    requires key in st.durable
    ensures var ev := st.durable[key];
            Next(st, cfg, chain, FlushRestore(key)) == st.(pending := st.pending[KeyOf(ev) := ev], seen := st.seen + {ev})
  {
  }

  /** Beside the watcher, enrollments and principals may become anything, and a durable copy may go. */
  lemma OthersAreFree(st: State, cfg: Config, chain: seq<Log>, enrollments: seq<Enrollment>, principals: map<string, Address>, key: Key)
    ensures var t := Next(st, cfg, chain, Others(enrollments, principals));
            t.store == Store(st.store.processed, enrollments, principals, st.store.cursors) && t == st.(store := t.store)
    ensures key !in Next(st, cfg, chain, Evict(key)).durable
  {
  }
}
