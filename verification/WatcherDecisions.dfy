/** When the watcher of src/registry/events.ts:429-503 decides an event and when it keeps it: over every run, and
    in terms of the enrollment the event is about. */
module WatcherDecisions {
  import opened Outcomes
  import opened RegistryEvents
  import opened EventWatcher

  /** The step applies this event under these options: the poll or a flush has come to it and nothing fails. */
  predicate Applies(st: State, cfg: Config, step: Step, ev: Event, o: Options) {
    || (&& step.PollApply? && !step.fails && st.poll.Some? && st.poll.value.work.Busy?
        && st.poll.value.work.task.stage == Applying && st.poll.value.work.task.ev == ev
        && o == OptionsAt(cfg, st.poll.value.work.task.head, step.owner))
    || (&& step.FlushApply? && !step.fails && step.flush in st.flushes && st.flushes[step.flush].stage == Applying
        && st.flushes[step.flush].ev == ev && o == OptionsAt(cfg, st.flushes[step.flush].head, step.owner))
  }

  ghost predicate DecidedBy(st: State, cfg: Config, step: Step, key: Key, ev: Event, o: Options) {
    && Applies(st, cfg, step, ev, o) && KeyOf(ev) == key && Confirmed(ev, o)
    && (ev.RegisteredEvent? ==> Decidable(st.store, cfg.chain, ev, o))
  }

  ghost predicate DecidedAt(first: State, cfg: Config, chain: seq<Log>, steps: seq<Step>, j: nat, key: Key) {
    j < |steps| && exists ev, o :: DecidedBy(Run(first, cfg, chain, steps[..j]), cfg, steps[j], key, ev, o)
  }

  ghost predicate WasDecidable(first: State, cfg: Config, chain: seq<Log>, steps: seq<Step>, key: Key) {
    exists j: nat :: DecidedAt(first, cfg, chain, steps, j, key)
  }

  /** A decision is taken only by applying a confirmed event of this key, a registration only when it is
      decidable. */
  lemma ApplyDecides(st: State, cfg: Config, t: Task, owner: Option<Address>, key: Key)
    requires TaskConfirmed(cfg, t)
    requires key in WithVerdict(st, cfg, t, owner).decided
    ensures key in st.decided
            || (KeyOf(t.ev) == key && Confirmed(t.ev, OptionsAt(cfg, t.head, owner))
                && (t.ev.RegisteredEvent? ==> Decidable(st.store, cfg.chain, t.ev, OptionsAt(cfg, t.head, owner))))
  {
    if t.ev.RegisteredEvent? {
      WaitsIff(st.store, cfg.chain, t.ev, OptionsAt(cfg, t.head, owner));
    }
  }

  lemma PollApplyDecides(st: State, cfg: Config, step: Step, key: Key)
    requires step.PollApply? && st.poll.Some? && st.poll.value.work.Busy? && st.poll.value.work.task.stage == Applying
    requires FinalInv(st, cfg) && key !in st.decided
    requires key in DoPollApply(st, cfg, st.poll.value.work.task, step.owner, step.fails).decided
    ensures exists ev, o :: DecidedBy(st, cfg, step, key, ev, o)
  {
    var t := st.poll.value.work.task;
    ApplyDecides(st, cfg, t, step.owner, key);
    assert DecidedBy(st, cfg, step, key, t.ev, OptionsAt(cfg, t.head, step.owner));
  }

  lemma FlushApplyDecides(st: State, cfg: Config, step: Step, key: Key)
    requires step.FlushApply? && step.flush in st.flushes && st.flushes[step.flush].stage == Applying
    requires FinalInv(st, cfg) && key !in st.decided
    requires key in DoFlushApply(st, cfg, step.flush, step.owner, step.fails).decided
    ensures exists ev, o :: DecidedBy(st, cfg, step, key, ev, o)
  {
    var t := st.flushes[step.flush];
    ApplyDecides(st, cfg, t, step.owner, key);
    assert DecidedBy(st, cfg, step, key, t.ev, OptionsAt(cfg, t.head, step.owner));
  }

  lemma StepDecides(st: State, cfg: Config, chain: seq<Log>, step: Step, key: Key)
    requires FinalInv(st, cfg) && key in Next(st, cfg, chain, step).decided && key !in st.decided
    ensures exists ev, o :: DecidedBy(st, cfg, step, key, ev, o)
  {
    if step.PollApply? {
      PollApplyDecides(st, cfg, step, key);
    } else if step.FlushApply? {
      FlushApplyDecides(st, cfg, step, key);
    } else if !step.Others? {
      OthersKeepStore(st, cfg, chain, step);
    }
  }

  /** In every run, an event is decided only by a step that applied it when it was confirmed, and a registration
      only when it had been processed before, nobody awaited it, its enrollment had never committed to a
      registration, or the confirmed receipt was on file. */
  lemma {:induction false} DecidedWhenDecidable(
    store: Store, durable: map<Key, Event>, head: nat, cfg: Config, chain: seq<Log>, steps: seq<Step>, key: Key)
    requires key in Run(Start(store, durable, head), cfg, chain, steps).decided
    ensures WasDecidable(Start(store, durable, head), cfg, chain, steps, key)
  {
    var first := Start(store, durable, head);
    if steps != [] {
      var init, last := steps[..|steps| - 1], steps[|steps| - 1];
      var st := Run(first, cfg, chain, init);
      if key in st.decided {
        DecidedWhenDecidable(store, durable, head, cfg, chain, init, key);
        var j: nat :| DecidedAt(first, cfg, chain, init, j, key);
        assert steps[..j] == init[..j] && steps[j] == init[j];
        assert DecidedAt(first, cfg, chain, steps, j, key);
      } else {
        RunKeepsFinal(store, durable, head, cfg, chain, init);
        StepDecides(st, cfg, chain, last, key);
        assert DecidedAt(first, cfg, chain, steps, |init|, key);
      }
    }
  }

  // ---------------------------------------------------------------- what waits is kept

  /** An applied event is kept for a retry exactly when it is a registration that awaits its receipt; a decided
      registration only has its durable copy left to drop, and a transfer nothing. */
  lemma KeptIff(st: State, cfg: Config, t: Task, owner: Option<Address>)
    requires TaskConfirmed(cfg, t)
    ensures var stage, o := StageAfter(t.ev, VerdictNow(st, cfg, t, owner)), OptionsAt(cfg, t.head, owner);
            && (stage == Some(Persisting) <==> t.ev.RegisteredEvent? && AwaitsReceipt(st.store, cfg.chain, t.ev, o))
            && (stage == Some(Removing) <==> t.ev.RegisteredEvent? && Decidable(st.store, cfg.chain, t.ev, o))
            && (stage.None? <==> t.ev.TransferEvent?)
  {
    VerdictIsFinal(st, cfg, t, owner);
    if t.ev.RegisteredEvent? {
      WaitsIff(st.store, cfg.chain, t.ev, OptionsAt(cfg, t.head, owner));
    }
  }

  /** A flush that applies a registration awaiting its receipt changes nothing in the store, decides nothing, and
      puts the event back into the queue, with a durable copy unless writing it failed. */
  lemma FlushKeepsWaiting(st: State, cfg: Config, chain: seq<Log>, f: nat, owner: Option<Address>, fails: bool)
    requires f in st.flushes && st.flushes[f].stage == Applying && TaskConfirmed(cfg, st.flushes[f])
    requires st.flushes[f].ev.RegisteredEvent?
    requires AwaitsReceipt(st.store, cfg.chain, st.flushes[f].ev, OptionsAt(cfg, st.flushes[f].head, owner))
    ensures var ev := st.flushes[f].ev;
            var t := Next(Next(st, cfg, chain, FlushApply(f, owner, false)), cfg, chain, FlushDurable(f, fails));
            && t.store == st.store && t.decided == st.decided && f !in t.flushes
            && t.pending == st.pending[KeyOf(ev) := ev] && (!fails ==> KeyOf(ev) in t.durable)
  {
    KeptIff(st, cfg, st.flushes[f], owner);
    WaitsIff(st.store, cfg.chain, st.flushes[f].ev, OptionsAt(cfg, st.flushes[f].head, owner));
    var s1 := Next(st, cfg, chain, FlushApply(f, owner, false));
    assert s1.flushes[f] == st.flushes[f].(stage := Persisting);
  }

  /** The poll does the same; when writing the copy fails it gives up, and asks for the same blocks again. */
  lemma PollKeepsWaiting(st: State, cfg: Config, chain: seq<Log>, owner: Option<Address>, fails: bool)
    requires st.poll.Some? && st.poll.value.work.Busy? && st.poll.value.work.task.stage == Applying
    requires TaskConfirmed(cfg, st.poll.value.work.task) && st.poll.value.work.task.ev.RegisteredEvent?
    requires AwaitsReceipt(st.store, cfg.chain, st.poll.value.work.task.ev, OptionsAt(cfg, st.poll.value.work.task.head, owner))
    ensures var ev := st.poll.value.work.task.ev;
            var t := Next(Next(st, cfg, chain, PollApply(owner, false)), cfg, chain, PollDurable(fails));
            && t.store == st.store && t.decided == st.decided && t.lastPolled == st.lastPolled
            && (fails ==> t.poll.None?)
            && (!fails ==> t.pending == st.pending[KeyOf(ev) := ev] && KeyOf(ev) in t.durable)
  {
    var task := st.poll.value.work.task;
    KeptIff(st, cfg, task, owner);
    WaitsIff(st.store, cfg.chain, task.ev, OptionsAt(cfg, task.head, owner));
    var s1 := Next(st, cfg, chain, PollApply(owner, false));
    assert s1.poll.value.work == Busy(task.(stage := Persisting));
  }
}
