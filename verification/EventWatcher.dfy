/** The stateless polling watcher of src/registry/events.ts:377-596: a poll that handles one batch of logs at a
    time, any number of flushes of the pending queue beside it, and a durable copy of undecided registrations.
    Every await is a step boundary, and every awaited call may fail. */
module EventWatcher {
  import opened Outcomes
  import opened RegistryEvents

  datatype Log = WellFormed(ev: Event) | Malformed(block: nat)

  datatype Key = Key(tx: Hash, logIndex: nat)

  datatype Config = Config(chain: nat, registry: Address, confirmations: int, baseUrl: Option<string>)

  function BlockOf(l: Log): nat {
    if l.WellFormed? then l.ev.block else l.block
  }

  function KeyOf(ev: Event): Key {
    Key(ev.tx, ev.logIndex)
  }

  /** getContractEvents from one block to another, both included. */
  function LogsIn(logs: seq<Log>, lo: int, hi: int): seq<Log> {
    if logs == [] then []
    else
      var l := logs[|logs| - 1];
      LogsIn(logs[..|logs| - 1], lo, hi) + if lo <= BlockOf(l) <= hi then [l] else []
  }

  function OptionsAt(cfg: Config, head: nat, owner: Option<Address>): Options {
    Options(cfg.confirmations, Some(head), Some(cfg.registry), cfg.baseUrl, owner)
  }

  /** Applying: the event is about to be applied. Persisting and Removing: its verdict is known and the durable
      copy is being written or dropped. */
  datatype Stage = Applying | Persisting | Removing

  datatype Task = Task(ev: Event, head: nat, stage: Stage)

  /** The batch of a running poll. Log `next` is being handled; `current` is the task it waits for. */
  datatype Work = Idle | Busy(task: Task) | Flushing

  datatype Batch = Batch(logs: seq<Log>, next: nat, target: nat, work: Work)

  datatype State = State(
    store: Store,
    pending: map<Key, Event>,
    durable: map<Key, Event>,
    flushes: map<nat, Task>,
    lastPolled: nat,
    poll: Option<Batch>,
    seen: set<Event>,
    decided: map<Key, Verdict>)

  datatype Step =
    | PollStart(head: nat)
    | PollLog(current: Option<nat>)
    | PollApply(owner: Option<Address>, fails: bool)
    | PollDurable(fails: bool)
    | PollFlushed(fails: bool)
    | PollEnd
    | FlushRestore(key: Key)
    | FlushTake(flush: nat, ev: Event, head: nat)
    | FlushApply(flush: nat, owner: Option<Address>, fails: bool)
    | FlushDurable(flush: nat, fails: bool)
    | Evict(key: Key)
    | Others(enrollments: seq<Enrollment>, principals: map<string, Address>)

  // ---------------------------------------------------------------- one event

  function Requeue(st: State, ev: Event): State {
    st.(pending := st.pending[KeyOf(ev) := ev], seen := st.seen + {ev})
  }

  predicate Retryable(v: Verdict) {
    v == TransactionPending
  }

  /** The stage after the store has given its verdict; None when nothing durable is left to do. */
  function StageAfter(ev: Event, v: Verdict): Option<Stage> {
    if ev.TransferEvent? then None else if Retryable(v) then Some(Persisting) else Some(Removing)
  }

  function WithVerdict(st: State, cfg: Config, t: Task, owner: Option<Address>): State {
    var o := OptionsAt(cfg, t.head, owner);
    var v := VerdictOf(st.store, cfg.chain, t.ev, o);
    st.(store := Apply(st.store, cfg.chain, t.ev, o),
        decided := if t.ev.RegisteredEvent? && Retryable(v) then st.decided else st.decided[KeyOf(t.ev) := v])
  }

  function VerdictNow(st: State, cfg: Config, t: Task, owner: Option<Address>): Verdict {
    VerdictOf(st.store, cfg.chain, t.ev, OptionsAt(cfg, t.head, owner))
  }

  /** persistPendingRegistered and the queue, or removePendingRegistered. */
  function Durable(st: State, t: Task): State {
    if t.stage == Persisting then Requeue(st.(durable := if KeyOf(t.ev) in st.durable then st.durable
                                                         else st.durable[KeyOf(t.ev) := t.ev]), t.ev)
    else st.(durable := st.durable - {KeyOf(t.ev)})
  }

  // ---------------------------------------------------------------- the poll

  function Abort(st: State): State {
    st.(poll := None)
  }

  function WithWork(st: State, w: Work): State
    requires st.poll.Some?
  {
    st.(poll := Some(st.poll.value.(work := w)))
  }

  function Advance(st: State): State
    requires st.poll.Some?
  {
    st.(poll := Some(st.poll.value.(next := st.poll.value.next + 1, work := Idle)))
  }

  function DoPollLog(st: State, cfg: Config, head: Option<nat>): State
    requires st.poll.Some? && st.poll.value.next < |st.poll.value.logs|
  {
    var l := st.poll.value.logs[st.poll.value.next];
    if l.Malformed? then Advance(st)
    else if head.None? then Abort(st)
    else if !EnoughConfirmations(l.ev.block, head.value, cfg.confirmations) then Advance(Requeue(st, l.ev))
    else WithWork(st, Busy(Task(l.ev, head.value, Applying)))
  }

  function DoPollApply(st: State, cfg: Config, t: Task, owner: Option<Address>, fails: bool): State
    requires st.poll.Some?
  {
    if fails then Abort(st)
    else
      var stage := StageAfter(t.ev, VerdictNow(st, cfg, t, owner));
      WithWork(WithVerdict(st, cfg, t, owner), if stage.Some? then Busy(t.(stage := stage.value)) else Flushing)
  }

  function PollStep(st: State, cfg: Config, chain: seq<Log>, step: Step): State
    requires st.poll.Some?
  {
    var b := st.poll.value;
    match step
    case PollLog(head) => if b.work == Idle && b.next < |b.logs| then DoPollLog(st, cfg, head) else st
    case PollApply(owner, fails) =>
      if b.work.Busy? && b.work.task.stage == Applying then DoPollApply(st, cfg, b.work.task, owner, fails) else st
    case PollDurable(fails) =>
      if b.work.Busy? && b.work.task.stage != Applying then
        if fails then Abort(st) else WithWork(Durable(st, b.work.task), Flushing)
      else st
    case PollFlushed(fails) =>
      if b.work == Flushing then if fails then Abort(st) else Advance(st) else st
    case PollEnd =>
      if b.work == Idle && b.next == |b.logs| then st.(poll := None, lastPolled := b.target) else st
    case _ => st
  }

  // ---------------------------------------------------------------- the flushes

  /** A flush goes through a copy of the queue, so it may take an event that has left the queue since. */
  function DoFlushTake(st: State, cfg: Config, f: nat, ev: Event, head: nat): State {
    if f !in st.flushes && ev in st.seen && EnoughConfirmations(ev.block, head, cfg.confirmations)
    then st.(pending := st.pending - {KeyOf(ev)}, flushes := st.flushes[f := Task(ev, head, Applying)])
    else st
  }

  function DoFlushApply(st: State, cfg: Config, f: nat, owner: Option<Address>, fails: bool): State
    requires f in st.flushes
  {
    var t := st.flushes[f];
    if fails then Requeue(st, t.ev).(flushes := st.flushes - {f})
    else
      var stage := StageAfter(t.ev, VerdictNow(st, cfg, t, owner));
      WithVerdict(st, cfg, t, owner).(
        flushes := if stage.Some? then st.flushes[f := t.(stage := stage.value)] else st.flushes - {f})
  }

  function DoFlushDurable(st: State, f: nat, fails: bool): State
    requires f in st.flushes
  {
    var t := st.flushes[f];
    (if fails then Requeue(st, t.ev) else Durable(st, t)).(flushes := st.flushes - {f})
  }

  function Next(st: State, cfg: Config, chain: seq<Log>, step: Step): State {
    match step
    case PollStart(head) =>
      if st.poll.None? && head > st.lastPolled
      then st.(poll := Some(Batch(LogsIn(chain, st.lastPolled + 1, head), 0, head, Idle))) else st
    case FlushRestore(key) => if key in st.durable then Requeue(st, st.durable[key]) else st
    case FlushTake(f, ev, head) => DoFlushTake(st, cfg, f, ev, head)
    case FlushApply(f, owner, fails) =>
      if f in st.flushes && st.flushes[f].stage == Applying then DoFlushApply(st, cfg, f, owner, fails) else st
    case FlushDurable(f, fails) =>
      if f in st.flushes && st.flushes[f].stage != Applying then DoFlushDurable(st, f, fails) else st
    case Evict(key) => st.(durable := st.durable - {key})
    case Others(enrollments, principals) =>
      st.(store := st.store.(enrollments := enrollments, principals := principals))
    case _ => if st.poll.Some? then PollStep(st, cfg, chain, step) else st
  }

  function Start(store: Store, durable: map<Key, Event>, head: nat): State {
    State(store, map[], durable, map[], head, None, {}, map[])
  }

  /** `chain` holds the logs of all blocks, those to come included; `first` is the state at start-up. */
  function Run(first: State, cfg: Config, chain: seq<Log>, steps: seq<Step>): State {
    if steps == [] then first
    else Next(Run(first, cfg, chain, steps[..|steps| - 1]), cfg, chain, steps[|steps| - 1])
  }

  // ---------------------------------------------------------------- nothing is lost

  ghost predicate InFlight(st: State, key: Key) {
    exists f :: f in st.flushes && KeyOf(st.flushes[f].ev) == key
  }

  ghost predicate Covered(st: State, key: Key) {
    key in st.decided || key in st.pending || InFlight(st, key)
  }

  ghost predicate TaskOk(st: State, t: Task) {
    t.stage == Removing ==> KeyOf(t.ev) in st.decided
  }

  /** Whoever only has a durable copy left to drop is about a decided event. */
  ghost predicate RemovingIsDecided(st: State) {
    && (forall f | f in st.flushes :: TaskOk(st, st.flushes[f]))
    && PollTaskOk(st)
  }

  ghost predicate LogsCovered(st: State, logs: seq<Log>) {
    forall i | 0 <= i < |logs| && logs[i].WellFormed? :: Covered(st, KeyOf(logs[i].ev))
  }

  /** The logs of the batch before the one being handled are covered, and the one being handled is the one the
      poll works on. */
  ghost predicate WorkOk(b: Batch) {
    && b.next <= |b.logs|
    && (b.work != Idle ==> b.next < |b.logs| && b.logs[b.next].WellFormed?)
    && (b.work.Busy? ==> b.work.task.ev == b.logs[b.next].ev)
  }

  ghost predicate BatchInv(st: State, chain: seq<Log>) {
    st.poll.Some? ==>
      var b := st.poll.value;
      && b.target > st.lastPolled
      && b.logs == LogsIn(chain, st.lastPolled + 1, b.target)
      && WorkOk(b) && LogsCovered(st, b.logs[..b.next])
      && (b.work == Flushing ==> Covered(st, KeyOf(b.logs[b.next].ev)))
  }

  ghost predicate Inv(st: State, chain: seq<Log>, start: nat) {
    && start <= st.lastPolled
    && LogsCovered(st, LogsIn(chain, start + 1, st.lastPolled))
    && BatchInv(st, chain)
    && RemovingIsDecided(st)
  }

  predicate IsFlush(step: Step) {
    step.FlushTake? || step.FlushApply? || step.FlushDurable?
  }

  ghost predicate OnlyAdded(st: State, t: State) {
    t.flushes == st.flushes && st.pending.Keys <= t.pending.Keys && st.decided.Keys <= t.decided.Keys
  }

  lemma PollLogOnlyAdds(st: State, cfg: Config, current: Option<nat>)
    requires st.poll.Some? && st.poll.value.next < |st.poll.value.logs|
    ensures OnlyAdded(st, DoPollLog(st, cfg, current))
  {
  }

  lemma PollApplyOnlyAdds(st: State, cfg: Config, t: Task, owner: Option<Address>, fails: bool)
    requires st.poll.Some?
    ensures OnlyAdded(st, DoPollApply(st, cfg, t, owner, fails))
  {
  }

  /** The other steps leave the flushes alone and only add to the queue and the decisions. */
  lemma OthersOnlyAdd(st: State, cfg: Config, chain: seq<Log>, step: Step)
    requires !IsFlush(step)
    ensures OnlyAdded(st, Next(st, cfg, chain, step))
  {
    if step.PollLog? {
      if st.poll.Some? && st.poll.value.next < |st.poll.value.logs| {
        PollLogOnlyAdds(st, cfg, step.current);
      }
    } else if step.PollApply? {
      if st.poll.Some? && st.poll.value.work.Busy? {
        PollApplyOnlyAdds(st, cfg, st.poll.value.work.task, step.owner, step.fails);
      }
    }
  }

  /** What one step of flush `f` does: it leaves the other flushes and the poll alone, ends or goes on with its
      event, or takes one out of the queue. */
  ghost predicate FlushMoved(st: State, t: State, f: nat) {
    && t.poll == st.poll && st.decided.Keys <= t.decided.Keys
    && (forall g | g in st.flushes && g != f :: g in t.flushes && t.flushes[g] == st.flushes[g])
    && (forall g | g in t.flushes && g != f :: g in st.flushes)
    && (f in st.flushes ==>
          && st.pending.Keys <= t.pending.Keys
          && (f in t.flushes ==> t.flushes[f].ev == st.flushes[f].ev))
    && (f in t.flushes && t.flushes[f].stage == Removing && t != st ==> KeyOf(t.flushes[f].ev) in t.decided)
    && (f !in st.flushes && t != st ==> f in t.flushes && t.pending == st.pending - {KeyOf(t.flushes[f].ev)})
  }

  lemma FlushTakeMoves(st: State, cfg: Config, f: nat, ev: Event, head: nat)
    ensures FlushMoved(st, DoFlushTake(st, cfg, f, ev, head), f)
  {
  }

  lemma FlushApplyMoves(st: State, cfg: Config, f: nat, owner: Option<Address>, fails: bool)
    requires f in st.flushes
    ensures FlushMoved(st, DoFlushApply(st, cfg, f, owner, fails), f)
  {
  }

  lemma FlushDurableMoves(st: State, f: nat, fails: bool)
    requires f in st.flushes
    ensures FlushMoved(st, DoFlushDurable(st, f, fails), f)
  {
  }

  lemma FlushMoves(st: State, cfg: Config, chain: seq<Log>, step: Step)
    requires IsFlush(step)
    ensures FlushMoved(st, Next(st, cfg, chain, step), step.flush)
  {
    if step.FlushTake? {
      FlushTakeMoves(st, cfg, step.flush, step.ev, step.head);
    } else if step.flush in st.flushes {
      if step.FlushApply? {
        FlushApplyMoves(st, cfg, step.flush, step.owner, step.fails);
      } else {
        FlushDurableMoves(st, step.flush, step.fails);
      }
    }
  }

  /** What a flush drops is decided or back in the queue. */
  lemma FlushDropsNothing(st: State, cfg: Config, chain: seq<Log>, step: Step)
    requires IsFlush(step) && step.flush in st.flushes && TaskOk(st, st.flushes[step.flush])
    ensures var t, key := Next(st, cfg, chain, step), KeyOf(st.flushes[step.flush].ev);
            step.flush in t.flushes || key in t.decided || key in t.pending
  {
  }

  /** Covered keys stay covered, whatever fails. */
  lemma CoveredStays(st: State, cfg: Config, chain: seq<Log>, step: Step, key: Key)
    requires Covered(st, key) && RemovingIsDecided(st)
    ensures Covered(Next(st, cfg, chain, step), key)
  {
    var t := Next(st, cfg, chain, step);
    if !IsFlush(step) {
      OthersOnlyAdd(st, cfg, chain, step);
      assert InFlight(st, key) ==> InFlight(t, key);
    } else {
      FlushMoves(st, cfg, chain, step);
      if key in st.decided {
      } else if key in st.pending {
        assert key !in t.pending ==> step.flush in t.flushes && KeyOf(t.flushes[step.flush].ev) == key;
      } else {
        var f :| f in st.flushes && KeyOf(st.flushes[f].ev) == key;
        if f == step.flush {
          FlushDropsNothing(st, cfg, chain, step);
        }
        assert f in t.flushes ==> KeyOf(t.flushes[f].ev) == key;
      }
    }
  }

  lemma LogsStayCovered(st: State, cfg: Config, chain: seq<Log>, step: Step, logs: seq<Log>)
    requires LogsCovered(st, logs) && RemovingIsDecided(st)
    ensures LogsCovered(Next(st, cfg, chain, step), logs)
  {
    forall i | 0 <= i < |logs| && logs[i].WellFormed?
      ensures Covered(Next(st, cfg, chain, step), KeyOf(logs[i].ev))
    {
      CoveredStays(st, cfg, chain, step, KeyOf(logs[i].ev));
    }
  }

  ghost predicate PollTaskOk(t: State) {
    t.poll.Some? && t.poll.value.work.Busy? ==> TaskOk(t, t.poll.value.work.task)
  }

  lemma PollApplyKeepsTask(st: State, cfg: Config, t: Task, owner: Option<Address>, fails: bool)
    requires st.poll.Some?
    ensures PollTaskOk(DoPollApply(st, cfg, t, owner, fails))
  {
  }

  lemma PollKeepsTask(st: State, cfg: Config, chain: seq<Log>, step: Step)
    requires PollTaskOk(st) && !IsFlush(step)
    ensures PollTaskOk(Next(st, cfg, chain, step))
  {
    if step.PollApply? {
      if st.poll.Some? && st.poll.value.work.Busy? {
        PollApplyKeepsTask(st, cfg, st.poll.value.work.task, step.owner, step.fails);
      }
    } else {
      OthersOnlyAdd(st, cfg, chain, step);
    }
  }

  lemma KeepsRemoving(st: State, cfg: Config, chain: seq<Log>, step: Step)
    requires RemovingIsDecided(st)
    ensures RemovingIsDecided(Next(st, cfg, chain, step))
  {
    var t := Next(st, cfg, chain, step);
    if IsFlush(step) {
      FlushMoves(st, cfg, chain, step);
    } else {
      OthersOnlyAdd(st, cfg, chain, step);
      PollKeepsTask(st, cfg, chain, step);
    }
    forall f | f in t.flushes
      ensures TaskOk(t, t.flushes[f])
    {
      assert f in st.flushes ==> TaskOk(st, st.flushes[f]);
    }
  }

  ghost predicate HasKey(st: State, l: Log) {
    l.WellFormed? ==> KeyOf(l.ev) in st.decided || KeyOf(l.ev) in st.pending
  }

  /** What one step may make of a batch: the next log goes up when the log was malformed, queued or done with. */
  ghost predicate BatchMoved(b: Batch, t: State) {
    t.poll.Some? ==>
      var c := t.poll.value;
      && c.logs == b.logs && c.target == b.target && WorkOk(c)
      && (c.next == b.next || (c.next == b.next + 1 && c.work == Idle && b.next < |b.logs|))
      && (c.next == b.next + 1 && b.work != Flushing ==> HasKey(t, b.logs[b.next]))
      && (c.work == Flushing && b.work != Flushing ==> HasKey(t, b.logs[b.next]))
  }

  lemma PollLogMoves(st: State, cfg: Config, current: Option<nat>)
    requires st.poll.Some? && WorkOk(st.poll.value)
    requires st.poll.value.work == Idle && st.poll.value.next < |st.poll.value.logs|
    ensures BatchMoved(st.poll.value, DoPollLog(st, cfg, current))
  {
  }

  lemma PollApplyMoves(st: State, cfg: Config, owner: Option<Address>, fails: bool)
    requires st.poll.Some? && WorkOk(st.poll.value) && st.poll.value.work.Busy?
    ensures BatchMoved(st.poll.value, DoPollApply(st, cfg, st.poll.value.work.task, owner, fails))
  {
  }

  lemma PollStepMoves(st: State, cfg: Config, chain: seq<Log>, step: Step)
    requires st.poll.Some? && WorkOk(st.poll.value) && PollTaskOk(st)
    requires step.PollDurable? || step.PollFlushed? || step.PollEnd?
    ensures BatchMoved(st.poll.value, PollStep(st, cfg, chain, step))
    ensures PollStep(st, cfg, chain, step).poll.Some? ==> PollStep(st, cfg, chain, step).lastPolled == st.lastPolled
  {
  }

  lemma OtherStepMoves(st: State, cfg: Config, chain: seq<Log>, step: Step)
    requires st.poll.Some? && WorkOk(st.poll.value)
    requires !(step.PollLog? || step.PollApply? || step.PollDurable? || step.PollFlushed? || step.PollEnd?)
    ensures Next(st, cfg, chain, step).poll == st.poll && Next(st, cfg, chain, step).lastPolled == st.lastPolled
  {
  }

  lemma BatchMoves(st: State, cfg: Config, chain: seq<Log>, step: Step)
    requires st.poll.Some? && WorkOk(st.poll.value) && RemovingIsDecided(st)
    ensures BatchMoved(st.poll.value, Next(st, cfg, chain, step))
    ensures Next(st, cfg, chain, step).poll.Some? ==> Next(st, cfg, chain, step).lastPolled == st.lastPolled
  {
    var b := st.poll.value;
    if step.PollLog? {
      if b.work == Idle && b.next < |b.logs| {
        PollLogMoves(st, cfg, step.current);
      }
    } else if step.PollApply? {
      if b.work.Busy? && b.work.task.stage == Applying {
        PollApplyMoves(st, cfg, step.owner, step.fails);
      }
    } else if step.PollDurable? || step.PollFlushed? || step.PollEnd? {
      PollStepMoves(st, cfg, chain, step);
    } else {
      OtherStepMoves(st, cfg, chain, step);
    }
  }

  lemma KeepsBatch(st: State, cfg: Config, chain: seq<Log>, step: Step)
    requires BatchInv(st, chain) && RemovingIsDecided(st)
    ensures BatchInv(Next(st, cfg, chain, step), chain)
  {
    var t := Next(st, cfg, chain, step);
    if st.poll.Some? && t.poll.Some? {
      var b, c := st.poll.value, t.poll.value;
      BatchMoves(st, cfg, chain, step);
      LogsStayCovered(st, cfg, chain, step, b.logs[..b.next]);
      if b.work == Flushing {
        CoveredStays(st, cfg, chain, step, KeyOf(b.logs[b.next].ev));
      }
      if c.next == b.next + 1 {
        assert b.logs[..b.next + 1] == b.logs[..b.next] + [b.logs[b.next]];
      }
    }
  }

  lemma {:induction false} LogsInSplit(chain: seq<Log>, lo: int, mid: int, hi: int, l: Log)
    requires lo <= mid + 1 <= hi + 1 && l in LogsIn(chain, lo, hi)
    ensures l in LogsIn(chain, lo, mid) || l in LogsIn(chain, mid + 1, hi)
  {
    if chain != [] {
      var init := chain[..|chain| - 1];
      if l in LogsIn(init, lo, hi) {
        LogsInSplit(init, lo, mid, hi, l);
      }
    }
  }

  lemma JoinCovered(st: State, chain: seq<Log>, lo: int, mid: int, hi: int)
    requires lo <= mid + 1 <= hi + 1
    requires LogsCovered(st, LogsIn(chain, lo, mid)) && LogsCovered(st, LogsIn(chain, mid + 1, hi))
    ensures LogsCovered(st, LogsIn(chain, lo, hi))
  {
    var all := LogsIn(chain, lo, hi);
    forall i | 0 <= i < |all| && all[i].WellFormed?
      ensures Covered(st, KeyOf(all[i].ev))
    {
      LogsInSplit(chain, lo, mid, hi, all[i]);
    }
  }

  /** Only the end of a whole batch moves the last polled block. */
  lemma LastPolledMoves(st: State, cfg: Config, chain: seq<Log>, step: Step)
    requires Next(st, cfg, chain, step).lastPolled != st.lastPolled
    ensures st.poll.Some? && st.poll.value.next == |st.poll.value.logs|
    ensures Next(st, cfg, chain, step) == st.(poll := None, lastPolled := st.poll.value.target)
  {
    OthersKeepLastPolled(st, cfg, chain, step);
  }

  lemma PollLogKeepsLastPolled(st: State, cfg: Config, current: Option<nat>)
    requires st.poll.Some? && st.poll.value.next < |st.poll.value.logs|
    ensures DoPollLog(st, cfg, current).lastPolled == st.lastPolled
  {
  }

  lemma OthersKeepLastPolled(st: State, cfg: Config, chain: seq<Log>, step: Step)
    ensures !step.PollEnd? ==> Next(st, cfg, chain, step).lastPolled == st.lastPolled
  {
    if step.PollLog? && st.poll.Some? && st.poll.value.next < |st.poll.value.logs| {
      PollLogKeepsLastPolled(st, cfg, step.current);
    }
  }

  lemma PollEndCovers(st: State, chain: seq<Log>, start: nat)
    requires start <= st.lastPolled && st.poll.Some? && st.poll.value.next == |st.poll.value.logs|
    requires LogsCovered(st, LogsIn(chain, start + 1, st.lastPolled)) && BatchInv(st, chain)
    ensures LogsCovered(st, LogsIn(chain, start + 1, st.poll.value.target))
  {
    var b := st.poll.value;
    assert b.logs[..b.next] == b.logs;
    JoinCovered(st, chain, start + 1, st.lastPolled, b.target);
  }

  lemma SameCovered(st: State, t: State, logs: seq<Log>)
    requires LogsCovered(st, logs)
    requires t.pending == st.pending && t.decided == st.decided && t.flushes == st.flushes
    ensures LogsCovered(t, logs)
  {
    forall i | 0 <= i < |logs| && logs[i].WellFormed?
      ensures Covered(t, KeyOf(logs[i].ev))
    {
      assert InFlight(st, KeyOf(logs[i].ev)) ==> InFlight(t, KeyOf(logs[i].ev));
    }
  }

  lemma NextKeepsPolled(st: State, cfg: Config, chain: seq<Log>, step: Step, start: nat)
    requires Inv(st, chain, start)
    ensures start <= Next(st, cfg, chain, step).lastPolled
    ensures LogsCovered(Next(st, cfg, chain, step), LogsIn(chain, start + 1, Next(st, cfg, chain, step).lastPolled))
  {
    var t := Next(st, cfg, chain, step);
    if t.lastPolled != st.lastPolled {
      LastPolledMoves(st, cfg, chain, step);
      PollEndCovers(st, chain, start);
      SameCovered(st, t, LogsIn(chain, start + 1, st.poll.value.target));
    } else {
      LogsStayCovered(st, cfg, chain, step, LogsIn(chain, start + 1, st.lastPolled));
    }
  }

  lemma NextKeepsInv(st: State, cfg: Config, chain: seq<Log>, step: Step, start: nat)
    requires Inv(st, chain, start)
    ensures Inv(Next(st, cfg, chain, step), chain, start)
  {
    KeepsRemoving(st, cfg, chain, step);
    KeepsBatch(st, cfg, chain, step);
    NextKeepsPolled(st, cfg, chain, step, start);
  }

  lemma {:induction false} RunKeepsInv(
    store: Store, durable: map<Key, Event>, head: nat, cfg: Config, chain: seq<Log>, steps: seq<Step>)
    ensures Inv(Run(Start(store, durable, head), cfg, chain, steps), chain, head)
  {
    if steps == [] {
      NoLogsIn(chain, head);
    } else {
      RunKeepsInv(store, durable, head, cfg, chain, steps[..|steps| - 1]);
      NextKeepsInv(Run(Start(store, durable, head), cfg, chain, steps[..|steps| - 1]), cfg, chain,
                   steps[|steps| - 1], head);
    }
  }

  lemma {:induction false} NoLogsIn(chain: seq<Log>, head: nat)
    ensures LogsIn(chain, head + 1, head) == []
  {
    if chain != [] {
      NoLogsIn(chain[..|chain| - 1], head);
    }
  }

  lemma {:induction false} InRangeIsListed(chain: seq<Log>, lo: int, hi: int, l: Log)
    requires l in chain && lo <= BlockOf(l) <= hi
    ensures l in LogsIn(chain, lo, hi)
  {
    if l in chain[..|chain| - 1] {
      InRangeIsListed(chain[..|chain| - 1], lo, hi, l);
    }
  }

  // ---------------------------------------------------------------- decided means decided for good

  /** The watcher waits for more blocks, or for the transaction of the enrollment, under these two verdicts. */
  predicate IsFinal(v: Verdict) {
    v != PendingConfirmations && v != TransactionPending
  }

  predicate TaskConfirmed(cfg: Config, t: Task) {
    EnoughConfirmations(t.ev.block, t.head, cfg.confirmations)
  }

  predicate WorkConfirmed(st: State, cfg: Config) {
    st.poll.Some? && st.poll.value.work.Busy? ==> TaskConfirmed(cfg, st.poll.value.work.task)
  }

  ghost predicate FlushesConfirmed(st: State, cfg: Config) {
    forall f | f in st.flushes :: TaskConfirmed(cfg, st.flushes[f])
  }

  ghost predicate DecidedFinal(st: State) {
    forall key | key in st.decided :: IsFinal(st.decided[key])
  }

  /** Only confirmed events are applied, so no verdict that is recorded leaves anything to wait for. */
  ghost predicate FinalInv(st: State, cfg: Config) {
    WorkConfirmed(st, cfg) && FlushesConfirmed(st, cfg) && DecidedFinal(st)
  }

  lemma VerdictIsFinal(st: State, cfg: Config, t: Task, owner: Option<Address>)
    requires TaskConfirmed(cfg, t)
    ensures VerdictNow(st, cfg, t, owner) == TransactionPending ==> t.ev.RegisteredEvent?
    ensures VerdictNow(st, cfg, t, owner) != PendingConfirmations
  {
    assert Confirmed(t.ev, OptionsAt(cfg, t.head, owner));
  }

  lemma WithVerdictKeepsFinal(st: State, cfg: Config, t: Task, owner: Option<Address>)
    requires DecidedFinal(st) && TaskConfirmed(cfg, t)
    ensures DecidedFinal(WithVerdict(st, cfg, t, owner))
  {
    VerdictIsFinal(st, cfg, t, owner);
  }

  lemma PollLogKeepsFinal(st: State, cfg: Config, head: Option<nat>)
    requires st.poll.Some? && st.poll.value.next < |st.poll.value.logs| && FinalInv(st, cfg)
    ensures FinalInv(DoPollLog(st, cfg, head), cfg)
  {
  }

  lemma PollApplyKeepsFinal(st: State, cfg: Config, t: Task, owner: Option<Address>, fails: bool)
    requires st.poll.Some? && FinalInv(st, cfg) && TaskConfirmed(cfg, t)
    ensures FinalInv(DoPollApply(st, cfg, t, owner, fails), cfg)
  {
    WithVerdictKeepsFinal(st, cfg, t, owner);
  }

  lemma FlushTakeKeepsFinal(st: State, cfg: Config, f: nat, ev: Event, head: nat)
    requires FinalInv(st, cfg)
    ensures FinalInv(DoFlushTake(st, cfg, f, ev, head), cfg)
  {
  }

  lemma FlushApplyKeepsFinal(st: State, cfg: Config, f: nat, owner: Option<Address>, fails: bool)
    requires f in st.flushes && FinalInv(st, cfg)
    ensures FinalInv(DoFlushApply(st, cfg, f, owner, fails), cfg)
  {
    WithVerdictKeepsFinal(st, cfg, st.flushes[f], owner);
  }

  lemma FlushDurableKeepsFinal(st: State, cfg: Config, f: nat, fails: bool)
    requires f in st.flushes && FinalInv(st, cfg)
    ensures FinalInv(DoFlushDurable(st, f, fails), cfg)
  {
  }

  lemma NextKeepsFinal(st: State, cfg: Config, chain: seq<Log>, step: Step)
    requires FinalInv(st, cfg)
    ensures FinalInv(Next(st, cfg, chain, step), cfg)
  {
    if step.PollLog? {
      if st.poll.Some? && st.poll.value.work == Idle && st.poll.value.next < |st.poll.value.logs| {
        PollLogKeepsFinal(st, cfg, step.current);
      }
    } else if step.PollApply? {
      if st.poll.Some? && st.poll.value.work.Busy? {
        PollApplyKeepsFinal(st, cfg, st.poll.value.work.task, step.owner, step.fails);
      }
    } else if step.FlushTake? {
      FlushTakeKeepsFinal(st, cfg, step.flush, step.ev, step.head);
    } else if step.FlushApply? {
      if step.flush in st.flushes {
        FlushApplyKeepsFinal(st, cfg, step.flush, step.owner, step.fails);
      }
    } else if step.FlushDurable? {
      if step.flush in st.flushes {
        FlushDurableKeepsFinal(st, cfg, step.flush, step.fails);
      }
    }
  }

  lemma {:induction false} RunKeepsFinal(
    store: Store, durable: map<Key, Event>, head: nat, cfg: Config, chain: seq<Log>, steps: seq<Step>)
    ensures FinalInv(Run(Start(store, durable, head), cfg, chain, steps), cfg)
  {
    if steps != [] {
      RunKeepsFinal(store, durable, head, cfg, chain, steps[..|steps| - 1]);
      NextKeepsFinal(Run(Start(store, durable, head), cfg, chain, steps[..|steps| - 1]), cfg, chain, steps[|steps| - 1]);
    }
  }

  /** Decided for good, waiting in the queue, or being worked on by a flush. */
  ghost predicate Accounted(st: State, key: Key) {
    (key in st.decided && IsFinal(st.decided[key])) || key in st.pending || InFlight(st, key)
  }

  /** Every well-formed log of a polled block is decided for good, pending or in flight, whatever failed on the
      way: no verdict that asks to wait ever counts as a decision. */
  lemma NothingIsLost(
    store: Store, durable: map<Key, Event>, head: nat, cfg: Config, chain: seq<Log>, steps: seq<Step>, ev: Event)
    requires WellFormed(ev) in chain
    requires head < ev.block <= Run(Start(store, durable, head), cfg, chain, steps).lastPolled
    ensures Accounted(Run(Start(store, durable, head), cfg, chain, steps), KeyOf(ev))
  {
    var st := Run(Start(store, durable, head), cfg, chain, steps);
    RunKeepsInv(store, durable, head, cfg, chain, steps);
    RunKeepsFinal(store, durable, head, cfg, chain, steps);
    InRangeIsListed(chain, head + 1, st.lastPolled, WellFormed(ev));
    var logs := LogsIn(chain, head + 1, st.lastPolled);
    var i :| 0 <= i < |logs| && logs[i] == WellFormed(ev);
    assert Covered(st, KeyOf(logs[i].ev));
  }

  // ---------------------------------------------------------------- nothing is repeated

  ghost predicate DecidedInv(st: State, cfg: Config) {
    forall key | key in st.decided && (st.decided[key].Applied? || st.decided[key] == Duplicate) ::
      HasId(st.store.processed, EventId(cfg.chain, key.tx, key.logIndex))
  }

  lemma HasIdStays(store: Store, chain: nat, ev: Event, o: Options, id: EventId)
    requires HasId(store.processed, id)
    ensures HasId(Apply(store, chain, ev, o).processed, id)
  {
    var i :| 0 <= i < |store.processed| && store.processed[i].id == id;
    assert Apply(store, chain, ev, o).processed[i] == store.processed[i];
  }

  lemma ApplyKeepsDecided(st: State, cfg: Config, t: Task, owner: Option<Address>)
    requires StoreInv(st.store) && DecidedInv(st, cfg)
    ensures StoreInv(WithVerdict(st, cfg, t, owner).store) && DecidedInv(WithVerdict(st, cfg, t, owner), cfg)
  {
    var o := OptionsAt(cfg, t.head, owner);
    ApplyKeepsStoreInv(st.store, cfg.chain, t.ev, o);
    if VerdictOf(st.store, cfg.chain, t.ev, o).Applied? {
      ProcessedOnce(st.store, cfg.chain, t.ev, o, o);
    }
    var next := WithVerdict(st, cfg, t, owner);
    forall key | key in next.decided && (next.decided[key].Applied? || next.decided[key] == Duplicate)
      ensures HasId(next.store.processed, EventId(cfg.chain, key.tx, key.logIndex))
    {
      if HasId(st.store.processed, EventId(cfg.chain, key.tx, key.logIndex)) {
        HasIdStays(st.store, cfg.chain, t.ev, o, EventId(cfg.chain, key.tx, key.logIndex));
      }
    }
  }

  predicate SameStore(st: State, t: State) {
    t.store == st.store && t.decided == st.decided
  }

  lemma PollLogKeepsStore(st: State, cfg: Config, current: Option<nat>)
    requires st.poll.Some? && st.poll.value.next < |st.poll.value.logs|
    ensures SameStore(st, DoPollLog(st, cfg, current))
  {
  }

  lemma FlushDurableKeepsStore(st: State, f: nat, fails: bool)
    requires f in st.flushes
    ensures SameStore(st, DoFlushDurable(st, f, fails))
  {
  }

  lemma OthersKeepStore(st: State, cfg: Config, chain: seq<Log>, step: Step)
    requires !step.PollApply? && !step.FlushApply? && !step.Others?
    ensures SameStore(st, Next(st, cfg, chain, step))
  {
    if step.PollLog? {
      if st.poll.Some? && st.poll.value.next < |st.poll.value.logs| {
        PollLogKeepsStore(st, cfg, step.current);
      }
    } else if step.FlushDurable? {
      if step.flush in st.flushes {
        FlushDurableKeepsStore(st, step.flush, step.fails);
      }
    }
  }

  lemma PollApplyKeepsStore(st: State, cfg: Config, t: Task, owner: Option<Address>, fails: bool)
    requires st.poll.Some? && StoreInv(st.store) && DecidedInv(st, cfg)
    ensures StoreInv(DoPollApply(st, cfg, t, owner, fails).store) && DecidedInv(DoPollApply(st, cfg, t, owner, fails), cfg)
  {
    ApplyKeepsDecided(st, cfg, t, owner);
  }

  lemma FlushApplyKeepsStore(st: State, cfg: Config, f: nat, owner: Option<Address>, fails: bool)
    requires f in st.flushes && StoreInv(st.store) && DecidedInv(st, cfg)
    ensures StoreInv(DoFlushApply(st, cfg, f, owner, fails).store) && DecidedInv(DoFlushApply(st, cfg, f, owner, fails), cfg)
  {
    ApplyKeepsDecided(st, cfg, st.flushes[f], owner);
  }

  lemma NextKeepsStore(st: State, cfg: Config, chain: seq<Log>, step: Step)
    requires StoreInv(st.store) && DecidedInv(st, cfg)
    ensures StoreInv(Next(st, cfg, chain, step).store) && DecidedInv(Next(st, cfg, chain, step), cfg)
  {
    if step.PollApply? {
      if st.poll.Some? && st.poll.value.work.Busy? {
        PollApplyKeepsStore(st, cfg, st.poll.value.work.task, step.owner, step.fails);
      }
    } else if step.FlushApply? {
      if step.flush in st.flushes {
        FlushApplyKeepsStore(st, cfg, step.flush, step.owner, step.fails);
      }
    } else if step.Others? {
      var t := Next(st, cfg, chain, step);
      assert forall r | r in st.store.cursors :: CursorIsReached(st.store, r) ==> CursorIsReached(t.store, r);
    } else {
      OthersKeepStore(st, cfg, chain, step);
    }
  }

  /** In every run each event id is processed at most once, every cursor is the greatest position processed in
      its registry, and what was decided as applied or duplicate has been processed. */
  lemma {:induction false} EachEventOnceAndCursorsMaximal(
    first: State, cfg: Config, chain: seq<Log>, steps: seq<Step>)
    requires StoreInv(first.store) && DecidedInv(first, cfg)
    ensures StoreInv(Run(first, cfg, chain, steps).store) && DecidedInv(Run(first, cfg, chain, steps), cfg)
  {
    if steps != [] {
      EachEventOnceAndCursorsMaximal(first, cfg, chain, steps[..|steps| - 1]);
      NextKeepsStore(Run(first, cfg, chain, steps[..|steps| - 1]), cfg, chain, steps[|steps| - 1]);
    }
  }
}
