/** The provider-side idempotency primitive of yuno_mock/src/idempotency/primitive.ts, and the request
    handlers around it: at most one charge for each key, whatever is retried. */
module ProviderIdempotency {
  import opened Outcomes
  import opened Text

  datatype Response = Response(status: int, body: string)

  datatype Record = InProgress | Completed(response: Response) | ConsumedWithoutResult

  datatype BeginResult = Acquired | Replay(response: Response) | StillInProgress | AlreadyConsumed | EmptyKey

  /** Records are found by scope and key. */
  type Records = map<(string, string), Record>

  function Begun(records: Records, k: (string, string)): BeginResult {
    if Trim(k.1) == "" then EmptyKey
    else if k !in records then Acquired
    else
      match records[k]
      case Completed(r) => Replay(r)
      case InProgress => StillInProgress
      case ConsumedWithoutResult => AlreadyConsumed
  }

  predicate Open(records: Records, k: (string, string)) {
    k in records && records[k] == InProgress
  }

  class ProviderIdempotency {
    var records: Records

    constructor ()
      ensures records == map[]
    {
      records := map[];
    }

    method Begin(k: (string, string)) returns (r: BeginResult)
      modifies this
      ensures r == Begun(old(records), k)
      ensures records == if r == Acquired then old(records)[k := InProgress] else old(records)
    {
      if Trim(k.1) == "" {
        return EmptyKey;
      }
      if k !in records {
        records := records[k := InProgress];
        return Acquired;
      }
      match records[k]
      case Completed(response) => return Replay(response);
      case InProgress => return StillInProgress;
      case ConsumedWithoutResult => return AlreadyConsumed;
    }

    /** Throws unless the record is in progress. */
    method Complete(k: (string, string), response: Response) returns (ok: bool)
      modifies this
      ensures ok <==> Open(old(records), k)
      ensures records == if ok then old(records)[k := Completed(response)] else old(records)
    {
      if k !in records || records[k] != InProgress {
        return false;
      }
      records := records[k := Completed(response)];
      return true;
    }

    method ConsumeWithoutResult(k: (string, string)) returns (ok: bool)
      modifies this
      ensures ok <==> Open(old(records), k)
      ensures records == if ok then old(records)[k := Record.ConsumedWithoutResult] else old(records)
    {
      if k !in records || records[k] != InProgress {
        return false;
      }
      records := records[k := Record.ConsumedWithoutResult];
      return true;
    }

    method AbandonWithoutConsume(k: (string, string))
      modifies this
      ensures records == if Open(old(records), k) then old(records) - {k} else old(records)
    {
      if k in records && records[k] == InProgress {
        records := records - {k};
      }
    }
  }

  // ---------------------------------------------------------------- handlers

  /** A request being handled. It charges only after it acquired its key, abandons only before it charges,
      and may stop for ever at any point. */
  datatype Phase = Arrived | Holding | Charged | Ended

  datatype Handler = Handler(key: (string, string), phase: Phase)

  datatype State = State(records: Records, handlers: seq<Handler>, charges: seq<(string, string)>)

  datatype Step =
    | Deliver(key: (string, string))
    | Begin(h: nat)
    | Charge(h: nat)
    | Complete(h: nat, response: Response)
    | Consume(h: nat)
    | Abandon(h: nat)

  const INITIAL := State(map[], [], [])

  predicate HandlerIn(st: State, h: nat, phases: set<Phase>) {
    h < |st.handlers| && st.handlers[h].phase in phases
  }

  function Move(st: State, h: nat, phase: Phase): State
    requires h < |st.handlers|
  {
    st.(handlers := st.handlers[h := st.handlers[h].(phase := phase)])
  }

  /** A step that is not enabled changes nothing. */
  function Next(st: State, step: Step): State {
    match step
    case Deliver(key) => st.(handlers := st.handlers + [Handler(key, Arrived)])
    case Begin(h) =>
      if !HandlerIn(st, h, {Arrived}) then st
      else
        var k := st.handlers[h].key;
        if Begun(st.records, k) == Acquired
        then Move(st, h, Holding).(records := st.records[k := InProgress])
        else Move(st, h, Ended)
    case Charge(h) =>
      if HandlerIn(st, h, {Holding})
      then Move(st, h, Charged).(charges := st.charges + [st.handlers[h].key])
      else st
    case Complete(h, response) =>
      if HandlerIn(st, h, {Holding, Charged}) && Open(st.records, st.handlers[h].key)
      then Move(st, h, Ended).(records := st.records[st.handlers[h].key := Completed(response)])
      else st
    case Consume(h) =>
      if HandlerIn(st, h, {Holding, Charged}) && Open(st.records, st.handlers[h].key)
      then Move(st, h, Ended).(records := st.records[st.handlers[h].key := ConsumedWithoutResult])
      else st
    case Abandon(h) =>
      if HandlerIn(st, h, {Holding}) && Open(st.records, st.handlers[h].key)
      then Move(st, h, Ended).(records := st.records - {st.handlers[h].key})
      else st
  }

  function ChargesOf(charges: seq<(string, string)>, k: (string, string)): nat {
    if charges == [] then 0
    else ChargesOf(charges[..|charges| - 1], k) + if charges[|charges| - 1] == k then 1 else 0
  }

  predicate Active(h: Handler) {
    h.phase == Holding || h.phase == Charged
  }

  /** Whoever is active holds the only open record of its key, and a key without a record was never charged. */
  ghost predicate Inv(st: State) {
    && (forall h | 0 <= h < |st.handlers| && Active(st.handlers[h]) :: Open(st.records, st.handlers[h].key))
    && (forall g, h | 0 <= g < h < |st.handlers| && Active(st.handlers[g]) && Active(st.handlers[h]) ::
          st.handlers[g].key != st.handlers[h].key)
    && (forall k :: ChargesOf(st.charges, k) <= 1)
    && (forall k | k !in st.records :: ChargesOf(st.charges, k) == 0)
    && (forall h | 0 <= h < |st.handlers| && st.handlers[h].phase == Holding ::
          ChargesOf(st.charges, st.handlers[h].key) == 0)
  }

  lemma BeginKeepsInv(st: State, h: nat)
    requires Inv(st)
    ensures Inv(Next(st, Begin(h)))
  {
  }

  lemma ChargeKeepsInv(st: State, h: nat)
    requires Inv(st)
    ensures Inv(Next(st, Charge(h)))
  {
    var next := Next(st, Charge(h));
    if next != st {
      assert next.charges[..|st.charges|] == st.charges;
    }
  }

  lemma DeliverKeepsInv(st: State, key: (string, string))
    requires Inv(st)
    ensures Inv(Next(st, Deliver(key)))
  {
  }

  /** Closing a record: nobody else can be active for its key. */
  lemma CloseKeepsInv(st: State, h: nat, closed: Option<Record>)
    requires Inv(st) && HandlerIn(st, h, {Holding, Charged}) && (closed.None? ==> HandlerIn(st, h, {Holding}))
    ensures var k := st.handlers[h].key;
            Inv(Move(st, h, Ended).(records := if closed.Some? then st.records[k := closed.value] else st.records - {k}))
  {
    assert Active(st.handlers[h]);
    assert forall g | 0 <= g < |st.handlers| && g != h && Active(st.handlers[g]) ::
        st.handlers[g].key != st.handlers[h].key;
  }

  lemma NextKeepsInv(st: State, step: Step)
    requires Inv(st)
    ensures Inv(Next(st, step))
  {
    match step
    case Deliver(key) => DeliverKeepsInv(st, key);
    case Begin(h) => BeginKeepsInv(st, h);
    case Charge(h) => ChargeKeepsInv(st, h);
    case Complete(h, response) =>
      if HandlerIn(st, h, {Holding, Charged}) {
        CloseKeepsInv(st, h, Some(Completed(response)));
      }
    case Consume(h) =>
      if HandlerIn(st, h, {Holding, Charged}) {
        CloseKeepsInv(st, h, Some(ConsumedWithoutResult));
      }
    case Abandon(h) =>
      if HandlerIn(st, h, {Holding}) {
        CloseKeepsInv(st, h, None);
      }
  }

  function Run(steps: seq<Step>): State {
    if steps == [] then INITIAL else Next(Run(steps[..|steps| - 1]), steps[|steps| - 1])
  }

  /** Under any interleaving of deliveries, retries and crashes, each key is charged at most once. */
  lemma {:induction false} AtMostOneCharge(steps: seq<Step>, k: (string, string))
    ensures Inv(Run(steps))
    ensures ChargesOf(Run(steps).charges, k) <= 1
  {
    if steps != [] {
      AtMostOneCharge(steps[..|steps| - 1], k);
      NextKeepsInv(Run(steps[..|steps| - 1]), steps[|steps| - 1]);
    }
  }

  /** A completed record is never changed: every later request with its key replays the stored response. */
  lemma CompletedIsReplayed(st: State, step: Step, k: (string, string))
    requires Inv(st) && k in st.records && st.records[k].Completed? && Trim(k.1) != ""
    ensures k in Next(st, step).records && Next(st, step).records[k] == st.records[k]
    ensures Begun(Next(st, step).records, k) == Replay(st.records[k].response)
  {
  }
}
