/** DPoP replay protection (src/auth/dpop.ts:127-133 and 235-237, src/persistence/repository.ts:278-294; section
    11.1 of RFC 9449): the time check of a proof, and a ledger of used ids whose rows are purged when they
    expire. Clock times are milliseconds; the iat of a proof is any number of seconds. */
module DpopReplay {
  import opened Outcomes

  const SKEW_SECONDS: int := 300
  const RETENTION_SECONDS: int := 360
  const SAFE_DELAY_MS: int := 59_000

  datatype Row = Row(jti: string, expiresAt: int)

  datatype Proof = Proof(jti: string, iat: real)

  function SecondsOf(now: nat): int {
    now / 1000
  }

  /** |now - iat| <= 300 with the clock floored to seconds. */
  predicate InWindow(iat: real, now: nat) {
    -(SKEW_SECONDS as real) <= SecondsOf(now) as real - iat <= SKEW_SECONDS as real
  }

  /** When the row of a proof expires; a Date drops the fraction of a millisecond. */
  function Expiry(iat: real): int {
    ((iat + RETENTION_SECONDS as real) * 1000.0).Floor
  }

  /** The rows that have not expired, in their order. */
  function Kept(rows: seq<Row>, now: nat): (r: seq<Row>)
    ensures forall x :: x in r <==> x in rows && x.expiresAt > now
  {
    if rows == [] then []
    else Kept(rows[..|rows| - 1], now) + if rows[|rows| - 1].expiresAt > now then [rows[|rows| - 1]] else []
  }

  predicate HasJti(rows: seq<Row>, jti: string) {
    exists i :: 0 <= i < |rows| && rows[i].jti == jti
  }

  function Consumed(rows: seq<Row>, p: Proof, now: nat): seq<Row> {
    var kept := Kept(rows, now);
    if HasJti(kept, p.jti) then kept else kept + [Row(p.jti, Expiry(p.iat))]
  }

  class ReplayLedger {
    var rows: seq<Row>

    constructor ()
      ensures rows == []
    {
      rows := [];
    }

    method ConsumeAtomic(p: Proof, now: nat) returns (consumed: bool)
      modifies this
      ensures consumed == !HasJti(Kept(old(rows), now), p.jti)
      ensures rows == Consumed(old(rows), p, now)
    {
      var kept: seq<Row> := [];
      var i := 0;
      while i < |rows|
        invariant 0 <= i <= |rows| && rows == old(rows)
        invariant kept == Kept(rows[..i], now)
      {
        assert rows[..i + 1][..i] == rows[..i];
        if rows[i].expiresAt > now {
          kept := kept + [rows[i]];
        }
        i := i + 1;
      }
      assert rows[..i] == rows;
      rows := kept;
      consumed := !HasJti(rows, p.jti);
      if consumed {
        rows := rows + [Row(p.jti, Expiry(p.iat))];
      }
    }
  }

  // ---------------------------------------------------------------- runs

  datatype Checked = Checked(proof: Proof, at: nat)

  datatype State = State(rows: seq<Row>, calls: map<nat, Checked>, accepted: seq<Proof>, clock: nat)

  datatype Step = Check(call: nat, proof: Proof, at: nat) | Consume(call: nat, at: nat)

  /** The clock never goes back. `limit` bounds the time a request may spend between its two steps; the owner
      lookup that may come in between is what takes the time. */
  function Next(st: State, limit: int, step: Step): State {
    if step.at < st.clock then st
    else
      match step
      case Check(call, p, at) =>
        if call in st.calls || !InWindow(p.iat, at) then st.(clock := at)
        else st.(calls := st.calls[call := Checked(p, at)], clock := at)
      case Consume(call, at) =>
        if call !in st.calls || at - st.calls[call].at > limit then st.(clock := at)
        else
          var p := st.calls[call].proof;
          State(Consumed(st.rows, p, at), st.calls - {call},
                if HasJti(Kept(st.rows, at), p.jti) then st.accepted else st.accepted + [p], at)
  }

  function Run(limit: int, steps: seq<Step>): State {
    if steps == [] then State([], map[], [], 0) else Next(Run(limit, steps[..|steps| - 1]), limit, steps[|steps| - 1])
  }

  ghost predicate AcceptedOnce(accepted: seq<Proof>) {
    forall i, j | 0 <= i < j < |accepted| :: accepted[i] != accepted[j]
  }

  /** The row of an accepted proof is there until it expires. */
  ghost predicate Remembered(st: State, p: Proof) {
    Row(p.jti, Expiry(p.iat)) in st.rows || Expiry(p.iat) <= st.clock
  }

  ghost predicate Inv(st: State) {
    && AcceptedOnce(st.accepted)
    && (forall i | 0 <= i < |st.accepted| :: Remembered(st, st.accepted[i]))
    && (forall c | c in st.calls :: InWindow(st.calls[c].proof.iat, st.calls[c].at) && st.calls[c].at <= st.clock)
  }

  /** A proof that passed its check less than 59 seconds ago has not expired from the ledger. */
  lemma FreshBeforeExpiry(iat: real, checkedAt: nat, at: nat)
    requires InWindow(iat, checkedAt) && at - checkedAt <= SAFE_DELAY_MS
    ensures at < Expiry(iat)
  {
    var s := SecondsOf(checkedAt);
    assert checkedAt <= 1000 * s + 999;
    assert (iat + RETENTION_SECONDS as real) * 1000.0 >= (s + 60) as real * 1000.0;
    assert Expiry(iat) >= (s + 60) * 1000;
  }

  lemma ConsumeKeepsInv(st: State, limit: int, call: nat, at: nat)
    requires Inv(st) && limit <= SAFE_DELAY_MS && call in st.calls && st.clock <= at && at - st.calls[call].at <= limit
    ensures Inv(Next(st, limit, Consume(call, at)))
  {
    var p, t := st.calls[call].proof, Next(st, limit, Consume(call, at));
    FreshBeforeExpiry(p.iat, st.calls[call].at, at);
    forall i | 0 <= i < |st.accepted|
      ensures Remembered(t, st.accepted[i])
      ensures t.accepted != st.accepted ==> st.accepted[i] != p
    {
      assert Remembered(st, st.accepted[i]);
      var row := Row(st.accepted[i].jti, Expiry(st.accepted[i].iat));
      if row in st.rows && row.expiresAt > at {
        assert row in Kept(st.rows, at);
      }
    }
  }

  lemma {:induction false} SafeRunsAcceptOnce(limit: int, steps: seq<Step>)
    requires limit <= SAFE_DELAY_MS
    ensures Inv(Run(limit, steps))
  {
    if steps != [] {
      var st, step := Run(limit, steps[..|steps| - 1]), steps[|steps| - 1];
      SafeRunsAcceptOnce(limit, steps[..|steps| - 1]);
      if step.Consume? && step.call in st.calls && st.clock <= step.at && step.at - st.calls[step.call].at <= limit {
        ConsumeKeepsInv(st, limit, step.call, step.at);
      } else {
        var t := Next(st, limit, step);
        forall i | 0 <= i < |t.accepted|
          ensures Remembered(t, t.accepted[i])
        {
          assert Remembered(st, st.accepted[i]);
        }
      }
    }
  }

  // ---------------------------------------------------------------- the bound is exact

  const LATE: Proof := Proof("jti", 0.0)

  lemma RunStep(limit: int, steps: seq<Step>, step: Step)
    ensures Run(limit, steps + [step]) == Next(Run(limit, steps), limit, step)
  {
    assert (steps + [step])[..|steps|] == steps;
  }

  lemma LateTimes()
    ensures InWindow(0.0, 0) && InWindow(0.0, 300_999) && Expiry(0.0) == 360_000
  {
  }

  /** Used at once, checked again in the last millisecond of its window, and used again when its row expires. */
  function DoubleUse(): seq<Step> {
    FirstUse() + [Check(1, LATE, 300_999)] + [Consume(1, 360_000)]
  }

  function FirstUse(): seq<Step> {
    [Check(0, LATE, 0)] + [Consume(0, 0)]
  }

  lemma FirstUseRun(limit: int)
    requires limit > SAFE_DELAY_MS
    ensures Run(limit, FirstUse()) == State([Row("jti", 360_000)], map[], [LATE], 0)
  {
    LateTimes();
    assert Run(limit, []) == State([], map[], [], 0);
    RunStep(limit, [], Check(0, LATE, 0));
    assert [] + [Check(0, LATE, 0)] == [Check(0, LATE, 0)];
    var s1 := State([], map[0 := Checked(LATE, 0)], [], 0);
    assert Run(limit, [Check(0, LATE, 0)]) == s1;
    RunStep(limit, [Check(0, LATE, 0)], Consume(0, 0));
    assert !HasJti(Kept([], 0), "jti");
    assert s1.calls - {0} == map[];
  }

  lemma DoubleUseRun(limit: int)
    requires limit > SAFE_DELAY_MS
    ensures Run(limit, DoubleUse()).accepted == [LATE, LATE]
  {
    LateTimes();
    FirstUseRun(limit);
    RunStep(limit, FirstUse(), Check(1, LATE, 300_999));
    RunStep(limit, FirstUse() + [Check(1, LATE, 300_999)], Consume(1, 360_000));
    var rows := [Row("jti", 360_000)];
    assert Kept(rows, 360_000) == [];
  }

  /** A proof is accepted at most once in every run with a nondecreasing clock, exactly when no request spends
      more than 59 seconds between its time check and its consume. */
  lemma AtMostOnceIff(limit: int)
    ensures (forall steps :: AcceptedOnce(Run(limit, steps).accepted)) <==> limit <= SAFE_DELAY_MS
  {
    if limit <= SAFE_DELAY_MS {
      forall steps
        ensures AcceptedOnce(Run(limit, steps).accepted)
      {
        SafeRunsAcceptOnce(limit, steps);
      }
    } else {
      DoubleUseRun(limit);
      var a := Run(limit, DoubleUse()).accepted;
      assert a[0] == a[1];
    }
  }

  // ---------------------------------------------------------------- what decides about one proof

  /** The row of some accepted proof. */
  ghost predicate Accepts(accepted: seq<Proof>, r: Row) {
    exists i :: 0 <= i < |accepted| && r == Row(accepted[i].jti, Expiry(accepted[i].iat))
  }

  /** The ledger holds the rows of accepted proofs, and those of all that have not expired. */
  ghost predicate LedgerInv(st: State) {
    && (forall r | r in st.rows :: Accepts(st.accepted, r))
    && (forall i | 0 <= i < |st.accepted| :: Remembered(st, st.accepted[i]))
  }

  lemma ConsumeKeepsLedger(st: State, limit: int, call: nat, at: nat)
    requires LedgerInv(st) && call in st.calls && st.clock <= at && at - st.calls[call].at <= limit
    ensures LedgerInv(Next(st, limit, Consume(call, at)))
  {
    var p, t := st.calls[call].proof, Next(st, limit, Consume(call, at));
    forall r | r in t.rows
      ensures Accepts(t.accepted, r)
    {
      if r in st.rows {
        var i :| 0 <= i < |st.accepted| && r == Row(st.accepted[i].jti, Expiry(st.accepted[i].iat));
        assert t.accepted[i] == st.accepted[i];
      } else {
        assert t.accepted[|st.accepted|] == p;
      }
    }
    forall i | 0 <= i < |t.accepted|
      ensures Remembered(t, t.accepted[i])
    {
      if i < |st.accepted| {
        assert Remembered(st, st.accepted[i]);
        var row := Row(st.accepted[i].jti, Expiry(st.accepted[i].iat));
        if row in st.rows && row.expiresAt > at {
          assert row in Kept(st.rows, at);
        }
      }
    }
  }

  lemma {:induction false} EveryRunKeepsLedger(limit: int, steps: seq<Step>)
    ensures LedgerInv(Run(limit, steps))
  {
    if steps != [] {
      var st, step := Run(limit, steps[..|steps| - 1]), steps[|steps| - 1];
      EveryRunKeepsLedger(limit, steps[..|steps| - 1]);
      if step.Consume? && step.call in st.calls && st.clock <= step.at && step.at - st.calls[step.call].at <= limit {
        ConsumeKeepsLedger(st, limit, step.call, step.at);
      } else {
        forall i | 0 <= i < |st.accepted|
          ensures Remembered(Next(st, limit, step), st.accepted[i])
        {
          assert Remembered(st, st.accepted[i]);
        }
      }
    }
  }

  /** Every proof with this id that was accepted has expired. */
  predicate Unused(accepted: seq<Proof>, jti: string, at: nat) {
    forall i | 0 <= i < |accepted| && accepted[i].jti == jti :: Expiry(accepted[i].iat) <= at
  }

  /** In every run, whatever the limit, a proof that passed its time check and is consumed in time is accepted exactly
      when every accepted proof with its id has expired. */
  lemma AcceptedIffUnused(limit: int, steps: seq<Step>, call: nat, at: nat)
    requires call in Run(limit, steps).calls && Run(limit, steps).clock <= at && at - Run(limit, steps).calls[call].at <= limit
    ensures var st := Run(limit, steps);
            var p := st.calls[call].proof;
            Next(st, limit, Consume(call, at)).accepted
            == if Unused(st.accepted, p.jti, at) then st.accepted + [p] else st.accepted
  {
    var st := Run(limit, steps);
    var jti, kept := st.calls[call].proof.jti, Kept(st.rows, at);
    EveryRunKeepsLedger(limit, steps);
    if HasJti(kept, jti) {
      var k :| 0 <= k < |kept| && kept[k].jti == jti;
      assert kept[k] in kept && Accepts(st.accepted, kept[k]);
    }
    if !Unused(st.accepted, jti, at) {
      var i :| 0 <= i < |st.accepted| && st.accepted[i].jti == jti && Expiry(st.accepted[i].iat) > at;
      assert Remembered(st, st.accepted[i]);
      assert Row(jti, Expiry(st.accepted[i].iat)) in kept;
    }
  }

  /** And it gets that far exactly when the second of the clock is within 300 seconds of the time it names. */
  lemma CheckedIff(st: State, limit: int, call: nat, p: Proof, at: nat)
    requires call !in st.calls && st.clock <= at
    ensures Next(st, limit, Check(call, p, at))
            == (if p.iat - 300.0 <= (at / 1000) as real <= p.iat + 300.0 then st.(calls := st.calls[call := Checked(p, at)])
                else st).(clock := at)
  {
  }
}
