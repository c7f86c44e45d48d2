/** The platform service composed with the provider it calls: how often one request is charged. */
module PaymentCharges {
  import opened Outcomes
  import opened Text
  import opened CanonicalJson
  import Platform = PaymentService
  import Provider = ProviderIdempotency

  /** The provider account all platform requests use. */
  const SCOPE := "account"

  /** `sent` holds the provider keys the platform has sent; the network may deliver each any number of times. */
  datatype State = State(platform: Platform.State, provider: Provider.State, sent: set<string>)

  datatype Step = OnPlatform(p: Platform.Step) | OnProvider(q: Provider.Step)

  const INITIAL := State(Platform.INITIAL, Provider.INITIAL, {})

  function SentBy(st: Platform.State): set<string> {
    set i | 0 <= i < |st.calls| && st.calls[i].phase.Calling? :: st.calls[i].ChargeKey()
  }

  function Next(st: State, step: Step): State {
    match step
    case OnPlatform(p) =>
      var platform := Platform.Next(st.platform, p);
      st.(platform := platform, sent := st.sent + SentBy(platform))
    case OnProvider(q) =>
      if q.Deliver? && !(q.key.0 == SCOPE && q.key.1 in st.sent) then st
      else st.(provider := Provider.Next(st.provider, q))
  }

  function Run(steps: seq<Step>): State {
    if steps == [] then INITIAL else Next(Run(steps[..|steps| - 1]), steps[|steps| - 1])
  }

  predicate CalledWith(calls: seq<Platform.Call>, providerKey: string) {
    exists i :: 0 <= i < |calls| && calls[i].ChargeKey() == providerKey
  }

  /** Every charge answers a key that some call sent. */
  ghost predicate Inv(st: State) {
    && Platform.Inv(st.platform)
    && Provider.Inv(st.provider)
    && (forall k | k in st.sent :: CalledWith(st.platform.calls, k))
    && (forall h | 0 <= h < |st.provider.handlers| ::
          st.provider.handlers[h].key.0 == SCOPE && st.provider.handlers[h].key.1 in st.sent)
    && (forall c | c in st.provider.charges :: c.0 == SCOPE && c.1 in st.sent)
  }

  lemma PlatformStepKeepsCalls(st: Platform.State, step: Platform.Step, i: nat)
    requires i < |st.calls|
    ensures i < |Platform.Next(st, step).calls|
    ensures Platform.Next(st, step).calls[i].actor == st.calls[i].actor
    ensures Platform.Next(st, step).calls[i].rawKey == st.calls[i].rawKey
  {
  }

  lemma PlatformKeepsInv(st: State, p: Platform.Step)
    requires Inv(st)
    ensures Inv(Next(st, OnPlatform(p)))
  {
    var next := Next(st, OnPlatform(p));
    Platform.NextKeepsInv(st.platform, p);
    forall k | k in next.sent
      ensures CalledWith(next.platform.calls, k)
    {
      if k in st.sent {
        var i: nat :| i < |st.platform.calls| && st.platform.calls[i].ChargeKey() == k;
        PlatformStepKeepsCalls(st.platform, p, i);
        assert next.platform.calls[i].ChargeKey() == k;
      }
    }
  }

  /** The provider charges only keys of its handlers, and a handler only comes from a delivery. */
  lemma ProviderKeys(st: Provider.State, q: Provider.Step)
    ensures var t := Provider.Next(st, q);
            && (forall h | 0 <= h < |t.handlers| ::
                  (h < |st.handlers| && t.handlers[h].key == st.handlers[h].key) || (q.Deliver? && t.handlers[h].key == q.key))
            && (forall c | c in t.charges ::
                  c in st.charges || exists h :: 0 <= h < |st.handlers| && st.handlers[h].key == c)
  {
  }

  lemma ProviderKeepsInv(st: State, q: Provider.Step)
    requires Inv(st)
    ensures Inv(Next(st, OnProvider(q)))
  {
    if q.Deliver? ==> q.key.0 == SCOPE && q.key.1 in st.sent {
      Provider.NextKeepsInv(st.provider, q);
      ProviderKeys(st.provider, q);
    }
  }

  lemma {:induction false} EveryRunKeepsInv(steps: seq<Step>)
    ensures Inv(Run(steps))
  {
    if steps != [] {
      var before, step := Run(steps[..|steps| - 1]), steps[|steps| - 1];
      EveryRunKeepsInv(steps[..|steps| - 1]);
      match step
      case OnPlatform(p) => PlatformKeepsInv(before, p);
      case OnProvider(q) => ProviderKeepsInv(before, q);
    }
  }

  lemma {:induction false} TwoChargesOfOneKey(charges: seq<(string, string)>, a: nat, b: nat)
    requires a < b < |charges| && charges[a] == charges[b]
    ensures Provider.ChargesOf(charges, charges[a]) >= 2
  {
    var front := charges[..|charges| - 1];
    if b < |charges| - 1 {
      TwoChargesOfOneKey(front, a, b);
    } else {
      OneCharge(front, a);
    }
  }

  lemma {:induction false} OneCharge(charges: seq<(string, string)>, a: nat)
    requires a < |charges|
    ensures Provider.ChargesOf(charges, charges[a]) >= 1
  {
    if a < |charges| - 1 {
      OneCharge(charges[..|charges| - 1], a);
    }
  }

  /** In every interleaving of platform calls, network deliveries, provider handlers and crashes, each charge
      belongs to a call, and two charges never belong to calls with the same actor and the same header. Two
      charges can share a platform record only when the header was spelled with different surrounding space. */
  lemma AtMostOneChargePerRequest(steps: seq<Step>, a: nat, b: nat, i: nat, j: nat)
    requires a < b < |Run(steps).provider.charges|
    requires i < |Run(steps).platform.calls| && j < |Run(steps).platform.calls|
    requires Run(steps).provider.charges[a] == (SCOPE, Run(steps).platform.calls[i].ChargeKey())
    requires Run(steps).provider.charges[b] == (SCOPE, Run(steps).platform.calls[j].ChargeKey())
    ensures var calls := Run(steps).platform.calls;
            && (calls[i].actor != calls[j].actor || calls[i].rawKey != calls[j].rawKey)
            && (calls[i].Key() == calls[j].Key() ==>
                  calls[i].rawKey != calls[j].rawKey && Trim(calls[i].rawKey) == Trim(calls[j].rawKey))
  {
    EveryRunKeepsInv(steps);
    var st := Run(steps);
    var charges, calls := st.provider.charges, st.platform.calls;
    if charges[a] == charges[b] {
      TwoChargesOfOneKey(charges, a, b);
    }
    assert charges[a] != charges[b] by {
      assert Provider.ChargesOf(charges, charges[a]) <= 1;
    }
    if calls[i].Key() == calls[j].Key() {
      Platform.IdemKeyIsInjective(calls[i].actor, Trim(calls[i].rawKey), calls[j].actor, Trim(calls[j].rawKey));
    }
  }

  // ---------------------------------------------------------------- two charges under one record

  function Extend(st: State, steps: seq<Step>): State
    decreases |steps|
  {
    if steps == [] then st else Extend(Next(st, steps[0]), steps[1..])
  }

  lemma {:induction false} RunExtends(before: seq<Step>, more: seq<Step>)
    ensures Run(before + more) == Extend(Run(before), more)
    decreases |more|
  {
    if more == [] {
      assert before + more == before;
    } else {
      assert (before + [more[0]])[..|before|] == before;
      assert before + [more[0]] + more[1..] == before + more;
      RunExtends(before + [more[0]], more[1..]);
    }
  }

  /** Call `n` takes its key, finds no payment, files a draft and calls the provider. */
  function OrderSteps(n: nat, actor: string, rawKey: string, bodyHash: Digest): seq<Step> {
    [OnPlatform(Platform.Arrive(actor, rawKey, bodyHash)), OnPlatform(Platform.Check(n, Platform.Passed)),
     OnPlatform(Platform.Lookup(n)), OnPlatform(Platform.Push(n))]
  }

  /** The provider charges what call `n` sent. */
  function ChargeSteps(h: nat, key: string): seq<Step> {
    [OnProvider(Provider.Deliver((SCOPE, key))), OnProvider(Provider.Begin(h)), OnProvider(Provider.Charge(h))]
  }

  /** The provider's answer reaches the platform, but storing it fails with an unexpected error, and the record is
      dropped. */
  function LoseSteps(n: nat, view: Platform.View): seq<Step> {
    [OnPlatform(Platform.Answer(n, Platform.Known(view))), OnPlatform(Platform.Throw(n, None)),
     OnPlatform(Platform.Advance(n, true))]
  }

  lemma ThreeSteps(st: State, a: Step, b: Step, c: Step)
    ensures Extend(st, [a, b, c]) == Next(Next(Next(st, a), b), c)
  {
    assert [a, b, c][1..] == [b, c] && [b, c][1..] == [c] && [c][1..] == [];
    assert Extend(Next(Next(st, a), b), [c]) == Extend(Next(Next(Next(st, a), b), c), []);
  }

  lemma FourSteps(st: State, a: Step, b: Step, c: Step, d: Step)
    ensures Extend(st, [a, b, c, d]) == Next(Next(Next(Next(st, a), b), c), d)
  {
    assert [a, b, c, d][1..] == [b, c, d];
    ThreeSteps(Next(st, a), b, c, d);
  }

  /** The platform after call `n` was let in with a new key and has filed its draft. */
  function Ordered(p: Platform.State, actor: string, rawKey: string, bodyHash: Digest): Platform.State {
    var key := Platform.IdemKey(actor, Trim(rawKey));
    Platform.State(
      Platform.Store(p.store.idempotency[key := Platform.InProgress(bodyHash)],
                     p.store.payments + [Platform.Payment(p.nextId, Platform.ProviderKey(actor, rawKey), "processing", None)]),
      p.calls + [Platform.Call(actor, rawKey, bodyHash, Platform.Calling(p.nextId, false))],
      p.nextId + 1)
  }

  predicate FreshOrder(p: Platform.State, actor: string, rawKey: string) {
    && ':' !in actor && Trim(rawKey) != ""
    && Platform.IdemKey(actor, Trim(rawKey)) !in p.store.idempotency
    && Platform.FindByKey(p.store.payments, Platform.ProviderKey(actor, rawKey)).None?
  }

  lemma PlatformOrders(p: Platform.State, actor: string, rawKey: string, bodyHash: Digest)
    requires FreshOrder(p, actor, rawKey)
    ensures var n := |p.calls|;
            Platform.Next(Platform.Next(Platform.Next(Platform.Next(
              p, Platform.Arrive(actor, rawKey, bodyHash)), Platform.Check(n, Platform.Passed)), Platform.Lookup(n)), Platform.Push(n))
            == Ordered(p, actor, rawKey, bodyHash)
  {
    var n := |p.calls|;
    var p1 := Platform.Next(p, Platform.Arrive(actor, rawKey, bodyHash));
    assert p1.calls == p.calls + [Platform.Call(actor, rawKey, bodyHash, Platform.Running)];
    var p2 := Platform.Next(p1, Platform.Check(n, Platform.Passed));
    assert p2.calls == p.calls + [Platform.Call(actor, rawKey, bodyHash, Platform.Looking)];
    var p3 := Platform.Next(p2, Platform.Lookup(n));
    assert p3.calls == p.calls + [Platform.Call(actor, rawKey, bodyHash, Platform.Drafting)];
    var p4 := Platform.Next(p3, Platform.Push(n));
    assert p4.calls == p.calls + [Platform.Call(actor, rawKey, bodyHash, Platform.Calling(p.nextId, false))];
  }

  lemma OrderIsSent(st: State, actor: string, rawKey: string, bodyHash: Digest)
    requires FreshOrder(st.platform, actor, rawKey)
    ensures var t := Extend(st, OrderSteps(|st.platform.calls|, actor, rawKey, bodyHash));
            && t.platform == Ordered(st.platform, actor, rawKey, bodyHash) && t.provider == st.provider
            && Platform.ProviderKey(actor, rawKey) in t.sent
  {
    var n := |st.platform.calls|;
    var s := OrderSteps(n, actor, rawKey, bodyHash);
    FourSteps(st, s[0], s[1], s[2], s[3]);
    PlatformOrders(st.platform, actor, rawKey, bodyHash);
    var p := Ordered(st.platform, actor, rawKey, bodyHash);
    assert p.calls[n].ChargeKey() == Platform.ProviderKey(actor, rawKey);
    assert p.calls[n].ChargeKey() in SentBy(p);
  }

  lemma ProviderKeyIsGiven(actor: string, rawKey: string)
    ensures Trim(Platform.ProviderKey(actor, rawKey)) != ""
  {
    NotBlank(Platform.ProviderKey(actor, rawKey));
  }

  lemma ProviderCharges(q: Provider.State, key: (string, string))
    requires Trim(key.1) != "" && key !in q.records
    ensures var h := |q.handlers|;
            var t := Provider.Next(Provider.Next(Provider.Next(q, Provider.Deliver(key)), Provider.Begin(h)), Provider.Charge(h));
            t.charges == q.charges + [key] && t.records == q.records[key := Provider.InProgress]
  {
    var h := |q.handlers|;
    var q1 := Provider.Next(q, Provider.Deliver(key));
    var q2 := Provider.Next(q1, Provider.Begin(h));
    assert q2.handlers[h] == Provider.Handler(key, Provider.Holding);
  }

  lemma SentIsCharged(st: State, key: string)
    requires key in st.sent && Trim(key) != "" && (SCOPE, key) !in st.provider.records
    ensures var t := Extend(st, ChargeSteps(|st.provider.handlers|, key));
            && t.platform == st.platform && t.sent == st.sent
            && t.provider.charges == st.provider.charges + [(SCOPE, key)]
            && t.provider.records == st.provider.records[(SCOPE, key) := Provider.InProgress]
  {
    var s := ChargeSteps(|st.provider.handlers|, key);
    ThreeSteps(st, s[0], s[1], s[2]);
    ProviderCharges(st.provider, (SCOPE, key));
  }

  /** The first order, charged, its answer lost and its record dropped. */
  function FirstHalf(actor: string, k: string, bodyHash: Digest, view: Platform.View): seq<Step> {
    OrderSteps(0, actor, k, bodyHash) + ChargeSteps(0, Platform.ProviderKey(actor, k)) + LoseSteps(0, view)
  }

  /** The same order again, its header spelled otherwise, charged as well. */
  function SecondHalf(actor: string, m: string, bodyHash: Digest): seq<Step> {
    OrderSteps(1, actor, m, bodyHash) + ChargeSteps(1, Platform.ProviderKey(actor, m))
  }

  lemma {:induction false} ExtendSplits(st: State, a: seq<Step>, b: seq<Step>)
    ensures Extend(st, a + b) == Extend(Extend(st, a), b)
    decreases |a|
  {
    if a == [] {
      assert a + b == b;
    } else {
      assert (a + b)[0] == a[0] && (a + b)[1..] == a[1..] + b;
      ExtendSplits(Next(st, a[0]), a[1..], b);
    }
  }

  lemma PlatformLoses(p: Platform.State, n: nat, id: nat, view: Platform.View)
    requires n < |p.calls| && p.calls[n].phase == Platform.Calling(id, false)
    requires p.calls[n].Key() in p.store.idempotency && p.store.idempotency[p.calls[n].Key()].InProgress?
    ensures var t := Platform.Next(Platform.Next(Platform.Next(
                       p, Platform.Answer(n, Platform.Known(view))), Platform.Throw(n, None)), Platform.Advance(n, true));
            && t.calls == p.calls[n := p.calls[n].(phase := Platform.Done(None))]
            && t.store == Platform.Store(p.store.idempotency - {p.calls[n].Key()}, p.store.payments)
  {
    var p1 := Platform.Next(p, Platform.Answer(n, Platform.Known(view)));
    assert p1.calls[n].phase == Platform.Applying(id, view);
    var p2 := Platform.Next(p1, Platform.Throw(n, None));
    assert p2.calls[n].phase == Platform.Finishing(Platform.Drop);
    assert p2.calls[n].Key() == p.calls[n].Key();
  }

  lemma AnswerIsLost(st: State, n: nat, id: nat, view: Platform.View)
    requires n < |st.platform.calls| && st.platform.calls[n].phase == Platform.Calling(id, false)
    requires var c := st.platform.calls[n];
             c.Key() in st.platform.store.idempotency && st.platform.store.idempotency[c.Key()].InProgress?
    ensures var t, c := Extend(st, LoseSteps(n, view)), st.platform.calls[n];
            && t.provider == st.provider
            && t.platform.calls == st.platform.calls[n := c.(phase := Platform.Done(None))]
            && t.platform.store == Platform.Store(st.platform.store.idempotency - {c.Key()}, st.platform.store.payments)
  {
    var s := LoseSteps(n, view);
    ThreeSteps(st, s[0], s[1], s[2]);
    PlatformLoses(st.platform, n, id, view);
  }

  lemma AfterFirstHalf(actor: string, k: string, bodyHash: Digest, view: Platform.View)
    requires ':' !in actor && Trim(k) != ""
    ensures var t := Run(FirstHalf(actor, k, bodyHash, view));
            && t.platform.calls == [Platform.Call(actor, k, bodyHash, Platform.Done(None))]
            && t.platform.store.idempotency == map[]
            && t.platform.store.payments == [Platform.Payment(0, Platform.ProviderKey(actor, k), "processing", None)]
            && t.provider.charges == [(SCOPE, Platform.ProviderKey(actor, k))] && |t.provider.handlers| == 1
            && t.provider.records.Keys == {(SCOPE, Platform.ProviderKey(actor, k))}
  {
    var key := Platform.ProviderKey(actor, k);
    var a, b, c := OrderSteps(0, actor, k, bodyHash), ChargeSteps(0, key), LoseSteps(0, view);
    RunExtends([], a + b + c);
    assert [] + (a + b + c) == a + b + c;
    ExtendSplits(INITIAL, a + b, c);
    ExtendSplits(INITIAL, a, b);
    OrderIsSent(INITIAL, actor, k, bodyHash);
    ProviderKeyIsGiven(actor, k);
    SentIsCharged(Extend(INITIAL, a), key);
    OneHandler(Extend(INITIAL, a), key);
    AnswerIsLost(Extend(Extend(INITIAL, a), b), 0, 0, view);
  }

  lemma OneHandler(st: State, key: string)
    ensures |Extend(st, ChargeSteps(0, key)).provider.handlers| <= |st.provider.handlers| + 1
    ensures key in st.sent ==> |Extend(st, ChargeSteps(0, key)).provider.handlers| == |st.provider.handlers| + 1
  {
    var s := ChargeSteps(0, key);
    ThreeSteps(st, s[0], s[1], s[2]);
  }

  /** The whole run: two charges for one actor under one platform record. */
  lemma TwiceCharged(actor: string, k: string, m: string, bodyHash: Digest, view: Platform.View)
    requires ':' !in actor && Trim(k) == Trim(m) != "" && k != m
    ensures var t := Run(FirstHalf(actor, k, bodyHash, view) + SecondHalf(actor, m, bodyHash));
            && t.provider.charges == [(SCOPE, Platform.ProviderKey(actor, k)), (SCOPE, Platform.ProviderKey(actor, m))]
            && |t.platform.calls| == 2
            && t.platform.calls[0].actor == actor && t.platform.calls[0].rawKey == k
            && t.platform.calls[1].actor == actor && t.platform.calls[1].rawKey == m
            && t.platform.calls[0].Key() == t.platform.calls[1].Key()
  {
    var first, second := FirstHalf(actor, k, bodyHash, view), SecondHalf(actor, m, bodyHash);
    var key := Platform.ProviderKey(actor, m);
    AfterFirstHalf(actor, k, bodyHash, view);
    RunExtends(first, second);
    var st := Run(first);
    if Platform.ProviderKey(actor, k) == key {
      Platform.ProviderKeyIsInjective(actor, k, actor, m);
    }
    ExtendSplits(st, OrderSteps(1, actor, m, bodyHash), ChargeSteps(1, key));
    OrderIsSent(st, actor, m, bodyHash);
    ProviderKeyIsGiven(actor, m);
    SentIsCharged(Extend(st, OrderSteps(1, actor, m, bodyHash)), key);
  }

  /** Charges `a` and `b` of the run are for two calls of the actor with these headers. */
  ghost predicate ChargedFor(steps: seq<Step>, a: nat, b: nat, i: nat, j: nat, actor: string, k: string, m: string) {
    var charges, calls := Run(steps).provider.charges, Run(steps).platform.calls;
    && a < b < |charges| && i < |calls| && j < |calls|
    && calls[i].actor == calls[j].actor == actor && calls[i].rawKey == k && calls[j].rawKey == m
    && charges[a] == (SCOPE, calls[i].ChargeKey()) && charges[b] == (SCOPE, calls[j].ChargeKey())
  }

  /** Two requests of one actor that share a platform record can both be charged if and only if their headers are
      spelled with different surrounding space. */
  lemma TwoChargesUnderOneRecordIff(actor: string, k: string, m: string)
    requires ':' !in actor && Trim(k) == Trim(m) != ""
    ensures (exists steps, a, b, i, j :: ChargedFor(steps, a, b, i, j, actor, k, m)) <==> k != m
  {
    forall steps, a, b, i, j | ChargedFor(steps, a, b, i, j, actor, k, m)
      ensures k != m
    {
      AtMostOneChargePerRequest(steps, a, b, i, j);
    }
    if k != m {
      var view, hash := Platform.View("id", "authorized"), Digest("{}");
      TwiceCharged(actor, k, m, hash, view);
      assert ChargedFor(FirstHalf(actor, k, hash, view) + SecondHalf(actor, m, hash), 0, 1, 0, 1, actor, k, m);
    }
  }

  /** Each charge answers a key that a call of the platform derived. */
  lemma EveryChargeWasAsked(steps: seq<Step>, a: nat)
    requires a < |Run(steps).provider.charges|
    ensures exists i :: 0 <= i < |Run(steps).platform.calls|
                        && Run(steps).provider.charges[a] == (SCOPE, Run(steps).platform.calls[i].ChargeKey())
  {
    EveryRunKeepsInv(steps);
    var st := Run(steps);
    assert st.provider.charges[a] in st.provider.charges;
    var i: nat :| i < |st.platform.calls| && st.platform.calls[i].ChargeKey() == st.provider.charges[a].1;
  }
}
