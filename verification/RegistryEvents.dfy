/** Applying registry logs (src/registry/events.ts:73-297): each event id at most once, a cursor for every chain
    and registry, and the evidence that binds an enrollment. Addresses and hashes are compared without regard to
    case, so they are numbers here. */
module RegistryEvents {
  import opened Outcomes

  type Address = nat
  type Hash = nat

  datatype Event =
    | RegisteredEvent(agentId: string, uri: string, owner: Address, tx: Hash, logIndex: nat, block: nat)
    | TransferEvent(from: Address, to: Address, tokenId: string, tx: Hash, logIndex: nat, block: nat)

  datatype EventId = EventId(chain: nat, tx: Hash, logIndex: nat)

  datatype Registry = Registry(chain: nat, address: Address)

  datatype Position = Position(block: nat, logIndex: nat)

  predicate Before(a: Position, b: Position) {
    a.block < b.block || (a.block == b.block && a.logIndex < b.logIndex)
  }

  /** What hashRegisterCall commits to. */
  datatype Intent = Intent(registry: Registry, uri: string)

  datatype EnrollmentStatus = AwaitingOnchain | AwaitingRegister | Bound | Suspended | OtherStatus

  datatype Enrollment = Enrollment(
    status: EnrollmentStatus,
    uriPath: string,
    intent: Option<Intent>,
    userOp: Option<Hash>,
    tx: Option<Hash>,
    receiptConfirmed: bool,
    registry: Option<Registry>,
    principal: Option<string>,
    agentId: Option<string>,
    owner: Option<Address>)

  /** `registry` and `at` are kept for the statements about cursors. */
  datatype Processed = Processed(id: EventId, registry: Option<Registry>, at: Position)

  datatype Store = Store(
    processed: seq<Processed>,
    enrollments: seq<Enrollment>,
    principals: map<string, Address>,
    cursors: map<Registry, Position>)

  datatype Options = Options(
    confirmations: int,
    currentBlock: Option<nat>,
    registry: Option<Address>,
    baseUrl: Option<string>,
    verifiedOwner: Option<Address>)

  datatype Verdict =
    | PendingConfirmations
    | Duplicate
    | EvidenceMissing
    | TransactionPending
    | TransactionMismatch
    | RegistryMismatch
    | IntentMismatch
    | OwnerMismatch
    | Ignored
    | Applied(bound: bool)

  /** The block of the event itself counts as one confirmation. */
  predicate EnoughConfirmations(block: nat, current: nat, confirmations: int) {
    current - block + 1 >= confirmations
  }

  predicate Confirmed(ev: Event, o: Options) {
    o.currentBlock.Some? ==> EnoughConfirmations(ev.block, o.currentBlock.value, o.confirmations)
  }

  function IdOf(chain: nat, ev: Event): EventId {
    EventId(chain, ev.tx, ev.logIndex)
  }

  predicate HasId(processed: seq<Processed>, id: EventId) {
    exists i :: 0 <= i < |processed| && processed[i].id == id
  }

  function RegistryOf(chain: nat, o: Options): Option<Registry> {
    if o.registry.Some? then Some(Registry(chain, o.registry.value)) else None
  }

  // ---------------------------------------------------------------- which enrollment an event is about

  predicate EndsWith(s: string, suffix: string) {
    |s| >= |suffix| && s[|s| - |suffix|..] == suffix
  }

  function ExpectedUri(baseUrl: string, path: string): string {
    (if |baseUrl| > 0 && baseUrl[|baseUrl| - 1] == '/' then baseUrl[..|baseUrl| - 1] else baseUrl) + path
  }

  predicate Matches(e: Enrollment, uri: string, baseUrl: Option<string>) {
    && (e.status == AwaitingOnchain || e.status == AwaitingRegister)
    && e.uriPath != ""
    && (if baseUrl.Some? && baseUrl.value != "" then uri == ExpectedUri(baseUrl.value, e.uriPath) else EndsWith(uri, e.uriPath))
  }

  function FirstMatch(es: seq<Enrollment>, uri: string, baseUrl: Option<string>, from: nat): (r: Option<nat>)
    ensures r.Some? ==> from <= r.value < |es| && Matches(es[r.value], uri, baseUrl)
                        && forall i | from <= i < r.value :: !Matches(es[i], uri, baseUrl)
    ensures r.None? ==> forall i | from <= i < |es| :: !Matches(es[i], uri, baseUrl)
    decreases |es| - from
  {
    if from >= |es| then None
    else if Matches(es[from], uri, baseUrl) then Some(from)
    else FirstMatch(es, uri, baseUrl, from + 1)
  }

  function PrincipalOwner(principals: map<string, Address>, principal: Option<string>): Option<Address> {
    if principal.Some? && principal.value != "" && principal.value in principals then Some(principals[principal.value]) else None
  }

  /** What is wrong with the evidence of an enrollment, in the order the source asks; None when all is well. */
  function EvidenceFault(e: Enrollment, principals: map<string, Address>, chain: nat, ev: Event, o: Options): Option<Verdict>
    requires ev.RegisteredEvent?
  {
    var registry := RegistryOf(chain, o);
    if e.intent.None? || e.userOp.None? then Some(EvidenceMissing)
    else if e.tx.None? || !e.receiptConfirmed then Some(TransactionPending)
    else if e.tx.value != ev.tx then Some(TransactionMismatch)
    else if registry.None? || e.registry != registry then Some(RegistryMismatch)
    else if e.intent.value != Intent(registry.value, ev.uri) then Some(IntentMismatch)
    else if o.verifiedOwner != Some(ev.owner) || PrincipalOwner(principals, e.principal) != o.verifiedOwner then
      Some(OwnerMismatch)
    else None
  }

  // ---------------------------------------------------------------- applying one event

  function MoveCursor(cursors: map<Registry, Position>, registry: Option<Registry>, at: Position): map<Registry, Position> {
    if registry.None? then cursors
    else if registry.value !in cursors || Before(cursors[registry.value], at) then cursors[registry.value := at]
    else cursors
  }

  function Recorded(store: Store, chain: nat, ev: Event, o: Options): Store {
    var registry, at := RegistryOf(chain, o), Position(ev.block, ev.logIndex);
    store.(processed := store.processed + [Processed(IdOf(chain, ev), registry, at)],
           cursors := MoveCursor(store.cursors, registry, at))
  }

  function BoundTo(e: Enrollment, ev: Event, registry: Option<Registry>): Enrollment
    requires ev.RegisteredEvent?
  {
    e.(status := Bound, agentId := Some(ev.agentId), owner := Some(ev.owner), registry := registry)
  }

  function RegisteredVerdict(store: Store, chain: nat, ev: Event, o: Options): Verdict
    requires ev.RegisteredEvent?
  {
    var m := FirstMatch(store.enrollments, ev.uri, o.baseUrl, 0);
    if !Confirmed(ev, o) then PendingConfirmations
    else if HasId(store.processed, IdOf(chain, ev)) then Duplicate
    else if m.None? then Applied(false)
    else
      var fault := EvidenceFault(store.enrollments[m.value], store.principals, chain, ev, o);
      if fault.Some? then fault.value else Applied(true)
  }

  function ApplyRegistered(store: Store, chain: nat, ev: Event, o: Options): Store
    requires ev.RegisteredEvent?
  {
    var verdict := RegisteredVerdict(store, chain, ev, o);
    if !verdict.Applied? then store
    else
      var m := FirstMatch(store.enrollments, ev.uri, o.baseUrl, 0);
      Recorded(store, chain, ev, o).(
        enrollments := if m.None? then store.enrollments
                       else store.enrollments[m.value := BoundTo(store.enrollments[m.value], ev, RegistryOf(chain, o))])
  }

  /** A transfer concerns the bound enrollments of its token in its registry. */
  predicate Concerns(e: Enrollment, chain: nat, tokenId: string, registry: Option<Registry>) {
    && e.agentId == Some(tokenId) && e.status == Bound
    && (e.registry.Some? ==> if registry.Some? then e.registry == registry else e.registry.value.chain == chain)
  }

  function Suspend(es: seq<Enrollment>, chain: nat, ev: Event, registry: Option<Registry>): (r: seq<Enrollment>)
    requires ev.TransferEvent?
    ensures |r| == |es|
  {
    if es == [] then []
    else
      var e := es[|es| - 1];
      Suspend(es[..|es| - 1], chain, ev, registry)
      + [if Concerns(e, chain, ev.tokenId, registry) then e.(status := Suspended, owner := Some(ev.to)) else e]
  }

  function TransferVerdict(store: Store, chain: nat, ev: Event, o: Options): Verdict
    requires ev.TransferEvent?
  {
    if ev.from == 0 then Ignored
    else if !Confirmed(ev, o) then PendingConfirmations
    else if HasId(store.processed, IdOf(chain, ev)) then Duplicate
    else Applied(false)
  }

  function ApplyTransfer(store: Store, chain: nat, ev: Event, o: Options): Store
    requires ev.TransferEvent?
  {
    if !TransferVerdict(store, chain, ev, o).Applied? then store
    else Recorded(store, chain, ev, o).(enrollments := Suspend(store.enrollments, chain, ev, RegistryOf(chain, o)))
  }

  function Apply(store: Store, chain: nat, ev: Event, o: Options): Store {
    if ev.RegisteredEvent? then ApplyRegistered(store, chain, ev, o) else ApplyTransfer(store, chain, ev, o)
  }

  function VerdictOf(store: Store, chain: nat, ev: Event, o: Options): Verdict {
    if ev.RegisteredEvent? then RegisteredVerdict(store, chain, ev, o) else TransferVerdict(store, chain, ev, o)
  }

  class RegistryStore {
    var processed: seq<Processed>
    var enrollments: seq<Enrollment>
    var principals: map<string, Address>
    var cursors: map<Registry, Position>

    function State(): Store
      reads this
    {
      Store(processed, enrollments, principals, cursors)
    }

    constructor (enrollments: seq<Enrollment>, principals: map<string, Address>)
      ensures State() == Store([], enrollments, principals, map[])
    {
      processed, this.enrollments, this.principals, cursors := [], enrollments, principals, map[];
    }

    method Record(chain: nat, ev: Event, o: Options)
      modifies this`processed, this`cursors
      ensures State() == Recorded(old(State()), chain, ev, o)
    {
      var registry, at := RegistryOf(chain, o), Position(ev.block, ev.logIndex);
      processed := processed + [Processed(IdOf(chain, ev), registry, at)];
      if registry.Some? && (registry.value !in cursors || Before(cursors[registry.value], at)) {
        cursors := cursors[registry.value := at];
      }
    }

    method ApplyRegisteredEvent(chain: nat, ev: Event, o: Options) returns (verdict: Verdict)
      requires ev.RegisteredEvent?
      modifies this`processed, this`cursors, this`enrollments
      ensures verdict == RegisteredVerdict(old(State()), chain, ev, o)
      ensures State() == ApplyRegistered(old(State()), chain, ev, o)
    {
      if !Confirmed(ev, o) {
        return PendingConfirmations;
      }
      if HasId(processed, IdOf(chain, ev)) {
        return Duplicate;
      }
      var i := 0;
      while i < |enrollments| && !Matches(enrollments[i], ev.uri, o.baseUrl)
        invariant 0 <= i <= |enrollments|
        invariant FirstMatch(enrollments, ev.uri, o.baseUrl, 0) == FirstMatch(enrollments, ev.uri, o.baseUrl, i)
      {
        i := i + 1;
      }
      if i < |enrollments| {
        var fault := EvidenceFault(enrollments[i], principals, chain, ev, o);
        if fault.Some? {
          return fault.value;
        }
      }
      Record(chain, ev, o);
      if i < |enrollments| {
        enrollments := enrollments[i := BoundTo(enrollments[i], ev, RegistryOf(chain, o))];
        return Applied(true);
      }
      return Applied(false);
    }

    method ApplyTransferEvent(chain: nat, ev: Event, o: Options) returns (verdict: Verdict)
      requires ev.TransferEvent?
      modifies this`processed, this`cursors, this`enrollments
      ensures verdict == TransferVerdict(old(State()), chain, ev, o)
      ensures State() == ApplyTransfer(old(State()), chain, ev, o)
    {
      if ev.from == 0 {
        return Ignored;
      }
      if !Confirmed(ev, o) {
        return PendingConfirmations;
      }
      if HasId(processed, IdOf(chain, ev)) {
        return Duplicate;
      }
      Record(chain, ev, o);
      var registry := RegistryOf(chain, o);
      ghost var was := enrollments;
      var i := 0;
      while i < |enrollments|
        invariant 0 <= i <= |enrollments| == |was|
        invariant enrollments[..i] == Suspend(was[..i], chain, ev, registry)
        invariant forall k | i <= k < |was| :: enrollments[k] == was[k]
        invariant processed == Recorded(old(State()), chain, ev, o).processed
        invariant cursors == Recorded(old(State()), chain, ev, o).cursors
        invariant principals == old(principals)
      {
        var e := enrollments[i];
        assert e == was[i] && was[..i + 1][..i] == was[..i];
        if Concerns(e, chain, ev.tokenId, registry) {
          enrollments := enrollments[i := e.(status := Suspended, owner := Some(ev.to))];
        }
        i := i + 1;
      }
      assert was[..i] == was && enrollments[..i] == enrollments;
      return Applied(false);
    }
  }

  // ---------------------------------------------------------------- ids and cursors

  ghost predicate UniqueIds(processed: seq<Processed>) {
    forall i, j | 0 <= i < j < |processed| :: processed[i].id != processed[j].id
  }

  ghost predicate CursorIsReached(store: Store, r: Registry) {
    r in store.cursors
    && exists i :: 0 <= i < |store.processed| && store.processed[i].registry == Some(r)
                && store.processed[i].at == store.cursors[r]
  }

  /** Every cursor is the position of a processed event of its registry, and no such event lies after it. */
  ghost predicate CursorsAreMaxima(store: Store) {
    && (forall r | r in store.cursors :: CursorIsReached(store, r))
    && (forall i | 0 <= i < |store.processed| && store.processed[i].registry.Some? ::
          && store.processed[i].registry.value in store.cursors
          && !Before(store.cursors[store.processed[i].registry.value], store.processed[i].at))
  }

  ghost predicate StoreInv(store: Store) {
    UniqueIds(store.processed) && CursorsAreMaxima(store)
  }

  lemma RecordKeepsMaxima(store: Store, chain: nat, ev: Event, o: Options)
    requires CursorsAreMaxima(store)
    ensures CursorsAreMaxima(Recorded(store, chain, ev, o))
  {
    var next := Recorded(store, chain, ev, o);
    forall r | r in next.cursors
      ensures CursorIsReached(next, r)
    {
      if r in store.cursors && next.cursors[r] == store.cursors[r] {
        assert CursorIsReached(store, r);
        var i :| 0 <= i < |store.processed| && store.processed[i].registry == Some(r)
                 && store.processed[i].at == store.cursors[r];
        assert next.processed[i] == store.processed[i];
      } else {
        assert next.processed[|store.processed|].at == next.cursors[r];
      }
    }
  }

  lemma ApplyKeepsStoreInv(store: Store, chain: nat, ev: Event, o: Options)
    requires StoreInv(store)
    ensures StoreInv(Apply(store, chain, ev, o))
  {
    if VerdictOf(store, chain, ev, o).Applied? {
      RecordKeepsMaxima(store, chain, ev, o);
      var r := Recorded(store, chain, ev, o);
      var next := Apply(store, chain, ev, o);
      assert next.processed == r.processed && next.cursors == r.cursors;
      assert forall c | c in r.cursors :: CursorIsReached(r, c) ==> CursorIsReached(next, c);
    }
  }

  /** An event already processed changes nothing, whatever its kind, evidence and options. */
  lemma ProcessedOnce(store: Store, chain: nat, ev: Event, o: Options, later: Options)
    requires VerdictOf(store, chain, ev, o).Applied?
    ensures HasId(Apply(store, chain, ev, o).processed, IdOf(chain, ev))
    ensures Apply(Apply(store, chain, ev, o), chain, ev, later) == Apply(store, chain, ev, o)
  {
    var next := Apply(store, chain, ev, o);
    assert next.processed[|store.processed|].id == IdOf(chain, ev);
  }

  // ---------------------------------------------------------------- binding

  /** Everything the receipt of the registration and the enrollment must agree on. */
  ghost predicate EvidenceComplete(e: Enrollment, principals: map<string, Address>, chain: nat, ev: Event, o: Options)
    requires ev.RegisteredEvent?
  {
    && o.registry.Some?
    && e.intent == Some(Intent(Registry(chain, o.registry.value), ev.uri))
    && e.userOp.Some? && e.tx == Some(ev.tx) && e.receiptConfirmed
    && e.registry == Some(Registry(chain, o.registry.value))
    && e.principal.Some? && e.principal.value != "" && e.principal.value in principals
    && principals[e.principal.value] == ev.owner && o.verifiedOwner == Some(ev.owner)
  }

  /** An enrollment becomes bound exactly when it is the first one waiting for the URI and the recorded
      transaction, registry, intent, principal and on-chain owner all agree with a new, confirmed event. */
  lemma BoundIffEvidenceComplete(store: Store, chain: nat, ev: Event, o: Options, i: nat)
    requires ev.RegisteredEvent? && i < |store.enrollments|
    ensures Apply(store, chain, ev, o).enrollments[i] != store.enrollments[i]
            <==> && Confirmed(ev, o) && !HasId(store.processed, IdOf(chain, ev))
                 && FirstMatch(store.enrollments, ev.uri, o.baseUrl, 0) == Some(i)
                 && EvidenceComplete(store.enrollments[i], store.principals, chain, ev, o)
    ensures Apply(store, chain, ev, o).enrollments[i] != store.enrollments[i]
            ==> var e := Apply(store, chain, ev, o).enrollments[i];
                e.status == Bound && e.agentId == Some(ev.agentId) && e.owner == Some(ev.owner)
  {
  }

  // ---------------------------------------------------------------- which evidence waits and which is final

  /** The enrollment waits for its registration and the URI is its own: under the base URL of the service if there
      is one, and anything that ends in its path otherwise. */
  ghost predicate AwaitsUri(e: Enrollment, uri: string, baseUrl: Option<string>) {
    && e.status in {AwaitingOnchain, AwaitingRegister} && e.uriPath != ""
    && if baseUrl.GetOr("") == "" then exists prefix :: uri == prefix + e.uriPath
       else exists base :: (baseUrl.value == base + "/" || (baseUrl.value == base && base[|base| - 1] != '/')) && uri == base + e.uriPath
  }

  lemma MatchesIff(e: Enrollment, uri: string, baseUrl: Option<string>)
    ensures Matches(e, uri, baseUrl) <==> AwaitsUri(e, uri, baseUrl)
  {
    if baseUrl.GetOr("") == "" {
      if EndsWith(uri, e.uriPath) {
        assert uri == uri[..|uri| - |e.uriPath|] + e.uriPath;
      }
    } else {
      var b := baseUrl.value;
      var base := if b[|b| - 1] == '/' then b[..|b| - 1] else b;
      assert ExpectedUri(b, e.uriPath) == base + e.uriPath;
      assert b == base + "/" || (b == base && base[|base| - 1] != '/');
      if other :| (b == other + "/" || (b == other && other[|other| - 1] != '/')) && uri == other + e.uriPath {
        assert other == base;
      }
    }
  }

  /** The first enrollment that awaits the URI. */
  ghost predicate FirstAwaiting(es: seq<Enrollment>, uri: string, baseUrl: Option<string>, i: nat) {
    && i < |es| && AwaitsUri(es[i], uri, baseUrl)
    && forall k | 0 <= k < i :: !AwaitsUri(es[k], uri, baseUrl)
  }

  ghost predicate NobodyAwaits(es: seq<Enrollment>, uri: string, baseUrl: Option<string>) {
    forall k | 0 <= k < |es| :: !AwaitsUri(es[k], uri, baseUrl)
  }

  lemma FirstMatchIff(es: seq<Enrollment>, uri: string, baseUrl: Option<string>)
    ensures forall i: nat :: FirstMatch(es, uri, baseUrl, 0) == Some(i) <==> FirstAwaiting(es, uri, baseUrl, i)
    ensures FirstMatch(es, uri, baseUrl, 0).None? <==> NobodyAwaits(es, uri, baseUrl)
  {
    forall k | 0 <= k < |es|
      ensures Matches(es[k], uri, baseUrl) <==> AwaitsUri(es[k], uri, baseUrl)
    {
      MatchesIff(es[k], uri, baseUrl);
    }
  }

  predicate RegistrationCommitted(e: Enrollment) {
    e.intent.Some? && e.userOp.Some?
  }

  predicate ReceiptOnFile(e: Enrollment) {
    e.tx.Some? && e.receiptConfirmed
  }

  /** A new, confirmed registration whose enrollment has committed to it, but has no confirmed receipt yet. */
  ghost predicate AwaitsReceipt(store: Store, chain: nat, ev: Event, o: Options)
    requires ev.RegisteredEvent?
  {
    && Confirmed(ev, o) && !HasId(store.processed, IdOf(chain, ev))
    && exists i: nat :: FirstAwaiting(store.enrollments, ev.uri, o.baseUrl, i)
                        && RegistrationCommitted(store.enrollments[i]) && !ReceiptOnFile(store.enrollments[i])
  }

  /** The registration can be decided: it was processed before, nobody awaits it, its enrollment never committed to
      a registration, or the receipt is on file. */
  ghost predicate Decidable(store: Store, chain: nat, ev: Event, o: Options)
    requires ev.RegisteredEvent?
  {
    && Confirmed(ev, o)
    && (|| HasId(store.processed, IdOf(chain, ev))
        || NobodyAwaits(store.enrollments, ev.uri, o.baseUrl)
        || exists i: nat :: FirstAwaiting(store.enrollments, ev.uri, o.baseUrl, i)
                            && (!RegistrationCommitted(store.enrollments[i]) || ReceiptOnFile(store.enrollments[i])))
  }

  /** A registration waits for its transaction exactly when its enrollment awaits the receipt, it waits for blocks
      exactly when it is not confirmed, and is decided exactly when it is decidable. */
  lemma WaitsIff(store: Store, chain: nat, ev: Event, o: Options)
    requires ev.RegisteredEvent?
    ensures VerdictOf(store, chain, ev, o) == TransactionPending <==> AwaitsReceipt(store, chain, ev, o)
    ensures VerdictOf(store, chain, ev, o) == PendingConfirmations <==> !Confirmed(ev, o)
    ensures VerdictOf(store, chain, ev, o) == Duplicate <==> Confirmed(ev, o) && HasId(store.processed, IdOf(chain, ev))
    ensures VerdictOf(store, chain, ev, o) !in {TransactionPending, PendingConfirmations} <==> Decidable(store, chain, ev, o)
  {
    FirstMatchIff(store.enrollments, ev.uri, o.baseUrl);
    var m := FirstMatch(store.enrollments, ev.uri, o.baseUrl, 0);
    if m.Some? {
      assert FirstAwaiting(store.enrollments, ev.uri, o.baseUrl, m.value);
      assert forall i: nat | FirstAwaiting(store.enrollments, ev.uri, o.baseUrl, i) :: Some(i) == m;
    }
  }

  /** Why a decidable registration is refused: the first of its commitments that the event does not keep. */
  lemma RefusedBecause(store: Store, chain: nat, ev: Event, o: Options, i: nat)
    requires ev.RegisteredEvent? && Confirmed(ev, o) && !HasId(store.processed, IdOf(chain, ev))
    requires FirstAwaiting(store.enrollments, ev.uri, o.baseUrl, i)
    ensures var v, e := VerdictOf(store, chain, ev, o), store.enrollments[i];
            && (v == EvidenceMissing <==> !RegistrationCommitted(e))
            && (RegistrationCommitted(e) && ReceiptOnFile(e) ==>
                  var mine := o.registry.Some? && e.registry == Some(Registry(chain, o.registry.value));
                  && (v == TransactionMismatch <==> e.tx != Some(ev.tx))
                  && (v == RegistryMismatch <==> e.tx == Some(ev.tx) && !mine)
                  && (v == IntentMismatch <==> e.tx == Some(ev.tx) && mine && e.intent.value != Intent(e.registry.value, ev.uri))
                  && (v == OwnerMismatch <==> e.tx == Some(ev.tx) && mine && e.intent.value == Intent(e.registry.value, ev.uri)
                                              && !EvidenceComplete(e, store.principals, chain, ev, o))
                  && (v == Applied(true) <==> EvidenceComplete(e, store.principals, chain, ev, o)))
  {
    FirstMatchIff(store.enrollments, ev.uri, o.baseUrl);
  }

  /** What the store records of an event. */
  function EntryOf(chain: nat, ev: Event, o: Options): Processed {
    Processed(EventId(chain, ev.tx, ev.logIndex), if o.registry.Some? then Some(Registry(chain, o.registry.value)) else None,
              Position(ev.block, ev.logIndex))
  }

  /** What an applied registration leaves behind: the event is recorded, its enrollment and no other is bound in
      this registry, and a refused one leaves everything as it was. */
  lemma RegistrationLeaves(store: Store, chain: nat, ev: Event, o: Options)
    requires ev.RegisteredEvent?
    ensures var v, t := VerdictOf(store, chain, ev, o), Apply(store, chain, ev, o);
            && (!v.Applied? ==> t == store)
            && (v.Applied? ==>
                  && |t.processed| == |store.processed| + 1 && t.processed[..|store.processed|] == store.processed
                  && t.processed[|store.processed|] == EntryOf(chain, ev, o)
                  && t.principals == store.principals && |t.enrollments| == |store.enrollments|
                  && (v == Applied(false) ==> t.enrollments == store.enrollments))
            && (v == Applied(true) ==>
                  exists i: nat :: FirstAwaiting(store.enrollments, ev.uri, o.baseUrl, i)
                    && var e := t.enrollments[i];
                    && t.enrollments == store.enrollments[i := e]
                    && e == store.enrollments[i].(status := Bound, agentId := Some(ev.agentId), owner := Some(ev.owner),
                                                 registry := Some(Registry(chain, o.registry.value))))
  {
    FirstMatchIff(store.enrollments, ev.uri, o.baseUrl);
    var m := FirstMatch(store.enrollments, ev.uri, o.baseUrl, 0);
    if m.Some? {
      assert FirstAwaiting(store.enrollments, ev.uri, o.baseUrl, m.value);
    }
  }

  /** After a transfer no enrollment of the token stays bound in its registry, and no other one changes. */
  lemma {:induction false} SuspendIsExact(es: seq<Enrollment>, chain: nat, ev: Event, registry: Option<Registry>, i: nat)
    requires ev.TransferEvent? && i < |es|
    ensures Concerns(es[i], chain, ev.tokenId, registry)
            ==> Suspend(es, chain, ev, registry)[i] == es[i].(status := Suspended, owner := Some(ev.to))
    ensures !Concerns(es[i], chain, ev.tokenId, registry) ==> Suspend(es, chain, ev, registry)[i] == es[i]
  {
    if i < |es| - 1 {
      SuspendIsExact(es[..|es| - 1], chain, ev, registry, i);
    }
  }

  // ---------------------------------------------------------------- transfers

  /** The enrollment is bound to this token, in the registry of the event or, when this is not known, on its chain;
      one that names no registry is taken for one of them. */
  ghost predicate Holds(e: Enrollment, chain: nat, token: string, o: Options) {
    && e.status == Bound && e.agentId == Some(token)
    && (e.registry.None? || (e.registry.value.chain == chain && (o.registry.None? || e.registry.value.address == o.registry.value)))
  }

  /** A mint is ignored, a transfer with too few blocks waits, and one that was processed changes nothing. Any other one
      is recorded and suspends exactly the enrollments bound to its token, under the new owner. */
  lemma TransferLeaves(store: Store, chain: nat, ev: Event, o: Options)
    requires ev.TransferEvent?
    ensures var v, t := VerdictOf(store, chain, ev, o), Apply(store, chain, ev, o);
            var seen := exists i :: 0 <= i < |store.processed| && store.processed[i].id == EventId(chain, ev.tx, ev.logIndex);
            && v == (if ev.from == 0 then Ignored else if !Confirmed(ev, o) then PendingConfirmations
                     else if seen then Duplicate else Applied(false))
            && (!v.Applied? ==> t == store)
            && (v.Applied? ==>
                  && t.processed == store.processed + [EntryOf(chain, ev, o)] && t.principals == store.principals
                  && |t.enrollments| == |store.enrollments|
                  && forall i | 0 <= i < |store.enrollments| :: t.enrollments[i] ==
                       if Holds(store.enrollments[i], chain, ev.tokenId, o)
                       then store.enrollments[i].(status := Suspended, owner := Some(ev.to)) else store.enrollments[i])
  {
    SuspendsPointwise(store.enrollments, chain, ev, o);
  }

  lemma {:induction false} SuspendsPointwise(es: seq<Enrollment>, chain: nat, ev: Event, o: Options)
    requires ev.TransferEvent?
    ensures var r := Suspend(es, chain, ev, RegistryOf(chain, o));
            forall i | 0 <= i < |es| ::
              r[i] == if Holds(es[i], chain, ev.tokenId, o) then es[i].(status := Suspended, owner := Some(ev.to)) else es[i]
  {
    if es != [] {
      SuspendsPointwise(es[..|es| - 1], chain, ev, o);
    }
  }
}
