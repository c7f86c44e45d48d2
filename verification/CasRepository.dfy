/** The versioned aggregate of src/persistence/supabase-repository.ts and src/persistence/cas-store.ts: any
    number of repository instances load one state, run a callback and swap it in if the version still matches. */
module CasRepository {
  import opened Outcomes

  /** A state is its serialized text. */
  type Text = string

  // ---------------------------------------------------------------- one instance alone

  class VersionedStateBackend {
    var version: nat
    var state: Text

    constructor (state: Text)
      ensures version == 0 && this.state == state
    {
      version, this.state := 0, state;
    }

    method CompareAndSwap(expected: nat, next: Text) returns (ok: bool, current: nat)
      modifies this
      ensures ok == (old(version) == expected)
      ensures ok ==> version == expected + 1 && state == next
      ensures !ok ==> version == old(version) && state == old(state)
      ensures current == version
    {
      ok := version == expected;
      if ok {
        version, state := version + 1, next;
      }
      current := version;
    }
  }

  class SupabaseRepository {
    const backend: VersionedStateBackend
    const scrub: Text -> Text
    var cachedVersion: nat

    constructor (backend: VersionedStateBackend, scrub: Text -> Text)
      ensures this.backend == backend && this.scrub == scrub && cachedVersion == 0
    {
      this.backend, this.scrub, cachedVersion := backend, scrub, 0;
    }

    method GetStore() returns (store: Text)
      modifies this
      ensures store == backend.state && cachedVersion == backend.version
    {
      cachedVersion := backend.version;
      store := backend.state;
    }

    /** Undisturbed, withLock installs the result of its callback as the next version. */
    method WithLock(fn: Text -> Text)
      modifies this, backend
      ensures backend.version == old(backend.version) + 1 && cachedVersion == backend.version
      ensures backend.state == scrub(fn(old(backend.state)))
    {
      var store := GetStore();
      var expected := cachedVersion;
      var ok, current := backend.CompareAndSwap(expected, scrub(fn(store)));
      cachedVersion := current;
    }

    method ImportStoreIdempotent(store: Text) returns (written: bool)
      modifies this, backend
      ensures written == (old(backend.state) != scrub(store))
      ensures backend.state == scrub(store)
      ensures backend.version == old(backend.version) + if written then 1 else 0
      ensures cachedVersion == backend.version
    {
      cachedVersion := backend.version;
      if backend.state == scrub(store) {
        return false;
      }
      written, cachedVersion := backend.CompareAndSwap(cachedVersion, scrub(store));
    }
  }

  // ---------------------------------------------------------------- many instances, interleaved

  /** What a call is for: a getStore, a withLock with its callback, or an import of a whole state. */
  datatype Purpose = ReadOnly | WithCallback(fn: nat) | Import(store: Text)

  /** Reading: the backend has answered and the answer is on its way. Loaded: the version is in the field of the
      instance. Captured: withLock has read the field back. Ready: the swap is about to be sent. Swapped: the
      answer with the new version is on its way. */
  datatype Phase =
    | Reading(version: nat, snapshot: Text)
    | Loaded(version: nat, snapshot: Text)
    | Captured(version: nat, snapshot: Text, expected: nat)
    | Ready(version: nat, expected: nat, next: Text)
    | Swapped(version: nat)

  datatype Call = Call(instance: nat, purpose: Purpose, phase: Phase)

  /** One committed swap: the version its call had loaded, and the state it installed. */
  datatype Commit = Commit(call: nat, purpose: Purpose, base: nat, state: Text)

  /** What a withLock had loaded, and what it found in the field when it read it back. */
  datatype Capturing = Capturing(loaded: nat, field: nat)

  /** `fields` holds the cachedVersion of every instance and `writers` the call that set it last; `captures`
      remembers the capture of every withLock. */
  datatype World = World(
    initial: Text, commits: seq<Commit>, calls: map<nat, Call>, started: set<nat>, fields: map<nat, nat>,
    writers: map<nat, nat>, captures: map<nat, Capturing>)

  /** What callbacks do and what is taken out of a state before it is stored. */
  datatype Env = Env(apply: (nat, Text) -> Text, scrub: Text -> Text)

  datatype Step =
    | Load(call: nat, instance: nat, purpose: Purpose)
    | Arrive(call: nat)
    | Capture(call: nat)
    | Return(call: nat, throws: bool)
    | Swap(call: nat, answerLost: bool)
    | Finish(call: nat)

  function StateAt(w: World, version: nat): Text
    requires version <= |w.commits|
  {
    if version == 0 then w.initial else w.commits[version - 1].state
  }

  predicate Locked(w: World, instance: nat) {
    exists c :: c in w.calls && w.calls[c].instance == instance && w.calls[c].purpose.WithCallback?
  }

  function At(w: World, c: nat, ph: Phase): World
    requires c in w.calls
  {
    w.(calls := w.calls[c := w.calls[c].(phase := ph)])
  }

  function Gone(w: World, c: nat): World {
    w.(calls := w.calls - {c})
  }

  function WithField(w: World, c: nat, version: nat): World
    requires c in w.calls
  {
    w.(fields := w.fields[w.calls[c].instance := version], writers := w.writers[w.calls[c].instance := c])
  }

  function DoArrive(w: World, env: Env, c: nat, version: nat, snapshot: Text): World
    requires c in w.calls
  {
    match w.calls[c].purpose
    case ReadOnly => Gone(WithField(w, c, version), c)
    case WithCallback(_) => At(WithField(w, c, version), c, Loaded(version, snapshot))
    case Import(store) =>
      if snapshot == env.scrub(store) then Gone(WithField(w, c, version), c)
      else At(WithField(w, c, version), c, Ready(version, version, env.scrub(store)))
  }

  function DoCapture(w: World, c: nat, ph: Phase): World
    requires c in w.calls && ph.Loaded? && w.calls[c].instance in w.fields
  {
    var field := w.fields[w.calls[c].instance];
    At(w, c, Captured(ph.version, ph.snapshot, field)).(captures := w.captures[c := Capturing(ph.version, field)])
  }

  function DoReturn(w: World, env: Env, c: nat, ph: Phase, throws: bool): World
    requires c in w.calls && ph.Captured?
  {
    if throws || !w.calls[c].purpose.WithCallback? then Gone(w, c)
    else At(w, c, Ready(ph.version, ph.expected, env.scrub(env.apply(w.calls[c].purpose.fn, ph.snapshot))))
  }

  function DoSwap(w: World, c: nat, ph: Phase, answerLost: bool): World
    requires c in w.calls && ph.Ready?
  {
    if ph.expected != |w.commits| then Gone(w, c)
    else
      var next := w.(commits := w.commits + [Commit(c, w.calls[c].purpose, ph.version, ph.next)]);
      if answerLost then Gone(next, c) else At(next, c, Swapped(|w.commits| + 1))
  }

  function Next(w: World, env: Env, step: Step): World {
    if step.Load? then
      if step.call in w.started || (step.purpose.WithCallback? && Locked(w, step.instance)) then w
      else
        w.(calls := w.calls[step.call := Call(step.instance, step.purpose, Reading(|w.commits|, StateAt(w, |w.commits|)))],
           started := w.started + {step.call})
    else if step.call !in w.calls then w
    else
      var ph := w.calls[step.call].phase;
      match step
      case Arrive(c) => if ph.Reading? then DoArrive(w, env, c, ph.version, ph.snapshot) else w
      case Capture(c) =>
        if ph.Loaded? && w.calls[c].instance in w.fields then DoCapture(w, c, ph) else w
      case Return(c, throws) => if ph.Captured? then DoReturn(w, env, c, ph, throws) else w
      case Swap(c, answerLost) => if ph.Ready? then DoSwap(w, c, ph, answerLost) else w
      case Finish(c) => if ph.Swapped? then Gone(WithField(w, c, ph.version), c) else w
  }

  function Start(initial: Text): World {
    World(initial, [], map[], {}, map[], map[], map[])
  }

  function Run(initial: Text, env: Env, steps: seq<Step>): World {
    if steps == [] then Start(initial) else Next(Run(initial, env, steps[..|steps| - 1]), env, steps[|steps| - 1])
  }

  // ---------------------------------------------------------------- what every run keeps

  /** What a commit installs, computed from the state of the version its call had loaded. */
  function Installed(w: World, env: Env, k: Commit): Text
    requires k.base <= |w.commits|
  {
    match k.purpose
    case Import(store) => env.scrub(store)
    case WithCallback(fn) => env.scrub(env.apply(fn, StateAt(w, k.base)))
    case ReadOnly => StateAt(w, k.base)
  }

  ghost predicate CommitOk(w: World, env: Env, n: nat)
    requires n < |w.commits|
  {
    var k := w.commits[n];
    k.base <= n && k.call in w.started && !k.purpose.ReadOnly? && k.state == Installed(w, env, k)
  }

  ghost predicate PhaseOk(w: World, env: Env, c: nat)
    requires c in w.calls
  {
    var call := w.calls[c];
    var ph := call.phase;
    && c in w.started && ph.version <= |w.commits|
    && ((ph.Loaded? || ph.Captured?) ==> call.purpose.WithCallback?)
    && ((ph.Reading? || ph.Loaded? || ph.Captured?) ==> ph.snapshot == StateAt(w, ph.version))
    && (ph.Ready? ==> !call.purpose.ReadOnly? && (call.purpose.Import? ==> ph.expected == ph.version)
                      && ph.next == Installed(w, env, Commit(c, call.purpose, ph.version, ph.next)))
    && (!ph.Swapped? ==> forall n | 0 <= n < |w.commits| :: w.commits[n].call != c)
  }

  ghost predicate Inv(w: World, env: Env) {
    && (forall n: nat | n < |w.commits| :: CommitOk(w, env, n))
    && (forall n, m | 0 <= n < m < |w.commits| :: w.commits[n].call != w.commits[m].call)
    && (forall c | c in w.calls :: PhaseOk(w, env, c))
  }

  /** A longer history keeps what a call knows of the versions it has seen. */
  lemma HistoryGrows(w: World, t: World, env: Env, d: nat)
    requires d in w.calls && PhaseOk(w, env, d) && d in t.calls && t.calls[d] == w.calls[d]
    requires t.initial == w.initial && w.commits <= t.commits && t.started == w.started
    requires forall n | |w.commits| <= n < |t.commits| :: t.commits[n].call != d
    ensures PhaseOk(t, env, d)
  {
  }

  lemma SwapKeepsPhase(w: World, env: Env, c: nat, answerLost: bool, d: nat)
    requires c in w.calls && w.calls[c].phase.Ready? && PhaseOk(w, env, c)
    requires d in w.calls && PhaseOk(w, env, d)
    ensures var t := DoSwap(w, c, w.calls[c].phase, answerLost); d in t.calls ==> PhaseOk(t, env, d)
  {
    var t := DoSwap(w, c, w.calls[c].phase, answerLost);
    if d != c {
      HistoryGrows(w, t, env, d);
    }
  }

  lemma SwapKeepsInv(w: World, env: Env, c: nat, answerLost: bool)
    requires Inv(w, env) && c in w.calls && w.calls[c].phase.Ready?
    ensures Inv(DoSwap(w, c, w.calls[c].phase, answerLost), env)
  {
    var t := DoSwap(w, c, w.calls[c].phase, answerLost);
    assert PhaseOk(w, env, c);
    forall n: nat | n < |t.commits|
      ensures CommitOk(t, env, n)
    {
      assert n < |w.commits| ==> CommitOk(w, env, n);
    }
    forall d | d in t.calls
      ensures PhaseOk(t, env, d)
    {
      assert d in w.calls && PhaseOk(w, env, d);
      SwapKeepsPhase(w, env, c, answerLost, d);
    }
  }

  /** A step that commits nothing leaves the other calls alone. */
  lemma OthersKeepPhase(w: World, env: Env, step: Step, d: nat)
    requires d in Next(w, env, step).calls && d != step.call
    ensures d in w.calls && Next(w, env, step).calls[d] == w.calls[d]
  {
  }

  lemma QuietStep(w: World, env: Env, step: Step)
    requires !(step.Swap? && step.call in w.calls && w.calls[step.call].phase.Ready?)
    ensures Next(w, env, step).commits == w.commits && Next(w, env, step).initial == w.initial
    ensures w.started <= Next(w, env, step).started
  {
  }

  lemma MovedPhaseOk(w: World, env: Env, step: Step)
    requires Inv(w, env) && step.call in Next(w, env, step).calls
    requires !(step.Swap? && step.call in w.calls && w.calls[step.call].phase.Ready?)
    ensures PhaseOk(Next(w, env, step), env, step.call)
  {
    if step.call in w.calls {
      assert PhaseOk(w, env, step.call);
    } else {
      forall n: nat | n < |w.commits|
        ensures w.commits[n].call != step.call
      {
        assert CommitOk(w, env, n);
      }
    }
  }

  lemma NextKeepsInv(w: World, env: Env, step: Step)
    requires Inv(w, env)
    ensures Inv(Next(w, env, step), env)
  {
    var t := Next(w, env, step);
    if step.Swap? && step.call in w.calls && w.calls[step.call].phase.Ready? {
      SwapKeepsInv(w, env, step.call, step.answerLost);
    } else {
      QuietStep(w, env, step);
      forall n: nat | n < |t.commits|
        ensures CommitOk(t, env, n)
      {
        assert CommitOk(w, env, n);
      }
      forall d | d in t.calls
        ensures PhaseOk(t, env, d)
      {
        if d == step.call {
          MovedPhaseOk(w, env, step);
        } else {
          OthersKeepPhase(w, env, step, d);
          assert PhaseOk(w, env, d);
        }
      }
    }
  }

  lemma {:induction false} EveryRunKeepsInv(initial: Text, env: Env, steps: seq<Step>)
    ensures Inv(Run(initial, env, steps), env) && Run(initial, env, steps).initial == initial
  {
    if steps != [] {
      EveryRunKeepsInv(initial, env, steps[..|steps| - 1]);
      NextKeepsInv(Run(initial, env, steps[..|steps| - 1]), env, steps[|steps| - 1]);
    }
  }

  // ---------------------------------------------------------------- serializability

  /** One call after the other: version n + 1 is the commit number n applied to version n. */
  function Serial(initial: Text, env: Env, commits: seq<Commit>): Text {
    if commits == [] then initial
    else
      var before, k := Serial(initial, env, commits[..|commits| - 1]), commits[|commits| - 1];
      match k.purpose
      case Import(store) => env.scrub(store)
      case WithCallback(fn) => env.scrub(env.apply(fn, before))
      case ReadOnly => before
  }

  /** Between the answer to its own load and the moment a withLock reads the field back, nobody else of its
      instance has set the field. */
  ghost predicate Undisturbed(initial: Text, env: Env, steps: seq<Step>) {
    steps == [] ||
    (var w, last := Run(initial, env, steps[..|steps| - 1]), steps[|steps| - 1];
     && Undisturbed(initial, env, steps[..|steps| - 1])
     && (last.Capture? && last.call in w.calls && w.calls[last.call].instance in w.writers
         ==> w.writers[w.calls[last.call].instance] == last.call))
  }

  ghost predicate ExpectsLoaded(ph: Phase) {
    (ph.Captured? || ph.Ready?) ==> ph.expected == ph.version
  }

  ghost predicate FieldOk(w: World, c: nat)
    requires c in w.calls
  {
    var i := w.calls[c].instance;
    w.calls[c].phase.Loaded? ==>
      i in w.writers && (w.writers[i] == c ==> i in w.fields && w.fields[i] == w.calls[c].phase.version)
  }

  /** The expected version of every call is the one it loaded, and every commit was built on its predecessor. */
  ghost predicate Coherent(w: World) {
    && (forall c | c in w.calls :: ExpectsLoaded(w.calls[c].phase) && FieldOk(w, c))
    && (forall n | 0 <= n < |w.commits| :: w.commits[n].base == n)
  }

  lemma MovedCallCoherent(w: World, env: Env, step: Step)
    requires step.call in Next(w, env, step).calls
    requires step.call in w.calls ==> ExpectsLoaded(w.calls[step.call].phase) && FieldOk(w, step.call)
    requires step.Capture? && step.call in w.calls && w.calls[step.call].instance in w.writers
             ==> w.writers[w.calls[step.call].instance] == step.call
    ensures ExpectsLoaded(Next(w, env, step).calls[step.call].phase) && FieldOk(Next(w, env, step), step.call)
  {
  }

  lemma FieldWriters(w: World, env: Env, step: Step, i: nat)
    ensures var t := Next(w, env, step);
            && (i in w.writers ==> i in t.writers)
            && (i in t.writers && t.writers[i] != step.call ==>
                  i in w.writers && t.writers[i] == w.writers[i]
                  && (i in w.fields ==> i in t.fields && (t.fields[i] == w.fields[i])))
  {
  }

  lemma OtherCallCoherent(w: World, env: Env, step: Step, c: nat)
    requires c in Next(w, env, step).calls && c != step.call && Coherent(w)
    ensures ExpectsLoaded(Next(w, env, step).calls[c].phase) && FieldOk(Next(w, env, step), c)
  {
    OthersKeepPhase(w, env, step, c);
    assert ExpectsLoaded(w.calls[c].phase) && FieldOk(w, c);
    FieldWriters(w, env, step, w.calls[c].instance);
  }

  lemma NextKeepsCoherent(w: World, env: Env, step: Step)
    requires Inv(w, env) && Coherent(w)
    requires step.Capture? && step.call in w.calls && w.calls[step.call].instance in w.writers
             ==> w.writers[w.calls[step.call].instance] == step.call
    ensures Coherent(Next(w, env, step))
  {
    var t := Next(w, env, step);
    forall c | c in t.calls
      ensures ExpectsLoaded(t.calls[c].phase) && FieldOk(t, c)
    {
      if c == step.call {
        MovedCallCoherent(w, env, step);
      } else {
        OtherCallCoherent(w, env, step, c);
      }
    }
    if step.Swap? && step.call in w.calls && w.calls[step.call].phase.Ready? {
      assert ExpectsLoaded(w.calls[step.call].phase);
    } else {
      QuietStep(w, env, step);
    }
  }

  lemma {:induction false} UndisturbedIsCoherent(initial: Text, env: Env, steps: seq<Step>)
    requires Undisturbed(initial, env, steps)
    ensures Coherent(Run(initial, env, steps))
  {
    if steps != [] {
      UndisturbedIsCoherent(initial, env, steps[..|steps| - 1]);
      EveryRunKeepsInv(initial, env, steps[..|steps| - 1]);
      NextKeepsCoherent(Run(initial, env, steps[..|steps| - 1]), env, steps[|steps| - 1]);
    }
  }

  // ---------------------------------------------------------------- exactly when

  ghost predicate BuiltOnPredecessors(w: World) {
    forall n | 0 <= n < |w.commits| :: w.commits[n].base == n
  }

  /** Every withLock that committed found the version it had loaded when it read the field of its instance back. */
  ghost predicate CommittedCapturesMatch(w: World) {
    forall n | 0 <= n < |w.commits| && w.commits[n].call in w.captures ::
      var k := w.captures[w.commits[n].call]; k.field == k.loaded
  }

  ghost predicate CallCaptured(w: World, c: nat)
    requires c in w.calls
  {
    var ph := w.calls[c].phase;
    && (ph.Captured? ==> c in w.captures && w.captures[c] == Capturing(ph.version, ph.expected))
    && (ph.Ready? && w.calls[c].purpose.WithCallback? ==> c in w.captures && w.captures[c] == Capturing(ph.version, ph.expected))
    && (ph.Ready? && w.calls[c].purpose.Import? ==> c !in w.captures && ph.expected == ph.version)
    && (ph.Reading? || ph.Loaded? ==> c !in w.captures)
  }

  ghost predicate CommitCaptured(w: World, n: nat)
    requires n < |w.commits|
  {
    var k := w.commits[n];
    if k.call in w.captures then w.captures[k.call] == Capturing(k.base, n) else k.base == n
  }

  /** What a call captured is what it commits with: it expects the field and is built on what it loaded. */
  ghost predicate CapturesOk(w: World) {
    && (forall c | c in w.calls :: CallCaptured(w, c))
    && (forall n: nat | n < |w.commits| :: CommitCaptured(w, n))
    && w.captures.Keys <= w.started
  }

  lemma OthersKeepCapture(w: World, env: Env, step: Step, c: nat)
    requires c != step.call
    ensures c in Next(w, env, step).captures <==> c in w.captures
    ensures c in w.captures ==> Next(w, env, step).captures[c] == w.captures[c]
    ensures c in Next(w, env, step).calls ==> c in w.calls && Next(w, env, step).calls[c] == w.calls[c]
  {
  }

  lemma MovedCallCaptured(w: World, env: Env, step: Step)
    requires Inv(w, env) && CapturesOk(w) && step.call in Next(w, env, step).calls
    ensures CallCaptured(Next(w, env, step), step.call)
  {
    if step.call in w.calls {
      assert PhaseOk(w, env, step.call) && CallCaptured(w, step.call);
    }
  }

  lemma OldCommitCaptured(w: World, env: Env, step: Step, n: nat)
    requires Inv(w, env) && CapturesOk(w) && n < |w.commits|
    ensures w.commits <= Next(w, env, step).commits && CommitCaptured(Next(w, env, step), n)
  {
    assert CommitCaptured(w, n) && CommitOk(w, env, n);
    var c := w.commits[n].call;
    if c != step.call {
      OthersKeepCapture(w, env, step, c);
    } else if c in w.calls {
      assert PhaseOk(w, env, c);
    }
  }

  lemma NewCommitCaptured(w: World, c: nat, answerLost: bool)
    requires c in w.calls && w.calls[c].phase.Ready? && w.calls[c].phase.expected == |w.commits|
    requires CallCaptured(w, c) && !w.calls[c].purpose.ReadOnly?
    ensures CommitCaptured(DoSwap(w, c, w.calls[c].phase, answerLost), |w.commits|)
  {
  }

  lemma NextKeepsCaptures(w: World, env: Env, step: Step)
    requires Inv(w, env) && CapturesOk(w)
    ensures CapturesOk(Next(w, env, step))
  {
    var t := Next(w, env, step);
    forall c | c in t.calls
      ensures CallCaptured(t, c)
    {
      if c == step.call {
        MovedCallCaptured(w, env, step);
      } else {
        OthersKeepCapture(w, env, step, c);
        assert CallCaptured(w, c);
      }
    }
    forall n: nat | n < |t.commits|
      ensures CommitCaptured(t, n)
    {
      if n < |w.commits| {
        OldCommitCaptured(w, env, step, n);
      } else {
        CommitStep(w, env, step);
        assert PhaseOk(w, env, step.call) && CallCaptured(w, step.call);
        NewCommitCaptured(w, step.call, step.answerLost);
      }
    }
  }

  lemma CommitStep(w: World, env: Env, step: Step)
    requires |Next(w, env, step).commits| > |w.commits|
    ensures step.Swap? && step.call in w.calls && w.calls[step.call].phase.Ready?
    ensures w.calls[step.call].phase.expected == |w.commits| && |Next(w, env, step).commits| == |w.commits| + 1
  {
    if !(step.Swap? && step.call in w.calls && w.calls[step.call].phase.Ready?) {
      QuietStep(w, env, step);
    }
  }

  lemma {:induction false} EveryRunKeepsCaptures(initial: Text, env: Env, steps: seq<Step>)
    ensures CapturesOk(Run(initial, env, steps))
  {
    if steps != [] {
      EveryRunKeepsCaptures(initial, env, steps[..|steps| - 1]);
      EveryRunKeepsInv(initial, env, steps[..|steps| - 1]);
      NextKeepsCaptures(Run(initial, env, steps[..|steps| - 1]), env, steps[|steps| - 1]);
    }
  }

  /** In every run, every version is built on the one before it if and only if every withLock that committed had
      captured the version it loaded. Imports never break it. */
  lemma BuiltOnPredecessorsIff(initial: Text, env: Env, steps: seq<Step>)
    ensures BuiltOnPredecessors(Run(initial, env, steps)) <==> CommittedCapturesMatch(Run(initial, env, steps))
  {
    EveryRunKeepsCaptures(initial, env, steps);
    var w := Run(initial, env, steps);
    forall n: nat | n < |w.commits|
      ensures w.commits[n].base == n
              <==> (w.commits[n].call in w.captures ==>
                      w.captures[w.commits[n].call].field == w.captures[w.commits[n].call].loaded)
    {
      assert CommitCaptured(w, n);
    }
  }

  /** A capture reads the field of its instance; it misses the version the call loaded only if another call of
      the instance has set the field since. */
  lemma CaptureRecords(w: World, env: Env, c: nat)
    requires c in w.calls && w.calls[c].phase.Loaded? && w.calls[c].instance in w.fields && FieldOk(w, c)
    ensures Next(w, env, Capture(c)).captures
            == w.captures[c := Capturing(w.calls[c].phase.version, w.fields[w.calls[c].instance])]
    ensures w.fields[w.calls[c].instance] != w.calls[c].phase.version ==> w.writers[w.calls[c].instance] != c
  {
  }

  lemma {:induction false} ChainIsSerial(w: World, env: Env, n: nat)
    requires Inv(w, env) && BuiltOnPredecessors(w) && n <= |w.commits|
    ensures StateAt(w, n) == Serial(w.initial, env, w.commits[..n])
  {
    if n > 0 {
      ChainIsSerial(w, env, n - 1);
      assert CommitOk(w, env, n - 1);
      assert w.commits[..n][..n - 1] == w.commits[..n - 1];
    }
  }

  /** Any number of clients whose committing calls captured what they loaded: every version is what the commits
      before it give when run one after the other, each call commits at most once, and no committed update is
      lost. */
  lemma Serializable(initial: Text, env: Env, steps: seq<Step>, n: nat)
    requires CommittedCapturesMatch(Run(initial, env, steps)) && n <= |Run(initial, env, steps).commits|
    ensures StateAt(Run(initial, env, steps), n) == Serial(initial, env, Run(initial, env, steps).commits[..n])
    ensures forall i, j | 0 <= i < j < |Run(initial, env, steps).commits| ::
              Run(initial, env, steps).commits[i].call != Run(initial, env, steps).commits[j].call
  {
    EveryRunKeepsInv(initial, env, steps);
    BuiltOnPredecessorsIff(initial, env, steps);
    ChainIsSerial(Run(initial, env, steps), env, n);
  }

  /** In particular when nobody else of its instance sets the field between the load of a withLock and its
      capture. */
  lemma UndisturbedIsSerializable(initial: Text, env: Env, steps: seq<Step>, n: nat)
    requires Undisturbed(initial, env, steps) && n <= |Run(initial, env, steps).commits|
    ensures CommittedCapturesMatch(Run(initial, env, steps))
    ensures StateAt(Run(initial, env, steps), n) == Serial(initial, env, Run(initial, env, steps).commits[..n])
  {
    UndisturbedIsCoherent(initial, env, steps);
    BuiltOnPredecessorsIff(initial, env, steps);
    Serializable(initial, env, steps, n);
  }

  // ---------------------------------------------------------------- conflicts and no-ops

  /** A conflicting swap, a throwing callback and an import of the stored state leave no trace in the versions. */
  lemma FailedCallsLeaveNoTrace(w: World, env: Env, step: Step)
    requires step.call in w.calls
    ensures step.Swap? && w.calls[step.call].phase.Ready? && w.calls[step.call].phase.expected != |w.commits|
            ==> Next(w, env, step).commits == w.commits && step.call !in Next(w, env, step).calls
    ensures step.Return? && step.throws && w.calls[step.call].phase.Captured?
            ==> Next(w, env, step).commits == w.commits && step.call !in Next(w, env, step).calls
    ensures step.Arrive? && w.calls[step.call].phase.Reading? && w.calls[step.call].purpose.Import?
            ==> (step.call !in Next(w, env, step).calls
                 <==> w.calls[step.call].phase.snapshot == env.scrub(w.calls[step.call].purpose.store))
  {
  }

  /** A call that is gone has no further effect, so it has committed or never will. */
  lemma GoneIsFinal(w: World, env: Env, step: Step, c: nat)
    requires c in w.started && c !in w.calls
    ensures c in Next(w, env, step).started && c !in Next(w, env, step).calls
    ensures step.call == c ==> Next(w, env, step) == w
  {
  }

  // ---------------------------------------------------------------- a run that loses an update

  const APPEND := Env((fn: nat, s: Text) => s + [if fn == 0 then 'a' else 'b'], (s: Text) => s)

  /** Instance 0 loads version 0 for a withLock; instance 1 commits; a getStore of instance 0 then brings
      version 1 into the shared field just before the withLock reads it back. */
  function LosingRun(): seq<Step> {
    LosingStart() + LosingEnd()
  }

  function LosingStart(): seq<Step> {
    [Load(0, 0, WithCallback(0)), Arrive(0), Load(1, 1, WithCallback(1)), Arrive(1), Capture(1), Return(1, false),
     Swap(1, false)]
  }

  function LosingEnd(): seq<Step> {
    [Load(2, 0, ReadOnly), Arrive(2), Capture(0), Return(0, false), Swap(0, false)]
  }

  function From(w: World, env: Env, steps: seq<Step>): World
    decreases |steps|
  {
    if steps == [] then w else From(Next(w, env, steps[0]), env, steps[1..])
  }

  lemma {:induction false} RunIsFrom(initial: Text, env: Env, done: seq<Step>, steps: seq<Step>)
    ensures Run(initial, env, done + steps) == From(Run(initial, env, done), env, steps)
    decreases |steps|
  {
    if steps == [] {
      assert done + steps == done;
    } else {
      assert (done + [steps[0]])[..|done|] == done;
      assert done + [steps[0]] + steps[1..] == done + steps;
      RunIsFrom(initial, env, done + [steps[0]], steps[1..]);
    }
  }

  lemma {:induction false} FromSplit(w: World, env: Env, a: seq<Step>, b: seq<Step>)
    ensures From(w, env, a + b) == From(From(w, env, a), env, b)
    decreases |a|
  {
    if a == [] {
      assert a + b == b;
    } else {
      assert (a + b)[0] == a[0] && (a + b)[1..] == a[1..] + b;
      FromSplit(Next(w, env, a[0]), env, a[1..], b);
    }
  }

  /** The second instance has committed; the first still holds version 0. */
  const HALFWAY := World(
    "", [Commit(1, WithCallback(1), 0, "b")],
    map[0 := Call(0, WithCallback(0), Loaded(0, "")), 1 := Call(1, WithCallback(1), Swapped(1))],
    {0, 1}, map[0 := 0, 1 := 0], map[0 := 0, 1 := 1], map[1 := Capturing(0, 0)])

  lemma FromFirst(w: World, env: Env, s: seq<Step>, i: nat)
    requires i < |s|
    ensures From(w, env, s[i..]) == From(Next(w, env, s[i]), env, s[i + 1..])
  {
    assert s[i..][0] == s[i] && s[i..][1..] == s[i + 1..];
  }

  const LOADING := World("", [], map[0 := Call(0, WithCallback(0), Loaded(0, ""))], {0}, map[0 := 0], map[0 := 0], map[])

  lemma FirstLoads()
    ensures Next(Next(Start(""), APPEND, Load(0, 0, WithCallback(0))), APPEND, Arrive(0)) == LOADING
  {
    var w1 := Next(Start(""), APPEND, Load(0, 0, WithCallback(0)));
    assert w1.calls == map[0 := Call(0, WithCallback(0), Reading(0, ""))];
  }

  lemma SecondLoads()
    ensures var w := Next(Next(LOADING, APPEND, Load(1, 1, WithCallback(1))), APPEND, Arrive(1));
            w == World("", [], LOADING.calls[1 := Call(1, WithCallback(1), Loaded(0, ""))], {0, 1},
                       map[0 := 0, 1 := 0], map[0 := 0, 1 := 1], map[])
  {
    assert !Locked(LOADING, 1);
    var w1 := Next(LOADING, APPEND, Load(1, 1, WithCallback(1)));
    assert w1.calls == LOADING.calls[1 := Call(1, WithCallback(1), Reading(0, ""))];
  }

  lemma AppendApplies()
    ensures APPEND.scrub(APPEND.apply(0, "")) == "a" && APPEND.scrub(APPEND.apply(1, "")) == "b"
  {
    assert "" + ['a'] == "a" && "" + ['b'] == "b";
  }

  lemma SecondCommits(w: World)
    requires w == World("", [], LOADING.calls[1 := Call(1, WithCallback(1), Loaded(0, ""))], {0, 1},
                        map[0 := 0, 1 := 0], map[0 := 0, 1 := 1], map[])
    ensures Next(Next(Next(w, APPEND, Capture(1)), APPEND, Return(1, false)), APPEND, Swap(1, false)) == HALFWAY
  {
    AppendApplies();
    var w1 := Next(w, APPEND, Capture(1));
    assert w1 == w.(calls := w.calls[1 := Call(1, WithCallback(1), Captured(0, "", 0))], captures := map[1 := Capturing(0, 0)]);
    var w2 := Next(w1, APPEND, Return(1, false));
    assert w2 == w1.(calls := w.calls[1 := Call(1, WithCallback(1), Ready(0, 0, "b"))]);
  }

  lemma FourSteps(w: World, env: Env, s: seq<Step>)
    requires |s| >= 4
    ensures From(w, env, s) == From(Next(Next(Next(Next(w, env, s[0]), env, s[1]), env, s[2]), env, s[3]), env, s[4..])
  {
    assert s[0..] == s;
    FromFirst(w, env, s, 0);
    FromFirst(Next(w, env, s[0]), env, s, 1);
    FromFirst(Next(Next(w, env, s[0]), env, s[1]), env, s, 2);
    FromFirst(Next(Next(Next(w, env, s[0]), env, s[1]), env, s[2]), env, s, 3);
  }

  lemma ThreeSteps(w: World, env: Env, s: seq<Step>)
    requires |s| == 3
    ensures From(w, env, s) == Next(Next(Next(w, env, s[0]), env, s[1]), env, s[2])
  {
    assert s[0..] == s && s[3..] == [];
    FromFirst(w, env, s, 0);
    FromFirst(Next(w, env, s[0]), env, s, 1);
    FromFirst(Next(Next(w, env, s[0]), env, s[1]), env, s, 2);
  }

  lemma FirstHalf()
    ensures From(Start(""), APPEND, LosingStart()) == HALFWAY
  {
    var s := LosingStart();
    FirstLoads();
    SecondLoads();
    FourSteps(Start(""), APPEND, s);
    var w4 := Next(Next(LOADING, APPEND, s[2]), APPEND, s[3]);
    SecondCommits(w4);
    ThreeSteps(w4, APPEND, s[4..]);
  }

  lemma ReaderArrives()
    ensures var w := Next(Next(HALFWAY, APPEND, Load(2, 0, ReadOnly)), APPEND, Arrive(2));
            && w.commits == HALFWAY.commits && w.initial == "" && 0 in w.calls
            && w.calls[0] == Call(0, WithCallback(0), Loaded(0, "")) && 0 in w.fields && w.fields[0] == 1
  {
    var w1 := Next(HALFWAY, APPEND, Load(2, 0, ReadOnly));
    assert w1.calls[2] == Call(0, ReadOnly, Reading(1, "b"));
  }

  lemma FirstOverwrites(w: World)
    requires w.commits == HALFWAY.commits && w.initial == "" && 0 in w.calls
    requires w.calls[0] == Call(0, WithCallback(0), Loaded(0, "")) && 0 in w.fields && w.fields[0] == 1
    ensures Next(Next(Next(w, APPEND, Capture(0)), APPEND, Return(0, false)), APPEND, Swap(0, false)).commits
            == [Commit(1, WithCallback(1), 0, "b"), Commit(0, WithCallback(0), 0, "a")]
  {
    AppendApplies();
    var w1 := Next(w, APPEND, Capture(0));
    assert w1 == w.(calls := w.calls[0 := Call(0, WithCallback(0), Captured(0, "", 1))], captures := w1.captures);
    var w2 := Next(w1, APPEND, Return(0, false));
    assert w2 == w1.(calls := w.calls[0 := Call(0, WithCallback(0), Ready(0, 1, "a"))]);
  }

  lemma LastStep(w: World, env: Env, s: seq<Step>)
    requires |s| == 1
    ensures From(w, env, s) == Next(w, env, s[0])
  {
    assert s[1..] == [];
  }

  lemma SecondHalf()
    ensures From(HALFWAY, APPEND, LosingEnd()).commits
            == [Commit(1, WithCallback(1), 0, "b"), Commit(0, WithCallback(0), 0, "a")]
  {
    var s := LosingEnd();
    ReaderArrives();
    var w2 := Next(Next(HALFWAY, APPEND, s[0]), APPEND, s[1]);
    FirstOverwrites(w2);
    FourSteps(HALFWAY, APPEND, s);
    LastStep(Next(Next(w2, APPEND, s[2]), APPEND, s[3]), APPEND, s[4..]);
  }

  lemma SerialOfBoth()
    ensures Serial("", APPEND, [Commit(1, WithCallback(1), 0, "b"), Commit(0, WithCallback(0), 0, "a")]) == "ba"
  {
    var b, a := Commit(1, WithCallback(1), 0, "b"), Commit(0, WithCallback(0), 0, "a");
    assert [b, a][..1] == [b] && [b][..0] == [];
    assert Serial("", APPEND, [b]) == "b";
  }

  /** The first instance swaps in "a" over the committed "b": the update of version 1 is lost. */
  lemma LostUpdateWitness(steps: seq<Step>)
    requires steps == LosingRun()
    ensures Run("", APPEND, steps).commits == [Commit(1, WithCallback(1), 0, "b"), Commit(0, WithCallback(0), 0, "a")]
    ensures StateAt(Run("", APPEND, steps), 2) == "a" != Serial("", APPEND, Run("", APPEND, steps).commits)
  {
    RunIsFrom("", APPEND, [], steps);
    assert [] + steps == steps;
    FromSplit(Start(""), APPEND, LosingStart(), LosingEnd());
    FirstHalf();
    SecondHalf();
    SerialOfBoth();
  }
}
