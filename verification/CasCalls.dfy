/** How a call of a repository ends when nobody comes between (src/persistence/supabase-repository.ts), and when a
    swap goes through whoever else is at work. */
module CasCalls {
  import opened Outcomes
  import opened CasRepository

  /** The call is new, and it may begin: a withLock waits for the one that holds its instance. */
  ghost predicate MayLoad(w: World, c: nat, instance: nat, purpose: Purpose) {
    && c !in w.started && c !in w.calls
    && (purpose.WithCallback? ==> forall d | d in w.calls && w.calls[d].purpose.WithCallback? :: w.calls[d].instance != instance)
  }

  /** The call is in this phase, and otherwise the world is `w` with the field of its instance at `field`. */
  ghost predicate InPhase(w: World, t: World, c: nat, instance: nat, purpose: Purpose, ph: Phase, field: Option<nat>) {
    && t.initial == w.initial && t.commits == w.commits && t.started == w.started + {c}
    && t.calls == w.calls[c := Call(instance, purpose, ph)]
    && t.fields == if field.Some? then w.fields[instance := field.value] else w.fields
  }

  /** The call is over: these are the versions and this is the field of its instance. */
  ghost predicate Over(w: World, t: World, c: nat, instance: nat, commits: seq<Commit>, field: nat) {
    && t.initial == w.initial && t.commits == commits && t.calls == w.calls && t.started == w.started + {c}
    && t.fields == w.fields[instance := field]
  }

  function Newest(w: World): Text {
    StateAt(w, |w.commits|)
  }

  /** A call that may not begin does nothing. */
  lemma LoadBegins(w: World, env: Env, c: nat, instance: nat, purpose: Purpose)
    requires c !in w.calls
    ensures var t := Next(w, env, Load(c, instance, purpose));
            if MayLoad(w, c, instance, purpose)
            then InPhase(w, t, c, instance, purpose, Reading(|w.commits|, Newest(w)), None) else t == w
  {
  }

  /** getStore leaves the version it has read in the field. */
  lemma ReadEnds(w: World, env: Env, c: nat, instance: nat)
    requires MayLoad(w, c, instance, ReadOnly)
    ensures Over(w, Next(Next(w, env, Load(c, instance, ReadOnly)), env, Arrive(c)), c, instance, w.commits, |w.commits|)
  {
    LoadBegins(w, env, c, instance, ReadOnly);
    assert w.calls[c := Call(instance, ReadOnly, Reading(|w.commits|, Newest(w)))] - {c} == w.calls;
  }

  function AfterCallback(w: World, env: Env, c: nat, instance: nat, fn: nat): World {
    var t := Next(Next(w, env, Load(c, instance, WithCallback(fn))), env, Arrive(c));
    Next(Next(t, env, Capture(c)), env, Return(c, false))
  }

  lemma LockIsLoaded(w: World, env: Env, c: nat, instance: nat, fn: nat)
    requires MayLoad(w, c, instance, WithCallback(fn))
    ensures var t := Next(Next(w, env, Load(c, instance, WithCallback(fn))), env, Arrive(c));
            InPhase(w, t, c, instance, WithCallback(fn), Loaded(|w.commits|, Newest(w)), Some(|w.commits|))
  {
    LoadBegins(w, env, c, instance, WithCallback(fn));
  }

  /** The callback gets the newest state. Its result is what will be stored, and the version expected is the one that
      was read; when it throws, the call is over. */
  lemma CallbackReturns(w: World, t: World, env: Env, c: nat, instance: nat, fn: nat)
    requires InPhase(w, t, c, instance, WithCallback(fn), Loaded(|w.commits|, Newest(w)), Some(|w.commits|))
    requires c !in w.calls
    ensures InPhase(w, Next(Next(t, env, Capture(c)), env, Return(c, false)), c, instance, WithCallback(fn),
                    Ready(|w.commits|, |w.commits|, env.scrub(env.apply(fn, Newest(w)))), Some(|w.commits|))
    ensures Over(w, Next(Next(t, env, Capture(c)), env, Return(c, true)), c, instance, w.commits, |w.commits|)
  {
    var s := Next(t, env, Capture(c));
    assert s.calls == w.calls[c := Call(instance, WithCallback(fn), Captured(|w.commits|, Newest(w), |w.commits|))];
    assert s.calls - {c} == w.calls;
  }

  /** A swap that finds the expected version installs its state as the next one. The version it is told goes into the
      field, unless the answer is lost. */
  lemma SwapEnds(w: World, t: World, env: Env, c: nat, instance: nat, purpose: Purpose, next: Text, lost: bool)
    requires InPhase(w, t, c, instance, purpose, Ready(|w.commits|, |w.commits|, next), Some(|w.commits|)) && c !in w.calls
    ensures var n := |w.commits|;
            var s := Next(t, env, Swap(c, lost));
            Over(w, if lost then s else Next(s, env, Finish(c)), c, instance, w.commits + [Commit(c, purpose, n, next)],
                 if lost then n else n + 1)
  {
    var s := Next(t, env, Swap(c, lost));
    assert w.calls[c := t.calls[c]] - {c} == w.calls;
    if !lost {
      assert s.calls == w.calls[c := Call(instance, purpose, Swapped(|w.commits| + 1))];
      assert s.calls - {c} == w.calls;
      assert w.fields[instance := |w.commits|][instance := |w.commits| + 1] == w.fields[instance := |w.commits| + 1];
    }
  }

  /** An undisturbed withLock installs the result of its callback on the newest state as the next version. */
  lemma LockCommits(w: World, env: Env, c: nat, instance: nat, fn: nat, lost: bool)
    requires MayLoad(w, c, instance, WithCallback(fn))
    ensures var s := Next(AfterCallback(w, env, c, instance, fn), env, Swap(c, lost));
            Over(w, if lost then s else Next(s, env, Finish(c)), c, instance,
                 w.commits + [Commit(c, WithCallback(fn), |w.commits|, env.scrub(env.apply(fn, Newest(w))))],
                 if lost then |w.commits| else |w.commits| + 1)
  {
    LockIsLoaded(w, env, c, instance, fn);
    CallbackReturns(w, Next(Next(w, env, Load(c, instance, WithCallback(fn))), env, Arrive(c)), env, c, instance, fn);
    SwapEnds(w, AfterCallback(w, env, c, instance, fn), env, c, instance, WithCallback(fn),
             env.scrub(env.apply(fn, Newest(w))), lost);
  }

  /** An undisturbed import installs its state exactly when it is not the newest one already. */
  lemma ImportCommitsIff(w: World, env: Env, c: nat, instance: nat, store: Text, lost: bool)
    requires MayLoad(w, c, instance, Import(store))
    ensures var t := Next(Next(w, env, Load(c, instance, Import(store))), env, Arrive(c));
            var s := Next(t, env, Swap(c, lost));
            if env.scrub(store) == Newest(w) then Over(w, t, c, instance, w.commits, |w.commits|)
            else Over(w, if lost then s else Next(s, env, Finish(c)), c, instance,
                      w.commits + [Commit(c, Import(store), |w.commits|, env.scrub(store))],
                      if lost then |w.commits| else |w.commits| + 1)
  {
    LoadBegins(w, env, c, instance, Import(store));
    var t := Next(Next(w, env, Load(c, instance, Import(store))), env, Arrive(c));
    if env.scrub(store) == Newest(w) {
      assert w.calls[c := Call(instance, Import(store), Reading(|w.commits|, Newest(w)))] - {c} == w.calls;
    } else {
      SwapEnds(w, t, env, c, instance, Import(store), env.scrub(store), lost);
    }
  }

  /** Whoever else is at work, in every run a swap goes through exactly when the newest version is still the one that
      its call expects, and then adds just its own state; an import expects the version that it compared with. */
  lemma SwapCommitsIff(initial: Text, env: Env, steps: seq<Step>, c: nat, lost: bool)
    requires c in Run(initial, env, steps).calls && Run(initial, env, steps).calls[c].phase.Ready?
    ensures var w := Run(initial, env, steps);
            var call, ph := w.calls[c], w.calls[c].phase;
            && Next(w, env, Swap(c, lost)).commits
               == (if ph.expected == |w.commits| then w.commits + [Commit(c, call.purpose, ph.version, ph.next)] else w.commits)
            && (call.purpose.Import? ==> ph.expected == ph.version)
            && (ph.expected != |w.commits| || lost ==> c !in Next(w, env, Swap(c, lost)).calls)
  {
    EveryRunKeepsInv(initial, env, steps);
    assert PhaseOk(Run(initial, env, steps), env, c);
  }
}
