/** The work of the reindex worker (src/catalog/reindex-worker.ts:29-114): which job is taken, how an undisturbed job
    ends, how often one is tried, and which writes and deletes decide whether an item has a document. */
module CatalogWork {
  import opened Outcomes
  import opened CatalogText
  import opened CatalogIngestion
  import opened CatalogRevisions
  import opened CatalogIndex

  // ---------------------------------------------------------------- taking a job

  /** The job waits for its first try or its delay is over, or it is leased and the lease has run out. */
  predicate Takeable(j: Job, now: int) {
    j.status in {Pending, Leased} && (if j.leaseUntil.None? then j.status == Pending else j.leaseUntil.value <= now)
  }

  ghost predicate FirstTakeable(outbox: seq<Job>, now: int, i: nat) {
    && i < |outbox| && Takeable(outbox[i], now)
    && forall k | 0 <= k < i :: !Takeable(outbox[k], now)
  }

  /** The worker holds job i, which is leased until then; the other jobs and the rows are as before. */
  ghost predicate Taken(s: World, t: World, w: nat, i: nat, until: int) {
    && i < |s.store.outbox| && w in t.workers && t.workers[w].job == i
    && t.store == s.store.(outbox := s.store.outbox[i := s.store.outbox[i].(status := Leased, leaseUntil := Some(until))])
    && forall v | v != w :: (v in t.workers <==> v in s.workers) && (v in s.workers ==> t.workers[v] == s.workers[v])
  }

  /** A free worker takes the first job that may be taken, and only such a job. */
  lemma ClaimTakesFirst(s: World, w: nat, now: int, leaseMs: nat)
    requires w !in s.workers
    ensures forall i: nat | FirstTakeable(s.store.outbox, now, i) ::
              Taken(s, Next(s, Claim(w, now, leaseMs)), w, i, now + leaseMs)
    ensures (forall i | 0 <= i < |s.store.outbox| :: !Takeable(s.store.outbox[i], now)) ==> Next(s, Claim(w, now, leaseMs)) == s
  {
    var r := FirstReady(s.store.outbox, now, 0);
    assert forall i | 0 <= i < |s.store.outbox| :: Ready(s.store.outbox[i], now) <==> Takeable(s.store.outbox[i], now);
    forall i: nat | FirstTakeable(s.store.outbox, now, i)
      ensures r == Some(i)
    {
      assert Ready(s.store.outbox[i], now);
      assert r.Some?;
      assert r.value >= i;
    }
  }

  // ---------------------------------------------------------------- how an undisturbed job ends

  /** Job i is done and its worker is free; rows, revisions and documents are these. */
  ghost predicate JobDone(s: World, t: World, w: nat, i: nat, revisions: Revisions, documents: Documents)
    requires i < |s.store.outbox|
  {
    && t.store.outbox == s.store.outbox[i := s.store.outbox[i].(status := Done, leaseUntil := None)]
    && t.store.products == s.store.products && t.store.revisions == revisions && t.documents == documents
    && t.workers == s.workers
  }

  /** Job i has used one more try: it waits for its delay, or is given up after the last one. */
  ghost predicate JobFailed(s: World, t: World, w: nat, i: nat, now: int, maxAttempts: nat)
    requires i < |s.store.outbox|
  {
    var j := s.store.outbox[i];
    && |t.store.outbox| == |s.store.outbox| && t.store.outbox == s.store.outbox[i := t.store.outbox[i]]
    && SameJob(j, t.store.outbox[i]) && t.store.outbox[i].attempts == j.attempts + 1
    && (if j.attempts + 1 >= maxAttempts then t.store.outbox[i].status == DeadLetter
        else t.store.outbox[i].status == Pending && t.store.outbox[i].leaseUntil == Some(now + Delay(j.attempts)))
    && t.store.products == s.store.products && t.store.revisions == s.store.revisions && t.documents == s.documents
    && t.workers == s.workers
  }

  /** The delays in milliseconds: 1, 2, 4, 8 and 16 seconds, and half a minute from then on. */
  function Delay(attempts: nat): nat {
    if attempts < 5 then [1000, 2000, 4000, 8000, 16000][attempts] else 30000
  }

  lemma {:induction false} PowersGrow(n: nat)
    ensures n >= 5 ==> Pow2(n) >= 32
  {
    if n > 5 { PowersGrow(n - 1); }
    if n == 5 {
      assert Pow2(5) == 2 * Pow2(4) && Pow2(4) == 2 * Pow2(3) && Pow2(3) == 2 * Pow2(2) && Pow2(2) == 2 * Pow2(1);
    }
  }

  lemma DelayOf(n: nat)
    ensures Min(30_000, 1000 * Pow2(n)) == Delay(n)
  {
    PowersGrow(n);
    assert Pow2(1) == 2 && Pow2(2) == 2 * Pow2(1) && Pow2(3) == 2 * Pow2(2) && Pow2(4) == 2 * Pow2(3);
  }

  /** Job i is the first that may be taken and worker w is free. */
  ghost predicate Offered(s: World, w: nat, now: int, i: nat) {
    w !in s.workers && FirstTakeable(s.store.outbox, now, i)
  }

  lemma OfferedIsClaimed(s: World, w: nat, now: int, leaseMs: nat, i: nat)
    requires Offered(s, w, now, i)
    ensures Next(s, Claim(w, now, leaseMs)) == AfterClaim(s, w, i, now + leaseMs)
  {
    var r := FirstReady(s.store.outbox, now, 0);
    assert Ready(s.store.outbox[i], now);
    assert Takeable(s.store.outbox[r.value], now) && r.value >= i;
  }

  /** The job has nothing to write: its revision is superseded, or the index already has it. */
  predicate NothingToWrite(st: Store, j: Job) {
    && j.item in st.revisions
    && (j.searchRevision < st.revisions[j.item].search || j.searchRevision <= st.revisions[j.item].index)
  }

  /** Worker w has begun job i, on documents that it may have changed. */
  ghost predicate Begun(s: World, c: World, w: nat, i: nat, until: int, documents: Documents, ph: Phase)
    requires i < |s.store.outbox|
  {
    c == World(s.store.(outbox := s.store.outbox[i := Leasing(s.store.outbox[i], until)]), documents, s.workers[w := ph])
  }

  lemma ClaimBegins(s: World, w: nat, i: nat, now: int, leaseMs: nat)
    requires Offered(s, w, now, i)
    ensures var j, c, fields := s.store.outbox[i], Next(s, Claim(w, now, leaseMs)), CurrentFields(s.store.products, s.store.outbox[i].item);
            if j.operation == Delete then Begun(s, c, w, i, now + leaseMs, s.documents - {j.item}, Executed(i))
            else if NothingToWrite(s.store, j) then Begun(s, c, w, i, now + leaseMs, s.documents, Executed(i))
            else Begun(s, c, w, i, now + leaseMs, s.documents, if fields.Some? then Embedding(i, fields.value) else Failed(i))
  {
    OfferedIsClaimed(s, w, now, leaseMs, i);
  }

  lemma ExecutedEnds(s: World, c: World, w: nat, i: nat, until: int, later: int, maxAttempts: nat)
    requires w !in s.workers && i < |s.store.outbox| && c.workers == s.workers[w := Executed(i)]
    requires c.store.outbox == s.store.outbox[i := Leasing(s.store.outbox[i], until)] && c.store.products == s.store.products
    ensures JobDone(s, Next(c, Settle(w, later, maxAttempts)), w, i, c.store.revisions, c.documents)
  {
    assert c.workers - {w} == s.workers;
  }

  lemma FailedEnds(s: World, c: World, w: nat, i: nat, until: int, later: int, maxAttempts: nat)
    requires w !in s.workers && i < |s.store.outbox| && Begun(s, c, w, i, until, s.documents, Failed(i))
    ensures JobFailed(s, Next(c, Settle(w, later, maxAttempts)), w, i, later, maxAttempts)
  {
    DelayOf(s.store.outbox[i].attempts);
    assert c.workers - {w} == s.workers;
  }

  /** A Delete job drops the document of its item and nothing else; an Upsert job with nothing to write only becomes
      done. */
  lemma ShortJobEnds(s: World, w: nat, i: nat, now: int, leaseMs: nat, later: int, maxAttempts: nat)
    requires Offered(s, w, now, i)
    requires s.store.outbox[i].operation == Delete || NothingToWrite(s.store, s.store.outbox[i])
    ensures var j, t := s.store.outbox[i], Next(Next(s, Claim(w, now, leaseMs)), Settle(w, later, maxAttempts));
            JobDone(s, t, w, i, s.store.revisions, if j.operation == Delete then s.documents - {j.item} else s.documents)
  {
    ClaimBegins(s, w, i, now, leaseMs);
    ExecutedEnds(s, Next(s, Claim(w, now, leaseMs)), w, i, now + leaseMs, later, maxAttempts);
  }

  lemma EmbedWrites(s: World, c: World, w: nat, i: nat, until: int, fields: Fields, vector: seq<real>)
    requires i < |s.store.outbox| && Begun(s, c, w, i, until, s.documents, Embedding(i, fields))
    requires !NothingToWrite(s.store, s.store.outbox[i])
    ensures var j, d := s.store.outbox[i], Next(c, Embed(w, Some(vector)));
            && d.workers == s.workers[w := Executed(i)] && d.store.outbox == c.store.outbox
            && d.store.products == s.store.products
            && d.store.revisions == (if j.item in s.store.revisions
                                     then s.store.revisions[j.item := s.store.revisions[j.item].(index := j.searchRevision)]
                                     else s.store.revisions)
            && d.documents == s.documents[j.item := Document(fields, vector, j.searchRevision)]
  {
  }

  /** An Upsert job with something to write, whose item has a row, writes the fields of this row with the vector that
      the provider gives, under its own revision. */
  lemma WritingJobEnds(
    s: World, w: nat, i: nat, now: int, leaseMs: nat, vector: seq<real>, later: int, maxAttempts: nat)
    requires Offered(s, w, now, i)
    requires s.store.outbox[i].operation == Upsert && !NothingToWrite(s.store, s.store.outbox[i])
    requires CurrentFields(s.store.products, s.store.outbox[i].item).Some?
    ensures var j := s.store.outbox[i];
            var t := Next(Next(Next(s, Claim(w, now, leaseMs)), Embed(w, Some(vector))), Settle(w, later, maxAttempts));
            JobDone(s, t, w, i,
                    if j.item in s.store.revisions
                    then s.store.revisions[j.item := s.store.revisions[j.item].(index := j.searchRevision)]
                    else s.store.revisions,
                    s.documents[j.item := Document(CurrentFields(s.store.products, j.item).value, vector, j.searchRevision)])
  {
    var c := Next(s, Claim(w, now, leaseMs));
    ClaimBegins(s, w, i, now, leaseMs);
    EmbedWrites(s, c, w, i, now + leaseMs, CurrentFields(s.store.products, s.store.outbox[i].item).value, vector);
    ExecutedEnds(s, Next(c, Embed(w, Some(vector))), w, i, now + leaseMs, later, maxAttempts);
  }

  lemma EmbedFails(s: World, c: World, w: nat, i: nat, until: int, fields: Fields)
    requires i < |s.store.outbox| && Begun(s, c, w, i, until, s.documents, Embedding(i, fields))
    ensures Begun(s, Next(c, Embed(w, None)), w, i, until, s.documents, Failed(i))
  {
    assert c.workers[w := Failed(i)] == s.workers[w := Failed(i)];
  }

  /** Without a row, or when the provider gives no usable vector, the try has failed and nothing is written. */
  lemma FailingJobEnds(s: World, w: nat, i: nat, now: int, leaseMs: nat, later: int, maxAttempts: nat)
    requires Offered(s, w, now, i)
    requires s.store.outbox[i].operation == Upsert && !NothingToWrite(s.store, s.store.outbox[i])
    ensures var c := Next(s, Claim(w, now, leaseMs));
            var d := if CurrentFields(s.store.products, s.store.outbox[i].item).Some? then Next(c, Embed(w, None)) else c;
            JobFailed(s, Next(d, Settle(w, later, maxAttempts)), w, i, later, maxAttempts)
  {
    var c, fields := Next(s, Claim(w, now, leaseMs)), CurrentFields(s.store.products, s.store.outbox[i].item);
    ClaimBegins(s, w, i, now, leaseMs);
    if fields.Some? {
      EmbedFails(s, c, w, i, now + leaseMs, fields.value);
      FailedEnds(s, Next(c, Embed(w, None)), w, i, now + leaseMs, later, maxAttempts);
    } else {
      FailedEnds(s, c, w, i, now + leaseMs, later, maxAttempts);
    }
  }

  /** A released job may be taken at once. */
  lemma ReleasedIsTakeable(s: World, i: nat, now: int)
    requires i < |s.store.outbox|
    ensures var t := Next(s, Release(i));
            && Takeable(t.store.outbox[i], now) && SameJob(s.store.outbox[i], t.store.outbox[i])
            && t.store.outbox[i].attempts == s.store.outbox[i].attempts
            && t == s.(store := s.store.(outbox := s.store.outbox[i := t.store.outbox[i]]))
  {
  }

  // ---------------------------------------------------------------- tries

  predicate Spent(j: Job, maxAttempts: nat) {
    j.status in {Pending, Leased} ==> j.attempts == 0 || j.attempts < maxAttempts
  }

  lemma EnqueueAddsFreshJobs(s: Progress, item: ItemId, v: Variant, changed: bool)
    ensures var t := Enqueue(s, item, v, changed);
            s.outbox <= t.outbox && forall i | |s.outbox| <= i < |t.outbox| :: t.outbox[i].attempts == 0
  {
  }

  lemma {:induction false} LoopAddsFreshJobs(s: Progress, pid: string, base: Product, merged: Product, vs: seq<VariantPatch>)
    ensures var t := PatchVariants(s, pid, base, merged, vs);
            s.outbox <= t.outbox && forall i | |s.outbox| <= i < |t.outbox| :: t.outbox[i].attempts == 0
  {
    if vs != [] {
      LoopAddsFreshJobs(s, pid, base, merged, vs[..|vs| - 1]);
    }
  }

  lemma {:induction false} AllAddFreshJobs(s: Progress, pid: string, ids: seq<string>)
    ensures var t := EnqueueAll(s, pid, ids);
            s.outbox <= t.outbox && forall i | |s.outbox| <= i < |t.outbox| :: t.outbox[i].attempts == 0
  {
    if ids != [] {
      AllAddFreshJobs(s, pid, ids[..|ids| - 1]);
    }
  }

  lemma PatchAddsFreshJobs(st: Store, p: ProductPatch)
    ensures var t := PatchProduct(st, p);
            st.outbox <= t.outbox && forall i | |st.outbox| <= i < |t.outbox| :: t.outbox[i].attempts == 0
  {
    var merged := MergedProduct(Lookup(st.products, p.id), p);
    var base := Lookup(st.products, p.id).GetOr(merged);
    LoopAddsFreshJobs(Start(st, p), p.id, base, merged, p.variants);
    AllAddFreshJobs(Start(st, p), p.id, base.ids);
  }

  lemma StepKeepsTries(s: World, step: Step, maxAttempts: nat)
    requires Inv(s) && forall i | 0 <= i < |s.store.outbox| :: Spent(s.store.outbox[i], maxAttempts)
    requires !step.Release? && (step.Settle? ==> step.maxAttempts == maxAttempts)
    ensures var t := Next(s, step); forall i | 0 <= i < |t.store.outbox| :: Spent(t.store.outbox[i], maxAttempts)
  {
    if step.Patch? && SchemaOk(step.p) {
      PatchAddsFreshJobs(s.store, step.p);
    }
  }

  /** A job that has failed as often as it may is never taken again, however many workers have tried it at once. */
  lemma {:induction false} TriesAreBounded(steps: seq<Step>, maxAttempts: nat, i: nat, now: int)
    requires forall k | 0 <= k < |steps| :: !steps[k].Release? && (steps[k].Settle? ==> steps[k].maxAttempts == maxAttempts)
    requires i < |Run(steps).store.outbox| && 0 < maxAttempts <= Run(steps).store.outbox[i].attempts
    ensures !Takeable(Run(steps).store.outbox[i], now)
  {
    RunKeepsTries(steps, maxAttempts);
  }

  lemma {:induction false} RunKeepsTries(steps: seq<Step>, maxAttempts: nat)
    requires forall k | 0 <= k < |steps| :: !steps[k].Release? && (steps[k].Settle? ==> steps[k].maxAttempts == maxAttempts)
    ensures forall i | 0 <= i < |Run(steps).store.outbox| :: Spent(Run(steps).store.outbox[i], maxAttempts)
  {
    if steps != [] {
      RunKeepsTries(steps[..|steps| - 1], maxAttempts);
      RevisionsStayOrdered(steps[..|steps| - 1]);
      StepKeepsTries(Run(steps[..|steps| - 1]), steps[|steps| - 1], maxAttempts);
    }
  }

  // ---------------------------------------------------------------- when an item has a document

  /** The step stores this document for the item: the provider answered for a job that is not superseded. */
  ghost predicate Writes(s: World, step: Step, item: ItemId, d: Document) {
    && step.Embed? && step.vector.Some? && step.w in s.workers && s.workers[step.w].Embedding?
    && s.workers[step.w].job < |s.store.outbox|
    && var j := s.store.outbox[s.workers[step.w].job];
    && j.item == item && (item in s.store.revisions ==> s.store.revisions[item].search <= j.searchRevision)
    && d == Document(s.workers[step.w].fields, step.vector.value, j.searchRevision)
  }

  /** The step takes a Delete job of the item. */
  ghost predicate Drops(s: World, step: Step, item: ItemId) {
    && step.Claim? && step.w !in s.workers
    && exists i: nat :: FirstTakeable(s.store.outbox, step.now, i) && DeletesItem(s.store.outbox[i], item)
  }

  predicate DeletesItem(j: Job, item: ItemId) {
    j.item == item && j.operation == Delete
  }

  ghost predicate Touches(s: World, step: Step, item: ItemId) {
    Drops(s, step, item) || exists d :: Writes(s, step, item, d)
  }

  lemma ClaimedDocument(s: World, step: Step, item: ItemId)
    requires step.Claim?
    ensures Lookup(Next(s, step).documents, item) == if Drops(s, step, item) then None else Lookup(s.documents, item)
  {
    var r := FirstReady(s.store.outbox, step.now, 0);
    if step.w !in s.workers && r.Some? {
      var i := r.value;
      assert FirstTakeable(s.store.outbox, step.now, i);
      assert forall k: nat :: FirstTakeable(s.store.outbox, step.now, k) ==> k == i;
      ClaimBegins(s, step.w, i, step.now, step.leaseMs);
      assert DeletesItem(s.store.outbox[i], item) <==> Drops(s, step, item);
    } else if step.w !in s.workers {
      assert forall k: nat | k < |s.store.outbox| :: !Ready(s.store.outbox[k], step.now);
      assert !Drops(s, step, item);
    }
  }

  lemma StepDocument(s: World, step: Step, item: ItemId)
    ensures Drops(s, step, item) ==> item !in Next(s, step).documents
    ensures forall d | Writes(s, step, item, d) :: Lookup(Next(s, step).documents, item) == Some(d)
    ensures !Touches(s, step, item) ==> Lookup(Next(s, step).documents, item) == Lookup(s.documents, item)
  {
    if step.Claim? {
      ClaimedDocument(s, step, item);
    } else if step.Embed? && !Touches(s, step, item) && step.vector.Some? && step.w in s.workers
              && s.workers[step.w].Embedding? && s.workers[step.w].job < |s.store.outbox| {
      var j := s.store.outbox[s.workers[step.w].job];
      assert !Writes(s, step, item, Document(s.workers[step.w].fields, step.vector.value, j.searchRevision));
    }
  }

  /** Step j stored the document, and nothing has been written or dropped for the item since. */
  ghost predicate LastWrittenAt(steps: seq<Step>, j: nat, item: ItemId, d: Document) {
    && j < |steps| && Writes(Run(steps[..j]), steps[j], item, d)
    && forall k | j < k < |steps| :: !TouchedAt(steps, k, item)
  }

  ghost predicate TouchedAt(steps: seq<Step>, k: int, item: ItemId)
    requires 0 <= k < |steps|
  {
    Touches(Run(steps[..k]), steps[k], item)
  }

  lemma EarlierTouches(init: seq<Step>, last: Step, k: int, item: ItemId)
    requires 0 <= k < |init|
    ensures TouchedAt(init + [last], k, item) <==> TouchedAt(init, k, item)
  {
    assert (init + [last])[..k] == init[..k];
  }

  /** An item has a document exactly when the last step that concerned it stored this document: one that was dropped
      by a Delete job comes back if and only if an Upsert job that was begun before it, or tried again, ends after it. */
  lemma {:induction false} DocumentIffLastWritten(steps: seq<Step>, item: ItemId, d: Document)
    ensures Lookup(Run(steps).documents, item) == Some(d) <==> exists j: nat :: LastWrittenAt(steps, j, item, d)
    decreases |steps|
  {
    if steps != [] {
      var init, last := steps[..|steps| - 1], steps[|steps| - 1];
      var n := |init|;
      assert init + [last] == steps && steps[..n] == init;
      DocumentIffLastWritten(init, item, d);
      StepDocument(Run(init), last, item);
      if exists j: nat :: LastWrittenAt(steps, j, item, d) {
        var j: nat :| LastWrittenAt(steps, j, item, d);
        if j < n {
          assert !TouchedAt(steps, n, item);
          assert steps[..j] == init[..j];
          forall k | j < k < n
            ensures !TouchedAt(init, k, item)
          {
            EarlierTouches(init, last, k, item);
          }
          assert LastWrittenAt(init, j, item, d);
        }
      }
      if Lookup(Run(steps).documents, item) == Some(d) {
        if TouchedAt(steps, n, item) {
          assert LastWrittenAt(steps, n, item, d);
        } else {
          var j: nat :| LastWrittenAt(init, j, item, d);
          assert steps[..j] == init[..j];
          forall k | j < k < |steps|
            ensures !TouchedAt(steps, k, item)
          {
            if k < n { EarlierTouches(init, last, k, item); }
          }
          assert LastWrittenAt(steps, j, item, d);
        }
      }
    }
  }
}
