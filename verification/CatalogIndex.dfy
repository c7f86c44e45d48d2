/** The reindex worker of src/catalog/reindex-worker.ts, and runs in which patches interleave with any number
    of workers. processNext claims a job and reads the rows in one step; the embedding call in between is a
    step boundary, and so is the return of the finished job. */
module CatalogIndex {
  import opened Outcomes
  import opened CatalogText
  import opened CatalogIngestion
  import opened CatalogRevisions

  type Documents = map<ItemId, Document>

  // ---------------------------------------------------------------- one job

  predicate Ready(j: Job, now: int) {
    || (j.status == Pending && (j.leaseUntil.None? || j.leaseUntil.value <= now))
    || (j.status == Leased && j.leaseUntil.Some? && j.leaseUntil.value <= now)
  }

  function FirstReady(outbox: seq<Job>, now: int, from: nat): (r: Option<nat>)
    ensures r.Some? ==> from <= r.value < |outbox| && Ready(outbox[r.value], now)
                        && forall i | from <= i < r.value :: !Ready(outbox[i], now)
    ensures r.None? ==> forall i | from <= i < |outbox| :: !Ready(outbox[i], now)
    decreases |outbox| - from
  {
    if from >= |outbox| then None
    else if Ready(outbox[from], now) then Some(from)
    else FirstReady(outbox, now, from + 1)
  }

  function Leasing(j: Job, until: int): Job {
    j.(status := Leased, leaseUntil := Some(until))
  }

  function DoneJob(j: Job): Job {
    j.(status := Done, leaseUntil := None)
  }

  function Pow2(n: nat): nat {
    if n == 0 then 1 else 2 * Pow2(n - 1)
  }

  function Retried(j: Job, now: int, maxAttempts: nat): Job {
    if j.attempts + 1 >= maxAttempts then j.(attempts := j.attempts + 1, status := DeadLetter, leaseUntil := None)
    else j.(attempts := j.attempts + 1, status := Pending, leaseUntil := Some(now + Min(30_000, 1000 * Pow2(j.attempts))))
  }

  datatype Attempt = Finished(documents: Documents) | MustEmbed(fields: Fields) | VariantMissing

  /** execute up to the embedding call. */
  function BeginJob(st: Store, documents: Documents, j: Job): Attempt {
    var current := Lookup(st.revisions, j.item);
    if j.operation == Delete then Finished(documents - {j.item})
    else if current.Some? && j.searchRevision < current.value.search then Finished(documents)
    else if current.Some? && current.value.index >= j.searchRevision then Finished(documents)
    else
      var fields := CurrentFields(st.products, j.item);
      if fields.Some? then MustEmbed(fields.value) else VariantMissing
  }

  predicate Superseded(revisions: Revisions, j: Job) {
    j.item in revisions && j.searchRevision < revisions[j.item].search
  }

  /** execute after the embedding call. */
  function CommitRevisions(revisions: Revisions, j: Job): Revisions {
    if Superseded(revisions, j) || j.item !in revisions then revisions
    else revisions[j.item := revisions[j.item].(index := j.searchRevision)]
  }

  function CommitDocuments(
    revisions: Revisions, documents: Documents, j: Job, fields: Fields, embedding: seq<real>): Documents
  {
    if Superseded(revisions, j) then documents else documents[j.item := Document(fields, embedding, j.searchRevision)]
  }

  class ReindexWorker {
    const store: MemoryAcpCatalogStore
    var stopping: bool
    var claimed: Option<nat>

    constructor (store: MemoryAcpCatalogStore)
      ensures this.store == store && !stopping && claimed == None
    {
      this.store, stopping, claimed := store, false, None;
    }

    /** Sets the status of one job and leaves the rest of the store alone. */
    method SetJob(i: nat, j: Job)
      requires i < |store.outbox|
      modifies store`outbox
      ensures store.outbox == old(store.outbox)[i := j]
    {
      store.outbox := store.outbox[i := j];
    }

    method ReleaseClaimed()
      modifies this`claimed, store`outbox
      ensures claimed == None
      ensures if old(claimed).None? || old(claimed).value >= |old(store.outbox)| then store.outbox == old(store.outbox)
              else var i := old(claimed).value;
                   store.outbox == old(store.outbox)[i := old(store.outbox)[i].(status := Pending, leaseUntil := None)]
    {
      if claimed.Some? && claimed.value < |store.outbox| {
        SetJob(claimed.value, store.outbox[claimed.value].(status := Pending, leaseUntil := None));
      }
      claimed := None;
    }

    method ClaimNext(now: int, leaseMs: nat) returns (job: Option<nat>)
      modifies this`claimed, store`outbox
      ensures job == if stopping then None else FirstReady(old(store.outbox), now, 0)
      ensures job.None? ==> store.outbox == old(store.outbox) && claimed == old(claimed)
      ensures job.Some? ==> claimed == job
                            && store.outbox == old(store.outbox)[job.value := Leasing(old(store.outbox)[job.value], now + leaseMs)]
    {
      job := None;
      if stopping {
        return;
      }
      var i := 0;
      while i < |store.outbox| && !Ready(store.outbox[i], now)
        invariant 0 <= i <= |store.outbox|
        invariant store.outbox == old(store.outbox) && claimed == old(claimed)
        invariant FirstReady(store.outbox, now, 0) == FirstReady(store.outbox, now, i)
      {
        i := i + 1;
      }
      if i < |store.outbox| {
        SetJob(i, Leasing(store.outbox[i], now + leaseMs));
        job, claimed := Some(i), Some(i);
      }
    }

    method Begin(j: Job) returns (missing: bool, fields: Option<Fields>)
      modifies store`documents
      ensures match BeginJob(old(store.State()), old(store.documents), j)
              case Finished(d) => store.documents == d && !missing && fields == None
              case MustEmbed(f) => store.documents == old(store.documents) && !missing && fields == Some(f)
              case VariantMissing => store.documents == old(store.documents) && missing
    {
      missing, fields := false, None;
      if j.operation == Delete {
        store.documents := store.documents - {j.item};
        return;
      }
      if j.item in store.revisions && j.searchRevision < store.revisions[j.item].search {
        return;
      }
      if j.item in store.revisions && store.revisions[j.item].index >= j.searchRevision {
        return;
      }
      if j.item.0 !in store.products || j.item.1 !in store.products[j.item.0].variants {
        missing := true;
        return;
      }
      fields := Some(BuildFields(store.products[j.item.0], store.products[j.item.0].variants[j.item.1]));
    }

    method Commit(j: Job, fields: Fields, embedding: seq<real>)
      modifies store`documents, store`revisions
      ensures store.revisions == CommitRevisions(old(store.revisions), j)
      ensures store.documents == CommitDocuments(old(store.revisions), old(store.documents), j, fields, embedding)
    {
      if j.item in store.revisions && j.searchRevision < store.revisions[j.item].search {
        return;
      }
      store.documents := store.documents[j.item := Document(fields, embedding, j.searchRevision)];
      if j.item in store.revisions {
        store.revisions := store.revisions[j.item := store.revisions[j.item].(index := j.searchRevision)];
      }
    }

    method Fail(i: nat, now: int, maxAttempts: nat)
      requires i < |store.outbox|
      modifies this`claimed, store`outbox
      ensures store.outbox == old(store.outbox)[i := Retried(old(store.outbox)[i], now, maxAttempts)] && claimed == None
    {
      var attempts := store.outbox[i].attempts + 1;
      var until := if attempts >= maxAttempts then None else Some(now + Min(30_000, 1000 * Pow2(attempts - 1)));
      SetJob(i, store.outbox[i].(attempts := attempts, leaseUntil := until,
                                 status := if attempts >= maxAttempts then DeadLetter else Pending));
      claimed := None;
    }
  }

  // ---------------------------------------------------------------- runs

  datatype Phase = Embedding(job: nat, fields: Fields) | Executed(job: nat) | Failed(job: nat)

  datatype World = World(store: Store, documents: Documents, workers: map<nat, Phase>)

  const INITIAL := World(Store(map[], map[], []), map[], map[])

  /** Embed carries whatever the provider answered; None is an error or an incompatible vector. */
  datatype Step =
    | Patch(p: ProductPatch)
    | Claim(w: nat, now: int, leaseMs: nat)
    | Embed(w: nat, vector: Option<seq<real>>)
    | Settle(w: nat, now: int, maxAttempts: nat)
    | Release(job: nat)

  function WithJob(s: World, i: nat, j: Job): World
    requires i < |s.store.outbox|
  {
    s.(store := s.store.(outbox := s.store.outbox[i := j]))
  }

  function PhaseAfter(attempt: Attempt, i: nat): Phase {
    match attempt
    case Finished(_) => Executed(i)
    case MustEmbed(f) => Embedding(i, f)
    case VariantMissing => Failed(i)
  }

  function AfterBegin(s: World, w: nat, i: nat): World
    requires i < |s.store.outbox|
  {
    var attempt := BeginJob(s.store, s.documents, s.store.outbox[i]);
    World(s.store, if attempt.Finished? then attempt.documents else s.documents, s.workers[w := PhaseAfter(attempt, i)])
  }

  function AfterClaim(s: World, w: nat, i: nat, until: int): World
    requires i < |s.store.outbox|
  {
    AfterBegin(WithJob(s, i, Leasing(s.store.outbox[i], until)), w, i)
  }

  function DoClaim(s: World, w: nat, now: int, leaseMs: nat): World {
    var i := FirstReady(s.store.outbox, now, 0);
    if w in s.workers || i.None? then s else AfterClaim(s, w, i.value, now + leaseMs)
  }

  function AfterSettle(s: World, w: nat, i: nat, now: int, maxAttempts: nat): World
    requires w in s.workers && i < |s.store.outbox|
  {
    var j := s.store.outbox[i];
    WithJob(s, i, if s.workers[w].Executed? then DoneJob(j) else Retried(j, now, maxAttempts)).(workers := s.workers - {w})
  }

  function AfterEmbed(s: World, w: nat, i: nat, fields: Fields, vector: seq<real>): World
    requires i < |s.store.outbox|
  {
    var j := s.store.outbox[i];
    World(s.store.(revisions := CommitRevisions(s.store.revisions, j)),
          CommitDocuments(s.store.revisions, s.documents, j, fields, vector),
          s.workers[w := Executed(i)])
  }

  function Next(s: World, step: Step): World {
    match step
    case Patch(p) => if SchemaOk(p) then s.(store := PatchProduct(s.store, p)) else s
    case Claim(w, now, leaseMs) => DoClaim(s, w, now, leaseMs)
    case Embed(w, vector) =>
      if w !in s.workers || !s.workers[w].Embedding? || s.workers[w].job >= |s.store.outbox| then s
      else if vector.None? then s.(workers := s.workers[w := Failed(s.workers[w].job)])
      else AfterEmbed(s, w, s.workers[w].job, s.workers[w].fields, vector.value)
    case Settle(w, now, maxAttempts) =>
      if w !in s.workers || s.workers[w].Embedding? || s.workers[w].job >= |s.store.outbox| then s
      else
        AfterSettle(s, w, s.workers[w].job, now, maxAttempts)
    case Release(i) =>
      if i >= |s.store.outbox| then s
      else WithJob(s, i, s.store.outbox[i].(status := Pending, leaseUntil := None))
  }

  function Run(steps: seq<Step>): World {
    if steps == [] then INITIAL else Next(Run(steps[..|steps| - 1]), steps[|steps| - 1])
  }

  // ---------------------------------------------------------------- every run

  ghost predicate SameJob(a: Job, b: Job) {
    a.item == b.item && a.searchRevision == b.searchRevision && a.operation == b.operation
  }

  ghost predicate SameJobs(a: seq<Job>, b: seq<Job>) {
    |a| == |b| && forall i | 0 <= i < |a| :: SameJob(a[i], b[i])
  }

  ghost predicate WorkersNamed(s: World) {
    forall w | w in s.workers :: s.workers[w].job < |s.store.outbox|
  }

  ghost predicate Inv(s: World) {
    StoreOk(s.store) && WorkersNamed(s)
  }

  lemma SameJobsKeepStoreOk(st: Store, outbox: seq<Job>)
    requires StoreOk(st) && SameJobs(st.outbox, outbox)
    ensures StoreOk(st.(outbox := outbox))
  {
    forall i | 0 <= i < |outbox|
      ensures JobOk(st.revisions, outbox[i])
    {
      assert SameJob(st.outbox[i], outbox[i]) && JobOk(st.revisions, st.outbox[i]);
    }
    forall item | item in st.revisions
      ensures HasJob(outbox, item, st.revisions[item].search)
    {
      assert HasJob(st.outbox, item, st.revisions[item].search);
      var i :| 0 <= i < |st.outbox| && st.outbox[i].item == item
               && st.outbox[i].searchRevision == st.revisions[item].search;
      assert SameJob(st.outbox[i], outbox[i]);
    }
  }

  lemma CommitKeepsStoreOk(st: Store, j: Job)
    requires StoreOk(st) && JobOk(st.revisions, j)
    ensures StoreOk(st.(revisions := CommitRevisions(st.revisions, j)))
  {
    var next := CommitRevisions(st.revisions, j);
    forall i | 0 <= i < |st.outbox|
      ensures JobOk(next, st.outbox[i])
    {
      assert JobOk(st.revisions, st.outbox[i]);
    }
    assert forall item | item in st.revisions :: next[item].search == st.revisions[item].search;
  }

  /** Claim, Settle and Release change statuses of jobs and may drop documents; nothing else in the tables. */
  ghost predicate StatusOnly(s: World, t: World) {
    && t.store.products == s.store.products && t.store.revisions == s.store.revisions
    && SameJobs(s.store.outbox, t.store.outbox)
    && (forall item | item in t.documents :: item in s.documents && t.documents[item] == s.documents[item])
  }

  lemma BeginOnlyDropsDocuments(st: Store, documents: Documents, j: Job)
    ensures var attempt := BeginJob(st, documents, j);
            attempt.Finished? ==>
              forall item | item in attempt.documents :: item in documents && attempt.documents[item] == documents[item]
  {
  }

  lemma BeginIsStatusOnly(s: World, w: nat, i: nat)
    requires i < |s.store.outbox| && WorkersNamed(s)
    ensures StatusOnly(s, AfterBegin(s, w, i)) && WorkersNamed(AfterBegin(s, w, i))
  {
    BeginOnlyDropsDocuments(s.store, s.documents, s.store.outbox[i]);
  }

  lemma UpdateIsStatusOnly(s: World, i: nat, j: Job)
    requires i < |s.store.outbox| && WorkersNamed(s) && SameJob(s.store.outbox[i], j)
    ensures StatusOnly(s, WithJob(s, i, j)) && WorkersNamed(WithJob(s, i, j))
  {
  }

  lemma StatusOnlyTwice(a: World, b: World, c: World)
    requires StatusOnly(a, b) && StatusOnly(b, c)
    ensures StatusOnly(a, c)
  {
  }

  lemma ClaimIsStatusOnly(s: World, w: nat, i: nat, until: int)
    requires i < |s.store.outbox| && WorkersNamed(s)
    ensures StatusOnly(s, AfterClaim(s, w, i, until)) && WorkersNamed(AfterClaim(s, w, i, until))
  {
    var started := WithJob(s, i, Leasing(s.store.outbox[i], until));
    UpdateIsStatusOnly(s, i, Leasing(s.store.outbox[i], until));
    BeginIsStatusOnly(started, w, i);
    StatusOnlyTwice(s, started, AfterBegin(started, w, i));
  }

  lemma SettleIsStatusOnly(s: World, w: nat, i: nat, now: int, maxAttempts: nat)
    requires w in s.workers && i < |s.store.outbox| && WorkersNamed(s)
    ensures StatusOnly(s, AfterSettle(s, w, i, now, maxAttempts)) && WorkersNamed(AfterSettle(s, w, i, now, maxAttempts))
  {
    var j := s.store.outbox[i];
    UpdateIsStatusOnly(s, i, if s.workers[w].Executed? then DoneJob(j) else Retried(j, now, maxAttempts));
  }

  lemma StatusSteps(s: World, step: Step)
    requires WorkersNamed(s) && (step.Claim? || step.Settle? || step.Release?)
    ensures StatusOnly(s, Next(s, step)) && WorkersNamed(Next(s, step))
  {
    if step.Claim? {
      var i := FirstReady(s.store.outbox, step.now, 0);
      if step.w !in s.workers && i.Some? {
        assert Next(s, step) == AfterClaim(s, step.w, i.value, step.now + step.leaseMs);
        ClaimIsStatusOnly(s, step.w, i.value, step.now + step.leaseMs);
      }
    } else if step.Settle? {
      if step.w in s.workers {
        SettleIsStatusOnly(s, step.w, s.workers[step.w].job, step.now, step.maxAttempts);
      }
    } else if step.job < |s.store.outbox| {
      UpdateIsStatusOnly(s, step.job, s.store.outbox[step.job].(status := Pending, leaseUntil := None));
    }
  }

  lemma StatusKeepsInv(s: World, t: World)
    requires Inv(s) && StatusOnly(s, t) && WorkersNamed(t)
    ensures Inv(t)
  {
    SameJobsKeepStoreOk(s.store, t.store.outbox);
    assert t.store == s.store.(outbox := t.store.outbox);
  }

  lemma EmbedKeepsInv(s: World, w: nat, vector: Option<seq<real>>)
    requires Inv(s)
    ensures Inv(Next(s, Embed(w, vector)))
  {
    if w in s.workers && s.workers[w].Embedding? && vector.Some? {
      var j := s.store.outbox[s.workers[w].job];
      assert JobOk(s.store.revisions, j);
      CommitKeepsStoreOk(s.store, j);
    }
  }

  lemma NextKeepsInv(s: World, step: Step)
    requires Inv(s)
    ensures Inv(Next(s, step))
  {
    if step.Patch? {
      if SchemaOk(step.p) {
        PatchKeepsStoreOk(s.store, step.p);
      }
    } else if step.Embed? {
      EmbedKeepsInv(s, step.w, step.vector);
    } else {
      StatusSteps(s, step);
      StatusKeepsInv(s, Next(s, step));
    }
  }

  /** index <= search <= data in every run of patches and workers, whatever the patches. */
  lemma {:induction false} RevisionsStayOrdered(steps: seq<Step>)
    ensures Inv(Run(steps))
    ensures forall item | item in Run(steps).store.revisions ::
              var r := Run(steps).store.revisions[item]; r.index <= r.search <= r.data
  {
    if steps != [] {
      RevisionsStayOrdered(steps[..|steps| - 1]);
      NextKeepsInv(Run(steps[..|steps| - 1]), steps[|steps| - 1]);
    }
  }

  // ---------------------------------------------------------------- clean runs: documents are never wrong

  /** Every PATCH of the run is clean when it arrives. */
  ghost predicate CleanRun(steps: seq<Step>) {
    steps == [] ||
    (&& CleanRun(steps[..|steps| - 1])
     && (steps[|steps| - 1].Patch? ==> Clean(Run(steps[..|steps| - 1]).store, steps[|steps| - 1].p)))
  }

  ghost predicate Fresh(st: Store, item: ItemId, search: nat, fields: Fields) {
    && item in st.revisions && search <= st.revisions[item].search
    && (search == st.revisions[item].search ==> CurrentFields(st.products, item) == Some(fields))
  }

  ghost predicate DocumentsFresh(st: Store, documents: Documents) {
    forall item | item in documents :: Fresh(st, item, documents[item].indexRevision, documents[item].fields)
  }

  ghost predicate ReadFresh(st: Store, ph: Phase) {
    ph.Embedding? ==>
      ph.job < |st.outbox| && Fresh(st, st.outbox[ph.job].item, st.outbox[ph.job].searchRevision, ph.fields)
  }

  ghost predicate ReadsFresh(s: World) {
    forall w | w in s.workers :: ReadFresh(s.store, s.workers[w])
  }

  ghost predicate FreshInv(s: World) {
    Inv(s) && RowsTitled(s.store.products) && DocumentsFresh(s.store, s.documents) && ReadsFresh(s)
  }

  lemma PatchKeepsFresh(st: Store, p: ProductPatch, item: ItemId, search: nat, fields: Fields)
    requires StoreOk(st) && RowsTitled(st.products) && SchemaOk(p) && Clean(st, p)
    requires Fresh(st, item, search, fields)
    ensures Fresh(PatchProduct(st, p), item, search, fields)
  {
    PatchKeepsStoreOk(st, p);
    var next := PatchProduct(st, p);
    assert Grown(Lookup(st.revisions, item), Lookup(next.revisions, item));
    if search == next.revisions[item].search {
      PatchKeepsFields(st, p, item);
    }
  }

  lemma PatchKeepsFreshInv(s: World, p: ProductPatch)
    requires FreshInv(s) && SchemaOk(p) && Clean(s.store, p)
    ensures FreshInv(Next(s, Patch(p)))
  {
    var next := Next(s, Patch(p));
    NextKeepsInv(s, Patch(p));
    PatchKeepsRowsTitled(s.store, p);
    PatchKeepsStoreOk(s.store, p);
    forall item | item in next.documents
      ensures Fresh(next.store, item, next.documents[item].indexRevision, next.documents[item].fields)
    {
      PatchKeepsFresh(s.store, p, item, s.documents[item].indexRevision, s.documents[item].fields);
    }
    forall w | w in next.workers
      ensures ReadFresh(next.store, next.workers[w])
    {
      assert ReadFresh(s.store, s.workers[w]);
      if s.workers[w].Embedding? {
        var j := s.store.outbox[s.workers[w].job];
        PatchKeepsFresh(s.store, p, j.item, j.searchRevision, s.workers[w].fields);
      }
    }
  }

  /** A PATCH that is not clean makes some item stale: if its document was current, it holds other fields than
      the rows from then on, under an unmoved revision. */
  lemma UncleanPatchLeavesStale(s: World, p: ProductPatch)
    requires FreshInv(s) && SchemaOk(p) && !Clean(s.store, p)
    ensures var t := Next(s, Patch(p));
            exists item: ItemId :: SearchKept(s.store.revisions, t.store.revisions, item)
              && (item in t.documents && t.documents[item].indexRevision == t.store.revisions[item].search
                  ==> CurrentFields(t.store.products, item) != Some(t.documents[item].fields))
  {
    CleanIff(s.store, p);
    var t := Next(s, Patch(p));
    var item: ItemId :| SearchKept(s.store.revisions, t.store.revisions, item)
                        && CurrentFields(t.store.products, item) != CurrentFields(s.store.products, item);
    assert item in s.documents ==>
        Fresh(s.store, item, s.documents[item].indexRevision, s.documents[item].fields);
  }

  /** What execute reads is fresh when it is read. */
  lemma BeginReadsFresh(st: Store, documents: Documents, j: Job)
    requires JobOk(st.revisions, j)
    ensures BeginJob(st, documents, j).MustEmbed? ==> Fresh(st, j.item, j.searchRevision, BeginJob(st, documents, j).fields)
  {
  }

  lemma StartReadsFresh(s: World, w: nat, i: nat, until: int)
    requires i < |s.store.outbox| && JobOk(s.store.revisions, s.store.outbox[i])
    ensures var t := AfterClaim(s, w, i, until); ReadFresh(t.store, t.workers[w])
  {
    var j := Leasing(s.store.outbox[i], until);
    BeginReadsFresh(WithJob(s, i, j).store, s.documents, j);
  }

  lemma ClaimReadsFresh(s: World, w: nat, now: int, leaseMs: nat)
    requires Inv(s) && w !in s.workers
    ensures var t := Next(s, Claim(w, now, leaseMs)); w in t.workers ==> ReadFresh(t.store, t.workers[w])
  {
    var i := FirstReady(s.store.outbox, now, 0);
    if i.Some? {
      assert JobOk(s.store.revisions, s.store.outbox[i.value]);
      assert Next(s, Claim(w, now, leaseMs)) == AfterClaim(s, w, i.value, now + leaseMs);
      StartReadsFresh(s, w, i.value, now + leaseMs);
    }
  }

  lemma OthersKeepPhase(s: World, step: Step, w: nat)
    requires step.Claim? || step.Settle? || step.Release?
    requires w in Next(s, step).workers && !(step.Claim? && step.w == w && w !in s.workers)
    ensures w in s.workers && Next(s, step).workers[w] == s.workers[w]
  {
  }

  lemma StatusKeepsReads(s: World, step: Step, w: nat)
    requires Inv(s) && ReadsFresh(s) && StatusOnly(s, Next(s, step))
    requires step.Claim? || step.Settle? || step.Release?
    requires w in Next(s, step).workers
    ensures ReadFresh(Next(s, step).store, Next(s, step).workers[w])
  {
    if step.Claim? && step.w == w && w !in s.workers {
      ClaimReadsFresh(s, w, step.now, step.leaseMs);
    } else {
      OthersKeepPhase(s, step, w);
      var ph := s.workers[w];
      assert ReadFresh(s.store, ph);
      assert ph.Embedding? ==> SameJob(s.store.outbox[ph.job], Next(s, step).store.outbox[ph.job]);
    }
  }

  lemma StatusKeepsFreshInv(s: World, step: Step)
    requires FreshInv(s) && (step.Claim? || step.Settle? || step.Release?)
    ensures FreshInv(Next(s, step))
  {
    var t := Next(s, step);
    NextKeepsInv(s, step);
    StatusSteps(s, step);
    forall w | w in t.workers
      ensures ReadFresh(t.store, t.workers[w])
    {
      StatusKeepsReads(s, step, w);
    }
    forall item | item in t.documents
      ensures Fresh(t.store, item, t.documents[item].indexRevision, t.documents[item].fields)
    {
      assert Fresh(s.store, item, s.documents[item].indexRevision, s.documents[item].fields);
    }
  }

  lemma CommitKeepsFresh(st: Store, j: Job, item: ItemId, search: nat, fields: Fields)
    requires Fresh(st, item, search, fields)
    ensures Fresh(st.(revisions := CommitRevisions(st.revisions, j)), item, search, fields)
  {
  }

  lemma CommitKeepsDocuments(st: Store, documents: Documents, j: Job, fields: Fields, vector: seq<real>)
    requires DocumentsFresh(st, documents) && Fresh(st, j.item, j.searchRevision, fields)
    ensures DocumentsFresh(st.(revisions := CommitRevisions(st.revisions, j)),
                           CommitDocuments(st.revisions, documents, j, fields, vector))
  {
    var next := CommitDocuments(st.revisions, documents, j, fields, vector);
    forall item | item in next
      ensures Fresh(st.(revisions := CommitRevisions(st.revisions, j)), item, next[item].indexRevision, next[item].fields)
    {
      CommitKeepsFresh(st, j, item, next[item].indexRevision, next[item].fields);
    }
  }

  lemma CommitKeepsRead(st: Store, j: Job, ph: Phase)
    requires ReadFresh(st, ph)
    ensures ReadFresh(st.(revisions := CommitRevisions(st.revisions, j)), ph)
  {
    if ph.Embedding? {
      CommitKeepsFresh(st, j, st.outbox[ph.job].item, st.outbox[ph.job].searchRevision, ph.fields);
    }
  }

  lemma EmbedKeepsFreshInv(s: World, w: nat, vector: Option<seq<real>>)
    requires FreshInv(s)
    ensures FreshInv(Next(s, Embed(w, vector)))
  {
    var next := Next(s, Embed(w, vector));
    EmbedKeepsInv(s, w, vector);
    if w in s.workers && s.workers[w].Embedding? && vector.Some? {
      assert ReadFresh(s.store, s.workers[w]);
      var j := s.store.outbox[s.workers[w].job];
      CommitKeepsDocuments(s.store, s.documents, j, s.workers[w].fields, vector.value);
      forall v | v in next.workers
        ensures ReadFresh(next.store, next.workers[v])
      {
        if v != w {
          assert ReadFresh(s.store, s.workers[v]);
          CommitKeepsRead(s.store, j, s.workers[v]);
        }
      }
    }
  }

  /** In every clean run, a document whose revision is the item's search revision holds exactly the fields
      recomputed from the current rows, however the workers read, embed and write. */
  lemma {:induction false} CurrentDocumentsAreFresh(steps: seq<Step>)
    requires CleanRun(steps)
    ensures FreshInv(Run(steps))
    ensures forall item | item in Run(steps).documents ::
              && item in Run(steps).store.revisions
              && Run(steps).documents[item].indexRevision <= Run(steps).store.revisions[item].search
              && (Run(steps).documents[item].indexRevision == Run(steps).store.revisions[item].search ==>
                    CurrentFields(Run(steps).store.products, item) == Some(Run(steps).documents[item].fields))
  {
    if steps != [] {
      var init, last := steps[..|steps| - 1], steps[|steps| - 1];
      CurrentDocumentsAreFresh(init);
      match last {
        case Patch(p) => if SchemaOk(p) { PatchKeepsFreshInv(Run(init), p); }
        case Claim(_, _, _) => StatusKeepsFreshInv(Run(init), last);
        case Embed(w, vector) => EmbedKeepsFreshInv(Run(init), w, vector);
        case Settle(_, _, _) => StatusKeepsFreshInv(Run(init), last);
        case Release(_) => StatusKeepsFreshInv(Run(init), last);
      }
    }
    var s := Run(steps);
    forall item | item in s.documents
      ensures Fresh(s.store, item, s.documents[item].indexRevision, s.documents[item].fields)
    {
    }
  }
}
