/**
 Write order per path.  Here the lookup, the cancellations and the create of enqueue_upload are one
 step (no other process acts between them), and no chain stores bytes later than `stale` after its
 latest claim; workers and commands interleave freely otherwise.

 Then at most one row per path is live, and completed writes to a path follow the creation order of
 their records exactly as long as nobody takes a row away from the worker that is writing it.
 */
module UploadOrder {
  import opened UploadProtocol
  import opened UploadInvariants
  import opened UploadClaims

  /* --------------------------------------- legal runs --------------------------------------- */

  ghost predicate InSection(s: State, p: Pid) { p in s.enqueues && BeforeCreate(s.enqueues[p].pc) }

  /** While a request is between its lookup and its create, only it and the clock move. */
  ghost predicate Exclusive(s: State, a: Action) {
    forall p :: InSection(s, p) ==>
      a.Tick? || (a.EnqueueNext? && a.p == p) || (a.KillRequest? && a.p == p)
  }

  ghost predicate TimelyStore(s: State, a: Action) {
    a.Work? && a.c in s.workers && s.workers[a.c].pc.Writing? && a.choice.Ok? ==> InTime(s, s.workers[a.c])
  }

  ghost predicate ExclusiveRun(s: State, run: seq<Action>)
    decreases |run|
  {
    run != [] ==> Exclusive(s, run[0]) && ExclusiveRun(Step(s, run[0]), run[1..])
  }

  ghost predicate TimelyRun(s: State, run: seq<Action>)
    decreases |run|
  {
    run != [] ==> TimelyStore(s, run[0]) && TimelyRun(Step(s, run[0]), run[1..])
  }

  ghost predicate LegalRun(s: State, run: seq<Action>) { ExclusiveRun(s, run) && TimelyRun(s, run) }

  /* ------------------------------ at most one live row per path ------------------------------ */

  ghost predicate LiveAt(s: State, id: Id, key: Key) { LiveRow(s, id) && s.rows[id].key == key }

  ghost predicate OneLive(s: State) {
    forall i, j :: LiveRow(s, i) && LiveRow(s, j) && s.rows[i].key == s.rows[j].key ==> i == j
  }

  /** The row may be cancelled: PENDING, or UPLOADING with a claim older than the cutoff. */
  ghost predicate StaleAt(s: State, id: Id, cutoff: int) {
    id in s.rows && s.rows[id].status == Uploading ==> StaleClaim(s.rows[id], cutoff)
  }

  ghost predicate Covers(s: State, key: Key, ids: set<Id>) { forall id :: LiveAt(s, id, key) ==> id in ids }

  ghost predicate AllStale(s: State, ids: set<Id>, cutoff: int) { forall id <- ids :: StaleAt(s, id, cutoff) }

  /** What a request inside its section knows about the rows of its path. */
  ghost predicate Section(s: State, e: Enqueue) {
    match e.pc
    case LookingUp(cutoff) => cutoff <= s.now - s.stale
    case NoFresh => forall id :: LiveAt(s, id, e.key) ==> StaleAt(s, id, s.now - s.stale)
    case CancelCutoff(cutoff) =>
      cutoff <= s.now - s.stale && forall id :: LiveAt(s, id, e.key) ==> StaleAt(s, id, cutoff)
    case Cancelling(todo) => Covers(s, e.key, todo) && AllStale(s, todo, s.now - s.stale)
    case CancelSaving(current, todo) => Covers(s, e.key, todo + {current})
        && AllStale(s, todo + {current}, s.now - s.stale)
    case Buffering => forall id :: !LiveAt(s, id, e.key)
    case Creating => forall id :: !LiveAt(s, id, e.key)
    case _ => true
  }

  ghost predicate SectionInv(s: State) {
    && OneLive(s)
    && (forall p <- s.enqueues :: Section(s, s.enqueues[p]))
    && (forall p, q :: InSection(s, p) && InSection(s, q) ==> p == q)
  }

  /** Rows only become live by being created. */
  lemma LiveBefore(s: State, t: State, id: Id)
    requires RowsOk(s) && RowsOk(t) && Evolves(s, t) && LiveRow(t, id) && id in s.records
    ensures LiveRow(s, id)
  {
    assert !Dead(t, id);
  }

  lemma RequestOneLive(s: State, t: State, p: Pid)
    requires OneLive(s) && p in s.enqueues && Section(s, s.enqueues[p]) && RequestEffect(s, t, p)
    ensures OneLive(t)
  {
    var e := s.enqueues[p];
    forall i, j | LiveRow(t, i) && LiveRow(t, j) && t.rows[i].key == t.rows[j].key ensures i == j {
      assert !e.pc.Creating? || (!LiveAt(s, i, e.key) && !LiveAt(s, j, e.key));
    }
  }

  /** Rows and claims as the request of another path, or the clock, leaves them. */
  ghost predicate RowsSettle(s: State, t: State) {
    && s.now <= t.now && s.stale == t.stale
    && (forall id <- t.rows :: id in s.rows && t.rows[id].key == s.rows[id].key
                               && (t.rows[id] == s.rows[id] || t.rows[id].status == Cancelled))
  }

  lemma SectionSettles(s: State, t: State, e: Enqueue)
    requires RowsSettle(s, t) && Section(s, e)
    ensures Section(t, e)
  {
    forall id | LiveAt(t, id, e.key) ensures LiveAt(s, id, e.key) {}
    var cutoff := s.now - s.stale;
    match e.pc
    case NoFresh =>
      forall id | LiveAt(t, id, e.key) ensures StaleAt(t, id, t.now - t.stale) { StaleSettles(s, t, id, cutoff); }
    case CancelCutoff(cutoff) =>
      forall id | LiveAt(t, id, e.key) ensures StaleAt(t, id, cutoff) { StaleSettles(s, t, id, cutoff); }
    case Cancelling(todo) => AllSettle(s, t, todo, cutoff);
    case CancelSaving(current, todo) => AllSettle(s, t, todo + {current}, cutoff);
    case _ =>
  }

  lemma AllSettle(s: State, t: State, ids: set<Id>, cutoff: int)
    requires RowsSettle(s, t) && AllStale(s, ids, cutoff) && cutoff == s.now - s.stale
    ensures AllStale(t, ids, t.now - t.stale)
  {
    forall id <- ids ensures StaleAt(t, id, t.now - t.stale) { StaleSettles(s, t, id, cutoff); }
  }

  lemma StaleSettles(s: State, t: State, id: Id, cutoff: int)
    requires RowsSettle(s, t) && StaleAt(s, id, cutoff)
    ensures StaleAt(t, id, cutoff)
    ensures cutoff == s.now - s.stale ==> StaleAt(t, id, t.now - t.stale)
  {}

  lemma RequestSection(s: State, t: State, p: Pid)
    requires p in s.enqueues && Section(s, s.enqueues[p]) && RequestEffect(s, t, p) && p in t.enqueues
    ensures Section(t, t.enqueues[p])
  {
    var e := s.enqueues[p];
    if BeforeCreate(t.enqueues[p].pc) {
      forall id | LiveAt(t, id, e.key) ensures LiveAt(s, id, e.key) {}
      if e.pc.LookingUp? && t.enqueues[p].pc.NoFresh? {
        forall id | LiveAt(s, id, e.key) ensures StaleAt(s, id, s.now - s.stale) {
          assert !FreshRow(s.rows[id], e.key, e.pc.cutoff);
        }
      }
    }
  }

  ghost predicate NothingNew(s: State, t: State) {
    forall id :: LiveRow(t, id) ==> LiveRow(s, id) && t.rows[id].key == s.rows[id].key
  }

  lemma WorkNothingNew(s: State, t: State, c: Chain)
    requires c in s.workers && WorkerEffect(s, t, c)
    ensures NothingNew(s, t)
  {}

  lemma TendedNothingNew(s: State, t: State, a: Action)
    requires RowsTended(s, t, a)
    ensures NothingNew(s, t)
  {}

  /** Except for a create, what is live was live. */
  lemma NothingNewLive(s: State, t: State, a: Action)
    requires StepEffect(s, t, a) && !a.EnqueueNext?
    ensures NothingNew(s, t)
  {
    if a.Work? {
      WorkNothingNew(s, t, a.c);
    } else {
      OthersTend(s, t, a);
      TendedNothingNew(s, t, a);
    }
  }

  lemma RequestSectionInv(s: State, t: State, p: Pid)
    requires SectionInv(s) && p in s.enqueues && RequestEffect(s, t, p)
    requires forall q :: InSection(s, q) ==> q == p
    ensures SectionInv(t)
  {
    RequestOneLive(s, t, p);
    forall q | q in t.enqueues ensures Section(t, t.enqueues[q]) {
      if q == p { RequestSection(s, t, p); } else { assert !InSection(s, q); }
    }
    forall q | InSection(t, q) ensures InSection(s, q) {}
  }

  lemma BackgroundSectionInv(s: State, t: State, a: Action)
    requires RowsOk(s) && SectionInv(s) && BackgroundEffect(s, t) && Exclusive(s, a)
    requires a.Tick? || a.KillRequest? || forall p :: !InSection(s, p)
    requires a.Tick? || a.KillRequest? ==> t.enqueues.Keys <= s.enqueues.Keys
    ensures SectionInv(t)
  {
    forall q | q in t.enqueues ensures Section(t, t.enqueues[q]) {
      if q in s.enqueues && t.enqueues[q] == s.enqueues[q] { SectionSettles(s, t, s.enqueues[q]); }
    }
    forall q | InSection(t, q) ensures q in s.enqueues && t.enqueues[q] == s.enqueues[q] ==> InSection(s, q) {}
  }

  lemma EffectSection(s: State, t: State, a: Action)
    requires Inv(s) && SectionInv(s) && Exclusive(s, a) && StepEffect(s, t, a)
    requires a.Tick? || a.KillRequest? ==> t.enqueues.Keys <= s.enqueues.Keys
    ensures SectionInv(t)
  {
    if a.EnqueueNext? {
      RequestSectionInv(s, t, a.p);
    } else if a.Deliver? || a.Work? || a.RecoverNext? || a.CleanupNext? {
      NothingNewLive(s, t, a);
      OthersLeaveRequests(s, t, a);
      QuietSectionInv(s, t);
    } else {
      BackgroundSectionInv(s, t, a);
    }
  }

  lemma OthersLeaveRequests(s: State, t: State, a: Action)
    requires StepEffect(s, t, a) && (a.Deliver? || a.Work? || a.RecoverNext? || a.CleanupNext?)
    ensures t.enqueues == s.enqueues
  {
    match a
    case Work(c, _) => WorkerTends(s, t, c);
    case Deliver(c) => DeliverTends(s, t, a, c);
    case RecoverNext(_, _, _, _) => RecoveryTends(s, t, a);
    case CleanupNext(_, _, _) => CleanerTends(s, t, a);
    case _ =>
  }

  /** Workers and commands act while no request is inside its section. */
  lemma QuietSectionInv(s: State, t: State)
    requires SectionInv(s) && NothingNew(s, t) && t.enqueues == s.enqueues
    requires forall p :: !InSection(s, p)
    ensures SectionInv(t)
  {
    forall q ensures !InSection(t, q) { assert !InSection(s, q); }
    forall q | q in t.enqueues ensures Section(t, t.enqueues[q]) { assert !InSection(t, q); }
  }

  lemma StepSection(s: State, a: Action)
    requires Inv(s) && SectionInv(s) && Exclusive(s, a)
    ensures SectionInv(Step(s, a))
  {
    StepHasEffect(s, a);
    if Step(s, a) != s { EffectSection(s, Step(s, a), a); }
  }

  lemma {:induction false} RunSection(s: State, run: seq<Action>)
    requires Inv(s) && ClaimInv(s) && SectionInv(s) && ExclusiveRun(s, run)
    ensures Inv(Exec(s, run)) && ClaimInv(Exec(s, run)) && SectionInv(Exec(s, run))
    decreases |run|
  {
    if run != [] {
      StepInv(s, run[0]);
      StepClaims(s, run[0]);
      StepSection(s, run[0]);
      RunSection(Step(s, run[0]), run[1..]);
    }
  }

  /** In every reachable state at most one row per (user, connection, path) is PENDING or UPLOADING. */
  lemma AtMostOneLiveRowPerPath(now: int, stale: nat, run: seq<Action>, i: Id, j: Id)
    requires ExclusiveRun(Init(now, stale), run)
    requires var s := Exec(Init(now, stale), run); LiveRow(s, i) && LiveRow(s, j) && s.rows[i].key == s.rows[j].key
    ensures i == j
  {
    InitInv(now, stale);
    RunSection(Init(now, stale), run);
  }

  /* ------------------------------- who may still store, and who owns ------------------------------- */

  /** The worker is past the status re-check and can still get its bytes to the backend. */
  ghost predicate CanStore(s: State, c: Chain) {
    && c in s.workers && InTime(s, s.workers[c])
    && (s.workers[c].pc.Writing? || (s.workers[c].pc.Rechecked? && s.workers[c].id in s.files))
  }

  /** The row is UPLOADING under the worker's own claim. */
  ghost predicate Owns(s: State, c: Chain) {
    && c in s.workers && s.workers[c].id in s.rows
    && s.rows[s.workers[c].id].status == Uploading && s.rows[s.workers[c].id].claimedAt == s.workers[c].claim
  }

  /** The step takes the row of worker `c` away under its hands. */
  ghost predicate StealsFrom(s: State, t: State, c: Chain) {
    CanStore(s, c) && Owns(s, c) && CanStore(t, c) && !Owns(t, c)
  }

  ghost predicate NoSteal(s: State, a: Action) { forall c :: !StealsFrom(s, Step(s, a), c) }

  ghost predicate NoSteals(s: State, run: seq<Action>)
    decreases |run|
  {
    run != [] ==> NoSteal(s, run[0]) && NoSteals(Step(s, run[0]), run[1..])
  }

  ghost predicate Owners(s: State) { forall c :: CanStore(s, c) ==> Owns(s, c) }

  lemma WriterBeforeWork(s: State, t: State, d: Chain, c: Chain)
    requires d in s.workers && WorkerEffect(s, t, d) && CanStore(t, c) && d != c
    ensures CanStore(s, c)
  {
    assert t.workers[c] == s.workers[c];
  }

  lemma WriterBeforeRequest(s: State, t: State, p: Pid, c: Chain)
    requires p in s.enqueues && EnqueueOk(s, s.enqueues[p]) && RequestEffect(s, t, p)
    requires CanStore(t, c) && c in s.workers && s.workers[c].id in s.records
    ensures CanStore(s, c)
  {
    assert t.workers == s.workers;
  }

  lemma WriterBeforeDelivery(s: State, t: State, d: Chain, c: Chain)
    requires d in s.queue && DeliverEffect(s, t, d) && CanStore(t, c)
    ensures CanStore(s, c)
  {
    assert c in s.workers && t.workers[c] == s.workers[c];
  }

  lemma WriterBeforeRecovery(s: State, t: State, p: Pid, id: Id, d: Chain, c: Chain)
    requires p in s.recoveries && RecoveryEffect(s, t, p, id, d) && CanStore(t, c)
    ensures CanStore(s, c)
  {}

  lemma WriterBeforeCleanup(s: State, t: State, p: Pid, arg: nat, c: Chain)
    requires p in s.cleanups && CleanerEffect(s, t, p, arg) && CanStore(t, c)
    ensures CanStore(s, c)
  {}

  lemma WriterBeforeBackground(s: State, t: State, c: Chain)
    requires BackgroundEffect(s, t) && CanStore(t, c)
    ensures CanStore(s, c)
  {
    assert c in s.workers && t.workers[c] == s.workers[c];
  }

  lemma WriterBefore(s: State, t: State, a: Action, c: Chain)
    requires EnqueuesOk(s) && WorkersOk(s) && StepEffect(s, t, a) && CanStore(t, c) && !(a.Work? && a.c == c)
    ensures CanStore(s, c)
  {
    match a
    case Work(d, _) => WriterBeforeWork(s, t, d, c);
    case EnqueueNext(p, _, _) =>
      RequestStoresNothing(s, t, p);
      assert EnqueueOk(s, s.enqueues[p]) && WorkerOk(s, s.workers[c]);
      WriterBeforeRequest(s, t, p, c);
    case Deliver(d) => WriterBeforeDelivery(s, t, d, c);
    case RecoverNext(p, _, id, d) => WriterBeforeRecovery(s, t, p, id, d, c);
    case CleanupNext(p, _, arg) => WriterBeforeCleanup(s, t, p, arg, c);
    case _ => WriterBeforeBackground(s, t, c);
  }

  /** A worker gets to the write only from the re-check, and then the claim is its own or too old. */
  lemma NewWriterOwns(s: State, t: State, c: Chain)
    requires ClaimInv(s) && c in s.workers && WorkerOk(s, s.workers[c]) && WorkerEffect(s, t, c)
    requires CanStore(t, c) && !CanStore(s, c)
    ensures Owns(t, c)
  {
    assert Covered(s, Holds(s, c).value);
  }

  lemma EffectOwners(s: State, t: State, a: Action)
    requires Inv(s) && ClaimInv(s) && Owners(s) && StepEffect(s, t, a)
    requires forall c :: !StealsFrom(s, t, c)
    ensures Owners(t)
  {
    forall c | CanStore(t, c) ensures Owns(t, c) {
      assert !StealsFrom(s, t, c);
      if !CanStore(s, c) {
        if !(a.Work? && a.c == c) { WriterBefore(s, t, a, c); }
        NewWriterOwns(s, t, c);
      }
    }
  }
}
