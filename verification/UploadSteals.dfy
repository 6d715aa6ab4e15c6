/**
 Where the order can break.  A row is taken from the worker writing it only by another chain's late
 final status update, or by enqueue_upload deleting a row it had already published; and as soon as
 that happens, some legal continuation stores an older record over a newer one.
 */
module UploadSteals {
  import opened UploadProtocol
  import opened UploadInvariants
  import opened UploadClaims
  import opened UploadOrder
  import opened UploadWrites

  /** Another chain, its own claim more than `stale` old, marks the row FAILED or DONE. */
  ghost predicate LateFinish(s: State, a: Action, id: Id) {
    && a.Work? && a.c in s.workers && s.workers[a.c].id == id
    && (s.workers[a.c].pc.Failing? || s.workers[a.c].pc.Finishing?) && !InTime(s, s.workers[a.c])
  }

  /** enqueue_upload deletes the row it created, although a worker already has it. */
  ghost predicate LateRollback(s: State, a: Action, id: Id) {
    a.EnqueueNext? && a.p in s.enqueues && s.enqueues[a.p].pc.Deleting? && s.enqueues[a.p].id == id
  }

  lemma StealFromWorker(s: State, t: State, d: Chain, c: Chain)
    requires ClaimInv(s) && ChainsOk(s) && d in s.workers && WorkerEffect(s, t, d) && StealsFrom(s, t, c)
    ensures s.workers[d].id == s.workers[c].id && !LiveRow(t, s.workers[c].id)
    ensures (s.workers[d].pc.Failing? || s.workers[d].pc.Finishing?) && !InTime(s, s.workers[d])
  {
    assert WorkerOk(s, s.workers[c]) && WorkerOk(s, s.workers[d]);
    assert RowTimes(s, s.rows[s.workers[c].id]);
    assert Covered(s, Holds(s, d).value);
    assert c != d ==> Apart(s.stale, Holds(s, c).value, Holds(s, d).value);
  }

  lemma StealFromRequest(s: State, t: State, p: Pid, c: Chain)
    requires RowsOk(s) && ClaimInv(s) && SectionInv(s) && ChainsOk(s) && p in s.enqueues && RequestEffect(s, t, p)
             && StealsFrom(s, t, c)
    requires EnqueueOk(s, s.enqueues[p])
    ensures s.enqueues[p].pc.Deleting? && s.enqueues[p].id == s.workers[c].id && !LiveRow(t, s.workers[c].id)
  {
    assert WorkerOk(s, s.workers[c]);
    assert Section(s, s.enqueues[p]);
    assert LiveAt(s, s.workers[c].id, s.workers[c].key);
    assert !StaleAt(s, s.workers[c].id, s.now - s.stale);
    assert LiveAt(s, s.workers[c].id, s.enqueues[p].key) <==> s.workers[c].key == s.enqueues[p].key;
  }

  lemma StealKinds(s: State, a: Action, c: Chain)
    requires OrderInv(s) && Exclusive(s, a) && StealsFrom(s, Step(s, a), c)
    ensures LateFinish(s, a, s.workers[c].id) || LateRollback(s, a, s.workers[c].id)
    ensures !LiveRow(Step(s, a), s.workers[c].id)
  {
    StepHasEffect(s, a);
    EffectStealKinds(s, Step(s, a), a, c);
  }

  /** The action takes the row of worker `c`: another chain's final update, or the rollback's delete. */
  ghost predicate TakesRow(s: State, a: Action, c: Chain)
    requires c in s.workers
  {
    || (a.Work? && a.c != c && a.c in s.workers && s.workers[a.c].id == s.workers[c].id
        && (s.workers[a.c].pc.Failing? || s.workers[a.c].pc.Finishing?))
    || (a.EnqueueNext? && a.choice.Ok? && a.p in s.enqueues && s.enqueues[a.p].pc.Deleting?
        && s.enqueues[a.p].id == s.workers[c].id)
  }

  lemma FinalUpdateTakes(s: State, d: Chain, choice: Choice, c: Chain)
    requires CanStore(s, c) && Owns(s, c) && d != c && d in s.workers && s.workers[d].id == s.workers[c].id
    requires s.workers[d].pc.Failing? || s.workers[d].pc.Finishing?
    ensures StealsFrom(s, WorkStep(s, d, choice), c)
  {
    if s.workers[d].pc.Failing? {
      assert WorkStep(s, d, choice) == FailStep(s, d);
    } else {
      assert WorkStep(s, d, choice) == FinishStep(s, d);
    }
  }

  lemma RollbackTakes(s: State, p: Pid, choice: Choice, arg: nat, c: Chain)
    requires CanStore(s, c) && Owns(s, c) && p in s.enqueues && s.enqueues[p].pc.Deleting?
    requires s.enqueues[p].id == s.workers[c].id
    ensures StealsFrom(s, EnqueueStep(s, p, choice, arg), c) <==> choice.Ok?
  {
    if choice.Ok? {
      assert EnqueueStep(s, p, choice, arg) == DeleteRow(s, p);
    } else {
      assert EnqueueStep(s, p, choice, arg) == Stop(s, p);
    }
  }

  /** The guard of a steal: a worker that could still store its bytes loses its row exactly to a final
      update of another chain on the same row, or to a rollback of that row whose delete works. */
  lemma StealsExactly(s: State, a: Action, c: Chain)
    requires OrderInv(s) && Exclusive(s, a) && CanStore(s, c) && Owns(s, c)
    ensures StealsFrom(s, Step(s, a), c) <==> TakesRow(s, a, c)
  {
    if StealsFrom(s, Step(s, a), c) { StealKinds(s, a, c); }
    var id := s.workers[c].id;
    if a.Work? && a.c in s.workers && s.workers[a.c].id == id
       && (s.workers[a.c].pc.Failing? || s.workers[a.c].pc.Finishing?) {
      FinalUpdateTakes(s, a.c, a.choice, c);
    } else if a.EnqueueNext? && a.p in s.enqueues && s.enqueues[a.p].pc.Deleting? && s.enqueues[a.p].id == id {
      RollbackTakes(s, a.p, a.choice, a.arg, c);
    }
  }

  lemma EffectStealKinds(s: State, t: State, a: Action, c: Chain)
    requires OrderInv(s) && StepEffect(s, t, a) && StealsFrom(s, t, c)
    ensures LateFinish(s, a, s.workers[c].id) || LateRollback(s, a, s.workers[c].id)
    ensures !LiveRow(t, s.workers[c].id)
  {
    if a.Work? {
      StealFromWorker(s, t, a.c, c);
    } else if a.EnqueueNext? {
      assert EnqueueOk(s, s.enqueues[a.p]);
      StealFromRequest(s, t, a.p, c);
    } else {
      OthersDoNotSteal(s, t, a, c);
    }
  }

  /** A reset spares the row of a chain that is in time, and the cleanup only deletes dead rows. */
  lemma TendedStaysOwned(s: State, t: State, a: Action, c: Chain)
    requires TimesOk(s) && CommandsOk(s) && RowsTended(s, t, a) && CanStore(s, c) && Owns(s, c)
    requires c in t.workers && t.workers[c] == s.workers[c]
    ensures Owns(t, c)
  {
    if a.CleanupNext? && a.p in s.cleanups { assert CleanupOk(s, s.cleanups[a.p]); }
  }

  lemma OthersDoNotSteal(s: State, t: State, a: Action, c: Chain)
    requires TimesOk(s) && ChainsOk(s) && CommandsOk(s) && StepEffect(s, t, a) && !a.Work? && !a.EnqueueNext?
    requires CanStore(s, c) && Owns(s, c) && CanStore(t, c)
    ensures Owns(t, c)
  {
    OthersTend(s, t, a);
    OthersKeepWorker(s, t, a, c);
    TendedStaysOwned(s, t, a, c);
  }

  lemma OthersKeepWorker(s: State, t: State, a: Action, c: Chain)
    requires OnePlace(s) && StepEffect(s, t, a) && !a.Work? && !a.EnqueueNext? && c in s.workers && c in t.workers
    ensures t.workers[c] == s.workers[c]
  {
    match a
    case Work(_, _) =>
    case EnqueueNext(_, _, _) =>
    case RecoverNext(_, _, _, _) => RecoveryTends(s, t, a);
    case CleanupNext(_, _, _) => CleanerTends(s, t, a);
    case _ =>
  }

  /** Neither a final status update nor a rollback's delete. */
  ghost predicate Calm(s: State, a: Action) {
    && (a.Work? && a.c in s.workers ==> !s.workers[a.c].pc.Failing? && !s.workers[a.c].pc.Finishing?)
    && (a.EnqueueNext? && a.p in s.enqueues ==> !s.enqueues[a.p].pc.Deleting?)
  }

  ghost predicate CalmRun(s: State, run: seq<Action>)
    decreases |run|
  {
    run != [] ==> Calm(s, run[0]) && CalmRun(Step(s, run[0]), run[1..])
  }

  lemma {:induction false} CalmRunsStealNothing(s: State, run: seq<Action>)
    requires OrderInv(s) && LegalRun(s, run) && CalmRun(s, run)
    ensures NoSteals(s, run)
    decreases |run|
  {
    if run != [] {
      forall c ensures !StealsFrom(s, Step(s, run[0]), c) {
        if StealsFrom(s, Step(s, run[0]), c) { StealKinds(s, run[0], c); }
      }
      StepOrderInv(s, run[0]);
      CalmRunsStealNothing(Step(s, run[0]), run[1..]);
    }
  }

  /* ------------------------------ when nothing can be stolen ------------------------------ */

  /** Every final status update is within `stale` of its chain's claim, and enqueue_upload never
      deletes a row that a worker already has. */
  ghost predicate Prompt(s: State, a: Action) {
    && (a.Work? && a.c in s.workers && (s.workers[a.c].pc.Failing? || s.workers[a.c].pc.Finishing?)
       ==> InTime(s, s.workers[a.c]))
    && (a.EnqueueNext? && a.p in s.enqueues && s.enqueues[a.p].pc.Deleting? ==>
          forall c <- s.workers :: s.workers[c].id != s.enqueues[a.p].id)
  }

  ghost predicate PromptRun(s: State, run: seq<Action>)
    decreases |run|
  {
    run != [] ==> Prompt(s, run[0]) && PromptRun(Step(s, run[0]), run[1..])
  }

  lemma {:induction false} PromptRunsStealNothing(s: State, run: seq<Action>)
    requires OrderInv(s) && LegalRun(s, run) && PromptRun(s, run)
    ensures NoSteals(s, run)
    decreases |run|
  {
    if run != [] {
      forall c ensures !StealsFrom(s, Step(s, run[0]), c) {
        if StealsFrom(s, Step(s, run[0]), c) { StealKinds(s, run[0], c); }
      }
      StepOrderInv(s, run[0]);
      PromptRunsStealNothing(Step(s, run[0]), run[1..]);
    }
  }

  /** If every chain is done with a row, its last status update included, within `stale` of its
      claim, and no published row is rolled back, writes follow the creation order. */
  lemma PromptChainsKeepOrder(now: int, stale: nat, run: seq<Action>)
    requires LegalRun(Init(now, stale), run) && PromptRun(Init(now, stale), run)
    ensures Ordered(Exec(Init(now, stale), run))
  {
    InitOrdered(now, stale);
    PromptRunsStealNothing(Init(now, stale), run);
    WritesFollowCreationOrder(now, stale, run);
  }
}
