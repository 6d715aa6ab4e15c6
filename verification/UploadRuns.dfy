/**
 The runs that the methods amount to.  Nobody else is at work meanwhile, so no request overlaps a sweep
 or another request's section, and a delivery that ends within the stale timeout of its claim stores its
 bytes in time: everything proved of quiet, exclusive and timely runs holds of them.
 */
module UploadRuns {
  import opened UploadProtocol
  import opened UploadInvariants
  import opened UploadClaims
  import opened UploadFiles
  import opened UploadOrder
  import opened UploadWrites
  import opened UploadService
  import opened UploadRequests

  /** The actions of workers and of the recovery command, and the clock. */
  predicate OfWorkers(run: seq<Action>) {
    forall a <- run :: a.Tick? || a.Deliver? || a.Work? || a.RecoverStart? || a.RecoverNext?
  }

  /** No request and no cleanup is running. */
  ghost predicate Unattended(s: State) { s.enqueues == map[] && s.cleanups == map[] }

  ghost predicate Orderly(s: State, run: seq<Action>) { QuietRun(s, run) && ExclusiveRun(s, run) }

  lemma CommandsStay(s: State, a: Action)
    requires !a.CleanupStart? && !a.CleanupNext? && s.cleanups == map[]
    ensures Step(s, a).cleanups == map[]
  {
    StepHasEffect(s, a);
    if !a.Work? && !a.EnqueueNext? && !a.Deliver? && !a.RecoverNext? && Step(s, a) != s { BackgroundStarts(s, a); }
  }

  lemma BackgroundStarts(s: State, a: Action)
    requires a.Tick? || a.CrashWorker? || a.EnqueueStart? || a.RecoverStart? || a.KillRequest?
    ensures Step(s, a).cleanups == s.cleanups
  {}

  lemma WorkersStep(s: State, a: Action)
    requires Unattended(s) && (a.Tick? || a.Deliver? || a.Work? || a.RecoverStart? || a.RecoverNext?)
    ensures Unattended(Step(s, a))
  {
    CommandsStay(s, a);
    StepHasEffect(s, a);
    if (a.Deliver? || a.Work? || a.RecoverNext?) && Step(s, a) != s { OthersLeaveRequests(s, Step(s, a), a); }
  }

  lemma {:induction false} WorkersAreOrderly(s: State, run: seq<Action>)
    requires Unattended(s) && OfWorkers(run)
    ensures Orderly(s, run)
    decreases |run|
  {
    if run != [] {
      WorkersStep(s, run[0]);
      WorkersAreOrderly(Step(s, run[0]), run[1..]);
    }
  }

  /** Request 0 is the only one. */
  ghost predicate OnlyRequest(s: State) { s.enqueues.Keys <= {0} && s.cleanups == map[] }

  lemma RequestStep(s: State, a: Action)
    requires OnlyRequest(s) && (a.Tick? || (a.EnqueueNext? && a.p == 0) || (a.EnqueueStart? && a.p == 0))
    ensures OnlyRequest(Step(s, a))
  {
    CommandsStay(s, a);
    StepHasEffect(s, a);
  }

  lemma {:induction false} SectionIsOrderly(s: State, run: seq<Action>)
    requires OnlyRequest(s) && forall a <- run :: a.Tick? || (a.EnqueueNext? && a.p == 0)
    ensures Orderly(s, run)
    decreases |run|
  {
    if run != [] {
      RequestStep(s, run[0]);
      SectionIsOrderly(Step(s, run[0]), run[1..]);
    }
  }

  lemma RequestIsOrderly(s: State, run: seq<Action>)
    requires Unattended(s) && OfRequest(run)
    ensures Orderly(s, run)
  {
    if run != [] {
      RequestStep(s, run[0]);
      SectionIsOrderly(Step(s, run[0]), run[1..]);
    }
  }

  /* ------------------------------------ what such runs keep ------------------------------------ */

  /** All that is invariant in orderly runs: rows, claims and bytes, one live row per path, the newest
      record live, the backend in step with the log. */
  ghost predicate Sound(s: State) { OrderInv(s) && FileInv(s) }

  lemma StepSound(s: State, a: Action)
    requires Sound(s) && Quiet(s) && Exclusive(s, a)
    ensures Sound(Step(s, a))
  {
    StepOrderInv(s, a);
    StepHasEffect(s, a);
    if Step(s, a) != s { EffectFiles(s, Step(s, a), a); }
  }

  lemma {:induction false} OrderlyKeepsSound(s: State, run: seq<Action>)
    requires Sound(s) && Orderly(s, run)
    ensures Sound(Exec(s, run))
    decreases |run|
  {
    if run != [] {
      StepSound(s, run[0]);
      OrderlyKeepsSound(Step(s, run[0]), run[1..]);
    }
  }

  ghost predicate KeptSound(s: State, t: State) { Sound(s) ==> Sound(t) }

  lemma WorkersKeepSound(s: State, run: seq<Action>, t: State)
    requires Unattended(s) && OfWorkers(run) && Exec(s, run) == t
    ensures KeptSound(s, t)
  {
    WorkersAreOrderly(s, run);
    if Sound(s) { OrderlyKeepsSound(s, run); }
  }

  lemma DeliveryKeepsSound(s: State, c: Chain, env: Env, run: seq<Action>)
    requires Unattended(s) && OfChain(run, c) && c in s.queue && Exec(s, run) == DeliveryOutcome(s, c, env)
    ensures KeptSound(s, DeliveryOutcome(s, c, env))
  {
    WorkersKeepSound(s, run, DeliveryOutcome(s, c, env));
  }

  lemma RequestKeepsSound(s: State, run: seq<Action>, t: State)
    requires Unattended(s) && OfRequest(run) && Exec(s, run) == t
    ensures KeptSound(s, t)
  {
    RequestIsOrderly(s, run);
    if Sound(s) { OrderlyKeepsSound(s, run); }
  }

  lemma InitSound(now: int, stale: nat)
    ensures Sound(Init(now, stale)) && Unattended(Init(now, stale))
  {
    InitOrdered(now, stale);
  }

  /* ------------------------------------ deliveries in time ------------------------------------ */

  /** The chain's claim, if it has one, is good until `end`. */
  ghost predicate GoodUntil(s: State, c: Chain, end: int) {
    Holds(s, c).Some? ==> end <= Holds(s, c).value.at + s.stale
  }

  lemma GoodAfter(s: State, a: Action, c: Chain, end: int)
    requires Inv(s) && GoodUntil(s, c, end) && end <= s.now + s.stale && OfChain([a], c)
    ensures GoodUntil(Step(s, a), c, end)
  {
    assert a in [a];
    StepHasEffect(s, a);
    if a.Tick? {
      TickGood(s, a.d, c, end);
    } else if Step(s, a) != s {
      if a.Work? { WorkGood(s, Step(s, a), c, end); } else { DeliverGood(s, Step(s, a), c, end); }
    }
  }

  lemma TickGood(s: State, d: nat, c: Chain, end: int)
    requires GoodUntil(s, c, end)
    ensures GoodUntil(Step(s, Tick(d)), c, end)
  {}

  lemma DeliverGood(s: State, t: State, c: Chain, end: int)
    requires OnePlace(s) && c in s.queue && DeliverEffect(s, t, c) && GoodUntil(s, c, end)
    ensures GoodUntil(t, c, end)
  {}

  lemma WorkGood(s: State, t: State, c: Chain, end: int)
    requires OnePlace(s) && c in s.workers && WorkerEffect(s, t, c) && GoodUntil(s, c, end) && end <= s.now + s.stale
    ensures GoodUntil(t, c, end)
  {}

  /** Deliveries of one chain that end within the timeout of its claim, and of their start, are timely. */
  lemma {:induction false} ChainIsTimely(s: State, run: seq<Action>, c: Chain, end: int)
    requires Inv(s) && OfChain(run, c) && Exec(s, run).now <= end <= s.now + s.stale && GoodUntil(s, c, end)
    ensures TimelyRun(s, run)
    decreases |run|
  {
    if run != [] {
      var a, t := run[0], Step(s, run[0]);
      assert a in run;
      StepInv(s, a);
      RunInv(t, run[1..]);
      GoodAfter(s, a, c, end);
      if a.Work? && c in s.workers { assert WorkerOk(s, s.workers[c]); }
      ChainIsTimely(t, run[1..], c, end);
    }
  }

  lemma ErrorEnds(s: State, c: Chain, w: Worker)
    ensures ErrorOutcome(s, c, w).now == s.now && FailRow(s, w.id).now == s.now
  {}

  lemma FinishedEnds(s: State, id: Id)
    requires id in s.rows
    ensures FinishedRow(s, id).now == s.now
  {}

  lemma AckEnds(s: State, c: Chain, w: Worker, env: Env)
    requires HasStatus(s, w.id, Uploading)
    ensures AckOutcome(s, c, w, env).now == s.now
  {
    match env.ack
    case Ok => FinishedEnds(s, w.id);
    case _ => ErrorEnds(s, c, w);
  }

  lemma WriteEnds(s: State, c: Chain, w: Worker, env: Env)
    requires HasStatus(s, w.id, Uploading)
    ensures WriteOutcome(s, c, w, env).now == s.now
  {
    ErrorEnds(s, c, w);
    if w.id in s.files {
      var v := w.(pc := Writing(s.files[w.id]));
      ErrorEnds(s, c, v);
      AckEnds(StoredBytes(s, v), c, v, env);
    }
  }

  lemma TakenLater(s: State, c: Chain, m: Message, pause: nat)
    requires LiveRow(s, m.id)
    ensures Taken(s, c, m, pause).now == s.now + pause
  {}

  /** How late it is when a delivery is over. */
  lemma DeliveryEnds(s: State, c: Chain, env: Env)
    requires c in s.queue
    ensures DeliveryOutcome(s, c, env).now <= s.now + env.pause + env.work
  {
    var m := s.queue[c];
    if !Drops(s, m) {
      var t := Taken(s, c, m, env.pause);
      TakenLater(s, c, m, env.pause);
      TakenIsUploading(s, c, m, env.pause);
      WriteEnds(Later(t, env.work), c, TakenBy(s, m, env.pause), env);
    }
  }

  /** A delivery is a run of the protocol of every kind the theorems are about; timely, if it takes no
      longer than the timeout and the claim it may hold from before its retry lasts as long. */
  lemma DeliveryIsLegal(s: State, c: Chain, env: Env) returns (run: seq<Action>)
    requires Inv(s) && Unattended(s) && s.workers == map[] && c in s.queue
    ensures Exec(s, run) == DeliveryOutcome(s, c, env) && Orderly(s, run)
    ensures env.pause + env.work <= s.stale && GoodUntil(s, c, s.now + env.pause + env.work) ==> TimelyRun(s, run)
  {
    run := DeliveryIsRun(s, c, env);
    WorkersAreOrderly(s, run);
    DeliveryEnds(s, c, env);
    if env.pause + env.work <= s.stale && GoodUntil(s, c, s.now + env.pause + env.work) {
      ChainIsTimely(s, run, c, s.now + env.pause + env.work);
    }
  }
}
