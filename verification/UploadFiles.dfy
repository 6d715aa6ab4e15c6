/**
 The bytes of live rows.  A PENDING or UPLOADING row keeps its temp file, with exactly the bytes handed
 to enqueue_upload, through workers, recovery, cleanup and every failure inside enqueue_upload but one:
 a cancellation that has unlinked the file and does not get to save CANCELLED, because the save raises
 or the request dies, leaves a live row without its bytes for good.
 */
module UploadFiles {
  import opened UploadProtocol
  import opened UploadInvariants

  /** No enqueue_upload has a temp file without its row while cleanup_pending_uploads sweeps orphans. */
  ghost predicate Quiet(s: State) {
    (exists p :: p in s.cleanups && s.cleanups[p].Sweeping?)
    ==> forall p <- s.enqueues :: !s.enqueues[p].pc.Buffering? && !s.enqueues[p].pc.Creating?
  }

  ghost predicate QuietRun(s: State, run: seq<Action>)
    decreases |run|
  {
    Quiet(s) && (run != [] ==> QuietRun(Step(s, run[0]), run[1..]))
  }

  ghost predicate LiveFiles(s: State) {
    forall id <- s.rows :: IsLive(s.rows[id].status) ==> id in s.files || id in s.unlinked
  }

  ghost predicate OwnFiles(s: State) {
    && (forall p <- s.enqueues :: s.enqueues[p].pc.Creating? ==> s.enqueues[p].id in s.files)
    && (forall id <- s.unlinked :: id in s.records && id !in s.files)
    && (forall p <- s.cleanups :: s.cleanups[p].Sweeping? ==> s.rows.Keys <= s.cleanups[p].known)
  }

  ghost predicate FileInv(s: State) { LiveFiles(s) && OwnFiles(s) }

  lemma WorkerFiles(s: State, t: State, c: Chain)
    requires Inv(s) && FileInv(s) && c in s.workers && WorkerEffect(s, t, c)
    ensures FileInv(t)
  {
    assert WorkerOk(s, s.workers[c]);
  }

  lemma RequestLiveFiles(s: State, t: State, p: Pid)
    requires FileInv(s) && p in s.enqueues && EnqueueOk(s, s.enqueues[p]) && RequestEffect(s, t, p)
    ensures LiveFiles(t)
  {
    if t.records == s.records {
      RequestNoNewRow(s, t, p);
      if t.unlinked == s.unlinked {
        RequestKeepsFiles(s, t, p);
      } else {
        RequestMovesFile(s, t, p);
      }
    } else {
      RequestCreatesRow(s, t, p);
    }
  }

  lemma RequestNoNewRow(s: State, t: State, p: Pid)
    requires p in s.enqueues && EnqueueOk(s, s.enqueues[p]) && RequestEffect(s, t, p) && t.records == s.records
    ensures forall id <- t.rows :: IsLive(t.rows[id].status) ==> LiveRow(s, id)
  {}

  /** The file that goes without a trace is that of a row that does not exist. */
  lemma RequestKeepsFiles(s: State, t: State, p: Pid)
    requires p in s.enqueues && EnqueueOk(s, s.enqueues[p]) && RequestEffect(s, t, p) && t.unlinked == s.unlinked
    ensures forall id <- s.rows :: id in s.files ==> id in t.files || id in t.unlinked
  {}

  lemma RequestMovesFile(s: State, t: State, p: Pid)
    requires p in s.enqueues && RequestEffect(s, t, p) && t.unlinked != s.unlinked
    ensures forall id :: LiveRow(t, id) && (id in s.files || id in s.unlinked) ==> id in t.files || id in t.unlinked
  {}

  lemma RequestCreatesRow(s: State, t: State, p: Pid)
    requires FileInv(s) && p in s.enqueues && RequestEffect(s, t, p) && t.records != s.records
    ensures LiveFiles(t)
  {
    assert s.enqueues[p].pc.Creating? && t.files == s.files && t.unlinked == s.unlinked;
  }

  lemma RequestKeepsFile(s: State, t: State, p: Pid, id: Id)
    requires p in s.enqueues && EnqueueOk(s, s.enqueues[p]) && RequestEffect(s, t, p)
    requires id !in s.records && id != s.enqueues[p].id && id in s.files
    ensures id in t.files
  {}

  lemma RequestCreating(s: State, t: State, p: Pid)
    requires EnqueuesOk(s) && OwnFiles(s) && p in s.enqueues && RequestEffect(s, t, p)
    ensures forall q <- t.enqueues :: t.enqueues[q].pc.Creating? ==> t.enqueues[q].id in t.files
  {
    assert EnqueueOk(s, s.enqueues[p]);
    forall q | q in t.enqueues && t.enqueues[q].pc.Creating? ensures t.enqueues[q].id in t.files {
      if q != p {
        assert EnqueueOk(s, s.enqueues[q]);
        RequestKeepsFile(s, t, p, s.enqueues[q].id);
      }
    }
  }

  lemma RequestUnlinked(s: State, t: State, p: Pid)
    requires OwnFiles(s) && p in s.enqueues && EnqueueOk(s, s.enqueues[p]) && RequestEffect(s, t, p)
    ensures forall id <- t.unlinked :: id in t.records && id !in t.files
  {}

  lemma RequestFileInv(s: State, t: State, p: Pid)
    requires EnqueuesOk(s) && FileInv(s) && Quiet(s) && p in s.enqueues && RequestEffect(s, t, p)
    ensures FileInv(t)
  {
    assert EnqueueOk(s, s.enqueues[p]);
    RequestLiveFiles(s, t, p);
    RequestCreating(s, t, p);
    RequestUnlinked(s, t, p);
    RequestSweeps(s, t, p);
  }

  lemma RequestSweeps(s: State, t: State, p: Pid)
    requires OwnFiles(s) && p in s.enqueues && RequestEffect(s, t, p) && Quiet(s)
    ensures forall q <- t.cleanups :: t.cleanups[q].Sweeping? ==> t.rows.Keys <= t.cleanups[q].known
  {}

  lemma RecoveryFiles(s: State, t: State, p: Pid, id: Id, c: Chain)
    requires FileInv(s) && p in s.recoveries && RecoveryEffect(s, t, p, id, c)
    ensures FileInv(t)
  {}

  lemma CleanerFiles(s: State, t: State, p: Pid, arg: nat)
    requires Inv(s) && FileInv(s) && Quiet(s) && p in s.cleanups && CleanerEffect(s, t, p, arg)
    ensures FileInv(t)
  {
    assert CleanupOk(s, s.cleanups[p]);
    forall q | q in t.enqueues && t.enqueues[q].pc.Creating? ensures t.enqueues[q].id in t.files {
      assert EnqueueOk(s, s.enqueues[q]);
    }
  }

  lemma DeliveryFiles(s: State, t: State, c: Chain)
    requires FileInv(s) && c in s.queue && DeliverEffect(s, t, c)
    ensures FileInv(t)
  {}

  lemma BackgroundFiles(s: State, t: State)
    requires FileInv(s) && BackgroundEffect(s, t)
    ensures FileInv(t)
  {}

  lemma EffectFiles(s: State, t: State, a: Action)
    requires Inv(s) && FileInv(s) && Quiet(s) && StepEffect(s, t, a)
    ensures FileInv(t)
  {
    match a
    case Deliver(c) => DeliveryFiles(s, t, c);
    case Work(c, _) => WorkerFiles(s, t, c);
    case EnqueueNext(p, _, _) => RequestFileInv(s, t, p);
    case RecoverNext(p, _, id, c) => RecoveryFiles(s, t, p, id, c);
    case CleanupNext(p, _, arg) => CleanerFiles(s, t, p, arg);
    case _ => BackgroundFiles(s, t);
  }

  lemma {:induction false} RunFiles(s: State, run: seq<Action>)
    requires Inv(s) && FileInv(s) && QuietRun(s, run)
    ensures Inv(Exec(s, run)) && FileInv(Exec(s, run))
    decreases |run|
  {
    if run != [] {
      StepInv(s, run[0]);
      StepHasEffect(s, run[0]);
      if Step(s, run[0]) != s { EffectFiles(s, Step(s, run[0]), run[0]); }
      RunFiles(Step(s, run[0]), run[1..]);
    }
  }

  ghost predicate HasItsBytes(s: State, id: Id) {
    id in s.files && id in s.records && s.files[id] == s.records[id].data
  }

  /** In quiet runs a live row is without its bytes exactly if a cancellation has unlinked its file and
      has not saved CANCELLED since: not yet, or never, when the save raised or the request died. */
  lemma LiveRowsKeepTheirBytes(now: int, stale: nat, run: seq<Action>, id: Id)
    requires QuietRun(Init(now, stale), run)
    requires LiveRow(Exec(Init(now, stale), run), id)
    ensures var s := Exec(Init(now, stale), run); HasItsBytes(s, id) <==> id !in s.unlinked
  {
    InitInv(now, stale);
    RunFiles(Init(now, stale), run);
  }

  /* ------------------------- with each cancel iteration taken as one step ------------------------- */

  ghost predicate MidCancel(s: State, p: Pid) { p in s.enqueues && s.enqueues[p].pc.CancelSaving? }

  ghost predicate SaveGoes(s: State, p: Pid, choice: Choice)
    requires MidCancel(s, p)
  {
    choice.Ok? || s.enqueues[p].pc.current !in s.unlinked
  }

  /** Nothing happens between the unlink and the save of a cancel iteration, the request's own death
      included, and where the unlink worked the save works too. */
  ghost predicate WholeCancels(s: State, run: seq<Action>)
    decreases |run|
  {
    run != [] ==>
      && (forall p :: MidCancel(s, p) ==> run[0].EnqueueNext? && run[0].p == p && SaveGoes(s, p, run[0].choice))
      && WholeCancels(Step(s, run[0]), run[1..])
  }

  ghost predicate CancelInv(s: State) {
    && (forall p, q :: MidCancel(s, p) && MidCancel(s, q) ==> p == q)
    && (forall id <- s.unlinked :: LiveRow(s, id) ==> exists p :: MidCancel(s, p) && s.enqueues[p].pc.current == id)
  }

  lemma AfterSave(s: State, t: State, p: Pid)
    requires CancelInv(s) && MidCancel(s, p) && RequestEffect(s, t, p) && !MidCancel(t, p)
    requires !LiveRow(t, s.enqueues[p].pc.current)
    ensures CancelInv(t)
  {
    forall q ensures !MidCancel(t, q) {
      if q != p { assert !MidCancel(s, q); }
    }
  }

  /** A save that raises over a file that is still there. */
  lemma SaveFails(s: State, p: Pid)
    requires CancelInv(s) && MidCancel(s, p) && s.enqueues[p].pc.current !in s.unlinked
    ensures CancelInv(Stop(s, p))
  {
    var t := Stop(s, p);
    forall q ensures !MidCancel(t, q) { if q != p { assert !MidCancel(s, q); } }
    forall id | id in s.unlinked ensures !LiveRow(t, id) { assert LiveRow(t, id) == LiveRow(s, id); }
  }

  lemma SaveWorks(s: State, p: Pid, arg: nat)
    requires CancelInv(s) && MidCancel(s, p)
    ensures CancelInv(EnqueueStep(s, p, Ok, arg))
  {
    CancelSaveEffect(s, p, true);
    AfterSave(s, CancelSave(s, p, true, s.enqueues[p].pc.current, s.enqueues[p].pc.todo), p);
  }

  lemma SaveEndsCancel(s: State, p: Pid, choice: Choice, arg: nat)
    requires CancelInv(s) && MidCancel(s, p) && SaveGoes(s, p, choice)
    ensures CancelInv(EnqueueStep(s, p, choice, arg))
  {
    if choice.Ok? {
      SaveWorks(s, p, arg);
    } else {
      SaveFails(s, p);
      assert EnqueueStep(s, p, choice, arg) == Stop(s, p);
    }
  }

  lemma RequestCancels(s: State, t: State, p: Pid)
    requires p in s.enqueues && EnqueueOk(s, s.enqueues[p]) && RequestEffect(s, t, p)
    requires forall q :: !MidCancel(s, q)
    requires forall id <- s.unlinked :: !LiveRow(t, id)
    ensures CancelInv(t)
  {
    forall q | MidCancel(t, q) ensures q == p { assert !MidCancel(s, q); }
    forall id | id in t.unlinked && LiveRow(t, id) ensures MidCancel(t, p) && t.enqueues[p].pc.current == id {}
  }

  /** The requests that run were running before, or have just started. */
  ghost predicate RequestsStay(s: State, t: State) {
    && t.unlinked == s.unlinked
    && forall q <- t.enqueues :: t.enqueues[q].pc.LookingUp? || (q in s.enqueues && t.enqueues[q] == s.enqueues[q])
  }

  lemma WorkerStaysOut(s: State, t: State, c: Chain)
    requires c in s.workers && WorkerEffect(s, t, c)
    ensures RequestsStay(s, t)
  {}

  lemma DeliveryStaysOut(s: State, t: State, c: Chain)
    requires c in s.queue && DeliverEffect(s, t, c)
    ensures RequestsStay(s, t)
  {}

  lemma RecoveryStaysOut(s: State, t: State, p: Pid, id: Id, c: Chain)
    requires p in s.recoveries && RecoveryEffect(s, t, p, id, c)
    ensures RequestsStay(s, t)
  {}

  lemma CleanerStaysOut(s: State, t: State, p: Pid, arg: nat)
    requires p in s.cleanups && CleanerEffect(s, t, p, arg)
    ensures RequestsStay(s, t)
  {}

  lemma BackgroundStaysOut(s: State, t: State)
    requires BackgroundEffect(s, t)
    ensures RequestsStay(s, t)
  {}

  lemma OthersStayOut(s: State, t: State, a: Action)
    requires StepEffect(s, t, a) && !a.EnqueueNext?
    ensures RequestsStay(s, t)
  {
    match a
    case EnqueueNext(_, _, _) =>
    case Work(c, _) => WorkerStaysOut(s, t, c);
    case Deliver(c) => DeliveryStaysOut(s, t, c);
    case RecoverNext(p, _, id, c) => RecoveryStaysOut(s, t, p, id, c);
    case CleanupNext(p, _, arg) => CleanerStaysOut(s, t, p, arg);
    case _ => BackgroundStaysOut(s, t);
  }

  lemma OtherCancels(s: State, t: State)
    requires RequestsStay(s, t) && forall q :: !MidCancel(s, q)
    requires forall id <- s.unlinked :: !LiveRow(t, id)
    ensures CancelInv(t)
  {
    forall q ensures !MidCancel(t, q) { assert !MidCancel(s, q); }
  }

  lemma EffectCancels(s: State, t: State, a: Action)
    requires Inv(s) && StepEffect(s, t, a) && Evolves(s, t)
    requires forall p :: !MidCancel(s, p)
    requires forall id <- s.unlinked :: id in s.records && !LiveRow(s, id)
    ensures CancelInv(t)
  {
    forall id | id in s.unlinked ensures !LiveRow(t, id) { assert Dead(s, id); }
    if a.EnqueueNext? {
      assert EnqueueOk(s, s.enqueues[a.p]);
      RequestCancels(s, t, a.p);
    } else {
      OthersStayOut(s, t, a);
      OtherCancels(s, t);
    }
  }

  lemma CancelStep(s: State, a: Action)
    requires Inv(s) && OwnFiles(s) && CancelInv(s)
    requires forall p :: MidCancel(s, p) ==> a.EnqueueNext? && a.p == p && SaveGoes(s, p, a.choice)
    ensures CancelInv(Step(s, a))
  {
    if a.EnqueueNext? && MidCancel(s, a.p) {
      SaveEndsCancel(s, a.p, a.choice, a.arg);
    } else {
      StepInv(s, a);
      StepHasEffect(s, a);
      if Step(s, a) != s { EffectCancels(s, Step(s, a), a); }
    }
  }

  lemma {:induction false} RunCancels(s: State, run: seq<Action>)
    requires Inv(s) && FileInv(s) && QuietRun(s, run) && CancelInv(s) && WholeCancels(s, run)
    ensures CancelInv(Exec(s, run))
    decreases |run|
  {
    if run != [] {
      StepInv(s, run[0]);
      StepHasEffect(s, run[0]);
      if Step(s, run[0]) != s { EffectFiles(s, Step(s, run[0]), run[0]); }
      CancelStep(s, run[0]);
      RunCancels(Step(s, run[0]), run[1..]);
    }
  }

  /** With cancel iterations taken as one step, whose save works where the unlink did, every live row has
      its temp file with exactly the enqueued bytes in every state outside such a step. */
  lemma NoLiveRowWithoutItsBytes(now: int, stale: nat, run: seq<Action>, id: Id)
    requires QuietRun(Init(now, stale), run) && WholeCancels(Init(now, stale), run)
    requires var s := Exec(Init(now, stale), run); LiveRow(s, id) && forall p :: !MidCancel(s, p)
    ensures HasItsBytes(Exec(Init(now, stale), run), id)
  {
    InitInv(now, stale);
    RunFiles(Init(now, stale), run);
    RunCancels(Init(now, stale), run);
    LiveRowsKeepTheirBytes(now, stale, run, id);
  }
}
