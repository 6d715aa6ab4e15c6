/**
 What every state of every run of the upload protocol satisfies, at the finest interleaving:
 no atomicity and no timing is assumed anywhere in this module.
 */
module UploadInvariants {
  import opened Basics
  import opened UploadProtocol

  /** The row existed and is no longer PENDING or UPLOADING. */
  ghost predicate Dead(s: State, id: Id) { id in s.records && !LiveRow(s, id) }

  /** The backend log holds a completed write of the row's own bytes to the row's own path. */
  ghost predicate Logged(s: State, id: Id) {
    id in s.records && Entry(id, s.records[id].key, s.records[id].data) in s.log
  }

  /* ------------------------------- what a step can never undo ------------------------------- */

  ghost predicate Evolves(s: State, t: State) {
    && s.now <= t.now && s.stale == t.stale
    && s.ids <= t.ids && s.chains <= t.chains
    && s.log <= t.log && s.claimLog <= t.claimLog
    && (forall id <- s.records :: id in t.records && t.records[id] == s.records[id])
    && (forall id <- s.records :: Dead(s, id) ==> Dead(t, id))
  }

  /* ------------------------------------ the invariant ------------------------------------ */

  ghost predicate BeforeCreate(pc: EnqueuePc) {
    || pc.LookingUp? || pc.NoFresh? || pc.CancelCutoff? || pc.Cancelling? || pc.CancelSaving?
    || pc.Buffering? || pc.Creating?
  }

  ghost predicate AfterCreate(pc: EnqueuePc) { pc.Dispatching? || pc.Tagging? || pc.Deleting? }

  ghost predicate RowsOk(s: State) {
    && s.records.Keys <= s.ids
    && (forall id <- s.rows :: id in s.records && s.rows[id].key == s.records[id].key)
    && (forall id <- s.records :: s.records[id].serial < |s.records|)
  }

  ghost predicate EnqueueOk(s: State, e: Enqueue) {
    && e.id in s.ids
    && (BeforeCreate(e.pc) ==> e.id !in s.records)
    && (AfterCreate(e.pc) ==> e.id in s.records)
    && (e.pc.Discarding? ==> e.id !in s.rows)
    && (e.pc.Cancelling? || e.pc.CancelSaving? ==> e.pc.todo <= s.records.Keys)
    && (e.pc.CancelSaving? ==> e.pc.current in s.records)
    && (e.pc.Creating? && e.id in s.files ==> s.files[e.id] == e.data)
  }

  ghost predicate EnqueuesOk(s: State) {
    && (forall p <- s.enqueues :: EnqueueOk(s, s.enqueues[p]))
    && (forall p, q :: p in s.enqueues && q in s.enqueues && p != q ==> s.enqueues[p].id != s.enqueues[q].id)
  }

  ghost predicate RecoveryOk(s: State, r: Recovery) { r.Dispatches? ==> r.todo <= s.records.Keys }

  ghost predicate CleanupOk(s: State, k: Cleanup) { k.OldRow? || k.OldRowDelete? ==> Dead(s, k.id) }

  ghost predicate CommandsOk(s: State) {
    && (forall p <- s.recoveries :: RecoveryOk(s, s.recoveries[p]))
    && (forall p <- s.cleanups :: CleanupOk(s, s.cleanups[p]))
  }

  /** A delivery chain with this many retries behind it has claimed the row if it has any, and its
      countdowns add up to (4^retries - 1) / 3 seconds. */
  ghost predicate ChainOk(s: State, id: Id, retries: nat, claim: Option<int>, waited: nat) {
    && id in s.records
    && retries <= MAX_RETRIES
    && (retries > 0 ==> claim.Some?)
    && 3 * waited + 1 == Pow4(retries)
  }

  ghost predicate MessageOk(s: State, m: Message) { ChainOk(s, m.id, m.retries, m.claim, m.waited) }

  ghost predicate WorkerOk(s: State, w: Worker) {
    && ChainOk(s, w.id, w.retries, w.claim, w.waited)
    && w.key == s.records[w.id].key
    && (w.pc.Fetched? || w.pc.CutoffRead? || w.claim.Some?)
    && (w.pc.Fetched? || w.pc.CutoffRead? ==> IsLive(w.pc.status))
    && (w.pc.Writing? ==> w.pc.bytes == s.records[w.id].data)
    && (w.pc.Stored? || w.pc.Finishing? ==> Logged(s, w.id))
    && (w.pc.Unlinking? ==> Dead(s, w.id))
  }

  /** A chain is in one place at a time. */
  ghost predicate OnePlace(s: State) {
    s.queue.Keys <= s.chains && s.workers.Keys <= s.chains && s.queue.Keys !! s.workers.Keys
  }

  ghost predicate MessagesOk(s: State) { forall c <- s.queue :: MessageOk(s, s.queue[c]) }

  ghost predicate WorkersOk(s: State) { forall c <- s.workers :: WorkerOk(s, s.workers[c]) }

  ghost predicate ChainsOk(s: State) { OnePlace(s) && MessagesOk(s) && WorkersOk(s) }

  ghost predicate EntryOk(s: State, e: Entry) {
    e.id in s.records && e == Entry(e.id, s.records[e.id].key, s.records[e.id].data)
  }

  ghost predicate FilesOk(s: State) { forall id <- s.files :: id in s.records ==> s.files[id] == s.records[id].data }

  ghost predicate LogOk(s: State) {
    && (forall id <- s.rows :: s.rows[id].status == Done ==> Logged(s, id))
    && (forall i :: 0 <= i < |s.log| ==> EntryOk(s, s.log[i]))
  }

  ghost predicate BytesOk(s: State) { FilesOk(s) && LogOk(s) }

  ghost predicate Inv(s: State) { RowsOk(s) && EnqueuesOk(s) && CommandsOk(s) && ChainsOk(s) && BytesOk(s) }

  lemma InitInv(now: int, stale: nat)
    ensures Inv(Init(now, stale))
  {}

  /* ------------------------------------ the worker's steps ------------------------------------ */

  /** The worker's row after an action that writes it: a claim, or the final FAILED or DONE. */
  ghost predicate RowWritten(s: State, t: State, w: Worker, r: Row, r': Row) {
    && IsLive(r.status) && r'.key == r.key
    && (if w.pc.CutoffRead? then
          && CanClaim(s, w) && r'.status == Uploading && r'.claimedAt == Some(s.now)
          && t.claimLog == s.claimLog + [Claim(w.id, s.now)]
        else
          && r.status == Uploading && r'.claimedAt == r.claimedAt && t.claimLog == s.claimLog
          && ((w.pc.Failing? && r'.status == Failed) || (w.pc.Finishing? && r'.status == Done)))
  }

  /** The worker after its action, if it goes on. */
  ghost predicate Follows(s: State, t: State, w: Worker, w': Worker) {
    && w' == w.(pc := w'.pc, claim := w'.claim)
    && w'.claim == (if t.claimLog == s.claimLog then w.claim else Some(s.now))
    && (match w'.pc
        case Fetched(_, _) => false
        case CutoffRead(st, at, cutoff) => w.pc == Fetched(st, at) && cutoff == s.now - s.stale
        case Owner => w.pc.CutoffRead? && (t.claimLog == s.claimLog ==> w.retries > 0)
        case Rechecked => w.pc.BackendFound? && HasStatus(s, w.id, Uploading)
        case Writing(b) => w.pc.Rechecked? && w.id in s.files && b == s.files[w.id]
        case Stored => w.pc.Writing? && t.log == s.log + [Entry(w.id, w.key, w.pc.bytes)]
        case Finishing => w.pc.Stored?
        case Unlinking => w.pc.Finishing? && w.id in t.rows && t.rows[w.id].status == Done
        case _ => !w.pc.Fetched? && !w.pc.CutoffRead?)
  }

  /** All that an action of worker `c` can do. */
  ghost predicate WorkerEffect(s: State, t: State, c: Chain)
    requires c in s.workers
  {
    var w := s.workers[c];
    && t == s.(rows := t.rows, files := t.files, backend := t.backend, log := t.log, claimLog := t.claimLog,
               workers := t.workers, queue := t.queue)
    && ((t.rows == s.rows && t.claimLog == s.claimLog) ||
        (&& w.id in s.rows && w.id in t.rows && t.rows == s.rows[w.id := t.rows[w.id]]
         && RowWritten(s, t, w, s.rows[w.id], t.rows[w.id])))
    && (t.files == s.files || (w.pc.Unlinking? && t.files == s.files - {w.id}))
    && ((t.log == s.log && t.backend == s.backend) ||
        (&& w.pc.Writing? && t.log == s.log + [Entry(w.id, w.key, w.pc.bytes)]
         && t.backend == s.backend[w.key := w.pc.bytes]))
    && (if c in t.workers then
          t.queue == s.queue && t.workers == s.workers[c := t.workers[c]] && Follows(s, t, w, t.workers[c])
        else
          && t.workers == s.workers - {c} && t.claimLog == s.claimLog
          && (t.queue == s.queue || (&& w.pc.WriteFailed? && w.retries < MAX_RETRIES
                                     && t.queue == s.queue[c := Message(w.id, w.retries + 1, w.claim,
                                        w.waited + Pow4(w.retries))])))
  }

  lemma GotoEffect(s: State, c: Chain, pc: WorkerPc)
    requires c in s.workers && Follows(s, s, s.workers[c], s.workers[c].(pc := pc))
    ensures WorkerEffect(s, Goto(s, c, pc), c)
  {}

  lemma LeaveEffect(s: State, c: Chain)
    requires c in s.workers
    ensures WorkerEffect(s, Leave(s, c), c)
  {}

  lemma TakeClaimEffect(s: State, c: Chain)
    requires c in s.workers && s.workers[c].pc.CutoffRead? && CanClaim(s, s.workers[c])
    ensures WorkerEffect(s, TakeClaim(s, c), c)
  {
    assert TakeClaim(s, c).claimLog != s.claimLog;
  }

  lemma StoreEffect(s: State, c: Chain)
    requires c in s.workers && s.workers[c].pc.Writing?
    ensures WorkerEffect(s, StoreStep(s, c), c)
  {}

  lemma RetryEffect(s: State, c: Chain)
    requires c in s.workers && s.workers[c].pc.WriteFailed? && s.workers[c].retries < MAX_RETRIES
    ensures WorkerEffect(s, RetryStep(s, c), c)
  {}

  lemma FailEffect(s: State, c: Chain)
    requires c in s.workers && s.workers[c].pc.Failing? && HasStatus(s, s.workers[c].id, Uploading)
    ensures WorkerEffect(s, FailStep(s, c), c)
  {}

  lemma FinishEffect(s: State, c: Chain)
    requires c in s.workers && s.workers[c].pc.Finishing? && HasStatus(s, s.workers[c].id, Uploading)
    ensures WorkerEffect(s, FinishStep(s, c), c)
  {}

  lemma UnlinkEffect(s: State, c: Chain)
    requires c in s.workers && s.workers[c].pc.Unlinking?
    ensures WorkerEffect(s, UnlinkStep(s, c), c)
  {}

  lemma WorkEffect(s: State, c: Chain, choice: Choice)
    requires c in s.workers
    ensures WorkerEffect(s, WorkStep(s, c, choice), c)
  {
    var w := s.workers[c];
    match w.pc
    case Fetched(st, at) => GotoEffect(s, c, CutoffRead(st, at, s.now - s.stale));
    case CutoffRead(_, _, _) =>
      if w.pc.status != Pending && w.retries > 0 {
        GotoEffect(s, c, Owner);
      } else if CanClaim(s, w) {
        TakeClaimEffect(s, c);
      } else {
        LeaveEffect(s, c);
      }
    case Owner => GotoEffect(s, c, if w.id in s.files then TempSeen else Failing);
    case TempSeen => GotoEffect(s, c, if choice.Ok? then BackendFound else Failing);
    case BackendFound =>
      if HasStatus(s, w.id, Uploading) { GotoEffect(s, c, Rechecked); } else { LeaveEffect(s, c); }
    case Rechecked => GotoEffect(s, c, if w.id in s.files then Writing(s.files[w.id]) else Failing);
    case Writing(_) =>
      if choice.Ok? { StoreEffect(s, c); } else { GotoEffect(s, c, if choice.Error? then WriteFailed else Failing); }
    case Stored => GotoEffect(s, c, match choice case Ok => Finishing case Error => WriteFailed case Odd => Failing);
    case WriteFailed => if w.retries < MAX_RETRIES { RetryEffect(s, c); } else { GotoEffect(s, c, Failing); }
    case Failing => if HasStatus(s, w.id, Uploading) { FailEffect(s, c); } else { LeaveEffect(s, c); }
    case Finishing => if HasStatus(s, w.id, Uploading) { FinishEffect(s, c); } else { LeaveEffect(s, c); }
    case Unlinking => if choice.Ok? { UnlinkEffect(s, c); } else { LeaveEffect(s, c); }
  }

  lemma WorkerEvolves(s: State, t: State, c: Chain)
    requires c in s.workers && WorkerEffect(s, t, c)
    ensures Evolves(s, t)
  {}

  lemma WorkerStays(s: State, t: State, w: Worker)
    requires Evolves(s, t) && WorkerOk(s, w)
    ensures WorkerOk(t, w)
  {}

  lemma WorkerRows(s: State, t: State, c: Chain)
    requires RowsOk(s) && c in s.workers && WorkerEffect(s, t, c)
    ensures RowsOk(t)
  {}

  lemma WorkerBytes(s: State, t: State, c: Chain)
    requires RowsOk(s) && BytesOk(s) && c in s.workers && WorkerOk(s, s.workers[c]) && WorkerEffect(s, t, c)
    ensures BytesOk(t)
  {
    WorkerEvolves(s, t, c);
  }

  lemma WorkerOthers(s: State, t: State, c: Chain)
    requires EnqueuesOk(s) && CommandsOk(s) && c in s.workers && WorkerEffect(s, t, c)
    ensures EnqueuesOk(t) && CommandsOk(t)
  {
    WorkerEvolves(s, t, c);
  }

  lemma FollowerOk(s: State, t: State, c: Chain)
    requires RowsOk(s) && BytesOk(s) && c in s.workers && WorkerOk(s, s.workers[c])
    requires WorkerEffect(s, t, c) && c in t.workers
    ensures WorkerOk(t, t.workers[c])
  {
    WorkerEvolves(s, t, c);
    WorkerStays(s, t, s.workers[c]);
  }

  lemma MessageStays(s: State, t: State, m: Message)
    requires Evolves(s, t) && MessageOk(s, m)
    ensures MessageOk(t, m)
  {}

  lemma WorkerOnePlace(s: State, t: State, c: Chain)
    requires OnePlace(s) && c in s.workers && WorkerEffect(s, t, c)
    ensures OnePlace(t)
  {}

  lemma WorkerMessages(s: State, t: State, c: Chain)
    requires MessagesOk(s) && c in s.workers && WorkerOk(s, s.workers[c]) && WorkerEffect(s, t, c)
    ensures MessagesOk(t)
  {
    WorkerEvolves(s, t, c);
    forall d | d in t.queue ensures MessageOk(t, t.queue[d]) {
      if t.queue != s.queue && d == c {
        MessageStays(s, t, Message(s.workers[c].id, s.workers[c].retries, s.workers[c].claim, s.workers[c].waited));
      } else {
        MessageStays(s, t, s.queue[d]);
      }
    }
  }

  lemma WorkerWorkers(s: State, t: State, c: Chain)
    requires RowsOk(s) && WorkersOk(s) && BytesOk(s) && c in s.workers && WorkerEffect(s, t, c)
    ensures WorkersOk(t)
  {
    WorkerEvolves(s, t, c);
    forall d | d in t.workers ensures WorkerOk(t, t.workers[d]) {
      if d == c { FollowerOk(s, t, c); } else { WorkerStays(s, t, s.workers[d]); }
    }
  }

  lemma WorkInv(s: State, t: State, c: Chain)
    requires Inv(s) && c in s.workers && WorkerEffect(s, t, c)
    ensures Inv(t) && Evolves(s, t)
  {
    WorkerEvolves(s, t, c);
    WorkerRows(s, t, c);
    WorkerBytes(s, t, c);
    WorkerOthers(s, t, c);
    WorkerOnePlace(s, t, c);
    WorkerMessages(s, t, c);
    WorkerWorkers(s, t, c);
  }

  /* -------------------------------------- delivery -------------------------------------- */

  ghost predicate DeliverEffect(s: State, t: State, c: Chain)
    requires c in s.queue
  {
    var m := s.queue[c];
    && t == s.(queue := s.queue - {c}, workers := t.workers)
    && (t.workers == s.workers ||
        (&& LiveRow(s, m.id) && c in t.workers && t.workers == s.workers[c := t.workers[c]]
         && t.workers[c] == Worker(m.id, s.rows[m.id].key, m.retries, m.claim, m.waited,
                                   Fetched(s.rows[m.id].status, s.rows[m.id].claimedAt))))
  }

  lemma DeliverHasEffect(s: State, c: Chain)
    requires c in s.queue
    ensures DeliverEffect(s, DeliverStep(s, c), c)
  {}

  lemma DeliverChains(s: State, t: State, c: Chain)
    requires RowsOk(s) && ChainsOk(s) && c in s.queue && DeliverEffect(s, t, c) && Evolves(s, t)
    ensures ChainsOk(t)
  {
    assert MessageOk(s, s.queue[c]);
    forall d | d in t.workers ensures WorkerOk(t, t.workers[d]) {
      if t.workers != s.workers && d == c {} else { WorkerStays(s, t, s.workers[d]); }
    }
    forall d | d in t.queue ensures MessageOk(t, t.queue[d]) {
      MessageStays(s, t, s.queue[d]);
    }
  }

  lemma DeliverInv(s: State, t: State, c: Chain)
    requires Inv(s) && c in s.queue && DeliverEffect(s, t, c)
    ensures Inv(t) && Evolves(s, t)
  {
    assert Evolves(s, t);
    DeliverChains(s, t, c);
  }

  /* ------------------------------------ the request's steps ------------------------------------ */

  /** The rows, and the record of rows ever created, after an action of the request `e`. */
  ghost predicate RequestRows(s: State, t: State, e: Enqueue) {
    || (t.rows == s.rows && t.records == s.records)
    || (&& t.records == s.records && e.pc.CancelSaving? && e.pc.current in s.rows
        && t.rows == s.rows[e.pc.current := s.rows[e.pc.current].(status := Cancelled)])
    || (&& e.pc.Creating? && t.rows == s.rows[e.id := Row(e.key, Pending, None, s.now)]
        && t.records == s.records[e.id := Record(e.key, e.data, |s.records|)])
    || (t.records == s.records && e.pc.Deleting? && t.rows == s.rows - {e.id})
  }

  ghost predicate RequestFiles(s: State, t: State, p: Pid, e: Enqueue) {
    || (t.files == s.files && t.unlinked == s.unlinked)
    || (t.files == s.files && e.pc.CancelSaving? && t.unlinked == s.unlinked - {e.pc.current}
       && !LiveRow(t, e.pc.current))
    || (exists id :: && e.pc.Cancelling? && id in e.pc.todo && t.files == s.files - {id}
                     && t.unlinked == s.unlinked + {id}
                     && p in t.enqueues && t.enqueues[p].pc == CancelSaving(id, e.pc.todo - {id}))
    || (t.unlinked == s.unlinked && e.pc.Buffering? && e.id in t.files && t.files == s.files[e.id := t.files[e.id]])
    || (t.unlinked == s.unlinked && e.pc.Discarding? && t.files == s.files - {e.id})
  }

  ghost predicate RequestFollows(s: State, t: State, e: Enqueue, pc: EnqueuePc) {
    match pc
    case LookingUp(_) => false
    case NoFresh => e.pc.LookingUp? && !AnyFresh(s, e.key, e.pc.cutoff)
    case CancelCutoff(cutoff) => e.pc.NoFresh? && cutoff == s.now - s.stale
    case Cancelling(todo) =>
      || (e.pc.CancelCutoff? && todo == Selected(s, e.key, e.pc.cutoff))
      || (e.pc.Cancelling? && todo == e.pc.todo)
      || (e.pc.CancelSaving? && todo == e.pc.todo && !LiveRow(t, e.pc.current))
    case CancelSaving(id, todo) => e.pc.Cancelling? && id in e.pc.todo && todo == e.pc.todo - {id}
    case Buffering => e.pc == Cancelling({})
    case Creating => e.pc.Buffering? && t.files == s.files[e.id := e.data]
    case Dispatching => (e.pc.Creating? && e.id in t.records) || e.pc.Dispatching?
    case Tagging => e.pc.Dispatching?
    case Deleting => e.pc.Dispatching? || e.pc.Tagging?
    case Discarding => (e.pc.Creating? && t.rows == s.rows) || (e.pc.Deleting? && e.id !in t.rows)
  }

  ghost predicate RequestEffect(s: State, t: State, p: Pid)
    requires p in s.enqueues
  {
    var e := s.enqueues[p];
    && t == s.(rows := t.rows, records := t.records, files := t.files, unlinked := t.unlinked,
               enqueues := t.enqueues, queue := t.queue, chains := t.chains)
    && RequestRows(s, t, e)
    && RequestFiles(s, t, p, e)
    && ((t.queue == s.queue && t.chains == s.chains) ||
        (exists c :: && e.pc.Dispatching? && c !in s.chains && t.chains == s.chains + {c}
                     && t.queue == s.queue[c := Message(e.id, 0, None, 0)]))
    && (if p in t.enqueues then
          && t.enqueues == s.enqueues[p := e.(pc := t.enqueues[p].pc)]
          && RequestFollows(s, t, e, t.enqueues[p].pc)
        else t.enqueues == s.enqueues - {p})
  }

  lemma StayEffect(s: State, p: Pid)
    requires p in s.enqueues && (s.enqueues[p].pc.Cancelling? || s.enqueues[p].pc.Dispatching?)
    ensures RequestEffect(s, s, p)
  {}

  lemma StopEffect(s: State, p: Pid)
    requires p in s.enqueues
    ensures RequestEffect(s, Stop(s, p), p)
  {}

  lemma AtEffect(s: State, p: Pid, pc: EnqueuePc)
    requires p in s.enqueues && RequestFollows(s, s, s.enqueues[p], pc)
    ensures RequestEffect(s, At(s, p, pc), p)
  {}

  lemma CancelUnlinkEffect(s: State, p: Pid, ok: bool, id: Id)
    requires p in s.enqueues && s.enqueues[p].pc.Cancelling? && id in s.enqueues[p].pc.todo
    ensures RequestEffect(s, CancelUnlink(s, p, ok, id, s.enqueues[p].pc.todo - {id}), p)
  {}

  lemma CancelSaveEffect(s: State, p: Pid, ok: bool)
    requires p in s.enqueues && s.enqueues[p].pc.CancelSaving?
    ensures RequestEffect(s, CancelSave(s, p, ok, s.enqueues[p].pc.current, s.enqueues[p].pc.todo), p)
  {}

  lemma BufferEffect(s: State, p: Pid, ok: bool, arg: nat)
    requires p in s.enqueues && s.enqueues[p].pc.Buffering?
    ensures RequestEffect(s, BufferStep(s, p, ok, arg), p)
  {}

  lemma CreateEffect(s: State, p: Pid)
    requires p in s.enqueues && s.enqueues[p].pc.Creating?
    ensures RequestEffect(s, CreateRow(s, p), p)
  {}

  lemma PublishEffect(s: State, p: Pid, c: Chain, pc: EnqueuePc)
    requires p in s.enqueues && s.enqueues[p].pc.Dispatching? && (pc.Tagging? || pc.Deleting?)
    ensures RequestEffect(s, PublishStep(s, p, c, pc), p)
  {}

  lemma DeleteEffect(s: State, p: Pid)
    requires p in s.enqueues && s.enqueues[p].pc.Deleting?
    ensures RequestEffect(s, DeleteRow(s, p), p)
  {}

  lemma DiscardEffect(s: State, p: Pid)
    requires p in s.enqueues && s.enqueues[p].pc.Discarding?
    ensures RequestEffect(s, DiscardFile(s, p), p)
  {}

  lemma RequestHasEffect(s: State, p: Pid, choice: Choice, arg: nat)
    requires p in s.enqueues
    ensures RequestEffect(s, EnqueueStep(s, p, choice, arg), p)
  {
    var e := s.enqueues[p];
    match e.pc
    case LookingUp(cutoff) => if AnyFresh(s, e.key, cutoff) { StopEffect(s, p); } else { AtEffect(s, p, NoFresh); }
    case NoFresh => AtEffect(s, p, CancelCutoff(s.now - s.stale));
    case CancelCutoff(cutoff) => AtEffect(s, p, Cancelling(Selected(s, e.key, cutoff)));
    case Cancelling(todo) =>
      if todo == {} {
        AtEffect(s, p, Buffering);
      } else if arg in todo {
        CancelUnlinkEffect(s, p, choice.Ok?, arg);
      } else {
        StayEffect(s, p);
      }
    case CancelSaving(id, todo) => CancelSaveEffect(s, p, choice.Ok?);
    case Buffering => BufferEffect(s, p, choice.Ok?, arg);
    case Creating => if choice.Ok? { CreateEffect(s, p); } else { AtEffect(s, p, Discarding); }
    case Dispatching =>
      if choice.Error? {
        AtEffect(s, p, Deleting);
      } else {
        PublishEffect(s, p, arg, if choice.Ok? then Tagging else Deleting);
      }
    case Tagging => if choice.Ok? && e.id in s.rows { StopEffect(s, p); } else { AtEffect(s, p, Deleting); }
    case Deleting => if choice.Ok? { DeleteEffect(s, p); } else { StopEffect(s, p); }
    case Discarding => if choice.Ok? { DiscardEffect(s, p); } else { StopEffect(s, p); }
  }

  lemma RequestEvolves(s: State, t: State, p: Pid)
    requires RowsOk(s) && p in s.enqueues && EnqueueOk(s, s.enqueues[p]) && RequestEffect(s, t, p)
    ensures Evolves(s, t)
  {
    forall id | Dead(s, id) ensures Dead(t, id) { RequestKeepsDead(s, t, p, id); }
  }

  lemma RequestKeepsDead(s: State, t: State, p: Pid, id: Id)
    requires p in s.enqueues && EnqueueOk(s, s.enqueues[p]) && RequestEffect(s, t, p) && Dead(s, id)
    ensures Dead(t, id)
  {}

  lemma RequestRowsOk(s: State, t: State, p: Pid)
    requires RowsOk(s) && p in s.enqueues && EnqueueOk(s, s.enqueues[p]) && RequestEffect(s, t, p)
    ensures RowsOk(t)
  {
    var e := s.enqueues[p];
    if t.records == s.records {
      RowsOkShrinks(s, t);
    } else {
      RowsOkCreates(s, t, e);
    }
  }

  lemma RowsOkShrinks(s: State, t: State)
    requires RowsOk(s) && t.ids == s.ids && t.records == s.records
    requires forall id <- t.rows :: id in s.rows && t.rows[id].key == s.rows[id].key
    ensures RowsOk(t)
  {}

  lemma RowsOkCreates(s: State, t: State, e: Enqueue)
    requires RowsOk(s) && t.ids == s.ids && e.id in s.ids && e.id !in s.records
    requires t.rows == s.rows[e.id := Row(e.key, Pending, None, s.now)]
    requires t.records == s.records[e.id := Record(e.key, e.data, |s.records|)]
    ensures RowsOk(t)
  {}

  lemma RequestSelf(s: State, t: State, p: Pid)
    requires RowsOk(s) && p in s.enqueues && EnqueueOk(s, s.enqueues[p]) && RequestEffect(s, t, p) && p in t.enqueues
    ensures EnqueueOk(t, t.enqueues[p])
  {}

  lemma RequestOther(s: State, t: State, p: Pid, e: Enqueue)
    requires p in s.enqueues && RequestEffect(s, t, p) && EnqueueOk(s, e) && e.id != s.enqueues[p].id
    ensures EnqueueOk(t, e)
  {}

  lemma RequestEnqueues(s: State, t: State, p: Pid)
    requires RowsOk(s) && EnqueuesOk(s) && p in s.enqueues && RequestEffect(s, t, p)
    ensures EnqueuesOk(t)
  {
    forall q | q in t.enqueues ensures EnqueueOk(t, t.enqueues[q]) {
      if q == p { RequestSelf(s, t, p); } else { RequestOther(s, t, p, s.enqueues[q]); }
    }
  }

  lemma RequestCommands(s: State, t: State, p: Pid)
    requires CommandsOk(s) && Evolves(s, t) && p in s.enqueues && RequestEffect(s, t, p)
    ensures CommandsOk(t)
  {}

  lemma RequestChains(s: State, t: State, p: Pid)
    requires ChainsOk(s) && Evolves(s, t) && p in s.enqueues && EnqueueOk(s, s.enqueues[p]) && RequestEffect(s, t, p)
    ensures ChainsOk(t)
  {}

  lemma RequestFilesOk(s: State, t: State, p: Pid)
    requires FilesOk(s) && Evolves(s, t) && p in s.enqueues && EnqueueOk(s, s.enqueues[p]) && RequestEffect(s, t, p)
    ensures FilesOk(t)
  {}

  lemma RequestLog(s: State, t: State, p: Pid)
    requires LogOk(s) && Evolves(s, t) && p in s.enqueues && EnqueueOk(s, s.enqueues[p]) && RequestEffect(s, t, p)
    ensures LogOk(t)
  {}

  lemma EnqueueInv(s: State, t: State, p: Pid)
    requires Inv(s) && p in s.enqueues && RequestEffect(s, t, p)
    ensures Inv(t) && Evolves(s, t)
  {
    RequestEvolves(s, t, p);
    RequestRowsOk(s, t, p);
    RequestEnqueues(s, t, p);
    RequestCommands(s, t, p);
    RequestChains(s, t, p);
    RequestFilesOk(s, t, p);
    RequestLog(s, t, p);
  }

  /* -------------------------------- the management commands -------------------------------- */

  ghost predicate RecoveryEffect(s: State, t: State, p: Pid, id: Id, c: Chain)
    requires p in s.recoveries
  {
    var r := s.recoveries[p];
    && t == s.(rows := t.rows, recoveries := t.recoveries, queue := t.queue, chains := t.chains)
    && (t.rows == s.rows || (r.Resetting? && t.rows == ResetStale(s.rows, r.cutoff)))
    && (if p in t.recoveries then
          && t.recoveries == s.recoveries[p := t.recoveries[p]]
          && (t.recoveries[p].Dispatches? ==> t.recoveries[p].todo <= (if r.Dispatches? then r.todo else s.rows.Keys))
          && !t.recoveries[p].Resetting?
        else t.recoveries == s.recoveries - {p})
    && ((t.queue == s.queue && t.chains == s.chains) ||
        (&& r.Dispatches? && id in r.todo && c !in s.chains
         && t.chains == s.chains + {c} && t.queue == s.queue[c := Message(id, 0, None, 0)]))
  }

  lemma RecoverEffect(s: State, p: Pid, choice: Choice, id: Id, c: Chain)
    requires p in s.recoveries
    ensures RecoverStep(s, p, choice, id, c) == s || RecoveryEffect(s, RecoverStep(s, p, choice, id, c), p, id, c)
  {
    match s.recoveries[p]
    case Resetting(cutoff) => RecoverResetEffect(s, p, choice, id, c);
    case Listing => RecoverListEffect(s, p, choice, id, c);
    case Dispatches(todo) => RecoverDispatchEffect(s, p, choice, id, c);
  }

  lemma RecoverResetEffect(s: State, p: Pid, choice: Choice, id: Id, c: Chain)
    requires p in s.recoveries && s.recoveries[p].Resetting?
    ensures RecoveryEffect(s, RecoverStep(s, p, choice, id, c), p, id, c)
  {}

  lemma RecoverListEffect(s: State, p: Pid, choice: Choice, id: Id, c: Chain)
    requires p in s.recoveries && s.recoveries[p].Listing?
    ensures RecoveryEffect(s, RecoverStep(s, p, choice, id, c), p, id, c)
  {}

  lemma RecoverDispatchEffect(s: State, p: Pid, choice: Choice, id: Id, c: Chain)
    requires p in s.recoveries && s.recoveries[p].Dispatches?
    ensures RecoverStep(s, p, choice, id, c) == s || RecoveryEffect(s, RecoverStep(s, p, choice, id, c), p, id, c)
  {
    var todo, t := s.recoveries[p].todo, RecoverStep(s, p, choice, id, c);
    if todo == {} {
      assert t == s.(recoveries := s.recoveries - {p});
    } else if id !in todo || c in s.chains {
      assert t == s;
    } else {
      DispatchEffect(s, t, p, choice, id, c);
    }
  }

  lemma DispatchEffect(s: State, t: State, p: Pid, choice: Choice, id: Id, c: Chain)
    requires p in s.recoveries && s.recoveries[p].Dispatches? && id in s.recoveries[p].todo && c !in s.chains
    requires var after := s.recoveries[p := Dispatches(s.recoveries[p].todo - {id})];
             t == if choice.Error? then s.(recoveries := after)
                  else s.(recoveries := after, queue := s.queue[c := Message(id, 0, None, 0)], chains := s.chains + {c})
    ensures RecoveryEffect(s, t, p, id, c)
  {}

  lemma ResetEvolves(s: State, t: State, cutoff: int)
    requires t == s.(rows := t.rows, recoveries := t.recoveries, queue := t.queue, chains := t.chains)
    requires s.chains <= t.chains && (t.rows == s.rows || t.rows == ResetStale(s.rows, cutoff))
    ensures Evolves(s, t)
    ensures RowsOk(s) ==> RowsOk(t)
    ensures EnqueuesOk(s) ==> EnqueuesOk(t)
    ensures BytesOk(s) ==> BytesOk(t)
  {}

  lemma RecoverChains(s: State, t: State, id: Id, c: Chain)
    requires ChainsOk(s) && Evolves(s, t) && t.workers == s.workers
    requires
      || (t.queue == s.queue && t.chains == s.chains)
      || (id in s.records && c !in s.chains && t.chains == s.chains + {c}
         && t.queue == s.queue[c := Message(id, 0, None, 0)])
    ensures ChainsOk(t)
  {
    forall d | d in t.workers ensures WorkerOk(t, t.workers[d]) { WorkerStays(s, t, s.workers[d]); }
  }

  lemma RecoverInv(s: State, t: State, p: Pid, id: Id, c: Chain)
    requires Inv(s) && p in s.recoveries && RecoveryEffect(s, t, p, id, c)
    ensures Inv(t) && Evolves(s, t)
  {
    ResetEvolves(s, t, if s.recoveries[p].Resetting? then s.recoveries[p].cutoff else 0);
    assert RecoveryOk(s, s.recoveries[p]);
    RecoverChains(s, t, id, c);
  }

  ghost predicate CleanerEffect(s: State, t: State, p: Pid, arg: nat)
    requires p in s.cleanups
  {
    var k := s.cleanups[p];
    && t == s.(rows := t.rows, files := t.files, cleanups := t.cleanups)
    && (t.rows == s.rows || (k.OldRowDelete? && t.rows == s.rows - {k.id}))
    && (t.files == s.files || (k.OldRow? && t.files == s.files - {k.id})
        || (k.Sweeping? && arg !in k.known && t.files == s.files - {arg}))
    && (if p in t.cleanups then t.cleanups == s.cleanups[p := t.cleanups[p]] && CleanerFollows(s, k, t.cleanups[p])
        else t.cleanups == s.cleanups - {p})
  }

  ghost predicate CleanerFollows(s: State, k: Cleanup, k': Cleanup) {
    match k'
    case Scanning => true
    case OldRow(id) => id in s.rows && !IsLive(s.rows[id].status)
    case OldRowDelete(id) => k == OldRow(id)
    case Sweeping(known) => (k.Scanning? && known == s.rows.Keys) || k == k'
  }

  lemma ScanEffect(s: State, p: Pid, choice: Choice, arg: nat)
    requires p in s.cleanups && s.cleanups[p].Scanning?
    ensures CleanupStep(s, p, choice, arg) == s || CleanerEffect(s, CleanupStep(s, p, choice, arg), p, arg)
  {}

  lemma OldRowEffect(s: State, p: Pid, choice: Choice, arg: nat)
    requires p in s.cleanups && (s.cleanups[p].OldRow? || s.cleanups[p].OldRowDelete?)
    ensures CleanerEffect(s, CleanupStep(s, p, choice, arg), p, arg)
  {}

  lemma SweepEffect(s: State, p: Pid, choice: Choice, arg: nat)
    requires p in s.cleanups && s.cleanups[p].Sweeping?
    ensures CleanupStep(s, p, choice, arg) == s || CleanerEffect(s, CleanupStep(s, p, choice, arg), p, arg)
  {}

  lemma CleanupEffect(s: State, p: Pid, choice: Choice, arg: nat)
    requires p in s.cleanups
    ensures CleanupStep(s, p, choice, arg) == s || CleanerEffect(s, CleanupStep(s, p, choice, arg), p, arg)
  {
    match s.cleanups[p]
    case Scanning => ScanEffect(s, p, choice, arg);
    case Sweeping(_) => SweepEffect(s, p, choice, arg);
    case _ => OldRowEffect(s, p, choice, arg);
  }

  lemma ShrinkInv(s: State, t: State)
    requires Inv(s) && CommandsOk(t)
    requires t == s.(rows := t.rows, files := t.files, cleanups := t.cleanups)
    requires t.files.Keys <= s.files.Keys && (forall id <- t.files :: t.files[id] == s.files[id])
    requires t.rows.Keys <= s.rows.Keys && (forall id <- t.rows :: t.rows[id] == s.rows[id])
    ensures Inv(t) && Evolves(s, t)
  {
    assert Evolves(s, t);
    forall d | d in t.workers ensures WorkerOk(t, t.workers[d]) { WorkerStays(s, t, s.workers[d]); }
  }

  lemma CleanerShrinks(s: State, t: State, p: Pid, arg: nat)
    requires p in s.cleanups && CleanerEffect(s, t, p, arg)
    ensures t == s.(rows := t.rows, files := t.files, cleanups := t.cleanups)
    ensures t.files.Keys <= s.files.Keys && (forall id <- t.files :: t.files[id] == s.files[id])
    ensures t.rows.Keys <= s.rows.Keys && (forall id <- t.rows :: t.rows[id] == s.rows[id])
  {}

  lemma CleanerCommands(s: State, t: State, p: Pid, arg: nat)
    requires RowsOk(s) && CommandsOk(s) && p in s.cleanups && CleanerEffect(s, t, p, arg)
    ensures CommandsOk(t)
  {
    assert CleanupOk(s, s.cleanups[p]);
    forall q | q in t.cleanups ensures CleanupOk(t, t.cleanups[q]) {
      if q != p { assert CleanupOk(s, s.cleanups[q]); }
    }
  }

  lemma CleanerInv(s: State, t: State, p: Pid, arg: nat)
    requires Inv(s) && p in s.cleanups && CleanerEffect(s, t, p, arg)
    ensures Inv(t) && Evolves(s, t)
  {
    CleanerCommands(s, t, p, arg);
    CleanerShrinks(s, t, p, arg);
    ShrinkInv(s, t);
  }

  /* --------------------------------------- every run --------------------------------------- */

  /** Starting a process, the clock, and processes dying. */
  ghost predicate BackgroundEffect(s: State, t: State) {
    && t == s.(now := t.now, ids := t.ids, workers := t.workers, enqueues := t.enqueues,
               recoveries := t.recoveries, cleanups := t.cleanups)
    && s.now <= t.now && s.ids <= t.ids
    && (forall c <- t.workers :: c in s.workers && t.workers[c] == s.workers[c])
    && (forall p <- t.enqueues ::
          || (p in s.enqueues && t.enqueues[p] == s.enqueues[p])
          || (&& p !in s.enqueues && t.enqueues[p].pc == LookingUp(s.now - s.stale) && t.now == s.now
              && t.enqueues[p].id !in s.ids && t.enqueues[p].id in t.ids
              && (forall q <- t.enqueues :: q in s.enqueues || q == p)))
    && (forall p <- t.recoveries ::
          (p in s.recoveries && t.recoveries[p] == s.recoveries[p])
          || (t.recoveries[p] == Resetting(s.now - s.stale) && t.now == s.now))
    && (forall p <- t.cleanups :: (p in s.cleanups && t.cleanups[p] == s.cleanups[p]) || t.cleanups[p] == Scanning)
  }

  lemma TickEffect(s: State, d: nat)
    ensures BackgroundEffect(s, Step(s, Tick(d)))
  {}

  lemma CrashEffect(s: State, c: Chain)
    ensures BackgroundEffect(s, Leave(s, c))
  {}

  lemma KillEffect(s: State, p: Pid)
    ensures BackgroundEffect(s, Stop(s, p))
  {}

  lemma EnqueueStartEffect(s: State, p: Pid, key: Key, data: Bytes, id: Id)
    requires p !in s.enqueues && id !in s.ids
    ensures BackgroundEffect(s, Step(s, EnqueueStart(p, key, data, id)))
  {}

  lemma RecoverStartEffect(s: State, p: Pid)
    requires p !in s.recoveries
    ensures BackgroundEffect(s, Step(s, RecoverStart(p)))
  {}

  lemma CleanupStartEffect(s: State, p: Pid)
    requires p !in s.cleanups
    ensures BackgroundEffect(s, Step(s, CleanupStart(p)))
  {}

  lemma BackgroundEvolves(s: State, t: State)
    requires BackgroundEffect(s, t)
    ensures Evolves(s, t)
  {}

  lemma BackgroundEnqueues(s: State, t: State)
    requires RowsOk(s) && EnqueuesOk(s) && BackgroundEffect(s, t)
    ensures EnqueuesOk(t)
  {}

  lemma BackgroundCommands(s: State, t: State)
    requires CommandsOk(s) && BackgroundEffect(s, t)
    ensures CommandsOk(t)
  {
    BackgroundEvolves(s, t);
  }

  lemma BackgroundChains(s: State, t: State)
    requires ChainsOk(s) && BackgroundEffect(s, t)
    ensures ChainsOk(t)
  {
    BackgroundEvolves(s, t);
    forall d | d in t.workers ensures WorkerOk(t, t.workers[d]) { WorkerStays(s, t, s.workers[d]); }
  }

  lemma BackgroundInv(s: State, t: State)
    requires Inv(s) && BackgroundEffect(s, t)
    ensures Inv(t) && Evolves(s, t)
  {
    BackgroundEvolves(s, t);
    BackgroundEnqueues(s, t);
    BackgroundCommands(s, t);
    BackgroundChains(s, t);
  }

  /** What any one action can do.  The invariants below are proved for these effects. */
  ghost predicate StepEffect(s: State, t: State, a: Action) {
    match a
    case Deliver(c) => c in s.queue && DeliverEffect(s, t, c)
    case Work(c, _) => c in s.workers && WorkerEffect(s, t, c)
    case EnqueueNext(p, _, _) => p in s.enqueues && RequestEffect(s, t, p)
    case RecoverNext(p, _, id, c) => p in s.recoveries && RecoveryEffect(s, t, p, id, c)
    case CleanupNext(p, _, arg) => p in s.cleanups && CleanerEffect(s, t, p, arg)
    case _ => BackgroundEffect(s, t)
  }

  lemma StepHasEffect(s: State, a: Action)
    ensures Step(s, a) == s || StepEffect(s, Step(s, a), a)
  {
    if Step(s, a) != s {
      match a
      case Deliver(c) => DeliverHasEffect(s, c);
      case Work(c, choice) => WorkEffect(s, c, choice);
      case EnqueueNext(p, choice, arg) => RequestHasEffect(s, p, choice, arg);
      case RecoverNext(p, choice, id, c) => RecoverEffect(s, p, choice, id, c);
      case CleanupNext(p, choice, arg) => CleanupEffect(s, p, choice, arg);
      case EnqueueStart(p, key, data, id) => EnqueueStartEffect(s, p, key, data, id);
      case RecoverStart(p) => RecoverStartEffect(s, p);
      case CleanupStart(p) => CleanupStartEffect(s, p);
      case Tick(d) => TickEffect(s, d);
      case CrashWorker(c) => CrashEffect(s, c);
      case KillRequest(p) => KillEffect(s, p);
    }
  }

  lemma EffectInv(s: State, t: State, a: Action)
    requires Inv(s) && StepEffect(s, t, a)
    ensures Inv(t) && Evolves(s, t)
  {
    match a
    case Deliver(c) => DeliverInv(s, t, c);
    case Work(c, _) => WorkInv(s, t, c);
    case EnqueueNext(p, _, _) => EnqueueInv(s, t, p);
    case RecoverNext(p, _, id, c) => RecoverInv(s, t, p, id, c);
    case CleanupNext(p, _, arg) => CleanerInv(s, t, p, arg);
    case _ => BackgroundInv(s, t);
  }

  lemma StepInv(s: State, a: Action)
    requires Inv(s)
    ensures Inv(Step(s, a)) && Evolves(s, Step(s, a))
  {
    StepHasEffect(s, a);
    if Step(s, a) != s { EffectInv(s, Step(s, a), a); }
  }

  lemma {:induction false} RunInv(s: State, run: seq<Action>)
    requires Inv(s)
    ensures Inv(Exec(s, run)) && Evolves(s, Exec(s, run))
    decreases |run|
  {
    if run != [] {
      StepInv(s, run[0]);
      RunInv(Step(s, run[0]), run[1..]);
    }
  }

  /* ---------------------------- what the other processes leave alone ---------------------------- */

  /** The rows stay, are reset or lose one; log, claims and records stay. */
  ghost predicate RowsTended(s: State, t: State, a: Action) {
    && t.log == s.log && t.claimLog == s.claimLog && t.records == s.records && t.backend == s.backend
    && (|| t.rows == s.rows
        || (a.RecoverNext? && a.p in s.recoveries && s.recoveries[a.p].Resetting?
            && t.rows == ResetStale(s.rows, s.recoveries[a.p].cutoff))
        || (a.CleanupNext? && a.p in s.cleanups && s.cleanups[a.p].OldRowDelete?
            && t.rows == s.rows - {s.cleanups[a.p].id}))
  }

  lemma DeliverTends(s: State, t: State, a: Action, c: Chain)
    requires c in s.queue && DeliverEffect(s, t, c)
    ensures RowsTended(s, t, a) && t.enqueues == s.enqueues
  {}

  lemma RecoveryTends(s: State, t: State, a: Action)
    requires a.RecoverNext? && a.p in s.recoveries && RecoveryEffect(s, t, a.p, a.id, a.c)
    ensures RowsTended(s, t, a) && t.workers == s.workers && t.enqueues == s.enqueues
  {}

  lemma CleanerTends(s: State, t: State, a: Action)
    requires a.CleanupNext? && a.p in s.cleanups && CleanerEffect(s, t, a.p, a.arg)
    ensures RowsTended(s, t, a) && t.workers == s.workers && t.enqueues == s.enqueues
  {}

  lemma BackgroundTends(s: State, t: State, a: Action)
    requires BackgroundEffect(s, t)
    ensures RowsTended(s, t, a)
  {}

  /** Only workers and requests write rows, log and claims otherwise. */
  lemma OthersTend(s: State, t: State, a: Action)
    requires StepEffect(s, t, a) && !a.Work? && !a.EnqueueNext?
    ensures RowsTended(s, t, a)
  {
    match a
    case Work(_, _) =>
    case EnqueueNext(_, _, _) =>
    case Deliver(c) => DeliverTends(s, t, a, c);
    case RecoverNext(_, _, _, _) => RecoveryTends(s, t, a);
    case CleanupNext(_, _, _) => CleanerTends(s, t, a);
    case _ => BackgroundTends(s, t, a);
  }

  lemma WorkerTends(s: State, t: State, c: Chain)
    requires c in s.workers && WorkerEffect(s, t, c)
    ensures t.records == s.records && t.enqueues == s.enqueues
    ensures (t.log == s.log && t.backend == s.backend) || s.workers[c].pc.Writing?
  {}

  lemma RequestStoresNothing(s: State, t: State, p: Pid)
    requires p in s.enqueues && RequestEffect(s, t, p)
    ensures t.log == s.log && t.backend == s.backend && t.claimLog == s.claimLog && t.workers == s.workers
  {}

  /** The terminal statuses are closed: once a row is DONE, FAILED or CANCELLED, it is gone or
      still in one of the three after any further actions. */
  lemma TerminalIsClosed(now: int, stale: nat, run: seq<Action>, more: seq<Action>, id: Id)
    requires var s := Exec(Init(now, stale), run); id in s.rows && !IsLive(s.rows[id].status)
    ensures var t := Exec(Init(now, stale), run + more); id !in t.rows || !IsLive(t.rows[id].status)
  {
    InitInv(now, stale);
    RunInv(Init(now, stale), run);
    RunInv(Exec(Init(now, stale), run), more);
    ExecConcat(Init(now, stale), run, more);
  }

  /** UPLOADING -> DONE happens at most once per row. */
  lemma DoneOnce(now: int, stale: nat, run: seq<Action>, a: Action, more: seq<Action>, id: Id)
    requires HasStatus(Exec(Init(now, stale), run), id, Uploading)
    requires HasStatus(Exec(Init(now, stale), run + [a]), id, Done)
    ensures !HasStatus(Exec(Init(now, stale), run + [a] + more), id, Uploading)
  {
    TerminalIsClosed(now, stale, run + [a], more, id);
  }

  /** A DONE row has a completed backend write of exactly its own bytes, to its own path, in the log. */
  lemma DoneHasItsWrite(now: int, stale: nat, run: seq<Action>, id: Id)
    requires HasStatus(Exec(Init(now, stale), run), id, Done)
    ensures var s := Exec(Init(now, stale), run);
            id in s.records && Entry(id, s.rows[id].key, s.records[id].data) in s.log
  {
    InitInv(now, stale);
    RunInv(Init(now, stale), run);
  }

  /** No delivery chain ever sits through countdowns of more than (4^MAX_RETRIES - 1) / 3 seconds in total. */
  lemma ChainsWaitAtMost(now: int, stale: nat, run: seq<Action>, c: Chain)
    ensures var s := Exec(Init(now, stale), run);
            && (c in s.queue ==> 3 * s.queue[c].waited <= Pow4(MAX_RETRIES) - 1)
            && (c in s.workers ==> 3 * s.workers[c].waited <= Pow4(MAX_RETRIES) - 1)
  {
    InitInv(now, stale);
    RunInv(Init(now, stale), run);
    var s := Exec(Init(now, stale), run);
    if c in s.queue { assert MessageOk(s, s.queue[c]); Pow4Grows(s.queue[c].retries); }
    if c in s.workers { assert WorkerOk(s, s.workers[c]); Pow4Grows(s.workers[c].retries); }
  }

  lemma Pow4Grows(n: nat)
    requires n <= MAX_RETRIES
    ensures Pow4(n) <= Pow4(MAX_RETRIES)
  {
    assert n == 0 || n == 1 || n == 2 || n == 3;
  }
}
