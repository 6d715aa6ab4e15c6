/** The small types that every other module shares. */
module Basics {
  datatype Option<+T> = None | Some(value: T)

  newtype byte = x: int | 0 <= x < 256

  type Bytes = seq<byte>

  lemma {:induction false} FreshNat(names: set<nat>) returns (n: nat)
    ensures forall m <- names :: m < n
  {
    if names == {} {
      n := 0;
    } else {
      var m :| m in names;
      n := FreshNat(names - {m});
      assert names == (names - {m}) + {m};
      if n <= m { n := m + 1; }
    }
  }

  lemma DivExact(n: int, q: int, d: int, r: int)
    requires d > 0 && 0 <= r < d && n == q * d + r
    ensures n / d == q && n % d == r
  {
    var k := q - n / d;
    assert k * d == n % d - r by { assert k * d == q * d - n / d * d; }
    assert k > 0 ==> k * d >= d;
    assert k < 0 ==> k * d <= -d;
  }
}

/**
 The write-cache upload protocol as a transition system.

 Web requests (enqueue_upload), Celery workers (upload_to_backend), the two management commands
 (recover_pending_uploads, cleanup_pending_uploads) and one shared clock act on a table of rows, a
 directory of temp files, a message queue and a backend.  Every database statement, file operation,
 publish and clock reading is one action; a run is a sequence of actions in any order whatsoever.
 An action that is not possible in a state leaves the state alone, and a process that died is one
 that is never scheduled again.
 */
module UploadProtocol {
  import opened Basics

  type Id = nat     // PendingUpload.id, also the name of the temp file
  type Chain = nat  // one publish of an upload: the first delivery and all its retries
  type Pid = nat    // a running web request or management command

  datatype Key = Key(user: int, connection: string, path: string)

  datatype Status = Pending | Uploading | Done | Failed | Cancelled

  datatype Row = Row(key: Key, status: Status, claimedAt: Option<int>, createdAt: int)

  const MAX_RETRIES: nat := 3

  function Pow4(n: nat): nat {
    if n == 0 then 1 else 4 * Pow4(n - 1)
  }

  /** A queued delivery.  `claim` (when its chain last claimed the row) and `waited` (the countdowns
      it has sat through) are history. */
  datatype Message = Message(id: Id, retries: nat, claim: Option<int>, waited: nat)

  /** Where a worker stands in upload_to_backend, with the locals it still needs. */
  datatype WorkerPc =
    | Fetched(status: Status, claimedAt: Option<int>)
    | CutoffRead(status: Status, claimedAt: Option<int>, cutoff: int)
    | Owner              // past the claim section
    | TempSeen           // temp_path.exists() was true
    | BackendFound
    | Rechecked          // the status re-check saw UPLOADING
    | Writing(bytes: Bytes)  // inside write_stream, nothing stored yet
    | Stored             // the backend holds the bytes, write_stream has not returned
    | WriteFailed
    | Failing            // about to run _fail
    | Finishing          // about to run the UPLOADING -> DONE update
    | Unlinking

  datatype Worker = Worker(id: Id, key: Key, retries: nat, claim: Option<int>, waited: nat, pc: WorkerPc)

  /** Where a request stands in enqueue_upload. */
  datatype EnqueuePc =
    | LookingUp(cutoff: int)
    | NoFresh
    | CancelCutoff(cutoff: int)
    | Cancelling(todo: set<Id>)
    | CancelSaving(current: Id, todo: set<Id>)  // current's temp file is dealt with, its status is not
    | Buffering
    | Creating
    | Dispatching
    | Tagging            // about to save celery_task_id
    | Deleting
    | Discarding         // about to unlink its own temp file

  datatype Enqueue = Enqueue(key: Key, data: Bytes, id: Id, pc: EnqueuePc)

  datatype Recovery = Resetting(cutoff: int) | Listing | Dispatches(todo: set<Id>)

  datatype Cleanup = Scanning | OldRow(id: Id) | OldRowDelete(id: Id) | Sweeping(known: set<Id>)

  /** What was handed to enqueue_upload for a row; `serial` numbers the rows by creation. */
  datatype Record = Record(key: Key, data: Bytes, serial: nat)

  datatype Entry = Entry(id: Id, key: Key, data: Bytes)

  datatype Claim = Claim(id: Id, at: int)

  datatype State = State(
    now: int, stale: nat,
    rows: map<Id, Row>, files: map<Id, Bytes>, backend: map<Key, Bytes>,
    queue: map<Chain, Message>, workers: map<Chain, Worker>,
    enqueues: map<Pid, Enqueue>, recoveries: map<Pid, Recovery>, cleanups: map<Pid, Cleanup>,
    // history: names handed out so far, rows ever created, backend writes, claims, and rows whose
    // file a cancellation removed without having saved the status
    ids: set<Id>, chains: set<Chain>, records: map<Id, Record>, log: seq<Entry>,
    claimLog: seq<Claim>, unlinked: set<Id>)

  function Init(now: int, stale: nat): State {
    State(now, stale, map[], map[], map[], map[], map[], map[], map[], map[],
          {}, {}, map[], [], [], {})
  }

  predicate IsLive(st: Status) { st == Pending || st == Uploading }

  predicate LiveRow(s: State, id: Id) { id in s.rows && IsLive(s.rows[id].status) }

  predicate HasStatus(s: State, id: Id, st: Status) { id in s.rows && s.rows[id].status == st }

  /** `claimed_at IS NULL OR claimed_at < cutoff` */
  predicate StaleClaim(r: Row, cutoff: int) { r.claimedAt.None? || r.claimedAt.value < cutoff }

  /** What the environment does to the call made in an action: it works, it raises, or (for a write)
      raises FileNotFoundError, (for a publish) raises although the message went out. */
  datatype Choice = Ok | Error | Odd

  datatype Action =
    | Tick(d: nat)
    | Deliver(c: Chain)
    | Work(c: Chain, choice: Choice)
    | CrashWorker(c: Chain)
    | EnqueueStart(p: Pid, key: Key, data: Bytes, id: Id)
    | EnqueueNext(p: Pid, choice: Choice, arg: nat)
    | RecoverStart(p: Pid)
    | RecoverNext(p: Pid, choice: Choice, id: Id, c: Chain)
    | CleanupStart(p: Pid)
    | CleanupNext(p: Pid, choice: Choice, arg: nat)
    | KillRequest(p: Pid)

  /* ---------------------------------- upload_to_backend ---------------------------------- */

  function Leave(s: State, c: Chain): State { s.(workers := s.workers - {c}) }

  function Goto(s: State, c: Chain, pc: WorkerPc): State
    requires c in s.workers
  {
    s.(workers := s.workers[c := s.workers[c].(pc := pc)])
  }

  /** A successful claim: the guarded update together with its own timezone.now(). */
  function TakeClaim(s: State, c: Chain): State
    requires c in s.workers && s.workers[c].id in s.rows
  {
    var w := s.workers[c];
    s.(rows := s.rows[w.id := s.rows[w.id].(status := Uploading, claimedAt := Some(s.now))],
       workers := s.workers[c := w.(claim := Some(s.now), pc := Owner)],
       claimLog := s.claimLog + [Claim(w.id, s.now)])
  }

  /** The guards of the two claiming updates, for the status, claimed_at and cutoff read before. */
  predicate CanClaim(s: State, w: Worker)
    requires w.pc.CutoffRead?
  {
    if w.pc.status == Pending then HasStatus(s, w.id, Pending)
    else
      && (w.pc.claimedAt.None? || w.pc.claimedAt.value < w.pc.cutoff)
      && HasStatus(s, w.id, Uploading) && StaleClaim(s.rows[w.id], w.pc.cutoff)
  }

  function ClaimStep(s: State, c: Chain): State
    requires c in s.workers && s.workers[c].pc.CutoffRead?
  {
    var w := s.workers[c];
    if w.pc.status != Pending && w.retries > 0 then Goto(s, c, Owner)
    else if CanClaim(s, w) then TakeClaim(s, c)
    else Leave(s, c)
  }

  function StoreStep(s: State, c: Chain): State
    requires c in s.workers && s.workers[c].pc.Writing?
  {
    var w := s.workers[c];
    s.(workers := s.workers[c := w.(pc := Stored)],
       backend := s.backend[w.key := w.pc.bytes],
       log := s.log + [Entry(w.id, w.key, w.pc.bytes)])
  }

  function RetryStep(s: State, c: Chain): State
    requires c in s.workers
  {
    var w := s.workers[c];
    if w.retries < MAX_RETRIES then
      s.(workers := s.workers - {c},
         queue := s.queue[c := Message(w.id, w.retries + 1, w.claim, w.waited + Pow4(w.retries))])
    else
      Goto(s, c, Failing)
  }

  /** _fail: UPLOADING -> FAILED, or nothing. */
  function FailStep(s: State, c: Chain): State
    requires c in s.workers
  {
    var w := s.workers[c];
    if HasStatus(s, w.id, Uploading) then
      s.(workers := s.workers - {c}, rows := s.rows[w.id := s.rows[w.id].(status := Failed)])
    else Leave(s, c)
  }

  /** The final UPLOADING -> DONE update; only its winner goes on to delete the temp file. */
  function FinishStep(s: State, c: Chain): State
    requires c in s.workers
  {
    var w := s.workers[c];
    if HasStatus(s, w.id, Uploading) then
      s.(workers := s.workers[c := w.(pc := Unlinking)],
         rows := s.rows[w.id := s.rows[w.id].(status := Done)])
    else Leave(s, c)
  }

  function UnlinkStep(s: State, c: Chain): State
    requires c in s.workers
  {
    s.(workers := s.workers - {c}, files := s.files - {s.workers[c].id})
  }

  function WorkStep(s: State, c: Chain, choice: Choice): State
    requires c in s.workers
  {
    var w := s.workers[c];
    match w.pc
    case Fetched(st, at) => Goto(s, c, CutoffRead(st, at, s.now - s.stale))
    case CutoffRead(_, _, _) => ClaimStep(s, c)
    case Owner => Goto(s, c, if w.id in s.files then TempSeen else Failing)
    case TempSeen => Goto(s, c, if choice.Ok? then BackendFound else Failing)
    case BackendFound => if HasStatus(s, w.id, Uploading) then Goto(s, c, Rechecked) else Leave(s, c)
    case Rechecked => Goto(s, c, if w.id in s.files then Writing(s.files[w.id]) else Failing)
    case Writing(_) =>
      (match choice
       case Ok => StoreStep(s, c)
       case Error => Goto(s, c, WriteFailed)
       case Odd => Goto(s, c, Failing))
    case Stored =>
      Goto(s, c, match choice case Ok => Finishing case Error => WriteFailed case Odd => Failing)
    case WriteFailed => RetryStep(s, c)
    case Failing => FailStep(s, c)
    case Finishing => FinishStep(s, c)
    case Unlinking => if choice.Ok? then UnlinkStep(s, c) else Leave(s, c)
  }

  /** A worker takes the message and reads the row. */
  function DeliverStep(s: State, c: Chain): State
    requires c in s.queue
  {
    var m := s.queue[c];
    if LiveRow(s, m.id) then
      var r := s.rows[m.id];
      s.(queue := s.queue - {c},
         workers := s.workers[c := Worker(m.id, r.key, m.retries, m.claim, m.waited, Fetched(r.status, r.claimedAt))])
    else s.(queue := s.queue - {c})
  }

  /* ------------------------------------ enqueue_upload ------------------------------------ */

  function Stop(s: State, p: Pid): State { s.(enqueues := s.enqueues - {p}) }

  function At(s: State, p: Pid, pc: EnqueuePc): State
    requires p in s.enqueues
  {
    s.(enqueues := s.enqueues[p := s.enqueues[p].(pc := pc)])
  }

  /** The row is UPLOADING for this key with a claim no older than the cutoff. */
  predicate FreshRow(r: Row, key: Key, cutoff: int) {
    r.key == key && r.status == Uploading && !StaleClaim(r, cutoff)
  }

  /** What _cancel_stale_uploads selects. */
  predicate Cancellable(r: Row, key: Key, cutoff: int) {
    r.key == key && IsLive(r.status) && !FreshRow(r, key, cutoff)
  }

  function Selected(s: State, key: Key, cutoff: int): set<Id> {
    set id | id in s.rows && Cancellable(s.rows[id], key, cutoff)
  }

  predicate AnyFresh(s: State, key: Key, cutoff: int) {
    exists id :: id in s.rows && FreshRow(s.rows[id], key, cutoff)
  }

  function CancelUnlink(s: State, p: Pid, ok: bool, id: Id, todo: set<Id>): State
    requires p in s.enqueues
  {
    if ok && id in s.files then
      s.(enqueues := s.enqueues[p := s.enqueues[p].(pc := CancelSaving(id, todo))],
         files := s.files - {id}, unlinked := s.unlinked + {id})
    else At(s, p, CancelSaving(id, todo))
  }

  /** The unguarded save of the status; it raises when the row is gone. */
  function CancelSave(s: State, p: Pid, ok: bool, id: Id, todo: set<Id>): State
    requires p in s.enqueues
  {
    if ok && id in s.rows then
      s.(enqueues := s.enqueues[p := s.enqueues[p].(pc := Cancelling(todo))],
         rows := s.rows[id := s.rows[id].(status := Cancelled)], unlinked := s.unlinked - {id})
    else Stop(s, p)
  }

  function BufferStep(s: State, p: Pid, ok: bool, arg: nat): State
    requires p in s.enqueues
  {
    var e := s.enqueues[p];
    if ok then s.(enqueues := s.enqueues[p := e.(pc := Creating)], files := s.files[e.id := e.data])
    else s.(enqueues := s.enqueues - {p},
            files := s.files[e.id := if arg <= |e.data| then e.data[..arg] else e.data])
  }

  function CreateRow(s: State, p: Pid): State
    requires p in s.enqueues
  {
    var e := s.enqueues[p];
    s.(enqueues := s.enqueues[p := e.(pc := Dispatching)],
       rows := s.rows[e.id := Row(e.key, Pending, None, s.now)],
       records := s.records[e.id := Record(e.key, e.data, |s.records|)])
  }

  function PublishStep(s: State, p: Pid, c: Chain, pc: EnqueuePc): State
    requires p in s.enqueues
  {
    var e := s.enqueues[p];
    if c in s.chains then s
    else s.(enqueues := s.enqueues[p := e.(pc := pc)],
            queue := s.queue[c := Message(e.id, 0, None, 0)], chains := s.chains + {c})
  }

  function DeleteRow(s: State, p: Pid): State
    requires p in s.enqueues
  {
    var e := s.enqueues[p];
    s.(enqueues := s.enqueues[p := e.(pc := Discarding)], rows := s.rows - {e.id})
  }

  function DiscardFile(s: State, p: Pid): State
    requires p in s.enqueues
  {
    s.(enqueues := s.enqueues - {p}, files := s.files - {s.enqueues[p].id})
  }

  function EnqueueStep(s: State, p: Pid, choice: Choice, arg: nat): State
    requires p in s.enqueues
  {
    var e := s.enqueues[p];
    match e.pc
    case LookingUp(cutoff) => if AnyFresh(s, e.key, cutoff) then Stop(s, p) else At(s, p, NoFresh)
    case NoFresh => At(s, p, CancelCutoff(s.now - s.stale))
    case CancelCutoff(cutoff) =>
      At(s, p, Cancelling(Selected(s, e.key, cutoff)))
    case Cancelling(todo) =>
      if todo == {} then At(s, p, Buffering)
      else if arg in todo then CancelUnlink(s, p, choice.Ok?, arg, todo - {arg})
      else s
    case CancelSaving(id, todo) => CancelSave(s, p, choice.Ok?, id, todo)
    case Buffering => BufferStep(s, p, choice.Ok?, arg)
    case Creating => if choice.Ok? then CreateRow(s, p) else At(s, p, Discarding)
    case Dispatching =>
      if choice.Error? then At(s, p, Deleting)
      else PublishStep(s, p, arg, if choice.Ok? then Tagging else Deleting)
    case Tagging => if choice.Ok? && e.id in s.rows then Stop(s, p) else At(s, p, Deleting)
    case Deleting => if choice.Ok? then DeleteRow(s, p) else Stop(s, p)
    case Discarding => if choice.Ok? then DiscardFile(s, p) else Stop(s, p)
  }

  /* --------------------------------- management commands --------------------------------- */

  function ResetRow(r: Row, cutoff: int): Row {
    if r.status == Uploading && StaleClaim(r, cutoff) then r.(status := Pending) else r
  }

  function ResetStale(rows: map<Id, Row>, cutoff: int): (r: map<Id, Row>)
    ensures r.Keys == rows.Keys
  {
    map id | id in rows :: ResetRow(rows[id], cutoff)
  }

  function PendingIds(rows: map<Id, Row>): set<Id> { set id | id in rows && rows[id].status == Pending }

  /** `id` is the next row of the listing, `c` the name of the published chain. */
  function RecoverStep(s: State, p: Pid, choice: Choice, id: Id, c: Chain): State
    requires p in s.recoveries
  {
    match s.recoveries[p]
    case Resetting(cutoff) =>
      s.(rows := ResetStale(s.rows, cutoff), recoveries := s.recoveries[p := Listing])
    case Listing =>
      s.(recoveries := s.recoveries[p := Dispatches(PendingIds(s.rows))])
    case Dispatches(todo) =>
      if todo == {} then s.(recoveries := s.recoveries - {p})
      else if id !in todo || c in s.chains then s
      else if choice.Error? then s.(recoveries := s.recoveries[p := Dispatches(todo - {id})])
      else s.(recoveries := s.recoveries[p := Dispatches(todo - {id})],
              queue := s.queue[c := Message(id, 0, None, 0)], chains := s.chains + {c})
  }

  function CleanupStep(s: State, p: Pid, choice: Choice, arg: nat): State
    requires p in s.cleanups
  {
    match s.cleanups[p]
    case Scanning =>
      if !choice.Ok? then s.(cleanups := s.cleanups[p := Sweeping(s.rows.Keys)])
      else if arg in s.rows && !IsLive(s.rows[arg].status) then s.(cleanups := s.cleanups[p := OldRow(arg)])
      else s
    case OldRow(id) =>
      if choice.Ok? then s.(cleanups := s.cleanups[p := OldRowDelete(id)], files := s.files - {id})
      else s.(cleanups := s.cleanups[p := OldRowDelete(id)])
    case OldRowDelete(id) =>
      if choice.Ok? then s.(cleanups := s.cleanups[p := Scanning], rows := s.rows - {id})
      else s.(cleanups := s.cleanups - {p})
    case Sweeping(known) =>
      if !choice.Ok? then s.(cleanups := s.cleanups - {p})
      else if arg in s.files && arg !in known then s.(files := s.files - {arg})
      else s
  }

  /* ----------------------------------------- runs ----------------------------------------- */

  function Step(s: State, a: Action): State {
    match a
    case Tick(d) => s.(now := s.now + d)
    case Deliver(c) => if c in s.queue then DeliverStep(s, c) else s
    case Work(c, choice) => if c in s.workers then WorkStep(s, c, choice) else s
    case CrashWorker(c) => Leave(s, c)
    case EnqueueStart(p, key, data, id) =>
      if p in s.enqueues || id in s.ids then s
      else s.(enqueues := s.enqueues[p := Enqueue(key, data, id, LookingUp(s.now - s.stale))], ids := s.ids + {id})
    case EnqueueNext(p, choice, arg) => if p in s.enqueues then EnqueueStep(s, p, choice, arg) else s
    case RecoverStart(p) =>
      if p in s.recoveries then s else s.(recoveries := s.recoveries[p := Resetting(s.now - s.stale)])
    case RecoverNext(p, choice, id, c) => if p in s.recoveries then RecoverStep(s, p, choice, id, c) else s
    case CleanupStart(p) =>
      if p in s.cleanups then s else s.(cleanups := s.cleanups[p := Scanning])
    case CleanupNext(p, choice, arg) => if p in s.cleanups then CleanupStep(s, p, choice, arg) else s
    case KillRequest(p) => Stop(s, p)
  }

  /** The state a run ends in. */
  function Exec(s: State, run: seq<Action>): State
    decreases |run|
  {
    if run == [] then s else Exec(Step(s, run[0]), run[1..])
  }

  lemma {:induction false} ExecConcat(s: State, run: seq<Action>, more: seq<Action>)
    ensures Exec(s, run + more) == Exec(Exec(s, run), more)
    decreases |run|
  {
    if run == [] {
      assert run + more == more;
    } else {
      assert (run + more)[1..] == run[1..] + more;
      ExecConcat(Step(s, run[0]), run[1..], more);
    }
  }
}
