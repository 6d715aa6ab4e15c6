/**
 How a live row can lose its bytes, exactly.  Three actions do it: a cancellation's unlink (for good, if
 the CANCELLED save then raises or the request dies), and the orphan sweep of a cleanup whose listing is
 older than the row, before or after the row is created.  Nothing is assumed of the interleaving.
 */
module UploadLosses {
  import opened Basics
  import opened UploadProtocol
  import opened UploadInvariants
  import opened UploadFiles
  import opened UploadService
  import opened UploadRequests
  import opened UploadRuns

  /** The row is PENDING or UPLOADING, and its temp file is gone. */
  ghost predicate Lost(s: State, id: Id) { LiveRow(s, id) && id !in s.files }

  /** The unlink of a cancellation works. */
  predicate CancelLoses(s: State, a: Action, id: Id) {
    && a.EnqueueNext? && a.choice.Ok? && a.p in s.enqueues && s.enqueues[a.p].pc.Cancelling?
    && a.arg == id && id in s.enqueues[a.p].pc.todo && LiveRow(s, id) && id in s.files
  }

  /** A sweep deletes the file of a row that its listing does not hold. */
  predicate SweepLoses(s: State, a: Action, id: Id) {
    && a.CleanupNext? && a.choice.Ok? && a.p in s.cleanups && s.cleanups[a.p].Sweeping?
    && a.arg == id && id !in s.cleanups[a.p].known && LiveRow(s, id) && id in s.files
  }

  /** A row is created whose file has been swept since it was buffered. */
  predicate CreateLoses(s: State, a: Action, id: Id) {
    && a.EnqueueNext? && a.choice.Ok? && a.p in s.enqueues && s.enqueues[a.p].pc.Creating?
    && s.enqueues[a.p].id == id && id !in s.files
  }

  predicate Loses(s: State, a: Action, id: Id) {
    CancelLoses(s, a, id) || SweepLoses(s, a, id) || CreateLoses(s, a, id)
  }

  /* ------------------------------------ one action ------------------------------------ */

  lemma UnlinkLoses(s: State, p: Pid, id: Id)
    requires p in s.enqueues && s.enqueues[p].pc.Cancelling? && id in s.enqueues[p].pc.todo
    requires LiveRow(s, id) && id in s.files
    ensures Lost(EnqueueStep(s, p, Ok, id), id)
  {
    assert EnqueueStep(s, p, Ok, id) == CancelUnlink(s, p, true, id, s.enqueues[p].pc.todo - {id});
  }

  lemma RowLoses(s: State, p: Pid, arg: nat)
    requires p in s.enqueues && s.enqueues[p].pc.Creating? && s.enqueues[p].id !in s.files
    ensures Lost(EnqueueStep(s, p, Ok, arg), s.enqueues[p].id)
  {
    assert EnqueueStep(s, p, Ok, arg) == CreateRow(s, p);
  }

  lemma FileLoses(s: State, p: Pid, id: Id)
    requires p in s.cleanups && s.cleanups[p].Sweeping? && id !in s.cleanups[p].known && LiveRow(s, id) && id in s.files
    ensures Lost(CleanupStep(s, p, Ok, id), id)
  {
    assert CleanupStep(s, p, Ok, id) == s.(files := s.files - {id});
  }

  lemma LossHappens(s: State, a: Action, id: Id)
    requires Loses(s, a, id)
    ensures Lost(Step(s, a), id)
  {
    if CancelLoses(s, a, id) {
      UnlinkLoses(s, a.p, id);
    } else if SweepLoses(s, a, id) {
      FileLoses(s, a.p, id);
    } else {
      RowLoses(s, a.p, a.arg);
    }
  }

  /** A request loses a file between its lookup and its create only. */
  lemma RequestLossKinds(s: State, t: State, p: Pid, id: Id)
    requires p in s.enqueues && EnqueueOk(s, s.enqueues[p]) && RequestEffect(s, t, p) && !Lost(s, id) && Lost(t, id)
    ensures var pc := s.enqueues[p].pc;
            || (pc.Cancelling? && id in pc.todo && LiveRow(s, id) && id in s.files)
            || (pc.Creating? && id == s.enqueues[p].id && id !in s.files && t.rows != s.rows)
  {}

  lemma CancellingStep(s: State, p: Pid, choice: Choice, arg: nat)
    requires p in s.enqueues && s.enqueues[p].pc.Cancelling?
    ensures EnqueueStep(s, p, choice, arg).files
            == if choice.Ok? && arg in s.enqueues[p].pc.todo && arg in s.files then s.files - {arg} else s.files
  {
    var todo := s.enqueues[p].pc.todo;
    assert EnqueueStep(s, p, choice, arg) ==
      if todo == {} then At(s, p, Buffering)
      else if arg in todo then CancelUnlink(s, p, choice.Ok?, arg, todo - {arg})
      else s;
  }

  lemma CreatingStep(s: State, p: Pid, choice: Choice, arg: nat)
    requires p in s.enqueues && s.enqueues[p].pc.Creating?
    ensures EnqueueStep(s, p, choice, arg) == if choice.Ok? then CreateRow(s, p) else At(s, p, Discarding)
  {}

  lemma RequestLoss(s: State, p: Pid, choice: Choice, arg: nat, id: Id)
    requires p in s.enqueues && EnqueueOk(s, s.enqueues[p]) && !Lost(s, id)
    requires var t := EnqueueStep(s, p, choice, arg); Lost(t, id) && RequestEffect(s, t, p)
    ensures Loses(s, EnqueueNext(p, choice, arg), id)
  {
    RequestLossKinds(s, EnqueueStep(s, p, choice, arg), p, id);
    if s.enqueues[p].pc.Cancelling? {
      CancellingStep(s, p, choice, arg);
    } else {
      CreatingStep(s, p, choice, arg);
    }
  }

  lemma WorkerLosesNothing(s: State, t: State, c: Chain, id: Id)
    requires c in s.workers && WorkerOk(s, s.workers[c]) && WorkerEffect(s, t, c) && !Lost(s, id)
    ensures !Lost(t, id)
  {}

  lemma CleanerLoss(s: State, t: State, p: Pid, arg: nat, id: Id)
    requires p in s.cleanups && CleanupOk(s, s.cleanups[p]) && CleanerEffect(s, t, p, arg) && !Lost(s, id)
             && Lost(t, id)
    ensures s.cleanups[p].Sweeping? && id == arg && id !in s.cleanups[p].known && LiveRow(s, id)
  {}

  lemma OthersLoseNothing(s: State, t: State, a: Action, id: Id)
    requires StepEffect(s, t, a) && !a.Work? && !a.EnqueueNext? && !a.CleanupNext? && !Lost(s, id)
    ensures !Lost(t, id)
  {
    OthersTend(s, t, a);
  }

  lemma SweepingStep(s: State, p: Pid, choice: Choice, arg: nat)
    requires p in s.cleanups && s.cleanups[p].Sweeping?
    ensures !choice.Ok? ==> CleanupStep(s, p, choice, arg).files == s.files
  {}

  lemma CleanupLoss(s: State, p: Pid, choice: Choice, arg: nat, id: Id)
    requires p in s.cleanups && CleanupOk(s, s.cleanups[p]) && !Lost(s, id)
    requires var t := CleanupStep(s, p, choice, arg); Lost(t, id) && CleanerEffect(s, t, p, arg)
    ensures Loses(s, CleanupNext(p, choice, arg), id)
  {
    CleanerLoss(s, CleanupStep(s, p, choice, arg), p, arg, id);
    SweepingStep(s, p, choice, arg);
  }

  lemma LossIsOne(s: State, a: Action, id: Id)
    requires EnqueuesOk(s) && CommandsOk(s) && WorkersOk(s) && !Lost(s, id) && Lost(Step(s, a), id)
    ensures Loses(s, a, id)
  {
    StepHasEffect(s, a);
    if a.EnqueueNext? {
      assert EnqueueOk(s, s.enqueues[a.p]);
      RequestLoss(s, a.p, a.choice, a.arg, id);
    } else if a.Work? {
      assert WorkerOk(s, s.workers[a.c]);
      WorkerLosesNothing(s, Step(s, a), a.c, id);
    } else if a.CleanupNext? {
      assert CleanupOk(s, s.cleanups[a.p]);
      CleanupLoss(s, a.p, a.choice, a.arg, id);
    } else {
      OthersLoseNothing(s, Step(s, a), a, id);
    }
  }

  /** The guard: an action takes the bytes of a live row, or creates a row without them, exactly if it is
      one of the three. */
  lemma LosesExactly(s: State, a: Action, id: Id)
    requires Inv(s) && !Lost(s, id)
    ensures Lost(Step(s, a), id) <==> Loses(s, a, id)
  {
    if Loses(s, a, id) { LossHappens(s, a, id); } else if Lost(Step(s, a), id) { LossIsOne(s, a, id); }
  }

  /* ------------------------------------ whole runs ------------------------------------ */

  /** Some action of the run takes the bytes of the row, or creates it without them. */
  ghost predicate RunLoses(s: State, run: seq<Action>, id: Id)
    decreases |run|
  {
    run != [] && (Loses(s, run[0], id) || RunLoses(Step(s, run[0]), run[1..], id))
  }

  /** The file of a row that exists, or existed, never comes back. */
  lemma GoneStaysGone(s: State, a: Action, id: Id)
    requires EnqueuesOk(s) && id in s.records && id !in s.files
    ensures id !in Step(s, a).files
  {
    StepHasEffect(s, a);
    if a.EnqueueNext? && Step(s, a) != s {
      assert EnqueueOk(s, s.enqueues[a.p]);
      RequestBringsNothing(s, Step(s, a), a.p, id);
    }
  }

  lemma RequestBringsNothing(s: State, t: State, p: Pid, id: Id)
    requires p in s.enqueues && EnqueueOk(s, s.enqueues[p]) && RequestEffect(s, t, p)
    requires id in s.records && id !in s.files
    ensures id !in t.files
  {}

  /** A row that has lost its bytes never gets them back: it stays lost as long as it is live. */
  lemma {:induction false} LostForGood(s: State, run: seq<Action>, id: Id)
    requires Inv(s) && id in s.records && id !in s.files
    ensures id !in Exec(s, run).files
    decreases |run|
  {
    if run != [] {
      StepInv(s, run[0]);
      GoneStaysGone(s, run[0], id);
      LostForGood(Step(s, run[0]), run[1..], id);
    }
  }

  lemma {:induction false} LostExactly(s: State, run: seq<Action>, id: Id)
    requires Inv(s) && !Lost(s, id) && LiveRow(Exec(s, run), id)
    ensures Lost(Exec(s, run), id) <==> RunLoses(s, run, id)
    decreases |run|
  {
    if run != [] {
      var t := Step(s, run[0]);
      StepInv(s, run[0]);
      LosesExactly(s, run[0], id);
      if Loses(s, run[0], id) {
        LostForGood(t, run[1..], id);
      } else {
        LostExactly(t, run[1..], id);
      }
    }
  }

  /** The exact condition, over every run whatsoever: a live row has its temp file with exactly the
      enqueued bytes if and only if none of the three actions has happened to it. */
  lemma LiveRowHasItsBytesExactly(now: int, stale: nat, run: seq<Action>, id: Id)
    requires LiveRow(Exec(Init(now, stale), run), id)
    ensures HasItsBytes(Exec(Init(now, stale), run), id) <==> !RunLoses(Init(now, stale), run, id)
  {
    InitInv(now, stale);
    RunInv(Init(now, stale), run);
    LostExactly(Init(now, stale), run, id);
  }

  /* ------------------------------------ one request ------------------------------------ */

  /** Every live row has its file. */
  ghost predicate AllThere(s: State) { forall id :: !Lost(s, id) }

  lemma StoppedFiles(s: State, t: State, key: Key, bad: Id, done: set<Id>, kept: set<Id>)
    requires var stales := Selected(s, key, s.now - s.stale); done <= stales && bad in stales - done
    requires t == Unlinked(CancelledSet(s, done, kept), bad, bad in kept) && AllThere(s)
    ensures AllThere(t) <==> bad in kept
  {
    StoppedTables(s, t, bad, done, kept);
    StoppedRows(s, t, key, bad, done);
    if bad in kept {
      forall id ensures !Lost(t, id) { assert !Lost(s, id); }
    } else {
      assert Lost(t, bad);
    }
  }

  lemma StoredFiles(s: State, mid: State, t: State, stales: set<Id>, kept: set<Id>, key: Key, data: Bytes, id: Id,
                    now: int)
    requires AllThere(s) && mid == CancelledSet(s, stales, kept) && NewRowOk(t, key, data, id, now)
    requires forall i :: i != id ==> SameAt(mid, t, i)
    ensures AllThere(t)
  {
    forall i ensures !Lost(t, i) {
      if i != id {
        assert SameAt(mid, t, i) && !Lost(s, i);
      }
    }
  }

  lemma ReplacedFiles(s: State, t: State, key: Key, data: Bytes, id: Id, env: RequestEnv, ok: bool, bad: Option<Id>,
                      done: set<Id>, c: Chain)
    requires id !in s.rows && AllThere(s) && ReplacedAt(s, t, key, data, id, env, ok, bad, done, c)
    ensures AllThere(t) <==> bad.None? || bad.value in env.kept
  {
    var stales := Selected(s, key, s.now - s.stale);
    match bad
    case Some(b) =>
      ReplacedStopsAt(s, t, key, data, id, env, ok, stales, b, done, c);
      StoppedFiles(s, t, key, b, done, env.kept);
    case None =>
      var mid := CancelledSet(s, stales, env.kept);
      ReplacedMeans(s, t, key, data, id, env, ok, stales, done, c);
      StoreOwn(mid, key, data, id, c, env);
      StoreElsewhereAll(mid, key, data, id, c, env, t);
      StoredFiles(s, mid, t, stales, env.kept, key, data, id, mid.now);
  }

  /** The request form: a request that is not interrupted leaves every live row with its file exactly
      unless the CANCELLED save raised for a row whose file it had been able to unlink. */
  lemma RequestKeepsFilesExactly(s: State, t: State, key: Key, data: Bytes, id: Id, pause: nat, env: RequestEnv,
                                 result: EnqueueResult, bad: Option<Id>, done: set<Id>, c: Chain)
    requires id !in s.rows && AllThere(s)
    requires !result.Existing? && Enqueued(s, t, key, data, id, pause, env, result, bad, done, c)
    ensures AllThere(t) <==> bad.None? || bad.value in env.kept
  {
    var s2 := Later(s.(ids := s.ids + {id}), pause);
    EnqueuedReplaced(s, t, key, data, id, pause, env, result, bad, done, c);
    assert forall i :: Lost(s2, i) == Lost(s, i);
    ReplacedFiles(s2, t, key, data, id, env, result.Accepted?, bad, done, c);
  }

  /* ------------------------------------ losses that happen ------------------------------------ */

  lemma {:induction false} OrderlyConcat(s: State, run: seq<Action>, more: seq<Action>)
    requires Orderly(s, run) && Orderly(Exec(s, run), more)
    ensures Orderly(s, run + more) && Exec(s, run + more) == Exec(Exec(s, run), more)
    decreases |run|
  {
    if run == [] {
      assert run + more == more;
    } else {
      assert (run + more)[1..] == run[1..] + more;
      OrderlyConcat(Step(s, run[0]), run[1..], more);
    }
  }

  /** The CANCELLED save raises after the unlink: nobody is at work any more, and the row is live and has
      lost its file.  From any state in which nobody else is at work and some stale row of the path has
      its file. */
  lemma UnsavedCancelLoses(s: State, key: Key, data: Bytes, id: Id, victim: Id) returns (run: seq<Action>)
    requires Unattended(s) && id !in s.ids && !AnyFresh(s, key, s.now - s.stale)
    requires victim in Selected(s, key, s.now - s.stale) && victim in s.files
    ensures Orderly(s, run) && Lost(Exec(s, run), victim)
    ensures var t := Exec(s, run); Unattended(t) && t.workers == s.workers && t.queue == s.queue
  {
    var s1 := Later(s.(ids := s.ids + {id}), 0);
    RowsDecide(s, s.(ids := s.ids + {id}), key, s.now - s.stale);
    RowsDecide(s, s1, key, s.now - s.stale);
    run := RequestBegins(s, key, data, id, 0, {});
    run := CancelsGoOn(s, run, s1, NewRequest(s, key, data, id), Selected(s1, key, s1.now - s.stale), {}, {}, s1,
        victim, false);
    RequestIsOrderly(s, run);
  }

  const PATH := Key(1, "connection", "path")

  const ALL_WORKS := RequestEnv({}, _ => true, None, true, Ok, true, true, true)

  /** An upload of the path is accepted. */
  lemma FirstUpload(now: int, stale: nat) returns (run: seq<Action>, t: State)
    ensures Orderly(Init(now, stale), run) && Exec(Init(now, stale), run) == t && Unattended(t)
    ensures t.now == now && t.stale == stale && t.ids == {1} && t.workers == map[]
    ensures t.rows == map[1 := Row(PATH, Pending, None, now)] && t.files == map[1 := []]
  {
    var s := Init(now, stale);
    var s1 := Later(s.(ids := s.ids + {1}), 0);
    run := RequestBegins(s, PATH, [], 1, 0, {});
    assert Selected(s1, PATH, s1.now - s.stale) == {};
    run := StoreIsRun(s, run, s1, NewRequest(s, PATH, [], 1), 1, ALL_WORKS);
    t := StoreOutcome(s1, PATH, [], 1, 1, ALL_WORKS);
    RequestIsOrderly(s, run);
  }

  /** So it happens: after an upload, a second one of the same path whose cancellation of the first
      cannot be saved leaves a live row without its bytes, with no request in its way. */
  lemma CancellationCanLoseBytes(now: int, stale: nat) returns (run: seq<Action>)
    ensures Orderly(Init(now, stale), run)
    ensures var t := Exec(Init(now, stale), run); Unattended(t) && t.workers == map[] && Lost(t, 1)
  {
    var t;
    run, t := FirstUpload(now, stale);
    assert 1 in Selected(t, PATH, t.now - t.stale);
    var more := UnsavedCancelLoses(t, PATH, [], 2, 1);
    OrderlyConcat(Init(now, stale), run, more);
    run := run + more;
  }

  /** A cleanup that finds no old row goes on to its sweep. */
  lemma SweepStarts(s: State, run: seq<Action>, u: State) returns (run': seq<Action>)
    requires Exec(s, run) == u && u.cleanups == map[]
    ensures Exec(s, run') == u.(cleanups := map[0 := Sweeping(u.rows.Keys)])
  {
    var u1 := u.(cleanups := map[0 := Scanning]);
    Follow(s, run, u, CleanupStart(0));
    Follow(s, run + [CleanupStart(0)], u1, CleanupNext(0, Error, 0));
    assert u1.cleanups[0 := Sweeping(u.rows.Keys)] == map[0 := Sweeping(u.rows.Keys)];
    run' := run + [CleanupStart(0)] + [CleanupNext(0, Error, 0)];
  }

  lemma Swept(s: State, run: seq<Action>, u: State, id: Id) returns (run': seq<Action>)
    requires Exec(s, run) == u && 0 in u.cleanups && u.cleanups[0].Sweeping? && id in u.files
    requires id !in u.cleanups[0].known
    ensures Exec(s, run') == u.(files := u.files - {id})
  {
    Follow(s, run, u, CleanupNext(0, Ok, id));
    run' := run + [CleanupNext(0, Ok, id)];
  }

  /** A sweep between buffering and create: the row is created without its bytes, so the condition on
      sweeps cannot be dropped. */
  lemma SweepCanLoseBytes(now: int, stale: nat) returns (run: seq<Action>)
    ensures Lost(Exec(Init(now, stale), run), 1)
  {
    var s := Init(now, stale);
    var s1, e := Later(s.(ids := s.ids + {1}), 0), NewRequest(s, PATH, [], 1);
    run := RequestBegins(s, PATH, [], 1, 0, {});
    assert Selected(s1, PATH, s1.now - s.stale) == {};
    RequestMoves(s, run, s1, e.(pc := Cancelling({})), Ok, 0, e.(pc := Buffering), s1);
    run := run + [EnqueueNext(0, Ok, 0)];
    var t := s1.(files := map[1 := []]);
    RequestMoves(s, run, s1, e.(pc := Buffering), Ok, 0, e.(pc := Creating), t);
    run := SweepStarts(s, run + [EnqueueNext(0, Ok, 0)], Requesting(t, e.(pc := Creating)));
    run := Swept(s, run, Exec(s, run), 1);
    var u := Exec(s, run);
    LossHappens(u, EnqueueNext(0, Ok, 0), 1);
    Follow(s, run, u, EnqueueNext(0, Ok, 0));
    run := run + [EnqueueNext(0, Ok, 0)];
  }
}
