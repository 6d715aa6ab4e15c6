/**
 What the status check before the write is for: a row that was cancelled, failed or deleted reaches the
 backend only through a worker that had passed the check before.
 */
module UploadCancels {
  import opened UploadProtocol
  import opened UploadInvariants
  import opened UploadLosses
  import opened UploadService

  /** The worker is past the check and has its bytes, or can still open the file. */
  predicate MayWrite(s: State, w: Worker) { w.pc.Writing? || (w.pc.Rechecked? && w.id in s.files) }

  ghost predicate WriterLeft(s: State, id: Id) {
    exists c <- s.workers :: s.workers[c].id == id && MayWrite(s, s.workers[c])
  }

  /** The backend has got bytes of this row since. */
  ghost predicate WrittenSince(s: State, t: State, id: Id) {
    exists i | |s.log| <= i < |t.log| :: t.log[i].id == id
  }

  /** No write of the row, and still nobody who could make one. */
  ghost predicate Silent(s: State, t: State, id: Id) {
    !WriterLeft(t, id) && s.log <= t.log && |t.log| <= |s.log| + 1 && (|t.log| > |s.log| ==> t.log[|s.log|].id != id)
  }

  lemma WorkerIsSilent(s: State, t: State, c: Chain, id: Id)
    requires c in s.workers && WorkerEffect(s, t, c)
    requires Dead(s, id) && !WriterLeft(s, id) && (id !in s.files ==> id !in t.files)
    ensures Silent(s, t, id)
  {
    forall d <- t.workers ensures !(t.workers[d].id == id && MayWrite(t, t.workers[d])) {
      assert d in s.workers;
      assert s.workers[d].id == id ==> !MayWrite(s, s.workers[d]);
    }
  }

  lemma DeliveryIsSilent(s: State, t: State, c: Chain, id: Id)
    requires c in s.queue && DeliverEffect(s, t, c) && !WriterLeft(s, id)
    ensures Silent(s, t, id)
  {
    forall d <- t.workers ensures !(t.workers[d].id == id && MayWrite(t, t.workers[d])) {
      assert d in s.workers && t.workers[d] == s.workers[d] ==> (s.workers[d].id == id ==> !MayWrite(s, s.workers[d]));
    }
  }

  ghost predicate NobodyWorks(s: State, t: State) {
    t.log == s.log && forall c <- t.workers :: c in s.workers && t.workers[c] == s.workers[c]
  }

  lemma OthersAreSilent(s: State, t: State, id: Id)
    requires NobodyWorks(s, t) && !WriterLeft(s, id) && (id !in s.files ==> id !in t.files)
    ensures Silent(s, t, id)
  {
    forall d <- t.workers ensures !(t.workers[d].id == id && MayWrite(t, t.workers[d])) {
      assert s.workers[d].id == id ==> !MayWrite(s, s.workers[d]);
    }
  }

  lemma BackgroundDoesNoWork(s: State, t: State)
    requires BackgroundEffect(s, t)
    ensures NobodyWorks(s, t)
  {}

  lemma RequestDoesNoWork(s: State, t: State, p: Pid)
    requires p in s.enqueues && RequestEffect(s, t, p)
    ensures NobodyWorks(s, t)
  {
    RequestStoresNothing(s, t, p);
  }

  lemma RecoveryDoesNoWork(s: State, t: State, p: Pid, id: Id, c: Chain)
    requires p in s.recoveries && RecoveryEffect(s, t, p, id, c)
    ensures NobodyWorks(s, t)
  {}

  lemma CleanerDoesNoWork(s: State, t: State, p: Pid, arg: nat)
    requires p in s.cleanups && CleanerEffect(s, t, p, arg)
    ensures NobodyWorks(s, t)
  {}

  lemma EffectIsSilent(s: State, t: State, a: Action, id: Id)
    requires StepEffect(s, t, a)
    requires Dead(s, id) && !WriterLeft(s, id) && (id !in s.files ==> id !in t.files)
    ensures Silent(s, t, id)
  {
    match a
    case Work(c, _) => WorkerIsSilent(s, t, c, id);
    case Deliver(c) => DeliveryIsSilent(s, t, c, id);
    case EnqueueNext(p, _, _) =>
      RequestDoesNoWork(s, t, p);
      OthersAreSilent(s, t, id);
    case RecoverNext(p, _, i, c) =>
      RecoveryDoesNoWork(s, t, p, i, c);
      OthersAreSilent(s, t, id);
    case CleanupNext(p, _, arg) =>
      CleanerDoesNoWork(s, t, p, arg);
      OthersAreSilent(s, t, id);
    case _ =>
      BackgroundDoesNoWork(s, t);
      OthersAreSilent(s, t, id);
  }

  lemma StepIsSilent(s: State, a: Action, id: Id)
    requires Inv(s) && Dead(s, id) && !WriterLeft(s, id)
    ensures Silent(s, Step(s, a), id)
  {
    StepHasEffect(s, a);
    if id !in s.files { GoneStaysGone(s, a, id); }
    if Step(s, a) != s { EffectIsSilent(s, Step(s, a), a, id); }
  }

  lemma {:induction false} RunIsSilent(s: State, run: seq<Action>, id: Id)
    requires Inv(s) && Dead(s, id) && !WriterLeft(s, id)
    ensures s.log <= Exec(s, run).log && !WrittenSince(s, Exec(s, run), id)
    decreases |run|
  {
    if run != [] {
      var t := Step(s, run[0]);
      StepInv(s, run[0]);
      StepIsSilent(s, run[0], id);
      RunIsSilent(t, run[1..], id);
      SilentSince(s, t, Exec(t, run[1..]), id);
    }
  }

  lemma SilentSince(s: State, t: State, u: State, id: Id)
    requires Silent(s, t, id) && t.log <= u.log && !WrittenSince(t, u, id)
    ensures s.log <= u.log && !WrittenSince(s, u, id)
  {
    forall i | |s.log| <= i < |u.log| ensures u.log[i].id != id {
      if i < |t.log| { assert u.log[i] == t.log[i]; }
    }
  }

  /** This run writes the row. */
  ghost predicate RunWrites(s: State, run: seq<Action>, id: Id) { WrittenSince(s, Exec(s, run), id) }

  /** Some further run does. */
  ghost predicate CanBeWritten(s: State, id: Id) { exists run :: RunWrites(s, run, id) }

  lemma StoreWrites(s: State, c: Chain)
    requires c in s.workers && s.workers[c].pc.Writing?
    ensures var w := s.workers[c]; Step(s, Work(c, Ok)).log == s.log + [Entry(w.id, w.key, w.pc.bytes)]
  {}

  lemma OpenStep(s: State, c: Chain)
    requires c in s.workers && s.workers[c].pc.Rechecked? && s.workers[c].id in s.files
    ensures var w := s.workers[c]; Step(s, Work(c, Ok)) == Goto(s, c, Writing(s.files[w.id]))
  {}

  /** A worker that is past the check goes on to write, whatever has become of the row. */
  lemma WriterWrites(s: State, c: Chain)
    requires c in s.workers && MayWrite(s, s.workers[c])
    ensures CanBeWritten(s, s.workers[c].id)
  {
    var run, s1 := [], s;
    assert Exec(s, run) == s;
    if s.workers[c].pc.Rechecked? {
      OpenStep(s, c);
      Follow(s, run, s, Work(c, Ok));
      run, s1 := run + [Work(c, Ok)], Step(s, Work(c, Ok));
    }
    StoreWrites(s1, c);
    Follow(s, run, s1, Work(c, Ok));
    var t := Step(s1, Work(c, Ok));
    assert t.log[|s.log|].id == s.workers[c].id;
    assert RunWrites(s, run + [Work(c, Ok)], s.workers[c].id);
  }

  lemma NobodyWrites(s: State, id: Id)
    requires Inv(s) && Dead(s, id) && !WriterLeft(s, id)
    ensures !CanBeWritten(s, id)
  {
    forall run ensures !RunWrites(s, run, id) { RunIsSilent(s, run, id); }
  }

  lemma WrittenExactly(s: State, id: Id)
    requires Inv(s) && Dead(s, id)
    ensures CanBeWritten(s, id) <==> WriterLeft(s, id)
  {
    if WriterLeft(s, id) {
      var c :| c in s.workers && s.workers[c].id == id && MayWrite(s, s.workers[c]);
      WriterWrites(s, c);
    } else {
      NobodyWrites(s, id);
    }
  }

  /** Once a row is cancelled, failed, done or gone, some further run can still write its bytes to the backend
      exactly if a worker of it is past the status check, with the file open or still there. */
  lemma CheckStopsWritesExactly(now: int, stale: nat, run: seq<Action>, id: Id)
    requires Dead(Exec(Init(now, stale), run), id)
    ensures CanBeWritten(Exec(Init(now, stale), run), id) <==> WriterLeft(Exec(Init(now, stale), run), id)
  {
    InitInv(now, stale);
    RunInv(Init(now, stale), run);
    WrittenExactly(Exec(Init(now, stale), run), id);
  }
}
