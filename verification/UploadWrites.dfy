/**
 In a legal run in which no row is taken from the worker that is writing it, completed writes to a
 path happen in the creation order of their records, and the backend holds the bytes of the newest
 record that completed one.
 */
module UploadWrites {
  import opened Basics
  import opened UploadProtocol
  import opened UploadInvariants
  import opened UploadClaims
  import opened UploadOrder

  ghost function Serial(s: State, id: Id): nat { if id in s.records then s.records[id].serial else 0 }

  ghost predicate Ordered(s: State) {
    forall i, j ::
      0 <= i < j < |s.log| && s.log[i].key == s.log[j].key ==> Serial(s, s.log[i].id) <= Serial(s, s.log[j].id)
  }

  /** A live row is the newest record of its path. */
  ghost predicate Newest(s: State) {
    forall i, j :: LiveRow(s, i) && j in s.records && s.records[j].key == s.rows[i].key ==> Serial(s, j) <= Serial(s, i)
  }

  ghost predicate SerialsDiffer(s: State) {
    forall i, j :: i in s.records && j in s.records && Serial(s, i) == Serial(s, j) ==> i == j
  }

  ghost predicate LastEntry(s: State, i: int) {
    0 <= i < |s.log| && forall j :: i < j < |s.log| ==> s.log[j].key != s.log[i].key
  }

  ghost predicate BackendIsLast(s: State) {
    forall i :: LastEntry(s, i) ==> s.log[i].key in s.backend && s.backend[s.log[i].key] == s.log[i].data
  }

  ghost predicate HistoryOk(s: State) { SerialsDiffer(s) && BackendIsLast(s) }

  lemma NewestKept(s: State, t: State)
    requires Newest(s) && t.records == s.records
    requires forall id :: LiveRow(t, id) ==> LiveRow(s, id) && t.rows[id].key == s.rows[id].key
    ensures Newest(t)
  {}

  lemma NewestCreated(s: State, t: State, e: Enqueue)
    requires RowsOk(s) && Newest(s) && e.id !in s.records && (forall i :: !LiveAt(s, i, e.key))
    requires t.rows == s.rows[e.id := Row(e.key, Pending, None, s.now)]
    requires t.records == s.records[e.id := Record(e.key, e.data, |s.records|)]
    ensures Newest(t)
  {
    forall i, j | LiveRow(t, i) && j in t.records && t.records[j].key == t.rows[i].key
      ensures Serial(t, j) <= Serial(t, i)
    {
      if i != e.id {
        assert !LiveAt(s, i, e.key);
        assert Serial(s, j) <= Serial(s, i);
      }
    }
  }

  lemma RequestNewest(s: State, t: State, p: Pid)
    requires RowsOk(s) && Newest(s) && p in s.enqueues && EnqueueOk(s, s.enqueues[p]) && RequestEffect(s, t, p)
    requires Section(s, s.enqueues[p])
    ensures Newest(t)
  {
    if t.records == s.records { NewestKept(s, t); } else { NewestCreated(s, t, s.enqueues[p]); }
  }

  lemma EffectNewest(s: State, t: State, a: Action)
    requires RowsOk(s) && SectionInv(s) && Newest(s) && StepEffect(s, t, a)
    requires a.EnqueueNext? ==> EnqueueOk(s, s.enqueues[a.p])
    ensures Newest(t)
  {
    if a.EnqueueNext? {
      assert Section(s, s.enqueues[a.p]);
      RequestNewest(s, t, a.p);
    } else {
      NothingNewLive(s, t, a);
      NewestKept(s, t);
    }
  }

  lemma SerialsKept(s: State, t: State)
    requires SerialsDiffer(s) && t.records == s.records
    ensures SerialsDiffer(t)
  {
    forall i, j | i in t.records && j in t.records && Serial(t, i) == Serial(t, j) ensures i == j {
      assert Serial(s, i) == Serial(s, j);
    }
  }

  lemma SerialsCreated(s: State, t: State, e: Enqueue)
    requires RowsOk(s) && SerialsDiffer(s) && e.id !in s.records
    requires t.records == s.records[e.id := Record(e.key, e.data, |s.records|)]
    ensures SerialsDiffer(t)
  {
    forall i, j | i in t.records && j in t.records && Serial(t, i) == Serial(t, j) ensures i == j {
      if i != e.id && j != e.id { assert Serial(s, i) == Serial(s, j); }
    }
  }

  lemma EffectSerials(s: State, t: State, a: Action)
    requires RowsOk(s) && SerialsDiffer(s) && StepEffect(s, t, a)
    requires a.EnqueueNext? ==> EnqueueOk(s, s.enqueues[a.p])
    ensures SerialsDiffer(t)
  {
    if a.EnqueueNext? {
      RequestSerials(s, t, a.p);
    } else {
      if a.Work? { WorkerTends(s, t, a.c); } else { OthersTend(s, t, a); }
      SerialsKept(s, t);
    }
  }

  lemma RequestSerials(s: State, t: State, p: Pid)
    requires RowsOk(s) && SerialsDiffer(s) && p in s.enqueues && EnqueueOk(s, s.enqueues[p]) && RequestEffect(s, t, p)
    ensures SerialsDiffer(t)
  {
    if t.records == s.records { SerialsKept(s, t); } else { SerialsCreated(s, t, s.enqueues[p]); }
  }

  lemma StoredIsLast(s: State, t: State, e: Entry)
    requires BackendIsLast(s) && t.log == s.log + [e] && t.backend == s.backend[e.key := e.data]
    ensures BackendIsLast(t)
  {
    forall i | LastEntry(t, i) ensures t.log[i].key in t.backend && t.backend[t.log[i].key] == t.log[i].data {
      if i < |s.log| {
        assert t.log[|s.log|].key != t.log[i].key;
        forall j | i < j < |s.log| ensures s.log[j].key != s.log[i].key { assert t.log[j] == s.log[j]; }
        assert LastEntry(s, i);
      }
    }
  }

  lemma BackendKept(s: State, t: State)
    requires BackendIsLast(s) && t.log == s.log && t.backend == s.backend
    ensures BackendIsLast(t)
  {
    forall i | LastEntry(t, i) ensures LastEntry(s, i) {}
  }

  lemma WorkerBackend(s: State, t: State, c: Chain)
    requires BackendIsLast(s) && c in s.workers && WorkerEffect(s, t, c)
    ensures BackendIsLast(t)
  {
    if t.log == s.log && t.backend == s.backend {
      BackendKept(s, t);
    } else {
      var w := s.workers[c];
      StoredIsLast(s, t, Entry(w.id, w.key, w.pc.bytes));
    }
  }

  lemma EffectBackend(s: State, t: State, a: Action)
    requires BackendIsLast(s) && StepEffect(s, t, a)
    ensures BackendIsLast(t)
  {
    if a.Work? {
      WorkerBackend(s, t, a.c);
    } else {
      if a.EnqueueNext? { RequestStoresNothing(s, t, a.p); } else { OthersTend(s, t, a); }
      BackendKept(s, t);
    }
  }

  lemma OrderedStored(s: State, t: State, c: Chain)
    requires LogOk(s) && Newest(s) && Ordered(s) && t.records == s.records
    requires c in s.workers && Owns(s, c) && WorkerOk(s, s.workers[c]) && RowsOk(s)
    requires t.log == s.log + [Entry(s.workers[c].id, s.workers[c].key, s.records[s.workers[c].id].data)]
    ensures Ordered(t)
  {
    var w := s.workers[c];
    assert LiveRow(s, w.id);
    forall i, j | 0 <= i < j < |t.log| && t.log[i].key == t.log[j].key
      ensures Serial(t, t.log[i].id) <= Serial(t, t.log[j].id)
    {
      assert EntryOk(s, s.log[i]);
      if j < |s.log| { assert Serial(s, s.log[i].id) <= Serial(s, s.log[j].id); }
    }
  }

  lemma OrderedKept(s: State, t: State)
    requires LogOk(s) && Ordered(s) && Evolves(s, t) && t.log == s.log
    ensures Ordered(t)
  {
    forall i | 0 <= i < |t.log| ensures Serial(t, t.log[i].id) == Serial(s, s.log[i].id) {
      assert EntryOk(s, s.log[i]);
    }
  }

  lemma EffectOrdered(s: State, t: State, a: Action)
    requires Inv(s) && Newest(s) && Owners(s) && Ordered(s) && StepEffect(s, t, a) && Evolves(s, t)
    requires t.log != s.log ==> a.Work? && InTime(s, s.workers[a.c])
    ensures Ordered(t)
  {
    if t.log == s.log {
      OrderedKept(s, t);
    } else {
      assert CanStore(s, a.c) && WorkerOk(s, s.workers[a.c]);
      OrderedStored(s, t, a.c);
    }
  }

  ghost predicate OrderInv(s: State) {
    Inv(s) && ClaimInv(s) && SectionInv(s) && Newest(s) && HistoryOk(s)
  }

  lemma StepOrderInv(s: State, a: Action)
    requires OrderInv(s) && Exclusive(s, a)
    ensures OrderInv(Step(s, a))
  {
    StepInv(s, a);
    StepClaims(s, a);
    StepSection(s, a);
    StepHasEffect(s, a);
    if Step(s, a) != s {
      if a.EnqueueNext? { assert EnqueueOk(s, s.enqueues[a.p]); }
      EffectNewest(s, Step(s, a), a);
      EffectSerials(s, Step(s, a), a);
      EffectBackend(s, Step(s, a), a);
    }
  }

  lemma OnlyOkStores(s: State, a: Action)
    requires Step(s, a).log != s.log
    ensures a.Work? && a.c in s.workers && s.workers[a.c].pc.Writing? && a.choice.Ok?
  {
    StepHasEffect(s, a);
    OnlyWorkersStore(s, Step(s, a), a);
    if !a.choice.Ok? { FailedWriteStoresNothing(s, a.c, a.choice); }
  }

  lemma OnlyWorkersStore(s: State, t: State, a: Action)
    requires StepEffect(s, t, a)
    ensures t.log == s.log || (a.Work? && s.workers[a.c].pc.Writing?)
  {
    if a.Work? {
      WorkerTends(s, t, a.c);
    } else if a.EnqueueNext? {
      RequestStoresNothing(s, t, a.p);
    } else {
      OthersTend(s, t, a);
    }
  }

  lemma FailedWriteStoresNothing(s: State, c: Chain, choice: Choice)
    requires c in s.workers && s.workers[c].pc.Writing? && !choice.Ok?
    ensures WorkStep(s, c, choice).log == s.log
  {
    if choice.Error? {
      assert WorkStep(s, c, choice) == Goto(s, c, WriteFailed);
    } else {
      assert WorkStep(s, c, choice) == Goto(s, c, Failing);
    }
  }

  lemma StepOrdered(s: State, a: Action)
    requires OrderInv(s) && Owners(s) && Ordered(s) && Exclusive(s, a) && TimelyStore(s, a) && NoSteal(s, a)
    ensures Owners(Step(s, a)) && Ordered(Step(s, a))
  {
    StepHasEffect(s, a);
    if Step(s, a) != s {
      StepInv(s, a);
      EffectOwners(s, Step(s, a), a);
      if Step(s, a).log != s.log { OnlyOkStores(s, a); }
      EffectOrdered(s, Step(s, a), a);
    }
  }

  lemma {:induction false} RunOrdered(s: State, run: seq<Action>)
    requires OrderInv(s) && Owners(s) && Ordered(s) && LegalRun(s, run) && NoSteals(s, run)
    ensures OrderInv(Exec(s, run)) && Owners(Exec(s, run)) && Ordered(Exec(s, run))
    decreases |run|
  {
    if run != [] {
      StepOrderInv(s, run[0]);
      StepOrdered(s, run[0]);
      RunOrdered(Step(s, run[0]), run[1..]);
    }
  }

  lemma InitOrdered(now: int, stale: nat)
    ensures OrderInv(Init(now, stale)) && Owners(Init(now, stale)) && Ordered(Init(now, stale))
  {
    InitInv(now, stale);
    forall c ensures Holds(Init(now, stale), c).None? {}
    forall c ensures !CanStore(Init(now, stale), c) {}
  }

  /** Completed writes to one path happen in record-creation order. */
  lemma WritesFollowCreationOrder(now: int, stale: nat, run: seq<Action>)
    requires LegalRun(Init(now, stale), run) && NoSteals(Init(now, stale), run)
    ensures Ordered(Exec(Init(now, stale), run))
  {
    InitOrdered(now, stale);
    RunOrdered(Init(now, stale), run);
  }

  lemma {:induction false} LastFrom(s: State, i: nat) returns (k: nat)
    requires i < |s.log|
    ensures i <= k && LastEntry(s, k) && s.log[k].key == s.log[i].key
    decreases |s.log| - i
  {
    if j :| i < j < |s.log| && s.log[j].key == s.log[i].key {
      k := LastFrom(s, j);
    } else {
      k := i;
    }
  }

  lemma LastIsNewest(s: State, i: nat)
    requires RowsOk(s) && LogOk(s) && HistoryOk(s) && Ordered(s) && i < |s.log|
    requires forall j ::
               0 <= j < |s.log| && s.log[j].key == s.log[i].key ==> Serial(s, s.log[j].id) <= Serial(s, s.log[i].id)
    ensures s.log[i].key in s.backend && s.backend[s.log[i].key] == s.log[i].data
  {
    var k := LastFrom(s, i);
    assert EntryOk(s, s.log[i]) && EntryOk(s, s.log[k]);
    assert Serial(s, s.log[k].id) == Serial(s, s.log[i].id);
  }

  /** So the backend holds the bytes of the newest record of the path that completed a write. */
  lemma BackendHoldsNewestWrite(now: int, stale: nat, run: seq<Action>, i: nat)
    requires LegalRun(Init(now, stale), run) && NoSteals(Init(now, stale), run)
    requires var s := Exec(Init(now, stale), run);
             && i < |s.log|
             && (forall j :: 0 <= j < |s.log| && s.log[j].key == s.log[i].key ==>
                   Serial(s, s.log[j].id) <= Serial(s, s.log[i].id))
    ensures var s := Exec(Init(now, stale), run);
            && s.log[i].id in s.records && s.log[i].key in s.backend
            && s.backend[s.log[i].key] == s.records[s.log[i].id].data
  {
    var s := Exec(Init(now, stale), run);
    InitOrdered(now, stale);
    RunOrdered(Init(now, stale), run);
    LastIsNewest(s, i);
    assert EntryOk(s, s.log[i]);
  }
}
