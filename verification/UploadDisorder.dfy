/**
 Runs that break the write order.  The same two building blocks, a request that publishes an upload
 and a worker that carries it to its backend write, give the two ways a row can be stolen and the
 continuation that turns any steal into an overwritten newer file; and so the exact condition for the
 order.
 */
module UploadDisorder {
  import opened Basics
  import opened UploadProtocol
  import opened UploadInvariants
  import opened UploadOrder
  import opened UploadWrites
  import opened UploadSteals

  /** A legal run that contains no final status update and no rollback. */
  ghost predicate Reaches(s: State, run: seq<Action>, t: State) {
    LegalRun(s, run) && CalmRun(s, run) && Exec(s, run) == t
  }

  ghost predicate Idle(s: State) { forall p :: !InSection(s, p) }

  lemma {:induction false} LegalConcat(s: State, run: seq<Action>, more: seq<Action>)
    ensures LegalRun(s, run + more) <==> LegalRun(s, run) && LegalRun(Exec(s, run), more)
    ensures CalmRun(s, run + more) <==> CalmRun(s, run) && CalmRun(Exec(s, run), more)
    decreases |run|
  {
    if run == [] {
      assert run + more == more;
    } else {
      assert (run + more)[1..] == run[1..] + more;
      LegalConcat(Step(s, run[0]), run[1..], more);
    }
  }

  lemma Join(s: State, run: seq<Action>, t: State, more: seq<Action>, u: State)
    requires Reaches(s, run, t) && Reaches(t, more, u)
    ensures Reaches(s, run + more, u)
  {
    LegalConcat(s, run, more);
    ExecConcat(s, run, more);
  }

  lemma Then(s: State, run: seq<Action>, t: State, a: Action, u: State)
    requires Reaches(s, run, t) && Exclusive(t, a) && TimelyStore(t, a) && Calm(t, a) && Step(t, a) == u
    ensures Reaches(s, run + [a], u)
  {
    assert [a][1..] == [];
    assert Exec(u, []) == u && ExclusiveRun(u, []) && TimelyRun(u, []) && CalmRun(u, []);
    Join(s, run, t, [a], u);
  }

  /* ---------------------------------- a request that publishes ---------------------------------- */

  function RequestAt(u: State, p: Pid, e: Enqueue): State {
    u.(enqueues := u.enqueues[p := e], ids := u.ids + {e.id})
  }

  lemma NextRequestAt(u: State, p: Pid, e: Enqueue, pc: EnqueuePc)
    ensures At(RequestAt(u, p, e), p, pc) == RequestAt(u, p, e.(pc := pc))
  {
    assert u.enqueues[p := e][p := e.(pc := pc)] == u.enqueues[p := e.(pc := pc)];
  }

  lemma OnlySection(u: State, s: State, p: Pid)
    requires Idle(u) && s.enqueues.Keys <= u.enqueues.Keys + {p}
    requires forall q <- s.enqueues :: q != p ==> q in u.enqueues && s.enqueues[q] == u.enqueues[q]
    ensures forall d: nat :: Exclusive(s, EnqueueNext(p, Ok, d))
    ensures !InSection(s, p) ==> Idle(s)
  {
    forall q | InSection(s, q) ensures q == p { assert !InSection(u, q); }
  }

  /** One action of a request that only moves its program counter. */
  lemma RequestSteps(u: State, run: seq<Action>, p: Pid, e: Enqueue, pc: EnqueuePc)
    requires Idle(u) && Reaches(u, run, RequestAt(u, p, e)) && !e.pc.Deleting?
    requires EnqueueStep(RequestAt(u, p, e), p, Ok, 0) == At(RequestAt(u, p, e), p, pc)
    ensures Reaches(u, run + [EnqueueNext(p, Ok, 0)], RequestAt(u, p, e.(pc := pc)))
  {
    NextRequestAt(u, p, e, pc);
    OnlySection(u, RequestAt(u, p, e), p);
    Then(u, run, RequestAt(u, p, e), EnqueueNext(p, Ok, 0), RequestAt(u, p, e.(pc := pc)));
  }

  lemma RequestLooks(u: State, p: Pid, key: Key, data: Bytes, id: Id) returns (run: seq<Action>)
    requires Idle(u) && p !in u.enqueues && id !in u.ids && forall i :: !LiveAt(u, i, key)
    ensures Reaches(u, run, RequestAt(u, p, Enqueue(key, data, id, NoFresh)))
  {
    var cutoff := u.now - u.stale;
    var e := Enqueue(key, data, id, LookingUp(cutoff));
    assert Reaches(u, [], u);
    Then(u, [], u, EnqueueStart(p, key, data, id), RequestAt(u, p, e));
    run := [EnqueueStart(p, key, data, id)];
    assert [] + run == run;
    forall i | i in u.rows ensures !FreshRow(u.rows[i], key, cutoff) { assert !LiveAt(u, i, key); }
    assert !AnyFresh(RequestAt(u, p, e), key, cutoff);
    RequestSteps(u, run, p, e, NoFresh);
    run := run + [EnqueueNext(p, Ok, 0)];
  }

  lemma RequestBuffers(u: State, p: Pid, key: Key, data: Bytes, id: Id) returns (run: seq<Action>)
    requires Idle(u) && p !in u.enqueues && id !in u.ids && forall i :: !LiveAt(u, i, key)
    ensures Reaches(u, run, RequestAt(u, p, Enqueue(key, data, id, Buffering)))
  {
    var cutoff := u.now - u.stale;
    var e := Enqueue(key, data, id, NoFresh);
    run := RequestLooks(u, p, key, data, id);
    RequestSteps(u, run, p, e, CancelCutoff(cutoff));
    run := run + [EnqueueNext(p, Ok, 0)];
    forall i | i in u.rows ensures !Cancellable(u.rows[i], key, cutoff) { assert !LiveAt(u, i, key); }
    assert Selected(RequestAt(u, p, e.(pc := CancelCutoff(cutoff))), key, cutoff) == {};
    RequestSteps(u, run, p, e.(pc := CancelCutoff(cutoff)), Cancelling({}));
    run := run + [EnqueueNext(p, Ok, 0)];
    RequestSteps(u, run, p, e.(pc := Cancelling({})), Buffering);
    run := run + [EnqueueNext(p, Ok, 0)];
  }

  /** After a request for a path without live rows has published its upload. */
  function PublishedBy(u: State, p: Pid, key: Key, data: Bytes, id: Id, d: Chain): State {
    u.(enqueues := u.enqueues[p := Enqueue(key, data, id, Tagging)], ids := u.ids + {id},
       files := u.files[id := data], rows := u.rows[id := Row(key, Pending, None, u.now)],
       records := u.records[id := Record(key, data, |u.records|)],
       queue := u.queue[d := Message(id, 0, None, 0)], chains := u.chains + {d})
  }

  function CreatedBy(u: State, p: Pid, key: Key, data: Bytes, id: Id): State {
    u.(enqueues := u.enqueues[p := Enqueue(key, data, id, Dispatching)], ids := u.ids + {id},
       files := u.files[id := data], rows := u.rows[id := Row(key, Pending, None, u.now)],
       records := u.records[id := Record(key, data, |u.records|)])
  }

  function BufferedBy(u: State, p: Pid, key: Key, data: Bytes, id: Id): State {
    RequestAt(u, p, Enqueue(key, data, id, Creating)).(files := u.files[id := data])
  }

  lemma BufferingStep(u: State, p: Pid, key: Key, data: Bytes, id: Id)
    ensures Step(RequestAt(u, p, Enqueue(key, data, id, Buffering)), EnqueueNext(p, Ok, 0))
            == BufferedBy(u, p, key, data, id)
  {
    NextRequestAt(u, p, Enqueue(key, data, id, Buffering), Creating);
  }

  lemma CreatingStep(u: State, p: Pid, key: Key, data: Bytes, id: Id)
    ensures Step(BufferedBy(u, p, key, data, id), EnqueueNext(p, Ok, 0)) == CreatedBy(u, p, key, data, id)
  {
    NextRequestAt(u, p, Enqueue(key, data, id, Creating), Dispatching);
  }

  lemma PublishingStep(u: State, p: Pid, key: Key, data: Bytes, id: Id, d: Chain)
    requires d !in u.chains
    ensures Step(CreatedBy(u, p, key, data, id), EnqueueNext(p, Ok, d)) == PublishedBy(u, p, key, data, id, d)
  {
    NextRequestAt(u, p, Enqueue(key, data, id, Dispatching), Tagging);
  }

  lemma RequestCreates(u: State, p: Pid, key: Key, data: Bytes, id: Id) returns (run: seq<Action>)
    requires Idle(u) && p !in u.enqueues && id !in u.ids && forall i :: !LiveAt(u, i, key)
    ensures Reaches(u, run, CreatedBy(u, p, key, data, id))
  {
    run := RequestBuffers(u, p, key, data, id);
    BufferingStep(u, p, key, data, id);
    OnlySection(u, RequestAt(u, p, Enqueue(key, data, id, Buffering)), p);
    Then(u, run, RequestAt(u, p, Enqueue(key, data, id, Buffering)), EnqueueNext(p, Ok, 0),
        BufferedBy(u, p, key, data, id));
    run := run + [EnqueueNext(p, Ok, 0)];
    CreatingStep(u, p, key, data, id);
    OnlySection(u, BufferedBy(u, p, key, data, id), p);
    Then(u, run, BufferedBy(u, p, key, data, id), EnqueueNext(p, Ok, 0), CreatedBy(u, p, key, data, id));
    run := run + [EnqueueNext(p, Ok, 0)];
  }

  lemma PublishedIdle(u: State, p: Pid, key: Key, data: Bytes, id: Id, d: Chain)
    requires Idle(u)
    ensures Idle(PublishedBy(u, p, key, data, id, d))
  {
    forall q ensures !InSection(PublishedBy(u, p, key, data, id, d), q) { assert !InSection(u, q); }
  }

  lemma RequestPublishes(u: State, p: Pid, key: Key, data: Bytes, id: Id, d: Chain) returns (run: seq<Action>)
    requires Idle(u) && p !in u.enqueues && id !in u.ids && d !in u.chains && forall i :: !LiveAt(u, i, key)
    ensures Reaches(u, run, PublishedBy(u, p, key, data, id, d)) && Idle(PublishedBy(u, p, key, data, id, d))
  {
    run := RequestCreates(u, p, key, data, id);
    PublishingStep(u, p, key, data, id, d);
    OnlySection(u, CreatedBy(u, p, key, data, id), p);
    Then(u, run, CreatedBy(u, p, key, data, id), EnqueueNext(p, Ok, d), PublishedBy(u, p, key, data, id, d));
    run := run + [EnqueueNext(p, Ok, d)];
    PublishedIdle(u, p, key, data, id, d);
  }

  /* ------------------------------ a worker up to its backend write ------------------------------ */

  function Working(u: State, d: Chain, w: Worker): State {
    u.(queue := u.queue - {d}, workers := u.workers[d := w])
  }

  function Claimed(u: State, id: Id): State
    requires id in u.rows
  {
    u.(rows := u.rows[id := u.rows[id].(status := Uploading, claimedAt := Some(u.now))],
       claimLog := u.claimLog + [Claim(id, u.now)])
  }

  lemma NextWorking(u: State, d: Chain, w: Worker, pc: WorkerPc)
    ensures Goto(Working(u, d, w), d, pc) == Working(u, d, w.(pc := pc))
  {
    assert u.workers[d := w][d := w.(pc := pc)] == u.workers[d := w.(pc := pc)];
  }

  /** One action of a worker that only moves its program counter. */
  lemma WorkerMoves(s: State, run: seq<Action>, u: State, d: Chain, w: Worker, pc: WorkerPc)
    requires Idle(u) && Reaches(s, run, Working(u, d, w))
    requires !w.pc.Writing? && !w.pc.Failing? && !w.pc.Finishing?
    requires WorkStep(Working(u, d, w), d, Ok) == Goto(Working(u, d, w), d, pc)
    ensures Reaches(s, run + [Work(d, Ok)], Working(u, d, w.(pc := pc)))
  {
    NextWorking(u, d, w, pc);
    assert forall p :: InSection(Working(u, d, w), p) == InSection(u, p);
    Then(s, run, Working(u, d, w), Work(d, Ok), Working(u, d, w.(pc := pc)));
  }

  lemma WorkerClaims(u: State, d: Chain, id: Id) returns (run: seq<Action>)
    requires Idle(u) && d in u.queue && u.queue[d] == Message(id, 0, None, 0) && HasStatus(u, id, Pending)
    ensures Reaches(u, run, Working(Claimed(u, id), d, Worker(id, u.rows[id].key, 0, Some(u.now), 0, Owner)))
  {
    var r := u.rows[id];
    var w := Worker(id, r.key, 0, None, 0, Fetched(Pending, r.claimedAt));
    assert Reaches(u, [], u);
    Then(u, [], u, Deliver(d), Working(u, d, w));
    run := [Deliver(d)];
    assert [] + run == run;
    var pc := CutoffRead(Pending, r.claimedAt, u.now - u.stale);
    WorkerMoves(u, run, u, d, w, pc);
    run := run + [Work(d, Ok)];
    var w1 := Worker(id, r.key, 0, Some(u.now), 0, Owner);
    assert u.workers[d := w.(pc := pc)][d := w1] == u.workers[d := w1];
    assert forall p :: InSection(Working(u, d, w.(pc := pc)), p) == InSection(u, p);
    Then(u, run, Working(u, d, w.(pc := pc)), Work(d, Ok), Working(Claimed(u, id), d, w1));
    run := run + [Work(d, Ok)];
  }

  /** After worker `d` has claimed the row and opened the temp file. */
  function AtWrite(u: State, d: Chain, id: Id): State
    requires id in u.rows && id in u.files
  {
    Working(Claimed(u, id), d, Worker(id, u.rows[id].key, 0, Some(u.now), 0, Writing(u.files[id])))
  }

  lemma WorkerChecks(u: State, d: Chain, id: Id) returns (run: seq<Action>)
    requires Idle(u) && d in u.queue && u.queue[d] == Message(id, 0, None, 0) && HasStatus(u, id, Pending)
             && id in u.files
    ensures Reaches(u, run, Working(Claimed(u, id), d, Worker(id, u.rows[id].key, 0, Some(u.now), 0, BackendFound)))
    ensures Idle(Claimed(u, id))
  {
    var w := Worker(id, u.rows[id].key, 0, Some(u.now), 0, Owner);
    var v := Claimed(u, id);
    assert forall p :: InSection(v, p) == InSection(u, p);
    run := WorkerClaims(u, d, id);
    WorkerMoves(u, run, v, d, w, TempSeen);
    run := run + [Work(d, Ok)];
    WorkerMoves(u, run, v, d, w.(pc := TempSeen), BackendFound);
    run := run + [Work(d, Ok)];
  }

  lemma WorkerWrites(u: State, d: Chain, id: Id) returns (run: seq<Action>)
    requires Idle(u) && d in u.queue && u.queue[d] == Message(id, 0, None, 0) && HasStatus(u, id, Pending)
             && id in u.files
    ensures Reaches(u, run, AtWrite(u, d, id)) && Idle(AtWrite(u, d, id))
  {
    var w := Worker(id, u.rows[id].key, 0, Some(u.now), 0, BackendFound);
    var v := Claimed(u, id);
    run := WorkerChecks(u, d, id);
    WorkerMoves(u, run, v, d, w, Rechecked);
    run := run + [Work(d, Ok)];
    WorkerMoves(u, run, v, d, w.(pc := Rechecked), Writing(u.files[id]));
    run := run + [Work(d, Ok)];
    assert forall p :: InSection(AtWrite(u, d, id), p) == InSection(u, p);
  }

  /** The bytes reach the backend. */
  lemma WorkerStores(u: State, d: Chain) returns (v: State)
    requires Idle(u) && CanStore(u, d) && u.workers[d].pc.Writing?
    ensures Reaches(u, [Work(d, Ok)], v)
    ensures v == StoreStep(u, d) && Idle(v)
  {
    v := StoreStep(u, d);
    assert Reaches(u, [], u);
    Then(u, [], u, Work(d, Ok), v);
    assert [] + [Work(d, Ok)] == [Work(d, Ok)];
    assert forall p :: InSection(v, p) == InSection(u, p);
  }

  lemma WorkerOpens(u: State, c: Chain) returns (v: State)
    requires Idle(u) && CanStore(u, c) && u.workers[c].pc.Rechecked?
    ensures Reaches(u, [Work(c, Ok)], v) && v == Goto(u, c, Writing(u.files[u.workers[c].id]))
    ensures Idle(v) && CanStore(v, c)
  {
    v := Goto(u, c, Writing(u.files[u.workers[c].id]));
    assert Reaches(u, [], u);
    Then(u, [], u, Work(c, Ok), v);
    assert [] + [Work(c, Ok)] == [Work(c, Ok)];
    assert forall p :: InSection(v, p) == InSection(u, p);
  }

  /* -------------------------------- from a steal to disorder -------------------------------- */

  lemma UploadGetsToWrite(t: State, p: Pid, key: Key, id: Id, d: Chain) returns (run: seq<Action>)
    requires Idle(t) && p !in t.enqueues && id !in t.ids && d !in t.chains && forall i :: !LiveAt(t, i, key)
    ensures var u := AtWrite(PublishedBy(t, p, key, [], id, d), d, id); Reaches(t, run, u) && Idle(u)
  {
    run := RequestPublishes(t, p, key, [], id, d);
    var u := PublishedBy(t, p, key, [], id, d);
    var more := WorkerWrites(u, d, id);
    Join(t, run, u, more, AtWrite(u, d, id));
    run := run + more;
  }

  /** The last stored entry is of the worker's path, and of a newer record than the worker's. */
  ghost predicate NewerLast(u: State, c: Chain)
    requires c in u.workers
  {
    && |u.log| > 0 && u.log[|u.log| - 1].key == u.workers[c].key
    && u.workers[c].id in u.records && Serial(u, u.workers[c].id) < Serial(u, u.log[|u.log| - 1].id)
  }

  lemma StoredLast(t: State, c: Chain, p: Pid, key: Key, id: Id, d: Chain)
    requires RowsOk(t) && CanStore(t, c) && c in t.chains && c != d && id !in t.records
    requires t.workers[c].id in t.records && t.workers[c].key == key
    ensures var u := StoreStep(AtWrite(PublishedBy(t, p, key, [], id, d), d, id), d);
            CanStore(u, c) && u.workers[c] == t.workers[c] && NewerLast(u, c)
  {}

  lemma NewUploadIsStored(t: State, p: Pid, key: Key, id: Id, d: Chain) returns (run: seq<Action>, u: State)
    requires Idle(t) && p !in t.enqueues && id !in t.ids && d !in t.chains && forall i :: !LiveAt(t, i, key)
    ensures u == StoreStep(AtWrite(PublishedBy(t, p, key, [], id, d), d, id), d)
    ensures Reaches(t, run, u) && Idle(u)
  {
    run := UploadGetsToWrite(t, p, key, id, d);
    var v := AtWrite(PublishedBy(t, p, key, [], id, d), d, id);
    u := WorkerStores(v, d);
    Join(t, run, v, [Work(d, Ok)], u);
    run := run + [Work(d, Ok)];
  }

  lemma WriterIsKnown(t: State, c: Chain)
    requires Inv(t) && CanStore(t, c)
    ensures c in t.chains && t.workers[c].id in t.records && t.records.Keys <= t.ids
  {
    assert WorkerOk(t, t.workers[c]);
  }

  /** A newer upload of the worker's path gets stored while the worker is still at its write. */
  lemma NewerIsStored(t: State, c: Chain) returns (run: seq<Action>, u: State)
    requires Inv(t) && Idle(t) && CanStore(t, c) && forall i :: !LiveAt(t, i, t.workers[c].key)
    ensures Reaches(t, run, u) && Idle(u) && CanStore(u, c) && u.workers[c] == t.workers[c] && NewerLast(u, c)
  {
    var p := FreshNat(t.enqueues.Keys);
    var id := FreshNat(t.ids);
    var d := FreshNat(t.chains);
    WriterIsKnown(t, c);
    run, u := NewUploadIsStored(t, p, t.workers[c].key, id, d);
    StoredLast(t, c, p, t.workers[c].key, id, d);
  }

  lemma OlderIsStored(u: State, c: Chain) returns (run: seq<Action>)
    requires Idle(u) && CanStore(u, c) && NewerLast(u, c)
    ensures LegalRun(u, run) && CalmRun(u, run) && !Ordered(Exec(u, run))
  {
    if u.workers[c].pc.Writing? {
      var v := WorkerStores(u, c);
      run := [Work(c, Ok)];
      StoredOutOfOrder(u, v, c);
    } else {
      var v := WorkerOpens(u, c);
      var w := WorkerStores(v, c);
      run := [Work(c, Ok)] + [Work(c, Ok)];
      Join(u, [Work(c, Ok)], v, [Work(c, Ok)], w);
      StoredOutOfOrder(v, w, c);
    }
  }

  lemma StoredOutOfOrder(u: State, v: State, c: Chain)
    requires c in u.workers && u.workers[c].pc.Writing? && v == StoreStep(u, c) && NewerLast(u, c)
    ensures !Ordered(v)
  {
    var i := |u.log| - 1;
    assert v.log[i] == u.log[i] && v.log[i + 1].id == u.workers[c].id;
  }

  lemma StolenSection(s: State, t: State, a: Action, id: Id)
    requires Exclusive(s, a) && StepEffect(s, t, a) && (LateFinish(s, a, id) || LateRollback(s, a, id))
    ensures Idle(t)
  {
    forall p ensures !InSection(t, p) { assert InSection(s, p) ==> false; }
  }

  lemma KeyOfWorker(s: State, t: State, a: Action, c: Chain)
    requires StepEffect(s, t, a) && c in s.workers && c in t.workers && !a.Deliver?
    ensures t.workers[c].key == s.workers[c].key && t.workers[c].id == s.workers[c].id
  {}

  lemma StealsCreateNothing(s: State, t: State, a: Action, id: Id)
    requires StepEffect(s, t, a) && (LateFinish(s, a, id) || LateRollback(s, a, id))
    ensures t.records == s.records
  {
    if a.Work? { WorkerTends(s, t, a.c); } else { RollbackCreatesNothing(s, t, a.p); }
  }

  lemma RollbackCreatesNothing(s: State, t: State, p: Pid)
    requires p in s.enqueues && RequestEffect(s, t, p) && s.enqueues[p].pc.Deleting?
    ensures t.records == s.records
  {}

  lemma LiveAtBefore(s: State, t: State, a: Action, i: Id, id: Id)
    requires RowsOk(s) && RowsOk(t) && Evolves(s, t) && OneLive(s) && StepEffect(s, t, a)
             && (LateFinish(s, a, id) || LateRollback(s, a, id))
    requires LiveRow(s, id) && LiveRow(t, i) && t.rows[i].key == s.rows[id].key
    ensures i == id
  {
    StealsCreateNothing(s, t, a, id);
    LiveBefore(s, t, i);
  }

  lemma EffectMakesRoom(s: State, t: State, a: Action, c: Chain)
    requires RowsOk(s) && RowsOk(t) && Evolves(s, t) && OneLive(s) && Exclusive(s, a) && StepEffect(s, t, a)
    requires StealsFrom(s, t, c) && WorkerOk(s, s.workers[c])
    requires LateFinish(s, a, s.workers[c].id) || LateRollback(s, a, s.workers[c].id)
    ensures Idle(t) && forall i :: !LiveAt(t, i, t.workers[c].key)
  {
    var id := s.workers[c].id;
    StolenSection(s, t, a, id);
    KeyOfWorker(s, t, a, c);
    forall i | LiveAt(t, i, t.workers[c].key) ensures false {
      LiveAtBefore(s, t, a, i, id);
    }
  }

  lemma StealMakesRoom(s: State, a: Action, c: Chain)
    requires OrderInv(s) && Exclusive(s, a) && StealsFrom(s, Step(s, a), c)
    ensures Idle(Step(s, a)) && forall i :: !LiveAt(Step(s, a), i, Step(s, a).workers[c].key)
  {
    StealKinds(s, a, c);
    StepHasEffect(s, a);
    StepInv(s, a);
    assert WorkerOk(s, s.workers[c]);
    EffectMakesRoom(s, Step(s, a), a, c);
  }

  /** Once a row has been stolen, order can be lost without any further steal. */
  lemma StealLeadsToDisorder(s: State, a: Action, c: Chain) returns (more: seq<Action>)
    requires OrderInv(s) && Exclusive(s, a) && StealsFrom(s, Step(s, a), c)
    ensures LegalRun(Step(s, a), more) && NoSteals(Step(s, a), more) && !Ordered(Exec(Step(s, a), more))
  {
    var t := Step(s, a);
    StepOrderInv(s, a);
    StealMakesRoom(s, a, c);
    var run, u := NewerIsStored(t, c);
    var last := OlderIsStored(u, c);
    LegalConcat(t, run, last);
    ExecConcat(t, run, last);
    more := run + last;
    CalmRunsStealNothing(t, more);
  }

  /** As long as nobody steals from here on, writes stay in creation order. */
  ghost predicate OrderSafe(s: State) {
    forall more :: LegalRun(s, more) && NoSteals(s, more) ==> Ordered(Exec(s, more))
  }

  lemma NoStealExactly(s: State, a: Action)
    requires OrderInv(s) && Owners(s) && Exclusive(s, a)
    ensures NoSteal(s, a) <==> forall c :: CanStore(s, c) ==> !TakesRow(s, a, c)
  {
    forall c | CanStore(s, c) ensures StealsFrom(s, Step(s, a), c) <==> TakesRow(s, a, c) { StealsExactly(s, a, c); }
  }

  /** The exact condition for one action, checked before it: it leaves the order safe if and only if it
      is no final update and no rollback of a row that another worker is still going to store. */
  lemma StepKeepsOrderExactly(s: State, a: Action)
    requires OrderInv(s) && Owners(s) && Ordered(s) && Exclusive(s, a) && TimelyStore(s, a)
    ensures OrderSafe(Step(s, a)) <==> forall c :: CanStore(s, c) ==> !TakesRow(s, a, c)
    ensures OrderSafe(Step(s, a)) <==> NoSteal(s, a)
  {
    NoStealExactly(s, a);
    if NoSteal(s, a) {
      StepOrderInv(s, a);
      StepOrdered(s, a);
      OwnersAreSafe(Step(s, a));
    } else {
      var c :| StealsFrom(s, Step(s, a), c);
      var more := StealLeadsToDisorder(s, a, c);
    }
  }

  lemma OwnersAreSafe(s: State)
    requires OrderInv(s) && Owners(s) && Ordered(s)
    ensures OrderSafe(s)
  {
    forall more | LegalRun(s, more) && NoSteals(s, more) ensures Ordered(Exec(s, more)) { RunOrdered(s, more); }
  }

  /** Order is safe before and after every action of the run. */
  ghost predicate SafeRun(s: State, run: seq<Action>)
    decreases |run|
  {
    OrderSafe(s) && (run != [] ==> SafeRun(Step(s, run[0]), run[1..]))
  }

  lemma {:induction false} SafeExactlyWithoutSteals(s: State, run: seq<Action>)
    requires OrderInv(s) && Owners(s) && Ordered(s) && LegalRun(s, run)
    ensures SafeRun(s, run) <==> NoSteals(s, run)
    decreases |run|
  {
    OwnersAreSafe(s);
    if run != [] {
      StepKeepsOrderExactly(s, run[0]);
      if NoSteal(s, run[0]) {
        StepOrderInv(s, run[0]);
        StepOrdered(s, run[0]);
        SafeExactlyWithoutSteals(Step(s, run[0]), run[1..]);
      }
    }
  }

  /** The exact condition for a run: the order is safe all along a legal run if and only if none of its
      actions steals a row from its writer. */
  lemma OrderSafeExactlyWithoutSteals(now: int, stale: nat, run: seq<Action>)
    requires LegalRun(Init(now, stale), run)
    ensures SafeRun(Init(now, stale), run) <==> NoSteals(Init(now, stale), run)
  {
    InitOrdered(now, stale);
    SafeExactlyWithoutSteals(Init(now, stale), run);
  }

  /* ---------------------------------- both kinds of steal happen ---------------------------------- */

  const PATH := Key(1, "connection", "path")

  /** One upload, published and carried to its backend write. */
  lemma FirstUploadWrites(now: int, stale: nat) returns (run: seq<Action>, u: State)
    ensures Reaches(Init(now, stale), run, u)
    ensures u == AtWrite(PublishedBy(Init(now, stale), 1, PATH, [], 1, 1), 1, 1) && Idle(u)
  {
    run := UploadGetsToWrite(Init(now, stale), 1, PATH, 1, 1);
    u := AtWrite(PublishedBy(Init(now, stale), 1, PATH, [], 1, 1), 1, 1);
  }

  /** Saving the Celery id fails after the message went out: the request deletes the row of a worker that
      is writing it. */
  lemma RollbackCanSteal(now: int, stale: nat) returns (run: seq<Action>, a: Action, c: Chain)
    ensures var s := Exec(Init(now, stale), run);
            && LegalRun(Init(now, stale), run) && Exclusive(s, a) && TimelyStore(s, a)
            && StealsFrom(s, Step(s, a), c) && LateRollback(s, a, s.workers[c].id)
  {
    var u;
    run, u := FirstUploadWrites(now, stale);
    var v := At(u, 1, Deleting);
    Then(Init(now, stale), run, u, EnqueueNext(1, Error, 0), v);
    run := run + [EnqueueNext(1, Error, 0)];
    a, c := EnqueueNext(1, Ok, 0), 1;
    DeletingSteals(v, 1, 1);
    assert forall p :: InSection(v, p) ==> p == 1;
  }

  lemma DeletingSteals(v: State, p: Pid, c: Chain)
    requires p in v.enqueues && v.enqueues[p].pc.Deleting? && CanStore(v, c) && Owns(v, c)
    requires v.enqueues[p].id == v.workers[c].id && v.workers[c].pc.Writing?
    ensures StealsFrom(v, Step(v, EnqueueNext(p, Ok, 0)), c)
  {
    assert Step(v, EnqueueNext(p, Ok, 0)) == DeleteRow(v, p);
  }

  lemma CommandMoves(s: State, run: seq<Action>, u: State, a: Action, v: State)
    requires Reaches(s, run, u) && Idle(u) && (a.RecoverStart? || a.RecoverNext? || a.Tick?) && Step(u, a) == v
    requires v.enqueues == u.enqueues
    ensures Reaches(s, run + [a], v) && Idle(v)
  {
    Then(s, run, u, a, v);
    assert forall p :: InSection(v, p) == InSection(u, p);
  }

  function Recovered(u: State, r: Recovery): State {
    u.(rows := ResetStale(u.rows, u.now - u.stale), recoveries := map[1 := r])
  }

  lemma RecoveryResetsStep(u: State, u1: State)
    requires u1 == u.(recoveries := map[1 := Resetting(u.now - u.stale)])
    ensures Step(u1, RecoverNext(1, Ok, 0, 0)) == Recovered(u, Listing)
  {
    assert u1.recoveries[1 := Listing] == map[1 := Listing];
  }

  lemma RecoveryResets(s: State, run: seq<Action>, u: State) returns (run': seq<Action>)
    requires Reaches(s, run, u) && Idle(u) && u.recoveries == map[]
    ensures Reaches(s, run', Recovered(u, Listing)) && Idle(Recovered(u, Listing))
  {
    var u1 := u.(recoveries := map[1 := Resetting(u.now - u.stale)]);
    CommandMoves(s, run, u, RecoverStart(1), u1);
    run' := run + [RecoverStart(1)];
    RecoveryResetsStep(u, u1);
    CommandMoves(s, run', u1, RecoverNext(1, Ok, 0, 0), Recovered(u, Listing));
    run' := run' + [RecoverNext(1, Ok, 0, 0)];
  }

  lemma RecoveryListsStep(u: State, v: State)
    requires v == Recovered(u, Dispatches(PendingIds(ResetStale(u.rows, u.now - u.stale))))
    ensures Step(Recovered(u, Listing), RecoverNext(1, Ok, 0, 0)) == v
  {
    assert map[1 := Listing][1 := v.recoveries[1]] == v.recoveries;
  }

  lemma RecoveryLists(s: State, run: seq<Action>, u: State) returns (run': seq<Action>)
    requires Reaches(s, run, Recovered(u, Listing)) && Idle(Recovered(u, Listing))
    ensures var v := Recovered(u, Dispatches(PendingIds(ResetStale(u.rows, u.now - u.stale))));
            Reaches(s, run', v) && Idle(v)
  {
    var v := Recovered(u, Dispatches(PendingIds(ResetStale(u.rows, u.now - u.stale))));
    RecoveryListsStep(u, v);
    CommandMoves(s, run, Recovered(u, Listing), RecoverNext(1, Ok, 0, 0), v);
    run' := run + [RecoverNext(1, Ok, 0, 0)];
  }

  /** A recovery run resets the stale row and publishes it again. */
  lemma RecoveryRepublishes(s: State, run: seq<Action>, u: State, id: Id, d: Chain)
    returns (run': seq<Action>, v: State)
    requires Reaches(s, run, u) && Idle(u) && u.recoveries == map[] && d !in u.chains
    requires HasStatus(u, id, Uploading) && StaleClaim(u.rows[id], u.now - u.stale)
    ensures Reaches(s, run', v) && Idle(v)
    ensures v == u.(rows := ResetStale(u.rows, u.now - u.stale), recoveries := v.recoveries,
                    queue := u.queue[d := Message(id, 0, None, 0)], chains := u.chains + {d})
  {
    run' := RecoveryResets(s, run, u);
    run' := RecoveryLists(s, run', u);
    var todo := PendingIds(ResetStale(u.rows, u.now - u.stale));
    assert id in todo;
    v := Step(Recovered(u, Dispatches(todo)), RecoverNext(1, Ok, id, d));
    CommandMoves(s, run', Recovered(u, Dispatches(todo)), RecoverNext(1, Ok, id, d), v);
    run' := run' + [RecoverNext(1, Ok, id, d)];
  }

  /** The worker of the first upload stores its bytes in time, is late with the final update, and
      meanwhile the row is recovered. */
  lemma LateWorker(now: int, stale: nat) returns (run: seq<Action>, v: State)
    ensures Reaches(Init(now, stale), run, v) && Idle(v)
    ensures v.now == now + stale + 1 && v.stale == stale
    ensures 1 in v.workers && v.workers[1] == Worker(1, PATH, 0, Some(now), 0, Finishing)
    ensures HasStatus(v, 1, Uploading) && v.rows[1].claimedAt == Some(now) && 1 in v.files
    ensures v.recoveries == map[] && v.chains == {1}
  {
    var s := Init(now, stale);
    var u;
    run, u := FirstUploadWrites(now, stale);
    var u1 := WorkerStores(u, 1);
    Join(s, run, u, [Work(1, Ok)], u1);
    run := run + [Work(1, Ok)];
    var u2 := Goto(u1, 1, Finishing);
    Then(s, run, u1, Work(1, Ok), u2);
    run := run + [Work(1, Ok)];
    assert forall p :: InSection(u2, p) == InSection(u1, p);
    v := u2.(now := now + stale + 1);
    CommandMoves(s, run, u2, Tick(stale + 1), v);
    run := run + [Tick(stale + 1)];
  }

  /** Every backend write of the run is in time; only the DONE update of the first chain is late. */
  lemma LateFinishCanSteal(now: int, stale: nat) returns (run: seq<Action>, a: Action, c: Chain)
    ensures var s := Exec(Init(now, stale), run);
            && LegalRun(Init(now, stale), run) && Exclusive(s, a) && TimelyStore(s, a)
            && StealsFrom(s, Step(s, a), c) && LateFinish(s, a, s.workers[c].id)
  {
    var v;
    run, v := LateWorker(now, stale);
    run, v := RecoveryRepublishes(Init(now, stale), run, v, 1, 2);
    var more := WorkerWrites(v, 2, 1);
    Join(Init(now, stale), run, v, more, AtWrite(v, 2, 1));
    run := run + more;
    a, c := Work(1, Ok), 2;
    assert Step(AtWrite(v, 2, 1), a) == FinishStep(AtWrite(v, 2, 1), 1);
  }

  lemma LegalThrough(s: State, run: seq<Action>, a: Action, more: seq<Action>)
    requires LegalRun(s, run)
    requires var t := Exec(s, run); Exclusive(t, a) && TimelyStore(t, a) && LegalRun(Step(t, a), more)
    ensures LegalRun(s, run + ([a] + more)) && Exec(s, run + ([a] + more)) == Exec(Step(Exec(s, run), a), more)
  {
    assert ([a] + more)[1..] == more;
    LegalConcat(s, run, [a] + more);
    ExecConcat(s, run, [a] + more);
  }

  /** Timely backend writes alone do not keep the order: some legal run stores an older record over
      a newer one. */
  lemma TimelyWritesAreNotEnough(now: int, stale: nat) returns (run: seq<Action>)
    ensures LegalRun(Init(now, stale), run) && !Ordered(Exec(Init(now, stale), run))
  {
    var a, c;
    run, a, c := LateFinishCanSteal(now, stale);
    InitOrdered(now, stale);
    LegalOrderInv(Init(now, stale), run);
    var more := StealLeadsToDisorder(Exec(Init(now, stale), run), a, c);
    LegalThrough(Init(now, stale), run, a, more);
    run := run + ([a] + more);
  }

  lemma {:induction false} LegalOrderInv(s: State, run: seq<Action>)
    requires OrderInv(s) && LegalRun(s, run)
    ensures OrderInv(Exec(s, run))
    decreases |run|
  {
    if run != [] {
      StepOrderInv(s, run[0]);
      LegalOrderInv(Step(s, run[0]), run[1..]);
    }
  }
}
