/**
 The upload task, the recovery command and the draining of the queue, in the form they are written
 in: methods that change the shared tables.  Every method is tied to the protocol: what it does,
 uninterrupted, is one of the protocol's runs.
 */
module UploadDeployment {
  import opened Basics
  import opened UploadProtocol
  import opened UploadService
  import opened UploadRequests
  import opened UploadRuns

  /* ------------------------------------ the drain's measure ------------------------------------ */

  /** The deliveries a message can still lead to. */
  function Left(m: Message): nat { if m.retries <= MAX_RETRIES then MAX_RETRIES + 1 - m.retries else 1 }

  ghost function Weight(queue: map<Chain, Message>): nat {
    if queue == map[] then 0 else
    var c :| c in queue;
    Left(queue[c]) + Weight(queue - {c})
  }

  lemma {:induction false} WeightSplits(queue: map<Chain, Message>, c: Chain)
    requires c in queue
    ensures Weight(queue) == Left(queue[c]) + Weight(queue - {c})
    decreases |queue|
  {
    var d :| d in queue && Weight(queue) == Left(queue[d]) + Weight(queue - {d});
    if d != c {
      WeightSplits(queue - {d}, c);
      WeightSplits(queue - {c}, d);
      assert queue - {d} - {c} == queue - {c} - {d};
    }
  }

  /** Each delivery uses up at least one of the deliveries left. */
  lemma DeliveryUsesWeight(s: State, c: Chain, env: Env)
    requires c in s.queue && s.workers == map[]
    ensures Weight(DeliveryOutcome(s, c, env).queue) < Weight(s.queue)
  {
    var t, rest := DeliveryOutcome(s, c, env), s.queue - {c};
    DeliverySettles(s, c, env);
    WeightSplits(s.queue, c);
    if t.queue != rest {
      WeightSplits(t.queue, c);
      assert t.queue - {c} == rest;
    }
  }

  /** The row is finished, or some message will still finish it. */
  ghost predicate OnTrack(rows: map<Id, Row>, queue: map<Chain, Message>, id: Id) {
    && id in rows
    && (|| rows[id].status == Done || rows[id].status == Failed
        || (rows[id].status == Pending && exists c <- queue :: queue[c].id == id)
        || (rows[id].status == Uploading && exists c <- queue :: queue[c].id == id && queue[c].retries > 0))
  }

  ghost predicate AllOnTrack(rows: map<Id, Row>, queue: map<Chain, Message>, ids: set<Id>) {
    forall id <- ids :: OnTrack(rows, queue, id)
  }

  lemma SettledKeepsTrack(rows: map<Id, Row>, queue: map<Chain, Message>, t: State, c: Chain, id: Id)
    requires c in queue && Settled(rows, queue - {c}, t, c, queue[c].id, queue[c].retries)
    requires OnTrack(rows, queue, id)
    ensures OnTrack(t.rows, t.queue, id)
  {
    if id != queue[c].id && IsLive(rows[id].status) {
      var d :| d in queue && queue[d].id == id && (rows[id].status == Uploading ==> queue[d].retries > 0);
      assert d in t.queue && t.queue[d] == queue[d];
    }
  }

  lemma DropKeepsTrack(s: State, c: Chain, id: Id)
    requires c in s.queue && Drops(s, s.queue[c]) && OnTrack(s.rows, s.queue, id)
    ensures OnTrack(s.rows, s.queue - {c}, id)
  {
    if IsLive(s.rows[id].status) {
      var d :| d in s.queue && s.queue[d].id == id && (s.rows[id].status == Uploading ==> s.queue[d].retries > 0);
      assert d in s.queue - {c} && (s.queue - {c})[d] == s.queue[d];
    }
  }

  lemma DeliveryKeepsTrack(s: State, c: Chain, env: Env, id: Id)
    requires c in s.queue && s.workers == map[] && OnTrack(s.rows, s.queue, id)
    ensures OnTrack(DeliveryOutcome(s, c, env).rows, DeliveryOutcome(s, c, env).queue, id)
  {
    DeliverySettles(s, c, env);
    if Drops(s, s.queue[c]) {
      DropKeepsTrack(s, c, id);
    } else {
      SettledKeepsTrack(s.rows, s.queue, DeliveryOutcome(s, c, env), c, id);
    }
  }

  /** The backend is found and takes the write. */
  predicate Works(env: Env) { env.lookup && env.write.Ok? && env.ack.Ok? }

  /** The row is DONE, or has its file and a message that a working backend turns into DONE. */
  ghost predicate OnTrackToDone(s: State, id: Id) {
    && id in s.rows && OnTrack(s.rows, s.queue, id) && s.rows[id].status != Failed
    && (s.rows[id].status != Done ==> id in s.files)
  }

  /** A delivery with a working backend uploads its own row, and takes nothing from any other. */
  lemma WorkingDeliveryKeepsTrack(s: State, t: State, c: Chain, env: Env, id: Id)
    requires c in s.queue && Delivered(s, t, c, env) && Works(env) && OnTrackToDone(s, id)
    ensures OnTrackToDone(t, id)
  {
    var m := s.queue[c];
    if !(m.id == id && !Skips(s, m)) && IsLive(s.rows[id].status) {
      var d :| d in s.queue && s.queue[d].id == id && (s.rows[id].status == Uploading ==> s.queue[d].retries > 0);
      assert d in t.queue && t.queue[d] == s.queue[d];
    }
  }

  ghost predicate AllOnTrackToDone(s: State, ids: set<Id>) { forall id <- ids :: OnTrackToDone(s, id) }

  /** The rows that a working backend will finish. */
  ghost function Finishable(s: State): set<Id> { set id | id in s.rows && OnTrackToDone(s, id) }

  lemma WorkingDeliveryKeepsAll(s: State, c: Chain, delay: nat, env: Env, ids: set<Id>)
    requires c in s.queue && Works(env) && AllOnTrackToDone(s, ids)
    ensures AllOnTrackToDone(DeliveryOutcome(s.(now := s.now + delay), c, env), ids)
  {
    var u := s.(now := s.now + delay);
    DeliveryDelivers(u, c, env);
    forall id <- ids ensures OnTrackToDone(DeliveryOutcome(u, c, env), id) {
      assert OnTrackToDone(s, id) && OnTrackToDone(u, id);
      WorkingDeliveryKeepsTrack(u, DeliveryOutcome(u, c, env), c, env, id);
    }
  }

  /* ------------------------------- the recovery command as a run ------------------------------- */

  function Recovering(s: State, r: Recovery): State { s.(recoveries := map[0 := r]) }

  lemma RecoveryRebind(r: Recovery, r': Recovery)
    ensures map[0 := r][0 := r'] == map[0 := r'] && map[0 := r] - {0} == map[]
  {}

  function Reset(s: State): State { s.(rows := ResetStale(s.rows, s.now - s.stale)) }

  lemma StartingStep(s: State)
    requires s.recoveries == map[]
    ensures Step(s, RecoverStart(0)) == Recovering(s, Resetting(s.now - s.stale))
  {}

  lemma ResettingStep(s: State)
    ensures Step(Recovering(s, Resetting(s.now - s.stale)), RecoverNext(0, Ok, 0, 0)) == Recovering(Reset(s), Listing)
  {
    RecoveryRebind(Resetting(s.now - s.stale), Listing);
  }

  lemma ListingStep(s: State)
    ensures Step(Recovering(s, Listing), RecoverNext(0, Ok, 0, 0)) == Recovering(s, Dispatches(PendingIds(s.rows)))
  {
    RecoveryRebind(Listing, Dispatches(PendingIds(s.rows)));
  }

  lemma RecoveryBegins(s: State)
    requires s.recoveries == map[]
    ensures Exec(s, [RecoverStart(0)] + [RecoverNext(0, Ok, 0, 0)] + [RecoverNext(0, Ok, 0, 0)])
            == Recovering(Reset(s), Dispatches(PendingIds(Reset(s).rows)))
  {
    var run := [RecoverStart(0)];
    assert Exec(s, []) == s && [] + run == run;
    StartingStep(s);
    Follow(s, [], s, RecoverStart(0));
    ResettingStep(s);
    Follow(s, run, Recovering(s, Resetting(s.now - s.stale)), RecoverNext(0, Ok, 0, 0));
    ListingStep(Reset(s));
    Follow(s, run + [RecoverNext(0, Ok, 0, 0)], Recovering(Reset(s), Listing), RecoverNext(0, Ok, 0, 0));
  }

  lemma RecoveryDispatches(s0: State, run: seq<Action>, s: State, todo: set<Id>, choice: Choice, id: Id, c: Chain)
    requires Exec(s0, run) == Recovering(s, Dispatches(todo)) && id in todo && c !in s.chains
    ensures Exec(s0, run + [RecoverNext(0, choice, id, c)]) ==
            Recovering(if choice.Error? then s
                       else s.(queue := s.queue[c := Message(id, 0, None, 0)], chains := s.chains + {c}),
                       Dispatches(todo - {id}))
  {
    Follow(s0, run, Recovering(s, Dispatches(todo)), RecoverNext(0, choice, id, c));
    RecoveryRebind(Dispatches(todo), Dispatches(todo - {id}));
  }

  lemma RecoveryEnds(s0: State, run: seq<Action>, s: State)
    requires Exec(s0, run) == Recovering(s, Dispatches({})) && s.recoveries == map[]
    ensures Exec(s0, run + [RecoverNext(0, Ok, 0, 0)]) == s
  {
    Follow(s0, run, Recovering(s, Dispatches({})), RecoverNext(0, Ok, 0, 0));
    RecoveryRebind(Dispatches({}), Listing);
  }

  lemma FreshName(chains: set<Chain>, queued: set<Chain>)
    ensures exists c: Chain :: c !in chains && c !in queued
  {
    var bound := FreshNat(chains + queued);
    assert bound !in chains + queued;
  }

  /** A delivery after some time has passed, as a continuation of a run. */
  lemma DeliveryExtends(s0: State, run: seq<Action>, s: State, delay: nat, c: Chain, env: Env)
    returns (run': seq<Action>)
    requires Exec(s0, run) == s && OfWorkers(run) && c in s.queue && s.workers == map[]
    ensures OfWorkers(run')
    ensures Exec(s0, run') == DeliveryOutcome(s.(now := s.now + delay), c, env)
  {
    var u := s.(now := s.now + delay);
    Follow(s0, run, s, Tick(delay));
    var more := DeliveryIsRun(u, c, env);
    run' := run + [Tick(delay)] + more;
    ExecConcat(s0, run + [Tick(delay)], more);
  }

  /** The queue grew by exactly one first delivery for each row of `names`, under the name given there. */
  ghost predicate Redispatched(queue: map<Chain, Message>, queue': map<Chain, Message>, names: map<Id, Chain>) {
    && (forall c <- queue :: c in queue' && queue'[c] == queue[c])
    && (forall id <- names ::
          names[id] !in queue && names[id] in queue' && queue'[names[id]] == Message(id, 0, None, 0))
    && |queue'| == |queue| + |names|
  }

  lemma RedispatchedMore(queue: map<Chain, Message>, queue': map<Chain, Message>, names: map<Id, Chain>, id: Id,
                         c: Chain)
    requires Redispatched(queue, queue', names) && c !in queue' && id !in names
    ensures Redispatched(queue, queue'[c := Message(id, 0, None, 0)], names[id := c])
  {}

  lemma SameSize(queue: map<Chain, Message>, queue': map<Chain, Message>)
    requires (forall c <- queue :: c in queue' && queue'[c] == queue[c]) && |queue'| == |queue|
    ensures queue' == queue
  {
    assert queue'.Keys == queue.Keys + (queue'.Keys - queue.Keys);
  }

  /** A redispatched row adds one delivery and its retries. */
  lemma {:induction false} RedispatchedWeight(queue: map<Chain, Message>, queue': map<Chain, Message>,
                                              names: map<Id, Chain>)
    requires Redispatched(queue, queue', names)
    ensures Weight(queue') == Weight(queue) + (MAX_RETRIES + 1) * |names|
    decreases |names|
  {
    if names == map[] {
      SameSize(queue, queue');
    } else {
      var id :| id in names;
      RedispatchedLess(queue, queue', names, id);
      RedispatchedWeight(queue, queue' - {names[id]}, names - {id});
      WeightSplits(queue', names[id]);
    }
  }

  lemma RedispatchedLess(queue: map<Chain, Message>, queue': map<Chain, Message>, names: map<Id, Chain>, id: Id)
    requires Redispatched(queue, queue', names) && id in names
    ensures Redispatched(queue, queue' - {names[id]}, names - {id}) && |names - {id}| == |names| - 1
  {
    var rest, fewer := queue' - {names[id]}, names - {id};
    assert fewer.Keys == names.Keys - {id} && rest.Keys == queue'.Keys - {names[id]};
    assert |rest| == |rest.Keys| && |fewer| == |fewer.Keys|;
    forall j <- fewer ensures names[j] != names[id] { assert queue'[names[j]].id == j && queue'[names[id]].id == id; }
  }

  function Dispatched(s: State, choice: Choice, id: Id, c: Chain): State {
    if choice.Error? then s else s.(queue := s.queue[c := Message(id, 0, None, 0)], chains := s.chains + {c})
  }

  /** The recovery command between two dispatches, after a run from s0. */
  ghost predicate Redispatching(s0: State, run: seq<Action>, s: State, todo: set<Id>, names: map<Id, Chain>) {
    && Exec(s0, run) == Recovering(s, Dispatches(todo)) && OfWorkers(run) && s.recoveries == map[]
    && names.Keys !! todo && Redispatched(s0.queue, s.queue, names)
  }

  lemma RedispatchingGoesOn(s0: State, run: seq<Action>, s: State, todo: set<Id>, names: map<Id, Chain>,
                            choice: Choice, id: Id, c: Chain)
    returns (run': seq<Action>, names': map<Id, Chain>)
    requires Redispatching(s0, run, s, todo, names) && id in todo && c !in s.chains && c !in s.queue
    ensures Redispatching(s0, run', Dispatched(s, choice, id, c), todo - {id}, names')
    ensures names' == if choice.Error? then names else names[id := c]
  {
    RecoveryDispatches(s0, run, s, todo, choice, id, c);
    RedispatchedMore(s0.queue, s.queue, names, id, c);
    run' := run + [RecoverNext(0, choice, id, c)];
    names' := if choice.Error? then names else names[id := c];
  }

  lemma RedispatchingStarts(s: State) returns (run: seq<Action>)
    requires s.recoveries == map[]
    ensures Redispatching(s, run, Reset(s), PendingIds(Reset(s).rows), map[])
  {
    RecoveryBegins(s);
    run := [RecoverStart(0)] + [RecoverNext(0, Ok, 0, 0)] + [RecoverNext(0, Ok, 0, 0)];
  }

  lemma RedispatchingEnds(s0: State, run: seq<Action>, s: State, names: map<Id, Chain>) returns (run': seq<Action>)
    requires Redispatching(s0, run, s, {}, names)
    ensures Exec(s0, run') == s && OfWorkers(run') && Redispatched(s0.queue, s.queue, names)
  {
    RecoveryEnds(s0, run, s);
    run' := run + [RecoverNext(0, Ok, 0, 0)];
  }

  /** The dispatches made so far: `names` were published, `errors` raised. */
  ghost predicate Counted(all: set<Id>, todo: set<Id>, publish: Id -> Choice, published: set<Id>, errors: set<Id>,
                          dispatched: nat, failed: nat) {
    && todo <= all && dispatched + failed + |todo| == |all| && failed == |errors|
    && errors == (set id | id in all - todo && !publish(id).Ok?)
    && published == (set id | id in all - todo && !publish(id).Error?)
  }

  lemma CountedMore(all: set<Id>, todo: set<Id>, publish: Id -> Choice, published: set<Id>, errors: set<Id>,
                    dispatched: nat, failed: nat, id: Id)
    requires Counted(all, todo, publish, published, errors, dispatched, failed) && id in todo
    ensures var ok := publish(id).Ok?;
            Counted(all, todo - {id}, publish, if publish(id).Error? then published else published + {id},
                    if ok then errors else errors + {id}, if ok then dispatched + 1 else dispatched,
                    if ok then failed else failed + 1)
  {}

  /** Every row in `ids` is finished or has a message that will still finish it, after a run from s0. */
  ghost predicate Draining(s0: State, run: seq<Action>, ids: set<Id>, t: State) {
    && Exec(s0, run) == t && OfWorkers(run) && t.workers == map[] && t.rows.Keys == s0.rows.Keys
    && AllOnTrack(t.rows, t.queue, ids)
  }

  lemma DrainingStarts(s: State, ids: set<Id>)
    requires s.workers == map[] && AllOnTrack(s.rows, s.queue, ids)
    ensures Draining(s, [], ids, s)
  {}

  lemma DrainingGoesOn(s0: State, run: seq<Action>, ids: set<Id>, s: State, delay: nat, c: Chain, env: Env)
    returns (run': seq<Action>)
    requires Draining(s0, run, ids, s) && c in s.queue
    ensures Draining(s0, run', ids, DeliveryOutcome(s.(now := s.now + delay), c, env))
    ensures Weight(DeliveryOutcome(s.(now := s.now + delay), c, env).queue) < Weight(s.queue)
  {
    var u := s.(now := s.now + delay);
    run' := DeliveryExtends(s0, run, s, delay, c, env);
    DeliveryUsesWeight(u, c, env);
    DeliveryRows(u, c, env);
    forall id <- ids ensures OnTrack(DeliveryOutcome(u, c, env).rows, DeliveryOutcome(u, c, env).queue, id) {
      DeliveryKeepsTrack(u, c, env, id);
    }
  }

  lemma DeliveryRows(s: State, c: Chain, env: Env)
    requires c in s.queue && s.workers == map[]
    ensures DeliveryOutcome(s, c, env).rows.Keys == s.rows.Keys && DeliveryOutcome(s, c, env).workers == map[]
  {
    DeliverySettles(s, c, env);
  }

  lemma NamesOfAll(all: set<Id>, publish: Id -> Choice, names: map<Id, Chain>, errors: set<Id>, dispatched: nat,
                   failed: nat)
    requires Counted(all, {}, publish, names.Keys, errors, dispatched, failed) && forall id <- all :: publish(id).Ok?
    ensures names.Keys == all && |names| == |all|
  {
    assert |names| == |names.Keys|;
  }

  lemma RedispatchedOnTrack(rows: map<Id, Row>, queue: map<Chain, Message>, queue': map<Chain, Message>,
                            publish: Id -> Choice, errors: set<Id>, names: map<Id, Chain>, dispatched: nat, failed: nat)
    requires Counted(PendingIds(rows), {}, publish, names.Keys, errors, dispatched, failed)
    requires Redispatched(queue, queue', names) && forall id <- rows :: publish(id).Ok?
    ensures AllOnTrack(rows, queue', PendingIds(rows))
  {
    forall id <- PendingIds(rows) ensures OnTrack(rows, queue', id) {
      assert id in names && queue'[names[id]].id == id;
    }
  }

  /** PENDING, or UPLOADING under a claim that is missing or older than the cutoff. */
  predicate Stalled(r: Row, cutoff: int) {
    r.status == Pending || (r.status == Uploading && (r.claimedAt.None? || r.claimedAt.value < cutoff))
  }

  /** The bulk update makes exactly the stalled rows PENDING and changes nothing else. */
  lemma ResetExactly(s: State, id: Id)
    requires id in s.rows
    ensures var r, r' := s.rows[id], Reset(s).rows[id];
            && (r'.status == Pending <==> Stalled(r, s.now - s.stale))
            && r' == r.(status := r'.status) && (r'.status != Pending ==> r' == r)
  {}

  function StalledIds(rows: map<Id, Row>, cutoff: int): set<Id> { set id | id in rows && Stalled(rows[id], cutoff) }

  lemma StalledArePending(rows: map<Id, Row>, cutoff: int)
    ensures PendingIds(ResetStale(rows, cutoff)) == StalledIds(rows, cutoff)
  {}

  /** What a recovery without failures achieves for the stalled rows. */
  lemma RecoveredAll(rows: map<Id, Row>, queue: map<Chain, Message>, cutoff: int, rows': map<Id, Row>,
                     queue': map<Chain, Message>, publish: Id -> Choice, errors: set<Id>, names: map<Id, Chain>,
                     dispatched: nat, failed: nat, ids: set<Id>)
    requires rows' == ResetStale(rows, cutoff) && ids == StalledIds(rows, cutoff)
             && forall id <- rows :: publish(id).Ok?
    requires Counted(PendingIds(rows'), {}, publish, names.Keys, errors, dispatched, failed)
    requires Redispatched(queue, queue', names)
    ensures AllOnTrack(rows', queue', ids) && ids == PendingIds(rows')
    ensures Weight(queue') == Weight(queue) + (MAX_RETRIES + 1) * |ids|
  {
    StalledArePending(rows, cutoff);
    NamesOfAll(ids, publish, names, errors, dispatched, failed);
    RedispatchedOnTrack(rows', queue, queue', publish, errors, names, dispatched, failed);
    RedispatchedWeight(queue, queue', names);
  }

  lemma ChunkExtends(stream: Bytes, done: nat, end: nat)
    requires done <= end <= |stream|
    ensures stream[..done] + stream[done..end] == stream[..end]
  {}

  class Deployment {
    const stale: nat
    var now: int
    var rows: map<Id, Row>
    var files: map<Id, Bytes>
    var backend: map<Key, Bytes>
    var queue: map<Chain, Message>
    // history
    var ids: set<Id>
    var chains: set<Chain>
    var records: map<Id, Record>
    var log: seq<Entry>
    var claimLog: seq<Claim>
    var unlinked: set<Id>

    /** The deployment with nobody at work. */
    function Tables(): State
      reads this
    {
      State(now, stale, rows, files, backend, queue, map[], map[], map[], map[], ids, chains, records, log, claimLog,
          unlinked)
    }

    constructor (now: int, stale: nat)
      ensures Tables() == Init(now, stale) && Sound(Tables())
    {
      this.now, this.stale := now, stale;
      rows, files, backend, queue := map[], map[], map[], map[];
      ids, chains, records, log, claimLog, unlinked := {}, {}, map[], [], [], {};
      new;
      InitSound(now, stale);
    }

    /** _fail: a finished or pending row keeps its status, and no other row changes. */
    method Fail(id: Id)
      modifies this`rows
      ensures Tables() == FailRow(old(Tables()), id)
      ensures rows.Keys == old(rows).Keys && !HasStatus(Tables(), id, Uploading)
      ensures forall i <- rows :: rows[i] == old(rows)[i]
                || (i == id && old(rows)[i].status == Uploading && rows[i].status == Failed)
    {
      if id in rows && rows[id].status == Uploading {
        rows := rows[id := rows[id].(status := Failed)];
      }
    }

    method ClaimRow(id: Id)
      requires id in rows
      modifies this`rows, this`claimLog
      ensures Tables() == ClaimedRow(old(Tables()), id)
    {
      rows := rows[id := rows[id].(status := Uploading, claimedAt := Some(now))];
      claimLog := claimLog + [Claim(id, now)];
    }

    method Retry(c: Chain, w: Worker)
      modifies this`rows, this`queue
      ensures Tables() == ErrorOutcome(old(Tables()), c, w)
    {
      if w.retries < MAX_RETRIES {
        queue := queue[c := Message(w.id, w.retries + 1, w.claim, w.waited + Pow4(w.retries))];
      } else {
        Fail(w.id);
      }
    }

    /** The write and what follows it. */
    method WriteStream(c: Chain, w: Worker, env: Env)
      requires w.pc.Writing? && HasStatus(Tables(), w.id, Uploading)
      modifies this
      ensures Tables() == StreamOutcome(old(Tables()), c, w, env)
    {
      var outcome := env.write;
      if outcome.Ok? {
        backend := backend[w.key := w.pc.bytes];
        log := log + [Entry(w.id, w.key, w.pc.bytes)];
        outcome := env.ack;
      }
      match outcome
      case Odd => Fail(w.id);
      case Error => Retry(c, w);
      case Ok =>
        rows := rows[w.id := rows[w.id].(status := Done)];
        if env.unlink {
          files := files - {w.id};
        }
    }

    /** The guards and claims at the start of upload_to_backend; the claim comes `pause` seconds after the
        cutoff.  None if the delivery is dropped. */
    method TakeMessage(c: Chain, pause: nat) returns (w: Option<Worker>)
      requires c in queue
      modifies this`now, this`rows, this`queue, this`claimLog
      ensures w.None? <==> Drops(old(Tables()), old(queue)[c])
      ensures w.None? ==> Tables() == old(Tables()).(queue := old(queue) - {c})
      ensures w.Some? ==> Tables() == Taken(old(Tables()), c, old(queue)[c], pause)
                          && w.value == TakenBy(old(Tables()), old(queue)[c], pause)
    {
      var m := queue[c];
      queue := queue - {c};
      if m.id !in rows { return None; }
      var pending := rows[m.id];
      if !IsLive(pending.status) { return None; }
      var cutoff := now - stale;
      var claim := m.claim;
      if pending.status == Pending {
        now := now + pause;
        ClaimRow(m.id);
        claim := Some(now);
      } else if m.retries == 0 {
        if pending.claimedAt.Some? && pending.claimedAt.value >= cutoff { return None; }
        now := now + pause;
        ClaimRow(m.id);
        claim := Some(now);
      } else {
        now := now + pause;
      }
      w := Some(Worker(m.id, pending.key, m.retries, claim, m.waited, Owner));
    }

    /** What follows the claim. */
    method CheckAndWrite(c: Chain, w: Worker, env: Env)
      requires HasStatus(Tables(), w.id, Uploading)
      modifies this
      ensures Tables() == WriteOutcome(old(Tables()), c, w, env)
    {
      if w.id !in files || !env.lookup {
        Fail(w.id);
        return;
      }
      WriteStream(c, w.(pc := Writing(files[w.id])), env);
    }

    /** The body of upload_to_backend, uninterrupted; time passes before the claim and at work. */
    method Deliver(c: Chain, env: Env)
      requires c in queue
      modifies this
      ensures Tables() == DeliveryOutcome(old(Tables()), c, env)
    {
      ghost var s, m := Tables(), queue[c];
      var w := TakeMessage(c, env.pause);
      if w.None? { return; }
      TakenIsUploading(s, c, m, env.pause);
      ghost var t := Tables();
      now := now + env.work;
      assert Tables() == Later(t, env.work);
      CheckAndWrite(c, w.value, env);
    }

    /** upload_to_backend: what it leaves in the tables, case by case; and one run of the protocol, so
        whatever orderly runs keep is kept. */
    method UploadToBackend(c: Chain, env: Env)
      requires c in queue
      modifies this
      ensures Delivered(old(Tables()), Tables(), c, env)
      ensures Tables() == DeliveryOutcome(old(Tables()), c, env)
      ensures KeptSound(old(Tables()), Tables())
    {
      ghost var s := Tables();
      ghost var run := DeliveryIsRun(s, c, env);
      Deliver(c, env);
      DeliveryKeepsSound(s, c, env, run);
      DeliveryDelivers(s, c, env);
    }

    /** Publishing one row's task under a new name. */
    method Publish(id: Id, choice: Choice) returns (c: Chain)
      modifies this`queue, this`chains
      ensures c !in old(queue) && c !in old(chains) && Tables() == Dispatched(old(Tables()), choice, id, c)
    {
      FreshName(chains, queue.Keys);
      c :| c !in chains && c !in queue;
      if !choice.Error? {
        queue := queue[c := Message(id, 0, None, 0)];
        chains := chains + {c};
      }
    }

    method Redispatch(id: Id, choice: Choice, ghost s0: State, ghost todo: set<Id>, ghost names: map<Id, Chain>,
                      ghost run: seq<Action>)
      returns (ghost run': seq<Action>, ghost names': map<Id, Chain>)
      requires Redispatching(s0, run, Tables(), todo, names) && id in todo
      modifies this`queue, this`chains
      ensures Redispatching(s0, run', Tables(), todo - {id}, names')
      ensures names'.Keys == if choice.Error? then names.Keys else names.Keys + {id}
    {
      ghost var s := Tables();
      var c := Publish(id, choice);
      run', names' := RedispatchingGoesOn(s0, run, s, todo, names, choice, id, c);
    }

    /** The dispatch loop: `names` is what was published, `errors` the dispatches that raised. */
    method RedispatchAll(all: set<Id>, publish: Id -> Choice, ghost s0: State, ghost start: seq<Action>)
      returns (dispatched: nat, failed: nat, ghost errors: set<Id>, ghost names: map<Id, Chain>, ghost run: seq<Action>)
      requires Redispatching(s0, start, Tables(), all, map[])
      modifies this`queue, this`chains
      ensures Counted(all, {}, publish, names.Keys, errors, dispatched, failed)
      ensures Exec(s0, run) == Tables() && OfWorkers(run) && Redispatched(s0.queue, queue, names)
    {
      dispatched, failed, errors, names, run := 0, 0, {}, map[], start;
      var todo := all;
      while todo != {}
        invariant Counted(all, todo, publish, names.Keys, errors, dispatched, failed)
        invariant Redispatching(s0, run, Tables(), todo, names)
      {
        var id :| id in todo;
        CountedMore(all, todo, publish, names.Keys, errors, dispatched, failed, id);
        run, names := Redispatch(id, publish(id), s0, todo, names, run);
        if publish(id).Ok? {
          dispatched := dispatched + 1;
        } else {
          failed := failed + 1;
          errors := errors + {id};
        }
        todo := todo - {id};
      }
      run := RedispatchingEnds(s0, run, Tables(), names);
    }

    /** The bulk update of the rows whose workers have died. */
    method ResetStaleUploads()
      modifies this`rows
      ensures Tables() == Reset(old(Tables()))
    {
      var staleCutoff := now - stale;
      rows := ResetStale(rows, staleCutoff);
    }

    /** The body of recover_pending_uploads. */
    method Recover(publish: Id -> Choice)
      returns (dispatched: nat, failed: nat, ghost errors: set<Id>, ghost names: map<Id, Chain>, ghost run: seq<Action>)
      modifies this`rows, this`queue, this`chains
      ensures rows == ResetStale(old(rows), now - stale)
      ensures Counted(PendingIds(rows), {}, publish, names.Keys, errors, dispatched, failed)
      ensures Redispatched(old(queue), queue, names)
      ensures Exec(old(Tables()), run) == Tables() && OfWorkers(run)
    {
      ghost var s0 := Tables();
      run := RedispatchingStarts(s0);
      ResetStaleUploads();
      dispatched, failed, errors, names, run := RedispatchAll(PendingIds(rows), publish, s0, run);
    }

    /** recover_pending_uploads: `publish` says how each dispatch goes. */
    method RecoverPendingUploads(publish: Id -> Choice)
      returns (dispatched: nat, failed: nat, ghost errors: set<Id>, ghost names: map<Id, Chain>, ghost run: seq<Action>)
      modifies this`rows, this`queue, this`chains
      ensures rows.Keys == old(rows).Keys
      ensures forall id <- rows :: rows[id] == if Stalled(old(rows)[id], now - stale)
                                               then old(rows)[id].(status := Pending) else old(rows)[id]
      ensures Counted(PendingIds(rows), {}, publish, names.Keys, errors, dispatched, failed)
      ensures Redispatched(old(queue), queue, names)
      ensures Exec(old(Tables()), run) == Tables() && OfWorkers(run)
      ensures KeptSound(old(Tables()), Tables())
    {
      ghost var s0 := Tables();
      dispatched, failed, errors, names, run := Recover(publish);
      WorkersKeepSound(s0, run, Tables());
    }

    /** One delivery, `delay` seconds after the one before. */
    method Turn(c: Chain, delay: nat, env: Env, ghost s0: State, ghost ids: set<Id>, ghost run: seq<Action>,
                ghost good: set<Id>)
      returns (ghost run': seq<Action>)
      requires c in queue && Draining(s0, run, ids, Tables())
      modifies this
      ensures Draining(s0, run', ids, Tables()) && Weight(queue) < Weight(old(queue))
      ensures Works(env) && AllOnTrackToDone(old(Tables()), good) ==> AllOnTrackToDone(Tables(), good)
    {
      ghost var s := Tables();
      run' := DrainingGoesOn(s0, run, ids, s, delay, c, env);
      now := now + delay;
      Deliver(c, env);
      if Works(env) && AllOnTrackToDone(s, good) {
        WorkingDeliveryKeepsAll(s, c, delay, env, good);
      }
    }

    /** One worker taking messages in any order until none is left; delivery number k happens
        delay(k) seconds after the one before and meets the outside world env(k).  Rows on track end DONE or
        FAILED, and DONE if they have their file and the backend works every time. */
    method Drain(env: nat -> Env, delay: nat -> nat, ghost ids: set<Id>)
      returns (deliveries: nat, ghost run: seq<Action>)
      requires AllOnTrack(rows, queue, ids)
      modifies this
      ensures queue == map[] && rows.Keys == old(rows).Keys && deliveries <= Weight(old(queue))
      ensures forall id <- ids :: HasStatus(Tables(), id, Done) || HasStatus(Tables(), id, Failed)
      ensures (forall k: nat :: Works(env(k))) ==>
                forall id <- Finishable(old(Tables())) :: HasStatus(Tables(), id, Done)
      ensures Exec(old(Tables()), run) == Tables() && OfWorkers(run)
      ensures KeptSound(old(Tables()), Tables())
    {
      ghost var s0, good := Tables(), Finishable(Tables());
      deliveries, run := 0, [];
      DrainingStarts(s0, ids);
      while queue != map[]
        invariant deliveries + Weight(queue) <= Weight(s0.queue)
        invariant Draining(s0, run, ids, Tables())
        invariant (forall k: nat :: Works(env(k))) ==> AllOnTrackToDone(Tables(), good)
        decreases Weight(queue)
      {
        var c :| c in queue;
        run := Turn(c, delay(deliveries), env(deliveries), s0, ids, run, good);
        deliveries := deliveries + 1;
      }
      WorkersKeepSound(s0, run, Tables());
    }

    /** A recovery run whose dispatches all succeed puts every stalled row on track. */
    method RecoverAll(publish: Id -> Choice, ghost ids: set<Id>) returns (ghost run: seq<Action>)
      requires forall id <- rows :: publish(id).Ok?
      requires ids == StalledIds(rows, now - stale)
      modifies this`rows, this`queue, this`chains
      ensures AllOnTrack(rows, queue, ids) && ids == PendingIds(rows)
      ensures Weight(queue) == Weight(old(queue)) + (MAX_RETRIES + 1) * |ids|
      ensures Exec(old(Tables()), run) == Tables() && OfWorkers(run)
    {
      ghost var rows0, queue0 := rows, queue;
      var dispatched, failed;
      ghost var errors, names;
      dispatched, failed, errors, names, run := Recover(publish);
      RecoveredAll(rows0, queue0, now - stale, rows, queue, publish, errors, names, dispatched, failed, ids);
    }

    /** A recovery run whose dispatches all succeed, then one worker: every row that was PENDING or
        stale UPLOADING ends up DONE or FAILED, whatever the writes, the clock and older messages do,
        after at most the deliveries still due plus a first one and its retries for each such row.  If
        the backend works every time, those that still have their file end up DONE. */
    method RecoverAndDrain(publish: Id -> Choice, env: nat -> Env, delay: nat -> nat)
      returns (deliveries: nat, ghost run: seq<Action>)
      requires forall id <- rows :: publish(id).Ok?
      modifies this
      ensures queue == map[]
      ensures forall id <- StalledIds(old(rows), old(now) - stale) ::
                HasStatus(Tables(), id, Done) || HasStatus(Tables(), id, Failed)
      ensures (forall k: nat :: Works(env(k))) ==>
                forall id <- StalledIds(old(rows), old(now) - stale) ::
                  id in old(files) ==> HasStatus(Tables(), id, Done)
      ensures deliveries <= Weight(old(queue)) + (MAX_RETRIES + 1) * |StalledIds(old(rows), old(now) - stale)|
      ensures Exec(old(Tables()), run) == Tables() && OfWorkers(run)
      ensures KeptSound(old(Tables()), Tables())
    {
      ghost var s0, ids := Tables(), StalledIds(rows, now - stale);
      ghost var first := RecoverAll(publish, ids);
      assert forall id <- ids :: id in files ==> OnTrackToDone(Tables(), id);
      deliveries, run := Drain(env, delay, ids);
      ExecConcat(s0, first, run);
      run := first + run;
      WorkersKeepSound(s0, run, Tables());
    }

    /* ------------------------------------ enqueue_upload ------------------------------------ */

    method CancelRow(id: Id, keep: bool, save: bool)
      requires id in rows
      modifies this`rows, this`files, this`unlinked
      ensures Tables() == if save then CancelledRow(Unlinked(old(Tables()), id, keep), id)
              else Unlinked(old(Tables()), id, keep)
    {
      if id in files && !keep {
        files := files - {id};
        unlinked := unlinked + {id};
      }
      if save {
        rows := rows[id := rows[id].(status := Cancelled)];
        unlinked := unlinked - {id};
      }
    }

    /** The loop of _cancel_stale_uploads: all of `stales` are cancelled, or saving `bad` raised. */
    method CancelStaleUploads(stales: set<Id>, env: RequestEnv, ghost s0: State, ghost start: seq<Action>,
                              ghost s: State, ghost e: Enqueue)
      returns (ok: bool, ghost done: set<Id>, ghost bad: Id, ghost run: seq<Action>)
      requires CancelsSoFar(s0, start, s, e, stales, {}, env.kept, Tables())
      modifies this`rows, this`files, this`unlinked
      ensures ok ==> CancelsSoFar(s0, run, s, e, {}, stales, env.kept, Tables())
      ensures !ok ==> bad in stales - done && done <= stales && !env.saves(bad)
                      && Exec(s0, run) == Tables() && OfRequest(run)
                      && Tables() == Unlinked(CancelledSet(s, done, env.kept), bad, bad in env.kept)
      ensures ok <== forall id <- stales :: env.saves(id)
    {
      var todo := stales;
      done, bad, run := {}, 0, start;
      while todo != {}
        invariant todo <= stales && done == stales - todo
        invariant CancelsSoFar(s0, run, s, e, todo, done, env.kept, Tables())
      {
        var id :| id in todo;
        run := CancelsGoOn(s0, run, s, e, todo, done, env.kept, Tables(), id, env.saves(id));
        CancelRow(id, id in env.kept, env.saves(id));
        if !env.saves(id) {
          bad := id;
          return false, done, bad, run;
        }
        todo, done := todo - {id}, done + {id};
      }
      assert done == stales;
      ok := true;
    }

    /** _write_stream_to_temp: reads of at most 64 KiB until one is empty, unless buffering raises. */
    method WriteStreamToTemp(id: Id, stream: Bytes, sizes: nat -> nat, raises: Option<nat>) returns (ok: bool)
      modifies this`files
      ensures ok <==> raises.None?
      ensures files == old(files)[id := if raises.None? then stream else Partial(stream, raises.value)]
    {
      var done, count := 0, 0;
      files := files[id := []];
      while done < |stream|
        invariant 0 <= done <= |stream| && (raises.Some? ==> done <= raises.value)
        invariant files == old(files)[id := stream[..done]]
      {
        var size := if 0 < sizes(count) <= 65536 then sizes(count) else 65536;
        var end := if done + size <= |stream| then done + size else |stream|;
        var chunk := stream[done..end];
        if raises.Some? && raises.value < end {
          ChunkExtends(stream, done, raises.value);
          files := files[id := files[id] + stream[done..raises.value]];
          return false;
        }
        ChunkExtends(stream, done, end);
        files := files[id := files[id] + chunk];
        done, count := end, count + 1;
      }
      assert stream[..done] == stream;
      ok := raises.None?;
    }

    /** The except branch of enqueue_upload. */
    method RollBack(id: Id, env: RequestEnv)
      modifies this`rows, this`files
      ensures Tables() == RolledBack(old(Tables()), id, env)
    {
      if !env.delete { return; }
      rows := rows - {id};
      if env.discard {
        files := files - {id};
      }
    }

    /** Publishing the upload of a new row. */
    method DispatchNew(id: Id, c: Chain, env: RequestEnv) returns (ok: bool)
      modifies this`rows, this`files, this`queue, this`chains
      ensures Tables() == PublishOutcome(old(Tables()), id, c, env)
      ensures ok <==> env.publish.Ok? && env.tag
    {
      if !env.publish.Error? {
        queue := queue[c := Message(id, 0, None, 0)];
        chains := chains + {c};
      }
      ok := env.publish.Ok? && env.tag;
      if !ok {
        RollBack(id, env);
      }
    }

    /** Buffering the body, creating the row and publishing its task. */
    method Store(key: Key, stream: Bytes, sizes: nat -> nat, id: Id, env: RequestEnv) returns (ok: bool, c: Chain)
      modifies this`rows, this`files, this`records, this`queue, this`chains
      ensures c !in old(queue) && c !in old(chains) && Tables() == StoreOutcome(old(Tables()), key, stream, id, c, env)
      ensures ok <==> StoreSucceeds(env)
    {
      FreshName(chains, queue.Keys);
      c :| c !in chains && c !in queue;
      ok := WriteStreamToTemp(id, stream, sizes, env.buffer);
      if !ok { return; }
      ok := env.create;
      if ok {
        rows := rows[id := Row(key, Pending, None, now)];
        records := records[id := Record(key, stream, |records|)];
        ok := DispatchNew(id, c, env);
      } else if env.discard {
        files := files - {id};
      }
    }

    /** enqueue_upload after a lookup that found nothing fresh. */
    method Replace(key: Key, stream: Bytes, sizes: nat -> nat, id: Id, env: RequestEnv, stales: set<Id>,
                   ghost s0: State, ghost start: seq<Action>, ghost e: Enqueue)
      returns (ok: bool, ghost bad: Option<Id>, ghost done: set<Id>, ghost run: seq<Action>, ghost c: Chain)
      requires CancelsSoFar(s0, start, Tables(), e, stales, {}, env.kept, Tables())
      requires e.key == key && e.data == stream && e.id == id
      modifies this
      ensures Exec(s0, run) == Tables() && OfRequest(run)
              && Replaced(old(Tables()), Tables(), key, stream, id, env, ok, stales, bad, done, c)
    {
      ghost var unsaved;
      ok, done, unsaved, run := CancelStaleUploads(stales, env, s0, start, Tables(), e);
      bad, c := Some(unsaved), 0;
      if ok {
        ghost var t := Tables();
        var name;
        ok, name := Store(key, stream, sizes, id, env);
        run := StoreIsRun(s0, run, t, e, name, env);
        bad, done, c := None, stales, name;
      }
    }

    method FindFresh(key: Key, cutoff: int) returns (found: Option<Id>)
      ensures found.Some?
              ==> found.value in rows && FreshRow(rows[found.value], key, cutoff) && AnyFresh(Tables(), key, cutoff)
      ensures found.None? ==> !AnyFresh(Tables(), key, cutoff)
    {
      if i :| i in rows && FreshRow(rows[i], key, cutoff) {
        found := Some(i);
      } else {
        found := None;
      }
    }

    /** The start of enqueue_upload: the lookup, and, `pause` seconds later, the selection. */
    method LookUp(key: Key, ghost data: Bytes, id: Id, pause: nat, ghost kept: set<Id>)
      returns (existing: Option<Id>, stales: set<Id>, ghost run: seq<Action>)
      requires id !in ids
      modifies this`ids, this`now
      ensures var s1, cutoff := old(Tables()).(ids := old(ids) + {id}), old(now) - stale;
              if existing.Some? then
                existing.value in rows && FreshRow(rows[existing.value], key, cutoff)
                && Tables() == s1 && Exec(old(Tables()), run) == s1 && OfRequest(run)
              else
                !AnyFresh(s1, key, cutoff) && Tables() == Later(s1, pause)
      ensures existing.None?
              ==> stales == Selected(Tables(), key, now - stale)
                  && CancelsSoFar(old(Tables()), run, Tables(), NewRequest(old(Tables()), key, data, id), stales, {},
                     kept, Tables())
    {
      run := RequestBegins(Tables(), key, data, id, pause, kept);
      ids, stales := ids + {id}, {};
      existing := FindFresh(key, now - stale);
      if existing.None? {
        now := now + pause;
        stales := Selected(Tables(), key, now - stale);
      }
    }

    /** The body of enqueue_upload; `pause` is the time between its two readings of the clock. */
    method Enqueue(key: Key, stream: Bytes, sizes: nat -> nat, id: Id, pause: nat, env: RequestEnv)
      returns (result: EnqueueResult, ghost bad: Option<Id>, ghost done: set<Id>, ghost run: seq<Action>,
               ghost c: Chain)
      requires id !in ids
      modifies this
      ensures Exec(old(Tables()), run) == Tables() && OfRequest(run)
      ensures Enqueued(old(Tables()), Tables(), key, stream, id, pause, env, result, bad, done, c)
    {
      ghost var s0 := Tables();
      var existing, stales;
      existing, stales, run := LookUp(key, stream, id, pause, env.kept);
      if existing.Some? {
        result, bad, done, c := Existing(existing.value), None, {}, 0;
        ExistingIsEnqueued(s0, Tables(), key, stream, id, pause, env, existing.value, bad, done, c);
      } else {
        var ok;
        ok, bad, done, run, c := Replace(key, stream, sizes, id, env, stales, s0, run, NewRequest(s0, key, stream, id));
        ReplacedIsEnqueued(s0, Tables(), key, stream, id, pause, env, ok, bad, done, c);
        result := if ok then Accepted(id) else Raised;
      }
    }

    /** enqueue_upload: its answer and what it leaves in the tables, case by case, for a name that no row has;
        and one run of the protocol, so whatever orderly runs keep is kept. */
    method EnqueueUpload(key: Key, stream: Bytes, sizes: nat -> nat, id: Id, pause: nat, env: RequestEnv)
      returns (result: EnqueueResult, ghost bad: Option<Id>, ghost done: set<Id>, ghost run: seq<Action>,
               ghost c: Chain)
      requires id !in ids
      modifies this
      ensures id !in old(rows)
              ==> Requested(old(Tables()), Tables(), key, stream, id, pause, env, result, bad, done, c)
      ensures Exec(old(Tables()), run) == Tables() && OfRequest(run)
      ensures Enqueued(old(Tables()), Tables(), key, stream, id, pause, env, result, bad, done, c)
      ensures KeptSound(old(Tables()), Tables())
    {
      ghost var s0 := Tables();
      result, bad, done, run, c := Enqueue(key, stream, sizes, id, pause, env);
      RequestKeepsSound(s0, run, Tables());
      if id !in s0.rows {
        EnqueuedMeans(s0, Tables(), key, stream, id, pause, env, result, bad, done, c);
      }
    }
  }
}
