/**
 What one uninterrupted enqueue_upload does to the tables, and that it is a run of the protocol.
 */
module UploadRequests {
  import opened Basics
  import opened UploadProtocol
  import opened UploadService

  /** What the outside world does during one request: which stale temp files cannot be deleted, which
      CANCELLED statuses can be saved, after how many bytes buffering raises (if it does), and whether
      the row can be created, published, tagged with the Celery id, deleted again, its file removed. */
  datatype RequestEnv = RequestEnv(kept: set<Id>, saves: Id -> bool, buffer: Option<nat>,
                                   create: bool, publish: Choice, tag: bool, delete: bool, discard: bool)

  /** The actions of request 0, from its start on, and the clock. */
  predicate OfRequest(run: seq<Action>) {
    forall i | 0 <= i < |run| ::
      || run[i].Tick? || (run[i].EnqueueNext? && run[i].p == 0)
      || (i == 0 && run[i].EnqueueStart? && run[i].p == 0)
  }

  /** The protocol state in which request 0 is running and stands at `e`. */
  function Requesting(s: State, e: Enqueue): State { s.(enqueues := map[0 := e]) }

  lemma RequestRebind(e: Enqueue, e': Enqueue)
    ensures map[0 := e][0 := e'] == map[0 := e'] && map[0 := e] - {0} == map[]
  {}

  lemma RequestMoves(s0: State, run: seq<Action>, s: State, e: Enqueue, choice: Choice, arg: nat, e': Enqueue, t: State)
    requires Exec(s0, run) == Requesting(s, e)
    requires EnqueueStep(Requesting(s, e), 0, choice, arg) == t.(enqueues := map[0 := e][0 := e'])
    ensures Exec(s0, run + [EnqueueNext(0, choice, arg)]) == Requesting(t, e')
  {
    Follow(s0, run, Requesting(s, e), EnqueueNext(0, choice, arg));
    RequestRebind(e, e');
  }

  lemma RequestEnds(s0: State, run: seq<Action>, s: State, e: Enqueue, choice: Choice, arg: nat, t: State)
    requires Exec(s0, run) == Requesting(s, e) && t.enqueues == map[]
    requires EnqueueStep(Requesting(s, e), 0, choice, arg) == t.(enqueues := map[0 := e] - {0})
    ensures Exec(s0, run + [EnqueueNext(0, choice, arg)]) == t
  {
    Follow(s0, run, Requesting(s, e), EnqueueNext(0, choice, arg));
    RequestRebind(e, e);
  }

  /* -------------------------------------- cancellation -------------------------------------- */

  function Unlinked(s: State, id: Id, keep: bool): State {
    if keep || id !in s.files then s else s.(files := s.files - {id}, unlinked := s.unlinked + {id})
  }

  function CancelledRow(s: State, id: Id): State
    requires id in s.rows
  {
    s.(rows := s.rows[id := s.rows[id].(status := Cancelled)], unlinked := s.unlinked - {id})
  }

  lemma UnlinkIsRun(s0: State, run: seq<Action>, s: State, e: Enqueue, todo: set<Id>, id: Id, keep: bool)
    returns (run': seq<Action>)
    requires Exec(s0, run) == Requesting(s, e.(pc := Cancelling(todo))) && id in todo
    requires OfRequest(run) && run != []
    ensures Exec(s0, run') == Requesting(Unlinked(s, id, keep), e.(pc := CancelSaving(id, todo - {id})))
    ensures OfRequest(run') && run' != []
  {
    var choice := if keep then Error else Ok;
    UnlinkStepIs(s, e, todo, id, keep);
    RequestMoves(s0, run, s, e.(pc := Cancelling(todo)), choice, id, e.(pc := CancelSaving(id, todo - {id})),
                 Unlinked(s, id, keep));
    run' := run + [EnqueueNext(0, choice, id)];
  }

  lemma UnlinkStepIs(s: State, e: Enqueue, todo: set<Id>, id: Id, keep: bool)
    requires id in todo
    ensures var e1, e2 := e.(pc := Cancelling(todo)), e.(pc := CancelSaving(id, todo - {id}));
            EnqueueStep(Requesting(s, e1), 0, if keep then Error else Ok, id)
            == Unlinked(s, id, keep).(enqueues := map[0 := e1][0 := e2])
  {
    var s1 := Requesting(s, e.(pc := Cancelling(todo)));
    assert EnqueueStep(s1, 0, if keep then Error else Ok, id) == CancelUnlink(s1, 0, !keep, id, todo - {id});
  }

  lemma SaveIsRun(s0: State, run: seq<Action>, s: State, e: Enqueue, todo: set<Id>, id: Id, save: bool)
    returns (run': seq<Action>)
    requires Exec(s0, run) == Requesting(s, e.(pc := CancelSaving(id, todo))) && id in s.rows && s.enqueues == map[]
    requires OfRequest(run) && run != []
    ensures save ==> Exec(s0, run') == Requesting(CancelledRow(s, id), e.(pc := Cancelling(todo)))
    ensures !save ==> Exec(s0, run') == s
    ensures OfRequest(run') && run' != []
  {
    var choice := if save then Ok else Error;
    var from := e.(pc := CancelSaving(id, todo));
    if save {
      RequestMoves(s0, run, s, from, choice, 0, e.(pc := Cancelling(todo)), CancelledRow(s, id));
    } else {
      RequestEnds(s0, run, s, from, choice, 0, s);
    }
    run' := run + [EnqueueNext(0, choice, 0)];
  }

  lemma CancelIsRun(s0: State, run: seq<Action>, s: State, e: Enqueue, todo: set<Id>, id: Id, keep: bool, save: bool)
    returns (run': seq<Action>)
    requires Exec(s0, run) == Requesting(s, e.(pc := Cancelling(todo))) && id in todo && id in s.rows
             && s.enqueues == map[]
    requires OfRequest(run) && run != []
    ensures save ==> Exec(s0, run') == Requesting(CancelledRow(Unlinked(s, id, keep), id),
            e.(pc := Cancelling(todo - {id})))
    ensures !save ==> Exec(s0, run') == Unlinked(s, id, keep)
    ensures OfRequest(run') && run' != []
  {
    run' := UnlinkIsRun(s0, run, s, e, todo, id, keep);
    run' := SaveIsRun(s0, run', Unlinked(s, id, keep), e, todo - {id}, id, save);
  }

  function CancelledRows(rows: map<Id, Row>, done: set<Id>): map<Id, Row> {
    map id | id in rows :: if id in done then rows[id].(status := Cancelled) else rows[id]
  }

  /** The tables after the rows `done` are cancelled, their files gone except those that could not be deleted. */
  function CancelledSet(s: State, done: set<Id>, kept: set<Id>): State {
    s.(rows := CancelledRows(s.rows, done), files := s.files - (done - kept), unlinked := s.unlinked - done)
  }

  lemma CancelledMore(s: State, done: set<Id>, kept: set<Id>, id: Id)
    requires id in s.rows
    ensures id in CancelledSet(s, done, kept).rows
    ensures CancelledRow(Unlinked(CancelledSet(s, done, kept), id, id in kept), id)
            == CancelledSet(s, done + {id}, kept)
  {
    var t := CancelledSet(s, done, kept);
    assert CancelledRows(s.rows, done)[id := s.rows[id].(status := Cancelled)] == CancelledRows(s.rows, done + {id});
    assert s.unlinked - (done + {id}) == (s.unlinked - done) - {id} == ((s.unlinked - done) + {id}) - {id};
    if id in kept || id !in t.files {
      assert s.files - (done + {id} - kept) == t.files;
    } else {
      assert s.files - (done + {id} - kept) == t.files - {id};
    }
  }

  /** The cancellation loop with the rows `done` behind it, after a run from s0. */
  ghost predicate CancelsSoFar(s0: State, run: seq<Action>, s: State, e: Enqueue, todo: set<Id>, done: set<Id>,
                               kept: set<Id>, t: State) {
    && Exec(s0, run) == Requesting(t, e.(pc := Cancelling(todo))) && OfRequest(run) && run != []
    && t == CancelledSet(s, done, kept) && s.enqueues == map[] && todo <= s.rows.Keys
  }

  lemma CancelsStart(s0: State, run: seq<Action>, s: State, e: Enqueue, todo: set<Id>, kept: set<Id>)
    requires Exec(s0, run) == Requesting(s, e.(pc := Cancelling(todo))) && s.enqueues == map[] && todo <= s.rows.Keys
    requires OfRequest(run) && run != []
    ensures CancelsSoFar(s0, run, s, e, todo, {}, kept, s)
  {
    assert CancelledRows(s.rows, {}) == s.rows && s.files - ({} - kept) == s.files && s.unlinked - {} == s.unlinked;
  }

  lemma CancelsGoOn(s0: State, run: seq<Action>, s: State, e: Enqueue, todo: set<Id>, done: set<Id>, kept: set<Id>,
                    t: State, id: Id, save: bool)
    returns (run': seq<Action>)
    requires CancelsSoFar(s0, run, s, e, todo, done, kept, t) && id in todo
    ensures id in t.rows
    ensures save ==> CancelsSoFar(s0, run', s, e, todo - {id}, done + {id}, kept,
            CancelledRow(Unlinked(t, id, id in kept), id))
    ensures !save ==> Exec(s0, run') == Unlinked(t, id, id in kept) && OfRequest(run')
  {
    CancelledMore(s, done, kept, id);
    run' := CancelIsRun(s0, run, t, e, todo, id, id in kept, save);
  }

  /* --------------------------------- buffer, create, publish --------------------------------- */

  /** The file after buffering that raised after n bytes. */
  function Partial(data: Bytes, n: nat): Bytes { if n <= |data| then data[..n] else data }

  function Discarded(s: State, id: Id, ok: bool): State { if ok then s.(files := s.files - {id}) else s }

  function RolledBack(s: State, id: Id, env: RequestEnv): State {
    if env.delete then Discarded(s.(rows := s.rows - {id}), id, env.discard) else s
  }

  function Sent(s: State, id: Id, c: Chain): State {
    s.(queue := s.queue[c := Message(id, 0, None, 0)], chains := s.chains + {c})
  }

  function Created(s: State, key: Key, data: Bytes, id: Id): State {
    s.(rows := s.rows[id := Row(key, Pending, None, s.now)], records := s.records[id := Record(key, data, |s.records|)])
  }

  function PublishOutcome(s: State, id: Id, c: Chain, env: RequestEnv): State {
    match env.publish
    case Error => RolledBack(s, id, env)
    case Odd => RolledBack(Sent(s, id, c), id, env)
    case Ok => if env.tag then Sent(s, id, c) else RolledBack(Sent(s, id, c), id, env)
  }

  function StoreOutcome(s: State, key: Key, data: Bytes, id: Id, c: Chain, env: RequestEnv): State {
    if env.buffer.Some? then s.(files := s.files[id := Partial(data, env.buffer.value)])
    else
      var s1 := s.(files := s.files[id := data]);
      if env.create then PublishOutcome(Created(s1, key, data, id), id, c, env) else Discarded(s1, id, env.discard)
  }

  lemma DiscardIsRun(s0: State, run: seq<Action>, s: State, e: Enqueue, ok: bool) returns (run': seq<Action>)
    requires Exec(s0, run) == Requesting(s, e.(pc := Discarding)) && s.enqueues == map[]
    requires OfRequest(run) && run != []
    ensures Exec(s0, run') == Discarded(s, e.id, ok)
    ensures OfRequest(run') && run' != []
  {
    var choice := if ok then Ok else Error;
    RequestEnds(s0, run, s, e.(pc := Discarding), choice, 0, Discarded(s, e.id, ok));
    run' := run + [EnqueueNext(0, choice, 0)];
  }

  lemma RollbackIsRun(s0: State, run: seq<Action>, s: State, e: Enqueue, env: RequestEnv) returns (run': seq<Action>)
    requires Exec(s0, run) == Requesting(s, e.(pc := Deleting)) && s.enqueues == map[]
    requires OfRequest(run) && run != []
    ensures Exec(s0, run') == RolledBack(s, e.id, env)
    ensures OfRequest(run') && run' != []
  {
    if env.delete {
      var t := s.(rows := s.rows - {e.id});
      RequestMoves(s0, run, s, e.(pc := Deleting), Ok, 0, e.(pc := Discarding), t);
      run' := DiscardIsRun(s0, run + [EnqueueNext(0, Ok, 0)], t, e, env.discard);
    } else {
      RequestEnds(s0, run, s, e.(pc := Deleting), Error, 0, s);
      run' := run + [EnqueueNext(0, Error, 0)];
    }
  }

  lemma TagIsRun(s0: State, run: seq<Action>, s: State, e: Enqueue, env: RequestEnv) returns (run': seq<Action>)
    requires Exec(s0, run) == Requesting(s, e.(pc := Tagging)) && s.enqueues == map[] && e.id in s.rows
    requires OfRequest(run) && run != []
    ensures Exec(s0, run') == if env.tag then s else RolledBack(s, e.id, env)
    ensures OfRequest(run') && run' != []
  {
    if env.tag {
      RequestEnds(s0, run, s, e.(pc := Tagging), Ok, 0, s);
      run' := run + [EnqueueNext(0, Ok, 0)];
    } else {
      RequestMoves(s0, run, s, e.(pc := Tagging), Error, 0, e.(pc := Deleting), s);
      run' := RollbackIsRun(s0, run + [EnqueueNext(0, Error, 0)], s, e, env);
    }
  }

  lemma PublishIsRun(s0: State, run: seq<Action>, s: State, e: Enqueue, c: Chain, env: RequestEnv)
    returns (run': seq<Action>)
    requires Exec(s0, run) == Requesting(s, e.(pc := Dispatching)) && s.enqueues == map[] && e.id in s.rows
             && c !in s.chains
    requires OfRequest(run) && run != []
    ensures Exec(s0, run') == PublishOutcome(s, e.id, c, env)
    ensures OfRequest(run') && run' != []
  {
    var pc := if env.publish.Ok? then Tagging else Deleting;
    var t := if env.publish.Error? then s else Sent(s, e.id, c);
    RequestMoves(s0, run, s, e.(pc := Dispatching), env.publish, c, e.(pc := pc), t);
    run' := run + [EnqueueNext(0, env.publish, c)];
    if env.publish.Ok? {
      run' := TagIsRun(s0, run', t, e, env);
    } else {
      run' := RollbackIsRun(s0, run', t, e, env);
    }
  }

  lemma CreateIsRun(s0: State, run: seq<Action>, s: State, e: Enqueue, c: Chain, env: RequestEnv)
    returns (run': seq<Action>)
    requires Exec(s0, run) == Requesting(s, e.(pc := Creating)) && s.enqueues == map[] && c !in s.chains
    requires OfRequest(run) && run != []
    ensures Exec(s0, run')
            == if env.create then PublishOutcome(Created(s, e.key, e.data, e.id), e.id, c, env)
               else Discarded(s, e.id, env.discard)
    ensures OfRequest(run') && run' != []
  {
    if env.create {
      RequestMoves(s0, run, s, e.(pc := Creating), Ok, 0, e.(pc := Dispatching), Created(s, e.key, e.data, e.id));
      run' := PublishIsRun(s0, run + [EnqueueNext(0, Ok, 0)], Created(s, e.key, e.data, e.id), e, c, env);
    } else {
      RequestMoves(s0, run, s, e.(pc := Creating), Error, 0, e.(pc := Discarding), s);
      run' := DiscardIsRun(s0, run + [EnqueueNext(0, Error, 0)], s, e, env.discard);
    }
  }

  lemma BufferIsRun(s0: State, run: seq<Action>, s: State, e: Enqueue, c: Chain, env: RequestEnv)
    returns (run': seq<Action>)
    requires Exec(s0, run) == Requesting(s, e.(pc := Buffering)) && s.enqueues == map[] && c !in s.chains
    requires OfRequest(run) && run != []
    ensures Exec(s0, run') == StoreOutcome(s, e.key, e.data, e.id, c, env)
    ensures OfRequest(run') && run' != []
  {
    if env.buffer.Some? {
      RequestEnds(s0, run, s, e.(pc := Buffering), Error, env.buffer.value,
                  s.(files := s.files[e.id := Partial(e.data, env.buffer.value)]));
      run' := run + [EnqueueNext(0, Error, env.buffer.value)];
    } else {
      var s1 := s.(files := s.files[e.id := e.data]);
      RequestMoves(s0, run, s, e.(pc := Buffering), Ok, 0, e.(pc := Creating), s1);
      run' := CreateIsRun(s0, run + [EnqueueNext(0, Ok, 0)], s1, e, c, env);
    }
  }

  /** Everything after the cancellations. */
  lemma StoreIsRun(s0: State, run: seq<Action>, s: State, e: Enqueue, c: Chain, env: RequestEnv)
    returns (run': seq<Action>)
    requires Exec(s0, run) == Requesting(s, e.(pc := Cancelling({}))) && s.enqueues == map[] && c !in s.chains
    requires OfRequest(run) && run != []
    ensures Exec(s0, run') == StoreOutcome(s, e.key, e.data, e.id, c, env)
    ensures OfRequest(run') && run' != []
  {
    RequestMoves(s0, run, s, e.(pc := Cancelling({})), Ok, 0, e.(pc := Buffering), s);
    run' := BufferIsRun(s0, run + [EnqueueNext(0, Ok, 0)], s, e, c, env);
  }

  function NewRequest(s: State, key: Key, data: Bytes, id: Id): Enqueue {
    Enqueue(key, data, id, LookingUp(s.now - s.stale))
  }

  lemma RequestStarts(s: State, key: Key, data: Bytes, id: Id)
    requires s.enqueues == map[] && id !in s.ids
    ensures Exec(s, [EnqueueStart(0, key, data, id)])
            == Requesting(s.(ids := s.ids + {id}), NewRequest(s, key, data, id))
  {
    assert Exec(s, []) == s && [] + [EnqueueStart(0, key, data, id)] == [EnqueueStart(0, key, data, id)];
    Follow(s, [], s, EnqueueStart(0, key, data, id));
  }

  /** Lookup and selection read nothing but the rows. */
  lemma RowsDecide(s: State, t: State, key: Key, cutoff: int)
    requires t.rows == s.rows
    ensures AnyFresh(t, key, cutoff) == AnyFresh(s, key, cutoff) && Selected(t, key, cutoff) == Selected(s, key, cutoff)
  {}

  lemma SelectStep(s: State, e: Enqueue, cutoff: int)
    requires e.pc == CancelCutoff(cutoff)
    ensures EnqueueStep(Requesting(s, e), 0, Ok, 0)
            == s.(enqueues := map[0 := e][0 := e.(pc := Cancelling(Selected(s, e.key, cutoff)))])
  {
    RowsDecide(s, Requesting(s, e), e.key, cutoff);
  }

  lemma SelectIsRun(s0: State, run: seq<Action>, s: State, e: Enqueue) returns (run': seq<Action>)
    requires Exec(s0, run) == Requesting(s, e.(pc := NoFresh))
    requires OfRequest(run) && run != []
    ensures Exec(s0, run') == Requesting(s, e.(pc := Cancelling(Selected(s, e.key, s.now - s.stale))))
    ensures OfRequest(run') && run' != []
  {
    var cutoff := s.now - s.stale;
    RequestMoves(s0, run, s, e.(pc := NoFresh), Ok, 0, e.(pc := CancelCutoff(cutoff)), s);
    SelectStep(s, e.(pc := CancelCutoff(cutoff)), cutoff);
    RequestMoves(s0, run + [EnqueueNext(0, Ok, 0)], s, e.(pc := CancelCutoff(cutoff)), Ok, 0,
                 e.(pc := Cancelling(Selected(s, e.key, cutoff))), s);
    run' := run + [EnqueueNext(0, Ok, 0)] + [EnqueueNext(0, Ok, 0)];
  }

  lemma NoneFresh(s: State, t: State, key: Key)
    requires t.rows == s.rows && t.stale == s.stale && t.now >= s.now && !AnyFresh(s, key, s.now - s.stale)
    ensures !AnyFresh(t, key, t.now - t.stale)
  {
    forall i <- t.rows ensures !FreshRow(t.rows[i], key, t.now - t.stale) {
      assert !FreshRow(s.rows[i], key, s.now - s.stale);
    }
  }

  /** The lookup: a fresh row ends the request, otherwise the rows to cancel are selected, `pause` seconds
      later and with a cutoff of that time. */
  lemma LookupIsRun(s: State, key: Key, data: Bytes, id: Id, pause: nat) returns (run: seq<Action>)
    requires s.enqueues == map[] && id !in s.ids
    ensures var s1, e := s.(ids := s.ids + {id}), NewRequest(s, key, data, id);
            var s2 := Later(s1, pause);
            Exec(s, run) == if AnyFresh(s1, key, s.now - s.stale) then s1
                            else Requesting(s2, e.(pc := Cancelling(Selected(s2, key, s2.now - s.stale))))
    ensures OfRequest(run) && run != []
  {
    var s1, e := s.(ids := s.ids + {id}), NewRequest(s, key, data, id);
    RequestStarts(s, key, data, id);
    run := [EnqueueStart(0, key, data, id)];
    LookupStep(s1, e, s.now - s.stale);
    if AnyFresh(s1, key, s.now - s.stale) {
      RequestEnds(s, run, s1, e, Ok, 0, s1);
      run := run + [EnqueueNext(0, Ok, 0)];
    } else {
      RequestMoves(s, run, s1, e, Ok, 0, e.(pc := NoFresh), s1);
      run := LookupGoesOn(s, run + [EnqueueNext(0, Ok, 0)], s1, e, pause);
    }
  }

  lemma LookupStep(s: State, e: Enqueue, cutoff: int)
    requires e.pc == LookingUp(cutoff)
    ensures EnqueueStep(Requesting(s, e), 0, Ok, 0)
            == if AnyFresh(s, e.key, cutoff) then s.(enqueues := map[0 := e] - {0})
               else s.(enqueues := map[0 := e][0 := e.(pc := NoFresh)])
  {
    RowsDecide(s, Requesting(s, e), e.key, cutoff);
  }

  lemma LookupGoesOn(s0: State, run: seq<Action>, s: State, e: Enqueue, pause: nat) returns (run': seq<Action>)
    requires Exec(s0, run) == Requesting(s, e.(pc := NoFresh))
    requires OfRequest(run) && run != []
    ensures var t := Later(s, pause);
            Exec(s0, run') == Requesting(t, e.(pc := Cancelling(Selected(t, e.key, t.now - t.stale))))
    ensures OfRequest(run') && run' != []
  {
    Follow(s0, run, Requesting(s, e.(pc := NoFresh)), Tick(pause));
    run' := SelectIsRun(s0, run + [Tick(pause)], Later(s, pause), e);
  }

  lemma RequestBegins(s: State, key: Key, data: Bytes, id: Id, pause: nat, kept: set<Id>) returns (run: seq<Action>)
    requires s.enqueues == map[] && id !in s.ids
    ensures var s1 := s.(ids := s.ids + {id});
            var s2 := Later(s1, pause);
            if AnyFresh(s1, key, s.now - s.stale) then Exec(s, run) == s1
            else CancelsSoFar(s, run, s2, NewRequest(s, key, data, id), Selected(s2, key, s2.now - s.stale), {},
                              kept, s2)
    ensures OfRequest(run) && run != []
  {
    var s1 := s.(ids := s.ids + {id});
    var s2 := Later(s1, pause);
    run := LookupIsRun(s, key, data, id, pause);
    if !AnyFresh(s1, key, s.now - s.stale) {
      CancelsStart(s, run, s2, NewRequest(s, key, data, id), Selected(s2, key, s2.now - s.stale), kept);
    }
  }

  /* ---------------------------------- what a request achieves ---------------------------------- */

  datatype EnqueueResult = Existing(id: Id) | Accepted(id: Id) | Raised

  predicate StoreSucceeds(env: RequestEnv) { env.buffer.None? && env.create && env.publish.Ok? && env.tag }

  /** The rows `stales` are cancelled and the new row is stored; or saving the status of `bad` raised
      with `done` cancelled before it. */
  ghost predicate Replaced(s: State, t: State, key: Key, data: Bytes, id: Id, env: RequestEnv,
                           ok: bool, stales: set<Id>, bad: Option<Id>, done: set<Id>, c: Chain) {
    match bad
    case Some(b) =>
      && !ok && !env.saves(b) && done <= stales && b in stales - done
      && t == Unlinked(CancelledSet(s, done, env.kept), b, b in env.kept)
    case None =>
      && ok == StoreSucceeds(env) && done == stales && c !in s.queue && c !in s.chains
      && t == StoreOutcome(CancelledSet(s, done, env.kept), key, data, id, c, env)
  }

  /** A fresh row is returned and nothing changes, or the stale rows of the path are replaced, judged by
      the clock `pause` seconds later. */
  ghost predicate Enqueued(s: State, t: State, key: Key, data: Bytes, id: Id, pause: nat, env: RequestEnv,
                           result: EnqueueResult, bad: Option<Id>, done: set<Id>, c: Chain) {
    var s1, cutoff := s.(ids := s.ids + {id}), s.now - s.stale;
    match result
    case Existing(i) => i in s.rows && FreshRow(s.rows[i], key, cutoff) && t == s1
    case Accepted(i) =>
      && i == id && !AnyFresh(s1, key, cutoff)
      && ReplacedAt(Later(s1, pause), t, key, data, id, env, true, bad, done, c)
    case Raised =>
      !AnyFresh(s1, key, cutoff) && ReplacedAt(Later(s1, pause), t, key, data, id, env, false, bad, done, c)
  }

  /** All rows are replaced that the present cutoff selects. */
  ghost predicate ReplacedAt(s: State, t: State, key: Key, data: Bytes, id: Id, env: RequestEnv, ok: bool,
                             bad: Option<Id>, done: set<Id>, c: Chain) {
    Replaced(s, t, key, data, id, env, ok, Selected(s, key, s.now - s.stale), bad, done, c)
  }

  lemma ExistingIsEnqueued(s: State, t: State, key: Key, data: Bytes, id: Id, pause: nat, env: RequestEnv, i: Id,
                           bad: Option<Id>, done: set<Id>, c: Chain)
    requires i in s.rows && FreshRow(s.rows[i], key, s.now - s.stale) && t == s.(ids := s.ids + {id})
    ensures Enqueued(s, t, key, data, id, pause, env, Existing(i), bad, done, c)
  {}

  lemma ReplacedIsEnqueued(s: State, t: State, key: Key, data: Bytes, id: Id, pause: nat, env: RequestEnv, ok: bool,
                           bad: Option<Id>, done: set<Id>, c: Chain)
    requires var s1 := s.(ids := s.ids + {id});
             && !AnyFresh(s1, key, s.now - s.stale)
             && ReplacedAt(Later(s1, pause), t, key, data, id, env, ok, bad, done, c)
    ensures Enqueued(s, t, key, data, id, pause, env, if ok then Accepted(id) else Raised, bad, done, c)
  {}

  ghost predicate SameAt(s: State, t: State, i: Id) {
    && (i in t.rows <==> i in s.rows) && (i in s.rows ==> t.rows[i] == s.rows[i])
    && (i in t.files <==> i in s.files) && (i in s.files ==> t.files[i] == s.files[i])
  }

  /** The row, if there is one, is new and has its bytes. */
  ghost predicate NewRowOk(t: State, key: Key, data: Bytes, id: Id, now: int) {
    id in t.rows ==> t.rows[id] == Row(key, Pending, None, now) && id in t.files && t.files[id] == data
  }

  lemma RollBackElsewhere(s: State, id: Id, env: RequestEnv, i: Id)
    requires i != id
    ensures SameAt(s, RolledBack(s, id, env), i)
  {}

  lemma RollBackOwn(s: State, id: Id, env: RequestEnv)
    ensures RolledBack(s, id, env) == s || id !in RolledBack(s, id, env).rows
  {}

  lemma PublishElsewhere(s: State, id: Id, c: Chain, env: RequestEnv, i: Id)
    requires i != id
    ensures SameAt(s, PublishOutcome(s, id, c, env), i)
  {
    RollBackElsewhere(s, id, env, i);
    RollBackElsewhere(Sent(s, id, c), id, env, i);
  }

  lemma PublishOwn(s: State, key: Key, data: Bytes, id: Id, c: Chain, env: RequestEnv)
    requires NewRowOk(s, key, data, id, s.now)
    ensures NewRowOk(PublishOutcome(s, id, c, env), key, data, id, s.now)
  {
    RollBackOwn(s, id, env);
    RollBackOwn(Sent(s, id, c), id, env);
  }

  /** Storing the new row touches no other row and no other file. */
  lemma StoreElsewhere(s: State, key: Key, data: Bytes, id: Id, c: Chain, env: RequestEnv, i: Id)
    requires i != id
    ensures SameAt(s, StoreOutcome(s, key, data, id, c, env), i)
  {
    if env.buffer.None? && env.create {
      var s2 := Created(s.(files := s.files[id := data]), key, data, id);
      assert SameAt(s, s2, i);
      PublishElsewhere(s2, id, c, env, i);
    }
  }

  /** The new row, if it stays, has its bytes, and it stays when nothing fails. */
  lemma StoreOwn(s: State, key: Key, data: Bytes, id: Id, c: Chain, env: RequestEnv)
    requires id !in s.rows
    ensures var t := StoreOutcome(s, key, data, id, c, env);
            && NewRowOk(t, key, data, id, s.now)
            && (StoreSucceeds(env) ==> id in t.rows && c in t.queue && t.queue[c] == Message(id, 0, None, 0))
  {
    if env.buffer.None? && env.create {
      PublishOwn(Created(s.(files := s.files[id := data]), key, data, id), key, data, id, c, env);
    }
  }

  ghost predicate OnlyLive(t: State, key: Key, id: Id) {
    forall i <- t.rows :: t.rows[i].key == key && IsLive(t.rows[i].status) ==> i == id
  }

  /** No live row of this path is left; finished rows and rows of other paths are as they were. */
  ghost predicate PathCleared(s: State, t: State, key: Key) {
    && t.rows.Keys == s.rows.Keys
    && (forall i <- t.rows :: t.rows[i].key == s.rows[i].key && (t.rows[i].key == key ==> !IsLive(t.rows[i].status)))
    && OthersStay(s, t, key)
  }

  ghost predicate Untouchable(s: State, key: Key, i: Id) {
    i in s.rows && (s.rows[i].key != key || !IsLive(s.rows[i].status))
  }

  /** Rows of other paths and finished rows are as they were, and so are their files. */
  ghost predicate OthersStay(s: State, t: State, key: Key) {
    forall i <- s.rows :: Untouchable(s, key, i) ==> SameAt(s, t, i)
  }

  /** A cancellation that raised: exactly the rows `done` are CANCELLED, the other live rows of the path
      are as they were, nothing is created and no message is sent. */
  ghost predicate CancelStopped(s: State, t: State, key: Key, done: set<Id>) {
    && t.rows.Keys == s.rows.Keys && t.queue == s.queue
    && (forall i <- t.rows :: t.rows[i] == if i in done then s.rows[i].(status := Cancelled) else s.rows[i])
    && (forall i <- done :: i in s.rows && s.rows[i].key == key && IsLive(s.rows[i].status))
  }

  /** Saving the status of `bad` raised. */
  lemma ReplacedStops(s: State, t: State, key: Key, data: Bytes, id: Id, env: RequestEnv, ok: bool, bad: Id,
                      done: set<Id>, c: Chain)
    requires Replaced(s, t, key, data, id, env, ok, Selected(s, key, s.now - s.stale), Some(bad), done, c)
    ensures !ok && CancelStopped(s, t, key, done) && OthersStay(s, t, key)
    ensures LiveRow(t, bad) && t.rows[bad].key == key
  {
    ReplacedStopsAt(s, t, key, data, id, env, ok, Selected(s, key, s.now - s.stale), bad, done, c);
    StoppedAt(s, t, key, bad, done, env.kept);
  }

  lemma ReplacedStopsAt(s: State, t: State, key: Key, data: Bytes, id: Id, env: RequestEnv, ok: bool, stales: set<Id>,
                        bad: Id, done: set<Id>, c: Chain)
    requires Replaced(s, t, key, data, id, env, ok, stales, Some(bad), done, c)
    ensures !ok && done <= stales && bad in stales - done
    ensures t == Unlinked(CancelledSet(s, done, env.kept), bad, bad in env.kept)
  {}

  lemma StoppedAt(s: State, t: State, key: Key, bad: Id, done: set<Id>, kept: set<Id>)
    requires var stales := Selected(s, key, s.now - s.stale); done <= stales && bad in stales - done
    requires t == Unlinked(CancelledSet(s, done, kept), bad, bad in kept)
    ensures CancelStopped(s, t, key, done) && OthersStay(s, t, key)
    ensures LiveRow(t, bad) && t.rows[bad].key == key
  {
    StoppedTables(s, t, bad, done, kept);
    StoppedRows(s, t, key, bad, done);
    StoppedElsewhere(s, t, key, done, done + {bad} - kept);
  }

  lemma StoppedTables(s: State, t: State, bad: Id, done: set<Id>, kept: set<Id>)
    requires t == Unlinked(CancelledSet(s, done, kept), bad, bad in kept)
    ensures t.rows == CancelledRows(s.rows, done) && t.queue == s.queue && t.files == s.files - (done + {bad} - kept)
  {}

  lemma StoppedRows(s: State, t: State, key: Key, bad: Id, done: set<Id>)
    requires var stales := Selected(s, key, s.now - s.stale); done <= stales && bad in stales - done
    requires t.rows == CancelledRows(s.rows, done) && t.queue == s.queue
    ensures CancelStopped(s, t, key, done) && LiveRow(t, bad) && t.rows[bad].key == key
  {}

  lemma StoppedElsewhere(s: State, t: State, key: Key, done: set<Id>, gone: set<Id>)
    requires done + gone <= Selected(s, key, s.now - s.stale)
    requires t.rows == CancelledRows(s.rows, done) && t.files == s.files - gone
    ensures OthersStay(s, t, key)
  {
    forall i <- s.rows | Untouchable(s, key, i) ensures SameAt(s, t, i) {
      assert i !in Selected(s, key, s.now - s.stale);
      assert i !in done + gone;
    }
  }

  lemma CancellingClearsPath(s: State, key: Key, kept: set<Id>)
    requires !AnyFresh(s, key, s.now - s.stale)
    ensures PathCleared(s, CancelledSet(s, Selected(s, key, s.now - s.stale), kept), key)
  {
    var cutoff := s.now - s.stale;
    forall i <- s.rows | s.rows[i].key == key && IsLive(s.rows[i].status) ensures i in Selected(s, key, cutoff) {
      assert !FreshRow(s.rows[i], key, cutoff);
    }
  }

  lemma ClearedThenStored(s: State, mid: State, t: State, key: Key, id: Id)
    requires id !in s.rows && PathCleared(s, mid, key) && forall i :: i != id ==> SameAt(mid, t, i)
    ensures OnlyLive(t, key, id)
    ensures OthersStay(s, t, key)
  {
    forall i <- t.rows | i != id ensures t.rows[i].key == key ==> !IsLive(t.rows[i].status) {
      assert SameAt(mid, t, i);
    }
    forall i <- s.rows | Untouchable(s, key, i) ensures SameAt(s, t, i) {
      assert SameAt(s, mid, i) && SameAt(mid, t, i);
    }
  }

  lemma StoreElsewhereAll(s: State, key: Key, data: Bytes, id: Id, c: Chain, env: RequestEnv, t: State)
    requires t == StoreOutcome(s, key, data, id, c, env)
    ensures forall i :: i != id ==> SameAt(s, t, i)
  {
    forall i | i != id ensures SameAt(s, t, i) { StoreElsewhere(s, key, data, id, c, env, i); }
  }

  lemma ReplacedMeans(s: State, t: State, key: Key, data: Bytes, id: Id, env: RequestEnv, ok: bool, stales: set<Id>,
                      done: set<Id>, c: Chain)
    requires Replaced(s, t, key, data, id, env, ok, stales, None, done, c)
    ensures done == stales && t == StoreOutcome(CancelledSet(s, stales, env.kept), key, data, id, c, env)
            && ok == StoreSucceeds(env)
  {}

  lemma ReplacedLeavesOneLiveRow(s: State, t: State, key: Key, data: Bytes, id: Id, env: RequestEnv, ok: bool,
                                 done: set<Id>, c: Chain)
    requires !AnyFresh(s, key, s.now - s.stale) && id !in s.rows
    requires Replaced(s, t, key, data, id, env, ok, Selected(s, key, s.now - s.stale), None, done, c)
    ensures OnlyLive(t, key, id)
    ensures NewRowOk(t, key, data, id, s.now)
    ensures ok ==> id in t.rows && c in t.queue && t.queue[c] == Message(id, 0, None, 0)
    ensures OthersStay(s, t, key)
  {
    var stales := Selected(s, key, s.now - s.stale);
    var mid := CancelledSet(s, stales, env.kept);
    ReplacedMeans(s, t, key, data, id, env, ok, stales, done, c);
    CancellingClearsPath(s, key, env.kept);
    StoreOwn(mid, key, data, id, c, env);
    StoreElsewhereAll(mid, key, data, id, c, env, t);
    ClearedThenStored(s, mid, t, key, id);
  }

  lemma EnqueuedReplaced(s: State, t: State, key: Key, data: Bytes, id: Id, pause: nat, env: RequestEnv,
                         result: EnqueueResult, bad: Option<Id>, done: set<Id>, c: Chain)
    requires !result.Existing? && Enqueued(s, t, key, data, id, pause, env, result, bad, done, c)
    ensures var s2 := Later(s.(ids := s.ids + {id}), pause);
            && !AnyFresh(s2, key, s2.now - s2.stale)
            && ReplacedAt(s2, t, key, data, id, env, result.Accepted?, bad, done, c)
    ensures result.Accepted? ==> result.id == id
  {
    var s1 := s.(ids := s.ids + {id});
    NoneFresh(s1, Later(s1, pause), key);
  }

  lemma OthersStayToo(s: State, s1: State, t: State, key: Key)
    requires s1.rows == s.rows && s1.files == s.files && OthersStay(s1, t, key)
    ensures OthersStay(s, t, key)
  {
    forall i <- s.rows | Untouchable(s, key, i) ensures SameAt(s, t, i) {
      assert Untouchable(s1, key, i) && SameAt(s1, t, i);
    }
  }

  /** One live row per path: an accepted request leaves its own row as the only live row of the path,
      with its bytes in the temp file and its message queued; a request that raised after the
      cancellations leaves its row, if at all, PENDING with its bytes; one whose cancellation raised
      (`bad`) leaves the rows it had not yet reached.  Rows of other paths and finished rows are as
      before, with their bytes. */
  lemma RequestLeavesOneLiveRow(s: State, t: State, key: Key, data: Bytes, id: Id, pause: nat, env: RequestEnv,
                                result: EnqueueResult, bad: Option<Id>, done: set<Id>, c: Chain)
    requires id !in s.rows && !result.Existing? && Enqueued(s, t, key, data, id, pause, env, result, bad, done, c)
    ensures OthersStay(s, t, key)
    ensures bad.None? ==> OnlyLive(t, key, id)
    ensures NewRowOk(t, key, data, id, s.now + pause)
    ensures result.Accepted?
            ==> bad.None? && result.id == id && id in t.rows && c in t.queue && t.queue[c] == Message(id, 0, None, 0)
    ensures bad.Some? ==> CancelStopped(s, t, key, done) && LiveRow(t, bad.value) && t.rows[bad.value].key == key
  {
    var s2 := Later(s.(ids := s.ids + {id}), pause);
    EnqueuedReplaced(s, t, key, data, id, pause, env, result, bad, done, c);
    match bad
    case Some(b) => ReplacedStops(s2, t, key, data, id, env, result.Accepted?, b, done, c);
    case None => ReplacedLeavesOneLiveRow(s2, t, key, data, id, env, result.Accepted?, done, c);
    OthersStayToo(s, s2, t, key);
  }

  /* ----------------------- a request in terms of the tables before it ----------------------- */

  /** UPLOADING for this key, with a claim no older than the cutoff. */
  predicate InWork(r: Row, key: Key, cutoff: int) {
    r.key == key && r.status == Uploading && r.claimedAt.Some? && r.claimedAt.value >= cutoff
  }

  /** The rows of this key that are PENDING, or UPLOADING without a claim or with one before the cutoff. */
  function ToCancel(rows: map<Id, Row>, key: Key, cutoff: int): set<Id> {
    set id | id in rows && rows[id].key == key
             && (rows[id].status == Pending
                 || (rows[id].status == Uploading && (rows[id].claimedAt.None? || rows[id].claimedAt.value < cutoff)))
  }

  /** Of the rows and files with other names, exactly `cancelled` are set to CANCELLED and the files `gone` removed. */
  ghost predicate OldOnes(s: State, t: State, cancelled: set<Id>, gone: set<Id>, id: Id) {
    && (forall i :: i != id ==> (i in t.rows <==> i in s.rows))
    && (forall i <- s.rows :: i != id ==>
          t.rows[i] == if i in cancelled then s.rows[i].(status := Cancelled) else s.rows[i])
    && (forall i :: i != id ==> (i in t.files <==> i in s.files && i !in gone))
    && (forall i <- t.files :: i != id ==> t.files[i] == s.files[i])
  }

  predicate Buffers(env: RequestEnv) { env.buffer.None? }

  predicate Creates(env: RequestEnv) { env.buffer.None? && env.create }

  /** The row was created but its message did not go out, or went out and could not be noted. */
  predicate DispatchFails(env: RequestEnv) { Creates(env) && (env.publish != Ok || !env.tag) }

  function FirstBytes(data: Bytes, n: nat): (r: Bytes)
    ensures r <= data && |r| == if n <= |data| then n else |data|
  {
    Partial(data, n)
  }

  /** The new row, its record, its file and its message, whatever failed on the way: a row whose dispatch failed
      is deleted again if it can be, a file without a row is deleted if it can be, and a message goes out
      unless publishing raised before it did. */
  ghost predicate NewOnes(s: State, t: State, key: Key, data: Bytes, id: Id, env: RequestEnv, c: Chain) {
    && (id in t.rows <==> Creates(env) && !(DispatchFails(env) && env.delete))
    && (id in t.rows ==> t.rows[id] == Row(key, Pending, None, s.now))
    && (id in t.files <==> !(Buffers(env) && env.discard && (!Creates(env) || (DispatchFails(env) && env.delete))))
    && (id in t.files ==> t.files[id] == if Buffers(env) then data else FirstBytes(data, env.buffer.value))
    && t.records == (if Creates(env) then s.records[id := Record(key, data, |s.records|)] else s.records)
    && t.queue == (if Creates(env) && env.publish != Error then s.queue[c := Message(id, 0, None, 0)] else s.queue)
  }

  ghost predicate NothingNew(s: State, t: State, id: Id) {
    && (id in t.rows <==> id in s.rows) && (id in t.files ==> id in s.files)
    && t.records == s.records && t.queue == s.queue
  }

  /** The backend, its log and the claims are not a request's business. */
  ghost predicate OnlyRequestTables(s: State, t: State) {
    t == s.(now := t.now, ids := t.ids, rows := t.rows, files := t.files, records := t.records, queue := t.queue,
            chains := t.chains, unlinked := t.unlinked)
  }

  /** What one request does to the tables, case by case: a row in work is returned and nothing changes;
      saving a cancellation raised; or all stale rows of the path are cancelled and the new one is stored. */
  ghost predicate Requested(s: State, t: State, key: Key, data: Bytes, id: Id, pause: nat, env: RequestEnv,
                            result: EnqueueResult, bad: Option<Id>, done: set<Id>, c: Chain) {
    && OnlyRequestTables(s, t) && t.ids == s.ids + {id}
    && if exists i <- s.rows :: InWork(s.rows[i], key, s.now - s.stale) then
         && result.Existing? && result.id in s.rows && InWork(s.rows[result.id], key, s.now - s.stale)
         && t == s.(ids := s.ids + {id})
       else
         var stales := ToCancel(s.rows, key, s.now + pause - s.stale);
         && t.now == s.now + pause
         && match bad
            case Some(b) =>
              && result == Raised && done < stales && b in stales - done && !env.saves(b)
              && OldOnes(s, t, done, done + {b} - env.kept, id) && NothingNew(s, t, id)
            case None =>
              && result == (if Creates(env) && !DispatchFails(env) then Accepted(id) else Raised)
              && OldOnes(s, t, stales, stales - env.kept, id)
              && NewOnes(s.(now := t.now), t, key, data, id, env, c) && c !in s.queue
  }

  lemma SelectedAreToCancel(s: State, key: Key, cutoff: int)
    ensures Selected(s, key, cutoff) == ToCancel(s.rows, key, cutoff)
    ensures AnyFresh(s, key, cutoff) <==> exists i <- s.rows :: InWork(s.rows[i], key, cutoff)
  {
    forall i <- s.rows ensures FreshRow(s.rows[i], key, cutoff) <==> InWork(s.rows[i], key, cutoff) {}
  }

  lemma CancelledOnes(s: State, t: State, cancelled: set<Id>, gone: set<Id>, id: Id)
    requires t.rows == CancelledRows(s.rows, cancelled) && t.files == s.files - gone
    ensures OldOnes(s, t, cancelled, gone, id)
  {}

  lemma OldOnesStay(s: State, mid: State, t: State, cancelled: set<Id>, gone: set<Id>, id: Id)
    requires OldOnes(s, mid, cancelled, gone, id) && forall i :: i != id ==> SameAt(mid, t, i)
    ensures OldOnes(s, t, cancelled, gone, id)
  {
    forall i | i != id ensures
        && (i in t.rows <==> i in s.rows) && (i in t.files <==> i in s.files && i !in gone)
        && (i in s.rows ==> t.rows[i] == mid.rows[i]) && (i in t.files ==> t.files[i] == s.files[i]) {
      assert SameAt(mid, t, i);
    }
  }

  lemma RollbackMeans(s: State, id: Id, env: RequestEnv)
    requires id in s.rows && id in s.files
    ensures var t := RolledBack(s, id, env);
            && (id in t.rows <==> !env.delete) && (id in t.rows ==> t.rows[id] == s.rows[id])
            && (id in t.files <==> !(env.delete && env.discard)) && (id in t.files ==> t.files[id] == s.files[id])
            && t == s.(rows := t.rows, files := t.files)
  {}

  lemma PublishMeans(s: State, id: Id, c: Chain, env: RequestEnv)
    requires id in s.rows && id in s.files
    ensures var t := PublishOutcome(s, id, c, env);
            var undone := (env.publish != Ok || !env.tag) && env.delete;
            && (id in t.rows <==> !undone) && (id in t.rows ==> t.rows[id] == s.rows[id])
            && (id in t.files <==> !(undone && env.discard)) && (id in t.files ==> t.files[id] == s.files[id])
            && t.queue == (if env.publish != Error then s.queue[c := Message(id, 0, None, 0)] else s.queue)
            && t == s.(rows := t.rows, files := t.files, queue := t.queue, chains := t.chains)
  {
    RollbackMeans(s, id, env);
    RollbackMeans(Sent(s, id, c), id, env);
  }

  lemma StoreMeans(s: State, key: Key, data: Bytes, id: Id, c: Chain, env: RequestEnv)
    requires id !in s.rows
    ensures var t := StoreOutcome(s, key, data, id, c, env);
            && NewOnes(s, t, key, data, id, env, c)
            && t == s.(rows := t.rows, files := t.files, records := t.records, queue := t.queue, chains := t.chains)
  {
    if Creates(env) {
      CreatedMeans(s, key, data, id, c, env);
    } else if Buffers(env) {
      assert StoreOutcome(s, key, data, id, c, env) == Discarded(s.(files := s.files[id := data]), id, env.discard);
    }
  }

  lemma CreatedMeans(s: State, key: Key, data: Bytes, id: Id, c: Chain, env: RequestEnv)
    requires id !in s.rows && Creates(env)
    ensures var t := StoreOutcome(s, key, data, id, c, env);
            && NewOnes(s, t, key, data, id, env, c)
            && t == s.(rows := t.rows, files := t.files, records := t.records, queue := t.queue, chains := t.chains)
  {
    PublishMeans(Created(s.(files := s.files[id := data]), key, data, id), id, c, env);
  }

  lemma StoppedMeans(s: State, t: State, key: Key, data: Bytes, id: Id, pause: nat, env: RequestEnv, bad: Id,
                     done: set<Id>, c: Chain)
    requires id !in s.rows
    requires var s2 := Later(s.(ids := s.ids + {id}), pause);
             && !AnyFresh(s, key, s.now - s.stale)
             && ReplacedAt(s2, t, key, data, id, env, false, Some(bad), done, c)
    ensures Requested(s, t, key, data, id, pause, env, Raised, Some(bad), done, c)
  {
    var s2 := Later(s.(ids := s.ids + {id}), pause);
    SelectedAreToCancel(s, key, s.now - s.stale);
    SelectedAreToCancel(s2, key, s2.now - s.stale);
    ReplacedStopsAt(s2, t, key, data, id, env, false, Selected(s2, key, s2.now - s.stale), bad, done, c);
    StoppedTables(s2, t, bad, done, env.kept);
    CancelledOnes(s, t, done, done + {bad} - env.kept, id);
  }

  lemma StoredOnes(s: State, mid: State, t: State, key: Key, data: Bytes, id: Id, env: RequestEnv, stales: set<Id>,
                   c: Chain)
    requires id !in s.rows
    requires mid == CancelledSet(s, stales, env.kept) && t == StoreOutcome(mid, key, data, id, c, env)
    ensures OldOnes(s, t, stales, stales - env.kept, id) && NewOnes(s, t, key, data, id, env, c)
    ensures OnlyRequestTables(s, t) && t.now == s.now && t.ids == s.ids
  {
    CancelledOnes(s, mid, stales, stales - env.kept, id);
    StoreElsewhereAll(mid, key, data, id, c, env, t);
    OldOnesStay(s, mid, t, stales, stales - env.kept, id);
    StoreMeans(mid, key, data, id, c, env);
  }

  lemma StoredMeans(s: State, t: State, key: Key, data: Bytes, id: Id, pause: nat, env: RequestEnv, ok: bool,
                    done: set<Id>, c: Chain)
    requires id !in s.rows
    requires var s2 := Later(s.(ids := s.ids + {id}), pause);
             && !AnyFresh(s, key, s.now - s.stale)
             && ReplacedAt(s2, t, key, data, id, env, ok, None, done, c)
    ensures Requested(s, t, key, data, id, pause, env, if ok then Accepted(id) else Raised, None, done, c)
  {
    var s2 := Later(s.(ids := s.ids + {id}), pause);
    var stales := Selected(s2, key, s2.now - s.stale);
    SelectedAreToCancel(s2, key, s2.now - s.stale);
    ReplacedMeans(s2, t, key, data, id, env, ok, stales, done, c);
    StoredOnes(s2, CancelledSet(s2, stales, env.kept), t, key, data, id, env, stales, c);
    SameOnes(s, s2, t, key, data, id, env, stales, c);
    StoredIsRequested(s, t, key, data, id, pause, env, ok, stales, c);
  }

  lemma StoredIsRequested(s: State, t: State, key: Key, data: Bytes, id: Id, pause: nat, env: RequestEnv, ok: bool,
                          stales: set<Id>, c: Chain)
    requires stales == ToCancel(s.rows, key, s.now + pause - s.stale) && !AnyFresh(s, key, s.now - s.stale)
    requires OldOnes(s, t, stales, stales - env.kept, id) && NewOnes(s.(now := t.now), t, key, data, id, env, c)
    requires t.now == s.now + pause && t.ids == s.ids + {id} && OnlyRequestTables(s, t) && c !in s.queue
    requires ok == StoreSucceeds(env)
    ensures Requested(s, t, key, data, id, pause, env, if ok then Accepted(id) else Raised, None, stales, c)
  {
    SelectedAreToCancel(s, key, s.now - s.stale);
  }

  lemma SameOnes(s: State, s2: State, t: State, key: Key, data: Bytes, id: Id, env: RequestEnv, stales: set<Id>,
                 c: Chain)
    requires s2 == s.(now := t.now, ids := t.ids)
    requires OldOnes(s2, t, stales, stales - env.kept, id) && NewOnes(s2, t, key, data, id, env, c)
    ensures OldOnes(s, t, stales, stales - env.kept, id)
    ensures NewOnes(s.(now := t.now), t, key, data, id, env, c)
  {}

  /** A request does what its case says, in its answer and in every table. */
  lemma EnqueuedMeans(s: State, t: State, key: Key, data: Bytes, id: Id, pause: nat, env: RequestEnv,
                      result: EnqueueResult, bad: Option<Id>, done: set<Id>, c: Chain)
    requires id !in s.rows && Enqueued(s, t, key, data, id, pause, env, result, bad, done, c)
    ensures Requested(s, t, key, data, id, pause, env, result, bad, done, c)
  {
    var s1 := s.(ids := s.ids + {id});
    RowsDecide(s, s1, key, s.now - s.stale);
    if result.Existing? {
      SelectedAreToCancel(s, key, s.now - s.stale);
      assert InWork(s.rows[result.id], key, s.now - s.stale);
    } else {
      match bad
      case Some(b) =>
        ReplacedStopsAt(Later(s1, pause), t, key, data, id, env, result.Accepted?,
                        Selected(Later(s1, pause), key, s.now + pause - s.stale), b, done, c);
        StoppedMeans(s, t, key, data, id, pause, env, b, done, c);
      case None => StoredMeans(s, t, key, data, id, pause, env, result.Accepted?, done, c);
    }
  }
}
