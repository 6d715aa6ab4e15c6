/**
 One uninterrupted delivery of upload_to_backend as a function of the tables and of what the outside
 world does, that it is a run of the protocol, and how it leaves the row it is for.
 */
module UploadService {
  import opened Basics
  import opened UploadProtocol

  /** What the outside world does during one delivery: the time between the reading of the cutoff and the
      claim, is the backend found, how long and how do the write and its return go, can the temp file be
      deleted afterwards. */
  datatype Env = Env(pause: nat, lookup: bool, work: nat, write: Choice, ack: Choice, unlink: bool)

  /** The actions are deliveries of one chain, its work, and the clock. */
  predicate OfChain(run: seq<Action>, c: Chain) {
    forall a <- run :: a.Tick? || a == Deliver(c) || (a.Work? && a.c == c)
  }

  lemma Follow(s: State, trace: seq<Action>, u: State, a: Action)
    requires Exec(s, trace) == u
    ensures Exec(s, trace + [a]) == Step(u, a)
  {
    ExecConcat(s, trace, [a]);
    assert [a][1..] == [];
  }

  function Later(s: State, d: nat): State { s.(now := s.now + d) }

  /** The protocol state in which worker `c` is running and has `w` in its hands. */
  function Busy(s: State, c: Chain, w: Worker): State { s.(workers := map[c := w]) }

  /** One action of the running worker; `t` is what it leaves behind, `w'` where it goes on. */
  lemma BusyMoves(s0: State, trace: seq<Action>, s: State, c: Chain, w: Worker, choice: Choice, w': Worker, t: State)
    requires Exec(s0, trace) == Busy(s, c, w)
    requires WorkStep(Busy(s, c, w), c, choice) == t.(workers := map[c := w][c := w'])
    ensures Exec(s0, trace + [Work(c, choice)]) == Busy(t, c, w')
  {
    Follow(s0, trace, Busy(s, c, w), Work(c, choice));
    Rebind(c, w, w');
  }

  lemma BusyWaits(s0: State, trace: seq<Action>, s: State, c: Chain, w: Worker, d: nat)
    requires Exec(s0, trace) == Busy(s, c, w)
    ensures Exec(s0, trace + [Tick(d)]) == Busy(Later(s, d), c, w)
  {
    Follow(s0, trace, Busy(s, c, w), Tick(d));
  }

  lemma Rebind(c: Chain, w: Worker, w': Worker)
    ensures map[c := w][c := w'] == map[c := w'] && map[c := w] - {c} == map[]
  {}

  lemma BusyEnds(s0: State, trace: seq<Action>, s: State, c: Chain, w: Worker, choice: Choice, t: State)
    requires Exec(s0, trace) == Busy(s, c, w) && WorkStep(Busy(s, c, w), c, choice) == t
    ensures Exec(s0, trace + [Work(c, choice)]) == t
  {
    Follow(s0, trace, Busy(s, c, w), Work(c, choice));
  }

  lemma BusyLeaves(s: State, c: Chain, w: Worker)
    requires s.workers == map[]
    ensures Leave(Busy(s, c, w), c) == s
  {
    Rebind(c, w, w);
  }

  function FailRow(s: State, id: Id): State {
    if HasStatus(s, id, Uploading) then s.(rows := s.rows[id := s.rows[id].(status := Failed)]) else s
  }

  function ClaimedRow(s: State, id: Id): State
    requires id in s.rows
  {
    s.(rows := s.rows[id := s.rows[id].(status := Uploading, claimedAt := Some(s.now))],
       claimLog := s.claimLog + [Claim(id, s.now)])
  }

  lemma FailingStep(s: State, c: Chain, w: Worker)
    requires s.workers == map[] && w.pc.Failing?
    ensures FailStep(Busy(s, c, w), c) == FailRow(s, w.id)
  {
    BusyLeaves(s, c, w);
    Rebind(c, w, w);
  }

  lemma BusyFails(s0: State, trace: seq<Action>, s: State, c: Chain, w: Worker)
    requires Exec(s0, trace) == Busy(s, c, w) && s.workers == map[] && w.pc.Failing?
    ensures Exec(s0, trace + [Work(c, Ok)]) == FailRow(s, w.id)
  {
    FailingStep(s, c, w);
    BusyEnds(s0, trace, s, c, w, Ok, FailStep(Busy(s, c, w), c));
  }

  /** The temp file is looked for, then the backend. */
  lemma BusyChecks(s0: State, trace: seq<Action>, s: State, c: Chain, w: Worker, lookup: bool)
    requires Exec(s0, trace) == Busy(s, c, w) && w.pc.Owner?
    ensures w.id !in s.files ==> Exec(s0, trace + [Work(c, Ok)]) == Busy(s, c, w.(pc := Failing))
    ensures w.id in s.files ==>
              Exec(s0, trace + [Work(c, Ok)] + [Work(c, if lookup then Ok else Error)])
              == Busy(s, c, w.(pc := if lookup then BackendFound else Failing))
  {
    var pc := if w.id in s.files then TempSeen else Failing;
    BusyMoves(s0, trace, s, c, w, Ok, w.(pc := pc), s);
    if w.id in s.files {
      BusyMoves(s0, trace + [Work(c, Ok)], s, c, w.(pc := TempSeen), if lookup then Ok else Error,
                w.(pc := if lookup then BackendFound else Failing), s);
    }
  }

  /** The re-check of the status, and the opening of the file. */
  lemma BusyOpens(s0: State, trace: seq<Action>, s: State, c: Chain, w: Worker)
    requires Exec(s0, trace) == Busy(s, c, w) && w.pc.BackendFound? && HasStatus(s, w.id, Uploading) && w.id in s.files
    ensures Exec(s0, trace + [Work(c, Ok)] + [Work(c, Ok)]) == Busy(s, c, w.(pc := Writing(s.files[w.id])))
  {
    BusyMoves(s0, trace, s, c, w, Ok, w.(pc := Rechecked), s);
    BusyMoves(s0, trace + [Work(c, Ok)], s, c, w.(pc := Rechecked), Ok, w.(pc := Writing(s.files[w.id])), s);
  }

  function StoredBytes(s: State, w: Worker): State
    requires w.pc.Writing?
  {
    s.(backend := s.backend[w.key := w.pc.bytes], log := s.log + [Entry(w.id, w.key, w.pc.bytes)])
  }

  function Requeued(s: State, c: Chain, w: Worker): State {
    s.(queue := s.queue[c := Message(w.id, w.retries + 1, w.claim, w.waited + Pow4(w.retries))])
  }

  function FinishedRow(s: State, id: Id): State
    requires id in s.rows
  {
    s.(rows := s.rows[id := s.rows[id].(status := Done)])
  }

  /** The message is taken, the row and the clock are read. */
  function Received(m: Message, r: Row, cutoff: int): Worker {
    Worker(m.id, r.key, m.retries, m.claim, m.waited, CutoffRead(r.status, r.claimedAt, cutoff))
  }

  /** The delivery is dropped: no live row, or a first delivery that finds a fresh claim. */
  predicate Drops(s: State, m: Message) {
    !LiveRow(s, m.id) ||
    (m.retries == 0 && s.rows[m.id].status == Uploading && !StaleClaim(s.rows[m.id], s.now - s.stale))
  }

  lemma BusyStarts(s: State, c: Chain)
    requires c in s.queue && s.workers == map[]
    ensures Exec(s, [Deliver(c)]) == DeliverStep(s, c)
    ensures LiveRow(s, s.queue[c].id) ==>
              Exec(s, [Deliver(c)] + [Work(c, Ok)])
              == Busy(s.(queue := s.queue - {c}), c, Received(s.queue[c], s.rows[s.queue[c].id], s.now - s.stale))
  {
    assert Exec(s, []) == s;
    Follow(s, [], s, Deliver(c));
    assert [] + [Deliver(c)] == [Deliver(c)];
    if LiveRow(s, s.queue[c].id) {
      var m := s.queue[c];
      var r := s.rows[m.id];
      var w := Received(m, r, s.now - s.stale);
      assert DeliverStep(s, c) == Busy(s.(queue := s.queue - {c}), c, w.(pc := Fetched(r.status, r.claimedAt)));
      BusyMoves(s, [Deliver(c)], s.(queue := s.queue - {c}), c, w.(pc := Fetched(r.status, r.claimedAt)), Ok, w,
                s.(queue := s.queue - {c}));
    }
  }

  /** The claim section, for a row nobody has changed since it was read. */
  lemma BusyClaims(s0: State, trace: seq<Action>, s: State, c: Chain, w: Worker, r: Row, cutoff: int)
    requires Exec(s0, trace) == Busy(s, c, w) && s.workers == map[]
    requires w.id in s.rows && s.rows[w.id] == r && IsLive(r.status)
             && w.pc == CutoffRead(r.status, r.claimedAt, cutoff)
    ensures var claims := r.status == Pending || (w.retries == 0 && StaleClaim(r, cutoff));
            Exec(s0, trace + [Work(c, Ok)]) ==
            if claims then Busy(ClaimedRow(s, w.id), c, w.(claim := Some(s.now), pc := Owner))
            else if w.retries == 0 then s
            else Busy(s, c, w.(pc := Owner))
  {
    if r.status == Pending || (w.retries == 0 && StaleClaim(r, cutoff)) {
      BusyMoves(s0, trace, s, c, w, Ok, w.(claim := Some(s.now), pc := Owner), ClaimedRow(s, w.id));
    } else if w.retries == 0 {
      BusyLeaves(s, c, w);
      BusyEnds(s0, trace, s, c, w, Ok, Leave(Busy(s, c, w), c));
    } else {
      BusyMoves(s0, trace, s, c, w, Ok, w.(pc := Owner), s);
    }
  }

  /** An error of the backend is retried or, after the last retry, final. */
  lemma BusyErrs(s0: State, trace: seq<Action>, s: State, c: Chain, w: Worker)
    requires Exec(s0, trace) == Busy(s, c, w) && s.workers == map[] && w.pc.WriteFailed?
    ensures w.retries < MAX_RETRIES ==> Exec(s0, trace + [Work(c, Ok)]) == Requeued(s, c, w)
    ensures w.retries >= MAX_RETRIES ==> Exec(s0, trace + [Work(c, Ok)]) == Busy(s, c, w.(pc := Failing))
  {
    if w.retries < MAX_RETRIES {
      Rebind(c, w, w);
      BusyEnds(s0, trace, s, c, w, Ok, RetryStep(Busy(s, c, w), c));
    } else {
      BusyMoves(s0, trace, s, c, w, Ok, w.(pc := Failing), s);
    }
  }

  /** The final update, and the temp file of its winner. */
  lemma BusyFinishes(s0: State, trace: seq<Action>, s: State, c: Chain, w: Worker, unlink: bool)
    requires Exec(s0, trace) == Busy(s, c, w) && s.workers == map[] && w.pc.Finishing? && HasStatus(s, w.id, Uploading)
    ensures Exec(s0, trace + [Work(c, Ok)] + [Work(c, if unlink then Ok else Error)])
            == (if unlink then FinishedRow(s, w.id).(files := s.files - {w.id}) else FinishedRow(s, w.id))
  {
    var t, w' := FinishedRow(s, w.id), w.(pc := Unlinking);
    BusyMoves(s0, trace, s, c, w, Ok, w', t);
    BusyLeaves(t, c, w');
    Rebind(c, w', w');
    BusyEnds(s0, trace + [Work(c, Ok)], t, c, w', if unlink then Ok else Error,
             if unlink then UnlinkStep(Busy(t, c, w'), c) else Leave(Busy(t, c, w'), c));
  }

  /* ----------------------------- one delivery as a function ----------------------------- */

  function ErrorOutcome(s: State, c: Chain, w: Worker): State {
    if w.retries < MAX_RETRIES then Requeued(s, c, w) else FailRow(s, w.id)
  }

  function AckOutcome(t: State, c: Chain, w: Worker, env: Env): State
    requires HasStatus(t, w.id, Uploading)
  {
    match env.ack
    case Error => ErrorOutcome(t, c, w)
    case Odd => FailRow(t, w.id)
    case Ok => if env.unlink then FinishedRow(t, w.id).(files := t.files - {w.id}) else FinishedRow(t, w.id)
  }

  function StreamOutcome(s: State, c: Chain, w: Worker, env: Env): State
    requires w.pc.Writing? && HasStatus(s, w.id, Uploading)
  {
    match env.write
    case Error => ErrorOutcome(s, c, w)
    case Odd => FailRow(s, w.id)
    case Ok => AckOutcome(StoredBytes(s, w), c, w, env)
  }

  function WriteOutcome(s: State, c: Chain, w: Worker, env: Env): State {
    if w.id !in s.files || !env.lookup then FailRow(s, w.id)
    else if !HasStatus(s, w.id, Uploading) then s
    else StreamOutcome(s, c, w.(pc := Writing(s.files[w.id])), env)
  }

  predicate Reclaims(r: Row, m: Message) { r.status == Pending || m.retries == 0 }

  /** The tables after the claim section, for a delivery that goes on. */
  function Taken(s: State, c: Chain, m: Message, pause: nat): State
    requires LiveRow(s, m.id)
  {
    var s1 := Later(s.(queue := s.queue - {c}), pause);
    if Reclaims(s.rows[m.id], m) then ClaimedRow(s1, m.id) else s1
  }

  function TakenBy(s: State, m: Message, pause: nat): Worker
    requires LiveRow(s, m.id)
  {
    var r := s.rows[m.id];
    Worker(m.id, r.key, m.retries, if Reclaims(r, m) then Some(s.now + pause) else m.claim, m.waited, Owner)
  }

  function DeliveryOutcome(s: State, c: Chain, env: Env): State
    requires c in s.queue
  {
    var m := s.queue[c];
    if Drops(s, m) then s.(queue := s.queue - {c})
    else WriteOutcome(Later(Taken(s, c, m, env.pause), env.work), c, TakenBy(s, m, env.pause), env)
  }

  lemma ErrorIsRun(s0: State, trace: seq<Action>, s: State, c: Chain, w: Worker) returns (run: seq<Action>)
    requires Exec(s0, trace) == Busy(s, c, w.(pc := WriteFailed)) && s.workers == map[]
    requires OfChain(trace, c)
    ensures Exec(s0, run) == ErrorOutcome(s, c, w) && OfChain(run, c)
  {
    BusyErrs(s0, trace, s, c, w.(pc := WriteFailed));
    run := trace + [Work(c, Ok)];
    if w.retries >= MAX_RETRIES {
      BusyFails(s0, run, s, c, w.(pc := Failing));
      run := run + [Work(c, Ok)];
    }
  }

  lemma AckIsRun(s0: State, trace: seq<Action>, t: State, c: Chain, w: Worker, env: Env) returns (run: seq<Action>)
    requires Exec(s0, trace) == Busy(t, c, w.(pc := Stored)) && t.workers == map[] && HasStatus(t, w.id, Uploading)
    requires OfChain(trace, c)
    ensures Exec(s0, run) == AckOutcome(t, c, w, env) && OfChain(run, c)
  {
    var pc := match env.ack case Ok => Finishing case Error => WriteFailed case Odd => Failing;
    BusyMoves(s0, trace, t, c, w.(pc := Stored), env.ack, w.(pc := pc), t);
    run := trace + [Work(c, env.ack)];
    match env.ack
    case Error => run := ErrorIsRun(s0, run, t, c, w);
    case Odd => BusyFails(s0, run, t, c, w.(pc := Failing)); run := run + [Work(c, Ok)];
    case Ok =>
      BusyFinishes(s0, run, t, c, w.(pc := Finishing), env.unlink);
      run := run + [Work(c, Ok)] + [Work(c, if env.unlink then Ok else Error)];
  }

  lemma StreamIsRun(s0: State, trace: seq<Action>, s: State, c: Chain, w: Worker, env: Env) returns (run: seq<Action>)
    requires Exec(s0, trace) == Busy(s, c, w) && s.workers == map[] && w.pc.Writing? && HasStatus(s, w.id, Uploading)
    requires OfChain(trace, c)
    ensures Exec(s0, run) == StreamOutcome(s, c, w, env) && OfChain(run, c)
  {
    if env.write.Ok? {
      BusyMoves(s0, trace, s, c, w, Ok, w.(pc := Stored), StoredBytes(s, w));
      run := AckIsRun(s0, trace + [Work(c, Ok)], StoredBytes(s, w), c, w, env);
    } else {
      BusyMoves(s0, trace, s, c, w, env.write, w.(pc := if env.write.Error? then WriteFailed else Failing), s);
      run := trace + [Work(c, env.write)];
      if env.write.Error? {
        run := ErrorIsRun(s0, run, s, c, w);
      } else {
        BusyFails(s0, run, s, c, w.(pc := Failing));
        run := run + [Work(c, Ok)];
      }
    }
  }

  lemma WriteIsRun(s0: State, trace: seq<Action>, s: State, c: Chain, w: Worker, env: Env) returns (run: seq<Action>)
    requires Exec(s0, trace) == Busy(s, c, w) && s.workers == map[] && w.pc.Owner?
    requires OfChain(trace, c)
    ensures Exec(s0, run) == WriteOutcome(s, c, w, env) && OfChain(run, c)
  {
    BusyChecks(s0, trace, s, c, w, env.lookup);
    run := trace + [Work(c, Ok)];
    if w.id in s.files { run := run + [Work(c, if env.lookup then Ok else Error)]; }
    if w.id !in s.files || !env.lookup {
      BusyFails(s0, run, s, c, w.(pc := Failing));
      run := run + [Work(c, Ok)];
    } else if !HasStatus(s, w.id, Uploading) {
      BusyLeaves(s, c, w.(pc := BackendFound));
      BusyEnds(s0, run, s, c, w.(pc := BackendFound), Ok, Leave(Busy(s, c, w.(pc := BackendFound)), c));
      run := run + [Work(c, Ok)];
    } else {
      BusyOpens(s0, run, s, c, w.(pc := BackendFound));
      run := StreamIsRun(s0, run + [Work(c, Ok)] + [Work(c, Ok)], s, c, w.(pc := Writing(s.files[w.id])), env);
    }
  }

  /** A delivery that nobody interferes with is one run of the protocol. */
  lemma DeliveryIsRun(s: State, c: Chain, env: Env) returns (run: seq<Action>)
    requires c in s.queue && s.workers == map[]
    ensures Exec(s, run) == DeliveryOutcome(s, c, env) && OfChain(run, c)
  {
    var m := s.queue[c];
    BusyStarts(s, c);
    run := [Deliver(c)];
    if LiveRow(s, m.id) {
      run := run + [Work(c, Ok)];
      if Drops(s, m) {
        DropIsRun(s, run, c, m);
        run := run + [Work(c, Ok)];
      } else {
        ClaimIsRun(s, run, c, m, env.pause);
        run := run + [Tick(env.pause)] + [Work(c, Ok)];
        var t, w := Taken(s, c, m, env.pause), TakenBy(s, m, env.pause);
        BusyWaits(s, run, t, c, w, env.work);
        run := WriteIsRun(s, run + [Tick(env.work)], Later(t, env.work), c, w, env);
      }
    }
  }

  lemma DropIsRun(s: State, trace: seq<Action>, c: Chain, m: Message)
    requires s.workers == map[] && LiveRow(s, m.id) && Drops(s, m)
    requires Exec(s, trace) == Busy(s.(queue := s.queue - {c}), c, Received(m, s.rows[m.id], s.now - s.stale))
    ensures Exec(s, trace + [Work(c, Ok)]) == s.(queue := s.queue - {c})
  {
    var r := s.rows[m.id];
    BusyClaims(s, trace, s.(queue := s.queue - {c}), c, Received(m, r, s.now - s.stale), r, s.now - s.stale);
  }

  lemma ClaimIsRun(s: State, trace: seq<Action>, c: Chain, m: Message, pause: nat)
    requires s.workers == map[] && LiveRow(s, m.id) && !Drops(s, m)
    requires Exec(s, trace) == Busy(s.(queue := s.queue - {c}), c, Received(m, s.rows[m.id], s.now - s.stale))
    ensures Exec(s, trace + [Tick(pause)] + [Work(c, Ok)]) == Busy(Taken(s, c, m, pause), c, TakenBy(s, m, pause))
  {
    var r, w := s.rows[m.id], Received(m, s.rows[m.id], s.now - s.stale);
    BusyWaits(s, trace, s.(queue := s.queue - {c}), c, w, pause);
    BusyClaims(s, trace + [Tick(pause)], Later(s.(queue := s.queue - {c}), pause), c, w, r, s.now - s.stale);
  }

  /** How one delivery may leave the row it is for: finished, or with its retry in the queue. */
  ghost predicate Settled(rows: map<Id, Row>, queue: map<Chain, Message>, t: State, c: Chain, id: Id, retries: nat) {
    && t.rows.Keys == rows.Keys && id in t.rows && t.workers == map[]
    && (forall i <- t.rows :: i != id ==> t.rows[i] == rows[i])
    && (|| ((t.rows[id].status == Done || t.rows[id].status == Failed) && t.queue == queue)
        || (&& t.rows[id].status == Uploading && retries < MAX_RETRIES && c in t.queue
            && t.queue == queue[c := t.queue[c]] && t.queue[c].id == id && t.queue[c].retries == retries + 1))
  }

  lemma ErrorSettles(s: State, c: Chain, w: Worker)
    requires s.workers == map[] && HasStatus(s, w.id, Uploading)
    ensures Settled(s.rows, s.queue, ErrorOutcome(s, c, w), c, w.id, w.retries)
    ensures Settled(s.rows, s.queue, FailRow(s, w.id), c, w.id, w.retries)
  {}

  lemma FinishSettles(s: State, c: Chain, id: Id, retries: nat)
    requires s.workers == map[] && HasStatus(s, id, Uploading)
    ensures Settled(s.rows, s.queue, FinishedRow(s, id), c, id, retries)
  {}

  lemma SettledKeepsFiles(rows: map<Id, Row>, queue: map<Chain, Message>, t: State, files: map<Id, Bytes>, c: Chain,
                          id: Id, retries: nat)
    requires Settled(rows, queue, t, c, id, retries)
    ensures Settled(rows, queue, t.(files := files), c, id, retries)
  {}

  lemma AckSettles(s: State, c: Chain, w: Worker, env: Env)
    requires s.workers == map[] && HasStatus(s, w.id, Uploading)
    ensures Settled(s.rows, s.queue, AckOutcome(s, c, w, env), c, w.id, w.retries)
  {
    match env.ack
    case Error => ErrorSettles(s, c, w);
    case Odd => ErrorSettles(s, c, w);
    case Ok =>
      FinishSettles(s, c, w.id, w.retries);
      SettledKeepsFiles(s.rows, s.queue, FinishedRow(s, w.id), s.files - {w.id}, c, w.id, w.retries);
  }

  lemma WriteSettles(s: State, c: Chain, w: Worker, env: Env)
    requires s.workers == map[] && HasStatus(s, w.id, Uploading)
    ensures Settled(s.rows, s.queue, WriteOutcome(s, c, w, env), c, w.id, w.retries)
  {
    ErrorSettles(s, c, w);
    if w.id in s.files && env.lookup {
      var v := w.(pc := Writing(s.files[w.id]));
      ErrorSettles(s, c, v);
      AckSettles(StoredBytes(s, v), c, v, env);
    }
  }

  ghost predicate OnlyRow(rows: map<Id, Row>, rows': map<Id, Row>, id: Id) {
    rows.Keys == rows'.Keys && forall i <- rows' :: i != id ==> rows'[i] == rows[i]
  }

  lemma ClaimFrame(s: State, id: Id)
    requires id in s.rows
    ensures OnlyRow(s.rows, ClaimedRow(s, id).rows, id)
  {}

  /** The claim section only touches the row it claims, which it leaves UPLOADING. */
  lemma TakenFrame(s: State, c: Chain, m: Message, pause: nat)
    requires !Drops(s, m)
    ensures var t := Taken(s, c, m, pause);
            && OnlyRow(s.rows, t.rows, m.id) && HasStatus(t, m.id, Uploading)
            && t.queue == s.queue - {c} && t.workers == s.workers
  {
    var s1 := Later(s.(queue := s.queue - {c}), pause);
    assert m.id in s1.rows;
    if Reclaims(s.rows[m.id], m) { ClaimFrame(s1, m.id); }
  }

  lemma TakenIsUploading(s: State, c: Chain, m: Message, pause: nat)
    requires !Drops(s, m)
    ensures HasStatus(Taken(s, c, m, pause), m.id, Uploading) && TakenBy(s, m, pause).id == m.id
  {
    TakenFrame(s, c, m, pause);
  }

  lemma SettledFrom(rows: map<Id, Row>, rows': map<Id, Row>, queue: map<Chain, Message>, t: State, c: Chain, id: Id,
                    retries: nat)
    requires Settled(rows', queue, t, c, id, retries)
    requires OnlyRow(rows, rows', id)
    ensures Settled(rows, queue, t, c, id, retries)
  {}

  lemma DeliverySettles(s: State, c: Chain, env: Env)
    requires c in s.queue && s.workers == map[]
    ensures var m, rest, t := s.queue[c], s.queue - {c}, DeliveryOutcome(s, c, env);
            if Drops(s, m) then t == s.(queue := rest) else Settled(s.rows, rest, t, c, m.id, m.retries)
  {
    var m := s.queue[c];
    if !Drops(s, m) {
      var t := Later(Taken(s, c, m, env.pause), env.work);
      TakenFrame(s, c, m, env.pause);
      WriteSettles(t, c, TakenBy(s, m, env.pause), env);
      SettledFrom(s.rows, t.rows, s.queue - {c}, DeliveryOutcome(s, c, env), c, m.id, m.retries);
    }
  }

  /* ----------------------- a delivery in terms of the tables before it ----------------------- */

  /** Nothing to do: no such row, a finished one, or a first delivery that finds a claim that is not yet
      `stale` old. */
  predicate Skips(s: State, m: Message) {
    || m.id !in s.rows
    || !(s.rows[m.id].status == Pending || s.rows[m.id].status == Uploading)
    || (s.rows[m.id].status == Uploading && m.retries == 0 && s.rows[m.id].claimedAt.Some?
        && s.rows[m.id].claimedAt.value >= s.now - s.stale)
  }

  /** The claim that the chain works under: its own new one, or the one its retry brought along. */
  function ClaimOf(s: State, m: Message, env: Env): Option<int>
    requires m.id in s.rows
  {
    if s.rows[m.id].status == Pending || m.retries == 0 then Some(s.now + env.pause) else m.claim
  }

  /** The row of the message ends with this status; its key and creation time, and all other rows, stay. */
  ghost predicate RowEnds(s: State, t: State, id: Id, status: Status) {
    && t.rows.Keys == s.rows.Keys && id in s.rows && t.rows[id].status == status
    && t.rows[id].key == s.rows[id].key && t.rows[id].createdAt == s.rows[id].createdAt
    && forall i <- s.rows :: i != id ==> t.rows[i] == s.rows[i]
  }

  /** The claim is stamped on the row and logged, or there was none to make. */
  ghost predicate Stamped(s: State, t: State, m: Message, env: Env)
    requires m.id in s.rows && m.id in t.rows
  {
    if s.rows[m.id].status == Pending || m.retries == 0 then
      t.rows[m.id].claimedAt == Some(s.now + env.pause) && t.claimLog == s.claimLog + [Claim(m.id, s.now + env.pause)]
    else t.rows[m.id].claimedAt == s.rows[m.id].claimedAt && t.claimLog == s.claimLog
  }

  /** The backend got the file's bytes at the row's path, in one write. */
  ghost predicate Uploaded(s: State, t: State, id: Id)
    requires id in s.rows && id in s.files
  {
    && t.backend == s.backend[s.rows[id].key := s.files[id]]
    && t.log == s.log + [Entry(id, s.rows[id].key, s.files[id])]
  }

  ghost predicate NothingUploaded(s: State, t: State) { t.backend == s.backend && t.log == s.log }

  /** No temp file, or no backend: the row fails and nothing is written. */
  ghost predicate EndsBeforeWrite(s: State, t: State, c: Chain, m: Message) {
    RowEnds(s, t, m.id, Failed) && NothingUploaded(s, t) && t.files == s.files && t.queue == s.queue - {c}
  }

  /** The write and its return work: the bytes are in the backend, the row is DONE, the file is gone unless
      it could not be deleted. */
  ghost predicate EndsDone(s: State, t: State, c: Chain, m: Message, env: Env)
    requires m.id in s.rows && m.id in s.files
  {
    && RowEnds(s, t, m.id, Done) && Uploaded(s, t, m.id) && t.queue == s.queue - {c}
    && t.files == if env.unlink then s.files - {m.id} else s.files
  }

  /** The backend raised, before or after it had the bytes: one retry more is due 4^retries seconds later,
      or after the last one the row fails.  The file is kept either way. */
  ghost predicate EndsInError(s: State, t: State, c: Chain, m: Message, env: Env)
    requires m.id in s.rows && m.id in s.files
  {
    && t.files == s.files && (if env.write.Ok? then Uploaded(s, t, m.id) else NothingUploaded(s, t))
    && if m.retries < MAX_RETRIES then
         && RowEnds(s, t, m.id, Uploading)
         && t.queue == s.queue[c := Message(m.id, m.retries + 1, ClaimOf(s, m, env), m.waited + Pow4(m.retries))]
       else RowEnds(s, t, m.id, Failed) && t.queue == s.queue - {c}
  }

  /** The file disappeared under the write: no retry. */
  ghost predicate EndsOddly(s: State, t: State, c: Chain, m: Message, env: Env)
    requires m.id in s.rows && m.id in s.files
  {
    && RowEnds(s, t, m.id, Failed) && t.files == s.files && t.queue == s.queue - {c}
    && (if env.write.Ok? then Uploaded(s, t, m.id) else NothingUploaded(s, t))
  }

  /** Nothing but the tables of the upload changes, and the clock moves on. */
  ghost predicate OnlyUploadTables(s: State, t: State, env: Env) {
    && t.now == s.now + env.pause + env.work
    && t == s.(now := t.now, rows := t.rows, files := t.files, backend := t.backend, queue := t.queue, log := t.log,
               claimLog := t.claimLog)
  }

  /** What one delivery does to the tables, case by case. */
  ghost predicate Delivered(s: State, t: State, c: Chain, env: Env)
    requires c in s.queue
  {
    var m := s.queue[c];
    if Skips(s, m) then t == s.(queue := s.queue - {c})
    else
      && m.id in t.rows && Stamped(s, t, m, env) && OnlyUploadTables(s, t, env)
      && if m.id !in s.files || !env.lookup then EndsBeforeWrite(s, t, c, m)
         else if env.write.Ok? && env.ack.Ok? then EndsDone(s, t, c, m, env)
         else if env.write.Error? || (env.write.Ok? && env.ack.Error?) then EndsInError(s, t, c, m, env)
         else EndsOddly(s, t, c, m, env)
  }

  /** The tables once the row is claimed: the message is off the queue and the work has taken its time. */
  ghost predicate Begun(s: State, t: State, c: Chain, m: Message, env: Env) {
    && RowEnds(s, t, m.id, Uploading) && Stamped(s, t, m, env) && OnlyUploadTables(s, t, env)
    && NothingUploaded(s, t) && t.files == s.files && t.queue == s.queue - {c}
  }

  lemma DeliveryBegins(s: State, c: Chain, m: Message, env: Env)
    requires !Drops(s, m)
    ensures Begun(s, Later(Taken(s, c, m, env.pause), env.work), c, m, env)
  {
    DeliveryStamps(s, c, m, env);
  }

  lemma DeliveryStamps(s: State, c: Chain, m: Message, env: Env)
    requires !Drops(s, m)
    ensures var t := Later(Taken(s, c, m, env.pause), env.work);
            RowEnds(s, t, m.id, Uploading) && Stamped(s, t, m, env)
  {
    var t, r := Later(Taken(s, c, m, env.pause), env.work), s.rows[m.id];
    if Reclaims(r, m) {
      RowUpdated(s, t, m.id, r.(status := Uploading, claimedAt := Some(s.now + env.pause)));
    } else {
      assert s.rows == s.rows[m.id := r];
      RowUpdated(s, t, m.id, r);
    }
  }

  lemma RowUpdated(s: State, t: State, id: Id, r: Row)
    requires id in s.rows && t.rows == s.rows[id := r]
    requires r.key == s.rows[id].key && r.createdAt == s.rows[id].createdAt
    ensures RowEnds(s, t, id, r.status) && t.rows[id] == r
  {}

  lemma DeliveryWorker(s: State, m: Message, env: Env)
    requires !Drops(s, m)
    ensures TakenBy(s, m, env.pause)
            == Worker(m.id, s.rows[m.id].key, m.retries, ClaimOf(s, m, env), m.waited, Owner)
  {}

  /** The status with which the worker leaves the row it has claimed. */
  lemma BegunEnds(s: State, t: State, u: State, c: Chain, m: Message, env: Env, status: Status)
    requires Begun(s, t, c, m, env)
    requires u.rows == t.rows[m.id := t.rows[m.id].(status := status)] && u.claimLog == t.claimLog
    ensures RowEnds(s, u, m.id, status) && Stamped(s, u, m, env)
  {}

  /** One retry more: the row stays as claimed. */
  lemma RetryDelivers(s: State, t: State, u: State, c: Chain, m: Message, env: Env)
    requires c in s.queue && s.queue[c] == m && !Skips(s, m) && m.id in s.files && env.lookup
    requires Begun(s, t, c, m, env) && m.retries < MAX_RETRIES
    requires env.write.Error? || (env.write.Ok? && env.ack.Error?)
    requires if env.write.Ok? then Uploaded(s, u, m.id) else NothingUploaded(s, u)
    requires u == t.(backend := u.backend, log := u.log, queue := t.queue[c :=
                     Message(m.id, m.retries + 1, ClaimOf(s, m, env), m.waited + Pow4(m.retries))])
    ensures Delivered(s, u, c, env)
  {
    assert (s.queue - {c})[c := u.queue[c]] == s.queue[c := u.queue[c]];
    assert RowEnds(s, u, m.id, Uploading) && EndsInError(s, u, c, m, env);
  }

  /** No retry more, or one that makes no sense: the row fails. */
  lemma FailDelivers(s: State, t: State, u: State, c: Chain, m: Message, env: Env)
    requires c in s.queue && s.queue[c] == m && !Skips(s, m) && m.id in s.files && env.lookup
    requires Begun(s, t, c, m, env) && !(env.write.Ok? && env.ack.Ok?)
    requires if env.write.Ok? then Uploaded(s, u, m.id) else NothingUploaded(s, u)
    requires u == t.(backend := u.backend, log := u.log, rows := t.rows[m.id := t.rows[m.id].(status := Failed)])
    requires m.retries >= MAX_RETRIES || env.write.Odd? || (env.write.Ok? && env.ack.Odd?)
    ensures Delivered(s, u, c, env)
  {
    BegunEnds(s, t, u, c, m, env, Failed);
    if env.write.Error? || (env.write.Ok? && env.ack.Error?) {
      assert EndsInError(s, u, c, m, env);
    } else {
      assert EndsOddly(s, u, c, m, env);
    }
  }

  /** The worker that writes for this message. */
  ghost predicate Writes(s: State, m: Message, w: Worker, env: Env)
    requires m.id in s.rows && m.id in s.files
  {
    w == Worker(m.id, s.rows[m.id].key, m.retries, ClaimOf(s, m, env), m.waited, Writing(s.files[m.id]))
  }

  lemma StoringUploads(s: State, t: State, c: Chain, m: Message, w: Worker, env: Env)
    requires Begun(s, t, c, m, env) && m.id in s.files && Writes(s, m, w, env)
    ensures Uploaded(s, StoredBytes(t, w), m.id)
  {}

  lemma ErrorDelivers(s: State, t: State, c: Chain, m: Message, w: Worker, env: Env)
    requires c in s.queue && s.queue[c] == m && !Skips(s, m) && m.id in s.files && env.lookup
    requires Begun(s, t, c, m, env) && Writes(s, m, w, env)
    requires env.write.Error? || (env.write.Ok? && env.ack.Error?)
    ensures Delivered(s, ErrorOutcome(if env.write.Ok? then StoredBytes(t, w) else t, c, w), c, env)
  {
    var u := ErrorOutcome(if env.write.Ok? then StoredBytes(t, w) else t, c, w);
    StoringUploads(s, t, c, m, w, env);
    if m.retries < MAX_RETRIES {
      RetryDelivers(s, t, u, c, m, env);
    } else {
      FailDelivers(s, t, u, c, m, env);
    }
  }

  lemma OddDelivers(s: State, t: State, c: Chain, m: Message, w: Worker, env: Env)
    requires c in s.queue && s.queue[c] == m && !Skips(s, m) && m.id in s.files && env.lookup
    requires Begun(s, t, c, m, env) && Writes(s, m, w, env)
    requires env.write.Odd? || (env.write.Ok? && env.ack.Odd?)
    ensures Delivered(s, FailRow(if env.write.Ok? then StoredBytes(t, w) else t, w.id), c, env)
  {
    StoringUploads(s, t, c, m, w, env);
    FailDelivers(s, t, FailRow(if env.write.Ok? then StoredBytes(t, w) else t, w.id), c, m, env);
  }

  lemma DoneDelivers(s: State, t: State, c: Chain, m: Message, w: Worker, env: Env)
    requires c in s.queue && s.queue[c] == m && !Skips(s, m) && m.id in s.files && env.lookup
    requires Begun(s, t, c, m, env) && Writes(s, m, w, env)
    requires env.write.Ok? && env.ack.Ok?
    ensures Delivered(s, AckOutcome(StoredBytes(t, w), c, w, env), c, env)
  {
    var u := AckOutcome(StoredBytes(t, w), c, w, env);
    StoringUploads(s, t, c, m, w, env);
    BegunEnds(s, t, u, c, m, env, Done);
    assert EndsDone(s, u, c, m, env);
  }

  lemma WriteDelivers(s: State, t: State, c: Chain, m: Message, w: Worker, env: Env)
    requires c in s.queue && s.queue[c] == m && !Skips(s, m) && Begun(s, t, c, m, env)
    requires w == Worker(m.id, s.rows[m.id].key, m.retries, ClaimOf(s, m, env), m.waited, Owner)
    ensures Delivered(s, WriteOutcome(t, c, w, env), c, env)
  {
    if m.id !in s.files || !env.lookup {
      BegunEnds(s, t, FailRow(t, m.id), c, m, env, Failed);
    } else {
      var v := w.(pc := Writing(s.files[m.id]));
      if env.write.Ok? && env.ack.Ok? {
        DoneDelivers(s, t, c, m, v, env);
      } else if env.write.Error? || (env.write.Ok? && env.ack.Error?) {
        ErrorDelivers(s, t, c, m, v, env);
      } else {
        OddDelivers(s, t, c, m, v, env);
      }
    }
  }

  lemma SkipsMeansDrops(s: State, m: Message)
    ensures Skips(s, m) <==> Drops(s, m)
  {}

  /** A delivery does what its case says, in the outcome and in every table. */
  lemma DeliveryDelivers(s: State, c: Chain, env: Env)
    requires c in s.queue
    ensures Delivered(s, DeliveryOutcome(s, c, env), c, env)
  {
    var m := s.queue[c];
    SkipsMeansDrops(s, m);
    if !Drops(s, m) {
      DeliveryBegins(s, c, m, env);
      DeliveryWorker(s, m, env);
      WriteDelivers(s, Later(Taken(s, c, m, env.pause), env.work), c, m, TakenBy(s, m, env.pause), env);
    }
  }
}
