/**
 Claims of one row are more than `stale` apart, whatever the interleaving, although every cutoff is
 read earlier than it is used.  So calls of write_stream for one row cannot overlap as long as each
 chain writes within `stale` of its latest claim.
 */
module UploadClaims {
  import opened Basics
  import opened UploadProtocol
  import opened UploadInvariants

  function Held(id: Id, claim: Option<int>): Option<Claim> {
    if claim.Some? then Some(Claim(id, claim.value)) else None
  }

  /** The latest claim a delivery chain made, while it is queued or running. */
  ghost function Holds(s: State, c: Chain): Option<Claim> {
    if c in s.workers then Held(s.workers[c].id, s.workers[c].claim)
    else if c in s.queue then Held(s.queue[c].id, s.queue[c].claim)
    else None
  }

  /** A past claim of the row is its current one, or more than `stale` older than that. */
  ghost predicate Covered(s: State, k: Claim) {
    && k.id in s.records && k.at <= s.now
    && (k.id in s.rows ==>
          && s.rows[k.id].claimedAt.Some?
          && (k.at == s.rows[k.id].claimedAt.value || k.at + s.stale < s.rows[k.id].claimedAt.value))
  }

  ghost predicate Apart(stale: nat, a: Claim, b: Claim) {
    a.id == b.id ==> a.at + stale < b.at || b.at + stale < a.at
  }

  ghost predicate RowTimes(s: State, r: Row) {
    && (r.claimedAt.Some? ==> r.claimedAt.value <= s.now)
    && (r.status == Uploading ==> r.claimedAt.Some?)
    && (r.status == Pending && r.claimedAt.Some? ==> r.claimedAt.value + s.stale < s.now)
  }

  ghost predicate TimesOk(s: State) {
    && (forall id <- s.rows :: RowTimes(s, s.rows[id]))
    && (forall c <- s.workers :: s.workers[c].pc.CutoffRead? ==> s.workers[c].pc.cutoff <= s.now - s.stale)
    && (forall p <- s.recoveries :: s.recoveries[p].Resetting? ==> s.recoveries[p].cutoff <= s.now - s.stale)
  }

  ghost predicate ClaimLogOk(s: State) {
    && (forall i :: 0 <= i < |s.claimLog| ==> Covered(s, s.claimLog[i]))
    && (forall i, j :: 0 <= i < j < |s.claimLog| && s.claimLog[i].id == s.claimLog[j].id ==>
          s.claimLog[i].at + s.stale < s.claimLog[j].at)
  }

  ghost predicate HoldersOk(s: State) {
    && (forall c :: Holds(s, c).Some? ==> Covered(s, Holds(s, c).value))
    && (forall c, d :: c != d && Holds(s, c).Some? && Holds(s, d).Some? ==>
          Apart(s.stale, Holds(s, c).value, Holds(s, d).value))
  }

  ghost predicate ClaimInv(s: State) { TimesOk(s) && ClaimLogOk(s) && HoldersOk(s) }

  /** How one step can move claimed_at: to the present, from a value more than `stale` ago. */
  ghost predicate ClaimsMove(s: State, t: State) {
    && s.now <= t.now && s.stale == t.stale
    && (forall id <- s.records :: id in t.records)
    && (forall id <- t.rows :: id in s.rows || id !in s.records)
    && (forall id <- t.rows :: id in s.rows ==>
          || t.rows[id].claimedAt == s.rows[id].claimedAt
          || (t.rows[id].claimedAt == Some(s.now)
              && (s.rows[id].claimedAt.Some? ==> s.rows[id].claimedAt.value + s.stale < s.now)))
  }

  lemma CoveredStays(s: State, t: State, k: Claim)
    requires ClaimsMove(s, t) && Covered(s, k)
    ensures Covered(t, k)
  {}

  /** A step in which nobody claims anything. */
  lemma QuietClaims(s: State, t: State)
    requires ClaimLogOk(s) && HoldersOk(s) && ClaimsMove(s, t) && t.claimLog == s.claimLog
    requires forall c :: Holds(t, c).None? || Holds(t, c) == Holds(s, c)
    ensures ClaimLogOk(t) && HoldersOk(t)
  {
    forall i | 0 <= i < |t.claimLog| ensures Covered(t, t.claimLog[i]) { CoveredStays(s, t, s.claimLog[i]); }
    forall c | Holds(t, c).Some? ensures Covered(t, Holds(t, c).value) { CoveredStays(s, t, Holds(s, c).value); }
  }

  /** A step in which chain `c` claims row `id`. */
  lemma NewClaim(s: State, t: State, c: Chain, id: Id)
    requires ClaimLogOk(s) && HoldersOk(s) && ClaimsMove(s, t) && s.now == t.now
    requires id in s.rows && id in t.rows && id in s.records && t.rows[id].claimedAt == Some(s.now)
    requires s.rows[id].claimedAt.Some? ==> s.rows[id].claimedAt.value + s.stale < s.now
    requires t.claimLog == s.claimLog + [Claim(id, s.now)]
    requires Holds(t, c) == Some(Claim(id, s.now))
    requires forall d :: d != c ==> Holds(t, d) == Holds(s, d)
    ensures ClaimLogOk(t) && HoldersOk(t)
  {
    forall i | 0 <= i < |t.claimLog| ensures Covered(t, t.claimLog[i]) {
      if i < |s.claimLog| { CoveredStays(s, t, s.claimLog[i]); }
    }
    forall i, j | 0 <= i < j < |t.claimLog| && t.claimLog[i].id == t.claimLog[j].id
      ensures t.claimLog[i].at + t.stale < t.claimLog[j].at
    {
      assert Covered(s, s.claimLog[i]);
    }
    forall d | Holds(t, d).Some? ensures Covered(t, Holds(t, d).value) {
      if d != c { CoveredStays(s, t, Holds(s, d).value); }
    }
    forall d, e | d != e && Holds(t, d).Some? && Holds(t, e).Some?
      ensures Apart(t.stale, Holds(t, d).value, Holds(t, e).value)
    {
      if d != c { assert Covered(s, Holds(s, d).value); }
      if e != c { assert Covered(s, Holds(s, e).value); }
    }
  }

  lemma WorkClaims(s: State, t: State, c: Chain)
    requires RowsOk(s) && OnePlace(s) && ClaimInv(s) && c in s.workers && WorkerOk(s, s.workers[c])
             && WorkerEffect(s, t, c)
    ensures ClaimLogOk(t) && HoldersOk(t)
  {
    var w := s.workers[c];
    if w.pc.CutoffRead? && t.claimLog != s.claimLog {
      assert RowTimes(s, s.rows[w.id]);
      NewClaim(s, t, c, w.id);
    } else {
      QuietClaims(s, t);
    }
  }

  lemma WorkTimes(s: State, t: State, c: Chain)
    requires TimesOk(s) && c in s.workers && WorkerEffect(s, t, c)
    ensures TimesOk(t)
  {}

  lemma DeliverClaims(s: State, t: State, c: Chain)
    requires OnePlace(s) && ClaimInv(s) && c in s.queue && DeliverEffect(s, t, c)
    ensures ClaimInv(t)
  {
    QuietClaims(s, t);
  }

  lemma RequestClaims(s: State, t: State, p: Pid)
    requires RowsOk(s) && OnePlace(s) && ClaimInv(s) && p in s.enqueues && EnqueueOk(s, s.enqueues[p])
             && RequestEffect(s, t, p)
    ensures ClaimLogOk(t) && HoldersOk(t)
  {
    RequestClaimsMove(s, t, p);
    RequestStoresNothing(s, t, p);
    forall c ensures Holds(t, c).None? || Holds(t, c) == Holds(s, c) { RequestHolds(s, t, p, c); }
    QuietClaims(s, t);
  }

  lemma RequestClaimsMove(s: State, t: State, p: Pid)
    requires RowsOk(s) && p in s.enqueues && EnqueueOk(s, s.enqueues[p]) && RequestEffect(s, t, p)
    ensures ClaimsMove(s, t)
  {}

  lemma RequestHolds(s: State, t: State, p: Pid, c: Chain)
    requires OnePlace(s) && p in s.enqueues && RequestEffect(s, t, p)
    ensures Holds(t, c).None? || Holds(t, c) == Holds(s, c)
  {}

  lemma RequestTimes(s: State, t: State, p: Pid)
    requires TimesOk(s) && p in s.enqueues && RequestEffect(s, t, p)
    ensures TimesOk(t)
  {}

  lemma RecoveryClaims(s: State, t: State, p: Pid, id: Id, c: Chain)
    requires RowsOk(s) && OnePlace(s) && ClaimInv(s) && p in s.recoveries && RecoveryEffect(s, t, p, id, c)
    ensures ClaimInv(t)
  {
    QuietClaims(s, t);
    forall i | i in t.rows ensures RowTimes(t, t.rows[i]) { assert RowTimes(s, s.rows[i]); }
  }

  lemma CleanerClaims(s: State, t: State, p: Pid, arg: nat)
    requires ClaimInv(s) && p in s.cleanups && CleanerEffect(s, t, p, arg)
    ensures ClaimInv(t)
  {
    QuietClaims(s, t);
  }

  lemma BackgroundClaims(s: State, t: State)
    requires OnePlace(s) && ClaimInv(s) && BackgroundEffect(s, t)
    ensures ClaimInv(t)
  {
    QuietClaims(s, t);
  }

  lemma EffectClaims(s: State, t: State, a: Action)
    requires Inv(s) && ClaimInv(s) && StepEffect(s, t, a)
    ensures ClaimInv(t)
  {
    match a
    case Deliver(c) => DeliverClaims(s, t, c);
    case Work(c, _) => WorkClaims(s, t, c); WorkTimes(s, t, c);
    case EnqueueNext(p, _, _) => RequestClaims(s, t, p); RequestTimes(s, t, p);
    case RecoverNext(p, _, id, c) => RecoveryClaims(s, t, p, id, c);
    case CleanupNext(p, _, arg) => CleanerClaims(s, t, p, arg);
    case _ => BackgroundClaims(s, t);
  }

  lemma StepClaims(s: State, a: Action)
    requires Inv(s) && ClaimInv(s)
    ensures ClaimInv(Step(s, a))
  {
    StepHasEffect(s, a);
    if Step(s, a) != s { EffectClaims(s, Step(s, a), a); }
  }

  lemma {:induction false} RunClaims(s: State, run: seq<Action>)
    requires Inv(s) && ClaimInv(s)
    ensures Inv(Exec(s, run)) && ClaimInv(Exec(s, run))
    decreases |run|
  {
    if run != [] {
      StepInv(s, run[0]);
      StepClaims(s, run[0]);
      RunClaims(Step(s, run[0]), run[1..]);
    }
  }

  /** Every first claim and re-claim is in the claim log. */
  lemma ClaimsAreLogged(s: State, a: Action, id: Id)
    requires Inv(s) && id in s.rows && id in Step(s, a).rows
    requires s.rows[id].claimedAt != Step(s, a).rows[id].claimedAt
             || (s.rows[id].status == Pending && Step(s, a).rows[id].status == Uploading)
    ensures Step(s, a).claimLog == s.claimLog + [Claim(id, s.now)]
    ensures Step(s, a).rows[id].claimedAt == Some(s.now)
  {
    StepHasEffect(s, a);
    EffectLogsClaim(s, Step(s, a), a, id);
  }

  /** The row, if it is still there, has the claim it had and has not been claimed. */
  ghost predicate ClaimKept(s: State, t: State, id: Id) {
    id in s.rows && id in t.rows ==>
      t.rows[id].claimedAt == s.rows[id].claimedAt && !(s.rows[id].status == Pending && t.rows[id].status == Uploading)
  }

  lemma WorkLogsClaim(s: State, t: State, c: Chain, id: Id)
    requires c in s.workers && WorkerEffect(s, t, c)
    ensures ClaimKept(s, t, id)
            || (t.claimLog == s.claimLog + [Claim(id, s.now)] && t.rows[id].claimedAt == Some(s.now))
  {}

  lemma RequestKeepsClaim(s: State, t: State, p: Pid, id: Id)
    requires RowsOk(s) && p in s.enqueues && EnqueueOk(s, s.enqueues[p]) && RequestEffect(s, t, p)
    ensures ClaimKept(s, t, id)
  {}

  lemma CommandKeepsClaim(s: State, t: State, a: Action, id: Id)
    requires RowsTended(s, t, a)
    ensures ClaimKept(s, t, id)
  {}

  lemma EffectLogsClaim(s: State, t: State, a: Action, id: Id)
    requires Inv(s) && StepEffect(s, t, a) && !ClaimKept(s, t, id)
    ensures t.claimLog == s.claimLog + [Claim(id, s.now)] && t.rows[id].claimedAt == Some(s.now)
  {
    if a.Work? {
      WorkLogsClaim(s, t, a.c, id);
    } else if a.EnqueueNext? {
      assert EnqueueOk(s, s.enqueues[a.p]);
      RequestKeepsClaim(s, t, a.p, id);
    } else {
      OthersTend(s, t, a);
      CommandKeepsClaim(s, t, a, id);
    }
  }

  /** Any two successive successful claims of one record are strictly more than `stale` apart. */
  lemma ClaimsAreSpaced(now: int, stale: nat, run: seq<Action>, i: nat, j: nat)
    requires var s := Exec(Init(now, stale), run); i < j < |s.claimLog| && s.claimLog[i].id == s.claimLog[j].id
    ensures var s := Exec(Init(now, stale), run); s.claimLog[i].at + stale < s.claimLog[j].at
  {
    InitInv(now, stale);
    RunClaims(Init(now, stale), run);
    RunInv(Init(now, stale), run);
  }

  ghost predicate InWriteStream(s: State, c: Chain) {
    c in s.workers && (s.workers[c].pc.Writing? || s.workers[c].pc.Stored?)
  }

  /** The chain's latest claim is at most `stale` old. */
  ghost predicate InTime(s: State, w: Worker) { w.claim.Some? && s.now <= w.claim.value + s.stale }

  /** If every running write_stream call is within `stale` of its chain's claim, no two of them are
      for the same record. */
  lemma WritesDoNotOverlap(now: int, stale: nat, run: seq<Action>, c: Chain, d: Chain)
    requires var s := Exec(Init(now, stale), run);
             && (forall e | InWriteStream(s, e) :: InTime(s, s.workers[e]))
             && InWriteStream(s, c) && InWriteStream(s, d) && s.workers[c].id == s.workers[d].id
    ensures c == d
  {
    var s := Exec(Init(now, stale), run);
    InitInv(now, stale);
    RunClaims(Init(now, stale), run);
    assert Holds(s, c).Some? && Holds(s, d).Some?;
    assert Covered(s, Holds(s, c).value) && Covered(s, Holds(s, d).value);
  }
}
