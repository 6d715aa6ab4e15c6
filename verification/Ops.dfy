/**
 The explorer's operation store (ops.go): transfers in progress, their reconciliation with the server's
 pending list, and the pruning of old ones.  Times are nanoseconds.
 */
module Ops {
  import opened Basics

  datatype Kind = Upload | Download | Delete

  datatype Status = Pending | Active | Done | Failed

  /** A snapshot of an op; the last field is the op's own and not shown. */
  datatype OpView = OpView(
    id: string, kind: Kind, name: string,
    status: Status, errMsg: string, doneAt: int, totalBytes: int, doneBytes: int, pendingId: string)
  {
    predicate Finished() { status == Done || status == Failed }
  }

  const SECOND: int := 1_000_000_000

  class Op {
    const id: string
    const kind: Kind
    const conn: string
    const path: string
    const name: string
    var status: Status
    var errMsg: string
    var doneAt: int
    var pendingId: string
    var totalBytes: int
    var doneBytes: int

    constructor (id: string, kind: Kind, conn: string, path: string, name: string, totalBytes: int)
      ensures this.conn == conn && this.path == path
      ensures View() == OpView(id, kind, name, Pending, "", 0, totalBytes, 0, "")
    {
      this.id, this.kind, this.conn, this.path, this.name := id, kind, conn, path, name;
      status, errMsg, doneAt, pendingId, this.totalBytes, doneBytes := Pending, "", 0, "", totalBytes, 0;
    }

    function View(): OpView
      reads this
    {
      OpView(id, kind, name, status, errMsg, doneAt, totalBytes, doneBytes, pendingId)
    }

    method Activate()
      modifies this
      ensures View() == old(View()).(status := Active)
    {
      status := Active;
    }

    method SetQueued()
      modifies this
      ensures View() == old(View()).(status := Pending, doneBytes := 0)
    {
      status := Pending;
      doneBytes := 0;
    }

    method Complete(now: int)
      modifies this
      ensures View() == old(View()).(status := Done, doneAt := now)
    {
      status := Done;
      doneAt := now;
    }

    method Fail(msg: string, now: int)
      modifies this
      ensures View() == old(View()).(status := Failed, errMsg := msg, doneAt := now)
    {
      status := Failed;
      errMsg := msg;
      doneAt := now;
    }

    /** The reconciliation of one upload of the connection, `entry` being what the server lists for it. */
    method Sync(entry: Option<PendingUpload>, now: int) returns (completed: bool)
      modifies this
      ensures if old(status) == Done || old(status) == Failed then View() == old(View())
              else Reconciled(old(View()), View(), entry, now)
      ensures View() == Synced(old(View()), true, entry, now)
      ensures completed <==> !old(View()).Finished() && entry.None?
    {
      completed := false;
      if status == Done || status == Failed { return; }
      if entry.Some? {
        var p := entry.value;
        pendingId := p.id;
        totalBytes := p.expectedSize;
        if p.status == "uploading" {
          status := Active;
        } else if p.status == "pending" {
          status := Pending;
        } else if p.status == "failed" {
          status := Failed;
          errMsg := "upload failed on server";
          doneAt := now;
        }
      } else {
        status := Done;
        doneBytes := totalBytes;
        doneAt := now;
        completed := true;
      }
    }
  }

  /** Finished more than `limit` ago. */
  predicate Expired(v: OpView, limit: int, now: int) { v.Finished() && now - v.doneAt > limit }

  /** A selection from n ops, in order and without repetition: the places of those selected. */
  ghost predicate Places(at: seq<nat>, n: nat) {
    (forall k | 0 <= k < |at| :: at[k] < n) && forall j, k | 0 <= j < k < |at| :: at[j] < at[k]
  }

  /** `at` are the places of the ops that are not done or failed for more than `limit` ns. */
  ghost predicate Recent(ops: seq<Op>, at: seq<nat>, limit: int, now: int)
    reads ops
  {
    && Places(at, |ops|)
    && forall i | 0 <= i < |ops| ::
         i !in at <==> (ops[i].status == Done || ops[i].status == Failed) && now - ops[i].doneAt > limit
  }

  /** What the transfers panel shows of a list of ops. */
  function Shown(ops: seq<Op>, now: int): seq<OpView>
    reads ops
  {
    if ops == [] then []
    else
      var v := ops[|ops| - 1].View();
      Shown(ops[..|ops| - 1], now) + if Expired(v, 4 * SECOND, now) then [] else [v]
  }

  /** The ops pruning removes. */
  function ExpiredOps(ops: seq<Op>, now: int): set<Op>
    reads ops
  {
    set op | op in ops && Expired(op.View(), 5 * SECOND, now)
  }

  /** The list without them, in order. */
  function Without(ops: seq<Op>, gone: set<Op>): seq<Op> {
    if ops == [] then []
    else
      var last := ops[|ops| - 1];
      if last in gone then Without(ops[..|ops| - 1], gone) else Without(ops[..|ops| - 1], gone) + [last]
  }

  /** Exactly the ops that do not go, each as often as it occurs and in order: `at` lists where they were. */
  lemma {:induction false} WithoutKeepsTheRest(ops: seq<Op>, gone: set<Op>) returns (at: seq<nat>)
    ensures |at| == |Without(ops, gone)|
    ensures forall k | 0 <= k < |at| :: at[k] < |ops| && Without(ops, gone)[k] == ops[at[k]]
    ensures forall j, k | 0 <= j < k < |at| :: at[j] < at[k]
    ensures forall i | 0 <= i < |ops| :: i in at <==> ops[i] !in gone
  {
    at := [];
    if ops != [] {
      var n := |ops| - 1;
      at := WithoutKeepsTheRest(ops[..n], gone);
      if ops[n] !in gone { at := at + [n]; }
    }
  }

  /** The panel shows exactly the ops that are not done or failed for more than 4 s, in order. */
  lemma {:induction false} ShownAreTheRecent(ops: seq<Op>, now: int) returns (at: seq<nat>)
    ensures Recent(ops, at, 4_000_000_000, now) && |at| == |Shown(ops, now)|
    ensures forall k | 0 <= k < |at| :: Shown(ops, now)[k] == ops[at[k]].View()
  {
    at := [];
    if ops != [] {
      var n := |ops| - 1;
      at := ShownAreTheRecent(ops[..n], now);
      if !Expired(ops[n].View(), 4 * SECOND, now) { at := at + [n]; }
    }
  }

  lemma PrunedAreTheRecent(ops: seq<Op>, now: int) returns (at: seq<nat>)
    ensures Recent(ops, at, 5_000_000_000, now) && |at| == |Without(ops, ExpiredOps(ops, now))|
    ensures forall k | 0 <= k < |at| :: Without(ops, ExpiredOps(ops, now))[k] == ops[at[k]]
  {
    at := WithoutKeepsTheRest(ops, ExpiredOps(ops, now));
  }

  lemma WithoutStep(ops: seq<Op>, i: nat, gone: set<Op>)
    requires i < |ops|
    ensures Without(ops[..i + 1], gone)
            == if ops[i] in gone then Without(ops[..i], gone) else Without(ops[..i], gone) + [ops[i]]
  {
    assert ops[..i + 1][..i] == ops[..i];
  }

  /** The compaction loop before its i-th op: the first `filtered` places hold what is kept so far. */
  ghost predicate Pruning(list: seq<Op>, was: seq<Op>, gone: set<Op>, i: nat, filtered: nat) {
    && filtered <= i <= |was| == |list|
    && list[..filtered] == Without(was[..i], gone) && list[i..] == was[i..]
  }

  lemma PruningGoesOn(list: seq<Op>, was: seq<Op>, gone: set<Op>, i: nat, filtered: nat)
    requires Pruning(list, was, gone, i, filtered) && i < |was|
    ensures list[i] == was[i]
    ensures if was[i] in gone then Pruning(list, was, gone, i + 1, filtered)
            else Pruning(list[filtered := was[i]], was, gone, i + 1, filtered + 1)
  {
    WithoutStep(was, i, gone);
    assert list[i] == list[i..][0] == was[i..][0];
    assert list[i + 1..] == list[i..][1..] && was[i + 1..] == was[i..][1..];
    if was[i] !in gone {
      assert list[filtered := was[i]][..filtered + 1] == list[..filtered] + [was[i]];
      assert list[filtered := was[i]][i + 1..] == list[i + 1..];
    }
  }

  lemma ShownConcat(ops: seq<Op>, op: Op, now: int)
    ensures Shown(ops + [op], now) == Shown(ops, now) + if Expired(op.View(), 4 * SECOND, now) then [] else [op.View()]
  {
    assert (ops + [op])[..|ops|] == ops;
  }

  lemma {:induction false} RemovalIsInvisible(ops: seq<Op>, gone: set<Op>, later: int)
    requires forall op <- gone :: Expired(op.View(), 4 * SECOND, later)
    ensures Shown(Without(ops, gone), later) == Shown(ops, later)
  {
    if ops != [] {
      var init, op := ops[..|ops| - 1], ops[|ops| - 1];
      RemovalIsInvisible(init, gone, later);
      assert Shown(init, later) + [] == Shown(init, later);
      if op !in gone { ShownConcat(Without(init, gone), op, later); }
    }
  }

  /** Pruning never changes what the panel shows, at that moment or any later one. */
  lemma PruningIsInvisible(ops: seq<Op>, now: int, later: int)
    requires now <= later
    ensures Shown(Without(ops, ExpiredOps(ops, now)), later) == Shown(ops, later)
  {
    RemovalIsInvisible(ops, ExpiredOps(ops, now), later);
  }

  datatype PendingUpload = PendingUpload(id: string, path: string, status: string, expectedSize: int)

  /** The last listed entry for a path decides. */
  function LastEntry(pending: seq<PendingUpload>, path: string): Option<PendingUpload> {
    if pending == [] then None
    else if pending[|pending| - 1].path == path then Some(pending[|pending| - 1])
    else LastEntry(pending[..|pending| - 1], path)
  }

  /** It is the last of those for the path. */
  lemma {:induction false} LastEntryIsLast(pending: seq<PendingUpload>, path: string) returns (i: nat)
    ensures LastEntry(pending, path) == None <==> forall p <- pending :: p.path != path
    ensures LastEntry(pending, path).Some?
            ==> i < |pending| && LastEntry(pending, path) == Some(pending[i]) && pending[i].path == path
                && forall p <- pending[i + 1..] :: p.path != path
  {
    i := 0;
    if pending != [] {
      var n := |pending| - 1;
      assert pending == pending[..n] + [pending[n]];
      if pending[n].path == path {
        i := n;
      } else {
        i := LastEntryIsLast(pending[..n], path);
        if LastEntry(pending, path).Some? { assert pending[i + 1..] == pending[..n][i + 1..] + [pending[n]]; }
      }
    }
  }

  /** One op after reconciliation. */
  function Synced(v: OpView, mine: bool, entry: Option<PendingUpload>, now: int): OpView {
    if !mine || v.Finished() then v
    else
      match entry
      case None => v.(status := Done, doneBytes := v.totalBytes, doneAt := now)
      case Some(p) =>
        var w := v.(pendingId := p.id, totalBytes := p.expectedSize);
        if p.status == "uploading" then w.(status := Active)
        else if p.status == "pending" then w.(status := Pending)
        else if p.status == "failed" then w.(status := Failed, errMsg := "upload failed on server", doneAt := now)
        else w
  }

  /** The server has finished it: an unfinished upload of the connection that is no longer listed. */
  predicate Completes(v: OpView, mine: bool, entry: Option<PendingUpload>) { mine && !v.Finished() && entry.None? }

  /** What the server says about an unfinished upload: it is not listed any more, so it is done; or it has this
      name, size and status there. */
  ghost predicate Reconciled(v: OpView, w: OpView, entry: Option<PendingUpload>, now: int) {
    && w.id == v.id && w.kind == v.kind && w.name == v.name
    && match entry
       case None =>
         && w.status == Done && w.doneBytes == v.totalBytes && w.doneAt == now
         && w.totalBytes == v.totalBytes && w.pendingId == v.pendingId && w.errMsg == v.errMsg
       case Some(p) =>
         && w.pendingId == p.id && w.totalBytes == p.expectedSize && w.doneBytes == v.doneBytes
         && (p.status == "uploading" ==> w.status == Active)
         && (p.status == "pending" ==> w.status == Pending)
         && (p.status == "failed" <==> w.status == Failed)
         && (p.status !in {"uploading", "pending", "failed"} ==> w.status == v.status)
         && w.errMsg == (if p.status == "failed" then "upload failed on server" else v.errMsg)
         && w.doneAt == (if p.status == "failed" then now else v.doneAt)
  }

  /** Reconciliation freezes finished ops and those of others, leaves no upload of the connection
      unfinished that the server does not list, completes exactly those, and is idempotent. */
  lemma SyncedExactly(v: OpView, mine: bool, entry: Option<PendingUpload>, now: int, later: int)
    ensures var w := Synced(v, mine, entry, now);
            && (if v.Finished() || !mine then w == v else Reconciled(v, w, entry, now))
            && (mine && !w.Finished() ==>
                  entry.Some? && w.pendingId == entry.value.id && w.totalBytes == entry.value.expectedSize)
            && (v.status != Done && w.status == Done <==> Completes(v, mine, entry))
            && Synced(w, mine, entry, later) == w && w.id == v.id && w.kind == v.kind && w.name == v.name
  {}

  lemma SyncedAgain(v: OpView, mine: bool, entry: Option<PendingUpload>, now: int)
    ensures var w := Synced(v, mine, entry, now); Synced(w, mine, entry, now) == w && !Completes(w, mine, entry)
  {}

  predicate Mine(op: Op, conn: string) { op.kind == Upload && op.conn == conn }

  class OpsStore {
    var ops: array<Op>
    var count: nat

    ghost predicate Valid()
      reads this
    {
      count <= ops.Length
    }

    function Ops(): seq<Op>
      requires Valid()
      reads this, ops
    {
      ops[..count]
    }

    method Add(op: Op)
      requires Valid()
      modifies this, ops
      ensures Valid() && (ops == old(ops) || fresh(ops)) && Ops() == old(Ops()) + [op]
    {
      if count == ops.Length {
        var bigger := new Op[2 * count + 1](_ => op);
        forall i | 0 <= i < count { bigger[i] := ops[i]; }
        assert bigger[..count] == ops[..count];
        ops := bigger;
      }
      ops[count] := op;
      count := count + 1;
    }

    method Find(id: string) returns (op: Op?)
      requires Valid()
      ensures op == null ==> forall o <- Ops() :: o.id != id
      ensures op != null ==> op in Ops() && op.id == id
    {
      for i := 0 to count
        invariant forall o <- ops[..i] :: o.id != id
      {
        if ops[i].id == id { return ops[i]; }
      }
      op := null;
    }

    /** Skips what is finished for more than 4 s; `at` says where the others stand. */
    method Active(now: int) returns (result: seq<OpView>, ghost at: seq<nat>)
      requires Valid()
      ensures Recent(Ops(), at, 4_000_000_000, now) && |result| == |at|
      ensures forall k | 0 <= k < |at| :: result[k] == Ops()[at[k]].View()
      ensures result == Shown(Ops(), now)
    {
      result := [];
      at := ShownAreTheRecent(Ops(), now);
      for i := 0 to count
        invariant result == Shown(ops[..i], now)
      {
        var v := ops[i].View();
        assert ops[..i + 1][..i] == ops[..i];
        if (v.status == Done || v.status == Failed) && now - v.doneAt > 4 * SECOND { continue; }
        result := result + [v];
      }
    }

    /** Compacts the slice in place. */
    method Compact(now: int)
      requires Valid()
      modifies this`count, ops
      ensures Valid() && Ops() == old(Without(Ops(), ExpiredOps(Ops(), now)))
    {
      ghost var was, gone := Ops(), ExpiredOps(Ops(), now);
      var filtered := 0;
      for i := 0 to count
        invariant count == |was| && Pruning(ops[..count], was, gone, i, filtered)
      {
        ghost var list := ops[..count];
        PruningGoesOn(list, was, gone, i, filtered);
        var op := ops[i];
        var v := op.View();
        if (v.status == Done || v.status == Failed) && now - v.doneAt > 5 * SECOND { continue; }
        ops[filtered] := op;
        assert ops[..count] == list[filtered := op];
        filtered := filtered + 1;
      }
      assert was[..|was|] == was && ops[..count][..filtered] == ops[..filtered];
      count := filtered;
    }

    /** Drops what is finished for more than 5 s; `at` says where the ops that stay were. */
    method Prune(now: int) returns (ghost at: seq<nat>)
      requires Valid()
      modifies this`count, ops
      ensures Valid() && old(Recent(Ops(), at, 5_000_000_000, now)) && count == |at|
      ensures forall k | 0 <= k < |at| :: Ops()[k] == old(Ops())[at[k]]
      ensures Ops() == old(Without(Ops(), ExpiredOps(Ops(), now)))
    {
      at := PrunedAreTheRecent(Ops(), now);
      Compact(now);
    }

    /** The lookup table of the server's list: a later entry for a path replaces an earlier one. */
    static method ByPath(pending: seq<PendingUpload>) returns (byPath: map<string, PendingUpload>)
      ensures forall path :: Lookup(byPath, path) == LastEntry(pending, path)
    {
      byPath := map[];
      for i := 0 to |pending|
        invariant forall path :: Lookup(byPath, path) == LastEntry(pending[..i], path)
      {
        assert pending[..i + 1][..i] == pending[..i];
        byPath := byPath[pending[i].path := pending[i]];
      }
      assert pending[..|pending|] == pending;
    }

    /** The loop over the ops, with the server's list as a table. */
    method SyncAll(conn: string, byPath: map<string, PendingUpload>, now: int) returns (anyCompleted: bool)
      requires Valid()
      modifies Ops()
      ensures Valid() && Ops() == old(Ops())
      ensures forall op <- Ops() :: op.View() == Synced(old(op.View()), Mine(op, conn), Lookup(byPath, op.path), now)
      ensures anyCompleted <==> exists op <- Ops() :: Completes(old(op.View()), Mine(op, conn), Lookup(byPath, op.path))
    {
      ghost var seen: set<Op> := {};
      anyCompleted := false;
      for i := 0 to count
        invariant ops[..count] == old(Ops()) && seen == set op | op in ops[..i]
        invariant forall op <- Ops() ::
            op.View() == if op in seen then Synced(old(op.View()), Mine(op, conn), Lookup(byPath, op.path), now)
                         else old(op.View())
        invariant anyCompleted <==>
          exists op <- seen :: Completes(old(op.View()), Mine(op, conn), Lookup(byPath, op.path))
      {
        var op := ops[i];
        assert op in Ops() && ops[..i + 1] == ops[..i] + [op];
        seen := seen + {op};
        SyncedAgain(old(op.View()), Mine(op, conn), Lookup(byPath, op.path), now);
        if op.kind != Upload || op.conn != conn { continue; }
        var completed := op.Sync(Lookup(byPath, op.path), now);
        anyCompleted := anyCompleted || completed;
      }
    }

    /** Reconciles the queued uploads of a connection with the server's list. */
    method SyncWithPending(conn: string, pending: seq<PendingUpload>, now: int) returns (anyCompleted: bool)
      requires Valid()
      modifies Ops()
      ensures Valid() && Ops() == old(Ops())
      ensures forall op <- Ops() ::
                if op.kind == Upload && op.conn == conn && old(op.status) != Done && old(op.status) != Failed
                then Reconciled(old(op.View()), op.View(), LastEntry(pending, op.path), now)
                else op.View() == old(op.View())
      ensures forall op <- Ops() ::
                op.View() == Synced(old(op.View()), Mine(op, conn), LastEntry(pending, op.path), now)
      ensures anyCompleted <==> exists op <- Ops() :: old(op.View()).status != Done && op.View().status == Done
    {
      var byPath := ByPath(pending);
      anyCompleted := SyncAll(conn, byPath, now);
      forall op <- Ops() ensures Completes(old(op.View()), Mine(op, conn), Lookup(byPath, op.path))
                                 <==> old(op.View()).status != Done && op.View().status == Done
      {
        SyncedExactly(old(op.View()), Mine(op, conn), Lookup(byPath, op.path), now, now);
      }
    }
  }

  function Lookup(byPath: map<string, PendingUpload>, path: string): Option<PendingUpload> {
    if path in byPath then Some(byPath[path]) else None
  }
}
