/**
 Quota enforcement: a limit check before an operation, an entry in the usage ledger after it.
 Instants are microseconds (Calendar.Instant); requests of the one user come one at a time.
 */
module Quota {
  import opened Basics
  import opened Calendar

  datatype Kind = Enumerate | Read | Write | Delete

  datatype Event = Event(kind: Kind, at: int, ok: bool, bytes: nat)

  datatype Plan = Plan(
    enumerateLimit: Option<nat>, readLimit: Option<nat>, writeLimit: Option<nat>, deleteLimit: Option<nat>,
    readBytesLimit: Option<nat>, writeBytesLimit: Option<nat>)

  datatype Period = Period(start: DateTime, end: DateTime) {
    ghost predicate Valid() { start.Valid() && end == AddOneMonth(start) }
    predicate Covers(at: int)
      requires start.Valid() && end.Valid()
    {
      Instant(start) <= at < Instant(end)
    }
  }

  datatype Usage = Usage(enumerate: nat, read: nat, write: nat, delete: nat, readBytes: nat, writeBytes: nat)

  function Limit(plan: Plan, kind: Kind): Option<nat> {
    match kind
    case Enumerate => plan.enumerateLimit
    case Read => plan.readLimit
    case Write => plan.writeLimit
    case Delete => plan.deleteLimit
  }

  predicate Counts(e: Event, kind: Kind, lo: int, hi: int) { e.ok && e.kind == kind && lo <= e.at < hi }

  /** Counted operations of one kind in a window, and their bytes. */
  function Count(ledger: seq<Event>, kind: Kind, lo: int, hi: int): nat {
    if ledger == [] then 0
    else Count(ledger[..|ledger| - 1], kind, lo, hi) + if Counts(ledger[|ledger| - 1], kind, lo, hi) then 1 else 0
  }

  function Bytes(ledger: seq<Event>, kind: Kind, lo: int, hi: int): nat {
    if ledger == [] then 0
    else
      var last := ledger[|ledger| - 1];
      Bytes(ledger[..|ledger| - 1], kind, lo, hi) + if Counts(last, kind, lo, hi) then last.bytes else 0
  }

  function CountOf(u: Usage, kind: Kind): nat {
    match kind
    case Enumerate => u.enumerate
    case Read => u.read
    case Write => u.write
    case Delete => u.delete
  }

  function UsageOf(ledger: seq<Event>, lo: int, hi: int): Usage {
    Usage(Count(ledger, Enumerate, lo, hi), Count(ledger, Read, lo, hi),
          Count(ledger, Write, lo, hi), Count(ledger, Delete, lo, hi),
          Bytes(ledger, Read, lo, hi), Bytes(ledger, Write, lo, hi))
  }

  /** get_cycle_usage: one pass over the events of the window. */
  method GetCycleUsage(ledger: seq<Event>, lo: int, hi: int) returns (usage: Usage)
    ensures usage.enumerate == Count(ledger, Enumerate, lo, hi) && usage.read == Count(ledger, Read, lo, hi)
    ensures usage.write == Count(ledger, Write, lo, hi) && usage.delete == Count(ledger, Delete, lo, hi)
    ensures usage.readBytes == Bytes(ledger, Read, lo, hi) && usage.writeBytes == Bytes(ledger, Write, lo, hi)
    ensures usage == UsageOf(ledger, lo, hi)
  {
    usage := Usage(0, 0, 0, 0, 0, 0);
    for i := 0 to |ledger|
      invariant usage == UsageOf(ledger[..i], lo, hi)
    {
      var e := ledger[i];
      assert ledger[..i + 1][..i] == ledger[..i];
      if e.ok && lo <= e.at < hi {
        match e.kind
        case Enumerate => usage := usage.(enumerate := usage.enumerate + 1);
        case Read => usage := usage.(read := usage.read + 1, readBytes := usage.readBytes + e.bytes);
        case Write => usage := usage.(write := usage.write + 1, writeBytes := usage.writeBytes + e.bytes);
        case Delete => usage := usage.(delete := usage.delete + 1);
      }
    }
    assert ledger[..|ledger|] == ledger;
  }

  predicate Below(count: nat, limit: Option<nat>) { limit.None? || count < limit.value }

  predicate Within(amount: int, limit: Option<nat>) { limit.None? || amount <= limit.value }

  /** check_limit with the usage already added up; `bytes` may be any integer a header claims. */
  predicate Allowed(plan: Plan, usage: Usage, kind: Kind, bytes: int) {
    && Below(CountOf(usage, kind), Limit(plan, kind))
    && (kind == Read ==> Within(usage.readBytes + bytes, plan.readBytesLimit))
    && (kind == Write ==> Within(usage.writeBytes + bytes, plan.writeBytesLimit))
  }

  datatype Account = Account(period: Period, ledger: seq<Event>)

  /** advance_cycle_if_needed, as far as the period goes. */
  function Advance(a: Account, now: int): Account
    requires a.period.Valid()
  {
    AddOneMonthLater(a.period.start);
    if now <= Instant(a.period.end) then a
    else a.(period := Period(a.period.end, AddOneMonth(a.period.end)))
  }

  function CycleUsage(a: Account): Usage
    requires a.period.Valid()
  {
    AddOneMonthLater(a.period.start);
    UsageOf(a.ledger, Instant(a.period.start), Instant(a.period.end))
  }

  /** check_limit at an instant. */
  predicate Passes(plan: Plan, a: Account, kind: Kind, bytes: int, now: int)
    requires a.period.Valid()
  {
    AdvanceValid(a, now);
    Allowed(plan, CycleUsage(Advance(a, now)), kind, bytes)
  }

  lemma AdvanceValid(a: Account, now: int)
    requires a.period.Valid()
    ensures Advance(a, now).period.Valid() && Instant(Advance(a, now).period.start) >= Instant(a.period.start)
  {
    AddOneMonthLater(a.period.start);
  }

  /* ------------------------------------ requests ------------------------------------ */

  /** One request: when it is checked, how it goes, when (and whether) its event is recorded. */
  datatype Request =
    | Visit(at: int)                                                    // only looks at the subscription
    | Refused(kind: Kind, end: int, saved: bool)                        // turned down before the check
    | Simple(kind: Kind, at: int, works: bool, end: int, saved: bool)   // enumerate or delete
    | Download(at: int, opens: bool, sent: nat, ok: bool, end: int, saved: bool)
    | Upload(at: int, size: nat, works: bool, end: int, saved: bool)    // JSON or multipart: the size is known
    | Stream(at: int, declared: int, actual: nat, works: bool, again: int, end: int, saved: bool)  // octet-stream

  function Record(a: Account, e: Event, saved: bool): Account {
    if saved then a.(ledger := a.ledger + [e]) else a
  }

  /** _path_write for an octet stream: a body that is not handed to the write cache is counted while
      it is written, and checked again if its length is not the one declared. */
  function ServeStream(plan: Plan, threshold: nat, a: Account, r: Request): (a': Account)
    requires r.Stream? && a.period.Valid()
    ensures a'.period.Valid()
  {
    AdvanceValid(a, r.at);
    AdvanceValid(Advance(a, r.at), r.again);
    var a1 := Advance(a, r.at);
    if !Passes(plan, a, Write, r.declared, r.at) then Record(a1, Event(Write, r.end, false, 0), r.saved)
    else if r.declared >= threshold
    then Record(a1, Event(Write, r.end, r.works, if r.works then r.declared else 0), r.saved)
    else if !r.works then Record(a1, Event(Write, r.end, false, 0), r.saved)
    else if r.actual == r.declared then Record(a1, Event(Write, r.end, true, r.actual), r.saved)
    else
      var ok := Passes(plan, a1, Write, r.actual, r.again);
      Record(Advance(a1, r.again), Event(Write, r.end, ok, r.actual), r.saved)
  }

  function Serve(plan: Plan, threshold: nat, a: Account, r: Request): (a': Account)
    requires a.period.Valid()
    ensures a'.period.Valid()
  {
    match r
    case Refused(kind, end, saved) => Record(a, Event(kind, end, false, 0), saved)
    case Visit(at) => AdvanceValid(a, at); Advance(a, at)
    case Simple(kind, at, works, end, saved) =>
      AdvanceValid(a, at);
      Record(Advance(a, at), Event(kind, end, works && Passes(plan, a, kind, 0, at), 0), saved)
    case Download(at, opens, sent, ok, end, saved) =>
      AdvanceValid(a, at);
      if Passes(plan, a, Read, 0, at) && opens then Record(Advance(a, at), Event(Read, end, ok, sent), saved)
      else Record(Advance(a, at), Event(Read, end, false, 0), saved)
    case Upload(at, size, works, end, saved) =>
      AdvanceValid(a, at);
      Record(Advance(a, at), Event(Write, end, works && Passes(plan, a, Write, size, at), size), saved)
    case Stream(_, _, _, _, _, _, _) => ServeStream(plan, threshold, a, r)
  }

  /* ------------------------------------ safety ------------------------------------ */

  ghost predicate ReadsOk(plan: Plan, ledger: seq<Event>, lo: int, hi: int) {
    forall i | 0 <= i < |ledger| && Counts(ledger[i], Read, lo, hi) ::
        Within(Bytes(ledger[..i], Read, lo, hi), plan.readBytesLimit)
  }

  /** The window obeys the plan: the counts and the written bytes are within their limits, and the
      read bytes were within theirs before each counted read, so at most the last one overshoots. */
  ghost predicate WindowOk(plan: Plan, ledger: seq<Event>, lo: int, hi: int) {
    && (forall kind: Kind :: Within(Count(ledger, kind, lo, hi), Limit(plan, kind)))
    && Within(Bytes(ledger, Write, lo, hi), plan.writeBytesLimit)
    && ReadsOk(plan, ledger, lo, hi)
  }

  /** The event would fit into an empty period. */
  ghost predicate FitsAlone(plan: Plan, e: Event) {
    Below(0, Limit(plan, e.kind)) && (e.kind == Write ==> Within(e.bytes, plan.writeBytesLimit))
  }

  ghost predicate EventsOk(plan: Plan, ledger: seq<Event>, now: int) {
    forall i | 0 <= i < |ledger| :: ledger[i].at <= now && (ledger[i].ok ==> FitsAlone(plan, ledger[i]))
  }

  /** At most one counted event lies at or behind `hi`. */
  ghost predicate OneLate(ledger: seq<Event>, hi: int) {
    forall i, j | 0 <= i < |ledger| && 0 <= j < |ledger| ::
      ledger[i].ok && ledger[j].ok && ledger[i].at >= hi && ledger[j].at >= hi ==> i == j
  }

  function Lo(p: Period): int
    requires p.Valid()
  {
    Instant(p.start)
  }

  function Hi(p: Period): (hi: int)
    requires p.Valid()
    ensures hi > Lo(p) && p.end.Valid()
  {
    AddOneMonthLater(p.start);
    Instant(p.end)
  }

  ghost predicate Safe(plan: Plan, a: Account, now: int) {
    && a.period.Valid() && Lo(a.period) <= now
    && EventsOk(plan, a.ledger, now) && OneLate(a.ledger, Hi(a.period))
    && WindowOk(plan, a.ledger, Lo(a.period), Hi(a.period))
  }

  lemma {:induction false} OneEvent(ledger: seq<Event>, kind: Kind, lo: int, hi: int) returns (i: nat)
    requires OneLate(ledger, lo)
    ensures Count(ledger, kind, lo, hi) <= 1
    ensures Count(ledger, kind, lo, hi) == 0 ==> Bytes(ledger, kind, lo, hi) == 0
    ensures Count(ledger, kind, lo, hi) == 1
            ==> i < |ledger| && Counts(ledger[i], kind, lo, hi) && Bytes(ledger, kind, lo, hi) == ledger[i].bytes
    decreases |ledger|
  {
    i := 0;
    if ledger != [] {
      var n := |ledger| - 1;
      i := OneEvent(ledger[..n], kind, lo, hi);
      if Counts(ledger[n], kind, lo, hi) {
        assert Count(ledger[..n], kind, lo, hi) == 1 ==> Counts(ledger[i], kind, lo, hi) && i < n;
        i := n;
      }
    }
  }

  /** A window that holds at most one counted event, and one that fits, obeys the plan. */
  lemma OneEventOk(plan: Plan, ledger: seq<Event>, now: int, lo: int, hi: int)
    requires EventsOk(plan, ledger, now) && OneLate(ledger, lo)
    ensures WindowOk(plan, ledger, lo, hi)
  {
    forall kind: Kind ensures Within(Count(ledger, kind, lo, hi), Limit(plan, kind)) {
      var i := OneEvent(ledger, kind, lo, hi);
    }
    var j := OneEvent(ledger, Write, lo, hi);
    forall i | 0 <= i < |ledger| && Counts(ledger[i], Read, lo, hi)
      ensures Within(Bytes(ledger[..i], Read, lo, hi), plan.readBytesLimit)
    {
      assert OneLate(ledger[..i], lo);
      var k := OneEvent(ledger[..i], Read, lo, hi);
    }
  }

  lemma AdvanceSafe(plan: Plan, a: Account, now: int, t: int)
    requires Safe(plan, a, now) && t >= now
    ensures Safe(plan, Advance(a, t), t)
  {
    AdvanceValid(a, t);
    if t > Hi(a.period) {
      var b := Advance(a, t);
      assert OneLate(a.ledger, Hi(b.period));
      OneEventOk(plan, a.ledger, t, Lo(b.period), Hi(b.period));
    }
  }

  /** An event outside the window, or one that failed, leaves the window's usage as it is. */
  lemma NotCounted(plan: Plan, ledger: seq<Event>, e: Event, lo: int, hi: int)
    requires !e.ok || e.at >= hi
    requires WindowOk(plan, ledger, lo, hi)
    ensures WindowOk(plan, ledger + [e], lo, hi)
  {
    assert (ledger + [e])[..|ledger|] == ledger;
    forall i | 0 <= i < |ledger + [e]| && Counts((ledger + [e])[i], Read, lo, hi)
      ensures Within(Bytes((ledger + [e])[..i], Read, lo, hi), plan.readBytesLimit)
    {
      assert (ledger + [e])[..i] == ledger[..i];
    }
  }

  lemma RecordFailed(plan: Plan, a: Account, now: int, e: Event, saved: bool)
    requires Safe(plan, a, now) && !e.ok && e.at >= now
    ensures Safe(plan, Record(a, e, saved), e.at)
  {
    NotCounted(plan, a.ledger, e, Lo(a.period), Hi(a.period));
  }

  /** An event that passed its check, counted in the window the check looked at. */
  lemma Counted(plan: Plan, ledger: seq<Event>, e: Event, bytes: int, lo: int, hi: int)
    requires WindowOk(plan, ledger, lo, hi) && e.ok && lo <= e.at < hi
    requires Allowed(plan, UsageOf(ledger, lo, hi), e.kind, bytes)
    requires (e.kind == Write ==> bytes == e.bytes) && (e.kind == Read ==> bytes == 0)
    ensures WindowOk(plan, ledger + [e], lo, hi)
  {
    assert (ledger + [e])[..|ledger|] == ledger;
    forall i | 0 <= i < |ledger + [e]| && Counts((ledger + [e])[i], Read, lo, hi)
      ensures Within(Bytes((ledger + [e])[..i], Read, lo, hi), plan.readBytesLimit)
    {
      assert (ledger + [e])[..i] == ledger[..i];
    }
  }

  lemma EventFits(plan: Plan, ledger: seq<Event>, now: int, e: Event, bytes: int, lo: int, hi: int)
    requires EventsOk(plan, ledger, now) && now < hi && e.at >= now
    requires Allowed(plan, UsageOf(ledger, lo, hi), e.kind, bytes) && (e.kind == Write ==> bytes == e.bytes)
    ensures EventsOk(plan, ledger + [e], e.at) && OneLate(ledger + [e], hi)
  {}

  lemma RecordPassed(plan: Plan, a: Account, now: int, e: Event, bytes: int, saved: bool)
    requires Safe(plan, a, now) && now < Hi(a.period) && e.ok && e.at >= now
    requires Allowed(plan, CycleUsage(a), e.kind, bytes)
    requires (e.kind == Write ==> bytes == e.bytes) && (e.kind == Read ==> bytes == 0)
    ensures Safe(plan, Record(a, e, saved), e.at)
  {
    EventFits(plan, a.ledger, now, e, bytes, Lo(a.period), Hi(a.period));
    if e.at < Hi(a.period) {
      Counted(plan, a.ledger, e, bytes, Lo(a.period), Hi(a.period));
    } else {
      NotCounted(plan, a.ledger, e, Lo(a.period), Hi(a.period));
    }
  }

  /* ------------------------------------ whole runs ------------------------------------ */

  function EndOf(r: Request): int { if r.Visit? then r.at else r.end }

  /** The clock does not go back, within a request and from one to the next. */
  predicate Timed(r: Request, now: int) {
    match r
    case Visit(at) => now <= at
    case Refused(_, end, _) => now <= end
    case Stream(at, _, _, _, again, end, _) => now <= at <= again <= end
    case _ => now <= r.at <= r.end
  }

  /** When a check is made, the stored period has caught up with the clock, and the clock does not
      stand exactly at its end. */
  ghost predicate CaughtUp(a: Account, r: Request)
    requires a.period.Valid()
  {
    match r
    case Visit(_) => true
    case Refused(_, _, _) => true
    case Stream(at, _, _, _, again, _, _) =>
      AdvanceValid(a, at);
      AdvanceValid(Advance(a, at), again);
      at < Hi(Advance(a, at).period) && again < Hi(Advance(Advance(a, at), again).period)
    case _ => AdvanceValid(a, r.at); r.at < Hi(Advance(a, r.at).period)
  }

  lemma PassedOrFailed(plan: Plan, a: Account, now: int, e: Event, bytes: int, saved: bool)
    requires Safe(plan, a, now) && now < Hi(a.period) && e.at >= now
    requires e.ok ==> Allowed(plan, CycleUsage(a), e.kind, bytes)
    requires (e.kind == Write ==> bytes == e.bytes) && (e.kind == Read ==> bytes == 0)
    ensures Safe(plan, Record(a, e, saved), e.at)
  {
    if e.ok { RecordPassed(plan, a, now, e, bytes, saved); } else { RecordFailed(plan, a, now, e, saved); }
  }

  lemma StreamSafe(plan: Plan, threshold: nat, a: Account, now: int, r: Request)
    requires r.Stream? && Safe(plan, a, now) && Timed(r, now) && CaughtUp(a, r)
    ensures Safe(plan, ServeStream(plan, threshold, a, r), r.end)
  {
    AdvanceSafe(plan, a, now, r.at);
    var a1 := Advance(a, r.at);
    if !Passes(plan, a, Write, r.declared, r.at) {
      RecordFailed(plan, a1, r.at, Event(Write, r.end, false, 0), r.saved);
    } else if r.declared >= threshold {
      var bytes := if r.works then r.declared else 0;
      PassedOrFailed(plan, a1, r.at, Event(Write, r.end, r.works, bytes), bytes, r.saved);
    } else if !r.works {
      RecordFailed(plan, a1, r.at, Event(Write, r.end, false, 0), r.saved);
    } else if r.actual == r.declared {
      RecordPassed(plan, a1, r.at, Event(Write, r.end, true, r.actual), r.actual, r.saved);
    } else {
      AdvanceSafe(plan, a1, r.at, r.again);
      var e := Event(Write, r.end, Passes(plan, a1, Write, r.actual, r.again), r.actual);
      PassedOrFailed(plan, Advance(a1, r.again), r.again, e, r.actual, r.saved);
    }
  }

  lemma ServeSafe(plan: Plan, threshold: nat, a: Account, now: int, r: Request)
    requires Safe(plan, a, now) && Timed(r, now) && CaughtUp(a, r)
    ensures Safe(plan, Serve(plan, threshold, a, r), EndOf(r))
  {
    match r
    case Refused(kind, end, saved) => RecordFailed(plan, a, now, Event(kind, end, false, 0), saved);
    case Visit(at) => AdvanceSafe(plan, a, now, at);
    case Simple(kind, at, works, end, saved) =>
      AdvanceSafe(plan, a, now, at);
      SimpleSafe(plan, Advance(a, at), kind, at, works, end, saved);
    case Download(at, opens, sent, ok, end, saved) =>
      AdvanceSafe(plan, a, now, at);
      if Passes(plan, a, Read, 0, at) && opens {
        PassedOrFailed(plan, Advance(a, at), at, Event(Read, end, ok, sent), 0, saved);
      } else {
        RecordFailed(plan, Advance(a, at), at, Event(Read, end, false, 0), saved);
      }
    case Upload(at, size, works, end, saved) =>
      AdvanceSafe(plan, a, now, at);
      var ok := works && Passes(plan, a, Write, size, at);
      PassedOrFailed(plan, Advance(a, at), at, Event(Write, end, ok, size), size, saved);
    case Stream(_, _, _, _, _, _, _) => StreamSafe(plan, threshold, a, now, r);
  }

  lemma SimpleSafe(plan: Plan, a: Account, kind: Kind, at: int, works: bool, end: int, saved: bool)
    requires Safe(plan, a, at) && at < Hi(a.period) && at <= end
    ensures Safe(plan, Record(a, Event(kind, end, works && Allowed(plan, CycleUsage(a), kind, 0), 0), saved), end)
  {
    PassedOrFailed(plan, a, at, Event(kind, end, works && Allowed(plan, CycleUsage(a), kind, 0), 0), 0, saved);
  }

  function ServeAll(plan: Plan, threshold: nat, a: Account, rs: seq<Request>): (a': Account)
    requires a.period.Valid()
    ensures a'.period.Valid()
    decreases |rs|
  {
    if rs == [] then a else ServeAll(plan, threshold, Serve(plan, threshold, a, rs[0]), rs[1..])
  }

  ghost predicate TimedRun(plan: Plan, threshold: nat, a: Account, now: int, rs: seq<Request>)
    requires a.period.Valid()
    decreases |rs|
  {
    rs == [] || (Timed(rs[0], now) && CaughtUp(a, rs[0])
                 && TimedRun(plan, threshold, Serve(plan, threshold, a, rs[0]), EndOf(rs[0]), rs[1..]))
  }

  ghost predicate Shape(a: Account, a': Account, e: Event, end: int)
    requires a.period.Valid()
  {
    && (a'.ledger == a.ledger || (a'.ledger == a.ledger + [e] && e.at == end))
    && (a'.period == a.period || Hi(a.period) < end)
  }

  lemma RecordShape(a: Account, at: int, e: Event, saved: bool, end: int)
    requires a.period.Valid() && at <= end && e.at == end
    ensures Shape(a, Record(Advance(a, at), e, saved), e, end)
  {}

  lemma StreamShape(plan: Plan, threshold: nat, a: Account, now: int, r: Request) returns (e: Event)
    requires a.period.Valid() && r.Stream? && Timed(r, now)
    ensures Shape(a, ServeStream(plan, threshold, a, r), e, r.end)
  {
    AdvanceValid(a, r.at);
    var a1 := Advance(a, r.at);
    AdvanceValid(a1, r.again);
    if !Passes(plan, a, Write, r.declared, r.at) {
      e := Event(Write, r.end, false, 0);
    } else if r.declared >= threshold {
      e := Event(Write, r.end, r.works, if r.works then r.declared else 0);
    } else if !r.works {
      e := Event(Write, r.end, false, 0);
    } else if r.actual == r.declared {
      e := Event(Write, r.end, true, r.actual);
    } else {
      e := Event(Write, r.end, Passes(plan, a1, Write, r.actual, r.again), r.actual);
      RecordShape(a1, r.again, e, r.saved, r.end);
      return;
    }
    RecordShape(a, r.at, e, r.saved, r.end);
  }

  /** A request adds at most one event, at its end, and leaves its period only after the period's end. */
  lemma ServeShape(plan: Plan, threshold: nat, a: Account, now: int, r: Request) returns (e: Event)
    requires a.period.Valid() && Timed(r, now)
    ensures Shape(a, Serve(plan, threshold, a, r), e, EndOf(r))
  {
    match r
    case Refused(kind, end, saved) => e := Event(kind, end, false, 0);
    case Visit(at) => e := Event(Read, at, false, 0);
    case Simple(kind, at, works, end, saved) =>
      e := Event(kind, end, works && Passes(plan, a, kind, 0, at), 0);
      RecordShape(a, at, e, saved, end);
    case Download(at, opens, sent, ok, end, saved) =>
      e := if Passes(plan, a, Read, 0, at) && opens then Event(Read, end, ok, sent) else Event(Read, end, false, 0);
      RecordShape(a, at, e, saved, end);
    case Upload(at, size, works, end, saved) =>
      e := Event(Write, end, works && Passes(plan, a, Write, size, at), size);
      RecordShape(a, at, e, saved, end);
    case Stream(_, _, _, _, _, _, _) => e := StreamShape(plan, threshold, a, now, r);
  }

  /** A window that is behind the clock, or was just left behind, is never touched again. */
  lemma WindowStays(plan: Plan, threshold: nat, a: Account, now: int, r: Request, lo: int, hi: int)
    requires Safe(plan, a, now) && Timed(r, now)
    requires WindowOk(plan, a.ledger, lo, hi) && (hi <= now || (lo == Lo(a.period) && hi == Hi(a.period)))
    ensures var a' := Serve(plan, threshold, a, r);
            a'.period == a.period || (hi <= EndOf(r) && WindowOk(plan, a'.ledger, lo, hi))
    ensures hi <= now ==> WindowOk(plan, Serve(plan, threshold, a, r).ledger, lo, hi)
  {
    var e := ServeShape(plan, threshold, a, now, r);
    if hi <= EndOf(r) { NotCountedAt(plan, a.ledger, e, EndOf(r), lo, hi); }
  }

  lemma NotCountedAt(plan: Plan, ledger: seq<Event>, e: Event, at: int, lo: int, hi: int)
    requires hi <= at && WindowOk(plan, ledger, lo, hi)
    ensures e.at == at ==> WindowOk(plan, ledger + [e], lo, hi)
  {
    if e.at == at { NotCounted(plan, ledger, e, lo, hi); }
  }

  lemma {:induction false} RunKeepsWindow(plan: Plan, threshold: nat, a: Account, now: int, rs: seq<Request>, lo: int,
                                          hi: int)
    requires Safe(plan, a, now) && TimedRun(plan, threshold, a, now, rs)
    requires WindowOk(plan, a.ledger, lo, hi) && (hi <= now || (lo == Lo(a.period) && hi == Hi(a.period)))
    ensures WindowOk(plan, ServeAll(plan, threshold, a, rs).ledger, lo, hi)
    decreases |rs|
  {
    if rs != [] {
      ServeSafe(plan, threshold, a, now, rs[0]);
      WindowStays(plan, threshold, a, now, rs[0], lo, hi);
      EndIsLater(rs[0], now);
      RunKeepsWindow(plan, threshold, Serve(plan, threshold, a, rs[0]), EndOf(rs[0]), rs[1..], lo, hi);
    }
  }

  lemma EndIsLater(r: Request, now: int)
    requires Timed(r, now)
    ensures now <= EndOf(r)
  {}

  /** Every period the user has from now to the end of the run.  Only a stream checks twice; it may enter
      a period with its first check and leave it with its second. */
  function Periods(plan: Plan, threshold: nat, a: Account, rs: seq<Request>): set<Period>
    requires a.period.Valid()
    decreases |rs|
  {
    if rs == [] then {a.period}
    else
      {a.period} + (if rs[0].Stream? then {Advance(a, rs[0].at).period} else {})
      + Periods(plan, threshold, Serve(plan, threshold, a, rs[0]), rs[1..])
  }

  /** What a stream does after its first check. */
  lemma SecondShape(plan: Plan, threshold: nat, a: Account, now: int, r: Request) returns (e: Event)
    requires r.Stream? && a.period.Valid() && Timed(r, now)
    ensures Advance(a, r.at).period.Valid()
    ensures Shape(Advance(a, r.at), ServeStream(plan, threshold, a, r), e, r.end)
  {
    AdvanceValid(a, r.at);
    var a1, a' := Advance(a, r.at), ServeStream(plan, threshold, a, r);
    AdvanceValid(a1, r.again);
    var written := Passes(plan, a, Write, r.declared, r.at) && r.declared < threshold && r.works;
    var advances := written && r.actual != r.declared;
    if advances {
      e := Event(Write, r.end, Passes(plan, a1, Write, r.actual, r.again), r.actual);
      RecordShape(a1, r.again, e, r.saved, r.end);
    } else {
      e := if r.saved then a'.ledger[|a'.ledger| - 1] else Event(Write, r.end, false, 0);
    }
  }

  lemma LeftBehind(plan: Plan, a: Account, a': Account, e: Event, end: int)
    requires a.period.Valid() && Shape(a, a', e, end) && a'.period != a.period
    requires WindowOk(plan, a.ledger, Lo(a.period), Hi(a.period))
    ensures Hi(a.period) <= end && WindowOk(plan, a'.ledger, Lo(a.period), Hi(a.period))
  {
    NotCountedAt(plan, a.ledger, e, end, Lo(a.period), Hi(a.period));
  }

  /** The period a stream's first check finds, at the end of the stream. */
  lemma StreamPeriod(plan: Plan, threshold: nat, a: Account, now: int, r: Request)
    requires r.Stream? && Safe(plan, a, now) && Timed(r, now) && CaughtUp(a, r)
    ensures var p, a' := Advance(a, r.at).period, ServeStream(plan, threshold, a, r);
            p.Valid() && WindowOk(plan, a'.ledger, Lo(p), Hi(p)) && (p == a'.period || Hi(p) <= r.end)
  {
    AdvanceSafe(plan, a, now, r.at);
    StreamSafe(plan, threshold, a, now, r);
    var e := SecondShape(plan, threshold, a, now, r);
    var a1, a' := Advance(a, r.at), ServeStream(plan, threshold, a, r);
    if a'.period != a1.period { LeftBehind(plan, a1, a', e, r.end); }
  }

  /** Quota safety over whole runs: whatever the requests do, at the end of the run every billing period
      the user has had obeys the plan. */
  lemma {:induction false} EveryPeriodIsWithinLimits(plan: Plan, threshold: nat, a: Account, now: int,
                                                     rs: seq<Request>, p: Period)
    requires Safe(plan, a, now) && TimedRun(plan, threshold, a, now, rs) && p in Periods(plan, threshold, a, rs)
    ensures p.Valid() && WindowOk(plan, ServeAll(plan, threshold, a, rs).ledger, Lo(p), Hi(p))
    decreases |rs|
  {
    if p == a.period {
      RunKeepsWindow(plan, threshold, a, now, rs, Lo(p), Hi(p));
    } else {
      var b := Serve(plan, threshold, a, rs[0]);
      ServeSafe(plan, threshold, a, now, rs[0]);
      if p in Periods(plan, threshold, b, rs[1..]) {
        EveryPeriodIsWithinLimits(plan, threshold, b, EndOf(rs[0]), rs[1..], p);
      } else {
        StreamPeriod(plan, threshold, a, now, rs[0]);
        RunKeepsWindow(plan, threshold, b, EndOf(rs[0]), rs[1..], Lo(p), Hi(p));
      }
    }
  }

  /** A new subscription is safe to start from. */
  lemma NewAccountIsSafe(plan: Plan, start: DateTime)
    requires start.Valid()
    ensures Safe(plan, Account(Period(start, AddOneMonth(start)), []), Instant(start))
  {}

  /* ----------------------------- the clock exactly at the period's end ----------------------------- */

  lemma CountMore(ledger: seq<Event>, e: Event, kind: Kind, lo: int, hi: int)
    ensures Count(ledger + [e], kind, lo, hi) == Count(ledger, kind, lo, hi) + if Counts(e, kind, lo, hi) then 1 else 0
  {
    assert (ledger + [e])[..|ledger|] == ledger;
  }

  /** A request that is checked and recorded at one moment is counted in the window it was checked
      against exactly when that moment lies in it: the row has caught up and does not end just now. */
  lemma CountedWhereChecked(plan: Plan, threshold: nat, a: Account, kind: Kind, at: int)
    requires a.period.Valid() && Lo(a.period) <= at && Passes(plan, a, kind, 0, at)
    ensures var p, r := Advance(a, at).period, Simple(kind, at, true, at, true);
            p.Valid() && (CaughtUp(a, r) <==>
              Count(Serve(plan, threshold, a, r).ledger, kind, Lo(p), Hi(p)) == Count(a.ledger, kind, Lo(p), Hi(p)) + 1)
  {
    AdvanceValid(a, at);
    var p, e := Advance(a, at).period, Event(kind, at, true, 0);
    assert Serve(plan, threshold, a, Simple(kind, at, true, at, true)).ledger == a.ledger + [e];
    CountMore(a.ledger, e, kind, Lo(p), Hi(p));
  }

  /** A request of the given kind that works and is over at once; `n` is the size of what is read or
      written. */
  function AtOnce(kind: Kind, n: nat, at: int): Request {
    match kind
    case Read => Download(at, true, n, true, at, true)
    case Write => Upload(at, n, true, at, true)
    case _ => Simple(kind, at, true, at, true)
  }

  /** The bytes it is checked with, and those it is recorded with. */
  function Asked(kind: Kind, n: nat): nat { if kind == Write then n else 0 }

  function Moved(kind: Kind, n: nat): nat { if kind == Read || kind == Write then n else 0 }

  function Many(kind: Kind, n: nat, at: int, m: nat): seq<Request> { seq(m, _ => AtOnce(kind, n, at)) }

  lemma ManyMore(kind: Kind, n: nat, at: int, m: nat)
    requires m > 0
    ensures Many(kind, n, at, m)[0] == AtOnce(kind, n, at) && Many(kind, n, at, m)[1..] == Many(kind, n, at, m - 1)
  {}

  /** What is recorded of it, if its check sees the usage of the window from lo to hi. */
  function Recorded(plan: Plan, ledger: seq<Event>, lo: int, hi: int, kind: Kind, n: nat, at: int): Event {
    var ok := Allowed(plan, UsageOf(ledger, lo, hi), kind, Asked(kind, n));
    Event(kind, at, ok, if ok || kind == Write then Moved(kind, n) else 0)
  }

  /** The ledger after m of them. */
  function AfterMany(plan: Plan, ledger: seq<Event>, lo: int, hi: int, kind: Kind, n: nat, at: int, m: nat)
    : seq<Event>
  {
    if m == 0 then ledger
    else
      var before := AfterMany(plan, ledger, lo, hi, kind, n, at, m - 1);
      before + [Recorded(plan, before, lo, hi, kind, n, at)]
  }

  lemma NotAdvanced(plan: Plan, a: Account, kind: Kind, bytes: int, at: int)
    requires a.period.Valid() && at <= Hi(a.period)
    ensures Advance(a, at) == a && Passes(plan, a, kind, bytes, at) == Allowed(plan, CycleUsage(a), kind, bytes)
  {}

  /** Up to the end of the period the row is not advanced, and the present usage decides. */
  lemma ServedAtOnce(plan: Plan, threshold: nat, a: Account, kind: Kind, n: nat, at: int)
    requires a.period.Valid() && at <= Hi(a.period)
    ensures Serve(plan, threshold, a, AtOnce(kind, n, at))
            == Record(a, Recorded(plan, a.ledger, Lo(a.period), Hi(a.period), kind, n, at), true)
  {
    NotAdvanced(plan, a, kind, Asked(kind, n), at);
    match kind
    case Read =>
    case Write =>
    case _ =>
  }

  lemma {:induction false} ServeOneMore(plan: Plan, threshold: nat, a: Account, kind: Kind, n: nat, at: int, m: nat)
    requires a.period.Valid()
    ensures ServeAll(plan, threshold, a, Many(kind, n, at, m + 1))
            == Serve(plan, threshold, ServeAll(plan, threshold, a, Many(kind, n, at, m)), AtOnce(kind, n, at))
    decreases m
  {
    ManyMore(kind, n, at, m + 1);
    if m > 0 {
      ManyMore(kind, n, at, m);
      ServeOneMore(plan, threshold, Serve(plan, threshold, a, AtOnce(kind, n, at)), kind, n, at, m - 1);
    }
  }

  /** The account after m of them. */
  function Served(plan: Plan, threshold: nat, a: Account, kind: Kind, n: nat, at: int, m: nat): Account
    requires a.period.Valid()
  {
    ServeAll(plan, threshold, a, Many(kind, n, at, m))
  }

  lemma ServedNone(plan: Plan, threshold: nat, a: Account, kind: Kind, n: nat, at: int, m: nat)
    requires a.period.Valid() && m == 0
    ensures Served(plan, threshold, a, kind, n, at, m) == Account(a.period, a.ledger)
  {
    assert Many(kind, n, at, m) == [];
  }

  lemma ServedOneMore(plan: Plan, threshold: nat, a: Account, b: Account, lo: int, hi: int, kind: Kind, n: nat,
                      at: int, m: nat)
    requires a.period.Valid() && b.period.Valid() && at <= hi == Hi(b.period) && lo == Lo(b.period)
    requires Served(plan, threshold, a, kind, n, at, m) == b
    ensures Served(plan, threshold, a, kind, n, at, m + 1)
            == Account(b.period, b.ledger + [Recorded(plan, b.ledger, lo, hi, kind, n, at)])
  {
    ServeOneMore(plan, threshold, a, kind, n, at, m);
    ServedAtOnce(plan, threshold, b, kind, n, at);
  }

  /** The m requests leave the period alone and the ledger as `AfterMany` has it. */
  lemma {:induction false} ServedMany(plan: Plan, threshold: nat, a: Account, lo: int, hi: int, kind: Kind, n: nat,
                                      at: int, m: nat)
    requires a.period.Valid() && at <= hi == Hi(a.period) && lo == Lo(a.period)
    ensures Served(plan, threshold, a, kind, n, at, m)
            == Account(a.period, AfterMany(plan, a.ledger, lo, hi, kind, n, at, m))
    decreases m
  {
    if m == 0 {
      ServedNone(plan, threshold, a, kind, n, at, m);
    } else {
      var b := Account(a.period, AfterMany(plan, a.ledger, lo, hi, kind, n, at, m - 1));
      ServedMany(plan, threshold, a, lo, hi, kind, n, at, m - 1);
      ServedOneMore(plan, threshold, a, b, lo, hi, kind, n, at, m - 1);
    }
  }

  lemma BytesMore(ledger: seq<Event>, e: Event, kind: Kind, lo: int, hi: int)
    ensures Bytes(ledger + [e], kind, lo, hi)
            == Bytes(ledger, kind, lo, hi) + if Counts(e, kind, lo, hi) then e.bytes else 0
  {
    assert (ledger + [e])[..|ledger|] == ledger;
  }

  /** What lies at or behind `hi`, or failed, is not usage of the window. */
  lemma UsageStays(ledger: seq<Event>, e: Event, lo: int, hi: int)
    requires !e.ok || e.at >= hi
    ensures UsageOf(ledger + [e], lo, hi) == UsageOf(ledger, lo, hi)
  {
    forall kind: Kind ensures Count(ledger + [e], kind, lo, hi) == Count(ledger, kind, lo, hi)
                              && Bytes(ledger + [e], kind, lo, hi) == Bytes(ledger, kind, lo, hi) {
      CountMore(ledger, e, kind, lo, hi);
      BytesMore(ledger, e, kind, lo, hi);
    }
  }

  /** m times n */
  function Total(m: nat, n: nat): nat { if m == 0 then 0 else Total(m - 1, n) + n }

  lemma {:induction false} AtLeast(m: nat, n: nat)
    ensures n >= 1 ==> Total(m, n) >= m
  {
    if m > 0 { AtLeast(m - 1, n); }
  }

  /** m requests have passed at the end of the window: same check, more usage in the next. */
  ghost predicate Passed(ledger: seq<Event>, ledger': seq<Event>, lo: int, kind: Kind, n: nat, m: nat, at: int,
                         next: int) {
    && UsageOf(ledger', lo, at) == UsageOf(ledger, lo, at)
    && Count(ledger', kind, at, next) == Count(ledger, kind, at, next) + m
    && Bytes(ledger', kind, at, next) == Bytes(ledger, kind, at, next) + Total(m, Moved(kind, n))
  }

  /** One request checked and recorded at the very end of the period: if it passes, so does the next,
      whose check sees the same usage, and the next period holds it. */
  lemma OneAtEnd(ledger: seq<Event>, before: seq<Event>, after: seq<Event>, lo: int, kind: Kind, n: nat, m: nat,
                 at: int, next: int)
    requires at < next && Passed(ledger, before, lo, kind, n, m, at, next)
    requires after == before + [Event(kind, at, true, Moved(kind, n))]
    ensures Passed(ledger, after, lo, kind, n, m + 1, at, next)
  {
    var e := Event(kind, at, true, Moved(kind, n));
    UsageStays(before, e, lo, at);
    CountMore(before, e, kind, at, next);
    BytesMore(before, e, kind, at, next);
  }

  lemma NextPasses(plan: Plan, ledger: seq<Event>, before: seq<Event>, lo: int, kind: Kind, n: nat, m: nat, at: int,
                   next: int)
    requires Passed(ledger, before, lo, kind, n, m, at, next)
    requires Allowed(plan, UsageOf(ledger, lo, at), kind, Asked(kind, n))
    ensures Recorded(plan, before, lo, at, kind, n, at) == Event(kind, at, true, Moved(kind, n))
  {}

  lemma {:induction false} ManyPass(plan: Plan, ledger: seq<Event>, lo: int, kind: Kind, n: nat, m: nat, at: int,
                                    next: int)
    requires at < next && Allowed(plan, UsageOf(ledger, lo, at), kind, Asked(kind, n))
    ensures Passed(ledger, AfterMany(plan, ledger, lo, at, kind, n, at, m), lo, kind, n, m, at, next)
    decreases m
  {
    if m > 0 {
      var before := AfterMany(plan, ledger, lo, at, kind, n, at, m - 1);
      ManyPass(plan, ledger, lo, kind, n, m - 1, at, next);
      NextPasses(plan, ledger, before, lo, kind, n, m - 1, at, next);
      OneAtEnd(ledger, before, AfterMany(plan, ledger, lo, at, kind, n, at, m), lo, kind, n, m - 1, at, next);
    }
  }

  /** With the clock exactly at the end of the period the row is not advanced, but what is recorded
      belongs to the next period: then every check sees the same usage, and any number of requests
      passes, whatever the limits. */
  lemma EndOfPeriodIsUnchecked(plan: Plan, threshold: nat, a: Account, kind: Kind, n: nat, m: nat, nextEnd: int)
    requires a.period.Valid() && Allowed(plan, CycleUsage(a), kind, Asked(kind, n)) && Hi(a.period) < nextEnd
    ensures var at := Hi(a.period);
            var b := ServeAll(plan, threshold, a, Many(kind, n, at, m));
            && b.period == a.period && CycleUsage(b) == CycleUsage(a)
            && Count(b.ledger, kind, at, nextEnd) == Count(a.ledger, kind, at, nextEnd) + m
            && Bytes(b.ledger, kind, at, nextEnd) == Bytes(a.ledger, kind, at, nextEnd) + Total(m, Moved(kind, n))
  {
    ManyPass(plan, a.ledger, Lo(a.period), kind, n, m, Hi(a.period), nextEnd);
    ServedMany(plan, threshold, a, Lo(a.period), Hi(a.period), kind, n, Hi(a.period), m);
  }

  /** No limit applies to these requests, from a ledger in which `behind` bytes have been read in the
      period to come. */
  predicate Unlimited(plan: Plan, kind: Kind, n: nat, behind: nat) {
    && Limit(plan, kind).None?
    && (kind == Write ==> plan.writeBytesLimit.None? || n == 0)
    && (kind == Read ==> plan.readBytesLimit.None? || (n == 0 && behind <= plan.readBytesLimit.value))
  }

  lemma ReadsMore(plan: Plan, ledger: seq<Event>, e: Event, lo: int, hi: int)
    ensures ReadsOk(plan, ledger + [e], lo, hi) <==>
            && ReadsOk(plan, ledger, lo, hi)
            && (Counts(e, Read, lo, hi) ==> Within(Bytes(ledger, Read, lo, hi), plan.readBytesLimit))
  {
    var more := ledger + [e];
    assert more[..|ledger|] == ledger;
    forall i | 0 <= i < |ledger| ensures more[..i] == ledger[..i] && more[i] == ledger[i] {}
    if ReadsOk(plan, more, lo, hi) {
      forall i | 0 <= i < |ledger| && Counts(ledger[i], Read, lo, hi)
        ensures Within(Bytes(ledger[..i], Read, lo, hi), plan.readBytesLimit)
      {
        assert Counts(more[i], Read, lo, hi);
      }
      assert Counts(more[|ledger|], Read, lo, hi)
             ==> Within(Bytes(more[..|ledger|], Read, lo, hi), plan.readBytesLimit);
    }
  }

  /** A request that is refused, or to which no limit applies, spoils no window. */
  lemma SpoilsNothing(plan: Plan, ledger: seq<Event>, e: Event, lo: int, hi: int)
    requires WindowOk(plan, ledger, lo, hi)
    requires !e.ok || Unlimited(plan, e.kind, e.bytes, Bytes(ledger, Read, lo, hi))
    ensures WindowOk(plan, ledger + [e], lo, hi)
  {
    forall kind: Kind ensures Within(Count(ledger + [e], kind, lo, hi), Limit(plan, kind)) {
      CountMore(ledger, e, kind, lo, hi);
    }
    BytesMore(ledger, e, Write, lo, hi);
    ReadsMore(plan, ledger, e, lo, hi);
  }

  /** No limit applies to the requests, or they are refused. */
  ghost predicate Harmless(plan: Plan, ledger: seq<Event>, lo: int, at: int, kind: Kind, n: nat, next: int) {
    || Unlimited(plan, kind, n, Bytes(ledger, Read, at, next))
    || !Allowed(plan, UsageOf(ledger, lo, at), kind, Asked(kind, n))
  }

  lemma HarmlessOne(plan: Plan, ledger: seq<Event>, lo: int, at: int, kind: Kind, n: nat, next: int)
    requires WindowOk(plan, ledger, at, next) && Harmless(plan, ledger, lo, at, kind, n, next)
    ensures var more := ledger + [Recorded(plan, ledger, lo, at, kind, n, at)];
            WindowOk(plan, more, at, next) && Harmless(plan, more, lo, at, kind, n, next)
  {
    var e := Recorded(plan, ledger, lo, at, kind, n, at);
    SpoilsNothing(plan, ledger, e, at, next);
    UsageStays(ledger, e, lo, at);
    BytesMore(ledger, e, Read, at, next);
  }

  /** Refused requests, and unlimited ones, never spoil the next window. */
  lemma {:induction false} HarmlessMany(plan: Plan, ledger: seq<Event>, lo: int, at: int, kind: Kind, n: nat, m: nat,
                                        next: int)
    requires WindowOk(plan, ledger, at, next) && Harmless(plan, ledger, lo, at, kind, n, next)
    ensures var more := AfterMany(plan, ledger, lo, at, kind, n, at, m);
            WindowOk(plan, more, at, next) && Harmless(plan, more, lo, at, kind, n, next)
    decreases m
  {
    if m > 0 {
      HarmlessMany(plan, ledger, lo, at, kind, n, m - 1, next);
      HarmlessOne(plan, AfterMany(plan, ledger, lo, at, kind, n, at, m - 1), lo, at, kind, n, next);
    }
  }

  /** Nothing recorded at its end touches a window. */
  lemma {:induction false} EarlierStays(plan: Plan, ledger: seq<Event>, lo: int, at: int, kind: Kind, n: nat, m: nat)
    requires WindowOk(plan, ledger, lo, at)
    ensures WindowOk(plan, AfterMany(plan, ledger, lo, at, kind, n, at, m), lo, at)
    decreases m
  {
    if m > 0 {
      var before := AfterMany(plan, ledger, lo, at, kind, n, at, m - 1);
      EarlierStays(plan, ledger, lo, at, kind, n, m - 1);
      NotCounted(plan, before, Recorded(plan, before, lo, at, kind, n, at), lo, at);
    }
  }

  lemma ReadsAdded(plan: Plan, ledger: seq<Event>, at: int, n: nat, hi: int)
    requires at < hi && plan.readBytesLimit.Some? && Bytes(ledger, Read, at, hi) > plan.readBytesLimit.value
    ensures !ReadsOk(plan, ledger + [Event(Read, at, true, n)], at, hi)
  {
    ReadsMore(plan, ledger, Event(Read, at, true, n), at, hi);
  }

  /** As many reads exceed the byte limit, and the next would still pass. */
  lemma ReadsExceed(plan: Plan, ledger: seq<Event>, before: seq<Event>, lo: int, n: nat, m: nat, at: int, next: int)
    requires Passed(ledger, before, lo, Read, n, m, at, next) && Allowed(plan, UsageOf(ledger, lo, at), Read, 0)
    requires plan.readBytesLimit.Some? && m == plan.readBytesLimit.value + 1
    requires n > 0 || Bytes(ledger, Read, at, next) > plan.readBytesLimit.value
    ensures Recorded(plan, before, lo, at, Read, n, at) == Event(Read, at, true, n)
    ensures Bytes(before, Read, at, next) > plan.readBytesLimit.value
  {
    AtLeast(m, n);
  }

  /** One read more than the byte limit lets through is counted. */
  lemma OneMoreRead(plan: Plan, ledger: seq<Event>, lo: int, n: nat, m: nat, at: int, next: int)
    requires at < next && Allowed(plan, UsageOf(ledger, lo, at), Read, 0)
    requires plan.readBytesLimit.Some? && m == plan.readBytesLimit.value + 1
    requires n > 0 || Bytes(ledger, Read, at, next) > plan.readBytesLimit.value
    ensures !ReadsOk(plan, AfterMany(plan, ledger, lo, at, Read, n, at, m + 1), at, next)
  {
    var before := AfterMany(plan, ledger, lo, at, Read, n, at, m);
    ManyPass(plan, ledger, lo, Read, n, m, at, next);
    ReadsExceed(plan, ledger, before, lo, n, m, at, next);
    ReadsAdded(plan, before, at, n, next);
  }

  /** Enough requests at the end of the window break the plan in the next, if a limit applies to them. */
  lemma UncheckedBreaks(plan: Plan, ledger: seq<Event>, lo: int, kind: Kind, n: nat, at: int, next: int)
    returns (m: nat)
    requires at < next && !Harmless(plan, ledger, lo, at, kind, n, next)
    ensures !WindowOk(plan, AfterMany(plan, ledger, lo, at, kind, n, at, m), at, next)
  {
    if Limit(plan, kind).Some? {
      m := Limit(plan, kind).value + 1;
      ManyPass(plan, ledger, lo, kind, n, m, at, next);
      assert !Within(Count(AfterMany(plan, ledger, lo, at, kind, n, at, m), kind, at, next), Limit(plan, kind));
    } else if kind == Write {
      m := plan.writeBytesLimit.value + 1;
      ManyPass(plan, ledger, lo, Write, n, m, at, next);
      AtLeast(m, n);
    } else {
      m := plan.readBytesLimit.value + 2;
      OneMoreRead(plan, ledger, lo, n, m - 1, at, next);
    }
  }

  lemma AtOnceIsTimed(a: Account, kind: Kind, n: nat, at: int)
    requires a.period.Valid() && at < Hi(a.period)
    ensures Timed(AtOnce(kind, n, at), at) && CaughtUp(a, AtOnce(kind, n, at)) && EndOf(AtOnce(kind, n, at)) == at
  {
    match kind
    case Read =>
    case Write =>
    case _ =>
  }

  lemma SafeOnce(plan: Plan, a: Account, lo: int, hi: int, kind: Kind, n: nat, at: int)
    requires Safe(plan, a, at) && lo == Lo(a.period) && at < hi == Hi(a.period)
    ensures Safe(plan, Record(a, Recorded(plan, a.ledger, lo, hi, kind, n, at), true), at)
  {
    AtOnceIsTimed(a, kind, n, at);
    ServeSafe(plan, 0, a, at, AtOnce(kind, n, at));
    ServedAtOnce(plan, 0, a, kind, n, at);
  }

  lemma {:induction false} SafeBeforeTheEnd(plan: Plan, a: Account, lo: int, hi: int, kind: Kind, n: nat, at: int,
                                            m: nat)
    requires Safe(plan, a, at) && lo == Lo(a.period) && at < hi == Hi(a.period)
    ensures Safe(plan, Account(a.period, AfterMany(plan, a.ledger, lo, hi, kind, n, at, m)), at)
    decreases m
  {
    if m > 0 {
      SafeBeforeTheEnd(plan, a, lo, hi, kind, n, at, m - 1);
      SafeOnce(plan, Account(a.period, AfterMany(plan, a.ledger, lo, hi, kind, n, at, m - 1)), lo, hi, kind, n, at);
    }
  }

  /** The period that the row holds and the one after it obey the plan, whatever number of these
      requests is made at this moment. */
  ghost predicate StayLimited(plan: Plan, threshold: nat, a: Account, kind: Kind, n: nat, at: int, nextEnd: int)
    requires a.period.Valid()
  {
    forall m: nat ::
      var ledger := ServeAll(plan, threshold, a, Many(kind, n, at, m)).ledger;
      WindowOk(plan, ledger, Lo(a.period), Hi(a.period)) && WindowOk(plan, ledger, Hi(a.period), nextEnd)
  }

  lemma LimitedBeforeTheEnd(plan: Plan, threshold: nat, a: Account, kind: Kind, n: nat, at: int, nextEnd: int)
    requires Safe(plan, a, at) && at < Hi(a.period) < nextEnd
    ensures StayLimited(plan, threshold, a, kind, n, at, nextEnd)
  {
    var lo, hi := Lo(a.period), Hi(a.period);
    forall m: nat ensures var ledger := ServeAll(plan, threshold, a, Many(kind, n, at, m)).ledger;
                          WindowOk(plan, ledger, lo, hi) && WindowOk(plan, ledger, hi, nextEnd) {
      SafeBeforeTheEnd(plan, a, lo, hi, kind, n, at, m);
      ServedMany(plan, threshold, a, lo, hi, kind, n, at, m);
      OneEventOk(plan, AfterMany(plan, a.ledger, lo, hi, kind, n, at, m), at, hi, nextEnd);
    }
  }

  lemma LimitedAtTheEnd(plan: Plan, threshold: nat, a: Account, kind: Kind, n: nat, at: int, nextEnd: int)
    requires Safe(plan, a, at) && at == Hi(a.period) < nextEnd
    requires Harmless(plan, a.ledger, Lo(a.period), at, kind, n, nextEnd)
    ensures StayLimited(plan, threshold, a, kind, n, at, nextEnd)
  {
    var lo := Lo(a.period);
    OneEventOk(plan, a.ledger, at, at, nextEnd);
    forall m: nat ensures var ledger := ServeAll(plan, threshold, a, Many(kind, n, at, m)).ledger;
                          WindowOk(plan, ledger, lo, at) && WindowOk(plan, ledger, at, nextEnd) {
      HarmlessMany(plan, a.ledger, lo, at, kind, n, m, nextEnd);
      EarlierStays(plan, a.ledger, lo, at, kind, n, m);
      ServedMany(plan, threshold, a, lo, at, kind, n, at, m);
    }
  }

  lemma NotLimited(plan: Plan, threshold: nat, a: Account, kind: Kind, n: nat, at: int, nextEnd: int)
    requires a.period.Valid() && at == Hi(a.period) < nextEnd
    requires !Harmless(plan, a.ledger, Lo(a.period), at, kind, n, nextEnd)
    ensures !StayLimited(plan, threshold, a, kind, n, at, nextEnd)
  {
    var lo := Lo(a.period);
    var m := UncheckedBreaks(plan, a.ledger, lo, kind, n, at, nextEnd);
    ServedMany(plan, threshold, a, lo, at, kind, n, at, m);
    assert !WindowOk(plan, ServeAll(plan, threshold, a, Many(kind, n, at, m)).ledger, at, nextEnd);
  }

  /** When the quota holds, for every kind of request and every size: with the clock no later than the
      end of the period, both periods obey the plan for any number of requests exactly if the clock is
      before the end, or no limit applies to them, or they are refused anyway. */
  lemma QuotaHoldsExactlyBeforeTheEnd(plan: Plan, threshold: nat, a: Account, kind: Kind, n: nat, at: int, nextEnd: int)
    requires Safe(plan, a, at) && at <= Hi(a.period) < nextEnd
    ensures StayLimited(plan, threshold, a, kind, n, at, nextEnd) <==>
            || at < Hi(a.period)
            || Unlimited(plan, kind, n, Bytes(a.ledger, Read, Hi(a.period), nextEnd))
            || !Allowed(plan, CycleUsage(a), kind, Asked(kind, n))
  {
    if at < Hi(a.period) {
      LimitedBeforeTheEnd(plan, threshold, a, kind, n, at, nextEnd);
    } else if Harmless(plan, a.ledger, Lo(a.period), at, kind, n, nextEnd) {
      LimitedAtTheEnd(plan, threshold, a, kind, n, at, nextEnd);
    } else {
      NotLimited(plan, threshold, a, kind, n, at, nextEnd);
    }
  }

  /* ------------------------------------ the handlers ------------------------------------ */

  /** The operations of this kind that worked and were recorded in the window. */
  function Worked(ledger: seq<Event>, kind: Kind, lo: int, hi: int): set<nat> {
    set i: nat | i < |ledger| && ledger[i].ok && ledger[i].kind == kind && lo <= ledger[i].at < hi
  }

  lemma {:induction false} CountIsSize(ledger: seq<Event>, kind: Kind, lo: int, hi: int)
    ensures Count(ledger, kind, lo, hi) == |Worked(ledger, kind, lo, hi)|
    decreases |ledger|
  {
    if ledger != [] {
      var n := |ledger| - 1;
      CountIsSize(ledger[..n], kind, lo, hi);
      var before, last := Worked(ledger[..n], kind, lo, hi), if Counts(ledger[n], kind, lo, hi) then {n} else {};
      assert Worked(ledger, kind, lo, hi) == before + last && n !in before;
    }
  }

  /** In every window and for every kind, the usage grows by one operation with these bytes if the window
      holds its end and it is `counted`, and not at all otherwise. */
  ghost predicate Grows(before: seq<Event>, after: seq<Event>, kind: Kind, end: int, counted: bool, bytes: nat) {
    forall k: Kind, lo, hi ::
      var hit := counted && k == kind && lo <= end < hi;
      && Count(after, k, lo, hi) == Count(before, k, lo, hi) + (if hit then 1 else 0)
      && Bytes(after, k, lo, hi) == Bytes(before, k, lo, hi) + if hit then bytes else 0
  }

  /** One event is recorded if the ledger can be written, and only a good one is counted. */
  ghost predicate Records(before: seq<Event>, after: seq<Event>, kind: Kind, end: int, saved: bool, ok: bool,
                          bytes: nat) {
    && after == before + (if saved then [Event(kind, end, ok, bytes)] else [])
    && Grows(before, after, kind, end, saved && ok, bytes)
  }

  lemma RecordRecords(a: Account, kind: Kind, end: int, ok: bool, bytes: nat, saved: bool)
    ensures Records(a.ledger, Record(a, Event(kind, end, ok, bytes), saved).ledger, kind, end, saved, ok, bytes)
  {
    var e := Event(kind, end, ok, bytes);
    assert (a.ledger + [e])[..|a.ledger|] == a.ledger;
    assert a.ledger + [] == a.ledger;
  }

  /** Fewer operations than the limit, and bytes that still fit, in the window from lo to hi. */
  predicate Admits(plan: Plan, ledger: seq<Event>, lo: int, hi: int, kind: Kind, bytes: int) {
    match kind
    case Enumerate => plan.enumerateLimit.Some? ==> Count(ledger, Enumerate, lo, hi) < plan.enumerateLimit.value
    case Delete => plan.deleteLimit.Some? ==> Count(ledger, Delete, lo, hi) < plan.deleteLimit.value
    case Read =>
      && (plan.readLimit.Some? ==> Count(ledger, Read, lo, hi) < plan.readLimit.value)
      && (plan.readBytesLimit.Some? ==> Bytes(ledger, Read, lo, hi) + bytes <= plan.readBytesLimit.value)
    case Write =>
      && (plan.writeLimit.Some? ==> Count(ledger, Write, lo, hi) < plan.writeLimit.value)
      && (plan.writeBytesLimit.Some? ==> Bytes(ledger, Write, lo, hi) + bytes <= plan.writeBytesLimit.value)
  }

  /** The period is the next one after its end, and the present one until then. */
  ghost predicate MovesOn(p: Period, p': Period, now: int)
    requires p.Valid()
  {
    && (now <= Hi(p) ==> p' == p)
    && (now > Hi(p) ==> p'.start == p.end && p'.end == AddOneMonth(p.end))
  }

  /** The limit check at an instant, in the period of that instant. */
  predicate Admitted(plan: Plan, ledger: seq<Event>, p: Period, kind: Kind, bytes: int)
    requires p.Valid()
  {
    Admits(plan, ledger, Lo(p), Hi(p), kind, bytes)
  }

  lemma AllowedMeans(plan: Plan, ledger: seq<Event>, lo: int, hi: int, kind: Kind, bytes: int)
    ensures Allowed(plan, UsageOf(ledger, lo, hi), kind, bytes) <==> Admits(plan, ledger, lo, hi, kind, bytes)
  {
    match kind
    case Enumerate =>
    case Read =>
    case Write =>
    case Delete =>
  }

  lemma AdvanceMovesOn(a: Account, now: int)
    requires a.period.Valid()
    ensures var b := Advance(a, now); MovesOn(a.period, b.period, now) && b.ledger == a.ledger
  {}

  lemma PassesMeans(plan: Plan, a: Account, kind: Kind, bytes: int, now: int)
    requires a.period.Valid()
    ensures var b := Advance(a, now);
            && b.period.Valid() && MovesOn(a.period, b.period, now) && b.ledger == a.ledger
            && (Passes(plan, a, kind, bytes, now) <==> Admitted(plan, a.ledger, b.period, kind, bytes))
  {
    AdvanceValid(a, now);
    AdvanceMovesOn(a, now);
    var p := Advance(a, now).period;
    AllowedMeans(plan, a.ledger, Lo(p), Hi(p), kind, bytes);
  }

  /** A stream is counted if it works and its checks pass: the declared size where the write cache takes the
      body, the written one otherwise, which is checked again if it is not the declared one.  p1 and p2 are the
      periods of the two checks. */
  ghost predicate StreamServed(plan: Plan, threshold: nat, a: Account, r: Request, a': Account, p1: Period, p2: Period)
    requires r.Stream? && a.period.Valid()
  {
    && p1.Valid() && p2.Valid() && MovesOn(a.period, p1, r.at) && MovesOn(p1, p2, r.again)
    && var first := Admitted(plan, a.ledger, p1, Write, r.declared);
       if !(first && r.works) then Records(a.ledger, a'.ledger, Write, r.end, r.saved, false, 0) && a'.period == p1
       else if r.declared >= threshold then
         Records(a.ledger, a'.ledger, Write, r.end, r.saved, true, r.declared) && a'.period == p1
       else if r.actual == r.declared then
         Records(a.ledger, a'.ledger, Write, r.end, r.saved, true, r.actual) && a'.period == p1
       else
         var second := Admitted(plan, a.ledger, p2, Write, r.actual);
         Records(a.ledger, a'.ledger, Write, r.end, r.saved, second, r.actual) && a'.period == p2
  }

  lemma StreamIsServed(plan: Plan, threshold: nat, a: Account, r: Request) returns (p1: Period, p2: Period)
    requires r.Stream? && a.period.Valid()
    ensures StreamServed(plan, threshold, a, r, ServeStream(plan, threshold, a, r), p1, p2)
  {
    var a1 := Advance(a, r.at);
    PassesMeans(plan, a, Write, r.declared, r.at);
    PassesMeans(plan, a1, Write, r.actual, r.again);
    p1, p2 := a1.period, Advance(a1, r.again).period;
    if !(Passes(plan, a, Write, r.declared, r.at) && r.works) {
      RecordRecords(a1, Write, r.end, false, 0, r.saved);
    } else if r.declared >= threshold {
      RecordRecords(a1, Write, r.end, true, r.declared, r.saved);
    } else if r.actual == r.declared {
      RecordRecords(a1, Write, r.end, true, r.actual, r.saved);
    } else {
      RecordRecords(Advance(a1, r.again), Write, r.end, Passes(plan, a1, Write, r.actual, r.again), r.actual, r.saved);
    }
  }

  /** The handler kept the account safe, provided its checks found a caught-up period. */
  ghost predicate KeptSafe(plan: Plan, a: Account, r: Request, now: int, a': Account)
    requires a.period.Valid()
  {
    Safe(plan, a, now) && Timed(r, now) && CaughtUp(a, r) ==> Safe(plan, a', EndOf(r))
  }

  lemma ServedKeepsSafe(plan: Plan, threshold: nat, a: Account, r: Request, now: int)
    requires a.period.Valid()
    ensures KeptSafe(plan, a, r, now, Serve(plan, threshold, a, r))
  {
    if Safe(plan, a, now) && Timed(r, now) && CaughtUp(a, r) { ServeSafe(plan, threshold, a, now, r); }
  }

  function Sum(sizes: seq<nat>): nat { if sizes == [] then 0 else Sum(sizes[..|sizes| - 1]) + sizes[|sizes| - 1] }

  lemma {:induction false} SumByLaws(a: seq<nat>, b: seq<nat>, n: nat)
    ensures Sum(a + b) == Sum(a) + Sum(b) && Sum([n]) == n
    decreases |b|
  {
    assert [n][..0] == [];
    if b == [] {
      assert a + b == a;
    } else {
      assert (a + b)[..|a + b| - 1] == a + b[..|b| - 1];
      SumByLaws(a, b[..|b| - 1], n);
    }
  }

  /** How a download ends: all chunks sent, the backend raised, the client went away. */
  datatype Ending = Finished | Raised | Disconnected

  class UserAccount {
    const plan: Plan
    const threshold: nat
    var period: Period
    var ledger: seq<Event>

    constructor (plan: Plan, threshold: nat, now: DateTime)
      requires now.Valid()
      ensures this.plan == plan && this.threshold == threshold
      ensures Current() == Account(Period(now, AddOneMonth(now)), []) && Safe(plan, Current(), Instant(now))
    {
      this.plan, this.threshold := plan, threshold;
      period, ledger := Period(now, AddOneMonth(now)), [];
      new;
      NewAccountIsSafe(plan, now);
    }

    function Current(): Account
      reads this
    {
      Account(period, ledger)
    }

    /** check_limit: brings the row up to date, adds up the window, compares. */
    method CheckLimit(kind: Kind, bytes: int, now: int) returns (ok: bool)
      requires period.Valid()
      modifies this`period
      ensures period.Valid() && MovesOn(old(period), period, now)
      ensures ok <==> Admits(plan, ledger, Instant(period.start), Instant(period.end), kind, bytes)
      ensures Current() == Advance(old(Current()), now) && ok == Passes(plan, old(Current()), kind, bytes, now)
    {
      PassesMeans(plan, Current(), kind, bytes, now);
      if now > Instant(period.end) {
        period := Period(period.end, AddOneMonth(period.end));
      }
      var usage := GetCycleUsage(ledger, Instant(period.start), Instant(period.end));
      match kind
      case Enumerate =>
        ok := plan.enumerateLimit.None? || usage.enumerate < plan.enumerateLimit.value;
      case Read =>
        ok := plan.readLimit.None? || usage.read < plan.readLimit.value;
        if ok {
          ok := plan.readBytesLimit.None? || usage.readBytes + bytes <= plan.readBytesLimit.value;
        }
      case Write =>
        ok := plan.writeLimit.None? || usage.write < plan.writeLimit.value;
        if ok {
          ok := plan.writeBytesLimit.None? || usage.writeBytes + bytes <= plan.writeBytesLimit.value;
        }
      case Delete =>
        ok := plan.deleteLimit.None? || usage.delete < plan.deleteLimit.value;
    }

    method RecordEvent(kind: Kind, at: int, ok: bool, bytes: nat, saved: bool)
      modifies this`ledger
      ensures Records(old(ledger), ledger, kind, at, saved, ok, bytes)
      ensures Current() == Record(old(Current()), Event(kind, at, ok, bytes), saved)
    {
      RecordRecords(Current(), kind, at, ok, bytes, saved);
      if saved {
        ledger := ledger + [Event(kind, at, ok, bytes)];
      }
    }

    /** objects and _path_delete */
    method Objects(kind: Kind, at: int, works: bool, end: int, saved: bool)
      requires period.Valid()
      modifies this
      ensures period.Valid() && MovesOn(old(period), period, at)
      ensures Records(old(ledger), ledger, kind, end, saved, works && Admitted(plan, old(ledger), period, kind, 0), 0)
      ensures Current() == Serve(plan, threshold, old(Current()), Simple(kind, at, works, end, saved))
      ensures KeptSafe(plan, old(Current()), Simple(kind, at, works, end, saved), at, Current())
    {
      ServedKeepsSafe(plan, threshold, Current(), Simple(kind, at, works, end, saved), at);
      var ok := CheckLimit(kind, 0, at);
      ok := ok && works;
      RecordEvent(kind, end, ok, 0, saved);
    }

    /** _async_tracked_stream: the bytes of the chunks sent are counted, also when the client leaves. */
    method TrackedStream(chunks: seq<nat>, sent: nat, ending: Ending, end: int, saved: bool) returns (total: nat)
      requires sent <= |chunks| && (ending.Finished? ==> sent == |chunks|)
      modifies this`ledger
      ensures total == Sum(chunks[..sent])
      ensures Records(old(ledger), ledger, Read, end, saved, !ending.Raised?, total)
      ensures Current() == Record(old(Current()), Event(Read, end, !ending.Raised?, total), saved)
    {
      var ok, i := false, 0;
      total := 0;
      while i < sent
        invariant i <= sent && total == Sum(chunks[..i])
      {
        assert chunks[..i + 1][..i] == chunks[..i];
        if chunks[i] > 0 {
          total := total + chunks[i];
        }
        i := i + 1;
      }
      if ending.Finished? || ending.Disconnected? {
        ok := true;
      }
      RecordEvent(Read, end, ok, total, saved);
    }

    method PathRead(at: int, opens: bool, chunks: seq<nat>, sent: nat, ending: Ending, end: int, saved: bool)
      requires period.Valid() && sent <= |chunks| && (ending.Finished? ==> sent == |chunks|)
      modifies this
      ensures period.Valid() && MovesOn(old(period), period, at)
      ensures var starts := opens && Admitted(plan, old(ledger), period, Read, 0);
              Records(old(ledger), ledger, Read, end, saved, starts && !ending.Raised?,
                      if starts then Sum(chunks[..sent]) else 0)
      ensures Current() == Serve(plan, threshold, old(Current()),
              Download(at, opens, Sum(chunks[..sent]), !ending.Raised?, end, saved))
      ensures KeptSafe(plan, old(Current()),
              Download(at, opens, Sum(chunks[..sent]), !ending.Raised?, end, saved), at, Current())
    {
      ServedKeepsSafe(plan, threshold, Current(),
                      Download(at, opens, Sum(chunks[..sent]), !ending.Raised?, end, saved), at);
      var ok := CheckLimit(Read, 0, at);
      if ok && opens {
        var total := TrackedStream(chunks, sent, ending, end, saved);
      } else {
        RecordEvent(Read, end, false, 0, saved);
      }
    }

    /** _path_write with a JSON or multipart body. */
    method PathWriteSized(at: int, size: nat, works: bool, end: int, saved: bool)
      requires period.Valid()
      modifies this
      ensures period.Valid() && MovesOn(old(period), period, at)
      ensures Records(old(ledger), ledger, Write, end, saved,
                      works && Admitted(plan, old(ledger), period, Write, size), size)
      ensures Current() == Serve(plan, threshold, old(Current()), Upload(at, size, works, end, saved))
      ensures KeptSafe(plan, old(Current()), Upload(at, size, works, end, saved), at, Current())
    {
      ServedKeepsSafe(plan, threshold, Current(), Upload(at, size, works, end, saved), at);
      var ok := CheckLimit(Write, size, at);
      ok := ok && works;
      RecordEvent(Write, end, ok, size, saved);
    }

    method WriteStream(at: int, contentLength: int, actual: nat, works: bool, again: int, end: int, saved: bool)
      requires period.Valid()
      modifies this
      ensures Current() == ServeStream(plan, threshold, old(Current()),
              Stream(at, contentLength, actual, works, again, end, saved))
    {
      var ok, bytesWritten := false, 0;
      var allowed := CheckLimit(Write, contentLength, at);
      if allowed {
        if contentLength >= threshold {
          if works {
            bytesWritten := contentLength;
            ok := true;
          }
        } else if works {
          bytesWritten := actual;
          if bytesWritten != contentLength {
            ok := CheckLimit(Write, bytesWritten, again);
          } else {
            ok := true;
          }
        }
      }
      RecordEvent(Write, end, ok, bytesWritten, saved);
    }

    /** _path_write with an octet stream; p1 and p2 are the periods of its two checks. */
    method PathWriteStream(at: int, contentLength: int, actual: nat, works: bool, again: int, end: int, saved: bool)
      returns (ghost p1: Period, ghost p2: Period)
      requires period.Valid()
      modifies this
      ensures StreamServed(plan, threshold, old(Current()),
                           Stream(at, contentLength, actual, works, again, end, saved), Current(), p1, p2)
      ensures Current() == Serve(plan, threshold, old(Current()),
              Stream(at, contentLength, actual, works, again, end, saved))
      ensures KeptSafe(plan, old(Current()), Stream(at, contentLength, actual, works, again, end, saved), at, Current())
    {
      ghost var a, r := Current(), Stream(at, contentLength, actual, works, again, end, saved);
      WriteStream(at, contentLength, actual, works, again, end, saved);
      p1, p2 := StreamIsServed(plan, threshold, a, r);
      ServedKeepsSafe(plan, threshold, a, r, at);
    }
  }
}
