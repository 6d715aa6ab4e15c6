/**
 Plans and subscriptions: the billing cycle of a user and the plan in effect.
 */
module Billing {
  import opened Basics
  import opened Calendar

  type PlanId = nat
  type UserId = nat

  datatype Plan = Plan(isDefault: bool, expiresAt: Option<DateTime>)

  datatype Status = Active | Canceled

  datatype Subscription = Subscription(
    plan: Option<PlanId>, status: Status, start: DateTime, end: DateTime,
    cancelAt: Option<DateTime>, cancelAtPeriodEnd: bool)

  /** The clock and the two tables. */
  datatype Books = Books(now: DateTime, plans: map<PlanId, Plan>, subs: map<UserId, Subscription>)

  predicate AtMost(a: DateTime, b: DateTime) { !Before(b, a) }

  /** is_expired */
  predicate IsExpired(p: Plan, now: DateTime) { p.expiresAt.Some? && AtMost(p.expiresAt.value, now) }

  ghost predicate SubOk(plans: map<PlanId, Plan>, sub: Subscription) {
    && sub.start.Valid() && sub.end == AddOneMonth(sub.start)
    && (sub.plan.Some? ==> sub.plan.value in plans)
    && sub.cancelAt == (if sub.status == Canceled then Some(sub.end) else None)
  }

  /** No two plans are default. */
  ghost predicate OneDefault(plans: map<PlanId, Plan>) {
    forall p, q :: p in plans && q in plans && plans[p].isDefault && plans[q].isDefault ==> p == q
  }

  ghost predicate BooksOk(b: Books) {
    b.now.Valid() && OneDefault(b.plans) && forall u <- b.subs :: SubOk(b.plans, b.subs[u])
  }

  /* ------------------------------------ the operations ------------------------------------ */

  /** advance_cycle_if_needed */
  function AdvanceSub(plans: map<PlanId, Plan>, sub: Subscription, now: DateTime): Subscription
    requires sub.end.Valid()
  {
    if AtMost(now, sub.end) then sub
    else
      var expired := sub.plan.Some? && sub.plan.value in plans && IsExpired(plans[sub.plan.value], now);
      var plan := if expired then None else sub.plan;
      var next := sub.(start := sub.end, end := AddOneMonth(sub.end), plan := plan);
      if sub.status == Canceled && sub.cancelAt.Some? && AtMost(sub.cancelAt.value, now)
      then next.(plan := None, status := Active, cancelAt := None)
      else next
  }

  function NewSub(now: DateTime): Subscription
    requires now.Valid()
  {
    Subscription(None, Active, now, AddOneMonth(now), None, false)
  }

  /** get_or_create_subscription */
  function Current(b: Books, u: UserId): Subscription
    requires b.now.Valid() && (u in b.subs ==> b.subs[u].end.Valid())
  {
    if u in b.subs then AdvanceSub(b.plans, b.subs[u], b.now) else NewSub(b.now)
  }

  function Switched(b: Books, u: UserId, plan: PlanId): Books
    requires b.now.Valid() && (u in b.subs ==> b.subs[u].end.Valid())
  {
    b.(subs := b.subs[u := Current(b, u).(plan := Some(plan), start := b.now, end := AddOneMonth(b.now),
                                          status := Active, cancelAt := None)])
  }

  function Cancelled(b: Books, u: UserId): Books
    requires b.now.Valid() && (u in b.subs ==> b.subs[u].end.Valid())
  {
    var sub := Current(b, u);
    b.(subs := b.subs[u := sub.(status := Canceled, cancelAt := Some(sub.end), cancelAtPeriodEnd := true)])
  }

  function NoDefaults(plans: map<PlanId, Plan>): map<PlanId, Plan> {
    map p | p in plans :: plans[p].(isDefault := false)
  }

  function WithPlan(plans: map<PlanId, Plan>, p: PlanId, isDefault: bool): map<PlanId, Plan> {
    (if isDefault then NoDefaults(plans) else plans)[p := Plan(isDefault, None)]
  }

  function WithDefault(plans: map<PlanId, Plan>, p: PlanId): map<PlanId, Plan>
    requires p in plans
  {
    NoDefaults(plans)[p := plans[p].(isDefault := true)]
  }

  /** An active subscription keeps the plan alive, as expired from now on. */
  predicate InUse(b: Books, p: PlanId) {
    exists u :: u in b.subs && b.subs[u].plan == Some(p) && b.subs[u].status == Active
  }

  function Detached(subs: map<UserId, Subscription>, p: PlanId): map<UserId, Subscription> {
    map u | u in subs :: if subs[u].plan == Some(p) then subs[u].(plan := None) else subs[u]
  }

  function PlanDeleted(b: Books, p: PlanId): Books
    requires p in b.plans
  {
    if InUse(b, p) then b.(plans := b.plans[p := b.plans[p].(expiresAt := Some(b.now))])
    else b.(plans := b.plans - {p}, subs := Detached(b.subs, p))
  }

  /** get_default and get_effective_plan */
  ghost predicate IsDefault(plans: map<PlanId, Plan>, p: PlanId) {
    p in plans && plans[p].isDefault && plans[p].expiresAt.None?
  }

  predicate HasLivePlan(b: Books, sub: Subscription) {
    sub.plan.Some? && sub.plan.value in b.plans && !IsExpired(b.plans[sub.plan.value], b.now)
  }

  /* ------------------------- the rows and tables the operations leave ------------------------- */

  predicate Unexpired(p: Plan, now: DateTime) { p.expiresAt.None? || Before(now, p.expiresAt.value) }

  /** Until its end a row stays; after that the next month begins where it ended, active and with nothing to
      cancel.  A cancelled row loses its plan then, and so does one whose plan has expired. */
  ghost predicate Brought(plans: map<PlanId, Plan>, sub: Subscription, next: Subscription, now: DateTime)
    requires sub.end.Valid()
  {
    if !Before(sub.end, now) then next == sub
    else
      && next.start == sub.end && next.end == AddOneMonth(sub.end)
      && next.status == Active && next.cancelAt == None && next.cancelAtPeriodEnd == sub.cancelAtPeriodEnd
      && (sub.status == Canceled ==> next.plan == None)
      && (sub.status == Active && sub.plan.Some? && sub.plan.value in plans ==>
            next.plan == if Unexpired(plans[sub.plan.value], now) then sub.plan else None)
      && (sub.plan == None ==> next.plan == None)
  }

  /** The user's row once it is up to date: a new one, active and without a plan for a month from now, or the
      old one brought up to date. */
  ghost predicate UpToDate(b: Books, u: UserId, row: Subscription)
    requires b.now.Valid() && (u in b.subs ==> b.subs[u].end.Valid())
  {
    if u in b.subs then Brought(b.plans, b.subs[u], row, b.now)
    else
      && row.plan == None && row.status == Active && row.start == b.now && row.end == AddOneMonth(b.now)
      && row.cancelAt == None && !row.cancelAtPeriodEnd
  }

  /** Only this user's row is written. */
  ghost predicate OnlyRowOf(subs: map<UserId, Subscription>, subs': map<UserId, Subscription>, u: UserId) {
    subs'.Keys == subs.Keys + {u} && forall v <- subs :: v != u ==> subs'[v] == subs[v]
  }

  lemma CurrentIsUpToDate(b: Books, u: UserId)
    requires BooksOk(b)
    ensures u in b.subs ==> b.subs[u].end.Valid()
    ensures UpToDate(b, u, Current(b, u))
  {
    if u in b.subs { AdvanceStep(b.plans, b.subs[u], b.now); }
  }

  class Office {
    var now: DateTime
    var plans: map<PlanId, Plan>
    var subs: map<UserId, Subscription>

    function Ledger(): Books
      reads this
    {
      Books(now, plans, subs)
    }

    constructor (now: DateTime)
      requires now.Valid()
      ensures Ledger() == Books(now, map[], map[]) && BooksOk(Ledger())
    {
      this.now, plans, subs := now, map[], map[];
    }

    method Wait(later: DateTime)
      requires BooksOk(Ledger()) && later.Valid() && AtMost(now, later)
      modifies this`now
      ensures Ledger() == old(Ledger()).(now := later) && BooksOk(Ledger())
    {
      now := later;
    }

    /** advance_cycle_if_needed on the stored row. */
    method AdvanceCycleIfNeeded(u: UserId)
      requires u in subs && BooksOk(Ledger())
      modifies this`subs
      ensures old(subs)[u].end.Valid() && OnlyRowOf(old(subs), subs, u) && Brought(plans, old(subs)[u], subs[u], now)
      ensures Ledger() == old(Ledger()).(subs := old(subs)[u := AdvanceSub(plans, old(subs)[u], now)])
      ensures BooksOk(Ledger())
    {
      var sub := subs[u];
      AdvanceStep(plans, sub, now);
      if AtMost(now, sub.end) {
        assert subs == subs[u := sub];
        return;
      }
      sub := sub.(start := sub.end);
      sub := sub.(end := AddOneMonth(sub.start));
      if sub.plan.Some? && sub.plan.value in plans && IsExpired(plans[sub.plan.value], now) {
        sub := sub.(plan := None);
      }
      if sub.status == Canceled && sub.cancelAt.Some? && AtMost(sub.cancelAt.value, now) {
        sub := sub.(plan := None);
        sub := sub.(status := Active);
        sub := sub.(cancelAt := None);
      }
      subs := subs[u := sub];
    }

    method GetOrCreateSubscription(u: UserId)
      requires BooksOk(Ledger())
      modifies this`subs
      ensures u in old(subs) ==> old(subs)[u].end.Valid()
      ensures OnlyRowOf(old(subs), subs, u) && UpToDate(old(Ledger()), u, subs[u])
      ensures u in subs && Ledger() == old(Ledger()).(subs := old(subs)[u := Current(old(Ledger()), u)])
      ensures BooksOk(Ledger())
    {
      CurrentIsUpToDate(Ledger(), u);
      if u !in subs {
        subs := subs[u := Subscription(None, Active, now, AddOneMonth(now), None, false)];
        NewSubOk(now, plans);
      }
      AdvanceCycleIfNeeded(u);
    }

    method SwitchPlan(u: UserId, plan: PlanId)
      requires BooksOk(Ledger()) && plan in plans
      modifies this`subs
      ensures OnlyRowOf(old(subs), subs, u)
      ensures subs[u].plan == Some(plan) && subs[u].status == Active && subs[u].cancelAt == None
      ensures subs[u].start == now && subs[u].end == AddOneMonth(now)
      ensures subs[u].cancelAtPeriodEnd <==> u in old(subs) && old(subs)[u].cancelAtPeriodEnd
      ensures Ledger() == Switched(old(Ledger()), u, plan) && BooksOk(Ledger())
      ensures !IsExpired(plans[plan], now) ==> HasLivePlan(Ledger(), subs[u]) && subs[u].plan == Some(plan)
    {
      ghost var books := Ledger();
      GetOrCreateSubscription(u);
      var sub := subs[u];
      sub := sub.(plan := Some(plan), start := now, end := AddOneMonth(now));
      sub := sub.(status := Active, cancelAt := None);
      subs := subs[u := sub];
      ApplyOk(books, Switch(u, plan));
    }

    /** cancel_subscription: `row` is the row brought up to date; it keeps its plan and period, and is cancelled
        as of its end. */
    method CancelSubscription(u: UserId) returns (ghost row: Subscription)
      requires BooksOk(Ledger())
      modifies this`subs
      ensures u in old(subs) ==> old(subs)[u].end.Valid()
      ensures UpToDate(old(Ledger()), u, row) && OnlyRowOf(old(subs), subs, u)
      ensures subs[u].plan == row.plan && subs[u].start == row.start && subs[u].end == row.end
      ensures subs[u].status == Canceled && subs[u].cancelAt == Some(subs[u].end) && subs[u].cancelAtPeriodEnd
      ensures Ledger() == Cancelled(old(Ledger()), u) && BooksOk(Ledger())
    {
      ghost var books := Ledger();
      GetOrCreateSubscription(u);
      var sub := subs[u];
      row := sub;
      sub := sub.(status := Canceled);
      sub := sub.(cancelAt := Some(sub.end));
      sub := sub.(cancelAtPeriodEnd := true);
      subs := subs[u := sub];
      ApplyOk(books, Cancel(u));
    }

    method CreatePlan(p: PlanId, isDefault: bool)
      requires p !in plans
      modifies this`plans
      ensures plans.Keys == old(plans).Keys + {p} && plans[p].isDefault == isDefault && plans[p].expiresAt == None
      ensures forall q <- old(plans) :: plans[q].expiresAt == old(plans)[q].expiresAt
                                        && (plans[q].isDefault <==> old(plans)[q].isDefault && !isDefault)
      ensures Ledger() == old(Ledger()).(plans := WithPlan(old(plans), p, isDefault))
      ensures isDefault ==> forall q :: q in plans && plans[q].isDefault <==> q == p
      ensures old(BooksOk(Ledger())) ==> BooksOk(Ledger())
    {
      if isDefault {
        plans := NoDefaults(plans);
      }
      plans := plans[p := Plan(isDefault, None)];
    }

    method SetDefaultPlan(p: PlanId)
      requires p in plans
      modifies this`plans
      ensures plans.Keys == old(plans).Keys
      ensures forall q <- plans :: plans[q].expiresAt == old(plans)[q].expiresAt && (plans[q].isDefault <==> q == p)
      ensures Ledger() == old(Ledger()).(plans := WithDefault(old(plans), p))
      ensures forall q :: q in plans && plans[q].isDefault <==> q == p
      ensures old(BooksOk(Ledger())) ==> BooksOk(Ledger())
    {
      var plan := plans[p];
      plans := NoDefaults(plans);
      plan := plan.(isDefault := true);
      plans := plans[p := plan];
    }

    method DeletePlan(p: PlanId)
      requires p in plans
      modifies this`plans, this`subs
      ensures forall q <- old(plans) :: q != p ==> q in plans && plans[q] == old(plans)[q]
      ensures if exists u <- old(subs) :: old(subs)[u].plan == Some(p) && old(subs)[u].status == Active
              then plans.Keys == old(plans).Keys && plans[p].isDefault == old(plans)[p].isDefault
                   && plans[p].expiresAt == Some(now) && subs == old(subs)
              else plans.Keys == old(plans).Keys - {p} && subs.Keys == old(subs).Keys
                   && forall u <- subs ::
                        subs[u] == if old(subs)[u].plan == Some(p) then old(subs)[u].(plan := None) else old(subs)[u]
      ensures Ledger() == PlanDeleted(old(Ledger()), p)
      ensures old(BooksOk(Ledger()))
              ==> BooksOk(Ledger()) && !IsDefault(plans, p)
                  && forall u <- subs :: subs[u].plan == Some(p) ==> !HasLivePlan(Ledger(), subs[u])
    {
      ghost var books := Ledger();
      if u :| u in subs && subs[u].plan == Some(p) && subs[u].status == Active {
        plans := plans[p := plans[p].(expiresAt := Some(now))];
      } else {
        plans := plans - {p};
        subs := Detached(subs, p);
      }
      if BooksOk(books) {
        ApplyOk(books, Op.DeletePlan(p));
        DeletedPlanIsGone(books, p);
      }
    }

    /** The plan in effect is never an expired one; it is the user's own while that lasts, else the
        one unexpired default if there is one. */
    method GetEffectivePlan(u: UserId) returns (plan: Option<PlanId>)
      requires BooksOk(Ledger()) && u in subs
      ensures if subs[u].plan.Some? && Unexpired(plans[subs[u].plan.value], now) then plan == subs[u].plan
              else forall p :: plan == Some(p) <==> p in plans && plans[p].isDefault && plans[p].expiresAt == None
      ensures plan.Some? ==> plan.value in plans && !IsExpired(plans[plan.value], now)
      ensures HasLivePlan(Ledger(), subs[u]) ==> plan == subs[u].plan
      ensures !HasLivePlan(Ledger(), subs[u])
              ==> (forall p <- plans :: IsDefault(plans, p) <==> plan == Some(p))
                  && (plan.Some? ==> plan.value in plans)
    {
      var own := subs[u].plan;
      if own.Some? && own.value in plans && !IsExpired(plans[own.value], now) {
        plan := own;
      } else if p :| p in plans && plans[p].isDefault && plans[p].expiresAt.None? {
        plan := Some(p);
      } else {
        plan := None;
      }
    }
  }

  /* ------------------------------------ over runs ------------------------------------ */

  datatype Op =
    | Wait(later: DateTime)
    | Visit(u: UserId)
    | Switch(u: UserId, p: PlanId)
    | Cancel(u: UserId)
    | CreatePlan(p: PlanId, isDefault: bool)
    | SetDefault(p: PlanId)
    | DeletePlan(p: PlanId)

  /** An operation its caller is not able to ask for changes nothing. */
  function Apply(b: Books, op: Op): Books
    requires b.now.Valid() && forall u <- b.subs :: b.subs[u].end.Valid()
  {
    match op
    case Wait(later) => if later.Valid() && AtMost(b.now, later) then b.(now := later) else b
    case Visit(u) => b.(subs := b.subs[u := Current(b, u)])
    case Switch(u, p) => if p in b.plans then Switched(b, u, p) else b
    case Cancel(u) => Cancelled(b, u)
    case CreatePlan(p, isDefault) => if p in b.plans then b else b.(plans := WithPlan(b.plans, p, isDefault))
    case SetDefault(p) => if p in b.plans then b.(plans := WithDefault(b.plans, p)) else b
    case DeletePlan(p) => if p in b.plans then PlanDeleted(b, p) else b
  }

  lemma NewSubOk(now: DateTime, plans: map<PlanId, Plan>)
    requires now.Valid()
    ensures SubOk(plans, NewSub(now)) && NewSub(now).end.Valid()
  {
    AddOneMonthMoves(now);
  }

  /** What one advance does: the next period starts where the last one ended and lasts one month, and a
      cancelled subscription is active again without a plan. */
  lemma AdvanceStep(plans: map<PlanId, Plan>, sub: Subscription, now: DateTime)
    requires SubOk(plans, sub) && now.Valid()
    ensures sub.end.Valid() && SubOk(plans, AdvanceSub(plans, sub, now))
    ensures Brought(plans, sub, AdvanceSub(plans, sub, now), now)
  {
    AddOneMonthMoves(sub.start);
    InstantOrder(now, sub.end);
  }

  lemma ApplyOk(b: Books, op: Op)
    requires BooksOk(b)
    ensures forall u <- b.subs :: b.subs[u].end.Valid()
    ensures BooksOk(Apply(b, op))
  {
    forall u <- b.subs ensures b.subs[u].end.Valid() { AddOneMonthMoves(b.subs[u].start); }
    NewSubOk(b.now, b.plans);
    match op
    case Visit(u) => if u in b.subs { AdvanceStep(b.plans, b.subs[u], b.now); }
    case Cancel(u) => if u in b.subs { AdvanceStep(b.plans, b.subs[u], b.now); }
    case _ =>
  }

  /** Creating or choosing a default plan takes the flag from all others and touches nothing else. */
  lemma DefaultIsMoved(plans: map<PlanId, Plan>, p: PlanId, isNew: bool)
    requires OneDefault(plans) && (isNew <==> p !in plans)
    ensures var t := if isNew then WithPlan(plans, p, true) else WithDefault(plans, p);
            && OneDefault(t) && p in t && t[p].isDefault && t.Keys == plans.Keys + {p}
            && (forall q <- plans :: t[q].expiresAt == plans[q].expiresAt)
  {}

  /** The plan the user switches to is in effect at once, for a month from now. */
  lemma SwitchTakesEffect(b: Books, u: UserId, p: PlanId)
    requires BooksOk(b) && p in b.plans && !IsExpired(b.plans[p], b.now) && (u in b.subs ==> b.subs[u].end.Valid())
    ensures var t := Switched(b, u, p);
            && u in t.subs && t.subs[u].plan == Some(p) && HasLivePlan(t, t.subs[u])
            && t.subs[u].start == b.now && !AtMost(t.subs[u].end, b.now)
            && (forall v <- b.subs :: v != u ==> v in t.subs && t.subs[v] == b.subs[v])
  {
    AddOneMonthLater(b.now);
    InstantOrder(b.now, AddOneMonth(b.now));
  }

  /** The rows and the clock after cancelling, waiting and looking again. */
  function CancelWaitVisit(b: Books, u: UserId, later: DateTime): (r: Subscription)
    requires BooksOk(b)
  {
    var ops := [Cancel(u), Wait(later), Visit(u)];
    ApplyOk(b, ops[0]);
    var b1 := Apply(b, ops[0]);
    ApplyOk(b1, ops[1]);
    var b2 := Apply(b1, ops[1]);
    ApplyOk(b2, ops[2]);
    Apply(b2, ops[2]).subs[u]
  }

  /** A cancelled subscription runs on to the end of its period with its plan, and is then active again,
      without a plan, for the month from that end. */
  lemma CancelTakesEffectAtTheEnd(b: Books, u: UserId, row: Subscription, later: DateTime)
    requires BooksOk(b) && (u in b.subs ==> b.subs[u].end.Valid())
    requires UpToDate(b, u, row) && later.Valid() && AtMost(b.now, later)
    ensures row.end.Valid()
    ensures var r := CancelWaitVisit(b, u, later);
            if Before(row.end, later) then
              r.status == Active && r.plan == None && r.start == row.end && r.end == AddOneMonth(row.end)
              && r.cancelAt == None
            else
              r.status == Canceled && r.plan == row.plan && r.start == row.start && r.end == row.end
              && r.cancelAt == Some(row.end)
  {
    ApplyOk(b, Cancel(u));
    var c := Apply(b, Cancel(u));
    CurrentIsUpToDate(b, u);
    ApplyOk(c, Wait(later));
    AdvanceStep(c.plans, c.subs[u], later);
  }

  /** A deleted plan is in effect for nobody any more, as a user's own plan or as the default; other
      plans stay, and a user keeps a reference to it only while it still exists. */
  lemma DeletedPlanIsGone(b: Books, p: PlanId)
    requires BooksOk(b) && p in b.plans
    ensures var t := PlanDeleted(b, p);
            && !IsDefault(t.plans, p)
            && (forall u <- t.subs :: t.subs[u].plan == Some(p) ==> !HasLivePlan(t, t.subs[u]))
            && (forall q <- b.plans :: q != p ==> q in t.plans && t.plans[q] == b.plans[q])
            && t.subs.Keys == b.subs.Keys
  {
    InstantOrder(b.now, b.now);
  }

  function Run(b: Books, ops: seq<Op>): (r: Books)
    requires BooksOk(b)
    ensures BooksOk(r)
    decreases |ops|
  {
    if ops == [] then b
    else
      ApplyOk(b, ops[0]);
      Run(Apply(b, ops[0]), ops[1..])
  }

  /** Over any run from the empty books: every period lasts one month, a cancelled subscription ends
      with its period, and at most one plan is default. */
  lemma AnyRunIsOk(now: DateTime, ops: seq<Op>)
    requires now.Valid()
    ensures var b := Run(Books(now, map[], map[]), ops);
            && (forall u <- b.subs :: b.subs[u].start.Valid() && b.subs[u].end == AddOneMonth(b.subs[u].start))
            && (forall u <- b.subs :: b.subs[u].status == Canceled ==> b.subs[u].cancelAt == Some(b.subs[u].end))
            && (forall p, q :: IsDefault(b.plans, p) && IsDefault(b.plans, q) ==> p == q)
  {}

  /* ------------------------------- catching up with the clock ------------------------------- */

  /** The row after k calls of advance_cycle_if_needed at the same moment. */
  function AdvanceTimes(plans: map<PlanId, Plan>, sub: Subscription, now: DateTime, k: nat): (r: Subscription)
    requires SubOk(plans, sub) && now.Valid()
    ensures SubOk(plans, r)
  {
    if k == 0 then sub
    else
      AdvanceStep(plans, AdvanceTimes(plans, sub, now, k - 1), now);
      AdvanceSub(plans, AdvanceTimes(plans, sub, now, k - 1), now)
  }

  /** The row is `sub` after j advances, made because each period so far had ended. */
  ghost predicate AdvancedBy(sub: Subscription, r: Subscription, now: DateTime, j: nat)
    requires sub.end.Valid()
  {
    && r.end == Advanced(sub.end, j) && (j == 0 ==> r == sub)
    && (j > 0 ==> r.start == Advanced(sub.end, j - 1) && Before(r.start, now))
  }

  lemma AdvancedOnce(plans: map<PlanId, Plan>, sub: Subscription, r: Subscription, now: DateTime, j: nat)
    requires sub.end.Valid() && SubOk(plans, r) && now.Valid() && AdvancedBy(sub, r, now, j)
    ensures r.end.Valid()
    ensures if AtMost(now, r.end) then AdvanceSub(plans, r, now) == r
            else AdvancedBy(sub, AdvanceSub(plans, r, now), now, j + 1)
  {
    AdvanceStep(plans, r, now);
  }

  lemma EndIsValid(plans: map<PlanId, Plan>, sub: Subscription)
    requires SubOk(plans, sub)
    ensures sub.end.Valid()
  {
    AddOneMonthMoves(sub.start);
  }

  /** k calls advance by j <= k months: all k, or as far as the period that holds the present moment. */
  lemma {:induction false} CallsAdvance(plans: map<PlanId, Plan>, sub: Subscription, now: DateTime, k: nat)
    returns (j: nat)
    requires SubOk(plans, sub) && now.Valid()
    ensures j <= k && sub.end.Valid()
    ensures var r := AdvanceTimes(plans, sub, now, k); AdvancedBy(sub, r, now, j) && (j == k || AtMost(now, r.end))
  {
    EndIsValid(plans, sub);
    j := 0;
    if k > 0 {
      j := CallsAdvance(plans, sub, now, k - 1);
      var r := AdvanceTimes(plans, sub, now, k - 1);
      AdvancedOnce(plans, sub, r, now, j);
      assert AdvanceTimes(plans, sub, now, k) == AdvanceSub(plans, r, now);
      if !AtMost(now, r.end) { j := j + 1; }
    }
  }

  /** A row that lags behind by any number of days is brought up to date by at most one call for every
      28 of them, plus one; further calls change nothing. */
  lemma CallsReachPresent(plans: map<PlanId, Plan>, sub: Subscription, now: DateTime, k: nat)
    requires SubOk(plans, sub) && now.Valid() && sub.end.Valid()
    requires 28 * k > DayNumber(now) - DayNumber(sub.end)
    ensures var r := AdvanceTimes(plans, sub, now, k);
            && AtMost(now, r.end) && (AtMost(sub.start, now) ==> AtMost(r.start, now))
            && AdvanceSub(plans, r, now) == r
  {
    var j := CallsAdvance(plans, sub, now, k);
    var r := AdvanceTimes(plans, sub, now, k);
    AdvanceStep(plans, r, now);
    if j == k {
      AfterAdvances(sub.end, k);
      if Before(r.end, now) { EarlierDay(r.end, now); }
    }
  }
}
