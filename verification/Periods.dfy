/** Subscription periods over whole serial runs: what a buyer paid for is what the period covers. */
module Periods {
  import opened Wrappers
  import opened Sums
  import opened Calendar
  import opened Ledger
  import opened Fulfilment
  import opened Receipts

  const DAY: nat := MS_PER_DAY

  /** This operation is a grant of a subscription for the pair. */
  predicate GrantFor(l: Ledger, op: Op, key: (Id, Id))
  {
    op.OGrant? && op.ref in l.orders && l.orders[op.ref].contract.kind == Subscription
    && (l.orders[op.ref].contract.buyer, l.orders[op.ref].contract.creator) == key
  }

  function MonthsGranted(l: Ledger, op: Op): nat
    requires Inv(l) && op.OGrant? && op.ref in l.orders && l.orders[op.ref].contract.kind == Subscription
  {
    assert ContractOk(l.plans, l.orders[op.ref].contract);
    MonthsOf(l.plans[l.orders[op.ref].contract.plan.value].interval)
  }

  function EndOf(l: Ledger, key: (Id, Id)): Option<Instant>
  {
    if key in l.subs then Some(l.subs[key].periodEnd) else None
  }

  // ------------------------------------------------------------ one operation

  /** A landed subscription grant adds its months and moves the end by them. */
  lemma GrantExtends(l: Ledger, op: Op, key: (Id, Id))
    requires Inv(l) && Lands(l, op) && GrantFor(l, op, key)
    ensures var existing := if key in l.subs then Some(l.subs[key]) else None;
            EndOf(DoOp(l, op), key) == Some(NextEnd(existing, MonthsGranted(l, op), op.first, op.second))
    ensures MonthsBought(DoOp(l, op), key) == MonthsBought(l, key) + MonthsGranted(l, op)
    ensures SubWritten(l.subs, l.plans, l.orders[op.ref].contract, op.first, op.second, DoOp(l, op).subs)
  {
    LandedGrantWrites(l, op);
    hide Inv, Lands, DoOp, NextEnd, MonthsOf, PurchaseWritten, TipWritten, MonthsBought, AddMonths;
    GrantAddsMonths(l, op, key);
    EndIsCounted(l, op, key);
  }

  lemma GrantAddsMonths(l: Ledger, op: Op, key: (Id, Id))
    requires Inv(l) && Lands(l, op) && GrantFor(l, op, key)
    ensures MonthsBought(DoOp(l, op), key) == MonthsBought(l, key) + MonthsGranted(l, op)
  {
    assert ContractOk(l.plans, l.orders[op.ref].contract);
    LandedGrantWrites(l, op);
    hide Inv, Lands, DoOp, SubWritten, PurchaseWritten, TipWritten, MonthsOf, MonthsFrom, Total, ContractOk;
    SettlingAddsMonths(l.orders, l.plans, op.ref, key);
  }

  lemma SettlingAddsMonths(orders: map<Id, Order>, plans: map<Id, Plan>, ref: Id, key: (Id, Id))
    requires ref in orders && orders[ref].status == Pending && ContractOk(plans, orders[ref].contract)
    requires var c := orders[ref].contract; c.kind == Subscription && (c.buyer, c.creator) == key
    ensures var months, o := MonthsFrom(plans, key), orders[ref].(status := Succeeded);
            Total(orders[ref := o], months)
            == Total(orders, months) + MonthsOf(plans[o.contract.plan.value].interval)
  {
    hide MonthsOf;
    TotalWrite(orders, ref, orders[ref].(status := Succeeded), MonthsFrom(plans, key));
  }

  lemma EndIsCounted(l: Ledger, op: Op, key: (Id, Id))
    requires Inv(l) && GrantFor(l, op, key)
    requires SubWritten(l.subs, l.plans, l.orders[op.ref].contract, op.first, op.second, DoOp(l, op).subs)
    ensures var existing := if key in l.subs then Some(l.subs[key]) else None;
            EndOf(DoOp(l, op), key) == Some(NextEnd(existing, MonthsGranted(l, op), op.first, op.second))
  {
    hide Inv, DoOp, AddMonths;
  }

  lemma OtherGrantsDoNotExtend(l: Ledger, op: Op, key: (Id, Id))
    requires op.OGrant? && !GrantFor(l, op, key)
    ensures EndOf(DoOp(l, op), key) == EndOf(l, key)
    ensures MonthsBought(DoOp(l, op), key) == MonthsBought(l, key)
  {
    if op.ref in l.orders && l.orders[op.ref].status == Pending && Grant(l, op.ref, op.first, op.second).Some? {
      GrantChangesOnly(l, op.ref, op.first, op.second);
      hide Grant, ItemTaken, NextEnd, Held;
      var o := l.orders[op.ref].(status := Succeeded);
      TotalWrite(l.orders, op.ref, o, MonthsFrom(l.plans, key));
    } else {
      hide MonthsBought, EndOf;
    }
  }

  /** Every other operation leaves the pair's end and its months alone. */
  lemma OthersDoNotExtend(l: Ledger, op: Op, key: (Id, Id))
    requires Inv(l) && !GrantFor(l, op, key)
    ensures EndOf(DoOp(l, op), key) == EndOf(l, key)
    ensures MonthsBought(DoOp(l, op), key) == MonthsBought(l, key)
  {
    hide Inv, Grant, Offered, HasPlan;
    match op
    case OGrant(ref, first, second) =>
      hide MonthsBought, EndOf;
      OtherGrantsDoNotExtend(l, op, key);
    case OCheckout(ref, c) =>
      if DoOp(l, op) != l {
        TotalWrite(l.orders, ref, NewOrder(c), MonthsFrom(l.plans, key));
      }
    case OUpsertPlan(_, _, _, _, _, _) => SamePlansSameMonths(l, op, key);
    case ODeactivatePlan(_, _) => SamePlansSameMonths(l, op, key);
    case OCancel(_) =>
    case OOpenWallet(_) =>
    case OMark(_, _) =>
  }

  /** Plan edits cannot change what was bought. */
  lemma SamePlansSameMonths(l: Ledger, op: Op, key: (Id, Id))
    requires Inv(l) && (op.OUpsertPlan? || op.ODeactivatePlan?)
    ensures MonthsBought(DoOp(l, op), key) == MonthsBought(l, key)
  {
    hide MoneyConserved, SubsMatchOrders, OnePurchasePerPost, PurchasesOf, TipsOf, HasPlan, MonthsFrom, OrdersOk;
    OpKeepsPlans(l, op);
    hide PlansKept;
    MonthsOfKeptPlans(l.orders, l.plans, DoOp(l, op).plans, key);
  }

  lemma NextEndBounds(existing: Option<Sub>, months: nat, first: Instant, second: Instant)
    requires first <= second
    ensures NextEnd(existing, months, first, second) >= second + DAY * (28 * months) || existing.Some?
    ensures NextEnd(existing, months, first, second) >= first + DAY * (28 * months)
    ensures existing.Some? ==>
      NextEnd(existing, months, first, second) >= existing.value.periodEnd + DAY * (28 * months)
    ensures NextEnd(existing, months, first, second) <= second + DAY * (31 * months)
         || (existing.Some? &&
             NextEnd(existing, months, first, second) <= existing.value.periodEnd + DAY * (31 * months))
  {
    hide AddMonths;
    AddMonthsIsExact(second, months);
    if existing.Some? { AddMonthsIsExact(existing.value.periodEnd, months); }
  }

  /** No operation ever shortens a period, cancellation and later top-ups included. */
  lemma EndNeverMovesBack(l: Ledger, op: Op, key: (Id, Id))
    requires Inv(l) && key in l.subs && Lands(l, op)
    ensures key in DoOp(l, op).subs
    ensures DoOp(l, op).subs[key].periodEnd >= l.subs[key].periodEnd && DoOp(l, op).subs[key].status == Active
  {
    hide Inv, DoOp, NextEnd, Lands;
    OpKeepsInv(l, op);
    if GrantFor(l, op, key) {
      GrantExtends(l, op, key);
      LandsInOrder(l, op);
      NextEndBounds(Some(l.subs[key]), MonthsGranted(l, op), op.first, op.second);
    } else {
      OthersDoNotExtend(l, op, key);
    }
    AlwaysActive(DoOp(l, op), key);
  }

  lemma LandsInOrder(l: Ledger, op: Op)
    requires op.OGrant? && Lands(l, op)
    ensures op.first <= op.second
  {
  }

  lemma AlwaysActive(l: Ledger, key: (Id, Id))
    requires Inv(l) && key in l.subs
    ensures l.subs[key].status == Active
  {
  }

  // ------------------------------------------------------------ whole runs

  ghost predicate AllLand(l0: Ledger, log: seq<Op>)
  {
    forall i :: 0 <= i < |log| ==> Lands(Replay(l0, log[..i]), log[i])
  }

  /** All grants for the pair read the clock between these two instants. */
  ghost predicate GrantsWithin(l0: Ledger, log: seq<Op>, key: (Id, Id), start: Instant, last: Instant)
  {
    forall i :: 0 <= i < |log| && GrantFor(Replay(l0, log[..i]), log[i], key) ==>
      start <= log[i].first && log[i].second <= last
  }

  lemma NothingBoughtYet(l: Ledger, key: (Id, Id))
    requires Inv(l) && key !in l.subs
    ensures MonthsBought(l, key) == 0
  {
    hide MoneyConserved, OnePurchasePerPost, PurchasesOf, TipsOf, OrdersOk;
    SumOfZeros(l.orders.Keys, Cells(l.orders, MonthsFrom(l.plans, key)));
  }

  /** Bounds on a pair's period end, given the end at the start of the run, if any, and the months bought in it. */
  ghost predicate Bounded(l: Ledger, key: (Id, Id), oldEnd: Option<Instant>, months: int, start: Instant, last: Instant)
  {
    && months >= 0
    && (key in l.subs <==> oldEnd.Some? || months > 0)
    && (key in l.subs ==>
          var end := l.subs[key].periodEnd;
          && (months > 0 ==> start + DAY * (28 * months) <= end)
          && (oldEnd.Some? ==> oldEnd.value + DAY * (28 * months) <= end)
          && end <= Latest(oldEnd, last) + DAY * (31 * months))
  }

  function Latest(oldEnd: Option<Instant>, last: Instant): Instant
  {
    if oldEnd.Some? && oldEnd.value > last then oldEnd.value else last
  }

  lemma OneMoreStaysBounded(l: Ledger, op: Op, key: (Id, Id), oldEnd: Option<Instant>, months: int, start: Instant,
                            last: Instant)
    requires Inv(l) && Lands(l, op) && Bounded(l, key, oldEnd, months, start, last)
    requires GrantFor(l, op, key) ==> start <= op.first && op.second <= last
    ensures Bounded(DoOp(l, op), key, oldEnd, months + MonthsBought(DoOp(l, op), key) - MonthsBought(l, key), start,
                    last)
  {
    hide Inv, DoOp, NextEnd, Lands, MonthsBought;
    if GrantFor(l, op, key) {
      var existing := if key in l.subs then Some(l.subs[key]) else None;
      GrantExtends(l, op, key);
      LandsInOrder(l, op);
      SomeMonths(l, op);
      NextEndBounds(existing, MonthsGranted(l, op), op.first, op.second);
    } else {
      OthersDoNotExtend(l, op, key);
    }
  }

  lemma SomeMonths(l: Ledger, op: Op)
    requires Inv(l) && op.OGrant? && op.ref in l.orders && l.orders[op.ref].contract.kind == Subscription
    ensures MonthsGranted(l, op) > 0
  {
    hide Inv;
  }

  /**
   Over any run of top-ups, the first at or after `start` and the last at or before `last`, that buys M months:
   the period end lies at or after start + 28 M days once anything was bought, at or after the old end + 28 M
   days, and at or before the later of `last` and the old end, + 31 M days. Without an old end these are the
   bounds of the first subscription.
   */
  lemma {:induction false} PeriodCoversMonthsBought(l0: Ledger, log: seq<Op>, key: (Id, Id), start: Instant,
                                                    last: Instant)
    requires Inv(l0) && AllLand(l0, log) && GrantsWithin(l0, log, key, start, last)
    ensures Bounded(Replay(l0, log), key, EndOf(l0, key), MonthsBought(Replay(l0, log), key) - MonthsBought(l0, key),
                    start, last)
    ensures key !in l0.subs ==> MonthsBought(l0, key) == 0
    decreases |log|
  {
    hide Inv, DoOp, Lands, MonthsBought;
    if key !in l0.subs { NothingBoughtYet(l0, key); }
    if log != [] {
      var n := |log| - 1;
      var prefix := log[..n];
      assert forall i :: 0 <= i < n ==> prefix[..i] == log[..i];
      PeriodCoversMonthsBought(l0, prefix, key, start, last);
      ReplayKeepsInv(l0, prefix);
      OneMoreStaysBounded(Replay(l0, prefix), log[n], key, EndOf(l0, key),
                          MonthsBought(Replay(l0, prefix), key) - MonthsBought(l0, key), start, last);
    }
  }

  /** An end that leaves at least the shortest month, quarter or year after an instant. */
  predicate Lasts(interval: Interval, from: Instant, end: Instant)
  {
    match interval
    case Monthly => from + 28 * 86_400_000 <= end
    case Quarterly => from + 89 * 86_400_000 <= end
    case Yearly => from + 365 * 86_400_000 <= end
  }

  /** This instant lies within the shortest period that the grant can have bought. */
  ghost predicate PaidAt(l: Ledger, op: Op, now: Instant)
  {
    && op.OGrant? && op.ref in l.orders
    && var plan := l.orders[op.ref].contract.plan;
    && plan.Some? && plan.value in l.plans
    && (match l.plans[plan.value].interval
        case Monthly => now < op.first + 28 * 86_400_000
        case Quarterly => now < op.first + 89 * 86_400_000
        case Yearly => now < op.first + 365 * 86_400_000)
  }

  /** The grant's subscription has its plan on the books, and its end lies so far ahead. */
  ghost predicate LastsFromGrant(l: Ledger, op: Op, end: Instant)
  {
    && op.OGrant? && op.ref in l.orders
    && var plan := l.orders[op.ref].contract.plan;
    && plan.Some? && plan.value in l.plans && Lasts(l.plans[plan.value].interval, op.first, end)
  }

  lemma GrantLasts(l: Ledger, op: Op, key: (Id, Id))
    requires Inv(l) && Lands(l, op) && GrantFor(l, op, key)
    ensures key in DoOp(l, op).subs && LastsFromGrant(l, op, DoOp(l, op).subs[key].periodEnd)
  {
    LandedGrantWrites(l, op);
    LandsInOrder(l, op);
    hide Inv, DoOp, Lands, AddMonths, PurchaseWritten, TipWritten;
  }

  /** Whatever happens after a landed grant, its subscription stays ACTIVE for at least the month, quarter or year. */
  lemma {:induction false} GrantedTimeLasts(l0: Ledger, log: seq<Op>, i: nat, key: (Id, Id))
    requires Inv(l0) && AllLand(l0, log) && i < |log| && GrantFor(Replay(l0, log[..i]), log[i], key)
    ensures key in Replay(l0, log).subs
    ensures var s := Replay(l0, log).subs[key];
            s.status == Active && LastsFromGrant(Replay(l0, log[..i]), log[i], s.periodEnd)
    decreases |log|
  {
    hide Inv, DoOp, Lands, NextEnd, LastsFromGrant;
    var n := |log| - 1;
    var prefix := log[..n];
    assert forall j :: 0 <= j <= n ==> prefix[..j] == log[..j];
    ReplayKeepsInv(l0, prefix);
    var l := Replay(l0, prefix);
    assert Replay(l0, log) == DoOp(l, log[n]);
    if i == n {
      GrantLasts(l, log[n], key);
      ReplayKeepsInv(l0, log);
      AlwaysActive(Replay(l0, log), key);
    } else {
      GrantedTimeLasts(l0, prefix, i, key);
      EndNeverMovesBack(l, log[n], key);
      LaterEndLasts(Replay(l0, log[..i]), log[i], l.subs[key].periodEnd, DoOp(l, log[n]).subs[key].periodEnd);
    }
  }

  lemma LaterEndLasts(l: Ledger, op: Op, end: Instant, later: Instant)
    requires LastsFromGrant(l, op, end) && end <= later
    ensures LastsFromGrant(l, op, later)
  {
  }

  lemma PaidBeforeEnd(l: Ledger, op: Op, end: Instant, now: Instant)
    requires LastsFromGrant(l, op, end) && PaidAt(l, op, now)
    ensures now < end
  {
  }
}
