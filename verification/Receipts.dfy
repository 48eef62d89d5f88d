/**
 What a payment leaves behind, column by column. The statements here speak of the tables alone, so that a reader
 can hold them against the writes of the fulfilment transaction one by one.
 */
module Receipts {
  import opened Wrappers
  import opened Calendar
  import opened Ledger
  import opened Deliveries
  import opened Fulfilment
  import C = Cents

  /** An instant that lies between so many and so many days after another. */
  predicate DaysLater(from: Instant, to: Instant, least: nat, most: nat)
  {
    from + least * 86_400_000 <= to <= from + most * 86_400_000
  }

  /** Where a bought period is counted from: the old end while that is ahead of the clock, otherwise the clock. */
  function CountedFrom(subs: map<(Id, Id), Sub>, key: (Id, Id), first: Instant, second: Instant): Instant
  {
    if key in subs && subs[key].periodEnd > first then subs[key].periodEnd else second
  }

  /** The end of a period of this interval counted from an instant. */
  predicate EndsAfter(interval: Interval, from: Instant, end: Instant)
  {
    match interval
    case Monthly => end == AddMonths(from, 1) && DaysLater(from, end, 28, 31)
    case Quarterly => end == AddMonths(from, 3) && DaysLater(from, end, 89, 92)
    case Yearly => end == AddMonths(from, 12) && DaysLater(from, end, 365, 366)
  }

  /** The subscription row after a paid order for a plan, and no other row touched. */
  ghost predicate SubWritten(subs: map<(Id, Id), Sub>, plans: map<Id, Plan>, c: Contract, first: Instant,
                             second: Instant,
                             subs': map<(Id, Id), Sub>)
  {
    var key := (c.buyer, c.creator);
    && key in subs' && subs' == subs[key := subs'[key]] && c.plan.Some? && c.plan.value in plans
    && var row := subs'[key];
    && row.status == Active && row.plan == c.plan.value && !row.cancelAtPeriodEnd
    && row.provider == (if key in subs then subs[key].provider else c.provider)
    && EndsAfter(plans[c.plan.value].interval, CountedFrom(subs, key, first, second), row.periodEnd)
  }

  ghost predicate PurchaseWritten(rows: map<Id, PurchaseRow>, ref: Id, c: Contract, rows': map<Id, PurchaseRow>)
  {
    ref !in rows && ref in rows' && rows' == rows[ref := rows'[ref]] && PurchaseSays(rows'[ref], c)
  }

  predicate PurchaseSays(row: PurchaseRow, c: Contract)
  {
    && row.buyer == c.buyer && row.post == c.post && row.media == c.media
    && row.amountCents == c.amountCents && row.currency == c.currency && row.provider == c.provider
  }

  ghost predicate TipWritten(rows: map<Id, TipRow>, ref: Id, c: Contract, rows': map<Id, TipRow>)
  {
    ref !in rows && ref in rows' && rows' == rows[ref := rows'[ref]] && TipSays(rows'[ref], c)
  }

  /** The tip goes from the buyer to the creator; its message is the first 500 characters, if there are any. */
  predicate TipSays(row: TipRow, c: Contract)
  {
    && row.sender == c.buyer && row.recipient == c.creator
    && row.amountCents == c.amountCents && row.currency == c.currency && row.provider == c.provider
    && row.anonymous == c.anonymous
    && (row.message.None? <==> |c.message| == 0)
    && (row.message.Some? ==>
          row.message.value <= c.message && (|row.message.value| == 500 || row.message.value == c.message)
          && |row.message.value| <= 500)
  }

  /** All that a committed grant writes. */
  ghost predicate GrantWrites(l: Ledger, ref: Id, first: Instant, second: Instant, l': Ledger)
    requires ref in l.orders
  {
    var o := l.orders[ref];
    var c := o.contract;
    && l'.orders == l.orders[ref := Order(c, o.feeCents, Succeeded)]
    && l'.events == l.events && l'.plans == l.plans
    && c.creator in l'.wallets && l'.wallets == l.wallets[c.creator := l'.wallets[c.creator]]
    && l'.wallets[c.creator]
         == (if c.creator in l.wallets then l.wallets[c.creator] else 0) + c.amountCents - o.feeCents
    && (if c.kind == Subscription then SubWritten(l.subs, l.plans, c, first, second, l'.subs) else l'.subs == l.subs)
    && (if c.kind == Purchase then PurchaseWritten(l.purchases, ref, c, l'.purchases) else l'.purchases == l.purchases)
    && (if c.kind == Tip then TipWritten(l.tips, ref, c, l'.tips) else l'.tips == l.tips)
  }

  predicate Bought(o: Order, buyer: Id, post: Option<Id>)
  {
    o.status == Succeeded && o.contract.kind == Purchase && o.contract.buyer == buyer && o.contract.post == post
  }

  /** The buyer has a SUCCEEDED order for the post that this contract is for. */
  predicate AlreadyBought(orders: map<Id, Order>, c: Contract)
  {
    && c.kind == Purchase && c.post.Some?
    && exists r :: r in orders && Bought(orders[r], c.buyer, c.post)
  }

  /** The amounts that the guard lets through. */
  predicate LetThrough(reported: Reported, price: int)
  {
    match reported
    case Cents(n) => n <= 0 || price - 1 <= n <= price + 1
    case Infinite(negative) => negative
    case NaN => true
  }

  /** A new PENDING order under a reference that was free, with a fee of a fifth of its amount rounded down. */
  ghost predicate OrderPlaced(orders: map<Id, Order>, ref: Id, orders': map<Id, Order>)
  {
    && ref !in orders && ref in orders' && orders' == orders[ref := orders'[ref]]
    && orders'[ref].status == Pending
    && 5 * orders'[ref].feeCents <= orders'[ref].contract.amountCents < 5 * orders'[ref].feeCents + 5
  }

  /** What one fulfilment does: the whole grant when the order is open, paid and not bought already, or nothing. */
  ghost predicate FulfilDoes(l: Ledger, ref: Id, reported: Reported, first: Instant, second: Instant, l': Ledger)
  {
    if ref in l.orders && l.orders[ref].status == Pending && LetThrough(reported, l.orders[ref].contract.amountCents)
       && !AlreadyBought(l.orders, l.orders[ref].contract)
    then GrantWrites(l, ref, first, second, l')
    else l' == l
  }

  /** What one settled event does: nothing when it is on record, otherwise it is recorded and fulfils its order. */
  ghost predicate EventDoes(l: Ledger, key: (Provider, Id), order: Option<Id>, reported: Reported,
                            first: Instant, second: Instant, l': Ledger)
  {
    if key in l.events then l' == l
    else
      var marked := l.(events := l.events + {key});
      if order.None? then l' == marked else FulfilDoes(marked, order.value, reported, first, second, l')
  }

  // ------------------------------------------------------------ the grant

  /** A post is owned exactly when a SUCCEEDED order of its buyer bought it. */
  lemma OwnedMeansBought(l: Ledger, c: Contract)
    requires Inv(l)
    ensures Owned(l, c) <==> AlreadyBought(l.orders, c)
  {
    hide MoneyConserved, SubsMatchOrders, OnePurchasePerPost, OrdersOk, TipsOf;
    if Owned(l, c) {
      var r :| r in l.purchases && l.purchases[r].buyer == c.buyer && l.purchases[r].post == c.post;
      assert l.purchases[r] == PurchaseFor(l.orders[r].contract);
      assert Bought(l.orders[r], c.buyer, c.post);
    }
    if AlreadyBought(l.orders, c) {
      var r :| r in l.orders && Bought(l.orders[r], c.buyer, c.post);
      assert r in l.purchases && l.purchases[r] == PurchaseFor(l.orders[r].contract);
    }
  }

  lemma TipIsSaid(c: Contract)
    ensures TipSays(TipFor(c), c)
  {
  }

  /** An interval buys one, three or twelve calendar months. */
  lemma IntervalEnds(interval: Interval, from: Instant)
    ensures EndsAfter(interval, from, AddMonths(from, MonthsOf(interval)))
  {
    hide AddMonths;
    AddMonthsIsExact(from, MonthsOf(interval));
  }

  lemma CountingStart(l: Ledger, c: Contract, months: nat, first: Instant, second: Instant)
    ensures NextEnd(SubOf(l, c), months, first, second)
         == AddMonths(CountedFrom(l.subs, (c.buyer, c.creator), first, second), months)
  {
    hide AddMonths;
  }

  lemma ExtensionWrites(l: Ledger, c: Contract, first: Instant, second: Instant)
    requires c.kind == Subscription && c.plan.Some? && c.plan.value in l.plans
    ensures SubWritten(l.subs, l.plans, c, first, second, ExtendSub(l, c, first, second).subs)
  {
    hide NextEnd, AddMonths, EndsAfter, CountedFrom, MonthsOf;
    var interval := l.plans[c.plan.value].interval;
    CountingStart(l, c, MonthsOf(interval), first, second);
    IntervalEnds(interval, CountedFrom(l.subs, (c.buyer, c.creator), first, second));
  }

  /** The books as the transaction leaves them before its insert. */
  function BeforeInsert(l: Ledger, ref: Id, first: Instant, second: Instant): Ledger
    requires ref in l.orders
  {
    var o := l.orders[ref];
    ExtendSub(Credit(Claim(l, ref), o.contract.creator, Net(o)), o.contract, first, second)
  }

  lemma SubscriptionWrites(l: Ledger, ref: Id, first: Instant, second: Instant)
    requires Inv(l) && ref in l.orders
    ensures var c := l.orders[ref].contract; var subs' := BeforeInsert(l, ref, first, second).subs;
            if c.kind == Subscription then SubWritten(l.subs, l.plans, c, first, second, subs') else subs' == l.subs
  {
    var o := l.orders[ref];
    assert ContractOk(l.plans, o.contract);
    hide Inv, NextEnd, UpsertedSub, SubWritten, MonthsOf;
    if o.contract.kind == Subscription {
      ExtensionWrites(Credit(Claim(l, ref), o.contract.creator, Net(o)), o.contract, first, second);
    }
  }

  lemma OtherWrites(l: Ledger, ref: Id, first: Instant, second: Instant)
    requires ref in l.orders
    ensures var o := l.orders[ref]; var c := o.contract; var l' := BeforeInsert(l, ref, first, second);
            && l'.orders == l.orders[ref := Order(c, o.feeCents, Succeeded)]
            && l'.wallets == l.wallets[c.creator :=
                 (if c.creator in l.wallets then l.wallets[c.creator] else 0) + c.amountCents - o.feeCents]
            && l'.events == l.events && l'.plans == l.plans && l'.purchases == l.purchases && l'.tips == l.tips
  {
    hide NextEnd, UpsertedSub, MonthsOf;
  }

  lemma InsertWrites(l: Ledger, ref: Id, c: Contract)
    requires AddItem(l, ref, c).Some? && ref !in l.purchases && ref !in l.tips
    requires c.kind == Purchase ==> c.post.Some? || c.media.Some?
    ensures var l' := AddItem(l, ref, c).value;
            && l' == l.(purchases := l'.purchases, tips := l'.tips)
            && (if c.kind == Purchase then PurchaseWritten(l.purchases, ref, c, l'.purchases)
                  else l'.purchases == l.purchases)
            && (if c.kind == Tip then TipWritten(l.tips, ref, c, l'.tips) else l'.tips == l.tips)
  {
    TipIsSaid(c);
    hide ItemTaken, TipSays, TipFor;
  }

  /** A grant that commits writes exactly these columns. */
  lemma GrantWritesColumns(l: Ledger, ref: Id, first: Instant, second: Instant)
    requires Inv(l) && ref in l.orders && l.orders[ref].status == Pending && Grant(l, ref, first, second).Some?
    ensures GrantWrites(l, ref, first, second, Grant(l, ref, first, second).value)
  {
    NoRowYet(l, ref);
    OtherWrites(l, ref, first, second);
    SubscriptionWrites(l, ref, first, second);
    ContractIsOk(l, ref);
    GrantIsInsert(l, ref, first, second);
    hide Inv, BeforeInsert, Grant, SubWritten, ContractOk, AddItem, PurchaseWritten, TipWritten;
    InsertWrites(BeforeInsert(l, ref, first, second), ref, l.orders[ref].contract);
  }

  lemma GrantIsInsert(l: Ledger, ref: Id, first: Instant, second: Instant)
    requires ref in l.orders && l.orders[ref].status == Pending
    ensures Grant(l, ref, first, second) == AddItem(BeforeInsert(l, ref, first, second), ref, l.orders[ref].contract)
  {
    hide AddItem, ExtendSub, Credit, Claim;
  }

  lemma ContractIsOk(l: Ledger, ref: Id)
    requires Inv(l) && ref in l.orders
    ensures var c := l.orders[ref].contract; c.kind == Purchase ==> c.post.Some? || c.media.Some?
  {
    hide MoneyConserved, SubsMatchOrders, OnePurchasePerPost, PurchasesOf, TipsOf;
    assert ContractOk(l.plans, l.orders[ref].contract);
  }

  lemma NoRowYet(l: Ledger, ref: Id)
    requires Inv(l) && ref in l.orders && l.orders[ref].status == Pending
    ensures ref !in l.purchases && ref !in l.tips
  {
    hide MoneyConserved, SubsMatchOrders, OnePurchasePerPost, OrdersOk;
  }

  /** Every committed grant of a run writes these columns. */
  lemma LandedGrantWrites(l: Ledger, op: Op)
    requires Inv(l) && op.OGrant? && Lands(l, op)
    ensures op.ref in l.orders && GrantWrites(l, op.ref, op.first, op.second, DoOp(l, op))
  {
    hide Inv, Grant, GrantWrites;
    GrantWritesColumns(l, op.ref, op.first, op.second);
  }

  /** One fulfilment does all of that or nothing, and exactly when. */
  lemma FulfilDoesIt(l: Ledger, ref: Id, reported: Reported, first: Instant, second: Instant)
    requires Inv(l)
    ensures FulfilDoes(l, ref, reported, first, second, Fulfil(l, ref, reported, first, second))
  {
    hide Inv, Grant, GrantWrites, AlreadyBought, Owned;
    if ref in l.orders {
      var c := l.orders[ref].contract;
      GuardIsAsSaid(reported, c.amountCents);
      hide Mismatch, LetThrough;
      OwnedMeansBought(l, c);
      if l.orders[ref].status == Pending {
        GrantSucceedsUnlessOwned(l, ref, first, second);
        if !Owned(l, c) { GrantWritesColumns(l, ref, first, second); }
      } else {
        GrantOfClosedOrder(l, ref, first, second);
      }
    }
  }

  lemma GuardIsAsSaid(reported: Reported, price: int)
    ensures Mismatch(reported, price) <==> !LetThrough(reported, price)
  {
  }

  /** Handling a settled event does what the event says. */
  lemma HandleDoesIt(l: Ledger, t: Timed)
    requires Inv(l)
    ensures EventDoes(l, (t.d.provider, t.d.event), t.d.order, t.d.reported, t.first, t.second, Handle(l, t))
  {
    hide Inv, Fulfil, FulfilDoes;
    MarkKeepsInv(l, t.d);
    if t.d.order.Some? {
      FulfilDoesIt(MarkEvent(l, t.d.provider, t.d.event), t.d.order.value, t.d.reported, t.first, t.second);
    }
  }

  /** Hence a new event that pays an open order, within a cent, for something not bought yet settles it. */
  lemma NewPaymentSettles(l: Ledger, key: (Provider, Id), r: Id, n: int, first: Instant, second: Instant, l': Ledger)
    requires EventDoes(l, key, Some(r), Cents(n), first, second, l') && key !in l.events
    requires r in l.orders && l.orders[r].status == Pending && -1 <= n - l.orders[r].contract.amountCents <= 1
    requires !AlreadyBought(l.orders, l.orders[r].contract)
    ensures l'.events == l.events + {key} && r in l'.orders && l'.orders[r].status == Succeeded
  {
    hide AlreadyBought, SubWritten, PurchaseWritten, TipWritten;
  }

  // ------------------------------------------------------------ the other operations

  /** What an operation other than a grant writes, and that it writes nothing else. */
  ghost predicate OpWrites(l: Ledger, op: Op, l': Ledger)
  {
    match op
    case OMark(provider, event) => l' == l.(events := l.events + {(provider, event)})
    case OGrant(_, _, _) => true
    case OCheckout(ref, c) =>
      && l' == l.(orders := l'.orders)
      && (l' == l || (OrderPlaced(l.orders, ref, l'.orders) && l'.orders[ref].contract == c))
      && (ref !in l.orders && c.kind == Tip && c.buyer != c.creator ==> ref in l'.orders)
    case OCancel(key) =>
      && l' == l.(subs := l'.subs)
      && (if key in l.subs && l.subs[key].status in {Active, Trialing}
          then l'.subs == l.subs[key := l.subs[key].(cancelAtPeriodEnd := true)] else l'.subs == l.subs)
    case OUpsertPlan(id, creator, interval, price, trial, discount) =>
      && l' == l.(plans := l'.plans)
      && (id in l.plans && l.plans[id].creator == creator && l.plans[id].interval == interval ==>
            l'.plans == l.plans[id := Plan(creator, interval, price, trial, discount, true)])
      && (id !in l.plans && (forall p :: p in l.plans ==>
           l.plans[p].creator != creator || l.plans[p].interval != interval) ==>
            l'.plans == l.plans[id := Plan(creator, interval, price, trial, discount, true)])
    case ODeactivatePlan(id, creator) =>
      && l' == l.(plans := l'.plans)
      && (if id in l.plans && l.plans[id].creator == creator
          then l'.plans == l.plans[id := l.plans[id].(active := false)] else l'.plans == l.plans)
    case OOpenWallet(user) =>
      && l' == l.(wallets := l'.wallets)
      && (if user in l.wallets then l'.wallets == l.wallets else l'.wallets == l.wallets[user := 0])
  }

  lemma OpDoesIt(l: Ledger, op: Op)
    ensures OpWrites(l, op, DoOp(l, op))
  {
    hide Grant;
    match op
    case OCheckout(ref, c) => C.FeeAndShare(c.amountCents);
    case _ =>
  }
}
