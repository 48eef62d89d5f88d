/**
 The payment tables and what each committed database operation does to them.

 Identifiers (uuids, opaque order references, provider event ids) are only ever compared for equality, so
 they are numbers here; an absent or empty identifier is None. Instants are milliseconds since 1970.
 */
module Ledger {
  import opened Wrappers
  import opened Sums
  import opened Calendar

  datatype Provider = NowPayments | PayPal
  datatype Kind = Subscription | Purchase | Tip
  datatype OrderStatus = Pending | Succeeded | Failed | Refunded
  datatype Interval = Monthly | Quarterly | Yearly
  datatype SubStatus = Active | Trialing | PastDue | Canceled | Expired

  /** What a checkout asks for; the fulfilment contract kept in the order's metadata. */
  datatype Contract = Contract(
    kind: Kind, buyer: Id, creator: Id, plan: Option<Id>, post: Option<Id>, media: Option<Id>,
    message: string, anonymous: bool, amountCents: int, currency: string, provider: Provider)

  /** A Transaction row. */
  datatype Order = Order(contract: Contract, feeCents: int, status: OrderStatus)

  datatype Plan = Plan(creator: Id, interval: Interval, priceCents: int, trialDays: int, discountPct: int, active: bool)

  /** A Subscription row; (subscriber, creator) is its unique key. */
  datatype Sub = Sub(status: SubStatus, plan: Id, provider: Provider, periodEnd: Instant, cancelAtPeriodEnd: bool)

  /** A Purchase row; the order reference is its unique `providerRef`. */
  datatype PurchaseRow = PurchaseRow(buyer: Id, post: Option<Id>, media: Option<Id>, amountCents: int,
                                     currency: string, provider: Provider)

  /** A Tip row; the order reference is its unique `providerRef`. */
  datatype TipRow = TipRow(sender: Id, recipient: Id, amountCents: int, currency: string, anonymous: bool,
                           message: Option<string>, provider: Provider)

  datatype Ledger = Ledger(
    orders: map<Id, Order>,
    events: set<(Provider, Id)>,
    wallets: map<Id, int>,            // pendingCents by user
    plans: map<Id, Plan>,
    subs: map<(Id, Id), Sub>,         // by (subscriber, creator)
    purchases: map<Id, PurchaseRow>,  // by providerRef
    tips: map<Id, TipRow>)            // by providerRef

  // ------------------------------------------------------------ checkout

  const PLATFORM_FEE_PCT := 20

  /** `Math.floor(amountCents * 20 / 100)`, computed exactly; doubles give the same. */
  function Fee(amountCents: int): int
  {
    amountCents * PLATFORM_FEE_PCT / 100
  }

  /** What the three checkout entry points may ask for. */
  predicate ContractOk(plans: map<Id, Plan>, c: Contract)
  {
    && c.buyer != c.creator
    && (c.kind == Subscription ==> c.plan.Some? && c.plan.value in plans && plans[c.plan.value].creator == c.creator)
    && (c.kind == Purchase ==> c.post.Some? != c.media.Some?)
  }

  predicate Offered(l: Ledger, c: Contract) { ContractOk(l.plans, c) }

  function NewOrder(c: Contract): Order
  {
    Order(c, Fee(c.amountCents), Pending)
  }

  /** Persists the PENDING order; a clash of references or an unknown offer leaves the tables alone. */
  function Checkout(l: Ledger, ref: Id, c: Contract): Ledger
  {
    if ref in l.orders || !Offered(l, c) then l else l.(orders := l.orders[ref := NewOrder(c)])
  }

  // ------------------------------------------------------------ fulfilment, statement by statement

  predicate BuysPlan(c: Contract) { c.kind == Subscription && c.plan.Some? }

  predicate BuysItem(c: Contract) { c.kind == Purchase && (c.post.Some? || c.media.Some?) }

  function Net(o: Order): int { o.contract.amountCents - o.feeCents }

  function Claim(l: Ledger, ref: Id): Ledger
    requires ref in l.orders
  {
    l.(orders := l.orders[ref := l.orders[ref].(status := Succeeded)])
  }

  function Held(wallets: map<Id, int>, user: Id): int
  {
    if user in wallets then wallets[user] else 0
  }

  function Credit(l: Ledger, user: Id, cents: int): Ledger
  {
    l.(wallets := l.wallets[user := Held(l.wallets, user) + cents])
  }

  function MonthsOf(i: Interval): (months: nat)
    ensures (months == 1 <==> i.Monthly?) && (months == 3 <==> i.Quarterly?) && (months == 12 <==> i.Yearly?)
  {
    if i.Monthly? then 1 else if i.Quarterly? then 3 else 12
  }

  function SubOf(l: Ledger, c: Contract): Option<Sub>
  {
    if (c.buyer, c.creator) in l.subs then Some(l.subs[(c.buyer, c.creator)]) else None
  }

  /**
   The new period end: counted from the old end when that is still ahead. The code reads the clock once for
   the comparison (first) and again for the fresh start (second).
   */
  function NextEnd(existing: Option<Sub>, months: nat, first: Instant, second: Instant): Instant
  {
    var base := if existing.Some? && existing.value.periodEnd > first then existing.value.periodEnd else second;
    AddMonths(base, months)
  }

  /** Both arms of the subscription upsert; an existing row keeps the provider it was created with. */
  function UpsertedSub(existing: Option<Sub>, c: Contract, periodEnd: Instant): Sub
    requires c.plan.Some?
  {
    if existing.Some?
    then existing.value.(status := Active, plan := c.plan.value, periodEnd := periodEnd, cancelAtPeriodEnd := false)
    else Sub(Active, c.plan.value, c.provider, periodEnd, false)
  }

  function ExtendSub(l: Ledger, c: Contract, first: Instant, second: Instant): Ledger
  {
    if BuysPlan(c) && c.plan.value in l.plans then
      var end := NextEnd(SubOf(l, c), MonthsOf(l.plans[c.plan.value].interval), first, second);
      l.(subs := l.subs[(c.buyer, c.creator) := UpsertedSub(SubOf(l, c), c, end)])
    else l
  }

  function PurchaseFor(c: Contract): PurchaseRow
  {
    PurchaseRow(c.buyer, c.post, c.media, c.amountCents, c.currency, c.provider)
  }

  function TipFor(c: Contract): TipRow
  {
    TipRow(c.buyer, c.creator, c.amountCents, c.currency, c.anonymous,
           if c.message == "" then None
             else Some(if |c.message| > 500 then c.message[..500] else c.message), c.provider)
  }

  /** Would inserting this purchase break a unique key of the Purchase table? */
  predicate ItemTaken(l: Ledger, ref: Id, c: Contract)
  {
    || ref in l.purchases
    || (c.post.Some? &&
        exists r :: r in l.purchases && l.purchases[r].buyer == c.buyer && l.purchases[r].post == c.post)
  }

  /** The last write of the transaction; None is the unique violation that aborts it. */
  function AddItem(l: Ledger, ref: Id, c: Contract): Option<Ledger>
  {
    if BuysItem(c) then
      if ItemTaken(l, ref, c) then None else Some(l.(purchases := l.purchases[ref := PurchaseFor(c)]))
    else if c.kind == Tip then
      if ref in l.tips then None else Some(l.(tips := l.tips[ref := TipFor(c)]))
    else Some(l)
  }

  /** The whole fulfilment transaction; None means that it rolled back. */
  function Grant(l: Ledger, ref: Id, first: Instant, second: Instant): Option<Ledger>
    requires ref in l.orders
  {
    var o := l.orders[ref];
    if o.status != Pending then Some(l)
    else AddItem(ExtendSub(Credit(Claim(l, ref), o.contract.creator, Net(o)), o.contract, first, second), ref,
                 o.contract)
  }

  /** A payment amount as `Math.round(Number(value) * 100)` yields it. */
  datatype Reported = Cents(n: int) | Infinite(negative: bool) | NaN

  function Abs(n: int): nat { if n < 0 then -n else n }

  /** The defence-in-depth guard: only a positive report further than one cent away is refused. */
  predicate Mismatch(reported: Reported, expected: int)
  {
    match reported
    case Cents(n) => n > 0 && Abs(n - expected) > 1
    case Infinite(negative) => !negative
    case NaN => false
  }

  /** One whole, uninterrupted run of `fulfillOrder`. */
  function Fulfil(l: Ledger, ref: Id, reported: Reported, first: Instant, second: Instant): Ledger
  {
    if ref !in l.orders || l.orders[ref].status == Succeeded
      || Mismatch(reported, l.orders[ref].contract.amountCents) then l
    else match Grant(l, ref, first, second) case Some(l') => l' case None => l
  }

  function MarkEvent(l: Ledger, provider: Provider, event: Id): Ledger
  {
    l.(events := l.events + {(provider, event)})
  }

  // ------------------------------------------------------------ subscriptions and plans

  /** `cancel`: access stays until the period end. */
  function CancelSub(l: Ledger, key: (Id, Id)): Ledger
  {
    if key in l.subs && (l.subs[key].status == Active || l.subs[key].status == Trialing)
    then l.(subs := l.subs[key := l.subs[key].(cancelAtPeriodEnd := true)])
    else l
  }

  predicate HasPlan(l: Ledger, creator: Id, interval: Interval)
  {
    exists p :: p in l.plans && l.plans[p].creator == creator && l.plans[p].interval == interval
  }

  /** `upsertPlan` on the unique key (creator, interval): the existing row is updated, or `id` names a new one. */
  function UpsertPlan(l: Ledger, id: Id, creator: Id, interval: Interval, price: int, trial: int, discount: int): Ledger
  {
    if id in l.plans && l.plans[id].creator == creator && l.plans[id].interval == interval then
      l.(plans := l.plans[id := l.plans[id].(priceCents := price, trialDays := trial, discountPct := discount,
                                             active := true)])
    else if id !in l.plans && !HasPlan(l, creator, interval) then
      l.(plans := l.plans[id := Plan(creator, interval, price, trial, discount, true)])
    else l
  }

  function DeactivatePlan(l: Ledger, id: Id, creator: Id): Ledger
  {
    if id in l.plans && l.plans[id].creator == creator
    then l.(plans := l.plans[id := l.plans[id].(active := false)])
    else l
  }

  /** Registration and `makeCreator` create an empty wallet when there is none. */
  function OpenWallet(l: Ledger, user: Id): Ledger
  {
    if user in l.wallets then l else l.(wallets := l.wallets[user := 0])
  }

  // ------------------------------------------------------------ operations

  /** Everything that commits a change to the payment tables. */
  datatype Op =
    | OMark(provider: Provider, event: Id)
    | OGrant(ref: Id, first: Instant, second: Instant)
    | OCheckout(ref: Id, contract: Contract)
    | OCancel(key: (Id, Id))
    | OUpsertPlan(id: Id, creator: Id, interval: Interval, price: int, trial: int, discount: int)
    | ODeactivatePlan(id: Id, creator: Id)
    | OOpenWallet(user: Id)

  function DoOp(l: Ledger, op: Op): Ledger
  {
    match op
    case OMark(provider, event) => MarkEvent(l, provider, event)
    case OGrant(ref, first, second) =>
      if ref !in l.orders then l
      else (match Grant(l, ref, first, second) case Some(l') => l' case None => l)
    case OCheckout(ref, c) => Checkout(l, ref, c)
    case OCancel(key) => CancelSub(l, key)
    case OUpsertPlan(id, creator, interval, price, trial, discount) =>
      UpsertPlan(l, id, creator, interval, price, trial, discount)
    case ODeactivatePlan(id, creator) => DeactivatePlan(l, id, creator)
    case OOpenWallet(user) => OpenWallet(l, user)
  }

  /** A serial run of operations. */
  function Replay(l: Ledger, ops: seq<Op>): Ledger
  {
    if ops == [] then l else DoOp(Replay(l, ops[..|ops| - 1]), ops[|ops| - 1])
  }

  // ------------------------------------------------------------ what every operation keeps

  predicate Settled(o: Order) { o.status == Succeeded }

  /** What an order has earned one creator. */
  function EarnedBy(creator: Id): Order -> int
  {
    o => if Settled(o) && o.contract.creator == creator then Net(o) else 0
  }

  /** What an order has earned the creators altogether. */
  function NetSettled(): Order -> int { o => if Settled(o) then Net(o) else 0 }

  function GrossSettled(): Order -> int { o => if Settled(o) then o.contract.amountCents else 0 }

  function FeeSettled(): Order -> int { o => if Settled(o) then o.feeCents else 0 }

  function Same(): int -> int { n => n }

  /** The Purchase table that a table of orders calls for. */
  function PurchasesOf(orders: map<Id, Order>): map<Id, PurchaseRow>
  {
    map r | r in orders && Settled(orders[r]) && BuysItem(orders[r].contract) :: PurchaseFor(orders[r].contract)
  }

  /** The Tip table that a table of orders calls for. */
  function TipsOf(orders: map<Id, Order>): map<Id, TipRow>
  {
    map r | r in orders && Settled(orders[r]) && orders[r].contract.kind == Tip :: TipFor(orders[r].contract)
  }

  /** Every order is a contract that was on offer, with the platform's fee. */
  predicate OrdersOk(orders: map<Id, Order>, plans: map<Id, Plan>)
  {
    forall r :: r in orders ==>
      ContractOk(plans, orders[r].contract) && orders[r].feeCents == Fee(orders[r].contract.amountCents)
  }

  /** What one creator is owed according to the orders. */
  ghost function Earned(orders: map<Id, Order>, creator: Id): int { Total(orders, EarnedBy(creator)) }

  predicate CreatorsHaveWallets(orders: map<Id, Order>, wallets: map<Id, int>)
  {
    forall r :: r in orders && Settled(orders[r]) ==> orders[r].contract.creator in wallets
  }

  /** Each wallet holds exactly what its settled orders earned, and so do all wallets together. */
  ghost predicate MoneyConserved(orders: map<Id, Order>, wallets: map<Id, int>)
  {
    && (forall c :: Held(wallets, c) == Earned(orders, c))
    && CreatorsHaveWallets(orders, wallets)
    && Total(wallets, Same()) == Total(orders, NetSettled())
  }

  /** The unique key (buyer, post) of the Purchase table. */
  predicate OnePurchasePerPost(purchases: map<Id, PurchaseRow>)
  {
    forall r, r' :: r in purchases && r' in purchases && r != r' && purchases[r].buyer == purchases[r'].buyer
      ==> purchases[r].post.None? || purchases[r].post != purchases[r'].post
  }

  predicate PaysFor(o: Order, key: (Id, Id))
  {
    Settled(o) && o.contract.kind == Subscription && (o.contract.buyer, o.contract.creator) == key
  }

  /** The months that an order has bought for a (subscriber, creator) pair. */
  function MonthsFrom(plans: map<Id, Plan>, key: (Id, Id)): Order -> int
  {
    (o: Order) =>
      if PaysFor(o, key) && o.contract.plan.Some? && o.contract.plan.value in plans
      then MonthsOf(plans[o.contract.plan.value].interval) else 0
  }

  /** The months bought for a pair by all SUCCEEDED orders together. */
  ghost function MonthsBought(l: Ledger, key: (Id, Id)): int { Total(l.orders, MonthsFrom(l.plans, key)) }

  /** A subscription exists exactly when one was paid for, and it is never anything but ACTIVE. */
  predicate SubsMatchOrders(orders: map<Id, Order>, subs: map<(Id, Id), Sub>)
  {
    && (forall r :: r in orders && Settled(orders[r]) && orders[r].contract.kind == Subscription
          ==> (orders[r].contract.buyer, orders[r].contract.creator) in subs)
    && (forall k :: k in subs ==> subs[k].status == Active && exists r :: r in orders && PaysFor(orders[r], k))
  }

  ghost predicate Inv(l: Ledger)
  {
    && OrdersOk(l.orders, l.plans)
    && MoneyConserved(l.orders, l.wallets)
    && l.purchases == PurchasesOf(l.orders)
    && l.tips == TipsOf(l.orders)
    && OnePurchasePerPost(l.purchases)
    && SubsMatchOrders(l.orders, l.subs)
  }

  /** Nothing bought and nothing owned: the tables before the first order. */
  predicate Fresh(l: Ledger)
  {
    && l.orders == map[] && l.subs == map[] && l.purchases == map[] && l.tips == map[]
    && (forall u :: u in l.wallets ==> l.wallets[u] == 0)
  }

  lemma FreshKeepsInv(l: Ledger)
    requires Fresh(l)
    ensures Inv(l)
  {
    SumOfZeros(l.wallets.Keys, Cells(l.wallets, Same()));
  }

  // ------------------------------------------------------------ preservation

  /** A new PENDING order earns nobody anything. */
  lemma PendingEarnsNothing(orders: map<Id, Order>, wallets: map<Id, int>, ref: Id, o: Order)
    requires MoneyConserved(orders, wallets) && ref !in orders && o.status == Pending
    ensures MoneyConserved(orders[ref := o], wallets)
  {
    forall u: Id ensures Held(wallets, u) == Earned(orders[ref := o], u) {
      TotalWrite(orders, ref, o, EarnedBy(u));
      assert Held(wallets, u) == Earned(orders, u);
    }
    TotalWrite(orders, ref, o, NetSettled());
  }

  lemma PendingBuysNothing(orders: map<Id, Order>, ref: Id, o: Order)
    requires ref !in orders && o.status == Pending
    ensures PurchasesOf(orders[ref := o]) == PurchasesOf(orders) && TipsOf(orders[ref := o]) == TipsOf(orders)
  {
  }

  lemma CheckoutKeepsInv(l: Ledger, ref: Id, c: Contract)
    requires Inv(l)
    ensures Inv(Checkout(l, ref, c))
  {
    hide MoneyConserved, PurchasesOf, TipsOf, OnePurchasePerPost, SubsMatchOrders;
    if ref !in l.orders && Offered(l, c) {
      PendingEarnsNothing(l.orders, l.wallets, ref, NewOrder(c));
      PendingBuysNothing(l.orders, ref, NewOrder(c));
      SubsSurvive(l.orders, l.subs, ref, NewOrder(c));
    }
  }

  /** Adding an order that pays for no new key keeps subscriptions and orders in step. */
  lemma SubsSurvive(orders: map<Id, Order>, subs: map<(Id, Id), Sub>, ref: Id, o: Order)
    requires SubsMatchOrders(orders, subs)
    requires ref in orders ==> !Settled(orders[ref])
    requires Settled(o) && o.contract.kind == Subscription ==> (o.contract.buyer, o.contract.creator) in subs
    ensures SubsMatchOrders(orders[ref := o], subs)
  {
    var orders' := orders[ref := o];
    forall k | k in subs ensures exists r :: r in orders' && PaysFor(orders'[r], k) {
      var r :| r in orders && PaysFor(orders[r], k);
      assert r in orders' && PaysFor(orders'[r], k);
    }
  }

  /** The money part of a grant: the claim and the credit move together. */
  lemma GrantConservesMoney(orders: map<Id, Order>, wallets: map<Id, int>, ref: Id)
    requires MoneyConserved(orders, wallets) && ref in orders && orders[ref].status == Pending
    ensures var o := orders[ref]; var creator := o.contract.creator;
            MoneyConserved(orders[ref := o.(status := Succeeded)], wallets[creator := Held(wallets, creator) + Net(o)])
  {
    hide Earned, EarnedBy, NetSettled, Net, Total;
    var o := orders[ref];
    var creator := o.contract.creator;
    var orders' := orders[ref := o.(status := Succeeded)];
    var wallets' := wallets[creator := Held(wallets, creator) + Net(o)];
    forall c: Id ensures Held(wallets', c) == Earned(orders', c) {
      EarnedAfterClaim(orders, ref, c);
      assert Held(wallets, c) == Earned(orders, c);
    }
    NetAfterClaim(orders, ref);
    WalletsAfterCredit(wallets, creator, Net(o));
  }

  lemma EarnedAfterClaim(orders: map<Id, Order>, ref: Id, creator: Id)
    requires ref in orders && orders[ref].status == Pending
    ensures Earned(orders[ref := orders[ref].(status := Succeeded)], creator)
         == Earned(orders, creator) + (if orders[ref].contract.creator == creator then Net(orders[ref]) else 0)
  {
    TotalWrite(orders, ref, orders[ref].(status := Succeeded), EarnedBy(creator));
  }

  lemma NetAfterClaim(orders: map<Id, Order>, ref: Id)
    requires ref in orders && orders[ref].status == Pending
    ensures Total(orders[ref := orders[ref].(status := Succeeded)], NetSettled())
      == Total(orders, NetSettled()) + Net(orders[ref])
  {
    TotalWrite(orders, ref, orders[ref].(status := Succeeded), NetSettled());
  }

  lemma WalletsAfterCredit(wallets: map<Id, int>, user: Id, cents: int)
    ensures Total(wallets[user := Held(wallets, user) + cents], Same()) == Total(wallets, Same()) + cents
  {
    TotalWrite(wallets, user, Held(wallets, user) + cents, Same());
  }

  /** Inserting a row that breaks no unique key keeps the keys unique. */
  lemma InsertKeepsUnique(l: Ledger, ref: Id, c: Contract)
    requires OnePurchasePerPost(l.purchases) && !ItemTaken(l, ref, c)
    ensures OnePurchasePerPost(l.purchases[ref := PurchaseFor(c)])
  {
  }

  lemma PurchasesOfGrant(orders: map<Id, Order>, ref: Id)
    requires ref in orders && orders[ref].status == Pending
    ensures PurchasesOf(orders[ref := orders[ref].(status := Succeeded)])
         == if BuysItem(orders[ref].contract) then PurchasesOf(orders)[ref := PurchaseFor(orders[ref].contract)]
            else PurchasesOf(orders)
  {
  }

  lemma TipsOfGrant(orders: map<Id, Order>, ref: Id)
    requires ref in orders && orders[ref].status == Pending
    ensures TipsOf(orders[ref := orders[ref].(status := Succeeded)])
         == if orders[ref].contract.kind == Tip then TipsOf(orders)[ref := TipFor(orders[ref].contract)]
            else TipsOf(orders)
  {
  }

  /** A paid subscription order leaves an ACTIVE subscription behind. */
  lemma GrantKeepsSubs(l: Ledger, ref: Id, first: Instant, second: Instant)
    requires Inv(l) && ref in l.orders && l.orders[ref].status == Pending
    ensures var o := l.orders[ref];
            SubsMatchOrders(l.orders[ref := o.(status := Succeeded)], ExtendSub(l, o.contract, first, second).subs)
  {
    hide MoneyConserved, PurchasesOf, TipsOf, OnePurchasePerPost, NextEnd, MonthsOf, PurchaseFor;
    var o := l.orders[ref];
    var orders' := l.orders[ref := o.(status := Succeeded)];
    var subs' := ExtendSub(l, o.contract, first, second).subs;
    forall k | k in subs' ensures subs'[k].status == Active && exists r :: r in orders' && PaysFor(orders'[r], k) {
      if k in l.subs {
        var r :| r in l.orders && PaysFor(l.orders[r], k);
        assert r in orders' && PaysFor(orders'[r], k);
      } else {
        assert PaysFor(orders'[ref], k);
      }
    }
  }

  lemma GrantKeepsInv(l: Ledger, ref: Id, first: Instant, second: Instant)
    requires Inv(l) && ref in l.orders && Grant(l, ref, first, second).Some?
    ensures Inv(Grant(l, ref, first, second).value)
  {
    hide MoneyConserved, PurchasesOf, TipsOf, OnePurchasePerPost, SubsMatchOrders, ItemTaken, NextEnd;
    if l.orders[ref].status == Pending {
      var c := l.orders[ref].contract;
      GrantConservesMoney(l.orders, l.wallets, ref);
      PurchasesOfGrant(l.orders, ref);
      TipsOfGrant(l.orders, ref);
      if BuysItem(c) {
        var before := ExtendSub(Credit(Claim(l, ref), c.creator, Net(l.orders[ref])), c, first, second);
        assert before.purchases == l.purchases;
        InsertKeepsUnique(before, ref, c);
      }
      GrantKeepsSubs(l, ref, first, second);
    }
  }

  /** No plan disappears, and a plan id never changes hands or interval. */
  lemma PlansAreStable(l: Ledger, op: Op, id: Id)
    requires id in l.plans
    ensures id in DoOp(l, op).plans
    ensures DoOp(l, op).plans[id].interval == l.plans[id].interval
      && DoOp(l, op).plans[id].creator == l.plans[id].creator
  {
    hide HasPlan, Grant, Offered;
    match op
    case OGrant(ref, first, second) =>
      if ref in l.orders && Grant(l, ref, first, second).Some? { GrantKeepsPlans(l, ref, first, second); }
    case _ =>
  }

  lemma GrantKeepsPlans(l: Ledger, ref: Id, first: Instant, second: Instant)
    requires ref in l.orders && Grant(l, ref, first, second).Some?
    ensures Grant(l, ref, first, second).value.plans == l.plans
  {
    hide NextEnd, ItemTaken;
  }

  predicate PlansKept(before: map<Id, Plan>, after: map<Id, Plan>)
  {
    forall id :: id in before ==>
      id in after && after[id].interval == before[id].interval && after[id].creator == before[id].creator
  }

  lemma OpKeepsPlans(l: Ledger, op: Op)
    ensures PlansKept(l.plans, DoOp(l, op).plans)
  {
    hide DoOp;
    forall id | id in l.plans
      ensures id in DoOp(l, op).plans && DoOp(l, op).plans[id].interval == l.plans[id].interval
        && DoOp(l, op).plans[id].creator == l.plans[id].creator
    {
      PlansAreStable(l, op, id);
    }
  }

  /** Plans that keep their intervals do not change what was bought. */
  lemma MonthsOfKeptPlans(orders: map<Id, Order>, plans: map<Id, Plan>, plans': map<Id, Plan>, key: (Id, Id))
    requires OrdersOk(orders, plans) && PlansKept(plans, plans')
    ensures Total(orders, MonthsFrom(plans, key)) == Total(orders, MonthsFrom(plans', key))
  {
    forall r | r in orders.Keys
      ensures Cells(orders, MonthsFrom(plans, key))(r) == Cells(orders, MonthsFrom(plans', key))(r)
    {
      assert ContractOk(plans, orders[r].contract);
    }
    SumAgree(orders.Keys, Cells(orders, MonthsFrom(plans, key)), Cells(orders, MonthsFrom(plans', key)));
  }

  lemma OpenWalletKeepsMoney(orders: map<Id, Order>, wallets: map<Id, int>, user: Id)
    requires MoneyConserved(orders, wallets) && user !in wallets
    ensures MoneyConserved(orders, wallets[user := 0])
  {
    TotalWrite(wallets, user, 0, Same());
    assert forall c: Id :: Held(wallets[user := 0], c) == Held(wallets, c);
  }

  /** Every operation keeps the invariant. */
  lemma OpKeepsInv(l: Ledger, op: Op)
    requires Inv(l)
    ensures Inv(DoOp(l, op))
  {
    hide MoneyConserved, PurchasesOf, TipsOf, OnePurchasePerPost, SubsMatchOrders, OrdersOk;
    hide Checkout, Grant, CancelSub, UpsertPlan, DeactivatePlan;
    match op
    case OCheckout(ref, c) => CheckoutKeepsInv(l, ref, c);
    case OGrant(ref, first, second) =>
      if ref in l.orders && Grant(l, ref, first, second).Some? {
        GrantKeepsInv(l, ref, first, second);
      }
    case OOpenWallet(user) =>
      if user !in l.wallets { OpenWalletKeepsMoney(l.orders, l.wallets, user); }
    case OMark(provider, event) =>
    case OCancel(key) => CancelKeepsInv(l, key);
    case OUpsertPlan(id, _, _, _, _, _) => PlanEditKeepsInv(l, op);
    case ODeactivatePlan(id, _) => PlanEditKeepsInv(l, op);
  }

  lemma CancelKeepsInv(l: Ledger, key: (Id, Id))
    requires Inv(l)
    ensures Inv(CancelSub(l, key))
  {
    hide MoneyConserved, PurchasesOf, TipsOf, OnePurchasePerPost, OrdersOk;
  }

  lemma PlanEditKeepsInv(l: Ledger, op: Op)
    requires Inv(l) && (op.OUpsertPlan? || op.ODeactivatePlan?)
    ensures Inv(DoOp(l, op))
  {
    hide MoneyConserved, PurchasesOf, TipsOf, OnePurchasePerPost, SubsMatchOrders, HasPlan;
  }

  lemma {:induction false} ReplayKeepsInv(l: Ledger, ops: seq<Op>)
    requires Inv(l)
    ensures Inv(Replay(l, ops))
    decreases |ops|
  {
    if ops != [] {
      ReplayKeepsInv(l, ops[..|ops| - 1]);
      OpKeepsInv(Replay(l, ops[..|ops| - 1]), ops[|ops| - 1]);
    }
  }

  /** The admin overview's gross revenue less platform fees is what all wallets hold together. */
  lemma OverviewBalances(l: Ledger)
    requires Inv(l)
    ensures Total(l.orders, GrossSettled()) - Total(l.orders, FeeSettled()) == Total(l.wallets, Same())
  {
    SumAdds(l.orders.Keys, Cells(l.orders, NetSettled()), Cells(l.orders, FeeSettled()),
            Cells(l.orders, GrossSettled()));
  }
}
