/**
 The payment service as it runs on its tables: checkouts, webhook handlers, fulfilment with rollback,
 cancellation and plan management. Each method is tied to the operation on ledgers that it carries out.
 The order reference and plan id arguments stand for freshly generated identifiers.
 */
module Payments {
  import opened Wrappers
  import opened Calendar
  import opened Ledger
  import opened Deliveries
  import opened Access
  import opened Contests
  import opened Cents
  import opened Receipts

  datatype Refusal =
    | PlanNotFound | OwnPlan | AlreadySubscribed
    | ItemNotFound | NotForSale | AlreadyOwner | AlreadyUnlocked
    | CreatorNotFound | OwnTip | ReferenceClash | SubscriptionNotFound

  datatype PostRow = PostRow(author: Id, access: ContentAccess, priceCents: Option<int>, published: bool, deleted: bool)

  datatype MediaRow = MediaRow(owner: Id, access: ContentAccess, priceCents: Option<int>, deleted: bool)

  datatype NowStatus = Finished | Confirmed | OtherStatus

  /** The fields that `handleNowPaymentsEvent` reads. */
  datatype NowBody = NowBody(status: NowStatus, orderId: Option<Id>, paymentId: Option<Id>, priceAmount: Reported)

  datatype PaypalType = OrderApproved | CaptureCompleted | OtherType

  /** The fields that `handlePaypalEvent` reads. */
  datatype PaypalBody = PaypalBody(eventType: PaypalType, id: Option<Id>, customId: Option<Id>, amount: Reported)

  /** The handlers' replies; Thrown is the error a rolled back transaction raises. */
  datatype Ack = Intermediate | Ignored | AlreadySeen | Received | Thrown

  /** The settled delivery that a NOWPayments event amounts to, if any. */
  function NowDelivery(body: NowBody): Option<Delivery>
  {
    if body.status == OtherStatus || body.orderId.None? then None
    else Some(Delivery(NowPayments, if body.paymentId.Some? then body.paymentId.value else body.orderId.value,
                       body.orderId, body.priceAmount))
  }

  function PaypalDelivery(body: PaypalBody): Option<Delivery>
  {
    if body.eventType != CaptureCompleted || body.id.None? then None
    else Some(Delivery(PayPal, body.id.value, body.customId, body.amount))
  }

  function AfterDelivery(l: Ledger, d: Option<Delivery>, first: Instant, second: Instant): Ledger
  {
    if d.None? then l else Handle(l, Timed(d.value, first, second))
  }

  lemma AfterDeliveryKeepsInv(l: Ledger, d: Option<Delivery>, first: Instant, second: Instant)
    ensures Inv(l) ==> Inv(AfterDelivery(l, d, first, second))
  {
    hide Inv;
    if Inv(l) && d.Some? { HandleKeepsInv(l, Timed(d.value, first, second)); }
  }

  lemma AfterDeliverySays(l: Ledger, d: Option<Delivery>, first: Instant, second: Instant)
    ensures Inv(l) && d.Some? ==>
      EventDoes(l, (d.value.provider, d.value.event), d.value.order, d.value.reported, first, second,
                AfterDelivery(l, d, first, second))
  {
    hide Inv, EventDoes, Handle;
    if Inv(l) && d.Some? { HandleDoesIt(l, Timed(d.value, first, second)); }
  }

  /** The transaction of this order would hit a unique key. */
  predicate Aborts(l: Ledger, ref: Id, reported: Reported)
  {
    && ref in l.orders && l.orders[ref].status == Pending && !Mismatch(reported, l.orders[ref].contract.amountCents)
    && (BuysItem(l.orders[ref].contract) ==> ItemTaken(l, ref, l.orders[ref].contract))
    && (!BuysItem(l.orders[ref].contract) ==> l.orders[ref].contract.kind == Tip && ref in l.tips)
  }

  lemma GrantAborts(l: Ledger, ref: Id, first: Instant, second: Instant)
    requires ref in l.orders
    ensures forall reported | !Mismatch(reported, l.orders[ref].contract.amountCents) ::
      Grant(l, ref, first, second).None? <==> Aborts(l, ref, reported)
  {
    hide Mismatch, NextEnd;
  }

  /** A transaction aborts exactly when it would buy a post for the second time. */
  lemma AbortsMeansBought(l: Ledger, ref: Id, reported: Reported)
    requires Inv(l)
    ensures Aborts(l, ref, reported) <==>
      && ref in l.orders && l.orders[ref].status == Pending && LetThrough(reported, l.orders[ref].contract.amountCents)
      && AlreadyBought(l.orders, l.orders[ref].contract)
  {
    if ref in l.orders && l.orders[ref].status == Pending {
      var c := l.orders[ref].contract;
      NoRowYet(l, ref);
      ContractIsOk(l, ref);
      OwnedMeansBought(l, c);
      GuardIsAsSaid(reported, c.amountCents);
      hide Inv, Mismatch, LetThrough, AlreadyBought;
    }
  }

  lemma AfterNewDelivery(l: Ledger, d: Delivery, first: Instant, second: Instant)
    ensures AfterDelivery(l, Some(d), first, second) ==
      if Key(d) in l.events then l
      else if d.order.None? then MarkEvent(l, d.provider, d.event)
      else Fulfil(MarkEvent(l, d.provider, d.event), d.order.value, d.reported, first, second)
  {
    hide Fulfil;
  }

  lemma MarkingAbortsNothing(l: Ledger, provider: Provider, event: Id, ref: Id, reported: Reported)
    ensures Aborts(MarkEvent(l, provider, event), ref, reported) <==> Aborts(l, ref, reported)
  {
    hide Mismatch;
  }

  /** `Math.round(price * (1 - pct / 100))`, computed exactly: the nearest cent, halves up. */
  function Discounted(priceCents: int, pct: int): int
  {
    (2 * priceCents * (100 - pct) + 100) / 200
  }

  function PlanContract(plans: map<Id, Plan>, planId: Id, buyer: Id, provider: Provider): Contract
    requires planId in plans
  {
    Contract(Subscription, buyer, plans[planId].creator, Some(planId), None, None, "", false,
             Discounted(plans[planId].priceCents, plans[planId].discountPct), "USD", provider)
  }

  function PostContract(post: PostRow, id: Id, buyer: Id, provider: Provider): Contract
    requires post.priceCents.Some?
  {
    Contract(Purchase, buyer, post.author, None, Some(id), None, "", false, post.priceCents.value, "USD", provider)
  }

  function MediaContract(item: MediaRow, id: Id, buyer: Id, provider: Provider): Contract
    requires item.priceCents.Some?
  {
    Contract(Purchase, buyer, item.owner, None, None, Some(id), "", false, item.priceCents.value, "USD", provider)
  }

  function TipContract(sender: Id, creator: Id, amountCents: int, message: string, anonymous: bool,
                       provider: Provider): Contract
  {
    Contract(Tip, sender, creator, None, None, None, message, anonymous, amountCents, "USD", provider)
  }

  /** Nothing stops a buyer from opening two checkouts for one post, and those compete. */
  lemma TwoPostCheckoutsCompete(l: Ledger, post: PostRow, id: Id, buyer: Id, first: Provider, second: Provider,
                                ref: Id, ref': Id)
    requires post.priceCents.Some? && post.author != buyer && !HasPostPurchase(l, Some(buyer), id)
    requires ref != ref' && ref !in l.orders && ref' !in l.orders
    ensures var once := Checkout(l, ref, PostContract(post, id, buyer, first));
            var twice := Checkout(once, ref', PostContract(post, id, buyer, second));
            !HasPostPurchase(once, Some(buyer), id) && Rivals(twice, ref, ref') && Contested(twice)
  {
    TwoCheckoutsCompete(l, ref, PostContract(post, id, buyer, first), ref', PostContract(post, id, buyer, second));
  }

  /** The discounted price is the nearest cent to the exact one, and stays between nothing and the full price. */
  lemma DiscountIsNearest(priceCents: int, pct: int)
    ensures -50 <= 100 * Discounted(priceCents, pct) - priceCents * (100 - pct) <= 50
    ensures priceCents >= 0 && 0 <= pct <= 100 ==> 0 <= Discounted(priceCents, pct) <= priceCents
  {
    var exact := priceCents * (100 - pct);
    assert 2 * priceCents * (100 - pct) == 2 * exact;
    NearestHundredth(exact);
    if priceCents >= 0 && 0 <= pct <= 100 {
      ShareOf(priceCents, 100 - pct);
      RoundedShare(exact, priceCents);
    }
  }

  /** The exact product of two reals. */
  function Times(x: real, y: real): real { x * y }

  /**
   The discount computed in doubles is also a nearest cent to the exact price, so it is the one above unless the
   exact price lies half way between two cents.
   */
  lemma DiscountFromDoubles(priceCents: nat, pct: nat, ratio: real, factor: real, product: real)
    requires priceCents < 0x8000_0000 && pct <= 100
    requires Rounded(pct as real / 100.0, ratio) && Rounded(1.0 - ratio, factor)
      && Rounded(Times(priceCents as real, factor), product)
    ensures -50 <= 100 * MathRound(product) - priceCents * (100 - pct) <= 50
    ensures priceCents * (100 - pct) % 100 != 50 ==> MathRound(product) == Discounted(priceCents, pct)
  {
    hide Times, Rounded, AbsReal, MathRound, Discounted;
    FactorError(pct, ratio, factor);
    SharedOut(priceCents, 100 - pct);
    ProductError(priceCents as real, (100 - pct) as real / 100.0, factor, product);
    RoundsNear(priceCents * (100 - pct), product);
    DiscountIsNearest(priceCents, pct);
    NearestIsUnique(priceCents * (100 - pct), MathRound(product), Discounted(priceCents, pct));
  }

  lemma FactorError(pct: nat, ratio: real, factor: real)
    requires pct <= 100 && Rounded(pct as real / 100.0, ratio) && Rounded(1.0 - ratio, factor)
    ensures AbsReal(factor - (100 - pct) as real / 100.0) <= 0.0000000000000005
  {
  }

  lemma SharedOut(n: nat, pct: nat)
    requires pct <= 100
    ensures 100.0 * Times(n as real, pct as real / 100.0) == (n * pct) as real
    ensures 0.0 <= Times(n as real, pct as real / 100.0) <= n as real
  {
    ShareOf(n, pct);
    assert n as real * pct as real == (n * pct) as real;
  }

  lemma ProductError(price: real, share: real, factor: real, product: real)
    requires 0.0 <= price <= 2147483648.0 && 0.0 <= Times(price, share) <= price
    requires AbsReal(factor - share) <= 0.0000000000000005 && Rounded(Times(price, factor), product)
    ensures AbsReal(100.0 * product - 100.0 * Times(price, share)) <= 0.001
  {
    ScaledError(price, factor, share);
    hide Times;
  }

  lemma ScaledError(price: real, factor: real, share: real)
    requires 0.0 <= price <= 2147483648.0 && AbsReal(factor - share) <= 0.0000000000000005
    ensures AbsReal(Times(price, factor) - Times(price, share)) <= 0.000002
  {
    var error := AbsReal(factor - share);
    assert price * factor - price * share == price * (factor - share);
    assert price * error <= 2147483648.0 * error;
    assert AbsReal(price * (factor - share)) == price * error;
  }

  lemma RoundsNear(exact: int, product: real)
    requires AbsReal(100.0 * product - exact as real) <= 0.001
    ensures -50 <= 100 * MathRound(product) - exact <= 50
  {
  }

  lemma NearestIsUnique(x: int, a: int, b: int)
    requires -50 <= 100 * a - x <= 50 && -50 <= 100 * b - x <= 50
    ensures x % 100 != 50 ==> a == b
  {
  }

  lemma NearestHundredth(x: int)
    ensures -50 <= 100 * ((2 * x + 100) / 200) - x <= 50
  {
  }

  lemma ShareOf(n: nat, pct: nat)
    requires pct <= 100
    ensures 0 <= n * pct <= 100 * n
  {
    assert n * pct + n * (100 - pct) == 100 * n;
  }

  lemma RoundedShare(x: int, n: nat)
    requires 0 <= x <= 100 * n
    ensures 0 <= (2 * x + 100) / 200 <= n
  {
  }

  class PaymentsService {
    var orders: map<Id, Order>
    var events: set<(Provider, Id)>
    var wallets: map<Id, int>
    var plans: map<Id, Plan>
    var subs: map<(Id, Id), Sub>
    var purchases: map<Id, PurchaseRow>
    var tips: map<Id, TipRow>
    var posts: map<Id, PostRow>
    var media: map<Id, MediaRow>
    var creators: set<Id>

    ghost function Tables(): Ledger
      reads this
    {
      Ledger(orders, events, wallets, plans, subs, purchases, tips)
    }

    constructor ()
      ensures Fresh(Tables()) && Inv(Tables())
    {
      orders, events, wallets, plans := map[], {}, map[], map[];
      subs, purchases, tips := map[], map[], map[];
      posts, media, creators := map[], map[], {};
      new;
      FreshKeepsInv(Tables());
    }

    // ---------------------------------------------------------- checkout

    method CreateCheckout(c: Contract, ref: Id) returns (r: Result<Id, Refusal>)
      requires Offered(Tables(), c)
      modifies `orders
      ensures r == if ref in old(orders) then Err(ReferenceClash) else Ok(ref)
      ensures Tables() == Checkout(old(Tables()), ref, c)
      ensures r.Ok? ==> OrderPlaced(old(orders), ref, orders) && orders[ref].contract == c
      ensures old(Inv(Tables())) ==> Inv(Tables())
    {
      hide Inv;
      FeeAndShare(c.amountCents);
      if Inv(Tables()) { OpKeepsInv(Tables(), OCheckout(ref, c)); }
      var feeCents := c.amountCents * PLATFORM_FEE_PCT / 100;
      if ref in orders { return Err(ReferenceClash); }
      orders := orders[ref := Order(c, feeCents, Pending)];
      return Ok(ref);
    }

    /** Opens a subscription checkout at the plan's discounted price. */
    method StartCheckout(buyer: Id, planId: Id, provider: Provider, ref: Id, now: Instant)
      returns (r: Result<Id, Refusal>)
      modifies `orders
      ensures r == if planId !in plans || !plans[planId].active then Err(PlanNotFound)
                   else if plans[planId].creator == buyer then Err(OwnPlan)
                   else if (buyer, plans[planId].creator) in subs
                     && subs[(buyer, plans[planId].creator)].status in {Active, Trialing}
                     && subs[(buyer, plans[planId].creator)].periodEnd > now then Err(AlreadySubscribed)
                   else if ref in old(orders) then Err(ReferenceClash)
                   else Ok(ref)
      ensures r.Err? ==> Tables() == old(Tables())
      ensures r.Ok? ==> Tables() == Checkout(old(Tables()), ref, PlanContract(plans, planId, buyer, provider))
      ensures r.Ok? ==> Offered(old(Tables()), PlanContract(plans, planId, buyer, provider))
      ensures r.Ok? ==>
        OrderPlaced(old(orders), ref, orders) &&
        var c, plan := orders[ref].contract, plans[planId];
        && c.kind == Subscription && c.buyer == buyer && c.creator == plan.creator && c.plan == Some(planId)
        && c.provider == provider && c.currency == "USD"
        && -50 <= 100 * c.amountCents - plan.priceCents * (100 - plan.discountPct) <= 50
      ensures old(Inv(Tables())) ==> Inv(Tables())
    {
      hide Inv;
      if planId !in plans || !plans[planId].active { return Err(PlanNotFound); }
      var plan := plans[planId];
      if plan.creator == buyer { return Err(OwnPlan); }
      var key := (buyer, plan.creator);
      if key in subs && (subs[key].status == Active || subs[key].status == Trialing) && subs[key].periodEnd > now {
        return Err(AlreadySubscribed);
      }
      DiscountIsNearest(plan.priceCents, plan.discountPct);
      var discounted := Discounted(plan.priceCents, plan.discountPct);
      var c := Contract(Subscription, buyer, plan.creator, Some(planId), None, None, "", false, discounted, "USD",
                        provider);
      r := CreateCheckout(c, ref);
    }

    /** Opens a checkout for one post that is for sale and not unlocked yet. */
    method CreatePostCheckout(buyer: Id, id: Id, provider: Provider, ref: Id) returns (r: Result<Id, Refusal>)
      modifies `orders
      ensures r == if id !in posts || !posts[id].published || posts[id].deleted then Err(ItemNotFound)
                   else if posts[id].access != PayPerView
                     || posts[id].priceCents in {None, Some(0)} then Err(NotForSale)
                   else if posts[id].author == buyer then Err(AlreadyOwner)
                   else if exists x :: x in purchases && purchases[x].buyer == buyer && purchases[x].post == Some(id)
                     then Err(AlreadyUnlocked)
                   else if ref in old(orders) then Err(ReferenceClash)
                   else Ok(ref)
      ensures r.Err? ==> Tables() == old(Tables())
      ensures r.Ok? ==> Tables() == Checkout(old(Tables()), ref, PostContract(posts[id], id, buyer, provider))
      ensures r.Ok? ==>
        OrderPlaced(old(orders), ref, orders) &&
        var c := orders[ref].contract;
        && c.kind == Purchase && c.buyer == buyer && c.creator == posts[id].author
        && c.post == Some(id) && c.media == None && Some(c.amountCents) == posts[id].priceCents
        && c.provider == provider && c.currency == "USD"
      ensures old(Inv(Tables())) ==> Inv(Tables())
    {
      hide Inv;
      if id !in posts || !posts[id].published || posts[id].deleted { return Err(ItemNotFound); }
      var post := posts[id];
      if post.access != PayPerView || post.priceCents.None? || post.priceCents.value == 0 { return Err(NotForSale); }
      if post.author == buyer { return Err(AlreadyOwner); }
      if exists r :: r in purchases && purchases[r].buyer == buyer && purchases[r].post == Some(id) {
        return Err(AlreadyUnlocked);
      }
      var c := Contract(Purchase, buyer, post.author, None, Some(id), None, "", false, post.priceCents.value, "USD",
                        provider);
      r := CreateCheckout(c, ref);
    }

    method CreateMediaCheckout(buyer: Id, id: Id, provider: Provider, ref: Id) returns (r: Result<Id, Refusal>)
      modifies `orders
      ensures r == if id !in media || media[id].deleted then Err(ItemNotFound)
                   else if media[id].access != PayPerView
                     || media[id].priceCents in {None, Some(0)} then Err(NotForSale)
                   else if media[id].owner == buyer then Err(AlreadyOwner)
                   else if exists x :: x in purchases && purchases[x].buyer == buyer && purchases[x].media == Some(id)
                     then Err(AlreadyUnlocked)
                   else if ref in old(orders) then Err(ReferenceClash)
                   else Ok(ref)
      ensures r.Err? ==> Tables() == old(Tables())
      ensures r.Ok? ==> Tables() == Checkout(old(Tables()), ref, MediaContract(media[id], id, buyer, provider))
      ensures r.Ok? ==>
        OrderPlaced(old(orders), ref, orders) &&
        var c := orders[ref].contract;
        && c.kind == Purchase && c.buyer == buyer && c.creator == media[id].owner
        && c.post == None && c.media == Some(id) && Some(c.amountCents) == media[id].priceCents
        && c.provider == provider && c.currency == "USD"
      ensures old(Inv(Tables())) ==> Inv(Tables())
    {
      hide Inv;
      if id !in media || media[id].deleted { return Err(ItemNotFound); }
      var item := media[id];
      if item.access != PayPerView || item.priceCents.None? || item.priceCents.value == 0 { return Err(NotForSale); }
      if item.owner == buyer { return Err(AlreadyOwner); }
      if exists r :: r in purchases && purchases[r].buyer == buyer && purchases[r].media == Some(id) {
        return Err(AlreadyUnlocked);
      }
      var c := Contract(Purchase, buyer, item.owner, None, None, Some(id), "", false, item.priceCents.value, "USD",
                        provider);
      r := CreateCheckout(c, ref);
    }

    method StartTipCheckout(sender: Id, creator: Id, amountCents: int, message: string, anonymous: bool,
                            provider: Provider, ref: Id)
      returns (r: Result<Id, Refusal>)
      modifies `orders
      ensures r == if sender == creator then Err(OwnTip)
                   else if creator !in creators then Err(CreatorNotFound)
                   else if ref in old(orders) then Err(ReferenceClash)
                   else Ok(ref)
      ensures r.Err? ==> Tables() == old(Tables())
      ensures r.Ok? ==>
        Tables() == Checkout(old(Tables()), ref,
                             TipContract(sender, creator, amountCents, message, anonymous, provider))
      ensures r.Ok? ==>
        OrderPlaced(old(orders), ref, orders) &&
        var c := orders[ref].contract;
        && c.kind == Tip && c.buyer == sender && c.creator == creator && c.amountCents == amountCents
        && c.message == message && c.anonymous == anonymous && c.provider == provider && c.currency == "USD"
      ensures old(Inv(Tables())) ==> Inv(Tables())
    {
      hide Inv;
      if sender == creator { return Err(OwnTip); }
      if creator !in creators { return Err(CreatorNotFound); }
      var c := Contract(Tip, sender, creator, None, None, None, message, anonymous, amountCents, "USD", provider);
      r := CreateCheckout(c, ref);
    }

    // ---------------------------------------------------------- webhooks

    /** Records an event id; false means that it was seen before. */
    method MarkEventOnce(provider: Provider, event: Id) returns (first: bool)
      modifies `events
      ensures first <==> (provider, event) !in old(events)
      ensures events == old(events) + {(provider, event)}
      ensures Tables() == MarkEvent(old(Tables()), provider, event)
    {
      first := (provider, event) !in events;
      if first {
        events := events + {(provider, event)};
      }
    }

    method HandleNowPaymentsEvent(body: NowBody, first: Instant, second: Instant) returns (ack: Ack)
      modifies `orders, `events, `wallets, `subs, `purchases, `tips
      ensures Tables() == AfterDelivery(old(Tables()), NowDelivery(body), first, second)
      ensures ack == if body.status == OtherStatus then Intermediate
                     else if body.orderId.None? then Ignored
                     else if (NowPayments, if body.paymentId.Some? then body.paymentId.value else body.orderId.value)
                       in old(events) then AlreadySeen
                     else if Aborts(old(Tables()), body.orderId.value, body.priceAmount) then Thrown else Received
      ensures body.status == OtherStatus || body.orderId.None? ==> Tables() == old(Tables())
      ensures old(Inv(Tables())) && body.status != OtherStatus && body.orderId.Some? ==>
        var id := if body.paymentId.Some? then body.paymentId.value else body.orderId.value;
        EventDoes(old(Tables()), (NowPayments, id), body.orderId, body.priceAmount, first, second, Tables())
      ensures old(Inv(Tables())) ==> Inv(Tables())
    {
      hide Inv, Fulfil, Aborts, EventDoes;
      AfterDeliverySays(Tables(), NowDelivery(body), first, second);
      AfterDeliveryKeepsInv(Tables(), NowDelivery(body), first, second);
      ghost var before, d := Tables(), NowDelivery(body);
      if body.status != Finished && body.status != Confirmed { return Intermediate; }
      if body.orderId.None? { return Ignored; }
      var event := if body.paymentId.Some? then body.paymentId.value else body.orderId.value;
      assert d == Some(Delivery(NowPayments, event, body.orderId, body.priceAmount));
      AfterNewDelivery(before, d.value, first, second);
      hide NowDelivery, AfterDelivery;
      var isNew := MarkEventOnce(NowPayments, event);
      if !isNew {
        assert Tables() == before;
        return AlreadySeen;
      }
      assert Tables() == MarkEvent(before, NowPayments, event);
      MarkingAbortsNothing(before, NowPayments, event, body.orderId.value, body.priceAmount);
      hide MarkEvent;
      var threw := FulfillOrder(body.orderId.value, body.priceAmount, first, second);
      assert Tables() == AfterDelivery(before, d, first, second);
      return if threw then Thrown else Received;
    }

    method HandlePaypalEvent(body: PaypalBody, first: Instant, second: Instant) returns (ack: Ack)
      modifies `orders, `events, `wallets, `subs, `purchases, `tips
      ensures Tables() == AfterDelivery(old(Tables()), PaypalDelivery(body), first, second)
      ensures ack == if body.eventType == OrderApproved then Received
                     else if body.eventType == OtherType then Ignored
                     else if body.id.None? || (PayPal, body.id.value) in old(events) then AlreadySeen
                     else if body.customId.Some? && Aborts(old(Tables()), body.customId.value, body.amount) then Thrown
                       else Received
      ensures body.eventType != CaptureCompleted || body.id.None? ==> Tables() == old(Tables())
      ensures old(Inv(Tables())) && body.eventType == CaptureCompleted && body.id.Some? ==>
        EventDoes(old(Tables()), (PayPal, body.id.value), body.customId, body.amount, first, second, Tables())
      ensures old(Inv(Tables())) ==> Inv(Tables())
    {
      hide Inv, Fulfil, Aborts, EventDoes;
      AfterDeliverySays(Tables(), PaypalDelivery(body), first, second);
      AfterDeliveryKeepsInv(Tables(), PaypalDelivery(body), first, second);
      if body.eventType == OrderApproved { return Received; }
      if body.eventType != CaptureCompleted { return Ignored; }
      if body.id.None? { return AlreadySeen; }
      var isNew := MarkEventOnce(PayPal, body.id.value);
      if !isNew {
        assert Tables() == old(Tables());
        return AlreadySeen;
      }
      if body.customId.Some? {
        MarkingAbortsNothing(old(Tables()), PayPal, body.id.value, body.customId.value, body.amount);
        var threw := FulfillOrder(body.customId.value, body.amount, first, second);
        return if threw then Thrown else Received;
      }
      return Received;
    }

    /** Extends or starts the subscription bought by an order, inside the fulfilment transaction. */
    method ExtendSubscription(m: Contract, first: Instant, second: Instant)
      requires m.kind == Subscription && m.plan.Some?
      modifies `subs
      ensures Tables() == ExtendSub(old(Tables()), m, first, second)
      ensures if m.plan.value in plans then SubWritten(old(subs), plans, m, first, second, subs) else subs == old(subs)
    {
      hide SubWritten;
      if m.plan.value in plans { ExtensionWrites(Tables(), m, first, second); }
      if m.plan.value in plans {
        var plan := plans[m.plan.value];
        var months := if plan.interval == Monthly then 1 else if plan.interval == Quarterly then 3 else 12;
        var key := (m.buyer, m.creator);
        var base := second;
        if key in subs && subs[key].periodEnd > first {
          base := subs[key].periodEnd;
        }
        var periodEnd := AddMonths(base, months);
        if key in subs {
          subs := subs[key := subs[key].(status := Active, plan := m.plan.value, periodEnd := periodEnd,
                                         cancelAtPeriodEnd := false)];
        } else {
          subs := subs[key := Sub(Active, m.plan.value, m.provider, periodEnd, false)];
        }
      }
    }

    /** Reconciles a settled payment with its PENDING order; true means that the transaction rolled back. */
    method FulfillOrder(ref: Id, reported: Reported, first: Instant, second: Instant) returns (threw: bool)
      modifies `orders, `wallets, `subs, `purchases, `tips
      ensures Tables() == Fulfil(old(Tables()), ref, reported, first, second)
      ensures threw <==> Aborts(old(Tables()), ref, reported)
      ensures old(Inv(Tables())) ==> FulfilDoes(old(Tables()), ref, reported, first, second, Tables())
    {
      hide Grant, Mismatch, Inv, FulfilDoes;
      if Inv(Tables()) { FulfilDoesIt(Tables(), ref, reported, first, second); }
      if ref !in orders { return false; }
      var pending := orders[ref];
      if pending.status == Succeeded { return false; }
      if Mismatch(reported, pending.contract.amountCents) { return false; }
      ghost var before := Tables();
      GrantAborts(before, ref, first, second);
      var committed := FulfilmentTransaction(ref, pending, first, second);
      return !committed;
    }

    /** The fulfilment transaction; false means that a unique key refused its insert and everything was undone. */
    method FulfilmentTransaction(ref: Id, pending: Order, first: Instant, second: Instant) returns (committed: bool)
      requires ref in orders && pending == orders[ref]
      modifies `orders, `wallets, `subs, `purchases, `tips
      ensures Grant(old(Tables()), ref, first, second) == if committed then Some(Tables()) else None
      ensures !committed ==> Tables() == old(Tables())
    {
      hide NextEnd, AddMonths, UpsertedSub, SubWritten, PurchaseWritten, TipWritten, ItemTaken;
      var m := pending.contract;
      var creatorCents := m.amountCents - pending.feeCents;
      if orders[ref].status != Pending { return true; }
      var orders0, wallets0, subs0 := orders, wallets, subs;
      orders := orders[ref := orders[ref].(status := Succeeded)];
      wallets := wallets[m.creator := (if m.creator in wallets then wallets[m.creator] else 0) + creatorCents];
      ghost var credited := Tables();
      if m.kind == Subscription && m.plan.Some? {
        ExtendSubscription(m, first, second);
      }
      assert Tables() == ExtendSub(credited, m, first, second);
      hide ExtendSub;
      committed := InsertItem(ref, m);
      if !committed {
        orders, wallets, subs := orders0, wallets0, subs0;
      }
    }

    /** Inserts the Purchase or Tip row of an order; false means that a unique key refused it. */
    method InsertItem(ref: Id, m: Contract) returns (ok: bool)
      modifies `purchases, `tips
      ensures AddItem(old(Tables()), ref, m) == if ok then Some(Tables()) else None
      ensures !ok ==> Tables() == old(Tables())
      ensures ok && m.kind == Purchase && (m.post.Some? || m.media.Some?) ==>
        PurchaseWritten(old(purchases), ref, m, purchases)
      ensures ok && m.kind == Tip ==> TipWritten(old(tips), ref, m, tips)
    {
      if m.kind == Purchase && (m.post.Some? || m.media.Some?) {
        if ref in purchases
          || (m.post.Some? &&
              exists r :: r in purchases && purchases[r].buyer == m.buyer && purchases[r].post == m.post) {
          return false;
        }
        purchases := purchases[ref := PurchaseRow(m.buyer, m.post, m.media, m.amountCents, m.currency, m.provider)];
      }
      if m.kind == Tip {
        if ref in tips { return false; }
        var message := if m.message == "" then None
          else Some(if |m.message| > 500 then m.message[..500] else m.message);
        tips := tips[ref := TipRow(m.buyer, m.creator, m.amountCents, m.currency, m.anonymous, message, m.provider)];
      }
      return true;
    }

    // ---------------------------------------------------------- subscriptions and plans

    /** Ends a subscription at its period end; only its subscriber's own live one. */
    method Cancel(user: Id, key: (Id, Id)) returns (r: Result<(), Refusal>)
      modifies `subs
      ensures r == if key.0 == user && key in old(subs)
        && (old(subs)[key].status == Active || old(subs)[key].status == Trialing)
                   then Ok(()) else Err(SubscriptionNotFound)
      ensures Tables() == if key.0 == user then CancelSub(old(Tables()), key) else old(Tables())
      ensures subs == if r.Ok? then old(subs)[key := old(subs)[key].(cancelAtPeriodEnd := true)] else old(subs)
      ensures old(Inv(Tables())) ==> Inv(Tables())
    {
      hide Inv;
      if Inv(Tables()) { OpKeepsInv(Tables(), OCancel(key)); }
      if key.0 == user && key in subs && (subs[key].status == Active || subs[key].status == Trialing) {
        subs := subs[key := subs[key].(cancelAtPeriodEnd := true)];
        return Ok(());
      }
      return Err(SubscriptionNotFound);
    }

    /** Updates the creator's plan for an interval, or inserts one under a fresh id. */
    method UpsertPlanFor(user: Id, interval: Interval, price: int, trial: int, discount: int, newId: Id)
      returns (id: Option<Id>)
      requires newId !in plans
      modifies `plans
      ensures id.Some? <==> user in creators
      ensures Tables() == if id.Some? then UpsertPlan(old(Tables()), id.value, user, interval, price, trial, discount)
        else old(Tables())
      ensures id.None? ==> plans == old(plans)
      ensures id.Some? ==>
        && id.value in plans && plans == old(plans)[id.value := plans[id.value]]
        && plans[id.value] == Plan(user, interval, price, trial, discount, true)
        && (id.value in old(plans) ==>
              old(plans)[id.value].creator == user && old(plans)[id.value].interval == interval)
        && ((exists p :: p in old(plans) && old(plans)[p].creator == user && old(plans)[p].interval == interval)
            ==> id.value in old(plans))
      ensures old(Inv(Tables())) ==> Inv(Tables())
    {
      hide Inv;
      if user !in creators { return None; }
      if exists p :: p in plans && plans[p].creator == user && plans[p].interval == interval {
        var p :| p in plans && plans[p].creator == user && plans[p].interval == interval;
        if Inv(Tables()) { OpKeepsInv(Tables(), OUpsertPlan(p, user, interval, price, trial, discount)); }
        plans := plans[p := plans[p].(priceCents := price, trialDays := trial, discountPct := discount,
                                      active := true)];
        return Some(p);
      }
      if Inv(Tables()) { OpKeepsInv(Tables(), OUpsertPlan(newId, user, interval, price, trial, discount)); }
      plans := plans[newId := Plan(user, interval, price, trial, discount, true)];
      return Some(newId);
    }

    method DeactivatePlanOf(user: Id, planId: Id) returns (found: bool)
      modifies `plans
      ensures found <==> user in creators && planId in old(plans) && old(plans)[planId].creator == user
      ensures Tables() == if found then DeactivatePlan(old(Tables()), planId, user) else old(Tables())
      ensures plans == if found then old(plans)[planId := old(plans)[planId].(active := false)] else old(plans)
      ensures old(Inv(Tables())) ==> Inv(Tables())
    {
      hide Inv;
      if Inv(Tables()) { OpKeepsInv(Tables(), ODeactivatePlan(planId, user)); }
      found := user in creators && planId in plans && plans[planId].creator == user;
      if found {
        plans := plans[planId := plans[planId].(active := false)];
      }
    }
  }
}
