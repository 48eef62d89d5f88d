/**
 Runs of completed webhook deliveries. Whatever their order and however often they are repeated, the
 deliveries leave the same orders, wallets, purchases and tips, exactly unless two open orders compete for
 one post of one buyer.
 */
module Deliveries {
  import opened Wrappers
  import opened Sums
  import opened Calendar
  import opened Ledger

  /** A settled webhook event: its id, the order it names and the amount it reports. */
  datatype Delivery = Delivery(provider: Provider, event: Id, order: Option<Id>, reported: Reported)

  /** A delivery and the two instants at which its fulfilment reads the clock. */
  datatype Timed = Timed(d: Delivery, first: Instant, second: Instant)

  function Key(d: Delivery): (Provider, Id) { (d.provider, d.event) }

  /** One whole run of a webhook handler on a settled event. */
  function Handle(l: Ledger, t: Timed): Ledger
  {
    if Key(t.d) in l.events then l
    else
      var marked := MarkEvent(l, t.d.provider, t.d.event);
      if t.d.order.None? then marked else Fulfil(marked, t.d.order.value, t.d.reported, t.first, t.second)
  }

  function HandleAll(l: Ledger, ts: seq<Timed>): Ledger
  {
    if ts == [] then l else Handle(HandleAll(l, ts[..|ts| - 1]), ts[|ts| - 1])
  }

  function DeliveriesOf(ts: seq<Timed>): set<Delivery> { set t | t in ts :: t.d }

  function Keys(ds: set<Delivery>): set<(Provider, Id)> { set d | d in ds :: Key(d) }

  /** An event id determines the event's content. */
  predicate Consistent(ds: set<Delivery>)
  {
    forall d, d' :: d in ds && d' in ds && Key(d) == Key(d') ==> d == d'
  }

  /** The buyer already owns the post that this contract is for. */
  predicate Owned(l: Ledger, c: Contract)
  {
    c.kind == Purchase && c.post.Some?
    && exists r :: r in l.purchases && l.purchases[r].buyer == c.buyer && l.purchases[r].post == c.post
  }

  /** This delivery pays for that order. */
  predicate Pays(l: Ledger, d: Delivery, ref: Id)
  {
    d.order == Some(ref) && Key(d) !in l.events && ref in l.orders
      && !Mismatch(d.reported, l.orders[ref].contract.amountCents)
  }

  predicate WillSettle(l: Ledger, ds: set<Delivery>, ref: Id)
  {
    && ref in l.orders && l.orders[ref].status == Pending && !Owned(l, l.orders[ref].contract)
    && exists d :: d in ds && Pays(l, d, ref)
  }

  /** The orders that a set of deliveries must leave, told without any order or repetition. */
  function OrdersAfter(l: Ledger, ds: set<Delivery>): map<Id, Order>
  {
    map r | r in l.orders :: if WillSettle(l, ds, r) then l.orders[r].(status := Succeeded) else l.orders[r]
  }

  function WalletsAfter(l: Ledger, ds: set<Delivery>): set<Id>
  {
    l.wallets.Keys + set r | r in l.orders && WillSettle(l, ds, r) :: l.orders[r].contract.creator
  }

  /** Two open orders of one buyer for one post that is not owned yet. */
  predicate Rivals(l: Ledger, r: Id, r': Id)
  {
    && r != r' && r in l.orders && r' in l.orders
    && l.orders[r].status == Pending && l.orders[r'].status == Pending
    && SameItem(l.orders[r].contract, l.orders[r'].contract)
    && !Owned(l, l.orders[r].contract)
  }

  predicate SameItem(c: Contract, c': Contract)
  {
    c.kind == Purchase && c'.kind == Purchase && c.post.Some? && c.post == c'.post && c.buyer == c'.buyer
  }

  ghost predicate Contested(l: Ledger) { exists r, r' :: Rivals(l, r, r') }

  /**
   The same pairs are subscribed and have bought the same months. The period end depends on the clock, and of
   two orders of one pair the last to settle names the plan and the first the provider.
   */
  ghost predicate SameSubscriptions(a: Ledger, b: Ledger)
  {
    a.subs.Keys == b.subs.Keys && forall key :: MonthsBought(a, key) == MonthsBought(b, key)
  }

  /** What deliveries must agree on, up to wallets that hold nothing. */
  ghost predicate SameBooks(a: Ledger, b: Ledger)
  {
    && a.orders == b.orders && a.events == b.events && a.purchases == b.purchases && a.tips == b.tips
    && (forall u :: Held(a.wallets, u) == Held(b.wallets, u))
    && SameSubscriptions(a, b)
  }

  ghost predicate SameOutcome(a: Ledger, b: Ledger) { SameBooks(a, b) && a.wallets == b.wallets }

  /** No order or repetition of the same events makes a difference. */
  ghost predicate OrderInsensitive(l: Ledger)
  {
    forall ts, ts' :: Consistent(DeliveriesOf(ts)) && DeliveriesOf(ts) == DeliveriesOf(ts')
      ==> SameOutcome(HandleAll(l, ts), HandleAll(l, ts'))
  }

  // ------------------------------------------------------------ the proof

  /** The state reached is the one told by the set of deliveries. */
  ghost predicate ReachedBooks(l: Ledger, ds: set<Delivery>, l': Ledger)
  {
    && Inv(l')
    && l'.orders == OrdersAfter(l, ds)
    && l'.events == l.events + Keys(ds)
    && PlansKept(l.plans, l'.plans)
  }

  ghost predicate Reached(l: Ledger, ds: set<Delivery>, l': Ledger)
  {
    ReachedBooks(l, ds, l') && l'.wallets.Keys == WalletsAfter(l, ds)
  }

  /** A claimed order settles exactly when its post is not owned already. */
  lemma GrantSucceedsUnlessOwned(l: Ledger, ref: Id, first: Instant, second: Instant)
    requires Inv(l) && ref in l.orders && l.orders[ref].status == Pending
    ensures Grant(l, ref, first, second).Some? <==> !Owned(l, l.orders[ref].contract)
  {
    hide MoneyConserved, SubsMatchOrders, OnePurchasePerPost, NextEnd, OrdersOk;
    assert ref !in l.purchases && ref !in l.tips;
    var o := l.orders[ref];
    var before := ExtendSub(Credit(Claim(l, ref), o.contract.creator, Net(o)), o.contract, first, second);
    assert before.purchases == l.purchases && before.tips == l.tips;
    assert BuysItem(o.contract) && o.contract.post.Some? ==>
      (ItemTaken(before, ref, o.contract) <==> Owned(l, o.contract));
  }

  lemma NoRival(l: Ledger, r: Id, r': Id)
    requires !Contested(l) && r != r' && r in l.orders && r' in l.orders
    requires l.orders[r].status == Pending && l.orders[r'].status == Pending
    requires SameItem(l.orders[r].contract, l.orders[r'].contract)
    ensures Owned(l, l.orders[r].contract)
  {
    assert !Rivals(l, r, r');
  }

  /** Orders keep their contracts, and some PENDING ones have become SUCCEEDED. */
  predicate OrdersAdvance(before: map<Id, Order>, after: map<Id, Order>)
  {
    && after.Keys == before.Keys
    && (forall r :: r in before ==>
          after[r] == before[r] || (before[r].status == Pending && after[r] == before[r].(status := Succeeded)))
  }

  /** What is owned stays owned. */
  lemma OwnedStays(db: Ledger, db': Ledger, c: Contract)
    requires Inv(db) && Inv(db') && OrdersAdvance(db.orders, db'.orders) && Owned(db, c)
    ensures Owned(db', c)
  {
    hide MoneyConserved, SubsMatchOrders, OnePurchasePerPost, OrdersOk, TipsOf;
    var r :| r in db.purchases && db.purchases[r].buyer == c.buyer && db.purchases[r].post == c.post;
    assert r in db'.purchases && db'.purchases[r] == db.purchases[r];
  }

  /** A post that is owned was bought by a settled order for it. */
  lemma OwnedWasBought(l: Ledger, c: Contract) returns (r: Id)
    requires Inv(l) && Owned(l, c)
    ensures r in l.orders && Settled(l.orders[r]) && SameItem(c, l.orders[r].contract)
  {
    hide MoneyConserved, SubsMatchOrders, OnePurchasePerPost, OrdersOk, TipsOf;
    r :| r in l.purchases && l.purchases[r].buyer == c.buyer && l.purchases[r].post == c.post;
    assert l.purchases[r] == PurchaseFor(l.orders[r].contract);
  }

  lemma BoughtIsOwned(l: Ledger, r: Id, c: Contract)
    requires Inv(l) && r in l.orders && Settled(l.orders[r]) && SameItem(c, l.orders[r].contract)
    ensures Owned(l, c)
  {
    hide MoneyConserved, SubsMatchOrders, OnePurchasePerPost, OrdersOk, TipsOf;
    assert r in l.purchases && l.purchases[r] == PurchaseFor(l.orders[r].contract);
  }

  /** On an uncontested ledger, ownership of an open order's post comes only from before. */
  lemma OwnedEarlier(l: Ledger, l': Ledger, ref: Id)
    requires Inv(l) && Inv(l') && OrdersAdvance(l.orders, l'.orders) && !Contested(l)
    requires ref in l'.orders && l'.orders[ref].status == Pending
    ensures Owned(l', l'.orders[ref].contract) <==> Owned(l, l.orders[ref].contract)
  {
    hide Inv, Contested, Owned;
    var c := l.orders[ref].contract;
    if Owned(l, c) { OwnedStays(l, l', c); }
    if Owned(l', c) {
      var r := OwnedWasBought(l', c);
      if Settled(l.orders[r]) {
        BoughtIsOwned(l, r, c);
      } else {
        NoRival(l, ref, r);
      }
    }
  }

  lemma MarkKeepsInv(l: Ledger, d: Delivery)
    requires Inv(l)
    ensures Inv(MarkEvent(l, d.provider, d.event))
  {
    OpKeepsInv(l, OMark(d.provider, d.event));
  }

  /** One more delivery, new or repeated, moves the state as the set says. */
  lemma OneMore(l: Ledger, ds: set<Delivery>, l': Ledger, t: Timed)
    requires Inv(l) && !Contested(l) && Reached(l, ds, l') && Consistent(ds + {t.d})
    ensures Reached(l, ds + {t.d}, Handle(l', t))
  {
    var ds' := ds + {t.d};
    if Key(t.d) in l'.events {
      AlreadySeen(l, ds, t.d);
      assert Keys(ds') == Keys(ds) + {Key(t.d)};
    } else {
      FirstTime(l, ds, l', t);
    }
  }

  lemma AlreadySeen(l: Ledger, ds: set<Delivery>, d: Delivery)
    requires Consistent(ds + {d}) && Key(d) in l.events + Keys(ds)
    ensures OrdersAfter(l, ds + {d}) == OrdersAfter(l, ds) && WalletsAfter(l, ds + {d}) == WalletsAfter(l, ds)
  {
    if Key(d) in l.events {
      assert forall r :: !Pays(l, d, r);
    } else {
      var d0 :| d0 in ds && Key(d0) == Key(d);
      assert d0 == d && ds + {d} == ds;
    }
    assert forall r :: WillSettle(l, ds + {d}, r) <==> WillSettle(l, ds, r);
  }

  /** The order that a delivery settles on these tables, if any. */
  predicate Settles(l: Ledger, d: Delivery)
  {
    && d.order.Some? && d.order.value in l.orders && l.orders[d.order.value].status == Pending
    && !Mismatch(d.reported, l.orders[d.order.value].contract.amountCents)
    && !Owned(l, l.orders[d.order.value].contract)
  }

  /** What one fulfilment does to the tables. */
  lemma FulfilEffect(l: Ledger, d: Delivery, first: Instant, second: Instant)
    requires Inv(l) && d.order.Some?
    ensures var l' := Fulfil(l, d.order.value, d.reported, first, second);
            && Inv(l') && l'.events == l.events && l'.plans == l.plans
            && (if Settles(l, d) then
                  var o := l.orders[d.order.value];
                  l'.orders == l.orders[d.order.value := o.(status := Succeeded)]
                  && l'.wallets.Keys == l.wallets.Keys + {o.contract.creator}
                else l' == l)
  {
    hide Inv, Grant, Owned, Mismatch;
    var ref := d.order.value;
    if ref in l.orders && l.orders[ref].status == Pending {
      GrantSucceedsUnlessOwned(l, ref, first, second);
      if !Owned(l, l.orders[ref].contract) {
        GrantKeepsInv(l, ref, first, second);
        GrantEffect(l, ref, first, second);
        GrantKeepsPlans(l, ref, first, second);
      }
    } else if ref in l.orders {
      GrantOfClosedOrder(l, ref, first, second);
    }
  }

  /** What one more delivery adds to the set's account. */
  lemma SetEffect(l: Ledger, ds: set<Delivery>, l': Ledger, d: Delivery)
    requires Inv(l) && !Contested(l) && Reached(l, ds, l') && Key(d) !in l'.events
    ensures if Settles(l', d) then
              var o := l'.orders[d.order.value];
              OrdersAfter(l, ds + {d}) == l'.orders[d.order.value := o.(status := Succeeded)]
              && WalletsAfter(l, ds + {d}) == l'.wallets.Keys + {o.contract.creator}
            else OrdersAfter(l, ds + {d}) == l'.orders && WalletsAfter(l, ds + {d}) == l'.wallets.Keys
  {
    hide Inv, Mismatch, Owned, Contested, WillSettle;
    OnlyItsOwnOrder(l, ds, d);
    StatusAfter(l, ds);
    StatusAfter(l, ds + {d});
    AfterIsAdvance(l, ds);
    hide OrdersAdvance;
    if d.order.Some? && d.order.value in l.orders && l'.orders[d.order.value].status == Pending {
      OwnedEarlier(l, l', d.order.value);
    }
  }

  lemma FirstTime(l: Ledger, ds: set<Delivery>, l': Ledger, t: Timed)
    requires Inv(l) && !Contested(l) && Reached(l, ds, l') && Key(t.d) !in l'.events
    ensures Reached(l, ds + {t.d}, Handle(l', t))
  {
    hide Inv, Fulfil, OrdersAfter, WalletsAfter, Contested, Owned, PlansKept;
    var d := t.d;
    var marked := MarkEvent(l', d.provider, d.event);
    MarkKeepsInv(l', d);
    assert Keys(ds + {d}) == Keys(ds) + {Key(d)};
    SetEffect(l, ds, l', d);
    if d.order.Some? {
      FulfilEffect(marked, d, t.first, t.second);
      if d.order.value in l'.orders {
        OwnedIsAboutPurchases(l', marked, l'.orders[d.order.value].contract);
      }
    }
  }

  lemma HandleKeepsInv(l: Ledger, t: Timed)
    requires Inv(l)
    ensures Inv(Handle(l, t))
  {
    hide Inv, Fulfil;
    MarkKeepsInv(l, t.d);
    if t.d.order.Some? { FulfilEffect(MarkEvent(l, t.d.provider, t.d.event), t.d, t.first, t.second); }
  }

  lemma OwnedIsAboutPurchases(a: Ledger, b: Ledger, c: Contract)
    requires a.purchases == b.purchases
    ensures Owned(a, c) <==> Owned(b, c)
  {
  }

  lemma GrantOfClosedOrder(l: Ledger, ref: Id, first: Instant, second: Instant)
    requires ref in l.orders && l.orders[ref].status != Pending
    ensures Grant(l, ref, first, second) == Some(l)
  {
  }

  lemma StatusAfter(l: Ledger, ds: set<Delivery>)
    ensures forall r :: WillSettle(l, ds, r) ==> r in l.orders && l.orders[r].status == Pending
  {
  }

  /** A delivery can only settle the order that it names. */
  lemma OnlyItsOwnOrder(l: Ledger, ds: set<Delivery>, d: Delivery)
    ensures forall r :: WillSettle(l, ds + {d}, r) <==>
      (WillSettle(l, ds, r)
        || (r in l.orders && l.orders[r].status == Pending && !Owned(l, l.orders[r].contract) && Pays(l, d, r)))
  {
  }

  lemma GrantEffect(l: Ledger, ref: Id, first: Instant, second: Instant)
    requires ref in l.orders && l.orders[ref].status == Pending && Grant(l, ref, first, second).Some?
    ensures var l' := Grant(l, ref, first, second).value;
            && l'.orders == l.orders[ref := l.orders[ref].(status := Succeeded)]
            && l'.events == l.events
            && l'.wallets.Keys == l.wallets.Keys + {l.orders[ref].contract.creator}
  {
    hide ItemTaken, NextEnd;
  }

  lemma {:induction false} RunReaches(l: Ledger, ts: seq<Timed>)
    requires Inv(l) && !Contested(l) && Consistent(DeliveriesOf(ts))
    ensures Reached(l, DeliveriesOf(ts), HandleAll(l, ts))
    decreases |ts|
  {
    if ts == [] {
      assert OrdersAfter(l, {}) == l.orders;
      assert Keys({}) == {};
      assert WalletsAfter(l, {}) == l.wallets.Keys;
      assert DeliveriesOf(ts) == {};
    } else {
      var prefix, t := ts[..|ts| - 1], ts[|ts| - 1];
      assert ts == prefix + [t];
      assert DeliveriesOf(ts) == DeliveriesOf(prefix) + {t.d};
      RunReaches(l, prefix);
      OneMore(l, DeliveriesOf(prefix), HandleAll(l, prefix), t);
    }
  }

  /** The set of deliveries pins down everything the outcome holds. */
  lemma ReachedIsUnique(l: Ledger, ds: set<Delivery>, a: Ledger, b: Ledger)
    requires Inv(l) && ReachedBooks(l, ds, a) && ReachedBooks(l, ds, b)
    ensures SameBooks(a, b)
    ensures a.wallets.Keys == b.wallets.Keys ==> SameOutcome(a, b)
  {
    hide Inv, OrdersAfter, PlansKept, OrdersAdvance, MonthsBought;
    SameKeysSubscribed(a, b);
    AfterIsAdvance(l, ds);
    forall key ensures MonthsBought(a, key) == MonthsBought(b, key) {
      MonthsFromTheStart(l, a, key);
      MonthsFromTheStart(l, b, key);
    }
    forall u ensures Held(a.wallets, u) == Held(b.wallets, u) { OrdersFillWallets(a, b, u); }
    if a.wallets.Keys == b.wallets.Keys { SameHoldings(a.wallets, b.wallets); }
    SameRows(a, b);
  }

  lemma AfterIsAdvance(l: Ledger, ds: set<Delivery>)
    ensures OrdersAdvance(l.orders, OrdersAfter(l, ds))
  {
    hide Pays, Owned;
  }

  lemma SameRows(a: Ledger, b: Ledger)
    requires Inv(a) && Inv(b) && a.orders == b.orders
    ensures a.purchases == b.purchases && a.tips == b.tips
  {
    hide MoneyConserved, SubsMatchOrders, OnePurchasePerPost, OrdersOk, PurchasesOf, TipsOf;
  }

  lemma SameHoldings(a: map<Id, int>, b: map<Id, int>)
    requires a.Keys == b.Keys && forall u :: Held(a, u) == Held(b, u)
    ensures a == b
  {
    forall u | u in a ensures a[u] == b[u] {
      assert Held(a, u) == Held(b, u);
    }
  }

  lemma OrdersFillWallets(a: Ledger, b: Ledger, u: Id)
    requires Inv(a) && Inv(b) && a.orders == b.orders
    ensures Held(a.wallets, u) == Held(b.wallets, u)
  {
    hide SubsMatchOrders, OnePurchasePerPost, OrdersOk, PurchasesOf, TipsOf, Held, Earned;
    assert Held(a.wallets, u) == Earned(a.orders, u) && Held(b.wallets, u) == Earned(b.orders, u);
  }

  lemma SameKeysSubscribed(a: Ledger, b: Ledger)
    requires Inv(a) && Inv(b) && a.orders == b.orders
    ensures a.subs.Keys == b.subs.Keys
  {
    SubscribedIsPaid(a, b);
    SubscribedIsPaid(b, a);
  }

  lemma SubscribedIsPaid(a: Ledger, b: Ledger)
    requires Inv(a) && Inv(b) && a.orders == b.orders
    ensures a.subs.Keys <= b.subs.Keys
  {
    hide MoneyConserved, OnePurchasePerPost, OrdersOk, PurchasesOf, TipsOf;
    forall k | k in a.subs ensures k in b.subs {
      var r :| r in a.orders && PaysFor(a.orders[r], k);
    }
  }

  /** The months bought can be told from the plans at the start. */
  lemma MonthsFromTheStart(l: Ledger, l': Ledger, key: (Id, Id))
    requires Inv(l) && OrdersAdvance(l.orders, l'.orders) && PlansKept(l.plans, l'.plans)
    ensures MonthsBought(l', key) == Total(l'.orders, MonthsFrom(l.plans, key))
  {
    hide MoneyConserved, SubsMatchOrders, OnePurchasePerPost, PurchasesOf, TipsOf, MonthsFrom, PlansKept;
    MonthsOfKeptPlans(l'.orders, l.plans, l'.plans, key);
  }

  /** Two rivals, each paid at its exact price: whichever delivery comes first wins, so the order shows. */
  lemma RivalsShowTheOrder(l: Ledger, r: Id, r': Id, e: Id, e': Id)
    requires Inv(l) && Rivals(l, r, r')
    requires e != e' && (PayPal, e) !in l.events && (PayPal, e') !in l.events
    ensures !OrderInsensitive(l)
  {
    hide Inv, HandleAll, Owned;
    var t := Timed(Delivery(PayPal, e, Some(r), Cents(l.orders[r].contract.amountCents)), 0, 0);
    var t' := Timed(Delivery(PayPal, e', Some(r'), Cents(l.orders[r'].contract.amountCents)), 0, 0);
    FirstRivalWins(l, r, r', t, t');
    RivalsAreMutual(l, r, r');
    FirstRivalWins(l, r', r, t', t);
    TwoInEitherOrder(t, t');
    hide Rivals, DeliveriesOf, Consistent;
    assert !SameOutcome(HandleAll(l, [t, t']), HandleAll(l, [t', t]));
  }

  lemma RivalsAreMutual(l: Ledger, r: Id, r': Id)
    requires Rivals(l, r, r')
    ensures Rivals(l, r', r)
  {
  }

  lemma TwoInEitherOrder(t: Timed, t': Timed)
    requires Key(t.d) != Key(t'.d)
    ensures Consistent(DeliveriesOf([t, t'])) && DeliveriesOf([t, t']) == DeliveriesOf([t', t])
  {
    assert DeliveriesOf([t, t']) == {t.d, t'.d} == DeliveriesOf([t', t]);
  }

  lemma HandleTwo(l: Ledger, t: Timed, t': Timed)
    ensures HandleAll(l, [t, t']) == Handle(Handle(l, t), t')
  {
    hide Handle;
    assert [t, t'][..1] == [t] && [t][..0] == [];
    assert HandleAll(l, [t]) == Handle(HandleAll(l, []), t);
  }

  lemma FirstRivalWins(l: Ledger, r: Id, r': Id, t: Timed, t': Timed)
    requires Inv(l) && Rivals(l, r, r')
    requires Pays(l, t.d, r) && Pays(l, t'.d, r') && Key(t.d) != Key(t'.d)
    ensures var l' := HandleAll(l, [t, t']);
            r in l'.orders && r' in l'.orders && l'.orders[r].status == Succeeded && l'.orders[r'].status == Pending
  {
    hide MoneyConserved, SubsMatchOrders, OnePurchasePerPost, OrdersOk, HandleAll, Grant;
    HandleTwo(l, t, t');
    var marked := MarkEvent(l, t.d.provider, t.d.event);
    MarkKeepsInv(l, t.d);
    GrantSucceedsUnlessOwned(marked, r, t.first, t.second);
    GrantEffect(marked, r, t.first, t.second);
    GrantKeepsInv(marked, r, t.first, t.second);
    var l1 := Handle(l, t);
    assert Settled(l1.orders[r]) && l1.purchases[r] == PurchaseFor(l.orders[r].contract);
    assert Owned(l1, l.orders[r'].contract);
    var marked' := MarkEvent(l1, t'.d.provider, t'.d.event);
    MarkKeepsInv(l1, t'.d);
    GrantSucceedsUnlessOwned(marked', r', t'.first, t'.second);
  }

  lemma {:induction false} EventsAreBounded(events: set<(Provider, Id)>) returns (bound: Id)
    ensures forall e :: e in events ==> e.1 < bound
    decreases events
  {
    if events == {} {
      bound := 0;
    } else {
      var e :| e in events;
      var rest := EventsAreBounded(events - {e});
      bound := if e.1 < rest then rest else e.1 + 1;
    }
  }

  /** Exactly when deliveries commute: when no two open orders compete for the same post of the same buyer. */
  lemma InsensitiveUnlessContested(l: Ledger)
    requires Inv(l)
    ensures OrderInsensitive(l) <==> !Contested(l)
  {
    if Contested(l) {
      var r, r' :| Rivals(l, r, r');
      var bound := EventsAreBounded(l.events);
      RivalsShowTheOrder(l, r, r', bound, bound + 1);
    } else {
      forall ts, ts' | Consistent(DeliveriesOf(ts)) && DeliveriesOf(ts) == DeliveriesOf(ts')
        ensures SameOutcome(HandleAll(l, ts), HandleAll(l, ts'))
      {
        RunReaches(l, ts);
        RunReaches(l, ts');
        ReachedIsUnique(l, DeliveriesOf(ts), HandleAll(l, ts), HandleAll(l, ts'));
      }
    }
  }

  /**
   The guard promises never to grant more than was invoiced. It keeps that promise for readable positive
   amounts only: a report of zero, or of something that is no number, settles an open order of any price.
   */
  lemma UnreadableAmountsSettle(l: Ledger, ref: Id, first: Instant, second: Instant)
    requires Inv(l) && ref in l.orders && l.orders[ref].status == Pending && !Owned(l, l.orders[ref].contract)
    ensures forall reported | reported in {Cents(0), NaN} ::
      var l' := Fulfil(l, ref, reported, first, second); ref in l'.orders && Settled(l'.orders[ref])
  {
    hide Inv, Owned;
    FulfilEffect(l, Delivery(PayPal, 0, Some(ref), Cents(0)), first, second);
    FulfilEffect(l, Delivery(PayPal, 0, Some(ref), NaN), first, second);
  }

  /** A report settles an open order for something not owned exactly when the guard's tolerance or gap lets it. */
  lemma GuardDecides(l: Ledger, ref: Id, reported: Reported, first: Instant, second: Instant)
    requires Inv(l) && ref in l.orders && l.orders[ref].status == Pending && !Owned(l, l.orders[ref].contract)
    ensures var l' := Fulfil(l, ref, reported, first, second); var price := l.orders[ref].contract.amountCents;
            ref in l'.orders &&
            (Settled(l'.orders[ref]) <==>
              match reported
              case Cents(n) => n <= 0 || price - 1 <= n <= price + 1
              case Infinite(negative) => negative
              case NaN => true)
  {
    hide Inv, Owned;
    FulfilEffect(l, Delivery(PayPal, 0, Some(ref), reported), first, second);
  }
}
