/**
 Orders that compete: two open orders of one buyer for one post. How such a contest comes about, who wins it, and
 with it exactly which orders any run of deliveries settles.
 */
module Contests {
  import opened Wrappers
  import opened Calendar
  import opened Ledger
  import opened Deliveries

  /** The delivery at place i pays for the order, or for one that competes with it. */
  ghost predicate PaysForOne(l: Ledger, ts: seq<Timed>, i: nat, r: Id)
    requires i < |ts|
  {
    Pays(l, ts[i].d, r) || exists r' :: Rivals(l, r, r') && Pays(l, ts[i].d, r')
  }

  /** The order is paid by the delivery at place i, and no rival was paid before. */
  ghost predicate WinsAt(l: Ledger, ts: seq<Timed>, i: nat, r: Id)
    requires i < |ts|
  {
    && r in l.orders && l.orders[r].status == Pending && !Owned(l, l.orders[r].contract) && Pays(l, ts[i].d, r)
    && forall r', j :: Rivals(l, r, r') && 0 <= j < i ==> !Pays(l, ts[j].d, r')
  }

  ghost predicate Wins(l: Ledger, ts: seq<Timed>, r: Id) { exists i :: 0 <= i < |ts| && WinsAt(l, ts, i, r) }

  /** The orders that a run of deliveries must leave, contested or not. */
  ghost predicate Told(l: Ledger, ts: seq<Timed>, l': Ledger)
  {
    && Inv(l') && OrdersAdvance(l.orders, l'.orders) && l'.events == l.events + Keys(DeliveriesOf(ts))
    && (forall r :: r in l.orders ==> (Settled(l'.orders[r]) <==> Settled(l.orders[r]) || Wins(l, ts, r)))
  }

  // ------------------------------------------------------------ who wins

  /** Among competing orders, the first to be paid wins. */
  lemma {:induction false} FirstPaidWins(l: Ledger, ts: seq<Timed>, i: nat, r: Id) returns (winner: Id)
    requires i < |ts| && r in l.orders && l.orders[r].status == Pending && !Owned(l, l.orders[r].contract)
      && PaysForOne(l, ts, i, r)
    ensures Wins(l, ts, winner) && (winner == r || Rivals(l, r, winner))
    decreases i
  {
    hide Pays, Owned;
    if j :| 0 <= j < i && PaysForOne(l, ts, j, r) {
      winner := FirstPaidWins(l, ts, j, r);
    } else if Pays(l, ts[i].d, r) {
      winner := r;
      assert forall r', j :: Rivals(l, r, r') && 0 <= j < i && Pays(l, ts[j].d, r') ==> PaysForOne(l, ts, j, r);
      assert WinsAt(l, ts, i, r);
    } else {
      winner :| Rivals(l, r, winner) && Pays(l, ts[i].d, winner);
      forall r', j | Rivals(l, winner, r') && 0 <= j < i ensures !Pays(l, ts[j].d, r') {
        RivalOfRival(l, r, winner, r');
        assert !PaysForOne(l, ts, j, r);
      }
      RivalsAreMutual(l, r, winner);
      assert WinsAt(l, ts, i, winner);
    }
  }

  lemma RivalOfRival(l: Ledger, r: Id, r': Id, r'': Id)
    requires Rivals(l, r, r') && Rivals(l, r', r'')
    ensures r'' == r || Rivals(l, r, r'')
  {
  }

  // ------------------------------------------------------------ one more delivery

  lemma WinsSoFar(l: Ledger, ts: seq<Timed>, t: Timed, r: Id)
    ensures Wins(l, ts + [t], r) <==> Wins(l, ts, r) || WinsAt(l, ts + [t], |ts|, r)
  {
    forall i | 0 <= i < |ts| ensures WinsAt(l, ts + [t], i, r) <==> WinsAt(l, ts, i, r) {
      SameStart(l, ts, t, i, r);
    }
    hide WinsAt;
  }

  lemma SameStart(l: Ledger, ts: seq<Timed>, t: Timed, i: nat, r: Id)
    requires i < |ts|
    ensures WinsAt(l, ts + [t], i, r) <==> WinsAt(l, ts, i, r)
  {
    hide Pays, Owned, Rivals;
    assert forall j :: 0 <= j <= i ==> (ts + [t])[j] == ts[j];
  }

  /** A delivery that repeats an earlier one wins nothing new. */
  lemma RepeatWinsNothing(l: Ledger, ts: seq<Timed>, t: Timed, r: Id)
    requires Consistent(DeliveriesOf(ts + [t])) && Key(t.d) in l.events + Keys(DeliveriesOf(ts))
    ensures WinsAt(l, ts + [t], |ts|, r) ==> Wins(l, ts, r)
  {
    if WinsAt(l, ts + [t], |ts|, r) {
      var all := ts + [t];
      assert all[|ts|] == t;
      var d :| d in DeliveriesOf(ts) && Key(d) == Key(t.d);
      var j :| 0 <= j < |ts| && ts[j].d == d;
      assert all[j] == ts[j] && all[j] in all && t in all;
      assert d in DeliveriesOf(all) && t.d in DeliveriesOf(all);
      hide Pays, Owned, Rivals;
      assert WinsAt(l, all, j, r);
      SameStart(l, ts, t, j, r);
    }
  }

  /** A delivery settles its order only by winning it. */
  lemma SettlesByWinning(l: Ledger, ts: seq<Timed>, l': Ledger, t: Timed)
    requires Inv(l) && Told(l, ts, l') && Key(t.d) !in l'.events && Settles(l', t.d)
    ensures WinsAt(l, ts + [t], |ts|, t.d.order.value)
  {
    hide Inv, Owned, Mismatch;
    var r, all := t.d.order.value, ts + [t];
    var c := l.orders[r].contract;
    assert all[|ts|] == t;
    if Owned(l, c) { OwnedStays(l, l', c); }
    forall r', j | Rivals(l, r, r') && 0 <= j < |ts| ensures !Pays(l, all[j].d, r') {
      NoRivalPaidBefore(l, ts, l', r, r', j);
      assert all[j] == ts[j];
    }
  }

  lemma NoRivalPaidBefore(l: Ledger, ts: seq<Timed>, l': Ledger, r: Id, r': Id, j: nat)
    requires Inv(l) && Told(l, ts, l') && Rivals(l, r, r') && j < |ts|
    requires l'.orders[r].status == Pending && !Owned(l', l.orders[r].contract)
    ensures !Pays(l, ts[j].d, r')
  {
    hide Inv, Owned, Pays, Wins;
    if Pays(l, ts[j].d, r') {
      var winner := FirstPaidWins(l, ts, j, r);
      if winner != r { BoughtIsOwned(l', winner, l.orders[r].contract); }
    }
  }

  /** A delivery that wins an order settles it, unless that order was won before. */
  lemma WinnerSettles(l: Ledger, ts: seq<Timed>, l': Ledger, t: Timed, r: Id)
    requires Inv(l) && Told(l, ts, l') && WinsAt(l, ts + [t], |ts|, r) && !Wins(l, ts, r)
    ensures Settles(l', t.d) && t.d.order == Some(r)
  {
    hide Inv, Owned, Mismatch;
    var c, all := l.orders[r].contract, ts + [t];
    assert all[|ts|] == t;
    if Owned(l', c) {
      var x := OwnedWasBought(l', c);
      if Settled(l.orders[x]) {
        BoughtIsOwned(l, x, c);
      } else {
        LaterRivalLoses(l, ts, t, r, x);
      }
    }
  }

  lemma LaterRivalLoses(l: Ledger, ts: seq<Timed>, t: Timed, r: Id, x: Id)
    requires Wins(l, ts, x) && Rivals(l, r, x)
    ensures !WinsAt(l, ts + [t], |ts|, r)
  {
    hide Pays, Owned, Rivals;
    var j :| 0 <= j < |ts| && WinsAt(l, ts, j, x);
    assert (ts + [t])[j] == ts[j];
  }

  lemma DeliveriesSoFar(ts: seq<Timed>, t: Timed)
    ensures DeliveriesOf(ts + [t]) == DeliveriesOf(ts) + {t.d}
    ensures Keys(DeliveriesOf(ts + [t])) == Keys(DeliveriesOf(ts)) + {Key(t.d)}
  {
    assert forall d :: d in DeliveriesOf(ts + [t]) <==> d in DeliveriesOf(ts) || d == t.d;
  }

  lemma RepeatIsTold(l: Ledger, ts: seq<Timed>, l': Ledger, t: Timed)
    requires Told(l, ts, l') && Consistent(DeliveriesOf(ts + [t])) && Key(t.d) in l'.events
    ensures Told(l, ts + [t], Handle(l', t))
  {
    hide Inv, Wins, WinsAt, OrdersAdvance, Consistent, Keys, DeliveriesOf;
    DeliveriesSoFar(ts, t);
    forall r: Id ensures Wins(l, ts + [t], r) <==> Wins(l, ts, r) {
      WinsSoFar(l, ts, t, r);
      RepeatWinsNothing(l, ts, t, r);
    }
  }

  lemma FirstIsTold(l: Ledger, ts: seq<Timed>, l': Ledger, t: Timed)
    requires Inv(l) && Told(l, ts, l') && Key(t.d) !in l'.events
    ensures Told(l, ts + [t], Handle(l', t))
  {
    hide Inv, Fulfil, Keys, DeliveriesOf, Owned, Mismatch, Wins;
    DeliveriesSoFar(ts, t);
    var marked := MarkEvent(l', t.d.provider, t.d.event);
    MarkKeepsInv(l', t.d);
    if t.d.order.Some? {
      FulfilEffect(marked, t.d, t.first, t.second);
      if t.d.order.value in l'.orders { OwnedIsAboutPurchases(l', marked, l'.orders[t.d.order.value].contract); }
    }
    forall r: Id ensures Wins(l, ts + [t], r) <==> Wins(l, ts, r) || (Settles(l', t.d) && t.d.order == Some(r)) {
      WinsSoFar(l, ts, t, r);
      if Settles(l', t.d) { SettlesByWinning(l, ts, l', t); }
      if WinsAt(l, ts + [t], |ts|, r) && !Wins(l, ts, r) { WinnerSettles(l, ts, l', t, r); }
    }
  }

  lemma {:induction false} RunIsTold(l: Ledger, ts: seq<Timed>)
    requires Inv(l) && Consistent(DeliveriesOf(ts))
    ensures Told(l, ts, HandleAll(l, ts))
    decreases |ts|
  {
    if ts == [] {
      assert DeliveriesOf(ts) == {};
    } else {
      var prefix, t := ts[..|ts| - 1], ts[|ts| - 1];
      assert ts == prefix + [t];
      DeliveriesSoFar(prefix, t);
      assert Consistent(DeliveriesOf(prefix));
      hide Inv, Told, Handle, Consistent, DeliveriesOf;
      RunIsTold(l, prefix);
      var l' := HandleAll(l, prefix);
      if Key(t.d) in l'.events { RepeatIsTold(l, prefix, l', t); } else { FirstIsTold(l, prefix, l', t); }
    }
  }

  /**
   Exactly which orders a run settles, contested or not: those SUCCEEDED before, and those that were open for
   an item not owned and were named by a new event with an amount that is within one cent or not a positive
   number, before any such event named an order that competes with them.
   */
  lemma SettledExactlyWhenPaid(l: Ledger, ts: seq<Timed>, ref: Id)
    requires Inv(l) && Consistent(DeliveriesOf(ts)) && ref in l.orders
    ensures var l' := HandleAll(l, ts); var o := l.orders[ref];
            ref in l'.orders &&
            (Settled(l'.orders[ref]) <==>
              Settled(o) || (o.status == Pending && !Owned(l, o.contract) &&
                exists i :: 0 <= i < |ts| && PaidBy(l, ts[i].d, ref)
                  && forall r', j :: Rivals(l, ref, r') && 0 <= j < i ==> !PaidBy(l, ts[j].d, r')))
  {
    hide Inv, Owned, Rivals;
    RunIsTold(l, ts);
    hide HandleAll, Consistent, DeliveriesOf;
    forall d, r: Id ensures PaidBy(l, d, r) <==> Pays(l, d, r) { PaidIsPays(l, d, r); }
    hide Pays, PaidBy;
    forall i | 0 <= i < |ts| && l.orders[ref].status == Pending && !Owned(l, l.orders[ref].contract)
      ensures WinsAt(l, ts, i, ref) <==>
        PaidBy(l, ts[i].d, ref) && forall r', j :: Rivals(l, ref, r') && 0 <= j < i ==> !PaidBy(l, ts[j].d, r')
    {
    }
  }

  /** The delivery is of a new event that names the order with an amount that the guard lets through. */
  predicate PaidBy(l: Ledger, d: Delivery, r: Id)
  {
    && d.order == Some(r) && Key(d) !in l.events && r in l.orders
    && (match d.reported
        case Cents(n) => n <= 0 || -1 <= n - l.orders[r].contract.amountCents <= 1
        case Infinite(negative) => negative
        case NaN => true)
  }

  lemma PaidIsPays(l: Ledger, d: Delivery, r: Id)
    ensures PaidBy(l, d, r) <==> Pays(l, d, r)
  {
  }

  // ------------------------------------------------------------ how a contest comes about

  /** Two checkouts of one buyer for one post that is not owned yet make rivals. */
  lemma TwoCheckoutsCompete(l: Ledger, ref: Id, c: Contract, ref': Id, c': Contract)
    requires Offered(l, c) && Offered(l, c') && SameItem(c, c') && !Owned(l, c)
    requires ref != ref' && ref !in l.orders && ref' !in l.orders
    ensures var l' := Checkout(Checkout(l, ref, c), ref', c'); Rivals(l', ref, ref') && Contested(l')
  {
    hide Offered;
    SamePlansSameOffers(l, Checkout(l, ref, c), c');
    var l' := Checkout(Checkout(l, ref, c), ref', c');
    OwnedIsAboutPurchases(l, l', c);
    hide Owned;
    assert Rivals(l', ref, ref');
  }

  lemma SamePlansSameOffers(a: Ledger, b: Ledger, c: Contract)
    requires a.plans == b.plans
    ensures Offered(a, c) == Offered(b, c)
  {
  }
}
