/**
 Concurrent deliveries against serial ones. Let any number of webhook deliveries run at once, their statements
 interleaved at will with one another, with cancellations, plan edits and new wallets. When all of them have
 finished and none was cut off with its event consumed, the books are those that the same events leave when
 handled whole, one after the other, in whatever order.
 */
module Confluence {
  import opened Wrappers
  import opened Calendar
  import opened Ledger
  import opened Deliveries
  import opened Fulfilment
  import opened Outcomes

  /** The deliveries that have been seen in a world: all but those cut off before they recorded their event. */
  function Delivered(w: World): set<Delivery> { set p | p in w.procs && w.procs[p].at != Done(Unseen) :: w.procs[p].d }

  /** All deliveries are done, and none was cut off after recording its event. */
  predicate Finished(w: World) { forall p :: p in w.procs ==> w.procs[p].at.Done? && w.procs[p].at != Done(Crashed) }

  /** No order is placed meanwhile. */
  predicate NoCheckouts(actions: seq<Action>) { forall a :: a in actions ==> !(a.Other? && a.op.OCheckout?) }

  /** The users for whom wallets are opened meanwhile. */
  function OpenedBy(actions: seq<Action>): set<Id>
  {
    set a | a in actions && a.Other? && a.op.OOpenWallet? :: a.op.user
  }

  /** This delivery inserted its event id itself. */
  predicate First(p: Process) { p.at != Arrived && p.at != Done(Duplicate) && p.at != Done(Unseen) }

  // ------------------------------------------------------------ what the tables and the outcomes tell

  predicate Names(d: Delivery, orders: map<Id, Order>) { d.order.Some? && d.order.value in orders }

  /** Why a delivery is where it is, in terms of the tables at the start and of those now. */
  predicate Story(l0: Ledger, db: Ledger, p: Process)
  {
    && (First(p) ==> Key(p.d) !in l0.events)
    && (p.at != Arrived && p.at != Done(Unseen) ==> Key(p.d) in db.events)
    && (match p.at
        case Done(NoOrder) => !Names(p.d, l0.orders)
        case Done(Refused) => Names(p.d, l0.orders)
          && Mismatch(p.d.reported, l0.orders[p.d.order.value].contract.amountCents)
        case Done(AlreadyDone) => Names(p.d, db.orders) && db.orders[p.d.order.value].status != Pending
        case Done(LostRace) => Names(p.d, db.orders) && db.orders[p.d.order.value].status != Pending
        case Done(Granted) => Names(p.d, db.orders) && db.orders[p.d.order.value].status != Pending
        case Done(RolledBack) => Names(p.d, db.orders) && Owned(db, db.orders[p.d.order.value].contract)
        case _ => true)
  }

  function CreatorsPaidSince(l0: Ledger, db: Ledger): set<Id>
  {
    set r | r in db.orders && SettledSince(l0, db, r) :: db.orders[r].contract.creator
  }

  ghost predicate AllTold(l0: Ledger, w: World) { forall p :: p in w.procs ==> Story(l0, w.db, w.procs[p]) }

  /** Every event recorded since the start was recorded by one of the deliveries. */
  ghost predicate EventsExplained(l0: Ledger, w: World)
  {
    l0.events <= w.db.events
    && forall e :: e in w.db.events && e !in l0.events ==>
         exists p :: p in w.procs && First(w.procs[p]) && Key(w.procs[p].d) == e
  }

  ghost predicate Accounts(l0: Ledger, w: World, newly: set<Id>)
  {
    && OrdersAdvance(l0.orders, w.db.orders)
    && l0.wallets.Keys + CreatorsPaidSince(l0, w.db) <= w.db.wallets.Keys
    && w.db.wallets.Keys <= l0.wallets.Keys + CreatorsPaidSince(l0, w.db) + newly
    && PlansKept(l0.plans, w.db.plans)
    && EventsExplained(l0, w)
    && AllTold(l0, w)
  }

  // ------------------------------------------------------------ every step keeps the account

  lemma AdvanceIsTransitive(a: map<Id, Order>, b: map<Id, Order>, c: map<Id, Order>)
    requires OrdersAdvance(a, b) && OrdersAdvance(b, c)
    ensures OrdersAdvance(a, c)
  {
  }

  lemma StoryStays(l0: Ledger, db: Ledger, db': Ledger, p: Process)
    requires Inv(db) && Inv(db') && OrdersAdvance(db.orders, db'.orders) && db.events <= db'.events && Story(l0, db, p)
    ensures Story(l0, db', p)
  {
    hide Inv, Owned, Mismatch;
    if p.at == Done(RolledBack) {
      OwnedStays(db, db', db.orders[p.d.order.value].contract);
      OwnedNeedsNoStatus(db', db.orders[p.d.order.value].contract, db'.orders[p.d.order.value].contract);
    }
  }

  lemma OwnedNeedsNoStatus(l: Ledger, c: Contract, c': Contract)
    requires c == c' && Owned(l, c)
    ensures Owned(l, c')
  {
  }

  lemma NewlyPaid(l0: Ledger, db: Ledger, db': Ledger, ref: Id)
    requires OrdersAdvance(l0.orders, db.orders) && ref in db.orders && db.orders[ref].status == Pending
    requires db'.orders == db.orders[ref := db.orders[ref].(status := Succeeded)]
    ensures OrdersAdvance(db.orders, db'.orders)
    ensures CreatorsPaidSince(l0, db') == CreatorsPaidSince(l0, db) + {db.orders[ref].contract.creator}
  {
    assert SettledSince(l0, db', ref);
    forall c | c in CreatorsPaidSince(l0, db) ensures c in CreatorsPaidSince(l0, db') {
      var r :| r in db.orders && SettledSince(l0, db, r) && db.orders[r].contract.creator == c;
      assert SettledSince(l0, db', r) && db'.orders[r] == db.orders[r];
    }
    forall c | c in CreatorsPaidSince(l0, db')
      ensures c in CreatorsPaidSince(l0, db) + {db.orders[ref].contract.creator}
    {
      var r :| r in db'.orders && SettledSince(l0, db', r) && db'.orders[r].contract.creator == c;
      if r != ref { assert SettledSince(l0, db, r); }
    }
  }

  /** A step that moves one delivery and lets the tables only advance. */
  lemma MoveKeepsStories(l0: Ledger, w: World, p: Id, w': World)
    requires AllTold(l0, w) && Inv(w.db) && Inv(w'.db) && p in w.procs && p in w'.procs
    requires w'.procs == w.procs[p := w'.procs[p]]
    requires OrdersAdvance(w.db.orders, w'.db.orders) && w.db.events <= w'.db.events
    requires Story(l0, w'.db, w'.procs[p])
    ensures AllTold(l0, w')
  {
    hide Inv, Story, OrdersAdvance;
    forall q | q in w'.procs ensures Story(l0, w'.db, w'.procs[q]) {
      if q != p { StoryStays(l0, w.db, w'.db, w.procs[q]); }
    }
  }

  lemma ReadStory(l0: Ledger, w: World, p: Id)
    requires OrdersAdvance(l0.orders, w.db.orders) && p in w.procs && w.procs[p].at.Marked?
      && Story(l0, w.db, w.procs[p])
    ensures var q := ReadStatement(w, p).procs[p]; Story(l0, w.db, q) && First(q)
  {
    hide Mismatch, Owned;
  }

  lemma ClaimStory(l0: Ledger, w: World, p: Id)
    requires p in w.procs && w.procs[p].at.Checked? && Story(l0, w.db, w.procs[p]) && InStep(w.db, w.clock, w.procs[p])
    ensures var q := ClaimStatement(w, p).procs[p]; Story(l0, w.db, q) && First(q)
  {
    hide Mismatch, Owned;
  }

  /** The insert of a purchase fails only when its post is owned already. */
  lemma ItemStory(l0: Ledger, w: World, p: Id)
    requires Inv(w.db) && p in w.procs && w.procs[p].at.Credited? && Story(l0, w.db, w.procs[p])
      && InStep(w.db, w.clock, w.procs[p])
    ensures var q := ItemStatement(w, p).procs[p]; Story(l0, w.db, q) && First(q)
  {
    hide MoneyConserved, SubsMatchOrders, OnePurchasePerPost, OrdersOk, Mismatch;
    var o, ref := w.procs[p].at.o, Ref(w.procs[p].d);
    assert HoldsOrder(w.db, w.procs[p], o) && w.db.orders[ref].contract == o.contract;
    assert ref !in w.db.purchases && ref !in w.db.tips;
    assert BuysItem(o.contract) && ItemTaken(w.db, ref, o.contract) ==> Owned(w.db, o.contract);
  }

  lemma LaterStory(l0: Ledger, w: World, p: Id, first: Instant, second: Instant)
    requires p in w.procs && Story(l0, w.db, w.procs[p]) && InStep(w.db, w.clock, w.procs[p])
    ensures w.procs[p].at.Claimed? ==> var q := CreditStatement(w, p).procs[p]; Story(l0, w.db, q) && First(q)
    ensures w.procs[p].at.PlanRead? ==>
      var q := SubStatement(w, p, first, second).procs[p]; Story(l0, w.db, q) && First(q)
    ensures w.procs[p].at.SubRead? ==> var q := UpsertStatement(w, p).procs[p]; Story(l0, w.db, q) && First(q)
  {
    hide Mismatch, Owned, NextEnd, UpsertedSub;
  }

  /** Statements between the event insert and the commit show nothing, and where they end tells why. */
  lemma QuietKeepsAccounts(l0: Ledger, newly: set<Id>, w: World, p: Id, first: Instant, second: Instant)
    requires WorldInv(w) && Accounts(l0, w, newly) && p in w.procs && Free(w, p, Wants(w.procs[p]))
    requires !w.procs[p].at.Arrived? && !w.procs[p].at.Written? && !w.procs[p].at.Done?
    ensures Accounts(l0, AdvanceProcess(w, p, first, second), newly)
  {
    var w' := AdvanceProcess(w, p, first, second);
    assert Story(l0, w.db, w.procs[p]) && InStep(w.db, w.clock, w.procs[p]);
    OnlyMarksAndCommitsShow(w, p, first, second);
    OneProcessMoves(w, p, first, second);
    hide WorldInv, Story, InStep, ReadStatement, ClaimStatement, CreditStatement, ItemStatement;
    hide SubStatement, UpsertStatement;
    assert Inv(w.db) by { InvOfWorld(w); }
    match w.procs[p].at {
      case Marked => ReadStory(l0, w, p);
      case Checked(_) => ClaimStory(l0, w, p);
      case Credited(_, _) => ItemStory(l0, w, p);
      case _ => LaterStory(l0, w, p, first, second);
    }
    hide AdvanceProcess, Inv, Free;
    MoveKeepsStories(l0, w, p, w');
    SameTablesSameAccount(l0, newly, w, p, w');
  }

  lemma SameTablesSameAccount(l0: Ledger, newly: set<Id>, w: World, p: Id, w': World)
    requires Accounts(l0, w, newly) && w'.db == w.db && AllTold(l0, w') && p in w.procs && p in w'.procs
    requires w'.procs == w.procs[p := w'.procs[p]] && First(w'.procs[p]) && w'.procs[p].d == w.procs[p].d
    ensures Accounts(l0, w', newly)
  {
    hide OrdersAdvance, CreatorsPaidSince, AllTold, EventsExplained;
    SameEvents(l0, w, p, w');
    SameOrdersSamePaid(l0, w.db, w'.db);
  }

  lemma SameEvents(l0: Ledger, w: World, p: Id, w': World)
    requires EventsExplained(l0, w) && w'.db.events == w.db.events && p in w.procs && p in w'.procs
    requires w'.procs == w.procs[p := w'.procs[p]] && w'.procs[p].d == w.procs[p].d
    requires First(w.procs[p]) ==> First(w'.procs[p])
    ensures EventsExplained(l0, w')
  {
    hide First;
    forall e | e in w'.db.events && e !in l0.events
      ensures exists q :: q in w'.procs && First(w'.procs[q]) && Key(w'.procs[q].d) == e
    {
      var q :| q in w.procs && First(w.procs[q]) && Key(w.procs[q].d) == e;
      assert First(w'.procs[q]) && Key(w'.procs[q].d) == e;
    }
  }

  lemma MarkKeepsAccounts(l0: Ledger, newly: set<Id>, w: World, p: Id)
    requires WorldInv(w) && Accounts(l0, w, newly) && p in w.procs && w.procs[p].at.Arrived?
    ensures Accounts(l0, MarkStatement(w, p), newly)
  {
    hide Inv, CreatorsPaidSince;
    var w', d := MarkStatement(w, p), w.procs[p].d;
    MarkKeepsWorld(w, p);
    MoveKeepsStories(l0, w, p, w');
    assert CreatorsPaidSince(l0, w'.db) == CreatorsPaidSince(l0, w.db) by { SameOrdersSamePaid(l0, w.db, w'.db); }
    hide OrdersAdvance, AllTold, WorldInv;
    forall e | e in w'.db.events && e !in l0.events
      ensures exists q :: q in w'.procs && First(w'.procs[q]) && Key(w'.procs[q].d) == e
    {
      if e in w.db.events {
        var q :| q in w.procs && First(w.procs[q]) && Key(w.procs[q].d) == e;
        assert First(w'.procs[q]) && Key(w'.procs[q].d) == e;
      } else {
        assert First(w'.procs[p]) && Key(w'.procs[p].d) == e;
      }
    }
  }

  lemma SameOrdersSamePaid(l0: Ledger, db: Ledger, db': Ledger)
    requires db'.orders == db.orders
    ensures CreatorsPaidSince(l0, db') == CreatorsPaidSince(l0, db)
  {
    assert forall r :: SettledSince(l0, db', r) <==> SettledSince(l0, db, r);
  }

  lemma CommitStory(l0: Ledger, w: World, p: Id, ref: Id, w': World)
    requires AllTold(l0, w) && Commits(w, p, ref, w')
    ensures Story(l0, w'.db, w'.procs[p])
  {
    assert Story(l0, w.db, w.procs[p]);
    hide Mismatch, Owned;
  }

  lemma CommitKeepsAccounts(l0: Ledger, newly: set<Id>, w: World, p: Id, ref: Id, w': World)
    requires Accounts(l0, w, newly) && Commits(w, p, ref, w') && Inv(w.db) && Inv(w'.db)
    ensures Accounts(l0, w', newly)
  {
    hide Inv, Story, AllTold, OrdersAdvance, CreatorsPaidSince, EventsExplained, PlansKept;
    CommitStory(l0, w, p, ref, w');
    NewlyPaid(l0, w.db, w'.db, ref);
    AdvanceIsTransitive(l0.orders, w.db.orders, w'.db.orders);
    MoveKeepsStories(l0, w, p, w');
    SameEvents(l0, w, p, w');
  }

  lemma ArrivalKeepsAccounts(l0: Ledger, newly: set<Id>, w: World, p: Id, d: Delivery)
    requires Accounts(l0, w, newly) && p !in w.procs
    ensures Accounts(l0, w.(procs := w.procs[p := Process(d, Arrived)]), newly)
  {
    hide OrdersAdvance;
    var w' := w.(procs := w.procs[p := Process(d, Arrived)]);
    forall q | q in w'.procs ensures Story(l0, w'.db, w'.procs[q]) {
      assert q != p ==> Story(l0, w.db, w.procs[q]);
    }
    hide Story, CreatorsPaidSince;
    forall e | e in w'.db.events && e !in l0.events
      ensures exists q :: q in w'.procs && First(w'.procs[q]) && Key(w'.procs[q].d) == e
    {
      var q :| q in w.procs && First(w.procs[q]) && Key(w.procs[q].d) == e;
      assert First(w'.procs[q]) && Key(w'.procs[q].d) == e;
    }
    SameOrdersSamePaid(l0, w.db, w'.db);
  }

  lemma AdvanceKeepsAccounts(l0: Ledger, newly: set<Id>, w: World, p: Id, first: Instant, second: Instant)
    requires WorldInv(w) && Accounts(l0, w, newly) && p in w.procs
    ensures Accounts(l0, AdvanceProcess(w, p, first, second), newly)
  {
    hide WorldInv, Accounts, Commits, Inv;
    hide MarkStatement, ReadStatement, ClaimStatement, CreditStatement, ItemStatement, SubStatement;
    hide UpsertStatement, CommitStatement;
    if Free(w, p, Wants(w.procs[p])) {
      match w.procs[p].at
      case Arrived => MarkKeepsAccounts(l0, newly, w, p);
      case Written(_, _, _, _, _) =>
        CommitEffect(w, p);
        CommitKeepsAccounts(l0, newly, w, p, Ref(w.procs[p].d), CommitStatement(w, p));
      case Done(_) =>
      case _ => QuietKeepsAccounts(l0, newly, w, p, first, second);
    }
  }

  /** A delivery cut off before it recorded its event was never seen; one cut off later did record it. */
  lemma CrashKeepsAccounts(l0: Ledger, newly: set<Id>, w: World, p: Id)
    requires WorldInv(w) && Accounts(l0, w, newly) && p in w.procs && !w.procs[p].at.Done?
    ensures Accounts(l0, Step(w, Crash(p)), newly)
  {
    var w' := Step(w, Crash(p));
    InvOfWorld(w);
    hide WorldInv, Inv, AllTold, EventsExplained, OrdersAdvance, CreatorsPaidSince, PlansKept, Story;
    CrashStory(l0, w, p);
    MoveKeepsStories(l0, w, p, w');
    SameEvents(l0, w, p, w');
    SameOrdersSamePaid(l0, w.db, w'.db);
  }

  lemma CrashStory(l0: Ledger, w: World, p: Id)
    requires AllTold(l0, w) && p in w.procs && !w.procs[p].at.Done?
    ensures Story(l0, w.db, Step(w, Crash(p)).procs[p])
    ensures OrdersAdvance(w.db.orders, w.db.orders)
  {
    assert Story(l0, w.db, w.procs[p]);
    hide Mismatch, Owned;
  }

  /** What an operation of another kind may change of the books: plans, and wallets that hold nothing. */
  lemma OtherEffect(db: Ledger, op: Op)
    requires !op.OMark? && !op.OGrant? && !op.OCheckout?
    ensures var db' := DoOp(db, op);
            && db'.orders == db.orders && db'.events == db.events && PlansKept(db.plans, db'.plans)
            && db'.wallets.Keys == db.wallets.Keys + (if op.OOpenWallet? then {op.user} else {})
  {
    hide HasPlan, PlansKept;
    OpKeepsPlans(db, op);
  }

  lemma OtherKeepsAccounts(l0: Ledger, newly: set<Id>, w: World, op: Op, w': World)
    requires Accounts(l0, w, newly) && Inv(w.db) && Inv(w'.db) && !op.OMark? && !op.OGrant? && !op.OCheckout?
    requires w'.db == DoOp(w.db, op) && w'.procs == w.procs
    ensures Accounts(l0, w', newly + (if op.OOpenWallet? then {op.user} else {}))
  {
    hide DoOp, Inv, PlansKept, CreatorsPaidSince, Story, OrdersAdvance, EventsExplained;
    OtherEffect(w.db, op);
    PlansKeptIsTransitive(l0.plans, w.db.plans, w'.db.plans);
    SameOrdersSamePaid(l0, w.db, w'.db);
    SameBooksSameStories(l0, w, w');
  }

  lemma PlansKeptIsTransitive(a: map<Id, Plan>, b: map<Id, Plan>, c: map<Id, Plan>)
    requires PlansKept(a, b) && PlansKept(b, c)
    ensures PlansKept(a, c)
  {
  }

  lemma SameBooksSameStories(l0: Ledger, w: World, w': World)
    requires AllTold(l0, w) && EventsExplained(l0, w) && Inv(w.db) && Inv(w'.db)
    requires w'.db.orders == w.db.orders && w'.db.events == w.db.events && w'.procs == w.procs
    ensures AllTold(l0, w') && EventsExplained(l0, w')
  {
    hide Inv, Story;
    forall q | q in w'.procs ensures Story(l0, w'.db, w'.procs[q]) {
      StoryStays(l0, w.db, w'.db, w.procs[q]);
    }
  }

  lemma MoreWallets(l0: Ledger, w: World, few: set<Id>, many: set<Id>)
    requires Accounts(l0, w, few) && few <= many
    ensures Accounts(l0, w, many)
  {
    hide OrdersAdvance, EventsExplained, AllTold, CreatorsPaidSince, PlansKept;
  }

  lemma StepKeepsAccounts(l0: Ledger, newly: set<Id>, w: World, a: Action)
    requires WorldInv(w) && Accounts(l0, w, newly) && !(a.Other? && a.op.OCheckout?)
    ensures Accounts(l0, Step(w, a), newly + OpenedBy([a]))
  {
    hide WorldInv, AdvanceProcess, Accounts, DoOp;
    var w' := Step(w, a);
    match a
    case Deliver(p, d) =>
      if p !in w.procs { ArrivalKeepsAccounts(l0, newly, w, p, d); }
      MoreWallets(l0, w', newly, newly + OpenedBy([a]));
    case Advance(p, first, second) =>
      if p in w.procs { AdvanceKeepsAccounts(l0, newly, w, p, first, second); }
      MoreWallets(l0, w', newly, newly + OpenedBy([a]));
    case Crash(p) =>
      if p in w.procs && !w.procs[p].at.Done? { CrashKeepsAccounts(l0, newly, w, p); }
      MoreWallets(l0, w', newly, newly + OpenedBy([a]));
    case Other(op) =>
      if w' == w {
        MoreWallets(l0, w', newly, newly + OpenedBy([a]));
      } else {
        StepKeepsInv(w, a);
        InvOfWorld(w);
        InvOfWorld(w');
        OtherKeepsAccounts(l0, newly, w, op, w');
        assert a in [a];
        MoreWallets(l0, w', newly + (if op.OOpenWallet? then {op.user} else {}), newly + OpenedBy([a]));
      }
  }

  lemma {:induction false} RunKeepsAccounts(w0: World, actions: seq<Action>)
    requires WorldInv(w0) && w0.procs == map[] && NoCheckouts(actions)
    ensures WorldInv(Run(w0, actions)) && Accounts(w0.db, Run(w0, actions), OpenedBy(actions))
    decreases |actions|
  {
    hide WorldInv, Step, Accounts;
    if actions == [] {
      StartAccounts(w0);
    } else {
      var prefix, a := actions[..|actions| - 1], actions[|actions| - 1];
      RunKeepsAccounts(w0, prefix);
      StepKeepsInv(Run(w0, prefix), a);
      StepKeepsAccounts(w0.db, OpenedBy(prefix), Run(w0, prefix), a);
      assert actions == prefix + [a];
      assert OpenedBy(actions) == OpenedBy(prefix) + OpenedBy([a]);
    }
  }

  lemma StartAccounts(w0: World)
    requires w0.procs == map[]
    ensures Accounts(w0.db, w0, OpenedBy([]))
  {
    assert CreatorsPaidSince(w0.db, w0.db) == {};
  }

  // ------------------------------------------------------------ once all have finished

  /** A first delivery that has finished without settling its order tells why. */
  lemma FinishedStory(l0: Ledger, w: World, q: Id, r: Id)
    requires Inv(l0) && Inv(w.db) && !Contested(l0) && OrdersAdvance(l0.orders, w.db.orders)
    requires q in w.procs && w.procs[q].at.Done? && w.procs[q].at != Done(Crashed)
    requires First(w.procs[q]) && Story(l0, w.db, w.procs[q])
    requires r in l0.orders && l0.orders[r].status == Pending && !Owned(l0, l0.orders[r].contract)
      && Pays(l0, w.procs[q].d, r)
    ensures SettledSince(l0, w.db, r)
  {
    hide Inv, Contested, Owned, Mismatch;
    if w.db.orders[r].status == Pending {
      OwnedEarlier(l0, w.db, r);
    }
  }

  lemma EnoughWasPaid(l0: Ledger, newly: set<Id>, w: World, d: Delivery, r: Id)
    requires Inv(l0) && Inv(w.db) && !Contested(l0) && Accounts(l0, w, newly) && Finished(w) && Consistent(Delivered(w))
    requires r in l0.orders && l0.orders[r].status == Pending && !Owned(l0, l0.orders[r].contract)
    requires d in Delivered(w) && Pays(l0, d, r)
    ensures SettledSince(l0, w.db, r)
  {
    var p :| p in w.procs && w.procs[p].d == d;
    assert Story(l0, w.db, w.procs[p]);
    var q :| q in w.procs && First(w.procs[q]) && Key(w.procs[q].d) == Key(d);
    assert w.procs[q].d in Delivered(w);
    assert Story(l0, w.db, w.procs[q]);
    hide Accounts, Story, Inv, Contested, Owned, OrdersAdvance;
    FinishedStory(l0, w, q, r);
  }

  /** A post bought now was not owned at the start. */
  lemma BoughtOnce(l0: Ledger, db: Ledger, r: Id)
    requires Inv(l0) && Inv(db) && OrdersAdvance(l0.orders, db.orders) && SettledSince(l0, db, r)
    ensures r in l0.orders && l0.orders[r].status == Pending && !Owned(l0, l0.orders[r].contract)
  {
    var c := l0.orders[r].contract;
    if c.kind == Purchase && c.post.Some? {
      forall x | x in l0.purchases ensures l0.purchases[x].buyer != c.buyer || l0.purchases[x].post != c.post {
        NoSecondCopy(l0, db, r, x);
      }
    }
  }

  lemma NoSecondCopy(l0: Ledger, db: Ledger, r: Id, x: Id)
    requires Inv(l0) && Inv(db) && OrdersAdvance(l0.orders, db.orders) && SettledSince(l0, db, r) && r in l0.orders
      && x in l0.purchases
    requires l0.orders[r].contract.kind == Purchase && l0.orders[r].contract.post.Some?
    ensures l0.purchases[x].buyer != l0.orders[r].contract.buyer || l0.purchases[x].post != l0.orders[r].contract.post
  {
    hide MoneyConserved, SubsMatchOrders, OrdersOk, TipsOf;
    assert x in db.purchases && db.purchases[x] == l0.purchases[x];
    assert r in db.purchases && db.purchases[r] == PurchaseFor(l0.orders[r].contract);
    assert r != x;
  }

  lemma PaidForIt(l0: Ledger, newly: set<Id>, w: World, r: Id)
    requires Inv(l0) && Inv(w.db) && Accounts(l0, w, newly) && ExactlyOnce(l0, w) && SettledSince(l0, w.db, r)
    ensures WillSettle(l0, Delivered(w), r)
  {
    hide Inv, Owned, Mismatch;
    var p :| p in w.procs && GrantedTo(w.procs[p], r);
    BoughtOnce(l0, w.db, r);
    assert Story(l0, w.db, w.procs[p]) by { hide ExactlyOnce, Story, OrdersAdvance; }
    GrantedWasPaid(l0, w, p, r);
    hide Accounts, ExactlyOnce, Pays, Story;
    assert w.procs[p].d in Delivered(w);
  }

  lemma GrantedWasPaid(l0: Ledger, w: World, p: Id, r: Id)
    requires OrdersAdvance(l0.orders, w.db.orders) && ExactlyOnce(l0, w) && r in l0.orders
    requires p in w.procs && GrantedTo(w.procs[p], r) && Story(l0, w.db, w.procs[p])
    ensures Pays(l0, w.procs[p].d, r)
  {
    hide Mismatch, Owned;
  }

  lemma SettledAsTheSetSays(l0: Ledger, newly: set<Id>, w: World)
    requires Inv(l0) && Inv(w.db) && !Contested(l0) && Accounts(l0, w, newly) && ExactlyOnce(l0, w)
    requires Finished(w) && Consistent(Delivered(w))
    ensures forall r :: SettledSince(l0, w.db, r) <==> WillSettle(l0, Delivered(w), r)
  {
    hide Inv, Contested, Accounts, ExactlyOnce, Delivered, Finished, Consistent, Owned, Pays, SettledSince;
    forall r ensures SettledSince(l0, w.db, r) <==> WillSettle(l0, Delivered(w), r) {
      if SettledSince(l0, w.db, r) {
        PaidForIt(l0, newly, w, r);
      } else if WillSettle(l0, Delivered(w), r) {
        var d :| d in Delivered(w) && Pays(l0, d, r);
        EnoughWasPaid(l0, newly, w, d, r);
      }
    }
  }

  lemma EventsAsTheSetSays(l0: Ledger, newly: set<Id>, w: World)
    requires Accounts(l0, w, newly) && Finished(w)
    ensures w.db.events == l0.events + Keys(Delivered(w))
  {
    hide OrdersAdvance, CreatorsPaidSince;
    forall e | e in Keys(Delivered(w)) ensures e in w.db.events {
      var d :| d in Delivered(w) && Key(d) == e;
      var p :| p in w.procs && w.procs[p].d == d;
      assert Story(l0, w.db, w.procs[p]);
    }
    forall e | e in w.db.events && e !in l0.events ensures e in Keys(Delivered(w)) {
      var p :| p in w.procs && First(w.procs[p]) && Key(w.procs[p].d) == e;
      assert w.procs[p].d in Delivered(w);
    }
  }

  lemma FinishedIsReached(l0: Ledger, newly: set<Id>, w: World)
    requires Inv(l0) && Inv(w.db) && !Contested(l0) && Accounts(l0, w, newly) && ExactlyOnce(l0, w)
    requires Finished(w) && Consistent(Delivered(w))
    ensures ReachedBooks(l0, Delivered(w), w.db)
    ensures WalletsAfter(l0, Delivered(w)) <= w.db.wallets.Keys <= WalletsAfter(l0, Delivered(w)) + newly
  {
    SettledAsTheSetSays(l0, newly, w);
    EventsAsTheSetSays(l0, newly, w);
    hide Inv, Contested, ExactlyOnce, Delivered, Finished, Consistent, EventsExplained, AllTold;
    hide WillSettle, SettledSince;
    hide CreatorsPaidSince, WalletsAfter, OrdersAfter, OrdersAdvance, PlansKept;
    OrdersAsTheSetSays(l0, w.db, Delivered(w));
    WalletsAsTheSetSays(l0, w.db, Delivered(w));
  }

  lemma WalletsAsTheSetSays(l0: Ledger, db: Ledger, ds: set<Delivery>)
    requires OrdersAdvance(l0.orders, db.orders)
    requires forall r :: SettledSince(l0, db, r) <==> WillSettle(l0, ds, r)
    ensures l0.wallets.Keys + CreatorsPaidSince(l0, db) == WalletsAfter(l0, ds)
  {
    hide WillSettle, SettledSince;
    assert forall r :: r in db.orders ==> db.orders[r].contract == l0.orders[r].contract;
    forall c
      ensures c in CreatorsPaidSince(l0, db)
         <==> exists r :: r in l0.orders && WillSettle(l0, ds, r) && l0.orders[r].contract.creator == c
    {
    }
  }

  lemma OrdersAsTheSetSays(l0: Ledger, db: Ledger, ds: set<Delivery>)
    requires OrdersAdvance(l0.orders, db.orders)
    requires forall r :: SettledSince(l0, db, r) <==> WillSettle(l0, ds, r)
    ensures db.orders == OrdersAfter(l0, ds)
  {
    StatusAfter(l0, ds);
    hide WillSettle;
  }

  /**
   Concurrency makes no difference: with no two open orders competing for one post, every interleaving in
   which no order is placed, and at whose end every delivery is done and none was cut off with its event
   consumed, leaves the books of any serial handling of the deliveries seen, and so of any other such
   interleaving. Only empty wallets opened meanwhile can tell them apart.
   */
  lemma ConcurrentIsSerial(w0: World, actions: seq<Action>, ts: seq<Timed>)
    requires WorldInv(w0) && w0.procs == map[] && !Contested(w0.db) && NoCheckouts(actions)
    requires Finished(Run(w0, actions)) && Consistent(Delivered(Run(w0, actions)))
    requires DeliveriesOf(ts) == Delivered(Run(w0, actions))
    ensures SameBooks(Run(w0, actions).db, HandleAll(w0.db, ts))
    ensures OpenedBy(actions) == {} ==> SameOutcome(Run(w0, actions).db, HandleAll(w0.db, ts))
  {
    hide Inv, Run, Contested, Accounts, ExactlyOnce, Delivered, DeliveriesOf, Consistent, Finished;
    hide NoCheckouts, OpenedBy;
    var w := Run(w0, actions);
    RunKeepsAccounts(w0, actions);
    RunsGrantExactlyOnce(w0, actions);
    InvOfWorld(w0);
    InvOfWorld(w);
    hide WorldInv, ReachedBooks, SameOutcome, SameBooks, WalletsAfter;
    FinishedIsReached(w0.db, OpenedBy(actions), w);
    RunReaches(w0.db, ts);
    ReachedIsUnique(w0.db, Delivered(w), w.db, HandleAll(w0.db, ts));
  }
}
