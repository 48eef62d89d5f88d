/**
 Concurrent fulfilment, statement by statement. Any number of webhook deliveries run at once, each may crash
 at any point, and checkouts, cancellations and plan changes run between their statements.

 Assumed of the database (PostgreSQL, READ COMMITTED): a transaction commits or rolls back as a whole, its
 writes show to others only at commit, and a written row or a key inserted into a unique index stays locked
 until then. A statement that needs a held lock waits; waiting is a step that changes nothing.
 */
module Fulfilment {
  import opened Wrappers
  import opened Calendar
  import opened Ledger
  import opened Deliveries

  /**
   How a delivery ended. RolledBack is a transaction refused by a unique key; Unseen and Crashed are deliveries
   cut off before and after they recorded their event.
   */
  datatype Outcome = Duplicate | NoOrder | AlreadyDone | Refused | LostRace | Granted | RolledBack | Unseen | Crashed

  /**
   Where a delivery stands, with what its transaction has read and the writes it still holds back:
   the order as read before the transaction, the wallet value and the subscription row to be written.
   */
  datatype Stage =
    | Arrived
    | Marked
    | Checked(o: Order)
    | Claimed(o: Order)
    | Credited(o: Order, wallet: int)
    | PlanRead(o: Order, wallet: int, plan: Option<Plan>)
    | SubRead(o: Order, wallet: int, end: Instant, first: Instant, second: Instant)
    | Written(o: Order, wallet: int, sub: Option<Sub>, first: Instant, second: Instant)
    | Done(outcome: Outcome)

  datatype Process = Process(d: Delivery, at: Stage)

  /** Committed tables, the clock, the deliveries in progress, and what has been committed in which order. */
  datatype World = World(db: Ledger, clock: Instant, procs: map<Id, Process>, log: seq<Op>)

  /** Lockable things: an order row, a wallet, a subscription, and the (buyer, post) key of a purchase. */
  datatype Lock = OrderLock(ref: Id) | WalletLock(user: Id) | SubLock(key: (Id, Id)) | PostLock(buyer: Id, post: Id)

  datatype Action =
    | Deliver(p: Id, d: Delivery)
    | Advance(p: Id, first: Instant, second: Instant)  // the next statement; the instants are clock readings
    | Crash(p: Id)
    | Other(op: Op)

  function Ref(d: Delivery): Id { if d.order.Some? then d.order.value else 0 }

  function SubLocks(c: Contract): set<Lock> { {SubLock((c.buyer, c.creator))} }

  function PostLocks(c: Contract): set<Lock>
  {
    if BuysItem(c) && c.post.Some? then {PostLock(c.buyer, c.post.value)} else {}
  }

  /** The locks a process holds. */
  function Locks(p: Process): set<Lock>
  {
    match p.at
    case Claimed(_) => {OrderLock(Ref(p.d))}
    case Credited(o, _) => {OrderLock(Ref(p.d)), WalletLock(o.contract.creator)}
    case PlanRead(o, _, _) => {OrderLock(Ref(p.d)), WalletLock(o.contract.creator)}
    case SubRead(o, _, _, _, _) => {OrderLock(Ref(p.d)), WalletLock(o.contract.creator)}
    case Written(o, _, sub, _, _) =>
      {OrderLock(Ref(p.d)), WalletLock(o.contract.creator)} + (if sub.Some? then SubLocks(o.contract) else {})
        + PostLocks(o.contract)
    case _ => {}
  }

  /** The locks the next statement of a process has to acquire. */
  function Wants(p: Process): set<Lock>
  {
    match p.at
    case Checked(_) => {OrderLock(Ref(p.d))}
    case Claimed(o) => {WalletLock(o.contract.creator)}
    case Credited(o, _) => PostLocks(o.contract)
    case SubRead(o, _, _, _, _) => SubLocks(o.contract)
    case _ => {}
  }

  /** No other process holds any of these locks. */
  predicate Free(w: World, p: Id, locks: set<Lock>)
  {
    forall q :: q in w.procs && q != p ==> Locks(w.procs[q]) !! locks
  }

  function Move(w: World, p: Id, at: Stage): World
    requires p in w.procs
  {
    w.(procs := w.procs[p := w.procs[p].(at := at)])
  }

  // ------------------------------------------------------------ the statements

  /** Autocommitted insert of the event id, refused by its unique key when it was seen before. */
  function MarkStatement(w: World, p: Id): World
    requires p in w.procs
  {
    var d := w.procs[p].d;
    if Key(d) in w.db.events then Move(w, p, Done(Duplicate))
    else Move(w.(db := MarkEvent(w.db, d.provider, d.event), log := w.log + [OMark(d.provider, d.event)]), p, Marked)
  }

  /** The read before the transaction, with the two early returns that follow it. */
  function ReadStatement(w: World, p: Id): World
    requires p in w.procs
  {
    var d := w.procs[p].d;
    if d.order.None? || d.order.value !in w.db.orders then Move(w, p, Done(NoOrder))
    else
      var o := w.db.orders[d.order.value];
      if o.status == Succeeded then Move(w, p, Done(AlreadyDone))
      else if Mismatch(d.reported, o.contract.amountCents) then Move(w, p, Done(Refused))
      else Move(w, p, Checked(o))
  }

  /** The compare-and-set: matches only a row that is still PENDING once its lock is granted. */
  function ClaimStatement(w: World, p: Id): World
    requires p in w.procs && w.procs[p].at.Checked?
  {
    var ref := Ref(w.procs[p].d);
    if ref in w.db.orders && w.db.orders[ref].status == Pending
    then Move(w, p, Claimed(w.procs[p].at.o))
    else Move(w, p, Done(LostRace))
  }

  function CreditStatement(w: World, p: Id): World
    requires p in w.procs && w.procs[p].at.Claimed?
  {
    var o := w.procs[p].at.o;
    Move(w, p, Credited(o, Held(w.db.wallets, o.contract.creator) + Net(o)))
  }

  /** The plan read of a subscription, or the insert of a purchase or tip. */
  function ItemStatement(w: World, p: Id): World
    requires p in w.procs && w.procs[p].at.Credited?
  {
    var Credited(o, wallet) := w.procs[p].at;
    var c, ref := o.contract, Ref(w.procs[p].d);
    if BuysPlan(c) then
      Move(w, p, PlanRead(o, wallet, if c.plan.value in w.db.plans then Some(w.db.plans[c.plan.value]) else None))
    else if BuysItem(c) && ItemTaken(w.db, ref, c) then Move(w, p, Done(RolledBack))
    else if c.kind == Tip && ref in w.db.tips then Move(w, p, Done(RolledBack))
    else Move(w, p, Written(o, wallet, None, w.clock, w.clock))
  }

  /** The subscription read and the two clock readings. */
  function SubStatement(w: World, p: Id, first: Instant, second: Instant): World
    requires p in w.procs && w.procs[p].at.PlanRead?
  {
    var PlanRead(o, wallet, plan) := w.procs[p].at;
    var now := if first < w.clock then w.clock else first;
    var then' := if second < now then now else second;
    if plan.None? then Move(w, p, Written(o, wallet, None, w.clock, w.clock))
    else
      var end := NextEnd(SubOf(w.db, o.contract), MonthsOf(plan.value.interval), now, then');
      Move(w.(clock := then'), p, SubRead(o, wallet, end, now, then'))
  }

  function UpsertStatement(w: World, p: Id): World
    requires p in w.procs && w.procs[p].at.SubRead?
  {
    var SubRead(o, wallet, end, first, second) := w.procs[p].at;
    if o.contract.plan.None? then Move(w, p, Done(RolledBack))
    else Move(w, p, Written(o, wallet, Some(UpsertedSub(SubOf(w.db, o.contract), o.contract, end)), first, second))
  }

  /** All held-back writes reach the committed tables at once. */
  function CommitWrites(l: Ledger, ref: Id, o: Order, wallet: int, sub: Option<Sub>): Ledger
    requires ref in l.orders
  {
    var c := o.contract;
    Claim(l, ref).(
      wallets := l.wallets[c.creator := wallet],
      subs := if sub.Some? then l.subs[(c.buyer, c.creator) := sub.value] else l.subs,
      purchases := if BuysItem(c) then l.purchases[ref := PurchaseFor(c)] else l.purchases,
      tips := if c.kind == Tip then l.tips[ref := TipFor(c)] else l.tips)
  }

  function CommitStatement(w: World, p: Id): World
    requires p in w.procs && w.procs[p].at.Written?
  {
    var Written(o, wallet, sub, first, second) := w.procs[p].at;
    var ref := Ref(w.procs[p].d);
    if ref !in w.db.orders then Move(w, p, Done(RolledBack))
    else
      Move(w.(db := CommitWrites(w.db, ref, o, wallet, sub), log := w.log + [OGrant(ref, first, second)]), p,
           Done(Granted))
  }

  function AdvanceProcess(w: World, p: Id, first: Instant, second: Instant): World
    requires p in w.procs
  {
    if !Free(w, p, Wants(w.procs[p])) then w
    else match w.procs[p].at
      case Arrived => MarkStatement(w, p)
      case Marked => ReadStatement(w, p)
      case Checked(_) => ClaimStatement(w, p)
      case Claimed(_) => CreditStatement(w, p)
      case Credited(_, _) => ItemStatement(w, p)
      case PlanRead(_, _, _) => SubStatement(w, p, first, second)
      case SubRead(_, _, _, _, _) => UpsertStatement(w, p)
      case Written(_, _, _, _, _) => CommitStatement(w, p)
      case Done(_) => w
  }

  /** The locks that a single-statement operation has to find free. */
  function Needs(op: Op): set<Lock>
  {
    match op
    case OCancel(key) => {SubLock(key)}
    case OOpenWallet(user) => {WalletLock(user)}
    case _ => {}
  }

  /** One step of the world; marks and grants come only from deliveries. */
  function Step(w: World, a: Action): World
  {
    match a
    case Deliver(p, d) => if p in w.procs then w else w.(procs := w.procs[p := Process(d, Arrived)])
    case Advance(p, first, second) => if p in w.procs then AdvanceProcess(w, p, first, second) else w
    case Crash(p) =>
      if p in w.procs && !w.procs[p].at.Done?
      then Move(w, p, Done(if w.procs[p].at.Arrived? then Unseen else Crashed)) else w
    case Other(op) =>
      if op.OMark? || op.OGrant? || exists q :: q in w.procs && !(Locks(w.procs[q]) !! Needs(op)) then w
      else w.(db := DoOp(w.db, op), log := w.log + [op])
  }

  /**
   Operations besides deliveries run between their statements: a cancellation waits for its subscription row, a new
   wallet for its wallet row, and checkouts and plan edits for nothing.
   */
  lemma OthersRunBetween(w: World, op: Op)
    requires !op.OMark? && !op.OGrant?
    requires op.OCancel? ==> forall q :: q in w.procs ==> SubLock(op.key) !in Locks(w.procs[q])
    requires op.OOpenWallet? ==> forall q :: q in w.procs ==> WalletLock(op.user) !in Locks(w.procs[q])
    ensures Step(w, Other(op)) == w.(db := DoOp(w.db, op), log := w.log + [op])
  {
    hide DoOp, Locks;
  }

  function Run(w: World, actions: seq<Action>): World
  {
    if actions == [] then w else Step(Run(w, actions[..|actions| - 1]), actions[|actions| - 1])
  }

  // ------------------------------------------------------------ the invariant

  /** The order is still the contract that was read. */
  predicate SameContract(db: Ledger, p: Process, o: Order)
  {
    p.d.order.Some? && Ref(p.d) in db.orders && db.orders[Ref(p.d)].(status := o.status) == o
    && !Mismatch(p.d.reported, o.contract.amountCents)
    && (BuysPlan(o.contract) ==> o.contract.plan.value in db.plans)
  }

  predicate HoldsOrder(db: Ledger, p: Process, o: Order)
  {
    SameContract(db, p, o) && db.orders[Ref(p.d)].status == Pending
  }

  predicate HoldsWallet(db: Ledger, p: Process, o: Order, wallet: int)
  {
    HoldsOrder(db, p, o) && wallet == Held(db.wallets, o.contract.creator) + Net(o)
  }

  /** The row a subscription upsert must write if it ran alone on these tables. */
  function SubToWrite(db: Ledger, c: Contract, first: Instant, second: Instant): Option<Sub>
  {
    if BuysPlan(c) && c.plan.value in db.plans then
      var end := NextEnd(SubOf(db, c), MonthsOf(db.plans[c.plan.value].interval), first, second);
      Some(UpsertedSub(SubOf(db, c), c, end))
    else None
  }

  /** What a process has read and prepared is what it would read and prepare on the tables as they are now. */
  predicate InStep(db: Ledger, clock: Instant, p: Process)
  {
    match p.at
    case Checked(o) => SameContract(db, p, o)
    case Claimed(o) => HoldsOrder(db, p, o)
    case Credited(o, wallet) => HoldsWallet(db, p, o, wallet)
    case PlanRead(o, wallet, plan) =>
      && HoldsWallet(db, p, o, wallet) && BuysPlan(o.contract)
      && plan.Some? && plan.value.interval == db.plans[o.contract.plan.value].interval
    case SubRead(o, wallet, end, first, second) =>
      && HoldsWallet(db, p, o, wallet) && BuysPlan(o.contract)
      && end == NextEnd(SubOf(db, o.contract), MonthsOf(db.plans[o.contract.plan.value].interval), first, second)
      && first <= second <= clock
    case Written(o, wallet, sub, first, second) =>
      && HoldsWallet(db, p, o, wallet)
      && sub == SubToWrite(db, o.contract, first, second)
      && (BuysItem(o.contract) ==> !ItemTaken(db, Ref(p.d), o.contract))
      && first <= second <= clock
    case _ => true
  }

  /** No lock is held twice. */
  predicate Exclusive(procs: map<Id, Process>)
  {
    forall p, q :: p in procs && q in procs && p != q ==> Locks(procs[p]) !! Locks(procs[q])
  }

  predicate AllInStep(w: World)
  {
    forall p :: p in w.procs ==> InStep(w.db, w.clock, w.procs[p])
  }

  ghost predicate WorldInv(w: World)
  {
    Inv(w.db) && Exclusive(w.procs) && AllInStep(w)
  }

  // ------------------------------------------------------------ commits are grants

  /** The heart of it: what a process commits is what the whole transaction would do on the tables of that moment. */
  lemma CommitIsGrant(db: Ledger, clock: Instant, p: Process)
    requires Inv(db) && p.at.Written? && InStep(db, clock, p)
    ensures Grant(db, Ref(p.d), p.at.first, p.at.second)
         == Some(CommitWrites(db, Ref(p.d), p.at.o, p.at.wallet, p.at.sub))
  {
    hide MoneyConserved, SubsMatchOrders, OnePurchasePerPost, NextEnd, OrdersOk;
    var ref, o := Ref(p.d), p.at.o;
    var c := o.contract;
    assert db.orders[ref].contract == c && Net(db.orders[ref]) == Net(o);
    assert ref !in db.tips;
    var claimed := Credit(Claim(db, ref), c.creator, Net(o));
    var extended := ExtendSub(claimed, c, p.at.first, p.at.second);
    assert SubOf(claimed, c) == SubOf(db, c);
    assert extended.purchases == db.purchases;
    assert BuysItem(c) ==> !ItemTaken(extended, ref, c);
  }

  /** What an operation writes. */
  function Touches(db: Ledger, op: Op): set<Lock>
  {
    match op
    case OGrant(ref, _, _) =>
      if ref in db.orders then
        var c := db.orders[ref].contract;
        {OrderLock(ref), WalletLock(c.creator)} + (if BuysPlan(c) then SubLocks(c) else {}) + PostLocks(c)
      else {}
    case _ => Needs(op)
  }

  /** A process is not disturbed by an operation that touches none of its locks. */
  lemma Undisturbed(db: Ledger, clock: Instant, p: Process, op: Op)
    requires Inv(db) && InStep(db, clock, p) && Locks(p) !! Touches(db, op)
    ensures InStep(DoOp(db, op), clock, p)
  {
    hide Inv, Locks, InStep, Grant, Checkout, CancelSub, UpsertPlan, DeactivatePlan, OpenWallet;
    match op
    case OGrant(ref, first, second) => UndisturbedByGrant(db, clock, p, ref, first, second);
    case OCheckout(ref, c) => UndisturbedByCheckout(db, clock, p, ref, c);
    case OMark(provider, event) => UndisturbedByMark(db, clock, p, provider, event);
    case OCancel(key) => UndisturbedByCancel(db, clock, p, key);
    case OUpsertPlan(_, _, _, _, _, _) => UndisturbedByPlans(db, clock, p, op);
    case ODeactivatePlan(_, _) => UndisturbedByPlans(db, clock, p, op);
    case OOpenWallet(user) => UndisturbedByWallet(db, clock, p, user);
  }

  lemma UndisturbedByMark(db: Ledger, clock: Instant, p: Process, provider: Provider, event: Id)
    requires InStep(db, clock, p)
    ensures InStep(MarkEvent(db, provider, event), clock, p)
  {
    hide Mismatch, NextEnd, Net;
  }

  lemma UndisturbedByCheckout(db: Ledger, clock: Instant, p: Process, ref: Id, c: Contract)
    requires InStep(db, clock, p)
    ensures InStep(Checkout(db, ref, c), clock, p)
  {
    hide Mismatch, NextEnd, Net, Offered, NewOrder;
  }

  lemma UndisturbedByPlans(db: Ledger, clock: Instant, p: Process, op: Op)
    requires InStep(db, clock, p) && (op.OUpsertPlan? || op.ODeactivatePlan?)
    ensures InStep(DoOp(db, op), clock, p)
  {
    hide Mismatch, NextEnd, Net, InStep;
    var db' := DoOp(db, op);
    forall id | id in db.plans ensures id in db'.plans && db'.plans[id].interval == db.plans[id].interval {
      PlansAreStable(db, op, id);
    }
    PlanEditsOnlyPlans(db, op);
    hide DoOp;
    SameButPlans(db, clock, p, db');
  }

  lemma PlanEditsOnlyPlans(db: Ledger, op: Op)
    requires op.OUpsertPlan? || op.ODeactivatePlan?
    ensures DoOp(db, op) == db.(plans := DoOp(db, op).plans)
  {
    hide HasPlan;
  }

  lemma SameButPlans(db: Ledger, clock: Instant, p: Process, db': Ledger)
    requires InStep(db, clock, p) && db' == db.(plans := db'.plans)
    requires forall id :: id in db.plans ==> id in db'.plans && db'.plans[id].interval == db.plans[id].interval
    ensures InStep(db', clock, p)
  {
    hide Mismatch, NextEnd, Net;
  }

  /** An empty wallet reads as the amount that no wallet reads as. */
  lemma UndisturbedByWallet(db: Ledger, clock: Instant, p: Process, user: Id)
    requires InStep(db, clock, p)
    ensures InStep(OpenWallet(db, user), clock, p)
  {
    hide Mismatch, NextEnd, Net;
  }

  lemma UndisturbedByCancel(db: Ledger, clock: Instant, p: Process, key: (Id, Id))
    requires InStep(db, clock, p) && SubLock(key) !in Locks(p)
    ensures InStep(CancelSub(db, key), clock, p)
  {
  }

  /** What a grant changes, and that it changes nothing else. */
  ghost predicate OnlyGrants(db: Ledger, ref: Id, db': Ledger)
    requires ref in db.orders
  {
    var c := db.orders[ref].contract;
    && db'.plans == db.plans
    && db'.orders == db.orders[ref := db.orders[ref].(status := Succeeded)]
    && (forall u :: u != c.creator ==> Held(db'.wallets, u) == Held(db.wallets, u))
    && (forall k :: k != (c.buyer, c.creator) || !BuysPlan(c) ==>
          (k in db.subs <==> k in db'.subs) && (k in db.subs ==> db'.subs[k] == db.subs[k]))
    && (db'.purchases == if BuysItem(c) then db.purchases[ref := PurchaseFor(c)] else db.purchases)
  }

  lemma GrantChangesOnly(db: Ledger, ref: Id, first: Instant, second: Instant)
    requires ref in db.orders && db.orders[ref].status == Pending && Grant(db, ref, first, second).Some?
    ensures OnlyGrants(db, ref, Grant(db, ref, first, second).value)
  {
    hide ItemTaken, NextEnd;
  }

  lemma UndisturbedByGrant(db: Ledger, clock: Instant, p: Process, ref: Id, first: Instant, second: Instant)
    requires InStep(db, clock, p) && Locks(p) !! Touches(db, OGrant(ref, first, second))
    ensures InStep(DoOp(db, OGrant(ref, first, second)), clock, p)
  {
    hide Grant;
    if ref in db.orders && db.orders[ref].status != Pending {
      GrantOfClosedOrder(db, ref, first, second);
    } else if ref in db.orders && Grant(db, ref, first, second).Some? {
      GrantChangesOnly(db, ref, first, second);
      StaysInStep(db, clock, p, ref, Grant(db, ref, first, second).value);
    }
  }

  /** Disjoint locks mean different orders, wallets, subscriptions and post keys. */
  lemma StaysInStep(db: Ledger, clock: Instant, p: Process, ref: Id, db': Ledger)
    requires InStep(db, clock, p) && ref in db.orders && db.orders[ref].status == Pending && OnlyGrants(db, ref, db')
    requires Locks(p) !! Touches(db, OGrant(ref, 0, 0))
    ensures InStep(db', clock, p)
  {
    hide Mismatch, NextEnd, Net;
    assert OrderLock(ref) in Touches(db, OGrant(ref, 0, 0));
    assert WalletLock(db.orders[ref].contract.creator) in Touches(db, OGrant(ref, 0, 0));
    match p.at
    case Written(o, _, _, _, _) =>
      assert OrderLock(Ref(p.d)) in Locks(p);
      assert WalletLock(o.contract.creator) in Locks(p);
      if BuysItem(o.contract) {
        ItemStaysFree(db, ref, Ref(p.d), o.contract, db');
      }
    case SubRead(o, _, _, _, _) =>
      assert OrderLock(Ref(p.d)) in Locks(p) && WalletLock(o.contract.creator) in Locks(p);
    case PlanRead(o, _, _) =>
      assert OrderLock(Ref(p.d)) in Locks(p) && WalletLock(o.contract.creator) in Locks(p);
    case Credited(o, _) =>
      assert OrderLock(Ref(p.d)) in Locks(p) && WalletLock(o.contract.creator) in Locks(p);
    case Claimed(o) =>
      assert OrderLock(Ref(p.d)) in Locks(p);
    case _ =>
  }

  /** A purchase key locked by one process is not taken by another's commit. */
  lemma ItemStaysFree(db: Ledger, ref: Id, own: Id, c: Contract, db': Ledger)
    requires ref in db.orders && OnlyGrants(db, ref, db') && own != ref
    requires BuysItem(c) && PostLocks(c) !! PostLocks(db.orders[ref].contract) && !ItemTaken(db, own, c)
    ensures !ItemTaken(db', own, c)
  {
  }

  // ------------------------------------------------------------ every step keeps the invariant

  /** Empty tables and no deliveries: where runs can start. */
  lemma FreshWorld(w: World)
    requires Fresh(w.db) && w.procs == map[]
    ensures WorldInv(w)
  {
    hide Inv;
    FreshKeepsInv(w.db);
  }

  lemma ClockOnlyGrows(db: Ledger, clock: Instant, clock': Instant, p: Process)
    requires InStep(db, clock, p) && clock <= clock'
    ensures InStep(db, clock', p)
  {
  }

  /** A process may move on with the locks it held and those it found free. */
  lemma MoveKeepsInv(w: World, p: Id, at: Stage, clock: Instant)
    requires WorldInv(w) && p in w.procs && Free(w, p, Wants(w.procs[p])) && w.clock <= clock
    requires Locks(w.procs[p].(at := at)) <= Locks(w.procs[p]) + Wants(w.procs[p])
    requires InStep(w.db, clock, w.procs[p].(at := at))
    ensures WorldInv(Move(w.(clock := clock), p, at))
  {
    hide Inv, InStep, Locks, Wants;
    forall q | q in w.procs ensures InStep(w.db, clock, w.procs[q]) {
      ClockOnlyGrows(w.db, w.clock, clock, w.procs[q]);
    }
  }

  /** A committed operation that touches no lock of any other process leaves all of them in step. */
  lemma OpKeepsOthers(w: World, op: Op, p: Id)
    requires WorldInv(w) && forall q :: q in w.procs && q != p ==> Locks(w.procs[q]) !! Touches(w.db, op)
    ensures Inv(DoOp(w.db, op))
    ensures forall q :: q in w.procs && q != p ==> InStep(DoOp(w.db, op), w.clock, w.procs[q])
  {
    hide Inv, InStep, Locks, Touches, DoOp;
    OpKeepsInv(w.db, op);
    forall q | q in w.procs && q != p ensures InStep(DoOp(w.db, op), w.clock, w.procs[q]) {
      Undisturbed(w.db, w.clock, w.procs[q], op);
    }
  }

  lemma MarkKeepsWorld(w: World, p: Id)
    requires WorldInv(w) && p in w.procs && w.procs[p].at.Arrived?
    ensures WorldInv(MarkStatement(w, p))
  {
    hide Inv;
    var d := w.procs[p].d;
    OpKeepsOthers(w, OMark(d.provider, d.event), p);
  }

  lemma ReadKeepsWorld(w: World, p: Id)
    requires WorldInv(w) && p in w.procs && w.procs[p].at.Marked?
    ensures WorldInv(ReadStatement(w, p))
  {
    hide MoneyConserved, SubsMatchOrders, OnePurchasePerPost, PurchasesOf, TipsOf, Mismatch;
    var w' := ReadStatement(w, p);
    MoveKeepsInv(w, p, w'.procs[p].at, w.clock);
  }

  lemma ClaimKeepsWorld(w: World, p: Id)
    requires WorldInv(w) && p in w.procs && w.procs[p].at.Checked? && Free(w, p, Wants(w.procs[p]))
    ensures WorldInv(ClaimStatement(w, p))
  {
    hide Inv, Mismatch;
    var w' := ClaimStatement(w, p);
    MoveKeepsInv(w, p, w'.procs[p].at, w.clock);
  }

  lemma CreditKeepsWorld(w: World, p: Id)
    requires WorldInv(w) && p in w.procs && w.procs[p].at.Claimed? && Free(w, p, Wants(w.procs[p]))
    ensures WorldInv(CreditStatement(w, p))
  {
    hide Inv, Mismatch;
    var w' := CreditStatement(w, p);
    MoveKeepsInv(w, p, w'.procs[p].at, w.clock);
  }

  lemma ItemKeepsWorld(w: World, p: Id)
    requires WorldInv(w) && p in w.procs && w.procs[p].at.Credited? && Free(w, p, Wants(w.procs[p]))
    ensures WorldInv(ItemStatement(w, p))
  {
    hide Inv, Mismatch, ItemTaken;
    var w' := ItemStatement(w, p);
    MoveKeepsInv(w, p, w'.procs[p].at, w.clock);
  }

  lemma SubKeepsWorld(w: World, p: Id, first: Instant, second: Instant)
    requires WorldInv(w) && p in w.procs && w.procs[p].at.PlanRead? && Free(w, p, Wants(w.procs[p]))
    ensures WorldInv(SubStatement(w, p, first, second))
  {
    hide Inv, Mismatch, NextEnd;
    var w' := SubStatement(w, p, first, second);
    MoveKeepsInv(w, p, w'.procs[p].at, w'.clock);
  }

  lemma UpsertKeepsWorld(w: World, p: Id)
    requires WorldInv(w) && p in w.procs && w.procs[p].at.SubRead? && Free(w, p, Wants(w.procs[p]))
    ensures WorldInv(UpsertStatement(w, p))
  {
    hide Inv, Mismatch, NextEnd;
    var w' := UpsertStatement(w, p);
    MoveKeepsInv(w, p, w'.procs[p].at, w.clock);
  }

  /** A commit is the grant of its order, and it finds the order PENDING. */
  lemma CommitKeepsWorld(w: World, p: Id)
    requires WorldInv(w) && p in w.procs && w.procs[p].at.Written?
    ensures var w' := CommitStatement(w, p); var ref := Ref(w.procs[p].d);
            var op := OGrant(ref, w.procs[p].at.first, w.procs[p].at.second);
            && WorldInv(w')
            && w' == Move(w.(db := DoOp(w.db, op), log := w.log + [op]), p, Done(Granted))
            && Lands(w.db, op)
  {
    hide Inv, Mismatch, NextEnd, Grant, CommitWrites;
    var ref, at := Ref(w.procs[p].d), w.procs[p].at;
    var op := OGrant(ref, at.first, at.second);
    CommitIsGrant(w.db, w.clock, w.procs[p]);
    assert InStep(w.db, w.clock, w.procs[p]);
    assert Touches(w.db, op) <= Locks(w.procs[p]);
    OpKeepsOthers(w, op, p);
  }

  lemma AdvanceKeepsInv(w: World, p: Id, first: Instant, second: Instant)
    requires WorldInv(w) && p in w.procs
    ensures WorldInv(AdvanceProcess(w, p, first, second))
  {
    hide WorldInv, MarkStatement, ReadStatement, ClaimStatement, CreditStatement;
    hide ItemStatement, SubStatement, UpsertStatement, CommitStatement;
    if Free(w, p, Wants(w.procs[p])) {
      match w.procs[p].at
      case Arrived => MarkKeepsWorld(w, p);
      case Marked => ReadKeepsWorld(w, p);
      case Checked(_) => ClaimKeepsWorld(w, p);
      case Claimed(_) => CreditKeepsWorld(w, p);
      case Credited(_, _) => ItemKeepsWorld(w, p);
      case PlanRead(_, _, _) => SubKeepsWorld(w, p, first, second);
      case SubRead(_, _, _, _, _) => UpsertKeepsWorld(w, p);
      case Written(_, _, _, _, _) => CommitKeepsWorld(w, p);
      case Done(_) =>
    }
  }

  lemma StepKeepsInv(w: World, a: Action)
    requires WorldInv(w)
    ensures WorldInv(Step(w, a))
  {
    hide Inv, Mismatch, NextEnd, AdvanceProcess, DoOp;
    match a
    case Advance(p, first, second) =>
      if p in w.procs { AdvanceKeepsInv(w, p, first, second); }
    case Deliver(p, d) =>
    case Crash(p) =>
    case Other(op) =>
      if Step(w, a) != w {
        forall q | q in w.procs ensures InStep(DoOp(w.db, op), w.clock, w.procs[q]) {
          Undisturbed(w.db, w.clock, w.procs[q], op);
        }
        OpKeepsInv(w.db, op);
      }
  }

  // ------------------------------------------------------------ serialisability

  /** A grant in a serial run that does its whole work. */
  predicate Lands(l: Ledger, op: Op)
  {
    op.OGrant? ==>
      op.ref in l.orders && l.orders[op.ref].status == Pending && Grant(l, op.ref, op.first, op.second).Some?
        && op.first <= op.second
  }

  /** The committed tables are those of a serial run in commit order, in which every grant lands. */
  ghost predicate Serial(l0: Ledger, w: World)
  {
    w.db == Replay(l0, w.log) && forall i :: 0 <= i < |w.log| ==> Lands(Replay(l0, w.log[..i]), w.log[i])
  }

  lemma ReplayOneMore(l0: Ledger, log: seq<Op>, op: Op)
    ensures Replay(l0, log + [op]) == DoOp(Replay(l0, log), op)
  {
    assert (log + [op])[..|log|] == log;
  }

  lemma SerialOneMore(l0: Ledger, w: World, op: Op, w': World)
    requires Serial(l0, w) && Lands(w.db, op) && w'.db == DoOp(w.db, op) && w'.log == w.log + [op]
    ensures Serial(l0, w')
  {
    hide DoOp, Lands;
    ReplayOneMore(l0, w.log, op);
    forall i | 0 <= i < |w'.log| ensures Lands(Replay(l0, w'.log[..i]), w'.log[i]) {
      if i < |w.log| {
        assert w'.log[..i] == w.log[..i];
      } else {
        assert w'.log[..i] == w.log;
      }
    }
  }

  /** Between the event insert and the commit, a delivery changes nothing that others can see. */
  lemma OnlyMarksAndCommitsShow(w: World, p: Id, first: Instant, second: Instant)
    requires p in w.procs && !w.procs[p].at.Arrived? && !w.procs[p].at.Written?
    ensures AdvanceProcess(w, p, first, second).db == w.db && AdvanceProcess(w, p, first, second).log == w.log
  {
    hide NextEnd, ItemTaken, Free, Mismatch, UpsertedSub;
  }

  lemma AdvanceIsSerial(l0: Ledger, w: World, p: Id, first: Instant, second: Instant)
    requires WorldInv(w) && Serial(l0, w) && p in w.procs
    ensures Serial(l0, AdvanceProcess(w, p, first, second))
  {
    hide Serial, WorldInv, Lands, Wants, Locks, CommitStatement, DoOp;
    var w' := AdvanceProcess(w, p, first, second);
    if Free(w, p, Wants(w.procs[p])) {
      match w.procs[p].at
      case Written(_, _, _, at1, at2) =>
        CommitKeepsWorld(w, p);
        SerialOneMore(l0, w, OGrant(Ref(w.procs[p].d), at1, at2), w');
      case Arrived =>
        MarkIsSerial(l0, w, p);
      case _ =>
        OnlyMarksAndCommitsShow(w, p, first, second);
        SameTablesAreSerial(l0, w, w');
    }
  }

  lemma MarkIsSerial(l0: Ledger, w: World, p: Id)
    requires Serial(l0, w) && p in w.procs
    ensures Serial(l0, MarkStatement(w, p))
  {
    hide Serial;
    var d, w' := w.procs[p].d, MarkStatement(w, p);
    if Key(d) in w.db.events {
      SameTablesAreSerial(l0, w, w');
    } else {
      SerialOneMore(l0, w, OMark(d.provider, d.event), w');
    }
  }

  lemma SameTablesAreSerial(l0: Ledger, w: World, w': World)
    requires Serial(l0, w) && w'.db == w.db && w'.log == w.log
    ensures Serial(l0, w')
  {
  }

  lemma StepIsSerial(l0: Ledger, w: World, a: Action)
    requires WorldInv(w) && Serial(l0, w)
    ensures Serial(l0, Step(w, a))
  {
    hide Serial, WorldInv, AdvanceProcess, DoOp;
    match a
    case Advance(p, first, second) =>
      if p in w.procs { AdvanceIsSerial(l0, w, p, first, second); }
    case Other(op) =>
      if Step(w, a) != w { SerialOneMore(l0, w, op, Step(w, a)); }
    case _ =>
      SameTablesAreSerial(l0, w, Step(w, a));
  }

  /**
   Serialisability: however deliveries, crashes and other operations interleave, the committed tables are
   those of the serial run of whole operations in commit order, and every grant in it did its whole work.
   */
  lemma {:induction false} Serialisable(w0: World, actions: seq<Action>)
    requires WorldInv(w0) && w0.log == []
    ensures var w := Run(w0, actions);
            && WorldInv(w)
            && w.db == Replay(w0.db, w.log)
            && forall i :: 0 <= i < |w.log| ==> Lands(Replay(w0.db, w.log[..i]), w.log[i])
    decreases |actions|
  {
    hide WorldInv, Step, Lands;
    if actions == [] {
    } else {
      var prefix := actions[..|actions| - 1];
      Serialisable(w0, prefix);
      StepKeepsInv(Run(w0, prefix), actions[|actions| - 1]);
      StepIsSerial(w0.db, Run(w0, prefix), actions[|actions| - 1]);
    }
  }
}
