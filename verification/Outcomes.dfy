/** What concurrent fulfilment guarantees: exactly-once grants, nothing half done, and no deadlock. */
module Outcomes {
  import opened Wrappers
  import opened Sums
  import opened Calendar
  import opened Ledger
  import opened Deliveries
  import opened Fulfilment
  import opened Receipts

  // ------------------------------------------------------------ order statuses

  /** An order's contract never changes, and its status only ever goes from PENDING to SUCCEEDED. */
  lemma StatusOnlyAdvances(l: Ledger, op: Op, r: Id)
    requires r in l.orders
    ensures r in DoOp(l, op).orders
    ensures var o, o' := l.orders[r], DoOp(l, op).orders[r];
            o' == o || (o.status == Pending && op.OGrant? && op.ref == r && o' == o.(status := Succeeded))
  {
    hide HasPlan, Offered, Grant;
    match op
    case OGrant(ref, first, second) => GrantWritesItsOrder(l, ref, first, second);
    case _ =>
  }

  lemma GrantWritesItsOrder(l: Ledger, ref: Id, first: Instant, second: Instant)
    ensures DoOp(l, OGrant(ref, first, second)).orders ==
      if ref in l.orders && l.orders[ref].status == Pending && Grant(l, ref, first, second).Some?
      then l.orders[ref := l.orders[ref].(status := Succeeded)] else l.orders
  {
    hide ItemTaken, NextEnd;
  }

  /** New orders enter the books PENDING. */
  lemma OrdersStartPending(l: Ledger, op: Op, r: Id)
    requires r !in l.orders && r in DoOp(l, op).orders
    ensures DoOp(l, op).orders[r].status == Pending
  {
    hide HasPlan, Offered, Grant;
    match op
    case OGrant(ref, first, second) => GrantWritesItsOrder(l, ref, first, second);
    case _ =>
  }

  /** A Purchase or Tip row exists exactly for each settled order of its kind, and says what that order says. */
  lemma RowsAreSettledOrders(l: Ledger, r: Id)
    requires Inv(l)
    ensures r in l.purchases <==> r in l.orders && Settled(l.orders[r]) && l.orders[r].contract.kind == Purchase
    ensures r in l.purchases ==> PurchaseSays(l.purchases[r], l.orders[r].contract)
    ensures r in l.tips <==> r in l.orders && Settled(l.orders[r]) && l.orders[r].contract.kind == Tip
    ensures r in l.tips ==> TipSays(l.tips[r], l.orders[r].contract)
  {
    hide MoneyConserved, SubsMatchOrders, OnePurchasePerPost, TipSays, TipFor;
    if r in l.tips { TipIsSaid(l.orders[r].contract); }
    assert r in l.orders ==> ContractOk(l.plans, l.orders[r].contract);
  }

  function Without(l: Ledger, r: Id): Ledger { l.(orders := l.orders - {r}) }

  lemma OpenOrderEarnsNothing(rest: map<Id, Order>, wallets: map<Id, int>, r: Id, o: Order)
    requires r !in rest && !Settled(o) && MoneyConserved(rest[r := o], wallets)
    ensures MoneyConserved(rest, wallets)
  {
    var orders := rest[r := o];
    forall u: Id ensures Held(wallets, u) == Earned(rest, u) {
      assert Held(wallets, u) == Earned(orders, u);
      TotalWrite(rest, r, o, EarnedBy(u));
    }
    TotalWrite(rest, r, o, NetSettled());
    assert CreatorsHaveWallets(rest, wallets) by {
      assert forall x :: x in rest ==> x in orders && orders[x] == rest[x];
    }
  }

  lemma OpenOrderHasNoRow(rest: map<Id, Order>, r: Id, o: Order)
    requires r !in rest && !Settled(o)
    ensures PurchasesOf(rest) == PurchasesOf(rest[r := o]) && TipsOf(rest) == TipsOf(rest[r := o])
  {
  }

  /** With an order that is not SUCCEEDED taken off the books, everything else still balances. */
  lemma OpenOrdersDoNotCount(l: Ledger, r: Id)
    requires Inv(l) && r in l.orders && !Settled(l.orders[r])
    ensures Inv(Without(l, r))
  {
    hide OnePurchasePerPost, MoneyConserved, PurchasesOf, TipsOf;
    var rest := l.orders - {r};
    assert rest[r := l.orders[r]] == l.orders;
    OpenOrderEarnsNothing(rest, l.wallets, r, l.orders[r]);
    OpenOrderHasNoRow(rest, r, l.orders[r]);
    forall k | k in l.subs ensures exists x :: x in rest && PaysFor(rest[x], k) {
      var x :| x in l.orders && PaysFor(l.orders[x], k);
      assert x in rest && PaysFor(rest[x], k);
    }
  }

  // ------------------------------------------------------------ all or nothing

  /** Some grant in this log names the order. */
  predicate GrantsOrder(log: seq<Op>, r: Id)
  {
    exists i :: 0 <= i < |log| && log[i].OGrant? && log[i].ref == r
  }

  /** The log without the order's own checkout. */
  function WithoutCheckout(log: seq<Op>, r: Id): seq<Op>
  {
    if log == [] then []
    else
      var rest, op := WithoutCheckout(log[..|log| - 1], r), log[|log| - 1];
      if op.OCheckout? && op.ref == r then rest else rest + [op]
  }

  lemma SettledStaysSettled(l: Ledger, op: Op, r: Id)
    requires r in l.orders && Settled(l.orders[r])
    ensures r in DoOp(l, op).orders && Settled(DoOp(l, op).orders[r])
  {
    hide DoOp;
    StatusOnlyAdvances(l, op, r);
  }

  lemma LandedGrantSettles(l: Ledger, op: Op)
    requires op.OGrant? && Lands(l, op)
    ensures op.ref in DoOp(l, op).orders && Settled(DoOp(l, op).orders[op.ref])
  {
    GrantWritesItsOrder(l, op.ref, op.first, op.second);
    hide DoOp, Grant;
  }

  /** In a run whose grants all land, an order that a grant names is SUCCEEDED from then on. */
  lemma {:induction false} GrantedIsSettled(l0: Ledger, log: seq<Op>, i: nat)
    requires forall j :: 0 <= j < |log| ==> Lands(Replay(l0, log[..j]), log[j])
    requires i < |log| && log[i].OGrant?
    ensures log[i].ref in Replay(l0, log).orders && Settled(Replay(l0, log).orders[log[i].ref])
    decreases |log|
  {
    hide DoOp, Lands;
    var n := |log| - 1;
    var prefix := log[..n];
    assert forall j :: 0 <= j <= n ==> prefix[..j] == log[..j];
    if i == n {
      LandedGrantSettles(Replay(l0, prefix), log[n]);
    } else {
      assert forall j :: 0 <= j < n ==> prefix[j] == log[j];
      GrantedIsSettled(l0, prefix, i);
      SettledStaysSettled(Replay(l0, prefix), log[n], log[i].ref);
    }
  }

  /** Nothing but an order's own grant reads that order. */
  lemma OthersIgnoreTheOrder(l: Ledger, op: Op, r: Id)
    requires !(op.OGrant? && op.ref == r)
    ensures Without(DoOp(l, op), r) ==
      if op.OCheckout? && op.ref == r then Without(l, r) else DoOp(Without(l, r), op)
  {
    hide HasPlan, Grant;
    match op
    case OGrant(ref, first, second) => GrantIgnoresOthers(l, ref, first, second, r);
    case OUpsertPlan(_, creator, interval, _, _, _) => PlansAlone(l, r, creator, interval);
    case _ =>
  }

  lemma PlansAlone(l: Ledger, r: Id, creator: Id, interval: Interval)
    ensures HasPlan(Without(l, r), creator, interval) == HasPlan(l, creator, interval)
  {
  }

  lemma GrantIgnoresOthers(l: Ledger, ref: Id, first: Instant, second: Instant, r: Id)
    requires ref != r
    ensures Without(DoOp(l, OGrant(ref, first, second)), r) == DoOp(Without(l, r), OGrant(ref, first, second))
  {
    if ref in l.orders && l.orders[ref].status == Pending {
      var o := l.orders[ref];
      WritesIgnoreOthers(l, ref, first, second, r);
      hide Claim, Credit, ExtendSub;
      ItemIgnoresOthers(ExtendSub(Credit(Claim(l, ref), o.contract.creator, Net(o)), o.contract, first, second), ref,
                        o.contract, r);
      hide AddItem;
    }
  }

  lemma WritesIgnoreOthers(l: Ledger, ref: Id, first: Instant, second: Instant, r: Id)
    requires ref != r && ref in l.orders
    ensures var o := l.orders[ref];
            ExtendSub(Credit(Claim(Without(l, r), ref), o.contract.creator, Net(o)), o.contract, first, second)
            == Without(ExtendSub(Credit(Claim(l, ref), o.contract.creator, Net(o)), o.contract, first, second), r)
  {
    hide NextEnd, UpsertedSub, Net;
    var o := l.orders[ref];
    assert (l.orders - {r})[ref := o.(status := Succeeded)] == l.orders[ref := o.(status := Succeeded)] - {r};
  }

  lemma ItemIgnoresOthers(l: Ledger, ref: Id, c: Contract, r: Id)
    ensures AddItem(Without(l, r), ref, c)
      == match AddItem(l, ref, c) case Some(l') => Some(Without(l', r)) case None => None
  {
    hide PurchaseFor, TipFor;
    assert ItemTaken(Without(l, r), ref, c) == ItemTaken(l, ref, c);
    hide ItemTaken;
  }

  lemma {:induction false} ReplayIgnoresTheOrder(l0: Ledger, log: seq<Op>, r: Id)
    requires !GrantsOrder(log, r)
    ensures Replay(Without(l0, r), WithoutCheckout(log, r)) == Without(Replay(l0, log), r)
    decreases |log|
  {
    hide DoOp, Without;
    if log != [] {
      var prefix, op := log[..|log| - 1], log[|log| - 1];
      assert !(op.OGrant? && op.ref == r);
      assert forall i :: 0 <= i < |prefix| ==> prefix[i] == log[i];
      ReplayIgnoresTheOrder(l0, prefix, r);
      OthersIgnoreTheOrder(Replay(l0, prefix), op, r);
      ReplayOneMore(Without(l0, r), WithoutCheckout(prefix, r), op);
    }
  }

  /**
   All or nothing, over every interleaving: an order that has not become SUCCEEDED was granted by nothing that
   committed, and the tables are what the same run would have left had the order never been placed, but for
   the order's own row. Whichever step crashed, lost the race or hit a unique key, wallets, subscriptions
   with their period ends, purchases and tips show no trace of it.
   */
  lemma PendingLeavesNoTrace(w0: World, actions: seq<Action>, r: Id)
    requires WorldInv(w0) && w0.log == []
    requires var w := Run(w0, actions); r in w.db.orders ==> !Settled(w.db.orders[r])
    ensures var w := Run(w0, actions);
            && w.db == Replay(w0.db, w.log)
            && !GrantsOrder(w.log, r)
            && Without(w.db, r) == Replay(Without(w0.db, r), WithoutCheckout(w.log, r))
  {
    hide WorldInv, Run, Lands, Replay, Without, WithoutCheckout;
    var w := Run(w0, actions);
    Serialisable(w0, actions);
    if i :| 0 <= i < |w.log| && w.log[i].OGrant? && w.log[i].ref == r {
      GrantedIsSettled(w0.db, w.log, i);
    }
    ReplayIgnoresTheOrder(w0.db, w.log, r);
  }

  // ------------------------------------------------------------ exactly once

  predicate GrantedTo(p: Process, r: Id) { p.at == Done(Granted) && p.d.order == Some(r) }

  predicate SettledSince(l0: Ledger, l: Ledger, r: Id)
  {
    r in l.orders && Settled(l.orders[r]) && !(r in l0.orders && Settled(l0.orders[r]))
  }

  /** The deliveries that were granted and the orders settled since the start correspond one to one. */
  ghost predicate ExactlyOnce(l0: Ledger, w: World)
  {
    && (forall p :: p in w.procs && w.procs[p].at == Done(Granted) ==>
          var d := w.procs[p].d;
          d.order.Some? && SettledSince(l0, w.db, d.order.value)
            && !Mismatch(d.reported, w.db.orders[d.order.value].contract.amountCents))
    && (forall p, q, r :: p in w.procs && q in w.procs && GrantedTo(w.procs[p], r) && GrantedTo(w.procs[q], r) ==>
          p == q)
    && (forall r :: SettledSince(l0, w.db, r) ==> exists p :: p in w.procs && GrantedTo(w.procs[p], r))
  }

  /** A step that grants nothing: finished deliveries stay as they are and old orders are untouched. */
  ghost predicate GrantsNothing(w: World, w': World)
  {
    && (forall p :: p in w.procs ==>
          p in w'.procs && w'.procs[p].d == w.procs[p].d
            && (w'.procs[p].at == Done(Granted) <==> w.procs[p].at == Done(Granted)))
    && (forall p :: p in w'.procs && p !in w.procs ==> w'.procs[p].at != Done(Granted))
    && (forall r :: r in w.db.orders ==> r in w'.db.orders && w'.db.orders[r] == w.db.orders[r])
    && (forall r :: r in w'.db.orders && r !in w.db.orders ==> w'.db.orders[r].status == Pending)
  }

  lemma QuietKeepsExactlyOnce(l0: Ledger, w: World, w': World)
    requires ExactlyOnce(l0, w) && GrantsNothing(w, w')
    ensures ExactlyOnce(l0, w')
  {
    hide Mismatch;
    forall r | SettledSince(l0, w'.db, r) ensures exists p :: p in w'.procs && GrantedTo(w'.procs[p], r) {
      assert SettledSince(l0, w.db, r);
      var p :| p in w.procs && GrantedTo(w.procs[p], r);
      assert GrantedTo(w'.procs[p], r);
    }
  }

  lemma InvOfWorld(w: World)
    requires WorldInv(w)
    ensures Inv(w.db)
  {
  }

  /** What a commit shows. */
  ghost predicate Commits(w: World, p: Id, ref: Id, w': World)
  {
    && p in w.procs && w.procs[p].at.Written? && w.procs[p].d.order == Some(ref)
    && ref in w.db.orders && w.db.orders[ref].status == Pending
    && w'.db.orders == w.db.orders[ref := w.db.orders[ref].(status := Succeeded)]
    && w'.db.events == w.db.events && w'.db.plans == w.db.plans
    && w'.db.wallets.Keys == w.db.wallets.Keys + {w.db.orders[ref].contract.creator}
    && !Mismatch(w.procs[p].d.reported, w.db.orders[ref].contract.amountCents)
    && w'.procs == w.procs[p := w.procs[p].(at := Done(Granted))]
  }

  lemma CommitEffect(w: World, p: Id)
    requires WorldInv(w) && p in w.procs && w.procs[p].at.Written?
    ensures Commits(w, p, Ref(w.procs[p].d), CommitStatement(w, p)) && Inv(w.db) && Inv(CommitStatement(w, p).db)
  {
    var ref, first, second := Ref(w.procs[p].d), w.procs[p].at.first, w.procs[p].at.second;
    hide WorldInv, CommitStatement, Grant, Lands, DoOp, Mismatch;
    CommitKeepsWorld(w, p);
    InvOfWorld(w);
    InvOfWorld(CommitStatement(w, p));
    hide Inv;
    ReadyToCommit(w, p);
    LandedGrant(w.db, OGrant(ref, first, second));
    GrantEffect(w.db, ref, first, second);
    GrantKeepsPlans(w.db, ref, first, second);
  }

  lemma ReadyToCommit(w: World, p: Id)
    requires WorldInv(w) && p in w.procs && w.procs[p].at.Written?
    ensures w.procs[p].d.order == Some(Ref(w.procs[p].d)) && Ref(w.procs[p].d) in w.db.orders
    ensures !Mismatch(w.procs[p].d.reported, w.db.orders[Ref(w.procs[p].d)].contract.amountCents)
  {
    hide Inv, Mismatch;
    assert InStep(w.db, w.clock, w.procs[p]);
  }

  lemma LandedGrant(db: Ledger, op: Op)
    requires op.OGrant? && Lands(db, op)
    ensures op.ref in db.orders && db.orders[op.ref].status == Pending
    ensures Grant(db, op.ref, op.first, op.second).Some? && DoOp(db, op) == Grant(db, op.ref, op.first, op.second).value
  {
    hide Grant;
  }

  lemma CommitKeepsExactlyOnce(l0: Ledger, w: World, p: Id, ref: Id, w': World)
    requires ExactlyOnce(l0, w) && Commits(w, p, ref, w')
    requires forall r :: r in l0.orders ==> r in w.db.orders && (Settled(l0.orders[r]) ==> Settled(w.db.orders[r]))
    ensures ExactlyOnce(l0, w')
  {
    hide Mismatch;
    assert GrantedTo(w'.procs[p], ref);
    forall r | SettledSince(l0, w'.db, r) ensures exists q :: q in w'.procs && GrantedTo(w'.procs[q], r) {
      if r != ref {
        assert SettledSince(l0, w.db, r);
        var q :| q in w.procs && GrantedTo(w.procs[q], r);
        assert GrantedTo(w'.procs[q], r);
      }
    }
  }

  lemma OtherStatementsGrantNothing(w: World, p: Id, first: Instant, second: Instant)
    requires p in w.procs && !w.procs[p].at.Written?
    ensures GrantsNothing(w, AdvanceProcess(w, p, first, second))
  {
    hide AdvanceProcess;
    OneProcessMoves(w, p, first, second);
  }

  lemma OneProcessMoves(w: World, p: Id, first: Instant, second: Instant)
    requires p in w.procs && !w.procs[p].at.Written?
    ensures var w', at := AdvanceProcess(w, p, first, second), AdvanceProcess(w, p, first, second).procs[p].at;
            && w'.db.orders == w.db.orders && w'.procs == w.procs[p := w.procs[p].(at := at)]
            && (at == Done(Granted) <==> w.procs[p].at == Done(Granted))
  {
    hide NextEnd, ItemTaken, Free, Mismatch, UpsertedSub, CommitStatement, Held, SubOf, MonthsOf;
    assert w.procs[p := w.procs[p].(at := w.procs[p].at)] == w.procs;
  }

  lemma StepKeepsExactlyOnce(l0: Ledger, w: World, a: Action)
    requires WorldInv(w) && ExactlyOnce(l0, w)
    requires forall r :: r in l0.orders ==> r in w.db.orders && (Settled(l0.orders[r]) ==> Settled(w.db.orders[r]))
    ensures ExactlyOnce(l0, Step(w, a))
  {
    hide WorldInv, ExactlyOnce, AdvanceProcess, DoOp, Commits, CommitStatement, Inv;
    match a
    case Advance(p, first, second) =>
      if p in w.procs {
        if w.procs[p].at.Written? {
          AdvanceOfWritten(w, p, first, second);
          CommitEffect(w, p);
          CommitKeepsExactlyOnce(l0, w, p, Ref(w.procs[p].d), CommitStatement(w, p));
        } else {
          OtherStatementsGrantNothing(w, p, first, second);
          QuietKeepsExactlyOnce(l0, w, Step(w, a));
        }
      }
    case Other(op) =>
      if Step(w, a) != w {
        forall r | r in w.db.orders { StatusOnlyAdvances(w.db, op, r); }
        forall r | r in DoOp(w.db, op).orders && r !in w.db.orders { OrdersStartPending(w.db, op, r); }
        QuietKeepsExactlyOnce(l0, w, Step(w, a));
      }
    case _ => QuietKeepsExactlyOnce(l0, w, Step(w, a));
  }

  lemma AdvanceOfWritten(w: World, p: Id, first: Instant, second: Instant)
    requires p in w.procs && w.procs[p].at.Written?
    ensures AdvanceProcess(w, p, first, second) == CommitStatement(w, p)
  {
    hide CommitStatement;
  }

  lemma StepKeepsOrders(w: World, a: Action, r: Id)
    requires WorldInv(w) && r in w.db.orders
    ensures r in Step(w, a).db.orders && (Settled(w.db.orders[r]) ==> Settled(Step(w, a).db.orders[r]))
  {
    hide WorldInv, AdvanceProcess, DoOp, CommitStatement;
    if a.Advance? && a.p in w.procs {
      if w.procs[a.p].at.Written? {
        AdvanceOfWritten(w, a.p, a.first, a.second);
        CommitKeepsWorld(w, a.p);
        StatusOnlyAdvances(w.db, OGrant(Ref(w.procs[a.p].d), w.procs[a.p].at.first, w.procs[a.p].at.second), r);
      } else {
        OtherStatementsGrantNothing(w, a.p, a.first, a.second);
      }
    } else if a.Other? {
      StatusOnlyAdvances(w.db, a.op, r);
    }
  }

  /**
   Exactly once, over every interleaving from a start without deliveries: the orders settled since then are
   in one-to-one correspondence with the deliveries granted, each of which reported an amount that passed the guard.
   */
  lemma {:induction false} RunsGrantExactlyOnce(w0: World, actions: seq<Action>)
    requires WorldInv(w0) && w0.procs == map[]
    ensures WorldInv(Run(w0, actions)) && ExactlyOnce(w0.db, Run(w0, actions))
    ensures forall r :: r in w0.db.orders ==>
      r in Run(w0, actions).db.orders && (Settled(w0.db.orders[r]) ==> Settled(Run(w0, actions).db.orders[r]))
    decreases |actions|
  {
    hide WorldInv, Step;
    if actions == [] {
      assert Run(w0, actions) == w0;
    } else {
      hide ExactlyOnce;
      var prefix, a := actions[..|actions| - 1], actions[|actions| - 1];
      RunsGrantExactlyOnce(w0, prefix);
      var w := Run(w0, prefix);
      StepKeepsInv(w, a);
      StepKeepsExactlyOnce(w0.db, w, a);
      forall r | r in w.db.orders { StepKeepsOrders(w, a, r); }
    }
  }

  // ------------------------------------------------------------ no deadlock

  /** How far a delivery has come; it takes at most eight statements. */
  function Rank(at: Stage): nat
  {
    match at
    case Arrived => 0
    case Marked => 1
    case Checked(_) => 2
    case Claimed(_) => 3
    case Credited(_, _) => 4
    case PlanRead(_, _, _) => 5
    case SubRead(_, _, _, _, _) => 6
    case Written(_, _, _, _, _) => 7
    case Done(_) => 8
  }

  function StatementsLeft(): Process -> int { (p: Process) => 8 - Rank(p.at) }

  /** Locks are taken in one order, so a delivery only ever waits for one that has come further. */
  lemma FurtherOnesWait(p: Process, q: Process)
    requires Rank(q.at) <= Rank(p.at)
    ensures Locks(q) !! Wants(p)
  {
  }

  lemma {:induction false} FurthestLive(procs: map<Id, Process>, live: set<Id>) returns (p: Id)
    requires live != {} && live <= procs.Keys
    ensures p in live && forall q :: q in live ==> Rank(procs[q].at) <= Rank(procs[p].at)
    decreases live
  {
    p :| p in live;
    if live != {p} {
      var q := FurthestLive(procs, live - {p});
      assert live == live - {p} + {p};
      if Rank(procs[p].at) < Rank(procs[q].at) { p := q; }
    }
  }

  /** Some unfinished delivery can always execute its next statement. */
  lemma NoDeadlock(w: World) returns (p: Id)
    requires exists q :: q in w.procs && !w.procs[q].at.Done?
    ensures p in w.procs && !w.procs[p].at.Done? && Free(w, p, Wants(w.procs[p]))
  {
    hide Locks, Wants, Rank;
    var live := set q | q in w.procs && !w.procs[q].at.Done?;
    var q0 :| q0 in w.procs && !w.procs[q0].at.Done?;
    assert q0 in live;
    p := FurthestLive(w.procs, live);
    forall q | q in w.procs && q != p ensures Locks(w.procs[q]) !! Wants(w.procs[p]) {
      if w.procs[q].at.Done? {
        DoneHoldsNothing(w.procs[q]);
      } else {
        assert q in live;
        FurtherOnesWait(w.procs[p], w.procs[q]);
      }
    }
  }

  lemma DoneHoldsNothing(p: Process)
    requires p.at.Done?
    ensures Locks(p) == {}
  {
  }

  /** A statement that runs brings its delivery strictly closer to the end and moves no other. */
  lemma StatementsRunOut(w: World, p: Id, first: Instant, second: Instant)
    requires p in w.procs && !w.procs[p].at.Done? && Free(w, p, Wants(w.procs[p]))
    ensures var w' := AdvanceProcess(w, p, first, second);
            exists at :: Rank(at) > Rank(w.procs[p].at) && w'.procs == w.procs[p := w.procs[p].(at := at)]
  {
    hide NextEnd, ItemTaken, Free, Mismatch, UpsertedSub, CommitWrites;
    var w' := AdvanceProcess(w, p, first, second);
    var at := w'.procs[p].at;
    assert Rank(at) > Rank(w.procs[p].at) && w'.procs == w.procs[p := w.procs[p].(at := at)];
  }

  lemma {:induction false} RunFromFirst(w: World, a: Action, actions: seq<Action>)
    ensures Run(w, [a] + actions) == Run(Step(w, a), actions)
    decreases |actions|
  {
    hide Step;
    var all := [a] + actions;
    if actions == [] {
      assert all[..|all| - 1] == [] && Run(w, []) == w;
    } else {
      var prefix := actions[..|actions| - 1];
      RunFromFirst(w, a, prefix);
      assert all[..|all| - 1] == [a] + prefix && all[|all| - 1] == actions[|actions| - 1];
    }
  }

  /** From any world, statements alone finish every delivery, at most eight for each. */
  lemma {:induction false} EveryDeliveryCanFinish(w: World) returns (actions: seq<Action>)
    ensures |actions| <= Total(w.procs, StatementsLeft())
    ensures forall a :: a in actions ==> a.Advance?
    ensures forall p :: p in Run(w, actions).procs ==> Run(w, actions).procs[p].at.Done?
    decreases Total(w.procs, StatementsLeft())
  {
    StatementsLeftIsNat(w.procs);
    if p0 :| p0 in w.procs && !w.procs[p0].at.Done? {
      var p := NoDeadlock(w);
      StatementsRunOut(w, p, w.clock, w.clock);
      var a := Advance(p, w.clock, w.clock);
      var w' := Step(w, a);
      assert w' == AdvanceProcess(w, p, w.clock, w.clock);
      hide Step, AdvanceProcess, Rank;
      var at :| Rank(at) > Rank(w.procs[p].at) && w'.procs == w.procs[p := w.procs[p].(at := at)];
      TotalWrite(w.procs, p, w.procs[p].(at := at), StatementsLeft());
      StatementsLeftIsNat(w'.procs);
      var rest := EveryDeliveryCanFinish(w');
      actions := [a] + rest;
      RunFromFirst(w, a, rest);
    } else {
      actions := [];
    }
  }

  lemma StatementsLeftIsNat(procs: map<Id, Process>)
    ensures 0 <= Total(procs, StatementsLeft()) <= 8 * |procs|
  {
    SumOfSmall(procs.Keys, Cells(procs, StatementsLeft()));
    assert |procs.Keys| == |procs|;
  }

  lemma {:induction false} SumOfSmall(keys: set<Id>, f: Id -> int)
    requires forall k :: k in keys ==> 0 <= f(k) <= 8
    ensures 0 <= Sum(keys, f) <= 8 * |keys|
    decreases keys
  {
    if keys != {} {
      var k :| k in keys;
      SumPick(keys, f, k);
      SumOfSmall(keys - {k}, f);
      assert |keys| == |keys - {k}| + 1;
    }
  }
}
