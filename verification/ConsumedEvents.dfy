/**
 What becomes of a paid order whose delivery is cut off. The event id is recorded before fulfilment, so a crash
 after that leaves the order PENDING and every redelivery of the event a duplicate; only an event that is not on
 record yet can still settle the order.
 */
module ConsumedEvents {
  import opened Wrappers
  import opened Calendar
  import opened Ledger
  import opened Deliveries
  import opened Fulfilment
  import opened Outcomes

  /** The delivery pays, in tolerance, for an open order for something not owned yet. */
  predicate InTolerance(db: Ledger, d: Delivery, r: Id)
  {
    && d.order == Some(r) && r in db.orders && db.orders[r].status == Pending
    && !Mismatch(d.reported, db.orders[r].contract.amountCents) && !Owned(db, db.orders[r].contract)
  }

  // ------------------------------------------------------------ the event is lost

  /** Every delivery past its event insert has its event on record. */
  predicate Recorded(w: World)
  {
    forall p :: p in w.procs && w.procs[p].at != Arrived && w.procs[p].at != Done(Unseen) ==>
      Key(w.procs[p].d) in w.db.events
  }

  /** What a statement can do to the event log, to its delivery's stage and to any other delivery. */
  ghost predicate Moves(w: World, p: Id, w': World)
    requires p in w.procs
  {
    var was := w.procs[p].at;
    && p in w'.procs && w'.procs == w.procs[p := w.procs[p].(at := w'.procs[p].at)]
    && w.db.events <= w'.db.events
    && (was.Arrived? && w'.procs[p].at != was ==> Key(w.procs[p].d) in w'.db.events)
    && (was.Arrived? && w'.procs[p].at != was && !w'.procs[p].at.Done? ==> Key(w.procs[p].d) !in w.db.events)
    && (was.Arrived? ==> w'.procs[p].at != Done(Granted))
    && (w'.procs[p].at.Arrived? ==> was.Arrived?)
    && (w'.procs[p].at == Done(Unseen) ==> was == Done(Unseen))
    && (was.Done? ==> w'.procs[p].at == was)
    && (!was.Written? ==> w'.db.orders == w.db.orders && (w'.procs[p].at == Done(Granted) ==> was == Done(Granted)))
  }

  lemma StatementMoves(w: World, p: Id, first: Instant, second: Instant)
    requires p in w.procs
    ensures Moves(w, p, AdvanceProcess(w, p, first, second))
  {
    if w.procs[p].at.Arrived? {
      MarkMoves(w, p, first, second);
    } else if w.procs[p].at.Written? {
      CommitMoves(w, p, first, second);
    } else {
      QuietMoves(w, p, first, second);
    }
  }

  lemma MarkMoves(w: World, p: Id, first: Instant, second: Instant)
    requires p in w.procs && w.procs[p].at.Arrived?
    ensures Moves(w, p, AdvanceProcess(w, p, first, second))
  {
    assert w.procs == w.procs[p := w.procs[p].(at := w.procs[p].at)];
    hide Free;
  }

  lemma CommitMoves(w: World, p: Id, first: Instant, second: Instant)
    requires p in w.procs && w.procs[p].at.Written?
    ensures Moves(w, p, AdvanceProcess(w, p, first, second))
  {
    assert w.procs == w.procs[p := w.procs[p].(at := w.procs[p].at)];
    hide Free;
  }

  lemma QuietMoves(w: World, p: Id, first: Instant, second: Instant)
    requires p in w.procs && !w.procs[p].at.Arrived? && !w.procs[p].at.Written?
    ensures Moves(w, p, AdvanceProcess(w, p, first, second))
  {
    OnlyMarksAndCommitsShow(w, p, first, second);
    OneProcessMoves(w, p, first, second);
    NoWayBack(w, p, first, second);
    hide AdvanceProcess;
  }

  lemma NoWayBack(w: World, p: Id, first: Instant, second: Instant)
    requires p in w.procs && !w.procs[p].at.Arrived? && !w.procs[p].at.Written?
    ensures var at := AdvanceProcess(w, p, first, second).procs[p].at;
            !at.Arrived? && (at == Done(Unseen) ==> w.procs[p].at == Done(Unseen))
              && (w.procs[p].at.Done? ==> at == w.procs[p].at)
  {
    hide NextEnd, ItemTaken, Free, Mismatch, UpsertedSub, Held;
  }

  lemma StepKeepsRecorded(w: World, a: Action)
    requires Recorded(w)
    ensures Recorded(Step(w, a)) && w.db.events <= Step(w, a).db.events
  {
    match a
    case Advance(p, first, second) =>
      if p in w.procs { StatementMoves(w, p, first, second); }
      hide AdvanceProcess;
    case Other(op) =>
      if Step(w, a) != w { OthersRecordNothing(w.db, op); }
      hide DoOp;
    case _ =>
  }

  lemma OthersRecordNothing(db: Ledger, op: Op)
    requires !op.OMark? && !op.OGrant?
    ensures DoOp(db, op).events == db.events
  {
    hide HasPlan, Offered;
  }

  /** In every run from a start without deliveries the events are on record. */
  lemma {:induction false} RunKeepsRecorded(w0: World, actions: seq<Action>)
    requires w0.procs == map[]
    ensures Recorded(Run(w0, actions))
    decreases |actions|
  {
    hide Step;
    if actions != [] {
      RunKeepsRecorded(w0, actions[..|actions| - 1]);
      StepKeepsRecorded(Run(w0, actions[..|actions| - 1]), actions[|actions| - 1]);
    }
  }

  /** Wherever past its event insert a delivery is cut off, its event is a duplicate from then on. */
  lemma CrashConsumesTheEvent(w: World, p: Id, q: Id, first: Instant, second: Instant)
    requires Recorded(w) && p in w.procs && !w.procs[p].at.Arrived? && !w.procs[p].at.Done? && q !in w.procs
    ensures var d := w.procs[p].d;
            var w' := Step(Step(Step(w, Crash(p)), Deliver(q, d)), Advance(q, first, second));
            w'.db == w.db && w'.procs[p].at == Done(Crashed) && q in w'.procs && w'.procs[q].at == Done(Duplicate)
  {
    hide ReadStatement, ClaimStatement, CreditStatement, ItemStatement, SubStatement;
    hide UpsertStatement, CommitStatement, Locks;
    assert Key(w.procs[p].d) in w.db.events;
  }

  /**
   The loss itself: a new event that pays an open order in full is recorded, its delivery is cut off, and the
   provider's redelivery is taken for a duplicate. The order is still PENDING.
   */
  lemma PaidButPending(w: World, d: Delivery, r: Id, p: Id, q: Id, first: Instant, second: Instant)
    requires InTolerance(w.db, d, r) && Key(d) !in w.db.events && p !in w.procs && q !in w.procs && p != q
    ensures var crashed := Step(Step(Step(w, Deliver(p, d)), Advance(p, first, second)), Crash(p));
            var w' := Step(Step(crashed, Deliver(q, d)), Advance(q, first, second));
            && w'.db == MarkEvent(w.db, d.provider, d.event)
            && p in w'.procs && w'.procs[p].at == Done(Crashed) && q in w'.procs && w'.procs[q].at == Done(Duplicate)
            && r in w'.db.orders && w'.db.orders[r].status == Pending
  {
    hide ReadStatement, ClaimStatement, CreditStatement, ItemStatement, SubStatement;
    hide UpsertStatement, CommitStatement, Locks;
    hide Mismatch, Owned;
    assert w.procs[p := Process(d, Arrived)][p].at.Arrived?;
  }

  // ------------------------------------------------------------ only new events settle

  /** No delivery for the order is under way, but for some that have only just arrived. */
  predicate Idle(w: World, r: Id)
  {
    forall p :: p in w.procs && w.procs[p].d.order == Some(r) ==> w.procs[p].at.Done? || w.procs[p].at.Arrived?
  }

  /** A delivery of an event that was not on record at the start. */
  predicate NewSince(w0: World, w: World, p: Id)
    requires p in w.procs
  {
    Key(w.procs[p].d) !in w0.db.events && (p in w0.procs ==> w0.procs[p].at.Arrived?)
  }

  /** Deliveries never go back to their arrival. */
  predicate Onward(w0: World, w: World)
  {
    forall p :: p in w0.procs ==>
      p in w.procs && w.procs[p].d == w0.procs[p].d && (w.procs[p].at.Arrived? ==> w0.procs[p].at.Arrived?)
  }

  /** Whatever is under way for the order, or has settled it, came with a new event. */
  ghost predicate NewOnly(w0: World, w: World, r: Id)
    requires r in w0.db.orders
  {
    && w0.db.events <= w.db.events && Onward(w0, w)
    && r in w.db.orders && w.db.orders[r].contract == w0.db.orders[r].contract
    && (forall p :: p in w.procs && w.procs[p].d.order == Some(r) && !w.procs[p].at.Done? && !w.procs[p].at.Arrived? ==>
          NewSince(w0, w, p))
    && (Settled(w.db.orders[r]) ==>
          exists p :: p in w.procs && GrantedTo(w.procs[p], r) && NewSince(w0, w, p)
            && !Mismatch(w.procs[p].d.reported, w0.db.orders[r].contract.amountCents))
  }

  /** A step that leaves the order as it is and moves at most one delivery, without granting. */
  lemma QuietStaysNew(w0: World, w: World, w': World, r: Id, p: Id)
    requires r in w0.db.orders && NewOnly(w0, w, r) && Onward(w0, w')
    requires w.db.events <= w'.db.events && r in w'.db.orders && w'.db.orders[r] == w.db.orders[r]
    requires forall q :: q in w.procs ==>
      q in w'.procs && w'.procs[q].d == w.procs[q].d && (q != p || w.procs[q].at.Done? ==> w'.procs[q] == w.procs[q])
    requires forall q :: q in w'.procs && q !in w.procs ==> w'.procs[q].at.Arrived?
    requires p in w'.procs && w'.procs[p].d.order == Some(r) && !w'.procs[p].at.Done? && !w'.procs[p].at.Arrived? ==>
      NewSince(w0, w', p)
    ensures NewOnly(w0, w', r)
  {
    hide Mismatch;
    forall q | q in w'.procs && w'.procs[q].d.order == Some(r) && !w'.procs[q].at.Done? && !w'.procs[q].at.Arrived?
      ensures NewSince(w0, w', q)
    {
      if q != p { assert NewSince(w0, w, q); }
    }
    if Settled(w'.db.orders[r]) {
      var q :| q in w.procs && GrantedTo(w.procs[q], r) && NewSince(w0, w, q)
        && !Mismatch(w.procs[q].d.reported, w0.db.orders[r].contract.amountCents);
      assert GrantedTo(w'.procs[q], r) && NewSince(w0, w', q);
    }
  }

  lemma AdvanceStaysNew(w0: World, w: World, r: Id, p: Id, first: Instant, second: Instant)
    requires WorldInv(w) && r in w0.db.orders && NewOnly(w0, w, r) && p in w.procs
    ensures NewOnly(w0, AdvanceProcess(w, p, first, second), r)
  {
    var w' := AdvanceProcess(w, p, first, second);
    StatementMoves(w, p, first, second);
    if w.procs[p].at.Written? {
      AdvanceOfWritten(w, p, first, second);
      CommitEffect(w, p);
      hide WorldInv, AdvanceProcess, CommitStatement, Inv;
      CommitStaysNew(w0, w, r, p, w');
    } else {
      hide WorldInv, AdvanceProcess;
      MoveStaysNew(w0, w, r, p, w');
    }
  }

  lemma MoveStaysNew(w0: World, w: World, r: Id, p: Id, w': World)
    requires r in w0.db.orders && NewOnly(w0, w, r) && p in w.procs && !w.procs[p].at.Written? && Moves(w, p, w')
    ensures NewOnly(w0, w', r)
  {
    assert !w.procs[p].at.Arrived? && !w.procs[p].at.Done? && w.procs[p].d.order == Some(r) ==> NewSince(w0, w, p);
    hide Mismatch;
    QuietStaysNew(w0, w, w', r, p);
  }

  lemma CommitStaysNew(w0: World, w: World, r: Id, p: Id, w': World)
    requires r in w0.db.orders && NewOnly(w0, w, r) && p in w.procs && Commits(w, p, Ref(w.procs[p].d), w')
    ensures NewOnly(w0, w', r)
  {
    if Ref(w.procs[p].d) == r {
      assert NewSince(w0, w, p);
      hide Mismatch;
      assert GrantedTo(w'.procs[p], r) && NewSince(w0, w', p);
      assert forall q :: q in w'.procs && !w'.procs[q].at.Done? ==> w'.procs[q] == w.procs[q];
    } else {
      QuietStaysNew(w0, w, w', r, p);
    }
  }

  lemma StepStaysNew(w0: World, w: World, r: Id, a: Action)
    requires WorldInv(w) && r in w0.db.orders && NewOnly(w0, w, r)
    ensures NewOnly(w0, Step(w, a), r)
  {
    hide WorldInv, AdvanceProcess, DoOp, NewOnly;
    match a
    case Advance(p, first, second) =>
      if p in w.procs { AdvanceStaysNew(w0, w, r, p, first, second); }
    case Deliver(p, d) =>
      if p !in w.procs { NewOnlyIsOnward(w0, w, r); QuietStaysNew(w0, w, Step(w, a), r, p); }
    case Crash(p) =>
      if Step(w, a) != w { NewOnlyIsOnward(w0, w, r); QuietStaysNew(w0, w, Step(w, a), r, p); }
    case Other(op) =>
      if Step(w, a) != w {
        NewOnlyIsOnward(w0, w, r);
        StatusOnlyAdvances(w.db, op, r);
        OthersRecordNothing(w.db, op);
        OtherStaysNew(w0, w, Step(w, a), r);
      }
  }

  lemma OtherStaysNew(w0: World, w: World, w': World, r: Id)
    requires r in w0.db.orders && NewOnly(w0, w, r) && w'.procs == w.procs && w'.db.events == w.db.events
    requires r in w.db.orders && r in w'.db.orders && w'.db.orders[r] == w.db.orders[r]
    ensures NewOnly(w0, w', r)
  {
    hide Mismatch;
    if Settled(w'.db.orders[r]) {
      var q :| q in w.procs && GrantedTo(w.procs[q], r) && NewSince(w0, w, q)
        && !Mismatch(w.procs[q].d.reported, w0.db.orders[r].contract.amountCents);
      assert GrantedTo(w'.procs[q], r) && NewSince(w0, w', q);
    }
    assert forall q :: q in w'.procs ==> NewSince(w0, w', q) == NewSince(w0, w, q);
  }

  lemma NewOnlyIsOnward(w0: World, w: World, r: Id)
    requires r in w0.db.orders && NewOnly(w0, w, r)
    ensures Onward(w0, w) && r in w.db.orders && w0.db.events <= w.db.events
  {
  }

  lemma {:induction false} RunStaysNew(w0: World, r: Id, actions: seq<Action>)
    requires WorldInv(w0) && r in w0.db.orders && !Settled(w0.db.orders[r]) && Idle(w0, r)
    ensures WorldInv(Run(w0, actions)) && NewOnly(w0, Run(w0, actions), r)
    decreases |actions|
  {
    if actions != [] {
      hide WorldInv, Step, NewOnly;
      var prefix, a := actions[..|actions| - 1], actions[|actions| - 1];
      RunStaysNew(w0, r, prefix);
      StepKeepsInv(Run(w0, prefix), a);
      StepStaysNew(w0, Run(w0, prefix), r, a);
    }
  }

  /**
   Only new events settle: while no delivery for an open order is under way, whatever happens from then on can
   settle it only through a delivery in tolerance whose event is not on record yet.
   */
  lemma OnlyNewEventsSettle(w: World, r: Id, actions: seq<Action>)
    requires WorldInv(w) && r in w.db.orders && !Settled(w.db.orders[r]) && Idle(w, r)
    ensures var w' := Run(w, actions);
            && r in w'.db.orders
            && (Settled(w'.db.orders[r]) ==>
                  exists p :: p in w'.procs && GrantedTo(w'.procs[p], r) && Key(w'.procs[p].d) !in w.db.events
                    && (p in w.procs ==> w.procs[p].at.Arrived?)
                    && !Mismatch(w'.procs[p].d.reported, w.db.orders[r].contract.amountCents))
  {
    hide WorldInv, Run, Mismatch, Idle;
    RunStaysNew(w, r, actions);
  }

  // ------------------------------------------------------------ a new event does settle

  /** All other deliveries are done. */
  predicate Undisturbed(w: World, q: Id) { forall p :: p in w.procs && p != q ==> w.procs[p].at.Done? }

  /** An undisturbed delivery on its way to settle its order. */
  predicate OnTrack(w: World, q: Id, r: Id)
  {
    && q in w.procs && Undisturbed(w, q) && !w.procs[q].at.Done? && InTolerance(w.db, w.procs[q].d, r)
    && (w.procs[q].at.Arrived? ==> Key(w.procs[q].d) !in w.db.events)
  }

  lemma AloneIsFree(w: World, q: Id)
    requires q in w.procs && Undisturbed(w, q)
    ensures Free(w, q, Wants(w.procs[q]))
  {
    forall p | p in w.procs && p != q ensures Locks(w.procs[p]) == {} { DoneHoldsNothing(w.procs[p]); }
  }

  /** Its next statement before the commit does not end it. */
  lemma NextStage(w: World, q: Id, r: Id, first: Instant, second: Instant)
    requires WorldInv(w) && OnTrack(w, q, r) && !w.procs[q].at.Written? && Free(w, q, Wants(w.procs[q]))
    ensures var w' := AdvanceProcess(w, q, first, second); q in w'.procs && !w'.procs[q].at.Done?
  {
    assert InStep(w.db, w.clock, w.procs[q]);
    InvOfWorld(w);
    hide WorldInv, Inv, InStep, Owned, Mismatch, Free, InTolerance, Rank;
    hide ReadStatement, ClaimStatement, CreditStatement, ItemStatement, SubStatement, UpsertStatement, CommitStatement;
    match w.procs[q].at
    case Arrived => ArrivedGoesOn(w, q);
    case Marked => MarkedGoesOn(w, q, r);
    case Checked(_) => CheckedGoesOn(w, q, r);
    case Claimed(_) => ClaimedGoesOn(w, q);
    case Credited(_, _) => ItemFits(w, q, r);
    case PlanRead(_, _, _) => PlanReadGoesOn(w, q, first, second);
    case SubRead(_, _, _, _, _) => SubReadGoesOn(w, q);
  }

  lemma ArrivedGoesOn(w: World, q: Id)
    requires q in w.procs && w.procs[q].at.Arrived? && Key(w.procs[q].d) !in w.db.events
    ensures q in MarkStatement(w, q).procs && !MarkStatement(w, q).procs[q].at.Done?
  {
  }

  lemma MarkedGoesOn(w: World, q: Id, r: Id)
    requires q in w.procs && w.procs[q].at.Marked? && InTolerance(w.db, w.procs[q].d, r)
    ensures q in ReadStatement(w, q).procs && !ReadStatement(w, q).procs[q].at.Done?
  {
    hide Mismatch, Owned;
  }

  lemma CheckedGoesOn(w: World, q: Id, r: Id)
    requires q in w.procs && w.procs[q].at.Checked? && InTolerance(w.db, w.procs[q].d, r)
    ensures q in ClaimStatement(w, q).procs && !ClaimStatement(w, q).procs[q].at.Done?
  {
    hide Mismatch, Owned;
  }

  lemma ClaimedGoesOn(w: World, q: Id)
    requires q in w.procs && w.procs[q].at.Claimed?
    ensures q in CreditStatement(w, q).procs && !CreditStatement(w, q).procs[q].at.Done?
  {
  }

  lemma PlanReadGoesOn(w: World, q: Id, first: Instant, second: Instant)
    requires q in w.procs && w.procs[q].at.PlanRead?
    ensures q in SubStatement(w, q, first, second).procs && !SubStatement(w, q, first, second).procs[q].at.Done?
  {
    hide NextEnd;
  }

  lemma SubReadGoesOn(w: World, q: Id)
    requires q in w.procs && w.procs[q].at.SubRead? && InStep(w.db, w.clock, w.procs[q])
    ensures q in UpsertStatement(w, q).procs && !UpsertStatement(w, q).procs[q].at.Done?
  {
    hide NextEnd, Mismatch, UpsertedSub;
  }

  /** The purchase or tip row of an open order for something not owned can be inserted. */
  lemma ItemFits(w: World, q: Id, r: Id)
    requires Inv(w.db) && q in w.procs && w.procs[q].at.Credited? && InStep(w.db, w.clock, w.procs[q])
      && InTolerance(w.db, w.procs[q].d, r)
    ensures q in ItemStatement(w, q).procs && !ItemStatement(w, q).procs[q].at.Done?
  {
    hide MoneyConserved, SubsMatchOrders, OnePurchasePerPost, OrdersOk, Mismatch;
    assert r !in w.db.purchases && r !in w.db.tips;
    assert w.db.orders[r].contract == w.procs[q].at.o.contract;
  }

  lemma StaysOnTrack(w: World, q: Id, r: Id, first: Instant, second: Instant)
    requires WorldInv(w) && OnTrack(w, q, r) && !w.procs[q].at.Written?
    ensures var w' := AdvanceProcess(w, q, first, second);
            OnTrack(w', q, r) && Rank(w'.procs[q].at) > Rank(w.procs[q].at)
  {
    AloneIsFree(w, q);
    NextStage(w, q, r, first, second);
    StatementMoves(w, q, first, second);
    StatementsRunOut(w, q, first, second);
    OwnershipStays(w, q, first, second, w.db.orders[r].contract);
    hide WorldInv, AdvanceProcess, Owned, Mismatch, Free, Rank;
  }

  lemma OwnershipStays(w: World, q: Id, first: Instant, second: Instant, c: Contract)
    requires q in w.procs && !w.procs[q].at.Written?
    ensures Owned(AdvanceProcess(w, q, first, second).db, c) <==> Owned(w.db, c)
  {
    hide Owned;
    if w.procs[q].at.Arrived? {
      MarkOwnsNothing(w, q, first, second);
      OwnedIsAboutPurchases(w.db, AdvanceProcess(w, q, first, second).db, c);
    } else {
      OnlyMarksAndCommitsShow(w, q, first, second);
    }
  }

  lemma MarkOwnsNothing(w: World, q: Id, first: Instant, second: Instant)
    requires q in w.procs && w.procs[q].at.Arrived?
    ensures AdvanceProcess(w, q, first, second).db.purchases == w.db.purchases
  {
    hide Free;
  }

  /** Its remaining statements, run one after the other, settle the order. */
  lemma {:induction false} SettlesOnTrack(w: World, q: Id, r: Id) returns (actions: seq<Action>)
    requires WorldInv(w) && OnTrack(w, q, r)
    ensures forall a :: a in actions ==> a.Advance? && a.p == q
    ensures var w' := Run(w, actions);
            q in w'.procs && w'.procs[q].at == Done(Granted) && r in w'.db.orders && Settled(w'.db.orders[r])
    decreases 8 - Rank(w.procs[q].at)
  {
    var a := Advance(q, w.clock, w.clock);
    var w' := Step(w, a);
    assert w' == AdvanceProcess(w, q, w.clock, w.clock);
    hide Step, AdvanceProcess, WorldInv, OnTrack, Rank, InTolerance;
    var rest := [];
    if w.procs[q].at.Written? {
      CommitSettles(w, q, r, w.clock, w.clock);
    } else {
      StaysOnTrack(w, q, r, w.clock, w.clock);
      StepKeepsInv(w, a);
      RankIsSmall(w'.procs[q].at);
      rest := SettlesOnTrack(w', q, r);
    }
    actions := [a] + rest;
    RunFromFirst(w, a, rest);
  }

  lemma RankIsSmall(at: Stage)
    ensures Rank(at) <= 8
  {
  }

  lemma CommitSettles(w: World, q: Id, r: Id, first: Instant, second: Instant)
    requires WorldInv(w) && OnTrack(w, q, r) && w.procs[q].at.Written?
    ensures var w' := AdvanceProcess(w, q, first, second);
            q in w'.procs && w'.procs[q].at == Done(Granted) && r in w'.db.orders && Settled(w'.db.orders[r])
  {
    AloneIsFree(w, q);
    AdvanceOfWritten(w, q, first, second);
    CommitEffect(w, q);
    hide AdvanceProcess, CommitStatement, WorldInv, Inv, Mismatch, Owned;
  }

  /** An undisturbed delivery of a new event that pays for an open order settles it. */
  lemma NewEventSettles(w: World, d: Delivery, r: Id, q: Id) returns (actions: seq<Action>)
    requires WorldInv(w) && Undisturbed(w, q) && q !in w.procs && InTolerance(w.db, d, r) && Key(d) !in w.db.events
    ensures forall a :: a in actions ==> a == Deliver(q, d) || (a.Advance? && a.p == q)
    ensures var w' := Run(w, actions);
            q in w'.procs && w'.procs[q].at == Done(Granted) && r in w'.db.orders && Settled(w'.db.orders[r])
  {
    var a := Deliver(q, d);
    var w' := Step(w, a);
    StepKeepsInv(w, a);
    assert OnTrack(w', q, r) by { hide WorldInv, Inv; }
    hide WorldInv, Step, OnTrack;
    var rest := SettlesOnTrack(w', q, r);
    actions := [a] + rest;
    RunFromFirst(w, a, rest);
  }

  // ------------------------------------------------------------ exactly when a redelivery settles

  predicate RunSettles(w: World, actions: seq<Action>, r: Id)
  {
    r in Run(w, actions).db.orders && Settled(Run(w, actions).db.orders[r])
  }

  /** Nothing arrives but this delivery, as often as may be. */
  predicate OnlyDelivers(actions: seq<Action>, d: Delivery) { forall a :: a in actions && a.Deliver? ==> a.d == d }

  lemma StepDelivers(w: World, a: Action, p: Id)
    requires p in Step(w, a).procs && p !in w.procs
    ensures a.Deliver? && a.p == p && Step(w, a).procs[p].d == a.d
  {
    if a.Advance? && a.p in w.procs { StatementMoves(w, a.p, a.first, a.second); }
    hide AdvanceProcess, DoOp;
  }

  lemma StepKeepsDeliveries(w: World, a: Action, p: Id)
    requires p in w.procs
    ensures p in Step(w, a).procs && Step(w, a).procs[p].d == w.procs[p].d
  {
    if a.Advance? && a.p in w.procs { StatementMoves(w, a.p, a.first, a.second); }
    hide AdvanceProcess, DoOp;
  }

  lemma {:induction false} NewDeliveries(w: World, actions: seq<Action>, d: Delivery, p: Id)
    requires OnlyDelivers(actions, d) && p in Run(w, actions).procs && p !in w.procs
    ensures Run(w, actions).procs[p].d == d
    decreases |actions|
  {
    hide Step;
    if actions != [] {
      var prefix, a := actions[..|actions| - 1], actions[|actions| - 1];
      assert a in actions;
      if p in Run(w, prefix).procs {
        NewDeliveries(w, prefix, d, p);
        StepKeepsDeliveries(Run(w, prefix), a, p);
      } else {
        StepDelivers(Run(w, prefix), a, p);
      }
    }
  }

  lemma FreshId(procs: map<Id, Process>) returns (q: Id)
    ensures q !in procs
  {
    var ids: set<(Provider, Id)> := set p | p in procs :: (PayPal, p);
    q := EventsAreBounded(ids);
    assert q in procs ==> (PayPal, q) in ids;
  }

  /**
   Exactly when a paid order can still be settled by the event that pays for it: with all deliveries done,
   delivering the event again, however often and whatever else happens, settles the order in some run if
   and only if the event is not on record yet. After a crash that consumed it, no run does.
   */
  lemma RedeliverySettlesUnlessConsumed(w: World, d: Delivery, r: Id)
    requires WorldInv(w) && InTolerance(w.db, d, r) && forall p :: p in w.procs ==> w.procs[p].at.Done?
    ensures (exists actions :: OnlyDelivers(actions, d) && RunSettles(w, actions, r))
       <==> Key(d) !in w.db.events
  {
    hide WorldInv, Run, Mismatch, Owned;
    if Key(d) !in w.db.events {
      var q := FreshId(w.procs);
      var actions := NewEventSettles(w, d, r, q);
      assert OnlyDelivers(actions, d) && RunSettles(w, actions, r);
    }
    forall actions | OnlyDelivers(actions, d) && RunSettles(w, actions, r)
      ensures Key(d) !in w.db.events
    {
      OnlyNewEventsSettle(w, r, actions);
      var p :| p in Run(w, actions).procs && GrantedTo(Run(w, actions).procs[p], r)
        && Key(Run(w, actions).procs[p].d) !in w.db.events && (p in w.procs ==> w.procs[p].at.Arrived?);
      NewDeliveries(w, actions, d, p);
    }
  }
}
