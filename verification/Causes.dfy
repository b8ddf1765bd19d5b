/** Where rows come from: no purchase row without a checkout or a paid webhook that asked
    for it, no completed row without a payment, and no reply without its turn. */
module Causes {
  import opened Wrappers
  import opened Ledger
  import opened Payments
  import opened MediaJobs
  import opened ChatBilling
  import opened Economy

  /** The process asked for this row: who buys, and how many credits. */
  predicate Orders(proc: Proc, ref: Ref, row: Row) {
    match proc
    case Buying(c) => c.ref == ref && c.user == row.user && c.credits == row.credits
    case Delivering(d) => Stripe(d.session) == ref && d.paid && d.metadata == Some(Metadata(row.user, row.credits))
    case _ => false
  }

  /** The process carries the proof of payment for this row. */
  predicate Pays(proc: Proc, ref: Ref, row: Row) {
    match proc
    case Delivering(d) => Stripe(d.session) == ref && d.paid
    case Verifying(v) => Order(v.order) == ref && row.payment == Some(v.payment) && row.user == v.caller
    case _ => false
  }

  ghost predicate Ordered(procs: seq<Proc>, ref: Ref, row: Row) {
    exists p :: 0 <= p < |procs| && Orders(procs[p], ref, row)
  }

  ghost predicate Paid(procs: seq<Proc>, ref: Ref, row: Row) {
    exists p :: 0 <= p < |procs| && Pays(procs[p], ref, row)
  }

  ghost predicate Caused(procs: seq<Proc>, ref: Ref, row: Row) {
    Ordered(procs, ref, row) && (row.completed ==> Paid(procs, ref, row))
  }

  /** The reply belongs to a turn of its user. */
  predicate Asked(procs: seq<Proc>, reply: Reply) {
    reply.turn < |procs| && procs[reply.turn].Chatting? && procs[reply.turn].turn.user == reply.user
  }

  ghost predicate TxCaused(procs: seq<Proc>, tx: Tx) {
    && (tx.hold.Some? ==> Caused(procs, tx.hold.value.ref, tx.hold.value.after))
    && (tx.reply.Some? ==> Asked(procs, tx.reply.value))
  }

  ghost predicate DbCaused(procs: seq<Proc>, db: Db) {
    && (forall ref :: ref in db.rows ==> Caused(procs, ref, db.rows[ref]))
    && (forall s :: s in db.open ==> TxCaused(procs, db.open[s]))
    && (forall i :: 0 <= i < |db.recorded| ==> Asked(procs, db.recorded[i]))
  }

  /** Past its first check a delivery is a paid one. */
  predicate PaidDelivery(proc: Proc) {
    proc.Delivering? && proc.delivery.pc != DeliveryStart && proc.delivery.pc != DeliveryDone && proc.delivery.pc != DeliveryDropped
    ==> proc.delivery.paid
  }

  ghost predicate WorldCaused(w: World) {
    DbCaused(w.procs, w.db) && forall p :: 0 <= p < |w.procs| ==> PaidDelivery(w.procs[p])
  }

  // --- processes keep their identity ------------------------------------

  predicate SameParty(a: Proc, b: Proc) {
    match a
    case Buying(c) => b.Buying? && b.checkout.(pc := c.pc) == c
    case Delivering(d) => b.Delivering? && b.delivery.(pc := d.pc) == d
    case Verifying(v) => b.Verifying? && b.verify.(pc := v.pc) == v
    case Making(_) => b.Making?
    case Chatting(t) => b.Chatting? && b.turn.user == t.user
  }

  lemma {:induction false} StepKeepsParty(db: Db, p: nat, proc: Proc, je: JobEvent, ev: TurnEvent, maxAttempts: nat)
    ensures SameParty(proc, StepProc(db, p, proc, je, ev, maxAttempts).1)
  {
  }

  /** What other processes ordered and paid stays so when one process moves or joins. */
  ghost predicate Extends(procs: seq<Proc>, procs': seq<Proc>) {
    |procs| <= |procs'| && forall p :: 0 <= p < |procs| ==> SameParty(procs[p], procs'[p])
  }

  lemma {:induction false} CausesAreKept(procs: seq<Proc>, procs': seq<Proc>, ref: Ref, row: Row)
    requires Extends(procs, procs') && Caused(procs, ref, row)
    ensures Caused(procs', ref, row)
  {
    var p :| 0 <= p < |procs| && Orders(procs[p], ref, row);
    assert SameParty(procs[p], procs'[p]) && Orders(procs'[p], ref, row);
    if row.completed {
      var q :| 0 <= q < |procs| && Pays(procs[q], ref, row);
      assert SameParty(procs[q], procs'[q]) && Pays(procs'[q], ref, row);
    }
  }

  lemma {:induction false} DbCausesAreKept(procs: seq<Proc>, procs': seq<Proc>, db: Db)
    requires Extends(procs, procs') && DbCaused(procs, db)
    ensures DbCaused(procs', db)
  {
    forall ref | ref in db.rows
      ensures Caused(procs', ref, db.rows[ref])
    {
      CausesAreKept(procs, procs', ref, db.rows[ref]);
    }
    forall s | s in db.open
      ensures TxCaused(procs', db.open[s])
    {
      var tx := db.open[s];
      if tx.hold.Some? {
        CausesAreKept(procs, procs', tx.hold.value.ref, tx.hold.value.after);
      }
    }
  }

  // --- statements -------------------------------------------------------

  lemma {:induction false} PutKeepsCauses(procs: seq<Proc>, db: Db, s: Sid, tx: Tx)
    requires DbCaused(procs, db) && TxCaused(procs, tx)
    ensures DbCaused(procs, Put(db, s, tx))
  {
    var db' := Put(db, s, tx);
    forall t | t in db'.open
      ensures TxCaused(procs, db'.open[t])
    {
      assert t != s ==> db'.open[t] == db.open[t];
    }
  }

  lemma {:induction false} RollbackKeepsCauses(procs: seq<Proc>, db: Db, s: Sid)
    requires DbCaused(procs, db)
    ensures DbCaused(procs, Rollback(db, s))
  {
  }

  lemma {:induction false} CommitKeepsCauses(procs: seq<Proc>, db: Db, s: Sid)
    requires DbCaused(procs, db) && s in db.open
    ensures DbCaused(procs, Commit(db, s))
  {
    var db', tx := Commit(db, s), db.open[s];
    assert TxCaused(procs, tx);
    forall t | t in db'.open
      ensures TxCaused(procs, db'.open[t])
    {
      assert db'.open[t] == db.open[t];
    }
  }

  // --- steps ------------------------------------------------------------

  lemma {:induction false} InsertKeepsCauses(procs: seq<Proc>, db: Db, p: nat, ref: Ref, user: User, credits: int)
    requires DbCaused(procs, db) && Sid(p, 0) !in db.open && InsertRow(db, Sid(p, 0), ref, user, credits).Done?
    requires p < |procs| && Orders(procs[p], ref, Row(user, credits, false, None))
    ensures DbCaused(procs, InsertRow(db, Sid(p, 0), ref, user, credits).db)
  {
    PutKeepsCauses(procs, db, Sid(p, 0), EMPTY_TX.(hold := Some(Hold(ref, None, Row(user, credits, false, None), false))));
  }

  lemma {:induction false} SelectKeepsCauses(procs: seq<Proc>, db: Db, s: Sid, ref: Ref)
    requires DbCaused(procs, db) && s !in db.open && SelectForUpdate(db, s, ref).Done?
    ensures DbCaused(procs, SelectForUpdate(db, s, ref).db)
  {
    PutKeepsCauses(procs, db, s, EMPTY_TX.(hold := Some(Hold(ref, Some(db.rows[ref]), db.rows[ref], false))));
  }

  lemma {:induction false} SettleKeepsCauses(procs: seq<Proc>, db: Db, p: nat, payment: Option<string>)
    requires DbCaused(procs, db) && Sid(p, 0) in db.open && db.open[Sid(p, 0)].hold.Some? && db.open[Sid(p, 0)].reply.None?
    requires Settle(db, Sid(p, 0), payment).Done? && p < |procs|
    requires var hold := db.open[Sid(p, 0)].hold.value; Pays(procs[p], hold.ref, hold.after.(payment := payment))
    ensures DbCaused(procs, Settle(db, Sid(p, 0), payment).db)
  {
    var s := Sid(p, 0);
    var tx := db.open[s];
    var hold := tx.hold.value;
    var after := hold.after.(completed := true, payment := payment);
    SettleEffect(db, s, payment);
    assert TxCaused(procs, tx);
    var q :| 0 <= q < |procs| && Orders(procs[q], hold.ref, hold.after);
    assert Orders(procs[q], hold.ref, after) && Pays(procs[p], hold.ref, after);
    PutKeepsCauses(procs, db, s, SettledTx(tx, payment));
  }

  lemma {:induction false} FlushKeepsCauses(procs: seq<Proc>, db: Db, s: Sid)
    requires DbCaused(procs, db) && s in db.open && db.open[s].hold.Some? && FlushRow(db, s).Done?
    ensures DbCaused(procs, FlushRow(db, s).db)
  {
    var tx := db.open[s];
    assert TxCaused(procs, tx);
    PutKeepsCauses(procs, db, s, tx.(hold := Some(tx.hold.value.(flushed := true))));
  }

  lemma {:induction false} CheckoutCauses(procs: seq<Proc>, db: Db, p: nat, c: Checkout)
    requires DbCaused(procs, db) && p < |procs| && procs[p] == Buying(c) && CheckoutOk(db, Sid(p, 0), c)
    ensures DbCaused(procs, CheckoutStep(db, Sid(p, 0), c).0)
  {
    if c.pc == CheckoutStart {
      if InsertRow(db, Sid(p, 0), c.ref, c.user, c.credits).Done? {
        InsertKeepsCauses(procs, db, p, c.ref, c.user, c.credits);
      }
      RollbackKeepsCauses(procs, db, Sid(p, 0));
    } else if c.pc == CheckoutInserted {
      CommitKeepsCauses(procs, db, Sid(p, 0));
    }
  }

  lemma {:induction false} DeliveryCauses(procs: seq<Proc>, db: Db, p: nat, d: Delivery)
    requires DbCaused(procs, db) && p < |procs| && procs[p] == Delivering(d) && DeliveryOk(db, Sid(p, 0), d) && PaidDelivery(procs[p])
    ensures DbCaused(procs, DeliveryStep(db, Sid(p, 0), d).0)
  {
    var s, ref := Sid(p, 0), Stripe(d.session);
    RollbackKeepsCauses(procs, db, s);
    match d.pc
    case DeliveryMissing =>
      if d.metadata.Some? && InsertRow(db, s, ref, d.metadata.value.user, d.metadata.value.credits).Done? {
        InsertKeepsCauses(procs, db, p, ref, d.metadata.value.user, d.metadata.value.credits);
      }
    case DeliveryLocked =>
      var hold := db.open[s].hold.value;
      if !hold.after.completed && Settle(db, s, hold.after.payment).Done? {
        SettleKeepsCauses(procs, db, p, hold.after.payment);
      }
    case DeliveryCredited => CommitKeepsCauses(procs, db, s);
    case _ =>
      if SelectForUpdate(db, s, ref).Done? {
        SelectKeepsCauses(procs, db, s, ref);
      }
  }

  lemma {:induction false} VerifyCauses(procs: seq<Proc>, db: Db, p: nat, v: Verify)
    requires DbCaused(procs, db) && p < |procs| && procs[p] == Verifying(v) && VerifyOk(db, Sid(p, 0), v)
    ensures DbCaused(procs, VerifyStep(db, Sid(p, 0), v).0)
  {
    var s := Sid(p, 0);
    RollbackKeepsCauses(procs, db, s);
    match v.pc
    case VerifyStart =>
      if SelectForUpdate(db, s, Order(v.order)).Done? {
        SelectKeepsCauses(procs, db, s, Order(v.order));
      }
    case VerifyLocked =>
      var hold := db.open[s].hold.value;
      if hold.after.user == v.caller && !hold.after.completed && Settle(db, s, Some(v.payment)).Done? {
        SettleKeepsCauses(procs, db, p, Some(v.payment));
      }
    case VerifyCredited =>
      if FlushRow(db, s).Done? {
        FlushKeepsCauses(procs, db, s);
      }
    case VerifyFlushed => CommitKeepsCauses(procs, db, s);
    case VerifyEnded(_) =>
  }

  lemma {:induction false} JobCauses(procs: seq<Proc>, db: Db, p: nat, j: Job, je: JobEvent, maxAttempts: nat)
    requires DbCaused(procs, db) && JobPaid(db, p, j)
    ensures DbCaused(procs, JobStep(db, p, j, je, maxAttempts).0)
  {
    if TouchesWallet(PcOf(j, je.part)) {
      JobPayCauses(procs, db, p, j, je.part, je.env);
    }
  }

  lemma {:induction false} JobPayCauses(procs: seq<Proc>, db: Db, p: nat, j: Job, part: Part, env: Env)
    requires DbCaused(procs, db) && JobPaid(db, p, j) && TouchesWallet(PcOf(j, part))
    ensures DbCaused(procs, JobPayStep(db, p, j, part, env).0)
  {
    var s := SidOf(p, part);
    RollbackKeepsCauses(procs, db, s);
    if PcOf(j, part).JobStart? {
      ChargeEffect(db, p, j, part, env);
      PutKeepsCauses(procs, db, s, DebitTx(s, j.user, j.cost));
    } else if PcOf(j, part).JobRefundDue? {
      RefundEffect(db, p, j, part, env);
      PutKeepsCauses(procs, db, s, RefundTx(s, j.user, j.cost));
    } else {
      CommitKeepsCauses(procs, db, s);
    }
  }

  lemma {:induction false} TurnCauses(procs: seq<Proc>, db: Db, p: nat, t: Turn, ev: TurnEvent)
    requires DbCaused(procs, db) && p < |procs| && procs[p] == Chatting(t) && TurnOk(db, p, t)
    ensures DbCaused(procs, TurnStep(db, p, t, ev).0)
  {
    if ev.Charge? && SlotIs(t, ev.slot, Streaming) {
      assert SlotOk(db, p, t, ev.slot);
      var s, reply := Sid(p, ev.slot), ReplyOf(p, t, ev.slot, ev.use, ev.served);
      RollbackKeepsCauses(procs, db, s);
      if ReplyStmt(db, s, reply).Done? {
        ReplyEffect(db, s, reply);
        PutKeepsCauses(procs, db, s, Tx(Some(ReplyPosting(reply)), None, Some(reply)));
      }
    } else if (ev.CommitSlot? || ev.Drop?) && SlotIs(t, ev.slot, Charging) {
      assert SlotOk(db, p, t, ev.slot);
      RollbackKeepsCauses(procs, db, Sid(p, ev.slot));
      CommitKeepsCauses(procs, db, Sid(p, ev.slot));
    }
  }

  lemma {:induction false} StepCauses(w: World, p: nat, je: JobEvent, ev: TurnEvent, maxAttempts: nat)
    requires WorldCaused(w) && p < |w.procs| && ProcOk(w.db, p, w.procs[p], maxAttempts)
    ensures DbCaused(w.procs, StepProc(w.db, p, w.procs[p], je, ev, maxAttempts).0)
  {
    match w.procs[p]
    case Buying(c) => CheckoutCauses(w.procs, w.db, p, c);
    case Delivering(d) => DeliveryCauses(w.procs, w.db, p, d);
    case Verifying(v) => VerifyCauses(w.procs, w.db, p, v);
    case Making(j) => JobCauses(w.procs, w.db, p, j, je, maxAttempts);
    case Chatting(t) => TurnCauses(w.procs, w.db, p, t, ev);
  }

  lemma {:induction false} DeliveryStaysPaid(db: Db, p: nat, proc: Proc, je: JobEvent, ev: TurnEvent, maxAttempts: nat)
    requires PaidDelivery(proc)
    ensures PaidDelivery(StepProc(db, p, proc, je, ev, maxAttempts).1)
  {
  }

  lemma {:induction false} MoveKeepsCauses(w: World, p: nat, db': Db, proc': Proc)
    requires WorldCaused(w) && p < |w.procs| && DbCaused(w.procs, db') && SameParty(w.procs[p], proc') && PaidDelivery(proc')
    ensures WorldCaused(World(db', w.procs[p := proc']))
  {
    DbCausesAreKept(w.procs, w.procs[p := proc'], db');
  }

  lemma {:induction false} NextKeepsCauses(w: World, opening: map<User, int>, e: Event, maxAttempts: nat)
    requires Inv(w, opening, maxAttempts) && WorldCaused(w)
    ensures WorldCaused(Next(w, e, maxAttempts))
  {
    match e
    case Spawn(proc) =>
      if Initial(proc) {
        DbCausesAreKept(w.procs, w.procs + [proc], w.db);
      }
    case Step(p, je, ev) =>
      if p < |w.procs| {
        var (db', proc') := StepProc(w.db, p, w.procs[p], je, ev, maxAttempts);
        StepCauses(w, p, je, ev, maxAttempts);
        StepKeepsParty(w.db, p, w.procs[p], je, ev, maxAttempts);
        DeliveryStaysPaid(w.db, p, w.procs[p], je, ev, maxAttempts);
        MoveKeepsCauses(w, p, db', proc');
      }
    case Crash(p) =>
      if p < |w.procs| {
        var (db', proc') := CrashProc(w.db, p, w.procs[p]);
        RollbackKeepsCauses(w.procs, w.db, Sid(p, 0));
        MoveKeepsCauses(w, p, db', proc');
      }
    case Delete(p) =>
      if p < |w.procs| && w.procs[p].Making? {
        MoveKeepsCauses(w, p, w.db, Making(DeleteVideo(w.procs[p].job)));
      }
    case EraseRows(ids) =>
  }

  lemma {:induction false} RunKeepsCauses(w: World, opening: map<User, int>, events: seq<Event>, maxAttempts: nat)
    requires maxAttempts > 0 && Inv(w, opening, maxAttempts) && WorldCaused(w)
    ensures WorldCaused(RunFrom(w, events, maxAttempts))
    decreases |events|
  {
    if events != [] {
      NextIsSafe(w, opening, events[0], maxAttempts);
      NextKeepsCauses(w, opening, events[0], maxAttempts);
      RunKeepsCauses(Next(w, events[0], maxAttempts), opening, events[1..], maxAttempts);
    }
  }

  /** No credits without a payment. In every reachable state a purchase row has the buyer
      and the credits that a checkout or the metadata of a paid delivery named, and it is
      completed only if a paid delivery of its session, or a verification of its order by
      its own buyer with the payment id it carries, has been seen. */
  lemma {:induction false} NoCreditsWithoutPayment(opening: map<User, int>, events: seq<Event>, maxAttempts: nat, ref: Ref)
    requires maxAttempts > 0
    ensures var w := RunFrom(Start(opening), events, maxAttempts);
            ref in w.db.rows ==>
              && (exists p :: 0 <= p < |w.procs| && Orders(w.procs[p], ref, w.db.rows[ref]))
              && (w.db.rows[ref].completed ==> exists p :: 0 <= p < |w.procs| && Pays(w.procs[p], ref, w.db.rows[ref]))
  {
    EveryRunIsSafe(opening, [], maxAttempts);
    RunKeepsCauses(Start(opening), opening, events, maxAttempts);
    var w := RunFrom(Start(opening), events, maxAttempts);
    assert ref in w.db.rows ==> Caused(w.procs, ref, w.db.rows[ref]);
  }

  /** Every reply is charged to the user whose turn asked for it. */
  lemma {:induction false} RepliesAreChargedToTheirUser(opening: map<User, int>, events: seq<Event>, maxAttempts: nat, i: nat)
    requires maxAttempts > 0 && i < |RunFrom(Start(opening), events, maxAttempts).db.recorded|
    ensures var w := RunFrom(Start(opening), events, maxAttempts);
            Asked(w.procs, w.db.recorded[i])
  {
    EveryRunIsSafe(opening, [], maxAttempts);
    RunKeepsCauses(Start(opening), opening, events, maxAttempts);
  }
}
