/** Buying credits (app/api/v1/endpoints/payments.py).

    Each handler is a process that runs one SQL statement or one commit at a time. The
    step functions give the new database and the new program counter; Handlers carries
    the steps out on the database object. */
module Payments {
  import opened Wrappers
  import opened Ledger

  // --- create_checkout_session / create_razorpay_order ------------------

  datatype CheckoutPc = CheckoutStart | CheckoutInserted | CheckoutDone | CheckoutFailed

  /** The row insert that follows the gateway's answer. */
  datatype Checkout = Checkout(ref: Ref, user: User, credits: int, pc: CheckoutPc)

  function CheckoutStep(db: Db, s: Sid, c: Checkout): (Db, Checkout) {
    match c.pc
    case CheckoutStart => (
      match InsertRow(db, s, c.ref, c.user, c.credits)
      case Blocked => (db, c)
      case Refused => (Rollback(db, s), c.(pc := CheckoutFailed))
      case Done(db') => (db', c.(pc := CheckoutInserted)))
    case CheckoutInserted => (Commit(db, s), c.(pc := CheckoutDone))
    case CheckoutDone => (db, c)
    case CheckoutFailed => (db, c)
  }

  ghost predicate CheckoutOk(db: Db, s: Sid, c: Checkout) {
    match c.pc
    case CheckoutInserted =>
      s in db.open && db.open[s] == Tx(None, Some(Hold(c.ref, None, Row(c.user, c.credits, false, None), false)), None)
    case CheckoutDone => s !in db.open && HasRow(db.rows, c)
    case _ => s !in db.open
  }

  /** The row of this checkout is stored, for its buyer and its credits. */
  predicate HasRow(rows: map<Ref, Row>, c: Checkout) {
    c.ref in rows && rows[c.ref].user == c.user && rows[c.ref].credits == c.credits
  }

  /** Steps a checkout can still take. */
  function CheckoutRank(c: Checkout): nat {
    match c.pc
    case CheckoutStart => 2
    case CheckoutInserted => 1
    case _ => 0
  }

  /** A checkout that has not ended comes nearer its end with every step, unless another
      session holds the row of its reference. */
  lemma {:induction false} CheckoutComesNearer(db: Db, s: Sid, c: Checkout)
    requires CheckoutRank(c) > 0
    ensures var (db', c') := CheckoutStep(db, s, c);
            CheckoutRank(c') < CheckoutRank(c) || (c' == c && db' == db && !RowFree(db.open, s, c.ref))
  {
  }

  lemma {:induction false} CheckoutStepIsSafe(db: Db, opening: map<User, int>, s: Sid, c: Checkout)
    requires SafeDb(db, opening) && CheckoutOk(db, s, c)
    ensures var (db', c') := CheckoutStep(db, s, c);
            SafeDb(db', opening) && CheckoutOk(db', s, c') && Frame(db, db', s.proc) && JobsUntouched(db, db')
  {
    match c.pc
    case CheckoutStart =>
      match InsertRow(db, s, c.ref, c.user, c.credits) {
        case Done(_) => InsertKeepsSafety(db, opening, s, c.ref, c.user, c.credits);
        case Refused => RollbackKeepsSafety(db, opening, s);
        case Blocked =>
      }
    case CheckoutInserted =>
      CommitKeepsSafety(db, opening, s);
      CommitFrame(db, s);
    case _ =>
  }

  // --- _handle_checkout_completed ---------------------------------------

  datatype Metadata = Metadata(user: User, credits: int)

  datatype DeliveryPc = DeliveryStart | DeliveryMissing | DeliveryRetry | DeliveryLocked | DeliveryCredited | DeliveryDone | DeliveryGaveUp | DeliveryDropped

  /** One delivery of a signed checkout.session.completed event. */
  datatype Delivery = Delivery(session: string, paid: bool, metadata: Option<Metadata>, pc: DeliveryPc)

  function DeliveryStep(db: Db, s: Sid, d: Delivery): (Db, Delivery) {
    var ref := Stripe(d.session);
    match d.pc
    case DeliveryStart =>
      if !d.paid then (db, d.(pc := DeliveryDone))
      else (
        match SelectForUpdate(db, s, ref)
        case Blocked => (db, d)
        case Refused => (db, d.(pc := DeliveryMissing))
        case Done(db') => (db', d.(pc := DeliveryLocked)))
    case DeliveryMissing =>
      if d.metadata.None? then (db, d.(pc := DeliveryGaveUp))
      else (
        match InsertRow(db, s, ref, d.metadata.value.user, d.metadata.value.credits)
        case Blocked => (db, d)
        case Refused => (Rollback(db, s), d.(pc := DeliveryRetry))
        case Done(db') => (db', d.(pc := DeliveryLocked)))
    case DeliveryRetry => (
      match SelectForUpdate(db, s, ref)
      case Blocked => (db, d)
      case Refused => (db, d.(pc := DeliveryGaveUp))
      case Done(db') => (db', d.(pc := DeliveryLocked)))
    case DeliveryLocked =>
      var hold := TxOf(db, s).hold;
      if hold.None? || hold.value.after.completed then (Rollback(db, s), d.(pc := DeliveryDone))
      else (
        match Settle(db, s, hold.value.after.payment)
        case Blocked => (db, d)
        case Refused => (Rollback(db, s), d.(pc := DeliveryDone))
        case Done(db') => (db', d.(pc := DeliveryCredited)))
    case DeliveryCredited => (Commit(db, s), d.(pc := DeliveryDone))
    case DeliveryDone => (db, d)
    case DeliveryGaveUp => (db, d)
    case DeliveryDropped => (db, d)
  }

  /** The row a delivery takes: the one it found, or the one it rebuilds from its metadata. */
  predicate IsTaken(row: Row, before: Option<Row>, metadata: Option<Metadata>) {
    match before
    case Some(found) => row == found
    case None => metadata.Some? && row == Row(metadata.value.user, metadata.value.credits, false, None)
  }

  ghost predicate DeliveryOk(db: Db, s: Sid, d: Delivery) {
    match d.pc
    case DeliveryLocked =>
      && s in db.open && db.open[s].write.None? && db.open[s].reply.None?
      && HoldsRow(db.open[s], Stripe(d.session)) && Untouched(db.open[s].hold.value)
      && IsTaken(db.open[s].hold.value.after, db.open[s].hold.value.before, d.metadata)
    case DeliveryCredited =>
      && s in db.open && HoldsRow(db.open[s], Stripe(d.session)) && Completing(db.open[s]) && PaymentChecked(db.open[s])
      && IsTaken(db.open[s].hold.value.after.(completed := false), db.open[s].hold.value.before, d.metadata)
    case DeliveryMissing => s !in db.open && d.paid
    case DeliveryRetry => s !in db.open && Stripe(d.session) in db.rows
    case DeliveryDone => s !in db.open && (d.paid ==> Settled(db.rows, Stripe(d.session)))
    case DeliveryGaveUp => s !in db.open && d.paid && d.metadata.None?
    case _ => s !in db.open
  }

  /** Steps a delivery can still take. */
  function DeliveryRank(d: Delivery): nat {
    match d.pc
    case DeliveryStart => 5
    case DeliveryMissing => 4
    case DeliveryRetry => 3
    case DeliveryLocked => 2
    case DeliveryCredited => 1
    case _ => 0
  }

  /** The row, or the buyer's wallet, is locked by another session. */
  predicate DeliveryWaits(db: Db, s: Sid, d: Delivery) {
    match d.pc
    case DeliveryLocked => TxOf(db, s).hold.Some? && !WalletFree(db.open, s, TxOf(db, s).hold.value.after.user)
    case DeliveryCredited => false
    case _ => !RowFree(db.open, s, Stripe(d.session))
  }

  /** A delivery that has not ended comes nearer its end with every step, unless it waits for
      a lock. */
  lemma {:induction false} DeliveryComesNearer(db: Db, s: Sid, d: Delivery)
    requires DeliveryRank(d) > 0
    ensures var (db', d') := DeliveryStep(db, s, d);
            DeliveryRank(d') < DeliveryRank(d) || (d' == d && db' == db && DeliveryWaits(db, s, d))
  {
  }

  /** The handler has not yet changed the row it selected or inserted. */
  ghost predicate Untouched(hold: Hold) {
    && !hold.flushed
    && (if hold.before.Some? then hold.after == hold.before.value else !hold.after.completed && hold.after.payment.None?)
  }

  lemma {:induction false} DeliveryGivesUp(db: Db, opening: map<User, int>, s: Sid, d: Delivery)
    requires d.pc == DeliveryLocked
    requires SafeDb(db, opening) && DeliveryOk(db, s, d) && db.open[s].hold.value.after.completed
    ensures var (db', d') := DeliveryStep(db, s, d);
            SafeDb(db', opening) && DeliveryOk(db', s, d') && Frame(db, db', s.proc) && JobsUntouched(db, db')
  {
    assert TxOk(db, s, db.open[s]);
    RollbackKeepsSafety(db, opening, s);
    RollbackFrame(db, s);
  }

  lemma {:induction false} DeliveryCreditIsSafe(db: Db, opening: map<User, int>, s: Sid, d: Delivery)
    requires d.pc == DeliveryLocked
    requires SafeDb(db, opening) && DeliveryOk(db, s, d) && !db.open[s].hold.value.after.completed
    ensures var (db', d') := DeliveryStep(db, s, d);
            SafeDb(db', opening) && DeliveryOk(db', s, d') && Frame(db, db', s.proc) && JobsUntouched(db, db')
  {
    var payment := db.open[s].hold.value.after.payment;
    if Settle(db, s, payment).Done? {
      SettleKeepsSafety(db, opening, s, payment);
      SettleEffect(db, s, payment);
      PutFrame(db, s, SettledTx(db.open[s], payment));
    }
  }

  lemma {:induction false} DeliveryInsertEffect(db: Db, s: Sid, d: Delivery)
    requires d.pc == DeliveryMissing && d.metadata.Some? && s !in db.open
    ensures var stmt := InsertRow(db, s, Stripe(d.session), d.metadata.value.user, d.metadata.value.credits);
            && (stmt.Done? ==> DeliveryStep(db, s, d) == (stmt.db, d.(pc := DeliveryLocked)))
            && (stmt.Done? ==> DeliveryOk(stmt.db, s, d.(pc := DeliveryLocked)) && exists tx :: stmt.db == Put(db, s, tx))
            && (stmt.Refused? ==> DeliveryStep(db, s, d) == (Rollback(db, s), d.(pc := DeliveryRetry)) && Stripe(d.session) in db.rows)
            && (stmt.Blocked? ==> DeliveryStep(db, s, d) == (db, d))
  {
  }

  lemma {:induction false} DeliveryInsertIsSafe(db: Db, opening: map<User, int>, s: Sid, d: Delivery)
    requires d.pc == DeliveryMissing
    requires SafeDb(db, opening) && DeliveryOk(db, s, d)
    ensures var (db', d') := DeliveryStep(db, s, d);
            SafeDb(db', opening) && DeliveryOk(db', s, d') && Frame(db, db', s.proc) && JobsUntouched(db, db')
  {
    if d.metadata.Some? {
      var stmt := InsertRow(db, s, Stripe(d.session), d.metadata.value.user, d.metadata.value.credits);
      DeliveryInsertEffect(db, s, d);
      if stmt.Done? {
        InsertKeepsSafety(db, opening, s, Stripe(d.session), d.metadata.value.user, d.metadata.value.credits);
        var tx :| stmt.db == Put(db, s, tx);
        PutFrame(db, s, tx);
      } else if stmt.Refused? {
        RollbackKeepsSafety(db, opening, s);
        RollbackFrame(db, s);
      }
    }
  }

  lemma {:induction false} DeliverySelectIsSafe(db: Db, opening: map<User, int>, s: Sid, d: Delivery)
    requires d.pc == DeliveryStart || d.pc == DeliveryRetry
    requires SafeDb(db, opening) && DeliveryOk(db, s, d)
    ensures var (db', d') := DeliveryStep(db, s, d);
            SafeDb(db', opening) && DeliveryOk(db', s, d') && Frame(db, db', s.proc) && JobsUntouched(db, db')
  {
    var stmt := SelectForUpdate(db, s, Stripe(d.session));
    if d.pc == DeliveryRetry || d.paid {
      DeliverySelectEffect(db, s, d);
      if stmt.Done? {
        SelectKeepsSafety(db, opening, s, Stripe(d.session));
        var tx :| stmt.db == Put(db, s, tx);
        PutFrame(db, s, tx);
      }
    }
  }

  lemma {:induction false} DeliverySelectEffect(db: Db, s: Sid, d: Delivery)
    requires (d.pc == DeliveryStart && d.paid) || d.pc == DeliveryRetry
    requires s !in db.open
    ensures var stmt := SelectForUpdate(db, s, Stripe(d.session));
            && (stmt.Done? ==> DeliveryStep(db, s, d) == (stmt.db, d.(pc := DeliveryLocked)))
            && (stmt.Done? ==> DeliveryOk(stmt.db, s, d.(pc := DeliveryLocked)) && exists tx :: stmt.db == Put(db, s, tx))
            && (stmt.Refused? ==> DeliveryStep(db, s, d).0 == db && Stripe(d.session) !in db.rows)
            && (stmt.Blocked? ==> DeliveryStep(db, s, d) == (db, d))
  {
  }

  lemma {:induction false} DeliveryStepIsSafe(db: Db, opening: map<User, int>, s: Sid, d: Delivery)
    requires SafeDb(db, opening) && DeliveryOk(db, s, d)
    ensures var (db', d') := DeliveryStep(db, s, d);
            SafeDb(db', opening) && DeliveryOk(db', s, d') && Frame(db, db', s.proc) && JobsUntouched(db, db')
  {
    match d.pc
    case DeliveryStart => DeliverySelectIsSafe(db, opening, s, d);
    case DeliveryRetry => DeliverySelectIsSafe(db, opening, s, d);
    case DeliveryMissing => DeliveryInsertIsSafe(db, opening, s, d);
    case DeliveryLocked =>
      if db.open[s].hold.value.after.completed {
        DeliveryGivesUp(db, opening, s, d);
      } else {
        DeliveryCreditIsSafe(db, opening, s, d);
      }
    case DeliveryCredited =>
      CommitKeepsSafety(db, opening, s);
      CommitFrame(db, s);
    case DeliveryDone =>
    case DeliveryGaveUp =>
    case DeliveryDropped =>
  }

  // --- verify_razorpay_payment ------------------------------------------

  datatype VerifyPc = VerifyStart | VerifyLocked | VerifyCredited | VerifyFlushed | VerifyEnded(status: VerifyStatus)
  datatype VerifyStatus = NotFound | Forbidden | AlreadyProcessed | Conflict | Success | Failed

  /** One verification call whose signature has been accepted. */
  datatype Verify = Verify(order: string, payment: string, caller: User, pc: VerifyPc)

  function VerifyStep(db: Db, s: Sid, v: Verify): (Db, Verify) {
    match v.pc
    case VerifyStart => (
      match SelectForUpdate(db, s, Order(v.order))
      case Blocked => (db, v)
      case Refused => (db, v.(pc := VerifyEnded(NotFound)))
      case Done(db') => (db', v.(pc := VerifyLocked)))
    case VerifyLocked =>
      var hold := TxOf(db, s).hold;
      if hold.None? then (Rollback(db, s), v.(pc := VerifyEnded(Failed)))
      else if hold.value.after.user != v.caller then (Rollback(db, s), v.(pc := VerifyEnded(Forbidden)))
      else if hold.value.after.completed then (Rollback(db, s), v.(pc := VerifyEnded(AlreadyProcessed)))
      else (
        match Settle(db, s, Some(v.payment))
        case Blocked => (db, v)
        case Refused => (Rollback(db, s), v.(pc := VerifyEnded(Failed)))
        case Done(db') => (db', v.(pc := VerifyCredited)))
    case VerifyCredited =>
      if TxOf(db, s).hold.None? then (Rollback(db, s), v.(pc := VerifyEnded(Failed)))
      else (
        match FlushRow(db, s)
        case Blocked => (db, v)
        case Refused => (Rollback(db, s), v.(pc := VerifyEnded(Conflict)))
        case Done(db') => (db', v.(pc := VerifyFlushed)))
    case VerifyFlushed => (Commit(db, s), v.(pc := VerifyEnded(Success)))
    case VerifyEnded(_) => (db, v)
  }

  /** The payment id already belongs to another order. */
  ghost predicate PaidElsewhere(rows: map<Ref, Row>, v: Verify) {
    exists r :: r in rows && r != Order(v.order) && rows[r].completed && rows[r].payment == Some(v.payment)
  }

  /** The session is about to complete the caller's own pending order with this payment. */
  ghost predicate Verifies(tx: Tx, v: Verify) {
    && HoldsRow(tx, Order(v.order)) && Completing(tx)
    && tx.hold.value.before.Some? && tx.hold.value.before.value.user == v.caller
    && tx.hold.value.after == tx.hold.value.before.value.(completed := true, payment := Some(v.payment))
  }

  /** Steps a verification can still take. */
  function VerifyRank(v: Verify): nat {
    match v.pc
    case VerifyStart => 4
    case VerifyLocked => 3
    case VerifyCredited => 2
    case VerifyFlushed => 1
    case VerifyEnded(_) => 0
  }

  /** The row, the buyer's wallet, or the payment id is locked by another session. */
  predicate VerifyWaits(db: Db, s: Sid, v: Verify) {
    match v.pc
    case VerifyLocked => TxOf(db, s).hold.Some? && !WalletFree(db.open, s, TxOf(db, s).hold.value.after.user)
    case VerifyCredited => !PaymentFree(db.open, s, Some(v.payment))
    case VerifyFlushed => false
    case _ => !RowFree(db.open, s, Order(v.order))
  }

  /** A verification that has not answered comes nearer its answer with every step, unless it
      waits for a lock. */
  lemma {:induction false} VerifyComesNearer(db: Db, s: Sid, v: Verify)
    requires VerifyOk(db, s, v) && VerifyRank(v) > 0
    ensures var (db', v') := VerifyStep(db, s, v);
            VerifyRank(v') < VerifyRank(v) || (v' == v && db' == db && VerifyWaits(db, s, v))
  {
  }

  ghost predicate VerifyOk(db: Db, s: Sid, v: Verify) {
    match v.pc
    case VerifyLocked =>
      && s in db.open && db.open[s].write.None? && db.open[s].reply.None?
      && HoldsRow(db.open[s], Order(v.order)) && Untouched(db.open[s].hold.value) && db.open[s].hold.value.before.Some?
    case VerifyCredited => s in db.open && Verifies(db.open[s], v)
    case VerifyFlushed => s in db.open && Verifies(db.open[s], v) && db.open[s].hold.value.flushed
    case VerifyEnded(Success) =>
      && s !in db.open && Settled(db.rows, Order(v.order))
      && db.rows[Order(v.order)].payment == Some(v.payment) && db.rows[Order(v.order)].user == v.caller
    case VerifyEnded(AlreadyProcessed) => s !in db.open && Settled(db.rows, Order(v.order))
    case VerifyEnded(Conflict) => s !in db.open && PaidElsewhere(db.rows, v)
    case _ => s !in db.open
  }

  /** The three answers that leave the order alone. */
  lemma {:induction false} VerifyDeclines(db: Db, opening: map<User, int>, s: Sid, v: Verify)
    requires v.pc == VerifyLocked
    requires SafeDb(db, opening) && VerifyOk(db, s, v)
    requires var after := db.open[s].hold.value.after; after.user != v.caller || after.completed
    ensures var (db', v') := VerifyStep(db, s, v);
            SafeDb(db', opening) && VerifyOk(db', s, v') && Frame(db, db', s.proc) && JobsUntouched(db, db')
  {
    assert TxOk(db, s, db.open[s]);
    RollbackKeepsSafety(db, opening, s);
    RollbackFrame(db, s);
  }

  lemma {:induction false} VerifyCreditIsSafe(db: Db, opening: map<User, int>, s: Sid, v: Verify)
    requires v.pc == VerifyLocked
    requires SafeDb(db, opening) && VerifyOk(db, s, v)
    requires var after := db.open[s].hold.value.after; after.user == v.caller && !after.completed
    ensures var (db', v') := VerifyStep(db, s, v);
            SafeDb(db', opening) && VerifyOk(db', s, v') && Frame(db, db', s.proc) && JobsUntouched(db, db')
  {
    if Settle(db, s, Some(v.payment)).Done? {
      SettleKeepsSafety(db, opening, s, Some(v.payment));
      SettleEffect(db, s, Some(v.payment));
      PutFrame(db, s, SettledTx(db.open[s], Some(v.payment)));
    }
  }

  lemma {:induction false} VerifyFlushIsSafe(db: Db, opening: map<User, int>, s: Sid, v: Verify)
    requires v.pc == VerifyCredited
    requires SafeDb(db, opening) && VerifyOk(db, s, v)
    ensures var (db', v') := VerifyStep(db, s, v);
            SafeDb(db', opening) && VerifyOk(db', s, v') && Frame(db, db', s.proc) && JobsUntouched(db, db')
  {
    RollbackKeepsSafety(db, opening, s);
    if FlushRow(db, s).Done? {
      FlushKeepsSafety(db, opening, s);
    }
  }

  lemma {:induction false} VerifyLookIsSafe(db: Db, opening: map<User, int>, s: Sid, v: Verify)
    requires v.pc == VerifyStart && SafeDb(db, opening) && VerifyOk(db, s, v)
    ensures var (db', v') := VerifyStep(db, s, v);
            SafeDb(db', opening) && VerifyOk(db', s, v') && Frame(db, db', s.proc) && JobsUntouched(db, db')
  {
    if SelectForUpdate(db, s, Order(v.order)).Done? {
      SelectKeepsSafety(db, opening, s, Order(v.order));
    }
  }

  lemma {:induction false} VerifyCommitIsSafe(db: Db, opening: map<User, int>, s: Sid, v: Verify)
    requires v.pc == VerifyFlushed && SafeDb(db, opening) && VerifyOk(db, s, v)
    ensures var (db', v') := VerifyStep(db, s, v);
            SafeDb(db', opening) && VerifyOk(db', s, v') && Frame(db, db', s.proc) && JobsUntouched(db, db')
  {
    CommitKeepsSafety(db, opening, s);
    CommitFrame(db, s);
  }

  lemma {:induction false} VerifyStepIsSafe(db: Db, opening: map<User, int>, s: Sid, v: Verify)
    requires SafeDb(db, opening) && VerifyOk(db, s, v)
    ensures var (db', v') := VerifyStep(db, s, v);
            SafeDb(db', opening) && VerifyOk(db', s, v') && Frame(db, db', s.proc) && JobsUntouched(db, db')
  {
    match v.pc
    case VerifyStart => VerifyLookIsSafe(db, opening, s, v);
    case VerifyLocked =>
      var after := db.open[s].hold.value.after;
      if after.user == v.caller && !after.completed {
        VerifyCreditIsSafe(db, opening, s, v);
      } else {
        VerifyDeclines(db, opening, s, v);
      }
    case VerifyCredited => VerifyFlushIsSafe(db, opening, s, v);
    case VerifyFlushed => VerifyCommitIsSafe(db, opening, s, v);
    case VerifyEnded(_) =>
  }

  /** The rollback of a conflict leaves committed state alone. */
  lemma {:induction false} ConflictRollsEverythingBack(db: Db, s: Sid, v: Verify)
    requires v.pc == VerifyCredited && VerifyOk(db, s, v)
    ensures VerifyStep(db, s, v).1.pc == VerifyEnded(Conflict)
       <==> exists r :: r in db.rows && r != Order(v.order) && db.rows[r].payment == Some(v.payment)
    ensures VerifyStep(db, s, v).1.pc == VerifyEnded(Conflict)
        ==> VerifyStep(db, s, v).0 == Db(db.wallets, db.rows, db.recorded, db.table, db.open - {s}, db.ledger)
  {
  }
}
