/** How each purchase ends, by what its steps met: checkouts, webhook deliveries and payment
    verifications are credited when they should be, and only a crash or a named refusal
    keeps them from it. */
module Settlement {
  import opened Wrappers
  import opened Ledger
  import opened Payments
  import opened MediaJobs
  import opened ChatBilling
  import opened Economy
  import opened Traces

  // --- sessions are left alone by others --------------------------------

  /** The event is a step of process p or kills it. */
  predicate Touches(e: Event, p: nat) {
    (e.Step? || e.Crash?) && e.p == p
  }

  predicate SameSession(db: Db, db': Db, s: Sid) {
    (s in db'.open <==> s in db.open) && (s in db.open && s in db'.open ==> db'.open[s] == db.open[s])
  }

  lemma {:induction false} OthersLeaveIt(w: World, opening: map<User, int>, e: Event, maxAttempts: nat, p: nat)
    requires maxAttempts > 0 && Inv(w, opening, maxAttempts) && p < |w.procs| && !Touches(e, p)
    ensures var w' := Next(w, e, maxAttempts);
            && p < |w'.procs| && RowsGrow(w.db.rows, w'.db.rows) && SameSession(w.db, w'.db, Sid(p, 0))
            && (!w.procs[p].Making? ==> w'.procs[p] == w.procs[p])
  {
    if e.Step? && e.p < |w.procs| {
      StepProcIsSafe(w.db, opening, e.p, w.procs[e.p], e.je, e.ev, maxAttempts);
    } else if e.Crash? && e.p < |w.procs| {
      CrashIsSafe(w.db, opening, e.p, w.procs[e.p], maxAttempts);
    }
  }

  // --- checkouts --------------------------------------------------------

  predicate CheckoutFailsBy(c: Checkout, failed: bool) {
    c.pc.CheckoutFailed? == failed
  }

  ghost predicate CheckoutAt(w: World, p: nat, failed: bool) {
    if p < |w.procs| then w.procs[p].Buying? ==> CheckoutFailsBy(w.procs[p].checkout, failed) else !failed
  }

  lemma {:induction false} NextFailsCheckout(w: World, e: Event, maxAttempts: nat, p: nat, failed: bool)
    requires CheckoutAt(w, p, failed)
    ensures CheckoutAt(Next(w, e, maxAttempts), p,
                       failed || EventShows(w, e, maxAttempts, p, RowRefused) || EventShows(w, e, maxAttempts, p, Crashed))
  {
  }

  lemma {:induction false} RunFailsCheckout(opening: map<User, int>, events: seq<Event>, maxAttempts: nat, p: nat)
    ensures CheckoutAt(RunFrom(Start(opening), events, maxAttempts), p,
                       Seen(opening, events, maxAttempts, p, RowRefused) || Seen(opening, events, maxAttempts, p, Crashed))
  {
    if events != [] {
      var n := |events| - 1;
      RunFailsCheckout(opening, events[..n], maxAttempts, p);
      LastStep(Start(opening), events, maxAttempts);
      SeenGrows(opening, events, maxAttempts, p, RowRefused);
      SeenGrows(opening, events, maxAttempts, p, Crashed);
      NextFailsCheckout(RunFrom(Start(opening), events[..n], maxAttempts), events[n], maxAttempts, p,
                        Seen(opening, events[..n], maxAttempts, p, RowRefused) || Seen(opening, events[..n], maxAttempts, p, Crashed));
    }
  }

  /** Over every run a checkout is done exactly when its commit went through, and then its row
      is stored for its buyer and its credits, ever after; and it fails exactly when its
      reference was there already or it was killed. */
  lemma {:induction false} CheckoutsEndExactly(opening: map<User, int>, events: seq<Event>, maxAttempts: nat, p: nat)
    requires maxAttempts > 0
    requires var w := RunFrom(Start(opening), events, maxAttempts); p < |w.procs| && w.procs[p].Buying?
    ensures var w := RunFrom(Start(opening), events, maxAttempts);
            var c := w.procs[p].checkout;
            && (c.pc == CheckoutDone <==> Seen(opening, events, maxAttempts, p, RowStored))
            && (c.pc == CheckoutDone ==>
                  c.ref in w.db.rows && w.db.rows[c.ref].user == c.user && w.db.rows[c.ref].credits == c.credits)
            && (c.pc == CheckoutFailed <==>
                  Seen(opening, events, maxAttempts, p, RowRefused) || Seen(opening, events, maxAttempts, p, Crashed))
  {
    EveryRunIsSafe(opening, events, maxAttempts);
    RunTells(opening, events, maxAttempts, p, RowStored);
    RunFailsCheckout(opening, events, maxAttempts, p);
    var w := RunFrom(Start(opening), events, maxAttempts);
    assert ProcOk(w.db, p, w.procs[p], maxAttempts);
  }

  // --- deliveries -------------------------------------------------------

  /** What the state of a delivery says of the sights behind it. */
  predicate DeliveryTold(db: Db, s: Sid, d: Delivery, missing: bool, pending: bool, credited: bool) {
    match d.pc
    case DeliveryStart => !missing && !pending && !credited
    case DeliveryMissing => missing && !pending && !credited
    case DeliveryRetry => missing && d.metadata.Some? && !pending && !credited
    case DeliveryLocked =>
      && (missing ==> d.metadata.Some?) && !credited
      && TxOf(db, s).hold.Some? && (pending <==> !TxOf(db, s).hold.value.after.completed)
    case DeliveryCredited => (missing ==> d.metadata.Some?) && pending && !credited
    case DeliveryDone => (missing ==> d.metadata.Some?) && pending == credited
    case DeliveryGaveUp => missing && d.metadata.None? && !pending && !credited
    case DeliveryDropped => !credited
  }

  ghost predicate DeliveryAt(w: World, p: nat, missing: bool, pending: bool, credited: bool) {
    if p < |w.procs| then
      w.procs[p].Delivering? ==> DeliveryTold(w.db, Sid(p, 0), w.procs[p].delivery, missing, pending, credited)
    else !missing && !pending && !credited
  }

  lemma {:induction false} DeliveryStepTold(db: Db, s: Sid, d: Delivery, missing: bool, pending: bool, credited: bool)
    requires DeliveryOk(db, s, d) && DeliveryTold(db, s, d, missing, pending, credited)
    ensures var (db', d') := DeliveryStep(db, s, d);
            DeliveryTold(db', s, d', missing || DeliveryShows(db, s, d, RowMissing),
                         pending || DeliveryShows(db, s, d, PendingTaken), credited || DeliveryShows(db, s, d, CreditCommitted))
  {
  }

  lemma {:induction false} NextDeliveryTold(w: World, opening: map<User, int>, e: Event, maxAttempts: nat, p: nat, missing: bool, pending: bool, credited: bool)
    requires maxAttempts > 0 && Inv(w, opening, maxAttempts) && DeliveryAt(w, p, missing, pending, credited)
    ensures DeliveryAt(Next(w, e, maxAttempts), p, missing || EventShows(w, e, maxAttempts, p, RowMissing),
                       pending || EventShows(w, e, maxAttempts, p, PendingTaken), credited || EventShows(w, e, maxAttempts, p, CreditCommitted))
  {
    if p >= |w.procs| || !w.procs[p].Delivering? {
      NoDeliveryTold(w, e, maxAttempts, p, missing, pending, credited);
    } else if e.Step? && e.p == p {
      assert ProcOk(w.db, p, w.procs[p], maxAttempts);
      OwnStepTold(w, e, maxAttempts, p, missing, pending, credited);
    } else if Touches(e, p) {
      CrashTold(w, e, maxAttempts, p, missing, pending, credited);
    } else {
      OthersLeaveIt(w, opening, e, maxAttempts, p);
      OthersTold(w, e, maxAttempts, p, missing, pending, credited);
    }
  }

  predicate ShowsNothing(w: World, e: Event, maxAttempts: nat, p: nat) {
    && !EventShows(w, e, maxAttempts, p, RowMissing) && !EventShows(w, e, maxAttempts, p, PendingTaken)
    && !EventShows(w, e, maxAttempts, p, CreditCommitted)
  }

  lemma {:induction false} NoDeliveryTold(w: World, e: Event, maxAttempts: nat, p: nat, missing: bool, pending: bool, credited: bool)
    requires DeliveryAt(w, p, missing, pending, credited) && (p >= |w.procs| || !w.procs[p].Delivering?)
    ensures DeliveryAt(Next(w, e, maxAttempts), p, missing || EventShows(w, e, maxAttempts, p, RowMissing),
                       pending || EventShows(w, e, maxAttempts, p, PendingTaken), credited || EventShows(w, e, maxAttempts, p, CreditCommitted))
  {
    if p >= |w.procs| {
      assert ShowsNothing(w, e, maxAttempts, p);
    }
  }

  lemma {:induction false} CrashTold(w: World, e: Event, maxAttempts: nat, p: nat, missing: bool, pending: bool, credited: bool)
    requires DeliveryAt(w, p, missing, pending, credited) && p < |w.procs| && w.procs[p].Delivering? && e == Crash(p)
    ensures ShowsNothing(w, e, maxAttempts, p) && DeliveryAt(Next(w, e, maxAttempts), p, missing, pending, credited)
  {
  }

  lemma {:induction false} OthersTold(w: World, e: Event, maxAttempts: nat, p: nat, missing: bool, pending: bool, credited: bool)
    requires DeliveryAt(w, p, missing, pending, credited) && p < |w.procs| && w.procs[p].Delivering? && !Touches(e, p)
    requires var w' := Next(w, e, maxAttempts); p < |w'.procs| && w'.procs[p] == w.procs[p] && SameSession(w.db, w'.db, Sid(p, 0))
    ensures ShowsNothing(w, e, maxAttempts, p) && DeliveryAt(Next(w, e, maxAttempts), p, missing, pending, credited)
  {
  }

  lemma {:induction false} OwnStepTold(w: World, e: Event, maxAttempts: nat, p: nat, missing: bool, pending: bool, credited: bool)
    requires DeliveryAt(w, p, missing, pending, credited) && e.Step? && e.p == p
    requires p < |w.procs| && w.procs[p].Delivering? && DeliveryOk(w.db, Sid(p, 0), w.procs[p].delivery)
    ensures DeliveryAt(Next(w, e, maxAttempts), p, missing || EventShows(w, e, maxAttempts, p, RowMissing),
                       pending || EventShows(w, e, maxAttempts, p, PendingTaken), credited || EventShows(w, e, maxAttempts, p, CreditCommitted))
  {
    DeliveryStepTold(w.db, Sid(p, 0), w.procs[p].delivery, missing, pending, credited);
  }

  lemma {:induction false} RunDeliveryTold(opening: map<User, int>, events: seq<Event>, maxAttempts: nat, p: nat)
    requires maxAttempts > 0
    ensures DeliveryAt(RunFrom(Start(opening), events, maxAttempts), p, Seen(opening, events, maxAttempts, p, RowMissing),
                       Seen(opening, events, maxAttempts, p, PendingTaken), Seen(opening, events, maxAttempts, p, CreditCommitted))
  {
    if events != [] {
      var n := |events| - 1;
      RunDeliveryTold(opening, events[..n], maxAttempts, p);
      EveryRunIsSafe(opening, events[..n], maxAttempts);
      LastStep(Start(opening), events, maxAttempts);
      SeenGrows(opening, events, maxAttempts, p, RowMissing);
      SeenGrows(opening, events, maxAttempts, p, PendingTaken);
      SeenGrows(opening, events, maxAttempts, p, CreditCommitted);
      NextDeliveryTold(RunFrom(Start(opening), events[..n], maxAttempts), opening, events[n], maxAttempts, p,
                       Seen(opening, events[..n], maxAttempts, p, RowMissing), Seen(opening, events[..n], maxAttempts, p, PendingTaken),
                       Seen(opening, events[..n], maxAttempts, p, CreditCommitted));
    }
  }

  /** Over every run a delivery is dropped exactly when it was killed before its end; one that
      has ended has credited its buyer exactly when it took a pending row, or rebuilt one, and
      was not killed after that; and whoever has credited is done, with the row completed. */
  lemma {:induction false} DeliveriesSettleExactly(opening: map<User, int>, events: seq<Event>, maxAttempts: nat, p: nat)
    requires maxAttempts > 0
    requires var w := RunFrom(Start(opening), events, maxAttempts); p < |w.procs| && w.procs[p].Delivering?
    ensures var w := RunFrom(Start(opening), events, maxAttempts);
            var d := w.procs[p].delivery;
            var credited := Seen(opening, events, maxAttempts, p, CreditCommitted);
            var crashed := Seen(opening, events, maxAttempts, p, Crashed);
            && (d.pc == DeliveryDropped <==> crashed)
            && (DeliveryRank(d) == 0 ==> (credited <==> Seen(opening, events, maxAttempts, p, PendingTaken) && !crashed))
            && (credited ==> d.pc == DeliveryDone)
            && (d.paid && d.pc == DeliveryDone ==> Settled(w.db.rows, Stripe(d.session)))
  {
    EveryRunIsSafe(opening, events, maxAttempts);
    RunDeliveryTold(opening, events, maxAttempts, p);
    RunTells(opening, events, maxAttempts, p, Crashed);
    var w := RunFrom(Start(opening), events, maxAttempts);
    assert ProcOk(w.db, p, w.procs[p], maxAttempts);
  }

  /** A paid delivery that has run to its end gives up exactly when its first select found
      no row and it carries no usable metadata to rebuild one from; a delivery without
      metadata that finds its row completes it like any other. */
  lemma {:induction false} DeliveriesGiveUpExactly(opening: map<User, int>, events: seq<Event>, maxAttempts: nat, p: nat)
    requires maxAttempts > 0
    requires var w := RunFrom(Start(opening), events, maxAttempts); p < |w.procs| && w.procs[p].Delivering?
    ensures var w := RunFrom(Start(opening), events, maxAttempts);
            var d := w.procs[p].delivery;
            d.paid && (d.pc == DeliveryDone || d.pc == DeliveryGaveUp) ==>
              && (d.pc == DeliveryGaveUp <==> Seen(opening, events, maxAttempts, p, RowMissing) && d.metadata.None?)
              && (d.pc == DeliveryDone ==> Settled(w.db.rows, Stripe(d.session)))
  {
    EveryRunIsSafe(opening, events, maxAttempts);
    RunDeliveryTold(opening, events, maxAttempts, p);
    var w := RunFrom(Start(opening), events, maxAttempts);
    assert ProcOk(w.db, p, w.procs[p], maxAttempts);
  }

  /** The run: a paid session without a row or metadata is dropped and its buyer not
      credited. */
  lemma {:induction false} AGivenUpSessionIsNotCredited(opening: map<User, int>, session: string, je: JobEvent, ev: TurnEvent)
    ensures var d := Delivery(session, true, None, DeliveryStart);
            RunFrom(Start(opening), [Spawn(Delivering(d)), Step(0, je, ev), Step(0, je, ev)], 1)
            == Start(opening).(procs := [Delivering(d.(pc := DeliveryGaveUp))])
  {
    var d := Delivery(session, true, None, DeliveryStart);
    var w0, step := Start(opening), Step(0, je, ev);
    var w1 := w0.(procs := [Delivering(d)]);
    var w2 := w0.(procs := [Delivering(d.(pc := DeliveryMissing))]);
    RunOfOne(w0, Spawn(Delivering(d)), 1);
    RunsCompose(w0, [Spawn(Delivering(d))], [step, step], 1);
    RunOfOne(w1, step, 1);
    RunsCompose(w1, [step], [step], 1);
    RunOfOne(w2, step, 1);
    assert [Spawn(Delivering(d))] + [step, step] == [Spawn(Delivering(d)), step, step] && [step] + [step] == [step, step];
    assert [] + [Delivering(d)] == [Delivering(d)];
  }

  /** One more completed row, and its buyer's balance up by exactly its credits. */
  ghost predicate Credits(db: Db, db': Db, ref: Ref) {
    && ref in db'.rows && db'.rows[ref].completed && !Settled(db.rows, ref)
    && (forall r :: r in db.rows && r != ref ==> r in db'.rows && db'.rows[r] == db.rows[r])
    && (forall user :: Balance(db', user) == Balance(db, user) + if user == db'.rows[ref].user then Granted(db'.rows[ref].credits) else 0)
  }

  lemma {:induction false} CommitCredits(db: Db, opening: map<User, int>, s: Sid, ref: Ref)
    requires SafeDb(db, opening) && s in db.open && HoldsRow(db.open[s], ref) && Completing(db.open[s])
    ensures Credits(db, Commit(db, s), ref) && Commit(db, s).rows[ref] == db.open[s].hold.value.after
  {
    assert TxOk(db, s, db.open[s]);
  }

  /** What the commit of a delivery does: the row it found is completed and otherwise as it
      was, or the row it rebuilt is stored with the buyer and the credits of its metadata; and
      the buyer has exactly the credits of the row. */
  lemma {:induction false} DeliveryCreditsExactly(w: World, opening: map<User, int>, maxAttempts: nat, p: nat, je: JobEvent, ev: TurnEvent)
    requires maxAttempts > 0 && Inv(w, opening, maxAttempts)
    requires p < |w.procs| && w.procs[p].Delivering? && w.procs[p].delivery.pc == DeliveryCredited
    ensures var d, w' := w.procs[p].delivery, Next(w, Step(p, je, ev), maxAttempts);
            var ref := Stripe(d.session);
            && w'.procs == w.procs[p := Delivering(d.(pc := DeliveryDone))]
            && Credits(w.db, w'.db, ref)
            && (ref in w.db.rows ==> w'.db.rows[ref] == w.db.rows[ref].(completed := true))
            && (ref !in w.db.rows ==>
                  d.metadata.Some? && w'.db.rows[ref] == Row(d.metadata.value.user, d.metadata.value.credits, true, None))
  {
    assert ProcOk(w.db, p, w.procs[p], maxAttempts);
    assert TxOk(w.db, Sid(p, 0), w.db.open[Sid(p, 0)]);
    CommitCredits(w.db, opening, Sid(p, 0), Stripe(w.procs[p].delivery.session));
  }

  // --- verifications ----------------------------------------------------

  /** Over every run a verification answers by what it met: not found without the order,
      forbidden for somebody else's, already processed for a completed one, a conflict for a
      payment id that another order carries, failed when it was killed, and success exactly
      when its commit went through, which is when it met none of these. */
  lemma {:induction false} VerificationsAnswerExactly(opening: map<User, int>, events: seq<Event>, maxAttempts: nat, p: nat)
    requires maxAttempts > 0
    requires var w := RunFrom(Start(opening), events, maxAttempts); p < |w.procs| && w.procs[p].Verifying?
    ensures var v := RunFrom(Start(opening), events, maxAttempts).procs[p].verify;
            && (v.pc == VerifyEnded(NotFound) <==> Seen(opening, events, maxAttempts, p, OrderMissing))
            && (v.pc == VerifyEnded(Forbidden) <==> Seen(opening, events, maxAttempts, p, OtherOwner))
            && (v.pc == VerifyEnded(AlreadyProcessed) <==> Seen(opening, events, maxAttempts, p, AlreadyCompleted))
            && (v.pc == VerifyEnded(Conflict) <==> Seen(opening, events, maxAttempts, p, PaymentTaken))
            && (v.pc == VerifyEnded(VerifyStatus.Failed) <==> Seen(opening, events, maxAttempts, p, Crashed))
            && (v.pc == VerifyEnded(Success) <==> Seen(opening, events, maxAttempts, p, PaymentCommitted))
  {
    RunTells(opening, events, maxAttempts, p, OrderMissing);
    RunTells(opening, events, maxAttempts, p, OtherOwner);
    RunTells(opening, events, maxAttempts, p, AlreadyCompleted);
    RunTells(opening, events, maxAttempts, p, PaymentTaken);
    RunTells(opening, events, maxAttempts, p, Crashed);
    RunTells(opening, events, maxAttempts, p, PaymentCommitted);
  }

  /** What the commit of a verification does: the caller's own pending order is completed
      with this payment, and the caller has exactly its credits. */
  lemma {:induction false} VerificationCreditsExactly(w: World, opening: map<User, int>, maxAttempts: nat, p: nat, je: JobEvent, ev: TurnEvent)
    requires maxAttempts > 0 && Inv(w, opening, maxAttempts)
    requires p < |w.procs| && w.procs[p].Verifying? && w.procs[p].verify.pc == VerifyFlushed
    ensures var v, w' := w.procs[p].verify, Next(w, Step(p, je, ev), maxAttempts);
            var ref := Order(v.order);
            && w'.procs == w.procs[p := Verifying(v.(pc := VerifyEnded(Success)))]
            && Credits(w.db, w'.db, ref)
            && ref in w.db.rows && w.db.rows[ref].user == v.caller
            && w'.db.rows[ref] == w.db.rows[ref].(completed := true, payment := Some(v.payment))
  {
    assert ProcOk(w.db, p, w.procs[p], maxAttempts);
    assert TxOk(w.db, Sid(p, 0), w.db.open[Sid(p, 0)]);
    CommitCredits(w.db, opening, Sid(p, 0), Order(w.procs[p].verify.order));
  }
}
