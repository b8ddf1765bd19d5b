/** The ordinary purchase, from the checkout to the credits: whoever buys and pays, and is
    alone in the world, has what was bought. */
module PaymentRuns {
  import opened Wrappers
  import opened Ledger
  import opened Payments
  import opened MediaJobs
  import opened ChatBilling
  import opened Economy
  import opened Traces

  ghost predicate Reaches(opening: map<User, int>, w: World) {
    exists events :: RunFrom(Start(opening), events, 1) == w
  }

  lemma {:induction false} Then(opening: map<User, int>, w: World, e: Event)
    requires Reaches(opening, w)
    ensures Reaches(opening, Next(w, e, 1))
  {
    var events :| RunFrom(Start(opening), events, 1) == w;
    RunsCompose(Start(opening), events, [e], 1);
    RunOfOne(w, e, 1);
  }

  function Tick(p: nat): Event {
    Step(p, JobEvent(Task, Succeed), Look)
  }

  function Pending(user: User, credits: int): Row {
    Row(user, credits, false, None)
  }

  /** A world at rest whose only row is this one. */
  function AtRest(wallets: map<User, int>, ref: Ref, row: Row, ledger: seq<Posting>, procs: seq<Proc>): World {
    World(Db(wallets, map[ref := row], [], map[], map[], ledger), procs)
  }

  /** The same with the session of process p open. */
  function Holding(w: World, p: nat, tx: Tx): World {
    w.(db := w.db.(open := map[Sid(p, 0) := tx]))
  }

  function Bought(ref: Ref, user: User, credits: int): Checkout {
    Checkout(ref, user, credits, CheckoutDone)
  }

  lemma {:induction false} CheckoutStores(opening: map<User, int>, ref: Ref, user: User, credits: int)
    ensures Reaches(opening, AtRest(opening, ref, Pending(user, credits), [], [Buying(Bought(ref, user, credits))]))
  {
    var c := Checkout(ref, user, credits, CheckoutStart);
    var tx := Tx(None, Some(Hold(ref, None, Pending(user, credits), false)), None);
    var w0 := Start(opening).(procs := [Buying(c)]);
    var w1 := World(Db(opening, map[], [], map[], map[Sid(0, 0) := tx], []), [Buying(c.(pc := CheckoutInserted))]);
    assert RunFrom(Start(opening), [], 1) == Start(opening);
    Then(opening, Start(opening), Spawn(Buying(c)));
    assert Next(Start(opening), Spawn(Buying(c)), 1) == w0;
    Then(opening, w0, Tick(0));
    assert Next(w0, Tick(0), 1) == w1;
    Then(opening, w1, Tick(0));
    assert Commit(w1.db, Sid(0, 0)).open == map[];
  }

  /** A process of ours takes one step that only changes its session and its place. */
  lemma {:induction false} Proceeds(opening: map<User, int>, w: World, tx: Option<Tx>, proc': Proc, tx': Tx)
    requires |w.procs| == 2 && w.db.open == map[] && Reaches(opening, if tx.Some? then Holding(w, 1, tx.value) else w)
    requires var w1 := if tx.Some? then Holding(w, 1, tx.value) else w;
             StepProc(w1.db, 1, w1.procs[1], JobEvent(Task, Succeed), Look, 1) == (Holding(w, 1, tx').db, proc')
    ensures Reaches(opening, Holding(w.(procs := [w.procs[0], proc']), 1, tx'))
  {
    var w1 := if tx.Some? then Holding(w, 1, tx.value) else w;
    Then(opening, w1, Tick(1));
    assert w.procs[1 := proc'] == [w.procs[0], proc'];
  }

  function Credited(opening: map<User, int>, user: User, credits: int): map<User, int> {
    if credits > 0 then opening[user := BalanceIn(opening, user) + credits] else opening
  }

  // --- Stripe -----------------------------------------------------------

  function Bare(session: string, pc: DeliveryPc): Delivery {
    Delivery(session, true, None, pc)
  }

  function Taken(ref: Ref, row: Row): Tx {
    Tx(None, Some(Hold(ref, Some(row), row, false)), None)
  }

  function Settling(ref: Ref, row: Row, after: Row): Tx {
    Tx(Some(PurchasePosting(ref, after)), Some(Hold(ref, Some(row), after, false)), None)
  }

  lemma {:induction false} DeliveryTakes(opening: map<User, int>, session: string, user: User, credits: int)
    ensures var ref, row := Stripe(session), Pending(user, credits);
            var procs := [Buying(Bought(ref, user, credits)), Delivering(Bare(session, DeliveryLocked))];
            Reaches(opening, Holding(AtRest(opening, ref, row, [], procs), 1, Taken(ref, row)))
  {
    var ref, row := Stripe(session), Pending(user, credits);
    var buying, d := Buying(Bought(ref, user, credits)), Bare(session, DeliveryStart);
    CheckoutStores(opening, ref, user, credits);
    var w := AtRest(opening, ref, row, [], [buying]);
    Then(opening, w, Spawn(Delivering(d)));
    assert [buying] + [Delivering(d)] == [buying, Delivering(d)];
    Proceeds(opening, AtRest(opening, ref, row, [], [buying, Delivering(d)]), None, Delivering(Bare(session, DeliveryLocked)), Taken(ref, row));
  }

  lemma {:induction false} DeliverySettles(opening: map<User, int>, session: string, user: User, credits: int)
    ensures var ref, row := Stripe(session), Pending(user, credits);
            var procs := [Buying(Bought(ref, user, credits)), Delivering(Bare(session, DeliveryCredited))];
            Reaches(opening, Holding(AtRest(opening, ref, row, [], procs), 1, Settling(ref, row, row.(completed := true))))
  {
    var ref, row := Stripe(session), Pending(user, credits);
    var procs := [Buying(Bought(ref, user, credits)), Delivering(Bare(session, DeliveryLocked))];
    var w := AtRest(opening, ref, row, [], procs);
    DeliveryTakes(opening, session, user, credits);
    SettleTaken(w, ref, row, None);
    Proceeds(opening, w, Some(Taken(ref, row)), Delivering(Bare(session, DeliveryCredited)), Settling(ref, row, row.(completed := true)));
  }

  lemma {:induction false} SettleTaken(w: World, ref: Ref, row: Row, payment: Option<string>)
    requires w.db.open == map[]
    ensures var db := Holding(w, 1, Taken(ref, row)).db;
            Settle(db, Sid(1, 0), payment) == Done(Holding(w, 1, Settling(ref, row, row.(completed := true, payment := payment))).db)
  {
    var db, s := Holding(w, 1, Taken(ref, row)).db, Sid(1, 0);
    assert WalletFree(db.open, s, row.user);
    SettleEffect(db, s, payment);
    assert db.open[s := Settling(ref, row, row.(completed := true, payment := payment))]
        == map[s := Settling(ref, row, row.(completed := true, payment := payment))];
  }

  lemma {:induction false} SettlingCommits(opening: map<User, int>, ref: Ref, row: Row, after: Row, flushed: bool, procs: seq<Proc>)
    requires after.user == row.user && after.credits == row.credits
    ensures var tx := Tx(Some(PurchasePosting(ref, after)), Some(Hold(ref, Some(row), after, flushed)), None);
            Commit(Holding(AtRest(opening, ref, row, [], procs), 1, tx).db, Sid(1, 0))
            == AtRest(Credited(opening, row.user, row.credits), ref, after, [PurchasePosting(ref, after)], procs).db
  {
    var tx := Tx(Some(PurchasePosting(ref, after)), Some(Hold(ref, Some(row), after, flushed)), None);
    var db := Holding(AtRest(opening, ref, row, [], procs), 1, tx).db;
    assert Commit(db, Sid(1, 0)).open == map[];
    assert map[ref := row][ref := after] == map[ref := after];
    assert [] + [PurchasePosting(ref, after)] == [PurchasePosting(ref, after)];
  }

  /** Checkout, and one paid delivery that nobody kills, with no metadata needed: the row is
      completed and the buyer has the credits on top of the balance. */
  lemma {:induction false} APaidSessionIsCredited(opening: map<User, int>, session: string, user: User, credits: int)
    ensures var ref := Stripe(session);
            var row := Row(user, credits, true, None);
            Reaches(opening, AtRest(Credited(opening, user, credits), ref, row, [PurchasePosting(ref, row)],
                                    [Buying(Bought(ref, user, credits)), Delivering(Bare(session, DeliveryDone))]))
  {
    var ref, row := Stripe(session), Pending(user, credits);
    var after := row.(completed := true);
    var procs := [Buying(Bought(ref, user, credits)), Delivering(Bare(session, DeliveryCredited))];
    DeliverySettles(opening, session, user, credits);
    var w := Holding(AtRest(opening, ref, row, [], procs), 1, Settling(ref, row, after));
    Then(opening, w, Tick(1));
    SettlingCommits(opening, ref, row, after, false, procs);
    assert procs[1 := Delivering(Bare(session, DeliveryDone))] == [procs[0], Delivering(Bare(session, DeliveryDone))];
  }

  // --- Razorpay ---------------------------------------------------------

  function Own(order: string, payment: string, user: User, pc: VerifyPc): Verify {
    Verify(order, payment, user, pc)
  }

  lemma {:induction false} VerificationTakes(opening: map<User, int>, order: string, payment: string, user: User, credits: int)
    ensures var ref, row := Order(order), Pending(user, credits);
            var procs := [Buying(Bought(ref, user, credits)), Verifying(Own(order, payment, user, VerifyLocked))];
            Reaches(opening, Holding(AtRest(opening, ref, row, [], procs), 1, Taken(ref, row)))
  {
    var ref, row := Order(order), Pending(user, credits);
    var buying, v := Buying(Bought(ref, user, credits)), Own(order, payment, user, VerifyStart);
    CheckoutStores(opening, ref, user, credits);
    Then(opening, AtRest(opening, ref, row, [], [buying]), Spawn(Verifying(v)));
    assert [buying] + [Verifying(v)] == [buying, Verifying(v)];
    Proceeds(opening, AtRest(opening, ref, row, [], [buying, Verifying(v)]), None, Verifying(v.(pc := VerifyLocked)), Taken(ref, row));
  }

  lemma {:induction false} VerificationSettles(opening: map<User, int>, order: string, payment: string, user: User, credits: int)
    ensures var ref, row := Order(order), Pending(user, credits);
            var procs := [Buying(Bought(ref, user, credits)), Verifying(Own(order, payment, user, VerifyCredited))];
            Reaches(opening, Holding(AtRest(opening, ref, row, [], procs), 1, Settling(ref, row, row.(completed := true, payment := Some(payment)))))
  {
    var ref, row := Order(order), Pending(user, credits);
    var v := Own(order, payment, user, VerifyLocked);
    var w := AtRest(opening, ref, row, [], [Buying(Bought(ref, user, credits)), Verifying(v)]);
    VerificationTakes(opening, order, payment, user, credits);
    SettleTaken(w, ref, row, Some(payment));
    Proceeds(opening, w, Some(Taken(ref, row)), Verifying(v.(pc := VerifyCredited)),
             Settling(ref, row, row.(completed := true, payment := Some(payment))));
  }

  function Sent(ref: Ref, row: Row, after: Row): Tx {
    Tx(Some(PurchasePosting(ref, after)), Some(Hold(ref, Some(row), after, true)), None)
  }

  lemma {:induction false} VerificationFlushes(opening: map<User, int>, order: string, payment: string, user: User, credits: int)
    ensures var ref, row := Order(order), Pending(user, credits);
            var procs := [Buying(Bought(ref, user, credits)), Verifying(Own(order, payment, user, VerifyFlushed))];
            Reaches(opening, Holding(AtRest(opening, ref, row, [], procs), 1, Sent(ref, row, row.(completed := true, payment := Some(payment)))))
  {
    var ref, row := Order(order), Pending(user, credits);
    var after, v := row.(completed := true, payment := Some(payment)), Own(order, payment, user, VerifyCredited);
    var w := AtRest(opening, ref, row, [], [Buying(Bought(ref, user, credits)), Verifying(v)]);
    VerificationSettles(opening, order, payment, user, credits);
    assert map[Sid(1, 0) := Settling(ref, row, after)][Sid(1, 0) := Sent(ref, row, after)] == map[Sid(1, 0) := Sent(ref, row, after)];
    Proceeds(opening, w, Some(Settling(ref, row, after)), Verifying(v.(pc := VerifyFlushed)), Sent(ref, row, after));
  }

  /** Order, and the buyer's own verification with a payment id nobody has used: success, the
      order completed with it, and the credits on top of the balance. */
  lemma {:induction false} AVerifiedOrderIsCredited(opening: map<User, int>, order: string, payment: string, user: User, credits: int)
    ensures var ref := Order(order);
            var row := Row(user, credits, true, Some(payment));
            Reaches(opening, AtRest(Credited(opening, user, credits), ref, row, [PurchasePosting(ref, row)],
                                    [Buying(Bought(ref, user, credits)), Verifying(Own(order, payment, user, VerifyEnded(Success)))]))
  {
    var ref, row := Order(order), Pending(user, credits);
    var after, v := row.(completed := true, payment := Some(payment)), Own(order, payment, user, VerifyFlushed);
    var procs := [Buying(Bought(ref, user, credits)), Verifying(v)];
    VerificationFlushes(opening, order, payment, user, credits);
    Then(opening, Holding(AtRest(opening, ref, row, [], procs), 1, Sent(ref, row, after)), Tick(1));
    SettlingCommits(opening, ref, row, after, true, procs);
    assert procs[1 := Verifying(v.(pc := VerifyEnded(Success)))] == [procs[0], Verifying(v.(pc := VerifyEnded(Success)))];
  }
}
