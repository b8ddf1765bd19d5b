/** How far a wallet can go below zero. Reply charges are not guarded (the reply has been
    delivered), so the bound comes from the balance reading and the budget of each turn,
    and has to survive every interleaving with media debits and credits. */
module Overdraft {
  import opened Wrappers
  import opened Pricing
  import opened Affordability
  import opened Ledger
  import opened Payments
  import opened MediaJobs
  import opened ChatBilling
  import opened Economy

  /** Two regimes. Many(k, m): at most k turns of the user in flight, each planning at most m.
      Solo(m): one socket and no media debits, with rounding slack m. */
  datatype Regime = Many(k: nat, m: nat) | Solo(m: nat)

  function Floor(g: Regime): int {
    match g
    case Many(k, m) => k * m
    case Solo(m) => m
  }

  function Unplanned(g: Regime): int -> int {
    (balance: int) => if g.Many? then g.m else balance + g.m
  }

  predicate OfUser(proc: Proc, user: User) {
    proc.Chatting? && proc.turn.user == user
  }

  function Held(proc: Proc, user: User, g: Regime): int {
    if OfUser(proc, user) then Reserve(proc.turn, Unplanned(g)) else 0
  }

  function Flying(proc: Proc, user: User): int {
    if OfUser(proc, user) && InFlight(proc.turn) then 1 else 0
  }

  function TotalHeld(procs: seq<Proc>, user: User, g: Regime): int {
    if procs == [] then 0
    else TotalHeld(procs[..|procs| - 1], user, g) + Held(procs[|procs| - 1], user, g)
  }

  /** The user's turns that have read a balance and not ended. */
  function TurnsInFlight(procs: seq<Proc>, user: User): int {
    if procs == [] then 0
    else TurnsInFlight(procs[..|procs| - 1], user) + Flying(procs[|procs| - 1], user)
  }

  lemma {:induction false} TotalsUpdate(procs: seq<Proc>, p: nat, proc: Proc, user: User, g: Regime)
    requires p < |procs|
    ensures TotalHeld(procs[p := proc], user, g) == TotalHeld(procs, user, g) - Held(procs[p], user, g) + Held(proc, user, g)
    ensures TurnsInFlight(procs[p := proc], user) == TurnsInFlight(procs, user) - Flying(procs[p], user) + Flying(proc, user)
  {
    var n := |procs| - 1;
    if p == n {
      assert procs[p := proc][..n] == procs[..n];
    } else {
      assert procs[p := proc][..n] == procs[..n][p := proc];
      TotalsUpdate(procs[..n], p, proc, user, g);
    }
  }

  /** What a turn holds is limited by its plan, and nothing is held on the ground. */
  ghost predicate HeldOk(proc: Proc, user: User, g: Regime) {
    && (Flying(proc, user) == 0 ==> Held(proc, user, g) == 0)
    && (g.Many? ==> Held(proc, user, g) <= g.m)
  }

  ghost predicate AllHeldOk(procs: seq<Proc>, user: User, g: Regime) {
    forall p :: 0 <= p < |procs| ==> HeldOk(procs[p], user, g)
  }

  lemma {:induction false} HeldByTurnsInFlight(procs: seq<Proc>, user: User, g: Regime)
    requires AllHeldOk(procs, user, g)
    ensures 0 <= TurnsInFlight(procs, user)
    ensures TurnsInFlight(procs, user) == 0 ==> TotalHeld(procs, user, g) == 0
    ensures g.Many? ==> TotalHeld(procs, user, g) <= TurnsInFlight(procs, user) * g.m
  {
    if procs != [] {
      var n := |procs| - 1;
      HeldByTurnsInFlight(procs[..n], user, g);
      assert HeldOk(procs[n], user, g);
      if g.Many? {
        assert (TurnsInFlight(procs[..n], user) + 1) * g.m == TurnsInFlight(procs[..n], user) * g.m + g.m;
      }
    }
  }

  // --- the hypotheses on a run ------------------------------------------

  /** Plans fit the regime: each at most m in all, or within the rounding slack of the
      balance that was read. */
  ghost predicate PlanFits(t: Turn, ev: TurnEvent, g: Regime) {
    ev.Plan? && t.pc.TurnChecked? && ev.requests != [] && PlanTurn(ev.requests, t.pc.balance, ev.effort).Planned? ==>
      match g
      case Many(_, m) => OpenBounds(Opened(PlanTurn(ev.requests, t.pc.balance, ev.effort).budgets)) <= m
      case Solo(m) => Slack(|ev.requests|) <= m || forall i :: 0 <= i < |ev.requests| ==> FiveCentPrices(ev.requests[i].spec)
  }

  /** The assumptions on one step: usage within plan and the planned model billed, plans
      that fit, at most k turns in flight, and in the solo regime no media debit. */
  ghost predicate Assumed(w: World, e: Event, user: User, g: Regime, maxAttempts: nat) {
    && (e.Step? && e.p < |w.procs| && OfUser(w.procs[e.p], user) ==>
          AsPlanned(w.procs[e.p].turn, e.ev) && PlanFits(w.procs[e.p].turn, e.ev, g))
    && TurnsInFlight(Next(w, e, maxAttempts).procs, user) <= (if g.Many? then g.k else 1)
    && (g.Solo? && e.Spawn? && e.proc.Making? ==> e.proc.job.user != user)
  }

  ghost predicate AssumedAlong(w: World, events: seq<Event>, user: User, g: Regime, maxAttempts: nat)
    decreases |events|
  {
    events == [] || (
      && Assumed(w, events[0], user, g, maxAttempts)
      && AssumedAlong(Next(w, events[0], maxAttempts), events[1..], user, g, maxAttempts))
  }

  // --- the invariant ----------------------------------------------------

  /** Charges waiting for their commit are within the plan of their slot. */
  ghost predicate ChargesPlanned(db: Db, p: nat, proc: Proc, user: User) {
    OfUser(proc, user) ==>
      forall i: nat :: SlotIs(proc.turn, i, Charging) && Sid(p, i) in db.open && db.open[Sid(p, i)].reply.Some? ==>
        db.open[Sid(p, i)].reply.value.cost <= SlotBound(proc.turn.pc.slots[i].budget)
  }

  ghost predicate BoundsAreNatural(proc: Proc, user: User) {
    OfUser(proc, user) ==>
      match proc.turn.pc
      case TurnChecked(balance) => balance > 0
      case TurnRunning(slots) => NaturalBounds(slots)
      case _ => true
  }

  ghost predicate NaturalBounds(slots: seq<Slot>) {
    forall i :: 0 <= i < |slots| ==> SlotBound(slots[i].budget) >= 0
  }

  ghost predicate ProcPlanned(db: Db, p: nat, proc: Proc, user: User, g: Regime) {
    && ChargesPlanned(db, p, proc, user)
    && BoundsAreNatural(proc, user)
    && HeldOk(proc, user, g)
    && (g.Solo? && proc.Making? ==> proc.job.user != user)
  }

  /** The balance covers what the user's turns may still charge, down to the floor. */
  ghost predicate Covered(w: World, user: User, g: Regime) {
    && Balance(w.db, user) >= TotalHeld(w.procs, user, g) - Floor(g)
    && TurnsInFlight(w.procs, user) <= (if g.Many? then g.k else 1)
    && forall p: nat :: p < |w.procs| ==> ProcPlanned(w.db, p, w.procs[p], user, g)
  }

  // --- steps of other processes -----------------------------------------

  /** How one step moves a balance: not down, or down to nothing below zero, unless it
      commits a reply of that user. */
  ghost predicate GentleStep(db: Db, db': Db, user: User, mediaAllowed: bool) {
    || Balance(db', user) >= Balance(db, user)
    || (mediaAllowed && Balance(db', user) >= 0)
  }

  lemma {:induction false} CommitMoves(db: Db, s: Sid, user: User)
    requires s in db.open && TxOk(db, s, db.open[s])
    ensures db.open[s].reply.Some? ==>
              Balance(Commit(db, s), user) == Balance(db, user)
                - if db.open[s].reply.value.user == user then Granted(db.open[s].reply.value.cost) else 0
    ensures db.open[s].reply.None? && (db.open[s].write.None? || !db.open[s].write.value.why.MediaDebit?
              || db.open[s].write.value.user != user)
            ==> Balance(Commit(db, s), user) >= Balance(db, user)
    ensures db.open[s].reply.None? ==> GentleStep(db, Commit(db, s), user, true)
  {
  }

  /** A step that moves a wallet or records a reply is the commit of the process's own
      session. */
  ghost predicate MovesByCommit(db: Db, db': Db, s: Sid) {
    || (db'.wallets == db.wallets && db'.recorded == db.recorded && db'.table == db.table)
    || (s in db.open && db' == Commit(db, s))
  }

  lemma {:induction false} CheckoutMoves(db: Db, s: Sid, c: Checkout)
    requires CheckoutOk(db, s, c)
    ensures MovesByCommit(db, CheckoutStep(db, s, c).0, s)
    ensures c.pc != CheckoutInserted ==> CheckoutStep(db, s, c).0.wallets == db.wallets
  {
  }

  lemma {:induction false} SettleMoves(db: Db, s: Sid, payment: Option<string>)
    requires s in db.open && db.open[s].hold.Some? && Settle(db, s, payment).Done?
    ensures var db' := Settle(db, s, payment).db;
            db'.wallets == db.wallets && db'.recorded == db.recorded && db'.table == db.table
  {
    SettleEffect(db, s, payment);
  }

  lemma {:induction false} DeliveryMoves(db: Db, s: Sid, d: Delivery)
    requires DeliveryOk(db, s, d)
    ensures MovesByCommit(db, DeliveryStep(db, s, d).0, s)
    ensures d.pc != DeliveryCredited ==> DeliveryStep(db, s, d).0.wallets == db.wallets
  {
    if d.pc == DeliveryLocked {
      var payment := db.open[s].hold.value.after.payment;
      if Settle(db, s, payment).Done? {
        SettleMoves(db, s, payment);
      }
    }
  }

  lemma {:induction false} VerifyMoves(db: Db, s: Sid, v: Verify)
    requires VerifyOk(db, s, v)
    ensures MovesByCommit(db, VerifyStep(db, s, v).0, s)
    ensures v.pc != VerifyFlushed ==> VerifyStep(db, s, v).0.wallets == db.wallets
  {
    if v.pc == VerifyLocked {
      VerifyLockedMoves(db, s, v);
    }
  }

  lemma {:induction false} VerifyLockedMoves(db: Db, s: Sid, v: Verify)
    requires VerifyOk(db, s, v) && v.pc == VerifyLocked
    ensures var db' := VerifyStep(db, s, v).0;
            db'.wallets == db.wallets && db'.recorded == db.recorded && db'.table == db.table
  {
    if Settle(db, s, Some(v.payment)).Done? {
      SettleMoves(db, s, Some(v.payment));
    }
  }

  lemma {:induction false} JobMoves(db: Db, p: nat, j: Job, je: JobEvent, maxAttempts: nat)
    requires JobPaid(db, p, j)
    ensures MovesByCommit(db, JobStep(db, p, j, je, maxAttempts).0, SidOf(p, je.part))
    ensures var pc := PcOf(j, je.part);
            !pc.JobDebited? && !pc.JobRefunding? ==> JobStep(db, p, j, je, maxAttempts).0.wallets == db.wallets
  {
    if TouchesWallet(PcOf(j, je.part)) {
      PayStepMoves(db, p, j, je.part, je.env);
    }
  }

  lemma {:induction false} PayStepMoves(db: Db, p: nat, j: Job, part: Part, env: Env)
    requires JobPaid(db, p, j) && TouchesWallet(PcOf(j, part))
    ensures MovesByCommit(db, JobPayStep(db, p, j, part, env).0, SidOf(p, part))
    ensures var pc := PcOf(j, part);
            !pc.JobDebited? && !pc.JobRefunding? ==> JobPayStep(db, p, j, part, env).0.wallets == db.wallets
  {
    if PcOf(j, part).JobStart? {
      ChargeEffect(db, p, j, part, env);
    } else if PcOf(j, part).JobRefundDue? {
      RefundEffect(db, p, j, part, env);
    }
  }

  lemma {:induction false} PurchaseCommitIsGentle(db: Db, s: Sid, user: User)
    requires s in db.open && TxOk(db, s, db.open[s])
    requires (db.open[s].write.None? && db.open[s].reply.None?) || Completing(db.open[s])
    ensures Balance(Commit(db, s), user) >= Balance(db, user)
  {
    CommitMoves(db, s, user);
  }

  lemma {:induction false} CheckoutIsGentle(db: Db, s: Sid, c: Checkout, user: User)
    requires CheckoutOk(db, s, c) && (s in db.open ==> TxOk(db, s, db.open[s]))
    ensures Balance(CheckoutStep(db, s, c).0, user) >= Balance(db, user)
  {
    CheckoutMoves(db, s, c);
    if c.pc == CheckoutInserted {
      PurchaseCommitIsGentle(db, s, user);
    }
  }

  lemma {:induction false} DeliveryIsGentle(db: Db, s: Sid, d: Delivery, user: User)
    requires DeliveryOk(db, s, d) && (s in db.open ==> TxOk(db, s, db.open[s]))
    ensures Balance(DeliveryStep(db, s, d).0, user) >= Balance(db, user)
  {
    DeliveryMoves(db, s, d);
    if d.pc == DeliveryCredited {
      PurchaseCommitIsGentle(db, s, user);
    }
  }

  lemma {:induction false} VerifyIsGentle(db: Db, s: Sid, v: Verify, user: User)
    requires VerifyOk(db, s, v) && (s in db.open ==> TxOk(db, s, db.open[s]))
    ensures Balance(VerifyStep(db, s, v).0, user) >= Balance(db, user)
  {
    VerifyMoves(db, s, v);
    if v.pc == VerifyFlushed {
      PurchaseCommitIsGentle(db, s, user);
    }
  }

  lemma {:induction false} PaymentStepIsGentle(db: Db, opening: map<User, int>, p: nat, proc: Proc, je: JobEvent, ev: TurnEvent, maxAttempts: nat, user: User)
    requires SafeDb(db, opening) && ProcOk(db, p, proc, maxAttempts)
    requires proc.Buying? || proc.Delivering? || proc.Verifying?
    ensures Balance(StepProc(db, p, proc, je, ev, maxAttempts).0, user) >= Balance(db, user)
  {
    var s := Sid(p, 0);
    assert s in db.open ==> TxOk(db, s, db.open[s]);
    match proc
    case Buying(c) => CheckoutIsGentle(db, s, c, user);
    case Delivering(d) => DeliveryIsGentle(db, s, d, user);
    case Verifying(v) => VerifyIsGentle(db, s, v, user);
    case _ =>
  }

  lemma {:induction false} JobStepIsGentle(db: Db, opening: map<User, int>, p: nat, proc: Proc, je: JobEvent, ev: TurnEvent, maxAttempts: nat, user: User)
    requires SafeDb(db, opening) && ProcOk(db, p, proc, maxAttempts) && proc.Making?
    ensures GentleStep(db, StepProc(db, p, proc, je, ev, maxAttempts).0, user, proc.job.user == user)
  {
    var s := SidOf(p, je.part);
    JobMoves(db, p, proc.job, je, maxAttempts);
    if s in db.open {
      assert TxOk(db, s, db.open[s]);
      CommitMoves(db, s, user);
    }
  }

  function ReplyCharge(tx: Tx): int {
    if tx.reply.Some? then Granted(tx.reply.value.cost) else 0
  }

  /** A turn's step moves only its own user's balance, and only when it commits a reply. */
  lemma {:induction false} TurnStepMoves(db: Db, opening: map<User, int>, p: nat, t: Turn, ev: TurnEvent, user: User)
    requires SafeDb(db, opening) && TurnOk(db, p, t)
    ensures Balance(TurnStep(db, p, t, ev).0, user) == Balance(db, user)
      - if ev.CommitSlot? && SlotIs(t, ev.slot, Charging) && t.user == user then ReplyCharge(TxOf(db, Sid(p, ev.slot))) else 0
    ensures TurnStep(db, p, t, ev).1.user == t.user
  {
    if ev.CommitSlot? && SlotIs(t, ev.slot, Charging) {
      assert SlotOk(db, p, t, ev.slot);
      var s := Sid(p, ev.slot);
      assert TxOk(db, s, db.open[s]);
      CommitMoves(db, s, user);
    }
  }

  lemma {:induction false} FrameKeepsPlanned(db: Db, db': Db, q: nat, p: nat, proc: Proc, user: User, g: Regime)
    requires Frame(db, db', q) && p != q && ProcPlanned(db, p, proc, user, g)
    ensures ProcPlanned(db', p, proc, user, g)
  {
  }

  // --- steps of the user's own turns ------------------------------------

  lemma {:induction false} PriceIsNatural(spec: ModelSpec, prompt: nat, completion: nat)
    ensures Price(spec, prompt, completion) >= 0
  {
    PriceIsMonotone(spec, 0, 0, prompt, completion);
  }

  lemma {:induction false} OpenBoundsAreNatural(slots: seq<Slot>)
    requires NaturalBounds(slots)
    ensures OpenBounds(slots) >= 0
  {
    if slots != [] {
      OpenBoundsAreNatural(slots[..|slots| - 1]);
    }
  }

  /** A slot that moves on to `pc` releases what it no longer needs. */
  lemma {:induction false} SlotMoves(t: Turn, i: nat, pc: SlotPc, user: User, g: Regime)
    requires t.pc.TurnRunning? && i < |t.pc.slots| && NaturalBounds(t.pc.slots)
    ensures NaturalBounds(SetSlot(t, i, pc).pc.slots)
    ensures Reserve(SetSlot(t, i, pc), Unplanned(g)) == Reserve(t, Unplanned(g))
            - Open(t.pc.slots[i]) + Open(t.pc.slots[i].(pc := pc))
  {
    OpenBoundsUpdate(t.pc.slots, i, t.pc.slots[i].(pc := pc));
  }

  /** What the user's own turn gives back and takes: the balance above what it holds
      never shrinks, except when a new turn reads a positive balance. */
  ghost predicate OwnStep(db: Db, db': Db, proc: Proc, proc': Proc, user: User, g: Regime) {
    || Balance(db', user) - Held(proc', user, g) >= Balance(db, user) - Held(proc, user, g)
    || (Balance(db', user) == Balance(db, user) > 0 && Held(proc', user, g) == Unplanned(g)(Balance(db, user))
        && Flying(proc, user) == 0 && Flying(proc', user) == 1)
  }

  lemma {:induction false} PlanStepHolds(db: Db, p: nat, t: Turn, ev: TurnEvent, user: User, g: Regime)
    requires ev.Plan? && t.user == user && PlanFits(t, ev, g) && ProcPlanned(db, p, Chatting(t), user, g)
    ensures var (db', t') := TurnStep(db, p, t, ev);
            && OwnStep(db, db', Chatting(t), Chatting(t'), user, g)
            && BoundsAreNatural(Chatting(t'), user) && HeldOk(Chatting(t'), user, g)
  {
    if t.pc.TurnChecked? && ev.requests != [] && PlanTurn(ev.requests, t.pc.balance, ev.effort).Planned? {
      var budgets := PlanTurn(ev.requests, t.pc.balance, ev.effort).budgets;
      PlanReservesAtMostTheBalance(ev.requests, t.pc.balance, ev.effort);
      forall i | 0 <= i < |budgets|
        ensures SlotBound(Opened(budgets)[i].budget) >= 0
      {
        PriceIsNatural(budgets[i].spec, budgets[i].promptTokens, budgets[i].maxOutputTokens);
      }
    }
  }

  /** A charge within plan costs at most the bound its slot reserves. */
  lemma {:induction false} ChargeIsPlanned(db: Db, p: nat, t: Turn, ev: TurnEvent, user: User)
    requires ev.Charge? && t.user == user && AsPlanned(t, ev) && SlotIs(t, ev.slot, Streaming)
    requires ReplyStmt(db, Sid(p, ev.slot), ReplyOf(p, t, ev.slot, ev.use, ev.served)).Done? && Sid(p, ev.slot) !in db.open
    requires ChargesPlanned(db, p, Chatting(t), user)
    ensures var (db', t') := TurnStep(db, p, t, ev);
            && t' == SetSlot(t, ev.slot, Charging) && db'.wallets == db.wallets
            && ChargesPlanned(db', p, Chatting(t'), user)
  {
    var reply := ReplyOf(p, t, ev.slot, ev.use, ev.served);
    UseWithinPlanCostsAtMostTheBound(ev.use, t.pc.slots[ev.slot].budget);
    ReplyEffect(db, Sid(p, ev.slot), reply);
    assert reply.cost <= SlotBound(t.pc.slots[ev.slot].budget);
  }

  /** A user without a wallet is not charged, and the slot closes. */
  lemma {:induction false} RefusedChargeHolds(db: Db, p: nat, t: Turn, ev: TurnEvent, user: User, g: Regime)
    requires ev.Charge? && t.user == user && SlotIs(t, ev.slot, Streaming)
    requires ReplyStmt(db, Sid(p, ev.slot), ReplyOf(p, t, ev.slot, ev.use, ev.served)).Refused?
    requires ProcPlanned(db, p, Chatting(t), user, g)
    ensures var (db', t') := TurnStep(db, p, t, ev);
            && OwnStep(db, db', Chatting(t), Chatting(t'), user, g)
            && ProcPlanned(db', p, Chatting(t'), user, g)
  {
    SlotMoves(t, ev.slot, Closed, user, g);
  }

  lemma {:induction false} DoneChargeHolds(db: Db, p: nat, t: Turn, ev: TurnEvent, user: User, g: Regime)
    requires ev.Charge? && t.user == user && SlotIs(t, ev.slot, Streaming) && AsPlanned(t, ev) && Sid(p, ev.slot) !in db.open
    requires ReplyStmt(db, Sid(p, ev.slot), ReplyOf(p, t, ev.slot, ev.use, ev.served)).Done?
    requires ProcPlanned(db, p, Chatting(t), user, g)
    ensures var (db', t') := TurnStep(db, p, t, ev);
            && OwnStep(db, db', Chatting(t), Chatting(t'), user, g)
            && ProcPlanned(db', p, Chatting(t'), user, g)
  {
    ChargeIsPlanned(db, p, t, ev, user);
    SlotMoves(t, ev.slot, Charging, user, g);
  }

  lemma {:induction false} ChargeStepHolds(db: Db, opening: map<User, int>, p: nat, t: Turn, ev: TurnEvent, user: User, g: Regime)
    requires ev.Charge? && t.user == user && AsPlanned(t, ev) && TurnOk(db, p, t)
    requires ProcPlanned(db, p, Chatting(t), user, g)
    ensures var (db', t') := TurnStep(db, p, t, ev);
            && OwnStep(db, db', Chatting(t), Chatting(t'), user, g)
            && ProcPlanned(db', p, Chatting(t'), user, g)
  {
    if SlotIs(t, ev.slot, Streaming) {
      assert SlotOk(db, p, t, ev.slot);
      var stmt := ReplyStmt(db, Sid(p, ev.slot), ReplyOf(p, t, ev.slot, ev.use, ev.served));
      if stmt.Done? {
        DoneChargeHolds(db, p, t, ev, user, g);
      } else if stmt.Refused? {
        RefusedChargeHolds(db, p, t, ev, user, g);
      }
    }
  }

  lemma {:induction false} CloseStepHolds(db: Db, opening: map<User, int>, p: nat, t: Turn, ev: TurnEvent, user: User, g: Regime)
    requires (ev.CommitSlot? || ev.Drop?) && t.user == user && SlotIs(t, ev.slot, Charging)
    requires SafeDb(db, opening) && TurnOk(db, p, t) && ProcPlanned(db, p, Chatting(t), user, g)
    ensures var (db', t') := TurnStep(db, p, t, ev);
            && OwnStep(db, db', Chatting(t), Chatting(t'), user, g)
            && ProcPlanned(db', p, Chatting(t'), user, g)
  {
    var t' := SetSlot(t, ev.slot, Closed);
    SlotMoves(t, ev.slot, Closed, user, g);
    TurnStepMoves(db, opening, p, t, ev, user);
    assert SlotOk(db, p, t, ev.slot);
    assert TxOf(db, Sid(p, ev.slot)).reply.value.cost <= SlotBound(t.pc.slots[ev.slot].budget);
    var db' := TurnStep(db, p, t, ev).0;
    assert TurnStep(db, p, t, ev).1 == t' && db'.open == db.open - {Sid(p, ev.slot)};
    ClosedChargesArePlanned(db, db', p, t, ev.slot, user);
  }

  lemma {:induction false} ClosedChargesArePlanned(db: Db, db': Db, p: nat, t: Turn, i: nat, user: User)
    requires ChargesPlanned(db, p, Chatting(t), user) && SlotIs(t, i, Charging) && db'.open == db.open - {Sid(p, i)}
    ensures ChargesPlanned(db', p, Chatting(SetSlot(t, i, Closed)), user)
  {
  }

  lemma {:induction false} OtherTurnEventsHold(db: Db, p: nat, t: Turn, ev: TurnEvent, user: User, g: Regime)
    requires ev.Look? || ev.GiveUp? || ev.Quiet? || ev.Finish? || ((ev.CommitSlot? || ev.Drop?) && !SlotIs(t, ev.slot, Charging))
    requires t.user == user && ProcPlanned(db, p, Chatting(t), user, g)
    ensures var (db', t') := TurnStep(db, p, t, ev);
            && OwnStep(db, db', Chatting(t), Chatting(t'), user, g)
            && ProcPlanned(db', p, Chatting(t'), user, g)
  {
    var (db', t') := TurnStep(db, p, t, ev);
    if ev.Quiet? && SlotIs(t, ev.slot, Streaming) {
      SlotMoves(t, ev.slot, Closed, user, g);
    } else if ev.Finish? && t.pc.TurnRunning? {
      OpenBoundsAreNatural(t.pc.slots);
    }
  }

  lemma {:induction false} OwnStepHolds(db: Db, opening: map<User, int>, p: nat, t: Turn, ev: TurnEvent, user: User, g: Regime)
    requires SafeDb(db, opening) && TurnOk(db, p, t) && t.user == user
    requires AsPlanned(t, ev) && PlanFits(t, ev, g) && ProcPlanned(db, p, Chatting(t), user, g)
    ensures var (db', t') := TurnStep(db, p, t, ev);
            && OwnStep(db, db', Chatting(t), Chatting(t'), user, g)
            && ProcPlanned(db', p, Chatting(t'), user, g)
  {
    if ev.Plan? {
      PlanStepHolds(db, p, t, ev, user, g);
    } else if ev.Charge? {
      ChargeStepHolds(db, opening, p, t, ev, user, g);
    } else if (ev.CommitSlot? || ev.Drop?) && SlotIs(t, ev.slot, Charging) {
      CloseStepHolds(db, opening, p, t, ev, user, g);
    } else {
      OtherTurnEventsHold(db, p, t, ev, user, g);
    }
  }

  // --- all steps --------------------------------------------------------

  lemma {:induction false} PlannedUpdate(w: World, p: nat, db': Db, proc': Proc, user: User, g: Regime)
    requires forall q: nat :: q < |w.procs| ==> ProcPlanned(w.db, q, w.procs[q], user, g)
    requires p < |w.procs| && Frame(w.db, db', p) && ProcPlanned(db', p, proc', user, g)
    ensures var procs' := w.procs[p := proc'];
            forall q: nat :: q < |procs'| ==> ProcPlanned(db', q, procs'[q], user, g)
  {
    var procs' := w.procs[p := proc'];
    forall q: nat | q < |procs'|
      ensures ProcPlanned(db', q, procs'[q], user, g)
    {
      if q != p {
        FrameKeepsPlanned(w.db, db', p, q, w.procs[q], user, g);
      }
    }
  }

  lemma {:induction false} ManyCovers(procs: seq<Proc>, user: User, g: Regime)
    requires g.Many? && AllHeldOk(procs, user, g) && TurnsInFlight(procs, user) <= g.k
    ensures TotalHeld(procs, user, g) <= Floor(g)
  {
    HeldByTurnsInFlight(procs, user, g);
    MulMonotone(g.m, TurnsInFlight(procs, user), g.k);
  }

  lemma {:induction false} BalanceCovers(procs: seq<Proc>, p: nat, proc': Proc, db: Db, db': Db, user: User, g: Regime)
    requires p < |procs| && AllHeldOk(procs, user, g) && HeldOk(proc', user, g)
    requires Balance(db, user) >= TotalHeld(procs, user, g) - Floor(g)
    requires TurnsInFlight(procs[p := proc'], user) <= (if g.Many? then g.k else 1)
    requires OwnStep(db, db', procs[p], proc', user, g) || (g.Many? && Balance(db', user) >= 0)
    ensures Balance(db', user) >= TotalHeld(procs[p := proc'], user, g) - Floor(g)
  {
    TotalsUpdate(procs, p, proc', user, g);
    if Balance(db', user) - Held(proc', user, g) < Balance(db, user) - Held(procs[p], user, g) {
      if g.Many? {
        ManyCovers(procs[p := proc'], user, g);
      } else {
        HeldByTurnsInFlight(procs, user, g);
      }
    }
  }

  lemma {:induction false} CoveredUpdate(w: World, p: nat, db': Db, proc': Proc, user: User, g: Regime)
    requires Covered(w, user, g) && p < |w.procs| && Frame(w.db, db', p)
    requires ProcPlanned(db', p, proc', user, g)
    requires TurnsInFlight(w.procs[p := proc'], user) <= (if g.Many? then g.k else 1)
    requires OwnStep(w.db, db', w.procs[p], proc', user, g) || (g.Many? && Balance(db', user) >= 0)
    ensures Covered(World(db', w.procs[p := proc']), user, g)
  {
    forall q | 0 <= q < |w.procs|
      ensures HeldOk(w.procs[q], user, g)
    {
      assert ProcPlanned(w.db, q, w.procs[q], user, g);
    }
    PlannedUpdate(w, p, db', proc', user, g);
    BalanceCovers(w.procs, p, proc', w.db, db', user, g);
  }

  lemma {:induction false} OthersStepIsCovered(w: World, opening: map<User, int>, p: nat, je: JobEvent, ev: TurnEvent, maxAttempts: nat, user: User, g: Regime)
    requires maxAttempts > 0 && Inv(w, opening, maxAttempts) && Covered(w, user, g)
    requires p < |w.procs| && !OfUser(w.procs[p], user)
    ensures Covered(Next(w, Step(p, je, ev), maxAttempts), user, g)
  {
    var proc := w.procs[p];
    var (db', proc') := StepProc(w.db, p, proc, je, ev, maxAttempts);
    assert ProcOk(w.db, p, proc, maxAttempts);
    assert ProcPlanned(w.db, p, proc, user, g);
    StepProcIsSafe(w.db, opening, p, proc, je, ev, maxAttempts);
    if proc.Chatting? {
      TurnStepMoves(w.db, opening, p, proc.turn, ev, user);
    } else if proc.Making? {
      JobStepIsGentle(w.db, opening, p, proc, je, ev, maxAttempts, user);
      JobKeepsItsUser(w.db, p, proc.job, je, maxAttempts);
    } else {
      PaymentStepIsGentle(w.db, opening, p, proc, je, ev, maxAttempts, user);
    }
    assert !OfUser(proc', user);
    TotalsUpdate(w.procs, p, proc', user, g);
    CoveredUpdate(w, p, db', proc', user, g);
  }

  lemma {:induction false} JobKeepsItsUser(db: Db, p: nat, j: Job, je: JobEvent, maxAttempts: nat)
    ensures JobStep(db, p, j, je, maxAttempts).1.user == j.user
  {
  }

  lemma {:induction false} StepIsCovered(w: World, opening: map<User, int>, p: nat, je: JobEvent, ev: TurnEvent, maxAttempts: nat, user: User, g: Regime)
    requires maxAttempts > 0 && Inv(w, opening, maxAttempts) && Covered(w, user, g)
    requires Assumed(w, Step(p, je, ev), user, g, maxAttempts)
    ensures Covered(Next(w, Step(p, je, ev), maxAttempts), user, g)
  {
    if p < |w.procs| {
      if OfUser(w.procs[p], user) {
        var t := w.procs[p].turn;
        var (db', t') := TurnStep(w.db, p, t, ev);
        assert ProcOk(w.db, p, w.procs[p], maxAttempts);
        assert ProcPlanned(w.db, p, w.procs[p], user, g);
        TurnStepIsSafe(w.db, opening, p, t, ev);
        OwnStepHolds(w.db, opening, p, t, ev, user, g);
        CoveredUpdate(w, p, db', Chatting(t'), user, g);
      } else {
        OthersStepIsCovered(w, opening, p, je, ev, maxAttempts, user, g);
      }
    }
  }

  lemma {:induction false} SpawnIsCovered(w: World, proc: Proc, user: User, g: Regime)
    requires Covered(w, user, g) && Initial(proc)
    requires g.Solo? && proc.Making? ==> proc.job.user != user
    ensures Covered(w.(procs := w.procs + [proc]), user, g)
  {
    assert (w.procs + [proc])[..|w.procs|] == w.procs;
    assert ProcPlanned(w.db, |w.procs|, proc, user, g);
  }

  lemma {:induction false} NextIsCovered(w: World, opening: map<User, int>, e: Event, maxAttempts: nat, user: User, g: Regime)
    requires maxAttempts > 0 && Inv(w, opening, maxAttempts) && Covered(w, user, g)
    requires Assumed(w, e, user, g, maxAttempts)
    ensures Covered(Next(w, e, maxAttempts), user, g)
  {
    match e
    case Spawn(proc) =>
      if Initial(proc) {
        SpawnIsCovered(w, proc, user, g);
      }
    case Step(p, je, ev) => StepIsCovered(w, opening, p, je, ev, maxAttempts, user, g);
    case Crash(p) =>
      if p < |w.procs| {
        var (db', proc') := CrashProc(w.db, p, w.procs[p]);
        assert ProcPlanned(w.db, p, w.procs[p], user, g);
        TotalsUpdate(w.procs, p, proc', user, g);
        CrashIsSafe(w.db, opening, p, w.procs[p], maxAttempts);
        CoveredUpdate(w, p, db', proc', user, g);
      }
    case Delete(p) =>
      if p < |w.procs| && w.procs[p].Making? {
        var proc' := Making(DeleteVideo(w.procs[p].job));
        assert ProcPlanned(w.db, p, w.procs[p], user, g);
        TotalsUpdate(w.procs, p, proc', user, g);
        CoveredUpdate(w, p, w.db, proc', user, g);
      }
    case EraseRows(ids) =>
      forall p: nat | p < |w.procs|
        ensures ProcPlanned(Erase(w.db, ids), p, w.procs[p], user, g)
      {
        assert ProcPlanned(w.db, p, w.procs[p], user, g);
      }
  }

  lemma {:induction false} RunIsCovered(w: World, opening: map<User, int>, events: seq<Event>, maxAttempts: nat, user: User, g: Regime)
    requires maxAttempts > 0 && Inv(w, opening, maxAttempts) && Covered(w, user, g)
    requires AssumedAlong(w, events, user, g, maxAttempts)
    ensures Inv(RunFrom(w, events, maxAttempts), opening, maxAttempts)
    ensures Covered(RunFrom(w, events, maxAttempts), user, g)
    decreases |events|
  {
    if events != [] {
      NextIsSafe(w, opening, events[0], maxAttempts);
      NextIsCovered(w, opening, events[0], maxAttempts, user, g);
      RunIsCovered(Next(w, events[0], maxAttempts), opening, events[1..], maxAttempts, user, g);
    }
  }

  // --- the bounds -------------------------------------------------------

  /** With at most k turns of the user in flight, each planning at most m micro-credits,
      no interleaving of balance readings, replies, guarded media debits, purchases and
      refunds takes the wallet below -k * m. */
  lemma {:induction false} OverdraftIsBounded(opening: map<User, int>, events: seq<Event>, maxAttempts: nat, user: User, k: nat, m: nat)
    requires maxAttempts > 0 && BalanceIn(opening, user) >= 0
    requires AssumedAlong(Start(opening), events, user, Many(k, m), maxAttempts)
    ensures Balance(RunFrom(Start(opening), events, maxAttempts).db, user) >= 0 - k * m
  {
    var g := Many(k, m);
    RunIsCovered(Start(opening), opening, events, maxAttempts, user, g);
    HeldIsNatural(RunFrom(Start(opening), events, maxAttempts), user, g);
  }

  /** One socket and no media debits: the wallet never goes below the rounding slack of a
      turn, which is one micro-credit for three two-decimal prices and nothing for the
      registry's prices. */
  lemma {:induction false} SoloNeverOverdraws(opening: map<User, int>, events: seq<Event>, maxAttempts: nat, user: User, slack: nat)
    requires maxAttempts > 0 && BalanceIn(opening, user) >= 0
    requires AssumedAlong(Start(opening), events, user, Solo(slack), maxAttempts)
    ensures Balance(RunFrom(Start(opening), events, maxAttempts).db, user) >= 0 - slack
  {
    var g := Solo(slack);
    RunIsCovered(Start(opening), opening, events, maxAttempts, user, g);
    HeldIsNatural(RunFrom(Start(opening), events, maxAttempts), user, g);
  }

  lemma {:induction false} HeldIsNatural(w: World, user: User, g: Regime)
    requires Covered(w, user, g)
    ensures TotalHeld(w.procs, user, g) >= 0
  {
    assert forall p: nat :: p < |w.procs| ==> ProcPlanned(w.db, p, w.procs[p], user, g);
    TotalIsNatural(w.procs, user, g);
  }

  lemma {:induction false} TotalIsNatural(procs: seq<Proc>, user: User, g: Regime)
    requires forall p :: 0 <= p < |procs| ==> BoundsAreNatural(procs[p], user)
    ensures TotalHeld(procs, user, g) >= 0
  {
    if procs != [] {
      var n := |procs| - 1;
      TotalIsNatural(procs[..n], user, g);
      assert BoundsAreNatural(procs[n], user);
      if OfUser(procs[n], user) && procs[n].turn.pc.TurnRunning? {
        OpenBoundsAreNatural(procs[n].turn.pc.slots);
      }
    }
  }
}
