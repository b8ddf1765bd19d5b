/** The money side of a chat turn (run_turn and _record_reply in
    app/api/v1/endpoints/chat.py): one balance reading, a budget per slot, and one
    overdraft debit per reply, the slots running concurrently. */
module ChatBilling {
  import opened Wrappers
  import opened Pricing
  import opened Affordability
  import opened Ledger

  datatype SlotPc = Streaming | Charging | Closed

  datatype Slot = Slot(budget: Budget, pc: SlotPc)

  datatype TurnPc = TurnStart | TurnChecked(balance: int) | TurnRunning(slots: seq<Slot>) | TurnEnded

  datatype Turn = Turn(user: User, pc: TurnPc)

  /** Look: read the balance. Plan: budget the slots. GiveUp: the turn ends before it
      streams (storage failure, bad edit, client gone). Quiet: a slot ends with an empty
      reply. Charge: the debit and insert of a reply, with the usage the provider
      reported and the model it says it served. Drop: the bookkeeping transaction fails, its
      insert flushed or not. */
  datatype TurnEvent =
    | Look
    | Plan(requests: seq<SlotRequest>, effort: string)
    | GiveUp
    | Quiet(slot: nat)
    | Charge(slot: nat, use: TokenUse, served: Option<string>)
    | CommitSlot(slot: nat)
    | Drop(slot: nat, flushed: bool)
    | Finish

  function SetSlot(t: Turn, i: nat, pc: SlotPc): Turn
    requires t.pc.TurnRunning? && i < |t.pc.slots|
  {
    t.(pc := TurnRunning(t.pc.slots[i := t.pc.slots[i].(pc := pc)]))
  }

  predicate SlotIs(t: Turn, i: nat, pc: SlotPc) {
    t.pc.TurnRunning? && i < |t.pc.slots| && t.pc.slots[i].pc == pc
  }

  function Opened(budgets: seq<Budget>): (slots: seq<Slot>)
    ensures |slots| == |budgets|
    ensures forall i :: 0 <= i < |budgets| ==> slots[i] == Slot(budgets[i], Streaming)
  {
    seq(|budgets|, i requires 0 <= i < |budgets| => Slot(budgets[i], Streaming))
  }

  /** The row _record_reply stores: the cost is priced from its own tokens at its own
      model. */
  function ReplyOf(proc: nat, t: Turn, i: nat, use: TokenUse, served: Option<string>): Reply
    requires t.pc.TurnRunning? && i < |t.pc.slots|
  {
    var spec := BilledModel(t.pc.slots[i].budget.spec, served);
    Reply(proc, i, t.user, spec, use.prompt, use.completion, Price(spec, use.prompt, use.completion))
  }

  function TurnStep(db: Db, proc: nat, t: Turn, ev: TurnEvent): (Db, Turn) {
    match ev
    case Look =>
      if t.pc != TurnStart then (db, t)
      else if Balance(db, t.user) <= 0 then (db, t.(pc := TurnEnded))
      else (db, t.(pc := TurnChecked(Balance(db, t.user))))
    case Plan(requests, effort) =>
      if !t.pc.TurnChecked? || requests == [] then (db, t)
      else (
        match PlanTurn(requests, t.pc.balance, effort)
        case Refused(_, _) => (db, t.(pc := TurnEnded))
        case Planned(budgets) => (db, t.(pc := TurnRunning(Opened(budgets)))))
    case GiveUp => (db, if t.pc == TurnStart || t.pc.TurnChecked? then t.(pc := TurnEnded) else t)
    case Quiet(i) => (db, if SlotIs(t, i, Streaming) then SetSlot(t, i, Closed) else t)
    case Charge(i, use, served) =>
      if !SlotIs(t, i, Streaming) then (db, t)
      else (
        match ReplyStmt(db, Sid(proc, i), ReplyOf(proc, t, i, use, served))
        case Blocked => (db, t)
        case Refused => (Rollback(db, Sid(proc, i)), SetSlot(t, i, Closed))
        case Done(db') => (db', SetSlot(t, i, Charging)))
    case CommitSlot(i) =>
      if SlotIs(t, i, Charging) then (Commit(db, Sid(proc, i)), SetSlot(t, i, Closed)) else (db, t)
    case Drop(i, _) =>
      if SlotIs(t, i, Charging) then (Rollback(db, Sid(proc, i)), SetSlot(t, i, Closed)) else (db, t)
    case Finish =>
      if t.pc.TurnRunning? && forall i :: 0 <= i < |t.pc.slots| ==> t.pc.slots[i].pc == Closed
      then (db, t.(pc := TurnEnded)) else (db, t)
  }

  // --- the invariant of a turn ------------------------------------------

  ghost predicate SlotOk(db: Db, proc: nat, t: Turn, i: nat) {
    && (Sid(proc, i) in db.open <==> SlotIs(t, i, Charging))
    && (SlotIs(t, i, Charging) ==>
          && db.open[Sid(proc, i)].reply.Some? && db.open[Sid(proc, i)].hold.None?
          && db.open[Sid(proc, i)].reply.value.user == t.user)
    && |Entries(db.ledger, OfSlot(proc, i))| <= 1
    && (!t.pc.TurnEnded? && !SlotIs(t, i, Closed) ==> Entries(db.ledger, OfSlot(proc, i)) == [])
  }

  ghost predicate TurnOk(db: Db, proc: nat, t: Turn) {
    forall i: nat :: SlotOk(db, proc, t, i)
  }

  /** A step on slot i of this turn leaves the other slots alone. */
  lemma {:induction false} OtherSlotsAreKept(db: Db, db': Db, proc: nat, t: Turn, t': Turn, i: nat)
    requires TurnOk(db, proc, t) && SlotOk(db', proc, t', i)
    requires forall k: nat :: k != i ==> (Sid(proc, k) in db'.open <==> Sid(proc, k) in db.open)
    requires forall k: nat :: k != i && Sid(proc, k) in db.open && Sid(proc, k) in db'.open ==> db'.open[Sid(proc, k)] == db.open[Sid(proc, k)]
    requires forall k: nat :: k != i ==> Entries(db'.ledger, OfSlot(proc, k)) == Entries(db.ledger, OfSlot(proc, k))
    requires t'.user == t.user && t.pc.TurnRunning? && t'.pc.TurnRunning? && |t.pc.slots| == |t'.pc.slots|
    requires forall k: nat :: k != i && k < |t.pc.slots| ==> t'.pc.slots[k] == t.pc.slots[k]
    ensures TurnOk(db', proc, t')
  {
    forall k: nat
      ensures SlotOk(db', proc, t', k)
    {
      assert SlotOk(db, proc, t, k);
    }
  }

  lemma {:induction false} ReplyEffect(db: Db, s: Sid, reply: Reply)
    requires s !in db.open && ReplyStmt(db, s, reply).Done?
    ensures ReplyStmt(db, s, reply).db == Put(db, s, Tx(Some(ReplyPosting(reply)), None, Some(reply)))
  {
  }

  lemma {:induction false} DoneChargeIsOk(db: Db, proc: nat, t: Turn, i: nat, reply: Reply)
    requires SlotIs(t, i, Streaming) && TurnOk(db, proc, t) && reply.user == t.user
    ensures var db' := Put(db, Sid(proc, i), Tx(Some(ReplyPosting(reply)), None, Some(reply)));
            TurnOk(db', proc, SetSlot(t, i, Charging)) && Frame(db, db', proc) && JobsUntouched(db, db')
  {
    var s, tx := Sid(proc, i), Tx(Some(ReplyPosting(reply)), None, Some(reply));
    assert SlotOk(db, proc, t, i);
    PutFrame(db, s, tx);
    OtherSlotsAreKept(db, Put(db, s, tx), proc, t, SetSlot(t, i, Charging), i);
  }

  lemma {:induction false} RefusedChargeIsOk(db: Db, proc: nat, t: Turn, i: nat)
    requires SlotIs(t, i, Streaming) && TurnOk(db, proc, t)
    ensures var db' := Rollback(db, Sid(proc, i));
            TurnOk(db', proc, SetSlot(t, i, Closed)) && Frame(db, db', proc) && JobsUntouched(db, db')
  {
    assert SlotOk(db, proc, t, i);
    RollbackFrame(db, Sid(proc, i));
    OtherSlotsAreKept(db, Rollback(db, Sid(proc, i)), proc, t, SetSlot(t, i, Closed), i);
  }

  lemma {:induction false} ChargeIsOk(db: Db, proc: nat, t: Turn, ev: TurnEvent)
    requires ev.Charge? && SlotIs(t, ev.slot, Streaming)
    requires TurnOk(db, proc, t)
    ensures var (db', t') := TurnStep(db, proc, t, ev);
            TurnOk(db', proc, t') && Frame(db, db', proc) && JobsUntouched(db, db')
  {
    assert SlotOk(db, proc, t, ev.slot);
    var reply := ReplyOf(proc, t, ev.slot, ev.use, ev.served);
    var stmt := ReplyStmt(db, Sid(proc, ev.slot), reply);
    if stmt.Done? {
      ReplyEffect(db, Sid(proc, ev.slot), reply);
      DoneChargeIsOk(db, proc, t, ev.slot, reply);
    } else if stmt.Refused? {
      RefusedChargeIsOk(db, proc, t, ev.slot);
    }
  }

  lemma {:induction false} ChargeIsSafe(db: Db, opening: map<User, int>, proc: nat, t: Turn, ev: TurnEvent)
    requires ev.Charge? && SlotIs(t, ev.slot, Streaming) && Sid(proc, ev.slot) !in db.open
    requires SafeDb(db, opening)
    ensures SafeDb(TurnStep(db, proc, t, ev).0, opening)
  {
    var s, reply := Sid(proc, ev.slot), ReplyOf(proc, t, ev.slot, ev.use, ev.served);
    RollbackKeepsSafety(db, opening, s);
    if ReplyStmt(db, s, reply).Done? {
      ReplyKeepsSafety(db, opening, s, reply);
    }
  }

  /** A slot's commit posts under its own slot only. */
  lemma {:induction false} CommitSlotEntries(db: Db, proc: nat, i: nat)
    requires Sid(proc, i) in db.open && TxOk(db, Sid(proc, i), db.open[Sid(proc, i)]) && db.open[Sid(proc, i)].reply.Some?
    ensures forall k: nat :: k != i ==> Entries(Commit(db, Sid(proc, i)).ledger, OfSlot(proc, k)) == Entries(db.ledger, OfSlot(proc, k))
    ensures |Entries(Commit(db, Sid(proc, i)).ledger, OfSlot(proc, i))| == |Entries(db.ledger, OfSlot(proc, i))| + 1
  {
    var p := db.open[Sid(proc, i)].write.value;
    EntriesGrow(db.ledger, p, OfSlot(proc, i));
    forall k: nat
      ensures k != i ==> Entries(db.ledger + [p], OfSlot(proc, k)) == Entries(db.ledger, OfSlot(proc, k))
    {
      EntriesGrow(db.ledger, p, OfSlot(proc, k));
    }
  }

  lemma {:induction false} ClosedSlotIsOk(db: Db, proc: nat, t: Turn, i: nat)
    requires SlotIs(t, i, Charging) && SlotOk(db, proc, t, i) && TxOk(db, Sid(proc, i), db.open[Sid(proc, i)])
    ensures SlotOk(Commit(db, Sid(proc, i)), proc, SetSlot(t, i, Closed), i)
  {
    CommitSlotEntries(db, proc, i);
  }

  lemma {:induction false} CommitSlotIsOk(db: Db, proc: nat, t: Turn, ev: TurnEvent)
    requires ev.CommitSlot? && SlotIs(t, ev.slot, Charging)
    requires TurnOk(db, proc, t) && Sid(proc, ev.slot) in db.open && TxOk(db, Sid(proc, ev.slot), db.open[Sid(proc, ev.slot)])
    ensures var db' := Commit(db, Sid(proc, ev.slot));
            TurnOk(db', proc, SetSlot(t, ev.slot, Closed)) && Frame(db, db', proc) && JobsUntouched(db, db')
  {
    var i := ev.slot;
    assert SlotOk(db, proc, t, i);
    CommitFrame(db, Sid(proc, i));
    CommitSlotEntries(db, proc, i);
    ClosedSlotIsOk(db, proc, t, i);
    CommitLeavesOthers(db, Sid(proc, i));
    OtherSlotsAreKept(db, Commit(db, Sid(proc, i)), proc, t, SetSlot(t, i, Closed), i);
  }

  lemma {:induction false} CommitLeavesOthers(db: Db, s: Sid)
    ensures forall k: nat :: k != s.slot ==> (Sid(s.proc, k) in Commit(db, s).open <==> Sid(s.proc, k) in db.open)
    ensures forall k: nat :: k != s.slot && Sid(s.proc, k) in db.open && Sid(s.proc, k) in Commit(db, s).open ==>
      Commit(db, s).open[Sid(s.proc, k)] == db.open[Sid(s.proc, k)]
  {
  }

  lemma {:induction false} DropIsOk(db: Db, proc: nat, t: Turn, ev: TurnEvent)
    requires ev.Drop? && SlotIs(t, ev.slot, Charging) && TurnOk(db, proc, t)
    ensures var (db', t') := TurnStep(db, proc, t, ev);
            TurnOk(db', proc, t') && Frame(db, db', proc) && JobsUntouched(db, db')
  {
    var (db', t') := TurnStep(db, proc, t, ev);
    assert SlotOk(db, proc, t, ev.slot);
    RollbackFrame(db, Sid(proc, ev.slot));
    OtherSlotsAreKept(db, db', proc, t, t', ev.slot);
  }

  lemma {:induction false} TurnStepIsSafe(db: Db, opening: map<User, int>, proc: nat, t: Turn, ev: TurnEvent)
    requires SafeDb(db, opening) && TurnOk(db, proc, t)
    ensures var (db', t') := TurnStep(db, proc, t, ev);
            SafeDb(db', opening) && TurnOk(db', proc, t') && Frame(db, db', proc) && JobsUntouched(db, db')
  {
    if ev.Charge? && SlotIs(t, ev.slot, Streaming) {
      assert SlotOk(db, proc, t, ev.slot);
      ChargeIsOk(db, proc, t, ev);
      ChargeIsSafe(db, opening, proc, t, ev);
    } else if ev.CommitSlot? && SlotIs(t, ev.slot, Charging) {
      CommitSlotIsSafe(db, opening, proc, t, ev);
    } else if ev.Drop? && SlotIs(t, ev.slot, Charging) {
      DropIsSafe(db, opening, proc, t, ev);
    } else {
      QuietStepIsOk(db, proc, t, ev);
    }
  }

  lemma {:induction false} CommitSlotIsSafe(db: Db, opening: map<User, int>, proc: nat, t: Turn, ev: TurnEvent)
    requires SafeDb(db, opening) && TurnOk(db, proc, t) && ev.CommitSlot? && SlotIs(t, ev.slot, Charging)
    ensures var (db', t') := TurnStep(db, proc, t, ev);
            SafeDb(db', opening) && TurnOk(db', proc, t') && Frame(db, db', proc) && JobsUntouched(db, db')
  {
    assert SlotOk(db, proc, t, ev.slot);
    CommitSlotIsOk(db, proc, t, ev);
    CommitKeepsSafety(db, opening, Sid(proc, ev.slot));
  }

  lemma {:induction false} DropIsSafe(db: Db, opening: map<User, int>, proc: nat, t: Turn, ev: TurnEvent)
    requires SafeDb(db, opening) && TurnOk(db, proc, t) && ev.Drop? && SlotIs(t, ev.slot, Charging)
    ensures var (db', t') := TurnStep(db, proc, t, ev);
            SafeDb(db', opening) && TurnOk(db', proc, t') && Frame(db, db', proc) && JobsUntouched(db, db')
  {
    DropIsOk(db, proc, t, ev);
    RollbackKeepsSafety(db, opening, Sid(proc, ev.slot));
  }

  /** The steps that send no statement. */
  lemma {:induction false} QuietStepIsOk(db: Db, proc: nat, t: Turn, ev: TurnEvent)
    requires TurnOk(db, proc, t)
    requires !(ev.Charge? && SlotIs(t, ev.slot, Streaming)) && !((ev.CommitSlot? || ev.Drop?) && SlotIs(t, ev.slot, Charging))
    ensures var (db', t') := TurnStep(db, proc, t, ev);
            db' == db && TurnOk(db, proc, t')
  {
    var t' := TurnStep(db, proc, t, ev).1;
    forall k: nat
      ensures SlotOk(db, proc, t', k)
    {
      assert SlotOk(db, proc, t, k);
    }
  }

  /** When a slot's transaction commits, its reply is stored with the turn's user, turn and
      slot, and exactly its cost leaves that user's wallet. */
  lemma {:induction false} CommitStoresTheReply(db: Db, opening: map<User, int>, proc: nat, t: Turn, i: nat)
    requires SafeDb(db, opening) && TurnOk(db, proc, t) && SlotIs(t, i, Charging)
    ensures var db' := TurnStep(db, proc, t, CommitSlot(i)).0;
            && |db'.recorded| == |db.recorded| + 1 && db'.recorded[..|db.recorded|] == db.recorded
            && var reply := db'.recorded[|db.recorded|];
            && reply.user == t.user && reply.turn == proc && reply.slot == i
            && Balance(db', t.user) == Balance(db, t.user) - Granted(reply.cost)
            && forall u :: u != t.user ==> Balance(db', u) == Balance(db, u)
  {
    assert SlotOk(db, proc, t, i);
    assert TxOk(db, Sid(proc, i), db.open[Sid(proc, i)]);
  }

  // --- what a turn may still charge -------------------------------------

  function Open(slot: Slot): int {
    if slot.pc == Closed then 0 else SlotBound(slot.budget)
  }

  function OpenBounds(slots: seq<Slot>): int {
    if slots == [] then 0 else OpenBounds(slots[..|slots| - 1]) + Open(slots[|slots| - 1])
  }

  /** The charges a turn can still make when its slots stay within their plan; a turn
      that has read the balance but not planned yet is given `unplanned`. */
  function Reserve(t: Turn, unplanned: int -> int): int {
    match t.pc
    case TurnChecked(balance) => unplanned(balance)
    case TurnRunning(slots) => OpenBounds(slots)
    case _ => 0
  }

  predicate InFlight(t: Turn) {
    t.pc.TurnChecked? || t.pc.TurnRunning?
  }

  /** The hypothesis of the budget on one step: the model asked for is the model billed,
      and the provider stays within the planned tokens. */
  ghost predicate AsPlanned(t: Turn, ev: TurnEvent) {
    ev.Charge? && SlotIs(t, ev.slot, Streaming) ==>
      var budget := t.pc.slots[ev.slot].budget;
      BilledModel(budget.spec, ev.served) == budget.spec && WithinPlan(ev.use, budget)
  }

  lemma {:induction false} OpenBoundsUpdate(slots: seq<Slot>, i: nat, slot: Slot)
    requires i < |slots|
    ensures OpenBounds(slots[i := slot]) == OpenBounds(slots) - Open(slots[i]) + Open(slot)
  {
    var n := |slots| - 1;
    if i == n {
      assert slots[i := slot][..n] == slots[..n];
    } else {
      assert slots[i := slot][..n] == slots[..n][i := slot];
      OpenBoundsUpdate(slots[..n], i, slot);
    }
  }

  function FullUse(budgets: seq<Budget>): (uses: seq<TokenUse>)
    ensures |uses| == |budgets|
    ensures forall i :: 0 <= i < |budgets| ==> WithinPlan(uses[i], budgets[i])
  {
    seq(|budgets|, i requires 0 <= i < |budgets| => TokenUse(budgets[i].promptTokens, budgets[i].maxOutputTokens))
  }

  lemma {:induction false} OpenedBoundsAreSpent(budgets: seq<Budget>)
    ensures OpenBounds(Opened(budgets)) == Spent(budgets, FullUse(budgets))
  {
    if budgets != [] {
      var n := |budgets| - 1;
      OpenedBoundsAreSpent(budgets[..n]);
      assert Opened(budgets)[..n] == Opened(budgets[..n]);
      assert FullUse(budgets)[..n] == FullUse(budgets[..n]);
    }
  }

  /** Planning reserves no more than the balance that was read, plus the rounding. */
  lemma {:induction false} PlanReservesAtMostTheBalance(requests: seq<SlotRequest>, balance: int, effort: string)
    requires requests != [] && PlanTurn(requests, balance, effort).Planned?
    ensures var bounds := OpenBounds(Opened(PlanTurn(requests, balance, effort).budgets));
            && bounds <= balance + Slack(|requests|)
            && ((forall i :: 0 <= i < |requests| ==> FiveCentPrices(requests[i].spec)) ==> bounds <= balance)
  {
    var budgets := PlanTurn(requests, balance, effort).budgets;
    PlanFirstGivesEachSlot(requests, balance, effort, |requests|);
    OpenedBoundsAreSpent(budgets);
    PlannedTurnNeverOutspends(requests, balance, effort, FullUse(budgets));
  }
}
