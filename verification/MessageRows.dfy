/** The messages table against the history of replies: rewinds and chat deletions remove
    rows, and never touch money. */
module MessageRows {
  import opened Wrappers
  import opened Ledger
  import opened Payments
  import opened MediaJobs
  import opened ChatBilling
  import opened Economy
  import opened Overdraft
  import opened Traces

  /** A step records at most one reply, and inserts its row. */
  ghost predicate Records(db: Db, db': Db) {
    || (db'.recorded == db.recorded && db'.table == db.table)
    || exists r :: db'.recorded == db.recorded + [r] && db'.table == db.table[|db.recorded| := r]
  }

  lemma {:induction false} MovesRecord(db: Db, db': Db, s: Sid)
    requires MovesByCommit(db, db', s)
    ensures Records(db, db')
  {
  }

  lemma {:induction false} TurnMoves(db: Db, p: nat, t: Turn, ev: TurnEvent)
    requires TurnOk(db, p, t)
    ensures var db' := TurnStep(db, p, t, ev).0;
            || (db'.wallets == db.wallets && db'.recorded == db.recorded && db'.table == db.table)
            || (ev.CommitSlot? && MovesByCommit(db, db', Sid(p, ev.slot)))
  {
    if ev.CommitSlot? {
      assert SlotIs(t, ev.slot, Charging) ==> SlotOk(db, p, t, ev.slot);
    } else if ev.Charge? {
      ChargeMovesNothing(db, p, t, ev);
    }
  }

  lemma {:induction false} ChargeMovesNothing(db: Db, p: nat, t: Turn, ev: TurnEvent)
    requires TurnOk(db, p, t) && ev.Charge?
    ensures var db' := TurnStep(db, p, t, ev).0;
            db'.wallets == db.wallets && db'.recorded == db.recorded && db'.table == db.table
  {
    if SlotIs(t, ev.slot, Streaming) {
      assert SlotOk(db, p, t, ev.slot);
    }
  }

  lemma {:induction false} StepRecords(db: Db, p: nat, proc: Proc, je: JobEvent, ev: TurnEvent, maxAttempts: nat)
    requires ProcOk(db, p, proc, maxAttempts)
    ensures Records(db, StepProc(db, p, proc, je, ev, maxAttempts).0)
  {
    var db' := StepProc(db, p, proc, je, ev, maxAttempts).0;
    match proc
    case Buying(c) =>
      CheckoutMoves(db, Sid(p, 0), c);
      MovesRecord(db, db', Sid(p, 0));
    case Delivering(d) =>
      DeliveryMoves(db, Sid(p, 0), d);
      MovesRecord(db, db', Sid(p, 0));
    case Verifying(v) =>
      VerifyMoves(db, Sid(p, 0), v);
      MovesRecord(db, db', Sid(p, 0));
    case Making(j) =>
      JobMoves(db, p, j, je, maxAttempts);
      MovesRecord(db, db', SidOf(p, je.part));
    case Chatting(t) =>
      TurnMoves(db, p, t, ev);
      if ev.CommitSlot? && MovesByCommit(db, db', Sid(p, ev.slot)) {
        MovesRecord(db, db', Sid(p, ev.slot));
      }
  }

  lemma {:induction false} NextRecords(w: World, opening: map<User, int>, e: Event, maxAttempts: nat)
    requires Inv(w, opening, maxAttempts) && !e.EraseRows?
    ensures Records(w.db, Next(w, e, maxAttempts).db)
  {
    if e.Step? && e.p < |w.procs| {
      assert ProcOk(w.db, e.p, w.procs[e.p], maxAttempts);
      StepRecords(w.db, e.p, w.procs[e.p], e.je, e.ev, maxAttempts);
    }
  }

  predicate ErasedAt(opening: map<User, int>, events: seq<Event>, maxAttempts: nat, id: nat, n: nat)
    requires n < |events|
  {
    events[n].EraseRows? && id in events[n].ids && id < |RunFrom(Start(opening), events[..n], maxAttempts).db.recorded|
  }

  /** Some rewind or deletion after it was stored named this row. */
  ghost predicate Erased(opening: map<User, int>, events: seq<Event>, maxAttempts: nat, id: nat) {
    exists n: nat :: n < |events| && ErasedAt(opening, events, maxAttempts, id, n)
  }

  lemma {:induction false} ErasedGrows(opening: map<User, int>, events: seq<Event>, maxAttempts: nat, id: nat)
    requires events != []
    ensures var n := |events| - 1;
            Erased(opening, events, maxAttempts, id)
            <==> Erased(opening, events[..n], maxAttempts, id) || ErasedAt(opening, events, maxAttempts, id, n)
  {
    var last := |events| - 1;
    if Erased(opening, events, maxAttempts, id) {
      var n: nat :| n < |events| && ErasedAt(opening, events, maxAttempts, id, n);
      if n < last {
        assert events[..last][..n] == events[..n];
        assert ErasedAt(opening, events[..last], maxAttempts, id, n);
      }
    }
    if Erased(opening, events[..last], maxAttempts, id) {
      var n: nat :| n < last && ErasedAt(opening, events[..last], maxAttempts, id, n);
      assert events[..last][..n] == events[..n];
      assert ErasedAt(opening, events, maxAttempts, id, n);
    }
  }

  /** The row is there if it was ever recorded and not erased, and is what was recorded. */
  predicate RowIs(db: Db, id: nat, erased: bool) {
    && (id in db.table <==> id < |db.recorded| && !erased)
    && (id in db.table ==> db.table[id] == db.recorded[id])
    && (erased ==> id < |db.recorded|)
  }

  lemma {:induction false} NextKeepsRow(w: World, opening: map<User, int>, e: Event, maxAttempts: nat, id: nat, erased: bool)
    requires Inv(w, opening, maxAttempts) && RowIs(w.db, id, erased)
    ensures RowIs(Next(w, e, maxAttempts).db, id, erased || (e.EraseRows? && id in e.ids && id < |w.db.recorded|))
  {
    if !e.EraseRows? {
      NextRecords(w, opening, e, maxAttempts);
      RecordingKeepsRow(w.db, Next(w, e, maxAttempts).db, id, erased);
    }
  }

  lemma {:induction false} RecordingKeepsRow(db: Db, db': Db, id: nat, erased: bool)
    requires Records(db, db') && RowIs(db, id, erased)
    ensures RowIs(db', id, erased)
  {
  }

  /** A reply row is in the table exactly when its charge has been committed and no rewind
      or deletion has removed it since, and it is the reply that was charged. */
  lemma {:induction false} RowsAreRecordedAndNotErased(opening: map<User, int>, events: seq<Event>, maxAttempts: nat, id: nat)
    requires maxAttempts > 0
    ensures RowIs(RunFrom(Start(opening), events, maxAttempts).db, id, Erased(opening, events, maxAttempts, id))
  {
    if events != [] {
      var n := |events| - 1;
      RowsAreRecordedAndNotErased(opening, events[..n], maxAttempts, id);
      EveryRunIsSafe(opening, events[..n], maxAttempts);
      LastStep(Start(opening), events, maxAttempts);
      ErasedGrows(opening, events, maxAttempts, id);
      NextKeepsRow(RunFrom(Start(opening), events[..n], maxAttempts), opening, events[n], maxAttempts, id,
                   Erased(opening, events[..n], maxAttempts, id));
    }
  }
}
