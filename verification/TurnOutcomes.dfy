/** How the turns of a chat end, by what their steps met, and on what they were planned. */
module TurnOutcomes {
  import opened Wrappers
  import opened Affordability
  import opened Ledger
  import opened ChatBilling
  import opened MediaJobs
  import opened Economy
  import opened Traces
  import opened ReplyIds

  // --- the end of a turn ------------------------------------------------

  predicate EndShown(w: World, e: Event, maxAttempts: nat, p: nat) {
    || EventShows(w, e, maxAttempts, p, NoCredits) || EventShows(w, e, maxAttempts, p, TooExpensive)
    || EventShows(w, e, maxAttempts, p, GivenUp) || EventShows(w, e, maxAttempts, p, TurnFinished)
  }

  ghost predicate EndSeen(opening: map<User, int>, events: seq<Event>, maxAttempts: nat, p: nat) {
    || Seen(opening, events, maxAttempts, p, NoCredits) || Seen(opening, events, maxAttempts, p, TooExpensive)
    || Seen(opening, events, maxAttempts, p, GivenUp) || Seen(opening, events, maxAttempts, p, TurnFinished)
  }

  lemma {:induction false} EndSeenGrows(opening: map<User, int>, events: seq<Event>, maxAttempts: nat, p: nat)
    requires events != []
    ensures var n := |events| - 1;
            EndSeen(opening, events, maxAttempts, p)
            <==> EndSeen(opening, events[..n], maxAttempts, p)
                 || EndShown(RunFrom(Start(opening), events[..n], maxAttempts), events[n], maxAttempts, p)
  {
    SeenGrows(opening, events, maxAttempts, p, NoCredits);
    SeenGrows(opening, events, maxAttempts, p, TooExpensive);
    SeenGrows(opening, events, maxAttempts, p, GivenUp);
    SeenGrows(opening, events, maxAttempts, p, TurnFinished);
  }

  predicate IsTurn(w: World, p: nat) {
    p < |w.procs| && w.procs[p].Chatting?
  }

  predicate EndedAt(w: World, p: nat) {
    IsTurn(w, p) && w.procs[p].turn.pc.TurnEnded?
  }

  lemma {:induction false} StepEnds(db: Db, p: nat, t: Turn, ev: TurnEvent)
    ensures TurnStep(db, p, t, ev).1.pc.TurnEnded?
       <==> t.pc.TurnEnded? || TurnShows(db, p, t, ev, NoCredits) || TurnShows(db, p, t, ev, TooExpensive)
            || TurnShows(db, p, t, ev, GivenUp) || TurnShows(db, p, t, ev, TurnFinished)
  {
  }

  lemma {:induction false} NextEnds(w: World, e: Event, maxAttempts: nat, p: nat)
    ensures EndedAt(Next(w, e, maxAttempts), p) <==> EndedAt(w, p) || (IsTurn(w, p) && EndShown(w, e, maxAttempts, p))
  {
    if !(e.Step? && e.p == p) {
      OthersEndNothing(w, e, maxAttempts, p);
    } else if IsTurn(w, p) {
      StepEnds(w.db, p, w.procs[p].turn, e.ev);
      OwnEndIsShown(w, e, maxAttempts, p);
    }
  }

  lemma {:induction false} OthersEndNothing(w: World, e: Event, maxAttempts: nat, p: nat)
    requires !(e.Step? && e.p == p)
    ensures !EndShown(w, e, maxAttempts, p) && EndedAt(Next(w, e, maxAttempts), p) == EndedAt(w, p)
  {
  }

  lemma {:induction false} OwnEndIsShown(w: World, e: Event, maxAttempts: nat, p: nat)
    requires IsTurn(w, p) && e.Step? && e.p == p
    ensures Next(w, e, maxAttempts).procs == w.procs[p := Chatting(TurnStep(w.db, p, w.procs[p].turn, e.ev).1)]
    ensures var t := w.procs[p].turn;
            EndShown(w, e, maxAttempts, p)
            <==> TurnShows(w.db, p, t, e.ev, NoCredits) || TurnShows(w.db, p, t, e.ev, TooExpensive)
                 || TurnShows(w.db, p, t, e.ev, GivenUp) || TurnShows(w.db, p, t, e.ev, TurnFinished)
  {
  }

  lemma {:induction false} RunEnds(opening: map<User, int>, events: seq<Event>, maxAttempts: nat, p: nat)
    ensures IsTurn(RunFrom(Start(opening), events, maxAttempts), p)
            ==> (EndedAt(RunFrom(Start(opening), events, maxAttempts), p) <==> EndSeen(opening, events, maxAttempts, p))
    ensures p >= |RunFrom(Start(opening), events, maxAttempts).procs| ==> !EndSeen(opening, events, maxAttempts, p)
  {
    if events != [] {
      var n := |events| - 1;
      RunEnds(opening, events[..n], maxAttempts, p);
      LastStep(Start(opening), events, maxAttempts);
      EndSeenGrows(opening, events, maxAttempts, p);
      NextEnds(RunFrom(Start(opening), events[..n], maxAttempts), events[n], maxAttempts, p);
      TurnsStayTurns(RunFrom(Start(opening), events[..n], maxAttempts), events[n], maxAttempts, p);
    }
  }

  lemma {:induction false} TurnsStayTurns(w: World, e: Event, maxAttempts: nat, p: nat)
    ensures p < |w.procs| ==> p < |Next(w, e, maxAttempts).procs| && IsTurn(Next(w, e, maxAttempts), p) == IsTurn(w, p)
    ensures p >= |w.procs| ==> !EndShown(w, e, maxAttempts, p)
  {
  }

  /** Over every run a turn has ended exactly when it met an empty wallet, a slot that its share
      does not pay for, a failure before streaming, or the close of its last slot. */
  lemma {:induction false} TurnsEndExactly(opening: map<User, int>, events: seq<Event>, maxAttempts: nat, p: nat)
    requires IsTurn(RunFrom(Start(opening), events, maxAttempts), p)
    ensures RunFrom(Start(opening), events, maxAttempts).procs[p].turn.pc == TurnEnded
       <==> || Seen(opening, events, maxAttempts, p, NoCredits) || Seen(opening, events, maxAttempts, p, TooExpensive)
            || Seen(opening, events, maxAttempts, p, GivenUp) || Seen(opening, events, maxAttempts, p, TurnFinished)
  {
    RunEnds(opening, events, maxAttempts, p);
  }

  // --- the slots --------------------------------------------------------

  lemma {:induction false} RowsMean(opening: map<User, int>, events: seq<Event>, maxAttempts: nat, p: nat, i: nat)
    requires maxAttempts > 0
    ensures HasRow(RunFrom(Start(opening), events, maxAttempts).db, p, i) <==> Seen(opening, events, maxAttempts, p, ReplyCommitted(i))
  {
    if events != [] {
      var n := |events| - 1;
      var w := RunFrom(Start(opening), events[..n], maxAttempts);
      RowsMean(opening, events[..n], maxAttempts, p, i);
      EveryRunIsSafe(opening, events[..n], maxAttempts);
      LastStep(Start(opening), events, maxAttempts);
      SeenGrows(opening, events, maxAttempts, p, ReplyCommitted(i));
      RowsComeFromCommits(w, opening, events[n], maxAttempts, p, i);
      CommitsAreShown(w, events[n], maxAttempts, p, i);
    }
  }

  lemma {:induction false} CommitsAreShown(w: World, e: Event, maxAttempts: nat, p: nat, i: nat)
    ensures Commits(w, e, p, i) <==> EventShows(w, e, maxAttempts, p, ReplyCommitted(i))
  {
  }

  predicate CloseShown(w: World, e: Event, maxAttempts: nat, p: nat, i: nat) {
    || EventShows(w, e, maxAttempts, p, ReplyCommitted(i)) || EventShows(w, e, maxAttempts, p, ReplyLost(i))
    || EventShows(w, e, maxAttempts, p, SlotSilent(i))
  }

  ghost predicate CloseSeen(opening: map<User, int>, events: seq<Event>, maxAttempts: nat, p: nat, i: nat) {
    || Seen(opening, events, maxAttempts, p, ReplyCommitted(i)) || Seen(opening, events, maxAttempts, p, ReplyLost(i))
    || Seen(opening, events, maxAttempts, p, SlotSilent(i))
  }

  lemma {:induction false} CloseSeenGrows(opening: map<User, int>, events: seq<Event>, maxAttempts: nat, p: nat, i: nat)
    requires events != []
    ensures var n := |events| - 1;
            CloseSeen(opening, events, maxAttempts, p, i)
            <==> CloseSeen(opening, events[..n], maxAttempts, p, i)
                 || CloseShown(RunFrom(Start(opening), events[..n], maxAttempts), events[n], maxAttempts, p, i)
  {
    SeenGrows(opening, events, maxAttempts, p, ReplyCommitted(i));
    SeenGrows(opening, events, maxAttempts, p, ReplyLost(i));
    SeenGrows(opening, events, maxAttempts, p, SlotSilent(i));
  }

  /** Before it runs a turn has no slot to close; while it runs, a slot is closed or not. */
  predicate SlotTold(t: Turn, i: nat, closed: bool) {
    match t.pc
    case TurnStart => !closed
    case TurnChecked(_) => !closed
    case TurnRunning(slots) => closed == (i < |slots| && slots[i].pc.Closed?)
    case TurnEnded => true
  }

  lemma {:induction false} StepCloses(db: Db, p: nat, t: Turn, ev: TurnEvent, i: nat, closed: bool)
    requires SlotTold(t, i, closed)
    ensures SlotTold(TurnStep(db, p, t, ev).1, i, closed || TurnShows(db, p, t, ev, ReplyCommitted(i))
                                                  || TurnShows(db, p, t, ev, ReplyLost(i)) || TurnShows(db, p, t, ev, SlotSilent(i)))
  {
    if ev.Charge? || ev.Drop? || ev.Quiet? || ev.CommitSlot? {
      SlotStepCloses(db, p, t, ev, i, closed);
    }
  }

  lemma {:induction false} SlotStepCloses(db: Db, p: nat, t: Turn, ev: TurnEvent, i: nat, closed: bool)
    requires SlotTold(t, i, closed) && (ev.Charge? || ev.Drop? || ev.Quiet? || ev.CommitSlot?)
    ensures SlotTold(TurnStep(db, p, t, ev).1, i, closed || TurnShows(db, p, t, ev, ReplyCommitted(i))
                                                  || TurnShows(db, p, t, ev, ReplyLost(i)) || TurnShows(db, p, t, ev, SlotSilent(i)))
  {
  }

  ghost predicate SlotAt(w: World, p: nat, i: nat, closed: bool) {
    if IsTurn(w, p) then SlotTold(w.procs[p].turn, i, closed) else !closed
  }

  lemma {:induction false} NextCloses(w: World, e: Event, maxAttempts: nat, p: nat, i: nat, closed: bool)
    requires SlotAt(w, p, i, closed)
    ensures SlotAt(Next(w, e, maxAttempts), p, i, closed || CloseShown(w, e, maxAttempts, p, i))
  {
    if !(e.Step? && e.p == p) {
      OthersCloseNothing(w, e, maxAttempts, p, i, closed);
    } else if IsTurn(w, p) {
      StepCloses(w.db, p, w.procs[p].turn, e.ev, i, closed);
      OwnCloseIsShown(w, e, maxAttempts, p, i);
    }
  }

  lemma {:induction false} OthersCloseNothing(w: World, e: Event, maxAttempts: nat, p: nat, i: nat, closed: bool)
    requires SlotAt(w, p, i, closed) && !(e.Step? && e.p == p)
    ensures !CloseShown(w, e, maxAttempts, p, i) && SlotAt(Next(w, e, maxAttempts), p, i, closed)
  {
  }

  lemma {:induction false} OwnCloseIsShown(w: World, e: Event, maxAttempts: nat, p: nat, i: nat)
    requires IsTurn(w, p) && e.Step? && e.p == p
    ensures Next(w, e, maxAttempts).procs == w.procs[p := Chatting(TurnStep(w.db, p, w.procs[p].turn, e.ev).1)]
    ensures var t := w.procs[p].turn;
            CloseShown(w, e, maxAttempts, p, i)
            <==> TurnShows(w.db, p, t, e.ev, ReplyCommitted(i)) || TurnShows(w.db, p, t, e.ev, ReplyLost(i)) || TurnShows(w.db, p, t, e.ev, SlotSilent(i))
  {
  }

  lemma {:induction false} RunCloses(opening: map<User, int>, events: seq<Event>, maxAttempts: nat, p: nat, i: nat)
    ensures SlotAt(RunFrom(Start(opening), events, maxAttempts), p, i, CloseSeen(opening, events, maxAttempts, p, i))
  {
    if events != [] {
      var n := |events| - 1;
      RunCloses(opening, events[..n], maxAttempts, p, i);
      LastStep(Start(opening), events, maxAttempts);
      CloseSeenGrows(opening, events, maxAttempts, p, i);
      NextCloses(RunFrom(Start(opening), events[..n], maxAttempts), events[n], maxAttempts, p, i,
                 CloseSeen(opening, events[..n], maxAttempts, p, i));
    }
  }

  /** Over every run a reply of this slot is recorded, and so charged, exactly when its
      transaction committed; and a slot of a running turn has closed exactly when it did, or its
      reply was lost, or it had none. */
  lemma {:induction false} SlotsCloseExactly(opening: map<User, int>, events: seq<Event>, maxAttempts: nat, p: nat, i: nat)
    requires maxAttempts > 0 && IsTurn(RunFrom(Start(opening), events, maxAttempts), p)
    ensures var w := RunFrom(Start(opening), events, maxAttempts);
            var t := w.procs[p].turn;
            && (HasRow(w.db, p, i) <==> Seen(opening, events, maxAttempts, p, ReplyCommitted(i)))
            && (t.pc.TurnRunning? && i < |t.pc.slots| ==>
                  (t.pc.slots[i].pc == Closed
                   <==> || Seen(opening, events, maxAttempts, p, ReplyCommitted(i)) || Seen(opening, events, maxAttempts, p, ReplyLost(i))
                        || Seen(opening, events, maxAttempts, p, SlotSilent(i))))
  {
    RowsMean(opening, events, maxAttempts, p, i);
    RunCloses(opening, events, maxAttempts, p, i);
  }

  // --- the plan ---------------------------------------------------------

  /** Step n of the run is where turn p reads this balance from the wallet of its user. */
  predicate ReadsAt(opening: map<User, int>, events: seq<Event>, maxAttempts: nat, p: nat, balance: int, n: nat)
    requires n < |events|
  {
    var w := RunFrom(Start(opening), events[..n], maxAttempts);
    && events[n].Step? && events[n].p == p && events[n].ev.Look? && IsTurn(w, p)
    && balance == Balance(w.db, w.procs[p].turn.user) && balance > 0
  }

  ghost predicate HasRead(opening: map<User, int>, events: seq<Event>, maxAttempts: nat, p: nat, balance: int) {
    exists n: nat :: n < |events| && ReadsAt(opening, events, maxAttempts, p, balance, n)
  }

  lemma {:induction false} ReadStays(opening: map<User, int>, events: seq<Event>, maxAttempts: nat, p: nat, balance: int)
    requires events != [] && HasRead(opening, events[..|events| - 1], maxAttempts, p, balance)
    ensures HasRead(opening, events, maxAttempts, p, balance)
  {
    var last := |events| - 1;
    var n: nat :| n < last && ReadsAt(opening, events[..last], maxAttempts, p, balance, n);
    assert events[..last][..n] == events[..n];
    assert ReadsAt(opening, events, maxAttempts, p, balance, n);
  }

  lemma {:induction false} NextReads(w: World, e: Event, maxAttempts: nat, p: nat)
    requires IsTurn(Next(w, e, maxAttempts), p) && Next(w, e, maxAttempts).procs[p].turn.pc.TurnChecked?
    ensures IsTurn(w, p)
    ensures var b := Next(w, e, maxAttempts).procs[p].turn.pc.balance;
            || (w.procs[p].turn.pc == TurnChecked(b))
            || (e.Step? && e.p == p && e.ev.Look? && b == Balance(w.db, w.procs[p].turn.user) && b > 0)
  {
  }

  lemma {:induction false} CheckedMeansRead(opening: map<User, int>, events: seq<Event>, maxAttempts: nat, p: nat)
    requires var w := RunFrom(Start(opening), events, maxAttempts); IsTurn(w, p) && w.procs[p].turn.pc.TurnChecked?
    ensures HasRead(opening, events, maxAttempts, p, RunFrom(Start(opening), events, maxAttempts).procs[p].turn.pc.balance)
  {
    var n := |events| - 1;
    var w := RunFrom(Start(opening), events[..n], maxAttempts);
    LastStep(Start(opening), events, maxAttempts);
    NextReads(w, events[n], maxAttempts, p);
    var b := RunFrom(Start(opening), events, maxAttempts).procs[p].turn.pc.balance;
    if w.procs[p].turn.pc == TurnChecked(b) {
      CheckedMeansRead(opening, events[..n], maxAttempts, p);
      ReadStays(opening, events, maxAttempts, p, b);
    } else {
      assert ReadsAt(opening, events, maxAttempts, p, b, n);
    }
  }

  predicate AreBudgets(slots: seq<Slot>, budgets: seq<Budget>) {
    |slots| == |budgets| && forall i :: 0 <= i < |slots| ==> slots[i].budget == budgets[i]
  }

  /** The slots are those of a plan made on a balance that had been read before. */
  ghost predicate PlannedOn(opening: map<User, int>, events: seq<Event>, maxAttempts: nat, p: nat, slots: seq<Slot>) {
    exists balance, requests, effort ::
      && HasRead(opening, events, maxAttempts, p, balance)
      && PlanTurn(requests, balance, effort).Planned? && AreBudgets(slots, PlanTurn(requests, balance, effort).budgets)
  }

  lemma {:induction false} NextPlans(w: World, e: Event, maxAttempts: nat, p: nat)
    requires IsTurn(Next(w, e, maxAttempts), p) && Next(w, e, maxAttempts).procs[p].turn.pc.TurnRunning?
    ensures IsTurn(w, p)
    ensures var t, slots := w.procs[p].turn, Next(w, e, maxAttempts).procs[p].turn.pc.slots;
            || (t.pc.TurnRunning? && |t.pc.slots| == |slots| && forall i :: 0 <= i < |slots| ==> slots[i].budget == t.pc.slots[i].budget)
            || (t.pc.TurnChecked? && e.Step? && e.p == p && e.ev.Plan?
                && PlanTurn(e.ev.requests, t.pc.balance, e.ev.effort).Planned?
                && AreBudgets(slots, PlanTurn(e.ev.requests, t.pc.balance, e.ev.effort).budgets))
  {
  }

  /** Over every run the slots of a running turn are budgeted as planned on a positive balance
      that its user's wallet had at one moment of the run. */
  lemma {:induction false} TurnsRunOnAReading(opening: map<User, int>, events: seq<Event>, maxAttempts: nat, p: nat)
    requires var w := RunFrom(Start(opening), events, maxAttempts); IsTurn(w, p) && w.procs[p].turn.pc.TurnRunning?
    ensures PlannedOn(opening, events, maxAttempts, p, RunFrom(Start(opening), events, maxAttempts).procs[p].turn.pc.slots)
  {
    var n := |events| - 1;
    var w := RunFrom(Start(opening), events[..n], maxAttempts);
    var slots := RunFrom(Start(opening), events, maxAttempts).procs[p].turn.pc.slots;
    LastStep(Start(opening), events, maxAttempts);
    NextPlans(w, events[n], maxAttempts, p);
    var t, e := w.procs[p].turn, events[n];
    if t.pc.TurnRunning? {
      TurnsRunOnAReading(opening, events[..n], maxAttempts, p);
      var balance, requests, effort :|
        && HasRead(opening, events[..n], maxAttempts, p, balance)
        && PlanTurn(requests, balance, effort).Planned? && AreBudgets(t.pc.slots, PlanTurn(requests, balance, effort).budgets);
      ReadStays(opening, events, maxAttempts, p, balance);
      assert AreBudgets(slots, PlanTurn(requests, balance, effort).budgets);
    } else {
      CheckedMeansRead(opening, events[..n], maxAttempts, p);
      ReadStays(opening, events, maxAttempts, p, t.pc.balance);
      assert AreBudgets(slots, PlanTurn(e.ev.requests, t.pc.balance, e.ev.effort).budgets);
    }
  }
}
